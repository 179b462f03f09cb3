/** The protocol state machine of `state_machine.rs`: each event moves the
    machine to its next state, writing SMTP commands on the connection,
    upgrading it to TLS and finally sending the message body. */
module Machine {
  import opened Wrappers
  import opened Utf8
  import Base64
  import Stream
  import opened StateEvents
  import SendBody
  import Config

  datatype State =
    | Start
    | ConnectingTcp
    | ConnectedTcpHelloSent
    | ConnectedTcp
    | ConnectedTcpStartTls
    | ConnectedTls
    | SendingMailHeaders
    | SendingMailData
    | MailSent
    | Finished
    | Failed

  /** How `handle_event` ends: it returns, or `send_body` panics on the
      error of a failed write or flush (`unwrap`) and the state is never
      assigned. */
  datatype Completion = Returned | Panicked(error: Stream.IoError)

  /** The connection fields a transition reads; `body` stands for the
      subject and attachment fields through what `send_body` does with
      them: the operations it performs when all of them succeed. */
  datatype Conn = Conn(stream: Stream.Stream, username: Option<string>, password: Option<string>,
                       from: string, to: string, body: seq<Stream.Io>)

  /** A transition: the next state, the stream variant left, the I/O that
      reached the socket, and how the handler ended. */
  datatype Reaction = Reaction(state: State, stream: Stream.Stream, writes: seq<Stream.Io>, completion: Completion)

  /** `format!("{}\r\n", data).as_bytes()`. */
  function Command(data: string): seq<byte> {
    AsBytes(data + "\r\n")
  }

  /** `write_and_get_next_state` as a reaction: the command is written and
      `next` reached when the stream is there and the write succeeds;
      otherwise nothing is written and the machine fails. */
  function Written(stream: Stream.Stream, failAt: Option<nat>, data: string, next: State): Reaction {
    if stream != Stream.NoStream && failAt != Some(0) then Reaction(next, stream, [Stream.Wrote(Command(data))], Returned)
    else Reaction(Failed, stream, [], Returned)
  }

  function Unchanged(next: State, stream: Stream.Stream): Reaction {
    Reaction(next, stream, [], Returned)
  }

  const Ehlo: string := "EHLO rustclient"

  /** The last three arms, which every state reaches when its own arms do
      not match: a 5xx reply fails, `Complete` finishes, anything else
      has no valid transition and fails. */
  function Otherwise(e: Event, stream: Stream.Stream): Reaction {
    Unchanged(Fallback(e), stream)
  }

  function Fallback(e: Event): State {
    if e.Received5xx? then Failed
    else if e.Complete? then Finished
    else Failed
  }

  /** The upgrade after STARTTLS was accepted, then the second EHLO. */
  function Upgrade(c: Conn, net: Stream.Network): Reaction {
    var eff := Stream.Apply(c.stream, Stream.Op.SwitchToTls(net.hostnameValid, net.handshakeOk));
    if eff.error.None? then Written(eff.stream, net.failAt, Ehlo, ConnectedTls)
    else Unchanged(Failed, eff.stream)
  }

  /** Answering a 334 prompt with the base64 of a credential. */
  function Credential(credential: Option<string>, c: Conn, net: Stream.Network): Reaction {
    if credential.Some? then Written(c.stream, net.failAt, Base64.Encode(AsBytes(credential.value)), ConnectedTls)
    else Unchanged(Failed, c.stream)
  }

  /** The arms for `ConnectedTls`: AUTH LOGIN, the credentials, MAIL FROM. */
  function InTls(e: Event, c: Conn, net: Stream.Network): Reaction {
    match e
    case Received250(_) => Written(c.stream, net.failAt, "AUTH LOGIN", ConnectedTls)
    case Received250StartTlsAuth(_) => Written(c.stream, net.failAt, "AUTH LOGIN", ConnectedTls)
    case Received334Username => Credential(c.username, c, net)
    case Received334Password => Credential(c.password, c, net)
    case AuthSuccess(_) => Written(c.stream, net.failAt, "MAIL FROM:<" + c.from + ">", SendingMailHeaders)
    case _ => Otherwise(e, c.stream)
  }

  /** `send_body`: all of the body's operations and `MailSent`, or those
      before the first failure and a panic that leaves the state as it
      was. */
  function BodySent(c: Conn, net: Stream.Network): Reaction {
    var n := SendBody.Performed(c.stream != Stream.NoStream, net.failAt, |c.body|);
    if n == |c.body| then Reaction(MailSent, c.stream, c.body, Returned)
    else Reaction(SendingMailData, c.stream, c.body[..n], Panicked(SendBody.FailureOf(c.stream, c.body[n])))
  }

  /** The arm for `Start`: opening the TCP connection. */
  function InStart(e: Event, c: Conn, net: Stream.Network): Reaction {
    if e.Connect? then
      var eff := Stream.Apply(c.stream, Stream.Op.Connect(net.resolution, net.connectOk));
      Unchanged(if eff.error.None? then ConnectingTcp else Failed, eff.stream)
    else Otherwise(e, c.stream)
  }

  /** The arm for `ConnectingTcp`: EHLO after the greeting. */
  function InConnecting(e: Event, c: Conn, net: Stream.Network): Reaction {
    if e.Received220? then Written(c.stream, net.failAt, Ehlo, ConnectedTcpHelloSent) else Otherwise(e, c.stream)
  }

  /** The arms for `ConnectedTcpHelloSent`: a plain 250, or STARTTLS
      after the offer. */
  function InHelloSent(e: Event, c: Conn, net: Stream.Network): Reaction {
    if e.Received250? then Unchanged(ConnectedTcp, c.stream)
    else if e.Received250StartTls? then Written(c.stream, net.failAt, "STARTTLS", ConnectedTcpStartTls)
    else Otherwise(e, c.stream)
  }

  /** The arm for `ConnectedTcp`: STARTTLS after the offer. */
  function InConnectedTcp(e: Event, c: Conn, net: Stream.Network): Reaction {
    if e.Received250StartTls? then Written(c.stream, net.failAt, "STARTTLS", ConnectedTcpStartTls)
    else Otherwise(e, c.stream)
  }

  /** The arm for `ConnectedTcpStartTls`: the upgrade on 220. */
  function InStartTls(e: Event, c: Conn, net: Stream.Network): Reaction {
    if e.Received220? then Upgrade(c, net) else Otherwise(e, c.stream)
  }

  /** The arms before TLS: connect, EHLO, STARTTLS and the upgrade. */
  function OnTcp(s: State, e: Event, c: Conn, net: Stream.Network): Reaction {
    match s
    case Start => InStart(e, c, net)
    case ConnectingTcp => InConnecting(e, c, net)
    case ConnectedTcpHelloSent => InHelloSent(e, c, net)
    case ConnectedTcp => InConnectedTcp(e, c, net)
    case ConnectedTcpStartTls => InStartTls(e, c, net)
    case _ => Otherwise(e, c.stream)
  }

  /** The arms for `SendingMailHeaders`: RCPT TO, then DATA. */
  function InHeaders(e: Event, c: Conn, net: Stream.Network): Reaction {
    if e.Received250SenderOk? then Written(c.stream, net.failAt, "RCPT TO:<" + c.to + ">", SendingMailHeaders)
    else if e.Received250RecipientOk? then Written(c.stream, net.failAt, "DATA", SendingMailData)
    else Otherwise(e, c.stream)
  }

  /** The arm for `MailSent`: QUIT once the message is queued. */
  function InMailSent(e: Event, c: Conn, net: Stream.Network): Reaction {
    if e.Received250Queued? then Written(c.stream, net.failAt, "QUIT", Finished) else Otherwise(e, c.stream)
  }

  /** The arms for `SendingMailData`: the body on 354. */
  function InData(e: Event, c: Conn, net: Stream.Network): Reaction {
    if e.Received354MailInput? then BodySent(c, net) else Otherwise(e, c.stream)
  }

  /** The arms after the upgrade: authentication, the envelope, the body
      and the two final states. */
  function OnTls(s: State, e: Event, c: Conn, net: Stream.Network): Reaction {
    match s
    case ConnectedTls => InTls(e, c, net)
    case SendingMailHeaders => InHeaders(e, c, net)
    case SendingMailData => InData(e, c, net)
    case MailSent => InMailSent(e, c, net)
    case _ => Otherwise(e, c.stream)
  }

  /** `handle_event`: the arms of its `match`, grouped by state. Every arm
      names a specific event other than a 5xx reply or `Complete`, so the
      arms of each state followed by `Otherwise` keep the source's
      first-match order. */
  function Transition(s: State, e: Event, c: Conn, net: Stream.Network): Reaction {
    match s
    case Start | ConnectingTcp | ConnectedTcpHelloSent | ConnectedTcp | ConnectedTcpStartTls => OnTcp(s, e, c, net)
    case _ => OnTls(s, e, c, net)
  }

  // ---------------------------------------------------------------------
  // Properties of the transition

  /** A command's bytes are its text's bytes followed by CR LF. */
  lemma CommandBytes(data: string)
    ensures Command(data) == AsBytes(data) + [CR, LF]
  {
    LineBytes(data);
  }

  /** From `Start` only `Connect` goes anywhere but `Failed` (or `Finished`
      on `Complete`), and it reaches `ConnectingTcp` exactly when the
      connection opens. */
  lemma FromStart(e: Event, c: Conn, net: Stream.Network)
    ensures var r := Transition(Start, e, c, net);
      && (e == Connect ==> (r.state == ConnectingTcp <==> net.resolution.Resolved? && net.connectOk))
      && (e == Connect ==> (r.state == ConnectingTcp || r.state == Failed))
      && (e == Connect && r.state == ConnectingTcp ==> r.stream == Stream.TcpStream)
      && (e == Complete ==> r.state == Finished)
      && (e != Connect && e != Complete ==> r.state == Failed)
      && r.writes == []
  {
  }

  /** `Failed` and `Finished` only move to `Finished` on `Complete`; every
      other event sends them to `Failed`, with nothing written and the
      stream untouched. */
  lemma Terminal(s: State, e: Event, c: Conn, net: Stream.Network)
    requires s == Failed || s == Finished
    ensures Transition(s, e, c, net) == Unchanged(if e == Complete then Finished else Failed, c.stream)
  {
  }

  /** `Finished` is entered only on `Complete`, or on `Received250Queued`
      in `MailSent` after QUIT was written. */
  lemma FinishedOnlyBy(s: State, e: Event, c: Conn, net: Stream.Network)
    requires Transition(s, e, c, net).state == Finished
    ensures e == Complete || (s == MailSent && e.Received250Queued? && Transition(s, e, c, net).writes == [Stream.Wrote(Command("QUIT"))])
  {
  }

  /** A command is written only when there is a stream and the write
      succeeds, and then it is the command's text and CR LF. */
  lemma WrittenMeaning(stream: Stream.Stream, failAt: Option<nat>, data: string, next: State)
    ensures var r := Written(stream, failAt, data, next);
      && (r.writes != [] <==> stream != Stream.NoStream && failAt != Some(0))
      && (r.writes != [] ==> r.writes == [Stream.Wrote(AsBytes(data) + [CR, LF])] && r.state == next)
      && (r.writes == [] ==> r.state == Failed)
      && r.stream == stream && r.completion == Returned
  {
    CommandBytes(data);
  }

  /** A transition writes at most one command unless it sends the body,
      and never writes when there is no stream or the write fails. */
  lemma WritesAtMostOne(s: State, e: Event, c: Conn, net: Stream.Network)
    requires !(s == SendingMailData && e.Received354MailInput?)
    ensures var r := Transition(s, e, c, net);
      && |r.writes| <= 1
      && (r.writes != [] ==> r.stream != Stream.NoStream && net.failAt != Some(0) && r.writes[0].Wrote?)
  {
  }

  /** The plaintext steps: EHLO after the greeting, STARTTLS after the
      offer; a failed write fails the machine. */
  lemma PlaintextCommands(e: Event, c: Conn, net: Stream.Network)
    requires c.stream == Stream.TcpStream
    ensures e.Received220? ==> Transition(ConnectingTcp, e, c, net) == Written(c.stream, net.failAt, Ehlo, ConnectedTcpHelloSent)
    ensures e.Received250? ==> Transition(ConnectedTcpHelloSent, e, c, net) == Unchanged(ConnectedTcp, c.stream)
    ensures e.Received250StartTls? ==>
      && Transition(ConnectedTcp, e, c, net) == Written(c.stream, net.failAt, "STARTTLS", ConnectedTcpStartTls)
      && Transition(ConnectedTcpHelloSent, e, c, net) == Written(c.stream, net.failAt, "STARTTLS", ConnectedTcpStartTls)
    ensures (e.Received220? || e.Received250StartTls?) && net.failAt == Some(0) ==>
      Transition(if e.Received220? then ConnectingTcp else ConnectedTcp, e, c, net) == Unchanged(Failed, c.stream)
  {
  }

  /** After STARTTLS is accepted the stream is upgraded first: a failed
      upgrade fails the machine with nothing written; a successful one
      writes the second EHLO over TLS. */
  lemma TlsUpgrade(msg: string, c: Conn, net: Stream.Network)
    requires c.stream == Stream.TcpStream
    ensures var r := Transition(ConnectedTcpStartTls, Received220(msg), c, net);
      && (!(net.hostnameValid && net.handshakeOk) ==> r.state == Failed && r.writes == [])
      && (!net.hostnameValid ==> r.stream == Stream.TcpStream)
      && (net.hostnameValid && !net.handshakeOk ==> r.stream == Stream.NoStream)
      && (net.hostnameValid && net.handshakeOk ==> r == Written(Stream.TlsStream, net.failAt, Ehlo, ConnectedTls))
  {
  }

  /** In `ConnectedTls`: a 250 reply asks for AUTH LOGIN; a prompt is
      answered with the base64 of the credential, or fails the machine
      without writing when the credential is missing. */
  lemma Authentication(msg: string, c: Conn, net: Stream.Network)
    ensures Transition(ConnectedTls, Received250(msg), c, net) == Written(c.stream, net.failAt, "AUTH LOGIN", ConnectedTls)
    ensures Transition(ConnectedTls, Received250StartTlsAuth(msg), c, net) == Written(c.stream, net.failAt, "AUTH LOGIN", ConnectedTls)
    ensures c.username.None? ==> Transition(ConnectedTls, Received334Username, c, net) == Unchanged(Failed, c.stream)
    ensures c.password.None? ==> Transition(ConnectedTls, Received334Password, c, net) == Unchanged(Failed, c.stream)
    ensures c.username.Some? ==> (Transition(ConnectedTls, Received334Username, c, net)
      == Written(c.stream, net.failAt, Base64.Encode(AsBytes(c.username.value)), ConnectedTls))
    ensures c.password.Some? ==> (Transition(ConnectedTls, Received334Password, c, net)
      == Written(c.stream, net.failAt, Base64.Encode(AsBytes(c.password.value)), ConnectedTls))
  {
  }

  /** The credential written in answer to a prompt decodes back to the
      credential's bytes. */
  lemma CredentialRoundTrip(credential: string)
    ensures Base64.Decode(Base64.Encode(AsBytes(credential))) == Some(AsBytes(credential))
  {
    Base64.DecodeEncode(AsBytes(credential));
  }

  /** The envelope, every write succeeding: MAIL FROM, RCPT TO, DATA, the
      body, then QUIT. */
  lemma Envelope(msg: string, c: Conn, net: Stream.Network)
    requires c.stream != Stream.NoStream && net.failAt.None?
    ensures Transition(ConnectedTls, AuthSuccess(msg), c, net)
      == Reaction(SendingMailHeaders, c.stream, [Stream.Wrote(Command("MAIL FROM:<" + c.from + ">"))], Returned)
    ensures Transition(SendingMailHeaders, Received250SenderOk(msg), c, net)
      == Reaction(SendingMailHeaders, c.stream, [Stream.Wrote(Command("RCPT TO:<" + c.to + ">"))], Returned)
    ensures Transition(SendingMailHeaders, Received250RecipientOk(msg), c, net)
      == Reaction(SendingMailData, c.stream, [Stream.Wrote(Command("DATA"))], Returned)
    ensures Transition(SendingMailData, Received354MailInput(msg), c, net)
      == Reaction(MailSent, c.stream, c.body, Returned)
    ensures Transition(MailSent, Received250Queued(msg), c, net)
      == Reaction(Finished, c.stream, [Stream.Wrote(Command("QUIT"))], Returned)
  {
  }

  /** The body is sent in full (and the machine reaches `MailSent`), or a
      failed write or flush panics and the state stays `SendingMailData`. */
  lemma BodyOutcome(msg: string, c: Conn, net: Stream.Network)
    requires c.body != []
    ensures var r := Transition(SendingMailData, Received354MailInput(msg), c, net);
      var plan := c.body;
      && (r.completion == Returned <==> r.state == MailSent)
      && (r.completion.Panicked? <==> r.state == SendingMailData)
      && (r.state == MailSent <==> c.stream != Stream.NoStream && (net.failAt.None? || net.failAt.value >= |plan|))
      && (r.state == MailSent ==> r.writes == plan)
  {
  }

  /** The stream each state runs on: none before connecting, TCP until the
      upgrade, TLS from then on. `Failed` and `Finished` say nothing. */
  predicate Coherent(s: State, stream: Stream.Stream) {
    && (s == Start ==> stream == Stream.NoStream)
    && (s in {ConnectingTcp, ConnectedTcpHelloSent, ConnectedTcp, ConnectedTcpStartTls} ==> stream == Stream.TcpStream)
    && (s in {ConnectedTls, SendingMailHeaders, SendingMailData, MailSent} ==> stream == Stream.TlsStream)
  }

  /** Every transition keeps state and stream coherent; in particular once
      the machine runs over TLS it stays on TLS until it fails or ends. */
  lemma CoherentPreserved(s: State, e: Event, c: Conn, net: Stream.Network)
    requires Coherent(s, c.stream)
    ensures var r := Transition(s, e, c, net); Coherent(r.state, r.stream)
  {
    match s
    case Start | ConnectingTcp | ConnectedTcpHelloSent | ConnectedTcp | ConnectedTcpStartTls =>
      OnTcpCoherent(s, e, c, net);
    case _ =>
      OnTlsCoherent(s, e, c, net);
  }

  // `OnTcpCoherent` and `OnTlsCoherent` are the two halves of
  // `CoherentPreserved`, one per group of arms, and `TcpGroup` and
  // `TlsGroup` unfold `Transition` into its groups. They exist for the
  // solver: in one piece these proofs run out of resource.

  lemma OnTcpCoherent(s: State, e: Event, c: Conn, net: Stream.Network)
    requires Coherent(s, c.stream)
    ensures var r := OnTcp(s, e, c, net); Coherent(r.state, r.stream)
  {
  }

  lemma OnTlsCoherent(s: State, e: Event, c: Conn, net: Stream.Network)
    requires Coherent(s, c.stream)
    ensures var r := OnTls(s, e, c, net); Coherent(r.state, r.stream)
  {
  }

  /** No transition returns to `Start`. */
  lemma NeverStart(s: State, e: Event, c: Conn, net: Stream.Network)
    ensures Transition(s, e, c, net).state != Start
  {
  }

  /** Events the classifier can produce never take the machine past
      authentication: `AuthSuccess`, the envelope replies and `Complete`
      are not among them. */
  lemma ReplyEventsStopAtTls(s: State, e: Event, c: Conn, net: Stream.Network)
    requires IsReplyEvent(e) || e == Stop
    ensures Transition(s, e, c, net).state !in {SendingMailHeaders, SendingMailData, MailSent, Finished}
  {
    if s in {Start, ConnectingTcp, ConnectedTcpHelloSent, ConnectedTcp, ConnectedTcpStartTls} {
      TcpGroup(s, e, c, net);
    } else {
      TlsGroup(s, e, c, net);
    }
  }

  /** After the upgrade no transition touches the stream. */
  lemma OnTlsKeepsStream(s: State, e: Event, c: Conn, net: Stream.Network)
    ensures OnTls(s, e, c, net).stream == c.stream
  {
  }

  lemma TcpGroup(s: State, e: Event, c: Conn, net: Stream.Network)
    requires s in {Start, ConnectingTcp, ConnectedTcpHelloSent, ConnectedTcp, ConnectedTcpStartTls}
    ensures Transition(s, e, c, net) == OnTcp(s, e, c, net)
  {
  }

  lemma TlsGroup(s: State, e: Event, c: Conn, net: Stream.Network)
    requires s !in {Start, ConnectingTcp, ConnectedTcpHelloSent, ConnectedTcp, ConnectedTcpStartTls}
    ensures Transition(s, e, c, net) == OnTls(s, e, c, net)
  {
  }

  // The transition in one given state is that state's arms. Stating it
  // once per state keeps the proofs about a known state cheap: the solver
  // need not unfold `Transition` and its two groups there.

  lemma AtStart(e: Event, c: Conn, net: Stream.Network)
    ensures Transition(Start, e, c, net) == InStart(e, c, net)
  {
  }

  lemma AtConnecting(e: Event, c: Conn, net: Stream.Network)
    ensures Transition(ConnectingTcp, e, c, net) == InConnecting(e, c, net)
  {
  }

  lemma AtHelloSent(e: Event, c: Conn, net: Stream.Network)
    ensures Transition(ConnectedTcpHelloSent, e, c, net) == InHelloSent(e, c, net)
  {
  }

  lemma AtStartTls(e: Event, c: Conn, net: Stream.Network)
    ensures Transition(ConnectedTcpStartTls, e, c, net) == InStartTls(e, c, net)
  {
  }

  lemma AtTls(e: Event, c: Conn, net: Stream.Network)
    ensures Transition(ConnectedTls, e, c, net) == InTls(e, c, net)
  {
  }

  lemma AtHeaders(e: Event, c: Conn, net: Stream.Network)
    ensures Transition(SendingMailHeaders, e, c, net) == InHeaders(e, c, net)
  {
  }

  lemma AtData(e: Event, c: Conn, net: Stream.Network)
    ensures Transition(SendingMailData, e, c, net) == InData(e, c, net)
  {
  }

  lemma AtMailSent(e: Event, c: Conn, net: Stream.Network)
    ensures Transition(MailSent, e, c, net) == InMailSent(e, c, net)
  {
  }

  /** Only sending the body can panic. */
  lemma OnlyTheBodyPanics(s: State, e: Event, c: Conn, net: Stream.Network)
    requires s != SendingMailData || !e.Received354MailInput?
    ensures Transition(s, e, c, net).completion == Returned
  {
  }

  /** Only a 354 reply in `SendingMailData` reads the body. */
  lemma BodyIrrelevant(s: State, e: Event, c: Conn, net: Stream.Network)
    requires s != SendingMailData || !e.Received354MailInput?
    ensures Transition(s, e, c, net) == Transition(s, e, c.(body := []), net)
  {
  }

  /** What `send_body` did, read as the reaction to a 354 reply in
      `SendingMailData`. */
  lemma SentIsBodySent(smtp: Stream.SmtpConnection, e: Event, c: Conn, net: Stream.Network,
                       base: seq<Stream.Io>, r: SendBody.Sent)
    requires e.Received354MailInput? && c.stream == smtp.stream
    requires SendBody.Reached(smtp, c.body, base, net.failAt, r)
    ensures var t := Transition(SendingMailData, e, c, net);
      && smtp.log == base + t.writes && t.stream == c.stream
      && t.state == (if r.MailSent? then MailSent else SendingMailData)
      && t.completion == (if r.MailSent? then Returned else Panicked(r.error))
  {
  }

  // ---------------------------------------------------------------------
  // A whole session

  /** The transitions of a run of events, as the driver performs them:
      each one sees the stream the previous one left, the writes pile up
      in order, and a panic ends the run. */
  function Steps(s: State, events: seq<Event>, c: Conn, net: Stream.Network): Reaction
    decreases |events|, 1
  {
    if events == [] then Unchanged(s, c.stream)
    else After(Transition(s, events[0], c, net), events[1..], c, net)
  }

  /** The rest of a run after a transition `t`. */
  function After(t: Reaction, rest: seq<Event>, c: Conn, net: Stream.Network): Reaction
    decreases |rest| + 1, 0
  {
    if t.completion.Panicked? then t
    else
      var u := Steps(t.state, rest, c.(stream := t.stream), net);
      u.(writes := t.writes + u.writes)
  }

  /** One step of a run that does not panic. */
  lemma StepsStep(s: State, e: Event, rest: seq<Event>, c: Conn, net: Stream.Network, t: Reaction)
    requires Transition(s, e, c, net) == t && t.completion == Returned
    ensures var u := Steps(t.state, rest, c.(stream := t.stream), net);
      Steps(s, [e] + rest, c, net) == u.(writes := t.writes + u.writes)
  {
    assert ([e] + rest)[1..] == rest;
  }

  // The session is proved in pieces: each lemma below puts a few steps in
  // front of an arbitrary rest of the run. A transition on a known state
  // is stated through its arm function (`InMailSent`, `InData`, ...): the
  // solver's cost grows quickly with the transitions and long sequence
  // displays in view.

  /** A run with steps `t` and then `rest` does the writes of `t`, then
      those of `rest`. */
  lemma StepsTwo(s: State, e1: Event, e2: Event, rest: seq<Event>, c: Conn, net: Stream.Network, t1: Reaction, t2: Reaction)
    requires Transition(s, e1, c, net) == t1 && t1.completion == Returned
    requires Transition(t1.state, e2, c.(stream := t1.stream), net) == t2 && t2.completion == Returned
    ensures var u := Steps(t2.state, rest, c.(stream := t2.stream), net);
      Steps(s, [e1, e2] + rest, c, net) == u.(writes := t1.writes + t2.writes + u.writes)
  {
    StepsStep(t1.state, e2, rest, c.(stream := t1.stream), net, t2);
    assert [e1, e2] + rest == [e1] + ([e2] + rest);
    StepsStep(s, e1, [e2] + rest, c, net, t1);
  }

  /** The envelope events of a session: the authentication result, the
      sender and recipient acknowledgements, the go-ahead for the data and
      the queued reply. */
  function MailEvents(accepted: string, sender: string, recipient: string, go: string, queued: string): seq<Event> {
    [AuthSuccess(accepted), Received250SenderOk(sender), Received250RecipientOk(recipient),
     Received354MailInput(go), Received250Queued(queued)]
  }

  /** What the envelope writes: MAIL FROM, RCPT TO, DATA, the body and
      QUIT. */
  function MailWrites(c: Conn): seq<Stream.Io> {
    [Stream.Wrote(Command("MAIL FROM:<" + c.from + ">")), Stream.Wrote(Command("RCPT TO:<" + c.to + ">")),
     Stream.Wrote(Command("DATA"))] + c.body + [Stream.Wrote(Command("QUIT"))]
  }

  /** The body and QUIT over a working stream, every operation succeeding. */
  lemma DataRun(go: string, queued: string, c: Conn, net: Stream.Network)
    requires c.stream != Stream.NoStream && net.failAt.None?
    ensures Steps(SendingMailData, [Received354MailInput(go), Received250Queued(queued)], c, net)
      == Reaction(Finished, c.stream, c.body + [Stream.Wrote(Command("QUIT"))], Returned)
  {
    var t1 := Reaction(MailSent, c.stream, c.body, Returned);
    AtData(Received354MailInput(go), c, net);
    var t2 := Reaction(Finished, c.stream, [Stream.Wrote(Command("QUIT"))], Returned);
    AtMailSent(Received250Queued(queued), c, net);
    StepsTwo(SendingMailData, Received354MailInput(go), Received250Queued(queued), [], c, net, t1, t2);
    assert [Received354MailInput(go), Received250Queued(queued)] + [] == [Received354MailInput(go), Received250Queued(queued)];
  }

  /** MAIL FROM and RCPT TO over a working stream, in front of any rest of
      the run from `SendingMailHeaders`. */
  lemma SenderRun(accepted: string, sender: string, rest: seq<Event>, c: Conn, net: Stream.Network)
    requires c.stream != Stream.NoStream && net.failAt.None?
    ensures var u := Steps(SendingMailHeaders, rest, c, net);
      Steps(ConnectedTls, [AuthSuccess(accepted), Received250SenderOk(sender)] + rest, c, net)
      == u.(writes := [Stream.Wrote(Command("MAIL FROM:<" + c.from + ">")), Stream.Wrote(Command("RCPT TO:<" + c.to + ">"))] + u.writes)
  {
    var t1 := Reaction(SendingMailHeaders, c.stream, [Stream.Wrote(Command("MAIL FROM:<" + c.from + ">"))], Returned);
    AtTls(AuthSuccess(accepted), c, net);
    var t2 := Reaction(SendingMailHeaders, c.stream, [Stream.Wrote(Command("RCPT TO:<" + c.to + ">"))], Returned);
    AtHeaders(Received250SenderOk(sender), c, net);
    StepsTwo(ConnectedTls, AuthSuccess(accepted), Received250SenderOk(sender), rest, c, net, t1, t2);
  }

  /** The envelope over a working stream, every write succeeding, ending
      in `Finished`. */
  lemma EnvelopeRun(accepted: string, sender: string, recipient: string, go: string, queued: string,
                    c: Conn, net: Stream.Network)
    requires c.stream != Stream.NoStream && net.failAt.None?
    ensures Steps(ConnectedTls, MailEvents(accepted, sender, recipient, go, queued), c, net)
      == Reaction(Finished, c.stream, MailWrites(c), Returned)
  {
    var data := [Received354MailInput(go), Received250Queued(queued)];
    DataRun(go, queued, c, net);
    var t3 := Reaction(SendingMailData, c.stream, [Stream.Wrote(Command("DATA"))], Returned);
    AtHeaders(Received250RecipientOk(recipient), c, net);
    StepsStep(SendingMailHeaders, Received250RecipientOk(recipient), data, c, net, t3);
    SenderRun(accepted, sender, [Received250RecipientOk(recipient)] + data, c, net);
    assert MailEvents(accepted, sender, recipient, go, queued)
      == [AuthSuccess(accepted), Received250SenderOk(sender)] + ([Received250RecipientOk(recipient)] + data);
  }

  /** Both prompts answered over a working stream, in front of any rest of
      the run. */
  lemma PromptsRun(rest: seq<Event>, c: Conn, net: Stream.Network)
    requires c.stream != Stream.NoStream && c.username.Some? && c.password.Some? && net.failAt.None?
    ensures var u := Steps(ConnectedTls, rest, c, net);
      Steps(ConnectedTls, [Received334Username, Received334Password] + rest, c, net)
      == u.(writes := [Stream.Wrote(Command(Base64.Encode(AsBytes(c.username.value)))),
                       Stream.Wrote(Command(Base64.Encode(AsBytes(c.password.value))))] + u.writes)
  {
    var t1 := Reaction(ConnectedTls, c.stream, [Stream.Wrote(Command(Base64.Encode(AsBytes(c.username.value))))], Returned);
    AtTls(Received334Username, c, net);
    var t2 := Reaction(ConnectedTls, c.stream, [Stream.Wrote(Command(Base64.Encode(AsBytes(c.password.value))))], Returned);
    AtTls(Received334Password, c, net);
    StepsTwo(ConnectedTls, Received334Username, Received334Password, rest, c, net, t1, t2);
  }

  /** AUTH LOGIN on the AUTH offer and both prompts answered over a working
      stream, in front of any rest of the run. */
  lemma AuthRun(auth: string, rest: seq<Event>, c: Conn, net: Stream.Network)
    requires c.stream != Stream.NoStream && c.username.Some? && c.password.Some? && net.failAt.None?
    ensures var u := Steps(ConnectedTls, rest, c, net);
      Steps(ConnectedTls, [Received250StartTlsAuth(auth), Received334Username, Received334Password] + rest, c, net)
      == u.(writes := [Stream.Wrote(Command("AUTH LOGIN")),
                       Stream.Wrote(Command(Base64.Encode(AsBytes(c.username.value)))),
                       Stream.Wrote(Command(Base64.Encode(AsBytes(c.password.value))))] + u.writes)
  {
    var prompts := [Received334Username, Received334Password] + rest;
    PromptsRun(rest, c, net);
    var t1 := Reaction(ConnectedTls, c.stream, [Stream.Wrote(Command("AUTH LOGIN"))], Returned);
    AtTls(Received250StartTlsAuth(auth), c, net);
    StepsStep(ConnectedTls, Received250StartTlsAuth(auth), prompts, c, net, t1);
    assert [Received250StartTlsAuth(auth), Received334Username, Received334Password] + rest
      == [Received250StartTlsAuth(auth)] + prompts;
  }

  /** Before TLS on a working TCP stream: the greeting answered with EHLO
      and the STARTTLS offer with STARTTLS, in front of any rest of the
      run. */
  lemma HelloRun(greeting: string, offer: string, rest: seq<Event>, c: Conn, net: Stream.Network)
    requires c.stream == Stream.TcpStream && net.failAt.None?
    ensures var u := Steps(ConnectedTcpStartTls, rest, c, net);
      Steps(ConnectingTcp, [Received220(greeting), Received250StartTls(offer)] + rest, c, net)
      == u.(writes := [Stream.Wrote(Command(Ehlo)), Stream.Wrote(Command("STARTTLS"))] + u.writes)
  {
    var t1 := Reaction(ConnectedTcpHelloSent, c.stream, [Stream.Wrote(Command(Ehlo))], Returned);
    AtConnecting(Received220(greeting), c, net);
    var t2 := Reaction(ConnectedTcpStartTls, c.stream, [Stream.Wrote(Command("STARTTLS"))], Returned);
    AtHelloSent(Received250StartTls(offer), c, net);
    StepsTwo(ConnectingTcp, Received220(greeting), Received250StartTls(offer), rest, c, net, t1, t2);
  }

  /** The 220 after STARTTLS on a working TCP stream: the upgrade and the
      second EHLO, in front of any run over TLS. */
  lemma UpgradeRun(ready: string, rest: seq<Event>, c: Conn, net: Stream.Network)
    requires c.stream == Stream.TcpStream && net.hostnameValid && net.handshakeOk && net.failAt.None?
    ensures var u := Steps(ConnectedTls, rest, c.(stream := Stream.TlsStream), net);
      Steps(ConnectedTcpStartTls, [Received220(ready)] + rest, c, net)
      == u.(writes := [Stream.Wrote(Command(Ehlo))] + u.writes)
  {
    var t := Reaction(ConnectedTls, Stream.TlsStream, [Stream.Wrote(Command(Ehlo))], Returned);
    AtStartTls(Received220(ready), c, net);
    assert Upgrade(c, net) == t;
    StepsStep(ConnectedTcpStartTls, Received220(ready), rest, c, net, t);
  }

  /** The plaintext part on a working TCP stream: EHLO, STARTTLS, the
      upgrade and the second EHLO, in front of any run over TLS. */
  lemma TcpRun(greeting: string, offer: string, ready: string, rest: seq<Event>, c: Conn, net: Stream.Network)
    requires c.stream == Stream.TcpStream && net.hostnameValid && net.handshakeOk && net.failAt.None?
    ensures var u := Steps(ConnectedTls, rest, c.(stream := Stream.TlsStream), net);
      Steps(ConnectingTcp, [Received220(greeting), Received250StartTls(offer), Received220(ready)] + rest, c, net)
      == u.(writes := [Stream.Wrote(Command(Ehlo)), Stream.Wrote(Command("STARTTLS")), Stream.Wrote(Command(Ehlo))] + u.writes)
  {
    var upgrade := [Received220(ready)] + rest;
    UpgradeRun(ready, rest, c, net);
    HelloRun(greeting, offer, upgrade, c, net);
    assert [Received220(greeting), Received250StartTls(offer), Received220(ready)] + rest
      == [Received220(greeting), Received250StartTls(offer)] + upgrade;
  }

  /** The connection, then the plaintext part, in front of any run over
      TLS. */
  lemma ConnectRun(greeting: string, offer: string, ready: string, rest: seq<Event>, c: Conn, net: Stream.Network)
    requires c.stream == Stream.NoStream
    requires net.resolution.Resolved? && net.connectOk && net.hostnameValid && net.handshakeOk && net.failAt.None?
    ensures var u := Steps(ConnectedTls, rest, c.(stream := Stream.TlsStream), net);
      Steps(Start, [Connect, Received220(greeting), Received250StartTls(offer), Received220(ready)] + rest, c, net)
      == u.(writes := [Stream.Wrote(Command(Ehlo)), Stream.Wrote(Command("STARTTLS")), Stream.Wrote(Command(Ehlo))] + u.writes)
  {
    var tcp := c.(stream := Stream.TcpStream);
    var plain := [Received220(greeting), Received250StartTls(offer), Received220(ready)] + rest;
    TcpRun(greeting, offer, ready, rest, tcp, net);
    var t := Reaction(ConnectingTcp, Stream.TcpStream, [], Returned);
    AtStart(Connect, c, net);
    StepsStep(Start, Connect, plain, c, net, t);
    assert [Connect, Received220(greeting), Received250StartTls(offer), Received220(ready)] + rest == [Connect] + plain;
  }

  /** The session the client is written for, every step succeeding: from
      `Start` with no stream, the connection opens; the greeting is
      answered with EHLO, the STARTTLS offer with STARTTLS, its 220 with
      the upgrade and a second EHLO; then AUTH LOGIN, both credentials,
      the envelope, the body and QUIT. The machine ends `Finished` on TLS
      with every command written once, in this order. */
  lemma Session(greeting: string, offer: string, ready: string, auth: string, accepted: string,
                sender: string, recipient: string, go: string, queued: string, c: Conn, net: Stream.Network)
    requires c.stream == Stream.NoStream && c.username.Some? && c.password.Some?
    requires net.resolution.Resolved? && net.connectOk && net.hostnameValid && net.handshakeOk && net.failAt.None?
    ensures Steps(Start, [Connect, Received220(greeting), Received250StartTls(offer), Received220(ready),
                          Received250StartTlsAuth(auth), Received334Username, Received334Password]
                         + MailEvents(accepted, sender, recipient, go, queued), c, net)
      == Reaction(Finished, Stream.TlsStream,
                  [Stream.Wrote(Command(Ehlo)), Stream.Wrote(Command("STARTTLS")), Stream.Wrote(Command(Ehlo)),
                   Stream.Wrote(Command("AUTH LOGIN")),
                   Stream.Wrote(Command(Base64.Encode(AsBytes(c.username.value)))),
                   Stream.Wrote(Command(Base64.Encode(AsBytes(c.password.value))))] + MailWrites(c), Returned)
  {
    var tls := c.(stream := Stream.TlsStream);
    var mail := MailEvents(accepted, sender, recipient, go, queued);
    var auths := [Received250StartTlsAuth(auth), Received334Username, Received334Password] + mail;
    var ehlo, starttls := Stream.Wrote(Command(Ehlo)), Stream.Wrote(Command("STARTTLS"));
    var login := [Stream.Wrote(Command("AUTH LOGIN")),
                  Stream.Wrote(Command(Base64.Encode(AsBytes(c.username.value)))),
                  Stream.Wrote(Command(Base64.Encode(AsBytes(c.password.value))))];
    EnvelopeRun(accepted, sender, recipient, go, queued, tls, net);
    var u1 := Steps(ConnectedTls, mail, tls, net);
    assert u1 == Reaction(Finished, Stream.TlsStream, MailWrites(c), Returned);
    AuthRun(auth, mail, tls, net);
    var u2 := Steps(ConnectedTls, auths, tls, net);
    assert u2 == Reaction(Finished, Stream.TlsStream, login + MailWrites(c), Returned);
    ConnectRun(greeting, offer, ready, auths, c, net);
    assert [ehlo, starttls, ehlo] + (login + MailWrites(c)) == [ehlo, starttls, ehlo] + login + MailWrites(c);
    assert [Connect, Received220(greeting), Received250StartTls(offer), Received220(ready),
            Received250StartTlsAuth(auth), Received334Username, Received334Password] + mail
      == [Connect, Received220(greeting), Received250StartTls(offer), Received220(ready)] + auths;
  }

  // ---------------------------------------------------------------------
  // The machine

  class StateMachine {
    var state: State
    const conn: Stream.SmtpConnection

    /** The connection fields as a transition sees them when the stream is
        `stream`, with the body left out: only `SendingMailData` looks at
        it. */
    function Fields(stream: Stream.Stream): Conn {
      Conn(stream, conn.username, conn.password, conn.from, conn.to, [])
    }

    /** The connection as a transition sees it, the body included. */
    function Snapshot(stream: Stream.Stream): Conn {
      Fields(stream).(body := SendBody.BodyPlan(conn.from, conn.to, conn.subject, conn.attachementName, conn.attachementData))
    }

    /** The machine `new_from_env` builds: `Start`, no stream, the
        credentials present, the attachment named. */
    constructor FromSettings(s: Config.Settings)
      ensures state == Start && fresh(conn)
      ensures conn.stream == Stream.NoStream && conn.log == []
      ensures conn.host == s.host && conn.port == s.port
      ensures conn.username == Some(s.username) && conn.password == Some(s.password)
      ensures conn.from == s.from && conn.to == s.to && conn.subject == s.subject
      ensures conn.attachementName == Some(s.attachmentName) && conn.attachementData == Some(s.attachmentData)
    {
      state := Start;
      conn := new Stream.SmtpConnection.WithEnvelope(s.host, s.port, Some(s.username), Some(s.password),
        s.from, s.to, s.subject, Some(s.attachmentName), Some(s.attachmentData));
    }

    /** `new_from_env`: the settings, or the panic that reading them ends
        in. */
    static method NewFromEnv(env: map<string, string>, files: map<string, seq<byte>>, now: string)
      returns (r: Result<StateMachine, Config.EnvError>)
      ensures r.Err? <==> Config.FromEnv(env, files, now).Err?
      ensures r.Err? ==> r.error == Config.FromEnv(env, files, now).error
      ensures r.Ok? ==> fresh(r.value) && fresh(r.value.conn) && r.value.state == Start
      ensures r.Ok? ==> var s := Config.FromEnv(env, files, now).value;
        && r.value.conn.stream == Stream.NoStream && r.value.conn.log == []
        && r.value.conn.host == s.host && r.value.conn.port == s.port
        && r.value.conn.username == Some(s.username) && r.value.conn.password == Some(s.password)
        && r.value.conn.from == s.from && r.value.conn.to == s.to && r.value.conn.subject == s.subject
        && r.value.conn.attachementName == Some(s.attachmentName)
        && r.value.conn.attachementData == Some(s.attachmentData)
    {
      var settings := Config.FromEnv(env, files, now);
      if settings.Err? {
        return Err(settings.error);
      }
      var m := new StateMachine.FromSettings(settings.value);
      r := Ok(m);
    }

    /** `write_and_get_next_state`: writes `data` and CR LF; `stateOk` on
        success, `stateError` otherwise. */
    method WriteAndGetNextState(data: string, stateOk: State, stateError: State, writeOk: bool) returns (next: State)
      modifies conn`log
      ensures var ok := conn.stream != Stream.NoStream && writeOk;
        && next == (if ok then stateOk else stateError)
        && conn.log == old(conn.log) + (if ok then [Stream.Wrote(Command(data))] else [])
    {
      var r := conn.Write(Command(data), writeOk);
      next := if r.Ok? then stateOk else stateError;
    }

    /** `handle_event`: performs the transition `Transition` describes.
        Only a 354 reply in `SendingMailData` reads the body
        (`BodyIrrelevant`); every other case is stated over `Fields`. */
    method HandleEvent(event: Event, net: Stream.Network) returns (c: Completion)
      modifies this`state, conn`stream, conn`log
      ensures old(state) == SendingMailData && event.Received354MailInput? ==>
        var r := Transition(SendingMailData, event, Snapshot(old(conn.stream)), net);
        && state == r.state && conn.stream == r.stream
        && conn.log == old(conn.log) + r.writes && c == r.completion
      ensures old(state) != SendingMailData || !event.Received354MailInput? ==>
        var r := Transition(old(state), event, Fields(old(conn.stream)), net);
        && state == r.state && conn.stream == r.stream
        && conn.log == old(conn.log) + r.writes && c == r.completion
    {
      if state == SendingMailData && event.Received354MailInput? {
        c := SendMail(event, net);
      } else {
        HandleCommand(event, net);
        c := Returned;
      }
    }

    /** Every arm but the body's. */
    method HandleCommand(event: Event, net: Stream.Network)
      requires state != SendingMailData || !event.Received354MailInput?
      modifies this`state, conn`stream, conn`log
      ensures state == Transition(old(state), event, Fields(old(conn.stream)), net).state
      ensures conn.stream == Transition(old(state), event, Fields(old(conn.stream)), net).stream
      ensures conn.log == old(conn.log) + Transition(old(state), event, Fields(old(conn.stream)), net).writes
      ensures Transition(old(state), event, Fields(old(conn.stream)), net).completion == Returned
    {
      OnlyTheBodyPanics(state, event, Fields(conn.stream), net);
      match state {
        case Start | ConnectingTcp | ConnectedTcpHelloSent | ConnectedTcp | ConnectedTcpStartTls =>
          TcpGroup(state, event, Fields(conn.stream), net);
          HandleTcp(event, net);
        case _ =>
          TlsGroup(state, event, Fields(conn.stream), net);
          OnTlsKeepsStream(state, event, Fields(conn.stream), net);
          state := HandleTls(event, net);
      }
    }

    /** The arms after the upgrade but the body's. */
    method HandleTls(event: Event, net: Stream.Network) returns (next: State)
      requires state != SendingMailData || !event.Received354MailInput?
      modifies conn`log
      ensures var r := OnTls(state, event, Fields(conn.stream), net);
        next == r.state && conn.log == old(conn.log) + r.writes
    {
      match state {
        case ConnectedTls =>
          next := HandleInTls(event, net);
        case SendingMailHeaders =>
          next := HandleHeaders(event, net);
        case MailSent =>
          next := HandleQuit(event, net);
        case _ =>
          next := Fallback(event);
      }
    }

    /** The arms before TLS. */
    method HandleTcp(event: Event, net: Stream.Network)
      modifies this`state, conn`stream, conn`log
      ensures var r := OnTcp(old(state), event, Fields(old(conn.stream)), net);
        && state == r.state && conn.stream == r.stream && conn.log == old(conn.log) + r.writes
    {
      match state {
        case Start =>
          HandleConnect(event, net);
        case ConnectingTcp =>
          state := HandleGreeting(event, net);
        case ConnectedTcpHelloSent | ConnectedTcp =>
          state := HandleOffer(event, net);
        case ConnectedTcpStartTls =>
          HandleUpgrade(event, net);
        case _ =>
          state := Fallback(event);
      }
    }

    /** The arm for `Start`: opening the TCP connection. */
    method HandleConnect(event: Event, net: Stream.Network)
      modifies this`state, conn`stream
      ensures var r := InStart(event, Fields(old(conn.stream)), net);
        && state == r.state && conn.stream == r.stream
    {
      if event.Connect? {
        var r := conn.ConnectToServer(net.resolution, net.connectOk);
        state := if r.Ok? then ConnectingTcp else Failed;
      } else {
        state := Fallback(event);
      }
    }

    /** The arm for `ConnectingTcp`: EHLO after the greeting. */
    method HandleGreeting(event: Event, net: Stream.Network) returns (next: State)
      modifies conn`log
      ensures var r := InConnecting(event, Fields(conn.stream), net);
        next == r.state && conn.log == old(conn.log) + r.writes
    {
      if event.Received220? {
        next := WriteAndGetNextState(Ehlo, ConnectedTcpHelloSent, Failed, net.failAt != Some(0));
      } else {
        next := Fallback(event);
      }
    }

    /** The arms for `ConnectedTcpHelloSent` and `ConnectedTcp`: STARTTLS
        after the offer. */
    method HandleOffer(event: Event, net: Stream.Network) returns (next: State)
      requires state == ConnectedTcpHelloSent || state == ConnectedTcp
      modifies conn`log
      ensures var r := OnTcp(state, event, Fields(conn.stream), net);
        next == r.state && conn.log == old(conn.log) + r.writes
    {
      if state == ConnectedTcpHelloSent && event.Received250? {
        next := ConnectedTcp;
      } else if event.Received250StartTls? {
        next := WriteAndGetNextState("STARTTLS", ConnectedTcpStartTls, Failed, net.failAt != Some(0));
      } else {
        next := Fallback(event);
      }
    }

    /** The arm for `ConnectedTcpStartTls`: the upgrade to TLS, then the
        second EHLO. */
    method HandleUpgrade(event: Event, net: Stream.Network)
      modifies this`state, conn`stream, conn`log
      ensures var r := InStartTls(event, Fields(old(conn.stream)), net);
        && state == r.state && conn.stream == r.stream && conn.log == old(conn.log) + r.writes
    {
      if event.Received220? {
        var r := conn.SwitchToTls(net.hostnameValid, net.handshakeOk);
        if r.Ok? {
          state := WriteAndGetNextState(Ehlo, ConnectedTls, Failed, net.failAt != Some(0));
        } else {
          state := Failed;
        }
      } else {
        state := Fallback(event);
      }
    }

    /** The arms for `ConnectedTls`. */
    method HandleInTls(event: Event, net: Stream.Network) returns (next: State)
      modifies conn`log
      ensures var r := InTls(event, Fields(conn.stream), net);
        next == r.state && conn.log == old(conn.log) + r.writes
    {
      var writeOk := net.failAt != Some(0);
      match event {
        case Received250(_) =>
          next := WriteAndGetNextState("AUTH LOGIN", ConnectedTls, Failed, writeOk);
        case Received250StartTlsAuth(_) =>
          next := WriteAndGetNextState("AUTH LOGIN", ConnectedTls, Failed, writeOk);
        case Received334Username =>
          if conn.username.Some? {
            next := WriteAndGetNextState(Base64.Encode(AsBytes(conn.username.value)), ConnectedTls, Failed, writeOk);
          } else {
            next := Failed;
          }
        case Received334Password =>
          if conn.password.Some? {
            next := WriteAndGetNextState(Base64.Encode(AsBytes(conn.password.value)), ConnectedTls, Failed, writeOk);
          } else {
            next := Failed;
          }
        case AuthSuccess(_) =>
          next := WriteAndGetNextState("MAIL FROM:<" + conn.from + ">", SendingMailHeaders, Failed, writeOk);
        case _ =>
          next := Fallback(event);
      }
    }

    /** The arms for `SendingMailHeaders`: RCPT TO, then DATA. */
    method HandleHeaders(event: Event, net: Stream.Network) returns (next: State)
      modifies conn`log
      ensures var r := InHeaders(event, Fields(conn.stream), net);
        next == r.state && conn.log == old(conn.log) + r.writes
    {
      if event.Received250SenderOk? {
        next := WriteAndGetNextState("RCPT TO:<" + conn.to + ">", SendingMailHeaders, Failed, net.failAt != Some(0));
      } else if event.Received250RecipientOk? {
        next := WriteAndGetNextState("DATA", SendingMailData, Failed, net.failAt != Some(0));
      } else {
        next := Fallback(event);
      }
    }

    /** The arm for `MailSent`: QUIT once the message is queued. */
    method HandleQuit(event: Event, net: Stream.Network) returns (next: State)
      modifies conn`log
      ensures var r := InMailSent(event, Fields(conn.stream), net);
        next == r.state && conn.log == old(conn.log) + r.writes
    {
      if event.Received250Queued? {
        next := WriteAndGetNextState("QUIT", Finished, Failed, net.failAt != Some(0));
      } else {
        next := Fallback(event);
      }
    }

    /** The 354 arm of `SendingMailData`: `send_body`, then `MailSent`, or
        the panic of its first failed write or flush with the state left
        as it was. */
    method SendMail(event: Event, net: Stream.Network) returns (c: Completion)
      requires state == SendingMailData && event.Received354MailInput?
      modifies this`state, conn`log
      ensures var r := Transition(SendingMailData, event, Snapshot(old(conn.stream)), net);
        && state == r.state && conn.stream == r.stream
        && conn.log == old(conn.log) + r.writes && c == r.completion
    {
      ghost var snap := Snapshot(conn.stream);
      var sent := SendBody.Send(conn, net.failAt);
      SentIsBodySent(conn, event, snap, net, old(conn.log), sent);
      if sent.Panic? {
        return Panicked(sent.error);
      }
      state := MailSent;
      c := Returned;
    }
  }
}
