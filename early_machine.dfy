/** The earlier, smaller state machine of `state_machine/mod.rs`, the one
    the driver builds: it stops after the login exchange, answers a
    missing credential with an empty line, and has a `HelloAccepted`
    state it never enters. */
module EarlyMachine {
  import opened Wrappers
  import opened Utf8
  import Base64
  import Stream
  import opened StateEvents
  import Config

  datatype State =
    | Start
    | ConnectingTcp
    | ConnectedTcpHelloSent
    | ConnectedTcp
    | ConnectedTcpStartTls
    | HelloAccepted
    | ConnectedTls
    | Finished
    | Failed

  /** The connection fields a transition reads. */
  datatype Conn = Conn(stream: Stream.Stream, username: Option<string>, password: Option<string>)

  /** A transition: the next state, the stream variant left and the I/O
      that reached the socket. No arm here can panic. */
  datatype Reaction = Reaction(state: State, stream: Stream.Stream, writes: seq<Stream.Io>)

  /** The EHLO line as this version spells it, terminator included. */
  const Ehlo: string := "EHLO rustclien\r\n"
  const StartTls: string := "STARTTLS\r\n"
  const AuthLogin: string := "AUTH LOGIN\r\n"

  /** `write(line.as_bytes())` matched on its result: `next` when the
      stream is there and the write succeeds, `Failed` with nothing
      written otherwise. */
  function Sent(stream: Stream.Stream, failAt: Option<nat>, line: string, next: State): Reaction {
    if stream != Stream.NoStream && failAt != Some(0) then Reaction(next, stream, [Stream.Wrote(AsBytes(line))])
    else Reaction(Failed, stream, [])
  }

  /** `format!("{}\r\n", b64.encode(credential.as_deref().unwrap_or("")))`. */
  function LoginLine(credential: Option<string>): string {
    Base64.Encode(AsBytes(if credential.Some? then credential.value else "")) + "\r\n"
  }

  /** The last three arms: a 5xx reply fails, `Complete` finishes,
      anything else has no valid transition and fails. */
  function Otherwise(e: Event, stream: Stream.Stream): Reaction {
    Reaction(Fallback(e), stream, [])
  }

  function Fallback(e: Event): State {
    if e.Received5xx? then Failed
    else if e.Complete? then Finished
    else Failed
  }

  /** The arm for `Start`: opening the TCP connection. */
  function InStart(e: Event, c: Conn, net: Stream.Network): Reaction {
    if e.Connect? then
      var eff := Stream.Apply(c.stream, Stream.Op.Connect(net.resolution, net.connectOk));
      Reaction(if eff.error.None? then ConnectingTcp else Failed, eff.stream, [])
    else Otherwise(e, c.stream)
  }

  /** The arm for `ConnectingTcp`: EHLO after the greeting. */
  function InConnecting(e: Event, c: Conn, net: Stream.Network): Reaction {
    if e.Received220? then Sent(c.stream, net.failAt, Ehlo, ConnectedTcpHelloSent) else Otherwise(e, c.stream)
  }

  /** The arms for `ConnectedTcpHelloSent`: a plain 250, or STARTTLS
      after the offer. */
  function InHelloSent(e: Event, c: Conn, net: Stream.Network): Reaction {
    if e.Received250? then Reaction(ConnectedTcp, c.stream, [])
    else if e.Received250StartTls? then Sent(c.stream, net.failAt, StartTls, ConnectedTcpStartTls)
    else Otherwise(e, c.stream)
  }

  /** The arm for `ConnectedTcp`: STARTTLS after the offer. */
  function InConnectedTcp(e: Event, c: Conn, net: Stream.Network): Reaction {
    if e.Received250StartTls? then Sent(c.stream, net.failAt, StartTls, ConnectedTcpStartTls)
    else Otherwise(e, c.stream)
  }

  /** The arm for `ConnectedTcpStartTls`: on 220 the upgrade, then the
      second EHLO; a failed upgrade fails the machine. */
  function InStartTls(e: Event, c: Conn, net: Stream.Network): Reaction {
    if e.Received220? then
      var eff := Stream.Apply(c.stream, Stream.Op.SwitchToTls(net.hostnameValid, net.handshakeOk));
      if eff.error.None? then Sent(eff.stream, net.failAt, Ehlo, ConnectedTls)
      else Reaction(Failed, eff.stream, [])
    else Otherwise(e, c.stream)
  }

  /** The arms for `ConnectedTls`: AUTH LOGIN after the AUTH offer, then
      the two credentials. */
  function InTls(e: Event, c: Conn, net: Stream.Network): Reaction {
    match e
    case Received250StartTlsAuth(_) => Sent(c.stream, net.failAt, AuthLogin, ConnectedTls)
    case Received334Username => Sent(c.stream, net.failAt, LoginLine(c.username), ConnectedTls)
    case Received334Password => Sent(c.stream, net.failAt, LoginLine(c.password), ConnectedTls)
    case _ => Otherwise(e, c.stream)
  }

  /** The arms before TLS. */
  function OnTcp(s: State, e: Event, c: Conn, net: Stream.Network): Reaction {
    match s
    case Start => InStart(e, c, net)
    case ConnectingTcp => InConnecting(e, c, net)
    case ConnectedTcpHelloSent => InHelloSent(e, c, net)
    case ConnectedTcp => InConnectedTcp(e, c, net)
    case ConnectedTcpStartTls => InStartTls(e, c, net)
    case _ => Otherwise(e, c.stream)
  }

  /** `handle_event`: the arms of its `match`, grouped by state. Every arm
      names a specific event other than a 5xx reply or `Complete`, so the
      arms of each state followed by `Otherwise` keep the source's
      first-match order. `HelloAccepted`, `Finished` and `Failed` have no
      arm of their own. */
  function Transition(s: State, e: Event, c: Conn, net: Stream.Network): Reaction {
    match s
    case Start | ConnectingTcp | ConnectedTcpHelloSent | ConnectedTcp | ConnectedTcpStartTls => OnTcp(s, e, c, net)
    case ConnectedTls => InTls(e, c, net)
    case _ => Otherwise(e, c.stream)
  }

  predicate IsTcpState(s: State) {
    s in {Start, ConnectingTcp, ConnectedTcpHelloSent, ConnectedTcp, ConnectedTcpStartTls}
  }

  // The lemmas from here to `AtTls` only unfold `Transition` by one step.
  // They exist for the solver: stated once on their own, they spare every
  // proof below and every method of the machine the cost of unfolding the
  // whole transition, which is what made those proofs run out of resource.

  /** Before TLS the transition is the plaintext arms. */
  lemma TcpGroup(s: State, e: Event, c: Conn, net: Stream.Network)
    requires IsTcpState(s)
    ensures Transition(s, e, c, net) == OnTcp(s, e, c, net)
  {
  }

  /** After the upgrade the transition is the `ConnectedTls` arms or the
      fallback. */
  lemma TlsGroup(s: State, e: Event, c: Conn, net: Stream.Network)
    requires !IsTcpState(s)
    ensures Transition(s, e, c, net) == if s == ConnectedTls then InTls(e, c, net) else Otherwise(e, c.stream)
  {
  }

  /** The transition in one given state is that state's arms. */
  lemma AtConnecting(e: Event, c: Conn, net: Stream.Network)
    ensures Transition(ConnectingTcp, e, c, net) == InConnecting(e, c, net)
  {
  }

  lemma AtHelloSent(e: Event, c: Conn, net: Stream.Network)
    ensures Transition(ConnectedTcpHelloSent, e, c, net) == InHelloSent(e, c, net)
  {
  }

  lemma AtConnectedTcp(e: Event, c: Conn, net: Stream.Network)
    ensures Transition(ConnectedTcp, e, c, net) == InConnectedTcp(e, c, net)
  {
  }

  lemma AtStartTls(e: Event, c: Conn, net: Stream.Network)
    ensures Transition(ConnectedTcpStartTls, e, c, net) == InStartTls(e, c, net)
  {
  }

  lemma AtTls(e: Event, c: Conn, net: Stream.Network)
    ensures Transition(ConnectedTls, e, c, net) == InTls(e, c, net)
  {
  }

  // ---------------------------------------------------------------------
  // Properties of the transition

  /** A line is written only when there is a stream and the write
      succeeds; then it is the line's bytes and `next` is reached. */
  lemma SentMeaning(stream: Stream.Stream, failAt: Option<nat>, line: string, next: State)
    ensures var r := Sent(stream, failAt, line, next);
      && (r.writes != [] <==> stream != Stream.NoStream && failAt != Some(0))
      && (r.writes != [] ==> r.writes == [Stream.Wrote(AsBytes(line))] && r.state == next)
      && (r.writes == [] ==> r.state == Failed)
      && r.stream == stream
  {
  }

  /** From `Start` only `Connect` goes anywhere but `Failed` (or `Finished`
      on `Complete`), and it reaches `ConnectingTcp` exactly when the
      connection opens. */
  lemma FromStart(e: Event, c: Conn, net: Stream.Network)
    ensures var r := Transition(Start, e, c, net);
      && (e == Connect ==> (r.state == ConnectingTcp <==> net.resolution.Resolved? && net.connectOk))
      && (e == Connect ==> (r.state == ConnectingTcp || r.state == Failed))
      && (e == Connect && r.state == ConnectingTcp ==> r.stream == Stream.TcpStream)
      && (e == Complete ==> r.state == Finished)
      && (e != Connect && e != Complete ==> r.state == Failed)
      && r.writes == []
  {
  }

  /** Both EHLO writes, after the greeting and after the upgrade, send the
      same line, `EHLO rustclien` and CR LF. */
  lemma EhloLines(msg: string, c: Conn, net: Stream.Network)
    requires c.stream == Stream.TcpStream && net.failAt.None?
    requires net.hostnameValid && net.handshakeOk
    ensures Transition(ConnectingTcp, Received220(msg), c, net)
      == Reaction(ConnectedTcpHelloSent, Stream.TcpStream, [Stream.Wrote(AsBytes("EHLO rustclien") + [CR, LF])])
    ensures Transition(ConnectedTcpStartTls, Received220(msg), c, net)
      == Reaction(ConnectedTls, Stream.TlsStream, [Stream.Wrote(AsBytes("EHLO rustclien") + [CR, LF])])
  {
    EhloBytes();
    AtConnecting(Received220(msg), c, net);
    AtStartTls(Received220(msg), c, net);
  }

  lemma EhloBytes()
    ensures AsBytes(Ehlo) == AsBytes("EHLO rustclien") + [CR, LF]
  {
    LineBytes("EHLO rustclien");
    assert Ehlo == "EHLO rustclien" + "\r\n";
  }

  /** STARTTLS is written after the offer from both plaintext states, a
      plain 250 after EHLO only moves to `ConnectedTcp`. */
  lemma StartTlsCommand(msg: string, c: Conn, net: Stream.Network)
    ensures Transition(ConnectedTcpHelloSent, Received250(msg), c, net) == Reaction(ConnectedTcp, c.stream, [])
    ensures Transition(ConnectedTcp, Received250StartTls(msg), c, net)
      == Sent(c.stream, net.failAt, "STARTTLS\r\n", ConnectedTcpStartTls)
    ensures Transition(ConnectedTcpHelloSent, Received250StartTls(msg), c, net)
      == Sent(c.stream, net.failAt, "STARTTLS\r\n", ConnectedTcpStartTls)
  {
    AtHelloSent(Received250(msg), c, net);
    AtHelloSent(Received250StartTls(msg), c, net);
    AtConnectedTcp(Received250StartTls(msg), c, net);
  }

  /** After STARTTLS is accepted the stream is upgraded first: a failed
      upgrade fails the machine with nothing written. */
  lemma TlsUpgrade(msg: string, c: Conn, net: Stream.Network)
    requires c.stream == Stream.TcpStream
    ensures var r := Transition(ConnectedTcpStartTls, Received220(msg), c, net);
      && (!(net.hostnameValid && net.handshakeOk) ==> r.state == Failed && r.writes == [])
      && (!net.hostnameValid ==> r.stream == Stream.TcpStream)
      && (net.hostnameValid && !net.handshakeOk ==> r.stream == Stream.NoStream)
      && (net.hostnameValid && net.handshakeOk ==> r == Sent(Stream.TlsStream, net.failAt, Ehlo, ConnectedTls))
  {
    AtStartTls(Received220(msg), c, net);
  }

  /** The base64 of the empty string is empty. */
  lemma EncodeEmpty()
    ensures Base64.Encode(AsBytes("")) == ""
  {
    AsBytesEmpty();
    assert Base64.Sextets([]) == [];
  }

  /** The line that answers a prompt: the base64 of the credential and
      CR LF, or only CR LF when the credential is missing. */
  lemma LoginLineBytes(credential: Option<string>)
    ensures credential.Some? ==>
      AsBytes(LoginLine(credential)) == AsBytes(Base64.Encode(AsBytes(credential.value))) + [CR, LF]
    ensures credential.None? ==> AsBytes(LoginLine(credential)) == [CR, LF]
  {
    var text := Base64.Encode(AsBytes(if credential.Some? then credential.value else ""));
    LineBytes(text);
    if credential.None? {
      EncodeEmpty();
      AsBytesEmpty();
    }
  }

  /** In `ConnectedTls` only the AUTH offer asks for AUTH LOGIN; a plain
      250 has no arm here and fails. */
  lemma AuthOffer(msg: string, c: Conn, net: Stream.Network)
    ensures Transition(ConnectedTls, Received250StartTlsAuth(msg), c, net)
      == Sent(c.stream, net.failAt, "AUTH LOGIN\r\n", ConnectedTls)
    ensures Transition(ConnectedTls, Received250(msg), c, net) == Reaction(Failed, c.stream, [])
  {
    AtTls(Received250StartTlsAuth(msg), c, net);
    AtTls(Received250(msg), c, net);
  }

  /** Each prompt is answered with the line for its own credential; a
      missing credential does not fail the machine. */
  lemma Prompts(c: Conn, net: Stream.Network)
    ensures Transition(ConnectedTls, Received334Username, c, net) == Sent(c.stream, net.failAt, LoginLine(c.username), ConnectedTls)
    ensures Transition(ConnectedTls, Received334Password, c, net) == Sent(c.stream, net.failAt, LoginLine(c.password), ConnectedTls)
  {
    AtTls(Received334Username, c, net);
    AtTls(Received334Password, c, net);
  }

  /** With no username every write succeeding, the username prompt is
      answered with just CR LF and the machine stays in `ConnectedTls`. */
  lemma MissingUsername(c: Conn, net: Stream.Network)
    requires c.username.None? && c.stream != Stream.NoStream && net.failAt.None?
    ensures Transition(ConnectedTls, Received334Username, c, net) == Reaction(ConnectedTls, c.stream, [Stream.Wrote([CR, LF])])
  {
    AtTls(Received334Username, c, net);
    LoginLineBytes(c.username);
  }

  /** With no password every write succeeding, the password prompt is
      answered with just CR LF and the machine stays in `ConnectedTls`. */
  lemma MissingPassword(c: Conn, net: Stream.Network)
    requires c.password.None? && c.stream != Stream.NoStream && net.failAt.None?
    ensures Transition(ConnectedTls, Received334Password, c, net) == Reaction(ConnectedTls, c.stream, [Stream.Wrote([CR, LF])])
  {
    AtTls(Received334Password, c, net);
    LoginLineBytes(c.password);
  }

  /** A 5xx reply always fails the machine and `Complete` always
      finishes it, with nothing written and the stream untouched. */
  lemma CatchAll(s: State, msg: string, c: Conn, net: Stream.Network)
    ensures Transition(s, Received5xx(msg), c, net) == Reaction(Failed, c.stream, [])
    ensures Transition(s, Complete, c, net) == Reaction(Finished, c.stream, [])
  {
  }

  /** `Finished` is entered exactly on `Complete`: there is no QUIT arm
      in this version. */
  lemma FinishedIffComplete(s: State, e: Event, c: Conn, net: Stream.Network)
    ensures Transition(s, e, c, net).state == Finished <==> e == Complete
  {
    if IsTcpState(s) {
      TcpGroup(s, e, c, net);
    } else {
      TlsGroup(s, e, c, net);
    }
  }

  /** No transition enters `Start` or `HelloAccepted`. */
  lemma NeverStartOrHelloAccepted(s: State, e: Event, c: Conn, net: Stream.Network)
    ensures Transition(s, e, c, net).state != Start
    ensures Transition(s, e, c, net).state != HelloAccepted
  {
    if IsTcpState(s) {
      TcpGroup(s, e, c, net);
    } else {
      TlsGroup(s, e, c, net);
    }
  }

  /** A transition writes at most one line, and never when there is no
      stream or the write fails. */
  lemma WritesAtMostOne(s: State, e: Event, c: Conn, net: Stream.Network)
    ensures var r := Transition(s, e, c, net);
      && |r.writes| <= 1
      && (r.writes != [] ==> r.stream != Stream.NoStream && net.failAt != Some(0) && r.writes[0].Wrote?)
  {
    if IsTcpState(s) {
      TcpGroup(s, e, c, net);
    } else {
      TlsGroup(s, e, c, net);
    }
  }

  /** The stream each state runs on: none before connecting, TCP until the
      upgrade, TLS from then on. */
  predicate Coherent(s: State, stream: Stream.Stream) {
    && (s == Start ==> stream == Stream.NoStream)
    && (s in {ConnectingTcp, ConnectedTcpHelloSent, ConnectedTcp, ConnectedTcpStartTls} ==> stream == Stream.TcpStream)
    && (s == ConnectedTls ==> stream == Stream.TlsStream)
  }

  /** Every transition keeps state and stream coherent. */
  lemma CoherentPreserved(s: State, e: Event, c: Conn, net: Stream.Network)
    requires Coherent(s, c.stream)
    ensures var r := Transition(s, e, c, net); Coherent(r.state, r.stream)
  {
    if IsTcpState(s) {
      TcpGroup(s, e, c, net);
    } else {
      TlsGroup(s, e, c, net);
    }
  }

  // ---------------------------------------------------------------------
  // The machine

  class StateMachine {
    var state: State
    const conn: Stream.SmtpConnection
    const attachementName: Option<string>
    const attachementData: Option<seq<byte>>

    /** The connection fields as a transition sees them when the stream is
        `stream`. */
    function Fields(stream: Stream.Stream): Conn {
      Conn(stream, conn.username, conn.password)
    }

    /** `new`: `Start`, no stream, no credentials, no attachment. */
    constructor New(host: string, port: Stream.u16)
      ensures state == Start && fresh(conn)
      ensures conn.stream == Stream.NoStream && conn.log == []
      ensures conn.host == host && conn.port == port
      ensures conn.username.None? && conn.password.None?
      ensures attachementName.None? && attachementData.None?
    {
      state := Start;
      conn := new Stream.SmtpConnection(host, port, None, None);
      attachementName := None;
      attachementData := None;
    }

    /** The machine `new_from_env` builds: `Start`, no stream, the
        credentials present, the attachment named. */
    constructor FromSettings(s: Config.Settings)
      ensures state == Start && fresh(conn)
      ensures conn.stream == Stream.NoStream && conn.log == []
      ensures conn.host == s.host && conn.port == s.port
      ensures conn.username == Some(s.username) && conn.password == Some(s.password)
      ensures attachementName == Some(s.attachmentName) && attachementData == Some(s.attachmentData)
    {
      state := Start;
      conn := new Stream.SmtpConnection(s.host, s.port, Some(s.username), Some(s.password));
      attachementName := Some(s.attachmentName);
      attachementData := Some(s.attachmentData);
    }

    /** `new_from_env`: it reads the same variables in the same order as
        the later version and fails the same way, but keeps only the
        server, the credentials and the attachment. */
    static method NewFromEnv(env: map<string, string>, files: map<string, seq<byte>>, now: string)
      returns (r: Result<StateMachine, Config.EnvError>)
      ensures r.Err? <==> Config.FromEnv(env, files, now).Err?
      ensures r.Err? ==> r.error == Config.FromEnv(env, files, now).error
      ensures r.Ok? ==> fresh(r.value) && fresh(r.value.conn) && r.value.state == Start
      ensures r.Ok? ==> var s := Config.FromEnv(env, files, now).value;
        && r.value.conn.stream == Stream.NoStream && r.value.conn.log == []
        && r.value.conn.host == s.host && r.value.conn.port == s.port
        && r.value.conn.username == Some(s.username) && r.value.conn.password == Some(s.password)
        && r.value.attachementName == Some(s.attachmentName)
        && r.value.attachementData == Some(s.attachmentData)
    {
      var settings := Config.FromEnv(env, files, now);
      if settings.Err? {
        return Err(settings.error);
      }
      var m := new StateMachine.FromSettings(settings.value);
      r := Ok(m);
    }

    /** `handle_event`: performs the transition `Transition` describes. */
    method HandleEvent(event: Event, net: Stream.Network)
      modifies this`state, conn`stream, conn`log
      ensures var r := Transition(old(state), event, Fields(old(conn.stream)), net);
        && state == r.state && conn.stream == r.stream && conn.log == old(conn.log) + r.writes
    {
      if IsTcpState(state) {
        TcpGroup(state, event, Fields(conn.stream), net);
        HandleTcp(event, net);
      } else {
        TlsGroup(state, event, Fields(conn.stream), net);
        if state == ConnectedTls {
          state := HandleInTls(event, net);
        } else {
          state := Fallback(event);
        }
      }
    }

    /** The arms before TLS. */
    method HandleTcp(event: Event, net: Stream.Network)
      modifies this`state, conn`stream, conn`log
      ensures var r := OnTcp(old(state), event, Fields(old(conn.stream)), net);
        && state == r.state && conn.stream == r.stream && conn.log == old(conn.log) + r.writes
    {
      match state {
        case Start =>
          HandleConnect(event, net);
        case ConnectingTcp | ConnectedTcpHelloSent | ConnectedTcp =>
          state := HandleHello(event, net);
        case ConnectedTcpStartTls =>
          HandleUpgrade(event, net);
        case _ =>
          state := Fallback(event);
      }
    }

    /** The arm for `Start`: opening the TCP connection. */
    method HandleConnect(event: Event, net: Stream.Network)
      modifies this`state, conn`stream
      ensures var r := InStart(event, Fields(old(conn.stream)), net);
        && state == r.state && conn.stream == r.stream
    {
      if event.Connect? {
        var r := conn.ConnectToServer(net.resolution, net.connectOk);
        state := if r.Ok? then ConnectingTcp else Failed;
      } else {
        state := Fallback(event);
      }
    }

    /** The plaintext arms: EHLO after the greeting, STARTTLS after the
        offer. */
    method HandleHello(event: Event, net: Stream.Network) returns (next: State)
      requires state == ConnectingTcp || state == ConnectedTcpHelloSent || state == ConnectedTcp
      modifies conn`log
      ensures var r := OnTcp(state, event, Fields(conn.stream), net);
        next == r.state && conn.log == old(conn.log) + r.writes
    {
      if state == ConnectingTcp && event.Received220? {
        next := SendLine(Ehlo, ConnectedTcpHelloSent, net);
      } else if state == ConnectedTcpHelloSent && event.Received250? {
        next := ConnectedTcp;
      } else if state != ConnectingTcp && event.Received250StartTls? {
        next := SendLine(StartTls, ConnectedTcpStartTls, net);
      } else {
        next := Fallback(event);
      }
    }

    /** The arm for `ConnectedTcpStartTls`: the upgrade to TLS, then the
        second EHLO. */
    method HandleUpgrade(event: Event, net: Stream.Network)
      modifies this`state, conn`stream, conn`log
      ensures var r := InStartTls(event, Fields(old(conn.stream)), net);
        && state == r.state && conn.stream == r.stream && conn.log == old(conn.log) + r.writes
    {
      if event.Received220? {
        var r := conn.SwitchToTls(net.hostnameValid, net.handshakeOk);
        if r.Ok? {
          state := SendLine(Ehlo, ConnectedTls, net);
        } else {
          state := Failed;
        }
      } else {
        state := Fallback(event);
      }
    }

    /** `write_and_get_next_state` as this version spells it out in each
        arm: write the line, then move to `next` or fail. */
    method SendLine(line: string, next: State, net: Stream.Network) returns (r: State)
      modifies conn`log
      ensures var x := Sent(conn.stream, net.failAt, line, next);
        r == x.state && conn.log == old(conn.log) + x.writes
    {
      var w := conn.Write(AsBytes(line), net.failAt != Some(0));
      r := if w.Ok? then next else Failed;
    }

    /** The arms for `ConnectedTls`. */
    method HandleInTls(event: Event, net: Stream.Network) returns (next: State)
      modifies conn`log
      ensures var r := InTls(event, Fields(conn.stream), net);
        next == r.state && conn.log == old(conn.log) + r.writes
    {
      match event {
        case Received250StartTlsAuth(_) =>
          next := SendLine(AuthLogin, ConnectedTls, net);
        case Received334Username =>
          next := SendLine(LoginLine(conn.username), ConnectedTls, net);
        case Received334Password =>
          next := SendLine(LoginLine(conn.password), ConnectedTls, net);
        case _ =>
          next := Fallback(event);
      }
    }
  }
}
