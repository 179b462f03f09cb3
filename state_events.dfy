/** The reply classifier of `state_events.rs`: one read from the connection,
    then a first-match scan over the lines of what was read. */
module StateEvents {
  import opened Wrappers
  import opened Utf8
  import Base64
  import Stream

  /** Rust's `Event` enum. The last five variants are the ones
      `state_machine.rs` matches on although `state_events.rs` does not
      declare them. */
  datatype Event =
    | NoEvent
    | Connect
    | Received220(msg: string)
    | Received250(msg: string)
    | Received250StartTls(msg: string)
    | Received250StartTlsAuth(msg: string)
    | Received334Username
    | Received334Password
    | Received4xx(msg: string)
    | Received5xx(msg: string)
    | Stop
    | Timeout
    | Complete
    | AuthSuccess(msg: string)
    | Received250SenderOk(msg: string)
    | Received250RecipientOk(msg: string)
    | Received354MailInput(msg: string)
    | Received250Queued(msg: string)

  /** The events a server reply can be classified as. */
  predicate IsReplyEvent(e: Event) {
    e.NoEvent? || e.Received220? || e.Received250? || e.Received250StartTls? ||
    e.Received250StartTlsAuth? || e.Received334Username? || e.Received334Password? ||
    e.Received4xx? || e.Received5xx?
  }

  predicate StartsWith(s: string, prefix: string) {
    |prefix| <= |s| && s[..|prefix|] == prefix
  }

  /** `str::contains` for a string pattern. */
  predicate Contains(s: string, pattern: string)
    decreases |s|
  {
    StartsWith(s, pattern) || (s != [] && Contains(s[1..], pattern))
  }

  /** Position of the first line feed, or the length when there is none. */
  function NewlineIndex(s: string): (k: nat)
    ensures k <= |s|
    ensures k < |s| ==> s[k] == '\n'
    ensures forall j :: 0 <= j < k ==> s[j] != '\n'
    decreases |s|
  {
    if s == [] || s[0] == '\n' then 0 else 1 + NewlineIndex(s[1..])
  }

  function StripCr(line: string): string {
    if |line| > 0 && line[|line| - 1] == '\r' then line[..|line| - 1] else line
  }

  /** `str::lines`: split at each line feed; a line ended by a line feed
      loses one carriage return before it; a final line feed does not start
      an empty line. */
  function Lines(s: string): (r: seq<string>)
    ensures forall i :: 0 <= i < |r| ==> forall j :: 0 <= j < |r[i]| ==> r[i][j] != '\n'
    ensures s == [] <==> r == []
    decreases |s|
  {
    if s == [] then []
    else
      var k := NewlineIndex(s);
      if k == |s| then [s] else [StripCr(s[..k])] + Lines(s[k + 1..])
  }

  lemma DifferentStart(s: string, prefix: string)
    requires prefix != [] && (s == [] || s[0] != prefix[0])
    ensures !StartsWith(s, prefix)
  {
    if |prefix| <= |s| {
      assert s[..|prefix|][0] != prefix[0];
    }
  }

  lemma DifferentSecond(s: string, prefix: string)
    requires |prefix| >= 2 && (|s| < 2 || s[1] != prefix[1])
    ensures !StartsWith(s, prefix)
  {
    if |prefix| <= |s| {
      assert s[..|prefix|][1] != prefix[1];
    }
  }

  /** A line followed by a line feed is the first line. */
  lemma LinesCons(line: string, rest: string)
    requires forall j :: 0 <= j < |line| ==> line[j] != '\n'
    ensures Lines(line + "\n" + rest) == [StripCr(line)] + Lines(rest)
  {
    var s := line + "\n" + rest;
    var k := NewlineIndex(s);
    assert s[|line|] == '\n';
    assert k == |line|;
    assert s[..k] == line;
    assert s[k + 1..] == rest;
  }

  /** Text with no line feed is one line, kept whole. */
  lemma LinesSingle(line: string)
    requires line != []
    requires forall j :: 0 <= j < |line| ==> line[j] != '\n'
    ensures Lines(line) == [line]
  {
  }

  /** The AUTH LOGIN prompts the classifier looks for: the source builds
      them as "334 " followed by the base64 of "Username:" and "Password:",
      which `Base64.UsernamePrompt` and `Base64.PasswordPrompt` show are
      these strings. */
  const UsernamePrompt: string := "334 VXNlcm5hbWU6"
  const PasswordPrompt: string := "334 UGFzc3dvcmQ6"

  /** The rules tried on one line, in order; a 250 line looks at the whole
      input for "STARTTLS" and "AUTH". */
  function LineEvent(input: string, line: string): (r: Option<Event>)
    ensures r.Some? ==> IsReplyEvent(r.value) && !r.value.NoEvent?
  {
    if StartsWith(line, "220") then Some(Received220(line))
    else if StartsWith(line, "250") then
      if Contains(input, "STARTTLS") then Some(Received250StartTls(line))
      else if Contains(input, "AUTH") then Some(Received250StartTlsAuth(line))
      else Some(Received250(line))
    else if StartsWith(line, UsernamePrompt) then Some(Received334Username)
    else if StartsWith(line, PasswordPrompt) then Some(Received334Password)
    else if StartsWith(line, "4") then Some(Received4xx(line))
    else if StartsWith(line, "5") then Some(Received5xx(line))
    else None
  }

  function Scan(input: string, lines: seq<string>): (e: Event)
    ensures IsReplyEvent(e)
    decreases |lines|
  {
    if lines == [] then NoEvent
    else
      match LineEvent(input, lines[0])
      case Some(e) => e
      case None => Scan(input, lines[1..])
  }

  /** The classification of one chunk of server output. */
  function Classify(input: string): (e: Event)
    ensures IsReplyEvent(e)
  {
    Scan(input, Lines(input))
  }

  /** First match wins: the scan gives `NoEvent` exactly when no line
      matches a rule, and otherwise the event of the first line that does. */
  lemma {:induction false} ScanFirstMatch(input: string, lines: seq<string>)
    ensures Scan(input, lines) == NoEvent <==> forall i :: 0 <= i < |lines| ==> LineEvent(input, lines[i]).None?
    ensures forall k :: (0 <= k < |lines| && LineEvent(input, lines[k]).Some? &&
                         (forall j :: 0 <= j < k ==> LineEvent(input, lines[j]).None?)) ==>
      Scan(input, lines) == LineEvent(input, lines[k]).value
    decreases |lines|
  {
    if lines != [] {
      ScanFirstMatch(input, lines[1..]);
      assert forall i :: 1 <= i < |lines| ==> lines[i] == lines[1..][i - 1];
      if LineEvent(input, lines[0]).None? {
        forall k | 0 < k < |lines| && LineEvent(input, lines[k]).Some? &&
          (forall j :: 0 <= j < k ==> LineEvent(input, lines[j]).None?)
          ensures Scan(input, lines) == LineEvent(input, lines[k]).value
        {
          assert forall j :: 0 <= j < k - 1 ==> lines[1..][j] == lines[j + 1];
        }
      }
    }
  }

  /** The chunk's first line decides when it matches a rule. */
  lemma ClassifyFirstLine(line: string, rest: string)
    requires forall j :: 0 <= j < |line| ==> line[j] != '\n'
    requires LineEvent(line + "\r\n" + rest, line).Some?
    ensures Classify(line + "\r\n" + rest) == LineEvent(line + "\r\n" + rest, line).value
  {
    var input := line + "\r\n" + rest;
    var l := line + "\r";
    assert input == l + "\n" + rest;
    LinesCons(l, rest);
    assert StripCr(l) == line;
  }

  /** A greeting line is carried without its terminator. */
  lemma Greeting(line: string, rest: string)
    requires forall j :: 0 <= j < |line| ==> line[j] != '\n'
    requires StartsWith(line, "220")
    ensures Classify(line + "\r\n" + rest) == Received220(line)
  {
    ClassifyFirstLine(line, rest);
  }

  /** A first line starting with 250 is an offer whose kind is decided by
      the whole chunk: STARTTLS anywhere wins over AUTH anywhere, and a
      chunk with neither is a plain 250. The event carries the line. */
  lemma Offer(line: string, rest: string)
    requires forall j :: 0 <= j < |line| ==> line[j] != '\n'
    requires StartsWith(line, "250")
    ensures var input := line + "\r\n" + rest;
      Classify(input) ==
        if Contains(input, "STARTTLS") then Received250StartTls(line)
        else if Contains(input, "AUTH") then Received250StartTlsAuth(line)
        else Received250(line)
  {
    assert line[1] == '5';
    DifferentSecond(line, "220");
    ClassifyFirstLine(line, rest);
  }

  /** A first line starting with the username prompt asks for the
      username. */
  lemma UsernameRequest(line: string, rest: string)
    requires forall j :: 0 <= j < |line| ==> line[j] != '\n'
    requires StartsWith(line, UsernamePrompt)
    ensures Classify(line + "\r\n" + rest) == Received334Username
  {
    assert line[1] == '3';
    DifferentSecond(line, "220");
    DifferentSecond(line, "250");
    ClassifyFirstLine(line, rest);
  }

  /** A first line starting with the password prompt asks for the
      password. */
  lemma PasswordRequest(line: string, rest: string)
    requires forall j :: 0 <= j < |line| ==> line[j] != '\n'
    requires StartsWith(line, PasswordPrompt)
    ensures Classify(line + "\r\n" + rest) == Received334Password
  {
    assert line[1] == '3' && line[4] == 'U';
    DifferentSecond(line, "220");
    DifferentSecond(line, "250");
    assert line[..|UsernamePrompt|][4] != UsernamePrompt[4];
    ClassifyFirstLine(line, rest);
  }

  /** A first line starting with 5 is a 5xx event carrying the line. */
  lemma PermanentFailure(line: string, rest: string)
    requires forall j :: 0 <= j < |line| ==> line[j] != '\n'
    requires StartsWith(line, "5")
    ensures Classify(line + "\r\n" + rest) == Received5xx(line)
  {
    assert line[0] == '5';
    DifferentStart(line, "220");
    DifferentStart(line, "250");
    DifferentStart(line, UsernamePrompt);
    DifferentStart(line, PasswordPrompt);
    DifferentStart(line, "4");
    ClassifyFirstLine(line, rest);
  }

  /** An EHLO reply that advertises STARTTLS on a later line is still a
      STARTTLS offer, carrying the first 250 line. */
  lemma StartTlsOffer()
    ensures Classify("250-STARTTLS\r\n250 AUTH LOGIN\r\n") == Received250StartTls("250-STARTTLS")
  {
    var line, rest := "250-STARTTLS", "250 AUTH LOGIN\r\n";
    var input := line + "\r\n" + rest;
    assert input == "250-STARTTLS\r\n250 AUTH LOGIN\r\n";
    assert StartsWith(input[4..], "STARTTLS");
    ContainsAt(input, "STARTTLS", 4);
    assert StartsWith(line, "250") by { assert line[..3] == "250"; }
    Offer(line, rest);
  }

  lemma {:induction false} ContainsAt(s: string, pattern: string, i: nat)
    requires i <= |s| && StartsWith(s[i..], pattern)
    ensures Contains(s, pattern)
    decreases i
  {
    if i > 0 {
      assert s[1..][i - 1..] == s[i..];
      ContainsAt(s[1..], pattern, i - 1);
    }
  }

  /** A first line starting with 4 (and not a 334 prompt) is a 4xx event
      carrying the line. */
  lemma TransientFailure(line: string, rest: string)
    requires forall j :: 0 <= j < |line| ==> line[j] != '\n'
    requires StartsWith(line, "4")
    ensures Classify(line + "\r\n" + rest) == Received4xx(line)
  {
    assert line[0] == '4';
    DifferentStart(line, "220");
    DifferentStart(line, "250");
    DifferentStart(line, UsernamePrompt);
    DifferentStart(line, PasswordPrompt);
    ClassifyFirstLine(line, rest);
  }

  lemma ServiceNotAvailable()
    ensures Classify("421 Service not available\r\n") == Received4xx("421 Service not available")
  {
    var line := "421 Service not available";
    assert "421 Service not available\r\n" == line + "\r\n" + "";
    TransientFailure(line, "");
  }

  /** No rule matches a 235 (authentication accepted) or 354 (start mail
      input) line, so replies made of such lines give `NoEvent`. */
  lemma {:induction false} AuthAndDataRepliesUnclassified(input: string, lines: seq<string>)
    requires forall i :: 0 <= i < |lines| ==> StartsWith(lines[i], "235") || StartsWith(lines[i], "354")
    ensures Scan(input, lines) == NoEvent
    decreases |lines|
  {
    if lines != [] {
      var l := lines[0];
      assert l[..3] == "235" || l[..3] == "354";
      DifferentStart(l, "4");
      DifferentStart(l, "5");
      if l[0] == '2' {
        DifferentStart(l, UsernamePrompt);
        DifferentStart(l, PasswordPrompt);
        DifferentSecond(l, "220");
        DifferentSecond(l, "250");
      } else {
        DifferentStart(l, "220");
        DifferentStart(l, "250");
        DifferentSecond(l, UsernamePrompt);
        DifferentSecond(l, PasswordPrompt);
      }
      AuthAndDataRepliesUnclassified(input, lines[1..]);
    }
  }

  /** A lone 235 or 354 reply line gives `NoEvent`. */
  lemma LoneUnclassifiedReply(line: string)
    requires forall j :: 0 <= j < |line| ==> line[j] != '\n'
    requires StartsWith(line, "235") || StartsWith(line, "354")
    ensures Classify(line + "\r\n") == NoEvent
  {
    var l := line + "\r";
    assert line + "\r\n" == l + "\n" + "";
    LinesCons(l, "");
    assert StripCr(l) == line;
    AuthAndDataRepliesUnclassified(line + "\r\n", [line]);
  }

  /** The wrapper around the classifier: a failed read is `Stop`. */
  function EventOf(read: Result<string, Stream.IoError>): (e: Event)
    ensures e == Stop <==> read.Err?
    ensures read.Ok? ==> e == Classify(read.value)
  {
    match read
    case Ok(input) => Classify(input)
    case Err(_) => Stop
  }

  /** The event `get_event` hands back when the server sent `incoming`
      on `stream`: `Stop` when there is no stream or the read fails,
      otherwise the class of the first 1024 bytes, decoded. */
  function Delivered(stream: Stream.Stream, incoming: Stream.Incoming, decode: seq<byte> -> string): (e: Event)
    ensures e == Stop <==> stream == Stream.NoStream || incoming.ReadError?
    ensures IsReplyEvent(e) || e == Stop
  {
    if stream == Stream.NoStream || incoming.ReadError? then Stop
    else Classify(decode(Stream.Take(incoming.bytes, Stream.BufferSize)))
  }

  /** `get_event`: one read, then classification; never `Connect`,
      `Timeout`, `Complete`, nor any of the variants only the full state
      machine uses. */
  method GetEvent(conn: Stream.SmtpConnection, incoming: Stream.Incoming, decode: seq<byte> -> string)
    returns (e: Event)
    ensures e == Delivered(conn.stream, incoming, decode)
    ensures e == Stop <==> conn.stream == Stream.NoStream || incoming.ReadError?
    ensures e != Stop ==> e == Classify(decode(Stream.Take(incoming.bytes, Stream.BufferSize)))
    ensures IsReplyEvent(e) || e == Stop
  {
    var input := conn.Read(incoming, decode);
    e := EventOf(input);
  }
}
