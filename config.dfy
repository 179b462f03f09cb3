/** The settings `new_from_env` reads (the same code in `state_machine.rs`
    and `state_machine/mod.rs`): the `server:port` split, Rust's `u16`
    parse of the port, the debug flag, the subject default and the
    attachment. The environment and the file system are given as maps,
    the current time as the text `chrono` would print. */
module Config {
  import opened Wrappers
  import opened Utf8
  import Base64
  import Stream

  type u16 = Stream.u16

  // ---------------------------------------------------------------------
  // `str::split(':')`

  /** Position of the first `sep`, or the length when there is none. */
  function IndexOf(s: string, sep: char): (k: nat)
    ensures k <= |s|
    ensures k < |s| ==> s[k] == sep
    ensures forall j :: 0 <= j < k ==> s[j] != sep
    decreases |s|
  {
    if s == [] || s[0] == sep then 0 else 1 + IndexOf(s[1..], sep)
  }

  /** `s.split(sep).collect()`: the pieces between separators, always at
      least one (the empty string splits into one empty piece). */
  function Split(s: string, sep: char): (r: seq<string>)
    ensures |r| >= 1
    ensures forall i :: 0 <= i < |r| ==> sep !in r[i]
    decreases |s|
  {
    var k := IndexOf(s, sep);
    if k == |s| then [s] else [s[..k]] + Split(s[k + 1..], sep)
  }

  /** The pieces put back together, `sep` between neighbours. */
  function JoinWith(parts: seq<string>, sep: char): string
    requires |parts| >= 1
    decreases |parts|
  {
    if |parts| == 1 then parts[0] else parts[0] + [sep] + JoinWith(parts[1..], sep)
  }

  /** Splitting loses nothing: the pieces joined again are the input. */
  lemma {:induction false} JoinSplit(s: string, sep: char)
    ensures JoinWith(Split(s, sep), sep) == s
    decreases |s|
  {
    var k := IndexOf(s, sep);
    if k < |s| {
      var head, tail := s[..k], s[k + 1..];
      var rest := Split(tail, sep);
      JoinSplit(tail, sep);
      var parts := [head] + rest;
      assert Split(s, sep) == parts;
      assert parts[0] == head && parts[1..] == rest;
      assert JoinWith(parts, sep) == head + [sep] + JoinWith(rest, sep);
      assert s == head + [sep] + tail;
    }
  }

  /** Pieces free of the separator are recovered by splitting their join. */
  lemma {:induction false} SplitJoin(parts: seq<string>, sep: char)
    requires |parts| >= 1
    requires forall i :: 0 <= i < |parts| ==> sep !in parts[i]
    ensures Split(JoinWith(parts, sep), sep) == parts
    decreases |parts|
  {
    var s := JoinWith(parts, sep);
    var p := parts[0];
    if |parts| == 1 {
      NoSeparator(p, sep);
    } else {
      var rest := JoinWith(parts[1..], sep);
      assert s == p + [sep] + rest;
      IndexAfter(p, sep, rest);
      assert s[..|p|] == p;
      assert s[|p| + 1..] == rest;
      SplitJoin(parts[1..], sep);
    }
  }

  lemma {:induction false} NoSeparator(s: string, sep: char)
    requires sep !in s
    ensures IndexOf(s, sep) == |s|
    decreases |s|
  {
    if s != [] {
      assert s[0] in s;
      assert forall c :: c in s[1..] ==> c in s;
      NoSeparator(s[1..], sep);
    }
  }

  lemma {:induction false} IndexAfter(p: string, sep: char, rest: string)
    requires sep !in p
    ensures IndexOf(p + [sep] + rest, sep) == |p|
    decreases |p|
  {
    if p != [] {
      assert p[0] in p;
      assert forall c :: c in p[1..] ==> c in p;
      assert (p + [sep] + rest)[1..] == p[1..] + [sep] + rest;
      IndexAfter(p[1..], sep, rest);
    }
  }

  // ---------------------------------------------------------------------
  // `str::parse::<u16>()`

  predicate IsDigit(c: char) {
    '0' <= c <= '9'
  }

  function DigitValue(c: char): nat
    requires IsDigit(c)
  {
    (c as int) - ('0' as int)
  }

  /** The number the decimal digits of `s` denote after `acc`. */
  function ValueFrom(acc: nat, s: string): (v: nat)
    requires forall i :: 0 <= i < |s| ==> IsDigit(s[i])
    ensures v >= acc
    decreases |s|
  {
    if s == [] then acc else ValueFrom(acc * 10 + DigitValue(s[0]), s[1..])
  }

  /** The digits after an optional leading `+`; a lone `+` is kept, so it
      is rejected as a digit. A `-` is kept too: `u16` is unsigned. */
  function Unsigned(s: string): string {
    if |s| > 1 && s[0] == '+' then s[1..] else s
  }

  /** The decimal reading Rust performs: digit by digit, rejecting a
      non-digit and stopping as soon as the value passes `u16::MAX`. */
  function Accumulate(acc: u16, s: string): Option<u16>
    decreases |s|
  {
    if s == [] then Some(acc)
    else if !IsDigit(s[0]) then None
    else
      var next := acc * 10 + DigitValue(s[0]);
      if next > 65535 then None else Accumulate(next, s[1..])
  }

  /** `u16::from_str`: an optional `+`, then at least one decimal digit,
      with a value of at most 65535. */
  function ParseU16(s: string): Option<u16> {
    if s == [] then None else Accumulate(0, Unsigned(s))
  }

  predicate AllDigits(s: string) {
    forall i :: 0 <= i < |s| ==> IsDigit(s[i])
  }

  /** The early overflow test agrees with one test on the whole value,
      because appending digits never makes a number smaller. */
  lemma {:induction false} AccumulateValue(acc: u16, s: string)
    ensures Accumulate(acc, s).Some? <==> AllDigits(s) && ValueFrom(acc, s) <= 65535
    ensures Accumulate(acc, s).Some? ==> Accumulate(acc, s).value == ValueFrom(acc, s)
    decreases |s|
  {
    if s != [] && IsDigit(s[0]) {
      var next := acc * 10 + DigitValue(s[0]);
      assert forall i :: 1 <= i < |s| ==> s[1..][i - 1] == s[i];
      if AllDigits(s) {
        assert ValueFrom(acc, s) == ValueFrom(next, s[1..]);
      }
      if next <= 65535 {
        AccumulateValue(next, s[1..]);
      }
    }
  }

  /** A port parses exactly when, after one optional `+`, it is a non-empty
      run of decimal digits denoting at most 65535; the result is that
      number (leading zeros allowed). */
  lemma ParseU16Meaning(s: string)
    ensures var d := Unsigned(s);
      && (ParseU16(s).Some? <==> d != [] && AllDigits(d) && ValueFrom(0, d) <= 65535)
      && (ParseU16(s).Some? ==> ParseU16(s).value == ValueFrom(0, d))
  {
    AccumulateValue(0, Unsigned(s));
  }

  /** The empty text, a sign alone, a negative number and anything with a
      non-digit are rejected. */
  lemma ParseU16Rejects(s: string)
    ensures ParseU16("") == None && ParseU16("+") == None && ParseU16("-") == None
    ensures s != [] && s[0] == '-' ==> ParseU16(s) == None
    ensures (exists i :: 0 <= i < |s| && !IsDigit(s[i]) && s[i] != '+') ==> ParseU16(s) == None
  {
    ParseU16Meaning(s);
    ParseU16Meaning("+");
    ParseU16Meaning("-");
    if exists i :: 0 <= i < |s| && !IsDigit(s[i]) && s[i] != '+' {
      var i :| 0 <= i < |s| && !IsDigit(s[i]) && s[i] != '+';
      if |s| > 1 && s[0] == '+' {
        assert Unsigned(s)[i - 1] == s[i];
      }
    }
  }

  /** Decimal digits of a number, without leading zeros. */
  function Show(n: nat): (r: string)
    ensures |r| >= 1 && AllDigits(r)
    ensures r[0] == '0' ==> n == 0
  {
    if n < 10 then ['0' + (n as char)] else Show(n / 10) + ['0' + ((n % 10) as char)]
  }

  lemma {:induction false} ValueFromAppend(acc: nat, s: string, c: char)
    requires AllDigits(s) && IsDigit(c)
    ensures ValueFrom(acc, s + [c]) == ValueFrom(acc, s) * 10 + DigitValue(c)
    decreases |s|
  {
    if s == [] {
      assert ([] + [c])[1..] == [];
    } else {
      assert (s + [c])[1..] == s[1..] + [c];
      ValueFromAppend(acc * 10 + DigitValue(s[0]), s[1..], c);
    }
  }

  lemma {:induction false} ShowValue(n: nat)
    ensures ValueFrom(0, Show(n)) == n
    decreases n
  {
    if n >= 10 {
      ShowValue(n / 10);
      ValueFromAppend(0, Show(n / 10), '0' + ((n % 10) as char));
    } else {
      assert Show(n)[1..] == [];
    }
  }

  /** Printing a port and parsing it back gives the port. */
  lemma ParseShow(p: u16)
    ensures ParseU16(Show(p)) == Some(p)
  {
    ShowValue(p);
    ParseU16Meaning(Show(p));
  }

  // ---------------------------------------------------------------------
  // `smtp_server`

  datatype EnvError =
    | NotSet(name: string)          // `env::var(name).expect(..)`
    | BadServerFormat               // not exactly one ':'
    | BadPort                       // the port does not parse as `u16`
    | BadDebug(value: string)       // `smtp_debug` not one of the eight spellings
    | Unreadable(path: string)      // `fs::read(path).expect(..)`

  /** The `server:port` value: exactly two pieces, the second a `u16`. */
  function ParseServer(s: string): Result<(string, u16), EnvError> {
    var parts := Split(s, ':');
    if |parts| != 2 then Err(BadServerFormat)
    else match ParseU16(parts[1])
      case None => Err(BadPort)
      case Some(port) => Ok((parts[0], port))
  }

  /** Accepted values are exactly a colon-free host, one colon and a
      colon-free port text that parses. */
  lemma ParseServerMeaning(s: string)
    ensures ParseServer(s).Ok? <==>
      exists host, text :: ':' !in host && ':' !in text && s == host + ":" + text && ParseU16(text).Some?
    ensures ParseServer(s).Ok? ==> var (host, port) := ParseServer(s).value;
      exists text :: s == host + ":" + text && ParseU16(text) == Some(port)
  {
    var parts := Split(s, ':');
    JoinSplit(s, ':');
    if |parts| == 2 {
      assert s == parts[0] + ":" + parts[1];
    }
    if exists host, text :: ':' !in host && ':' !in text && s == host + ":" + text && ParseU16(text).Some? {
      var host, text :| ':' !in host && ':' !in text && s == host + ":" + text && ParseU16(text).Some?;
      SplitJoin([host, text], ':');
      assert JoinWith([host, text], ':') == s;
    }
  }

  /** Every colon-free host and port is read back from `host:port`. */
  lemma ParseServerOf(host: string, port: u16)
    requires ':' !in host
    ensures ParseServer(host + ":" + Show(port)) == Ok((host, port))
  {
    var text := Show(port);
    assert ':' !in text by {
      assert forall i :: 0 <= i < |text| ==> IsDigit(text[i]);
    }
    SplitJoin([host, text], ':');
    assert JoinWith([host, text], ':') == host + ":" + text;
    ParseShow(port);
  }

  // ---------------------------------------------------------------------
  // `smtp_debug`

  /** The eight spellings the debug flag accepts; anything else panics. */
  function ParseDebug(v: string): (r: Option<bool>)
    ensures r == Some(true) <==> v in {"true", "True", "TRUE", "1"}
    ensures r == Some(false) <==> v in {"false", "False", "FALSE", "0"}
  {
    if v in {"true", "True", "TRUE", "1"} then Some(true)
    else if v in {"false", "False", "FALSE", "0"} then Some(false)
    else None
  }

  // ---------------------------------------------------------------------
  // `new_from_env`

  /** What `new_from_env` puts into the connection. */
  datatype Settings = Settings(
    host: string, port: u16, username: string, password: string,
    from: string, to: string, subject: string,
    attachmentName: string, attachmentData: seq<byte>)

  const SubjectPrefix: string := "Test mail Rust OpenSSL - smtp email sent with attachement at "
  const NoAttachment: string := "NO ATTACHMENT"

  /** `env::var(name)`: the value, or the panic of its `expect`. */
  function Var(env: map<string, string>, name: string): (r: Result<string, EnvError>)
    ensures r.Ok? <==> name in env
    ensures r.Ok? ==> r.value == env[name]
    ensures r.Err? ==> r.error == NotSet(name)
  {
    if name in env then Ok(env[name]) else Err(NotSet(name))
  }

  /** The attachment path and bytes: the named file, or "NO ATTACHMENT"
      with no bytes when no path is set. */
  function Attachment(env: map<string, string>, files: map<string, seq<byte>>): Result<(string, seq<byte>), EnvError> {
    if "smtp_attachment_path" !in env then Ok((NoAttachment, []))
    else
      var path := env["smtp_attachment_path"];
      if path in files then Ok((path, files[path])) else Err(Unreadable(path))
  }

  /** `new_from_env` up to building the machine, in the source's order of
      reads; the first failed `expect` or `panic!` is the error. */
  function FromEnv(env: map<string, string>, files: map<string, seq<byte>>, now: string): Result<Settings, EnvError> {
    match Var(env, "smtp_server")
    case Err(e) => Err(e)
    case Ok(server) =>
      match ParseServer(server)
      case Err(e) => Err(e)
      case Ok((host, port)) =>
        match Var(env, "smtp_username")
        case Err(e) => Err(e)
        case Ok(username) =>
          match Var(env, "smtp_password")
          case Err(e) => Err(e)
          case Ok(password) =>
            match Var(env, "smtp_from")
            case Err(e) => Err(e)
            case Ok(from) =>
              match Var(env, "smtp_to")
              case Err(e) => Err(e)
              case Ok(to) =>
                var debug := if "smtp_debug" in env then env["smtp_debug"] else "false";
                if ParseDebug(debug).None? then Err(BadDebug(debug))
                else
                  var subject := if "smtp_subject" in env then env["smtp_subject"] else SubjectPrefix + now;
                  match Attachment(env, files)
                  case Err(e) => Err(e)
                  case Ok((name, data)) =>
                    Ok(Settings(host, port, username, password, from, to, subject, name, data))
  }

  /** The names `new_from_env` requires. */
  predicate Required(env: map<string, string>) {
    && "smtp_server" in env && "smtp_username" in env && "smtp_password" in env
    && "smtp_from" in env && "smtp_to" in env
  }

  /** When the settings are read, every required variable was set, the
      server value parsed, the debug flag (default "false") was valid, and
      the fields are the variables' values, the subject defaulting to the
      fixed text and the time. */
  lemma FromEnvOk(env: map<string, string>, files: map<string, seq<byte>>, now: string)
    requires FromEnv(env, files, now).Ok?
    ensures Required(env)
    ensures var s := FromEnv(env, files, now).value;
      && ParseServer(env["smtp_server"]) == Ok((s.host, s.port))
      && s.username == env["smtp_username"] && s.password == env["smtp_password"]
      && s.from == env["smtp_from"] && s.to == env["smtp_to"]
      && s.subject == (if "smtp_subject" in env then env["smtp_subject"] else SubjectPrefix + now)
      && ParseDebug(if "smtp_debug" in env then env["smtp_debug"] else "false").Some?
      && Attachment(env, files) == Ok((s.attachmentName, s.attachmentData))
  {
  }

  /** The settings fail to be read exactly when a required variable is
      missing, the server value is rejected, the debug flag is invalid or
      the attachment file cannot be read. */
  lemma FromEnvFails(env: map<string, string>, files: map<string, seq<byte>>, now: string)
    ensures FromEnv(env, files, now).Err? <==>
      || !Required(env)
      || ParseServer(env["smtp_server"]).Err?
      || ParseDebug(if "smtp_debug" in env then env["smtp_debug"] else "false").None?
      || Attachment(env, files).Err?
    ensures "smtp_server" !in env ==> FromEnv(env, files, now) == Err(NotSet("smtp_server"))
  {
  }

  /** Without an attachment path the name is "NO ATTACHMENT" and there is
      no data; with one, the name is the path and the data the file. */
  lemma AttachmentDefault(env: map<string, string>, files: map<string, seq<byte>>)
    ensures "smtp_attachment_path" !in env ==> Attachment(env, files) == Ok((NoAttachment, []))
    ensures "smtp_attachment_path" in env ==>
      var path := env["smtp_attachment_path"];
      Attachment(env, files) == if path in files then Ok((path, files[path])) else Err(Unreadable(path))
  {
  }

  /** The assertion that the encoded attachment's length is a multiple of
      4 never fails. */
  lemma EncodedLengthAssertion(data: seq<byte>)
    ensures |Base64.Encode(data)| % 4 == 0
  {
  }
}
