/** The transport of `stream.rs`: one SMTP connection whose byte stream is a
    tagged union that starts empty, becomes a TCP stream on connect and a
    TLS stream on STARTTLS. DNS, TCP connect, the TLS handshake, hostname
    validation and socket I/O are outcomes supplied by the caller. */
module Stream {
  import opened Wrappers
  import opened Utf8

  type u16 = p: int | 0 <= p < 65536

  /** Rust's `Stream` enum. `NoStream` is its `Stream::None` placeholder. */
  datatype Stream = TcpStream | TlsStream | NoStream

  /** The `io::Error`s the connection returns, one per distinct cause. */
  datatype IoError =
    | ResolveFailed     // `to_socket_addrs()` failed
    | HostNotFound      // no address: ErrorKind::NotFound "Could not resolve host"
    | ConnectFailed     // `TcpStream::connect` failed
    | InvalidHostname   // ErrorKind::InvalidInput "Invalid hostname"
    | HandshakeFailed   // the TLS handshake failed
    | StreamIsNone      // ErrorKind::Other "Stream is None"
    | WriteFailed
    | FlushFailed
    | ReadFailed

  /** What name resolution of `(host, port)` gives. */
  datatype Resolution = Resolved | NoAddress | ResolveError

  /** What the socket delivers to one `read`. */
  datatype Incoming = Received(bytes: seq<byte>) | ReadError

  /** One I/O operation that reached the socket, in the connection's log. */
  datatype Io = Wrote(data: seq<byte>) | Flushed

  /** Size of the read buffer in `read`. */
  const BufferSize: nat := 1024

  /** One call on the connection, with the outcome the environment gives it. */
  datatype Op =
    | Connect(resolution: Resolution, connectOk: bool)
    | SwitchToTls(hostnameValid: bool, handshakeOk: bool)
    | Write(writeOk: bool)
    | Flush(flushOk: bool)
    | Read(incoming: Incoming)

  /** The outcomes the environment gives the calls one event handler
      makes: name resolution and TCP connect, the hostname check and the
      TLS handshake, and the position of the first write or flush of the
      call that fails (none when all succeed). */
  datatype Network = Network(resolution: Resolution, connectOk: bool,
                             hostnameValid: bool, handshakeOk: bool, failAt: Option<nat>)

  /** The variant a call leaves behind and the error it returns, if any. */
  datatype Effect = Effect(stream: Stream, error: Option<IoError>)

  function Apply(s: Stream, op: Op): (e: Effect)
    // connect succeeds exactly when the host resolves and the connection opens
    ensures op.Connect? ==> (e.error.None? <==> (op.resolution.Resolved? && op.connectOk))
    // on success each call leaves the variant it is for
    ensures e.error.None? && op.Connect? ==> e.stream == TcpStream
    ensures e.error.None? && op.SwitchToTls? ==> e.stream == TlsStream
    // a failed connect and every read, write and flush keep the variant
    ensures op.Connect? && e.error.Some? ==> e.stream == s
    ensures !op.Connect? && !op.SwitchToTls? ==> e.stream == s
    // a hostname that fails validation errors before the stream is touched
    ensures op.SwitchToTls? && !op.hostnameValid ==> e == Effect(s, Some(InvalidHostname))
    // a failed handshake loses the TCP stream that was swapped out
    ensures op.SwitchToTls? && op.hostnameValid && s == TcpStream && !op.handshakeOk ==> e == Effect(NoStream, Some(HandshakeFailed))
    // an upgrade of an upgraded stream is a no-op
    ensures op.SwitchToTls? && op.hostnameValid && s == TlsStream ==> e == Effect(TlsStream, None)
    // without a stream nothing but connect can succeed
    ensures s == NoStream && !op.Connect? ==> e.stream == NoStream && e.error.Some?
    // once TLS, only connect moves the stream off TLS
    ensures s == TlsStream && !op.Connect? ==> e.stream == TlsStream
  {
    match op
    case Connect(resolution, connectOk) =>
      if resolution == ResolveError then Effect(s, Some(ResolveFailed))
      else if resolution == NoAddress then Effect(s, Some(HostNotFound))
      else if !connectOk then Effect(s, Some(ConnectFailed))
      else Effect(TcpStream, None)
    case SwitchToTls(hostnameValid, handshakeOk) =>
      if !hostnameValid then Effect(s, Some(InvalidHostname))
      else (match s
        case TcpStream => if handshakeOk then Effect(TlsStream, None) else Effect(NoStream, Some(HandshakeFailed))
        case TlsStream => Effect(TlsStream, None)
        case NoStream => Effect(NoStream, Some(StreamIsNone)))
    case Write(ok) =>
      Effect(s, if s == NoStream then Some(StreamIsNone) else if ok then None else Some(WriteFailed))
    case Flush(ok) =>
      Effect(s, if s == NoStream then Some(StreamIsNone) else if ok then None else Some(FlushFailed))
    case Read(incoming) =>
      Effect(s, if s == NoStream then Some(StreamIsNone) else if incoming.ReadError? then Some(ReadFailed) else None)
  }

  /** The variant left after a sequence of calls. */
  function Replay(s: Stream, ops: seq<Op>): Stream
    decreases |ops|
  {
    if ops == [] then s else Replay(Apply(s, ops[0]).stream, ops[1..])
  }

  /** Once the stream is TLS, no sequence of calls without a connect can
      take it off TLS. */
  lemma {:induction false} TlsIsPermanent(ops: seq<Op>)
    requires forall i :: 0 <= i < |ops| ==> !ops[i].Connect?
    ensures Replay(TlsStream, ops) == TlsStream
    decreases |ops|
  {
    if ops != [] {
      TlsIsPermanent(ops[1..]);
    }
  }

  /** Without a connect the stream never becomes TCP unless it already is. */
  lemma {:induction false} NoConnectNoTcp(s: Stream, ops: seq<Op>)
    requires forall i :: 0 <= i < |ops| ==> !ops[i].Connect?
    requires s != TcpStream
    ensures Replay(s, ops) != TcpStream
    decreases |ops|
  {
    if ops != [] {
      NoConnectNoTcp(Apply(s, ops[0]).stream, ops[1..]);
    }
  }

  function AsResult(error: Option<IoError>): (r: Result<(), IoError>)
    ensures r.Ok? <==> error.None?
  {
    match error
    case None => Ok(())
    case Some(e) => Err(e)
  }

  /** The first `n` bytes of `b`, or all of them if there are fewer. */
  function Take(b: seq<byte>, n: nat): (r: seq<byte>)
    ensures |r| <= n && |r| <= |b| && r == b[..|r|]
    ensures |b| <= n ==> r == b
  {
    if |b| <= n then b else b[..n]
  }

  /** Rust's `SmtpConnection`. `stream.rs` declares the first five fields;
      `from`, `to`, `subject` and the attachment are the fields the struct
      literal in `state_machine.rs` sets. Only the stream changes after
      construction; `log` records the I/O that reached the socket. */
  class SmtpConnection {
    var stream: Stream
    const host: string
    const port: u16
    const username: Option<string>
    const password: Option<string>
    const from: string
    const to: string
    const subject: string
    const attachementName: Option<string>
    const attachementData: Option<seq<byte>>
    ghost var log: seq<Io>

    /** `SmtpConnection::new`: no stream yet, the parameters copied. */
    constructor (host: string, port: u16, username: Option<string>, password: Option<string>)
      ensures stream == NoStream && log == []
      ensures this.host == host && this.port == port
      ensures this.username == username && this.password == password
      ensures from == "" && to == "" && subject == ""
      ensures attachementName == None && attachementData == None
    {
      stream := NoStream;
      this.host := host;
      this.port := port;
      this.username := username;
      this.password := password;
      from := "";
      to := "";
      subject := "";
      attachementName := None;
      attachementData := None;
      log := [];
    }

    /** The struct literal that sets every field. */
    constructor WithEnvelope(host: string, port: u16, username: Option<string>, password: Option<string>,
                             from: string, to: string, subject: string,
                             attachementName: Option<string>, attachementData: Option<seq<byte>>)
      ensures stream == NoStream && log == []
      ensures this.host == host && this.port == port
      ensures this.username == username && this.password == password
      ensures this.from == from && this.to == to && this.subject == subject
      ensures this.attachementName == attachementName && this.attachementData == attachementData
    {
      stream := NoStream;
      this.host := host;
      this.port := port;
      this.username := username;
      this.password := password;
      this.from := from;
      this.to := to;
      this.subject := subject;
      this.attachementName := attachementName;
      this.attachementData := attachementData;
      log := [];
    }

    /** `connect_to_server`: on success the stream is TCP, whatever it was;
        a resolve or connect failure leaves it as it was. */
    method ConnectToServer(resolution: Resolution, connectOk: bool) returns (r: Result<(), IoError>)
      modifies this`stream
      ensures var e := Apply(old(stream), Op.Connect(resolution, connectOk));
        stream == e.stream && r == AsResult(e.error)
      ensures r.Ok? ==> stream == TcpStream
      ensures r.Err? ==> stream == old(stream)
    {
      if resolution == ResolveError {
        return Err(ResolveFailed);
      }
      if resolution == NoAddress {
        return Err(HostNotFound);
      }
      if !connectOk {
        return Err(ConnectFailed);
      }
      stream := TcpStream;
      r := Ok(());
    }

    /** `switch_to_tls`: the hostname is checked first; then the stream is
        swapped out for `NoStream` and the TCP stream handed to the
        handshake, so a failed handshake leaves no stream at all. */
    method SwitchToTls(hostnameValid: bool, handshakeOk: bool) returns (r: Result<(), IoError>)
      modifies this`stream
      ensures var e := Apply(old(stream), Op.SwitchToTls(hostnameValid, handshakeOk));
        stream == e.stream && r == AsResult(e.error)
      ensures r.Ok? ==> stream == TlsStream
    {
      if !hostnameValid {
        return Err(InvalidHostname);
      }
      var previous := stream;
      stream := NoStream;
      match previous {
        case TcpStream =>
          if !handshakeOk {
            return Err(HandshakeFailed);
          }
        case TlsStream =>
        case NoStream =>
          return Err(StreamIsNone);
      }
      stream := TlsStream;
      r := Ok(());
    }

    /** `write`: hands all of `data` to the active stream and reports
        `data.len()` on success. */
    method Write(data: seq<byte>, writeOk: bool) returns (r: Result<nat, IoError>)
      modifies this`log
      ensures r.Ok? <==> stream != NoStream && writeOk
      ensures r.Ok? ==> r.value == |data|
      ensures r.Err? ==> r.error == Apply(stream, Op.Write(writeOk)).error.value
      ensures log == if r.Ok? then old(log) + [Wrote(data)] else old(log)
    {
      if stream == NoStream {
        return Err(StreamIsNone);
      }
      if !writeOk {
        return Err(WriteFailed);
      }
      log := log + [Wrote(data)];
      r := Ok(|data|);
    }

    /** `flush` on the active stream (called by `send_body`; `stream.rs`
        does not define it, so it is modelled like `write`). */
    method Flush(flushOk: bool) returns (r: Result<(), IoError>)
      modifies this`log
      ensures r == AsResult(Apply(stream, Op.Flush(flushOk)).error)
      ensures log == if r.Ok? then old(log) + [Flushed] else old(log)
    {
      if stream == NoStream {
        return Err(StreamIsNone);
      }
      if !flushOk {
        return Err(FlushFailed);
      }
      log := log + [Flushed];
      r := Ok(());
    }

    /** `read`: one read of at most `BufferSize` bytes from the active
        stream, decoded to text by `decode` (Rust's lossy UTF-8 decoding,
        which the model leaves abstract). */
    method Read(incoming: Incoming, decode: seq<byte> -> string) returns (r: Result<string, IoError>)
      ensures r.Ok? <==> stream != NoStream && incoming.Received?
      ensures r.Ok? ==> r.value == decode(Take(incoming.bytes, BufferSize))
      ensures r.Err? ==> r.error == Apply(stream, Op.Read(incoming)).error.value
    {
      var bytesRead: seq<byte>;
      if stream == NoStream {
        return Err(StreamIsNone);
      }
      match incoming {
        case ReadError =>
          return Err(ReadFailed);
        case Received(bytes) =>
          bytesRead := Take(bytes, BufferSize);
      }
      r := Ok(decode(bytesRead));
    }
  }
}
