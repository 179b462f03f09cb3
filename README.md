# send-smtp-mail in Dafny

A model of `send-smtp-mail`, a Rust SMTP client that sends one message.
The client:

- opens a plaintext TCP connection and greets the server with EHLO;
- upgrades the connection with STARTTLS (RFC 3207 section 4);
- logs in with AUTH LOGIN, sending the credentials in base64 (RFC 4648
  section 4, standard alphabet, padded);
- with the later state machine, sends MAIL FROM, RCPT TO and DATA, then
  a `multipart/mixed` body (RFC 2046 section 5.1) with a base64
  attachment, the end-of-data line (RFC 5321 section 4.1.1.4) and QUIT.

The modules follow the source files:

| module | file | models |
|---|---|---|
| `Utf8` | `utf8.dfy` | bytes, and the UTF-8 encoding `String::as_bytes` applies |
| `Base64` | `base64.dfy` | the encoder, plus a reference decoder used to state the round trip |
| `Stream` | `stream.dfy` | `stream.rs`: the class `SmtpConnection` |
| `StateEvents` | `state_events.dfy` | `state_events.rs`: the reply classifier and `get_event` |
| `SendBody` | `send_body.dfy` | `state_machine/send_body.rs`: `chunk_and_encode` and `send_body` |
| `Config` | `config.dfy` | what `new_from_env` reads and parses |
| `Machine` | `machine.dfy` | `state_machine.rs`: the full state machine |
| `EarlyMachine` | `early_machine.dfy` | `state_machine/mod.rs`: the earlier, smaller state machine |
| `Driver` | `driver.dfy` | `main.rs`: the bounded event loop |
| `Wrappers` | `wrappers.dfy` | `Option` and `Result` |

`SmtpConnection` in the Stream module:

- It is a class whose `stream` field is the tagged union
  `TcpStream | TlsStream | NoStream`. Its methods reassign that field as
  the Rust methods do.
- Every write or flush that reaches the socket is appended to a ghost
  `log`.

The environment is given to the model as parameters. These are:

- DNS resolution and the TCP connect;
- the hostname check and the TLS handshake;
- the success of each write and flush;
- the bytes each read delivers.

Each state machine is written in two layers:

- **A pure function.** `Transition(state, event, conn, net)` gives the next
  state, the stream variant left, the writes that reached the socket and,
  for the full machine, whether the handler returned or panicked.
- **Class methods.** The methods of `StateMachine` change `state`, the
  stream and the log. Each is proved to do exactly what `Transition` says.

The properties of the protocol are lemmas about `Transition`, among
them:

- the start, failure and finish rules;
- the commands written in each state;
- the stream variant each state runs on, which every transition keeps
  (`Coherent`).

The driver is a method with the source's `while` loop. It is proved to
end after at most 11 passes.

Two details of the code shape the model:

- `Failed` is not absorbing. In both state machines the `(_, Complete)`
  arm comes before the fallback, so `Complete` moves every state, `Failed`
  and `Start` included, to `Finished` (`Machine.Terminal`,
  `Machine.FromStart`, `EarlyMachine.CatchAll`).
- The two machines spell EHLO differently. `state_machine.rs` writes
  `EHLO rustclient`. `state_machine/mod.rs` writes `EHLO rustclien`.

## Model

| member | source | states |
|---|---|---|
| Utf8.CharBytes | send-smtp-mail/src/state_machine.rs:219 | a character encodes to 1 to 4 bytes; exactly the ASCII characters take one byte, their code point; every byte of a longer encoding is at least 0x80 |
| Utf8.AsBytesConcat | send-smtp-mail/src/state_machine.rs:219 | the bytes of a concatenation are the bytes of its parts, in order |
| Utf8.LineBytes | send-smtp-mail/src/state_machine.rs:219 | the bytes of `data` followed by CR LF are the bytes of `data` followed by 13, 10 |
| Utf8.AsciiAsBytes | send-smtp-mail/src/state_machine/send_body.rs:13 | ASCII text is its own byte string: one byte per character, equal to its code point |
| Utf8.AsciiTextOfBytes | send-smtp-mail/src/state_machine/send_body.rs:13 | the bytes of ASCII text are all below 0x80 and read back as the same text |
| Base64.Char | send-smtp-mail/src/state_machine/send_body.rs:9 | every 6-bit value maps to an ASCII character of the alphabet that is not the pad |
| Base64.ValueOfChar | send-smtp-mail/src/state_machine/send_body.rs:9 | the alphabet is read back unambiguously: each character gives back the value it stands for |
| Base64.Sextets | send-smtp-mail/src/state_machine/send_body.rs:9 | `n` bytes become `4 * ceil(n / 3)` output positions |
| Base64.Encode | send-smtp-mail/src/state_machine/send_body.rs:9 | the encoding of `n` bytes has length `4 * ceil(n / 3)`, a multiple of 4, and is all ASCII |
| Base64.EncodeConcat | send-smtp-mail/src/state_machine/send_body.rs:9 | a prefix of whole 3-byte groups encodes independently of what follows it |
| Base64.DecodeEncode | send-smtp-mail/src/state_machine/send_body.rs:9 | decoding an encoding gives back exactly the bytes encoded |
| Base64.EncodeInjective | send-smtp-mail/src/state_machine.rs:121-143 | distinct byte strings, for example distinct credentials, never share an encoding |
| Base64.UsernamePrompt | send-smtp-mail/src/state_events.rs:48 | the base64 of "Username:" is `VXNlcm5hbWU6`, the prompt text the classifier looks for |
| Base64.PasswordPrompt | send-smtp-mail/src/state_events.rs:52 | the base64 of "Password:" is `UGFzc3dvcmQ6` |
| Stream.Apply | send-smtp-mail/src/stream.rs:33-95 | the variant and error each call leaves. Connect succeeds exactly when the host resolves and connects, and then leaves TCP; a failed connect keeps the variant. An invalid hostname changes nothing. A failed handshake from TCP leaves no stream. An upgrade of TLS is a no-op success. Without a stream only connect can succeed. Reads, writes and flushes never change the variant |
| Stream.TlsIsPermanent | send-smtp-mail/src/stream.rs:65-95 | once the stream is TLS, no sequence of calls without a connect takes it off TLS |
| Stream.NoConnectNoTcp | send-smtp-mail/src/stream.rs:33-73 | only a connect can make the stream TCP |
| Stream.Take | send-smtp-mail/src/stream.rs:85-94 | a read keeps the first `min(n, 1024)` bytes of what arrived, a prefix of it |
| Stream.SmtpConnection.constructor | send-smtp-mail/src/stream.rs:24-32 | `new`: no stream, empty log, host, port and credentials copied unchanged |
| Stream.SmtpConnection.WithEnvelope | send-smtp-mail/src/state_machine.rs:289-300 | the struct literal: no stream, every field as given |
| Stream.SmtpConnection.ConnectToServer | send-smtp-mail/src/stream.rs:33-45 | on success the stream is TCP whatever it was; on a resolve or connect failure the error is returned and the stream is unchanged |
| Stream.SmtpConnection.SwitchToTls | send-smtp-mail/src/stream.rs:48-73 | the new variant and result are those `Apply` gives for the upgrade; success leaves TLS |
| Stream.SmtpConnection.Write | send-smtp-mail/src/stream.rs:75-82 | fails exactly without a stream or when the socket write fails; on success it returns `data.len()` and logs the data; on failure it logs nothing |
| Stream.SmtpConnection.Flush | send-smtp-mail/src/state_machine/send_body.rs:118 | like `write`: fails without a stream or when the socket flush fails, and logs a flush only on success |
| Stream.SmtpConnection.Read | send-smtp-mail/src/stream.rs:83-95 | fails exactly without a stream or on a read error; otherwise returns the decoding of at most 1024 bytes of what arrived |
| StateEvents.Lines | send-smtp-mail/src/state_events.rs:30 | `str::lines`: no line contains a line feed, and there are no lines exactly when the input is empty |
| StateEvents.LinesCons | send-smtp-mail/src/state_events.rs:30 | a line ended by a line feed is split off as the first line, with one trailing CR removed |
| StateEvents.LineEvent | send-smtp-mail/src/state_events.rs:31-62 | a line that matches a rule gives a reply event, never `NoEvent`; which event each rule gives is stated by `Greeting`, `Offer`, `UsernameRequest`, `PasswordRequest`, `TransientFailure` and `PermanentFailure` |
| StateEvents.Classify | send-smtp-mail/src/state_events.rs:30-64 | the classification is always a reply event: never `Connect`, `Stop`, `Timeout`, `Complete` or an event only the full machine uses |
| StateEvents.ScanFirstMatch | send-smtp-mail/src/state_events.rs:30-64 | `NoEvent` exactly when no line matches a rule; otherwise the event of the first line that matches |
| StateEvents.ClassifyFirstLine | send-smtp-mail/src/state_events.rs:30-63 | when the first CRLF-terminated line matches a rule, its event is the result, whatever follows |
| StateEvents.Greeting | send-smtp-mail/src/state_events.rs:31-34 | a first line starting with 220 gives `Received220` carrying that line without its terminator |
| StateEvents.StartTlsOffer | send-smtp-mail/src/state_events.rs:35-47 | `"250-STARTTLS\r\n250 AUTH LOGIN\r\n"` gives `Received250StartTls("250-STARTTLS")`, because STARTTLS is searched for in the whole input |
| StateEvents.Offer | send-smtp-mail/src/state_events.rs:35-47 | a first line starting with 250 gives `Received250StartTls` when the whole input contains STARTTLS, otherwise `Received250StartTlsAuth` when it contains AUTH, otherwise `Received250`, each carrying the line |
| StateEvents.UsernameRequest | send-smtp-mail/src/state_events.rs:48-51 | a first line starting with the username prompt gives `Received334Username` |
| StateEvents.PasswordRequest | send-smtp-mail/src/state_events.rs:52-55 | a first line starting with the password prompt gives `Received334Password` |
| StateEvents.PermanentFailure | send-smtp-mail/src/state_events.rs:60-62 | a first line starting with 5 gives `Received5xx` carrying the line |
| StateEvents.TransientFailure | send-smtp-mail/src/state_events.rs:56-59 | a first line starting with 4 gives `Received4xx` carrying the line |
| StateEvents.ServiceNotAvailable | send-smtp-mail/src/state_events.rs:56-59 | `"421 Service not available\r\n"` gives `Received4xx("421 Service not available")` |
| StateEvents.AuthAndDataRepliesUnclassified | send-smtp-mail/src/state_events.rs:30-64 | lines that all start with 235 or 354 give `NoEvent` |
| StateEvents.LoneUnclassifiedReply | send-smtp-mail/src/state_events.rs:30-64 | a lone 235 or 354 reply line gives `NoEvent` |
| StateEvents.EventOf | send-smtp-mail/src/state_events.rs:27-70 | `Stop` exactly when the read failed; otherwise the classification of what was read |
| StateEvents.GetEvent | send-smtp-mail/src/state_events.rs:22-71 | the event is `Delivered` of the connection's stream and what the server sent: `Stop` exactly when there is no stream or the read fails; otherwise the classification of at most 1024 received bytes, always a reply event |
| StateEvents.Delivered | send-smtp-mail/src/state_events.rs:22-71 | `Stop` exactly when there is no stream or the read fails, and otherwise a reply event: never `Connect`, `Timeout` or `Complete` |
| SendBody.EffectiveSize | send-smtp-mail/src/state_machine/send_body.rs:18-26 | the chunk length is a positive multiple of 4: 4 below a size of 4, otherwise the size rounded down to a multiple of 4 |
| SendBody.Chunks | send-smtp-mail/src/state_machine/send_body.rs:29-31 | `chunks(size)`: the pieces put together are the input; every piece is non-empty and at most `size`; all but the last are exactly `size` |
| SendBody.WithCrlf | send-smtp-mail/src/state_machine/send_body.rs:32-36 | each piece, in order, is followed by CR LF |
| SendBody.ChunkAndEncode | send-smtp-mail/src/state_machine/send_body.rs:7-38 | size 0 gives exactly one piece; for a positive size, no pieces exactly for empty data, and every piece is 1 to `EffectiveSize` characters followed by CR LF; every piece but the last carries exactly `EffectiveSize` characters; every payload, the single one of size 0 included, is a multiple of 4 long, so no cut falls inside a base64 quantum |
| SendBody.ChunkAndEncodeRoundTrip | send-smtp-mail/src/state_machine/send_body.rs:9-37 | for every size, the pieces with their CR LF removed put back together are exactly the base64 text, which is ASCII and decodes to the data |
| SendBody.LineLimit | send-smtp-mail/src/state_machine/send_body.rs:19-31 | for a size of at least 4, no encoded line is longer than the size asked for |
| SendBody.PlanWire | send-smtp-mail/src/state_machine/send_body.rs:77-130 | flushes put nothing on the wire: the wire carries the pieces back to back |
| SendBody.PlanShape | send-smtp-mail/src/state_machine/send_body.rs:82-130 | without an attachment part exactly three writes; with one, flushes occur and the second write is the part header |
| SendBody.BodyPlanPieces | send-smtp-mail/src/state_machine/send_body.rs:45-48 | the chunker called with size 0 yields one piece, the whole base64 text, even for empty data, so the attachment test depends only on the name |
| SendBody.AttachmentTexts | send-smtp-mail/src/state_machine/send_body.rs:82-103 | with pieces to send, the part header is present exactly when a name is given, and it names that file |
| SendBody.AttachmentIffNamed | send-smtp-mail/src/state_machine/send_body.rs:45-105 | the body has three writes exactly when there is no attachment name; it flushes exactly when there is one, and then its second write is the part header naming the file |
| SendBody.WireIsMailText | send-smtp-mail/src/state_machine/send_body.rs:45-132 | what reaches the server is exactly the bytes of the whole message text: header, text part, attachment part with the base64 of the data, closing delimiter and end-of-data line |
| SendBody.EndsWithEndOfData | send-smtp-mail/src/state_machine/send_body.rs:84-130 | on either path the wire text ends with the end-of-data line |
| SendBody.EndOfDataBytes | send-smtp-mail/src/state_machine/send_body.rs:129 | the end-of-data line is CR LF "." CR LF |
| SendBody.Performed | send-smtp-mail/src/state_machine/send_body.rs:77-130 | with a stream, every operation completes unless one is named to fail, and then exactly the ones before it; without a stream none completes |
| SendBody.Emit | send-smtp-mail/src/state_machine/send_body.rs:77-79 | one unwrapped write or flush succeeds exactly when there is a stream and it is not the failing one; on success it is logged; on failure its error is returned |
| SendBody.FinishPlain | send-smtp-mail/src/state_machine/send_body.rs:84-88 | the closing delimiter and end-of-data writes, stopping at the first failure |
| SendBody.FinishParts | send-smtp-mail/src/state_machine/send_body.rs:118-130 | the flushes, the closing delimiter and the end-of-data write after the attachment, stopping at the first failure |
| SendBody.SendPieces | send-smtp-mail/src/state_machine/send_body.rs:77-132 | performs the plan in order: the log gains the operations performed; `MailSent` exactly when all succeeded, otherwise a panic with the error of the first that failed |
| SendBody.Send | send-smtp-mail/src/state_machine/send_body.rs:40-133 | `send_body`: performs the body plan built from the connection's envelope and attachment, with the outcome `SendPieces` states |
| Config.Split | send-smtp-mail/src/state_machine.rs:236 | `split(':')`: at least one piece, none containing the separator |
| Config.JoinSplit | send-smtp-mail/src/state_machine.rs:236 | the pieces joined with the separator give back the input |
| Config.SplitJoin | send-smtp-mail/src/state_machine.rs:236-238 | splitting a join of separator-free pieces gives back the pieces |
| Config.ParseU16Meaning | send-smtp-mail/src/state_machine.rs:240 | a port parses exactly when, after one optional `+`, it is a non-empty run of digits of value at most 65535, and then gives that value |
| Config.ParseU16Rejects | send-smtp-mail/src/state_machine.rs:240 | the empty text, a lone sign, a negative number and any text with a non-digit are rejected |
| Config.ParseShow | send-smtp-mail/src/state_machine.rs:240 | every port printed in decimal parses back to itself |
| Config.ParseServerMeaning | send-smtp-mail/src/state_machine.rs:236-243 | `smtp_server` is accepted exactly when it is a colon-free host, one colon and a colon-free port text that parses; the result is that host and port |
| Config.ParseServerOf | send-smtp-mail/src/state_machine.rs:236-243 | every colon-free host and port is read back from `host:port` |
| Config.ParseDebug | send-smtp-mail/src/state_machine.rs:249-260 | true exactly for the four true spellings, false exactly for the four false spellings, an error otherwise |
| Config.Var | send-smtp-mail/src/state_machine.rs:235 | a variable's value when it is set, and the `NotSet` error naming it otherwise |
| Config.FromEnvOk | send-smtp-mail/src/state_machine.rs:233-285 | stated case by case from `FromEnv` (it follows by unfolding): when the settings are read, every required variable was set, the server value parsed, the debug flag was valid, and each field is its variable's value. The subject defaults to the fixed text and the time; the attachment is the file named or "NO ATTACHMENT" |
| Config.FromEnvFails | send-smtp-mail/src/state_machine.rs:233-279 | stated case by case from `FromEnv` (it follows by unfolding): reading fails exactly when a required variable is missing, the server value is rejected, the debug flag is invalid or the attachment file cannot be read; a missing `smtp_server` is reported first |
| Config.AttachmentDefault | send-smtp-mail/src/state_machine.rs:270-279 | stated case by case from `FromEnv` (it follows by unfolding): without a path the name is "NO ATTACHMENT" with no bytes; with one, the file's bytes, or an error naming the path |
| Config.EncodedLengthAssertion | send-smtp-mail/src/state_machine.rs:280-284 | the assertion that the encoded attachment length is a multiple of 4 never fails |
| Machine.CommandBytes | send-smtp-mail/src/state_machine.rs:219 | a command goes out as its text's bytes followed by CR LF |
| Machine.FromStart | send-smtp-mail/src/state_machine.rs:36-51 | from `Start`, `Connect` reaches `ConnectingTcp`, on TCP, exactly when the host resolves and connects, and `Failed` otherwise; `Complete` finishes; any other event fails; nothing is written |
| Machine.Terminal | send-smtp-mail/src/state_machine.rs:192-203 | `Failed` and `Finished` go to `Finished` on `Complete` and to `Failed` on anything else, writing nothing and keeping the stream |
| Machine.FinishedOnlyBy | send-smtp-mail/src/state_machine.rs:187-203 | `Finished` is reached only on `Complete`, or on `Received250Queued` in `MailSent` after writing QUIT |
| Machine.WrittenMeaning | send-smtp-mail/src/state_machine.rs:208-231 | a command is written, as its bytes and CR LF, exactly when there is a stream and the write succeeds; then the success state is reached, otherwise `Failed` |
| Machine.WritesAtMostOne | send-smtp-mail/src/state_machine.rs:35-203 | every transition except sending the body writes at most one command, and only over a stream whose write succeeds |
| Machine.PlaintextCommands | send-smtp-mail/src/state_machine.rs:52-78 | on TCP: the greeting makes it write EHLO and go to `ConnectedTcpHelloSent`; a plain 250 moves to `ConnectedTcp`; the STARTTLS offer in either state makes it write STARTTLS and go to `ConnectedTcpStartTls`; a failed write fails the machine |
| Machine.TlsUpgrade | send-smtp-mail/src/state_machine.rs:79-96 | the 220 after STARTTLS upgrades first. A failed upgrade fails the machine with nothing written: an invalid hostname keeps the TCP stream, a failed handshake loses it. A successful upgrade writes the second EHLO over TLS |
| Machine.Authentication | send-smtp-mail/src/state_machine.rs:97-149 | in `ConnectedTls`, both 250 replies make it write AUTH LOGIN; a prompt makes it write the base64 of the credential, or fails the machine without writing when the credential is missing |
| Machine.CredentialRoundTrip | send-smtp-mail/src/state_machine.rs:121-143 | the line answering a prompt decodes back to the bytes of the credential |
| Machine.Envelope | send-smtp-mail/src/state_machine.rs:150-191 | with every write succeeding: MAIL FROM with the sender, RCPT TO with the recipient, DATA, the whole body, then QUIT. Each goes to the state the source names |
| Machine.BodyOutcome | send-smtp-mail/src/state_machine.rs:182-186 | after 354 the handler returns exactly when the machine reaches `MailSent`, which holds exactly when there is a stream and no operation of the body fails, with the whole body sent; otherwise it panics in `SendingMailData` |
| Machine.CoherentPreserved | send-smtp-mail/src/state_machine.rs:35-203 | every transition keeps the state and the stream variant coherent: none before connecting, TCP until the upgrade, TLS after it |
| Machine.NeverStart | send-smtp-mail/src/state_machine.rs:35-203 | no transition returns to `Start` |
| Machine.ReplyEventsStopAtTls | send-smtp-mail/src/state_machine.rs:150-191 | events the classifier produces never take the machine to `SendingMailHeaders`, `SendingMailData`, `MailSent` or `Finished` |
| Machine.OnTlsKeepsStream | send-smtp-mail/src/state_machine.rs:97-203 | after the upgrade no transition changes the stream |
| Machine.OnlyTheBodyPanics | send-smtp-mail/src/state_machine.rs:182-186 | every transition except the 354 reply in `SendingMailData` returns |
| Machine.BodyIrrelevant | send-smtp-mail/src/state_machine.rs:182-186 | only the 354 reply in `SendingMailData` depends on the body |
| Machine.EnvelopeRun | send-smtp-mail/src/state_machine.rs:150-191 | run from `ConnectedTls` over a working stream with every write succeeding, the envelope events end in `Finished`, writing MAIL FROM, RCPT TO, DATA, the body and QUIT in this order |
| Machine.AuthRun | send-smtp-mail/src/state_machine.rs:107-149 | on the AUTH offer and both prompts the run writes AUTH LOGIN and the base64 of both credentials, then goes on as the rest of the run does |
| Machine.TcpRun | send-smtp-mail/src/state_machine.rs:52-96 | the greeting, the STARTTLS offer and its 220 write EHLO, STARTTLS and EHLO again over the upgraded stream, then the run goes on over TLS from `ConnectedTls` |
| Machine.Session | send-smtp-mail/src/state_machine.rs:29-205 | the whole successful session folded over `Transition`: from `Start` with no stream, with the connection, the upgrade and every write succeeding, the twelve events from `Connect` to the queued reply end in `Finished` on TLS, having written EHLO, STARTTLS, EHLO, AUTH LOGIN, both credentials, MAIL FROM, RCPT TO, DATA, the body and QUIT, each once and in this order |
| Machine.SentIsBodySent | send-smtp-mail/src/state_machine.rs:182-186 | what `send_body` did is the transition's reaction: the log, `MailSent` or the unchanged state, and return or panic |
| Machine.StateMachine.FromSettings | send-smtp-mail/src/state_machine.rs:287-301 | `Start`, no stream, the credentials present, envelope and attachment from the settings |
| Machine.StateMachine.NewFromEnv | send-smtp-mail/src/state_machine.rs:233-302 | fails exactly when reading the settings fails, with that error; otherwise a fresh machine built from them |
| Machine.StateMachine.WriteAndGetNextState | send-smtp-mail/src/state_machine.rs:208-231 | writes the command followed by CR LF; `state_ok` when there is a stream and the write succeeds, `state_error` otherwise, with the log changed accordingly |
| Machine.StateMachine.HandleEvent | send-smtp-mail/src/state_machine.rs:29-205 | moves state, stream and log exactly as `Transition` says, with the body sent on 354 and the handler's outcome returned |
| Machine.StateMachine.HandleCommand | send-smtp-mail/src/state_machine.rs:35-203 | every arm except the body's, performed as `Transition` says; none of them panics |
| Machine.StateMachine.HandleTls | send-smtp-mail/src/state_machine.rs:97-203 | the arms after the upgrade, except the body's: next state and log as `Transition` says |
| Machine.StateMachine.HandleTcp | send-smtp-mail/src/state_machine.rs:36-96 | the arms before TLS: state, stream and log as `Transition` says |
| Machine.StateMachine.HandleConnect | send-smtp-mail/src/state_machine.rs:36-51 | the `Start` arm as `Transition` says: the connection attempt, its state and stream |
| Machine.StateMachine.HandleGreeting | send-smtp-mail/src/state_machine.rs:52-61 | the `ConnectingTcp` arm as `Transition` says: EHLO after the greeting, `Failed` when the write fails |
| Machine.StateMachine.HandleOffer | send-smtp-mail/src/state_machine.rs:62-78 | the `ConnectedTcpHelloSent` and `ConnectedTcp` arms as `Transition` says: the plain 250 reply and the STARTTLS offer |
| Machine.StateMachine.HandleUpgrade | send-smtp-mail/src/state_machine.rs:79-96 | the `ConnectedTcpStartTls` arm as `Transition` says: the upgrade to TLS, then the second EHLO |
| Machine.StateMachine.HandleInTls | send-smtp-mail/src/state_machine.rs:97-159 | the `ConnectedTls` arms as `Transition` says: AUTH LOGIN, the two credentials and MAIL FROM |
| Machine.StateMachine.HandleHeaders | send-smtp-mail/src/state_machine.rs:161-180 | the `SendingMailHeaders` arms as `Transition` says: RCPT TO, then DATA |
| Machine.StateMachine.HandleQuit | send-smtp-mail/src/state_machine.rs:187-191 | the `MailSent` arm as `Transition` says: QUIT once the message is queued |
| Machine.StateMachine.SendMail | send-smtp-mail/src/state_machine.rs:182-186 | the body, then `MailSent`, or the panic of the first failed write or flush with the state unchanged |
| EarlyMachine.SentMeaning | send-smtp-mail/src/state_machine/mod.rs:51-66 | a line is written exactly when there is a stream and the write succeeds; then its bytes are logged and the next state is reached, otherwise `Failed` |
| EarlyMachine.FromStart | send-smtp-mail/src/state_machine/mod.rs:35-50 | from `Start`, `Connect` reaches `ConnectingTcp`, on TCP, exactly when the host resolves and connects, and `Failed` otherwise; `Complete` finishes; anything else fails |
| EarlyMachine.EhloLines | send-smtp-mail/src/state_machine/mod.rs:51-106 | both EHLO writes, after the greeting and after the upgrade, send `EHLO rustclien` followed by CR LF |
| EarlyMachine.StartTlsCommand | send-smtp-mail/src/state_machine/mod.rs:68-87 | a plain 250 after EHLO moves to `ConnectedTcp`; the STARTTLS offer in either plaintext state makes it write STARTTLS |
| EarlyMachine.TlsUpgrade | send-smtp-mail/src/state_machine/mod.rs:88-113 | a failed upgrade fails without writing the second EHLO: an invalid hostname keeps TCP, a failed handshake loses it; a successful one writes EHLO over TLS |
| EarlyMachine.EncodeEmpty | send-smtp-mail/src/state_machine/mod.rs:140 | the base64 of the empty string is empty |
| EarlyMachine.LoginLineBytes | send-smtp-mail/src/state_machine/mod.rs:132-168 | the answer to a prompt is the base64 of the credential followed by CR LF, or only CR LF when the credential is missing |
| EarlyMachine.AuthOffer | send-smtp-mail/src/state_machine/mod.rs:114-131 | in `ConnectedTls` only the AUTH offer makes it write AUTH LOGIN; a plain 250 has no arm and fails |
| EarlyMachine.Prompts | send-smtp-mail/src/state_machine/mod.rs:132-180 | each prompt is answered with the line for its own credential, even a missing one |
| EarlyMachine.MissingUsername | send-smtp-mail/src/state_machine/mod.rs:132-155 | with no username the prompt is answered with just CR LF and the machine stays in `ConnectedTls` |
| EarlyMachine.MissingPassword | send-smtp-mail/src/state_machine/mod.rs:156-180 | with no password the prompt is answered with just CR LF and the machine stays in `ConnectedTls` |
| EarlyMachine.CatchAll | send-smtp-mail/src/state_machine/mod.rs:181-188 | from every state a 5xx reply fails and `Complete` finishes, writing nothing and keeping the stream |
| EarlyMachine.FinishedIffComplete | send-smtp-mail/src/state_machine/mod.rs:34-193 | `Finished` is reached exactly on `Complete` |
| EarlyMachine.NeverStartOrHelloAccepted | send-smtp-mail/src/state_machine/mod.rs:34-193 | no transition enters `Start` or `HelloAccepted` |
| EarlyMachine.WritesAtMostOne | send-smtp-mail/src/state_machine/mod.rs:34-193 | every transition writes at most one line, and only over a stream whose write succeeds |
| EarlyMachine.CoherentPreserved | send-smtp-mail/src/state_machine/mod.rs:34-193 | every transition keeps the state and the stream variant coherent |
| EarlyMachine.StateMachine.New | send-smtp-mail/src/state_machine/mod.rs:196-203 | `Start`, no stream, host and port copied, no credentials, no attachment |
| EarlyMachine.StateMachine.FromSettings | send-smtp-mail/src/state_machine/mod.rs:259-269 | `Start`, no stream, the credentials present, the attachment from the settings |
| EarlyMachine.StateMachine.NewFromEnv | send-smtp-mail/src/state_machine/mod.rs:205-270 | fails exactly when reading the settings fails, with that error; otherwise a fresh machine built from them |
| EarlyMachine.StateMachine.HandleEvent | send-smtp-mail/src/state_machine/mod.rs:28-194 | moves state, stream and log exactly as `Transition` says |
| EarlyMachine.StateMachine.HandleTcp | send-smtp-mail/src/state_machine/mod.rs:35-113 | the arms before TLS: state, stream and log as `Transition` says |
| EarlyMachine.StateMachine.HandleConnect | send-smtp-mail/src/state_machine/mod.rs:35-50 | the `Start` arm as `Transition` says: the connection attempt, its state and stream |
| EarlyMachine.StateMachine.HandleHello | send-smtp-mail/src/state_machine/mod.rs:51-87 | the plaintext arms as `Transition` says: EHLO after the greeting, the plain 250, STARTTLS after the offer |
| EarlyMachine.StateMachine.HandleUpgrade | send-smtp-mail/src/state_machine/mod.rs:88-113 | the `ConnectedTcpStartTls` arm as `Transition` says: the upgrade to TLS, then the second EHLO |
| EarlyMachine.StateMachine.HandleInTls | send-smtp-mail/src/state_machine/mod.rs:114-180 | the `ConnectedTls` arms as `Transition` says: AUTH LOGIN and the two credential lines |
| Driver.KeepGoingMeaning | send-smtp-mail/src/main.rs:30-39 | after `Start` the loop goes on exactly when the machine has neither failed nor finished and the counter is below 11 |
| Driver.LoopCondition | send-smtp-mail/src/main.rs:22-40 | in `Start` it feeds `Connect` to the machine and goes on, before the counter is looked at; otherwise it changes nothing and answers `KeepGoing` |
| Driver.Open | send-smtp-mail/src/main.rs:20-29 | on the fresh machine the condition connects and the loop goes on; the trace so far is the connection attempt alone, and the machine is left neither in `Start` nor `Finished` |
| Driver.Step | send-smtp-mail/src/main.rs:41-50 | one pass: exactly one event from `get_event`, for what the server sent at that pass, handed unchanged to `handle_event`; the recorded trace gains exactly that pass, and the condition evaluated after it is `KeepGoing` |
| Driver.TraceMeans | send-smtp-mail/src/main.rs:22-58 | a trace of `n` passes is the connection attempt from `Start` followed by every pass, each one taken only when the loop went on, reading the event of its number and moving the machine as `handle_event` does |
| Driver.TraceDetermined | send-smtp-mail/src/main.rs:22-58 | what the server sends and what the network does fix the run: two traces of the same length end in the same state over the same stream |
| Driver.Run | send-smtp-mail/src/main.rs:13-65 | the final state and counter end a trace of exactly `counter` passes from the connection attempt, each reading one event from `get_event` and handing it to `handle_event` (`Trace`); it ends after 1 to 11 passes, neither in `Start` nor `Finished`: failed, or at the ceiling; the loop condition is false at the end |

## Left out

- `main_old.rs` is not part of this model. It drives an `openssl s_client`
  subprocess through threads, channels and sleeps.
- `log4.rs` is not part of this model. It only sets up the logger.
- `state_machine/new.rs` is not part of this model. It is outside the
  module tree, and it calls a `SmtpConnection::new` with two arguments,
  which does not exist.
- DNS, the TCP connect, the rustls configuration, certificate and
  hostname validation and the TLS handshake are outcomes given as
  parameters (`Stream.Network`, `Stream.Op`).
- async/await is modelled as sequential calls. All `log::` calls,
  `Instant` timing and the `f64` size statistics of `send_body` are left
  out.
- Stream.SmtpConnection.Write: does not model a partial write. The Rust
  method ignores the count the socket reports and returns `data.len()`;
  the model logs the whole buffer.
- Stream.SmtpConnection.Read: the lossy UTF-8 decoding is the parameter
  `decode`, so nothing is proved about the decoded text.
- Stream.SmtpConnection.Flush: `stream.rs` defines no `flush`, although
  `send_body` calls it. It is modelled like `write`.
- Stream.SmtpConnection.constructor: the struct in `stream.rs` has only
  five fields. The envelope and attachment fields that `state_machine.rs`
  sets are consts, which this constructor leaves empty.
- `Base64.Decode` is not an operation of the program. It is the reference
  inverse used to state the round trip.
- `new_from_env` reads the environment and files. They are given as maps,
  and the `chrono` time of the default subject as the text `now`.
  `dotenv` is left out. A failed `expect`, `panic!` or port parse is
  modelled as a `Config.EnvError`.
- Config.ParseDebug: the debug flag is parsed and its errors are
  modelled; its value is unused in the source and is not kept.
- Machine.StateMachine.HandleEvent: a panic in `send_body` ends the Rust
  program. The model returns `Panicked` with the state left unchanged
  and nothing afterwards relies on it.
- Machine.Conn: a transition sees the subject and attachment only
  through `body`, the writes `send_body` makes when all succeed.
  Outside the 354 case every contract uses `Fields`, which leaves `body`
  empty; `Machine.BodyIrrelevant` shows that is the same transition.
- Driver.Run: the events each pass reads and the network outcomes are
  functions of the pass number (`incoming`, `nets`). How bytes arrive on
  the socket over time is not modelled.
- Driver.Run: the program's exit status and the final log line are left out.
  Under the model's classifier the driver never reaches `Finished`, since
  `Complete` is never classified; `Run` states that it ends failed or at
  the ceiling.
- Driver.Step: evaluates the next loop condition before `Run` copies the
  state into `current_state`. Outside `Start` the condition changes
  nothing, so the order makes no difference; `current_state` only feeds a
  log line.
