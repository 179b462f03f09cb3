/** `state_machine/send_body.rs`: the content sent after DATA, a
    `multipart/mixed` message (RFC 2046 section 5.1) with a text part and,
    when the connection names an attachment, a base64 part, followed by the
    end-of-data line of RFC 5321 section 4.1.1.4. Every write and flush is
    unwrapped, so the first failing one ends the call with a panic. */
module SendBody {
  import opened Wrappers
  import opened Utf8
  import Base64
  import opened Stream

  const Boundary: string := "boundary123456789"

  /** The chunk length actually used: `chunk_size` rounded down to a
      multiple of 4, and 4 when that leaves nothing. */
  function EffectiveSize(chunkSize: nat): (k: nat)
    requires chunkSize > 0
    ensures k > 0 && k % 4 == 0
    ensures chunkSize < 4 ==> k == 4
    ensures chunkSize >= 4 ==> k <= chunkSize < k + 4
  {
    var adjusted := (chunkSize / 4) * 4;
    if adjusted == 0 then 4 else adjusted
  }

  /** `slice::chunks(size)`: consecutive pieces of exactly `size` bytes,
      the last one possibly shorter, none of them empty. */
  function Chunks(b: seq<byte>, size: nat): (r: seq<seq<byte>>)
    requires size > 0
    ensures Flatten(r) == b
    ensures forall i :: 0 <= i < |r| ==> 0 < |r[i]| <= size
    ensures forall i :: 0 <= i < |r| - 1 ==> |r[i]| == size
    decreases |b|
  {
    if b == [] then []
    else if |b| <= size then [b]
    else
      var rest := Chunks(b[size..], size);
      assert Flatten([b[..size]] + rest) == b[..size] + Flatten(rest) by {
        assert ([b[..size]] + rest)[1..] == rest;
      }
      assert b[..size] + b[size..] == b;
      [b[..size]] + rest
  }

  /** Cutting a text whose length is a multiple of 4 into pieces whose size
      is a multiple of 4 leaves every piece a multiple of 4 long. */
  lemma {:induction false} ChunksAligned(b: seq<byte>, size: nat)
    requires size > 0 && size % 4 == 0 && |b| % 4 == 0
    ensures forall i :: 0 <= i < |Chunks(b, size)| ==> |Chunks(b, size)[i]| % 4 == 0
    decreases |b|
  {
    if b != [] && |b| > size {
      ChunksAligned(b[size..], size);
      assert Chunks(b, size) == [b[..size]] + Chunks(b[size..], size);
    }
  }

  /** Each chunk followed by CR LF. */
  function WithCrlf(chunks: seq<seq<byte>>): (r: seq<seq<byte>>)
    ensures |r| == |chunks| && forall i :: 0 <= i < |r| ==> r[i] == chunks[i] + [CR, LF]
  {
    seq(|chunks|, i requires 0 <= i < |chunks| => chunks[i] + [CR, LF])
  }

  /** `chunk_and_encode`: base64 of the data, as one piece when `chunkSize`
      is 0 and otherwise cut into lines of `EffectiveSize(chunkSize)`
      characters, each ended by CR LF. Every line but the last is full,
      and since the effective size is a multiple of 4 no cut falls inside
      a base64 quantum of 4 characters. */
  function ChunkAndEncode(data: seq<byte>, chunkSize: nat): (r: seq<seq<byte>>)
    ensures chunkSize == 0 ==> |r| == 1 && |r[0]| % 4 == 0
    ensures chunkSize > 0 ==> (r == [] <==> data == [])
    ensures chunkSize > 0 ==> forall i :: 0 <= i < |r| ==>
      2 < |r[i]| <= EffectiveSize(chunkSize) + 2 && r[i][|r[i]| - 2..] == [CR, LF]
    ensures chunkSize > 0 ==> forall i :: 0 <= i < |r| - 1 ==> |r[i]| == EffectiveSize(chunkSize) + 2
    ensures chunkSize > 0 ==> forall i :: 0 <= i < |r| ==> (|r[i]| - 2) % 4 == 0
  {
    var encoded := AsBytes(Base64.Encode(data));
    AsciiAsBytes(Base64.Encode(data));
    if chunkSize == 0 then [encoded]
    else
      var pieces := Chunks(encoded, EffectiveSize(chunkSize));
      ChunksAligned(encoded, EffectiveSize(chunkSize));
      assert pieces == [] <==> data == [] by {
        if pieces == [] {
          assert |encoded| == 0;
        }
        if data != [] {
          assert |encoded| > 0;
          assert Flatten(pieces) != [];
        }
      }
      var r := WithCrlf(pieces);
      assert forall i :: 0 <= i < |r| ==> r[i][|r[i]| - 2..] == [CR, LF] by {
        forall i | 0 <= i < |r|
          ensures r[i][|r[i]| - 2..] == [CR, LF]
        {
          assert r[i] == pieces[i] + [CR, LF];
        }
      }
      r
  }

  /** The inverse of the framing: the pieces put back together, each with
      its CR LF removed when there is one per piece. */
  function Reassemble(chunks: seq<seq<byte>>, chunkSize: nat): seq<byte>
    requires chunkSize > 0 ==> forall i :: 0 <= i < |chunks| ==> |chunks[i]| >= 2
  {
    if chunkSize == 0 then Flatten(chunks)
    else Flatten(seq(|chunks|, i requires 0 <= i < |chunks| => chunks[i][..|chunks[i]| - 2]))
  }

  /** Round trip: whatever the chunk size, the pieces put back together
      are the base64 text of the data, and that text decodes to the data. */
  lemma ChunkAndEncodeRoundTrip(data: seq<byte>, chunkSize: nat)
    ensures Reassemble(ChunkAndEncode(data, chunkSize), chunkSize) == AsBytes(Base64.Encode(data))
    ensures AllAscii(Base64.Encode(data))
    ensures forall i :: 0 <= i < |AsBytes(Base64.Encode(data))| ==> AsBytes(Base64.Encode(data))[i] < 0x80
    ensures var text := Base64.Encode(data); AsciiText(AsBytes(text)) == text && Base64.Decode(text) == Some(data)
  {
    var text := Base64.Encode(data);
    var encoded := AsBytes(text);
    var r := ChunkAndEncode(data, chunkSize);
    if chunkSize == 0 {
      assert r[1..] == [];
      assert Flatten(r) == encoded + [];
    } else {
      var pieces := Chunks(encoded, EffectiveSize(chunkSize));
      var stripped := seq(|r|, i requires 0 <= i < |r| => r[i][..|r[i]| - 2]);
      assert stripped == pieces by {
        forall i | 0 <= i < |r|
          ensures stripped[i] == pieces[i]
        {
          assert r[i] == pieces[i] + [CR, LF];
        }
      }
    }
    assert AllAscii(text);
    AsciiTextOfBytes(text);
    Base64.DecodeEncode(data);
  }

  /** Cutting into lines never makes a line longer than the size asked for
      (or 4), so a size of at most 76 meets the line limit of RFC 2045
      section 6.8. */
  lemma LineLimit(data: seq<byte>, chunkSize: nat)
    requires 4 <= chunkSize
    ensures forall i :: 0 <= i < |ChunkAndEncode(data, chunkSize)| ==>
      |ChunkAndEncode(data, chunkSize)[i]| - 2 <= chunkSize
  {
  }

  /** The message header and the header of the text part. */
  function Header(from: string, to: string, subject: string): string {
    "From: " + from + "\r\nTo: " + to + "\r\nSubject: " + subject + "\r\nMIME-Version: 1.0\r\n"
    + "Content-Type: multipart/mixed; boundary=\"" + Boundary + "\"\r\n\r\n--" + Boundary + "\r\n"
    + "Content-Type: text/plain; charset=utf-8\r\n"
  }

  /** The text of the text part. */
  function Message(from: string, to: string, subject: string): string {
    "This is the email body.\r\n\r\nWas sent from " + from + " to " + to + ".\r\n\r\nSubject: \""
    + subject + "\"\r\n\r\nSee the attached file!\r\n\r\n"
  }

  /** The boundary line and headers of the attachment part. */
  function PartHeader(name: string): string {
    "--" + Boundary + "\r\nContent-Type: application/octet-stream\r\n"
    + "Content-Disposition: attachment; filename=\"" + name + "\"\r\nContent-Transfer-Encoding: base64\r\n"
  }

  /** The close-delimiter of the multipart body. */
  const Closing: string := "\r\n--" + Boundary + "--\r\n"

  /** The end-of-data indication: a line holding a single period. */
  const EndOfData: string := "\r\n.\r\n"

  function Writes(chunks: seq<seq<byte>>): (r: seq<Io>)
    ensures |r| == |chunks| && forall i :: 0 <= i < |r| ==> r[i] == Wrote(chunks[i])
  {
    seq(|chunks|, i requires 0 <= i < |chunks| => Wrote(chunks[i]))
  }

  /** The texts `send_body` writes around the attachment: the header and
      text part, the attachment part's header (absent when no attachment
      is sent), the close-delimiter and the end-of-data line. */
  datatype Texts = Texts(lead: string, part: Option<string>, closing: string, end: string)

  /** The text before any attachment: header, text part and a blank line. */
  function Lead(from: string, to: string, subject: string): string {
    Header(from, to, subject) + Message(from, to, subject) + "\r\n"
  }

  /** The texts for an envelope; `hasChunks` says whether the encoded
      attachment has any piece. */
  function BodyTexts(from: string, to: string, subject: string, name: Option<string>, hasChunks: bool): Texts {
    if !hasChunks || name.None? then Texts(Lead(from, to, subject), None, Closing, EndOfData)
    else Texts(Lead(from, to, subject), Some(PartHeader(name.value)), Closing + "\r\n", EndOfData)
  }

  /** The byte strings written: the texts' bytes and the attachment pieces. */
  datatype Pieces = Pieces(lead: seq<byte>, part: Option<seq<byte>>, chunks: seq<seq<byte>>,
                           closing: seq<byte>, end: seq<byte>)

  function PiecesOf(t: Texts, chunks: seq<seq<byte>>): Pieces {
    Pieces(AsBytes(t.lead), if t.part.Some? then Some(AsBytes(t.part.value)) else None, chunks,
           AsBytes(t.closing), AsBytes(t.end))
  }

  /** The writes and flushes made for given pieces, in order, when all
      succeed: three writes without an attachment; with one, a flush after
      the attachment and after each of the last two writes. */
  function Plan(p: Pieces): seq<Io> {
    if p.part.None? then [Wrote(p.lead), Wrote(p.closing), Wrote(p.end)]
    else [Wrote(p.lead)] + ([Wrote(p.part.value)] + (Writes(p.chunks) + [Flushed, Wrote(p.closing), Flushed, Wrote(p.end), Flushed]))
  }

  /** The operations of `send_body` for a connection's envelope and
      attachment; the attachment is encoded as one piece (chunk size 0). */
  function BodyPlan(from: string, to: string, subject: string,
                    name: Option<string>, data: Option<seq<byte>>): seq<Io>
  {
    var chunks := ChunkAndEncode(data.GetOr([]), 0);
    Plan(PiecesOf(BodyTexts(from, to, subject, name, chunks != []), chunks))
  }

  /** The texts joined, with `payload` as the attachment part's content. */
  function Join(t: Texts, payload: string): string {
    if t.part.Some? then t.lead + (t.part.value + (payload + (t.closing + t.end)))
    else t.lead + (t.closing + t.end)
  }

  /** The whole DATA content as one text: header, text part, then either
      the close-delimiter or the attachment part with the base64 of the
      data, and the end-of-data line. */
  function MailText(from: string, to: string, subject: string,
                    name: Option<string>, data: Option<seq<byte>>): string
  {
    Join(BodyTexts(from, to, subject, name, true), Base64.Encode(data.GetOr([])))
  }

  /** The bytes a sequence of operations puts on the wire. */
  function Wire(ios: seq<Io>): seq<byte>
    decreases |ios|
  {
    if ios == [] then []
    else (match ios[0] case Wrote(d) => d case Flushed => []) + Wire(ios[1..])
  }

  lemma {:induction false} WireConcat(a: seq<Io>, b: seq<Io>)
    ensures Wire(a + b) == Wire(a) + Wire(b)
    decreases |a|
  {
    if a == [] {
      assert a + b == b;
    } else {
      assert (a + b)[1..] == a[1..] + b;
      WireConcat(a[1..], b);
    }
  }

  lemma {:induction false} WireWrites(chunks: seq<seq<byte>>)
    ensures Wire(Writes(chunks)) == Flatten(chunks)
    decreases |chunks|
  {
    if chunks != [] {
      assert Writes(chunks)[1..] == Writes(chunks[1..]);
      WireWrites(chunks[1..]);
    }
  }

  lemma WireCons(io: Io, rest: seq<Io>)
    ensures Wire([io] + rest) == (match io case Wrote(d) => d case Flushed => []) + Wire(rest)
  {
    assert ([io] + rest)[1..] == rest;
  }

  lemma WireThree(a: seq<byte>, b: seq<byte>, c: seq<byte>)
    ensures Wire([Wrote(a), Wrote(b), Wrote(c)]) == a + (b + c)
  {
    var s := [Wrote(a), Wrote(b), Wrote(c)];
    assert s[1..][1..][1..] == [];
    assert Wire(s[1..][1..]) == c;
    assert Wire(s[1..]) == b + c;
  }

  lemma WireTail(a: seq<byte>, b: seq<byte>)
    ensures Wire([Flushed, Wrote(a), Flushed, Wrote(b), Flushed]) == a + b
  {
    var s := [Flushed, Wrote(a), Flushed, Wrote(b), Flushed];
    assert s[1..][1..][1..][1..][1..] == [];
    assert Wire(s[1..][1..][1..][1..]) == [];
    assert Wire(s[1..][1..][1..]) == b;
    assert Wire(s[1..][1..]) == b;
    assert Wire(s[1..]) == a + b;
  }

  /** Flushes send nothing: the wire carries the pieces back to back. */
  lemma PlanWire(p: Pieces)
    ensures p.part.None? ==> Wire(Plan(p)) == p.lead + (p.closing + p.end)
    ensures p.part.Some? ==> Wire(Plan(p)) == p.lead + (p.part.value + (Flatten(p.chunks) + (p.closing + p.end)))
  {
    if p.part.None? {
      WireThree(p.lead, p.closing, p.end);
    } else {
      var back := [Flushed, Wrote(p.closing), Flushed, Wrote(p.end), Flushed];
      WireTail(p.closing, p.end);
      WireWrites(p.chunks);
      WireConcat(Writes(p.chunks), back);
      WireCons(Wrote(p.part.value), Writes(p.chunks) + back);
      WireCons(Wrote(p.lead), [Wrote(p.part.value)] + (Writes(p.chunks) + back));
    }
  }

  /** The bytes of the joined texts are the texts' bytes back to back. */
  lemma JoinBytes(t: Texts, payload: string)
    ensures t.part.None? ==> AsBytes(Join(t, payload)) == AsBytes(t.lead) + (AsBytes(t.closing) + AsBytes(t.end))
    ensures t.part.Some? ==> (AsBytes(Join(t, payload))
      == AsBytes(t.lead) + (AsBytes(t.part.value) + (AsBytes(payload) + (AsBytes(t.closing) + AsBytes(t.end)))))
  {
    AsBytesConcat(t.closing, t.end);
    if t.part.None? {
      AsBytesConcat(t.lead, t.closing + t.end);
    } else {
      var tail := t.closing + t.end;
      AsBytesConcat(payload, tail);
      AsBytesConcat(t.part.value, payload + tail);
      AsBytesConcat(t.lead, t.part.value + (payload + tail));
    }
  }

  /** When the attachment pieces are the bytes of `payload`, the wire
      carries exactly the joined text. */
  lemma JoinWire(t: Texts, chunks: seq<seq<byte>>, payload: string)
    requires t.part.Some? ==> Flatten(chunks) == AsBytes(payload)
    ensures Wire(Plan(PiecesOf(t, chunks))) == AsBytes(Join(t, payload))
  {
    PlanWire(PiecesOf(t, chunks));
    JoinBytes(t, payload);
  }

  lemma PlanShape(p: Pieces)
    ensures p.part.None? <==> |Plan(p)| == 3
    ensures p.part.Some? <==> Flushed in Plan(p)
    ensures p.part.Some? ==> Plan(p)[1] == Wrote(p.part.value)
  {
    var plan := Plan(p);
    if p.part.None? {
      assert forall i :: 0 <= i < |plan| ==> plan[i].Wrote?;
    } else {
      assert plan[|plan| - 1] == Flushed;
    }
  }

  /** `chunk_and_encode(_, 0)` is never empty, even for empty data, so the
      plan always takes the path that tests the attachment name, with the
      whole base64 text as its one piece. */
  lemma BodyPlanPieces(from: string, to: string, subject: string,
                       name: Option<string>, data: Option<seq<byte>>)
    ensures BodyPlan(from, to, subject, name, data)
      == Plan(PiecesOf(BodyTexts(from, to, subject, name, true), [AsBytes(Base64.Encode(data.GetOr([])))]))
  {
  }

  /** With pieces to send, the attachment part is there exactly when a name
      is given, and its header carries that name. */
  lemma AttachmentTexts(from: string, to: string, subject: string, name: Option<string>)
    ensures BodyTexts(from, to, subject, name, true).part.Some? <==> name.Some?
    ensures name.Some? ==> BodyTexts(from, to, subject, name, true).part == Some(PartHeader(name.value))
  {
  }

  /** The attachment part is sent exactly when the connection names an
      attachment. Flushes happen only on that path. */
  lemma AttachmentIffNamed(from: string, to: string, subject: string,
                           name: Option<string>, data: Option<seq<byte>>)
    ensures var plan := BodyPlan(from, to, subject, name, data);
      && (name.None? <==> |plan| == 3)
      && (name.Some? <==> Flushed in plan)
      && (name.Some? ==> plan[1] == Wrote(AsBytes(PartHeader(name.value))))
  {
    BodyPlanPieces(from, to, subject, name, data);
    AttachmentTexts(from, to, subject, name);
    PlanShape(PiecesOf(BodyTexts(from, to, subject, name, true), [AsBytes(Base64.Encode(data.GetOr([])))]));
  }

  /** With the payload's bytes as the one attachment piece, the wire
      carries the joined text. */
  lemma OnePieceWire(t: Texts, payload: string)
    ensures Wire(Plan(PiecesOf(t, [AsBytes(payload)]))) == AsBytes(Join(t, payload))
  {
    var chunks := [AsBytes(payload)];
    assert Flatten(chunks) == AsBytes(payload) by {
      assert chunks[1..] == [];
    }
    JoinWire(t, chunks, payload);
  }

  /** What reaches the server is exactly `MailText`, so the attachment's
      bytes can be recovered from it. */
  lemma WireIsMailText(from: string, to: string, subject: string,
                       name: Option<string>, data: Option<seq<byte>>)
    ensures Wire(BodyPlan(from, to, subject, name, data)) == AsBytes(MailText(from, to, subject, name, data))
  {
    BodyPlanPieces(from, to, subject, name, data);
    OnePieceWire(BodyTexts(from, to, subject, name, true), Base64.Encode(data.GetOr([])));
  }

  predicate EndsWith(x: seq<byte>, e: seq<byte>) {
    |x| >= |e| && x[|x| - |e|..] == e
  }

  lemma PrependEnds(a: seq<byte>, x: seq<byte>, e: seq<byte>)
    requires EndsWith(x, e)
    ensures EndsWith(a + x, e)
  {
    assert (a + x)[|a + x| - |e|..] == x[|x| - |e|..];
  }

  /** The joined text's bytes end with the bytes of its last text. */
  lemma JoinEnds(t: Texts, payload: string)
    ensures EndsWith(AsBytes(Join(t, payload)), AsBytes(t.end))
  {
    JoinBytes(t, payload);
    var e := AsBytes(t.end);
    PrependEnds(AsBytes(t.closing), e, e);
    if t.part.None? {
      PrependEnds(AsBytes(t.lead), AsBytes(t.closing) + e, e);
    } else {
      var tail := AsBytes(t.closing) + e;
      PrependEnds(AsBytes(payload), tail, e);
      PrependEnds(AsBytes(t.part.value), AsBytes(payload) + tail, e);
      PrependEnds(AsBytes(t.lead), AsBytes(t.part.value) + (AsBytes(payload) + tail), e);
    }
  }

  /** The wire text ends with the end-of-data line. */
  lemma EndsWithEndOfData(from: string, to: string, subject: string,
                          name: Option<string>, data: Option<seq<byte>>)
    ensures EndsWith(Wire(BodyPlan(from, to, subject, name, data)), AsBytes(EndOfData))
  {
    WireIsMailText(from, to, subject, name, data);
    var t := BodyTexts(from, to, subject, name, true);
    JoinEnds(t, Base64.Encode(data.GetOr([])));
    assert t.end == EndOfData;
  }

  /** The end-of-data line is CR LF "." CR LF. */
  lemma EndOfDataBytes()
    ensures AsBytes(EndOfData) == [CR, LF, '.' as int, CR, LF]
  {
    AsciiBytes(EndOfData, [CR, LF, '.' as int, CR, LF]);
  }

  /** How `send_body` ends: `MailSent`, or a panic on the error of the
      first write or flush that failed. */
  datatype Sent = MailSent | Panic(error: IoError)

  /** How many operations of a plan of `n` reach the socket when operation
      `failAt` is the first to fail and `live` says there is a stream. */
  function Performed(live: bool, failAt: Option<nat>, n: nat): (k: nat)
    ensures k <= n
    ensures !live ==> k == 0
    ensures live ==> (k < n <==> failAt.Some? && failAt.value < n)
    ensures live && k < n ==> failAt == Some(k)
  {
    if !live then 0 else if failAt.Some? && failAt.value < n then failAt.value else n
  }

  /** The error the connection reports for a failed operation. */
  function FailureOf(s: Stream, io: Io): IoError {
    if s == NoStream then StreamIsNone else if io.Wrote? then WriteFailed else FlushFailed
  }

  /** One unwrapped write or flush; the `index`th operation of the call
      fails exactly when `failAt` names it (or there is no stream). */
  method Emit(smtp: SmtpConnection, io: Io, index: nat, failAt: Option<nat>) returns (r: Result<(), IoError>)
    modifies smtp`log
    ensures r.Ok? <==> smtp.stream != NoStream && failAt != Some(index)
    ensures r.Err? ==> r.error == FailureOf(smtp.stream, io)
    ensures smtp.log == if r.Ok? then old(smtp.log) + [io] else old(smtp.log)
  {
    match io {
      case Wrote(data) =>
        var w := smtp.Write(data, failAt != Some(index));
        r := if w.Ok? then Ok(()) else Err(w.error);
      case Flushed =>
        r := smtp.Flush(failAt != Some(index));
    }
  }

  /** No operation before `k` was named to fail. */
  predicate Ahead(failAt: Option<nat>, k: nat) {
    failAt.Some? ==> failAt.value >= k
  }

  /** Operation `k` of `plan`, with the first `k` already on the log. */
  method EmitAt(smtp: SmtpConnection, io: Io, ghost plan: seq<Io>, ghost base: seq<Io>, k: nat, failAt: Option<nat>)
    returns (r: Result<(), IoError>)
    requires k < |plan| && plan[k] == io
    requires smtp.stream != NoStream && Ahead(failAt, k) && smtp.log == base + plan[..k]
    modifies smtp`log
    ensures r.Ok? <==> failAt != Some(k)
    ensures r.Ok? ==> Ahead(failAt, k + 1) && smtp.log == base + plan[..k + 1]
    ensures r.Err? ==> failAt == Some(k) && r.error == FailureOf(smtp.stream, plan[k]) && smtp.log == base + plan[..k]
  {
    r := Emit(smtp, io, k, failAt);
    assert plan[..k + 1] == plan[..k] + [plan[k]];
  }

  /** Where a run of `plan` stands once it returned `r`: the log holds
      the operations performed, the run succeeded exactly when all were,
      and a panic carries the error of the first that failed. */
  ghost predicate Reached(smtp: SmtpConnection, plan: seq<Io>, base: seq<Io>, failAt: Option<nat>, r: Sent)
    reads smtp
  {
    var n := Performed(smtp.stream != NoStream, failAt, |plan|);
    && smtp.log == base + plan[..n]
    && (r == MailSent <==> n == |plan|)
    && (r.Panic? ==> n < |plan| && r.error == FailureOf(smtp.stream, plan[n]))
  }

  /** The last writes without an attachment part: the close-delimiter and
      the end-of-data line. */
  method FinishPlain(smtp: SmtpConnection, p: Pieces, ghost plan: seq<Io>, ghost base: seq<Io>, failAt: Option<nat>)
    returns (r: Sent)
    requires p.part.None? && plan == Plan(p)
    requires smtp.stream != NoStream && Ahead(failAt, 1) && smtp.log == base + plan[..1]
    modifies smtp`log
    ensures Reached(smtp, plan, base, failAt, r)
  {
    var res := EmitAt(smtp, Wrote(p.closing), plan, base, 1, failAt);
    if res.Err? {
      return Panic(res.error);
    }
    res := EmitAt(smtp, Wrote(p.end), plan, base, 2, failAt);
    if res.Err? {
      return Panic(res.error);
    }
    assert plan[..3] == plan;
    r := MailSent;
  }

  /** The last operations after the attachment pieces: flush, the
      close-delimiter, flush, the end-of-data line, flush. */
  method FinishParts(smtp: SmtpConnection, p: Pieces, ghost plan: seq<Io>, ghost base: seq<Io>, failAt: Option<nat>)
    returns (r: Sent)
    requires p.part.Some? && plan == Plan(p)
    requires var k := 2 + |p.chunks|; smtp.stream != NoStream && Ahead(failAt, k) && smtp.log == base + plan[..k]
    modifies smtp`log
    ensures Reached(smtp, plan, base, failAt, r)
  {
    var k := 2 + |p.chunks|;
    var res := EmitAt(smtp, Flushed, plan, base, k, failAt);
    if res.Err? {
      return Panic(res.error);
    }
    res := EmitAt(smtp, Wrote(p.closing), plan, base, k + 1, failAt);
    if res.Err? {
      return Panic(res.error);
    }
    res := EmitAt(smtp, Flushed, plan, base, k + 2, failAt);
    if res.Err? {
      return Panic(res.error);
    }
    res := EmitAt(smtp, Wrote(p.end), plan, base, k + 3, failAt);
    if res.Err? {
      return Panic(res.error);
    }
    res := EmitAt(smtp, Flushed, plan, base, k + 4, failAt);
    if res.Err? {
      return Panic(res.error);
    }
    assert plan[..k + 5] == plan;
    r := MailSent;
  }

  /** The writes of `send_body` for given pieces: performs `Plan(p)`
      operation by operation and stops at the first failure. */
  method SendPieces(smtp: SmtpConnection, p: Pieces, failAt: Option<nat>) returns (r: Sent)
    modifies smtp`log
    ensures Reached(smtp, Plan(p), old(smtp.log), failAt, r)
  {
    ghost var plan := Plan(p);
    ghost var base := smtp.log;
    if smtp.stream == NoStream {
      var res := Emit(smtp, Wrote(p.lead), 0, failAt);
      return Panic(res.error);
    }
    var res := EmitAt(smtp, Wrote(p.lead), plan, base, 0, failAt);
    if res.Err? {
      return Panic(res.error);
    }
    if p.part.None? {
      r := FinishPlain(smtp, p, plan, base, failAt);
      return;
    }
    res := EmitAt(smtp, Wrote(p.part.value), plan, base, 1, failAt);
    if res.Err? {
      return Panic(res.error);
    }
    var i := 0;
    while i < |p.chunks|
      invariant 0 <= i <= |p.chunks|
      invariant smtp.log == base + plan[..2 + i]
      invariant smtp.stream != NoStream && Ahead(failAt, 2 + i)
    {
      res := EmitAt(smtp, Wrote(p.chunks[i]), plan, base, 2 + i, failAt);
      if res.Err? {
        return Panic(res.error);
      }
      i := i + 1;
    }
    r := FinishParts(smtp, p, plan, base, failAt);
  }

  /** `send_body`: builds the header, text part, attachment part header,
      encoded pieces, closing delimiter and end-of-data line from the
      connection's envelope, then writes them as `BodyPlan` says. */
  method Send(smtp: SmtpConnection, failAt: Option<nat>) returns (r: Sent)
    modifies smtp`log
    ensures Reached(smtp, BodyPlan(smtp.from, smtp.to, smtp.subject, smtp.attachementName, smtp.attachementData),
                    old(smtp.log), failAt, r)
  {
    var chunks := ChunkAndEncode(smtp.attachementData.GetOr([]), 0);
    var t := BodyTexts(smtp.from, smtp.to, smtp.subject, smtp.attachementName, chunks != []);
    r := SendPieces(smtp, PiecesOf(t, chunks), failAt);
  }
}
