/** Bytes and the UTF-8 encoding Rust applies when a `String` is turned into
    bytes (`as_bytes`, `into_bytes`). */
module Utf8 {

  type byte = b: int | 0 <= b < 256

  const CR: byte := 13
  const LF: byte := 10

  /** A character Rust encodes as one byte. */
  predicate IsAscii(c: char) {
    (c as int) < 0x80
  }

  predicate AllAscii(s: string) {
    forall i :: 0 <= i < |s| ==> IsAscii(s[i])
  }

  /** The UTF-8 encoding of one Unicode scalar value. */
  function CharBytes(c: char): (r: seq<byte>)
    ensures 1 <= |r| <= 4
    ensures |r| == 1 <==> IsAscii(c)
    ensures IsAscii(c) ==> r == [c as int]
    ensures !IsAscii(c) ==> forall i :: 0 <= i < |r| ==> r[i] >= 0x80
  {
    var n := c as int;
    if n < 0x80 then [n]
    else if n < 0x800 then [0xC0 + n / 64, 0x80 + n % 64]
    else if n < 0x10000 then [0xE0 + n / 4096, 0x80 + (n / 64) % 64, 0x80 + n % 64]
    else [0xF0 + n / 262144, 0x80 + (n / 4096) % 64, 0x80 + (n / 64) % 64, 0x80 + n % 64]
  }

  /** Byte strings written one after the other. */
  function Flatten(parts: seq<seq<byte>>): seq<byte>
    decreases |parts|
  {
    if parts == [] then [] else parts[0] + Flatten(parts[1..])
  }

  lemma {:induction false} FlattenConcat(a: seq<seq<byte>>, b: seq<seq<byte>>)
    ensures Flatten(a + b) == Flatten(a) + Flatten(b)
    decreases |a|
  {
    if a == [] {
      assert a + b == b;
    } else {
      assert (a + b)[1..] == a[1..] + b;
      FlattenConcat(a[1..], b);
    }
  }

  /** Flattening non-empty parts gives at least one byte per part. */
  lemma {:induction false} FlattenLength(parts: seq<seq<byte>>)
    requires forall i :: 0 <= i < |parts| ==> parts[i] != []
    ensures |Flatten(parts)| >= |parts|
    decreases |parts|
  {
    if parts != [] {
      FlattenLength(parts[1..]);
    }
  }

  /** The encodings of the characters of `s`, in order. */
  function CharEncodings(s: string): (r: seq<seq<byte>>)
    ensures |r| == |s| && forall i :: 0 <= i < |s| ==> r[i] == CharBytes(s[i])
  {
    seq(|s|, i requires 0 <= i < |s| => CharBytes(s[i]))
  }

  /** `s.as_bytes()`: the UTF-8 bytes of a string, the encodings of its
      characters one after the other. */
  function AsBytes(s: string): (r: seq<byte>)
    ensures |r| >= |s|
  {
    FlattenLength(CharEncodings(s));
    Flatten(CharEncodings(s))
  }

  /** The empty string has no bytes. */
  lemma AsBytesEmpty()
    ensures AsBytes([]) == []
  {
    assert CharEncodings([]) == [];
  }

  /** The bytes of a non-empty string: its first character's encoding,
      then the bytes of the rest. */
  lemma AsBytesCons(s: string)
    requires s != []
    ensures AsBytes(s) == CharBytes(s[0]) + AsBytes(s[1..])
  {
    assert CharEncodings(s)[1..] == CharEncodings(s[1..]);
  }

  /** ASCII text is its own encoding: one byte per character, the code
      point. */
  lemma {:induction false} AsciiAsBytes(s: string)
    requires AllAscii(s)
    ensures |AsBytes(s)| == |s| && forall i :: 0 <= i < |s| ==> AsBytes(s)[i] == s[i] as int
  {
    if s == [] {
      AsBytesEmpty();
    } else {
      AsciiAsBytes(s[1..]);
      AsBytesCons(s);
    }
  }

  /** The bytes of a given ASCII text, character by character. */
  lemma AsciiBytes(s: string, b: seq<byte>)
    requires |s| == |b| && forall i :: 0 <= i < |s| ==> IsAscii(s[i]) && b[i] == s[i] as int
    ensures AsBytes(s) == b
  {
    AsciiAsBytes(s);
  }

  /** Encoding is a homomorphism: the bytes of a concatenation are the
      concatenation of the bytes. */
  lemma {:induction false} AsBytesConcat(a: string, b: string)
    ensures AsBytes(a + b) == AsBytes(a) + AsBytes(b)
  {
    if a == [] {
      assert a + b == b;
      AsBytesEmpty();
    } else {
      assert (a + b)[0] == a[0];
      assert (a + b)[1..] == a[1..] + b;
      AsBytesConcat(a[1..], b);
      AsBytesCons(a);
      AsBytesCons(a + b);
      calc {
        AsBytes(a + b);
        CharBytes(a[0]) + AsBytes(a[1..] + b);
        CharBytes(a[0]) + (AsBytes(a[1..]) + AsBytes(b));
        (CharBytes(a[0]) + AsBytes(a[1..])) + AsBytes(b);
      }
    }
  }

  /** The bytes of a line followed by CRLF end in 13, 10. */
  lemma LineBytes(s: string)
    ensures AsBytes(s + "\r\n") == AsBytes(s) + [CR, LF]
  {
    AsBytesConcat(s, "\r\n");
    assert AsBytes("\r\n") == [CR, LF] by {
      AsciiAsBytes("\r\n");
    }
  }

  /** Reads ASCII bytes back as text (used only to state round trips). */
  function AsciiText(b: seq<byte>): (s: string)
    requires forall i :: 0 <= i < |b| ==> b[i] < 0x80
    ensures |s| == |b|
  {
    if b == [] then [] else [b[0] as char] + AsciiText(b[1..])
  }

  lemma {:induction false} AsciiTextOfBytes(s: string)
    requires AllAscii(s)
    ensures forall i :: 0 <= i < |AsBytes(s)| ==> AsBytes(s)[i] < 0x80
    ensures AsciiText(AsBytes(s)) == s
  {
    AsciiAsBytes(s);
    if s != [] {
      AsciiTextOfBytes(s[1..]);
      AsBytesCons(s);
    }
  }
}
