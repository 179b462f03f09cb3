/** Base64 with the standard alphabet and padding, as RFC 4648 section 4
    defines it (the `base64` crate's `STANDARD` engine). The program only
    encodes; `Decode` is the reference inverse used to state the round trip.

    Encoding is written in the two steps the RFC describes: the bytes are cut
    into 6-bit groups (`Sextets`, pure arithmetic), and each group is then
    written as one character of the alphabet (`Symbols`). */
module Base64 {
  import opened Wrappers
  import opened Utf8

  /** A 6-bit value. */
  type Six = v: int | 0 <= v < 64

  const Pad: char := '='

  /** Table 1 of RFC 4648: the character that stands for a 6-bit value. */
  function Char(v: Six): (c: char)
    ensures IsAscii(c) && c != Pad
  {
    if v < 26 then (65 + v) as char
    else if v < 52 then (97 + (v - 26)) as char
    else if v < 62 then (48 + (v - 52)) as char
    else if v == 62 then '+'
    else '/'
  }

  /** The 6-bit value a character of the alphabet stands for. */
  function Value(c: char): (r: Option<Six>)
    ensures r.Some? ==> Char(r.value) == c
    ensures c == Pad ==> r.None?
  {
    if 'A' <= c <= 'Z' then Some(c as int - 65)
    else if 'a' <= c <= 'z' then Some(c as int - 97 + 26)
    else if '0' <= c <= '9' then Some(c as int - 48 + 52)
    else if c == '+' then Some(62)
    else if c == '/' then Some(63)
    else None
  }

  /** The alphabet is read back unambiguously. */
  lemma ValueOfChar(v: Six)
    ensures Value(Char(v)) == Some(v)
  {
  }

  /** One output position: a 6-bit group or the pad. */
  datatype Sextet = Digit(v: Six) | PadMark

  function Symbol(x: Sextet): (c: char)
    ensures IsAscii(c)
  {
    match x
    case Digit(v) => Char(v)
    case PadMark => Pad
  }

  /** The position a character stands for, if it is one the encoder emits. */
  function Read(c: char): Option<Sextet> {
    if c == Pad then Some(PadMark)
    else
      match Value(c)
      case Some(v) => Some(Digit(v))
      case None => None
  }

  lemma ReadSymbol(x: Sextet)
    ensures Read(Symbol(x)) == Some(x)
  {
    if x.Digit? {
      ValueOfChar(x.v);
    }
  }

  /** Three bytes become four 6-bit groups, high bits first. */
  function Quantum(b0: byte, b1: byte, b2: byte): seq<Sextet> {
    [Digit(b0 / 4), Digit((b0 % 4) * 16 + b1 / 16), Digit((b1 % 16) * 4 + b2 / 64), Digit(b2 % 64)]
  }

  /** Full quanta first; a final group of one or two bytes is zero-filled
      and padded to four positions. */
  function Sextets(d: seq<byte>): (r: seq<Sextet>)
    ensures |r| == 4 * ((|d| + 2) / 3)
    decreases |d|
  {
    if |d| == 0 then []
    else if |d| == 1 then [Digit(d[0] / 4), Digit((d[0] % 4) * 16), PadMark, PadMark]
    else if |d| == 2 then [Digit(d[0] / 4), Digit((d[0] % 4) * 16 + d[1] / 16), Digit((d[1] % 16) * 4), PadMark]
    else Quantum(d[0], d[1], d[2]) + Sextets(d[3..])
  }

  /** Writes each position as its character. */
  function Symbols(xs: seq<Sextet>): (s: string)
    ensures |s| == |xs|
    ensures forall i :: 0 <= i < |s| ==> s[i] == Symbol(xs[i])
  {
    seq(|xs|, i requires 0 <= i < |xs| => Symbol(xs[i]))
  }

  /** `b64.encode(d)`. */
  function Encode(d: seq<byte>): (r: string)
    ensures |r| == 4 * ((|d| + 2) / 3)
    ensures |r| % 4 == 0
    ensures forall i :: 0 <= i < |r| ==> IsAscii(r[i])
  {
    Symbols(Sextets(d))
  }

  lemma SymbolsConcat(a: seq<Sextet>, b: seq<Sextet>)
    ensures Symbols(a + b) == Symbols(a) + Symbols(b)
  {
  }

  /** Encoding works quantum by quantum: a prefix of whole quanta encodes on
      its own. */
  lemma {:induction false} EncodeConcat(a: seq<byte>, b: seq<byte>)
    requires |a| % 3 == 0
    ensures Encode(a + b) == Encode(a) + Encode(b)
  {
    SextetsConcat(a, b);
    SymbolsConcat(Sextets(a), Sextets(b));
  }

  lemma {:induction false} SextetsConcat(a: seq<byte>, b: seq<byte>)
    requires |a| % 3 == 0
    ensures Sextets(a + b) == Sextets(a) + Sextets(b)
    decreases |a|
  {
    if a == [] {
      assert a + b == b;
    } else {
      assert (a + b)[3..] == a[3..] + b;
      SextetsConcat(a[3..], b);
    }
  }

  /** Decodes four positions; padding is accepted only in the last quartet. */
  function DecodeGroup(x0: Option<Sextet>, x1: Option<Sextet>, x2: Option<Sextet>, x3: Option<Sextet>,
                       last: bool): Option<seq<byte>>
  {
    if !(x0.Some? && x0.value.Digit? && x1.Some? && x1.value.Digit?) then None
    else
      var v0, v1 := x0.value.v, x1.value.v;
      if x2 == Some(PadMark) && x3 == Some(PadMark) then
        if last then Some([v0 * 4 + v1 / 16]) else None
      else if !(x2.Some? && x2.value.Digit?) then None
      else
        var v2 := x2.value.v;
        if x3 == Some(PadMark) then
          if last then Some([v0 * 4 + v1 / 16, (v1 % 16) * 16 + v2 / 4]) else None
        else if !(x3.Some? && x3.value.Digit?) then None
        else Some([v0 * 4 + v1 / 16, (v1 % 16) * 16 + v2 / 4, (v2 % 4) * 64 + x3.value.v])
  }

  function DecodeGroups(xs: seq<Option<Sextet>>): Option<seq<byte>>
    decreases |xs|
  {
    if |xs| == 0 then Some([])
    else if |xs| < 4 then None
    else
      var g := DecodeGroup(xs[0], xs[1], xs[2], xs[3], |xs| == 4);
      var rest := DecodeGroups(xs[4..]);
      if g.None? || rest.None? then None else Some(g.value + rest.value)
  }

  /** Reference decoder: the inverse of `Encode`. */
  function Decode(s: string): Option<seq<byte>> {
    DecodeGroups(seq(|s|, i requires 0 <= i < |s| => Read(s[i])))
  }

  /** Every position, known to have been read. */
  function Known(xs: seq<Sextet>): (r: seq<Option<Sextet>>)
    ensures |r| == |xs| && forall i :: 0 <= i < |xs| ==> r[i] == Some(xs[i])
  {
    seq(|xs|, i requires 0 <= i < |xs| => Some(xs[i]))
  }

  /** Reading an encoding gives back its positions. */
  lemma ReadEncode(d: seq<byte>)
    ensures var e := Encode(d); seq(|e|, i requires 0 <= i < |e| => Read(e[i])) == Known(Sextets(d))
  {
    var e, xs := Encode(d), Sextets(d);
    forall i | 0 <= i < |xs|
      ensures Read(e[i]) == Some(xs[i])
    {
      ReadSymbol(xs[i]);
    }
  }

  lemma QuantumBack(b0: byte, b1: byte, b2: byte, last: bool)
    ensures var q := Quantum(b0, b1, b2);
      DecodeGroup(Some(q[0]), Some(q[1]), Some(q[2]), Some(q[3]), last) == Some([b0, b1, b2])
  {
    var v1 := (b0 % 4) * 16 + b1 / 16;
    var v2 := (b1 % 16) * 4 + b2 / 64;
    assert v1 / 16 == b0 % 4 && v1 % 16 == b1 / 16;
    assert v2 / 4 == b1 % 16 && v2 % 4 == b2 / 64;
  }

  lemma OneBack(b0: byte)
    ensures DecodeGroups(Known([Digit(b0 / 4), Digit((b0 % 4) * 16), PadMark, PadMark])) == Some([b0])
  {
    var xs := Known([Digit(b0 / 4), Digit((b0 % 4) * 16), PadMark, PadMark]);
    assert ((b0 % 4) * 16) / 16 == b0 % 4;
    assert xs[4..] == [];
    assert DecodeGroup(xs[0], xs[1], xs[2], xs[3], true) == Some([b0]);
    assert [b0] + [] == [b0];
  }

  lemma TwoBack(b0: byte, b1: byte)
    ensures DecodeGroups(Known([Digit(b0 / 4), Digit((b0 % 4) * 16 + b1 / 16), Digit((b1 % 16) * 4), PadMark]))
      == Some([b0, b1])
  {
    var xs := Known([Digit(b0 / 4), Digit((b0 % 4) * 16 + b1 / 16), Digit((b1 % 16) * 4), PadMark]);
    var v1 := (b0 % 4) * 16 + b1 / 16;
    assert v1 / 16 == b0 % 4 && v1 % 16 == b1 / 16;
    assert ((b1 % 16) * 4) / 4 == b1 % 16;
    assert xs[4..] == [];
    assert DecodeGroup(xs[0], xs[1], xs[2], xs[3], true) == Some([b0, b1]);
    assert [b0, b1] + [] == [b0, b1];
  }

  /** One whole quantum in front of positions that decode. */
  lemma QuantumStep(b0: byte, b1: byte, b2: byte, tail: seq<Sextet>, rest: seq<byte>)
    requires DecodeGroups(Known(tail)) == Some(rest)
    ensures DecodeGroups(Known(Quantum(b0, b1, b2) + tail)) == Some([b0, b1, b2] + rest)
  {
    var q := Quantum(b0, b1, b2);
    var xs := Known(q + tail);
    assert xs[4..] == Known(tail);
    assert xs[0] == Some(q[0]) && xs[1] == Some(q[1]) && xs[2] == Some(q[2]) && xs[3] == Some(q[3]);
    QuantumBack(b0, b1, b2, |xs| == 4);
  }

  lemma {:induction false} DecodeSextets(d: seq<byte>)
    ensures DecodeGroups(Known(Sextets(d))) == Some(d)
    decreases |d|
  {
    if |d| == 0 {
    } else if |d| == 1 {
      OneBack(d[0]);
      assert [d[0]] == d;
    } else if |d| == 2 {
      TwoBack(d[0], d[1]);
      assert [d[0], d[1]] == d;
    } else {
      DecodeSextets(d[3..]);
      QuantumStep(d[0], d[1], d[2], Sextets(d[3..]), d[3..]);
      assert [d[0], d[1], d[2]] + d[3..] == d;
    }
  }

  /** Round trip: decoding an encoding gives back the bytes. */
  lemma DecodeEncode(d: seq<byte>)
    ensures Decode(Encode(d)) == Some(d)
  {
    ReadEncode(d);
    DecodeSextets(d);
  }

  /** Distinct byte strings never share an encoding. */
  lemma EncodeInjective(a: seq<byte>, b: seq<byte>)
    requires Encode(a) == Encode(b)
    ensures a == b
  {
    DecodeEncode(a);
    DecodeEncode(b);
  }

  /** The two AUTH LOGIN prompts a server sends are the encodings of
      "Username:" and "Password:". */
  lemma UsernamePrompt()
    ensures Encode(AsBytes("Username:")) == "VXNlcm5hbWU6"
  {
    UsernameBytes();
    NineBytes([85, 115, 101, 114, 110, 97, 109, 101, 58]);
    UsernameQuanta();
  }

  lemma PasswordPrompt()
    ensures Encode(AsBytes("Password:")) == "UGFzc3dvcmQ6"
  {
    PasswordBytes();
    NineBytes([80, 97, 115, 115, 119, 111, 114, 100, 58]);
    PasswordQuanta();
  }

  lemma UsernameBytes()
    ensures AsBytes("Username:") == [85, 115, 101, 114, 110, 97, 109, 101, 58]
  {
    AsciiBytes("Username:", [85, 115, 101, 114, 110, 97, 109, 101, 58]);
  }

  lemma PasswordBytes()
    ensures AsBytes("Password:") == [80, 97, 115, 115, 119, 111, 114, 100, 58]
  {
    AsciiBytes("Password:", [80, 97, 115, 115, 119, 111, 114, 100, 58]);
  }

  lemma UsernameQuanta()
    ensures Symbols(Quantum(85, 115, 101)) + Symbols(Quantum(114, 110, 97)) + Symbols(Quantum(109, 101, 58))
      == "VXNlcm5hbWU6"
  {
    QuantumText(85, 115, 101, "VXNl");
    QuantumText(114, 110, 97, "cm5h");
    QuantumText(109, 101, 58, "bWU6");
  }

  lemma PasswordQuanta()
    ensures Symbols(Quantum(80, 97, 115)) + Symbols(Quantum(115, 119, 111)) + Symbols(Quantum(114, 100, 58))
      == "UGFzc3dvcmQ6"
  {
    QuantumText(80, 97, 115, "UGFz");
    QuantumText(115, 119, 111, "c3dv");
    QuantumText(114, 100, 58, "cmQ6");
  }

  lemma QuantumText(b0: byte, b1: byte, b2: byte, t: string)
    requires |t| == 4
    requires var q := Quantum(b0, b1, b2);
      Symbol(q[0]) == t[0] && Symbol(q[1]) == t[1] && Symbol(q[2]) == t[2] && Symbol(q[3]) == t[3]
    ensures Symbols(Quantum(b0, b1, b2)) == t
  {
  }

  /** Encode unfolded for three whole quanta. */
  lemma NineBytes(d: seq<byte>)
    requires |d| == 9
    ensures Encode(d) == Symbols(Quantum(d[0], d[1], d[2])) + Symbols(Quantum(d[3], d[4], d[5]))
      + Symbols(Quantum(d[6], d[7], d[8]))
  {
    var q0, q1, q2 := Quantum(d[0], d[1], d[2]), Quantum(d[3], d[4], d[5]), Quantum(d[6], d[7], d[8]);
    assert Sextets(d[6..]) == q2 + Sextets(d[6..][3..]);
    assert d[6..][3..] == [];
    assert Sextets(d[3..]) == q1 + Sextets(d[3..][3..]);
    assert d[3..][3..] == d[6..];
    assert Sextets(d) == q0 + q1 + q2;
    SymbolsConcat(q0 + q1, q2);
    SymbolsConcat(q0, q1);
  }
}
