/**
 * The "base64" encoding of section 4 of RFC 4648 (standard alphabet, `=` padding),
 * as Go's `base64.StdEncoding` applies it: `EncodeToString` always pads, and
 * `DecodeString` skips carriage returns and line feeds, requires whole padded
 * quanta, and (not being in strict mode) ignores the unused bits of a final
 * partial quantum.
 */
module Base64 {
  import opened Wrappers
  import opened GoBytes

  /** A 6-bit group of section 4: the index of one alphabet character. */
  type Sextet = x: int | 0 <= x < 64

  /** The pad character `=`. */
  const Pad: byte := 61
  const CR: byte := 13
  const LF: byte := 10

  /** Why `DecodeString` refused its input (Go's `CorruptInputError`). */
  datatype DecodeError = CorruptInput

  /** The character that stands for a sextet, Table 1 of RFC 4648. */
  function AlphabetChar(v: Sextet): (c: byte)
    ensures IsAlphabetChar(c)
  {
    if v < 26 then (v + 65) as byte           // 'A' .. 'Z'
    else if v < 52 then (v - 26 + 97) as byte // 'a' .. 'z'
    else if v < 62 then (v - 52 + 48) as byte // '0' .. '9'
    else if v == 62 then 43                   // '+'
    else 47                                   // '/'
  }

  predicate IsAlphabetChar(c: byte)
  {
    65 <= c <= 90 || 97 <= c <= 122 || 48 <= c <= 57 || c == 43 || c == 47
  }

  /** The sextet a character of the alphabet stands for: the inverse of `AlphabetChar`. */
  function SextetOf(c: byte): (v: Sextet)
    requires IsAlphabetChar(c)
    ensures AlphabetChar(v) == c
  {
    if 65 <= c <= 90 then c as int - 65
    else if 97 <= c <= 122 then c as int - 97 + 26
    else if 48 <= c <= 57 then c as int - 48 + 52
    else if c == 43 then 62
    else 63
  }

  lemma SextetOfAlphabetChar(v: Sextet)
    ensures SextetOf(AlphabetChar(v)) == v
  {
  }

  /** Three bytes become four characters (the 24-bit group of section 4). */
  function EncodeGroup(b0: byte, b1: byte, b2: byte): seq<byte>
  {
    var n0, n1, n2 := b0 as int, b1 as int, b2 as int;
    [AlphabetChar(n0 / 4), AlphabetChar((n0 % 4) * 16 + n1 / 16),
     AlphabetChar((n1 % 16) * 4 + n2 / 64), AlphabetChar(n2 % 64)]
  }

  /** The final quantum `xx==` that encodes one byte. */
  function QuantumOf1(b0: byte): (q: seq<byte>)
    ensures |q| == 4
  {
    var n0 := b0 as int;
    [AlphabetChar(n0 / 4), AlphabetChar((n0 % 4) * 16), Pad, Pad]
  }

  /** The final quantum `xxx=` that encodes two bytes. */
  function QuantumOf2(b0: byte, b1: byte): (q: seq<byte>)
    ensures |q| == 4
  {
    var n0, n1 := b0 as int, b1 as int;
    [AlphabetChar(n0 / 4), AlphabetChar((n0 % 4) * 16 + n1 / 16), AlphabetChar((n1 % 16) * 4), Pad]
  }

  /** `base64.StdEncoding.EncodeToString`. */
  function Encode(data: seq<byte>): (text: seq<byte>)
    ensures |text| == (|data| + 2) / 3 * 4
    decreases |data|
  {
    if |data| == 0 then []
    else if |data| == 1 then QuantumOf1(data[0])
    else if |data| == 2 then QuantumOf2(data[0], data[1])
    else
      assert (|data| + 2) / 3 == (|data[3..]| + 2) / 3 + 1;
      EncodeGroup(data[0], data[1], data[2]) + Encode(data[3..])
  }

  /** Every character of an encoding is from the alphabet or is `=`. */
  lemma {:induction false} EncodeAlphabet(data: seq<byte>)
    ensures forall i :: 0 <= i < |Encode(data)| ==> IsAlphabetChar(Encode(data)[i]) || Encode(data)[i] == Pad
    decreases |data|
  {
    if |data| > 2 {
      EncodeAlphabet(data[3..]);
      var g := EncodeGroup(data[0], data[1], data[2]);
      assert Encode(data) == g + Encode(data[3..]);
    }
  }

  /** The characters `DecodeString` keeps: all but carriage return and line feed. */
  function StripLineBreaks(text: seq<byte>): (r: seq<byte>)
    ensures |r| <= |text|
    ensures forall i :: 0 <= i < |r| ==> r[i] != CR && r[i] != LF
  {
    if text == [] then []
    else if text[0] == CR || text[0] == LF then StripLineBreaks(text[1..])
    else [text[0]] + StripLineBreaks(text[1..])
  }

  lemma {:induction false} StripLineBreaksAppend(a: seq<byte>, b: seq<byte>)
    ensures StripLineBreaks(a + b) == StripLineBreaks(a) + StripLineBreaks(b)
  {
    if a != [] {
      assert (a + b)[1..] == a[1..] + b;
      StripLineBreaksAppend(a[1..], b);
    } else {
      assert a + b == b;
    }
  }

  lemma {:induction false} StripLineBreaksNoop(text: seq<byte>)
    requires forall i :: 0 <= i < |text| ==> text[i] != CR && text[i] != LF
    ensures StripLineBreaks(text) == text
  {
    if text != [] {
      StripLineBreaksNoop(text[1..]);
    }
  }

  /** Four characters of a quantum that is not the last. */
  function DecodeGroup(c0: byte, c1: byte, c2: byte, c3: byte): seq<byte>
    requires IsAlphabetChar(c0) && IsAlphabetChar(c1) && IsAlphabetChar(c2) && IsAlphabetChar(c3)
  {
    var s0, s1, s2, s3 := SextetOf(c0), SextetOf(c1), SextetOf(c2), SextetOf(c3);
    [(s0 * 4 + s1 / 16) as byte, ((s1 % 16) * 16 + s2 / 4) as byte, ((s2 % 4) * 64 + s3) as byte]
  }

  /** The last quantum: four characters, or two or three followed by padding. */
  function DecodeFinal(q: seq<byte>): Result<seq<byte>, DecodeError>
    requires |q| == 4
  {
    if IsAlphabetChar(q[0]) && IsAlphabetChar(q[1]) && IsAlphabetChar(q[2]) && IsAlphabetChar(q[3]) then
      Success(DecodeGroup(q[0], q[1], q[2], q[3]))
    else if IsAlphabetChar(q[0]) && IsAlphabetChar(q[1]) && IsAlphabetChar(q[2]) && q[3] == Pad then
      var s0, s1, s2 := SextetOf(q[0]), SextetOf(q[1]), SextetOf(q[2]);
      Success([(s0 * 4 + s1 / 16) as byte, ((s1 % 16) * 16 + s2 / 4) as byte])
    else if IsAlphabetChar(q[0]) && IsAlphabetChar(q[1]) && q[2] == Pad && q[3] == Pad then
      var s0, s1 := SextetOf(q[0]), SextetOf(q[1]);
      Success([(s0 * 4 + s1 / 16) as byte])
    else
      Failure(CorruptInput)
  }

  function DecodeQuanta(t: seq<byte>): Result<seq<byte>, DecodeError>
    requires |t| % 4 == 0
    decreases |t|
  {
    if t == [] then Success([])
    else if |t| == 4 then DecodeFinal(t)
    else if IsAlphabetChar(t[0]) && IsAlphabetChar(t[1]) && IsAlphabetChar(t[2]) && IsAlphabetChar(t[3]) then
      match DecodeQuanta(t[4..])
      case Success(rest) => Success(DecodeGroup(t[0], t[1], t[2], t[3]) + rest)
      case Failure(e) => Failure(e)
    else
      Failure(CorruptInput)
  }

  /** `base64.StdEncoding.DecodeString`. */
  function Decode(text: seq<byte>): Result<seq<byte>, DecodeError>
  {
    var t := StripLineBreaks(text);
    if |t| % 4 != 0 then Failure(CorruptInput) else DecodeQuanta(t)
  }

  /** The bit arithmetic behind the round trip: regrouping 8-bit values into sextets and back. */
  lemma RegroupBits(n0: int, n1: int, n2: int)
    requires 0 <= n0 < 256 && 0 <= n1 < 256 && 0 <= n2 < 256
    ensures var s0, s1, s2, s3 := n0 / 4, (n0 % 4) * 16 + n1 / 16, (n1 % 16) * 4 + n2 / 64, n2 % 64;
      s0 * 4 + s1 / 16 == n0 && (s1 % 16) * 16 + s2 / 4 == n1 && (s2 % 4) * 64 + s3 == n2
  {
    var s1, s2 := (n0 % 4) * 16 + n1 / 16, (n1 % 16) * 4 + n2 / 64;
    assert s1 / 16 == n0 % 4 && s1 % 16 == n1 / 16;
    assert s2 / 4 == n1 % 16 && s2 % 4 == n2 / 64;
  }

  lemma GroupRoundTrip(b0: byte, b1: byte, b2: byte, g: seq<byte>)
    requires g == EncodeGroup(b0, b1, b2)
    ensures |g| == 4
    ensures IsAlphabetChar(g[0]) && IsAlphabetChar(g[1]) && IsAlphabetChar(g[2]) && IsAlphabetChar(g[3])
    ensures DecodeGroup(g[0], g[1], g[2], g[3]) == [b0, b1, b2]
  {
    var n0, n1, n2 := b0 as int, b1 as int, b2 as int;
    var s0, s1, s2, s3 := n0 / 4, (n0 % 4) * 16 + n1 / 16, (n1 % 16) * 4 + n2 / 64, n2 % 64;
    SextetOfAlphabetChar(s0);
    SextetOfAlphabetChar(s1);
    SextetOfAlphabetChar(s2);
    SextetOfAlphabetChar(s3);
    RegroupBits(n0, n1, n2);
  }

  lemma Quantum1RoundTrip(b0: byte)
    ensures DecodeFinal(QuantumOf1(b0)) == Success([b0])
  {
    var n0 := b0 as int;
    var s0, s1 := n0 / 4, (n0 % 4) * 16;
    SextetOfAlphabetChar(s0);
    SextetOfAlphabetChar(s1);
    RegroupBits(n0, 0, 0);
  }

  lemma DecodeFinalOnePad(q: seq<byte>)
    requires |q| == 4 && IsAlphabetChar(q[0]) && IsAlphabetChar(q[1]) && IsAlphabetChar(q[2]) && q[3] == Pad
    ensures DecodeFinal(q) == Success([(SextetOf(q[0]) * 4 + SextetOf(q[1]) / 16) as byte,
      ((SextetOf(q[1]) % 16) * 16 + SextetOf(q[2]) / 4) as byte])
  {
  }

  lemma Quantum2RoundTrip(b0: byte, b1: byte)
    ensures DecodeFinal(QuantumOf2(b0, b1)) == Success([b0, b1])
  {
    var n0, n1 := b0 as int, b1 as int;
    var s0, s1, s2 := n0 / 4, (n0 % 4) * 16 + n1 / 16, (n1 % 16) * 4;
    SextetOfAlphabetChar(s0);
    SextetOfAlphabetChar(s1);
    SextetOfAlphabetChar(s2);
    RegroupBits(n0, n1, 0);
    DecodeFinalOnePad(QuantumOf2(b0, b1));
  }

  /** A quantum of four alphabet characters in front of further quanta decodes to its group. */
  lemma DecodeQuantaCons(g: seq<byte>, rest: seq<byte>, tail: seq<byte>)
    requires |g| == 4 && IsAlphabetChar(g[0]) && IsAlphabetChar(g[1]) && IsAlphabetChar(g[2]) && IsAlphabetChar(g[3])
    requires |rest| % 4 == 0 && DecodeQuanta(rest) == Success(tail)
    ensures |g + rest| % 4 == 0
    ensures DecodeQuanta(g + rest) == Success(DecodeGroup(g[0], g[1], g[2], g[3]) + tail)
  {
    PrefixQuantum(g, rest);
    if rest == [] {
      assert DecodeGroup(g[0], g[1], g[2], g[3]) + tail == DecodeGroup(g[0], g[1], g[2], g[3]);
    }
  }

  lemma PrefixQuantum(g: seq<byte>, rest: seq<byte>)
    requires |g| == 4
    ensures (g + rest)[4..] == rest
    ensures (g + rest)[0] == g[0] && (g + rest)[1] == g[1] && (g + rest)[2] == g[2] && (g + rest)[3] == g[3]
    ensures rest == [] ==> g + rest == g
  {
  }

  /** One or two bytes encode to a single padded quantum that decodes back to them. */
  lemma DecodeQuantaEncodeShort(data: seq<byte>)
    requires 1 <= |data| <= 2
    ensures |Encode(data)| % 4 == 0
    ensures DecodeQuanta(Encode(data)) == Success(data)
  {
    if |data| == 1 {
      Quantum1RoundTrip(data[0]);
      assert data == [data[0]];
    } else {
      Quantum2RoundTrip(data[0], data[1]);
      assert data == [data[0], data[1]];
    }
  }

  lemma SplitThree(data: seq<byte>)
    requires |data| >= 3
    ensures [data[0], data[1], data[2]] + data[3..] == data
  {
  }

  /** A full group in front of an encoding that decodes correctly keeps it decoding correctly. */
  lemma DecodeQuantaEncodeStep(data: seq<byte>)
    requires |data| >= 3
    requires |Encode(data[3..])| % 4 == 0 && DecodeQuanta(Encode(data[3..])) == Success(data[3..])
    ensures |Encode(data)| % 4 == 0
    ensures DecodeQuanta(Encode(data)) == Success(data)
  {
    var g, rest := EncodeGroup(data[0], data[1], data[2]), Encode(data[3..]);
    assert Encode(data) == g + rest;
    GroupRoundTrip(data[0], data[1], data[2], g);
    DecodeQuantaCons(g, rest, data[3..]);
    SplitThree(data);
  }

  lemma {:induction false} DecodeQuantaEncode(data: seq<byte>)
    ensures |Encode(data)| % 4 == 0
    ensures DecodeQuanta(Encode(data)) == Success(data)
    decreases |data|
  {
    if 1 <= |data| <= 2 {
      DecodeQuantaEncodeShort(data);
    } else if |data| >= 3 {
      DecodeQuantaEncode(data[3..]);
      DecodeQuantaEncodeStep(data);
    }
  }

  /** Decoding an encoding gives back the bytes that were encoded. */
  lemma DecodeEncode(data: seq<byte>)
    ensures Decode(Encode(data)) == Success(data)
  {
    EncodeAlphabet(data);
    StripLineBreaksNoop(Encode(data));
    DecodeQuantaEncode(data);
  }

  /** Decoding ignores line breaks anywhere in the text. */
  lemma DecodeSkipsLineBreak(a: seq<byte>, b: seq<byte>, brk: byte)
    requires brk == CR || brk == LF
    ensures Decode(a + [brk] + b) == Decode(a + b)
  {
    StripLineBreaksAppend(a + [brk], b);
    StripLineBreaksAppend(a, [brk]);
    StripLineBreaksAppend(a, b);
    assert [brk][1..] == [];
    assert StripLineBreaks([brk]) == [];
    assert StripLineBreaks(a + [brk] + b) == StripLineBreaks(a + b);
  }

  /** Text whose length, line breaks aside, is not a multiple of four is refused. */
  lemma DecodeRejectsPartialQuantum(text: seq<byte>)
    requires |StripLineBreaks(text)| % 4 != 0
    ensures Decode(text) == Failure(CorruptInput)
  {
  }
}
