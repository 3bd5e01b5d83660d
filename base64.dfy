/** The base 64 encoding of section 4 of RFC 4648 (alphabet `A-Z a-z 0-9 + /`,
    `=` padding), as `SelfBase64.Encoder.RFC4648.encodeToString` produces it,
    with the matching decoder as its partner. */
module Base64 {
  import opened Common

  /** The character for a 6-bit value (Table 1 of RFC 4648). */
  function Sextet(v: int): (c: char)
    requires 0 <= v < 64
  {
    if v < 26 then ('A' as int + v) as char
    else if v < 52 then ('a' as int + (v - 26)) as char
    else if v < 62 then ('0' as int + (v - 52)) as char
    else if v == 62 then '+'
    else '/'
  }

  /** The 6-bit value of an alphabet character; padding and anything else give None. */
  function SextetValue(c: char): (r: Option<int>)
    ensures r.Some? ==> 0 <= r.value < 64 && Sextet(r.value) == c
  {
    if 'A' <= c <= 'Z' then Some(c as int - 'A' as int)
    else if 'a' <= c <= 'z' then Some(c as int - 'a' as int + 26)
    else if '0' <= c <= '9' then Some(c as int - '0' as int + 52)
    else if c == '+' then Some(62)
    else if c == '/' then Some(63)
    else None
  }

  lemma SextetRoundTrip(v: int)
    requires 0 <= v < 64
    ensures SextetValue(Sextet(v)) == Some(v)
  {
  }

  predicate IsAlphabet(c: char) {
    SextetValue(c).Some?
  }

  /** Three bytes become four characters. */
  function EncodeTriple(b0: byte, b1: byte, b2: byte): (s: string)
    ensures |s| == 4 && forall i :: 0 <= i < 4 ==> IsAlphabet(s[i])
  {
    SextetRoundTrip(b0 / 4);
    SextetRoundTrip((b0 % 4) * 16 + b1 / 16);
    SextetRoundTrip((b1 % 16) * 4 + b2 / 64);
    SextetRoundTrip(b2 % 64);
    [Sextet(b0 / 4), Sextet((b0 % 4) * 16 + b1 / 16), Sextet((b1 % 16) * 4 + b2 / 64), Sextet(b2 % 64)]
  }

  /** A final group of two bytes: three characters and one `=`. */
  function EncodePair(b0: byte, b1: byte): (s: string)
    ensures |s| == 4 && s[3] == '=' && forall i :: 0 <= i < 3 ==> IsAlphabet(s[i])
  {
    SextetRoundTrip(b0 / 4);
    SextetRoundTrip((b0 % 4) * 16 + b1 / 16);
    SextetRoundTrip((b1 % 16) * 4);
    [Sextet(b0 / 4), Sextet((b0 % 4) * 16 + b1 / 16), Sextet((b1 % 16) * 4), '=']
  }

  /** A final single byte: two characters and `==`. */
  function EncodeSingle(b0: byte): (s: string)
    ensures |s| == 4 && s[2] == '=' && s[3] == '=' && IsAlphabet(s[0]) && IsAlphabet(s[1])
  {
    SextetRoundTrip(b0 / 4);
    SextetRoundTrip((b0 % 4) * 16);
    [Sextet(b0 / 4), Sextet((b0 % 4) * 16), '=', '=']
  }

  /** `encodeToString`: four characters for every started group of three bytes. */
  function Encode(data: seq<byte>): (s: string)
    ensures |s| == 4 * ((|data| + 2) / 3)
    ensures |s| % 4 == 0 && (|data| > 0 ==> |s| > 0)
    decreases |data|
  {
    if |data| == 0 then ""
    else if |data| == 1 then EncodeSingle(data[0])
    else if |data| == 2 then EncodePair(data[0], data[1])
    else EncodeTriple(data[0], data[1], data[2]) + Encode(data[3..])
  }

  /** Four characters back to one, two or three bytes; `last` admits padding.
      The bits a padded group leaves unused must be zero (the canonical
      encoding of section 3.5 of RFC 4648), so every byte string has exactly
      one text. */
  function DecodeQuad(q: string, last: bool): Option<seq<byte>>
    requires |q| == 4
  {
    var v0, v1, v2, v3 := SextetValue(q[0]), SextetValue(q[1]), SextetValue(q[2]), SextetValue(q[3]);
    if v0.None? || v1.None? then None
    else if last && q[2] == '=' && q[3] == '=' then
      if v1.value % 16 != 0 then None
      else Some([v0.value * 4 + v1.value / 16])
    else if last && q[3] == '=' then
      if v2.None? || v2.value % 4 != 0 then None
      else Some([v0.value * 4 + v1.value / 16, (v1.value % 16) * 16 + v2.value / 4])
    else if v2.None? || v3.None? then None
    else Some([v0.value * 4 + v1.value / 16, (v1.value % 16) * 16 + v2.value / 4, (v2.value % 4) * 64 + v3.value])
  }

  /** Decoding of padded base 64 text; None for text that is not of that form. */
  function Decode(s: string): (r: Option<seq<byte>>)
    decreases |s|
  {
    if |s| == 0 then Some([])
    else if |s| % 4 != 0 then None
    else if |s| == 4 then DecodeQuad(s, true)
    else
      var head, tail := DecodeQuad(s[..4], false), Decode(s[4..]);
      if head.Some? && tail.Some? then Some(head.value + tail.value) else None
  }

  lemma TripleRoundTrip(b0: byte, b1: byte, b2: byte, last: bool)
    ensures DecodeQuad(EncodeTriple(b0, b1, b2), last) == Some([b0, b1, b2])
  {
    var v0, v1, v2, v3 := b0 / 4, (b0 % 4) * 16 + b1 / 16, (b1 % 16) * 4 + b2 / 64, b2 % 64;
    SextetRoundTrip(v0);
    SextetRoundTrip(v1);
    SextetRoundTrip(v2);
    SextetRoundTrip(v3);
    var q := EncodeTriple(b0, b1, b2);
    assert q[2] != '=' && q[3] != '=';
    assert v0 * 4 + v1 / 16 == b0;
    assert (v1 % 16) * 16 + v2 / 4 == b1;
    assert (v2 % 4) * 64 + v3 == b2;
  }

  lemma PairRoundTrip(b0: byte, b1: byte)
    ensures DecodeQuad(EncodePair(b0, b1), true) == Some([b0, b1])
  {
    SextetRoundTrip(b0 / 4);
    SextetRoundTrip((b0 % 4) * 16 + b1 / 16);
    SextetRoundTrip((b1 % 16) * 4);
  }

  lemma SingleRoundTrip(b0: byte)
    ensures DecodeQuad(EncodeSingle(b0), true) == Some([b0])
  {
    SextetRoundTrip(b0 / 4);
    SextetRoundTrip((b0 % 4) * 16);
  }

  /** A full group in front of padded text decodes group by group. */
  lemma DecodeAppend(head: string, tail: string)
    requires |head| == 4 && |tail| > 0 && |tail| % 4 == 0
    ensures Decode(head + tail) ==
      if DecodeQuad(head, false).Some? && Decode(tail).Some?
      then Some(DecodeQuad(head, false).value + Decode(tail).value) else None
  {
    var s := head + tail;
    assert |s| > 4 && |s| % 4 == 0;
    assert s[..4] == head && s[4..] == tail;
  }

  lemma DecodeEncodeOne(data: seq<byte>)
    requires |data| == 1
    ensures Decode(Encode(data)) == Some(data)
  {
    assert Encode(data) == EncodeSingle(data[0]);
    SingleRoundTrip(data[0]);
    assert data == [data[0]];
  }

  lemma DecodeEncodeTwo(data: seq<byte>)
    requires |data| == 2
    ensures Decode(Encode(data)) == Some(data)
  {
    assert Encode(data) == EncodePair(data[0], data[1]);
    PairRoundTrip(data[0], data[1]);
    assert data == [data[0], data[1]];
  }

  lemma DecodeEncodeThree(data: seq<byte>)
    requires |data| == 3
    ensures Decode(Encode(data)) == Some(data)
  {
    var s := EncodeTriple(data[0], data[1], data[2]);
    assert Encode(data[3..]) == "";
    assert Encode(data) == s + "" == s;
    TripleRoundTrip(data[0], data[1], data[2], true);
    assert data == [data[0], data[1], data[2]];
  }

  /** Decoding the encoding of any byte string gives that byte string back. */
  lemma {:induction false} DecodeEncode(data: seq<byte>)
    ensures Decode(Encode(data)) == Some(data)
    decreases |data|
  {
    if |data| == 1 {
      DecodeEncodeOne(data);
    } else if |data| == 2 {
      DecodeEncodeTwo(data);
    } else if |data| == 3 {
      DecodeEncodeThree(data);
    } else if |data| > 3 {
      DecodeEncode(data[3..]);
      var head := FrontGroup(data);
      DecodeEncodeStep(data, head, Encode(data[3..]));
    }
  }

  /** A decoded first group in front of the decoded rest. */
  lemma DecodeEncodeStep(data: seq<byte>, head: string, tail: string)
    requires |data| > 3 && |head| == 4 && |tail| > 0 && |tail| % 4 == 0
    requires DecodeQuad(head, false) == Some(data[..3]) && Decode(tail) == Some(data[3..])
    requires Encode(data) == head + tail
    ensures Decode(Encode(data)) == Some(data)
  {
    DecodeAppend(head, tail);
    assert data == data[..3] + data[3..];
  }

  /** The first group of a longer encoding: the text of the first three bytes. */
  lemma FrontGroup(data: seq<byte>) returns (head: string)
    requires |data| > 3
    ensures |head| == 4 && DecodeQuad(head, false) == Some(data[..3])
    ensures Encode(data) == head + Encode(data[3..])
  {
    head := EncodeTriple(data[0], data[1], data[2]);
    TripleRoundTrip(data[0], data[1], data[2], false);
    assert data[..3] == [data[0], data[1], data[2]];
  }

  /** A group that decodes is the encoding of the bytes it decodes to: a full
      group of three bytes, or, only when it is the last, a padded group of
      one or two. */
  lemma QuadCanonical(q: string, last: bool, d: seq<byte>)
    requires |q| == 4 && DecodeQuad(q, last) == Some(d)
    ensures |d| == 3 ==> q == EncodeTriple(d[0], d[1], d[2])
    ensures |d| == 2 ==> last && q == EncodePair(d[0], d[1])
    ensures |d| == 1 ==> last && q == EncodeSingle(d[0])
    ensures 1 <= |d| <= 3
    ensures !last ==> |d| == 3
  {
    var v0, v1 := SextetValue(q[0]).value, SextetValue(q[1]).value;
    assert d[0] / 4 == v0 && d[0] % 4 == v1 / 16;
    if |d| == 1 {
      assert (d[0] % 4) * 16 == v1;
    } else if |d| == 2 {
      var v2 := SextetValue(q[2]).value;
      assert d[1] / 16 == v1 % 16 && d[1] % 16 == v2 / 4;
      assert (d[1] % 16) * 4 == v2;
    } else {
      var v2, v3 := SextetValue(q[2]).value, SextetValue(q[3]).value;
      assert d[1] / 16 == v1 % 16 && d[1] % 16 == v2 / 4;
      assert d[2] / 64 == v2 % 4 && d[2] % 64 == v3;
    }
  }

  /** Decoding is exact: text that decodes is the encoding of what it decodes
      to, so `Encode` has no other text for those bytes. */
  lemma {:induction false} EncodeDecode(s: string, d: seq<byte>)
    requires Decode(s) == Some(d)
    ensures Encode(d) == s
    decreases |s|
  {
    if |s| == 0 {
      assert d == [];
    } else if |s| == 4 {
      EncodeDecodeLast(s, d);
    } else {
      var head, tail := DecodeSplit(s);
      EncodeDecode(s[4..], tail);
      EncodeDecodeStep(s, head, tail, d);
    }
  }

  /** The last group alone. */
  lemma EncodeDecodeLast(s: string, d: seq<byte>)
    requires |s| == 4 && Decode(s) == Some(d)
    ensures Encode(d) == s
  {
    QuadCanonical(s, true, d);
    if |d| == 3 {
      assert Encode(d[3..]) == "";
    }
  }

  /** Text longer than one group decodes as its first group and the rest. */
  lemma DecodeSplit(s: string) returns (head: seq<byte>, tail: seq<byte>)
    requires |s| != 0 && |s| != 4 && Decode(s).Some?
    ensures |s| > 4
    ensures DecodeQuad(s[..4], false) == Some(head) && Decode(s[4..]) == Some(tail)
    ensures Decode(s) == Some(head + tail)
  {
    assert |s| % 4 == 0;
    head, tail := DecodeQuad(s[..4], false).value, Decode(s[4..]).value;
  }

  /** A first group in front of a rest whose encoding is known. */
  lemma EncodeDecodeStep(s: string, head: seq<byte>, tail: seq<byte>, d: seq<byte>)
    requires |s| > 4 && DecodeQuad(s[..4], false) == Some(head) && Encode(tail) == s[4..]
    requires d == head + tail
    ensures Encode(d) == s
  {
    QuadCanonical(s[..4], false, head);
    assert |tail| > 0;
    assert d[..3] == head && d[3..] == tail;
    assert s == s[..4] + s[4..];
  }
}
