/**
 * Base64 with the standard alphabet and `=` padding (section 4 of RFC 4648),
 * as `Buffer.toString("base64")` produces it. The decoder is the strict one
 * of section 3.5: padding only at the end and zero pad bits.
 */
module Base64 {
  import opened Wrappers
  import opened Bytes

  /** The alphabet of section 4 of RFC 4648 (Table 1). */
  predicate IsBase64Char(c: char) {
    'A' <= c <= 'Z' || 'a' <= c <= 'z' || '0' <= c <= '9' || c == '+' || c == '/'
  }

  /** The character that encodes a 6-bit value. */
  function EncodeSextet(v: nat): (c: char)
    requires v < 64
    ensures IsBase64Char(c)
  {
    if v < 26 then 'A' + v as char
    else if v < 52 then 'a' + (v - 26) as char
    else if v < 62 then '0' + (v - 52) as char
    else if v == 62 then '+'
    else '/'
  }

  /** The 6-bit value a character encodes, or `None` outside the alphabet. */
  function DecodeSextet(c: char): (r: Option<nat>)
    ensures r.Some? <==> IsBase64Char(c)
    ensures r.Some? ==> r.value < 64 && EncodeSextet(r.value) == c
  {
    if 'A' <= c <= 'Z' then Some(c as int - 'A' as int)
    else if 'a' <= c <= 'z' then Some(c as int - 'a' as int + 26)
    else if '0' <= c <= '9' then Some(c as int - '0' as int + 52)
    else if c == '+' then Some(62)
    else if c == '/' then Some(63)
    else None
  }

  lemma SextetRoundTrip(v: nat)
    requires v < 64
    ensures DecodeSextet(EncodeSextet(v)) == Some(v)
  {
  }

  /** Three bytes become four characters. */
  function EncodeTriple(a: byte, b: byte, c: byte): string {
    var x, y, z := a as int, b as int, c as int;
    [EncodeSextet(x / 4), EncodeSextet(x % 4 * 16 + y / 16),
     EncodeSextet(y % 16 * 4 + z / 64), EncodeSextet(z % 64)]
  }

  /** A final group of two bytes: three characters and one `=`. */
  function EncodePair(a: byte, b: byte): string {
    var x, y := a as int, b as int;
    [EncodeSextet(x / 4), EncodeSextet(x % 4 * 16 + y / 16), EncodeSextet(y % 16 * 4), '=']
  }

  /** A final group of one byte: two characters and `==`. */
  function EncodeSingle(a: byte): string {
    var x := a as int;
    [EncodeSextet(x / 4), EncodeSextet(x % 4 * 16), '=', '=']
  }

  /** The Base64 text of a byte sequence. */
  function Encode(b: seq<byte>): (r: string)
    ensures |r| == 4 * ((|b| + 2) / 3)
    ensures forall i :: 0 <= i < |r| ==> IsBase64Char(r[i]) || r[i] == '='
  {
    if |b| == 0 then ""
    else if |b| == 1 then EncodeSingle(b[0])
    else if |b| == 2 then EncodePair(b[0], b[1])
    else EncodeTriple(b[0], b[1], b[2]) + Encode(b[3..])
  }

  /**
   * One group of four characters; `last` says whether padding may appear.
   * Pad bits must be zero, so every accepted group is the encoding of its bytes.
   */
  function DecodeQuad(q: string, last: bool): (r: Option<seq<byte>>)
    requires |q| == 4
    ensures r.Some? ==> 1 <= |r.value| <= 3
    ensures r.Some? && !last ==> |r.value| == 3
  {
    match (DecodeSextet(q[0]), DecodeSextet(q[1]), DecodeSextet(q[2]), DecodeSextet(q[3]))
    case (Some(v0), Some(v1), Some(v2), Some(v3)) =>
      Some([(v0 * 4 + v1 / 16) as byte, (v1 % 16 * 16 + v2 / 4) as byte, (v2 % 4 * 64 + v3) as byte])
    case (Some(v0), Some(v1), Some(v2), None) =>
      if last && q[3] == '=' && v2 % 4 == 0
      then Some([(v0 * 4 + v1 / 16) as byte, (v1 % 16 * 16 + v2 / 4) as byte])
      else None
    case (Some(v0), Some(v1), None, None) =>
      if last && q[2] == '=' && q[3] == '=' && v1 % 16 == 0
      then Some([(v0 * 4 + v1 / 16) as byte])
      else None
    case _ => None
  }

  /** The bytes a Base64 text stands for, or `None` when it is not canonical Base64. */
  function Decode(s: string): (r: Option<seq<byte>>)
    ensures r.Some? && s != [] ==> r.value != []
    decreases |s|
  {
    if s == [] then Some([])
    else if |s| < 4 then None
    else
      match DecodeQuad(s[..4], |s| == 4)
      case None => None
      case Some(group) =>
        if |s| == 4 then Some(group)
        else
          match Decode(s[4..])
          case None => None
          case Some(rest) => Some(group + rest)
  }

  /** The bit arithmetic of one full group, on plain integers. */
  lemma TripleArith(x: int, y: int, z: int)
    requires 0 <= x < 256 && 0 <= y < 256 && 0 <= z < 256
    ensures var v0, v1, v2, v3 := x / 4, x % 4 * 16 + y / 16, y % 16 * 4 + z / 64, z % 64;
      v0 < 64 && v1 < 64 && v2 < 64 && v3 < 64 &&
      v0 * 4 + v1 / 16 == x && v1 % 16 * 16 + v2 / 4 == y && v2 % 4 * 64 + v3 == z
  {
  }

  lemma SextetsArith(v0: int, v1: int, v2: int, v3: int)
    requires 0 <= v0 < 64 && 0 <= v1 < 64 && 0 <= v2 < 64 && 0 <= v3 < 64
    ensures var x, y, z := v0 * 4 + v1 / 16, v1 % 16 * 16 + v2 / 4, v2 % 4 * 64 + v3;
      x < 256 && y < 256 && z < 256 &&
      x / 4 == v0 && x % 4 * 16 + y / 16 == v1 && y % 16 * 4 + z / 64 == v2 && z % 64 == v3
  {
  }

  lemma TripleRoundTrip(a: byte, b: byte, c: byte, last: bool)
    ensures DecodeQuad(EncodeTriple(a, b, c), last) == Some([a, b, c])
  {
    var x, y, z := a as int, b as int, c as int;
    TripleArith(x, y, z);
    SextetRoundTrip(x / 4);
    SextetRoundTrip(x % 4 * 16 + y / 16);
    SextetRoundTrip(y % 16 * 4 + z / 64);
    SextetRoundTrip(z % 64);
  }

  lemma PairRoundTrip(a: byte, b: byte)
    ensures DecodeQuad(EncodePair(a, b), true) == Some([a, b])
  {
    var x, y := a as int, b as int;
    TripleArith(x, y, 0);
    SextetRoundTrip(x / 4);
    SextetRoundTrip(x % 4 * 16 + y / 16);
    SextetRoundTrip(y % 16 * 4);
  }

  lemma SingleRoundTrip(a: byte)
    ensures DecodeQuad(EncodeSingle(a), true) == Some([a])
  {
    var x := a as int;
    TripleArith(x, 0, 0);
    SextetRoundTrip(x / 4);
    SextetRoundTrip(x % 4 * 16);
  }

  lemma DecodeLastGroup(q: string)
    requires |q| == 4
    ensures Decode(q) == DecodeQuad(q, true)
  {
    assert q[..4] == q;
  }

  lemma DecodeGroupThenRest(q: string, rest: string, group: seq<byte>, tail: seq<byte>)
    requires |q| == 4 && rest != []
    requires DecodeQuad(q, false) == Some(group) && Decode(rest) == Some(tail)
    ensures Decode(q + rest) == Some(group + tail)
  {
    var s := q + rest;
    assert s[..4] == q && s[4..] == rest;
  }

  lemma EncodeGroupThenRest(b: seq<byte>)
    requires |b| >= 3
    ensures Encode(b) == EncodeTriple(b[0], b[1], b[2]) + Encode(b[3..])
  {
  }

  lemma RoundTripOne(b: seq<byte>)
    requires |b| == 1
    ensures Decode(Encode(b)) == Some(b)
  {
    var s := EncodeSingle(b[0]);
    assert Encode(b) == s;
    SingleRoundTrip(b[0]);
    DecodeLastGroup(s);
    assert [b[0]] == b;
  }

  lemma RoundTripTwo(b: seq<byte>)
    requires |b| == 2
    ensures Decode(Encode(b)) == Some(b)
  {
    var s := EncodePair(b[0], b[1]);
    assert Encode(b) == s;
    PairRoundTrip(b[0], b[1]);
    DecodeLastGroup(s);
    assert [b[0], b[1]] == b;
  }

  lemma RoundTripThree(b: seq<byte>)
    requires |b| == 3
    ensures Decode(Encode(b)) == Some(b)
  {
    EncodeThree(b);
    DecodeTriple(b[0], b[1], b[2]);
    assert [b[0], b[1], b[2]] == b;
  }

  lemma DecodeTriple(x: byte, y: byte, z: byte)
    ensures Decode(EncodeTriple(x, y, z)) == Some([x, y, z])
  {
    TripleRoundTrip(x, y, z, true);
    DecodeLastGroup(EncodeTriple(x, y, z));
  }

  lemma RoundTripLonger(b: seq<byte>)
    requires |b| > 3
    requires Decode(Encode(b[3..])) == Some(b[3..])
    ensures Decode(Encode(b)) == Some(b)
  {
    var head := EncodeTriple(b[0], b[1], b[2]);
    EncodeGroupThenRest(b);
    TripleRoundTrip(b[0], b[1], b[2], false);
    HeadThree(b);
    DecodeGroupThenRest(head, Encode(b[3..]), [b[0], b[1], b[2]], b[3..]);
  }

  lemma HeadThree(b: seq<byte>)
    requires |b| >= 3
    ensures [b[0], b[1], b[2]] + b[3..] == b
  {
  }

  /** Decoding undoes encoding for every byte sequence. */
  lemma {:induction false} DecodeEncode(b: seq<byte>)
    ensures Decode(Encode(b)) == Some(b)
    decreases |b|
  {
    if |b| == 0 {
      assert Encode(b) == "";
    } else if |b| == 1 {
      RoundTripOne(b);
    } else if |b| == 2 {
      RoundTripTwo(b);
    } else if |b| == 3 {
      RoundTripThree(b);
    } else {
      DecodeEncode(b[3..]);
      RoundTripLonger(b);
    }
  }

  lemma QuadFullInverse(q: string, last: bool)
    requires |q| == 4
    requires DecodeSextet(q[0]).Some? && DecodeSextet(q[1]).Some?
    requires DecodeSextet(q[2]).Some? && DecodeSextet(q[3]).Some?
    ensures DecodeQuad(q, last).Some?
    ensures Encode(DecodeQuad(q, last).value) == q
  {
    var v0, v1, v2, v3 := DecodeSextet(q[0]).value, DecodeSextet(q[1]).value,
                          DecodeSextet(q[2]).value, DecodeSextet(q[3]).value;
    SextetsArith(v0, v1, v2, v3);
    var x, y, z := v0 * 4 + v1 / 16, v1 % 16 * 16 + v2 / 4, v2 % 4 * 64 + v3;
    var g := DecodeQuad(q, last).value;
    assert g == [x as byte, y as byte, z as byte];
    var e := EncodeTriple(x as byte, y as byte, z as byte);
    assert e[0] == EncodeSextet(v0) == q[0];
    assert e[1] == EncodeSextet(v1) == q[1];
    assert e[2] == EncodeSextet(v2) == q[2];
    assert e[3] == EncodeSextet(v3) == q[3];
    assert e == q;
    EncodeThree(g);
  }

  lemma EncodeThree(g: seq<byte>)
    requires |g| == 3
    ensures Encode(g) == EncodeTriple(g[0], g[1], g[2])
  {
    assert g[3..] == [];
  }

  lemma QuadPairInverse(q: string, last: bool)
    requires |q| == 4
    requires DecodeSextet(q[0]).Some? && DecodeSextet(q[1]).Some?
    requires DecodeSextet(q[2]).Some? && DecodeSextet(q[3]).None?
    requires DecodeQuad(q, last).Some?
    ensures Encode(DecodeQuad(q, last).value) == q
  {
    var v0, v1, v2 := DecodeSextet(q[0]).value, DecodeSextet(q[1]).value, DecodeSextet(q[2]).value;
    SextetsArith(v0, v1, v2, 0);
    var x, y := v0 * 4 + v1 / 16, v1 % 16 * 16 + v2 / 4;
    var g := DecodeQuad(q, last).value;
    assert g == [x as byte, y as byte];
    var e := EncodePair(x as byte, y as byte);
    assert e[0] == EncodeSextet(v0) == q[0];
    assert e[1] == EncodeSextet(v1) == q[1];
    assert v2 % 4 == 0 && y % 16 * 4 == v2;
    assert e[2] == EncodeSextet(v2) == q[2];
    assert e == q;
  }

  lemma QuadSingleInverse(q: string, last: bool)
    requires |q| == 4
    requires DecodeSextet(q[0]).Some? && DecodeSextet(q[1]).Some?
    requires DecodeSextet(q[2]).None? && DecodeSextet(q[3]).None?
    requires DecodeQuad(q, last).Some?
    ensures Encode(DecodeQuad(q, last).value) == q
  {
    var v0, v1 := DecodeSextet(q[0]).value, DecodeSextet(q[1]).value;
    SextetsArith(v0, v1, 0, 0);
    var x := v0 * 4 + v1 / 16;
    var g := DecodeQuad(q, last).value;
    assert g == [x as byte];
    var e := EncodeSingle(x as byte);
    assert e[0] == EncodeSextet(v0) == q[0];
    assert v1 % 16 == 0 && x % 4 * 16 == v1;
    assert e[1] == EncodeSextet(v1) == q[1];
    assert e == q;
  }

  /** Every group the decoder accepts is re-encoded to exactly the same characters. */
  lemma EncodeDecodeQuad(q: string, last: bool)
    requires |q| == 4 && DecodeQuad(q, last).Some?
    ensures Encode(DecodeQuad(q, last).value) == q
  {
    if DecodeSextet(q[2]).Some? && DecodeSextet(q[3]).Some? {
      QuadFullInverse(q, last);
    } else if DecodeSextet(q[2]).Some? {
      QuadPairInverse(q, last);
    } else {
      QuadSingleInverse(q, last);
    }
  }
  /** Encoding undoes decoding: only the canonical text of some bytes is accepted. */
  lemma {:induction false} EncodeDecode(s: string)
    requires Decode(s).Some?
    ensures Encode(Decode(s).value) == s
    decreases |s|
  {
    if |s| == 4 {
      EncodeDecodeQuad(s[..4], true);
      assert s[..4] == s;
    } else if |s| > 4 {
      var group := DecodeQuad(s[..4], false).value;
      var rest := Decode(s[4..]).value;
      EncodeDecodeQuad(s[..4], false);
      EncodeDecode(s[4..]);
      var b := group + rest;
      assert |group| == 3 && |rest| >= 1;
      assert b[3..] == rest && b[0] == group[0] && b[1] == group[1] && b[2] == group[2];
      assert Encode(group) == EncodeTriple(group[0], group[1], group[2]) + Encode(group[3..]);
      assert group[3..] == [];
      assert Encode(b) == EncodeTriple(b[0], b[1], b[2]) + Encode(b[3..]);
      assert s == s[..4] + s[4..];
    }
  }
}
