/** Octets and the UTF-8 encoding used by `Buffer.from(string)`. */
module Bytes {

  newtype byte = x: int | 0 <= x < 256

  /** A continuation byte of a multi-byte sequence: 10xxxxxx. */
  predicate IsContinuation(b: byte) {
    0x80 <= b <= 0xBF
  }

  /**
   * The code point a sequence of one to four bytes stands for: the payload
   * bits of the lead byte followed by six bits from each continuation byte.
   */
  function CodePoint(r: seq<byte>): int
    requires 1 <= |r| <= 4
  {
    if |r| == 1 then r[0] as int
    else if |r| == 2 then (r[0] as int - 0xC0) * 0x40 + (r[1] as int - 0x80)
    else if |r| == 3 then
      (r[0] as int - 0xE0) * 0x1000 + (r[1] as int - 0x80) * 0x40 + (r[2] as int - 0x80)
    else
      (r[0] as int - 0xF0) * 0x40000 + (r[1] as int - 0x80) * 0x1000
      + (r[2] as int - 0x80) * 0x40 + (r[3] as int - 0x80)
  }

  /** The UTF-8 encoding of one Unicode scalar value (RFC 3629, section 3). */
  function Utf8Char(c: char): (r: seq<byte>)
    ensures 1 <= |r| <= 4
    // the shortest form: the length is fixed by the range of the code point
    ensures (|r| == 1) <==> (c as int < 0x80)
    ensures (|r| == 2) <==> (0x80 <= c as int < 0x800)
    ensures (|r| == 3) <==> (0x800 <= c as int < 0x10000)
    // the lead byte announces the length, every later byte is a continuation byte
    ensures |r| == 2 ==> 0xC2 <= r[0] <= 0xDF
    ensures |r| == 3 ==> 0xE0 <= r[0] <= 0xEF
    ensures |r| == 4 ==> 0xF0 <= r[0] <= 0xF4
    ensures forall i :: 1 <= i < |r| ==> IsContinuation(r[i])
    // and the bytes decode to the character
    ensures CodePoint(r) == c as int
  {
    var n := c as int;
    // the code point in six-bit groups, lowest first: n == ((top * 64 + hi) * 64 + mid) * 64 + lo
    var lo, m := n % 0x40, n / 0x40;
    var mid, m2 := m % 0x40, m / 0x40;
    var hi, top := m2 % 0x40, m2 / 0x40;
    if n < 0x80 then [n as byte]
    else if n < 0x800 then
      assert 2 <= m < 0x20;
      [(0xC0 + m) as byte, (0x80 + lo) as byte]
    else if n < 0x10000 then
      assert m2 < 0x10;
      [(0xE0 + m2) as byte, (0x80 + mid) as byte, (0x80 + lo) as byte]
    else
      assert top <= 4;
      [(0xF0 + top) as byte, (0x80 + hi) as byte, (0x80 + mid) as byte, (0x80 + lo) as byte]
  }

  /** The UTF-8 encoding of a string. */
  function Utf8(s: string): seq<byte> {
    Concat(seq(|s|, i requires 0 <= i < |s| => Utf8Char(s[i])))
  }

  /** The pieces one after another. */
  function Concat<T>(pieces: seq<seq<T>>): seq<T> {
    if pieces == [] then [] else pieces[0] + Concat(pieces[1..])
  }
}
