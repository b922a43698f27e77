/**
 * Access tokens: `crypto.randomBytes(32).toString("hex")`. The random bytes
 * are a parameter; what is modelled is the hex rendering.
 */
module Tokens {
  import opened Wrappers
  import opened Bytes

  /** The number of random bytes behind one token. */
  const TokenBytes: nat := 32

  predicate IsLowerHexDigit(c: char) {
    '0' <= c <= '9' || 'a' <= c <= 'f'
  }

  function HexDigit(v: nat): (c: char)
    requires v < 16
    ensures IsLowerHexDigit(c)
  {
    if v < 10 then '0' + v as char else 'a' + (v - 10) as char
  }

  function HexValue(c: char): (r: Option<nat>)
    ensures r.Some? <==> IsLowerHexDigit(c)
    ensures r.Some? ==> r.value < 16
  {
    if '0' <= c <= '9' then Some(c as int - '0' as int)
    else if 'a' <= c <= 'f' then Some(c as int - 'a' as int + 10)
    else None
  }

  /** `Buffer.toString("hex")`: two lower-case digits per byte, high nibble first. */
  function Hex(b: seq<byte>): (r: string)
    ensures |r| == 2 * |b|
    ensures forall i :: 0 <= i < |r| ==> IsLowerHexDigit(r[i])
  {
    if b == [] then []
    else [HexDigit(b[0] as int / 16), HexDigit(b[0] as int % 16)] + Hex(b[1..])
  }

  /** Reads a lower-case hex string back into bytes; `None` for anything else. */
  function Unhex(s: string): Option<seq<byte>>
    decreases |s|
  {
    if s == [] then Some([])
    else if |s| == 1 then None
    else
      match (HexValue(s[0]), HexValue(s[1]), Unhex(s[2..]))
      case (Some(hi), Some(lo), Some(rest)) => Some([(hi * 16 + lo) as byte] + rest)
      case _ => None
  }

  /** The hex rendering loses nothing: reading it back gives the bytes. */
  lemma {:induction false} UnhexHex(b: seq<byte>)
    ensures Unhex(Hex(b)) == Some(b)
  {
    if b != [] {
      var s := Hex(b);
      UnhexHex(b[1..]);
      assert s[2..] == Hex(b[1..]);
      var v := b[0] as int;
      assert HexValue(HexDigit(v / 16)) == Some(v / 16);
      assert HexValue(HexDigit(v % 16)) == Some(v % 16);
      assert [b[0]] + b[1..] == b;
    }
  }

  /** A token is 64 lower-case hex characters, and determines its random bytes. */
  function GenerateToken(random: seq<byte>): (token: string)
    requires |random| == TokenBytes
    ensures |token| == 64
    ensures forall i :: 0 <= i < |token| ==> IsLowerHexDigit(token[i])
    ensures Unhex(token) == Some(random)
  {
    UnhexHex(random);
    Hex(random)
  }
}
