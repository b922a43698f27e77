/**
 * The part of `JSON.stringify` the configuration document needs: objects of
 * strings, booleans and nested objects, with JSON string escaping.
 */
module Json {
  import opened Wrappers
  import Tokens
  import Bytes

  /** A JSON value built from the shapes the configuration document uses. */
  datatype Value =
    | Str(s: string)
    | Bool(b: bool)
    | Object(members: seq<Member>)

  datatype Member = Member(key: string, value: Value)

  /** The escape `JSON.stringify` writes for one character of a string. */
  function EscapeChar(c: char): (r: string)
    ensures 1 <= |r| <= 6
    ensures forall i :: 0 <= i < |r| ==> r[i] != '"' || (i > 0 && r[0] == '\\')
    ensures forall i :: 0 <= i < |r| ==> r[i] as int >= 0x20
  {
    if c == '"' then "\\\""
    else if c == '\\' then "\\\\"
    else if c == '\U{0008}' then "\\b"
    else if c == '\U{000C}' then "\\f"
    else if c == '\n' then "\\n"
    else if c == '\r' then "\\r"
    else if c == '\t' then "\\t"
    else if (c as int) < 0x20 then
      "\\u00" + [Tokens.HexDigit(c as int / 16), Tokens.HexDigit(c as int % 16)]
    else [c]
  }

  /** The escapes of the characters, one after another. */
  function Escape(s: string): string {
    Bytes.Concat(seq(|s|, i requires 0 <= i < |s| => EscapeChar(s[i])))
  }

  /** Escaping works character by character from the front. */
  lemma EscapeFront(s: string)
    requires s != []
    ensures Escape(s) == EscapeChar(s[0]) + Escape(s[1..])
  {
    var pieces := seq(|s|, i requires 0 <= i < |s| => EscapeChar(s[i]));
    assert pieces[1..] == seq(|s| - 1, i requires 0 <= i < |s| - 1 => EscapeChar(s[1..][i]));
  }

  /** A JSON string literal: the escaped text between double quotes. */
  function Quote(s: string): string {
    "\"" + Escape(s) + "\""
  }

  /** The value of the four hex digits after `\u`; only lower-case digits are read. */
  function Hex4(t: string): (r: Option<nat>)
    requires |t| == 4
    ensures r.Some? ==> r.value < 0x10000
  {
    match (Tokens.HexValue(t[0]), Tokens.HexValue(t[1]), Tokens.HexValue(t[2]), Tokens.HexValue(t[3]))
    case (Some(a), Some(b), Some(c), Some(d)) => Some(((a * 16 + b) * 16 + c) * 16 + d)
    case _ => None
  }

  /**
   * Reads escaped string content back, as `JSON.parse` does for the escapes
   * `Escape` writes (and `\/`). Surrogate `\u` escapes are not read.
   */
  function Unescape(t: string): Option<string>
    decreases |t|
  {
    if t == [] then Some([])
    else if t[0] != '\\' then
      if t[0] == '"' || (t[0] as int) < 0x20 then None
      else match Unescape(t[1..]) case Some(rest) => Some([t[0]] + rest) case None => None
    else if |t| < 2 then None
    else
      var e := t[1];
      if e == 'u' then
        if |t| < 6 then None
        else match (Hex4(t[2..6]), Unescape(t[6..]))
          case (Some(v), Some(rest)) =>
            if 0xD800 <= v < 0xE000 then None else Some([v as char] + rest)
          case _ => None
      else
        var c := if e == '"' then Some('"') else if e == '\\' then Some('\\') else if e == '/' then Some('/')
                 else if e == 'b' then Some('\U{0008}') else if e == 'f' then Some('\U{000C}')
                 else if e == 'n' then Some('\n') else if e == 'r' then Some('\r')
                 else if e == 't' then Some('\t') else None;
        match (c, Unescape(t[2..]))
        case (Some(x), Some(rest)) => Some([x] + rest)
        case _ => None
  }

  lemma UnescapeChar(c: char, rest: string, tail: string)
    requires Unescape(rest) == Some(tail)
    ensures Unescape(EscapeChar(c) + rest) == Some([c] + tail)
  {
    var t := EscapeChar(c) + rest;
    var k := |EscapeChar(c)|;
    assert t[k..] == rest;
    if c != '"' && c != '\\' && c != '\U{0008}' && c != '\U{000C}' && c != '\n' && c != '\r' && c != '\t'
       && (c as int) < 0x20 {
      var n := c as int;
      var h := Tokens.HexDigit(n / 16);
      var l := Tokens.HexDigit(n % 16);
      assert t[2..6] == ['0', '0', h, l];
      assert Tokens.HexValue(h) == Some(n / 16);
      assert Tokens.HexValue(l) == Some(n % 16);
      assert Hex4(t[2..6]) == Some(n);
    }
  }

  /** Escaping loses nothing: reading the escaped text back gives the string. */
  lemma {:induction false} UnescapeEscape(s: string)
    ensures Unescape(Escape(s)) == Some(s)
  {
    if s != [] {
      UnescapeEscape(s[1..]);
      EscapeFront(s);
      UnescapeChar(s[0], Escape(s[1..]), s[1..]);
      assert [s[0]] + s[1..] == s;
    }
  }

  /** `JSON.stringify` of a value, without white space. */
  function Serialize(v: Value): string
    decreases v, 1
  {
    match v
    case Str(s) => Quote(s)
    case Bool(b) => if b then "true" else "false"
    case Object(ms) => "{" + SerializeMembers(ms, v) + "}"
  }

  function SerializeMembers(ms: seq<Member>, ghost parent: Value): string
    requires forall i :: 0 <= i < |ms| ==> ms[i] < parent
    decreases parent, 0, |ms|
  {
    if ms == [] then ""
    else
      var head := Quote(ms[0].key) + ":" + Serialize(ms[0].value);
      if |ms| == 1 then head else head + "," + SerializeMembers(ms[1..], parent)
  }
}
