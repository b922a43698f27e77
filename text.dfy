/** String helpers with the behaviour of the JavaScript built-ins the source calls. */
module Text {

  /** The two-character delimiter of composite handles. */
  const Delimiter: string := "::"

  /**
   * `s.split("::")`: the pieces between the leftmost non-overlapping
   * occurrences of the delimiter, scanning left to right.
   */
  function SplitDoubleColon(s: string): (r: seq<string>)
    ensures |r| >= 1
    decreases |s|
  {
    if |s| < 2 then [s]
    else if s[0] == ':' && s[1] == ':' then [""] + SplitDoubleColon(s[2..])
    else
      var rest := SplitDoubleColon(s[1..]);
      [[s[0]] + rest[0]] + rest[1..]
  }

  /** The inverse the split is measured against: the pieces glued back together with the delimiter between them. */
  function JoinDoubleColon(parts: seq<string>): string
    requires |parts| >= 1
  {
    if |parts| == 1 then parts[0] else parts[0] + Delimiter + JoinDoubleColon(parts[1..])
  }

  /** Splitting loses nothing: joining the pieces again gives back the input. */
  lemma {:induction false} JoinSplit(s: string)
    ensures JoinDoubleColon(SplitDoubleColon(s)) == s
    decreases |s|
  {
    if |s| < 2 {
    } else if s[0] == ':' && s[1] == ':' {
      JoinSplit(s[2..]);
      SplitAtDelimiter(s);
    } else {
      JoinSplit(s[1..]);
      SplitAtChar(s);
    }
  }

  /** At a delimiter, the join of the pieces is the delimiter and the join of the rest. */
  lemma SplitAtDelimiter(s: string)
    requires |s| >= 2 && s[0] == ':' && s[1] == ':'
    ensures JoinDoubleColon(SplitDoubleColon(s)) == Delimiter + JoinDoubleColon(SplitDoubleColon(s[2..]))
  {
    JoinFront("", SplitDoubleColon(s[2..]));
  }

  /** Anywhere else, the join of the pieces is the first character and the join of the rest. */
  lemma SplitAtChar(s: string)
    requires |s| >= 2 && !(s[0] == ':' && s[1] == ':')
    ensures JoinDoubleColon(SplitDoubleColon(s)) == [s[0]] + JoinDoubleColon(SplitDoubleColon(s[1..]))
  {
    var rest := SplitDoubleColon(s[1..]);
    JoinGlue(s[0], rest[0], rest[1..]);
    assert [rest[0]] + rest[1..] == rest;
  }

  /** Joining a piece in front of others puts the delimiter between them. */
  lemma JoinFront(p: string, rest: seq<string>)
    requires |rest| >= 1
    ensures JoinDoubleColon([p] + rest) == p + Delimiter + JoinDoubleColon(rest)
  {
    assert ([p] + rest)[1..] == rest;
  }

  /** A character glued to the first piece comes out in front of the joined text. */
  lemma JoinGlue(c: char, first: string, others: seq<string>)
    ensures JoinDoubleColon([[c] + first] + others) == [c] + JoinDoubleColon([first] + others)
  {
    if others != [] {
      JoinFront([c] + first, others);
      JoinFront(first, others);
    }
  }

  /** A piece without any ':' followed by the delimiter becomes one whole piece. */
  lemma {:induction false} SplitAfterPiece(p: string, rest: string)
    requires forall i :: 0 <= i < |p| ==> p[i] != ':'
    ensures SplitDoubleColon(p + Delimiter + rest) == [p] + SplitDoubleColon(rest)
    decreases |p|
  {
    if p == [] {
      assert p + Delimiter + rest == "::" + rest;
      assert ("::" + rest)[2..] == rest;
    } else {
      var s := p + Delimiter + rest;
      SplitAfterPiece(p[1..], rest);
      assert s[1..] == p[1..] + Delimiter + rest;
      assert s[0] == p[0] && |s| >= 2;
      var tail := SplitDoubleColon(s[1..]);
      assert tail == [p[1..]] + SplitDoubleColon(rest);
      assert [s[0]] + tail[0] == p;
    }
  }

  /** A string without any ':' splits into itself alone. */
  lemma {:induction false} SplitNoColon(e: string)
    requires forall i :: 0 <= i < |e| ==> e[i] != ':'
    ensures SplitDoubleColon(e) == [e]
    decreases |e|
  {
    if |e| >= 2 {
      SplitNoColon(e[1..]);
      assert [e[0]] + e[1..] == e;
    }
  }

  /** The characters `String.prototype.trim` removes (ECMAScript WhiteSpace and LineTerminator). */
  predicate IsJsSpace(c: char) {
    c == '\t' || c == '\n' || c == '\U{000B}' || c == '\U{000C}' || c == '\r' || c == ' '
    || c == '\U{00A0}' || c == '\U{1680}' || ('\U{2000}' <= c <= '\U{200A}')
    || c == '\U{2028}' || c == '\U{2029}' || c == '\U{202F}' || c == '\U{205F}'
    || c == '\U{3000}' || c == '\U{FEFF}'
  }

  /** The number of leading characters `trim` removes. */
  function LeadingSpace(s: string): (k: nat)
    ensures k <= |s|
    ensures forall i :: 0 <= i < k ==> IsJsSpace(s[i])
    ensures k < |s| ==> !IsJsSpace(s[k])
  {
    if s == [] || !IsJsSpace(s[0]) then 0 else 1 + LeadingSpace(s[1..])
  }

  /** The number of trailing characters `trim` removes. */
  function TrailingSpace(s: string): (k: nat)
    ensures k <= |s|
    ensures forall i :: |s| - k <= i < |s| ==> IsJsSpace(s[i])
    ensures k < |s| ==> !IsJsSpace(s[|s| - 1 - k])
  {
    if s == [] || !IsJsSpace(s[|s| - 1]) then 0 else 1 + TrailingSpace(s[..|s| - 1])
  }

  /** `s.trim()`: the input with leading and trailing white space removed. */
  function Trim(s: string): (r: string)
    // a contiguous piece of the input, starting after its leading white space
    ensures LeadingSpace(s) + |r| <= |s| && r == s[LeadingSpace(s)..LeadingSpace(s) + |r|]
    ensures r != [] ==> !IsJsSpace(r[0]) && !IsJsSpace(r[|r| - 1])
    // and everything cut off at either end is white space
    ensures forall i :: 0 <= i < LeadingSpace(s) ==> IsJsSpace(s[i])
    ensures forall i :: LeadingSpace(s) + |r| <= i < |s| ==> IsJsSpace(s[i])
  {
    var a := LeadingSpace(s);
    var b := TrailingSpace(s[a..]);
    s[a..|s| - b]
  }

  /** `s.toLowerCase()` on the ASCII letters; every other character is kept. */
  function LowerAscii(s: string): (r: string)
    ensures |r| == |s|
    ensures forall i :: 0 <= i < |s| ==>
      r[i] == (if 'A' <= s[i] <= 'Z' then (s[i] as int + 32) as char else s[i])
  {
    if s == [] then []
    else [if 'A' <= s[0] <= 'Z' then (s[0] as int + 32) as char else s[0]] + LowerAscii(s[1..])
  }

  predicate IsDigit(c: char) {
    '0' <= c <= '9'
  }

  /** The decimal digits `${n}` renders for a non-negative integer. */
  function NatToString(n: nat): (r: string)
    ensures r != []
    ensures forall i :: 0 <= i < |r| ==> IsDigit(r[i])
    ensures n > 0 ==> r[0] != '0'
    ensures DecimalValue(r) == n
  {
    var d := ['0' + (n % 10) as char];
    if n < 10 then d
    else
      var x := NatToString(n / 10);
      assert (x + d)[..|x + d| - 1] == x;
      x + d
  }

  /** The number a string of decimal digits stands for, read left to right. */
  function DecimalValue(s: string): int {
    if s == [] then 0 else 10 * DecimalValue(s[..|s| - 1]) + (s[|s| - 1] as int - '0' as int)
  }

  /** The first k characters of s, or all of s when it is shorter. */
  function Prefix(s: string, k: nat): (r: string)
    ensures |r| == if |s| < k then |s| else k
    ensures r == s[..|r|]
  {
    if |s| < k then s else s[..k]
  }
}
