/**
  String helpers with the behaviour of the Python `str` methods that the
  extension relies on: `isspace`, `strip`, `join`, `split(',')`,
  `split(':', 1)`, `splitlines()` with and without line ends, and the
  ordering `sorted` uses on names.
 */
module Text {

  datatype Option<T> = None | Some(value: T)

  /** The characters for which Python's `str.isspace()` holds; `strip()` removes exactly these. */
  predicate IsSpace(c: char) {
    c == ' ' || c == '\t' || c == '\n' || c == '\r' || c == '\U{0B}' || c == '\U{0C}'
    || ('\U{1C}' <= c <= '\U{1F}') || c == '\U{85}' || c == '\U{A0}' || c == '\U{1680}'
    || ('\U{2000}' <= c <= '\U{200A}') || c == '\U{2028}' || c == '\U{2029}'
    || c == '\U{202F}' || c == '\U{205F}' || c == '\U{3000}'
  }

  /** The line boundaries of Python's `str.splitlines()` ("\r\n" counts as one boundary). */
  predicate IsLineBreak(c: char) {
    c == '\n' || c == '\r' || c == '\U{0B}' || c == '\U{0C}' || c == '\U{1C}' || c == '\U{1D}'
    || c == '\U{1E}' || c == '\U{85}' || c == '\U{2028}' || c == '\U{2029}'
  }

  predicate NoLineBreak(s: string) {
    forall i :: 0 <= i < |s| ==> !IsLineBreak(s[i])
  }

  /** A string that `strip()` turns into the empty string. */
  predicate IsBlank(s: string) {
    forall i :: 0 <= i < |s| ==> IsSpace(s[i])
  }

  function Spaces(n: nat): (r: string)
    ensures |r| == n && IsBlank(r) && NoLineBreak(r)
    ensures forall i :: 0 <= i < n ==> r[i] == ' '
  {
    seq(n, _ => ' ')
  }

  /** Python's `s.lstrip()`. */
  function LStrip(s: string): (r: string)
    ensures |r| <= |s| && r == s[|s| - |r|..]
    ensures forall i :: 0 <= i < |s| - |r| ==> IsSpace(s[i])
    ensures r == [] || !IsSpace(r[0])
  {
    if s != [] && IsSpace(s[0]) then LStrip(s[1..]) else s
  }

  /** Python's `s.rstrip()`. */
  function RStrip(s: string): (r: string)
    ensures |r| <= |s| && r == s[..|r|]
    ensures forall i :: |r| <= i < |s| ==> IsSpace(s[i])
    ensures r == [] || !IsSpace(r[|r| - 1])
  {
    if s != [] && IsSpace(s[|s| - 1]) then RStrip(s[..|s| - 1]) else s
  }

  /** Python's `s.strip()`. */
  function Strip(s: string): string {
    LStrip(RStrip(s))
  }

  /** `line.strip()` is falsy exactly when the line holds only whitespace. */
  lemma StripEmptyIffBlank(s: string)
    ensures Strip(s) == [] <==> IsBlank(s)
  {
  }

  /** Python's `sep.join(parts)`. */
  function Join(sep: string, parts: seq<string>): string
    decreases |parts|
  {
    if |parts| == 0 then ""
    else if |parts| == 1 then parts[0]
    else parts[0] + sep + Join(sep, parts[1..])
  }

  /** Python's `''.join(parts)`. */
  function Concat(parts: seq<string>): string
    decreases |parts|
  {
    if parts == [] then "" else parts[0] + Concat(parts[1..])
  }

  /** Index of the first occurrence of `c` in `s`, or `|s|` when there is none. */
  function IndexOf(s: string, c: char): (i: nat)
    ensures i <= |s|
    ensures i < |s| ==> s[i] == c
    ensures forall j :: 0 <= j < i ==> s[j] != c
  {
    if s == [] then 0 else if s[0] == c then 0 else 1 + IndexOf(s[1..], c)
  }

  /** Python's `s.split(c)` for a one-character separator. */
  function SplitOn(s: string, c: char): (r: seq<string>)
    ensures |r| >= 1
    ensures forall k :: 0 <= k < |r| ==> c !in r[k]
    ensures Join([c], r) == s
    decreases |s|
  {
    var i := IndexOf(s, c);
    if i == |s| then
      assert s[..i] == s;
      [s]
    else
      var rest := SplitOn(s[i + 1..], c);
      assert s == s[..i] + [c] + s[i + 1..];
      [s[..i]] + rest
  }

  /** Python's `s.split(c, 1)` unpacked into two names: `None` when `c` does not occur. */
  function SplitFirst(s: string, c: char): (r: Option<(string, string)>)
    ensures r.None? <==> c !in s
    ensures r.Some? ==> c !in r.value.0 && s == r.value.0 + [c] + r.value.1
  {
    var i := IndexOf(s, c);
    if i == |s| then None
    else
      assert s == s[..i] + [c] + s[i + 1..];
      Some((s[..i], s[i + 1..]))
  }

  // ---------------------------------------------------------------------
  // splitlines

  /** Length of the first line of `s` without its line boundary. */
  function BodyLen(s: string): (b: nat)
    ensures b <= |s|
    ensures forall i :: 0 <= i < b ==> !IsLineBreak(s[i])
    ensures b < |s| ==> IsLineBreak(s[b])
  {
    if s == [] || IsLineBreak(s[0]) then 0 else 1 + BodyLen(s[1..])
  }

  /** Length of the line boundary that starts at `b`: two for "\r\n", none at the end. */
  function TermLen(s: string, b: nat): nat
    requires b <= |s|
  {
    if b == |s| then 0
    else if s[b] == '\r' && b + 1 < |s| && s[b + 1] == '\n' then 2
    else 1
  }

  /** Length of the first line of `s` including its line boundary. */
  function LineLen(s: string): (n: nat)
    ensures n <= |s|
    ensures s != [] ==> n > 0
  {
    BodyLen(s) + TermLen(s, BodyLen(s))
  }

  /** Python's `s.splitlines(True)`: the lines of `s`, each with its line boundary. */
  function SplitLinesKeepEnds(s: string): (r: seq<string>)
    ensures forall k :: 0 <= k < |r| ==> r[k] != []
    decreases |s|
  {
    if s == [] then [] else
    var n := LineLen(s);
    [s[..n]] + SplitLinesKeepEnds(s[n..])
  }

  /** Python's `s.splitlines()`: the lines of `s` without their line boundaries. */
  function SplitLines(s: string): (r: seq<string>)
    ensures forall k :: 0 <= k < |r| ==> NoLineBreak(r[k])
    decreases |s|
  {
    if s == [] then [] else
    [s[..BodyLen(s)]] + SplitLines(s[LineLen(s)..])
  }

  /** Joining the lines kept with their ends gives back the text. */
  lemma {:induction false} SplitLinesKeepEndsConcat(s: string)
    ensures Concat(SplitLinesKeepEnds(s)) == s
    decreases |s|
  {
    if s != [] {
      var n := LineLen(s);
      SplitLinesKeepEndsConcat(s[n..]);
      assert s == s[..n] + s[n..];
    }
  }

  /** The first line of `p + a + u`, where `a` is the first line of some `s` and `u`
      does not start a "\r\n" pair with it, is exactly `p + a` when `p` has no line break. */
  lemma FirstLineOfJoin(p: string, s: string, u: string)
    requires NoLineBreak(p)
    requires s != []
    requires LineLen(s) == |s| ==> u == []
    requires u != [] ==> LineLen(s) < |s| && (u[0] == ' ' || u[0] == s[LineLen(s)])
    ensures LineLen(p + s[..LineLen(s)] + u) == |p| + LineLen(s)
  {
    var b := BodyLen(s);
    var n := LineLen(s);
    var a := s[..n];
    var x := p + a + u;
    var bx := BodyLen(x);
    assert forall i :: 0 <= i < |p| + b ==> !IsLineBreak(x[i]) by {
      forall i | 0 <= i < |p| + b ensures !IsLineBreak(x[i]) {
        if i >= |p| { assert x[i] == s[i - |p|]; }
      }
    }
    if b == |s| {
      assert x == p + s;
    } else {
      assert x[|p| + b] == s[b];
      assert bx == |p| + b;
      if s[b] == '\r' && TermLen(s, b) == 1 && |p| + b + 1 < |x| {
        assert x[|p| + b + 1] == u[0];
      }
      if TermLen(s, b) == 2 {
        assert x[|p| + b + 1] == s[b + 1];
      }
    }
  }

  // ---------------------------------------------------------------------
  // ordering of names

  /** Python's `a <= b` on `str`: lexicographic on code points. */
  predicate LexLe(a: string, b: string)
    decreases |a|
  {
    if a == [] then true
    else if b == [] then false
    else if a[0] != b[0] then a[0] < b[0]
    else LexLe(a[1..], b[1..])
  }

  lemma {:induction false} LexLeTotal(a: string, b: string)
    ensures LexLe(a, b) || LexLe(b, a)
    decreases |a|
  {
    if a != [] && b != [] && a[0] == b[0] {
      LexLeTotal(a[1..], b[1..]);
    }
  }

  lemma {:induction false} LexLeTransitive(a: string, b: string, c: string)
    requires LexLe(a, b) && LexLe(b, c)
    ensures LexLe(a, c)
    decreases |a|
  {
    if a != [] && b != [] && c != [] && a[0] == b[0] && b[0] == c[0] {
      LexLeTransitive(a[1..], b[1..], c[1..]);
    }
  }
}
