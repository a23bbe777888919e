/**
  The line splitting the extension borrows from docutils:
  `statemachine.string2lines(text, tab_width=4, convert_whitespace=True)`
  turns vertical tabs and form feeds into spaces, splits the text into lines,
  expands tabs to four-column stops and strips trailing whitespace.
 */
module Docutils {
  import opened Text

  /** `convert_whitespace=True`: every "\v" and "\f" becomes a space. */
  function ConvertWhitespace(s: string): (r: string)
    ensures |r| == |s|
    ensures forall i :: 0 <= i < |s| ==> r[i] == (if s[i] == '\U{0B}' || s[i] == '\U{0C}' then ' ' else s[i])
  {
    seq(|s|, i requires 0 <= i < |s| => if s[i] == '\U{0B}' || s[i] == '\U{0C}' then ' ' else s[i])
  }

  /** Python's `s.expandtabs(tabsize)` from column `col` on. */
  function ExpandTabs(s: string, tabsize: nat, col: nat): (r: string)
    ensures NoLineBreak(s) ==> NoLineBreak(r)
    decreases |s|
  {
    if s == [] then []
    else if s[0] == '\t' then
      var fill := if tabsize == 0 then 0 else tabsize - col % tabsize;
      Spaces(fill) + ExpandTabs(s[1..], tabsize, col + fill)
    else if s[0] == '\n' || s[0] == '\r' then [s[0]] + ExpandTabs(s[1..], tabsize, 0)
    else [s[0]] + ExpandTabs(s[1..], tabsize, col + 1)
  }

  /** `string2lines(text, tab_width=4, convert_whitespace=True)`. */
  function StringToLines(text: string): (r: seq<string>)
    ensures |r| == |SplitLines(ConvertWhitespace(text))|
    ensures forall k :: 0 <= k < |r| ==> NoLineBreak(r[k])
    ensures forall k :: 0 <= k < |r| ==> r[k] == [] || !IsSpace(r[k][|r[k]| - 1])
  {
    var lines := SplitLines(ConvertWhitespace(text));
    seq(|lines|, k requires 0 <= k < |lines| => RStrip(ExpandTabs(lines[k], 4, 0)))
  }

  /** A line from `string2lines` is blank exactly when it is empty. */
  lemma BlankLineIsEmpty(text: string, k: nat)
    requires k < |StringToLines(text)|
    ensures IsBlank(StringToLines(text)[k]) <==> StringToLines(text)[k] == []
  {
    var l := StringToLines(text)[k];
    if l != [] {
      assert !IsSpace(l[|l| - 1]);
    }
  }
}
