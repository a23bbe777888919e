/**
  The help-text formatters of `sphinx_click/ext.py`: each turns one option,
  argument, environment variable, subcommand, usage line or description into
  reStructuredText lines, and `FilterCommands` picks the subcommands to list.
 */
module Help {
  import opened Text
  import opened Click
  import opened Docutils

  // ---------------------------------------------------------------------
  // _indent

  /** One line of `_indent`: prefixed when `line.strip()` is non-empty, unchanged otherwise. */
  function PrefixLine(line: string, prefix: string): string {
    if Strip(line) != [] then prefix + line else line
  }

  function PrefixEach(lines: seq<string>, prefix: string): (r: seq<string>)
    ensures |r| == |lines|
  {
    if lines == [] then [] else [PrefixLine(lines[0], prefix)] + PrefixEach(lines[1..], prefix)
  }

  /** `_indent(text, level)`: four spaces per level in front of every line that is not blank. */
  function Indent(text: string, level: nat := 1): string {
    Concat(PrefixEach(SplitLinesKeepEnds(text), Spaces(4 * level)))
  }

  /** `_indent` handles the first line, then the rest of the text. */
  lemma IndentFirstLine(text: string, level: nat)
    requires text != []
    ensures Indent(text, level) ==
      PrefixLine(text[..LineLen(text)], Spaces(4 * level)) + Indent(text[LineLen(text)..], level)
  {
    var n := LineLen(text);
    assert SplitLinesKeepEnds(text) == [text[..n]] + SplitLinesKeepEnds(text[n..]);
  }

  /** The indented text starts with a space or with the first character of the text. */
  lemma IndentHead(text: string, level: nat)
    ensures text == [] ==> Indent(text, level) == []
    ensures Indent(text, level) != [] ==>
      text != [] && (Indent(text, level)[0] == ' ' || Indent(text, level)[0] == text[0])
  {
    if text != [] {
      var n := LineLen(text);
      IndentFirstLine(text, level);
      PrefixLineHead(text[..n], Spaces(4 * level));
      assert text[..n][0] == text[0];
    }
  }

  lemma PrefixLineHead(line: string, prefix: string)
    requires line != [] && forall i :: 0 <= i < |prefix| ==> prefix[i] == ' '
    ensures PrefixLine(line, prefix) != []
    ensures PrefixLine(line, prefix)[0] == ' ' || PrefixLine(line, prefix)[0] == line[0]
  {
  }

  /** Splitting `p + a + u` at the end of its first line, when that line is `p + a`. */
  lemma SplitAfterFirstLine(x: string, m: nat)
    requires 0 < m <= |x| && LineLen(x) == m
    ensures SplitLinesKeepEnds(x) == [x[..m]] + SplitLinesKeepEnds(x[m..])
  {
  }

  /** The line `_indent` makes of `line`: unchanged when blank, prefixed otherwise. */
  function IndentedLine(line: string, level: nat): string {
    if IsBlank(line) then line else Spaces(4 * level) + line
  }

  /** `_indent(text)` is the first line, indented, followed by `_indent` of the rest, and
      that first line is again the first line of the result. */
  lemma IndentStep(text: string, level: nat)
    requires text != []
    ensures var n := LineLen(text);
      && Indent(text, level) == IndentedLine(text[..n], level) + Indent(text[n..], level)
      && SplitLinesKeepEnds(Indent(text, level))
         == [IndentedLine(text[..n], level)] + SplitLinesKeepEnds(Indent(text[n..], level))
  {
    var n := LineLen(text);
    var a := text[..n];
    var u := Indent(text[n..], level);
    var p := if IsBlank(a) then [] else Spaces(4 * level);
    IndentStepText(text, level);
    assert IndentedLine(a, level) == p + a;
    IndentHead(text[n..], level);
    FirstLineOfJoin(p, text, u);
    var x := p + a + u;
    SplitAfterFirstLine(x, |p| + n);
    assert x[..|p| + n] == p + a;
    assert x[|p| + n..] == u;
  }

  lemma IndentStepText(text: string, level: nat)
    requires text != []
    ensures var n := LineLen(text);
      Indent(text, level) == IndentedLine(text[..n], level) + Indent(text[n..], level)
  {
    IndentFirstLine(text, level);
    StripEmptyIffBlank(text[..LineLen(text)]);
  }

  /**
    `_indent` keeps the lines of the text (as `splitlines(True)` counts them): a
    blank line comes back unchanged and every other line gains exactly
    `4 * level` spaces in front.
   */
  lemma {:induction false} IndentLines(text: string, level: nat)
    ensures |SplitLinesKeepEnds(Indent(text, level))| == |SplitLinesKeepEnds(text)|
    ensures forall k :: 0 <= k < |SplitLinesKeepEnds(text)| ==>
      SplitLinesKeepEnds(Indent(text, level))[k] == IndentedLine(SplitLinesKeepEnds(text)[k], level)
    decreases |text|
  {
    if text != [] {
      var n := LineLen(text);
      IndentLines(text[n..], level);
      IndentStep(text, level);
      var ins := SplitLinesKeepEnds(text);
      assert ins == [text[..n]] + SplitLinesKeepEnds(text[n..]);
    }
  }

  /** `_indent` of one line without a line break. */
  lemma IndentSingleLine(line: string, level: nat)
    requires NoLineBreak(line)
    ensures Indent(line, level) == if IsBlank(line) then line else Spaces(4 * level) + line
  {
    StripEmptyIffBlank(line);
    if line != [] {
      SingleLineSplit(line);
      var p := PrefixLine(line, Spaces(4 * level));
      assert PrefixEach([line], Spaces(4 * level)) == [p];
      assert Concat([p]) == p;
    }
  }

  lemma SingleLineSplit(line: string)
    requires NoLineBreak(line) && line != []
    ensures SplitLinesKeepEnds(line) == [line]
  {
    assert BodyLen(line) == |line|;
    assert line[..LineLen(line)] == line;
  }

  /** `_indent` of a single line made of three parts, the first starting with a non-space, adds four spaces. */
  lemma IndentThreeParts(a: string, b: string, c: string)
    requires NoLineBreak(a) && NoLineBreak(b) && NoLineBreak(c)
    requires a != [] && !IsSpace(a[0])
    ensures Indent(a + b + c) == "    " + (a + b + c)
  {
    NoLineBreakConcat(a, b);
    NoLineBreakConcat(a + b, c);
    var s := a + b + c;
    assert !IsBlank(s) by { assert s[0] == a[0]; }
    IndentSingleLine(s, 1);
    FourSpaces();
  }

  lemma FourSpaces()
    ensures Spaces(4) == "    "
  {
  }

  /** The lines `string2lines(text, ...)` yields, each passed through `_indent`. */
  function IndentedLines(text: string): (r: seq<string>)
    ensures |r| == |StringToLines(text)|
    ensures forall k :: 0 <= k < |r| ==>
      r[k] == if StringToLines(text)[k] == [] then [] else "    " + StringToLines(text)[k]
  {
    var lines := StringToLines(text);
    var r := seq(|lines|, k requires 0 <= k < |lines| => Indent(lines[k]));
    assert forall k :: 0 <= k < |r| ==>
      r[k] == if lines[k] == [] then [] else "    " + lines[k] by {
      forall k | 0 <= k < |r|
        ensures r[k] == if lines[k] == [] then [] else "    " + lines[k]
      {
        IndentSingleLine(lines[k], 1);
        BlankLineIsEmpty(text, k);
        FourSpaces();
      }
    }
    r
  }

  // ---------------------------------------------------------------------
  // _get_usage, _format_usage

  /** `_get_usage`: the bold command path, then the usage pieces joined by spaces. */
  function GetUsage(ctx: Context): string {
    "**" + CommandPath(ctx) + "** " + Join(" ", ctx.command.usagePieces)
  }

  /** `_format_usage`: the usage lines between two blank lines. */
  function FormatUsage(ctx: Context): (r: seq<string>)
    ensures |r| >= 2 && r[0] == "" && r[|r| - 1] == ""
    ensures forall k :: 0 <= k < |r| ==> NoLineBreak(r[k])
    ensures NoLineBreak(GetUsage(ctx)) ==> r == ["", GetUsage(ctx), ""]
  {
    SplitSingleLine(GetUsage(ctx));
    [""] + SplitLines(GetUsage(ctx)) + [""]
  }

  /** `splitlines()` of a non-empty text without a line break is that text alone. */
  lemma SplitSingleLine(s: string)
    ensures NoLineBreak(s) && s != [] ==> SplitLines(s) == [s]
  {
    if NoLineBreak(s) && s != [] {
      assert BodyLen(s) == |s| && s[..|s|] == s && s[|s|..] == [];
    }
  }

  /** The pieces joined with spaces have no line break when no piece has one. */
  lemma {:induction false} JoinNoLineBreak(pieces: seq<string>)
    requires forall k :: 0 <= k < |pieces| ==> NoLineBreak(pieces[k])
    ensures NoLineBreak(Join(" ", pieces))
    decreases |pieces|
  {
    if |pieces| > 1 {
      JoinNoLineBreak(pieces[1..]);
      NoLineBreakConcat(pieces[0], " ");
      NoLineBreakConcat(pieces[0] + " ", Join(" ", pieces[1..]));
    }
  }

  /**
    The synopsis of a command whose path and usage pieces have no line break is
    one line: the path in bold, a space, and the pieces joined by spaces.
   */
  lemma UsageLine(ctx: Context)
    requires NoLineBreak(CommandPath(ctx))
    requires forall k :: 0 <= k < |ctx.command.usagePieces| ==> NoLineBreak(ctx.command.usagePieces[k])
    ensures FormatUsage(ctx) == ["", "**" + CommandPath(ctx) + "** " + Join(" ", ctx.command.usagePieces), ""]
  {
    JoinNoLineBreak(ctx.command.usagePieces);
    NoLineBreakConcat("**", CommandPath(ctx));
    NoLineBreakConcat("**" + CommandPath(ctx), "** ");
    NoLineBreakConcat("**" + CommandPath(ctx) + "** ", Join(" ", ctx.command.usagePieces));
  }

  // ---------------------------------------------------------------------
  // _get_help_record

  /** `_write_opts`: the joined spellings, then " <metavar>" unless the option is a flag or a counter. */
  function WriteOpts(opt: Param, names: seq<string>): (r: string)
    requires opt.Opt?
    ensures !opt.isFlag && !opt.count ==> r == JoinOptions(names) + " " + opt.metavar
    ensures opt.isFlag || opt.count ==> r == JoinOptions(names)
  {
    var rv := JoinOptions(names);
    if !opt.isFlag && !opt.count then rv + " " + opt.metavar else rv
  }

  /** The label `_get_help_record` returns: primary spellings, then secondary ones if any, ", "-joined. */
  function OptionLabel(opt: Param): (r: string)
    requires opt.Opt?
    ensures opt.secondaryOpts == [] ==> r == WriteOpts(opt, opt.Opts())
    ensures opt.secondaryOpts != [] ==>
      r == WriteOpts(opt, opt.Opts()) + ", " + WriteOpts(opt, opt.secondaryOpts)
  {
    var rv := [WriteOpts(opt, opt.Opts())]
      + (if opt.secondaryOpts != [] then [WriteOpts(opt, opt.secondaryOpts)] else []);
    JoinOneOrTwo(", ", rv);
    Join(", ", rv)
  }

  lemma JoinOneOrTwo(sep: string, parts: seq<string>)
    ensures |parts| == 1 ==> Join(sep, parts) == parts[0]
    ensures |parts| == 2 ==> Join(sep, parts) == parts[0] + sep + parts[1]
  {
    if |parts| == 2 {
      assert parts[1..] == [parts[1]];
    }
  }

  /** `getattr(opt, 'rich_help', opt.help or '')`. */
  function BaseHelp(opt: Param): string
    requires opt.Opt?
  {
    match opt.richHelp
    case Some(h) => h
    case None => opt.help
  }

  /** `'%s' % default`, with a list or tuple rendered as its items joined by ", ". */
  function DefaultText(d: Default): string {
    match d
    case Scalar(t) => t
    case Items(xs) => Join(", ", xs)
  }

  predicate ShowsDefault(opt: Param)
    requires opt.Opt?
  {
    opt.defaultValue.Some? && opt.showDefault
  }

  /** The `extra` list of `_get_help_record`. */
  function Extras(opt: Param): (r: seq<string>)
    requires opt.Opt?
    ensures |r| <= 2
    ensures ShowsDefault(opt) <==> r != [] && r[0] != "required"
    ensures ShowsDefault(opt) ==> r[0] == "default: " + DefaultText(opt.defaultValue.value)
    ensures opt.required <==> r != [] && r[|r| - 1] == "required"
    ensures r == [] <==> !ShowsDefault(opt) && !opt.required
    ensures |r| == (if ShowsDefault(opt) then 1 else 0) + (if opt.required then 1 else 0)
  {
    assert ShowsDefault(opt) ==> ("default: " + DefaultText(opt.defaultValue.value))[0] == 'd';
    (if ShowsDefault(opt) then ["default: " + DefaultText(opt.defaultValue.value)] else [])
    + (if opt.required then ["required"] else [])
  }

  /** The help text `_get_help_record` returns. */
  function HelpText(opt: Param): string
    requires opt.Opt?
  {
    var help := BaseHelp(opt);
    var extra := Extras(opt);
    if extra != [] then
      (if help != [] then help + "  " else "") + "[" + Join("; ", extra) + "]"
    else help
  }

  /** `_get_help_record(opt)`: the label and the help text. */
  function HelpRecord(opt: Param): (string, string)
    requires opt.Opt?
  {
    (OptionLabel(opt), HelpText(opt))
  }

  /**
    The annotation `_get_help_record` appends, case by case: nothing, `[default: X]`,
    `[required]` or `[default: X; required]`, after the help text and two spaces
    when there is help text.
   */
  lemma HelpAnnotation(opt: Param)
    requires opt.Opt?
    ensures var lead := if BaseHelp(opt) != [] then BaseHelp(opt) + "  " else "";
      && (!ShowsDefault(opt) && !opt.required ==> HelpText(opt) == BaseHelp(opt))
      && (!ShowsDefault(opt) && opt.required ==> HelpText(opt) == lead + "[" + "required" + "]")
      && (ShowsDefault(opt) && !opt.required ==>
            HelpText(opt) == lead + "[" + "default: " + DefaultText(opt.defaultValue.value) + "]")
      && (ShowsDefault(opt) && opt.required ==>
            HelpText(opt) == lead + "[" + "default: " + DefaultText(opt.defaultValue.value) + "; " + "required" + "]")
  {
    var lead := if BaseHelp(opt) != [] then BaseHelp(opt) + "  " else "";
    var extra := Extras(opt);
    if ShowsDefault(opt) {
      var x := "default: " + DefaultText(opt.defaultValue.value);
      if opt.required {
        assert extra == [x, "required"];
        BracketTwo(lead, x, "required");
      } else {
        assert extra == [x];
      }
    }
  }

  lemma BracketTwo(lead: string, x: string, y: string)
    ensures lead + "[" + Join("; ", [x, y]) + "]" == lead + "[" + x + "; " + y + "]"
  {
    assert Join("; ", [x, y]) == x + "; " + y by { assert [x, y][1..] == [y]; }
  }

  /** A shown list default `[1, 2]` on an optional option without help reads `[default: 1, 2]`. */
  lemma ListDefaultAnnotation(opt: Param)
    requires opt.Opt? && opt.help == [] && opt.richHelp.None?
    requires opt.defaultValue == Some(Items(["1", "2"])) && opt.showDefault && !opt.required
    ensures HelpText(opt) == "[default: 1, 2]"
  {
    HelpAnnotation(opt);
  }

  // ---------------------------------------------------------------------
  // _format_description

  /** The "\b" line click uses to mark a paragraph it must not rewrap. */
  const NoRewrap: string := "\U{08}"

  /** `line.strip() == '\\b'`. */
  predicate IsMarker(line: string) {
    Strip(line) == NoRewrap
  }

  /** The lines `_format_description` keeps: all but those whose `strip()` is "\b". */
  function DropMarkers(lines: seq<string>): (r: seq<string>)
    ensures |r| <= |lines|
  {
    if lines == [] then []
    else (if IsMarker(lines[0]) then [] else [lines[0]]) + DropMarkers(lines[1..])
  }

  /** The members `DropMarkers` keeps: each comes from the input, and every input member that qualifies is kept. */
  lemma {:induction false} DropMarkersMembers(lines: seq<string>)
    ensures forall x :: x in DropMarkers(lines) ==> x in lines && !IsMarker(x)
    ensures forall k :: 0 <= k < |lines| && !IsMarker(lines[k]) ==> lines[k] in DropMarkers(lines)
  {
    if lines != [] {
      DropMarkersMembers(lines[1..]);
      var rest := DropMarkers(lines[1..]);
      assert DropMarkers(lines) == (if !IsMarker(lines[0]) then [lines[0]] else []) + rest;
      forall k | 0 <= k < |lines| && !IsMarker(lines[k]) ensures lines[k] in DropMarkers(lines) {
        if k > 0 { assert lines[1..][k - 1] == lines[k]; }
      }
    }
  }

  /**
    `DropMarkers` keeps the order and the repetitions of the lines: it works line
    by line, keeping a line exactly when it is not a marker.
   */
  lemma {:induction false} DropMarkersConcat(a: seq<string>, b: seq<string>)
    ensures DropMarkers(a + b) == DropMarkers(a) + DropMarkers(b)
  {
    if a == [] {
      assert a + b == b;
    } else {
      assert (a + b)[1..] == a[1..] + b;
      DropMarkersConcat(a[1..], b);
    }
  }

  lemma DropMarkersSingle(x: string)
    ensures DropMarkers([x]) == if IsMarker(x) then [] else [x]
  {
    assert [x][1..] == [];
  }

  /** `ctx.command.help or ctx.command.short_help`. */
  function HelpString(c: Command): string {
    if c.help != [] then c.help else c.shortHelp
  }

  /** `_format_description`: the help text (or short help) line by line without "\\b" markers, then a blank line. */
  function FormatDescription(ctx: Context): (r: seq<string>)
    ensures r == [] <==> ctx.command.help == [] && ctx.command.shortHelp == []
    ensures r != [] ==> r[|r| - 1] == ""
    ensures r != [] ==> var text := if ctx.command.help != [] then ctx.command.help else ctx.command.shortHelp;
      forall l :: l in r[..|r| - 1] ==> l in StringToLines(text) && !IsMarker(l)
    ensures HelpString(ctx.command) != [] ==> r == DropMarkers(StringToLines(HelpString(ctx.command))) + [""]
  {
    var helpString := HelpString(ctx.command);
    DropMarkersMembers(StringToLines(helpString));
    if helpString == [] then []
    else DropMarkers(StringToLines(helpString)) + [""]
  }

  // ---------------------------------------------------------------------
  // _format_option, _format_options

  /**
    `_format_option`: the `.. option::` line with the label; then, when there is
    help text, a blank line and the help text's lines indented by four spaces.
   */
  function FormatOption(opt: Param): (r: seq<string>)
    requires opt.Opt?
    ensures r != [] && r[0] == ".. option:: " + OptionLabel(opt)
    ensures HelpText(opt) == [] ==> |r| == 1
    ensures HelpText(opt) != [] ==>
      var lines := StringToLines(HelpText(opt));
      && |r| == 2 + |lines| && r[1] == ""
      && forall k :: 0 <= k < |lines| ==> r[2 + k] == if lines[k] == [] then [] else "    " + lines[k]
  {
    var record := HelpRecord(opt);
    [".. option:: " + record.0] + (if record.1 != [] then [""] + IndentedLines(record.1) else [])
  }

  predicate IsShownOption(p: Param) {
    p.Opt? && !p.hidden
  }

  /** The parameters `_format_options` documents: options that are not hidden, in order. */
  function ShownOptions(params: seq<Param>): (r: seq<Param>)
    ensures |r| <= |params|
    ensures forall k :: 0 <= k < |r| ==> IsShownOption(r[k])
  {
    if params == [] then []
    else (if IsShownOption(params[0]) then [params[0]] else []) + ShownOptions(params[1..])
  }

  /** The members `ShownOptions` keeps: each comes from the input, and every input member that qualifies is kept. */
  lemma {:induction false} ShownOptionsMembers(params: seq<Param>)
    ensures forall x :: x in ShownOptions(params) ==> x in params
    ensures forall k :: 0 <= k < |params| && IsShownOption(params[k]) ==> params[k] in ShownOptions(params)
  {
    if params != [] {
      ShownOptionsMembers(params[1..]);
      var rest := ShownOptions(params[1..]);
      assert ShownOptions(params) == (if IsShownOption(params[0]) then [params[0]] else []) + rest;
      forall k | 0 <= k < |params| && IsShownOption(params[k]) ensures params[k] in ShownOptions(params) {
        if k > 0 { assert params[1..][k - 1] == params[k]; }
      }
    }
  }

  /** `ShownOptions` keeps nothing exactly when no member qualifies. */
  lemma {:induction false} ShownOptionsEmpty(params: seq<Param>)
    ensures ShownOptions(params) == [] <==> forall k :: 0 <= k < |params| ==> !(IsShownOption(params[k]))
  {
    if params != [] {
      ShownOptionsEmpty(params[1..]);
      assert forall k :: 1 <= k < |params| ==> params[k] == params[1..][k - 1];
    }
  }

  /** Each option's block followed by a blank line. */
  function OptionBlocks(opts: seq<Param>): (r: seq<string>)
    requires forall k :: 0 <= k < |opts| ==> opts[k].Opt?
    ensures r == [] <==> opts == []
  {
    if opts == [] then [] else FormatOption(opts[0]) + [""] + OptionBlocks(opts[1..])
  }

  /** `ShownOptions` keeps the shown options in declared order, with their repetitions. */
  lemma {:induction false} ShownOptionsConcat(a: seq<Param>, b: seq<Param>)
    ensures ShownOptions(a + b) == ShownOptions(a) + ShownOptions(b)
  {
    if a == [] {
      assert a + b == b;
    } else {
      assert (a + b)[1..] == a[1..] + b;
      ShownOptionsConcat(a[1..], b);
    }
  }

  lemma ShownOptionsSingle(x: Param)
    ensures ShownOptions([x]) == if IsShownOption(x) then [x] else []
  {
    assert [x][1..] == [];
  }

  /** The option lines are each option's block and a blank line, one option after the other. */
  lemma {:induction false} OptionBlocksConcat(a: seq<Param>, b: seq<Param>)
    requires forall k :: 0 <= k < |a| ==> a[k].Opt?
    requires forall k :: 0 <= k < |b| ==> b[k].Opt?
    ensures OptionBlocks(a + b) == OptionBlocks(a) + OptionBlocks(b)
  {
    if a == [] {
      assert a + b == b;
    } else {
      assert (a + b)[1..] == a[1..] + b;
      OptionBlocksConcat(a[1..], b);
    }
  }

  lemma OptionBlocksSingle(x: Param)
    requires x.Opt?
    ensures OptionBlocks([x]) == FormatOption(x) + [""]
  {
    assert [x][1..] == [];
  }

  /** `_format_options`: a block per shown option; nothing at all when there is none. */
  function FormatOptions(ctx: Context): (r: seq<string>)
    ensures r == [] <==> forall k :: 0 <= k < |ctx.command.params| ==> !IsShownOption(ctx.command.params[k])
  {
    ShownOptionsEmpty(ctx.command.params);
    OptionBlocks(ShownOptions(ctx.command.params))
  }

  // ---------------------------------------------------------------------
  // _format_argument, _format_arguments

  /** `'{} argument{}'` of `_format_argument`: required or optional, plural unless `nargs` is one. */
  function ArgumentSummary(arg: Param): string
    requires arg.Arg?
  {
    (if arg.required then "Required" else "Optional") + " argument" + (if arg.nargs != 1 then "(s)" else "")
  }

  /** `_format_argument`: three lines, the last the summary indented by four spaces. */
  function FormatArgument(arg: Param): (r: seq<string>)
    requires arg.Arg?
    ensures r == [".. option:: " + arg.humanReadableName, "", "    " + ArgumentSummary(arg)]
  {
    IndentSummary(arg);
    [".. option:: " + arg.humanReadableName, "", Indent(ArgumentSummary(arg))]
  }

  lemma IndentSummary(arg: Param)
    requires arg.Arg?
    ensures Indent(ArgumentSummary(arg)) == "    " + ArgumentSummary(arg)
  {
    var first := if arg.required then "Required" else "Optional";
    var plural := if arg.nargs != 1 then "(s)" else "";
    assert NoLineBreak(first) && !IsSpace(first[0]);
    assert NoLineBreak(" argument") && NoLineBreak(plural);
    IndentThreeParts(first, " argument", plural);
  }

  /** The parameters `_format_arguments` documents: the arguments, in order. */
  function ArgumentsOf(params: seq<Param>): (r: seq<Param>)
    ensures |r| <= |params|
    ensures forall k :: 0 <= k < |r| ==> r[k].Arg?
  {
    if params == [] then []
    else (if params[0].Arg? then [params[0]] else []) + ArgumentsOf(params[1..])
  }

  /** The members `ArgumentsOf` keeps: each comes from the input, and every input member that qualifies is kept. */
  lemma {:induction false} ArgumentsOfMembers(params: seq<Param>)
    ensures forall x :: x in ArgumentsOf(params) ==> x in params
    ensures forall k :: 0 <= k < |params| && params[k].Arg? ==> params[k] in ArgumentsOf(params)
  {
    if params != [] {
      ArgumentsOfMembers(params[1..]);
      var rest := ArgumentsOf(params[1..]);
      assert ArgumentsOf(params) == (if params[0].Arg? then [params[0]] else []) + rest;
      forall k | 0 <= k < |params| && params[k].Arg? ensures params[k] in ArgumentsOf(params) {
        if k > 0 { assert params[1..][k - 1] == params[k]; }
      }
    }
  }

  /** `ArgumentsOf` keeps nothing exactly when no member qualifies. */
  lemma {:induction false} ArgumentsOfEmpty(params: seq<Param>)
    ensures ArgumentsOf(params) == [] <==> forall k :: 0 <= k < |params| ==> !(params[k].Arg?)
  {
    if params != [] {
      ArgumentsOfEmpty(params[1..]);
      assert forall k :: 1 <= k < |params| ==> params[k] == params[1..][k - 1];
    }
  }

  /** Each argument's block followed by a blank line. */
  function ArgumentBlocks(args: seq<Param>): (r: seq<string>)
    requires forall k :: 0 <= k < |args| ==> args[k].Arg?
    ensures |r| == 4 * |args|
  {
    if args == [] then []
    else
      FormatArgument(args[0]) + [""] + ArgumentBlocks(args[1..])
  }

  /** `ArgumentsOf` keeps the arguments in declared order, with their repetitions. */
  lemma {:induction false} ArgumentsOfConcat(a: seq<Param>, b: seq<Param>)
    ensures ArgumentsOf(a + b) == ArgumentsOf(a) + ArgumentsOf(b)
  {
    if a == [] {
      assert a + b == b;
    } else {
      assert (a + b)[1..] == a[1..] + b;
      ArgumentsOfConcat(a[1..], b);
    }
  }

  lemma ArgumentsOfSingle(x: Param)
    ensures ArgumentsOf([x]) == if x.Arg? then [x] else []
  {
    assert [x][1..] == [];
  }

  /** The argument lines are each argument's block and a blank line, one argument after the other. */
  lemma {:induction false} ArgumentBlocksConcat(a: seq<Param>, b: seq<Param>)
    requires forall k :: 0 <= k < |a| ==> a[k].Arg?
    requires forall k :: 0 <= k < |b| ==> b[k].Arg?
    ensures ArgumentBlocks(a + b) == ArgumentBlocks(a) + ArgumentBlocks(b)
  {
    if a == [] {
      assert a + b == b;
    } else {
      assert (a + b)[1..] == a[1..] + b;
      ArgumentBlocksConcat(a[1..], b);
    }
  }

  lemma ArgumentBlocksSingle(x: Param)
    requires x.Arg?
    ensures ArgumentBlocks([x]) == FormatArgument(x) + [""]
  {
    assert [x][1..] == [];
  }

  /** `_format_arguments`: four lines per argument; nothing at all when there is none. */
  function FormatArguments(ctx: Context): (r: seq<string>)
    ensures r == [] <==> forall k :: 0 <= k < |ctx.command.params| ==> !ctx.command.params[k].Arg?
  {
    ArgumentsOfEmpty(ctx.command.params);
    ArgumentBlocks(ArgumentsOf(ctx.command.params))
  }

  // ---------------------------------------------------------------------
  // _format_envvar, _format_envvars

  /** The name an envvar block points to: an argument's display name, an option's first spelling. */
  function ParamRef(p: Param): string {
    match p
    case Arg(name, _, _, _) => name
    case Opt(first, _, _, _, _, _, _, _, _, _, _, _, _) => first
  }

  /** `_format_envvar`: the `.. envvar::` line, a blank line, and the indented cross-reference. */
  function FormatEnvvar(p: Param): (r: seq<string>)
    ensures |r| == 3 && r[0] == ".. envvar:: " + p.envvar && r[1] == ""
    ensures p.Opt? ==> ParamRef(p) == p.Opts()[0]
    ensures NoLineBreak(ParamRef(p)) ==> r[2] == "    " + ReferenceLine(ParamRef(p))
  {
    IndentReference(ParamRef(p));
    [".. envvar:: " + p.envvar, "", Indent(ReferenceLine(ParamRef(p)))]
  }

  /** The line of an envvar block that points to the option or argument. */
  function ReferenceLine(name: string): string {
    "Provide a default for :option:`" + name + "`"
  }

  /** `_indent` of the cross-reference line adds four spaces when the name has no line break. */
  lemma IndentReference(name: string)
    ensures NoLineBreak(name) ==>
      Indent(ReferenceLine(name)) == "    " + ReferenceLine(name)
  {
    if NoLineBreak(name) {
      var lead := "Provide a default for :option:`";
      ReferenceLead(lead);
      assert NoLineBreak("`");
      IndentThreeParts(lead, name, "`");
    }
  }

  lemma ReferenceLead(lead: string)
    requires lead == "Provide a default for :option:`"
    ensures NoLineBreak(lead) && lead != [] && !IsSpace(lead[0])
  {
  }

  lemma NoLineBreakConcat(a: string, b: string)
    requires NoLineBreak(a) && NoLineBreak(b)
    ensures NoLineBreak(a + b)
  {
    forall i | 0 <= i < |a + b| ensures !IsLineBreak((a + b)[i]) {
      if i >= |a| { assert (a + b)[i] == b[i - |a|]; }
    }
  }

  /** The parameters `_format_envvars` documents: those with an environment variable, in order. */
  function WithEnvvar(params: seq<Param>): (r: seq<Param>)
    ensures |r| <= |params|
    ensures forall k :: 0 <= k < |r| ==> r[k].envvar != []
  {
    if params == [] then []
    else (if params[0].envvar != [] then [params[0]] else []) + WithEnvvar(params[1..])
  }

  /** The members `WithEnvvar` keeps: each comes from the input, and every input member that qualifies is kept. */
  lemma {:induction false} WithEnvvarMembers(params: seq<Param>)
    ensures forall x :: x in WithEnvvar(params) ==> x in params
    ensures forall k :: 0 <= k < |params| && params[k].envvar != [] ==> params[k] in WithEnvvar(params)
  {
    if params != [] {
      WithEnvvarMembers(params[1..]);
      var rest := WithEnvvar(params[1..]);
      assert WithEnvvar(params) == (if params[0].envvar != [] then [params[0]] else []) + rest;
      forall k | 0 <= k < |params| && params[k].envvar != [] ensures params[k] in WithEnvvar(params) {
        if k > 0 { assert params[1..][k - 1] == params[k]; }
      }
    }
  }

  /** `WithEnvvar` keeps nothing exactly when no member qualifies. */
  lemma {:induction false} WithEnvvarEmpty(params: seq<Param>)
    ensures WithEnvvar(params) == [] <==> forall k :: 0 <= k < |params| ==> !(params[k].envvar != [])
  {
    if params != [] {
      WithEnvvarEmpty(params[1..]);
      assert forall k :: 1 <= k < |params| ==> params[k] == params[1..][k - 1];
    }
  }

  /** Each envvar block followed by a blank line. */
  function EnvvarBlocks(ps: seq<Param>): (r: seq<string>)
    ensures |r| == 4 * |ps|
  {
    if ps == [] then []
    else
      FormatEnvvar(ps[0]) + [""] + EnvvarBlocks(ps[1..])
  }

  /** `WithEnvvar` keeps the parameters with an envvar in declared order, with their repetitions. */
  lemma {:induction false} WithEnvvarConcat(a: seq<Param>, b: seq<Param>)
    ensures WithEnvvar(a + b) == WithEnvvar(a) + WithEnvvar(b)
  {
    if a == [] {
      assert a + b == b;
    } else {
      assert (a + b)[1..] == a[1..] + b;
      WithEnvvarConcat(a[1..], b);
    }
  }

  lemma WithEnvvarSingle(x: Param)
    ensures WithEnvvar([x]) == if x.envvar != [] then [x] else []
  {
    assert [x][1..] == [];
  }

  /** The envvar lines are each parameter's block and a blank line, one parameter after the other. */
  lemma {:induction false} EnvvarBlocksConcat(a: seq<Param>, b: seq<Param>)
    ensures EnvvarBlocks(a + b) == EnvvarBlocks(a) + EnvvarBlocks(b)
  {
    if a == [] {
      assert a + b == b;
    } else {
      assert (a + b)[1..] == a[1..] + b;
      EnvvarBlocksConcat(a[1..], b);
    }
  }

  lemma EnvvarBlocksSingle(x: Param)
    ensures EnvvarBlocks([x]) == FormatEnvvar(x) + [""]
  {
    assert [x][1..] == [];
  }

  /** `_format_envvars`: four lines per parameter with an envvar; nothing when there is none. */
  function FormatEnvvars(ctx: Context): (r: seq<string>)
    ensures r == [] <==> forall k :: 0 <= k < |ctx.command.params| ==> ctx.command.params[k].envvar == []
  {
    WithEnvvarEmpty(ctx.command.params);
    EnvvarBlocks(WithEnvvar(ctx.command.params))
  }

  // ---------------------------------------------------------------------
  // _format_subcommand

  /** `_format_subcommand`: the `.. object::` line and, with short help, a blank line and its indented lines. */
  function FormatSubcommand(c: Command): (r: seq<string>)
    ensures r != [] && r[0] == ".. object:: " + c.name
    ensures c.shortHelp == [] ==> |r| == 1
    ensures c.shortHelp != [] ==>
      var lines := StringToLines(c.shortHelp);
      && |r| == 2 + |lines| && r[1] == ""
      && forall k :: 0 <= k < |lines| ==> r[2 + k] == if lines[k] == [] then [] else "    " + lines[k]
  {
    [".. object:: " + c.name] + (if c.shortHelp != [] then [""] + IndentedLines(c.shortHelp) else [])
  }

  // ---------------------------------------------------------------------
  // _filter_commands

  ghost predicate SortedByName(cs: seq<Command>) {
    forall i, j :: 0 <= i < j < |cs| ==> LexLe(cs[i].name, cs[j].name)
  }

  /** Places `c` before the first command whose name is not smaller, so equal names keep their order. */
  function InsertByName(c: Command, sorted: seq<Command>): (r: seq<Command>)
    requires SortedByName(sorted)
    ensures SortedByName(r)
    ensures multiset(r) == multiset(sorted) + multiset{c}
  {
    if sorted == [] then [c]
    else if LexLe(c.name, sorted[0].name) then
      InsertAtFront(c, sorted);
      [c] + sorted
    else
      assert SortedByName(sorted[1..]);
      var rest := InsertByName(c, sorted[1..]);
      InsertAfterHead(c, sorted, rest);
      [sorted[0]] + rest
  }

  lemma InsertAtFront(c: Command, sorted: seq<Command>)
    requires SortedByName(sorted) && sorted != [] && LexLe(c.name, sorted[0].name)
    ensures SortedByName([c] + sorted)
    ensures multiset([c] + sorted) == multiset(sorted) + multiset{c}
  {
    assert forall j :: 0 <= j < |sorted| ==> LexLe(c.name, sorted[j].name) by {
      forall j | 0 <= j < |sorted| ensures LexLe(c.name, sorted[j].name) {
        if j > 0 { LexLeTransitive(c.name, sorted[0].name, sorted[j].name); }
      }
    }
  }

  lemma InsertAfterHead(c: Command, sorted: seq<Command>, rest: seq<Command>)
    requires SortedByName(sorted) && sorted != [] && !LexLe(c.name, sorted[0].name)
    requires SortedByName(rest) && multiset(rest) == multiset(sorted[1..]) + multiset{c}
    ensures SortedByName([sorted[0]] + rest)
    ensures multiset([sorted[0]] + rest) == multiset(sorted) + multiset{c}
  {
    LexLeTotal(c.name, sorted[0].name);
    assert sorted == [sorted[0]] + sorted[1..];
    forall j | 0 <= j < |rest| ensures LexLe(sorted[0].name, rest[j].name) {
      assert rest[j] in multiset(sorted[1..]) + multiset{c};
      if rest[j] in sorted[1..] {
        var m :| 0 <= m < |sorted[1..]| && sorted[1..][m] == rest[j];
        assert sorted[m + 1] == rest[j];
      }
    }
  }

  /** The commands of `cs` named `n`, in order. */
  function NamedAs(cs: seq<Command>, n: string): (r: seq<Command>)
    ensures |r| <= |cs|
  {
    if cs == [] then []
    else (if cs[0].name == n then [cs[0]] else []) + NamedAs(cs[1..], n)
  }

  /**
    Inserting `c` puts it in front of every command of the same name already in
    the list, which is after all of them in the input order the sort walks backwards.
   */
  lemma {:induction false} InsertKeepsOrder(c: Command, sorted: seq<Command>, n: string)
    requires SortedByName(sorted)
    ensures NamedAs(InsertByName(c, sorted), n) == (if c.name == n then [c] else []) + NamedAs(sorted, n)
  {
    if sorted == [] || LexLe(c.name, sorted[0].name) {
      NamedAsCons(c, sorted, n);
    } else {
      assert SortedByName(sorted[1..]);
      var rest := InsertByName(c, sorted[1..]);
      assert InsertByName(c, sorted) == [sorted[0]] + rest;
      LexLeTotal(c.name, c.name);
      InsertKeepsOrder(c, sorted[1..], n);
      InsertBehindHead(c, sorted[0], sorted[1..], rest, n);
      assert [sorted[0]] + sorted[1..] == sorted;
    }
  }

  /** A command inserted behind a head of another name keeps its place among the commands named `n`. */
  lemma InsertBehindHead(c: Command, head: Command, tail: seq<Command>, rest: seq<Command>, n: string)
    requires !(c.name == n && head.name == n)
    requires NamedAs(rest, n) == (if c.name == n then [c] else []) + NamedAs(tail, n)
    ensures NamedAs([head] + rest, n) == (if c.name == n then [c] else []) + NamedAs([head] + tail, n)
  {
    NamedAsCons(head, rest, n);
    NamedAsCons(head, tail, n);
  }

  lemma NamedAsCons(x: Command, t: seq<Command>, n: string)
    ensures NamedAs([x] + t, n) == (if x.name == n then [x] else []) + NamedAs(t, n)
  {
    assert ([x] + t)[1..] == t;
  }

  /**
    `sorted(commands, key=lambda item: item.name)`: ordered by name, nothing lost
    or added, and stable: commands of the same name keep their input order.
   */
  function SortByName(cs: seq<Command>): (r: seq<Command>)
    ensures SortedByName(r)
    ensures multiset(r) == multiset(cs)
    ensures forall n :: NamedAs(r, n) == NamedAs(cs, n)
  {
    if cs == [] then []
    else
      assert cs == [cs[0]] + cs[1..];
      var rest := SortByName(cs[1..]);
      forall n ensures NamedAs(InsertByName(cs[0], rest), n) == NamedAs(cs, n) {
        InsertKeepsOrder(cs[0], rest, n);
      }
      InsertByName(cs[0], rest)
  }

  /** Two commands of the same name come out of the sort in the order they went in. */
  lemma EqualNamesKeepOrder(c1: Command, c2: Command)
    requires c1.name == c2.name
    ensures SortByName([c1, c2]) == [c1, c2]
  {
    LexLeTotal(c1.name, c2.name);
    assert [c1, c2][1..] == [c2];
    assert SortByName([c2]) == [c2];
  }

  /** How many of `names` are keys of the mapping. */
  function KnownCount(names: seq<string>, es: seq<Entry>): nat {
    if names == [] then 0 else (if HasKey(es, names[0]) then 1 else 0) + KnownCount(names[1..], es)
  }

  /** `[lookup[name] for name in names if name in lookup]`. */
  function Selected(names: seq<string>, es: seq<Entry>): (r: seq<Command>)
    ensures |r| == KnownCount(names, es)
    ensures forall k :: 0 <= k < |r| ==> r[k] in Values(es)
  {
    if names == [] then []
    else (if HasKey(es, names[0]) then [Lookup(es, names[0])] else []) + Selected(names[1..], es)
  }

  lemma KnownCountStep(names: seq<string>, es: seq<Entry>, i: nat)
    requires 1 <= i <= |names|
    ensures KnownCount(names[..i], es)
         == (if HasKey(es, names[0]) then 1 else 0) + KnownCount(names[1..][..i - 1], es)
  {
    assert names[..i][1..] == names[1..][..i - 1];
  }

  /**
    The listed names keep their order: the `i`-th name, when it is a key, gives
    the element at the position that counts the known names before it, so unknown
    names are dropped and nothing else is produced.
   */
  lemma {:induction false} SelectedInListedOrder(names: seq<string>, es: seq<Entry>, i: nat)
    requires i < |names| && HasKey(es, names[i])
    ensures KnownCount(names[..i], es) < |Selected(names, es)|
    ensures Selected(names, es)[KnownCount(names[..i], es)] == Lookup(es, names[i])
  {
    if i == 0 {
      assert names[..0] == [];
    } else {
      KnownCountStep(names, es, i);
      assert names[1..][i - 1] == names[i];
      SelectedInListedOrder(names[1..], es, i - 1);
      SelectedShift(names, es, KnownCount(names[1..][..i - 1], es));
    }
  }

  /** The selection from the second name on sits right after the first name's command, if any. */
  lemma SelectedShift(names: seq<string>, es: seq<Entry>, j: nat)
    requires names != [] && j < |Selected(names[1..], es)|
    ensures (if HasKey(es, names[0]) then 1 else 0) + j < |Selected(names, es)|
    ensures Selected(names, es)[(if HasKey(es, names[0]) then 1 else 0) + j] == Selected(names[1..], es)[j]
  {
  }

  /** `[name.strip() for name in commands.split(',')]`. */
  function ListedNames(commands: string): (r: seq<string>)
    ensures |r| == |SplitOn(commands, ',')|
    ensures forall k :: 0 <= k < |r| ==> r[k] == Strip(SplitOn(commands, ',')[k])
  {
    var parts := SplitOn(commands, ',');
    seq(|parts|, k requires 0 <= k < |parts| => Strip(parts[k]))
  }

  /**
    `_filter_commands`: without a list, every subcommand sorted by name; with a
    list, the listed subcommands in the order given, unknown names dropped.
   */
  function FilterCommands(cmd: Command, commands: Option<string>): (r: seq<Command>)
    ensures forall k :: 0 <= k < |r| ==> r[k] in Values(cmd.commands)
    ensures commands.None? ==> SortedByName(r) && multiset(r) == multiset(Values(cmd.commands))
    ensures commands.None? ==> forall n :: NamedAs(r, n) == NamedAs(Values(cmd.commands), n)
    ensures commands.Some? ==> r == Selected(ListedNames(commands.value), cmd.commands)
  {
    match commands
    case None =>
      var r := SortByName(Values(cmd.commands));
      assert forall k :: 0 <= k < |r| ==> r[k] in multiset(Values(cmd.commands));
      r
    case Some(list) => Selected(ListedNames(list), cmd.commands)
  }

  /** A plain command with only a name. */
  function Named(name: string): (c: Command)
    ensures c.name == name && c.commands == [] && c.shortHelp == []
  {
    Command(name, "", "", [], [], [])
  }

  /** Without a list, a group's subcommands come out in name order, whatever order they were added in. */
  lemma UnlistedSortedExample()
    ensures FilterCommands(Command("cli", "", "", [], [], [Entry("b", Named("b")), Entry("a", Named("a"))]), None)
         == [Named("a"), Named("b")]
  {
    var es := [Entry("b", Named("b")), Entry("a", Named("a"))];
    assert Values(es) == [Named("b"), Named("a")];
    assert SortByName([Named("a")]) == [Named("a")];
  }

  /** With the list "c, x, a", the result follows the list and drops the unknown "x". */
  lemma ListedOrderExample()
    ensures FilterCommands(
              Command("cli", "", "", [], [], [Entry("a", Named("a")), Entry("b", Named("b")), Entry("c", Named("c"))]),
              Some("c, x, a"))
         == [Named("c"), Named("a")]
  {
    var es := [Entry("a", Named("a")), Entry("b", Named("b")), Entry("c", Named("c"))];
    SplitExample("c, x, a");
    ListedNamesExample("c, x, a");
    SelectedExample(ListedNames("c, x, a"), es);
  }

  lemma ListedNamesExample(s: string)
    requires SplitOn(s, ',') == ["c", " x", " a"]
    ensures var r := ListedNames(s); |r| == 3 && r[0] == "c" && r[1] == "x" && r[2] == "a"
  {
    ListedNamesOfThree(s, "c", " x", " a");
    StripExample();
  }

  lemma StripExample()
    ensures Strip("c") == "c" && Strip(" x") == "x" && Strip(" a") == "a"
  {
    StripSingle('c');
    StripLeadingSpace('x');
    StripLeadingSpace('a');
  }

  lemma ListedNamesOfThree(s: string, p0: string, p1: string, p2: string)
    requires SplitOn(s, ',') == [p0, p1, p2]
    ensures ListedNames(s) == [Strip(p0), Strip(p1), Strip(p2)]
  {
    var r := ListedNames(s);
    assert |r| == 3;
    assert r[0] == Strip(p0) && r[1] == Strip(p1) && r[2] == Strip(p2);
  }

  lemma SplitExample(s: string)
    requires s == "c, x, a"
    ensures SplitOn(s, ',') == ["c", " x", " a"]
  {
    assert IndexOf(s, ',') == 1 by { assert s[0] == 'c' && s[1] == ','; }
    var t := s[2..];
    assert t == " x, a";
    assert IndexOf(t, ',') == 2 by { assert t[0] == ' ' && t[1] == 'x' && t[2] == ','; }
    var u := t[3..];
    assert u == " a";
    assert IndexOf(u, ',') == 2 by { assert u[0] == ' ' && u[1] == 'a' && |u| == 2; }
    assert SplitOn(u, ',') == [u];
    assert SplitOn(t, ',') == [" x", u] by { assert t[..2] == " x"; }
    assert s[..1] == "c";
  }

  lemma StripSingle(c: char)
    requires !IsSpace(c)
    ensures Strip([c]) == [c]
  {
    assert RStrip([c]) == [c];
  }

  lemma StripLeadingSpace(c: char)
    requires !IsSpace(c)
    ensures Strip([' ', c]) == [c]
  {
    var t := [' ', c];
    assert RStrip(t) == t;
    assert t[1..] == [c];
    assert LStrip([c]) == [c];
  }

  lemma SelectedExample(names: seq<string>, es: seq<Entry>)
    requires |names| == 3 && names[0] == "c" && names[1] == "x" && names[2] == "a"
    requires es == [Entry("a", Named("a")), Entry("b", Named("b")), Entry("c", Named("c"))]
    ensures Selected(names, es) == [Named("c"), Named("a")]
  {
    KeysExample(es);
    var tail := names[1..];
    var last := tail[1..];
    assert tail[0] == "x" && last == [names[2]] && last[1..] == [];
    assert Selected(last, es) == [Lookup(es, "a")] + Selected(last[1..], es);
    assert Selected(last, es) == [Named("a")];
    assert Selected(tail, es) == Selected(last, es);
    assert Selected(names, es) == [Lookup(es, "c")] + Selected(tail, es);
  }

  lemma KeysExample(es: seq<Entry>)
    requires es == [Entry("a", Named("a")), Entry("b", Named("b")), Entry("c", Named("c"))]
    ensures HasKey(es, "c") && Lookup(es, "c") == Named("c")
    ensures HasKey(es, "a") && Lookup(es, "a") == Named("a")
    ensures !HasKey(es, "x")
  {
    assert es[2].key == "c";
    assert es[0].key == "a";
    assert !HasKey(es, "x") by {
      assert forall k :: 0 <= k < |es| ==> es[k].key in {"a", "b", "c"};
    }
    assert Lookup(es, "c") == Named("c") by {
      assert es[1..][1..] == [Entry("c", Named("c"))];
    }
  }
}
