/**
  `_format_command` of `sphinx_click/ext.py`: the markup for one command, made
  of the program line, the Synopsis and Description sections, and the Options,
  Arguments, Environment variables and Commands sections, each of the last four
  only when it has lines.
 */
module Render {
  import opened Text
  import opened Click
  import opened Help

  /** A heading: the title, an underline of '-' exactly as long as the title, and a blank line. */
  function Heading(title: string): (r: seq<string>)
    ensures |r| == 3 && r[0] == title && r[2] == ""
    ensures |r[1]| == |title| && forall i :: 0 <= i < |title| ==> r[1][i] == '-'
  {
    [title, seq(|title|, _ => '-'), ""]
  }

  /** The heading and the lines of a section, or nothing at all when the section has no lines. */
  function Section(title: string, lines: seq<string>): seq<string> {
    (if lines != [] then Heading(title) else []) + lines
  }

  /** Each subcommand's block followed by a blank line. */
  function SubcommandBlocks(cs: seq<Command>): (r: seq<string>)
    ensures r == [] <==> cs == []
  {
    if cs == [] then [] else FormatSubcommand(cs[0]) + [""] + SubcommandBlocks(cs[1..])
  }

  /** The Commands lines are each subcommand's block and a blank line, one subcommand after the other. */
  lemma {:induction false} SubcommandBlocksConcat(a: seq<Command>, b: seq<Command>)
    ensures SubcommandBlocks(a + b) == SubcommandBlocks(a) + SubcommandBlocks(b)
  {
    if a == [] {
      assert a + b == b;
    } else {
      assert (a + b)[1..] == a[1..] + b;
      SubcommandBlocksConcat(a[1..], b);
    }
  }

  lemma SubcommandBlocksSingle(x: Command)
    ensures SubcommandBlocks([x]) == FormatSubcommand(x) + [""]
  {
    assert [x][1..] == [];
  }

  /** The part of `_format_command` that does not depend on the subcommands. */
  function CommandBody(ctx: Context): seq<string> {
    [".. program:: " + CommandPath(ctx), ""]
    + Heading("Synopsis") + FormatUsage(ctx)
    + Heading("Description") + FormatDescription(ctx)
    + Section("Options", FormatOptions(ctx))
    + Section("Arguments", FormatArguments(ctx))
    + Section("Environment variables", FormatEnvvars(ctx))
  }

  /** `_format_command(ctx, show_nested, commands)`. */
  function FormatCommand(ctx: Context, showNested: bool, commands: Option<string>): seq<string> {
    CommandBody(ctx)
    + (if showNested then [] else Section("Commands", SubcommandBlocks(FilterCommands(ctx.command, commands))))
  }

  /** Whether a section for this title is present at the given line: the title and its underline. */
  predicate HeadingAt(lines: seq<string>, i: nat, title: string) {
    i + 1 < |lines| && lines[i] == title && lines[i + 1] == seq(|title|, _ => '-')
  }

  /**
    The Options, Arguments and Environment variables sections each appear
    exactly when they have lines: a section with lines starts with its heading,
    and one without contributes nothing.
   */
  lemma SectionsOnlyWhenNonEmpty(title: string, lines: seq<string>)
    ensures lines == [] <==> Section(title, lines) == []
    ensures lines != [] ==> HeadingAt(Section(title, lines), 0, title) && Section(title, lines)[3..] == lines
  {
  }

  /**
    A command without shown options, arguments or environment variables, rendered
    nested, has none of those headings: just the program line, the Synopsis and
    the Description.
   */
  lemma BareCommand(ctx: Context, commands: Option<string>)
    requires forall k :: 0 <= k < |ctx.command.params| ==>
      !IsShownOption(ctx.command.params[k]) && !ctx.command.params[k].Arg? && ctx.command.params[k].envvar == []
    ensures FormatCommand(ctx, true, commands) ==
      [".. program:: " + CommandPath(ctx), ""] + Heading("Synopsis") + FormatUsage(ctx)
      + Heading("Description") + FormatDescription(ctx)
  {
    var ps := ctx.command.params;
    assert FormatOptions(ctx) == [] by {
      assert forall k :: 0 <= k < |ps| ==> !IsShownOption(ps[k]);
    }
    assert FormatArguments(ctx) == [] by {
      assert forall k :: 0 <= k < |ps| ==> !ps[k].Arg?;
    }
    assert FormatEnvvars(ctx) == [] by {
      assert forall k :: 0 <= k < |ps| ==> ps[k].envvar == [];
    }
    BodyWithoutSections(ctx);
  }

  lemma BodyWithoutSections(ctx: Context)
    requires FormatOptions(ctx) == [] && FormatArguments(ctx) == [] && FormatEnvvars(ctx) == []
    ensures CommandBody(ctx) ==
      [".. program:: " + CommandPath(ctx), ""] + Heading("Synopsis") + FormatUsage(ctx)
      + Heading("Description") + FormatDescription(ctx)
  {
    var head := [".. program:: " + CommandPath(ctx), ""] + Heading("Synopsis") + FormatUsage(ctx)
      + Heading("Description") + FormatDescription(ctx);
    NoSections(head, FormatOptions(ctx), FormatArguments(ctx), FormatEnvvars(ctx));
  }

  lemma NoSections(head: seq<string>, o: seq<string>, a: seq<string>, e: seq<string>)
    requires o == [] && a == [] && e == []
    ensures head + Section("Options", o) + Section("Arguments", a) + Section("Environment variables", e) == head
  {
    assert head + [] + [] + [] == head;
  }

  /** The two headings every command has, written out. */
  lemma FixedHeadings()
    ensures Heading("Synopsis") == ["Synopsis", "--------", ""]
    ensures Heading("Description") == ["Description", "-----------", ""]
  {
    DashesLiteral("--------");
    DashesLiteral("-----------");
  }

  lemma DashesLiteral(s: string)
    requires forall i :: 0 <= i < |s| ==> s[i] == '-'
    ensures seq(|s|, _ => '-') == s
  {
  }

  /** With `show_nested` the output has no Commands section: it is the rest of the output without one. */
  lemma NestedLeavesOutCommands(ctx: Context, commands: Option<string>)
    ensures FormatCommand(ctx, true, commands) == CommandBody(ctx)
    ensures FormatCommand(ctx, false, commands) ==
      FormatCommand(ctx, true, commands) + Section("Commands", SubcommandBlocks(FilterCommands(ctx.command, commands)))
  {
  }

  /** With `show_nested`, neither the subcommands nor the allow-list change the output. */
  lemma NestedIgnoresSubcommands(ctx: Context, es: seq<Entry>, c1: Option<string>, c2: Option<string>)
    ensures FormatCommand(ctx.(command := ctx.command.(commands := es)), true, c1) == FormatCommand(ctx, true, c2)
  {
    var ctx' := ctx.(command := ctx.command.(commands := es));
    assert CommandPath(ctx') == CommandPath(ctx);
    assert FormatUsage(ctx') == FormatUsage(ctx);
  }
}
