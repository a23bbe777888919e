/**
  The two directives of `sphinx_click/ext.py`: `click`, which loads a command
  from a "module:attribute" path and renders it (and, with `:show-nested:`, its
  subcommands), and `click-options`, which renders only the options of the
  command it names or of the enclosing `click` directive's command. The build
  environment's `temp_data` is a `ChainMap`; the `click` directive pushes a
  frame holding its command and program name for the time it renders, so that
  `click-options` directives parsed inside can find them.
 */
module Directives {
  import opened Text
  import opened Click
  import opened Help
  import opened Render

  // ---------------------------------------------------------------------
  // Outcomes

  /**
    Why a directive fails: a directive error carrying its message, or an
    exception raised while parsing the generated lines of the command whose
    path is `source`.
   */
  datatype Error = DirectiveError(message: string) | NestedParseError(source: string)

  datatype Result<T> = Ok(value: T) | Failure(error: Error)

  /** What importing a module gives: its attributes, an exception with its traceback, or `sys.exit()`. */
  datatype ImportOutcome = Imported(attributes: map<string, Command>) | Raised(traceback: string) | Exited

  // ---------------------------------------------------------------------
  // _load_module

  function MalformedPathMessage(path: string): string {
    "\"" + path + "\" is not of format \"module:parser\""
  }

  function ImportFailureMessage(moduleName: string, attrName: string, outcome: ImportOutcome): string {
    "Failed to import \"" + attrName + "\" from \"" + moduleName + "\". "
    + match outcome
      case Exited => "The module appeared to call sys.exit()"
      case Raised(trace) => "The following exception was raised:\n" + trace
      case Imported(_) => ""
  }

  function MissingAttributeMessage(moduleName: string, attrName: string): string {
    "Module \"" + moduleName + "\" has no attribute \"" + attrName + "\""
  }

  /**
    `_load_module(module_path)`: split the path at its first ':' into a module
    name and an attribute name, import the module, and return the attribute.
    `imports` stands for Python's `__import__`.
   */
  function LoadModule(imports: string -> ImportOutcome, path: string): (r: Result<Command>)
    ensures ':' !in path <==> r == Failure(DirectiveError(MalformedPathMessage(path)))
    ensures r.Ok? ==> exists m, a :: (':' !in m && path == m + ":" + a
      && imports(m).Imported? && a in imports(m).attributes && r.value == imports(m).attributes[a])
    ensures (exists m, a :: (':' !in m && path == m + ":" + a
      && imports(m).Imported? && a in imports(m).attributes)) ==> r.Ok?
  {
    match SplitFirst(path, ':')
    case None => Failure(DirectiveError(MalformedPathMessage(path)))
    case Some(parts) =>
      var moduleName, attrName := parts.0, parts.1;
      PathSplitUnique(path, moduleName, attrName);
      match imports(moduleName)
      case Imported(attributes) =>
        assert MissingAttributeMessage(moduleName, attrName)[0] != MalformedPathMessage(path)[0];
        if attrName in attributes then Ok(attributes[attrName])
        else Failure(DirectiveError(MissingAttributeMessage(moduleName, attrName)))
      case _ =>
        assert ImportFailureMessage(moduleName, attrName, imports(moduleName))[0] != MalformedPathMessage(path)[0];
        Failure(DirectiveError(ImportFailureMessage(moduleName, attrName, imports(moduleName))))
  }

  /** A path has only one way to be written as a module name without ':', a ':' and the rest. */
  lemma PathSplitUnique(path: string, m: string, a: string)
    requires ':' !in m && path == m + ":" + a
    ensures forall m', a' :: ':' !in m' && path == m' + ":" + a' ==> m' == m && a' == a
  {
    forall m', a' | ':' !in m' && path == m' + ":" + a'
      ensures m' == m && a' == a
    {
      SplitUnique(m, a, m', a');
    }
  }

  lemma SplitUnique(m: string, a: string, m': string, a': string)
    requires ':' !in m && ':' !in m' && m + ":" + a == m' + ":" + a'
    ensures m == m' && a == a'
  {
    var p := m + ":" + a;
    var i := IndexOf(p, ':');
    assert p[|m|] == ':' && p[|m'|] == ':';
    assert forall j :: 0 <= j < |m| ==> p[j] == m[j];
    assert forall j :: 0 <= j < |m'| ==> p[j] == m'[j];
    assert i == |m| && i == |m'|;
    assert m == p[..i] == m';
    assert a == p[i + 1..] == a';
  }

  /** The attribute after the first ':' is looked up in the module before it; later ':'s belong to the attribute. */
  lemma LoadModuleFound(imports: string -> ImportOutcome, m: string, a: string)
    requires ':' !in m && imports(m).Imported? && a in imports(m).attributes
    ensures LoadModule(imports, m + ":" + a) == Ok(imports(m).attributes[a])
  {
    PathSplitUnique(m + ":" + a, m, a);
  }

  /** A module that imports but lacks the attribute gives the "has no attribute" error. */
  lemma LoadModuleMissingAttribute(imports: string -> ImportOutcome, m: string, a: string)
    requires ':' !in m && imports(m).Imported? && a !in imports(m).attributes
    ensures LoadModule(imports, m + ":" + a) == Failure(DirectiveError(MissingAttributeMessage(m, a)))
  {
    var parts := SplitFirst(m + ":" + a, ':').value;
    SplitUnique(m, a, parts.0, parts.1);
  }

  /** A module whose import raises or exits gives the "Failed to import" error. */
  lemma LoadModuleImportFails(imports: string -> ImportOutcome, m: string, a: string)
    requires ':' !in m && !imports(m).Imported?
    ensures LoadModule(imports, m + ":" + a) == Failure(DirectiveError(ImportFailureMessage(m, a, imports(m))))
  {
    var parts := SplitFirst(m + ":" + a, ':').value;
    SplitUnique(m, a, parts.0, parts.1);
  }

  // ---------------------------------------------------------------------
  // The build environment's temp_data

  /** A value stored in `temp_data`: a command, or text such as a program name. */
  datatype Value = CommandValue(command: Command) | TextValue(text: string)

  /** Python's `ChainMap.get(key)`: the value in the first map that has the key. */
  function ChainGet(maps: seq<map<string, Value>>, key: string): (r: Option<Value>)
    ensures r.None? <==> forall k :: 0 <= k < |maps| ==> key !in maps[k]
    ensures r.Some? ==> exists k :: (0 <= k < |maps| && key in maps[k] && maps[k][key] == r.value
      && forall j :: 0 <= j < k ==> key !in maps[j])
  {
    if maps == [] then None
    else if key in maps[0] then Some(maps[0][key])
    else
      var r := ChainGet(maps[1..], key);
      assert forall k :: 1 <= k < |maps| ==> maps[k] == maps[1..][k - 1];
      r
  }

  /** `ChainMap.parents`: every map but the first, or a single empty map when there is no other. */
  function Parents(maps: seq<map<string, Value>>): seq<map<string, Value>> {
    if |maps| > 1 then maps[1..] else [map[]]
  }

  /** A frame pushed in front is consulted first; the frames behind it answer the other keys. */
  lemma ChainGetPushed(frame: map<string, Value>, maps: seq<map<string, Value>>, key: string)
    ensures ChainGet([frame] + maps, key) == if key in frame then Some(frame[key]) else ChainGet(maps, key)
  {
    assert ([frame] + maps)[1..] == maps;
  }

  /** Taking the parents of a chain with a pushed frame gives back the chain, and so every lookup. */
  lemma ParentsUndoPush(frame: map<string, Value>, maps: seq<map<string, Value>>)
    requires maps != []
    ensures Parents([frame] + maps) == maps
    ensures forall key :: ChainGet(Parents([frame] + maps), key) == ChainGet(maps, key)
  {
    assert ([frame] + maps)[1..] == maps;
  }

  /** The keys `click` stores hold a command and a program name respectively. */
  predicate WellTyped(frame: map<string, Value>) {
    && ("click:command" in frame ==> frame["click:command"].CommandValue?)
    && ("click:prog" in frame ==> frame["click:prog"].TextValue?)
  }

  /** The frame `ClickDirective.run` pushes. */
  function ClickFrame(command: Command, prog: string): (f: map<string, Value>)
    ensures WellTyped(f)
    ensures "click:command" in f && f["click:command"] == CommandValue(command)
    ensures "click:prog" in f && f["click:prog"] == TextValue(prog)
  {
    map["click:command" := CommandValue(command), "click:prog" := TextValue(prog)]
  }

  /** `env.temp_data`, a `ChainMap` (a plain dict counts as a chain of one map). */
  class BuildEnv {
    var tempData: seq<map<string, Value>>

    ghost predicate Valid()
      reads this
    {
      |tempData| > 0 && forall k :: 0 <= k < |tempData| ==> WellTyped(tempData[k])
    }

    constructor(initial: map<string, Value>)
      requires WellTyped(initial)
      ensures Valid() && tempData == [initial]
    {
      tempData := [initial];
    }

    /** `temp_data.get(key)`. */
    function Get(key: string): (r: Option<Value>)
      reads this
      ensures r == ChainGet(tempData, key)
      ensures Valid() && r.Some? && key == "click:command" ==> r.value.CommandValue?
      ensures Valid() && r.Some? && key == "click:prog" ==> r.value.TextValue?
    {
      ChainGet(tempData, key)
    }

    /** `temp_data = ChainMap(frame, temp_data)`. */
    method Push(frame: map<string, Value>)
      requires Valid() && WellTyped(frame)
      modifies this
      ensures Valid()
      ensures tempData == [frame] + old(tempData)
    {
      tempData := [frame] + tempData;
    }

    /** `temp_data = temp_data.parents`. */
    method PopParents()
      requires Valid()
      modifies this
      ensures Valid()
      ensures tempData == Parents(old(tempData))
    {
      tempData := Parents(tempData);
    }
  }

  // ---------------------------------------------------------------------
  // Generated lines and parsed nodes

  /** One entry of a `ViewList`: a line and the source name it is reported under. */
  datatype SourcedLine = SourcedLine(line: string, source: string)

  /**
    Where the lines of a `ViewList` come from: `_format_command(ctx, show_nested,
    commands)` in the `click` directive, `_format_options(ctx)` in `click-options`.
   */
  datatype Origin = CommandLines(ctx: Context, showNested: bool, commands: Option<string>) | OptionLines(ctx: Context)

  /** The generated lines of an origin. */
  function LinesOf(o: Origin): seq<string> {
    match o
    case CommandLines(ctx, showNested, commands) => FormatCommand(ctx, showNested, commands)
    case OptionLines(ctx) => FormatOptions(ctx)
  }

  /**
    What `nested_parse_with_titles` makes of a `ViewList`, as far as this model
    sees it: the origin of its lines (`Content` gives the lines themselves), and
    what `click:command` and `click:prog` resolve to for directives inside them.
   */
  datatype Block = Parsed(origin: Origin, command: Option<Value>, prog: Option<Value>)

  function ViewListOf(lines: seq<string>, source: string): (r: seq<SourcedLine>)
    ensures |r| == |lines|
    ensures forall k :: 0 <= k < |lines| ==> r[k] == SourcedLine(lines[k], source)
  {
    seq(|lines|, k requires 0 <= k < |lines| => SourcedLine(lines[k], source))
  }

  /** `for line in lines: result.append(line, source_name)`. */
  method ToViewList(lines: seq<string>, source: string) returns (result: seq<SourcedLine>)
    ensures result == ViewListOf(lines, source)
  {
    result := [];
    for i := 0 to |lines|
      invariant |result| == i
      invariant forall k :: 0 <= k < i ==> result[k] == SourcedLine(lines[k], source)
    {
      result := result + [SourcedLine(lines[i], source)];
    }
  }

  /** The `ViewList` of an origin: each generated line under the command path. */
  function Content(o: Origin): seq<SourcedLine> {
    ViewListOf(LinesOf(o), CommandPath(o.ctx))
  }

  /**
    `nested_parse_with_titles(self.state, result, node)` on the `ViewList`
    `Content(origin)`, with `temp_data` as `visible`: fails when its source is
    one of the `failing` sources (a nested directive raised), else gives one
    block.
   */
  function Parse(origin: Origin, visible: seq<map<string, Value>>, failing: set<string>): Result<seq<Block>> {
    var source := CommandPath(origin.ctx);
    if source in failing then Failure(NestedParseError(source))
    else Ok([Parsed(origin, ChainGet(visible, "click:command"), ChainGet(visible, "click:prog"))])
  }

  /** The blocks of `first` followed by those of `rest`; a failure of either is the failure. */
  function Then(first: Result<seq<Block>>, rest: Result<seq<Block>>): (r: Result<seq<Block>>)
    ensures r.Ok? <==> first.Ok? && rest.Ok?
    ensures r.Ok? ==> r.value == first.value + rest.value
    ensures first.Failure? ==> r == first
    ensures first.Ok? && rest.Failure? ==> r == rest
  {
    match first
    case Failure(e) => Failure(e)
    case Ok(blocks) =>
      match rest
      case Failure(e) => Failure(e)
      case Ok(more) => Ok(blocks + more)
  }

  /** Every command of `cs` is a value of the `commands` mapping of `parent`. */
  predicate SubcommandsOf(parent: Command, cs: seq<Command>) {
    forall k :: 0 <= k < |cs| ==> cs[k] in Values(parent.commands)
  }

  /** A command `c` among the values of `parent`'s mapping is stored in one of its entries, so it is structurally smaller. */
  lemma ChildInParent(parent: Command, c: Command)
    requires c in Values(parent.commands)
    ensures exists k :: 0 <= k < |parent.commands| && parent.commands[k].command == c
  {
  }

  /** The block of the command itself: its lines from `_format_command`, under its path, parsed. */
  function SummaryNode(ctx: Context, showNested: bool, commands: Option<string>,
                       visible: seq<map<string, Value>>, failing: set<string>): Result<seq<Block>> {
    Parse(CommandLines(ctx, showNested, commands), visible, failing)
  }

  /**
    `ClickDirective._generate_nodes(name, command, parent, show_nested, commands)`
    with `temp_data` as `visible`: the command's own lines, then, with
    `show_nested`, the nodes of each filtered subcommand. The recursive call
    passes no `commands`, so the list filters only the top level.
   */
  function Nodes(ctx: Context, showNested: bool, commands: Option<string>,
                 visible: seq<map<string, Value>>, failing: set<string>): (r: Result<seq<Block>>)
    ensures r.Ok? ==> (r.value != [] && r.value[0] ==
      Parsed(CommandLines(ctx, showNested, commands), ChainGet(visible, "click:command"), ChainGet(visible, "click:prog")))
    ensures CommandPath(ctx) in failing ==> r == Failure(NestedParseError(CommandPath(ctx)))
    ensures !showNested ==> r.Failure? || |r.value| == 1
    decreases ctx.command, 1, 0
  {
    var node := SummaryNode(ctx, showNested, commands, visible, failing);
    if showNested && node.Ok? then
      Then(node, Children(ctx, FilterCommands(ctx.command, commands), visible, failing))
    else node
  }

  /** The nodes of each of `cs`, subcommands of `ctx`'s command, generated nested under `ctx`. */
  function Children(ctx: Context, cs: seq<Command>, visible: seq<map<string, Value>>, failing: set<string>): (r: Result<seq<Block>>)
    requires SubcommandsOf(ctx.command, cs)
    decreases ctx.command, 0, |cs|
  {
    if cs == [] then Ok([])
    else
      ChildInParent(ctx.command, cs[0]);
      var first := Nodes(Context(cs[0], cs[0].name, Some(ctx)), true, None, visible, failing);
      if first.Failure? then first
      else Then(first, Children(ctx, cs[1..], visible, failing))
  }

  /** Every block of a successful generation shows the same `click:command` and `click:prog`: those of `visible`. */
  predicate SeesAll(blocks: seq<Block>, visible: seq<map<string, Value>>) {
    forall k :: 0 <= k < |blocks| ==>
      blocks[k].command == ChainGet(visible, "click:command") && blocks[k].prog == ChainGet(visible, "click:prog")
  }

  lemma {:induction false} NodesSeeVisible(ctx: Context, showNested: bool, commands: Option<string>,
                                           visible: seq<map<string, Value>>, failing: set<string>)
    ensures Nodes(ctx, showNested, commands, visible, failing).Ok? ==>
      SeesAll(Nodes(ctx, showNested, commands, visible, failing).value, visible)
    decreases ctx.command, 1, 0
  {
    var node := SummaryNode(ctx, showNested, commands, visible, failing);
    NodesUnfold(ctx, showNested, commands, visible, failing);
    SummarySeesVisible(ctx, showNested, commands, visible, failing);
    if showNested && node.Ok? {
      var cs := FilterCommands(ctx.command, commands);
      ChildrenSeeVisible(ctx, cs, visible, failing);
      SeesAllThen(node, Children(ctx, cs, visible, failing), visible);
    }
  }

  lemma SummarySeesVisible(ctx: Context, showNested: bool, commands: Option<string>,
                           visible: seq<map<string, Value>>, failing: set<string>)
    ensures SummaryNode(ctx, showNested, commands, visible, failing).Ok? ==>
      SeesAll(SummaryNode(ctx, showNested, commands, visible, failing).value, visible)
  {
  }

  lemma SeesAllThen(first: Result<seq<Block>>, rest: Result<seq<Block>>, visible: seq<map<string, Value>>)
    requires first.Ok? ==> SeesAll(first.value, visible)
    requires rest.Ok? ==> SeesAll(rest.value, visible)
    ensures Then(first, rest).Ok? ==> SeesAll(Then(first, rest).value, visible)
  {
    if first.Ok? && rest.Ok? {
      var all := first.value + rest.value;
      assert forall k :: |first.value| <= k < |all| ==> all[k] == rest.value[k - |first.value|];
    }
  }

  lemma {:induction false} ChildrenSeeVisible(ctx: Context, cs: seq<Command>, visible: seq<map<string, Value>>, failing: set<string>)
    requires SubcommandsOf(ctx.command, cs)
    ensures Children(ctx, cs, visible, failing).Ok? ==> SeesAll(Children(ctx, cs, visible, failing).value, visible)
    decreases ctx.command, 0, |cs|
  {
    if cs != [] {
      ChildInParent(ctx.command, cs[0]);
      NodesSeeVisible(Context(cs[0], cs[0].name, Some(ctx)), true, None, visible, failing);
      ChildrenSeeVisible(ctx, cs[1..], visible, failing);
    }
  }

  lemma NodesUnfold(ctx: Context, showNested: bool, commands: Option<string>,
                    visible: seq<map<string, Value>>, failing: set<string>)
    ensures var node := SummaryNode(ctx, showNested, commands, visible, failing);
      Nodes(ctx, showNested, commands, visible, failing)
      == if showNested && node.Ok? then Then(node, Children(ctx, FilterCommands(ctx.command, commands), visible, failing)) else node
  {
  }

  /** A generation fails only because a nested parse of one of its sources raised. */
  predicate ParseFailure(r: Result<seq<Block>>, failing: set<string>) {
    r.Failure? ==> r.error.NestedParseError? && r.error.source in failing
  }

  /**
    Generation fails only through a nested parse of a failing source; so with no
    failing source, it always succeeds.
   */
  lemma {:induction false} NodesFailOnlyInParse(ctx: Context, showNested: bool, commands: Option<string>,
                                                visible: seq<map<string, Value>>, failing: set<string>)
    ensures ParseFailure(Nodes(ctx, showNested, commands, visible, failing), failing)
    ensures failing == {} ==> Nodes(ctx, showNested, commands, visible, failing).Ok?
    decreases ctx.command, 1, 0
  {
    var node := SummaryNode(ctx, showNested, commands, visible, failing);
    NodesUnfold(ctx, showNested, commands, visible, failing);
    if showNested && node.Ok? {
      ChildrenFailOnlyInParse(ctx, FilterCommands(ctx.command, commands), visible, failing);
    }
  }

  lemma {:induction false} ChildrenFailOnlyInParse(ctx: Context, cs: seq<Command>, visible: seq<map<string, Value>>, failing: set<string>)
    requires SubcommandsOf(ctx.command, cs)
    ensures ParseFailure(Children(ctx, cs, visible, failing), failing)
    decreases ctx.command, 0, |cs|
  {
    if cs != [] {
      ChildInParent(ctx.command, cs[0]);
      NodesFailOnlyInParse(Context(cs[0], cs[0].name, Some(ctx)), true, None, visible, failing);
      ChildrenFailOnlyInParse(ctx, cs[1..], visible, failing);
    }
  }

  /** Every block comes from `_format_command` with `show_nested` and no `commands` list. */
  predicate Unfiltered(blocks: seq<Block>) {
    forall k :: 0 <= k < |blocks| ==>
      blocks[k].origin.CommandLines? && blocks[k].origin.showNested && blocks[k].origin.commands.None?
  }

  /**
    With `show_nested`, the `commands` list shapes only the top level: the first
    block is the command's own, and every later block, at any depth, is rendered
    without a list, so below the top all subcommands are listed, sorted.
   */
  lemma FilterOnlyAtTopLevel(ctx: Context, commands: Option<string>, visible: seq<map<string, Value>>, failing: set<string>)
    ensures var r := Nodes(ctx, true, commands, visible, failing);
      r.Ok? ==> r.value[0].origin == CommandLines(ctx, true, commands) && Unfiltered(r.value[1..])
  {
    var node := SummaryNode(ctx, true, commands, visible, failing);
    NodesUnfold(ctx, true, commands, visible, failing);
    if node.Ok? {
      var cs := FilterCommands(ctx.command, commands);
      ChildrenUnfiltered(ctx, cs, visible, failing);
      var r := Nodes(ctx, true, commands, visible, failing);
      if r.Ok? {
        assert r.value[1..] == Children(ctx, cs, visible, failing).value;
      }
    }
  }

  lemma {:induction false} NodesUnfiltered(ctx: Context, visible: seq<map<string, Value>>, failing: set<string>)
    ensures Nodes(ctx, true, None, visible, failing).Ok? ==> Unfiltered(Nodes(ctx, true, None, visible, failing).value)
    decreases ctx.command, 1, 0
  {
    var node := SummaryNode(ctx, true, None, visible, failing);
    NodesUnfold(ctx, true, None, visible, failing);
    if node.Ok? {
      var cs := FilterCommands(ctx.command, None);
      ChildrenUnfiltered(ctx, cs, visible, failing);
      UnfilteredThen(node, Children(ctx, cs, visible, failing));
    }
  }

  lemma {:induction false} ChildrenUnfiltered(ctx: Context, cs: seq<Command>, visible: seq<map<string, Value>>, failing: set<string>)
    requires SubcommandsOf(ctx.command, cs)
    ensures Children(ctx, cs, visible, failing).Ok? ==> Unfiltered(Children(ctx, cs, visible, failing).value)
    decreases ctx.command, 0, |cs|
  {
    if cs != [] {
      ChildInParent(ctx.command, cs[0]);
      var child := Context(cs[0], cs[0].name, Some(ctx));
      NodesUnfiltered(child, visible, failing);
      ChildrenUnfiltered(ctx, cs[1..], visible, failing);
      UnfilteredThen(Nodes(child, true, None, visible, failing), Children(ctx, cs[1..], visible, failing));
    }
  }

  lemma UnfilteredThen(first: Result<seq<Block>>, rest: Result<seq<Block>>)
    requires first.Ok? ==> Unfiltered(first.value)
    requires rest.Ok? ==> Unfiltered(rest.value)
    ensures Then(first, rest).Ok? ==> Unfiltered(Then(first, rest).value)
  {
    if first.Ok? && rest.Ok? {
      var all := first.value + rest.value;
      assert forall k :: |first.value| <= k < |all| ==> all[k] == rest.value[k - |first.value|];
    }
  }

  /** How many contexts enclose `ctx`. */
  function Depth(ctx: Context): nat {
    match ctx.parent
    case None => 0
    case Some(p) => 1 + Depth(p)
  }

  /** The commands of the blocks, in order, whose context is a direct child of `ctx`. */
  function DirectChildren(blocks: seq<Block>, ctx: Context): (r: seq<Command>)
    ensures |r| <= |blocks|
  {
    if blocks == [] then []
    else (if blocks[0].origin.ctx.parent == Some(ctx) then [blocks[0].origin.ctx.command] else [])
         + DirectChildren(blocks[1..], ctx)
  }

  lemma {:induction false} DirectChildrenConcat(a: seq<Block>, b: seq<Block>, ctx: Context)
    ensures DirectChildren(a + b, ctx) == DirectChildren(a, ctx) + DirectChildren(b, ctx)
  {
    if a == [] { assert a + b == b; } else { assert (a + b)[1..] == a[1..] + b; DirectChildrenConcat(a[1..], b, ctx); }
  }

  /** Blocks nested more than one level below `ctx` contain no direct child of it. */
  lemma {:induction false} DirectChildrenOfDeep(blocks: seq<Block>, ctx: Context)
    requires forall k :: 0 <= k < |blocks| ==> Depth(blocks[k].origin.ctx) > Depth(ctx) + 1
    ensures DirectChildren(blocks, ctx) == []
  {
    if blocks != [] {
      DirectChildrenOfDeep(blocks[1..], ctx);
    }
  }

  /** Every block is nested more than `d` levels deep. */
  predicate Below(blocks: seq<Block>, d: nat) {
    forall k :: 0 <= k < |blocks| ==> Depth(blocks[k].origin.ctx) > d
  }

  lemma BelowThen(first: Result<seq<Block>>, rest: Result<seq<Block>>, d: nat)
    requires first.Ok? ==> Below(first.value, d)
    requires rest.Ok? ==> Below(rest.value, d)
    ensures Then(first, rest).Ok? ==> Below(Then(first, rest).value, d)
  {
    if first.Ok? && rest.Ok? {
      var all := first.value + rest.value;
      assert forall k :: |first.value| <= k < |all| ==> all[k] == rest.value[k - |first.value|];
    }
  }

  /** Every block after the first of a generation lies below the generated command. */
  lemma {:induction false} NodesDeeper(ctx: Context, showNested: bool, commands: Option<string>,
                                       visible: seq<map<string, Value>>, failing: set<string>)
    ensures var r := Nodes(ctx, showNested, commands, visible, failing);
      r.Ok? ==> Below(r.value[1..], Depth(ctx))
    decreases ctx.command, 1, 0
  {
    var node := SummaryNode(ctx, showNested, commands, visible, failing);
    NodesUnfold(ctx, showNested, commands, visible, failing);
    if showNested && node.Ok? {
      var cs := FilterCommands(ctx.command, commands);
      ChildrenDeeper(ctx, cs, visible, failing);
      var r := Nodes(ctx, showNested, commands, visible, failing);
      if r.Ok? {
        assert r.value[1..] == Children(ctx, cs, visible, failing).value;
      }
    }
  }

  /** The blocks of a child of `ctx` all lie below `ctx`. */
  lemma ChildBelow(ctx: Context, c: Command, visible: seq<map<string, Value>>, failing: set<string>)
    requires c in Values(ctx.command.commands)
    ensures var r := Nodes(Context(c, c.name, Some(ctx)), true, None, visible, failing);
      r.Ok? ==> Below(r.value, Depth(ctx))
    decreases c, 2, 0
  {
    var child := Context(c, c.name, Some(ctx));
    NodesDeeper(child, true, None, visible, failing);
    var r := Nodes(child, true, None, visible, failing);
    if r.Ok? {
      assert forall k :: 1 <= k < |r.value| ==> r.value[k] == r.value[1..][k - 1];
    }
  }

  /** Every block generated for the subcommands of `ctx` lies below `ctx`. */
  lemma {:induction false} ChildrenDeeper(ctx: Context, cs: seq<Command>, visible: seq<map<string, Value>>, failing: set<string>)
    requires SubcommandsOf(ctx.command, cs)
    ensures var r := Children(ctx, cs, visible, failing);
      r.Ok? ==> Below(r.value, Depth(ctx))
    decreases ctx.command, 0, |cs|
  {
    if cs != [] {
      ChildInParent(ctx.command, cs[0]);
      ChildBelow(ctx, cs[0], visible, failing);
      ChildrenDeeper(ctx, cs[1..], visible, failing);
      BelowThen(Nodes(Context(cs[0], cs[0].name, Some(ctx)), true, None, visible, failing),
                Children(ctx, cs[1..], visible, failing), Depth(ctx));
    }
  }

  /** The direct children among the blocks of the subcommands `cs` of `ctx` are `cs`, in order. */
  lemma {:induction false} ChildrenDirect(ctx: Context, cs: seq<Command>, visible: seq<map<string, Value>>, failing: set<string>)
    requires SubcommandsOf(ctx.command, cs)
    ensures var r := Children(ctx, cs, visible, failing);
      r.Ok? ==> DirectChildren(r.value, ctx) == cs
    decreases |cs|
  {
    if cs != [] {
      ChildInParent(ctx.command, cs[0]);
      var child := Context(cs[0], cs[0].name, Some(ctx));
      var first, rest := Nodes(child, true, None, visible, failing), Children(ctx, cs[1..], visible, failing);
      ChildrenDirect(ctx, cs[1..], visible, failing);
      if first.Ok? && rest.Ok? {
        NodesDeeper(child, true, None, visible, failing);
        var f := first.value;
        assert Below(f[1..], Depth(ctx) + 1);
        assert f == [f[0]] + f[1..];
        DirectChildrenOfDeep(f[1..], ctx);
        DirectChildrenConcat([f[0]], f[1..], ctx);
        DirectChildrenConcat(f, rest.value, ctx);
      }
    }
  }

  /**
    With `show_nested`, the commands documented directly below the top command
    are those the `commands` list selects, in its order.
   */
  lemma TopLevelSubcommands(ctx: Context, commands: Option<string>, visible: seq<map<string, Value>>, failing: set<string>)
    ensures var r := Nodes(ctx, true, commands, visible, failing);
      r.Ok? ==> DirectChildren(r.value[1..], ctx) == FilterCommands(ctx.command, commands)
  {
    var node := SummaryNode(ctx, true, commands, visible, failing);
    NodesUnfold(ctx, true, commands, visible, failing);
    if node.Ok? {
      var cs := FilterCommands(ctx.command, commands);
      ChildrenDirect(ctx, cs, visible, failing);
      var r := Nodes(ctx, true, commands, visible, failing);
      if r.Ok? {
        assert r.value[1..] == Children(ctx, cs, visible, failing).value;
      }
    }
  }

  /** The nodes of `cs[j..]`, subcommands of `ctx`'s command. */
  function ChildrenFrom(ctx: Context, cs: seq<Command>, j: nat, visible: seq<map<string, Value>>, failing: set<string>): (r: Result<seq<Block>>)
    requires j <= |cs| && SubcommandsOf(ctx.command, cs)
    ensures j == 0 ==> r == Children(ctx, cs, visible, failing)
    ensures j == |cs| ==> r == Ok([])
  {
    assert cs[0..] == cs;
    Children(ctx, cs[j..], visible, failing)
  }

  /** One step over the suffixes of `cs`: the nodes of `cs[j]`, then the rest. */
  lemma ChildrenStep(ctx: Context, cs: seq<Command>, j: nat, visible: seq<map<string, Value>>, failing: set<string>)
    requires j < |cs| && SubcommandsOf(ctx.command, cs)
    ensures var first := Nodes(Context(cs[j], cs[j].name, Some(ctx)), true, None, visible, failing);
      ChildrenFrom(ctx, cs, j, visible, failing)
      == if first.Failure? then first else Then(first, ChildrenFrom(ctx, cs, j + 1, visible, failing))
  {
    assert cs[j..][0] == cs[j] && cs[j..][1..] == cs[j + 1..];
  }

  lemma ThenAssoc(a: seq<Block>, b: seq<Block>, rest: Result<seq<Block>>)
    ensures Then(Ok(a), Then(Ok(b), rest)) == Then(Ok(a + b), rest)
  {
    if rest.Ok? {
      assert a + (b + rest.value) == a + b + rest.value;
    }
  }

  lemma ChildrenStart(ctx: Context, cs: seq<Command>, visible: seq<map<string, Value>>, failing: set<string>)
    requires SubcommandsOf(ctx.command, cs)
    ensures Children(ctx, cs, visible, failing) == Then(Ok([]), ChildrenFrom(ctx, cs, 0, visible, failing))
  {
    var c := Children(ctx, cs, visible, failing);
    if c.Ok? { assert [] + c.value == c.value; }
  }

  /** One turn of the subcommand loop: a failing child is the result, else its blocks join the accumulated ones. */
  lemma ChildrenLoopStep(ctx: Context, cs: seq<Command>, j: nat, node: seq<Block>, child: Result<seq<Block>>,
                         visible: seq<map<string, Value>>, failing: set<string>)
    requires j < |cs| && SubcommandsOf(ctx.command, cs)
    requires Children(ctx, cs, visible, failing) == Then(Ok(node), ChildrenFrom(ctx, cs, j, visible, failing))
    requires child == Nodes(Context(cs[j], cs[j].name, Some(ctx)), true, None, visible, failing)
    ensures child.Failure? ==> Children(ctx, cs, visible, failing) == child
    ensures child.Ok? ==>
      Children(ctx, cs, visible, failing) == Then(Ok(node + child.value), ChildrenFrom(ctx, cs, j + 1, visible, failing))
  {
    ChildrenStep(ctx, cs, j, visible, failing);
    if child.Ok? {
      ThenAssoc(node, child.value, ChildrenFrom(ctx, cs, j + 1, visible, failing));
    }
  }

  lemma ChildrenEnd(ctx: Context, cs: seq<Command>, node: seq<Block>, visible: seq<map<string, Value>>, failing: set<string>)
    requires SubcommandsOf(ctx.command, cs)
    requires Children(ctx, cs, visible, failing) == Then(Ok(node), ChildrenFrom(ctx, cs, |cs|, visible, failing))
    ensures Children(ctx, cs, visible, failing) == Ok(node)
  {
    assert node + [] == node;
  }

  // ---------------------------------------------------------------------
  // ClickDirective

  /** `self.options.get(key)`. */
  function OptionValue(options: map<string, string>, key: string): (r: Option<string>)
    ensures r.Some? <==> key in options
    ensures r.Some? ==> r.value == options[key]
  {
    if key in options then Some(options[key]) else None
  }

  const MissingProgMessage := ":prog: must be specified"

  /**
    `ClickDirective.run` with `temp_data` as `tempData`: load the command, demand
    `:prog:`, then generate the nodes with the command and program name pushed
    in front of `temp_data`.
   */
  function ClickRun(imports: string -> ImportOutcome, argument: string, options: map<string, string>,
                    tempData: seq<map<string, Value>>, failing: set<string>): (r: Result<seq<Block>>)
    ensures LoadModule(imports, argument).Failure? ==> r == Failure(LoadModule(imports, argument).error)
    ensures LoadModule(imports, argument).Ok? && "prog" !in options ==> r == Failure(DirectiveError(MissingProgMessage))
    ensures r.Ok? ==> LoadModule(imports, argument).Ok? && "prog" in options
    ensures LoadModule(imports, argument).Ok? && "prog" in options ==>
      r == Nodes(Context(LoadModule(imports, argument).value, options["prog"], None), "show-nested" in options,
                 OptionValue(options, "commands"),
                 [ClickFrame(LoadModule(imports, argument).value, options["prog"])] + tempData, failing)
  {
    var loaded := LoadModule(imports, argument);
    if loaded.Failure? then Failure(loaded.error)
    else if "prog" !in options then Failure(DirectiveError(MissingProgMessage))
    else
      var prog := options["prog"];
      Nodes(Context(loaded.value, prog, None), "show-nested" in options, OptionValue(options, "commands"),
            [ClickFrame(loaded.value, prog)] + tempData, failing)
  }

  /**
    While the `click` directive generates its nodes, `click:command` and
    `click:prog` resolve to its own command and program name in every block.
   */
  lemma ClickRunExposesCommand(imports: string -> ImportOutcome, argument: string, options: map<string, string>,
                               tempData: seq<map<string, Value>>, failing: set<string>)
    requires ClickRun(imports, argument, options, tempData, failing).Ok?
    ensures forall b :: b in ClickRun(imports, argument, options, tempData, failing).value ==>
      b.command == Some(CommandValue(LoadModule(imports, argument).value)) && b.prog == Some(TextValue(options["prog"]))
  {
    var command, prog := LoadModule(imports, argument).value, options["prog"];
    var frame := ClickFrame(command, prog);
    NodesSeeVisible(Context(command, prog, None), "show-nested" in options, OptionValue(options, "commands"),
                    [frame] + tempData, failing);
    ChainGetPushed(frame, tempData, "click:command");
    ChainGetPushed(frame, tempData, "click:prog");
  }

  /**
    The `click` directive fails only when the command does not load, `:prog:` is
    missing, or a nested parse raises; with the command loaded, `:prog:` given and
    no failing source, it succeeds.
   */
  lemma ClickRunSucceeds(imports: string -> ImportOutcome, argument: string, options: map<string, string>,
                         tempData: seq<map<string, Value>>, failing: set<string>)
    ensures var r := ClickRun(imports, argument, options, tempData, failing);
      LoadModule(imports, argument).Ok? && "prog" in options ==> ParseFailure(r, failing)
    ensures LoadModule(imports, argument).Ok? && "prog" in options && failing == {} ==>
      ClickRun(imports, argument, options, tempData, failing).Ok?
  {
    if LoadModule(imports, argument).Ok? && "prog" in options {
      var command, prog := LoadModule(imports, argument).value, options["prog"];
      NodesFailOnlyInParse(Context(command, prog, None), "show-nested" in options, OptionValue(options, "commands"),
                           [ClickFrame(command, prog)] + tempData, failing);
    }
  }

  class ClickDirective {
    const env: BuildEnv
    const argument: string
    const options: map<string, string>
    /** Python's `__import__`. */
    const imports: string -> ImportOutcome
    /** The sources whose nested parse raises. */
    const failing: set<string>

    constructor(env: BuildEnv, argument: string, options: map<string, string>,
                imports: string -> ImportOutcome, failing: set<string>)
      ensures this.env == env && this.argument == argument && this.options == options
      ensures this.imports == imports && this.failing == failing
    {
      this.env := env;
      this.argument := argument;
      this.options := options;
      this.imports := imports;
      this.failing := failing;
    }

    /** The summary part of `_generate_nodes`: the command's lines, under its path, parsed. */
    method Summary(ctx: Context, showNested: bool, commands: Option<string>) returns (r: Result<seq<Block>>)
      ensures r == SummaryNode(ctx, showNested, commands, env.tempData, failing)
    {
      var source := CommandPath(ctx);
      var lines := FormatCommand(ctx, showNested, commands);
      var result := ToViewList(lines, source);
      assert result == Content(CommandLines(ctx, showNested, commands));
      r := Parse(CommandLines(ctx, showNested, commands), env.tempData, failing);
    }

    /** `_generate_nodes`: the summary of the command, then, with `show_nested`, its filtered subcommands. */
    method GenerateNodes(name: string, command: Command, parent: Option<Context>, showNested: bool, commands: Option<string>)
      returns (r: Result<seq<Block>>)
      ensures r == Nodes(Context(command, name, parent), showNested, commands, env.tempData, failing)
      decreases command, 1
    {
      var ctx := Context(command, name, parent);
      NodesUnfold(ctx, showNested, commands, env.tempData, failing);
      r := Summary(ctx, showNested, commands);
      if r.Ok? && showNested {
        var children := Subcommands(ctx, FilterCommands(ctx.command, commands));
        r := Then(r, children);
      }
    }

    /** The subcommand loop of `_generate_nodes`: each command's nodes, nested under `ctx`, appended in turn. */
    method Subcommands(ctx: Context, cs: seq<Command>) returns (r: Result<seq<Block>>)
      requires SubcommandsOf(ctx.command, cs)
      ensures r == Children(ctx, cs, env.tempData, failing)
      decreases ctx.command, 0, 1
    {
      var node: seq<Block> := [];
      ChildrenStart(ctx, cs, env.tempData, failing);
      for j := 0 to |cs|
        invariant Children(ctx, cs, env.tempData, failing) == Then(Ok(node), ChildrenFrom(ctx, cs, j, env.tempData, failing))
      {
        var child := Subcommand(ctx, cs, j, node);
        if child.Failure? {
          return child;
        }
        node := node + child.value;
      }
      ChildrenEnd(ctx, cs, node, env.tempData, failing);
      r := Ok(node);
    }

    /** One turn of the subcommand loop: the nodes of `cs[j]`, nested under `ctx`. */
    method Subcommand(ctx: Context, cs: seq<Command>, j: nat, ghost node: seq<Block>) returns (child: Result<seq<Block>>)
      requires j < |cs| && SubcommandsOf(ctx.command, cs)
      requires Children(ctx, cs, env.tempData, failing) == Then(Ok(node), ChildrenFrom(ctx, cs, j, env.tempData, failing))
      ensures child.Failure? ==> Children(ctx, cs, env.tempData, failing) == child
      ensures child.Ok? ==>
        Children(ctx, cs, env.tempData, failing) == Then(Ok(node + child.value), ChildrenFrom(ctx, cs, j + 1, env.tempData, failing))
      decreases ctx.command, 0, 0
    {
      ChildInParent(ctx.command, cs[j]);
      child := GenerateNodes(cs[j].name, cs[j], Some(ctx), true, None);
      ChildrenLoopStep(ctx, cs, j, node, child, env.tempData, failing);
    }

    /**
      `run`: the nodes of the loaded command; `temp_data` has the same frames
      afterwards whether the generation succeeded or failed.
     */
    method Run() returns (r: Result<seq<Block>>)
      requires env.Valid()
      modifies env
      ensures env.Valid() && env.tempData == old(env.tempData)
      ensures r == ClickRun(imports, argument, options, old(env.tempData), failing)
    {
      var loaded := LoadModule(imports, argument);
      if loaded.Failure? {
        return Failure(loaded.error);
      }
      if "prog" !in options {
        return Failure(DirectiveError(MissingProgMessage));
      }
      var prog := options["prog"];
      var showNested := "show-nested" in options;
      var commands := OptionValue(options, "commands");
      env.Push(ClickFrame(loaded.value, prog));
      r := GenerateNodes(prog, loaded.value, None, showNested, commands);
      env.PopParents();
      ParentsUndoPush(ClickFrame(loaded.value, prog), old(env.tempData));
    }
  }

  // ---------------------------------------------------------------------
  // ClickOptionsDirective

  const OutsideClickMessage := "The click-options directive can only be used within a `click` directive."

  /** The command in `click:command`, if any. */
  function StackedCommand(tempData: seq<map<string, Value>>): Option<Command> {
    match ChainGet(tempData, "click:command")
    case Some(CommandValue(c)) => Some(c)
    case _ => None
  }

  /** `temp_data.get('click:prog', '')`. */
  function StackedProg(tempData: seq<map<string, Value>>): (r: string)
    ensures ChainGet(tempData, "click:prog").None? ==> r == ""
  {
    match ChainGet(tempData, "click:prog")
    case Some(TextValue(p)) => p
    case _ => ""
  }

  /** `ClickOptionsDirective._generate_nodes(prog_name, command)`: the options section of the command, parsed. */
  function OptionNodes(prog: string, command: Command, visible: seq<map<string, Value>>, failing: set<string>): (r: Result<seq<Block>>)
    ensures r.Ok? ==> |r.value| == 1 && r.value[0].origin == OptionLines(Context(command, prog, None))
    ensures r.Failure? <==> LStrip(prog) in failing
    ensures r.Ok? ==> r.value[0].command == ChainGet(visible, "click:command") && r.value[0].prog == ChainGet(visible, "click:prog")
  {
    Parse(OptionLines(Context(command, prog, None)), visible, failing)
  }

  /**
    `ClickOptionsDirective.run` with `temp_data` as `tempData`: the command named
    by the argument or, without one, the enclosing `click` directive's; the
    program name from `:prog:`, else the enclosing one, else "".
   */
  function OptionsRun(imports: string -> ImportOutcome, argument: Option<string>, options: map<string, string>,
                      tempData: seq<map<string, Value>>, failing: set<string>): (r: Result<seq<Block>>)
    ensures argument.None? && StackedCommand(tempData).None? ==> r == Failure(DirectiveError(OutsideClickMessage))
    ensures argument.Some? && LoadModule(imports, argument.value).Failure? ==> r == Failure(LoadModule(imports, argument.value).error)
    ensures argument.Some? && LoadModule(imports, argument.value).Ok? ==>
      r == OptionNodes(if "prog" in options then options["prog"] else StackedProg(tempData),
                       LoadModule(imports, argument.value).value, tempData, failing)
    ensures argument.None? && StackedCommand(tempData).Some? ==>
      r == OptionNodes(if "prog" in options then options["prog"] else StackedProg(tempData),
                       StackedCommand(tempData).value, tempData, failing)
  {
    if argument.Some? && LoadModule(imports, argument.value).Failure? then Failure(LoadModule(imports, argument.value).error)
    else
      var command := if argument.Some? then Some(LoadModule(imports, argument.value).value) else StackedCommand(tempData);
      var prog := if "prog" in options then options["prog"] else StackedProg(tempData);
      if command.None? then Failure(DirectiveError(OutsideClickMessage))
      else OptionNodes(prog, command.value, tempData, failing)
  }

  /**
    Inside a `click` directive and without an argument, `click-options` documents
    the enclosing command under the enclosing program name unless `:prog:` is given.
   */
  lemma OptionsInsideClick(imports: string -> ImportOutcome, options: map<string, string>, command: Command, prog: string,
                           tempData: seq<map<string, Value>>, failing: set<string>)
    ensures OptionsRun(imports, None, options, [ClickFrame(command, prog)] + tempData, failing)
         == OptionNodes(if "prog" in options then options["prog"] else prog, command, [ClickFrame(command, prog)] + tempData, failing)
  {
    var chain := [ClickFrame(command, prog)] + tempData;
    ChainGetPushed(ClickFrame(command, prog), tempData, "click:command");
    ChainGetPushed(ClickFrame(command, prog), tempData, "click:prog");
    assert StackedCommand(chain) == Some(command);
    assert StackedProg(chain) == prog;
  }

  /** Outside any `click` directive and without an argument, `click-options` is an error. */
  lemma OptionsOutsideClick(imports: string -> ImportOutcome, options: map<string, string>,
                            tempData: seq<map<string, Value>>, failing: set<string>)
    requires forall k :: 0 <= k < |tempData| ==> "click:command" !in tempData[k]
    ensures OptionsRun(imports, None, options, tempData, failing) == Failure(DirectiveError(OutsideClickMessage))
  {
  }

  class ClickOptionsDirective {
    const env: BuildEnv
    const argument: Option<string>
    const options: map<string, string>
    const imports: string -> ImportOutcome
    const failing: set<string>

    constructor(env: BuildEnv, argument: Option<string>, options: map<string, string>,
                imports: string -> ImportOutcome, failing: set<string>)
      ensures this.env == env && this.argument == argument && this.options == options
      ensures this.imports == imports && this.failing == failing
    {
      this.env := env;
      this.argument := argument;
      this.options := options;
      this.imports := imports;
      this.failing := failing;
    }

    method GenerateNodes(prog: string, command: Command) returns (r: Result<seq<Block>>)
      ensures r == OptionNodes(prog, command, env.tempData, failing)
    {
      var ctx := Context(command, prog, None);
      var lines := FormatOptions(ctx);
      var source := CommandPath(ctx);
      var result := ToViewList(lines, source);
      assert result == Content(OptionLines(ctx));
      r := Parse(OptionLines(ctx), env.tempData, failing);
    }

    /** `run`: reads `temp_data` and leaves it alone. */
    method Run() returns (r: Result<seq<Block>>)
      requires env.Valid()
      ensures r == OptionsRun(imports, argument, options, env.tempData, failing)
    {
      var command: Option<Command>;
      if argument.Some? {
        var loaded := LoadModule(imports, argument.value);
        if loaded.Failure? {
          return Failure(loaded.error);
        }
        command := Some(loaded.value);
      } else {
        var stacked := env.Get("click:command");
        command := if stacked.Some? && stacked.value.CommandValue? then Some(stacked.value.command) else None;
      }
      var stackedProg := env.Get("click:prog");
      var prog := if "prog" in options then options["prog"]
                  else if stackedProg.Some? && stackedProg.value.TextValue? then stackedProg.value.text else "";
      if command.None? {
        return Failure(DirectiveError(OutsideClickMessage));
      }
      r := GenerateNodes(prog, command.value);
    }
  }
}
