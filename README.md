# sphinx-click, modelled in Dafny

sphinx-click is a Sphinx extension that documents a `click` command-line
program. Its `click` directive loads a command from a `module:attribute` path
and renders it as reStructuredText:

- the program line;
- the Synopsis and Description sections;
- the Options, Arguments and Environment variables sections, each only when it has content;
- a Commands list, or with `:show-nested:` the subcommands rendered one by one.

Its `click-options` directive renders only the options of a command. That command is
either named by its argument or, without one, the command of the enclosing `click`
directive, which the extension stacks in the build environment's `temp_data`.

The project models `sphinx_click/ext.py`. It has six modules:

- `Text` holds the string operations the code relies on: `strip`, `splitlines`, `split`, `join` and ordering.
- `Click` is a read-only view of click's objects: parameters, commands with their ordered `commands` dict, contexts and `command_path`. It also has `join_options`.
- `Docutils` holds `statemachine.string2lines` with the arguments the extension passes.
- `Help` holds the pure line builders of `ext.py:11-178`.
- `Render` holds `_format_command`.
- `Directives` holds the module loader, the `temp_data` ChainMap as a class, and both directives as classes. Their `run` and `_generate_nodes` are methods proved against specification functions (`ClickRun`, `Nodes`, `OptionsRun`), and the properties are proved about those functions.

The renderer is pure and is modelled by functions. The directives change the
build environment and append to lists in loops, so they are modelled by methods.

The recursive call in `_generate_nodes` (`ext.py:348`) passes no `commands`.
So with `:show-nested:` the `:commands:` list selects only the top level's
subcommands, and every deeper level lists all its subcommands, sorted by name.
The model follows the code here (`Directives.FilterOnlyAtTopLevel`,
`Directives.TopLevelSubcommands`).

## Model

| member | source | states |
|---|---|---|
| Help.IndentLines | sphinx_click/ext.py:11-18 | `_indent` keeps the number of lines; a blank line comes back unchanged and every other line gains exactly 4*level spaces in front |
| Help.IndentSingleLine | sphinx_click/ext.py:11-18 | on one line without a line break, `_indent` gives the line itself when it is blank, else 4*level spaces and the line |
| Help.IndentHead | sphinx_click/ext.py:11-18 | indenting empty text gives empty text; indented text starts with a space or the text's own first character |
| Help.IndentedLines | sphinx_click/ext.py:96-98 | each line of `string2lines(help)` is indented by four spaces, and an empty line stays empty |
| Help.FormatUsage | sphinx_click/ext.py:81-86 | the usage lines sit between a leading and a trailing blank line and contain no line break; a usage string without a line break is the one line between them |
| Help.UsageLine | sphinx_click/ext.py:21-24 | when the command path and the usage pieces have no line break, the synopsis is exactly "", then the path in bold, a space and the pieces joined by spaces, then "" |
| Help.JoinNoLineBreak | sphinx_click/ext.py:24 | pieces without a line break, joined by spaces, have no line break |
| Help.WriteOpts | sphinx_click/ext.py:38-42 | the joined spellings, followed by " " and the metavar exactly when the option is neither a flag nor a counter |
| Help.OptionLabel | sphinx_click/ext.py:44-46 | the primary part alone without secondary opts; otherwise the primary part, ", ", then the secondary part |
| Help.Extras | sphinx_click/ext.py:49-56 | exactly one extra per condition that holds; "default: X" present iff a default exists and is shown (first, rendered with `DefaultText`); "required" present iff the option is required (last) |
| Help.HelpAnnotation | sphinx_click/ext.py:48-60 | in each of the four cases the help text is the help unchanged, or help plus two spaces (when help is non-empty) followed by `[required]`, `[default: X]` or `[default: X; required]` |
| Help.ListDefaultAnnotation | sphinx_click/ext.py:50-54 | a shown list default ["1", "2"] on an optional option without help reads `[default: 1, 2]` |
| Help.DropMarkersMembers | sphinx_click/ext.py:73-77 | every kept line is an input line that is not a "\b" marker, and every input line that is not a marker is kept |
| Help.DropMarkersConcat | sphinx_click/ext.py:73-77 | the filter works line by line: the kept lines of two parts are the kept lines of each, in order |
| Help.DropMarkersSingle | sphinx_click/ext.py:75-77 | a single line is dropped exactly when its stripped form is "\b" |
| Help.FormatDescription | sphinx_click/ext.py:63-78 | empty iff the command has neither help nor short help; otherwise exactly the lines of `string2lines` of the help string (help preferred over short help) without the "\b" markers, followed by one blank line |
| Help.FormatOption | sphinx_click/ext.py:89-98 | the first line is `.. option::` with the label; with help text, a blank line follows and then each help line indented by four spaces; without help text, that one line only |
| Help.ShownOptionsMembers | sphinx_click/ext.py:104-107 | every documented param is a param of the command that is a non-hidden option, and every such param is documented |
| Help.ShownOptionsEmpty | sphinx_click/ext.py:104-107 | no param is documented iff no param is a non-hidden option |
| Help.ShownOptionsConcat | sphinx_click/ext.py:104-107 | the comprehension keeps declared order and repetitions: the options shown from two parts are those of each, in order |
| Help.ShownOptionsSingle | sphinx_click/ext.py:104-107 | one param is kept exactly when it is an option that is not hidden |
| Help.OptionBlocks | sphinx_click/ext.py:109-112 | the option blocks are empty iff there are no options to document |
| Help.OptionBlocksConcat | sphinx_click/ext.py:109-112 | the lines for two runs of options are the lines of each, in order |
| Help.OptionBlocksSingle | sphinx_click/ext.py:109-112 | one option gives its `_format_option` lines followed by one blank line |
| Help.FormatOptions | sphinx_click/ext.py:101-112 | empty iff the command has no option that is not hidden |
| Help.FormatArgument | sphinx_click/ext.py:115-121 | exactly three lines: `.. option:: <name>`, "", and four spaces then Required/Optional (by `required`) " argument", with "(s)" iff nargs != 1 |
| Help.IndentSummary | sphinx_click/ext.py:119-121 | indenting the argument summary adds exactly four spaces |
| Help.ArgumentsOfMembers | sphinx_click/ext.py:126 | every documented param is an argument of the command, and every argument of the command is documented |
| Help.ArgumentsOfEmpty | sphinx_click/ext.py:126 | no param is documented iff the command has no argument |
| Help.ArgumentsOfConcat | sphinx_click/ext.py:126 | the arguments of two parts are those of each, in declared order |
| Help.ArgumentsOfSingle | sphinx_click/ext.py:126 | one param is kept exactly when it is an argument |
| Help.ArgumentBlocks | sphinx_click/ext.py:128-131 | four lines per argument |
| Help.ArgumentBlocksConcat | sphinx_click/ext.py:128-131 | the lines for two runs of arguments are the lines of each, in order |
| Help.ArgumentBlocksSingle | sphinx_click/ext.py:128-131 | one argument gives its `_format_argument` lines followed by one blank line |
| Help.FormatArguments | sphinx_click/ext.py:124-131 | empty iff the command has no argument |
| Help.FormatEnvvar | sphinx_click/ext.py:134-145 | three lines: `.. envvar:: <envvar>`, "", and the indented cross-reference; an option is referred to by its first declared spelling, an argument by its display name |
| Help.IndentReference | sphinx_click/ext.py:145 | indenting the cross-reference line adds exactly four spaces when the name has no line break |
| Help.WithEnvvarMembers | sphinx_click/ext.py:150 | every documented param is a param of the command with an envvar, and every param with one is documented |
| Help.WithEnvvarEmpty | sphinx_click/ext.py:150 | no param is documented iff no param has an envvar |
| Help.WithEnvvarConcat | sphinx_click/ext.py:150 | the params with an envvar from two parts are those of each, in declared order |
| Help.WithEnvvarSingle | sphinx_click/ext.py:150 | one param is kept exactly when its envvar is set |
| Help.EnvvarBlocks | sphinx_click/ext.py:152-155 | four lines per parameter with an envvar |
| Help.EnvvarBlocksConcat | sphinx_click/ext.py:152-155 | the lines for two runs of params are the lines of each, in order |
| Help.EnvvarBlocksSingle | sphinx_click/ext.py:152-155 | one param gives its `_format_envvar` lines followed by one blank line |
| Help.FormatEnvvars | sphinx_click/ext.py:148-155 | empty iff no parameter has an envvar |
| Help.FormatSubcommand | sphinx_click/ext.py:158-166 | the first line is `.. object:: <name>`; with short help, a blank line follows and then each short-help line indented by four spaces; otherwise that one line only |
| Help.InsertByName | sphinx_click/ext.py:172-174 | inserting into a name-sorted list keeps it sorted and adds exactly that command |
| Help.SortByName | sphinx_click/ext.py:172-174 | the result is sorted by name, is a permutation of the input, and is stable: for every name, the commands of that name appear in their input order |
| Help.InsertKeepsOrder | sphinx_click/ext.py:172-174 | inserting a command into a name-sorted list places it before the commands of the same name already there and moves no other command of that name |
| Help.EqualNamesKeepOrder | sphinx_click/ext.py:172-174 | two commands of the same name, for instance one added under two keys, come out in the order they went in |
| Help.Selected | sphinx_click/ext.py:178 | one command per listed name that is a key, each a value of the mapping |
| Help.SelectedInListedOrder | sphinx_click/ext.py:176-178 | the i-th listed name, when it is a key, yields its command at the position that counts the known names before it: listed order, unknown names dropped |
| Help.ListedNames | sphinx_click/ext.py:176 | one name per comma-separated piece, each piece stripped |
| Help.FilterCommands | sphinx_click/ext.py:169-178 | every result is a value of the mapping; without a list, all values sorted by name, a permutation, with commands of equal name in insertion order; with a list, the selection in listed order |
| Help.UnlistedSortedExample | sphinx_click/ext.py:171-174 | subcommands added as b, a come out as a, b |
| Help.ListedOrderExample | sphinx_click/ext.py:176-178 | the list "c, x, a" over a, b, c gives c, a: listed order, unknown "x" dropped |
| Click.OrderedOpts | sphinx_click/ext.py:39 | `join_options` lists the same spellings (a permutation), ordered by prefix length (none, one, then two characters), and keeps the declared order among spellings of the same prefix length (a stable sort) |
| Click.WithPrefixLenTwice | sphinx_click/ext.py:39 | picking the spellings of one prefix length twice picks them once, and two different lengths pick nothing in common |
| Click.Lookup | sphinx_click/ext.py:178 | `lookup[name]` is the command of the first entry stored under that key, a value of the mapping |
| Click.Values | sphinx_click/ext.py:173 | `.values()` gives the commands of the dict in insertion order |
| Click.Param.Opts | sphinx_click/ext.py:143 | an option's opts list is non-empty and starts with its first declared spelling |
| Docutils.StringToLines | sphinx_click/ext.py:73-74 | one line per line of the text, none containing a line break, none ending in whitespace |
| Docutils.BlankLineIsEmpty | sphinx_click/ext.py:96-98 | a line from `string2lines` is blank exactly when it is empty |
| Text.SplitLinesKeepEndsConcat | sphinx_click/ext.py:15 | the pieces of `splitlines(True)` concatenate back to the text, which `_indent` relies on |
| Text.LexLeTotal | sphinx_click/ext.py:172-174 | any two names are comparable, as `sorted` needs |
| Text.LexLeTransitive | sphinx_click/ext.py:172-174 | name order is transitive |
| Render.Heading | sphinx_click/ext.py:188-190 | a heading is the title, an underline of '-' exactly as long as the title, and a blank line |
| Render.FixedHeadings | sphinx_click/ext.py:188-198 | the Synopsis and Description headings, written out |
| Render.SubcommandBlocks | sphinx_click/ext.py:251-254 | the subcommand blocks are empty iff there is no subcommand |
| Render.SubcommandBlocksConcat | sphinx_click/ext.py:251-254 | the lines for two runs of subcommands are the lines of each, in order |
| Render.SubcommandBlocksSingle | sphinx_click/ext.py:251-254 | one subcommand gives its `_format_subcommand` lines followed by one blank line |
| Render.SectionsOnlyWhenNonEmpty | sphinx_click/ext.py:207-238 | a section is empty iff its lines are; otherwise it starts with its heading followed by the lines |
| Render.BareCommand | sphinx_click/ext.py:181-238 | a command without shown options, arguments or envvars, rendered nested, is the program line, Synopsis and Description only |
| Render.NestedLeavesOutCommands | sphinx_click/ext.py:240-254 | with `show_nested` there is no Commands section; without it the output is the nested output followed by the Commands section |
| Render.NestedIgnoresSubcommands | sphinx_click/ext.py:240-242 | with `show_nested` the output depends on neither the subcommands nor the `commands` list |
| Directives.LoadModule | sphinx_click/ext.py:264-294 | fails with the "is not of format" message iff the path has no ':'; a success returns the attribute named after the first ':' in the module named before it, and such an attribute always gives a success |
| Directives.LoadModuleFound | sphinx_click/ext.py:290-294 | an imported module with the attribute gives that attribute, later ':' belonging to the attribute name |
| Directives.LoadModuleMissingAttribute | sphinx_click/ext.py:290-292 | an imported module without the attribute gives the "has no attribute" error |
| Directives.LoadModuleImportFails | sphinx_click/ext.py:277-288 | a module whose import raises or exits gives the "Failed to import" error with the sys.exit or traceback text |
| Directives.PathSplitUnique | sphinx_click/ext.py:272 | a path splits at its first ':' in only one way |
| Directives.ChainGet | sphinx_click/ext.py:407 | `ChainMap.get` finds nothing iff no map has the key; otherwise returns the value of the first map that has it |
| Directives.ChainGetPushed | sphinx_click/ext.py:365-369 | a pushed frame answers its own keys, and the earlier chain answers every other key |
| Directives.ParentsUndoPush | sphinx_click/ext.py:375 | `parents` of a pushed chain is the chain before the push, with every lookup the same |
| Directives.ClickFrame | sphinx_click/ext.py:366-367 | the pushed frame maps `click:command` to a command and `click:prog` to text |
| Directives.BuildEnv.Get | sphinx_click/ext.py:407 | `temp_data.get` is the chain lookup; in a valid environment `click:command` holds a command and `click:prog` text |
| Directives.BuildEnv.Push | sphinx_click/ext.py:365-369 | the frame is put in front of the chain, which stays valid |
| Directives.BuildEnv.PopParents | sphinx_click/ext.py:375 | the chain becomes its parents and stays valid |
| Directives.ViewListOf | sphinx_click/ext.py:338-339 | one entry per line, in order, each under the command path |
| Directives.ToViewList | sphinx_click/ext.py:334-339 | the append loop builds the same list as `ViewListOf` |
| Directives.Then | sphinx_click/ext.py:347-349 | a success iff both parts succeed, with the blocks concatenated; otherwise the first failure |
| Directives.Nodes | sphinx_click/ext.py:310-351 | on success the first block is the command's own; a failing command path fails with its source; without `show_nested`, exactly one block |
| Directives.NodesSeeVisible | sphinx_click/ext.py:310-351 | every block of a successful generation sees the same `click:command` and `click:prog` |
| Directives.NodesFailOnlyInParse | sphinx_click/ext.py:310-351 | a generation fails only with the error of a nested parse of a failing source; with no failing source it succeeds |
| Directives.ChildrenFailOnlyInParse | sphinx_click/ext.py:344-349 | generating the subcommands fails only with the error of a nested parse of a failing source |
| Directives.FilterOnlyAtTopLevel | sphinx_click/ext.py:344-349 | with `show_nested`, the first block is the command's own, rendered with the `commands` list; every later block, at any depth, is rendered nested and without a list |
| Directives.TopLevelSubcommands | sphinx_click/ext.py:344-349 | with `show_nested`, the commands documented directly below the top command are exactly `_filter_commands(ctx, commands)`, in that order |
| Directives.ChildrenDirect | sphinx_click/ext.py:346-349 | the blocks generated for a list of subcommands contain, as direct children of the parent, exactly those subcommands in list order |
| Directives.ChildrenDeeper | sphinx_click/ext.py:346-349 | every block generated for the subcommands lies below the parent's context |
| Directives.ChildrenUnfiltered | sphinx_click/ext.py:346-349 | the blocks of nested subcommands are all rendered without a list |
| Directives.OptionValue | sphinx_click/ext.py:361-363 | `options.get(key)`: present iff the key was given, then its value |
| Directives.ClickRun | sphinx_click/ext.py:353-375 | a load failure is the result; a loaded command without `:prog:` fails with ":prog: must be specified"; otherwise the result is the generation for the loaded command under `:prog:`, with `show_nested` and `commands` from the options and the command frame pushed on `temp_data` |
| Directives.ClickRunExposesCommand | sphinx_click/ext.py:365-373 | while the directive renders, every block sees its own command in `click:command` and its program name in `click:prog` |
| Directives.ClickRunSucceeds | sphinx_click/ext.py:353-375 | with the command loaded and `:prog:` given, the directive fails only with a nested parse error of a failing source, and with none it succeeds |
| Directives.ClickDirective.Summary | sphinx_click/ext.py:328-341 | the `ViewList` it builds is the command's lines under its path, and its parse is the command's summary block |
| Directives.ClickDirective.GenerateNodes | sphinx_click/ext.py:310-351 | equals `Nodes` of the command's context |
| Directives.ClickDirective.Subcommands | sphinx_click/ext.py:344-349 | the loop over subcommands gives `Children`, stopping at the first failure |
| Directives.ClickDirective.Run | sphinx_click/ext.py:353-375 | the result is `ClickRun` on the environment as it was; afterwards `temp_data` has the same frames as before, on success and on failure |
| Directives.OptionNodes | sphinx_click/ext.py:386-399 | fails iff its source, the program name, raises; a success is one block made from the options of the command under that program name, seeing `click:command` and `click:prog` of the environment |
| Directives.OptionsRun | sphinx_click/ext.py:401-420 | without an argument and without a stacked command, the "can only be used within a `click` directive" error; with an argument that fails to load, that error; otherwise the options of the loaded or the stacked command, under `:prog:`, else the stacked `click:prog`, else "" |
| Directives.OptionsInsideClick | sphinx_click/ext.py:403-412 | inside a `click` directive and without an argument, the enclosing command is documented under `:prog:` if given, else under the enclosing program name |
| Directives.OptionsOutsideClick | sphinx_click/ext.py:414-418 | with no stacked command and no argument, the directive fails with its error message |
| Directives.ClickOptionsDirective.GenerateNodes | sphinx_click/ext.py:386-399 | equals `OptionNodes` |
| Directives.ClickOptionsDirective.Run | sphinx_click/ext.py:401-420 | equals `OptionsRun` on the current environment, which it does not change |

## Left out

- `__import__` is a parameter `imports` that maps a module name to its attributes, a raised exception with its traceback text, or `sys.exit()`. The `str(module_path)` conversion is left out.
- Directives.LoadModule: an attribute that is not a click command, or is `None`, is left out. The loaded value is always a command.
- docutils' `nested_parse_with_titles` and the node tree are not modelled. A parsed `ViewList` is a `Block` that records where its lines came from and what `click:command` and `click:prog` resolve to while it is parsed. A set of failing source names stands for parses that raise. Directives nested in the generated text are not run.
- click's `make_metavar`, `collect_usage_pieces` and `human_readable_name` are fields of the parameter and command values. `command_path` follows click 7: the parent's path, a space, the invocation name, left-stripped. Click's own code is not part of this model.
- Help.FormatEnvvar: click also accepts a list of environment variable names for a parameter, and `'.. envvar:: {}'.format(param.envvar)` then writes the list's Python repr, such as `['A', 'B']`. `Click.Param`'s `envvar` is a single string, so the list form and its repr rendering are not modelled.
- `%s` rendering of a default value: a default is already text, or a list of texts joined with ", ".
- `Click.IsAlnum`: `str.isalnum` is restricted to ASCII letters and digits.
- Directives.BuildEnv.Get: `temp_data` values other than a command under `click:command` and text under `click:prog` are excluded by `Valid`. A plain-dict `temp_data` is a chain of one map.
- `self.env` and `self.state` are not looked up through the document settings. The directive receives the environment directly.
- `ClickOptionsDirective`'s error message uses the name the directive is registered under, `click-options`.
- `setup` (`ext.py:423-425`), which registers the two directives with Sphinx, is left out.
- Commands form a tree: `Command` is an inductive datatype, so a group that contains itself or one of its ancestors cannot be represented. Termination of `Nodes` rests on this; the Python code would recurse without end on such a cycle.
- The `commands` dict of a command is a sequence of entries whose keys are not required to be distinct. `Click.Lookup` returns the first entry under a key; in a Python dict the keys are distinct, so there it is the only one.
- A plain command has an empty `commands` dict, which matches the `getattr(..., {})` default; its Commands list is empty.
