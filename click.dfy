/**
  The read-only view of click's command objects that the extension consumes:
  parameters (options and arguments), commands with their ordered subcommand
  mapping, and the invocation context that yields a command path.
 */
module Click {
  import opened Text

  /** An option's default value as `%s` renders it: a single value, or the items of a list or tuple. */
  datatype Default = Scalar(text: string) | Items(items: seq<string>)

  /**
    A click parameter. `Opt` is a `click.Option`, whose declared spellings are
    `firstOpt` followed by `moreOpts` (click refuses an option without one);
    `Arg` is a `click.Argument`. An empty `help` or `envvar` stands for `None`.
    `metavar` is what `make_metavar()` returns and `humanReadableName` what
    `human_readable_name` returns.
   */
  datatype Param =
    | Opt(firstOpt: string, moreOpts: seq<string>, secondaryOpts: seq<string>, metavar: string,
          isFlag: bool, count: bool, help: string, richHelp: Option<string>,
          defaultValue: Option<Default>, showDefault: bool, required: bool, hidden: bool,
          envvar: string)
    | Arg(humanReadableName: string, required: bool, nargs: int, envvar: string)
  {
    /** The option's `opts` list. */
    function Opts(): (r: seq<string>)
      requires Opt?
      ensures r != [] && r[0] == firstOpt
    {
      [firstOpt] + moreOpts
    }
  }

  /**
    A click command or group. An empty `help` or `shortHelp` stands for `None`;
    `usagePieces` is what `collect_usage_pieces` returns; `commands` is the
    group's `commands` dict in insertion order (empty for a plain command).
   */
  datatype Command = Command(name: string, help: string, shortHelp: string,
                             usagePieces: seq<string>, params: seq<Param>, commands: seq<Entry>)

  /** One key/value pair of a group's `commands` dict. */
  datatype Entry = Entry(key: string, command: Command)

  /** A `click.Context`: the command, the name it was invoked under, and the parent context. */
  datatype Context = Context(command: Command, infoName: string, parent: Option<Context>)

  /** `ctx.command_path` as click 7 computes it: the parent's path, a space, the invocation name. */
  function CommandPath(ctx: Context): string
  {
    match ctx.parent
    case None => LStrip(ctx.infoName)
    case Some(p) => LStrip(CommandPath(p) + " " + ctx.infoName)
  }

  /** `d.values()` of a `commands` dict. */
  function Values(es: seq<Entry>): (r: seq<Command>)
    ensures |r| == |es|
    ensures forall k :: 0 <= k < |es| ==> r[k] == es[k].command
  {
    if es == [] then [] else [es[0].command] + Values(es[1..])
  }

  /** `key in d` for a `commands` dict. */
  predicate HasKey(es: seq<Entry>, key: string) {
    exists k :: 0 <= k < |es| && es[k].key == key
  }

  /** `d[key]` for a `commands` dict: the command of the first entry stored under `key`. */
  function Lookup(es: seq<Entry>, key: string): (c: Command)
    requires HasKey(es, key)
    ensures exists k :: (0 <= k < |es| && es[k].key == key && es[k].command == c &&
                         forall j :: 0 <= j < k ==> es[j].key != key)
    ensures c in Values(es)
  {
    if es[0].key == key then es[0].command
    else
      assert HasKey(es[1..], key) by {
        var k :| 0 <= k < |es| && es[k].key == key;
        assert es[1..][k - 1] == es[k];
      }
      var c := Lookup(es[1..], key);
      assert Values(es[1..]) == Values(es)[1..];
      c
  }

  // ---------------------------------------------------------------------
  // click.formatting.join_options

  predicate IsAlnum(c: char) {
    ('a' <= c <= 'z') || ('A' <= c <= 'Z') || ('0' <= c <= '9')
  }

  /** Length of the prefix click's `split_opt` finds: none for `foo`, one for `-f`, two for `--foo`. */
  function PrefixLen(opt: string): (n: nat)
    ensures n <= 2
  {
    if opt == [] then 0
    else if IsAlnum(opt[0]) then 0
    else if |opt| >= 2 && opt[1] == opt[0] then 2
    else 1
  }

  /** The spellings in `opts` whose prefix has length `n`, in declared order. */
  function WithPrefixLen(opts: seq<string>, n: nat): (r: seq<string>)
    ensures forall k :: 0 <= k < |r| ==> PrefixLen(r[k]) == n
  {
    if opts == [] then []
    else (if PrefixLen(opts[0]) == n then [opts[0]] else []) + WithPrefixLen(opts[1..], n)
  }

  /**
    The spellings of `opts` in the order `join_options` lists them: stably sorted
    by prefix length, so spellings with the same prefix length keep their
    declared order.
   */
  function OrderedOpts(opts: seq<string>): (r: seq<string>)
    ensures multiset(r) == multiset(opts)
    ensures forall i, j :: 0 <= i < j < |r| ==> PrefixLen(r[i]) <= PrefixLen(r[j])
    ensures forall n :: WithPrefixLen(r, n) == WithPrefixLen(opts, n)
  {
    PartitionByPrefixLen(opts);
    PartsSorted(WithPrefixLen(opts, 0), WithPrefixLen(opts, 1), WithPrefixLen(opts, 2));
    var r := WithPrefixLen(opts, 0) + WithPrefixLen(opts, 1) + WithPrefixLen(opts, 2);
    forall n ensures WithPrefixLen(r, n) == WithPrefixLen(opts, n) {
      PartsKeepOrder(opts, n);
    }
    r
  }

  /** Spellings with prefix lengths none, one and two, in that order, are sorted by prefix length. */
  lemma PartsSorted(z: seq<string>, o: seq<string>, t: seq<string>)
    requires forall k :: 0 <= k < |z| ==> PrefixLen(z[k]) == 0
    requires forall k :: 0 <= k < |o| ==> PrefixLen(o[k]) == 1
    requires forall k :: 0 <= k < |t| ==> PrefixLen(t[k]) == 2
    ensures forall i, j :: 0 <= i < j < |z + o + t| ==> PrefixLen((z + o + t)[i]) <= PrefixLen((z + o + t)[j])
  {
    var r := z + o + t;
    assert forall i :: 0 <= i < |r| ==>
      PrefixLen(r[i]) == if i < |z| then 0 else if i < |z| + |o| then 1 else 2;
  }

  /** Each prefix length's spellings come out of the three parts as they were declared. */
  lemma PartsKeepOrder(opts: seq<string>, n: nat)
    ensures WithPrefixLen(WithPrefixLen(opts, 0) + WithPrefixLen(opts, 1) + WithPrefixLen(opts, 2), n)
         == WithPrefixLen(opts, n)
  {
    var z, o, t := WithPrefixLen(opts, 0), WithPrefixLen(opts, 1), WithPrefixLen(opts, 2);
    WithPrefixLenConcat(z + o, t, n);
    WithPrefixLenConcat(z, o, n);
    WithPrefixLenTwice(opts, 0, n);
    WithPrefixLenTwice(opts, 1, n);
    WithPrefixLenTwice(opts, 2, n);
    if n > 2 {
      var w := WithPrefixLen(opts, n);
      assert w != [] ==> PrefixLen(w[0]) == n;
    }
  }

  /** Selecting by prefix length distributes over concatenation. */
  lemma {:induction false} WithPrefixLenConcat(a: seq<string>, b: seq<string>, n: nat)
    ensures WithPrefixLen(a + b, n) == WithPrefixLen(a, n) + WithPrefixLen(b, n)
  {
    if a != [] {
      assert (a + b)[1..] == a[1..] + b;
      WithPrefixLenConcat(a[1..], b, n);
    } else {
      assert a + b == b;
    }
  }

  /** Selecting twice by prefix length keeps the first selection or nothing. */
  lemma {:induction false} WithPrefixLenTwice(opts: seq<string>, m: nat, n: nat)
    ensures WithPrefixLen(WithPrefixLen(opts, m), n) == if m == n then WithPrefixLen(opts, n) else []
  {
    if opts != [] {
      var head := if PrefixLen(opts[0]) == m then [opts[0]] else [];
      WithPrefixLenConcat(head, WithPrefixLen(opts[1..], m), n);
      WithPrefixLenTwice(opts[1..], m, n);
      if head != [] {
        assert head[1..] == [];
      }
    }
  }

  lemma {:induction false} PartitionByPrefixLen(opts: seq<string>)
    ensures multiset(opts) ==
      multiset(WithPrefixLen(opts, 0)) + multiset(WithPrefixLen(opts, 1)) + multiset(WithPrefixLen(opts, 2))
  {
    if opts != [] {
      var x, rest := opts[0], opts[1..];
      PartitionByPrefixLen(rest);
      assert opts == [x] + rest;
      WithPrefixLenCons(x, rest, 0);
      WithPrefixLenCons(x, rest, 1);
      WithPrefixLenCons(x, rest, 2);
      AddToPart(x, PrefixLen(x), multiset(WithPrefixLen(rest, 0)), multiset(WithPrefixLen(rest, 1)),
                multiset(WithPrefixLen(rest, 2)));
    }
  }

  lemma WithPrefixLenCons(x: string, rest: seq<string>, n: nat)
    ensures multiset(WithPrefixLen([x] + rest, n))
         == (if PrefixLen(x) == n then multiset{x} else multiset{}) + multiset(WithPrefixLen(rest, n))
  {
    assert ([x] + rest)[1..] == rest;
  }

  /** Adding `x` to the part numbered `n` of a three-way partition adds it to the whole. */
  lemma AddToPart(x: string, n: nat, z: multiset<string>, o: multiset<string>, t: multiset<string>)
    requires n <= 2
    ensures multiset{x} + (z + o + t)
         == ((if n == 0 then multiset{x} else multiset{}) + z)
          + ((if n == 1 then multiset{x} else multiset{}) + o)
          + ((if n == 2 then multiset{x} else multiset{}) + t)
  {
  }

  /** The label `join_options(opts)` returns: the spellings, reordered, joined with ", ". */
  function JoinOptions(opts: seq<string>): string {
    Join(", ", OrderedOpts(opts))
  }
}
