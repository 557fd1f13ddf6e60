/** What the shim makes of any argument list (sandbox/docker_shim.py): the words it
    reads as options, the word it stops at, and the error it stops with. */
module DockerWords {
  import opened Prelude
  import opened Text
  import opened DockerArgv

  /** An option as it is given: with a value, or the one switch. */
  datatype Given = Valued(o: Opt, v: string) | Switch

  function Spelled(g: Given): seq<string> {
    match g
    case Valued(o, v) => [Flag(o), v]
    case Switch => [Flag(ReadOnly)]
  }

  function Render(gs: seq<Given>): seq<string> {
    if gs == [] then [] else Render(gs[..|gs| - 1]) + Spelled(gs[|gs| - 1])
  }

  /** The value suits its option. */
  predicate Takes(g: Given) {
    g.Valued? ==>
      match g.o
      case ReadOnly => false
      case PidsLimit => ParseInt(g.v).Some?
      case Memory => ParseInt(g.v).Some?
      case Cpus => ParseCpus(g.v).Some?
      case _ => true
  }

  predicate AllTake(gs: seq<Given>) { forall i :: 0 <= i < |gs| ==> Takes(gs[i]) }

  function Applied(opts: Options, g: Given): Options
    requires Takes(g)
  {
    match g
    case Valued(o, v) => SetOption(opts, o, v).value
    case Switch => opts.(readOnly := true)
  }

  function ApplyAll(gs: seq<Given>): Options
    requires AllTake(gs)
  {
    if gs == [] then NO_OPTIONS else Applied(ApplyAll(gs[..|gs| - 1]), gs[|gs| - 1])
  }

  /** Where reading stops: at the end, at a word that is no flag, or at a flag
      without a value or with one that does not suit it. */
  predicate Stops(rest: seq<string>) {
    rest != [] && Classify(rest[0]).Some? ==>
      Classify(rest[0]) != Some(ReadOnly) && (|rest| == 1 || !Takes(Valued(Classify(rest[0]).value, rest[1])))
  }

  /** And with what. */
  function Ending(gs: seq<Given>, rest: seq<string>): Result<(Options, string, seq<string>), Error>
    requires AllTake(gs)
  {
    if rest == [] then Err(NoImage)
    else if Classify(rest[0]).None? then
      if Dashed(rest[0]) then Err(Unsupported(rest[0])) else Ok((ApplyAll(gs), rest[0], rest[1..]))
    else if |rest| == 1 then Err(MissingValue)
    else Err(ValueError)
  }

  lemma ReadOne(opts: Options, g: Given, rest: seq<string>)
    requires Takes(g)
    ensures ParseOptions(Spelled(g) + rest, opts) == ParseOptions(rest, Applied(opts, g))
  {
    var args := Spelled(g) + rest;
    match g {
      case Valued(o, v) =>
        ClassifyFlag(o);
        assert args[0] == Flag(o) && args[1] == v && args[2..] == rest;
      case Switch =>
        ClassifyFlag(ReadOnly);
        assert args[0] == Flag(ReadOnly) && args[1..] == rest;
    }
  }

  lemma {:induction false} RenderedParses(gs: seq<Given>, rest: seq<string>)
    requires AllTake(gs)
    ensures ParseOptions(Render(gs) + rest, NO_OPTIONS) == ParseOptions(rest, ApplyAll(gs))
  {
    if gs == [] {
      assert [] + rest == rest;
    } else {
      var n := |gs| - 1;
      RenderedParses(gs[..n], Spelled(gs[n]) + rest);
      ReadOne(ApplyAll(gs[..n]), gs[n], rest);
      assert Render(gs) + rest == Render(gs[..n]) + (Spelled(gs[n]) + rest);
    }
  }

  lemma {:induction false} RenderCons(g: Given, gs: seq<Given>)
    ensures Render([g] + gs) == Spelled(g) + Render(gs)
  {
    if gs == [] {
      assert [g] + gs == [g] && [g][..0] == [];
      assert [] + Spelled(g) == Spelled(g) + [];
    } else {
      var n := |gs| - 1;
      var front, last := Render(gs[..n]), Spelled(gs[n]);
      RenderCons(g, gs[..n]);
      assert ([g] + gs)[..n + 1] == [g] + gs[..n];
      assert (Spelled(g) + front) + last == Spelled(g) + (front + last);
    }
  }

  /** Every argument list is options and a rest at which reading stops. */
  lemma {:induction false} ReadUpTo(args: seq<string>) returns (gs: seq<Given>, rest: seq<string>)
    ensures args == Render(gs) + rest && AllTake(gs) && Stops(rest)
    decreases |args|
  {
    if Stops(args) {
      gs, rest := [], args;
    } else {
      var g := FirstGiven(args);
      var n := |Spelled(g)|;
      var more;
      more, rest := ReadUpTo(args[n..]);
      RenderCons(g, more);
      gs := [g] + more;
      Reassociate(Spelled(g), Render(more), rest);
    }
  }

  lemma Reassociate(a: seq<string>, b: seq<string>, c: seq<string>)
    ensures a + (b + c) == (a + b) + c
  {
  }

  lemma FirstGiven(args: seq<string>) returns (g: Given)
    requires !Stops(args)
    ensures Takes(g) && Spelled(g) <= args && args == Spelled(g) + args[|Spelled(g)|..]
  {
    var o := Classify(args[0]).value;
    ClassifyIsFlag(args[0]);
    g := if o == ReadOnly then Switch else Valued(o, args[1]);
  }

  lemma StopsWithEnding(gs: seq<Given>, rest: seq<string>)
    requires AllTake(gs) && Stops(rest)
    ensures ParseOptions(rest, ApplyAll(gs)) == Ending(gs, rest)
  {
  }

  /** What the parser says of any argument list: however it is read as options and
      a rest, and it can be read so, the rest decides. */
  lemma OptionsExactly(args: seq<string>)
    ensures exists gs, rest :: Reads(args, gs, rest)
    ensures forall gs, rest :: Reads(args, gs, rest) ==> ParseOptions(args, NO_OPTIONS) == Ending(gs, rest)
  {
    var gs, rest := ReadUpTo(args);
    assert Reads(args, gs, rest);
    forall gs, rest | Reads(args, gs, rest) ensures ParseOptions(args, NO_OPTIONS) == Ending(gs, rest) {
      RenderedParses(gs, rest);
      StopsWithEnding(gs, rest);
    }
  }

  ghost predicate Reads(args: seq<string>, gs: seq<Given>, rest: seq<string>) {
    args == Render(gs) + rest && AllTake(gs) && Stops(rest)
  }

  // ------------------------------------------------------ what is collected

  function ValuesOf(gs: seq<Given>, o: Opt): seq<string> {
    if gs == [] then []
    else
      var front, last := ValuesOf(gs[..|gs| - 1], o), gs[|gs| - 1];
      if last.Valued? && last.o == o then front + [last.v] else front
  }

  function Last(vs: seq<string>): Option<string> { if vs == [] then None else Some(vs[|vs| - 1]) }

  /** What a repeatable option has collected. */
  function Collected(opts: Options, o: Opt): seq<string>
    requires Repeatable(o)
  {
    match o
    case CapDrop => opts.capDrop
    case SecurityOpt => opts.securityOpt
    case Tmpfs => opts.tmpfs
    case Volume => opts.binds
    case Device => opts.devices
    case Dns => opts.dns
    case AddHost => opts.extraHosts
    case Env => opts.environment
    case Label => opts.labels
  }

  ghost predicate TextsTell(opts: Options, gs: seq<Given>) {
    && opts.name == Last(ValuesOf(gs, Name)) && opts.network == Last(ValuesOf(gs, Network)) && opts.user == Last(ValuesOf(gs, User))
    && (opts.readOnly <==> Switch in gs)
  }

  predicate Numeric(o: Opt) { o == PidsLimit || o == Memory || o == Cpus }

  function Number(opts: Options, o: Opt): Option<int>
    requires Numeric(o)
  {
    match o
    case PidsLimit => opts.pids
    case Memory => opts.memory
    case Cpus => opts.nanoCpus
  }

  function Read(o: Opt, v: string): Option<int>
    requires Numeric(o)
  {
    if o == Cpus then ParseCpus(v) else ParseInt(v)
  }

  ghost predicate NumberTells(opts: Options, gs: seq<Given>, o: Opt)
    requires Numeric(o)
  {
    var vs := ValuesOf(gs, o);
    Number(opts, o) == if vs == [] then None else Read(o, vs[|vs| - 1])
  }

  /** A repeatable option collects all its values, in order; of the others the last
      one counts. */
  lemma {:induction false} AppliedTells(gs: seq<Given>)
    requires AllTake(gs)
    ensures forall o :: Repeatable(o) ==> Collected(ApplyAll(gs), o) == ValuesOf(gs, o)
    ensures TextsTell(ApplyAll(gs), gs) && forall o :: Numeric(o) ==> NumberTells(ApplyAll(gs), gs, o)
  {
    if gs != [] {
      var front, last := gs[..|gs| - 1], gs[|gs| - 1];
      AppliedTells(front);
      assert gs == front + [last];
      forall o | Repeatable(o) ensures Collected(ApplyAll(gs), o) == ValuesOf(gs, o) {
        AppliedList(ApplyAll(front), front, last, o);
      }
      AppliedTexts(ApplyAll(front), front, last);
      forall o | Numeric(o) ensures NumberTells(ApplyAll(gs), gs, o) {
        AppliedNumber(ApplyAll(front), front, last, o);
      }
    }
  }

  lemma ValuesSnoc(gs: seq<Given>, g: Given, o: Opt)
    ensures ValuesOf(gs + [g], o) == ValuesOf(gs, o) + (if g.Valued? && g.o == o then [g.v] else [])
  {
    assert (gs + [g])[..|gs|] == gs;
  }

  lemma AppliedList(opts: Options, gs: seq<Given>, g: Given, o: Opt)
    requires Takes(g) && Repeatable(o) && Collected(opts, o) == ValuesOf(gs, o)
    ensures Collected(Applied(opts, g), o) == ValuesOf(gs + [g], o)
  {
    ValuesSnoc(gs, g, o);
    if g.Valued? && g.o == o {
      AppliedCollects(opts, o, g.v);
    } else {
      AppliedKeeps(opts, g, o);
      assert ValuesOf(gs, o) + [] == ValuesOf(gs, o);
    }
  }

  lemma AppliedCollects(opts: Options, o: Opt, v: string)
    requires Repeatable(o)
    ensures Collected(SetOption(opts, o, v).value, o) == Collected(opts, o) + [v]
  {
  }

  lemma AppliedKeeps(opts: Options, g: Given, o: Opt)
    requires Takes(g) && Repeatable(o) && (g.Valued? ==> g.o != o)
    ensures Collected(Applied(opts, g), o) == Collected(opts, o)
  {
  }

  lemma AppliedTexts(opts: Options, gs: seq<Given>, g: Given)
    requires Takes(g) && TextsTell(opts, gs)
    ensures TextsTell(Applied(opts, g), gs + [g])
  {
    ValuesSnoc(gs, g, Name);
    ValuesSnoc(gs, g, Network);
    ValuesSnoc(gs, g, User);
  }

  lemma AppliedNumber(opts: Options, gs: seq<Given>, g: Given, o: Opt)
    requires Takes(g) && Numeric(o) && NumberTells(opts, gs, o)
    ensures NumberTells(Applied(opts, g), gs + [g], o)
  {
    ValuesSnoc(gs, g, o);
    if g.Valued? && g.o == o {
      assert Number(Applied(opts, g), o) == Read(o, g.v);
    } else {
      assert Number(Applied(opts, g), o) == Number(opts, o);
      assert ValuesOf(gs, o) + [] == ValuesOf(gs, o);
    }
  }

  // ---------------------------------------------------------------- bad items

  predicate BadHostItem(item: string) { Partition(item, ':').0 == "" || Partition(item, ':').1 == "" }

  predicate BadPairItem(item: string) { '=' !in item }

  predicate FirstBad(items: seq<string>, bad: string -> bool, i: int) {
    0 <= i < |items| && bad(items[i]) && forall j :: 0 <= j < i ==> !bad(items[j])
  }

  lemma {:induction false} HostsFailExactly(items: seq<string>)
    ensures ParseHosts(items).Ok? <==> forall i :: 0 <= i < |items| ==> !BadHostItem(items[i])
    ensures forall i :: FirstBad(items, BadHostItem, i) ==> ParseHosts(items) == Err(BadHost(items[i]))
  {
    if items != [] {
      var n := |items| - 1;
      HostsFailExactly(items[..n]);
      assert forall i :: 0 <= i < n ==> items[..n][i] == items[i];
      assert forall i :: FirstBad(items, BadHostItem, i) && i < n ==> FirstBad(items[..n], BadHostItem, i);
    }
  }

  lemma {:induction false} PairsFailExactly(items: seq<string>)
    ensures ParsePairs(items).Ok? <==> forall i :: 0 <= i < |items| ==> !BadPairItem(items[i])
    ensures forall i :: FirstBad(items, BadPairItem, i) ==> ParsePairs(items) == Err(BadPair(items[i]))
  {
    if items != [] {
      var n := |items| - 1;
      PairsFailExactly(items[..n]);
      assert forall i :: 0 <= i < n ==> items[..n][i] == items[i];
      assert forall i :: FirstBad(items, BadPairItem, i) && i < n ==> FirstBad(items[..n], BadPairItem, i);
    }
  }

  lemma AssembledExactly(opts: Options, image: string, command: seq<string>)
    ensures Assemble(opts, image, command).Ok? <==>
      (forall i :: 0 <= i < |opts.extraHosts| ==> !BadHostItem(opts.extraHosts[i]))
      && (forall i :: 0 <= i < |opts.labels| ==> !BadPairItem(opts.labels[i]))
    ensures forall i :: FirstBad(opts.extraHosts, BadHostItem, i) ==> Assemble(opts, image, command) == Err(BadHost(opts.extraHosts[i]))
    ensures forall i :: FirstBad(opts.labels, BadPairItem, i) && (forall j :: 0 <= j < |opts.extraHosts| ==> !BadHostItem(opts.extraHosts[j]))
              ==> Assemble(opts, image, command) == Err(BadPair(opts.labels[i]))
    ensures Assemble(opts, image, command).Ok? ==>
      var c := Assemble(opts, image, command).value;
      && c.image == image && c.command == command && c.name == opts.name && c.network == opts.network && c.user == opts.user
      && c.pids == opts.pids && c.memory == opts.memory && c.nanoCpus == opts.nanoCpus && c.readOnly == opts.readOnly
  {
    HostsFailExactly(opts.extraHosts);
    PairsFailExactly(opts.labels);
  }

  /** The container is assembled from what was collected up to the image; it is
      refused exactly for the first bad host, or else for the first bad label. */
  lemma CreateExactly(args: seq<string>, gs: seq<Given>, rest: seq<string>)
    requires Reads(args, gs, rest)
    ensures Ending(gs, rest).Err? ==> ParseCreate(args) == Err(Ending(gs, rest).error)
    ensures Ending(gs, rest).Ok? ==> ParseCreate(args) == Assemble(ApplyAll(gs), rest[0], rest[1..])
  {
    OptionsExactly(args);
  }
}
