/** `docker create`: the supervisor prints a launch spec as an argument list
    (sandbox/server.py) and the shim, a separate program, parses that list back
    (sandbox/docker_shim.py). */
module DockerArgv {
  import opened Prelude
  import opened Text

  /** RuntimeLaunchSpec.  A Python dict is an ordered list of pairs with distinct keys. */
  datatype LaunchSpec = LaunchSpec(
    containerName: string,
    image: string,
    command: seq<string>,
    environment: seq<(string, string)>,
    labels: seq<(string, string)>,
    networkMode: string,
    readOnlyRootfs: bool,
    user: string,
    tmpfsMounts: seq<(string, string)>,
    capDrop: seq<string>,
    securityOpt: seq<string>,
    pidsLimit: int,
    memoryBytes: int,
    nanoCpus: nat,
    bindMounts: seq<string>,
    devices: seq<string>,
    dns: seq<string>,
    extraHosts: seq<(string, string)>)

  /** What the shim hands to the Docker client. */
  datatype Container = Container(
    name: Option<string>,
    network: Option<string>,
    user: Option<string>,
    pids: Option<int>,
    memory: Option<int>,
    nanoCpus: Option<int>,
    readOnly: bool,
    capDrop: seq<string>,
    securityOpt: seq<string>,
    tmpfs: map<string, string>,
    binds: seq<string>,
    devices: seq<string>,
    dns: seq<string>,
    extraHosts: map<string, string>,
    environment: seq<string>,
    labels: map<string, string>,
    image: string,
    command: seq<string>)

  /** CliError is reported by the shim; ValueError from int() or float() is not caught. */
  datatype Error = MissingValue | Unsupported(token: string) | NoImage | BadPair(item: string) | BadHost(host: string) | ValueError

  // ---------------------------------------------------------------- options

  datatype Opt =
    | Name | Network | User | PidsLimit | Memory | Cpus | ReadOnly
    | CapDrop | SecurityOpt | Tmpfs | Volume | Device | Dns | AddHost | Env | Label

  function Flag(o: Opt): string {
    match o
    case Name => "--name"
    case Network => "--network"
    case User => "--user"
    case PidsLimit => "--pids-limit"
    case Memory => "--memory"
    case Cpus => "--cpus"
    case ReadOnly => "--read-only"
    case CapDrop => "--cap-drop"
    case SecurityOpt => "--security-opt"
    case Tmpfs => "--tmpfs"
    case Volume => "--volume"
    case Device => "--device"
    case Dns => "--dns"
    case AddHost => "--add-host"
    case Env => "--env"
    case Label => "--label"
  }

  /** The chain of comparisons in `_create`. */
  function Classify(token: string): Option<Opt> {
    if token == "--name" then Some(Name)
    else if token == "--network" then Some(Network)
    else if token == "--user" then Some(User)
    else if token == "--pids-limit" then Some(PidsLimit)
    else if token == "--memory" then Some(Memory)
    else if token == "--cpus" then Some(Cpus)
    else if token == "--read-only" then Some(ReadOnly)
    else if token == "--cap-drop" then Some(CapDrop)
    else if token == "--security-opt" then Some(SecurityOpt)
    else if token == "--tmpfs" then Some(Tmpfs)
    else if token == "--volume" then Some(Volume)
    else if token == "--device" then Some(Device)
    else if token == "--dns" then Some(Dns)
    else if token == "--add-host" then Some(AddHost)
    else if token == "--env" then Some(Env)
    else if token == "--label" then Some(Label)
    else None
  }

  /** Length and third character already tell the flags apart. */
  function Signature(o: Opt): (nat, char) {
    match o
    case Name => (6, 'n')
    case Network => (9, 'n')
    case User => (6, 'u')
    case PidsLimit => (12, 'p')
    case Memory => (8, 'm')
    case Cpus => (6, 'c')
    case ReadOnly => (11, 'r')
    case CapDrop => (10, 'c')
    case SecurityOpt => (14, 's')
    case Tmpfs => (7, 't')
    case Volume => (8, 'v')
    case Device => (8, 'd')
    case Dns => (5, 'd')
    case AddHost => (10, 'a')
    case Env => (5, 'e')
    case Label => (7, 'l')
  }

  lemma FlagSignature(o: Opt)
    ensures |Flag(o)| == Signature(o).0 && Flag(o)[2] == Signature(o).1 && Flag(o)[0] == '-'
  {
  }

  lemma ClassifyIsFlag(token: string)
    ensures Classify(token).Some? ==> token == Flag(Classify(token).value)
    ensures Classify(token).None? ==> forall o :: token != Flag(o)
  {
    if Classify(token).None? {
      forall o ensures token != Flag(o) {}
    }
  }

  lemma SignatureInjective(o: Opt, p: Opt)
    requires Signature(o) == Signature(p)
    ensures o == p
  {
  }

  lemma ClassifyFlag(o: Opt)
    ensures Classify(Flag(o)) == Some(o)
  {
    ClassifyIsFlag(Flag(o));
    var p := Classify(Flag(o)).value;
    FlagSignature(o);
    FlagSignature(p);
    SignatureInjective(o, p);
  }

  predicate Dashed(token: string) { token != "" && token[0] == '-' }

  lemma FlagsAreDashed(token: string)
    requires Classify(token).Some?
    ensures Dashed(token)
  {
    ClassifyIsFlag(token);
    FlagSignature(Classify(token).value);
  }

  // ----------------------------------------------------------------- prices

  const HUNDREDTH: nat := 10_000_000
  const BILLION: nat := 1_000_000_000

  /** Round to whole hundredths of a CPU, ties to even, on exact decimals. */
  function Hundredths(nano: nat): nat {
    var q, r := nano / HUNDREDTH, nano % HUNDREDTH;
    if 2 * r < HUNDREDTH || (2 * r == HUNDREDTH && q % 2 == 0) then q else q + 1
  }

  /** f"{nano / 1_000_000_000:.2f}". */
  function PrintCpus(nano: nat): string {
    var h := Hundredths(nano);
    PrintNat(h / 100) + "." + [Digit(h % 100 / 10), Digit(h % 10)]
  }

  function Pow10(n: nat): nat { if n == 0 then 1 else 10 * Pow10(n - 1) }

  lemma Pow10Positive(n: nat)
    ensures Pow10(n) > 0
  {
  }

  /** int(float(s) * 1_000_000_000), on exact decimals "w" or "w.f". */
  function ParseCpus(s: string): Option<int> {
    var (w, f) := Partition(s, '.');
    var whole := ParseNat(w);
    if whole.None? then None
    else if f == "" then Some(whole.value * BILLION)
    else
      var frac := ParseNat(f);
      if frac.None? then None
      else
        Pow10Positive(|f|);
        Some(whole.value * BILLION + frac.value * BILLION / Pow10(|f|))
  }

  lemma ParseTwoDigits(d: nat)
    requires d < 100
    ensures ParseNat([Digit(d / 10), Digit(d % 10)]) == Some(d)
  {
    var f := [Digit(d / 10), Digit(d % 10)];
    assert f[..1] == [f[0]];
    assert ParseNat(f[..1]) == Some(d / 10);
  }

  lemma HundredthsExact(nano: nat)
    ensures Hundredths(nano) * HUNDREDTH == nano <==> nano % HUNDREDTH == 0
  {
    assert nano == nano / HUNDREDTH * HUNDREDTH + nano % HUNDREDTH;
  }

  /** The shim reads back the printed hundredths, so exactly a whole number of
      hundredths survives. */
  lemma CpusRoundTrip(nano: nat)
    ensures ParseCpus(PrintCpus(nano)) == Some(Hundredths(nano) * HUNDREDTH)
    ensures ParseCpus(PrintCpus(nano)) == Some(nano) <==> nano % HUNDREDTH == 0
  {
    var h := Hundredths(nano);
    var w, f := PrintNat(h / 100), [Digit(h % 100 / 10), Digit(h % 100 % 10)];
    ParsePrintNat(h / 100);
    PartitionJoin(w, '.', f);
    assert h % 100 % 10 == h % 10;
    assert w + ['.'] + f == PrintCpus(nano);
    ParseTwoDigits(h % 100);
    assert Pow10(|f|) == 100 by { assert Pow10(0) == 1 && Pow10(1) == 10 && Pow10(2) == 100; }
    assert h / 100 * BILLION + (h % 100) * BILLION / 100 == h * HUNDREDTH;
    HundredthsExact(nano);
  }

  // ---------------------------------------------------------------- printer

  /** Repeated options, one flag per value. */
  function Repeat(o: Opt, values: seq<string>): seq<string> {
    if values == [] then [] else [Flag(o), values[0]] + Repeat(o, values[1..])
  }

  function Join(p: (string, string), c: char): string { p.0 + [c] + p.1 }

  function Joined(ps: seq<(string, string)>, c: char): (r: seq<string>)
    ensures |r| == |ps|
    ensures forall i :: 0 <= i < |ps| ==> r[i] == Join(ps[i], c)
  {
    if ps == [] then [] else [Join(ps[0], c)] + Joined(ps[1..], c)
  }

  function PrintScalars(spec: LaunchSpec): seq<string> {
    [Flag(Name), spec.containerName, Flag(Network), spec.networkMode, Flag(User), spec.user,
     Flag(PidsLimit), PrintInt(spec.pidsLimit), Flag(Memory), PrintInt(spec.memoryBytes),
     Flag(Cpus), PrintCpus(spec.nanoCpus)]
  }

  function PrintReadOnly(spec: LaunchSpec): seq<string> {
    if spec.readOnlyRootfs then [Flag(ReadOnly)] else []
  }

  /** The repeated options in the order they are printed, then the rest. */
  function PrintLists(spec: LaunchSpec, rest: seq<string>): seq<string> {
    Repeat(CapDrop, spec.capDrop) + (Repeat(SecurityOpt, spec.securityOpt) +
    (Repeat(Tmpfs, Joined(spec.tmpfsMounts, ':')) + (Repeat(Volume, spec.bindMounts) + PrintLaterLists(spec, rest))))
  }

  function PrintLaterLists(spec: LaunchSpec, rest: seq<string>): seq<string> {
    Repeat(Device, spec.devices) + (Repeat(Dns, spec.dns) + (Repeat(AddHost, Joined(spec.extraHosts, ':')) +
    (Repeat(Env, Joined(spec.environment, '=')) + (Repeat(Label, Joined(spec.labels, '=')) + rest))))
  }

  /** The argument list after the two words `docker create`. */
  function Print(spec: LaunchSpec): seq<string> {
    PrintScalars(spec) + (PrintReadOnly(spec) + PrintLists(spec, [spec.image] + spec.command))
  }

  method ExtendRepeated(command: seq<string>, o: Opt, values: seq<string>) returns (out: seq<string>)
    ensures out == command + Repeat(o, values)
  {
    out := command;
    var i := 0;
    while i < |values|
      invariant 0 <= i <= |values|
      invariant out + Repeat(o, values[i..]) == command + Repeat(o, values)
    {
      assert values[i..][0] == values[i] && values[i..][1..] == values[i + 1..];
      assert out + ([Flag(o), values[i]] + Repeat(o, values[i + 1..]))
          == (out + [Flag(o), values[i]]) + Repeat(o, values[i + 1..]);
      out := out + [Flag(o), values[i]];
      i := i + 1;
    }
  }

  lemma Assoc(a: seq<string>, b: seq<string>, c: seq<string>)
    ensures (a + b) + c == a + (b + c)
  {
  }

  /** build_docker_create_command: the words are collected from left to right. */
  method BuildDockerCreateCommand(dockerBin: string, spec: LaunchSpec) returns (command: seq<string>)
    ensures command == [dockerBin, "create"] + Print(spec)
  {
    ghost var start := [dockerBin, "create"];
    command := [dockerBin, "create"] + PrintScalars(spec);
    if spec.readOnlyRootfs {
      command := command + [Flag(ReadOnly)];
    }
    ghost var head := start + PrintScalars(spec);
    assert command == head + PrintReadOnly(spec);
    command := AppendLists(command, spec);
    ghost var tail := [spec.image] + spec.command;
    Assoc(head, PrintReadOnly(spec), PrintLists(spec, tail));
    Assoc(start, PrintScalars(spec), PrintReadOnly(spec) + PrintLists(spec, tail));
  }

  /** The loops over the repeated options, then the image and its command. */
  method AppendLists(head: seq<string>, spec: LaunchSpec) returns (command: seq<string>)
    ensures command == head + PrintLists(spec, [spec.image] + spec.command)
  {
    var c1 := ExtendRepeated(head, CapDrop, spec.capDrop);
    var c2 := ExtendRepeated(c1, SecurityOpt, spec.securityOpt);
    var c3 := ExtendRepeated(c2, Tmpfs, Joined(spec.tmpfsMounts, ':'));
    var c4 := ExtendRepeated(c3, Volume, spec.bindMounts);
    var c5 := ExtendRepeated(c4, Device, spec.devices);
    var c6 := ExtendRepeated(c5, Dns, spec.dns);
    var c7 := ExtendRepeated(c6, AddHost, Joined(spec.extraHosts, ':'));
    var c8 := ExtendRepeated(c7, Env, Joined(spec.environment, '='));
    var c9 := ExtendRepeated(c8, Label, Joined(spec.labels, '='));
    command := c9 + [spec.image];
    command := command + spec.command;
    ghost var t9 := [spec.image] + spec.command;
    ghost var t8 := Repeat(Label, Joined(spec.labels, '=')) + t9;
    ghost var t7 := Repeat(Env, Joined(spec.environment, '=')) + t8;
    ghost var t6 := Repeat(AddHost, Joined(spec.extraHosts, ':')) + t7;
    ghost var t5 := Repeat(Dns, spec.dns) + t6;
    ghost var t4 := Repeat(Device, spec.devices) + t5;
    ghost var t3 := Repeat(Volume, spec.bindMounts) + t4;
    ghost var t2 := Repeat(Tmpfs, Joined(spec.tmpfsMounts, ':')) + t3;
    ghost var t1 := Repeat(SecurityOpt, spec.securityOpt) + t2;
    Assoc(c9, [spec.image], spec.command);
    Assoc(c8, Repeat(Label, Joined(spec.labels, '=')), t9);
    Assoc(c7, Repeat(Env, Joined(spec.environment, '=')), t8);
    Assoc(c6, Repeat(AddHost, Joined(spec.extraHosts, ':')), t7);
    Assoc(c5, Repeat(Dns, spec.dns), t6);
    Assoc(c4, Repeat(Device, spec.devices), t5);
    Assoc(c3, Repeat(Volume, spec.bindMounts), t4);
    Assoc(c2, Repeat(Tmpfs, Joined(spec.tmpfsMounts, ':')), t3);
    Assoc(c1, Repeat(SecurityOpt, spec.securityOpt), t2);
    Assoc(head, Repeat(CapDrop, spec.capDrop), t1);
  }

  // ----------------------------------------------------------------- parser

  /** The option variables of `_create`. */
  datatype Options = Options(
    name: Option<string>,
    network: Option<string>,
    user: Option<string>,
    pids: Option<int>,
    memory: Option<int>,
    nanoCpus: Option<int>,
    readOnly: bool,
    capDrop: seq<string>,
    securityOpt: seq<string>,
    tmpfs: seq<string>,
    binds: seq<string>,
    devices: seq<string>,
    dns: seq<string>,
    extraHosts: seq<string>,
    environment: seq<string>,
    labels: seq<string>)

  const NO_OPTIONS: Options := Options(None, None, None, None, None, None, false, [], [], [], [], [], [], [], [], [])

  predicate Repeatable(o: Opt) {
    o.CapDrop? || o.SecurityOpt? || o.Tmpfs? || o.Volume? || o.Device? || o.Dns? || o.AddHost? || o.Env? || o.Label?
  }

  /** Append values to the list an option collects. */
  function Extend(opts: Options, o: Opt, vs: seq<string>): Options
    requires Repeatable(o)
  {
    match o
    case CapDrop => opts.(capDrop := opts.capDrop + vs)
    case SecurityOpt => opts.(securityOpt := opts.securityOpt + vs)
    case Tmpfs => opts.(tmpfs := opts.tmpfs + vs)
    case Volume => opts.(binds := opts.binds + vs)
    case Device => opts.(devices := opts.devices + vs)
    case Dns => opts.(dns := opts.dns + vs)
    case AddHost => opts.(extraHosts := opts.extraHosts + vs)
    case Env => opts.(environment := opts.environment + vs)
    case Label => opts.(labels := opts.labels + vs)
  }

  /** One option with its value. */
  function SetOption(opts: Options, o: Opt, v: string): Result<Options, Error> {
    match o
    case Name => Ok(opts.(name := Some(v)))
    case Network => Ok(opts.(network := Some(v)))
    case User => Ok(opts.(user := Some(v)))
    case PidsLimit => var n := ParseInt(v); if n.None? then Err(ValueError) else Ok(opts.(pids := n))
    case Memory => var n := ParseInt(v); if n.None? then Err(ValueError) else Ok(opts.(memory := n))
    case Cpus => var n := ParseCpus(v); if n.None? then Err(ValueError) else Ok(opts.(nanoCpus := n))
    case ReadOnly => Ok(opts.(readOnly := true))
    case _ => Ok(Extend(opts, o, [v]))
  }

  /** The option loop as a recursion over the words still to be read. */
  function ParseOptions(args: seq<string>, opts: Options): Result<(Options, string, seq<string>), Error>
    decreases |args|
  {
    if args == [] then Err(NoImage)
    else
      var o := Classify(args[0]);
      if o == Some(ReadOnly) then ParseOptions(args[1..], opts.(readOnly := true))
      else if o.Some? then
        if |args| == 1 then Err(MissingValue)
        else
          (match SetOption(opts, o.value, args[1])
           case Ok(next) => ParseOptions(args[2..], next)
           case Err(e) => Err(e))
      else if Dashed(args[0]) then Err(Unsupported(args[0]))
      else Ok((opts, args[0], args[1..]))
  }

  /** _parse_tmpfs: a later item with the same path wins. */
  function ParseTmpfs(items: seq<string>): map<string, string> {
    if items == [] then map[]
    else
      var (path, options) := Partition(items[|items| - 1], ':');
      ParseTmpfs(items[..|items| - 1])[path := options]
  }

  /** _parse_extra_hosts, failing at the first bad item. */
  function ParseHosts(items: seq<string>): Result<map<string, string>, Error> {
    if items == [] then Ok(map[])
    else
      var rest := ParseHosts(items[..|items| - 1]);
      if rest.Err? then rest
      else
        var (host, value) := Partition(items[|items| - 1], ':');
        if host == "" || value == "" then Err(BadHost(items[|items| - 1]))
        else Ok(rest.value[host := value])
  }

  /** _parse_key_value_pairs, failing at the first bad item. */
  function ParsePairs(items: seq<string>): Result<map<string, string>, Error> {
    if items == [] then Ok(map[])
    else
      var rest := ParsePairs(items[..|items| - 1]);
      if rest.Err? then rest
      else if '=' !in items[|items| - 1] then Err(BadPair(items[|items| - 1]))
      else
        var (key, value) := Partition(items[|items| - 1], '=');
        Ok(rest.value[key := value])
  }

  function Assemble(opts: Options, image: string, command: seq<string>): Result<Container, Error> {
    var hosts := ParseHosts(opts.extraHosts);
    if hosts.Err? then Err(hosts.error)
    else
      var labels := ParsePairs(opts.labels);
      if labels.Err? then Err(labels.error)
      else Ok(Container(
        opts.name, opts.network, opts.user, opts.pids, opts.memory, opts.nanoCpus, opts.readOnly,
        opts.capDrop, opts.securityOpt, ParseTmpfs(opts.tmpfs), opts.binds, opts.devices, opts.dns, hosts.value,
        opts.environment, labels.value, image, command))
  }

  /** `_create` without the Docker client. */
  function ParseCreate(args: seq<string>): Result<Container, Error> {
    match ParseOptions(args, NO_OPTIONS)
    case Ok((opts, image, command)) => Assemble(opts, image, command)
    case Err(e) => Err(e)
  }

  method ParseTmpfsItems(items: seq<string>) returns (tmpfs: map<string, string>)
    ensures tmpfs == ParseTmpfs(items)
  {
    tmpfs := map[];
    for i := 0 to |items|
      invariant tmpfs == ParseTmpfs(items[..i])
    {
      var (path, options) := Partition(items[i], ':');
      tmpfs := tmpfs[path := options];
      assert items[..i + 1][..i] == items[..i];
    }
    assert items[..|items|] == items;
  }

  method ParseHostItems(items: seq<string>) returns (r: Result<map<string, string>, Error>)
    ensures r == ParseHosts(items)
  {
    var entries: map<string, string> := map[];
    for i := 0 to |items|
      invariant ParseHosts(items[..i]) == Ok(entries)
    {
      assert items[..i + 1][..i] == items[..i];
      var (host, value) := Partition(items[i], ':');
      if host == "" || value == "" {
        HostsFailEarly(items, i + 1);
        return Err(BadHost(items[i]));
      }
      entries := entries[host := value];
    }
    assert items[..|items|] == items;
    return Ok(entries);
  }

  method ParsePairItems(items: seq<string>) returns (r: Result<map<string, string>, Error>)
    ensures r == ParsePairs(items)
  {
    var pairs: map<string, string> := map[];
    for i := 0 to |items|
      invariant ParsePairs(items[..i]) == Ok(pairs)
    {
      assert items[..i + 1][..i] == items[..i];
      if '=' !in items[i] {
        PairsFailEarly(items, i + 1);
        return Err(BadPair(items[i]));
      }
      var (key, value) := Partition(items[i], '=');
      pairs := pairs[key := value];
    }
    assert items[..|items|] == items;
    return Ok(pairs);
  }

  lemma {:induction false} HostsFailEarly(items: seq<string>, n: nat)
    requires n <= |items| && ParseHosts(items[..n]).Err?
    ensures ParseHosts(items) == ParseHosts(items[..n])
  {
    if n < |items| {
      assert items[..|items| - 1][..n] == items[..n];
      HostsFailEarly(items[..|items| - 1], n);
    } else {
      assert items[..n] == items;
    }
  }

  lemma {:induction false} PairsFailEarly(items: seq<string>, n: nat)
    requires n <= |items| && ParsePairs(items[..n]).Err?
    ensures ParsePairs(items) == ParsePairs(items[..n])
  {
    if n < |items| {
      assert items[..|items| - 1][..n] == items[..n];
      PairsFailEarly(items[..|items| - 1], n);
    } else {
      assert items[..n] == items;
    }
  }

  /** `_create`: the option loop, then the configuration. */
  method Create(args: seq<string>) returns (r: Result<Container, Error>)
    ensures r == ParseCreate(args)
  {
    var name, network, user := None, None, None;
    var pids, memory, nanoCpus := None, None, None;
    var readOnly := false;
    var capDrop, securityOpt, tmpfs, binds, devices: seq<string> := [], [], [], [], [];
    var dns, extraHosts, environment, labels: seq<string> := [], [], [], [];
    var image: Option<string> := None;
    var command: seq<string> := [];

    var index := 0;
    assert args[0..] == args;
    while index < |args|
      invariant 0 <= index <= |args|
      invariant ParseOptions(args[index..],
                  Options(name, network, user, pids, memory, nanoCpus, readOnly, capDrop, securityOpt, tmpfs,
                          binds, devices, dns, extraHosts, environment, labels)) == ParseOptions(args, NO_OPTIONS)
      decreases |args| - index
    {
      var token := args[index];
      var rest := args[index..];
      assert rest[0] == token && rest[1..] == args[index + 1..];
      if token == "--read-only" {
        readOnly := true;
        index := index + 1;
        continue;
      }
      var option := Classify(token);
      if option.Some? {
        if index + 1 == |args| {
          return Err(MissingValue);
        }
        var value := args[index + 1];
        assert rest[1] == value && rest[2..] == args[index + 2..];
        match option.value {
          case Name => name := Some(value);
          case Network => network := Some(value);
          case User => user := Some(value);
          case PidsLimit =>
            pids := ParseInt(value);
            if pids.None? { return Err(ValueError); }
          case Memory =>
            memory := ParseInt(value);
            if memory.None? { return Err(ValueError); }
          case Cpus =>
            nanoCpus := ParseCpus(value);
            if nanoCpus.None? { return Err(ValueError); }
          case ReadOnly => assert false;
          case CapDrop => capDrop := capDrop + [value];
          case SecurityOpt => securityOpt := securityOpt + [value];
          case Tmpfs => tmpfs := tmpfs + [value];
          case Volume => binds := binds + [value];
          case Device => devices := devices + [value];
          case Dns => dns := dns + [value];
          case AddHost => extraHosts := extraHosts + [value];
          case Env => environment := environment + [value];
          case Label => labels := labels + [value];
        }
        index := index + 2;
        continue;
      }
      if Dashed(token) {
        return Err(Unsupported(token));
      }
      image := Some(token);
      command := args[index + 1..];
      break;
    }
    if image.None? {
      return Err(NoImage);
    }
    var mounts := ParseTmpfsItems(tmpfs);
    var hosts := ParseHostItems(extraHosts);
    if hosts.Err? {
      return Err(hosts.error);
    }
    var pairs := ParsePairItems(labels);
    if pairs.Err? {
      return Err(pairs.error);
    }
    return Ok(Container(name, network, user, pids, memory, nanoCpus, readOnly, capDrop, securityOpt, mounts,
                        binds, devices, dns, hosts.value, environment, pairs.value, image.value, command));
  }

  // ------------------------------------------------------------- round trip

  lemma ParseOneMore(o: Opt, v: string, rest: seq<string>, opts: Options)
    requires Repeatable(o)
    ensures ParseOptions([Flag(o), v] + rest, opts) == ParseOptions(rest, Extend(opts, o, [v]))
  {
    var args := [Flag(o), v] + rest;
    ClassifyFlag(o);
    assert args[0] == Flag(o) && args[1] == v && args[2..] == rest;
  }

  /** Reading a printed option list appends its values, in order. */
  lemma {:induction false} ParseRepeat(o: Opt, vs: seq<string>, rest: seq<string>, opts: Options)
    requires Repeatable(o)
    ensures ParseOptions(Repeat(o, vs) + rest, opts) == ParseOptions(rest, Extend(opts, o, vs))
    decreases |vs|
  {
    if vs == [] {
      assert Repeat(o, vs) + rest == rest;
      assert Extend(opts, o, vs) == opts;
    } else {
      var next := Extend(opts, o, [vs[0]]);
      calc {
        ParseOptions(Repeat(o, vs) + rest, opts);
        { assert Repeat(o, vs) + rest == [Flag(o), vs[0]] + (Repeat(o, vs[1..]) + rest); }
        ParseOptions([Flag(o), vs[0]] + (Repeat(o, vs[1..]) + rest), opts);
        { ParseOneMore(o, vs[0], Repeat(o, vs[1..]) + rest, opts); }
        ParseOptions(Repeat(o, vs[1..]) + rest, next);
        { ParseRepeat(o, vs[1..], rest, next); }
        ParseOptions(rest, Extend(next, o, vs[1..]));
        { ExtendTwice(opts, o, [vs[0]], vs[1..]); assert [vs[0]] + vs[1..] == vs; }
        ParseOptions(rest, Extend(opts, o, vs));
      }
    }
  }

  lemma ExtendTwice(opts: Options, o: Opt, a: seq<string>, b: seq<string>)
    requires Repeatable(o)
    ensures Extend(Extend(opts, o, a), o, b) == Extend(opts, o, a + b)
  {
    assert forall x: seq<string> :: (x + a) + b == x + (a + b);
  }

  lemma ParseOne(o: Opt, v: string, rest: seq<string>, opts: Options)
    requires o != ReadOnly && SetOption(opts, o, v).Ok?
    ensures ParseOptions([Flag(o), v] + rest, opts) == ParseOptions(rest, SetOption(opts, o, v).value)
  {
    ClassifyFlag(o);
    assert ([Flag(o), v] + rest)[2..] == rest;
  }

  /** The six scalar options of a spec, as the shim reads them. */
  function ScalarOptions(spec: LaunchSpec): Options {
    NO_OPTIONS.(name := Some(spec.containerName), network := Some(spec.networkMode), user := Some(spec.user),
               pids := Some(spec.pidsLimit), memory := Some(spec.memoryBytes),
               nanoCpus := Some(Hundredths(spec.nanoCpus) * HUNDREDTH))
  }

  lemma ParseScalars(spec: LaunchSpec, rest: seq<string>)
    ensures ParseOptions(PrintScalars(spec) + rest, NO_OPTIONS) == ParseOptions(rest, ScalarOptions(spec))
  {
    ParsePrintInt(spec.pidsLimit);
    ParsePrintInt(spec.memoryBytes);
    CpusRoundTrip(spec.nanoCpus);
    var r6 := [Flag(Cpus), PrintCpus(spec.nanoCpus)] + rest;
    var r5 := [Flag(Memory), PrintInt(spec.memoryBytes)] + r6;
    var r4 := [Flag(PidsLimit), PrintInt(spec.pidsLimit)] + r5;
    var r3 := [Flag(User), spec.user] + r4;
    var r2 := [Flag(Network), spec.networkMode] + r3;
    assert PrintScalars(spec) + rest == [Flag(Name), spec.containerName] + r2;
    var o1 := NO_OPTIONS.(name := Some(spec.containerName));
    var o2 := o1.(network := Some(spec.networkMode));
    var o3 := o2.(user := Some(spec.user));
    var o4 := o3.(pids := Some(spec.pidsLimit));
    var o5 := o4.(memory := Some(spec.memoryBytes));
    ParseOne(Name, spec.containerName, r2, NO_OPTIONS);
    ParseOne(Network, spec.networkMode, r3, o1);
    ParseOne(User, spec.user, r4, o2);
    ParseOne(PidsLimit, PrintInt(spec.pidsLimit), r5, o3);
    ParseOne(Memory, PrintInt(spec.memoryBytes), r6, o4);
    ParseOne(Cpus, PrintCpus(spec.nanoCpus), rest, o5);
  }

  /** All options of a spec, as the shim reads them. */
  function ReadOptions(spec: LaunchSpec): Options {
    ScalarOptions(spec).(
      readOnly := spec.readOnlyRootfs, capDrop := spec.capDrop, securityOpt := spec.securityOpt,
      tmpfs := Joined(spec.tmpfsMounts, ':'), binds := spec.bindMounts, devices := spec.devices, dns := spec.dns,
      extraHosts := Joined(spec.extraHosts, ':'), environment := Joined(spec.environment, '='),
      labels := Joined(spec.labels, '='))
  }

  /** The lists are read one after the other. */
  lemma ParseLists(spec: LaunchSpec, rest: seq<string>, o: Options)
    ensures ParseOptions(PrintLists(spec, rest), o) == ParseOptions(rest, ListOptions(spec, o))
  {
    var t4 := PrintLaterLists(spec, rest);
    var t3 := Repeat(Volume, spec.bindMounts) + t4;
    var t2 := Repeat(Tmpfs, Joined(spec.tmpfsMounts, ':')) + t3;
    var t1 := Repeat(SecurityOpt, spec.securityOpt) + t2;
    var o1 := Extend(o, CapDrop, spec.capDrop);
    var o2 := Extend(o1, SecurityOpt, spec.securityOpt);
    var o3 := Extend(o2, Tmpfs, Joined(spec.tmpfsMounts, ':'));
    var o4 := Extend(o3, Volume, spec.bindMounts);
    ParseRepeat(CapDrop, spec.capDrop, t1, o);
    ParseRepeat(SecurityOpt, spec.securityOpt, t2, o1);
    ParseRepeat(Tmpfs, Joined(spec.tmpfsMounts, ':'), t3, o2);
    ParseRepeat(Volume, spec.bindMounts, t4, o3);
    ParseLaterLists(spec, rest, o4);
  }

  lemma ParseLaterLists(spec: LaunchSpec, rest: seq<string>, o: Options)
    ensures ParseOptions(PrintLaterLists(spec, rest), o) == ParseOptions(rest, LaterOptions(spec, o))
  {
    var t4 := Repeat(Label, Joined(spec.labels, '=')) + rest;
    var t3 := Repeat(Env, Joined(spec.environment, '=')) + t4;
    var t2 := Repeat(AddHost, Joined(spec.extraHosts, ':')) + t3;
    var t1 := Repeat(Dns, spec.dns) + t2;
    var o1 := Extend(o, Device, spec.devices);
    var o2 := Extend(o1, Dns, spec.dns);
    var o3 := Extend(o2, AddHost, Joined(spec.extraHosts, ':'));
    var o4 := Extend(o3, Env, Joined(spec.environment, '='));
    ParseRepeat(Device, spec.devices, t1, o);
    ParseRepeat(Dns, spec.dns, t2, o1);
    ParseRepeat(AddHost, Joined(spec.extraHosts, ':'), t3, o2);
    ParseRepeat(Env, Joined(spec.environment, '='), t4, o3);
    ParseRepeat(Label, Joined(spec.labels, '='), rest, o4);
  }

  /** The lists of a spec added to what was read. */
  function ListOptions(spec: LaunchSpec, o: Options): Options {
    LaterOptions(spec, o.(capDrop := o.capDrop + spec.capDrop, securityOpt := o.securityOpt + spec.securityOpt,
                          tmpfs := o.tmpfs + Joined(spec.tmpfsMounts, ':'), binds := o.binds + spec.bindMounts))
  }

  function LaterOptions(spec: LaunchSpec, o: Options): Options {
    o.(devices := o.devices + spec.devices, dns := o.dns + spec.dns,
       extraHosts := o.extraHosts + Joined(spec.extraHosts, ':'),
       environment := o.environment + Joined(spec.environment, '='),
       labels := o.labels + Joined(spec.labels, '='))
  }

  lemma ParseReadOnly(spec: LaunchSpec, rest: seq<string>, o: Options)
    requires !o.readOnly
    ensures ParseOptions(PrintReadOnly(spec) + rest, o) == ParseOptions(rest, o.(readOnly := spec.readOnlyRootfs))
  {
    if spec.readOnlyRootfs {
      ClassifyFlag(ReadOnly);
      assert (PrintReadOnly(spec) + rest)[1..] == rest;
    } else {
      assert PrintReadOnly(spec) + rest == rest;
    }
  }

  lemma AllOptions(spec: LaunchSpec)
    ensures ListOptions(spec, ScalarOptions(spec).(readOnly := spec.readOnlyRootfs)) == ReadOptions(spec)
  {
    assert forall x: seq<string> :: [] + x == x;
  }

  /** The loop arrives at the image with every option of the spec read. */
  lemma ParsePrinted(spec: LaunchSpec)
    ensures ParseOptions(Print(spec), NO_OPTIONS) == ParseOptions([spec.image] + spec.command, ReadOptions(spec))
  {
    var tail := [spec.image] + spec.command;
    var lists := PrintLists(spec, tail);
    var o := ScalarOptions(spec);
    ParseScalars(spec, PrintReadOnly(spec) + lists);
    ParseReadOnly(spec, lists, o);
    ParseLists(spec, tail, o.(readOnly := spec.readOnlyRootfs));
    AllOptions(spec);
  }

  /** Whatever is parsed, the image is not a dashed word. */
  lemma {:induction false} ParsedImageIsPlain(args: seq<string>, opts: Options)
    ensures ParseOptions(args, opts).Ok? ==> !Dashed(ParseOptions(args, opts).value.1)
    decreases |args|
  {
    if args != [] {
      var o := Classify(args[0]);
      if o == Some(ReadOnly) {
        ParsedImageIsPlain(args[1..], opts.(readOnly := true));
      } else if o.Some? && |args| > 1 && SetOption(opts, o.value, args[1]).Ok? {
        ParsedImageIsPlain(args[2..], SetOption(opts, o.value, args[1]).value);
      }
    }
  }

  /** The dictionary a list of pairs builds; a later pair wins. */
  function MapOf(ps: seq<(string, string)>): map<string, string> {
    if ps == [] then map[] else MapOf(ps[..|ps| - 1])[ps[|ps| - 1].0 := ps[|ps| - 1].1]
  }

  lemma {:induction false} MapOfKeys(ps: seq<(string, string)>)
    ensures forall i :: 0 <= i < |ps| ==> ps[i].0 in MapOf(ps)
  {
    if ps != [] {
      MapOfKeys(ps[..|ps| - 1]);
      forall i | 0 <= i < |ps| ensures ps[i].0 in MapOf(ps) {
        if i < |ps| - 1 { assert ps[..|ps| - 1][i] == ps[i]; }
      }
    }
  }

  predicate KeysFree(ps: seq<(string, string)>, c: char) { forall i :: 0 <= i < |ps| ==> c !in ps[i].0 }

  lemma {:induction false} JoinedInit(ps: seq<(string, string)>, c: char)
    requires ps != []
    ensures Joined(ps, c)[..|ps| - 1] == Joined(ps[..|ps| - 1], c)
  {
    assert forall i :: 0 <= i < |ps| - 1 ==> Joined(ps, c)[i] == Joined(ps[..|ps| - 1], c)[i];
  }

  /** Mounts come back exactly when no path holds a colon. */
  lemma {:induction false} TmpfsRoundTrip(ps: seq<(string, string)>)
    ensures KeysFree(ps, ':') ==> ParseTmpfs(Joined(ps, ':')) == MapOf(ps)
    ensures forall k :: k in ParseTmpfs(Joined(ps, ':')) ==> ':' !in k
    ensures ParseTmpfs(Joined(ps, ':')) == MapOf(ps) ==> KeysFree(ps, ':')
  {
    if ps != [] {
      var last := ps[|ps| - 1];
      JoinedInit(ps, ':');
      TmpfsRoundTrip(ps[..|ps| - 1]);
      PartitionJoin(last.0, ':', last.1);
      assert last.0 + [':'] + last.1 == Joined(ps, ':')[|ps| - 1];
    }
    MapOfKeys(ps);
  }

  /** One more printed label. */
  lemma LabelStep(ps: seq<(string, string)>)
    requires ps != [] && ParsePairs(Joined(ps[..|ps| - 1], '=')).Ok?
    ensures var (key, value) := Partition(Join(ps[|ps| - 1], '='), '=');
      && ParsePairs(Joined(ps, '=')) == Ok(ParsePairs(Joined(ps[..|ps| - 1], '=')).value[key := value])
      && '=' !in key && ((key, value) == ps[|ps| - 1] <==> '=' !in ps[|ps| - 1].0)
  {
    var last := ps[|ps| - 1];
    JoinedInit(ps, '=');
    PartitionJoin(last.0, '=', last.1);
    assert Join(last, '=')[|last.0|] == '=';
    assert Joined(ps, '=')[|ps| - 1] == Join(last, '=');
  }

  lemma {:induction false} LabelsParse(ps: seq<(string, string)>)
    ensures ParsePairs(Joined(ps, '=')).Ok?
    ensures forall k :: k in ParsePairs(Joined(ps, '=')).value ==> '=' !in k
    ensures KeysFree(ps, '=') ==> ParsePairs(Joined(ps, '=')) == Ok(MapOf(ps))
  {
    if ps != [] {
      LabelsParse(ps[..|ps| - 1]);
      LabelStep(ps);
    }
  }

  /** Labels come back exactly when no key holds an equals sign. */
  lemma LabelsRoundTrip(ps: seq<(string, string)>)
    ensures ParsePairs(Joined(ps, '=')) == Ok(MapOf(ps)) <==> KeysFree(ps, '=')
  {
    LabelsParse(ps);
    MapOfKeys(ps);
  }

  predicate HostsPlain(ps: seq<(string, string)>) {
    forall i :: 0 <= i < |ps| ==> ':' !in ps[i].0 && ps[i].0 != "" && ps[i].1 != ""
  }

  lemma HostItem(host: string, value: string)
    ensures var (h, v) := Partition(host + [':'] + value, ':');
            && ':' !in h
            && (host == "" ==> h == "")
            && (':' !in host ==> (h, v) == (host, value))
  {
    PartitionJoin(host, ':', value);
    if host == "" { assert (host + [':'] + value)[0] == ':'; }
  }

  lemma {:induction false} PlainHostsParse(ps: seq<(string, string)>)
    requires HostsPlain(ps)
    ensures ParseHosts(Joined(ps, ':')) == Ok(MapOf(ps))
  {
    if ps != [] {
      var init, last := ps[..|ps| - 1], ps[|ps| - 1];
      JoinedInit(ps, ':');
      PlainHostsParse(init);
      HostItem(last.0, last.1);
      assert last.0 + [':'] + last.1 == Joined(ps, ':')[|ps| - 1];
    }
  }

  lemma {:induction false} ParsedHostsArePlain(ps: seq<(string, string)>)
    requires ParseHosts(Joined(ps, ':')).Ok?
    ensures forall k :: k in ParseHosts(Joined(ps, ':')).value ==> ':' !in k
    ensures forall i :: 0 <= i < |ps| && ':' !in ps[i].0 ==> ps[i].0 != "" && ps[i].1 != ""
  {
    if ps != [] {
      var init, last := ps[..|ps| - 1], ps[|ps| - 1];
      JoinedInit(ps, ':');
      ParsedHostsArePlain(init);
      HostItem(last.0, last.1);
      assert last.0 + [':'] + last.1 == Joined(ps, ':')[|ps| - 1];
      forall i | 0 <= i < |ps| && ':' !in ps[i].0 ensures ps[i].0 != "" && ps[i].1 != "" {
        if i < |init| { assert init[i] == ps[i]; }
      }
    }
  }

  /** Extra hosts come back exactly when every name is non-empty and free of
      colons and every address is non-empty. */
  lemma HostsRoundTrip(ps: seq<(string, string)>)
    ensures ParseHosts(Joined(ps, ':')) == Ok(MapOf(ps)) <==> HostsPlain(ps)
  {
    if HostsPlain(ps) { PlainHostsParse(ps); }
    if ParseHosts(Joined(ps, ':')) == Ok(MapOf(ps)) {
      ParsedHostsArePlain(ps);
      MapOfKeys(ps);
    }
  }

  /** What a spec asks for. */
  function Wanted(spec: LaunchSpec): Container {
    Container(
      Some(spec.containerName), Some(spec.networkMode), Some(spec.user), Some(spec.pidsLimit), Some(spec.memoryBytes),
      Some(spec.nanoCpus), spec.readOnlyRootfs, spec.capDrop, spec.securityOpt, MapOf(spec.tmpfsMounts), spec.bindMounts,
      spec.devices, spec.dns, MapOf(spec.extraHosts), Joined(spec.environment, '='), MapOf(spec.labels),
      spec.image, spec.command)
  }

  /** What a caller can check before printing. */
  predicate Printable(spec: LaunchSpec) {
    && !Dashed(spec.image)
    && KeysFree(spec.labels, '=')
    && KeysFree(spec.tmpfsMounts, ':')
    && HostsPlain(spec.extraHosts)
    && spec.nanoCpus % HUNDREDTH == 0
  }

  /** What is assembled from a spec's options is the spec exactly under the
      conditions on its lists and its CPU share. */
  lemma AssembledExactly(spec: LaunchSpec)
    ensures Assemble(ReadOptions(spec), spec.image, spec.command) == Ok(Wanted(spec)) <==>
      KeysFree(spec.labels, '=') && KeysFree(spec.tmpfsMounts, ':') && HostsPlain(spec.extraHosts)
      && spec.nanoCpus % HUNDREDTH == 0
  {
    TmpfsRoundTrip(spec.tmpfsMounts);
    LabelsRoundTrip(spec.labels);
    HostsRoundTrip(spec.extraHosts);
    HundredthsExact(spec.nanoCpus);
  }

  /** The image is read as such exactly when it is not dashed. */
  lemma ImageIsRead(spec: LaunchSpec)
    ensures !Dashed(spec.image) ==> ParseCreate(Print(spec)) == Assemble(ReadOptions(spec), spec.image, spec.command)
    ensures Dashed(spec.image) ==> ParseCreate(Print(spec)) != Ok(Wanted(spec))
  {
    ParsePrinted(spec);
    var tail := [spec.image] + spec.command;
    if Dashed(spec.image) {
      ParsedImageIsPlain(tail, ReadOptions(spec));
    } else {
      if Classify(spec.image).Some? { FlagsAreDashed(spec.image); }
      assert tail[1..] == spec.command;
      assert ParseOptions(tail, ReadOptions(spec)) == Ok((ReadOptions(spec), spec.image, spec.command));
    }
  }

  /** Parsing undoes printing, for every spec, exactly when the spec is printable. */
  lemma ParseUndoesPrint(spec: LaunchSpec)
    ensures ParseCreate(Print(spec)) == Ok(Wanted(spec)) <==> Printable(spec)
  {
    ImageIsRead(spec);
    AssembledExactly(spec);
  }
}
