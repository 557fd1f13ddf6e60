/** The review of user code before it runs (sandbox/runtime/runner.py): a mutable
    visitor over the syntax tree, against a pure reading of the whole tree. */
module PolicyReview {
  import opened Prelude
  import Text

  /** The syntax tree, as far as the visitor tells nodes apart.  The children of a
      call are its function, then its arguments and keywords. */
  datatype Node =
    | Import(names: seq<string>)
    | ImportFrom(from: Option<string>)
    | Call(func: Node, args: seq<Node>)
    | Attribute(value: Node, attr: string)
    | Name(id: string)
    | Other(children: seq<Node>)

  datatype ErrorCode = BlockedImport | DisallowedBehavior

  datatype Review = Allowed | Denied(code: ErrorCode, symbol: seq<string>)

  const APPROVED_IMPORT_ROOTS: set<string> := {
    "collections", "csv", "datetime", "decimal", "fractions", "functools", "io", "itertools", "json", "math",
    "matplotlib", "numpy", "os", "pandas", "pathlib", "random", "re", "statistics", "string", "textwrap" }

  const BLOCKED_IMPORT_ROOTS: set<string> := {
    "asyncio", "ctypes", "ensurepip", "ftplib", "http", "importlib", "multiprocessing", "pip", "requests",
    "socket", "ssl", "subprocess", "telnetlib", "urllib", "venv" }

  const FORBIDDEN_NAME_CALLS: set<string> := {"compile", "eval", "exec", "__import__"}

  const FORBIDDEN_ATTRIBUTE_CHAINS: set<seq<string>> := {
    ["os", "_exit"], ["os", "abort"], ["os", "execv"], ["os", "execve"], ["os", "execvp"], ["os", "execvpe"],
    ["os", "fork"], ["os", "forkpty"], ["os", "kill"], ["os", "killpg"], ["os", "popen"], ["os", "posix_spawn"],
    ["os", "posix_spawnp"], ["os", "spawnl"], ["os", "spawnle"], ["os", "spawnlp"], ["os", "spawnlpe"],
    ["os", "spawnv"], ["os", "spawnve"], ["os", "spawnvp"], ["os", "spawnvpe"], ["os", "system"],
    ["socket", "create_connection"], ["socket", "socket"], ["subprocess", "Popen"], ["subprocess", "call"],
    ["subprocess", "check_call"], ["subprocess", "check_output"], ["subprocess", "run"],
    ["urllib", "request", "urlopen"] }

  /** The part of a module name before the first dot. */
  function Root(name: string): string { Text.Partition(name, '.').0 }

  predicate RootRefused(root: string) { root in BLOCKED_IMPORT_ROOTS || root !in APPROVED_IMPORT_ROOTS }

  /** _attribute_chain: the trailing attributes, after the name they start from
      if they start from a name. */
  function Chain(n: Node): seq<string> {
    match n
    case Attribute(value, attr) => Chain(value) + [attr]
    case Name(id) => [id]
    case _ => []
  }

  function Reversed(s: seq<string>): seq<string> {
    if s == [] then [] else [s[|s| - 1]] + Reversed(s[..|s| - 1])
  }

  method AttributeChain(node: Node) returns (chain: seq<string>)
    ensures chain == Chain(node)
  {
    var parts: seq<string> := [];
    var current := node;
    while current.Attribute?
      invariant Chain(node) == Chain(current) + Reversed(parts)
      decreases current
    {
      assert (parts + [current.attr])[..|parts|] == parts;
      parts := parts + [current.attr];
      current := current.value;
    }
    if current.Name? {
      assert (parts + [current.id])[..|parts|] == parts;
      parts := parts + [current.id];
    }
    return Reversed(parts);
  }

  // ------------------------------------------------------- the specification

  /** The nodes of a tree, a node before its children, children left to right. */
  function PreOrder(n: Node): seq<Node>
    decreases n
  {
    [n] + match n
          case Call(func, args) => PreOrder(func) + PreOrderAll(args)
          case Attribute(value, _) => PreOrder(value)
          case Other(children) => PreOrderAll(children)
          case _ => []
  }

  function PreOrderAll(ns: seq<Node>): seq<Node>
    decreases ns
  {
    if ns == [] then [] else PreOrderAll(ns[..|ns| - 1]) + PreOrder(ns[|ns| - 1])
  }

  /** n is a node of the tree t. */
  ghost predicate InTree(n: Node, t: Node)
    decreases t
  {
    || n == t
    || (match t
        case Call(func, args) => InTree(n, func) || InSome(n, args)
        case Attribute(value, _) => InTree(n, value)
        case Other(children) => InSome(n, children)
        case _ => false)
  }

  ghost predicate InSome(n: Node, ts: seq<Node>)
    decreases ts
  {
    exists i :: 0 <= i < |ts| && InTree(n, ts[i])
  }

  /** The rules, node by node. */
  predicate Violates(n: Node) {
    match n
    case Import(names) => exists i :: 0 <= i < |names| && RootRefused(Root(names[i]))
    case ImportFrom(from) => from.Some? && from.value != "" && RootRefused(Root(from.value))
    case Call(func, _) => if func.Name? && func.id in FORBIDDEN_NAME_CALLS then true else Chain(func) in FORBIDDEN_ATTRIBUTE_CHAINS
    case _ => false
  }

  /** The first refused name of an import. */
  function FirstRefused(names: seq<string>): Option<string> {
    if names == [] then None
    else
      var front := FirstRefused(names[..|names| - 1]);
      if front.Some? then front
      else if RootRefused(Root(names[|names| - 1])) then Some(Root(names[|names| - 1])) else None
  }

  /** What a node on its own is denied for. */
  function Own(n: Node): (r: Review)
  {
    match n
    case Import(names) =>
      var root := FirstRefused(names);
      if root.Some? then Denied(BlockedImport, [root.value]) else Allowed
    case ImportFrom(from) =>
      if from.Some? && from.value != "" && RootRefused(Root(from.value)) then Denied(BlockedImport, [Root(from.value)]) else Allowed
    case Call(func, _) =>
      if func.Name? && func.id in FORBIDDEN_NAME_CALLS then Denied(DisallowedBehavior, [func.id])
      else if Chain(func) in FORBIDDEN_ATTRIBUTE_CHAINS then Denied(DisallowedBehavior, Chain(func))
      else Allowed
    case _ => Allowed
  }

  /** _set_review: only the first denial is kept. */
  function Recorded(review: Review, next: Review): Review { if review.Allowed? then next else review }

  /** The reviews of a list of nodes, recorded in order. */
  function RecordAll(review: Review, ns: seq<Node>): Review {
    if ns == [] then review else Recorded(RecordAll(review, ns[..|ns| - 1]), Own(ns[|ns| - 1]))
  }

  lemma {:induction false} RecordAppend(review: Review, a: seq<Node>, b: seq<Node>)
    ensures RecordAll(review, a + b) == RecordAll(RecordAll(review, a), b)
    decreases |b|
  {
    if b == [] {
      assert a + b == a;
    } else {
      assert (a + b)[..|a + b| - 1] == a + b[..|b| - 1];
      RecordAppend(review, a, b[..|b| - 1]);
    }
  }

  lemma RecordOne(review: Review, n: Node)
    ensures RecordAll(review, [n]) == Recorded(review, Own(n))
  {
    assert [n][..0] == [];
    assert RecordAll(review, []) == review;
  }

  // ------------------------------------------------------------- the visitor

  class PolicyVisitor {
    var review: Review

    constructor ()
      ensures review == Allowed
    {
      review := Allowed;
    }

    method SetReview(next: Review)
      modifies this
      ensures review == Recorded(old(review), next)
    {
      if review.Allowed? {
        review := next;
      }
    }

    method Visit(node: Node)
      modifies this
      ensures review == RecordAll(old(review), PreOrder(node))
      decreases node, 2
    {
      RecordOne(review, node);
      match node {
        case Import(_) => VisitImport(node);
        case ImportFrom(_) => VisitImportFrom(node);
        case Call(_, _) => VisitCall(node);
        case _ => GenericVisit(node);
      }
    }

    method VisitImport(node: Node)
      requires node.Import?
      modifies this
      ensures review == RecordAll(old(review), PreOrder(node))
    {
      RecordOne(review, node);
      var names := node.names;
      ghost var before := review;
      for i := 0 to |names|
        invariant review == Recorded(before, Own(Import(names[..i])))
      {
        assert names[..i + 1][..i] == names[..i];
        var root := Root(names[i]);
        if root in BLOCKED_IMPORT_ROOTS || root !in APPROVED_IMPORT_ROOTS {
          SetReview(Denied(BlockedImport, [root]));
        }
      }
      assert names[..|names|] == names;
      assert PreOrder(node) == [node];
    }

    method VisitImportFrom(node: Node)
      requires node.ImportFrom?
      modifies this
      ensures review == RecordAll(old(review), PreOrder(node))
    {
      RecordOne(review, node);
      if node.from.Some? && node.from.value != "" {
        var root := Root(node.from.value);
        if root in BLOCKED_IMPORT_ROOTS || root !in APPROVED_IMPORT_ROOTS {
          SetReview(Denied(BlockedImport, [root]));
        }
      }
      assert PreOrder(node) == [node];
    }

    method VisitCall(node: Node)
      requires node.Call?
      modifies this
      ensures review == RecordAll(old(review), PreOrder(node))
      decreases node, 1
    {
      RecordOne(review, node);
      RecordAppend(review, [node], PreOrder(node.func) + PreOrderAll(node.args));
      if node.func.Name? && node.func.id in FORBIDDEN_NAME_CALLS {
        SetReview(Denied(DisallowedBehavior, [node.func.id]));
      } else {
        var chain := AttributeChain(node.func);
        if chain in FORBIDDEN_ATTRIBUTE_CHAINS {
          SetReview(Denied(DisallowedBehavior, chain));
        }
      }
      assert review == RecordAll(old(review), [node]);
      RecordAppend(review, PreOrder(node.func), PreOrderAll(node.args));
      Visit(node.func);
      VisitAll(node, node.args);
    }

    method GenericVisit(node: Node)
      requires node.Attribute? || node.Name? || node.Other?
      modifies this
      ensures review == RecordAll(old(review), PreOrder(node))
      decreases node, 1
    {
      RecordOne(review, node);
      if node.Attribute? {
        RecordAppend(review, [node], PreOrder(node.value));
        Visit(node.value);
      } else if node.Other? {
        RecordAppend(review, [node], PreOrderAll(node.children));
        VisitAll(node, node.children);
      } else {
        assert PreOrder(node) == [node];
      }
    }

    /** The loop of generic_visit over a list of children. */
    method VisitAll(ghost parent: Node, nodes: seq<Node>)
      requires forall i :: 0 <= i < |nodes| ==> nodes[i] < parent
      modifies this
      ensures review == RecordAll(old(review), PreOrderAll(nodes))
      decreases parent, 0
    {
      ghost var before := review;
      for i := 0 to |nodes|
        invariant review == RecordAll(before, PreOrderAll(nodes[..i]))
      {
        assert nodes[..i + 1][..i] == nodes[..i];
        RecordAppend(before, PreOrderAll(nodes[..i]), PreOrder(nodes[i]));
        Visit(nodes[i]);
      }
      assert nodes[..|nodes|] == nodes;
    }
  }

  /** review_python_source, given the parsed tree. */
  method ReviewPythonSource(tree: Node) returns (review: Review)
    ensures review == RecordAll(Allowed, PreOrder(tree))
  {
    var visitor := new PolicyVisitor();
    visitor.Visit(tree);
    return visitor.review;
  }

  // ------------------------------------------------------------ main results

  lemma {:induction false} FirstRefusedExactly(names: seq<string>)
    ensures FirstRefused(names).Some? <==> exists i :: 0 <= i < |names| && RootRefused(Root(names[i]))
  {
    if names != [] {
      var n := |names| - 1;
      FirstRefusedExactly(names[..n]);
      if FirstRefused(names[..n]).Some? {
        var i :| 0 <= i < n && RootRefused(Root(names[..n][i]));
        assert names[i] == names[..n][i];
      } else {
        forall i | 0 <= i < n ensures !RootRefused(Root(names[i])) { assert names[i] == names[..n][i]; }
      }
    }
  }

  lemma OwnExactly(n: Node)
    ensures Own(n).Denied? <==> Violates(n)
  {
    if n.Import? { FirstRefusedExactly(n.names); }
  }

  predicate FirstViolation(ns: seq<Node>, i: int) {
    0 <= i < |ns| && Violates(ns[i]) && forall j :: 0 <= j < i ==> !Violates(ns[j])
  }

  /** Recording keeps the first denial of the list, and stays allowed exactly when
      there is none. */
  lemma {:induction false} RecordedFirst(ns: seq<Node>)
    ensures RecordAll(Allowed, ns).Allowed? <==> forall i :: 0 <= i < |ns| ==> !Violates(ns[i])
    ensures forall i :: FirstViolation(ns, i) ==> RecordAll(Allowed, ns) == Own(ns[i])
  {
    if ns != [] {
      var n := |ns| - 1;
      RecordedFirst(ns[..n]);
      OwnExactly(ns[n]);
      FirstOfSnoc(ns, n);
    }
  }

  lemma FirstOfSnoc(ns: seq<Node>, n: nat)
    requires |ns| == n + 1
    ensures (forall i :: 0 <= i < |ns| ==> !Violates(ns[i])) <==> (forall i :: 0 <= i < n ==> !Violates(ns[..n][i])) && !Violates(ns[n])
    ensures forall i :: FirstViolation(ns, i) ==> FirstViolation(ns[..n], i) || (i == n && forall j :: 0 <= j < n ==> !Violates(ns[..n][j]))
  {
    assert forall i :: 0 <= i < n ==> ns[..n][i] == ns[i];
  }

  /** Pre-order lists exactly the nodes of the tree. */
  lemma {:induction false} PreOrderIsTree(n: Node, t: Node)
    ensures n in PreOrder(t) <==> InTree(n, t)
    decreases t, 1, 0
  {
    match t {
      case Call(func, args) =>
        PreOrderIsTree(n, func);
        PreOrderAllIsTrees(n, args, t);
      case Attribute(value, _) => PreOrderIsTree(n, value);
      case Other(children) => PreOrderAllIsTrees(n, children, t);
      case _ =>
    }
  }

  lemma {:induction false} PreOrderAllIsTrees(n: Node, ts: seq<Node>, parent: Node)
    requires forall i :: 0 <= i < |ts| ==> ts[i] < parent
    ensures n in PreOrderAll(ts) <==> InSome(n, ts)
    decreases parent, 0, |ts|
  {
    if ts != [] {
      var k := |ts| - 1;
      PreOrderAllIsTrees(n, ts[..k], parent);
      PreOrderIsTree(n, ts[k]);
      InSomeSnoc(n, ts, k);
      InEither(n, PreOrderAll(ts[..k]), PreOrder(ts[k]));
      assert PreOrderAll(ts) == PreOrderAll(ts[..k]) + PreOrder(ts[k]);
    }
  }

  lemma InEither<T>(n: T, a: seq<T>, b: seq<T>)
    ensures n in a + b <==> n in a || n in b
  {
  }

  lemma InSomeSnoc(n: Node, ts: seq<Node>, k: nat)
    requires |ts| == k + 1
    ensures InSome(n, ts) <==> InSome(n, ts[..k]) || InTree(n, ts[k])
  {
    assert forall i :: 0 <= i < k ==> ts[..k][i] == ts[i];
    if InSome(n, ts[..k]) {
      var i :| 0 <= i < k && InTree(n, ts[..k][i]);
      assert InTree(n, ts[i]);
    }
  }

  /** The visitor allows a program exactly when no node anywhere in it violates
      the rules; otherwise it reports the denial of the first violating node in
      pre-order. */
  lemma ReviewExactly(tree: Node)
    ensures RecordAll(Allowed, PreOrder(tree)).Allowed? <==> forall n :: InTree(n, tree) ==> !Violates(n)
    ensures forall i :: FirstViolation(PreOrder(tree), i) ==> RecordAll(Allowed, PreOrder(tree)) == Own(PreOrder(tree)[i])
  {
    RecordedFirst(PreOrder(tree));
    forall n ensures n in PreOrder(tree) <==> InTree(n, tree) { PreOrderIsTree(n, tree); }
    if !(RecordAll(Allowed, PreOrder(tree)).Allowed?) {
      var i :| 0 <= i < |PreOrder(tree)| && Violates(PreOrder(tree)[i]);
      assert InTree(PreOrder(tree)[i], tree);
    }
  }

  // -------------------------------------------------------- source order

  function Children(n: Node): (r: seq<Node>)
    ensures forall i :: 0 <= i < |r| ==> r[i] < n
  {
    match n
    case Call(func, args) => [func] + args
    case Attribute(value, _) => [value]
    case Other(children) => children
    case _ => []
  }

  /** A place in a tree: which child to take, level by level. */
  predicate IsPath(t: Node, p: seq<nat>)
    decreases |p|
  {
    p == [] || (p[0] < |Children(t)| && IsPath(Children(t)[p[0]], p[1..]))
  }

  function At(t: Node, p: seq<nat>): Node
    requires IsPath(t, p)
    decreases |p|
  {
    if p == [] then t else At(Children(t)[p[0]], p[1..])
  }

  /** p is before q in the source: above it, or to the left. */
  predicate Before(p: seq<nat>, q: seq<nat>)
    decreases |p|
  {
    q != [] && (p == [] || p[0] < q[0] || (p[0] == q[0] && Before(p[1..], q[1..])))
  }

  lemma {:induction false} BeforeIsTotal(p: seq<nat>, q: seq<nat>)
    ensures p == q || Before(p, q) || Before(q, p)
  {
    if p != [] && q != [] && p[0] == q[0] {
      BeforeIsTotal(p[1..], q[1..]);
      assert p == [p[0]] + p[1..] && q == [q[0]] + q[1..];
    }
  }

  lemma {:induction false} PreOrderAllAppend(a: seq<Node>, b: seq<Node>)
    ensures PreOrderAll(a + b) == PreOrderAll(a) + PreOrderAll(b)
    decreases |b|
  {
    if b == [] {
      assert a + b == a;
    } else {
      assert (a + b)[..|a + b| - 1] == a + b[..|b| - 1];
      PreOrderAllAppend(a, b[..|b| - 1]);
    }
  }

  lemma PreOrderOfOne(n: Node)
    ensures PreOrderAll([n]) == PreOrder(n)
  {
    assert [n][..0] == [] && PreOrderAll([]) == [];
  }

  lemma PreOrderIsChildren(t: Node)
    ensures PreOrder(t) == [t] + PreOrderAll(Children(t))
  {
    match t {
      case Call(func, args) =>
        PreOrderOfOne(func);
        PreOrderAllAppend([func], args);
      case Attribute(value, _) => PreOrderOfOne(value);
      case _ =>
    }
  }

  /** How many nodes are listed before a place. */
  function Rank(t: Node, p: seq<nat>): nat
    requires IsPath(t, p)
    decreases |p|
  {
    if p == [] then 0 else 1 + |PreOrderAll(Children(t)[..p[0]])| + Rank(Children(t)[p[0]], p[1..])
  }

  lemma PreOrderAround(a: seq<Node>, n: Node, b: seq<Node>)
    ensures PreOrderAll(a + [n] + b) == PreOrderAll(a) + PreOrder(n) + PreOrderAll(b)
  {
    PreOrderAllAppend(a + [n], b);
    PreOrderAllAppend(a, [n]);
    PreOrderOfOne(n);
  }

  /** Where the nodes of one child are listed. */
  lemma ListedAmong(ns: seq<Node>, i: nat)
    requires i < |ns|
    ensures var before := |PreOrderAll(ns[..i])|;
      && before + |PreOrder(ns[i])| <= |PreOrderAll(ns)|
      && forall r :: 0 <= r < |PreOrder(ns[i])| ==> PreOrderAll(ns)[before + r] == PreOrder(ns[i])[r]
  {
    PreOrderAround(ns[..i], ns[i], ns[i + 1..]);
    assert ns == ns[..i] + [ns[i]] + ns[i + 1..];
  }

  lemma ListedBelow(t: Node, i: nat, r: nat)
    requires i < |Children(t)| && r < |PreOrder(Children(t)[i])|
    ensures var k := 1 + |PreOrderAll(Children(t)[..i])| + r;
      k < |PreOrder(t)| && PreOrder(t)[k] == PreOrder(Children(t)[i])[r]
  {
    PreOrderIsChildren(t);
    ListedAmong(Children(t), i);
    OneFurther(t, PreOrderAll(Children(t)), PreOrder(Children(t)[i]), |PreOrderAll(Children(t)[..i])|, r);
  }

  lemma OneFurther(n: Node, all: seq<Node>, own: seq<Node>, before: nat, r: nat)
    requires r < |own| && before + |own| <= |all| && forall q :: 0 <= q < |own| ==> all[before + q] == own[q]
    ensures 1 + before + r < |[n] + all| && ([n] + all)[1 + before + r] == own[r]
  {
    assert ([n] + all)[1 + (before + r)] == all[before + r];
  }

  lemma {:induction false} RankLists(t: Node, p: seq<nat>)
    requires IsPath(t, p)
    ensures Rank(t, p) < |PreOrder(t)| && PreOrder(t)[Rank(t, p)] == At(t, p)
    decreases |p|
  {
    if p == [] {
      PreOrderIsChildren(t);
    } else {
      RankLists(Children(t)[p[0]], p[1..]);
      ListedBelow(t, p[0], Rank(Children(t)[p[0]], p[1..]));
    }
  }

  lemma {:induction false} RankFollowsSource(t: Node, p: seq<nat>, q: seq<nat>)
    requires IsPath(t, p) && IsPath(t, q) && Before(p, q)
    ensures Rank(t, p) < Rank(t, q)
    decreases |p|
  {
    if p != [] {
      var ns := Children(t);
      if p[0] == q[0] {
        RankFollowsSource(ns[p[0]], p[1..], q[1..]);
      } else {
        RankLists(ns[p[0]], p[1..]);
        assert ns[..q[0]][..p[0]] == ns[..p[0]] && ns[..q[0]][p[0]] == ns[p[0]];
        ListedAmong(ns[..q[0]], p[0]);
      }
    }
  }

  /** Every node that is listed is at some place. */
  lemma {:induction false} PlaceOf(t: Node, i: nat) returns (p: seq<nat>)
    requires i < |PreOrder(t)|
    ensures IsPath(t, p) && Rank(t, p) == i
    decreases t, 1, 0
  {
    PreOrderIsChildren(t);
    if i == 0 {
      p := [];
    } else {
      assert Children(t)[..|Children(t)|] == Children(t);
      p := PlaceAmong(t, |Children(t)|, i - 1);
    }
  }

  lemma {:induction false} PlaceAmong(t: Node, n: nat, i: nat) returns (p: seq<nat>)
    requires n <= |Children(t)| && i < |PreOrderAll(Children(t)[..n])|
    ensures IsPath(t, p) && Rank(t, p) == 1 + i
    decreases t, 0, n
  {
    var ns := Children(t);
    assert ns[..n][..n - 1] == ns[..n - 1];
    var before := |PreOrderAll(ns[..n - 1])|;
    if i < before {
      p := PlaceAmong(t, n - 1, i);
    } else {
      var rest := PlaceOf(ns[n - 1], i - before);
      p := [n - 1] + rest;
      assert p[1..] == rest;
    }
  }

  /** p is the first place of a tree whose node violates the rules. */
  ghost predicate FirstPlace(t: Node, p: seq<nat>) {
    IsPath(t, p) && Violates(At(t, p)) && forall q :: IsPath(t, q) && Before(q, p) ==> !Violates(At(t, q))
  }

  lemma FirstPlaceIsFirst(t: Node, p: seq<nat>)
    requires FirstPlace(t, p)
    ensures FirstViolation(PreOrder(t), Rank(t, p)) && PreOrder(t)[Rank(t, p)] == At(t, p)
  {
    RankLists(t, p);
    forall j | 0 <= j < Rank(t, p) ensures !Violates(PreOrder(t)[j]) {
      var q := PlaceOf(t, j);
      RankLists(t, q);
      BeforeIsTotal(p, q);
      if Before(p, q) { RankFollowsSource(t, p, q); }
    }
  }

  lemma PlacesAreNodes(t: Node)
    ensures (forall p :: IsPath(t, p) ==> !Violates(At(t, p))) <==> (forall i :: 0 <= i < |PreOrder(t)| ==> !Violates(PreOrder(t)[i]))
  {
    if forall i :: 0 <= i < |PreOrder(t)| ==> !Violates(PreOrder(t)[i]) {
      forall p | IsPath(t, p) ensures !Violates(At(t, p)) { RankLists(t, p); }
    } else {
      var i :| 0 <= i < |PreOrder(t)| && Violates(PreOrder(t)[i]);
      var p := PlaceOf(t, i);
      RankLists(t, p);
      assert Violates(At(t, p));
    }
  }

  /** The review in terms of the source: allowed exactly when nothing at any place
      violates the rules; otherwise the denial of the violation no other is before. */
  lemma ReviewReportsFirst(tree: Node)
    ensures RecordAll(Allowed, PreOrder(tree)).Allowed? <==> forall p :: IsPath(tree, p) ==> !Violates(At(tree, p))
    ensures forall p :: FirstPlace(tree, p) ==> RecordAll(Allowed, PreOrder(tree)) == Own(At(tree, p))
  {
    RecordedFirst(PreOrder(tree));
    PlacesAreNodes(tree);
    forall p | FirstPlace(tree, p) ensures RecordAll(Allowed, PreOrder(tree)) == Own(At(tree, p)) {
      FirstPlaceIsFirst(tree, p);
    }
  }

  /** What a denial says: of an import, the root of the first name that is refused;
      of a call, the name or the chain that is forbidden. */
  lemma DenialTells(n: Node)
    requires Violates(n)
    ensures Own(n).Denied? && Own(n).code == (if n.Call? then DisallowedBehavior else BlockedImport)
    ensures n.ImportFrom? ==> n.from.Some? && Own(n).symbol == [Root(n.from.value)]
    ensures n.Import? ==> exists i :: FirstRefusal(n.names, i) && Own(n).symbol == [Root(n.names[i])]
    ensures n.Call? ==> Own(n).symbol == if n.func.Name? then [n.func.id] else Chain(n.func)
  {
    OwnExactly(n);
    if n.Import? { var i := FirstRefusedAt(n.names); }
  }

  predicate FirstRefusal(names: seq<string>, i: int) {
    0 <= i < |names| && RootRefused(Root(names[i])) && forall j :: 0 <= j < i ==> !RootRefused(Root(names[j]))
  }

  lemma {:induction false} FirstRefusedAt(names: seq<string>) returns (i: nat)
    requires FirstRefused(names).Some?
    ensures FirstRefusal(names, i) && FirstRefused(names) == Some(Root(names[i]))
  {
    var n := |names| - 1;
    if FirstRefused(names[..n]).Some? {
      i := FirstRefusedAt(names[..n]);
      assert forall j :: 0 <= j <= i ==> names[..n][j] == names[j];
    } else {
      i := n;
      FirstRefusedExactly(names[..n]);
      forall j | 0 <= j < n ensures !RootRefused(Root(names[j])) { assert names[..n][j] == names[j]; }
    }
  }

  /** base.a.b.c for the attributes a, b, c. */
  function Attributes(base: Node, attrs: seq<string>): Node {
    if attrs == [] then base else Attribute(Attributes(base, attrs[..|attrs| - 1]), attrs[|attrs| - 1])
  }

  lemma {:induction false} ChainOfAttributes(base: Node, attrs: seq<string>)
    ensures Chain(Attributes(base, attrs)) == Chain(base) + attrs
  {
    if attrs != [] {
      ChainOfAttributes(base, attrs[..|attrs| - 1]);
      assert attrs == attrs[..|attrs| - 1] + [attrs[|attrs| - 1]];
    }
  }

  /** The chain of a call reads only its trailing attributes: where they do not
      start from a name, whatever they start from is ignored, and the call is denied
      exactly when they are a forbidden chain, as if it started from their first. */
  lemma ChainIgnoresItsBase(base: Node, attrs: seq<string>, args: seq<Node>)
    requires !base.Name? && !base.Attribute? && attrs != []
    ensures Own(Call(Attributes(base, attrs), args))
         == if attrs in FORBIDDEN_ATTRIBUTE_CHAINS then Denied(DisallowedBehavior, attrs) else Allowed
    ensures |attrs| > 1 ==>
      Own(Call(Attributes(base, attrs), args)) == Own(Call(Attributes(Name(attrs[0]), attrs[1..]), args))
  {
    ChainOfAttributes(base, attrs);
    assert [] + attrs == attrs;
    ChainOfAttributes(Name(attrs[0]), attrs[1..]);
    assert [attrs[0]] + attrs[1..] == attrs;
  }
}
