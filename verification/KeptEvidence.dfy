/** What sanitize_admin_evidence keeps (backend/app/identity/redaction.py): every
    leaf of the evidence outside droppable keys, in order and under its own keys,
    as it was or replaced; nothing else is lost and nothing is made up. */
module KeptEvidence {
  import opened Prelude
  import opened Redaction
  import opened SensitiveKeys

  /** A leaf and the keys above it. */
  type Place = (seq<string>, Value)

  function Leaves(v: Value, path: seq<string>): seq<Place>
    decreases v
  {
    match v
    case Mapping(fields) => LeavesOfFields(fields, path)
    case List(items) => LeavesOfItems(items, path)
    case _ => [(path, v)]
  }

  function LeavesOfFields(fields: seq<Field>, path: seq<string>): seq<Place>
    decreases fields
  {
    if fields == [] then []
    else
      var f := fields[|fields| - 1];
      LeavesOfFields(fields[..|fields| - 1], path) + Leaves(f.value, path + [f.key])
  }

  function LeavesOfItems(items: seq<Value>, path: seq<string>): seq<Place>
    decreases items
  {
    if items == [] then [] else LeavesOfItems(items[..|items| - 1], path) + Leaves(items[|items| - 1], path)
  }

  function Nearest(path: seq<string>): Option<string> { if path == [] then None else Some(path[|path| - 1]) }

  /** No key above is droppable. */
  predicate Visible(r: Rules, path: seq<string>) { forall i :: 0 <= i < |path| ==> !DropsKey(r, Some(path[i])) }

  /** How a leaf is shown: replaced for its key or its text, otherwise as it is; a
      null without a sensitive key is not. */
  function Shown(r: Rules, p: Place): seq<Place> {
    var (path, v) := p;
    if !Visible(r, path) then []
    else if SensitiveKey(r, Nearest(path)) then [(path, Str(REDACTED))]
    else if ReplacedForText(r, v) then [(path, Str(REDACTED))]
    else match v
      case Null => []
      case Path(text) => [(path, Str(text))]
      case DateTime(iso) => [(path, Str(iso))]
      case Exception(name) => [(path, Str(name))]
      case _ => [p]
  }

  function FlatMap<T, U>(f: T -> seq<U>, s: seq<T>): seq<U> {
    if s == [] then [] else FlatMap(f, s[..|s| - 1]) + f(s[|s| - 1])
  }

  lemma {:induction false} FlatMapAppend<T, U>(f: T -> seq<U>, a: seq<T>, b: seq<T>)
    ensures FlatMap(f, a + b) == FlatMap(f, a) + FlatMap(f, b)
    decreases |b|
  {
    if b == [] {
      assert a + b == a;
    } else {
      var front, last := FlatMap(f, b[..|b| - 1]), f(b[|b| - 1]);
      assert (a + b)[..|a + b| - 1] == a + b[..|b| - 1];
      FlatMapAppend(f, a, b[..|b| - 1]);
      assert (FlatMap(f, a) + front) + last == FlatMap(f, a) + (front + last);
    }
  }

  function Shower(r: Rules): Place -> seq<Place> { p => Shown(r, p) }

  function AllShown(r: Rules, ps: seq<Place>): seq<Place> { FlatMap(Shower(r), ps) }

  lemma AllShownAppend(r: Rules, a: seq<Place>, b: seq<Place>)
    ensures AllShown(r, a + b) == AllShown(r, a) + AllShown(r, b)
  {
    FlatMapAppend(Shower(r), a, b);
  }

  lemma AllShownOne(r: Rules, p: Place)
    ensures AllShown(r, [p]) == Shown(r, p)
  {
    assert [p][..0] == [] && FlatMap(Shower(r), []) == [];
  }

  lemma {:induction false} HiddenShowsNothing(r: Rules, v: Value, path: seq<string>)
    requires !Visible(r, path)
    ensures AllShown(r, Leaves(v, path)) == []
    decreases v, 1, 0
  {
    match v {
      case Mapping(fields) =>
        HiddenFields(r, v, path, |fields|);
        assert fields[..|fields|] == fields;
      case List(items) =>
        HiddenItems(r, v, path, |items|);
        assert items[..|items|] == items;
      case _ => AllShownOne(r, (path, v));
    }
  }

  lemma {:induction false} HiddenFields(r: Rules, v: Value, path: seq<string>, n: nat)
    requires v.Mapping? && n <= |v.fields| && !Visible(r, path)
    ensures AllShown(r, LeavesOfFields(v.fields[..n], path)) == []
    decreases v, 0, n
  {
    if n > 0 {
      var f := v.fields[n - 1];
      HiddenFields(r, v, path, n - 1);
      assert (path + [f.key])[..|path|] == path;
      HiddenShowsNothing(r, f.value, path + [f.key]);
      assert v.fields[..n][..n - 1] == v.fields[..n - 1];
      AllShownAppend(r, LeavesOfFields(v.fields[..n - 1], path), Leaves(f.value, path + [f.key]));
    }
  }

  lemma {:induction false} HiddenItems(r: Rules, v: Value, path: seq<string>, n: nat)
    requires v.List? && n <= |v.items| && !Visible(r, path)
    ensures AllShown(r, LeavesOfItems(v.items[..n], path)) == []
    decreases v, 0, n
  {
    if n > 0 {
      HiddenItems(r, v, path, n - 1);
      HiddenShowsNothing(r, v.items[n - 1], path);
      assert v.items[..n][..n - 1] == v.items[..n - 1];
      AllShownAppend(r, LeavesOfItems(v.items[..n - 1], path), Leaves(v.items[n - 1], path));
    }
  }

  /** s holds what is shown of the leaves ps, or is null if that is nothing. */
  ghost predicate Holds(r: Rules, s: Value, path: seq<string>, ps: seq<Place>) {
    if s.Null? then AllShown(r, ps) == [] else Leaves(s, path) == AllShown(r, ps)
  }

  lemma LeafHolds(r: Rules, v: Value, path: seq<string>)
    requires Visible(r, path) && !v.Mapping? && !v.List?
    ensures Holds(r, Sanitize(r, v, Nearest(path)), path, Leaves(v, path))
  {
    AllShownOne(r, (path, v));
  }

  /** The leaves of the result are the leaves of the evidence outside droppable
      keys, in order and under their own keys, each as it was or replaced. */
  lemma {:induction false} KeepsTheRest(r: Rules, v: Value, path: seq<string>)
    requires Keyed(v) && Visible(r, path)
    ensures Holds(r, Sanitize(r, v, Nearest(path)), path, Leaves(v, path))
    decreases v, 1, 0
  {
    assert !DropsKey(r, Nearest(path));
    match v {
      case Mapping(fields) =>
        FieldsHold(r, v, path, |fields|);
        assert fields[..|fields|] == fields;
      case List(items) =>
        ItemsHold(r, v, path, |items|);
        assert items[..|items|] == items;
      case _ => LeafHolds(r, v, path);
    }
  }

  lemma FieldLeaves(front: seq<Field>, kept: seq<Field>, path: seq<string>)
    requires |kept| <= 1
    ensures LeavesOfFields(front + kept, path)
         == LeavesOfFields(front, path) + (if kept == [] then [] else Leaves(kept[0].value, path + [kept[0].key]))
  {
    if kept == [] {
      assert front + kept == front;
    } else {
      assert (front + kept)[..|front|] == front;
    }
  }

  lemma {:induction false} FieldsHold(r: Rules, v: Value, path: seq<string>, n: nat)
    requires v.Mapping? && Keyed(v) && n <= |v.fields| && Visible(r, path)
    ensures LeavesOfFields(SanitizeFields(r, v.fields[..n]), path) == AllShown(r, LeavesOfFields(v.fields[..n], path))
    decreases v, 0, n
  {
    if n > 0 {
      var f := v.fields[n - 1];
      var front := v.fields[..n - 1];
      FieldsHold(r, v, path, n - 1);
      FieldKeys(r, v.fields, n - 1);
      FieldsStep(r, v.fields, n - 1);
      assert v.fields[..n][..n - 1] == front;
      AllShownAppend(r, LeavesOfFields(front, path), Leaves(f.value, path + [f.key]));
      FieldHolds(r, v, path, n - 1);
      FieldLeaves(SanitizeFields(r, front), KeptField(r, f), path);
    }
  }

  function KeptField(r: Rules, f: Field): seq<Field> {
    var value := Sanitize(r, f.value, Some(f.key));
    if DropsKey(r, Some(f.key)) || value.Null? then [] else [Field(f.key, value)]
  }

  lemma {:induction false} FieldHolds(r: Rules, v: Value, path: seq<string>, i: nat)
    requires v.Mapping? && Keyed(v) && i < |v.fields| && Visible(r, path)
    ensures var f := v.fields[i];
      var shown := AllShown(r, Leaves(f.value, path + [f.key]));
      if KeptField(r, f) == [] then shown == [] else Leaves(KeptField(r, f)[0].value, path + [KeptField(r, f)[0].key]) == shown
    decreases v, 0, 0
  {
    var f := v.fields[i];
    var below := path + [f.key];
    assert below[|path|] == f.key && Nearest(below) == Some(f.key);
    if DropsKey(r, Some(f.key)) {
      HiddenShowsNothing(r, f.value, below);
    } else {
      KeepsTheRest(r, f.value, below);
    }
  }

  lemma ItemLeaves(front: seq<Value>, kept: seq<Value>, path: seq<string>)
    requires |kept| <= 1
    ensures LeavesOfItems(front + kept, path) == LeavesOfItems(front, path) + (if kept == [] then [] else Leaves(kept[0], path))
  {
    if kept == [] {
      assert front + kept == front;
    } else {
      assert (front + kept)[..|front|] == front;
    }
  }

  lemma {:induction false} ItemsHold(r: Rules, v: Value, path: seq<string>, n: nat)
    requires v.List? && Keyed(v) && n <= |v.items| && Visible(r, path)
    ensures LeavesOfItems(SanitizeItems(r, v.items[..n], Nearest(path)), path) == AllShown(r, LeavesOfItems(v.items[..n], path))
    decreases v, 0, n
  {
    if n > 0 {
      var front, last := SanitizeItems(r, v.items[..n - 1], Nearest(path)), Sanitize(r, v.items[n - 1], Nearest(path));
      ItemsHold(r, v, path, n - 1);
      KeepsTheRest(r, v.items[n - 1], path);
      assert v.items[..n][..n - 1] == v.items[..n - 1];
      ItemLeaves(front, if last.Null? then [] else [last], path);
      assert front + [] == front;
      AllShownAppend(r, LeavesOfItems(v.items[..n - 1], path), Leaves(v.items[n - 1], path));
    }
  }
}
