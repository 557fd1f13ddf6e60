/** Marked text anywhere in a sanitized tree, the keys of its mappings included
    (backend/app/identity/redaction.py): keys are never tested against the markers. */
module MarkedText {
  import opened Prelude
  import opened Redaction
  import opened SensitiveKeys

  predicate Marked(r: Rules, s: string) { r.logMarked(s) || r.adminMarked(s) }

  /** No string at any depth, key or value, carries a marker of either list. */
  predicate Unmarked(r: Rules, v: Value)
    decreases v
  {
    match v
    case Mapping(fields) => forall i :: 0 <= i < |fields| ==> !Marked(r, fields[i].key) && Unmarked(r, fields[i].value)
    case List(items) => forall i :: 0 <= i < |items| ==> Unmarked(r, items[i])
    case Str(s) => !Marked(r, s)
    case _ => true
  }

  /** A field that is in the result: its key is not droppable and its value is not
      a null left as it is. */
  predicate Stays(r: Rules, f: Field) {
    !DropsKey(r, Some(f.key)) && !(f.value.Null? && !SensitiveKey(r, Some(f.key)))
  }

  /** No kept mapping key, at any depth of the kept part, carries a marker. */
  predicate KeysUnmarked(r: Rules, v: Value, key: Option<string>)
    decreases v
  {
    DropsKey(r, key) || (match v
      case Mapping(fields) =>
        forall i :: 0 <= i < |fields| && Stays(r, fields[i]) ==>
          !Marked(r, fields[i].key) && KeysUnmarked(r, fields[i].value, Some(fields[i].key))
      case List(items) => forall i :: 0 <= i < |items| ==> KeysUnmarked(r, items[i], key)
      case _ => true)
  }

  predicate UnmarkedField(r: Rules, f: Field) { !Marked(r, f.key) && Unmarked(r, f.value) }

  /** What a field of the input must satisfy. */
  predicate PlainField(r: Rules, f: Field) {
    && Covered(r, f.value, Some(f.key))
    && (Stays(r, f) ==> !Marked(r, f.key) && KeysUnmarked(r, f.value, Some(f.key)))
  }

  predicate PlainItem(r: Rules, v: Value, key: Option<string>) { Covered(r, v, key) && KeysUnmarked(r, v, key) }

  ghost predicate AllUnmarked(r: Rules, fields: seq<Field>) { forall i :: 0 <= i < |fields| ==> UnmarkedField(r, fields[i]) }

  ghost predicate AllPlain(r: Rules, fields: seq<Field>) { forall i :: 0 <= i < |fields| ==> PlainField(r, fields[i]) }

  ghost predicate ItemsUnmarked(r: Rules, items: seq<Value>) { forall i :: 0 <= i < |items| ==> Unmarked(r, items[i]) }

  ghost predicate ItemsPlain(r: Rules, items: seq<Value>, key: Option<string>) {
    forall i :: 0 <= i < |items| ==> PlainItem(r, items[i], key)
  }

  lemma LeafUnmarkedExactly(r: Rules, v: Value, key: Option<string>)
    requires Sound(r) && !v.Mapping? && !v.List?
    ensures Unmarked(r, Sanitize(r, v, key)) <==> Covered(r, v, key) && KeysUnmarked(r, v, key)
    ensures Sanitize(r, v, key).Null? <==> DropsKey(r, key) || (v.Null? && !SensitiveKey(r, key))
  {
  }

  lemma MappingUnmarkedExactly(r: Rules, v: Value, key: Option<string>)
    requires v.Mapping? && !DropsKey(r, key)
    requires AllUnmarked(r, SanitizeFields(r, v.fields)) <==> AllPlain(r, v.fields)
    ensures Unmarked(r, Sanitize(r, v, key)) <==> Covered(r, v, key) && KeysUnmarked(r, v, key)
  {
    assert Unmarked(r, Sanitize(r, v, key)) <==> AllUnmarked(r, SanitizeFields(r, v.fields));
    assert Covered(r, v, key) && KeysUnmarked(r, v, key) <==> AllPlain(r, v.fields);
  }

  /** The result holds no marked text, keys included, exactly when the tree is
      covered and no kept mapping key carries a marker. */
  lemma {:induction false} UnmarkedExactly(r: Rules, v: Value, key: Option<string>)
    requires Sound(r) && Keyed(v)
    ensures Unmarked(r, Sanitize(r, v, key)) <==> Covered(r, v, key) && KeysUnmarked(r, v, key)
    decreases v, 1, 0
  {
    if v.Mapping? && !DropsKey(r, key) {
      UnmarkedFields(r, v, |v.fields|);
      assert v.fields[..|v.fields|] == v.fields;
      MappingUnmarkedExactly(r, v, key);
    } else if v.List? && !DropsKey(r, key) {
      UnmarkedItems(r, v, |v.items|, key);
      assert v.items[..|v.items|] == v.items;
      assert Unmarked(r, Sanitize(r, v, key)) <==> ItemsUnmarked(r, SanitizeItems(r, v.items, key));
      assert Covered(r, v, key) && KeysUnmarked(r, v, key) <==> ItemsPlain(r, v.items, key);
    } else if !v.Mapping? && !v.List? {
      LeafUnmarkedExactly(r, v, key);
    }
  }

  lemma {:induction false} UnmarkedFields(r: Rules, v: Value, n: nat)
    requires Sound(r) && v.Mapping? && Keyed(v) && n <= |v.fields|
    ensures AllUnmarked(r, SanitizeFields(r, v.fields[..n])) <==> AllPlain(r, v.fields[..n])
    decreases v, 0, n
  {
    if n > 0 {
      var f := v.fields[n - 1];
      var value := Sanitize(r, f.value, Some(f.key));
      var kept := if DropsKey(r, Some(f.key)) || value.Null? then [] else [Field(f.key, value)];
      UnmarkedFields(r, v, n - 1);
      UnmarkedExactly(r, f.value, Some(f.key));
      KeptFieldUnmarked(r, f, value, kept);
      FieldKeys(r, v.fields, n - 1);
      FieldsStep(r, v.fields, n - 1);
      UnmarkedFieldsGrow(r, SanitizeFields(r, v.fields[..n - 1]), v.fields, n, kept);
    }
  }

  lemma KeptFieldUnmarked(r: Rules, f: Field, value: Value, kept: seq<Field>)
    requires value == Sanitize(r, f.value, Some(f.key))
    requires Unmarked(r, value) <==> Covered(r, f.value, Some(f.key)) && KeysUnmarked(r, f.value, Some(f.key))
    requires kept == if DropsKey(r, Some(f.key)) || value.Null? then [] else [Field(f.key, value)]
    ensures AllUnmarked(r, kept) <==> PlainField(r, f)
  {
    assert kept == [] <==> !Stays(r, f);
    if kept == [] {
      assert DropsKey(r, Some(f.key)) || f.value.Null?;
    } else {
      assert AllUnmarked(r, kept) <==> UnmarkedField(r, kept[0]);
    }
  }

  lemma UnmarkedFieldsGrow(r: Rules, front: seq<Field>, fields: seq<Field>, n: nat, kept: seq<Field>)
    requires 0 < n <= |fields|
    requires AllUnmarked(r, front) <==> AllPlain(r, fields[..n - 1])
    requires AllUnmarked(r, kept) <==> PlainField(r, fields[n - 1])
    ensures AllUnmarked(r, front + kept) <==> AllPlain(r, fields[..n])
  {
    var all := front + kept;
    assert forall i :: 0 <= i < |front| ==> all[i] == front[i];
    assert forall i :: 0 <= i < |kept| ==> all[|front| + i] == kept[i];
    assert AllUnmarked(r, all) <==> AllUnmarked(r, front) && AllUnmarked(r, kept);
    assert forall i :: 0 <= i < n - 1 ==> fields[..n][i] == fields[..n - 1][i];
    assert fields[..n][n - 1] == fields[n - 1];
    assert AllPlain(r, fields[..n]) <==> AllPlain(r, fields[..n - 1]) && PlainField(r, fields[n - 1]);
  }

  lemma {:induction false} UnmarkedItems(r: Rules, v: Value, n: nat, key: Option<string>)
    requires Sound(r) && v.List? && Keyed(v) && n <= |v.items|
    ensures ItemsUnmarked(r, SanitizeItems(r, v.items[..n], key)) <==> ItemsPlain(r, v.items[..n], key)
    decreases v, 0, n
  {
    if n > 0 {
      var last, front := v.items[n - 1], SanitizeItems(r, v.items[..n - 1], key);
      UnmarkedItems(r, v, n - 1, key);
      UnmarkedExactly(r, last, key);
      assert v.items[..n][..n - 1] == v.items[..n - 1] && v.items[..n] == v.items[..n - 1] + [last];
      ItemsUnmarkedSnoc(r, front, Sanitize(r, last, key));
      ItemsPlainSnoc(r, v.items[..n - 1], last, key);
    }
  }

  lemma ItemsUnmarkedSnoc(r: Rules, items: seq<Value>, v: Value)
    ensures ItemsUnmarked(r, items + [v]) <==> ItemsUnmarked(r, items) && Unmarked(r, v)
  {
    var all := items + [v];
    assert all[|items|] == v && forall i :: 0 <= i < |items| ==> all[i] == items[i];
  }

  lemma ItemsPlainSnoc(r: Rules, items: seq<Value>, v: Value, key: Option<string>)
    ensures ItemsPlain(r, items + [v], key) <==> ItemsPlain(r, items, key) && PlainItem(r, v, key)
  {
    var all := items + [v];
    assert all[|items|] == v && forall i :: 0 <= i < |items| ==> all[i] == items[i];
  }

  /** Everything the evidence sanitizer is for: clean values, sealed at every depth,
      and no marked text, keys included.  It holds exactly under the three
      conditions together. */
  lemma FullyCleanExactly(r: Rules, v: Value, key: Option<string>)
    requires Sound(r) && Keyed(v)
    ensures var s := Sanitize(r, v, key);
      StrictlyClean(r, s, key) && Unmarked(r, s)
      <==> Covered(r, v, key) && Shielded(r, v, key, false) && KeysUnmarked(r, v, key)
  {
    StrictlyCleanExactly(r, v, key);
    UnmarkedExactly(r, v, key);
  }

  /** The condition on keys fails on every such tree, which comes back as it is. */
  lemma MarkedKeySurvives(r: Rules, name: string, n: int)
    requires Sound(r) && Marked(r, name) && !DropsKey(r, Some(name)) && !SensitiveKey(r, Some(name))
    ensures var t := Mapping([Field(name, Number(n))]);
      && Keyed(t) && Json(t) && StrictlyClean(r, t, None)
      && Sanitize(r, t, None) == t && !Unmarked(r, t)
  {
    var t := Mapping([Field(name, Number(n))]);
    SanitizeOneField(r, name, Number(n));
    FixedExactly(r, t, None);
    assert !UnmarkedField(r, t.fields[0]);
  }
}
