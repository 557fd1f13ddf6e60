/** Redaction of evidence trees: sanitize_admin_evidence (backend/app/identity/redaction.py)
    over the scalar rules of sanitize_log_value (backend/app/core/logging.py). */
module Redaction {
  import opened Prelude

  /** A value as Python holds it: JSON, and the other leaves the sanitizers know.
      A mapping is its items in insertion order. */
  datatype Value =
    | Null
    | Bool(b: bool)
    | Number(n: int)
    | Str(s: string)
    | Bytes
    | Path(text: string)
    | DateTime(iso: string)
    | Exception(className: string)
    | List(items: seq<Value>)
    | Mapping(fields: seq<Field>)

  datatype Field = Field(key: string, value: Value)

  /** The four tests on strings. */
  datatype Rules = Rules(drops: string -> bool, sensitive: string -> bool, logMarked: string -> bool, adminMarked: string -> bool)

  const REDACTED: string := "[REDACTED]"

  /** The replacement itself passes. */
  ghost predicate Sound(r: Rules) { !r.logMarked(REDACTED) && !r.adminMarked(REDACTED) }

  predicate DropsKey(r: Rules, key: Option<string>) { key.Some? && key.value != "" && r.drops(key.value) }

  predicate SensitiveKey(r: Rules, key: Option<string>) { key.Some? && key.value != "" && r.sensitive(key.value) }

  /** sanitize_log_value on a leaf. */
  function LogLeaf(r: Rules, v: Value, key: Option<string>): Value {
    if SensitiveKey(r, key) then Str(REDACTED)
    else match v
      case Bytes => Str(REDACTED)
      case Path(text) => Str(text)
      case DateTime(iso) => Str(iso)
      case Exception(name) => Str(name)
      case Str(s) => if r.logMarked(s) then Str(REDACTED) else v
      case _ => v
  }

  predicate TextLeaf(v: Value) { v.Str? || v.Bytes? || v.Path? || v.DateTime? || v.Exception? }

  /** _sanitize_leaf on text leaves, sanitize_log_value on the others. */
  function Leaf(r: Rules, v: Value, key: Option<string>): Value {
    var w := LogLeaf(r, v, key);
    if TextLeaf(v) && w.Str? && r.adminMarked(w.s) then Str(REDACTED) else w
  }

  /** dict[key] = value: in place if the key is there, at the end if not. */
  function Put(fields: seq<Field>, key: string, value: Value): seq<Field> {
    if fields == [] then [Field(key, value)]
    else if fields[0].key == key then [Field(key, value)] + fields[1..]
    else [fields[0]] + Put(fields[1..], key, value)
  }

  /** sanitize_admin_evidence; Null stands for None. */
  function Sanitize(r: Rules, v: Value, key: Option<string>): Value
    decreases v
  {
    if DropsKey(r, key) then Null
    else match v
      case Mapping(fields) => Mapping(SanitizeFields(r, fields))
      case List(items) => List(SanitizeItems(r, items, key))
      case _ => Leaf(r, v, key)
  }

  function SanitizeItems(r: Rules, items: seq<Value>, key: Option<string>): seq<Value>
    decreases items
  {
    if items == [] then []
    else
      var front := SanitizeItems(r, items[..|items| - 1], key);
      var last := Sanitize(r, items[|items| - 1], key);
      if last.Null? then front else front + [last]
  }

  function SanitizeFields(r: Rules, fields: seq<Field>): seq<Field>
    decreases fields
  {
    if fields == [] then []
    else
      var front := SanitizeFields(r, fields[..|fields| - 1]);
      var f := fields[|fields| - 1];
      if DropsKey(r, Some(f.key)) then front
      else
        var value := Sanitize(r, f.value, Some(f.key));
        if value.Null? then front else Put(front, f.key, value)
  }

  method SanitizeAdminEvidence(r: Rules, v: Value, key: Option<string>) returns (s: Value)
    ensures s == Sanitize(r, v, key)
    decreases v
  {
    if DropsKey(r, key) { return Null; }
    if v.Mapping? {
      var fields := v.fields;
      var sanitized: seq<Field> := [];
      for i := 0 to |fields|
        invariant sanitized == SanitizeFields(r, fields[..i])
      {
        assert fields[..i + 1][..i] == fields[..i];
        if DropsKey(r, Some(fields[i].key)) { continue; }
        var value := SanitizeAdminEvidence(r, fields[i].value, Some(fields[i].key));
        if !value.Null? {
          sanitized := Put(sanitized, fields[i].key, value);
        }
      }
      assert fields[..|fields|] == fields;
      return Mapping(sanitized);
    }
    if v.List? {
      var items := v.items;
      var kept: seq<Value> := [];
      for i := 0 to |items|
        invariant kept == SanitizeItems(r, items[..i], key)
      {
        assert items[..i + 1][..i] == items[..i];
        var value := SanitizeAdminEvidence(r, items[i], key);
        if !value.Null? {
          kept := kept + [value];
        }
      }
      assert items[..|items|] == items;
      return List(kept);
    }
    return Leaf(r, v, key);
  }

  // ------------------------------------------------------------ what is clean

  predicate UniqueKeys(fields: seq<Field>) {
    forall i, j :: 0 <= i < j < |fields| ==> fields[i].key != fields[j].key
  }

  /** Every mapping has each key once, as every Python mapping with string keys does. */
  predicate Keyed(v: Value)
    decreases v
  {
    match v
    case Mapping(fields) => UniqueKeys(fields) && forall i :: 0 <= i < |fields| ==> Keyed(fields[i].value)
    case List(items) => forall i :: 0 <= i < |items| ==> Keyed(items[i])
    case _ => true
  }

  /** What may be shown under a key: plain JSON with no droppable key and no null
      inside, no text value with a marker of either list, and nothing but the
      replacement where the nearest key is sensitive.  Values further down, in a
      mapping under a sensitive key, are judged by their own keys. */
  predicate Clean(r: Rules, v: Value, key: Option<string>)
    decreases v
  {
    if DropsKey(r, key) then v.Null?
    else match v
      case Mapping(fields) =>
        forall i :: 0 <= i < |fields| ==>
          !DropsKey(r, Some(fields[i].key)) && !fields[i].value.Null? && Clean(r, fields[i].value, Some(fields[i].key))
      case List(items) => forall i :: 0 <= i < |items| ==> !items[i].Null? && Clean(r, items[i], key)
      case Str(s) => if SensitiveKey(r, key) then s == REDACTED else !r.logMarked(s) && !r.adminMarked(s)
      case Null => !SensitiveKey(r, key)
      case Bool(_) => !SensitiveKey(r, key)
      case Number(_) => !SensitiveKey(r, key)
      case _ => false
  }

  /** The one gap: the text of a path, time or exception is tested against the
      markers of the evidence list only.  No such leaf, outside droppable and
      sensitive keys, carries a marker of the log list alone. */
  predicate Covered(r: Rules, v: Value, key: Option<string>)
    decreases v
  {
    DropsKey(r, key) || (match v
      case Mapping(fields) => forall i :: 0 <= i < |fields| ==> Covered(r, fields[i].value, Some(fields[i].key))
      case List(items) => forall i :: 0 <= i < |items| ==> Covered(r, items[i], key)
      case Path(text) => SensitiveKey(r, key) || r.adminMarked(text) || !r.logMarked(text)
      case DateTime(iso) => SensitiveKey(r, key) || r.adminMarked(iso) || !r.logMarked(iso)
      case Exception(name) => SensitiveKey(r, key) || r.adminMarked(name) || !r.logMarked(name)
      case _ => true)
  }

  /** A tree json.loads can return. */
  predicate Json(v: Value)
    decreases v
  {
    match v
    case Mapping(fields) => forall i :: 0 <= i < |fields| ==> Json(fields[i].value)
    case List(items) => forall i :: 0 <= i < |items| ==> Json(items[i])
    case Bytes => false
    case Path(_) => false
    case DateTime(_) => false
    case Exception(_) => false
    case _ => true
  }

  lemma {:induction false} JsonIsCovered(r: Rules, v: Value, key: Option<string>)
    requires Json(v)
    ensures Covered(r, v, key)
    decreases v
  {
    match v {
      case Mapping(fields) =>
        forall i | 0 <= i < |fields| ensures Covered(r, fields[i].value, Some(fields[i].key)) {
          JsonIsCovered(r, fields[i].value, Some(fields[i].key));
        }
      case List(items) =>
        forall i | 0 <= i < |items| ensures Covered(r, items[i], key) { JsonIsCovered(r, items[i], key); }
      case _ =>
    }
  }

  // ---------------------------------------------------------------- mappings

  predicate HasKey(fields: seq<Field>, key: string) { exists i :: 0 <= i < |fields| && fields[i].key == key }

  ghost predicate KeysWithin(a: seq<Field>, b: seq<Field>) { forall k :: HasKey(a, k) ==> HasKey(b, k) }

  lemma {:induction false} PutNewKey(fields: seq<Field>, key: string, value: Value)
    requires !HasKey(fields, key)
    ensures Put(fields, key, value) == fields + [Field(key, value)]
  {
    if fields != [] {
      assert fields[0].key != key;
      assert forall i :: 0 <= i < |fields[1..]| ==> fields[1..][i] == fields[i + 1];
      PutNewKey(fields[1..], key, value);
      assert [fields[0]] + (fields[1..] + [Field(key, value)]) == fields + [Field(key, value)];
    }
  }

  /** One more item of a mapping whose keys differ. */
  lemma FieldsStep(r: Rules, fields: seq<Field>, n: nat)
    requires UniqueKeys(fields) && n < |fields|
    requires KeysWithin(SanitizeFields(r, fields[..n]), fields[..n])
    ensures var value := Sanitize(r, fields[n].value, Some(fields[n].key));
      SanitizeFields(r, fields[..n + 1]) == SanitizeFields(r, fields[..n])
        + (if DropsKey(r, Some(fields[n].key)) || value.Null? then [] else [Field(fields[n].key, value)])
    ensures KeysWithin(SanitizeFields(r, fields[..n + 1]), fields[..n + 1])
  {
    var front := SanitizeFields(r, fields[..n]);
    assert fields[..n + 1][..n] == fields[..n];
    assert !HasKey(fields[..n], fields[n].key);
    PutNewKey(front, fields[n].key, Sanitize(r, fields[n].value, Some(fields[n].key)));
    var next := SanitizeFields(r, fields[..n + 1]);
    forall k | HasKey(next, k) ensures HasKey(fields[..n + 1], k) {
      if HasKey(front, k) {
        var i :| 0 <= i < n && fields[..n][i].key == k;
        assert fields[..n + 1][i].key == k;
      } else {
        assert fields[..n + 1][n].key == k;
      }
    }
  }

  lemma {:induction false} FieldKeys(r: Rules, fields: seq<Field>, n: nat)
    requires UniqueKeys(fields) && n <= |fields|
    ensures KeysWithin(SanitizeFields(r, fields[..n]), fields[..n])
    ensures UniqueKeys(SanitizeFields(r, fields[..n]))
  {
    if n > 0 {
      FieldKeys(r, fields, n - 1);
      FieldsStep(r, fields, n - 1);
      assert !HasKey(fields[..n - 1], fields[n - 1].key);
      assert !HasKey(SanitizeFields(r, fields[..n - 1]), fields[n - 1].key);
    }
  }

  // ------------------------------------------------------------ main results

  lemma LeafCleanExactly(r: Rules, v: Value, key: Option<string>)
    requires Sound(r) && !v.Mapping? && !v.List?
    ensures Clean(r, Sanitize(r, v, key), key) <==> Covered(r, v, key)
  {
  }

  lemma MappingCleanExactly(r: Rules, v: Value, key: Option<string>)
    requires v.Mapping? && !DropsKey(r, key)
    requires AllClean(r, SanitizeFields(r, v.fields)) <==> AllCovered(r, v.fields)
    ensures Clean(r, Sanitize(r, v, key), key) <==> Covered(r, v, key)
  {
    assert Sanitize(r, v, key) == Mapping(SanitizeFields(r, v.fields));
  }

  /** What sanitizing gives is clean exactly when the tree is covered. */
  lemma {:induction false} CleanExactly(r: Rules, v: Value, key: Option<string>)
    requires Sound(r) && Keyed(v)
    ensures Clean(r, Sanitize(r, v, key), key) <==> Covered(r, v, key)
    decreases v, 1, 0
  {
    if v.Mapping? && !DropsKey(r, key) {
      CleanFields(r, v, |v.fields|);
      assert v.fields[..|v.fields|] == v.fields;
      MappingCleanExactly(r, v, key);
    } else if v.List? && !DropsKey(r, key) {
      CleanItems(r, v, |v.items|, key);
      assert v.items[..|v.items|] == v.items;
    } else if !v.Mapping? && !v.List? {
      LeafCleanExactly(r, v, key);
    }
  }

  predicate CleanField(r: Rules, f: Field) { !DropsKey(r, Some(f.key)) && !f.value.Null? && Clean(r, f.value, Some(f.key)) }

  predicate CleanItem(r: Rules, v: Value, key: Option<string>) { !v.Null? && Clean(r, v, key) }

  predicate CoveredField(r: Rules, f: Field) { Covered(r, f.value, Some(f.key)) }

  ghost predicate AllClean(r: Rules, fields: seq<Field>) { forall i :: 0 <= i < |fields| ==> CleanField(r, fields[i]) }

  ghost predicate AllCovered(r: Rules, fields: seq<Field>) { forall i :: 0 <= i < |fields| ==> CoveredField(r, fields[i]) }

  lemma {:induction false} CleanFields(r: Rules, v: Value, n: nat)
    requires Sound(r) && v.Mapping? && Keyed(v) && n <= |v.fields|
    ensures AllClean(r, SanitizeFields(r, v.fields[..n])) <==> AllCovered(r, v.fields[..n])
    decreases v, 0, n
  {
    if n > 0 {
      var f := v.fields[n - 1];
      var value := Sanitize(r, f.value, Some(f.key));
      var kept := if DropsKey(r, Some(f.key)) || value.Null? then [] else [Field(f.key, value)];
      CleanFields(r, v, n - 1);
      CleanExactly(r, f.value, Some(f.key));
      KeptFieldClean(r, f, value, kept);
      FieldKeys(r, v.fields, n - 1);
      FieldsStep(r, v.fields, n - 1);
      CleanFieldsGrow(r, SanitizeFields(r, v.fields[..n - 1]), v.fields, n, kept);
    }
  }

  lemma KeptFieldClean(r: Rules, f: Field, value: Value, kept: seq<Field>)
    requires value == Sanitize(r, f.value, Some(f.key))
    requires Clean(r, value, Some(f.key)) <==> Covered(r, f.value, Some(f.key))
    requires kept == if DropsKey(r, Some(f.key)) || value.Null? then [] else [Field(f.key, value)]
    ensures AllClean(r, kept) <==> CoveredField(r, f)
  {
    if kept == [] {
      assert DropsKey(r, Some(f.key)) || f.value.Null?;
    } else {
      assert CleanField(r, kept[0]) <==> Clean(r, value, Some(f.key));
    }
  }

  lemma CleanFieldsGrow(r: Rules, front: seq<Field>, fields: seq<Field>, n: nat, kept: seq<Field>)
    requires 0 < n <= |fields|
    requires AllClean(r, front) <==> AllCovered(r, fields[..n - 1])
    requires AllClean(r, kept) <==> CoveredField(r, fields[n - 1])
    ensures AllClean(r, front + kept) <==> AllCovered(r, fields[..n])
  {
    var all := front + kept;
    assert forall i :: 0 <= i < |front| ==> all[i] == front[i];
    assert forall i :: 0 <= i < |kept| ==> all[|front| + i] == kept[i];
    assert AllClean(r, all) <==> AllClean(r, front) && AllClean(r, kept);
    assert forall i :: 0 <= i < n - 1 ==> fields[..n][i] == fields[..n - 1][i];
    assert fields[..n][n - 1] == fields[n - 1];
    assert AllCovered(r, fields[..n]) <==> AllCovered(r, fields[..n - 1]) && CoveredField(r, fields[n - 1]);
  }

  lemma ForAllItemsSnoc(r: Rules, items: seq<Value>, v: Value, key: Option<string>)
    ensures (forall i :: 0 <= i < |items + [v]| ==> CleanItem(r, (items + [v])[i], key))
            <==> (forall i :: 0 <= i < |items| ==> CleanItem(r, items[i], key)) && CleanItem(r, v, key)
  {
    var all := items + [v];
    assert all[|items|] == v;
    assert forall i :: 0 <= i < |items| ==> all[i] == items[i];
  }

  lemma {:induction false} CleanItems(r: Rules, v: Value, n: nat, key: Option<string>)
    requires Sound(r) && v.List? && Keyed(v) && n <= |v.items| && !DropsKey(r, key)
    ensures (forall i :: 0 <= i < |SanitizeItems(r, v.items[..n], key)| ==> CleanItem(r, SanitizeItems(r, v.items[..n], key)[i], key))
            <==> forall i :: 0 <= i < n ==> Covered(r, v.items[i], key)
    decreases v, 0, n
  {
    if n > 0 {
      CleanItems(r, v, n - 1, key);
      CleanExactly(r, v.items[n - 1], key);
      assert v.items[..n][..n - 1] == v.items[..n - 1];
      var front, last := SanitizeItems(r, v.items[..n - 1], key), Sanitize(r, v.items[n - 1], key);
      var all := SanitizeItems(r, v.items[..n], key);
      if last.Null? {
        assert v.items[n - 1].Null?;
        assert all == front;
      } else {
        assert all == front + [last];
        ForAllItemsSnoc(r, front, last, key);
        assert CleanItem(r, last, key) <==> Covered(r, v.items[n - 1], key);
      }
    }
  }

  /** Sanitizing changes nothing exactly when the tree is already clean. */
  lemma {:induction false} FixedExactly(r: Rules, v: Value, key: Option<string>)
    requires Sound(r) && Keyed(v)
    ensures Sanitize(r, v, key) == v <==> Clean(r, v, key)
    decreases v, 1, 0
  {
    if !DropsKey(r, key) {
      match v {
        case Mapping(fields) =>
          FixedFields(r, v, |fields|);
          assert fields[..|fields|] == fields;
        case List(items) =>
          FixedItems(r, v, |items|, key);
          assert items[..|items|] == items;
        case _ =>
      }
    }
  }

  lemma {:induction false} FixedFields(r: Rules, v: Value, n: nat)
    requires Sound(r) && v.Mapping? && Keyed(v) && n <= |v.fields|
    ensures |SanitizeFields(r, v.fields[..n])| <= n
    ensures SanitizeFields(r, v.fields[..n]) == v.fields[..n] <==> forall i :: 0 <= i < n ==> CleanField(r, v.fields[i])
    decreases v, 0, n
  {
    if n > 0 {
      var f := v.fields[n - 1];
      FixedFields(r, v, n - 1);
      FieldKeys(r, v.fields, n - 1);
      FieldsStep(r, v.fields, n - 1);
      FixedExactly(r, f.value, Some(f.key));
      var value := Sanitize(r, f.value, Some(f.key));
      var kept := if DropsKey(r, Some(f.key)) || value.Null? then [] else [Field(f.key, value)];
      FieldKeptExactly(r, f, value, kept);
      FieldsKeptExactly(r, v.fields, n, SanitizeFields(r, v.fields[..n - 1]), kept);
    }
  }

  lemma FieldsKeptExactly(r: Rules, fields: seq<Field>, n: nat, front: seq<Field>, kept: seq<Field>)
    requires 0 < n <= |fields| && |front| <= n - 1 && |kept| <= 1
    requires front == fields[..n - 1] <==> forall i :: 0 <= i < n - 1 ==> CleanField(r, fields[i])
    requires kept == [fields[n - 1]] <==> CleanField(r, fields[n - 1])
    ensures front + kept == fields[..n] <==> forall i :: 0 <= i < n ==> CleanField(r, fields[i])
  {
    SnocEqual(front, kept, fields[..n - 1], fields[n - 1]);
    assert fields[..n] == fields[..n - 1] + [fields[n - 1]];
  }

  lemma FieldKeptExactly(r: Rules, f: Field, value: Value, kept: seq<Field>)
    requires value == Sanitize(r, f.value, Some(f.key))
    requires value == f.value <==> Clean(r, f.value, Some(f.key))
    requires kept == if DropsKey(r, Some(f.key)) || value.Null? then [] else [Field(f.key, value)]
    ensures kept == [f] <==> CleanField(r, f)
  {
    assert Field(f.key, f.value) == f;
    if kept == [f] { assert kept[0] == f; }
  }

  lemma SnocEqual<T>(front: seq<T>, kept: seq<T>, init: seq<T>, last: T)
    requires |front| <= |init| && |kept| <= 1
    ensures front + kept == init + [last] <==> front == init && kept == [last]
  {
    if front + kept == init + [last] {
      assert |front| == |init| && |kept| == 1;
      assert front == (front + kept)[..|init|] && init == (init + [last])[..|init|];
      assert kept[0] == (front + kept)[|init|] && last == (init + [last])[|init|];
    }
  }

  lemma {:induction false} FixedItems(r: Rules, v: Value, n: nat, key: Option<string>)
    requires Sound(r) && v.List? && Keyed(v) && n <= |v.items| && !DropsKey(r, key)
    ensures |SanitizeItems(r, v.items[..n], key)| <= n
    ensures SanitizeItems(r, v.items[..n], key) == v.items[..n] <==> forall i :: 0 <= i < n ==> CleanItem(r, v.items[i], key)
    decreases v, 0, n
  {
    if n > 0 {
      FixedItems(r, v, n - 1, key);
      FixedExactly(r, v.items[n - 1], key);
      assert v.items[..n][..n - 1] == v.items[..n - 1];
      var value := Sanitize(r, v.items[n - 1], key);
      ItemsKeptExactly(r, v.items, n, key, SanitizeItems(r, v.items[..n - 1], key), if value.Null? then [] else [value]);
    }
  }

  lemma ItemsKeptExactly(r: Rules, items: seq<Value>, n: nat, key: Option<string>, front: seq<Value>, kept: seq<Value>)
    requires 0 < n <= |items| && |front| <= n - 1 && |kept| <= 1
    requires front == items[..n - 1] <==> forall i :: 0 <= i < n - 1 ==> CleanItem(r, items[i], key)
    requires kept == [items[n - 1]] <==> CleanItem(r, items[n - 1], key)
    ensures front + kept == items[..n] <==> forall i :: 0 <= i < n ==> CleanItem(r, items[i], key)
  {
    SnocEqual(front, kept, items[..n - 1], items[n - 1]);
    assert items[..n] == items[..n - 1] + [items[n - 1]];
  }

  /** Sanitizing keeps keys unique at every level. */
  lemma {:induction false} SanitizedIsKeyed(r: Rules, v: Value, key: Option<string>)
    requires Keyed(v)
    ensures Keyed(Sanitize(r, v, key))
    decreases v, 1, 0
  {
    if !DropsKey(r, key) {
      match v {
        case Mapping(fields) =>
          FieldKeys(r, fields, |fields|);
          KeyedFields(r, v, |fields|);
          assert fields[..|fields|] == fields;
        case List(items) =>
          KeyedItems(r, v, |items|, key);
          assert items[..|items|] == items;
        case _ =>
      }
    }
  }

  lemma {:induction false} KeyedFields(r: Rules, v: Value, n: nat)
    requires v.Mapping? && Keyed(v) && n <= |v.fields|
    ensures forall i :: 0 <= i < |SanitizeFields(r, v.fields[..n])| ==> Keyed(SanitizeFields(r, v.fields[..n])[i].value)
    decreases v, 0, n
  {
    if n > 0 {
      KeyedFields(r, v, n - 1);
      FieldKeys(r, v.fields, n - 1);
      FieldsStep(r, v.fields, n - 1);
      SanitizedIsKeyed(r, v.fields[n - 1].value, Some(v.fields[n - 1].key));
    }
  }

  lemma {:induction false} KeyedItems(r: Rules, v: Value, n: nat, key: Option<string>)
    requires v.List? && Keyed(v) && n <= |v.items|
    ensures forall i :: 0 <= i < |SanitizeItems(r, v.items[..n], key)| ==> Keyed(SanitizeItems(r, v.items[..n], key)[i])
    decreases v, 0, n
  {
    if n > 0 {
      KeyedItems(r, v, n - 1, key);
      SanitizedIsKeyed(r, v.items[n - 1], key);
      assert v.items[..n][..n - 1] == v.items[..n - 1];
    }
  }

  /** Sanitizing twice is sanitizing once exactly for covered trees. */
  lemma IdempotentExactly(r: Rules, v: Value, key: Option<string>)
    requires Sound(r) && Keyed(v)
    ensures Sanitize(r, Sanitize(r, v, key), key) == Sanitize(r, v, key) <==> Covered(r, v, key)
  {
    SanitizedIsKeyed(r, v, key);
    FixedExactly(r, Sanitize(r, v, key), key);
    CleanExactly(r, v, key);
  }

  /** On JSON trees this much holds without condition. */
  lemma JsonIsSanitized(r: Rules, v: Value, key: Option<string>)
    requires Sound(r) && Keyed(v) && Json(v)
    ensures Clean(r, Sanitize(r, v, key), key)
    ensures Sanitize(r, Sanitize(r, v, key), key) == Sanitize(r, v, key)
  {
    JsonIsCovered(r, v, key);
    CleanExactly(r, v, key);
    IdempotentExactly(r, v, key);
  }
}
