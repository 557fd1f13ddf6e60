/** Sensitive keys at any depth: what sanitize_admin_evidence leaves of a mapping
    under a sensitive key (backend/app/identity/redaction.py), and what
    sanitize_log_value does instead (backend/app/core/logging.py). */
module SensitiveKeys {
  import opened Prelude
  import opened Redaction

  /** Every scalar with a sensitive key anywhere above it is the replacement;
      `under` says that one was passed already. */
  predicate Sealed(r: Rules, v: Value, key: Option<string>, under: bool)
    decreases v
  {
    match v
    case Mapping(fields) =>
      forall i :: 0 <= i < |fields| ==> Sealed(r, fields[i].value, Some(fields[i].key), under || SensitiveKey(r, key))
    case List(items) => forall i :: 0 <= i < |items| ==> Sealed(r, items[i], key, under)
    case Null => true
    case _ => under || SensitiveKey(r, key) ==> v == Str(REDACTED)
  }

  /** Clean, and sealed at every depth. */
  predicate StrictlyClean(r: Rules, v: Value, key: Option<string>) { Clean(r, v, key) && Sealed(r, v, key, false) }

  /** Replaced for its text, whatever its key. */
  predicate ReplacedForText(r: Rules, v: Value) {
    match v
    case Bytes => true
    case Str(s) => s == REDACTED || r.logMarked(s) || r.adminMarked(s)
    case Path(text) => text == REDACTED || r.adminMarked(text)
    case DateTime(iso) => iso == REDACTED || r.adminMarked(iso)
    case Exception(name) => name == REDACTED || r.adminMarked(name)
    case _ => false
  }

  /** No kept mapping under a sensitive key holds a scalar that survives: one that
      is not null, has no sensitive key of its own and is not replaced for its text. */
  predicate Shielded(r: Rules, v: Value, key: Option<string>, under: bool)
    decreases v
  {
    DropsKey(r, key) || (match v
      case Mapping(fields) =>
        forall i :: 0 <= i < |fields| ==> Shielded(r, fields[i].value, Some(fields[i].key), under || SensitiveKey(r, key))
      case List(items) => forall i :: 0 <= i < |items| ==> Shielded(r, items[i], key, under)
      case Null => true
      case _ => under && !SensitiveKey(r, key) ==> ReplacedForText(r, v))
  }

  predicate SealedField(r: Rules, f: Field, under: bool) { Sealed(r, f.value, Some(f.key), under) }

  predicate ShieldedField(r: Rules, f: Field, under: bool) { Shielded(r, f.value, Some(f.key), under) }

  ghost predicate AllSealed(r: Rules, fields: seq<Field>, under: bool) {
    forall i :: 0 <= i < |fields| ==> SealedField(r, fields[i], under)
  }

  ghost predicate AllShielded(r: Rules, fields: seq<Field>, under: bool) {
    forall i :: 0 <= i < |fields| ==> ShieldedField(r, fields[i], under)
  }

  ghost predicate ItemsSealed(r: Rules, items: seq<Value>, key: Option<string>, under: bool) {
    forall i :: 0 <= i < |items| ==> Sealed(r, items[i], key, under)
  }

  ghost predicate ItemsShielded(r: Rules, items: seq<Value>, key: Option<string>, under: bool) {
    forall i :: 0 <= i < |items| ==> Shielded(r, items[i], key, under)
  }

  lemma FieldsSnoc(r: Rules, fields: seq<Field>, f: Field, under: bool)
    ensures AllSealed(r, fields + [f], under) <==> AllSealed(r, fields, under) && SealedField(r, f, under)
    ensures AllShielded(r, fields + [f], under) <==> AllShielded(r, fields, under) && ShieldedField(r, f, under)
  {
    var all := fields + [f];
    assert all[|fields|] == f && forall i :: 0 <= i < |fields| ==> all[i] == fields[i];
  }

  lemma ItemsSnoc(r: Rules, items: seq<Value>, v: Value, key: Option<string>, under: bool)
    ensures ItemsSealed(r, items + [v], key, under) <==> ItemsSealed(r, items, key, under) && Sealed(r, v, key, under)
    ensures ItemsShielded(r, items + [v], key, under) <==> ItemsShielded(r, items, key, under) && Shielded(r, v, key, under)
  {
    var all := items + [v];
    assert all[|items|] == v && forall i :: 0 <= i < |items| ==> all[i] == items[i];
  }

  lemma LeafSealedExactly(r: Rules, v: Value, key: Option<string>, under: bool)
    requires !v.Mapping? && !v.List?
    ensures Sealed(r, Sanitize(r, v, key), key, under) <==> Shielded(r, v, key, under)
  {
  }

  /** The result is sealed exactly when the tree is shielded. */
  lemma {:induction false} SealedExactly(r: Rules, v: Value, key: Option<string>, under: bool)
    requires Keyed(v)
    ensures Sealed(r, Sanitize(r, v, key), key, under) <==> Shielded(r, v, key, under)
    decreases v, 1, 0
  {
    if v.Mapping? && !DropsKey(r, key) {
      var here := under || SensitiveKey(r, key);
      SealedFields(r, v, |v.fields|, here);
      assert v.fields[..|v.fields|] == v.fields;
      assert Sealed(r, Sanitize(r, v, key), key, under) <==> AllSealed(r, SanitizeFields(r, v.fields), here);
      assert Shielded(r, v, key, under) <==> AllShielded(r, v.fields, here);
    } else if v.List? && !DropsKey(r, key) {
      SealedItems(r, v, |v.items|, key, under);
      assert v.items[..|v.items|] == v.items;
    } else if !v.Mapping? && !v.List? {
      LeafSealedExactly(r, v, key, under);
    }
  }

  lemma {:induction false} SealedFields(r: Rules, v: Value, n: nat, under: bool)
    requires v.Mapping? && Keyed(v) && n <= |v.fields|
    ensures AllSealed(r, SanitizeFields(r, v.fields[..n]), under) <==> AllShielded(r, v.fields[..n], under)
    decreases v, 0, n
  {
    if n > 0 {
      var f := v.fields[n - 1];
      var value := Sanitize(r, f.value, Some(f.key));
      var kept := if DropsKey(r, Some(f.key)) || value.Null? then [] else [Field(f.key, value)];
      SealedFields(r, v, n - 1, under);
      SealedExactly(r, f.value, Some(f.key), under);
      KeptFieldSealed(r, f, value, kept, under);
      FieldKeys(r, v.fields, n - 1);
      FieldsStep(r, v.fields, n - 1);
      FieldsGrow(r, SanitizeFields(r, v.fields[..n - 1]), v.fields, n, kept, under);
    }
  }

  lemma KeptFieldSealed(r: Rules, f: Field, value: Value, kept: seq<Field>, under: bool)
    requires Sealed(r, value, Some(f.key), under) <==> ShieldedField(r, f, under)
    requires DropsKey(r, Some(f.key)) ==> value.Null?
    requires kept == if DropsKey(r, Some(f.key)) || value.Null? then [] else [Field(f.key, value)]
    ensures AllSealed(r, kept, under) <==> ShieldedField(r, f, under)
  {
    if kept != [] { assert SealedField(r, kept[0], under) <==> Sealed(r, value, Some(f.key), under); }
  }

  lemma FieldsGrow(r: Rules, front: seq<Field>, fields: seq<Field>, n: nat, kept: seq<Field>, under: bool)
    requires 0 < n <= |fields| && |kept| <= 1
    requires AllSealed(r, front, under) <==> AllShielded(r, fields[..n - 1], under)
    requires AllSealed(r, kept, under) <==> ShieldedField(r, fields[n - 1], under)
    ensures AllSealed(r, front + kept, under) <==> AllShielded(r, fields[..n], under)
  {
    assert fields[..n] == fields[..n - 1] + [fields[n - 1]];
    FieldsSnoc(r, fields[..n - 1], fields[n - 1], under);
    if kept == [] {
      assert front + kept == front;
    } else {
      assert kept == [kept[0]];
      FieldsSnoc(r, front, kept[0], under);
    }
  }

  lemma {:induction false} SealedItems(r: Rules, v: Value, n: nat, key: Option<string>, under: bool)
    requires v.List? && Keyed(v) && n <= |v.items|
    ensures ItemsSealed(r, SanitizeItems(r, v.items[..n], key), key, under) <==> ItemsShielded(r, v.items[..n], key, under)
    decreases v, 0, n
  {
    if n > 0 {
      var last, front := v.items[n - 1], SanitizeItems(r, v.items[..n - 1], key);
      SealedItems(r, v, n - 1, key, under);
      SealedExactly(r, last, key, under);
      assert v.items[..n][..n - 1] == v.items[..n - 1] && v.items[..n] == v.items[..n - 1] + [last];
      ItemsSnoc(r, v.items[..n - 1], last, key, under);
      ItemsSnoc(r, front, Sanitize(r, last, key), key, under);
    }
  }

  /** What sanitizing gives is strictly clean exactly when the tree is covered and
      no kept mapping with a surviving scalar lies under a sensitive key. */
  lemma StrictlyCleanExactly(r: Rules, v: Value, key: Option<string>)
    requires Sound(r) && Keyed(v)
    ensures StrictlyClean(r, Sanitize(r, v, key), key) <==> Covered(r, v, key) && Shielded(r, v, key, false)
  {
    CleanExactly(r, v, key);
    SealedExactly(r, v, key, false);
  }

  /** An unmarked text under a harmless key, in a mapping under a sensitive one. */
  function Nested(outer: string, inner: string, text: string): Value {
    Mapping([Field(outer, Mapping([Field(inner, Str(text))]))])
  }

  lemma SanitizeOneField(r: Rules, key: string, value: Value)
    requires !DropsKey(r, Some(key)) && !Sanitize(r, value, Some(key)).Null?
    ensures SanitizeFields(r, [Field(key, value)]) == [Field(key, Sanitize(r, value, Some(key)))]
  {
    assert [Field(key, value)][..0] == [];
  }

  /** The condition fails on every such tree: the evidence sanitizer returns it as
      it is, where the log sanitizer replaces the inner mapping. */
  lemma NestedTextSurvives(r: Rules, outer: string, inner: string, text: string)
    requires Sound(r) && SensitiveKey(r, Some(outer)) && !DropsKey(r, Some(outer))
    requires !SensitiveKey(r, Some(inner)) && !DropsKey(r, Some(inner))
    requires !r.logMarked(text) && !r.adminMarked(text) && text != REDACTED
    ensures var t := Nested(outer, inner, text);
      && Keyed(t) && Json(t)
      && Sanitize(r, t, None) == t && Clean(r, t, None) && !StrictlyClean(r, t, None)
      && LogValue(r, t, None) == Mapping([Field(outer, Str(REDACTED))])
  {
    var t := Nested(outer, inner, text);
    var below := Mapping([Field(inner, Str(text))]);
    SanitizeOneField(r, inner, Str(text));
    SanitizeOneField(r, outer, below);
    FixedExactly(r, t, None);
    assert !Sealed(r, below, Some(outer), false) by { assert !Sealed(r, below.fields[0].value, Some(inner), true); }
    assert !Sealed(r, t, None, false) by { assert !Sealed(r, t.fields[0].value, Some(outer), false); }
    LogOneField(r, outer, below);
  }

  lemma LogOneField(r: Rules, key: string, value: Value)
    ensures LogFields(r, [Field(key, value)]) == [Field(key, LogValue(r, value, Some(key)))]
  {
    assert [Field(key, value)][..0] == [];
    assert LogFields(r, []) == [];
  }

  // ------------------------------------------------------- the log sanitizer

  /** sanitize_log_value on the same values. */
  function LogValue(r: Rules, v: Value, key: Option<string>): Value
    decreases v
  {
    if SensitiveKey(r, key) then Str(REDACTED)
    else match v
      case Mapping(fields) => Mapping(LogFields(r, fields))
      case List(items) => List(LogItems(r, items, key))
      case _ => LogLeaf(r, v, key)
  }

  function LogItems(r: Rules, items: seq<Value>, key: Option<string>): seq<Value>
    decreases items
  {
    if items == [] then [] else LogItems(r, items[..|items| - 1], key) + [LogValue(r, items[|items| - 1], key)]
  }

  function LogFields(r: Rules, fields: seq<Field>): seq<Field>
    decreases fields
  {
    if fields == [] then []
    else
      var f := fields[|fields| - 1];
      Put(LogFields(r, fields[..|fields| - 1]), f.key, LogValue(r, f.value, Some(f.key)))
  }

  lemma {:induction false} PutKeepsSealed(r: Rules, fields: seq<Field>, key: string, value: Value, under: bool)
    requires AllSealed(r, fields, under) && SealedField(r, Field(key, value), under)
    ensures AllSealed(r, Put(fields, key, value), under)
  {
    if fields != [] {
      assert forall i :: 0 <= i < |fields[1..]| ==> fields[1..][i] == fields[i + 1];
      if fields[0].key != key { PutKeepsSealed(r, fields[1..], key, value, under); }
    }
  }

  /** The log sanitizer replaces a mapping under a sensitive key as a whole, so
      what it gives is sealed for every value. */
  lemma {:induction false} LogValueIsSealed(r: Rules, v: Value, key: Option<string>)
    ensures Sealed(r, LogValue(r, v, key), key, false)
    decreases v, 1, 0
  {
    if !SensitiveKey(r, key) {
      match v {
        case Mapping(fields) =>
          LogFieldsAreSealed(r, v, |fields|);
          assert fields[..|fields|] == fields;
          assert AllSealed(r, LogFields(r, fields), false);
        case List(items) =>
          LogItemsAreSealed(r, v, |items|, key);
          assert items[..|items|] == items;
        case _ =>
      }
    }
  }

  lemma {:induction false} LogFieldsAreSealed(r: Rules, v: Value, n: nat)
    requires v.Mapping? && n <= |v.fields|
    ensures AllSealed(r, LogFields(r, v.fields[..n]), false)
    decreases v, 0, n
  {
    if n > 0 {
      var f := v.fields[n - 1];
      LogFieldsAreSealed(r, v, n - 1);
      LogValueIsSealed(r, f.value, Some(f.key));
      assert v.fields[..n][..n - 1] == v.fields[..n - 1];
      PutKeepsSealed(r, LogFields(r, v.fields[..n - 1]), f.key, LogValue(r, f.value, Some(f.key)), false);
    }
  }

  lemma {:induction false} LogItemsAreSealed(r: Rules, v: Value, n: nat, key: Option<string>)
    requires v.List? && n <= |v.items|
    ensures ItemsSealed(r, LogItems(r, v.items[..n], key), key, false)
    decreases v, 0, n
  {
    if n > 0 {
      LogItemsAreSealed(r, v, n - 1, key);
      LogValueIsSealed(r, v.items[n - 1], key);
      assert v.items[..n][..n - 1] == v.items[..n - 1];
      ItemsSnoc(r, LogItems(r, v.items[..n - 1], key), LogValue(r, v.items[n - 1], key), key, false);
    }
  }
}
