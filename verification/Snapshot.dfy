/** The state snapshot of the Python sandbox (sandbox/runtime/runner.py).

    Names are taken in sorted order and kept greedily while the encoded envelope
    stays within a byte limit; the next run restores them.  pickle, JSON and
    base64 are library code: pickle is any pair of functions where loading undoes
    dumping, JSON and base64 enter through the exact length of the text they make. */
module Snapshot {
  import opened Prelude
  import Utf8
  import Base64url

  type Bytes = seq<Utf8.Byte>
  type Namespace<V> = map<string, V>

  /** Python's pickle and str.isidentifier. */
  datatype Library<!V> = Library(
    dumps: Namespace<V> -> Option<Bytes>,
    loads: Bytes -> Option<Namespace<V>>,
    isIdentifier: string -> bool)

  /** Loading undoes dumping, and the empty dictionary dumps to a few bytes. */
  ghost predicate Lawful<V(!new)>(lib: Library<V>) {
    && (forall ns :: lib.dumps(ns).Some? ==> lib.loads(lib.dumps(ns).value) == Some(ns))
    && lib.dumps(map[]).Some? && |lib.dumps(map[]).value| <= 64
  }

  const MAX_STATE_SNAPSHOT_BYTES: nat := 256 * 1024

  /** The JSON envelope: version 1, the recorded names, the pickle in base64. */
  datatype Envelope = Envelope(bindingNames: seq<string>, pickle: Bytes)

  // ---------------------------------------------------------------- lengths

  /** One character of a JSON string under ensure_ascii. */
  function JsonCharLength(c: char): nat {
    var u := c as int;
    if c == '"' || c == '\\' || u == 8 || u == 9 || u == 10 || u == 12 || u == 13 then 2
    else if 32 <= u < 127 then 1
    else if u <= 0xFFFF then 6
    else 12
  }

  function JsonCharsLength(s: string): nat { if s == "" then 0 else JsonCharLength(s[0]) + JsonCharsLength(s[1..]) }

  /** The names as quoted strings with commas between them. */
  function NamesLength(names: seq<string>): nat {
    if names == [] then 0
    else JsonCharsLength(names[|names| - 1]) + 2 + (if |names| > 1 then 1 else 0) + NamesLength(names[..|names| - 1])
  }

  function Base64Length(n: nat): nat { (n + 2) / 3 * 4 }

  /** {"binding_names":[...],"pickle_b64":"...","version":1} in bytes. */
  function EnvelopeLength(e: Envelope): nat {
    |"{'binding_names':["| + NamesLength(e.bindingNames) + |"],'pickle_b64':'"| + Base64Length(|e.pickle|) + |"','version':1}"|
  }

  // ------------------------------------------------- the text they measure

  function HexDigit(d: nat): char
    requires d < 16
  {
    if d < 10 then '0' + d as char else 'a' + (d - 10) as char
  }

  /** \uXXXX. */
  function Unicode(u: nat): (r: string)
    requires u < 0x1_0000
    ensures |r| == 6
  {
    ['\\', 'u', HexDigit(u / 0x1000), HexDigit(u / 0x100 % 0x10), HexDigit(u / 0x10 % 0x10), HexDigit(u % 0x10)]
  }

  /** One character as json.dumps writes it under ensure_ascii. */
  function JsonChar(c: char): string {
    var u := c as int;
    if c == '"' then "\\\""
    else if c == '\\' then "\\\\"
    else if u == 8 then "\\b"
    else if u == 9 then "\\t"
    else if u == 10 then "\\n"
    else if u == 12 then "\\f"
    else if u == 13 then "\\r"
    else if 32 <= u < 127 then [c]
    else if u <= 0xFFFF then Unicode(u)
    else Unicode(0xD800 + (u - 0x1_0000) / 0x400) + Unicode(0xDC00 + (u - 0x1_0000) % 0x400)
  }

  function JsonChars(s: string): string { if s == "" then "" else JsonChar(s[0]) + JsonChars(s[1..]) }

  function JsonNames(names: seq<string>): string {
    if names == [] then ""
    else JsonNames(names[..|names| - 1]) + (if |names| > 1 then "," else "") + ("\"" + JsonChars(names[|names| - 1]) + "\"")
  }

  /** json.dumps(..., separators=(",", ":"), sort_keys=True), given the base64 text. */
  function EnvelopeText(names: seq<string>, base64: string): string {
    "{\"binding_names\":[" + JsonNames(names) + "],\"pickle_b64\":\"" + base64 + "\",\"version\":1}"
  }

  lemma {:induction false} CharsMeasured(s: string)
    ensures |JsonChars(s)| == JsonCharsLength(s)
  {
    if s != "" { CharsMeasured(s[1..]); }
  }

  lemma {:induction false} NamesMeasured(names: seq<string>)
    ensures |JsonNames(names)| == NamesLength(names)
  {
    if names != [] {
      NamesMeasured(names[..|names| - 1]);
      CharsMeasured(names[|names| - 1]);
    }
  }

  /** The length the limit is held against is that of the envelope's text, with
      the pickle in base64. */
  lemma EnvelopeMeasured(e: Envelope, base64: string)
    requires |base64| == |Base64url.EncodePadded(e.pickle)|
    ensures |EnvelopeText(e.bindingNames, base64)| == EnvelopeLength(e)
  {
    NamesMeasured(e.bindingNames);
    Base64url.PaddedLength(e.pickle);
  }

  // ---------------------------------------------------------------- encoder

  predicate Eligible<V>(lib: Library<V>, name: string) {
    lib.isIdentifier(name) && !(name != "" && name[0] == '_')
  }

  function Restrict<V>(ns: Namespace<V>, names: seq<string>): Namespace<V> {
    map n | n in ns && n in names :: ns[n]
  }

  /** The candidate can be dumped and its envelope fits. */
  predicate Fits<V>(lib: Library<V>, ns: Namespace<V>, names: seq<string>) {
    var dumped := lib.dumps(Restrict(ns, names));
    dumped.Some? && EnvelopeLength(Envelope(names, dumped.value)) <= MAX_STATE_SNAPSHOT_BYTES
  }

  /** The names kept from `order`, after `kept`. */
  function Greedy<V>(lib: Library<V>, ns: Namespace<V>, order: seq<string>, kept: seq<string>): seq<string>
    decreases |order|
  {
    if order == [] then kept
    else if Eligible(lib, order[0]) && Fits(lib, ns, kept + [order[0]])
    then Greedy(lib, ns, order[1..], kept + [order[0]])
    else Greedy(lib, ns, order[1..], kept)
  }

  function Encode<V>(lib: Library<V>, ns: Namespace<V>, order: seq<string>): Option<Envelope> {
    var kept := Greedy(lib, ns, order, []);
    var dumped := lib.dumps(Restrict(ns, kept));
    if dumped.None? then None else Some(Envelope(kept, dumped.value))
  }

  /** _encode_state_snapshot; `order` is sorted(namespace). */
  method EncodeStateSnapshot<V>(lib: Library<V>, ns: Namespace<V>, order: seq<string>) returns (e: Option<Envelope>)
    requires forall n :: n in order ==> n in ns
    ensures e == Encode(lib, ns, order)
  {
    var snapshotValues: Namespace<V> := map[];
    var names: seq<string> := [];
    var i := 0;
    assert order[0..] == order;
    while i < |order|
      invariant 0 <= i <= |order|
      invariant forall n :: n in names ==> n in ns
      invariant snapshotValues == Restrict(ns, names)
      invariant Greedy(lib, ns, order[i..], names) == Greedy(lib, ns, order, [])
    {
      var name := order[i];
      assert order[i..][0] == name && order[i..][1..] == order[i + 1..];
      i := i + 1;
      if !Eligible(lib, name) {
        continue;
      }
      var candidate := snapshotValues[name := ns[name]];
      assert candidate == Restrict(ns, names + [name]);
      var candidatePickle := lib.dumps(candidate);
      if candidatePickle.None? {
        continue;
      }
      if EnvelopeLength(Envelope(names + [name], candidatePickle.value)) > MAX_STATE_SNAPSHOT_BYTES {
        continue;
      }
      snapshotValues := candidate;
      names := names + [name];
    }
    var dumped := lib.dumps(snapshotValues);
    e := if dumped.None? then None else Some(Envelope(names, dumped.value));
  }

  /** _restore_state_namespace as a value. */
  function Restore<V>(lib: Library<V>, e: Option<Envelope>): Namespace<V> {
    if e.None? || EnvelopeLength(e.value) > MAX_STATE_SNAPSHOT_BYTES then map[]
    else
      var restored := lib.loads(e.value.pickle);
      if restored.None? then map[] else map n | n in restored.value && Eligible(lib, n) :: restored.value[n]
  }

  method RestoreStateNamespace<V>(lib: Library<V>, e: Option<Envelope>) returns (ns: Namespace<V>)
    ensures ns == Restore(lib, e)
  {
    if e.None? || EnvelopeLength(e.value) > MAX_STATE_SNAPSHOT_BYTES {
      return map[];
    }
    var restored := lib.loads(e.value.pickle);
    if restored.None? {
      return map[];
    }
    ns := map[];
    var todo := restored.value.Keys;
    while todo != {}
      invariant todo <= restored.value.Keys
      invariant ns == map n | n in restored.value && n !in todo && Eligible(lib, n) :: restored.value[n]
      decreases |todo|
    {
      var name :| name in todo;
      if Eligible(lib, name) {
        ns := ns[name := restored.value[name]];
      }
      todo := todo - {name};
    }
  }

  // ------------------------------------------------------------ main results

  lemma {:induction false} GreedyKeeps<V(!new)>(lib: Library<V>, ns: Namespace<V>, order: seq<string>, kept: seq<string>)
    requires Fits(lib, ns, kept)
    requires forall n :: n in kept ==> Eligible(lib, n) && n in ns
    requires forall n :: n in order ==> n in ns
    ensures var all := Greedy(lib, ns, order, kept);
            Fits(lib, ns, all) && kept <= all && forall n :: n in all ==> Eligible(lib, n) && n in ns && n in kept + order
    decreases |order|
  {
    if order != [] {
      var name := order[0];
      if Eligible(lib, name) && Fits(lib, ns, kept + [name]) {
        GreedyKeeps(lib, ns, order[1..], kept + [name]);
      } else {
        GreedyKeeps(lib, ns, order[1..], kept);
      }
    }
  }

  lemma EmptyFits<V(!new)>(lib: Library<V>, ns: Namespace<V>)
    requires Lawful(lib)
    ensures Fits(lib, ns, [])
  {
    assert Restrict(ns, []) == map[];
  }

  /** The snapshot always exists and is within the byte limit. */
  lemma SnapshotWithinLimit<V(!new)>(lib: Library<V>, ns: Namespace<V>, order: seq<string>)
    requires Lawful(lib) && forall n :: n in order ==> n in ns
    ensures Encode(lib, ns, order).Some?
    ensures EnvelopeLength(Encode(lib, ns, order).value) <= MAX_STATE_SNAPSHOT_BYTES
  {
    EmptyFits(lib, ns);
    GreedyKeeps(lib, ns, order, []);
  }

  /** Restoring gives exactly the namespace restricted to the recorded names. */
  lemma RestoreGivesRecorded<V(!new)>(lib: Library<V>, ns: Namespace<V>, order: seq<string>)
    requires Lawful(lib) && forall n :: n in order ==> n in ns
    ensures Encode(lib, ns, order).Some?
    ensures var e := Encode(lib, ns, order);
            && Restore(lib, e) == Restrict(ns, e.value.bindingNames)
            && Restore(lib, e).Keys == set n | n in e.value.bindingNames
  {
    EmptyFits(lib, ns);
    GreedyKeeps(lib, ns, order, []);
    var kept := Greedy(lib, ns, order, []);
    var small := Restrict(ns, kept);
    assert forall n :: n in small ==> Eligible(lib, n);
    assert Restore(lib, Encode(lib, ns, order)) == small;
  }

  /** Exactly which names are kept: an eligible name, if and only if the envelope
      of it and the names kept before it can be dumped and fits. */
  lemma KeptExactly<V>(lib: Library<V>, ns: Namespace<V>, order: seq<string>, i: nat)
    requires i < |order|
    requires forall j, k :: 0 <= j < k < |order| ==> order[j] != order[k]
    ensures var before := Greedy(lib, ns, order[..i], []);
            var dumped := lib.dumps(Restrict(ns, before + [order[i]]));
            order[i] in Greedy(lib, ns, order, []) <==>
            && Eligible(lib, order[i]) && dumped.Some?
            && EnvelopeLength(Envelope(before + [order[i]], dumped.value)) <= 262_144
  {
    var before := Greedy(lib, ns, order[..i], []);
    var next := Greedy(lib, ns, order[..i + 1], []);
    assert order == order[..i + 1] + order[i + 1..];
    assert order[..i + 1] == order[..i] + [order[i]];
    GreedySplits(lib, ns, order[..i], [order[i]], []);
    GreedySplits(lib, ns, order[..i + 1], order[i + 1..], []);
    assert [order[i]][1..] == [];
    GreedyOnlyAdds(lib, ns, order[..i], [], order[i]);
    GreedyOnlyAdds(lib, ns, order[i + 1..], next, order[i]);
  }

  lemma {:induction false} GreedySplits<V>(lib: Library<V>, ns: Namespace<V>, a: seq<string>, b: seq<string>, kept: seq<string>)
    ensures Greedy(lib, ns, a + b, kept) == Greedy(lib, ns, b, Greedy(lib, ns, a, kept))
    decreases |a|
  {
    if a == [] {
      assert a + b == b;
    } else {
      assert (a + b)[1..] == a[1..] + b;
      if Eligible(lib, a[0]) && Fits(lib, ns, kept + [a[0]]) {
        GreedySplits(lib, ns, a[1..], b, kept + [a[0]]);
      } else {
        GreedySplits(lib, ns, a[1..], b, kept);
      }
    }
  }

  lemma {:induction false} GreedyOnlyAdds<V>(lib: Library<V>, ns: Namespace<V>, order: seq<string>, kept: seq<string>, n: string)
    requires n !in order
    ensures n in Greedy(lib, ns, order, kept) <==> n in kept
    decreases |order|
  {
    if order != [] {
      if Eligible(lib, order[0]) && Fits(lib, ns, kept + [order[0]]) {
        GreedyOnlyAdds(lib, ns, order[1..], kept + [order[0]], n);
      } else {
        GreedyOnlyAdds(lib, ns, order[1..], kept, n);
      }
    }
  }

  // ------------------------------------------------ the choice is a fixpoint

  /** Python's order on strings, by code point. */
  predicate Less(a: string, b: string) {
    b != "" && (a == "" || a[0] < b[0] || (a[0] == b[0] && Less(a[1..], b[1..])))
  }

  lemma {:induction false} LessIsStrict(a: string, b: string)
    requires Less(a, b)
    ensures a != b && !Less(b, a)
  {
    if a != "" && a[0] == b[0] { LessIsStrict(a[1..], b[1..]); }
  }

  /** sorted(keys): strictly increasing, and exactly the keys. */
  ghost predicate IsSorted(order: seq<string>) { forall i, j :: 0 <= i < j < |order| ==> Less(order[i], order[j]) }

  ghost predicate IsSortedKeys(order: seq<string>, keys: set<string>) {
    IsSorted(order) && forall n :: n in order <==> n in keys
  }

  function Filter<V>(lib: Library<V>, order: seq<string>): seq<string> {
    if order == [] then []
    else (if Eligible(lib, order[0]) then [order[0]] else []) + Filter(lib, order[1..])
  }

  lemma {:induction false} FilterSorted<V>(lib: Library<V>, order: seq<string>)
    requires IsSorted(order)
    ensures IsSorted(Filter(lib, order))
    ensures forall n :: n in Filter(lib, order) <==> n in order && Eligible(lib, n)
  {
    if order != [] {
      FilterSorted(lib, order[1..]);
      var rest := Filter(lib, order[1..]);
      forall j | 0 <= j < |rest| ensures Less(order[0], rest[j]) {
        assert rest[j] in order[1..];
      }
      assert [] + rest == rest;
    }
  }

  /** A sorted listing is determined by its elements. */
  lemma {:induction false} SortedUnique(a: seq<string>, b: seq<string>)
    requires IsSorted(a) && IsSorted(b) && forall n :: n in a <==> n in b
    ensures a == b
  {
    assert (|a| > 0 ==> a[0] in a) && (|b| > 0 ==> b[0] in b);
    if |a| > 0 && |b| > 0 {
      assert a[0] in b && b[0] in a;
      var i :| 0 <= i < |b| && b[i] == a[0];
      var j :| 0 <= j < |a| && a[j] == b[0];
      if i > 0 && j > 0 { LessIsStrict(a[0], a[j]); }
      assert a[0] == b[0];
      forall n ensures n in a[1..] <==> n in b[1..] {
        if n in a[1..] {
          var k :| 0 <= k < |a[1..]| && a[1..][k] == n;
          LessIsStrict(a[0], a[k + 1]);
          assert n in b;
        }
        if n in b[1..] {
          var k :| 0 <= k < |b[1..]| && b[1..][k] == n;
          LessIsStrict(b[0], b[k + 1]);
          assert n in a;
        }
      }
      SortedUnique(a[1..], b[1..]);
    }
  }

  lemma {:induction false} GreedyIgnoresIneligible<V>(lib: Library<V>, ns: Namespace<V>, order: seq<string>, kept: seq<string>)
    ensures Greedy(lib, ns, order, kept) == Greedy(lib, ns, Filter(lib, order), kept)
    decreases |order|
  {
    if order != [] {
      var f := Filter(lib, order);
      if Eligible(lib, order[0]) {
        assert f[0] == order[0] && f[1..] == Filter(lib, order[1..]);
        GreedyIgnoresIneligible(lib, ns, order[1..], kept + [order[0]]);
      } else {
        assert f == Filter(lib, order[1..]);
      }
      GreedyIgnoresIneligible(lib, ns, order[1..], kept);
    }
  }

  /** Over eligible names alone the greedy choice keeps them all exactly when each
      of its steps fits. */
  lemma {:induction false} AllKeptExactly<V>(lib: Library<V>, ns: Namespace<V>, names: seq<string>, kept: seq<string>)
    requires forall k :: 0 <= k < |names| ==> Eligible(lib, names[k])
    ensures |Greedy(lib, ns, names, kept)| <= |kept| + |names|
    ensures Greedy(lib, ns, names, kept) == kept + names <==> forall k :: 0 < k <= |names| ==> Fits(lib, ns, kept + names[..k])
    decreases |names|
  {
    if names == [] {
      assert kept + names == kept;
    } else {
      var first, rest := [names[0]], names[1..];
      assert names[..1] == first;
      if Fits(lib, ns, kept + first) {
        AllKeptExactly(lib, ns, rest, kept + first);
        assert (kept + first) + rest == kept + names;
        ShiftedSteps(lib, ns, names, kept);
      } else {
        AllKeptExactly(lib, ns, rest, kept);
      }
    }
  }

  lemma ShiftedSteps<V>(lib: Library<V>, ns: Namespace<V>, names: seq<string>, kept: seq<string>)
    requires names != [] && Fits(lib, ns, kept + names[..1])
    ensures (forall k :: 0 < k <= |names| ==> Fits(lib, ns, kept + names[..k]))
            <==> forall k :: 0 < k <= |names| - 1 ==> Fits(lib, ns, (kept + [names[0]]) + names[1..][..k])
  {
    forall k | 0 < k <= |names| - 1 ensures kept + names[..k + 1] == (kept + [names[0]]) + names[1..][..k] {
      assert names[..k + 1] == [names[0]] + names[1..][..k];
    }
    if forall k :: 0 < k <= |names| - 1 ==> Fits(lib, ns, (kept + [names[0]]) + names[1..][..k]) {
      forall k | 0 < k <= |names| ensures Fits(lib, ns, kept + names[..k]) {
        if k > 1 { assert Fits(lib, ns, (kept + [names[0]]) + names[1..][..k - 1]); }
      }
    } else {
      var k :| 0 < k <= |names| - 1 && !Fits(lib, ns, (kept + [names[0]]) + names[1..][..k]);
      assert !Fits(lib, ns, kept + names[..k + 1]);
    }
  }

  lemma {:induction false} FilterEligible<V>(lib: Library<V>, order: seq<string>)
    ensures forall k :: 0 <= k < |Filter(lib, order)| ==> Eligible(lib, Filter(lib, order)[k])
  {
    if order != [] { FilterEligible(lib, order[1..]); }
  }

  /** A snapshot of a whole namespace, ineligible names and all, records every
      eligible name, in order, exactly when each leading run of them fits. */
  lemma NothingDropped<V(!new)>(lib: Library<V>, ns: Namespace<V>, order: seq<string>)
    requires Lawful(lib) && forall n :: n in order ==> n in ns
    ensures Encode(lib, ns, order).Some?
    ensures var eligible := Filter(lib, order);
      Encode(lib, ns, order).value.bindingNames == eligible <==> forall k :: 0 < k <= |eligible| ==> Fits(lib, ns, eligible[..k])
  {
    var eligible := Filter(lib, order);
    SnapshotWithinLimit(lib, ns, order);
    GreedyIgnoresIneligible(lib, ns, order, []);
    FilterEligible(lib, order);
    AllKeptExactly(lib, ns, eligible, []);
    assert [] + eligible == eligible;
    assert forall k :: 0 < k <= |eligible| ==> [] + eligible[..k] == eligible[..k];
  }

  /** Running over the kept names alone keeps them all: every candidate is one
      that was accepted before. */
  lemma {:induction false} GreedyAgain<V>(lib: Library<V>, ns: Namespace<V>, ns': Namespace<V>, order: seq<string>, kept: seq<string>, again: seq<string>)
    requires Greedy(lib, ns, order, kept) == kept + again
    requires forall n :: n in kept + again ==> n in ns && n in ns' && ns'[n] == ns[n]
    ensures Greedy(lib, ns', again, kept) == kept + again
    decreases |order|
  {
    if order == [] {
      assert |again| == 0;
    } else {
      var name := order[0];
      if Eligible(lib, name) && Fits(lib, ns, kept + [name]) {
        GreedyExtends(lib, ns, order[1..], kept + [name]);
        assert again[0] == name && kept + again == (kept + [name]) + again[1..];
        assert Restrict(ns', kept + [name]) == Restrict(ns, kept + [name]);
        GreedyAgain(lib, ns, ns', order[1..], kept + [name], again[1..]);
      } else {
        GreedyAgain(lib, ns, ns', order[1..], kept, again);
      }
    }
  }

  lemma {:induction false} GreedyExtends<V>(lib: Library<V>, ns: Namespace<V>, order: seq<string>, kept: seq<string>)
    ensures kept <= Greedy(lib, ns, order, kept)
    decreases |order|
  {
    if order != [] {
      GreedyExtends(lib, ns, order[1..], kept + [order[0]]);
      GreedyExtends(lib, ns, order[1..], kept);
    }
  }

  lemma {:induction false} GreedySorted<V>(lib: Library<V>, ns: Namespace<V>, order: seq<string>, kept: seq<string>)
    requires IsSorted(kept + order)
    ensures IsSorted(Greedy(lib, ns, order, kept))
    decreases |order|
  {
    if order == [] {
      assert kept + order == kept;
    } else {
      var rest := order[1..];
      assert (kept + [order[0]]) + rest == kept + order;
      GreedySorted(lib, ns, rest, kept + [order[0]]);
      assert forall i :: 0 <= i < |kept + rest| ==>
        (kept + rest)[i] == (kept + order)[if i < |kept| then i else i + 1];
      GreedySorted(lib, ns, rest, kept);
    }
  }

  /** Encode, restore, encode again: the second snapshot equals the first.  The
      second namespace may hold further ineligible names, as `__name__`. */
  lemma EncodeIsFixpoint<V(!new)>(lib: Library<V>, ns: Namespace<V>, order: seq<string>, ns': Namespace<V>, order': seq<string>)
    requires Lawful(lib) && IsSortedKeys(order, ns.Keys) && IsSortedKeys(order', ns'.Keys)
    requires var restored := Restore(lib, Encode(lib, ns, order));
             forall n :: Eligible(lib, n) ==> (n in ns' <==> n in restored) && (n in restored ==> ns'[n] == restored[n])
    ensures Encode(lib, ns', order') == Encode(lib, ns, order)
  {
    RecordedAgain(lib, ns, order, ns', order');
    SameChoice(lib, ns, ns', order, order');
  }

  /** What both namespaces have under the recorded names. */
  ghost predicate Agree<V>(ns: Namespace<V>, ns': Namespace<V>, names: seq<string>) {
    forall n :: n in names ==> n in ns && n in ns' && ns'[n] == ns[n]
  }

  /** The recorded names are the eligible names of the second namespace, in order. */
  lemma RecordedAgain<V(!new)>(lib: Library<V>, ns: Namespace<V>, order: seq<string>, ns': Namespace<V>, order': seq<string>)
    requires Lawful(lib) && IsSortedKeys(order, ns.Keys) && IsSortedKeys(order', ns'.Keys)
    requires var restored := Restore(lib, Encode(lib, ns, order));
             forall n :: Eligible(lib, n) ==> (n in ns' <==> n in restored) && (n in restored ==> ns'[n] == restored[n])
    ensures var kept := Greedy(lib, ns, order, []);
      Agree(ns, ns', kept) && Filter(lib, order') == kept
  {
    var kept := Greedy(lib, ns, order, []);
    var restored := Restore(lib, Encode(lib, ns, order));
    RestoreGivesRecorded(lib, ns, order);
    assert forall n :: n in restored <==> n in kept;
    EmptyFits(lib, ns);
    GreedyKeeps(lib, ns, order, []);
    assert Agree(ns, ns', kept);
    assert [] + order == order;
    GreedySorted(lib, ns, order, []);
    FilterSorted(lib, order');
    forall n ensures n in Filter(lib, order') <==> n in kept {}
    SortedUnique(Filter(lib, order'), kept);
  }

  lemma SameChoice<V>(lib: Library<V>, ns: Namespace<V>, ns': Namespace<V>, order: seq<string>, order': seq<string>)
    requires var kept := Greedy(lib, ns, order, []);
      Agree(ns, ns', kept) && Filter(lib, order') == kept
    ensures Encode(lib, ns', order') == Encode(lib, ns, order)
  {
    var kept := Greedy(lib, ns, order, []);
    assert [] + kept == kept;
    GreedyIgnoresIneligible(lib, ns', order', []);
    GreedyAgain(lib, ns, ns', order, [], kept);
    assert Restrict(ns', kept) == Restrict(ns, kept);
  }
}
