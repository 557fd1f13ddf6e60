/** The string tests of the redactors (backend/app/identity/redaction.py,
    backend/app/core/logging.py), with case folding on ASCII letters. */
module RedactionRules {
  import opened Prelude
  import opened Redaction
  import opened SensitiveKeys
  import opened MarkedText

  const DROP_KEY_NAMES: set<string> := {
    "container_id", "groundingmetadata", "host_path", "prompt", "raw_grounding_html", "raw_grounding_json",
    "raw_prompt", "renderedcontent", "searchentrypoint", "stderr", "stdout" }

  const DROP_KEY_PARTS: set<string> := {"provider_payload", "sandbox_output"}

  const SENSITIVE_KEY_PARTS: set<string> := {
    "authorization", "cookie", "csrf", "password", "refresh_token", "secret", "set_cookie", "token" }

  const LOG_MARKERS: set<string> := {
    "-----begin", "bearer ", "__host-simpagent_refresh", "__host-simpagent_csrf", "postgresql+psycopg://" }

  const ADMIN_MARKERS: set<string> := {
    "/var/run/docker.sock", "bearer ", "container_id=", "__host-simpagent_csrf", "__host-simpagent_refresh",
    "postgresql+psycopg://" }

  function Fold(c: char): char { if 'A' <= c <= 'Z' then c - 'A' + 'a' else c }

  function CaseFold(s: string): (r: string)
    ensures |r| == |s| && forall i :: 0 <= i < |s| ==> r[i] == Fold(s[i])
  {
    seq(|s|, i requires 0 <= i < |s| => Fold(s[i]))
  }

  function Replace(s: string, from: char, to: char): (r: string)
    ensures |r| == |s| && forall i :: 0 <= i < |s| ==> r[i] == if s[i] == from then to else s[i]
  {
    seq(|s|, i requires 0 <= i < |s| => if s[i] == from then to else s[i])
  }

  function Remove(s: string, c: char): (r: string)
    ensures c !in r
    ensures c !in s ==> r == s
  {
    if s == "" then ""
    else if s[0] == c then Remove(s[1..], c)
    else [s[0]] + Remove(s[1..], c)
  }

  /** part in s. */
  predicate Occurs(part: string, s: string) { part <= s || (s != "" && Occurs(part, s[1..])) }

  predicate AnyOccurs(parts: set<string>, s: string) { exists p :: p in parts && Occurs(p, s) }

  predicate EndsWith(s: string, suffix: string) { |suffix| <= |s| && s[|s| - |suffix|..] == suffix }

  function NormalizedKey(key: string): string { Replace(Replace(CaseFold(key), '-', '_'), ' ', '_') }

  function CompactKey(key: string): string { Remove(NormalizedKey(key), '_') }

  /** _should_drop_key on a non-empty key. */
  predicate ShouldDrop(key: string) { CompactKey(key) in DROP_KEY_NAMES || AnyOccurs(DROP_KEY_PARTS, NormalizedKey(key)) }

  /** _is_sensitive_key on a non-empty key. */
  predicate IsSensitive(key: string) {
    var normalized := Replace(CaseFold(key), '-', '_');
    AnyOccurs(SENSITIVE_KEY_PARTS, normalized) || EndsWith(normalized, "_key")
  }

  predicate LogMarked(s: string) { AnyOccurs(LOG_MARKERS, CaseFold(s)) }

  predicate AdminMarked(s: string) { AnyOccurs(ADMIN_MARKERS, CaseFold(s)) }

  const LISTED_RULES: Rules := Rules(ShouldDrop, IsSensitive, LogMarked, AdminMarked)

  lemma {:induction false} OccursChars(part: string, s: string, c: char)
    requires Occurs(part, s) && c in part
    ensures c in s
  {
    if !(part <= s) { OccursChars(part, s[1..], c); }
  }

  lemma {:induction false} OccursLength(part: string, s: string)
    requires Occurs(part, s)
    ensures |part| <= |s|
  {
    if !(part <= s) { OccursLength(part, s[1..]); }
  }

  /** A part occurs exactly when the text is something, the part, and something. */
  lemma {:induction false} OccursExactly(part: string, s: string)
    ensures Occurs(part, s) <==> exists before, after :: s == before + part + after
  {
    if part <= s {
      assert s == "" + part + s[|part|..];
    } else if Occurs(part, s) {
      OccursExactly(part, s[1..]);
      var before, after :| s[1..] == before + part + after;
      assert s == ([s[0]] + before) + part + after;
    } else {
      forall before, after ensures s != before + part + after {
        if s == before + part + after {
          OccursAt(before, part, after);
          assert false;
        }
      }
    }
  }

  lemma {:induction false} OccursAt(before: string, part: string, after: string)
    ensures Occurs(part, before + part + after)
  {
    var s := before + part + after;
    if before == "" {
      assert s == part + after;
    } else {
      OccursAt(before[1..], part, after);
      assert s[1..] == before[1..] + part + after;
    }
  }

  /** How a key is compared: without regard to case, dashes as underscores. */
  function Spelling(key: string): string { Replace(CaseFold(key), '-', '_') }

  /** A key is sensitive exactly when a listed part stands anywhere in it or it ends
      in "_key", whatever its case and dashes. */
  lemma SensitiveExactly(key: string)
    ensures IsSensitive(key) <==>
      || (exists part, before, after :: part in SENSITIVE_KEY_PARTS && Spelling(key) == before + part + after)
      || (exists before :: Spelling(key) == before + "_key")
  {
    var s := Spelling(key);
    forall part ensures Occurs(part, s) <==> exists before, after :: s == before + part + after { OccursExactly(part, s); }
    if EndsWith(s, "_key") { assert s == s[..|s| - 4] + "_key"; }
  }

  /** A text is marked exactly when a listed marker stands anywhere in it, whatever
      its case. */
  lemma MarkedExactly(s: string)
    ensures LogMarked(s) <==> exists marker, before, after :: marker in LOG_MARKERS && CaseFold(s) == before + marker + after
    ensures AdminMarked(s) <==> exists marker, before, after :: marker in ADMIN_MARKERS && CaseFold(s) == before + marker + after
  {
    var t := CaseFold(s);
    forall marker ensures Occurs(marker, t) <==> exists before, after :: t == before + marker + after { OccursExactly(marker, t); }
  }

  /** A character each marker has. */
  function Telltale(marker: string): char {
    if ' ' in marker then ' ' else if '_' in marker then '_' else if '/' in marker then '/' else '-'
  }

  lemma LogMarkersHaveTelltales(marker: string)
    requires marker in LOG_MARKERS
    ensures Telltale(marker) in marker
  {
    assert "-----begin"[0] == '-';
    assert "bearer "[6] == ' ';
    assert "__host-simpagent_refresh"[0] == '_';
    assert "__host-simpagent_csrf"[0] == '_';
    assert "postgresql+psycopg://"[20] == '/';
  }

  lemma AdminMarkersHaveTelltales(marker: string)
    requires marker in ADMIN_MARKERS
    ensures Telltale(marker) in marker && Telltale(marker) != '-'
  {
    assert "bearer "[6] == ' ';
    assert "__host-simpagent_refresh"[0] == '_';
    assert "__host-simpagent_csrf"[0] == '_';
    assert "postgresql+psycopg://"[20] == '/';
    assert "/var/run/docker.sock"[0] == '/';
    assert "container_id="[9] == '_';
  }

  lemma NoLogMarker(s: string)
    requires ' ' !in s && '_' !in s && '/' !in s && '-' !in s
    ensures !AnyOccurs(LOG_MARKERS, s)
  {
    forall m | m in LOG_MARKERS ensures !Occurs(m, s) {
      LogMarkersHaveTelltales(m);
      if Occurs(m, s) { OccursChars(m, s, Telltale(m)); }
    }
  }

  lemma NoAdminMarker(s: string)
    requires ' ' !in s && '_' !in s && '/' !in s
    ensures !AnyOccurs(ADMIN_MARKERS, s)
  {
    forall m | m in ADMIN_MARKERS ensures !Occurs(m, s) {
      AdminMarkersHaveTelltales(m);
      if Occurs(m, s) { OccursChars(m, s, Telltale(m)); }
    }
  }

  lemma ReplacementIsPlain()
    ensures forall i :: 0 <= i < |CaseFold(REDACTED)| ==>
      CaseFold(REDACTED)[i] == '[' || CaseFold(REDACTED)[i] == ']' || 'a' <= CaseFold(REDACTED)[i] <= 'z'
  {
    assert forall i :: 0 <= i < |REDACTED| ==> REDACTED[i] == '[' || REDACTED[i] == ']' || 'A' <= REDACTED[i] <= 'Z';
  }

  /** The replacement carries no marker, so the rules of the lists are sound. */
  lemma ListedRulesAreSound()
    ensures Sound(LISTED_RULES)
  {
    ReplacementIsPlain();
    NoLogMarker(CaseFold(REDACTED));
    NoAdminMarker(CaseFold(REDACTED));
    assert !LogMarked(REDACTED) && !AdminMarked(REDACTED);
  }

  /** For every JSON tree, under the rules of the lists: the result is clean, so that
      nothing but the replacement stands directly under a sensitive key, and
      sanitizing again changes nothing; it is strictly clean exactly when the tree
      is shielded, and free of marked text exactly when no kept key is marked. */
  lemma ListedRulesSanitizeJson(v: Value, key: Option<string>)
    requires Keyed(v) && Json(v)
    ensures Clean(LISTED_RULES, Sanitize(LISTED_RULES, v, key), key)
    ensures Sanitize(LISTED_RULES, Sanitize(LISTED_RULES, v, key), key) == Sanitize(LISTED_RULES, v, key)
    ensures StrictlyClean(LISTED_RULES, Sanitize(LISTED_RULES, v, key), key) <==> Shielded(LISTED_RULES, v, key, false)
    ensures Unmarked(LISTED_RULES, Sanitize(LISTED_RULES, v, key)) <==> KeysUnmarked(LISTED_RULES, v, key)
  {
    ListedRulesAreSound();
    JsonIsSanitized(LISTED_RULES, v, key);
    JsonIsCovered(LISTED_RULES, v, key);
    StrictlyCleanExactly(LISTED_RULES, v, key);
    UnmarkedExactly(LISTED_RULES, v, key);
  }

  lemma PasswordIsSensitive()
    ensures IsSensitive("password")
  {
    var key := "password";
    assert Replace(CaseFold(key), '-', '_') == key;
    assert Occurs("password", key);
  }

  lemma ShortNamesAreKept(key: string)
    requires key == "password" || key == "value"
    ensures !ShouldDrop(key)
  {
    assert NormalizedKey(key) == key;
    assert CompactKey(key) == key;
    assert |key| != 6 && key !in DROP_KEY_NAMES;
    forall p | p in DROP_KEY_PARTS ensures !Occurs(p, key) {
      if Occurs(p, key) { OccursLength(p, key); }
    }
  }

  lemma ValueIsHarmless()
    ensures !IsSensitive("value")
  {
    var key := "value";
    assert Replace(CaseFold(key), '-', '_') == key;
    assert key[|key| - 4..][0] == 'a' && "_key"[0] == '_';
    forall p | p in SENSITIVE_KEY_PARTS ensures !Occurs(p, key) {
      if Occurs(p, key) { OccursLength(p, key); NotInValue(p); }
    }
  }

  lemma NotInValue(part: string)
    requires part in SENSITIVE_KEY_PARTS && |part| <= 5
    ensures !Occurs(part, "value")
  {
    assert part[0] != 'v';
    if Occurs(part, "value") { OccursChars(part, "value", part[0]); }
  }

  /** Under the repository's own keys and markers a password one mapping down is
      shown. */
  lemma NestedPasswordSurvives()
    ensures var t := Nested("password", "value", "hunter2");
      && Sanitize(LISTED_RULES, t, None) == t && !StrictlyClean(LISTED_RULES, t, None)
      && LogValue(LISTED_RULES, t, None) == Mapping([Field("password", Str(REDACTED))])
  {
    ListedRulesAreSound();
    PasswordIsSensitive();
    ValueIsHarmless();
    ShortNamesAreKept("password");
    ShortNamesAreKept("value");
    PlainTextIsUnmarked();
    NestedUnderListedRules("password", "value", "hunter2");
  }

  lemma PlainTextIsUnmarked()
    ensures !LogMarked("hunter2") && !AdminMarked("hunter2") && "hunter2" != REDACTED
  {
    var text := "hunter2";
    assert forall i :: 0 <= i < |text| ==> text[i] == '2' || 'a' <= text[i] <= 'z';
    assert CaseFold(text) == text;
    NoLogMarker(text);
    NoAdminMarker(text);
    assert text[0] == 'h' && REDACTED[0] == '[';
  }

  lemma NestedUnderListedRules(outer: string, inner: string, text: string)
    requires Sound(LISTED_RULES) && outer != "" && inner != ""
    requires IsSensitive(outer) && !ShouldDrop(outer) && !IsSensitive(inner) && !ShouldDrop(inner)
    requires !LogMarked(text) && !AdminMarked(text) && text != REDACTED
    ensures var t := Nested(outer, inner, text);
      && Sanitize(LISTED_RULES, t, None) == t && !StrictlyClean(LISTED_RULES, t, None)
      && LogValue(LISTED_RULES, t, None) == Mapping([Field(outer, Str(REDACTED))])
  {
    NestedTextSurvives(LISTED_RULES, outer, inner, text);
  }

  lemma BearerKeyIsKept()
    ensures !ShouldDrop("bearer abc")
  {
    var key, plain := "bearer abc", "bearer_abc";
    assert NormalizedKey(key) == plain;
    assert |CompactKey(key)| >= 2 && CompactKey(key)[0] == 'b' by { RemoveKeepsStart(plain, '_'); }
    if CompactKey(key) in DROP_KEY_NAMES { PlainNamesStart(CompactKey(key)); }
    forall p | p in DROP_KEY_PARTS ensures !Occurs(p, plain) {
      if Occurs(p, plain) { OccursLength(p, plain); }
    }
  }

  /** A letter each sensitive part has and "bearer abc" has not. */
  function PartLetter(part: string): char {
    if 'o' in part then 'o' else if 's' in part then 's' else 't'
  }

  lemma PartsHaveLetters(part: string)
    requires part in SENSITIVE_KEY_PARTS
    ensures PartLetter(part) in part
  {
    assert "authorization"[4] == 'o' && "cookie"[1] == 'o' && "csrf"[1] == 's' && "password"[2] == 's'
        && "refresh_token"[5] == 's' && "secret"[0] == 's' && "set_cookie"[0] == 's' && "token"[0] == 't';
  }

  lemma BearerKeyIsHarmless()
    ensures !IsSensitive("bearer abc")
  {
    var key := "bearer abc";
    assert Replace(CaseFold(key), '-', '_') == key;
    assert key[|key| - 4..][0] == ' ' && "_key"[0] == '_';
    assert 'o' !in key && 's' !in key && 't' !in key;
    forall p | p in SENSITIVE_KEY_PARTS ensures !Occurs(p, key) {
      PartsHaveLetters(p);
      if Occurs(p, key) { OccursChars(p, key, PartLetter(p)); }
    }
  }

  lemma BearerKeyIsMarked()
    ensures LogMarked("bearer abc")
  {
    var key := "bearer abc";
    assert CaseFold(key) == key;
    assert "bearer " <= key;
    assert Occurs("bearer ", key) && "bearer " in LOG_MARKERS;
  }

  /** Under the repository's own lists a marked key is shown. */
  lemma BearerKeySurvives()
    ensures var t := Mapping([Field("bearer abc", Number(1))]);
      Sanitize(LISTED_RULES, t, None) == t && !Unmarked(LISTED_RULES, t)
  {
    ListedRulesAreSound();
    BearerKeyIsKept();
    BearerKeyIsHarmless();
    BearerKeyIsMarked();
    KeyUnderListedRules("bearer abc");
  }

  lemma KeyUnderListedRules(name: string)
    requires Sound(LISTED_RULES) && LogMarked(name) && !ShouldDrop(name) && !IsSensitive(name)
    ensures var t := Mapping([Field(name, Number(1))]);
      Sanitize(LISTED_RULES, t, None) == t && !Unmarked(LISTED_RULES, t)
  {
    MarkedKeySurvives(LISTED_RULES, name, 1);
  }

  /** Cleaning is not stable for every leaf the sanitizer accepts: a path that
      reads like a key file passes the first time and is replaced the second. */
  lemma PathPassesOnce()
    ensures var path := Path("-----BEGIN");
      && Sanitize(LISTED_RULES, path, None) == Str("-----BEGIN")
      && Sanitize(LISTED_RULES, Sanitize(LISTED_RULES, path, None), None) == Str(REDACTED)
  {
    KeyFileTextIsMarked();
    PathOfMarkedText(LISTED_RULES, "-----BEGIN");
  }

  lemma PathOfMarkedText(r: Rules, text: string)
    requires r.logMarked(text) && !r.adminMarked(text) && !r.adminMarked(REDACTED)
    ensures Sanitize(r, Path(text), None) == Str(text)
    ensures Sanitize(r, Str(text), None) == Str(REDACTED)
  {
  }

  lemma KeyFileTextIsMarked()
    ensures LogMarked("-----BEGIN") && !AdminMarked("-----BEGIN") && !AdminMarked(REDACTED)
  {
    KeyFileTextFolds();
    assert Occurs("-----begin", "-----begin");
    NoAdminMarker("-----begin");
    ReplacementIsPlain();
    NoAdminMarker(CaseFold(REDACTED));
  }

  lemma KeyFileTextFolds()
    ensures CaseFold("-----BEGIN") == "-----begin"
    ensures ' ' !in "-----begin" && '_' !in "-----begin" && '/' !in "-----begin"
  {
    assert forall i :: 0 <= i < |"-----begin"| ==> "-----begin"[i] == '-' || 'a' <= "-----begin"[i] <= 'z';
  }

  // -------------------------------------------------------- the list of names

  lemma ListedNamesAreLower(name: string)
    requires name in DROP_KEY_NAMES
    ensures forall i :: 0 <= i < |name| ==> name[i] == '_' || 'a' <= name[i] <= 'z'
  {
  }

  /** Compacting removes every underscore before the names are compared, so a
      listed name is ever matched exactly when it has none.  Five of the listed
      names have one and match no key. */
  lemma NameMatchesExactly(name: string)
    requires name in DROP_KEY_NAMES
    ensures (exists key :: CompactKey(key) == name) <==> '_' !in name
  {
    ListedNamesAreLower(name);
    if '_' !in name {
      assert NormalizedKey(name) == name;
      assert CompactKey(name) == name;
    }
  }

  lemma UnderscoredNamesMatchNothing(key: string)
    ensures CompactKey(key) !in {"container_id", "host_path", "raw_grounding_html", "raw_grounding_json", "raw_prompt"}
  {
    assert "container_id"[9] == '_' && "host_path"[4] == '_' && "raw_grounding_html"[3] == '_'
        && "raw_grounding_json"[3] == '_' && "raw_prompt"[3] == '_';
  }

  lemma NoDropPart(name: string)
    requires 'v' !in name && 'x' !in name
    ensures !AnyOccurs(DROP_KEY_PARTS, name)
  {
    assert "provider_payload"[3] == 'v' && "sandbox_output"[6] == 'x';
    forall p | p in DROP_KEY_PARTS ensures !Occurs(p, name) {
      if Occurs(p, name) { OccursChars(p, name, if p == "provider_payload" then 'v' else 'x'); }
    }
  }

  lemma UnderscoredNamesHaveNoPart(name: string)
    requires name in DROP_KEY_NAMES && '_' in name
    ensures 'v' !in name && 'x' !in name
  {
  }

  /** A key spelled like a listed name is dropped exactly when the name has no
      underscore: `raw_prompt`, for one, is kept. */
  lemma ListedNameIsDroppedExactly(name: string)
    requires name in DROP_KEY_NAMES
    ensures ShouldDrop(name) <==> '_' !in name
  {
    NameMatchesExactly(name);
    ListedNamesAreLower(name);
    assert NormalizedKey(name) == name;
    if '_' in name {
      CompactedNamesDiffer(name);
      UnderscoredNamesHaveNoPart(name);
      NoDropPart(name);
    }
  }

  lemma {:induction false} RemoveKeepsStart(s: string, c: char)
    requires |s| >= 2 && s[0] != c && s[1] != c
    ensures |Remove(s, c)| >= 2 && Remove(s, c)[0] == s[0] && Remove(s, c)[1] == s[1]
  {
    assert Remove(s, c) == [s[0]] + ([s[1]] + Remove(s[1..][1..], c));
  }

  lemma UnderscoredNamesStart(name: string)
    requires name in DROP_KEY_NAMES && '_' in name
    ensures |name| >= 2 && name[0] != '_' && name[1] != '_'
    ensures name[0] == 'c' || name[0] == 'h' || (name[0] == 'r' && name[1] == 'a')
  {
    assert name in {"container_id", "host_path", "raw_grounding_html", "raw_grounding_json", "raw_prompt"};
  }

  lemma PlainNamesStart(name: string)
    requires name in DROP_KEY_NAMES && '_' !in name
    ensures |name| >= 2 && (name[0] == 'g' || name[0] == 'p' || name[0] == 's' || (name[0] == 'r' && name[1] == 'e'))
  {
    assert "container_id"[9] == '_' && "host_path"[4] == '_' && "raw_grounding_html"[3] == '_'
        && "raw_grounding_json"[3] == '_' && "raw_prompt"[3] == '_';
    assert name in {"groundingmetadata", "prompt", "renderedcontent", "searchentrypoint", "stderr", "stdout"};
  }

  lemma CompactedNamesDiffer(name: string)
    requires name in DROP_KEY_NAMES && '_' in name && NormalizedKey(name) == name
    ensures CompactKey(name) !in DROP_KEY_NAMES
  {
    UnderscoredNamesStart(name);
    RemoveKeepsStart(name, '_');
    if CompactKey(name) in DROP_KEY_NAMES { PlainNamesStart(CompactKey(name)); }
  }
}
