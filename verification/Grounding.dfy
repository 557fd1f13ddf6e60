/** Provider evidence: chunks are filtered and numbered, and citations are moved
    onto the survivors (backend/app/ai/search_worker/grounding.py; the same
    numbering in backend/app/ai/search_worker/firecrawl_client.py), then what is
    left is normalized (backend/app/services/chat_turns.py) and shown. */
module Grounding {
  import opened Prelude
  import opened Text
  import opened SearchModel
  import opened Lifecycle
  import Answers

  /** A grounding chunk; a missing field reads as "". */
  datatype Chunk = NotWeb | Web(title: string, domain: string, uri: string)

  /** A grounding support: the chunks it lists, and its segment. */
  datatype Support = Malformed | Support(indices: seq<int>, start: Option<int>, end: Option<int>)

  datatype Evidence = Evidence(grounded: bool, sources: seq<Source>, citations: seq<Citation>)

  /** looks_sensitive_text, and sanitize_source_uri on a non-empty URI. */
  datatype WebPolicy = WebPolicy(sensitive: string -> bool, sanitize: string -> Option<string>)

  function CleanUri(p: WebPolicy, uri: string): Option<string> {
    var stripped := Strip(uri);
    if stripped == "" then None
    else
      var clean := p.sanitize(stripped);
      if clean == Some("") then None else clean
  }

  /** The source of a page, before it is numbered, if it has a title, a domain and
      an address. */
  function Page(title: string, domain: string, uri: Option<string>): Option<Source> {
    if title == "" || domain == "" || uri.None? then None
    else Some(Source(0, Truncate(title, 500), Truncate(domain, 255), uri))
  }

  /** What is kept of a chunk. */
  function KeepChunk(p: WebPolicy, c: Chunk): Option<Source> {
    if c.NotWeb? then None
    else
      var title, domain := Strip(c.title), Strip(c.domain);
      if p.sensitive(title) || p.sensitive(domain) then None else Page(title, domain, CleanUri(p, c.uri))
  }

  /** What is kept of a list, before numbering: None where an entry is dropped. */
  type Kept = seq<Option<Source>>

  function KeptChunks(p: WebPolicy, chunks: seq<Chunk>): (r: Kept)
    ensures |r| == |chunks| && forall i :: 0 <= i < |r| ==> r[i] == KeepChunk(p, chunks[i])
  {
    seq(|chunks|, i requires 0 <= i < |chunks| => KeepChunk(p, chunks[i]))
  }

  /** A URI longer than its field allows: building the source raises. */
  predicate Oversized(s: Option<Source>) { s.Some? && s.value.uri.Some? && |s.value.uri.value| > 2048 }

  predicate AnyOversized(kept: Kept) { exists i :: 0 <= i < |kept| && Oversized(kept[i]) }

  /** The survivors, numbered from 1. */
  function Survivors(kept: Kept): seq<Source> {
    if kept == [] then []
    else
      var last := kept[|kept| - 1];
      var front := Survivors(kept[..|kept| - 1]);
      if last.Some? then front + [last.value.(index := |front| + 1)] else front
  }

  /** source_index_map: from a survivor's position to its number. */
  function IndexMap(kept: Kept): map<int, nat> {
    if kept == [] then map[]
    else
      var n := |kept| - 1;
      var front := IndexMap(kept[..n]);
      if kept[n].Some? then front[n := |Survivors(kept[..n])| + 1] else front
  }

  /** The first listed index that is in the map. */
  function FirstMapped(m: map<int, nat>, indices: seq<int>): Option<nat> {
    if indices == [] then None
    else if indices[0] in m then Some(m[indices[0]])
    else FirstMapped(m, indices[1..])
  }

  function NonNegative(n: Option<int>): Option<nat> {
    if n.Some? && n.value >= 0 then Some(n.value) else None
  }

  function CitationsOf(m: map<int, nat>, supports: seq<Support>): seq<Citation> {
    if supports == [] then []
    else
      var last := supports[|supports| - 1];
      var front := CitationsOf(m, supports[..|supports| - 1]);
      if last.Support? && FirstMapped(m, last.indices).Some? then
        front + [Citation(|front| + 1, FirstMapped(m, last.indices).value, NonNegative(last.start), NonNegative(last.end))]
      else front
  }

  function EvidenceOf(kept: Kept, supports: seq<Support>): Evidence {
    var sources := Survivors(kept);
    var citations := CitationsOf(IndexMap(kept), supports);
    Evidence(sources != [] && citations != [], sources, citations)
  }

  /** normalize_grounding_evidence; None when a source does not validate. */
  method NormalizeGroundingEvidence(p: WebPolicy, chunks: seq<Chunk>, supports: seq<Support>) returns (e: Option<Evidence>)
    ensures e.None? <==> AnyOversized(KeptChunks(p, chunks))
    ensures e.Some? ==> e.value == EvidenceOf(KeptChunks(p, chunks), supports)
  {
    var numbered := NumberSurvivors(KeptChunks(p, chunks));
    if numbered.None? { return None; }
    var (sources, sourceIndexMap) := numbered.value;
    var citations := MapSupports(sourceIndexMap, supports);
    return Some(Evidence(sources != [] && citations != [], sources, citations));
  }

  /** The loop over the chunks, given what each chunk's checks keep of it. */
  method NumberSurvivors(kept: Kept) returns (r: Option<(seq<Source>, map<int, nat>)>)
    ensures r.None? <==> AnyOversized(kept)
    ensures r.Some? ==> r.value == (Survivors(kept), IndexMap(kept))
  {
    var sourceIndexMap: map<int, nat> := map[];
    var sources: seq<Source> := [];
    for i := 0 to |kept|
      invariant sources == Survivors(kept[..i]) && sourceIndexMap == IndexMap(kept[..i])
      invariant forall k :: 0 <= k < i ==> !Oversized(kept[k])
    {
      assert kept[..i + 1][..i] == kept[..i];
      if kept[i].None? { continue; }
      if Oversized(kept[i]) { return None; }
      var sourceIndex := |sources| + 1;
      sourceIndexMap := sourceIndexMap[i := sourceIndex];
      sources := sources + [kept[i].value.(index := sourceIndex)];
    }
    assert kept[..|kept|] == kept;
    return Some((sources, sourceIndexMap));
  }

  method MapSupports(sourceIndexMap: map<int, nat>, supports: seq<Support>) returns (citations: seq<Citation>)
    ensures citations == CitationsOf(sourceIndexMap, supports)
  {
    citations := [];
    for i := 0 to |supports|
      invariant citations == CitationsOf(sourceIndexMap, supports[..i])
    {
      assert supports[..i + 1][..i] == supports[..i];
      var support := supports[i];
      if support.Malformed? { continue; }
      var mapped := FirstMapped(sourceIndexMap, support.indices);
      if mapped.None? { continue; }
      citations := citations + [Citation(|citations| + 1, mapped.value, NonNegative(support.start), NonNegative(support.end))];
    }
    assert supports[..|supports|] == supports;
  }

  // ------------------------------------------------------- what the maps mean

  /** The map names exactly the survivors, and a survivor's number leads to its
      own source. */
  lemma {:induction false} MapLeadsToSource(kept: Kept, i: int)
    ensures i in IndexMap(kept) <==> 0 <= i < |kept| && kept[i].Some?
    ensures i in IndexMap(kept) ==>
      var k := IndexMap(kept)[i];
      1 <= k <= |Survivors(kept)| && Survivors(kept)[k - 1] == kept[i].value.(index := k)
  {
    if kept != [] { MapLeadsToSource(kept[..|kept| - 1], i); }
  }

  /** Survivors are numbered 1..k in the order of their kept, with none left
      out and none made up. */
  lemma {:induction false} SurvivorsInOrder(kept: Kept)
    ensures Numbered(Survivors(kept))
    ensures forall i, j :: i in IndexMap(kept) && j in IndexMap(kept) && i < j ==>
              IndexMap(kept)[i] < IndexMap(kept)[j]
    ensures forall k :: 1 <= k <= |Survivors(kept)| ==> Numbers(IndexMap(kept), k)
  {
    if kept != [] {
      var n := |kept| - 1;
      SurvivorsInOrder(kept[..n]);
      forall i | i in IndexMap(kept[..n])
        ensures i < n && IndexMap(kept[..n])[i] <= |Survivors(kept[..n])|
      {
        MapLeadsToSource(kept[..n], i);
      }
      ValuesGrow(kept);
    }
  }

  ghost predicate Numbers(m: map<int, nat>, k: nat) { exists i :: i in m && m[i] == k }

  lemma ValuesGrow(kept: Kept)
    requires kept != []
    ensures var n := |kept| - 1;
      forall k :: Numbers(IndexMap(kept[..n]), k) || (kept[n].Some? && k == |Survivors(kept[..n])| + 1) ==>
        Numbers(IndexMap(kept), k)
  {
    var n := |kept| - 1;
    var front, m := IndexMap(kept[..n]), IndexMap(kept);
    assert n !in front by { MapLeadsToSource(kept[..n], n); }
    forall k | Numbers(front, k) ensures Numbers(m, k) {
      var i :| i in front && front[i] == k;
      assert m[i] == k;
    }
    if kept[n].Some? { assert m[n] == |Survivors(kept[..n])| + 1; }
  }

  /** The first surviving chunk a support lists, said without the map. */
  ghost predicate FirstSurvivor(kept: Kept, s: Support, i: int) {
    && s.Support? && 0 <= i < |kept| && kept[i].Some?
    && exists a :: 0 <= a < |s.indices| && s.indices[a] == i && forall b :: 0 <= b < a ==> !Lists(kept, s.indices[b])
  }

  predicate Lists(kept: Kept, i: int) { 0 <= i < |kept| && kept[i].Some? }

  /** The first mapped index is that of the first surviving chunk, or there is none. */
  lemma {:induction false} FirstMappedIsFirst(kept: Kept, indices: seq<int>)
    ensures var r := FirstMapped(IndexMap(kept), indices);
      if r.None? then forall b :: 0 <= b < |indices| ==> !Lists(kept, indices[b])
      else exists a :: 0 <= a < |indices| && Lists(kept, indices[a]) && indices[a] in IndexMap(kept)
             && r.value == IndexMap(kept)[indices[a]] && forall b :: 0 <= b < a ==> !Lists(kept, indices[b])
  {
    if indices != [] {
      MapLeadsToSource(kept, indices[0]);
      var m := IndexMap(kept);
      if indices[0] !in m {
        FirstMappedIsFirst(kept, indices[1..]);
        var r := FirstMapped(m, indices[1..]);
        if r.Some? {
          var a :| 0 <= a < |indices[1..]| && Lists(kept, indices[1..][a]) && indices[1..][a] in m
                   && r.value == m[indices[1..][a]] && forall b :: 0 <= b < a ==> !Lists(kept, indices[1..][b]);
          assert indices[1 + a] == indices[1..][a];
          forall b | 0 <= b < 1 + a ensures !Lists(kept, indices[b]) {
            if b > 0 { assert indices[b] == indices[1..][b - 1]; }
          }
        } else {
          forall b | 0 <= b < |indices| ensures !Lists(kept, indices[b]) {
            if b > 0 { assert indices[b] == indices[1..][b - 1]; }
          }
        }
      }
    }
  }

  /** A citation made from support s. */
  ghost predicate Cites(kept: Kept, s: Support, c: Citation) {
    exists i :: FirstSurvivor(kept, s, i) && 1 <= c.sourceIndex <= |Survivors(kept)|
      && Survivors(kept)[c.sourceIndex - 1] == kept[i].value.(index := c.sourceIndex)
      && i in IndexMap(kept) && IndexMap(kept)[i] == c.sourceIndex
      && Bound(s.start, c.start) && Bound(s.end, c.end)
  }

  /** A bound of a segment is kept unless it is negative. */
  predicate Bound(given: Option<int>, kept: Option<nat>) {
    if given.Some? && given.value >= 0 then kept.Some? && kept.value == given.value else kept.None?
  }

  predicate Cited(kept: Kept, s: Support) {
    s.Support? && exists a :: 0 <= a < |s.indices| && Lists(kept, s.indices[a])
  }

  function CitedSupports(kept: Kept, supports: seq<Support>): seq<Support> {
    if supports == [] then []
    else
      var last := supports[|supports| - 1];
      CitedSupports(kept, supports[..|supports| - 1]) + (if Cited(kept, last) then [last] else [])
  }

  /** The citations cs are those of the supports ss, one each, numbered in order. */
  ghost predicate Follow(kept: Kept, ss: seq<Support>, cs: seq<Citation>) {
    |cs| == |ss| && forall k :: 0 <= k < |cs| ==> cs[k].index == k + 1 && Cites(kept, ss[k], cs[k])
  }

  lemma FollowSnoc(kept: Kept, ss: seq<Support>, cs: seq<Citation>, s: Support, c: Citation)
    requires Follow(kept, ss, cs) && c.index == |cs| + 1 && Cites(kept, s, c)
    ensures Follow(kept, ss + [s], cs + [c])
  {
  }

  /** Each support that lists a survivor gives one citation, in order and numbered
      from 1, of the source of the first survivor it lists; the others give none. */
  lemma {:induction false} CitationsFollowSupports(kept: Kept, supports: seq<Support>)
    ensures Follow(kept, CitedSupports(kept, supports), EvidenceOf(kept, supports).citations)
  {
    MappedFollow(kept, supports);
  }

  lemma {:induction false} MappedFollow(kept: Kept, supports: seq<Support>)
    ensures Follow(kept, CitedSupports(kept, supports), CitationsOf(IndexMap(kept), supports))
  {
    if supports != [] {
      var last, front := supports[|supports| - 1], supports[..|supports| - 1];
      var ss, cs := CitedSupports(kept, front), CitationsOf(IndexMap(kept), front);
      MappedFollow(kept, front);
      assert ss + [] == ss;
      if last.Support? {
        LastCites(kept, last, |cs| + 1);
        var mapped := FirstMapped(IndexMap(kept), last.indices);
        if mapped.Some? {
          FollowSnoc(kept, ss, cs, last, Citation(|cs| + 1, mapped.value, NonNegative(last.start), NonNegative(last.end)));
        }
      }
    }
  }

  lemma LastCites(kept: Kept, s: Support, index: nat)
    requires s.Support?
    ensures var r := FirstMapped(IndexMap(kept), s.indices);
      && (r.Some? <==> Cited(kept, s))
      && (r.Some? ==> Cites(kept, s, Citation(index, r.value, NonNegative(s.start), NonNegative(s.end))))
  {
    FirstMappedIsFirst(kept, s.indices);
    var m := IndexMap(kept);
    var r := FirstMapped(m, s.indices);
    if r.Some? {
      var a :| 0 <= a < |s.indices| && Lists(kept, s.indices[a]) && s.indices[a] in m
               && r.value == m[s.indices[a]] && forall b :: 0 <= b < a ==> !Lists(kept, s.indices[b]);
      FirstListedCites(kept, s, a, index);
    }
  }

  lemma FirstListedCites(kept: Kept, s: Support, a: nat, index: nat)
    requires s.Support? && a < |s.indices| && Lists(kept, s.indices[a]) && s.indices[a] in IndexMap(kept)
    requires forall b :: 0 <= b < a ==> !Lists(kept, s.indices[b])
    ensures Cites(kept, s, Citation(index, IndexMap(kept)[s.indices[a]], NonNegative(s.start), NonNegative(s.end)))
  {
    MapLeadsToSource(kept, s.indices[a]);
    assert FirstSurvivor(kept, s, s.indices[a]);
  }

  /** A turn is grounded exactly when some support lists a chunk that survives. */
  lemma {:induction false} GroundedExactly(kept: Kept, supports: seq<Support>)
    ensures EvidenceOf(kept, supports).grounded
            <==> exists k :: 0 <= k < |supports| && Cited(kept, supports[k])
  {
    CitationsFollowSupports(kept, supports);
    CitedSome(kept, supports);
    var e := EvidenceOf(kept, supports);
    if e.citations != [] { assert Cites(kept, CitedSupports(kept, supports)[0], e.citations[0]); }
  }

  lemma {:induction false} CitedSome(kept: Kept, supports: seq<Support>)
    ensures CitedSupports(kept, supports) != [] <==> exists k :: 0 <= k < |supports| && Cited(kept, supports[k])
  {
    if supports != [] {
      var n := |supports| - 1;
      CitedSome(kept, supports[..n]);
      if CitedSupports(kept, supports[..n]) != [] {
        var k :| 0 <= k < n && Cited(kept, supports[..n][k]);
        assert supports[k] == supports[..n][k];
      } else {
        forall k | 0 <= k < n ensures !Cited(kept, supports[k]) { assert supports[k] == supports[..n][k]; }
      }
    }
  }

  /** From provider to screen: whatever was filtered out, each shown citation
      links to exactly one shown source, that of the first surviving chunk its
      support lists. */
  lemma LinkReachesFirstSurvivor(kept: Kept, supports: seq<Support>, messageId: string, c: nat, k: nat)
    requires c < |EvidenceOf(kept, supports).citations| && k < |EvidenceOf(kept, supports).sources|
    ensures |CitedSupports(kept, supports)| == |EvidenceOf(kept, supports).citations|
    ensures var e := EvidenceOf(kept, supports);
      RenderSources(messageId, e.sources)[k].id == RenderCitations(messageId, e.citations)[c].sourceId
      <==> exists i :: FirstSurvivor(kept, CitedSupports(kept, supports)[c], i) && i in IndexMap(kept) && IndexMap(kept)[i] == k + 1
  {
    var e := EvidenceOf(kept, supports);
    SurvivorsInOrder(kept);
    CitationsFollowSupports(kept, supports);
    var s := CitedSupports(kept, supports)[c];
    assert Cites(kept, s, e.citations[c]);
    LinkIsUnique(messageId, e.sources, e.citations, c, k);
    forall i, j | FirstSurvivor(kept, s, i) && FirstSurvivor(kept, s, j) ensures i == j {
      FirstSurvivorUnique(kept, s, i, j);
    }
  }

  lemma FirstSurvivorUnique(kept: Kept, s: Support, i: int, j: int)
    requires FirstSurvivor(kept, s, i) && FirstSurvivor(kept, s, j)
    ensures i == j
  {
    var a :| 0 <= a < |s.indices| && s.indices[a] == i && forall b :: 0 <= b < a ==> !Lists(kept, s.indices[b]);
    var c :| 0 <= c < |s.indices| && s.indices[c] == j && forall b :: 0 <= b < c ==> !Lists(kept, s.indices[b]);
    assert Lists(kept, s.indices[a]) && Lists(kept, s.indices[c]);
  }

  // ------------------------------------------------- which chunks, and how shown

  /** The sanitized URI of a page, if it may be shown at all. */
  predicate Reachable(p: WebPolicy, uri: string) {
    Strip(uri) != "" && p.sanitize(Strip(uri)).Some? && p.sanitize(Strip(uri)).value != ""
  }

  /** A chunk that may be shown: a page with a title and a domain, neither of them
      sensitive, and an address that can be followed. */
  predicate Presentable(p: WebPolicy, c: Chunk) {
    && c.Web? && Strip(c.title) != "" && Strip(c.domain) != ""
    && !p.sensitive(Strip(c.title)) && !p.sensitive(Strip(c.domain)) && Reachable(p, c.uri)
  }

  /** A chunk shown: the beginning of its title and of its domain, and its address. */
  predicate Shows(p: WebPolicy, c: Chunk, title: string, domain: string, url: string) {
    && Presentable(p, c)
    && FirstOf(title, Strip(c.title), 500) && FirstOf(domain, Strip(c.domain), 255) && p.sanitize(Strip(c.uri)) == Some(url)
  }

  function Selected<T>(keep: T -> bool, s: seq<T>): seq<T> {
    if s == [] then []
    else Selected(keep, s[..|s| - 1]) + (if keep(s[|s| - 1]) then [s[|s| - 1]] else [])
  }

  lemma {:induction false} SelectedExactly<T>(keep: T -> bool, s: seq<T>, x: T)
    ensures x in Selected(keep, s) <==> x in s && keep(x)
  {
    if s != [] {
      var front, last := s[..|s| - 1], s[|s| - 1];
      SelectedExactly(keep, front, x);
      assert x in s <==> x in front || x == last;
    }
  }

  function ChunkTest(p: WebPolicy): Chunk -> bool { c => Presentable(p, c) }

  function ChunkShown(p: WebPolicy): (Chunk, Source) -> bool {
    (c: Chunk, s: Source) => s.uri.Some? && Shows(p, c, s.title, s.domain, s.uri.value)
  }

  lemma CleanUriExactly(p: WebPolicy, uri: string)
    ensures CleanUri(p, uri) == if Reachable(p, uri) then p.sanitize(Strip(uri)) else None
  {
  }

  lemma KeptShows(p: WebPolicy, c: Chunk)
    ensures KeepChunk(p, c).Some? <==> Presentable(p, c)
    ensures KeepChunk(p, c).Some? ==>
      var s := KeepChunk(p, c).value; s.uri.Some? && Shows(p, c, s.title, s.domain, s.uri.value)
  {
    if c.Web? { CleanUriExactly(p, c.uri); }
  }

  /** What is kept of a chunk shows it, whatever its number. */
  ghost predicate FitsChunk(keep: Chunk -> bool, shows: (Chunk, Source) -> bool, c: Chunk, kept: Option<Source>) {
    (kept.Some? <==> keep(c)) && (kept.Some? ==> forall k: nat :: shows(c, kept.value.(index := k)))
  }

  lemma KeptChunkFits(p: WebPolicy, c: Chunk)
    ensures FitsChunk(ChunkTest(p), ChunkShown(p), c, KeepChunk(p, c))
  {
    KeptShows(p, c);
  }

  /** The sources are those of the chunks shown, one each, numbered from 1. */
  ghost predicate AllSourcesShow(shows: (Chunk, Source) -> bool, shown: seq<Chunk>, sources: seq<Source>) {
    |sources| == |shown| && forall k :: 0 <= k < |sources| ==> sources[k].index == k + 1 && shows(shown[k], sources[k])
  }

  lemma {:induction false} SurvivorsShow(keep: Chunk -> bool, shows: (Chunk, Source) -> bool, chunks: seq<Chunk>, kept: Kept)
    requires |kept| == |chunks| && forall i :: 0 <= i < |chunks| ==> FitsChunk(keep, shows, chunks[i], kept[i])
    ensures AllSourcesShow(shows, Selected(keep, chunks), Survivors(kept))
  {
    if chunks != [] {
      var n := |chunks| - 1;
      SurvivorsShow(keep, shows, chunks[..n], kept[..n]);
      assert FitsChunk(keep, shows, chunks[n], kept[n]);
    }
  }

  /** From chunks to sources: each presentable chunk gives one source, in order and
      numbered from 1, that shows it; the others give none. */
  lemma SourcesShowChunks(p: WebPolicy, chunks: seq<Chunk>)
    ensures AllSourcesShow(ChunkShown(p), Selected(ChunkTest(p), chunks), Survivors(KeptChunks(p, chunks)))
  {
    var kept := KeptChunks(p, chunks);
    forall i | 0 <= i < |chunks| ensures FitsChunk(ChunkTest(p), ChunkShown(p), chunks[i], kept[i]) {
      KeptChunkFits(p, chunks[i]);
    }
    SurvivorsShow(ChunkTest(p), ChunkShown(p), chunks, kept);
  }

  /** From chunks to the screen: what is rendered shows presentable chunks, one
      each; none with a sensitive title or domain is ever shown. */
  lemma ScreenShowsChunks(p: WebPolicy, chunks: seq<Chunk>, supports: seq<Support>, messageId: string)
    ensures var rendered := RenderSources(messageId, EvidenceOf(KeptChunks(p, chunks), supports).sources);
      var shown := Selected(ChunkTest(p), chunks);
      && |rendered| == |shown|
      && forall k :: 0 <= k < |rendered| ==>
           shown[k] in chunks && Shows(p, shown[k], rendered[k].title, rendered[k].domain, rendered[k].url)
  {
    var shown := Selected(ChunkTest(p), chunks);
    var sources := Survivors(KeptChunks(p, chunks));
    SourcesShowChunks(p, chunks);
    forall k | 0 <= k < |shown|
      ensures shown[k] in chunks && sources[k].uri.Some? && Shows(p, shown[k], sources[k].title, sources[k].domain, sources[k].uri.value)
    {
      SelectedExactly(ChunkTest(p), chunks, shown[k]);
      assert ChunkShown(p)(shown[k], sources[k]);
    }
  }

  /** Normalizing raises exactly when a presentable chunk's address is too long. */
  lemma OversizedExactly(p: WebPolicy, chunks: seq<Chunk>)
    ensures AnyOversized(KeptChunks(p, chunks)) <==>
      exists i :: 0 <= i < |chunks| && Presentable(p, chunks[i]) && |p.sanitize(Strip(chunks[i].uri)).value| > 2048
  {
    var kept := KeptChunks(p, chunks);
    forall i | 0 <= i < |chunks|
      ensures Oversized(kept[i]) <==> Presentable(p, chunks[i]) && |p.sanitize(Strip(chunks[i].uri)).value| > 2048
    {
      KeptShows(p, chunks[i]);
    }
  }

  // ---------------------------------------------------------- worker results

  datatype Provider = Gemini | Firecrawl

  datatype WorkerResult = WorkerResult(
    provider: Provider, state: SearchState, answer: string, googleGrounded: bool, toolExecuted: bool,
    sources: seq<Source>, citations: seq<Citation>)

  /** grounding_to_search_result, given the text of the reply. */
  function GroundingToSearchResult(answer: string, e: Evidence): WorkerResult {
    if !e.grounded then WorkerResult(Gemini, MissingGrounding, answer, false, true, [], [])
    else WorkerResult(Gemini, Grounded, answer, true, true, e.sources, e.citations)
  }

  /** The copy shown for a failure without text of its own. */
  datatype Copy = Copy(providerFailed: string, timeout: string, unavailable: string)

  /** _normalize_worker_result. */
  function NormalizeWorkerResult(copy: Copy, r: WorkerResult): WorkerResult {
    match r.state
    case Grounded =>
      if (r.provider.Gemini? && !r.googleGrounded) || r.sources == [] || r.citations == []
      then WorkerResult(r.provider, MissingGrounding, r.answer, false, r.toolExecuted, [], [])
      else r
    case MissingGrounding => WorkerResult(r.provider, MissingGrounding, r.answer, false, r.toolExecuted, [], [])
    case ProviderFailed => WorkerResult(r.provider, ProviderFailed, Either(r.answer, copy.providerFailed), false, r.toolExecuted, [], [])
    case Timeout => WorkerResult(r.provider, Timeout, Either(r.answer, copy.timeout), false, r.toolExecuted, [], [])
    case SearchUnavailable => WorkerResult(r.provider, SearchUnavailable, Either(r.answer, copy.unavailable), false, false, [], [])
    case Denied => r
  }

  function Either(s: string, fallback: string): string { if s != "" then s else fallback }

  /** What may be shown: grounded results have sources and citations (and are
      Google-grounded if Gemini's), all others but a denial have neither. */
  predicate Showable(r: WorkerResult) {
    if r.state.Grounded? then (r.provider.Gemini? ==> r.googleGrounded) && r.sources != [] && r.citations != []
    else r.state.Denied? || (!r.googleGrounded && r.sources == [] && r.citations == [])
  }

  /** Normalizing makes any result showable, changes no grounded result that
      already is, and is stable. */
  lemma NormalizedIsShowable(copy: Copy, r: WorkerResult)
    ensures var n := NormalizeWorkerResult(copy, r);
      && Showable(n)
      && NormalizeWorkerResult(copy, n) == n
      && (r.state.Grounded? && Showable(r) ==> n == r)
      && (n.state == r.state || (r.state.Grounded? && n.state.MissingGrounding?))
      && (n.state.Grounded? ==> n == r)
      && n.provider == r.provider && n.toolExecuted == (r.toolExecuted && !r.state.SearchUnavailable?)
  {
  }

  /** A failure that says nothing for itself is given the copy of its own kind;
      every other answer is shown as it is. */
  lemma NormalizedAnswer(copy: Copy, r: WorkerResult)
    ensures NormalizeWorkerResult(copy, r).answer ==
      if r.answer != "" || r.state in {Grounded, MissingGrounding, Denied} then r.answer
      else if r.state == ProviderFailed then copy.providerFailed
      else if r.state == Timeout then copy.timeout
      else copy.unavailable
  {
  }

  /** The turn is shown as grounded exactly when some support lists a surviving
      chunk; what the evidence found is then shown unchanged, and normalizing has
      nothing left to do. */
  lemma ShownAsGroundedExactly(kept: Kept, supports: seq<Support>, answer: string, copy: Copy)
    ensures var e := EvidenceOf(kept, supports);
      var n := NormalizeWorkerResult(copy, GroundingToSearchResult(answer, e));
      && (n.state.Grounded? <==> exists k :: 0 <= k < |supports| && Cited(kept, supports[k]))
      && (n.state.Grounded? ==> n.sources == e.sources && n.citations == e.citations)
      && (!n.state.Grounded? ==> n.state.MissingGrounding? && n.sources == [] && n.citations == [])
      && n == GroundingToSearchResult(answer, e)
      && n.provider == Gemini && n.answer == answer && n.toolExecuted && (n.googleGrounded <==> n.state.Grounded?)
  {
    GroundedExactly(kept, supports);
  }

  // ------------------------------------------------------- Firecrawl's items

  /** A search result item; the domain falls back to the URI's host. */
  datatype WebItem = NotMapping | WebItem(url: string, title: string, domain: string, description: string)

  function KeepItem(p: WebPolicy, host: string -> string, item: WebItem): Option<Source> {
    if item.NotMapping? then None
    else
      var uri, title := CleanUri(p, item.url), Strip(item.title);
      if uri.None? || title == "" then None
      else
        Page(title, Strip(if item.domain != "" then item.domain else host(uri.value)), uri)
  }

  /** The kept items, numbered from 1, with their descriptions. */
  function Summaries(kept: Kept, descriptions: seq<string>): (r: seq<Answers.Item>)
    requires |kept| == |descriptions|
    ensures |r| == |Survivors(kept)| <= |kept|
    ensures forall k :: 0 <= k < |r| ==> r[k].0 == Survivors(kept)[k]
  {
    if kept == [] then []
    else
      var n := |kept| - 1;
      var front := Summaries(kept[..n], descriptions[..n]);
      if kept[n].None? then front else front + [(kept[n].value.(index := |front| + 1), descriptions[n])]
  }

  function KeptItems(p: WebPolicy, host: string -> string, items: seq<WebItem>): (r: Kept)
    ensures |r| == |items| && forall i :: 0 <= i < |r| ==> r[i] == KeepItem(p, host, items[i])
  {
    seq(|items|, i requires 0 <= i < |items| => KeepItem(p, host, items[i]))
  }

  function Description(item: WebItem): string {
    if item.NotMapping? then "" else Strip(item.description)
  }

  function Descriptions(items: seq<WebItem>): (r: seq<string>)
    ensures |r| == |items| && forall i :: 0 <= i < |r| ==> r[i] == Description(items[i])
  {
    seq(|items|, i requires 0 <= i < |items| => Description(items[i]))
  }

  function FirstItems(results: seq<WebItem>, limit: nat): (r: seq<WebItem>)
    ensures r <= results && |r| <= limit && (|r| < limit ==> r == results)
  {
    if limit < |results| then results[..limit] else results
  }

  /** The filtering loop of _normalize_payload, over at most `limit` results;
      None when a source does not validate. */
  method SummarizeSources(p: WebPolicy, host: string -> string, results: seq<WebItem>, limit: nat)
    returns (summaries: Option<seq<Answers.Item>>)
    ensures var web := FirstItems(results, limit);
      && (summaries.None? <==> AnyOversized(KeptItems(p, host, web)))
      && (summaries.Some? ==> summaries.value == Summaries(KeptItems(p, host, web), Descriptions(web)))
    ensures summaries.Some? ==> |summaries.value| <= limit && Numbered(Answers.SourcesOf(summaries.value))
  {
    var web := FirstItems(results, limit);
    summaries := SummarizeKept(KeptItems(p, host, web), Descriptions(web));
  }

  method SummarizeKept(kept: Kept, texts: seq<string>) returns (r: Option<seq<Answers.Item>>)
    requires |kept| == |texts|
    ensures r.None? <==> AnyOversized(kept)
    ensures r.Some? ==> r.value == Summaries(kept, texts) && |r.value| <= |kept| && Numbered(Answers.SourcesOf(r.value))
  {
    var summaries: seq<Answers.Item> := [];
    for i := 0 to |kept|
      invariant summaries == Summaries(kept[..i], texts[..i])
      invariant forall k :: 0 <= k < i ==> !Oversized(kept[k])
    {
      assert kept[..i + 1][..i] == kept[..i] && texts[..i + 1][..i] == texts[..i];
      if kept[i].None? { continue; }
      if Oversized(kept[i]) { return None; }
      var item := (kept[i].value.(index := |summaries| + 1), texts[i]);
      summaries := summaries + [item];
    }
    assert kept[..|kept|] == kept && texts[..|kept|] == texts;
    SurvivorsInOrder(kept);
    return Some(summaries);
  }

  /** The domain an item gives, or its host. */
  function DomainOf(p: WebPolicy, host: string -> string, item: WebItem): string
    requires item.WebItem? && Reachable(p, item.url)
  {
    Strip(if item.domain != "" then item.domain else host(p.sanitize(Strip(item.url)).value))
  }

  /** An item that may be shown: a page that can be followed, with a title and a
      domain.  Firecrawl's items are not tested for sensitive text. */
  predicate PresentableItem(p: WebPolicy, host: string -> string, item: WebItem) {
    item.WebItem? && Reachable(p, item.url) && Strip(item.title) != "" && DomainOf(p, host, item) != ""
  }

  /** An item summarized: the beginning of its title and domain, its address, and
      its description. */
  predicate ShowsItem(p: WebPolicy, host: string -> string, item: WebItem, title: string, domain: string, url: string, text: string) {
    && PresentableItem(p, host, item)
    && FirstOf(title, Strip(item.title), 500) && FirstOf(domain, DomainOf(p, host, item), 255)
    && p.sanitize(Strip(item.url)) == Some(url) && text == Strip(item.description)
  }

  function ItemTest(p: WebPolicy, host: string -> string): WebItem -> bool { item => PresentableItem(p, host, item) }

  function ItemShown(p: WebPolicy, host: string -> string): (WebItem, Answers.Item) -> bool {
    (item: WebItem, r: Answers.Item) => r.0.uri.Some? && ShowsItem(p, host, item, r.0.title, r.0.domain, r.0.uri.value, r.1)
  }

  /** What is kept of an item shows it, whatever its number. */
  ghost predicate Fits(keep: WebItem -> bool, shows: (WebItem, Answers.Item) -> bool, item: WebItem, kept: Option<Source>, text: string) {
    && (kept.Some? <==> keep(item))
    && (kept.Some? ==> forall k: nat :: shows(item, (kept.value.(index := k), text)))
  }

  lemma KeptItemFits(p: WebPolicy, host: string -> string, item: WebItem)
    ensures Fits(ItemTest(p, host), ItemShown(p, host), item, KeepItem(p, host, item), Description(item))
  {
    KeptItemShows(p, host, item);
  }

  lemma KeptItemShows(p: WebPolicy, host: string -> string, item: WebItem)
    ensures KeepItem(p, host, item).Some? <==> PresentableItem(p, host, item)
    ensures KeepItem(p, host, item).Some? ==>
      var s := KeepItem(p, host, item).value;
      s.uri.Some? && ShowsItem(p, host, item, s.title, s.domain, s.uri.value, Description(item))
  {
    if item.WebItem? { CleanUriExactly(p, item.url); }
  }

  /** The summaries r are those of the items shown, one each, numbered from 1. */
  ghost predicate AllShow(shows: (WebItem, Answers.Item) -> bool, shown: seq<WebItem>, r: seq<Answers.Item>) {
    |r| == |shown| && forall k :: 0 <= k < |r| ==> r[k].0.index == k + 1 && shows(shown[k], r[k])
  }

  lemma AllShowSnoc(shows: (WebItem, Answers.Item) -> bool, shown: seq<WebItem>, r: seq<Answers.Item>, item: WebItem, last: Answers.Item)
    requires AllShow(shows, shown, r) && last.0.index == |r| + 1 && shows(item, last)
    ensures AllShow(shows, shown + [item], r + [last])
  {
  }

  lemma SummariesSnoc(kept: Kept, texts: seq<string>, last: Option<Source>, text: string)
    requires |kept| == |texts|
    ensures var front := Summaries(kept, texts);
      Summaries(kept + [last], texts + [text])
      == (if last.None? then front else front + [(last.value.(index := |front| + 1), text)])
  {
    assert (kept + [last])[..|kept|] == kept && (texts + [text])[..|kept|] == texts;
  }

  lemma {:induction false} SummariesShowKept(keep: WebItem -> bool, shows: (WebItem, Answers.Item) -> bool,
                                             items: seq<WebItem>, kept: Kept, texts: seq<string>)
    requires |kept| == |texts| == |items|
    requires forall i :: 0 <= i < |items| ==> Fits(keep, shows, items[i], kept[i], texts[i])
    ensures AllShow(shows, Selected(keep, items), Summaries(kept, texts))
  {
    if items != [] {
      var n := |items| - 1;
      var front := Summaries(kept[..n], texts[..n]);
      SummariesShowKept(keep, shows, items[..n], kept[..n], texts[..n]);
      SummariesSnoc(kept[..n], texts[..n], kept[n], texts[n]);
      assert kept == kept[..n] + [kept[n]] && texts == texts[..n] + [texts[n]];
      assert Fits(keep, shows, items[n], kept[n], texts[n]);
      if kept[n].Some? {
        AllShowSnoc(shows, Selected(keep, items[..n]), front, items[n], (kept[n].value.(index := |front| + 1), texts[n]));
      } else {
        assert Selected(keep, items) == Selected(keep, items[..n]) + [];
      }
    }
  }

  /** From items to summaries: each presentable item gives one, in order and
      numbered from 1, that shows it; the others give none. */
  lemma SummariesShowItems(p: WebPolicy, host: string -> string, items: seq<WebItem>)
    ensures AllShow(ItemShown(p, host), Selected(ItemTest(p, host), items), Summaries(KeptItems(p, host, items), Descriptions(items)))
  {
    var kept, texts := KeptItems(p, host, items), Descriptions(items);
    forall i | 0 <= i < |items| ensures Fits(ItemTest(p, host), ItemShown(p, host), items[i], kept[i], texts[i]) {
      KeptItemFits(p, host, items[i]);
    }
    SummariesShowKept(ItemTest(p, host), ItemShown(p, host), items, kept, texts);
  }

  /** A kept item has a title that does not start with white space. */
  lemma KeptItemHasTitle(p: WebPolicy, host: string -> string, item: WebItem)
    requires KeepItem(p, host, item).Some?
    ensures Answers.TitleOk(KeepItem(p, host, item).value)
  {
    var title := Strip(item.title);
    assert Truncate(title, 500)[0] == title[0];
  }

  lemma {:induction false} SurvivorWasKept(kept: Kept, k: nat)
    requires k < |Survivors(kept)|
    ensures exists i :: 0 <= i < |kept| && kept[i].Some? && Survivors(kept)[k] == kept[i].value.(index := k + 1)
  {
    var n := |kept| - 1;
    if k < |Survivors(kept[..n])| {
      SurvivorWasKept(kept[..n], k);
      var i :| 0 <= i < n && kept[..n][i].Some? && Survivors(kept[..n])[k] == kept[..n][i].value.(index := k + 1);
      assert kept[i] == kept[..n][i];
    } else {
      assert kept[n].Some?;
    }
  }

  /** So the answer built from the kept items is never empty and within the bound. */
  lemma SummarizedAnswerFits(p: WebPolicy, host: string -> string, items: seq<WebItem>, header: string, maxChars: nat)
    requires Summaries(KeptItems(p, host, items), Descriptions(items)) != [] && maxChars > 0
    ensures 0 < |Answers.Build(header, Summaries(KeptItems(p, host, items), Descriptions(items)), maxChars).answer| <= maxChars
  {
    var kept := KeptItems(p, host, items);
    SurvivorWasKept(kept, 0);
    var i :| 0 <= i < |kept| && kept[i].Some? && Survivors(kept)[0] == kept[i].value.(index := 1);
    KeptItemHasTitle(p, host, items[i]);
    Answers.AnswerWithinBound(header, Summaries(kept, Descriptions(items)), maxChars);
  }
}
