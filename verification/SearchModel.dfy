/** Search evidence as it crosses from the backend (backend/app/schemas/search.py)
    to the frontend (frontend/lib/chat-session.ts). */
module SearchModel {
  import opened Prelude
  import opened Text

  datatype Source = Source(index: nat, title: string, domain: string, uri: Option<string>)

  datatype Citation = Citation(index: nat, sourceIndex: nat, start: Option<nat>, end: Option<nat>)

  datatype RenderedSource = RenderedSource(id: string, title: string, domain: string, url: string)

  datatype CitationReference = CitationReference(id: string, sourceId: string, marker: nat, start: Option<int>, end: Option<int>)

  function SourceId(messageId: string, index: nat): string { messageId + "-source-" + PrintNat(index) }

  function CitationId(messageId: string, index: nat): string { messageId + "-citation-" + PrintNat(index) }

  lemma SourceIdInjective(messageId: string, i: nat, j: nat)
    requires SourceId(messageId, i) == SourceId(messageId, j)
    ensures i == j
  {
    var prefix := messageId + "-source-";
    assert SourceId(messageId, i)[|prefix|..] == PrintNat(i);
    assert SourceId(messageId, j)[|prefix|..] == PrintNat(j);
    PrintNatInjective(i, j);
  }

  function Widen(n: Option<nat>): Option<int> { if n.None? then None else Some(n.value) }

  /** The sources of normalizeSearchPayload. */
  function RenderSources(messageId: string, sources: seq<Source>): (r: seq<RenderedSource>)
    ensures |r| == |sources|
  {
    seq(|sources|, i requires 0 <= i < |sources| =>
      var s := sources[i];
      RenderedSource(SourceId(messageId, s.index), s.title, s.domain, if s.uri.Some? then s.uri.value else "#"))
  }

  /** The citations of normalizeSearchPayload. */
  function RenderCitations(messageId: string, citations: seq<Citation>): (r: seq<CitationReference>)
    ensures |r| == |citations|
  {
    seq(|citations|, i requires 0 <= i < |citations| =>
      var c := citations[i];
      CitationReference(CitationId(messageId, c.index), SourceId(messageId, c.sourceIndex), c.index, Widen(c.start), Widen(c.end)))
  }

  /** Sources are numbered 1..k in order. */
  ghost predicate Numbered(sources: seq<Source>) {
    forall i :: 0 <= i < |sources| ==> sources[i].index == i + 1
  }

  /** A citation of a numbered list is shown with a link to one rendered source,
      the one it names, and to no other. */
  lemma LinkIsUnique(messageId: string, sources: seq<Source>, citations: seq<Citation>, c: nat, k: nat)
    requires Numbered(sources) && c < |citations| && 1 <= citations[c].sourceIndex <= |sources| && k < |sources|
    ensures RenderSources(messageId, sources)[k].id == RenderCitations(messageId, citations)[c].sourceId
            <==> k + 1 == citations[c].sourceIndex
  {
    if RenderSources(messageId, sources)[k].id == RenderCitations(messageId, citations)[c].sourceId {
      SourceIdInjective(messageId, sources[k].index, citations[c].sourceIndex);
    }
  }
}
