/** Sourced answers: the backend builds the text and the citation spans under a
    length bound (backend/app/ai/search_worker/firecrawl_client.py), and the
    frontend cuts the text at those spans (frontend/components/chat/GroundedAnswer.tsx). */
module Answers {
  import opened Prelude
  import opened Text
  import opened SearchModel

  // ---------------------------------------------------------------- building

  const HEADER: string := "Tôi tìm thấy các nguồn web liên quan. Hãy mở từng nguồn để kiểm tra chi tiết:"
  const NO_SUMMARY: string := "Nguồn này có thông tin liên quan đến truy vấn."
  const NO_TITLE: string := "Firecrawl trả về nguồn web phù hợp."

  type Item = (Source, string)

  function Summary(description: string, n: nat): string { Strip(Truncate(Collapse(description), n)) }

  /** One source's line, without the newline before it. */
  function Line(item: Item): string {
    var summary := Summary(item.1, 240);
    item.0.title + ": " + (if summary != "" then summary else NO_SUMMARY)
  }

  function LinesOf(items: seq<Item>): (r: seq<string>)
    ensures |r| == |items|
    ensures forall i :: 0 <= i < |items| ==> r[i] == Line(items[i])
  {
    seq(|items|, i requires 0 <= i < |items| => Line(items[i]))
  }

  /** The lines, each after a newline. */
  function Stacked(lines: seq<string>): string {
    if lines == [] then "" else Stacked(lines[..|lines| - 1]) + (['\n'] + lines[|lines| - 1])
  }

  /** How many leading lines fit after `header` within the bound. */
  function Fitting(header: string, lines: seq<string>, maxChars: nat): (k: nat)
    ensures k <= |lines|
  {
    if lines == [] then 0
    else
      var k := Fitting(header, lines[..|lines| - 1], maxChars);
      if k < |lines| - 1 || |header| + |Stacked(lines)| > maxChars then k else |lines|
  }

  /** The citations of the first k lines. */
  function Spans(header: string, sources: seq<Source>, lines: seq<string>, k: nat): (r: seq<Citation>)
    requires k <= |lines| == |sources|
    ensures |r| == k
  {
    seq(k, i requires 0 <= i < k =>
      Citation(i + 1, sources[i].index,
               Some(|header| + |Stacked(lines[..i])| + 1), Some(|header| + |Stacked(lines[..i + 1])|)))
  }

  function SourcesOf(items: seq<Item>): (r: seq<Source>)
    ensures |r| == |items|
  {
    seq(|items|, i requires 0 <= i < |items| => items[i].0)
  }

  /** The answer for the first source alone, when not even its line fits. */
  function FallbackText(item: Item, maxChars: nat): string {
    var summary := Summary(item.1, 120);
    var fallback := if summary != "" then item.0.title + ": " + summary else item.0.title;
    var text := Strip(Truncate(fallback, maxChars));
    if text != "" then text else NO_TITLE
  }

  datatype Built = Built(sources: seq<Source>, citations: seq<Citation>, answer: string)

  /** What the loop leaves after the first k items. */
  function BuildLines(header: string, sources: seq<Source>, lines: seq<string>, k: nat): Built
    requires k <= |lines| == |sources|
  {
    Built(sources[..k], Spans(header, sources, lines, k), header + Stacked(lines[..k]))
  }

  function Build(header: string, items: seq<Item>, maxChars: nat): Built
    requires items != []
  {
    var k := Fitting(header, LinesOf(items), maxChars);
    if k > 0 then BuildLines(header, SourcesOf(items), LinesOf(items), k)
    else
      var text := FallbackText(items[0], maxChars);
      Built([items[0].0], [Citation(1, items[0].0.index, Some(0), Some(|text|))], text)
  }

  lemma {:induction false} FittingStops(header: string, lines: seq<string>, maxChars: nat, n: nat)
    requires n < |lines|
    requires Fitting(header, lines[..n], maxChars) == n && |header| + |Stacked(lines[..n + 1])| > maxChars
    ensures Fitting(header, lines, maxChars) == n
  {
    if n + 1 < |lines| {
      var init := lines[..|lines| - 1];
      assert init[..n] == lines[..n] && init[..n + 1] == lines[..n + 1];
      FittingStops(header, init, maxChars, n);
    } else {
      assert lines[..n + 1] == lines;
    }
  }

  lemma StackedSnoc(lines: seq<string>, i: nat)
    requires i < |lines|
    ensures Stacked(lines[..i + 1]) == Stacked(lines[..i]) + (['\n'] + lines[i])
  {
    assert lines[..i + 1][..i] == lines[..i];
  }

  /** One more line that fits. */
  lemma BuildOneMore(header: string, sources: seq<Source>, lines: seq<string>, maxChars: nat, i: nat)
    requires i < |lines| == |sources| && Fitting(header, lines[..i], maxChars) == i
    requires |header| + |Stacked(lines[..i])| + |lines[i]| + 1 <= maxChars
    ensures Fitting(header, lines[..i + 1], maxChars) == i + 1
    ensures var b, b' := BuildLines(header, sources, lines, i), BuildLines(header, sources, lines, i + 1);
            && b'.answer == b.answer + (['\n'] + lines[i])
            && b'.sources == b.sources + [sources[i]]
            && b'.citations == b.citations + [Citation(i + 1, sources[i].index, Some(|b.answer| + 1), Some(|b'.answer|))]
  {
    StackedSnoc(lines, i);
    assert lines[..i + 1][..i] == lines[..i];
  }

  /** The loop of _build_sourced_answer, given each item's source and line: stop at
      the first line that does not fit. */
  method BuildLoop(header: string, items: seq<Source>, lines: seq<string>, maxChars: nat) returns (b: Built)
    requires |items| == |lines|
    ensures b == BuildLines(header, items, lines, Fitting(header, lines, maxChars))
  {
    var answer := header;
    var sources: seq<Source> := [];
    var citations: seq<Citation> := [];
    assert lines[..0] == [] && header + "" == header;
    for i := 0 to |items|
      invariant Built(sources, citations, answer) == BuildLines(header, items, lines, i)
      invariant Fitting(header, lines[..i], maxChars) == i
    {
      var line := ['\n'] + lines[i];
      StackedSnoc(lines, i);
      if |answer| + |line| > maxChars {
        FittingStops(header, lines, maxChars, i);
        return Built(sources, citations, answer);
      }
      BuildOneMore(header, items, lines, maxChars, i);
      var start := |answer| + 1;
      answer := answer + line;
      sources := sources + [items[i]];
      citations := citations + [Citation(|citations| + 1, items[i].index, Some(start), Some(|answer|))];
    }
    assert lines[..|items|] == lines;
    return Built(sources, citations, answer);
  }

  /** _build_sourced_answer. */
  method BuildSourcedAnswer(items: seq<Item>, maxChars: nat) returns (b: Built)
    requires items != []
    ensures b == Build(HEADER, items, maxChars)
  {
    b := BuildLoop(HEADER, SourcesOf(items), LinesOf(items), maxChars);
    if b.sources != [] {
      return b;
    }
    var answer := FallbackText(items[0], maxChars);
    return Built([items[0].0], [Citation(1, items[0].0.index, Some(0), Some(|answer|))], answer);
  }

  lemma {:induction false} StackedMonotone(lines: seq<string>, i: nat, j: nat)
    requires i <= j <= |lines|
    ensures Stacked(lines[..i]) <= Stacked(lines[..j])
    decreases j - i
  {
    if i < j {
      StackedMonotone(lines, i, j - 1);
      StackedSnoc(lines, j - 1);
    }
  }

  /** The lines kept are the longest leading run that fits. */
  lemma {:induction false} FittingIsLongest(header: string, lines: seq<string>, maxChars: nat, n: nat)
    requires n <= |lines|
    ensures var k := Fitting(header, lines, maxChars);
            && (k > 0 ==> |header| + |Stacked(lines[..k])| <= maxChars)
            && (n > 0 && |header| + |Stacked(lines[..n])| <= maxChars ==> n <= k)
  {
    if lines != [] {
      var init := lines[..|lines| - 1];
      var k := Fitting(header, init, maxChars);
      assert lines[..|lines|] == lines && init[..|init|] == init && init[..k] == lines[..k];
      if n < |lines| {
        FittingIsLongest(header, init, maxChars, n);
        assert init[..n] == lines[..n];
      } else {
        FittingIsLongest(header, init, maxChars, |init|);
        StackedMonotone(lines, |init|, |lines|);
      }
    }
  }

  /** A title the client accepts: not empty, no white space in front. */
  predicate TitleOk(s: Source) { s.title != "" && !IsSpace(s.title[0]) }

  lemma StrippedCut(text: string, maxChars: nat)
    requires text != "" && !IsSpace(text[0]) && maxChars > 0
    ensures 0 < |Strip(Truncate(text, maxChars))| <= maxChars
  {
    StripRightKeepsHead(Truncate(text, maxChars));
  }

  lemma FallbackWithinBound(item: Item, maxChars: nat)
    requires TitleOk(item.0) && maxChars > 0
    ensures 0 < |FallbackText(item, maxChars)| <= maxChars
  {
    var summary := Summary(item.1, 120);
    var long := item.0.title + ": " + summary;
    assert long[0] == item.0.title[0];
    StrippedCut(long, maxChars);
    StrippedCut(item.0.title, maxChars);
  }

  /** The answer respects the bound. */
  lemma AnswerWithinBound(header: string, items: seq<Item>, maxChars: nat)
    requires items != [] && TitleOk(items[0].0) && maxChars > 0
    ensures 0 < |Build(header, items, maxChars).answer| <= maxChars
  {
    var lines := LinesOf(items);
    var k := Fitting(header, lines, maxChars);
    FittingIsLongest(header, lines, maxChars, 0);
    if k == 0 {
      FallbackWithinBound(items[0], maxChars);
    } else {
      StackedSnoc(lines, k - 1);
    }
  }

  /** A text that shows a description in n characters: its words, or as much of
      their beginning as fits, and nothing only if there are none. */
  predicate ShowsWords(text: string, description: string, n: nat) {
    && (text == "" <==> Words(description) == []) && text <= Collapse(description)
    && if |Collapse(description)| <= n then Words(text) == Words(description) else n - 1 <= |text| <= n
  }

  lemma SummaryShows(description: string, n: nat)
    requires n > 1
    ensures ShowsWords(Summary(description, n), description, n)
  {
    CollapseKeepsWords(description);
    TidyCut(Collapse(description), n);
    assert Words("") == [];
    if Collapse(description) != "" { assert StripLeft(Collapse(description)) != ""; }
  }

  /** A line shows its source's title, and its description in at most 240
      characters or that there is none. */
  lemma LineShows(item: Item) returns (summary: string)
    ensures ShowsWords(summary, item.1, 240)
    ensures Line(item) == item.0.title + ": " + (if summary == "" then NO_SUMMARY else summary)
  {
    summary := Summary(item.1, 240);
    SummaryShows(item.1, 240);
  }

  /** The fallback shows the title, and the description in at most 120 characters
      if there is one, all of it if the bound allows. */
  lemma FallbackShows(item: Item, maxChars: nat) returns (summary: string)
    requires TitleOk(item.0) && maxChars > 0
    ensures ShowsWords(summary, item.1, 120)
    ensures var whole := if summary == "" then item.0.title else item.0.title + ": " + summary;
      && FallbackText(item, maxChars) <= whole
      && (|whole| <= maxChars && !IsSpace(whole[|whole| - 1]) ==> FallbackText(item, maxChars) == whole)
  {
    summary := Summary(item.1, 120);
    SummaryShows(item.1, 120);
    var whole := if summary == "" then item.0.title else item.0.title + ": " + summary;
    CutShows(whole, maxChars);
  }

  lemma CutShows(whole: string, maxChars: nat)
    requires whole != "" && !IsSpace(whole[0]) && maxChars > 0
    ensures Strip(Truncate(whole, maxChars)) != "" && Strip(Truncate(whole, maxChars)) <= whole
    ensures |whole| <= maxChars && !IsSpace(whole[|whole| - 1]) ==> Strip(Truncate(whole, maxChars)) == whole
  {
    StrippedCut(whole, maxChars);
    assert StripLeft(Truncate(whole, maxChars)) == Truncate(whole, maxChars);
  }

  /** Where the text before the i-th line ends. */
  function Before(b: Built, header: string, i: nat): Option<nat>
    requires i <= |b.citations|
  {
    if i == 0 then Some(|header|) else b.citations[i - 1].end
  }

  /** Citation i names source i and denotes exactly its line, which follows the
      previous one after a newline. */
  ghost predicate SpanOk(b: Built, header: string, source: Source, line: string, i: nat)
    requires i < |b.citations|
  {
    var c := b.citations[i];
    var before := Before(b, header, i);
    && before.Some? && c.start.Some? && c.end.Some?
    && c.index == i + 1 && c.sourceIndex == source.index
    && c.start.value == before.value + 1
    && before.value < c.start.value <= c.end.value <= |b.answer|
    && b.answer[before.value] == '\n'
    && b.answer[c.start.value..c.end.value] == line
  }

  /** Header, then one span per kept source, up to the end of the answer. */
  ghost predicate Aligned(b: Built, header: string, sources: seq<Source>, lines: seq<string>, k: nat)
    requires k <= |lines| == |sources|
  {
    && |b.citations| == k && b.sources == sources[..k]
    && header <= b.answer
    && (forall i :: 0 <= i < k ==> SpanOk(b, header, sources[i], lines[i], i))
    && Before(b, header, k) == Some(|b.answer|)
  }

  lemma SpansDenoteLines(header: string, sources: seq<Source>, lines: seq<string>, k: nat, i: nat)
    requires i < k <= |lines| == |sources|
    ensures SpanOk(BuildLines(header, sources, lines, k), header, sources[i], lines[i], i)
  {
    var before, upto, all := Stacked(lines[..i]), Stacked(lines[..i + 1]), Stacked(lines[..k]);
    StackedSnoc(lines, i);
    StackedMonotone(lines, i + 1, k);
    var n := |before|;
    assert upto[n] == '\n' && upto[n + 1..] == lines[i];
    assert all[n] == '\n' && all[n + 1..|upto|] == lines[i];
    var answer := header + all;
    assert answer[|header| + n] == '\n' && answer[|header| + n + 1..|header| + |upto|] == lines[i];
    assert i == 0 ==> lines[..0] == [];
    assert i > 0 ==> lines[..i - 1 + 1] == lines[..i];
  }

  lemma BuiltShape(header: string, sources: seq<Source>, lines: seq<string>, k: nat)
    requires k <= |lines| == |sources|
    ensures var b := BuildLines(header, sources, lines, k);
            && |b.citations| == k && b.sources == sources[..k] && header <= b.answer
            && Before(b, header, k) == Some(|b.answer|)
  {
    assert k == 0 ==> lines[..k] == [];
    assert k > 0 ==> lines[..k - 1 + 1] == lines[..k];
  }

  /** Spans are disjoint, in order, and each denotes exactly its source's line. */
  lemma BuiltIsAligned(header: string, sources: seq<Source>, lines: seq<string>, k: nat)
    requires k <= |lines| == |sources|
    ensures Aligned(BuildLines(header, sources, lines, k), header, sources, lines, k)
  {
    BuiltShape(header, sources, lines, k);
    AlignedIfSpans(BuildLines(header, sources, lines, k), header, sources, lines, k) by {
      forall i | 0 <= i < k ensures SpanOk(BuildLines(header, sources, lines, k), header, sources[i], lines[i], i) {
        SpansDenoteLines(header, sources, lines, k, i);
      }
    }
  }

  lemma AlignedIfSpans(b: Built, header: string, sources: seq<Source>, lines: seq<string>, k: nat)
    requires k <= |lines| == |sources|
    requires |b.citations| == k && b.sources == sources[..k] && header <= b.answer
    requires forall i :: 0 <= i < k ==> SpanOk(b, header, sources[i], lines[i], i)
    requires Before(b, header, k) == Some(|b.answer|)
    ensures Aligned(b, header, sources, lines, k)
  {
  }

  // --------------------------------------------------------------- rendering

  datatype Node = TextNode(text: string) | Marker(citation: CitationReference)

  /** A slice bound of String.prototype.slice: negative bounds count from the end. */
  function Clamp(x: int, n: nat): (r: nat)
    ensures r <= n
  {
    if x < 0 then (if n + x < 0 then 0 else n + x) else if x > n then n else x
  }

  /** answer.slice(from, to). */
  function Slice(s: string, from: int, to: int): string {
    var a, b := Clamp(from, |s|), Clamp(to, |s|);
    if a <= b then s[a..b] else ""
  }

  /** A citation with a numeric end. */
  datatype Cut = Cut(end: int, citation: CitationReference)

  function CutsOf(cs: seq<CitationReference>): seq<Cut> {
    if cs == [] then []
    else (if cs[0].end.Some? then [Cut(cs[0].end.value, cs[0])] else []) + CutsOf(cs[1..])
  }

  predicate InOrder(cs: seq<Cut>) { forall i, j :: 0 <= i < j < |cs| ==> cs[i].end <= cs[j].end }

  /** Insert after every cut with the same or an earlier end. */
  function Insert(cs: seq<Cut>, c: Cut): seq<Cut> {
    if cs != [] && c.end < cs[|cs| - 1].end then Insert(cs[..|cs| - 1], c) + [cs[|cs| - 1]] else cs + [c]
  }

  /** Array.prototype.sort by end; it is stable. */
  function SortByEnd(cs: seq<Cut>): seq<Cut> {
    if cs == [] then [] else Insert(SortByEnd(cs[..|cs| - 1]), cs[|cs| - 1])
  }

  lemma {:induction false} InsertInOrder(cs: seq<Cut>, c: Cut)
    requires InOrder(cs)
    ensures InOrder(Insert(cs, c)) && |Insert(cs, c)| == |cs| + 1
    ensures forall i :: 0 <= i <= |cs| ==> Insert(cs, c)[i].end <= c.end || (cs != [] && Insert(cs, c)[i].end <= cs[|cs| - 1].end)
  {
    if cs != [] && c.end < cs[|cs| - 1].end { InsertInOrder(cs[..|cs| - 1], c); }
  }

  lemma {:induction false} InsertPermutes(cs: seq<Cut>, c: Cut)
    ensures multiset(Insert(cs, c)) == multiset(cs) + multiset{c}
  {
    if cs != [] && c.end < cs[|cs| - 1].end {
      InsertPermutes(cs[..|cs| - 1], c);
      assert cs == cs[..|cs| - 1] + [cs[|cs| - 1]];
    }
  }

  /** Sorting orders the cuts. */
  lemma {:induction false} SortByEndSorts(cs: seq<Cut>)
    ensures InOrder(SortByEnd(cs)) && |SortByEnd(cs)| == |cs|
  {
    if cs != [] {
      SortByEndSorts(cs[..|cs| - 1]);
      InsertInOrder(SortByEnd(cs[..|cs| - 1]), cs[|cs| - 1]);
    }
  }

  /** It leaves an ordered list alone. */
  lemma {:induction false} SortedStays(cs: seq<Cut>)
    requires InOrder(cs)
    ensures SortByEnd(cs) == cs
  {
    if cs != [] {
      var init, last := cs[..|cs| - 1], cs[|cs| - 1];
      SortedStays(init);
      InsertLast(init, last);
      assert cs == init + [last];
    }
  }

  lemma InsertLast(cs: seq<Cut>, c: Cut)
    requires cs != [] ==> cs[|cs| - 1].end <= c.end
    ensures Insert(cs, c) == cs + [c]
  {
  }

  /** Sorting keeps every cut. */
  lemma {:induction false} SortByEndPermutes(cs: seq<Cut>)
    ensures multiset(SortByEnd(cs)) == multiset(cs)
  {
    if cs != [] {
      var init, last := cs[..|cs| - 1], cs[|cs| - 1];
      SortByEndPermutes(init);
      InsertPermutes(SortByEnd(init), last);
      assert cs == init + [last];
    }
  }

  function Markers(cs: seq<CitationReference>): (r: seq<Node>)
    ensures |r| == |cs|
  {
    seq(|cs|, i requires 0 <= i < |cs| => Marker(cs[i]))
  }

  /** The loop from `cursor` on. */
  function RenderFrom(answer: string, cs: seq<Cut>, cursor: int): seq<Node> {
    if cs == [] then if cursor < |answer| then [TextNode(Slice(answer, cursor, |answer|))] else []
    else [TextNode(Slice(answer, cursor, cs[0].end)), Marker(cs[0].citation)] + RenderFrom(answer, cs[1..], cs[0].end)
  }

  function Render(answer: string, citations: seq<CitationReference>): seq<Node> {
    if citations == [] then [TextNode(answer)]
    else if CutsOf(citations) == [] then [TextNode(answer)] + Markers(citations)
    else RenderFrom(answer, SortByEnd(CutsOf(citations)), 0)
  }

  lemma RenderFromStep(answer: string, nodes: seq<Node>, cs: seq<Cut>, i: nat, cursor: int)
    requires i < |cs|
    ensures nodes + RenderFrom(answer, cs[i..], cursor)
         == nodes + [TextNode(Slice(answer, cursor, cs[i].end))] + [Marker(cs[i].citation)]
            + RenderFrom(answer, cs[i + 1..], cs[i].end)
  {
    assert cs[i..][1..] == cs[i + 1..];
  }

  /** renderAnswerWithCitations. */
  method RenderAnswerWithCitations(answer: string, citations: seq<CitationReference>) returns (nodes: seq<Node>)
    ensures nodes == Render(answer, citations)
  {
    if citations == [] {
      return [TextNode(answer)];
    }
    var positioned := SortByEnd(CutsOf(citations));
    SortByEndSorts(CutsOf(citations));
    if |positioned| == 0 {
      return [TextNode(answer)] + Markers(citations);
    }
    nodes := [];
    var cursor := 0;
    var i := 0;
    assert positioned[0..] == positioned;
    while i < |positioned|
      invariant 0 <= i <= |positioned|
      invariant nodes + RenderFrom(answer, positioned[i..], cursor) == RenderFrom(answer, positioned, 0)
    {
      RenderFromStep(answer, nodes, positioned, i, cursor);
      nodes := nodes + [TextNode(Slice(answer, cursor, positioned[i].end))];
      nodes := nodes + [Marker(positioned[i].citation)];
      cursor := positioned[i].end;
      i := i + 1;
    }
    assert positioned[i..] == [];
    assert nodes + RenderFrom(answer, [], cursor) == Render(answer, citations);
    if cursor < |answer| {
      nodes := nodes + [TextNode(Slice(answer, cursor, |answer|))];
    }
  }

  /** What a reader reads: the text nodes, joined. */
  function TextOf(nodes: seq<Node>): string {
    if nodes == [] then ""
    else (match nodes[0] case TextNode(t) => t case Marker(_) => "") + TextOf(nodes[1..])
  }

  /** The clamped cut points never step back. */
  predicate CutsAdvance(n: nat, cs: seq<Cut>, cursor: int) {
    cs == [] || (Clamp(cursor, n) <= Clamp(cs[0].end, n) && CutsAdvance(n, cs[1..], cs[0].end))
  }

  lemma TextOfStep(t: string, c: CitationReference, rest: seq<Node>)
    ensures TextOf([TextNode(t), Marker(c)] + rest) == t + TextOf(rest)
  {
    var nodes := [TextNode(t), Marker(c)] + rest;
    assert nodes[1..] == [Marker(c)] + rest && nodes[1..][1..] == rest;
    assert "" + TextOf(rest) == TextOf(rest);
  }

  lemma TextOfOne(t: string)
    ensures TextOf([TextNode(t)]) == t
  {
    assert [TextNode(t)][1..] == [];
  }

  /** The text read from a cut on: the answer from there if no cut steps back,
      otherwise more than is left of it. */
  predicate ReadsFrom(text: string, answer: string, cursor: int, advance: bool) {
    var from := Clamp(cursor, |answer|);
    if advance then text == answer[from..] else |text| > |answer| - from
  }

  lemma ReadsOn(answer: string, cursor: int, end: int, rest: string, advance: bool)
    requires ReadsFrom(rest, answer, end, advance)
    ensures ReadsFrom(Slice(answer, cursor, end) + rest, answer, cursor, advance && Clamp(cursor, |answer|) <= Clamp(end, |answer|))
  {
    var a, b := Clamp(cursor, |answer|), Clamp(end, |answer|);
    if a <= b {
      assert answer[a..] == answer[a..b] + answer[b..];
    } else {
      assert Slice(answer, cursor, end) + rest == rest;
    }
  }

  lemma {:induction false} TextFromCursor(answer: string, cs: seq<Cut>, cursor: int)
    ensures ReadsFrom(TextOf(RenderFrom(answer, cs, cursor)), answer, cursor, CutsAdvance(|answer|, cs, cursor))
  {
    if cs == [] {
      if cursor < |answer| { TextOfOne(Slice(answer, cursor, |answer|)); }
    } else {
      var end := cs[0].end;
      var rest := RenderFrom(answer, cs[1..], end);
      TextOfStep(Slice(answer, cursor, end), cs[0].citation, rest);
      TextFromCursor(answer, cs[1..], end);
      ReadsOn(answer, cursor, end, TextOf(rest), CutsAdvance(|answer|, cs[1..], end));
    }
  }

  lemma {:induction false} MarkersHaveNoText(cs: seq<CitationReference>)
    ensures TextOf(Markers(cs)) == ""
  {
    if cs != [] {
      assert Markers(cs)[1..] == Markers(cs[1..]);
      MarkersHaveNoText(cs[1..]);
    }
  }

  /** For any integer ends whatever, the rendered text is the answer exactly when
      the cut points, taken as slice bounds in sorted order, never step back. */
  lemma RenderedTextExactly(answer: string, citations: seq<CitationReference>)
    ensures TextOf(Render(answer, citations)) == answer <==> CutsAdvance(|answer|, SortByEnd(CutsOf(citations)), 0)
  {
    var cuts := CutsOf(citations);
    if citations == [] {
      TextOfOne(answer);
    } else if cuts == [] {
      MarkersHaveNoText(citations);
      assert ([TextNode(answer)] + Markers(citations))[1..] == Markers(citations);
      assert answer + "" == answer;
    } else {
      TextFromCursor(answer, SortByEnd(cuts), 0);
      assert answer[0..] == answer;
    }
  }

  lemma {:induction false} OrderedCutsAdvance(n: nat, cs: seq<Cut>, cursor: nat)
    requires InOrder(cs) && (cs != [] ==> cursor <= cs[0].end)
    ensures CutsAdvance(n, cs, cursor)
  {
    if cs != [] { OrderedCutsAdvance(n, cs[1..], cs[0].end); }
  }

  lemma {:induction false} CutsCome(citations: seq<CitationReference>, k: nat)
    requires k < |CutsOf(citations)|
    ensures CutsOf(citations)[k].citation in citations
    ensures CutsOf(citations)[k].citation.end == Some(CutsOf(citations)[k].end)
  {
    var here := if citations[0].end.Some? then 1 else 0;
    if k >= here { CutsCome(citations[1..], k - here); }
  }

  /** In particular no text is lost or repeated when the ends are not negative,
      which is all the backend's schema admits. */
  lemma NonNegativeEndsKeepText(answer: string, citations: seq<CitationReference>)
    requires forall c :: c in citations && c.end.Some? ==> c.end.value >= 0
    ensures TextOf(Render(answer, citations)) == answer
  {
    var cuts := CutsOf(citations);
    var sorted := SortByEnd(cuts);
    SortByEndSorts(cuts);
    if sorted != [] {
      SortByEndPermutes(cuts);
      assert sorted[0] in multiset(sorted);
      assert sorted[0] in cuts;
      var k :| 0 <= k < |cuts| && cuts[k] == sorted[0];
      CutsCome(citations, k);
    }
    OrderedCutsAdvance(|answer|, sorted, 0);
    RenderedTextExactly(answer, citations);
  }

  /** A negative end, which the frontend's own check of stored metadata lets
      through, can repeat text. */
  lemma NegativeEndRepeatsText(a: CitationReference, b: CitationReference)
    requires a.end == Some(-1) && b.end == Some(1)
    ensures TextOf(Render("abc", [a, b])) != "abc"
  {
    var cuts := [Cut(-1, a), Cut(1, b)];
    AllPositioned([a, b]);
    assert CutsOf([a, b]) == cuts;
    SortedStays(cuts);
    assert cuts[1..] == [Cut(1, b)];
    RenderedTextExactly("abc", [a, b]);
  }

  lemma {:induction false} RenderInOrderAt(answer: string, cs: seq<Cut>, cursor: nat, i: nat)
    requires InOrder(cs) && i < |cs| && cursor <= cs[0].end && cs[|cs| - 1].end <= |answer|
    ensures |RenderFrom(answer, cs, cursor)| >= 2 * |cs|
    ensures var from := if i == 0 then cursor else cs[i - 1].end;
            && 0 <= from <= cs[i].end <= |answer|
            && RenderFrom(answer, cs, cursor)[2 * i] == TextNode(answer[from..cs[i].end])
            && RenderFrom(answer, cs, cursor)[2 * i + 1] == Marker(cs[i].citation)
  {
    assert cs[0].end <= cs[|cs| - 1].end;
    if |cs| > 1 {
      RenderInOrderAt(answer, cs[1..], cs[0].end, if i > 0 then i - 1 else 0);
    }
  }

  lemma {:induction false} AllPositioned(cs: seq<CitationReference>)
    requires forall i :: 0 <= i < |cs| ==> cs[i].end.Some?
    ensures |CutsOf(cs)| == |cs| && forall i :: 0 <= i < |cs| ==> CutsOf(cs)[i] == Cut(cs[i].end.value, cs[i])
  {
    if cs != [] { AllPositioned(cs[1..]); }
  }

  /** Rendering ordered cuts within the answer: piece, marker, piece, marker. */
  lemma RenderOrdered(answer: string, refs: seq<CitationReference>, i: nat)
    requires refs != [] && i < |CutsOf(refs)| && SortByEnd(CutsOf(refs)) == CutsOf(refs) && InOrder(CutsOf(refs))
    requires 0 <= CutsOf(refs)[0].end && CutsOf(refs)[|CutsOf(refs)| - 1].end <= |answer|
    ensures var cuts := CutsOf(refs);
            var from := if i == 0 then 0 else cuts[i - 1].end;
            && |Render(answer, refs)| >= 2 * |cuts|
            && 0 <= from <= cuts[i].end <= |answer|
            && Render(answer, refs)[2 * i] == TextNode(answer[from..cuts[i].end])
            && Render(answer, refs)[2 * i + 1] == Marker(cuts[i].citation)
  {
    RenderInOrderAt(answer, CutsOf(refs), 0, i);
  }

  lemma {:induction false} EndsRise(b: Built, header: string, sources: seq<Source>, lines: seq<string>, k: nat, i: nat, j: nat)
    requires k <= |lines| == |sources| && Aligned(b, header, sources, lines, k) && i <= j < k
    ensures b.citations[i].end.Some? && b.citations[j].end.Some?
    ensures 0 <= b.citations[i].end.value <= b.citations[j].end.value <= |b.answer|
    decreases j - i
  {
    assert SpanOk(b, header, sources[j], lines[j], j);
    if i < j { EndsRise(b, header, sources, lines, k, i, j - 1); }
  }

  /** The cuts of an aligned answer, as the frontend sees them. */
  lemma AlignedCuts(messageId: string, b: Built, header: string, sources: seq<Source>, lines: seq<string>, k: nat)
    requires 0 < k <= |lines| == |sources| && Aligned(b, header, sources, lines, k)
    ensures var refs := RenderCitations(messageId, b.citations);
            var cuts := CutsOf(refs);
            && |cuts| == k && InOrder(cuts) && SortByEnd(cuts) == cuts
            && 0 <= cuts[0].end && cuts[k - 1].end <= |b.answer|
            && forall j :: 0 <= j < k ==> b.citations[j].end.Some? && cuts[j] == Cut(b.citations[j].end.value, refs[j])
  {
    var refs := RenderCitations(messageId, b.citations);
    forall j | 0 <= j < k ensures refs[j].end.Some? { EndsRise(b, header, sources, lines, k, j, j); }
    AllPositioned(refs);
    var cuts := CutsOf(refs);
    forall i, j | 0 <= i < j < k ensures cuts[i].end <= cuts[j].end {
      EndsRise(b, header, sources, lines, k, i, j);
    }
    SortedStays(cuts);
    EndsRise(b, header, sources, lines, k, 0, k - 1);
    forall j | 0 <= j < k ensures b.citations[j].end.Some? && cuts[j] == Cut(b.citations[j].end.value, refs[j]) {
      EndsRise(b, header, sources, lines, k, j, j);
    }
  }

  /** The piece before a marker, from the spans alone. */
  lemma PieceOfAligned(messageId: string, b: Built, header: string, sources: seq<Source>, lines: seq<string>, k: nat, i: nat)
    requires i < k <= |lines| == |sources| && Aligned(b, header, sources, lines, k)
    ensures var refs := RenderCitations(messageId, b.citations);
            var cuts := CutsOf(refs);
            && |cuts| == k && cuts[i].citation == refs[i] && cuts[k - 1].end <= |b.answer|
            && var from := if i == 0 then 0 else cuts[i - 1].end;
               0 <= from <= cuts[i].end <= |b.answer| &&
               b.answer[from..cuts[i].end] == (if i == 0 then header else "") + (['\n'] + lines[i])
  {
    AlignedCuts(messageId, b, header, sources, lines, k);
    assert SpanOk(b, header, sources[i], lines[i], i);
    if i > 0 { EndsRise(b, header, sources, lines, k, i - 1, i); }
    EndsRise(b, header, sources, lines, k, i, k - 1);
    PieceIsLine(b, header, sources[i], lines[i], i);
  }

  /** End to end: in the rendering of an aligned answer each marker stands directly
      after its own source's line. */
  lemma MarkersFollowLines(messageId: string, b: Built, header: string, sources: seq<Source>, lines: seq<string>, k: nat, i: nat)
    requires i < k <= |lines| == |sources| && Aligned(b, header, sources, lines, k)
    ensures var refs := RenderCitations(messageId, b.citations);
            var nodes := Render(b.answer, refs);
            && |nodes| >= 2 * k
            && nodes[2 * i] == TextNode((if i == 0 then header else "") + (['\n'] + lines[i]))
            && nodes[2 * i + 1] == Marker(refs[i]) && refs[i].sourceId == SourceId(messageId, sources[i].index)
  {
    PieceOfAligned(messageId, b, header, sources, lines, k, i);
    AlignedCuts(messageId, b, header, sources, lines, k);
    RenderOrdered(b.answer, RenderCitations(messageId, b.citations), i);
    assert SpanOk(b, header, sources[i], lines[i], i);
  }

  lemma PieceIsLine(b: Built, header: string, source: Source, line: string, i: nat)
    requires i < |b.citations| && SpanOk(b, header, source, line, i) && header <= b.answer
    ensures var from := if i == 0 then 0 else Before(b, header, i).value;
            var end := b.citations[i].end.value;
            from <= end && b.answer[from..end] == (if i == 0 then header else "") + (['\n'] + line)
  {
    var from := Before(b, header, i).value;
    var end := b.citations[i].end.value;
    assert b.answer[from..end] == ['\n'] + line;
    if i == 0 { assert b.answer[0..end] == b.answer[..from] + b.answer[from..end]; }
  }

  lemma SpansAreNonNegative(messageId: string, citations: seq<Citation>)
    ensures forall c :: c in RenderCitations(messageId, citations) && c.end.Some? ==> c.end.value >= 0
  {
  }

  /** And the text read is the built answer. */
  lemma BuiltTextIsKept(messageId: string, header: string, items: seq<Item>, maxChars: nat)
    requires items != []
    ensures var b := Build(header, items, maxChars);
            TextOf(Render(b.answer, RenderCitations(messageId, b.citations))) == b.answer
  {
    var b := Build(header, items, maxChars);
    SpansAreNonNegative(messageId, b.citations);
    NonNegativeEndsKeepText(b.answer, RenderCitations(messageId, b.citations));
  }

  /** From the sources to the screen: each kept source's line is followed by its
      own marker, the header standing before the first. */
  lemma BuiltMarkersFollowLines(messageId: string, header: string, items: seq<Item>, maxChars: nat, i: nat)
    requires i < Fitting(header, LinesOf(items), maxChars)
    ensures var b := Build(header, items, maxChars);
            var nodes := Render(b.answer, RenderCitations(messageId, b.citations));
            && b.sources == SourcesOf(items)[..Fitting(header, LinesOf(items), maxChars)]
            && 2 * i + 1 < |nodes|
            && nodes[2 * i] == TextNode((if i == 0 then header else "") + (['\n'] + Line(items[i])))
            && nodes[2 * i + 1].Marker? && nodes[2 * i + 1].citation.sourceId == SourceId(messageId, items[i].0.index)
  {
    var k := Fitting(header, LinesOf(items), maxChars);
    BuiltIsAligned(header, SourcesOf(items), LinesOf(items), k);
    MarkersFollowLines(messageId, BuildLines(header, SourcesOf(items), LinesOf(items), k), header, SourcesOf(items), LinesOf(items), k, i);
  }

  /** When not even the first line fits, the answer is about the first source
      alone: its one citation denotes the whole text, and its marker ends it. */
  lemma FallbackIsMarked(messageId: string, header: string, items: seq<Item>, maxChars: nat)
    requires items != [] && Fitting(header, LinesOf(items), maxChars) == 0
    ensures var b := Build(header, items, maxChars);
            var refs := RenderCitations(messageId, b.citations);
            && b.sources == [items[0].0] && b.answer == FallbackText(items[0], maxChars)
            && |b.citations| == 1 && b.citations[0].index == 1 && b.citations[0].sourceIndex == items[0].0.index
            && b.citations[0].start == Some(0) && b.citations[0].end == Some(|b.answer|)
            && Render(b.answer, refs) == [TextNode(b.answer), Marker(refs[0])]
            && refs[0].sourceId == SourceId(messageId, items[0].0.index)
  {
    var b := Build(header, items, maxChars);
    var refs := RenderCitations(messageId, b.citations);
    RenderOne(b.answer, refs[0]);
    assert refs == [refs[0]];
  }

  lemma RenderOne(answer: string, ref: CitationReference)
    requires ref.end == Some(|answer|)
    ensures Render(answer, [ref]) == [TextNode(answer), Marker(ref)]
  {
    var cuts := [Cut(|answer|, ref)];
    assert [ref][1..] == [];
    assert CutsOf([ref]) == cuts;
    SortedStays(cuts);
    assert cuts[1..] == [];
    assert Slice(answer, 0, |answer|) == answer;
    assert RenderFrom(answer, cuts, 0) == [TextNode(answer), Marker(ref)] + RenderFrom(answer, [], |answer|);
  }

  /** The citations of the markers, in order. */
  function MarkersOf(nodes: seq<Node>): seq<CitationReference> {
    if nodes == [] then []
    else (match nodes[0] case Marker(c) => [c] case TextNode(_) => []) + MarkersOf(nodes[1..])
  }

  function CitationsIn(cs: seq<Cut>): (r: seq<CitationReference>)
    ensures |r| == |cs| && forall i :: 0 <= i < |r| ==> r[i] == cs[i].citation
  {
    seq(|cs|, i requires 0 <= i < |cs| => cs[i].citation)
  }

  lemma {:induction false} MarkersFromCursor(answer: string, cs: seq<Cut>, cursor: int)
    ensures MarkersOf(RenderFrom(answer, cs, cursor)) == CitationsIn(cs)
  {
    if cs == [] {
      assert MarkersOf([]) == [];
      if cursor < |answer| { assert [TextNode(Slice(answer, cursor, |answer|))][1..] == []; }
    } else {
      MarkersFromCursor(answer, cs[1..], cs[0].end);
      var rest := RenderFrom(answer, cs[1..], cs[0].end);
      var text, marker := TextNode(Slice(answer, cursor, cs[0].end)), Marker(cs[0].citation);
      assert ([text, marker] + rest)[1..] == [marker] + rest && ([marker] + rest)[1..] == rest;
      assert [] + MarkersOf([marker] + rest) == MarkersOf([marker] + rest);
      assert CitationsIn(cs) == [cs[0].citation] + CitationsIn(cs[1..]);
    }
  }

  lemma {:induction false} MarkersOfMarkers(cs: seq<CitationReference>)
    ensures MarkersOf(Markers(cs)) == cs
  {
    if cs != [] {
      assert Markers(cs)[1..] == Markers(cs[1..]);
      MarkersOfMarkers(cs[1..]);
      assert cs == [cs[0]] + cs[1..];
    }
  }

  /** The cuts are the citations with an end, each with its own. */
  function WithEnd(cs: seq<CitationReference>): multiset<CitationReference> {
    if cs == [] then multiset{} else (if cs[0].end.Some? then multiset{cs[0]} else multiset{}) + WithEnd(cs[1..])
  }

  function Bag(cs: seq<Cut>): multiset<CitationReference> {
    if cs == [] then multiset{} else Bag(cs[..|cs| - 1]) + multiset{cs[|cs| - 1].citation}
  }

  lemma {:induction false} BagOfCitations(cs: seq<Cut>)
    ensures Bag(cs) == multiset(CitationsIn(cs))
  {
    if cs != [] {
      BagOfCitations(cs[..|cs| - 1]);
      assert CitationsIn(cs) == CitationsIn(cs[..|cs| - 1]) + [cs[|cs| - 1].citation];
    }
  }

  lemma {:induction false} BagOfInsert(cs: seq<Cut>, c: Cut)
    ensures Bag(Insert(cs, c)) == Bag(cs) + multiset{c.citation}
  {
    if cs != [] && c.end < cs[|cs| - 1].end {
      BagOfInsert(cs[..|cs| - 1], c);
      var front := Insert(cs[..|cs| - 1], c);
      assert (front + [cs[|cs| - 1]])[..|front|] == front;
    } else {
      assert (cs + [c])[..|cs|] == cs;
    }
  }

  lemma {:induction false} BagOfSorted(cs: seq<Cut>)
    ensures Bag(SortByEnd(cs)) == Bag(cs)
  {
    if cs != [] {
      BagOfSorted(cs[..|cs| - 1]);
      BagOfInsert(SortByEnd(cs[..|cs| - 1]), cs[|cs| - 1]);
    }
  }

  lemma {:induction false} CutsAreWithEnd(cs: seq<CitationReference>)
    ensures multiset(CitationsIn(CutsOf(cs))) == WithEnd(cs)
  {
    if cs != [] {
      CutsAreWithEnd(cs[1..]);
      var rest := CutsOf(cs[1..]);
      if cs[0].end.Some? {
        assert CitationsIn([Cut(cs[0].end.value, cs[0])] + rest) == [cs[0]] + CitationsIn(rest);
      } else {
        assert [] + rest == rest;
      }
    }
  }

  lemma {:induction false} NoCutsExactly(cs: seq<CitationReference>)
    ensures CutsOf(cs) == [] <==> forall i :: 0 <= i < |cs| ==> cs[i].end.None?
  {
    if cs != [] {
      NoCutsExactly(cs[1..]);
      assert forall i :: 1 <= i < |cs| ==> cs[i] == cs[1..][i - 1];
    }
  }

  /** Which markers are shown: those of the citations with an end, each as often as
      it is given; if there is none, those of all citations, in order, at the end. */
  lemma MarkersExactly(answer: string, citations: seq<CitationReference>)
    ensures var nodes := Render(answer, citations);
      if forall i :: 0 <= i < |citations| ==> citations[i].end.None? then MarkersOf(nodes) == citations && nodes == [TextNode(answer)] + Markers(citations)
      else multiset(MarkersOf(nodes)) == WithEnd(citations)
  {
    CutsAreWithEnd(citations);
    NoCutsExactly(citations);
    MarkersOfMarkers(citations);
    var cuts := CutsOf(citations);
    if cuts == [] {
      assert ([TextNode(answer)] + Markers(citations))[1..] == Markers(citations);
      assert [] + MarkersOf(Markers(citations)) == citations;
      if citations == [] { assert [TextNode(answer)] + Markers(citations) == [TextNode(answer)]; }
    } else {
      MarkersFromCursor(answer, SortByEnd(cuts), 0);
      BagOfSorted(cuts);
      BagOfCitations(cuts);
      BagOfCitations(SortByEnd(cuts));
    }
  }
}
