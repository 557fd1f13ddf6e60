/** The output budget stdout and stderr share (sandbox/runtime/runner.py).

    Two buffers draw on one count of UTF-8 bytes.  The write that would pass it
    keeps what whole characters fit and raises; so does every later write. */
module OutputBudget {
  import opened Prelude
  import opened Utf8

  type Text = seq<Scalar>

  /** The length of the UTF-8 encoding. */
  function Bytes(t: Text): nat { Size(t) }

  function Concat(chunks: seq<Text>): Text {
    if chunks == [] then [] else Concat(chunks[..|chunks| - 1]) + chunks[|chunks| - 1]
  }

  lemma ConcatSnoc(chunks: seq<Text>, t: Text)
    ensures Concat(chunks + [t]) == Concat(chunks) + t
  {
    assert (chunks + [t])[..|chunks|] == chunks;
  }

  datatype OutputLimitExceeded = OutputLimitExceeded

  /** What one write does to its buffer's text and to the count left. */
  function Kept(remaining: int, text: Text): Text {
    if remaining <= 0 then [] else if Bytes(text) > remaining then Fit(text, remaining) else text
  }

  function Left(remaining: int, text: Text): int {
    if remaining <= 0 then remaining else if Bytes(text) > remaining then 0 else remaining - Bytes(text)
  }

  predicate Raises(remaining: int, text: Text) { remaining <= 0 || Bytes(text) > remaining }

  class SharedOutputBudget {
    var remaining: int

    constructor (limitBytes: int)
      ensures remaining == limitBytes
    {
      remaining := limitBytes;
    }
  }

  class BoundedTextBuffer {
    const budget: SharedOutputBudget
    var chunks: seq<Text>

    constructor (budget: SharedOutputBudget)
      ensures this.budget == budget && chunks == []
    {
      this.budget := budget;
      chunks := [];
    }

    function GetValue(): Text
      reads this
    {
      Concat(chunks)
    }

    method Write(text: Text) returns (r: Result<nat, OutputLimitExceeded>)
      modifies this`chunks, budget
      ensures GetValue() == old(GetValue()) + Kept(old(budget.remaining), text)
      ensures budget.remaining == Left(old(budget.remaining), text)
      ensures r == if Raises(old(budget.remaining), text) then Err(OutputLimitExceeded) else Ok(|text|)
    {
      var encoded := Encode(text);
      EncodeSize(text);
      if budget.remaining <= 0 {
        return Err(OutputLimitExceeded);
      }
      if |encoded| > budget.remaining {
        var partial := DecodeIgnore(encoded[..budget.remaining]);
        CutDecodesToFit(text, budget.remaining);
        ConcatSnoc(chunks, partial);
        if partial != [] {
          chunks := chunks + [partial];
        }
        budget.remaining := 0;
        return Err(OutputLimitExceeded);
      }
      ConcatSnoc(chunks, text);
      chunks := chunks + [text];
      budget.remaining := budget.remaining - |encoded|;
      return Ok(|text|);
    }
  }

  // ------------------------------------------------------------------ runs

  datatype Stream = Stdout | Stderr

  datatype Output = Output(remaining: int, stdout: Text, stderr: Text)

  datatype Write = Write(stream: Stream, text: Text)

  function TextOf(o: Output, s: Stream): Text { if s == Stdout then o.stdout else o.stderr }

  function WriteStep(o: Output, w: Write): Output {
    var kept := Kept(o.remaining, w.text);
    Output(Left(o.remaining, w.text),
           if w.stream == Stdout then o.stdout + kept else o.stdout,
           if w.stream == Stderr then o.stderr + kept else o.stderr)
  }

  /** The two buffers of a run after any writes; user code may swallow the exception. */
  function RunWrites(limit: int, ws: seq<Write>): Output {
    if ws == [] then Output(limit, [], [])
    else WriteStep(RunWrites(limit, ws[..|ws| - 1]), ws[|ws| - 1])
  }

  /** A run of the two objects is a run of the function. */
  method WriteAll(limit: int, ws: seq<Write>) returns (o: Output)
    ensures o == RunWrites(limit, ws)
  {
    var budget := new SharedOutputBudget(limit);
    var stdout := new BoundedTextBuffer(budget);
    var stderr := new BoundedTextBuffer(budget);
    for i := 0 to |ws|
      invariant stdout.budget == budget && stderr.budget == budget && stdout != stderr
      invariant RunWrites(limit, ws[..i]) == Output(budget.remaining, stdout.GetValue(), stderr.GetValue())
    {
      assert ws[..i + 1][..i] == ws[..i];
      match ws[i].stream {
        case Stdout => var r := stdout.Write(ws[i].text);
        case Stderr => var r := stderr.Write(ws[i].text);
      }
    }
    assert ws[..|ws|] == ws;
    o := Output(budget.remaining, stdout.GetValue(), stderr.GetValue());
  }

  // -------------------------------------------- the simple form it refines

  /** Everything written, in order, each character with its stream. */
  function Interleaved(ws: seq<Write>): seq<(Stream, Scalar)> {
    if ws == [] then [] else Interleaved(ws[..|ws| - 1]) + Tagged(ws[|ws| - 1])
  }

  function Tagged(w: Write): (r: seq<(Stream, Scalar)>)
    ensures |r| == |w.text| && forall i :: 0 <= i < |r| ==> r[i] == (w.stream, w.text[i])
  {
    seq(|w.text|, i requires 0 <= i < |w.text| => (w.stream, w.text[i]))
  }

  function Untag(cs: seq<(Stream, Scalar)>): (r: Text)
    ensures |r| == |cs| && forall i :: 0 <= i < |r| ==> r[i] == cs[i].1
  {
    seq(|cs|, i requires 0 <= i < |cs| => cs[i].1)
  }

  /** The characters of one stream. */
  function Select(cs: seq<(Stream, Scalar)>, s: Stream): Text {
    if cs == [] then [] else (if cs[0].0 == s then [cs[0].1] else []) + Select(cs[1..], s)
  }

  /** The specification: of everything written, keep the longest prefix that
      fits in the limit, and hand each stream its own characters. */
  function KeptPrefix(limit: int, cs: seq<(Stream, Scalar)>): seq<(Stream, Scalar)> {
    FitIsLongest(Untag(cs), limit, 0);
    cs[..|Fit(Untag(cs), limit)|]
  }

  lemma {:induction false} SelectAppend(a: seq<(Stream, Scalar)>, b: seq<(Stream, Scalar)>, s: Stream)
    ensures Select(a + b, s) == Select(a, s) + Select(b, s)
  {
    if a == [] {
      assert a + b == b;
    } else {
      var head := if a[0].0 == s then [a[0].1] else [];
      assert (a + b)[0] == a[0] && (a + b)[1..] == a[1..] + b;
      SelectAppend(a[1..], b, s);
      assert head + (Select(a[1..], s) + Select(b, s)) == (head + Select(a[1..], s)) + Select(b, s);
    }
  }

  lemma {:induction false} SelectOneStream(cs: seq<(Stream, Scalar)>, t: Text, w: Stream, s: Stream)
    requires |cs| == |t| && forall i :: 0 <= i < |cs| ==> cs[i] == (w, t[i])
    ensures Select(cs, s) == if w == s then t else []
  {
    if cs != [] { SelectOneStream(cs[1..], t[1..], w, s); }
  }

  lemma {:induction false} FitAppend(a: Text, b: Text, n: int)
    ensures Bytes(a) <= n ==> Fit(a + b, n) == a + Fit(b, n - Bytes(a))
    ensures Bytes(a) > n ==> Fit(a + b, n) == Fit(a, n)
  {
    if a == [] {
      assert a + b == b;
    } else {
      assert (a + b)[1..] == a[1..] + b;
      FitAppend(a[1..], b, n - Width(a[0]));
    }
  }

  lemma {:induction false} FitNothing(t: Text, n: int)
    requires n <= 0
    ensures Fit(t, n) == []
  {
  }

  lemma FitAll(t: Text, n: int)
    requires Bytes(t) <= n
    ensures Fit(t, n) == t
  {
    FitAppend(t, [], n);
    assert t + [] == t;
  }

  lemma UntagAppend(a: seq<(Stream, Scalar)>, b: seq<(Stream, Scalar)>)
    ensures Untag(a + b) == Untag(a) + Untag(b)
  {
  }

  /** What remains of the limit after n bytes were offered. */
  function Remaining(limit: int, n: nat): int {
    if limit < 0 then limit else if n <= limit then limit - n else 0
  }

  /** The longest fitting prefix of a + b is that of a, then what a write of b keeps. */
  lemma FitThenKept(a: Text, b: Text, limit: int)
    ensures Fit(a + b, limit) == Fit(a, limit) + Kept(Remaining(limit, Bytes(a)), b)
  {
    var left := limit - Bytes(a);
    var kept := Kept(Remaining(limit, Bytes(a)), b);
    FitAppend(a, b, limit);
    if left < 0 {
      assert kept == [];
      assert Fit(a, limit) + [] == Fit(a, limit);
    } else {
      FitAll(a, limit);
      FitIsKept(b, left);
      assert Remaining(limit, Bytes(a)) == left;
    }
  }

  lemma FitIsKept(b: Text, left: nat)
    ensures Fit(b, left) == Kept(left, b)
  {
    if left == 0 { FitNothing(b, left); } else if Bytes(b) <= left { FitAll(b, left); }
  }

  /** One more write, against the specification. */
  lemma WriteExtendsPrefix(limit: int, cs: seq<(Stream, Scalar)>, w: Write)
    ensures var kept := Kept(Remaining(limit, Bytes(Untag(cs))), w.text);
            KeptPrefix(limit, cs + Tagged(w)) == KeptPrefix(limit, cs) + Tagged(Write(w.stream, kept))
  {
    var a, b := Untag(cs), w.text;
    var kept := Kept(Remaining(limit, Bytes(a)), b);
    UntagAppend(cs, Tagged(w));
    assert Untag(Tagged(w)) == b;
    FitThenKept(a, b, limit);
    FitIsLongest(a, limit, 0);
    FitIsLongest(b, Remaining(limit, Bytes(a)), 0);
    if Bytes(a) <= limit { FitAll(a, limit); }
    PrefixGrows(cs, w, Fit(a, limit), kept);
  }

  lemma PrefixGrows(cs: seq<(Stream, Scalar)>, w: Write, fit: Text, kept: Text)
    requires fit <= Untag(cs) && kept <= w.text && (|fit| == |cs| || kept == [])
    ensures |fit + kept| <= |cs + Tagged(w)|
    ensures (cs + Tagged(w))[..|fit + kept|] == cs[..|fit|] + Tagged(Write(w.stream, kept))
  {
  }

  /** Main result: the two mutable buffers together hold exactly the longest
      prefix of all that was written, interleaved, that fits in the limit. */
  lemma {:induction false} BuffersRefinePrefix(limit: int, ws: seq<Write>)
    ensures Refines(RunWrites(limit, ws), limit, Interleaved(ws))
  {
    if ws == [] {
      assert Untag([]) == [];
    } else {
      var init, w := ws[..|ws| - 1], ws[|ws| - 1];
      BuffersRefinePrefix(limit, init);
      WriteRefinesPrefix(limit, Interleaved(init), RunWrites(limit, init), w);
    }
  }

  /** A state that holds its streams' part of the prefix of cs. */
  ghost predicate Refines(o: Output, limit: int, cs: seq<(Stream, Scalar)>) {
    && o.stdout == Select(KeptPrefix(limit, cs), Stdout)
    && o.stderr == Select(KeptPrefix(limit, cs), Stderr)
    && o.remaining == Remaining(limit, Bytes(Untag(cs)))
  }

  lemma SelectTagged(w: Write, s: Stream)
    ensures Select(Tagged(w), s) == if w.stream == s then w.text else []
  {
    SelectOneStream(Tagged(w), w.text, w.stream, s);
  }

  lemma WriteRefinesPrefix(limit: int, cs: seq<(Stream, Scalar)>, o: Output, w: Write)
    requires Refines(o, limit, cs)
    ensures Refines(WriteStep(o, w), limit, cs + Tagged(w))
  {
    var kept := Kept(o.remaining, w.text);
    var prefix := KeptPrefix(limit, cs);
    WriteExtendsPrefix(limit, cs, w);
    SelectAppend(prefix, Tagged(Write(w.stream, kept)), Stdout);
    SelectAppend(prefix, Tagged(Write(w.stream, kept)), Stderr);
    SelectTagged(Write(w.stream, kept), Stdout);
    SelectTagged(Write(w.stream, kept), Stderr);
    assert o.stdout + [] == o.stdout && o.stderr + [] == o.stderr;
    UntagAppend(cs, Tagged(w));
    assert Untag(Tagged(w)) == w.text;
    SizeAppend(Untag(cs), w.text);
    LeftOver(limit, Bytes(Untag(cs)), w.text);
  }

  lemma LeftOver(limit: int, n: nat, text: Text)
    ensures Left(Remaining(limit, n), text) == Remaining(limit, n + Bytes(text))
  {
    if text != [] { assert Bytes(text) > 0; }
  }

  /** A write raises exactly when the bytes before it already reach the limit or
      the bytes up to and including it pass the limit. */
  lemma RaisesExactly(limit: nat, ws: seq<Write>, w: Write)
    ensures Raises(RunWrites(limit, ws).remaining, w.text) <==>
      Bytes(Untag(Interleaved(ws))) >= limit || Bytes(Untag(Interleaved(ws + [w]))) > limit
  {
    BuffersRefinePrefix(limit, ws);
    assert (ws + [w])[..|ws|] == ws;
    UntagAppend(Interleaved(ws), Tagged(w));
    assert Untag(Tagged(w)) == w.text;
    SizeAppend(Untag(Interleaved(ws)), w.text);
  }

  lemma {:induction false} SelectedBytes(cs: seq<(Stream, Scalar)>)
    ensures Bytes(Select(cs, Stdout)) + Bytes(Select(cs, Stderr)) == Bytes(Untag(cs))
  {
    if cs != [] {
      var one := [cs[0].1];
      SelectedBytes(cs[1..]);
      assert Untag(cs) == one + Untag(cs[1..]);
      SizeAppend(one, Untag(cs[1..]));
      SizeAppend(one, Select(cs[1..], cs[0].0));
      assert [] + Select(cs[1..], Stdout) == Select(cs[1..], Stdout);
      assert [] + Select(cs[1..], Stderr) == Select(cs[1..], Stderr);
    }
  }

  /** The bytes of stdout plus stderr never exceed the limit, whatever is written. */
  lemma NeverOverLimit(limit: nat, ws: seq<Write>)
    ensures Bytes(RunWrites(limit, ws).stdout) + Bytes(RunWrites(limit, ws).stderr) <= limit
  {
    var cs := Interleaved(ws);
    BuffersRefinePrefix(limit, ws);
    FitIsLongest(Untag(cs), limit, 0);
    SelectedBytes(KeptPrefix(limit, cs));
    assert Untag(KeptPrefix(limit, cs)) == Fit(Untag(cs), limit);
  }

  /** Each buffer holds a prefix of what was written to it. */
  lemma EachBufferIsPrefix(limit: int, ws: seq<Write>, s: Stream)
    ensures TextOf(RunWrites(limit, ws), s) <= Select(Interleaved(ws), s)
  {
    var cs := Interleaved(ws);
    BuffersRefinePrefix(limit, ws);
    FitIsLongest(Untag(cs), limit, 0);
    var k := |KeptPrefix(limit, cs)|;
    assert cs == cs[..k] + cs[k..];
    SelectAppend(cs[..k], cs[k..], s);
  }
}
