/** Strings: decimal numbers, splitting at a character, and the Python methods used. */
module Text {
  import opened Prelude

  function Digit(d: nat): (c: char)
    requires d < 10
    ensures '0' <= c <= '9'
  {
    '0' + d as char
  }

  function PrintNat(n: nat): string {
    if n < 10 then [Digit(n)] else PrintNat(n / 10) + [Digit(n % 10)]
  }

  /** str(i). */
  function PrintInt(i: int): string {
    if i < 0 then "-" + PrintNat(-i) else PrintNat(i)
  }

  function DigitValue(c: char): Option<nat> {
    if '0' <= c <= '9' then Some((c - '0') as nat) else None
  }

  function ParseNat(s: string): Option<nat> {
    if s == "" then None
    else
      var last := DigitValue(s[|s| - 1]);
      if last.None? then None
      else if |s| == 1 then last
      else
        var high := ParseNat(s[..|s| - 1]);
        if high.None? then None else Some(10 * high.value + last.value)
  }

  /** int(s) on plain decimal text with an optional sign. */
  function ParseInt(s: string): Option<int> {
    if s != "" && (s[0] == '-' || s[0] == '+') then
      var n := ParseNat(s[1..]);
      if n.None? then None
      else var magnitude: int := n.value; Some(if s[0] == '-' then -magnitude else magnitude)
    else
      var n := ParseNat(s);
      if n.None? then None else Some(n.value)
  }

  lemma {:induction false} ParsePrintNat(n: nat)
    ensures |PrintNat(n)| > 0 && '0' <= PrintNat(n)[0] <= '9'
    ensures forall k :: 0 <= k < |PrintNat(n)| ==> '0' <= PrintNat(n)[k] <= '9'
    ensures ParseNat(PrintNat(n)) == Some(n)
  {
    if n >= 10 {
      ParsePrintNat(n / 10);
      assert PrintNat(n)[..|PrintNat(n)| - 1] == PrintNat(n / 10);
    }
  }

  /** int(str(i)) == i. */
  lemma ParsePrintInt(i: int)
    ensures ParseInt(PrintInt(i)) == Some(i)
  {
    ParsePrintNat(if i < 0 then -i else i);
    if i < 0 { assert PrintInt(i)[1..] == PrintNat(-i); }
  }

  /** Decimal texts of different numbers differ. */
  lemma PrintNatInjective(m: nat, n: nat)
    requires PrintNat(m) == PrintNat(n)
    ensures m == n
  {
    ParsePrintNat(m);
    ParsePrintNat(n);
  }

  /** Index of the first c, or |s|. */
  function IndexOf(s: string, c: char): (i: nat)
    ensures i <= |s|
    ensures i < |s| ==> s[i] == c
    ensures forall k :: 0 <= k < i ==> s[k] != c
  {
    if s == "" || s[0] == c then 0 else 1 + IndexOf(s[1..], c)
  }

  /** s.partition(c) without the separator: all of s and "" when c is absent. */
  function Partition(s: string, c: char): (string, string) {
    var i := IndexOf(s, c);
    if i == |s| then (s, "") else (s[..i], s[i + 1..])
  }

  lemma IndexOfInPrefix(a: string, c: char, b: string)
    requires c !in a
    ensures IndexOf(a + [c] + b, c) == |a|
  {
    var s := a + [c] + b;
    assert s[|a|] == c;
    assert forall k :: 0 <= k < |a| ==> s[k] == a[k];
  }

  /** Splitting at c undoes joining with c exactly when the left part is free of c. */
  lemma PartitionJoin(a: string, c: char, b: string)
    ensures Partition(a + [c] + b, c) == (a, b) <==> c !in a
    ensures c !in Partition(a + [c] + b, c).0
  {
    var s := a + [c] + b;
    if c !in a {
      IndexOfInPrefix(a, c, b);
      assert s[..|a|] == a && s[|a| + 1..] == b;
    } else {
      assert s[|a|] == c;
    }
  }

  // ------------------------------------------------------- Python's strings

  /** str.isspace for one character. */
  predicate IsSpace(c: char) {
    var u := c as int;
    9 <= u <= 13 || 28 <= u <= 32 || u == 0x85 || u == 0xA0 || u == 0x1680 || 0x2000 <= u <= 0x200A ||
    u == 0x2028 || u == 0x2029 || u == 0x202F || u == 0x205F || u == 0x3000
  }

  function StripLeft(s: string): (r: string)
    ensures |r| <= |s|
    ensures r != "" ==> !IsSpace(r[0])
  {
    if s != "" && IsSpace(s[0]) then StripLeft(s[1..]) else s
  }

  function StripRight(s: string): (r: string)
    ensures r <= s
    ensures r != "" ==> !IsSpace(r[|r| - 1])
  {
    if s != "" && IsSpace(s[|s| - 1]) then StripRight(s[..|s| - 1]) else s
  }

  /** str.strip. */
  function Strip(s: string): (r: string)
    ensures |r| <= |s|
    ensures r != "" ==> !IsSpace(r[0]) && !IsSpace(r[|r| - 1])
  {
    StripRight(StripLeft(s))
  }

  lemma {:induction false} StripRightKeepsHead(s: string)
    requires s != "" && !IsSpace(s[0])
    ensures StripRight(s) != "" && StripRight(s)[0] == s[0]
  {
    if IsSpace(s[|s| - 1]) { StripRightKeepsHead(s[..|s| - 1]); }
  }

  predicate AllSpace(s: string) { forall i :: 0 <= i < |s| ==> IsSpace(s[i]) }

  lemma {:induction false} StripLeftExactly(s: string) returns (before: string)
    ensures s == before + StripLeft(s) && AllSpace(before)
  {
    before := "";
    if s != "" && IsSpace(s[0]) {
      var rest := StripLeftExactly(s[1..]);
      before := [s[0]] + rest;
      assert s == [s[0]] + s[1..];
    }
  }

  lemma {:induction false} StripRightExactly(s: string) returns (after: string)
    ensures s == StripRight(s) + after && AllSpace(after)
  {
    after := "";
    if s != "" && IsSpace(s[|s| - 1]) {
      var rest := StripRightExactly(s[..|s| - 1]);
      after := rest + [s[|s| - 1]];
      assert s == s[..|s| - 1] + [s[|s| - 1]];
    }
  }

  /** Stripping takes white space off both ends, all of it and nothing else. */
  lemma StripExactly(s: string) returns (before: string, after: string)
    ensures s == before + Strip(s) + after && AllSpace(before) && AllSpace(after)
    ensures Strip(s) != "" ==> !IsSpace(Strip(s)[0]) && !IsSpace(Strip(s)[|Strip(s)| - 1])
  {
    before := StripLeftExactly(s);
    after := StripRightExactly(StripLeft(s));
  }

  /** " ".join(s.split()): runs of white space become one blank, none at the ends. */
  function Collapse(s: string): string
    decreases |s|
  {
    var t := StripLeft(s);
    if t == "" then ""
    else
      var (word, rest) := TakeWord(t);
      var more := Collapse(rest);
      if more == "" then word else word + " " + more
  }

  function TakeWord(s: string): (r: (string, string))
    requires s != "" && !IsSpace(s[0])
    ensures r.0 + r.1 == s && r.0 != "" && |r.1| < |s|
    ensures forall i :: 0 <= i < |r.0| ==> !IsSpace(r.0[i])
    ensures r.1 != "" ==> IsSpace(r.1[0])
    decreases |s|
  {
    if |s| == 1 || IsSpace(s[1]) then
      assert s == [s[0]] + s[1..];
      ([s[0]], s[1..])
    else
      var (w, rest) := TakeWord(s[1..]);
      assert s == [s[0]] + s[1..];
      ([s[0]] + w, rest)
  }

  /** s.split(). */
  function Words(s: string): seq<string>
    decreases |s|
  {
    var t := StripLeft(s);
    if t == "" then [] else var (word, rest) := TakeWord(t); [word] + Words(rest)
  }

  /** Single blanks, between other characters only. */
  predicate Tidy(s: string) {
    forall i :: 0 <= i < |s| && IsSpace(s[i]) ==> s[i] == ' ' && 0 < i < |s| - 1 && !IsSpace(s[i + 1])
  }

  predicate IsWord(w: string) { w != "" && forall i :: 0 <= i < |w| ==> !IsSpace(w[i]) }

  lemma {:induction false} TakeWordAt(w: string, rest: string)
    requires IsWord(w) && (rest != "" ==> IsSpace(rest[0]))
    ensures TakeWord(w + rest) == (w, rest)
    decreases |w|
  {
    var s := w + rest;
    if |w| == 1 {
      assert s[1..] == rest && [s[0]] == w;
    } else {
      assert s[1..] == w[1..] + rest;
      TakeWordAt(w[1..], rest);
      assert [s[0]] + w[1..] == w;
    }
  }

  lemma WordsOfOne(w: string, rest: string)
    requires IsWord(w) && (rest != "" ==> IsSpace(rest[0]))
    ensures Words(w + rest) == [w] + Words(rest)
  {
    assert StripLeft(w + rest) == w + rest;
    TakeWordAt(w, rest);
  }

  lemma WordsOfNext(w: string, more: string)
    requires IsWord(w)
    ensures Words(w + (" " + more)) == [w] + Words(more)
  {
    WordsOfOne(w, " " + more);
    assert (" " + more)[1..] == more;
    assert StripLeft(" " + more) == StripLeft(more);
  }

  lemma TidyJoin(w: string, more: string)
    requires IsWord(w) && Tidy(more) && more != ""
    ensures Tidy(w + " " + more)
  {
    var s := w + " " + more;
    assert forall k :: 0 <= k < |w| ==> s[k] == w[k];
    assert forall k :: 0 <= k < |more| ==> s[|w| + 1 + k] == more[k];
    forall i | 0 <= i < |s| && IsSpace(s[i]) ensures s[i] == ' ' && 0 < i < |s| - 1 && !IsSpace(s[i + 1]) {
      assert i >= |w|;
      if i > |w| { assert s[i] == more[i - |w| - 1]; }
    }
  }

  /** Collapsing keeps the words, in order, with single blanks between them. */
  lemma {:induction false} CollapseKeepsWords(s: string)
    ensures Words(Collapse(s)) == Words(s) && Tidy(Collapse(s))
    decreases |s|
  {
    var t := StripLeft(s);
    if t == "" {
      assert StripLeft("") == "";
    } else {
      var (word, rest) := TakeWord(t);
      CollapseKeepsWords(rest);
      CollapseStep(word, rest, Collapse(rest));
    }
  }

  lemma CollapseStep(word: string, rest: string, more: string)
    requires IsWord(word) && Words(more) == Words(rest) && Tidy(more)
    ensures var c := if more == "" then word else word + " " + more;
      Words(c) == [word] + Words(rest) && Tidy(c)
  {
    if more == "" {
      WordsOfOne(word, "");
      assert word + "" == word;
    } else {
      WordsOfNext(word, more);
      TidyJoin(word, more);
      assert word + " " + more == word + (" " + more);
    }
  }

  /** Cutting a tidy text and stripping it leaves its beginning, less at most the
      blank it was cut after. */
  lemma TidyCut(s: string, n: nat)
    requires Tidy(s)
    ensures Strip(Truncate(s, n)) <= s
    ensures |Strip(Truncate(s, n))| <= n && (|s| <= n ==> Strip(Truncate(s, n)) == s)
    ensures |s| > n ==> |Strip(Truncate(s, n))| >= n - 1
  {
    var c := Truncate(s, n);
    assert StripLeft(c) == c;
    if c != "" && IsSpace(c[|c| - 1]) {
      assert c[..|c| - 1] != "" ==> !IsSpace(c[|c| - 2]);
      assert StripRight(c[..|c| - 1]) == c[..|c| - 1];
    }
  }

  /** cut is the first n characters of text. */
  predicate FirstOf(cut: string, text: string, n: nat) { cut <= text && |cut| == if |text| < n then |text| else n }

  function Truncate(s: string, n: nat): (r: string)
    ensures FirstOf(r, s, n)
  {
    if |s| <= n then s else s[..n]
  }
}
