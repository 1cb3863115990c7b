/**
 Redaction of personal data (core/security.py, `_merge_spans`, `PIIScanner`).

 The regular expressions are arbitrary functions from a text to the spans they match; card
 candidates are filtered by length, Luhn check and issuer prefix.
 */
module Redaction {
  import Luhn

  datatype Span = Span(start: int, end: int)

  /** A span of positions of a text, possibly empty. */
  predicate Within(s: Span, length: int) {
    0 <= s.start <= s.end <= length
  }

  predicate AllWithin(spans: seq<Span>, length: int) {
    forall i | 0 <= i < |spans| :: Within(spans[i], length)
  }

  predicate Covered(spans: seq<Span>, p: int) {
    exists i | 0 <= i < |spans| :: spans[i].start <= p < spans[i].end
  }

  // ---------------------------------------------------------------------------------------
  // Sorting and merging
  // ---------------------------------------------------------------------------------------

  function InsertBy<T>(x: T, s: seq<T>, le: (T, T) -> bool): seq<T> {
    if s == [] || le(s[|s| - 1], x) then s + [x] else InsertBy(x, s[..|s| - 1], le) + [s[|s| - 1]]
  }

  /** A stable sort, as Python's `sorted`. */
  function SortBy<T>(s: seq<T>, le: (T, T) -> bool): seq<T> {
    if s == [] then [] else InsertBy(s[|s| - 1], SortBy(s[..|s| - 1], le), le)
  }

  lemma {:induction false} InsertByKeeps<T>(x: T, s: seq<T>, le: (T, T) -> bool)
    ensures multiset(InsertBy(x, s, le)) == multiset(s) + multiset{x}
  {
    if s != [] && !le(s[|s| - 1], x) {
      InsertByKeeps(x, s[..|s| - 1], le);
      assert s == s[..|s| - 1] + [s[|s| - 1]];
    }
  }

  lemma {:induction false} SortByKeeps<T>(s: seq<T>, le: (T, T) -> bool)
    ensures multiset(SortBy(s, le)) == multiset(s)
  {
    if s != [] {
      SortByKeeps(s[..|s| - 1], le);
      InsertByKeeps(s[|s| - 1], SortBy(s[..|s| - 1], le), le);
      assert s == s[..|s| - 1] + [s[|s| - 1]];
    }
  }

  /** Order of Python tuples. */
  predicate TupleLe(a: Span, b: Span) {
    a.start < b.start || (a.start == b.start && a.end <= b.end)
  }

  predicate StartsAscend(s: seq<Span>) {
    forall i, j | 0 <= i < j < |s| :: s[i].start <= s[j].start
  }

  lemma {:induction false} InsertAscends(x: Span, s: seq<Span>)
    requires StartsAscend(s)
    ensures StartsAscend(InsertBy(x, s, TupleLe))
  {
    if s != [] && !TupleLe(s[|s| - 1], x) {
      var front := s[..|s| - 1];
      InsertAscends(x, front);
      InsertByKeeps(x, front, TupleLe);
      var r := InsertBy(x, front, TupleLe);
      forall i | 0 <= i < |r|
        ensures r[i].start <= s[|s| - 1].start
      {
        assert r[i] in multiset(front) + multiset{x};
      }
    }
  }

  lemma {:induction false} SortAscends(s: seq<Span>)
    ensures StartsAscend(SortBy(s, TupleLe))
  {
    if s != [] {
      SortAscends(s[..|s| - 1]);
      InsertAscends(s[|s| - 1], SortBy(s[..|s| - 1], TupleLe));
    }
  }

  function Max(a: int, b: int): int {
    if a >= b then a else b
  }

  /** Add a span that starts no earlier than all before it. */
  function Absorb(m: seq<Span>, x: Span): seq<Span> {
    if m == [] || m[|m| - 1].end < x.start then m + [x]
    else m[|m| - 1 := Span(m[|m| - 1].start, Max(m[|m| - 1].end, x.end))]
  }

  function MergeSorted(s: seq<Span>): seq<Span> {
    if s == [] then [] else Absorb(MergeSorted(s[..|s| - 1]), s[|s| - 1])
  }

  function Merge(spans: seq<Span>): seq<Span> {
    MergeSorted(SortBy(spans, TupleLe))
  }

  lemma MergeSortedNext(s: seq<Span>, i: nat)
    requires i < |s|
    ensures MergeSorted(s[..i + 1]) == Absorb(MergeSorted(s[..i]), s[i])
  {
    assert s[..i + 1][..i] == s[..i];
  }

  lemma NothingToMerge()
    ensures Merge([]) == []
  {
  }

  lemma SortedLength(spans: seq<Span>)
    ensures |SortBy(spans, TupleLe)| == |spans|
  {
    hide SortBy;
    SortByKeeps(spans, TupleLe);
    assert |SortBy(spans, TupleLe)| == |multiset(SortBy(spans, TupleLe))| == |multiset(spans)|;
  }

  lemma FirstMerged(sorted: seq<Span>)
    requires sorted != []
    ensures MergeSorted(sorted[..1]) == [sorted[0]]
  {
    MergeSortedNext(sorted, 0);
    assert MergeSorted(sorted[..0]) == [];
  }

  method MergeSpans(spans: seq<Span>) returns (merged: seq<Span>)
    ensures merged == Merge(spans)
  {
    hide MergeSorted, SortBy;
    if spans == [] {
      NothingToMerge();
      return [];
    }
    var sorted := SortBy(spans, TupleLe);
    SortedLength(spans);
    merged := [sorted[0]];
    FirstMerged(sorted);
    for i := 1 to |sorted|
      invariant merged != [] && merged == MergeSorted(sorted[..i])
    {
      MergeSortedNext(sorted, i);
      var start, end, last := sorted[i].start, sorted[i].end, merged[|merged| - 1];
      if start <= last.end {
        merged := merged[|merged| - 1 := Span(last.start, Max(last.end, end))];
      } else {
        merged := merged + [Span(start, end)];
      }
    }
    assert sorted[..|sorted|] == sorted;
  }

  /** Every two neighbours leave at least one position between them. */
  predicate Separated(m: seq<Span>) {
    && (forall i | 0 <= i < |m| :: m[i].start <= m[i].end)
    && (forall i, j | 0 <= i < j < |m| :: m[i].end < m[j].start)
  }

  ghost predicate Contains(m: seq<Span>, s: Span) {
    exists j | 0 <= j < |m| :: m[j].start <= s.start && s.end <= m[j].end
  }

  ghost predicate StartsIn(s: seq<Span>, x: Span) {
    exists i | 0 <= i < |s| :: s[i].start == x.start
  }

  /** What merging the ascending list `s` into `m` guarantees. */
  ghost predicate MergedFrom(m: seq<Span>, s: seq<Span>) {
    && Separated(m)
    && (forall p :: Covered(m, p) <==> Covered(s, p))
    && (forall i | 0 <= i < |s| :: Contains(m, s[i]))
    && (forall j | 0 <= j < |m| :: StartsIn(s, m[j]))
  }

  lemma CoveredAppend(s: seq<Span>, x: Span, p: int)
    ensures Covered(s + [x], p) <==> Covered(s, p) || x.start <= p < x.end
  {
    if Covered(s, p) {
      var i :| 0 <= i < |s| && s[i].start <= p < s[i].end;
      assert (s + [x])[i] == s[i];
    }
    if x.start <= p < x.end {
      assert (s + [x])[|s|] == x;
    }
  }

  lemma AbsorbCovers(m: seq<Span>, x: Span, p: int)
    requires x.start <= x.end && (m != [] ==> m[|m| - 1].start <= x.start)
    ensures Covered(Absorb(m, x), p) <==> Covered(m, p) || x.start <= p < x.end
  {
    if m == [] || m[|m| - 1].end < x.start {
      CoveredAppend(m, x, p);
    } else {
      var front, last := m[..|m| - 1], m[|m| - 1];
      var wide := Span(last.start, Max(last.end, x.end));
      CoveredAppend(front, wide, p);
      CoveredAppend(front, last, p);
      assert front + [last] == m && front + [wide] == Absorb(m, x);
    }
  }

  lemma AbsorbContains(m: seq<Span>, x: Span, s: Span)
    requires (m != [] ==> m[|m| - 1].start <= x.start) && (Contains(m, s) || s == x)
    ensures Contains(Absorb(m, x), s)
  {
    var m' := Absorb(m, x);
    if s == x {
      assert m'[|m'| - 1].start <= s.start && s.end <= m'[|m'| - 1].end;
    } else {
      var j :| 0 <= j < |m| && m[j].start <= s.start && s.end <= m[j].end;
      assert m'[j].start <= s.start && s.end <= m'[j].end;
    }
  }

  lemma AbsorbStarts(m: seq<Span>, s: seq<Span>, x: Span, j: nat)
    requires (forall k | 0 <= k < |m| :: StartsIn(s, m[k])) && j < |Absorb(m, x)|
    ensures StartsIn(s + [x], Absorb(m, x)[j])
  {
    if j < |m| {
      assert StartsIn(s, m[j]);
      var i :| 0 <= i < |s| && s[i].start == m[j].start;
      assert (s + [x])[i].start == Absorb(m, x)[j].start;
    } else {
      assert (s + [x])[|s|].start == Absorb(m, x)[j].start;
    }
  }

  lemma {:induction false} MergeSortedFacts(s: seq<Span>)
    requires StartsAscend(s) && forall i | 0 <= i < |s| :: s[i].start <= s[i].end
    ensures MergedFrom(MergeSorted(s), s)
  {
    if s != [] {
      var front, x := s[..|s| - 1], s[|s| - 1];
      assert front + [x] == s;
      MergeSortedFacts(front);
      MergeOne(MergeSorted(front), front, x);
    }
  }

  lemma MergeOne(m: seq<Span>, s: seq<Span>, x: Span)
    requires MergedFrom(m, s) && x.start <= x.end && StartsAscend(s + [x])
    ensures MergedFrom(Absorb(m, x), s + [x])
  {
    hide Covered, Contains;
    assert forall i | 0 <= i < |s| :: (s + [x])[i] == s[i];
    if m != [] {
      assert StartsIn(s, m[|m| - 1]);
      var i :| 0 <= i < |s| && s[i].start == m[|m| - 1].start;
      assert (s + [x])[i].start <= (s + [x])[|s|].start;
    }
    forall p
      ensures Covered(Absorb(m, x), p) <==> Covered(s + [x], p)
    {
      AbsorbCovers(m, x, p);
      CoveredAppend(s, x, p);
    }
    forall i | 0 <= i < |s + [x]|
      ensures Contains(Absorb(m, x), (s + [x])[i])
    {
      AbsorbContains(m, x, (s + [x])[i]);
    }
    forall j | 0 <= j < |Absorb(m, x)|
      ensures StartsIn(s + [x], Absorb(m, x)[j])
    {
      AbsorbStarts(m, s, x, j);
    }
    assert Separated(Absorb(m, x));
  }

  lemma CoveredSameElements(s: seq<Span>, t: seq<Span>, p: int)
    requires multiset(s) == multiset(t)
    ensures Covered(s, p) ==> Covered(t, p)
  {
    if Covered(s, p) {
      var i :| 0 <= i < |s| && s[i].start <= p < s[i].end;
      assert s[i] in multiset(t);
    }
  }

  /** Merging any list of spans gives sorted, strictly separated spans over exactly the same
      positions; each input span lies inside one of them and each begins where an input did. */
  lemma MergeFacts(spans: seq<Span>)
    requires forall i | 0 <= i < |spans| :: spans[i].start <= spans[i].end
    ensures MergedFrom(Merge(spans), spans)
  {
    var s, m := SortBy(spans, TupleLe), Merge(spans);
    SortByKeeps(spans, TupleLe);
    SortAscends(spans);
    assert forall i | 0 <= i < |s| :: s[i] in multiset(spans);
    MergeSortedFacts(s);
    forall p
      ensures Covered(m, p) <==> Covered(spans, p)
    {
      CoveredSameElements(s, spans, p);
      CoveredSameElements(spans, s, p);
    }
    forall i | 0 <= i < |spans|
      ensures Contains(m, spans[i])
    {
      assert spans[i] in multiset(s);
      var k :| 0 <= k < |s| && s[k] == spans[i];
      assert Contains(m, s[k]);
    }
    forall j | 0 <= j < |m|
      ensures StartsIn(spans, m[j])
    {
      assert StartsIn(s, m[j]);
      var k :| 0 <= k < |s| && s[k].start == m[j].start;
      assert s[k] in multiset(spans);
    }
  }

  // ---------------------------------------------------------------------------------------
  // Redaction
  // ---------------------------------------------------------------------------------------

  /** The text left to right: the spans from index `i` on are replaced, copying resumes at `from`. */
  function LeftToRight(text: string, m: seq<Span>, placeholder: string, i: nat, from: int): string
    requires AllWithin(m, |text|) && Separated(m)
    requires i <= |m| && 0 <= from <= |text| && (i < |m| ==> from <= m[i].start)
    decreases |m| - i
  {
    if i == |m| then text[from..]
    else text[from..m[i].start] + placeholder + LeftToRight(text, m, placeholder, i + 1, m[i].end)
  }

  lemma MergeWithin(spans: seq<Span>, length: int)
    requires AllWithin(spans, length)
    ensures AllWithin(Merge(spans), length) && Separated(Merge(spans))
  {
    var m := Merge(spans);
    MergeFacts(spans);
    forall j | 0 <= j < |m|
      ensures Within(m[j], length)
    {
      assert StartsIn(spans, m[j]);
      if m[j].start < m[j].end {
        var p := m[j].end - 1;
        assert Covered(m, p);
        assert Covered(spans, p);
      }
    }
  }

  /** Where copying resumes once the spans before index `i` are done. */
  function Edge(m: seq<Span>, i: nat): int
    requires i <= |m|
  {
    if i == 0 then 0 else m[i - 1].end
  }

  /** The text with the spans from index `i` on replaced. */
  ghost function Spliced(text: string, m: seq<Span>, placeholder: string, i: nat): string
    requires AllWithin(m, |text|) && Separated(m) && i <= |m|
  {
    text[..Edge(m, i)] + LeftToRight(text, m, placeholder, i, Edge(m, i))
  }

  lemma SpliceOne(text: string, m: seq<Span>, placeholder: string, i: nat)
    requires AllWithin(m, |text|) && Separated(m) && i < |m|
    ensures var done := Spliced(text, m, placeholder, i + 1);
            var (start, end) := (m[i].start, m[i].end);
            && 0 <= start <= end <= |done|
            && Spliced(text, m, placeholder, i) == done[..start] + placeholder + done[end..]
  {
    var start, end, edge := m[i].start, m[i].end, Edge(m, i);
    var rest := LeftToRight(text, m, placeholder, i + 1, end);
    assert LeftToRight(text, m, placeholder, i, edge) == text[edge..start] + placeholder + rest;
    assert 0 <= edge <= start <= end <= |text|;
    hide LeftToRight, AllWithin, Separated;
    assert Spliced(text, m, placeholder, i + 1) == text[..end] + rest;
    SpliceText(text, edge, start, end, placeholder, rest);
  }

  lemma SpliceText(text: string, edge: int, start: int, end: int, placeholder: string, rest: string)
    requires 0 <= edge <= start <= end <= |text|
    ensures var done := text[..end] + rest;
            text[..edge] + (text[edge..start] + placeholder + rest) == done[..start] + placeholder + done[end..]
  {
    var done := text[..end] + rest;
    assert done[..start] == text[..edge] + text[edge..start];
    assert done[end..] == rest;
  }

  lemma SplicedEnds(text: string, m: seq<Span>, placeholder: string)
    requires AllWithin(m, |text|) && Separated(m)
    ensures Spliced(text, m, placeholder, |m|) == text
    ensures Spliced(text, m, placeholder, 0) == LeftToRight(text, m, placeholder, 0, 0)
  {
  }

  lemma MergeNothing()
    ensures Merge([]) == []
  {
  }

  /** `PIIScanner.redact` on the spans that `scan` found: right-to-left splicing. */
  method Redact(text: string, spans: seq<Span>, placeholder: string) returns (result: string)
    requires AllWithin(spans, |text|)
    ensures AllWithin(Merge(spans), |text|) && Separated(Merge(spans))
    ensures result == LeftToRight(text, Merge(spans), placeholder, 0, 0)
  {
    hide Merge, LeftToRight, Spliced, AllWithin, Separated;
    MergeWithin(spans, |text|);
    SplicedEnds(text, Merge(spans), placeholder);
    if spans == [] {
      MergeNothing();
      return text;
    }
    var merged := MergeSpans(spans);
    result := text;
    var i := |merged|;
    while i > 0
      invariant 0 <= i <= |merged|
      invariant result == Spliced(text, merged, placeholder, i)
    {
      i := i - 1;
      SpliceOne(text, merged, placeholder, i);
      result := result[..merged[i].start] + placeholder + result[merged[i].end..];
    }
  }

  /** The reference: position by position, a covered run becomes one placeholder. */
  function Mask(text: string, spans: seq<Span>, placeholder: string, p: nat): string
    requires p <= |text|
    decreases |text| - p
  {
    if p == |text| then ""
    else if !Covered(spans, p) then [text[p]] + Mask(text, spans, placeholder, p + 1)
    else if p == 0 || !Covered(spans, p - 1) then placeholder + Mask(text, spans, placeholder, p + 1)
    else Mask(text, spans, placeholder, p + 1)
  }

  lemma {:induction false} MaskClear(text: string, spans: seq<Span>, placeholder: string, p: nat, q: nat)
    requires p <= q <= |text| && forall x | p <= x < q :: !Covered(spans, x)
    ensures Mask(text, spans, placeholder, p) == text[p..q] + Mask(text, spans, placeholder, q)
    decreases q - p
  {
    if p < q {
      MaskClear(text, spans, placeholder, p + 1, q);
      var rest := Mask(text, spans, placeholder, p + 1);
      assert Mask(text, spans, placeholder, p) == [text[p]] + rest;
      assert text[p..q] == [text[p]] + text[p + 1..q];
    } else {
      assert text[p..q] == "";
    }
  }

  lemma {:induction false} MaskInside(text: string, spans: seq<Span>, placeholder: string, p: nat, q: nat)
    requires 0 < p <= q <= |text| && forall x | p - 1 <= x < q :: Covered(spans, x)
    ensures Mask(text, spans, placeholder, p) == Mask(text, spans, placeholder, q)
    decreases q - p
  {
    hide Covered;
    if p < q {
      MaskInside(text, spans, placeholder, p + 1, q);
    }
  }

  lemma {:induction false} MaskSame(text: string, s: seq<Span>, t: seq<Span>, placeholder: string, p: nat)
    requires p <= |text| && forall x :: Covered(s, x) <==> Covered(t, x)
    ensures Mask(text, s, placeholder, p) == Mask(text, t, placeholder, p)
    decreases |text| - p
  {
    hide Covered;
    if p < |text| {
      MaskSame(text, s, t, placeholder, p + 1);
    }
  }

  /** Which positions lie in separated spans, seen from the gap before span `i`. */
  lemma GapThenSpan(m: seq<Span>, i: nat, x: int)
    requires Separated(m) && i <= |m|
    requires i > 0 ==> m[i - 1].end <= x
    requires i < |m| ==> x <= m[i].end
    ensures Covered(m, x) <==> i < |m| && m[i].start <= x < m[i].end
  {
  }

  predicate NoneEmpty(m: seq<Span>) {
    forall i | 0 <= i < |m| :: m[i].start < m[i].end
  }

  /** Characters that the empty spans from index `i` on put in beyond the reference. */
  function Surplus(m: seq<Span>, placeholder: string, i: nat): nat
    requires i <= |m|
    decreases |m| - i
  {
    if i == |m| then 0 else (if m[i].start < m[i].end then 0 else |placeholder|) + Surplus(m, placeholder, i + 1)
  }

  lemma {:induction false} SurplusZero(m: seq<Span>, placeholder: string, i: nat)
    requires i <= |m|
    ensures Surplus(m, placeholder, i) == 0
            <==> placeholder == "" || forall j | i <= j < |m| :: m[j].start < m[j].end
    decreases |m| - i
  {
    if i < |m| {
      SurplusZero(m, placeholder, i + 1);
    }
  }

  /** The reference at the gap before span `i` and through that span. */
  lemma MaskThroughSpan(text: string, m: seq<Span>, placeholder: string, i: nat)
    requires AllWithin(m, |text|) && Separated(m) && i < |m|
    ensures var (start, end) := (m[i].start, m[i].end);
            && 0 <= Edge(m, i) <= start <= end <= |text|
            && Mask(text, m, placeholder, Edge(m, i))
               == text[Edge(m, i)..start] + (if start < end then placeholder else "") + Mask(text, m, placeholder, end)
  {
    hide Covered, Mask;
    var from, start, end := Edge(m, i), m[i].start, m[i].end;
    forall x | from <= x < start
      ensures !Covered(m, x)
    {
      GapThenSpan(m, i, x);
    }
    MaskClear(text, m, placeholder, from, start);
    if start < end {
      forall x | start <= x < end
        ensures Covered(m, x)
      {
        GapThenSpan(m, i, x);
      }
      if start > 0 {
        GapThenSpan(m, i, start - 1);
      }
      MaskEnter(text, m, placeholder, start);
      MaskInside(text, m, placeholder, start + 1, end);
    }
  }

  lemma MaskEnter(text: string, spans: seq<Span>, placeholder: string, p: nat)
    requires p < |text| && Covered(spans, p) && (p == 0 || !Covered(spans, p - 1))
    ensures Mask(text, spans, placeholder, p) == placeholder + Mask(text, spans, placeholder, p + 1)
  {
  }

  /** Splicing agrees with the reference except for one extra placeholder per empty span. */
  lemma {:induction false} LeftToRightIsMask(text: string, m: seq<Span>, placeholder: string, i: nat)
    requires AllWithin(m, |text|) && Separated(m) && i <= |m|
    ensures var spliced := LeftToRight(text, m, placeholder, i, Edge(m, i));
            var masked := Mask(text, m, placeholder, Edge(m, i));
            && |spliced| == |masked| + Surplus(m, placeholder, i)
            && (Surplus(m, placeholder, i) == 0 ==> spliced == masked)
    decreases |m| - i
  {
    hide Covered, Mask;
    var from := Edge(m, i);
    if i == |m| {
      forall x | from <= x < |text|
        ensures !Covered(m, x)
      {
        GapThenSpan(m, i, x);
      }
      MaskClear(text, m, placeholder, from, |text|);
      MaskEnd(text, m, placeholder);
    } else {
      LeftToRightIsMask(text, m, placeholder, i + 1);
      MaskThroughSpan(text, m, placeholder, i);
    }
  }

  lemma MaskEnd(text: string, spans: seq<Span>, placeholder: string)
    ensures Mask(text, spans, placeholder, |text|) == ""
  {
  }

  /** An empty span that no nonempty span contains or touches. */
  predicate LoneEmpty(spans: seq<Span>, i: nat)
    requires i < |spans|
  {
    && spans[i].start == spans[i].end
    && forall j | 0 <= j < |spans| && spans[j].start < spans[j].end ::
         spans[i].start < spans[j].start || spans[j].end < spans[i].start
  }

  lemma LoneEmptyUncovered(spans: seq<Span>, i: nat, p: int)
    requires i < |spans| && LoneEmpty(spans, i) && spans[i].start - 1 <= p <= spans[i].start
    ensures !Covered(spans, p)
  {
  }

  lemma LoneEmptyStays(spans: seq<Span>, length: int, i: nat)
    requires AllWithin(spans, length) && i < |spans| && LoneEmpty(spans, i)
    ensures !NoneEmpty(Merge(spans))
  {
    hide Merge, LoneEmpty, Covered, Separated, StartsIn;
    var m := Merge(spans);
    MergeFacts(spans);
    var e := spans[i].start;
    LoneEmptyUncovered(spans, i, e);
    LoneEmptyUncovered(spans, i, e - 1);
    assert Contains(m, spans[i]);
    var j :| 0 <= j < |m| && m[j].start <= e <= m[j].end;
    assert !Covered(m, e) && !Covered(m, e - 1);
    NotInside(m, j, e);
  }

  lemma NotInside(m: seq<Span>, j: nat, e: int)
    requires j < |m| && m[j].start <= e <= m[j].end && !Covered(m, e) && !Covered(m, e - 1)
    ensures !NoneEmpty(m)
  {
  }

  lemma OnlyContainer(m: seq<Span>, j: nat, s: Span)
    requires Separated(m) && j < |m| && Contains(m, s) && s.start <= m[j].start <= s.end
    ensures m[j].start <= s.start && s.end <= m[j].end
  {
    var l :| 0 <= l < |m| && m[l].start <= s.start && s.end <= m[l].end;
    assert l == j;
  }

  lemma EmptyIsLone(m: seq<Span>, spans: seq<Span>, j: nat, i: nat)
    requires Separated(m) && (forall k | 0 <= k < |spans| :: Contains(m, spans[k]))
    requires j < |m| && m[j].start == m[j].end
    requires i < |spans| && spans[i].start == m[j].start
    requires forall k | 0 <= k < |spans| :: spans[k].start <= spans[k].end
    ensures LoneEmpty(spans, i)
  {
    forall k | 0 <= k < |spans| && spans[k].start <= m[j].start <= spans[k].end
      ensures spans[k].start == spans[k].end
    {
      assert Contains(m, spans[k]);
      hide Contains;
      OnlyContainer(m, j, spans[k]);
    }
  }

  lemma MergeCovers(spans: seq<Span>)
    requires forall i | 0 <= i < |spans| :: spans[i].start <= spans[i].end
    ensures forall p :: Covered(Merge(spans), p) <==> Covered(spans, p)
  {
    hide Merge, Covered;
    MergeFacts(spans);
  }

  lemma MergeContains(spans: seq<Span>)
    requires forall i | 0 <= i < |spans| :: spans[i].start <= spans[i].end
    ensures Separated(Merge(spans)) && forall k | 0 <= k < |spans| :: Contains(Merge(spans), spans[k])
    ensures forall j | 0 <= j < |Merge(spans)| :: Merge(spans)[j].start <= Merge(spans)[j].end
    ensures forall j | 0 <= j < |Merge(spans)| :: StartsIn(spans, Merge(spans)[j])
  {
    hide Merge, Covered, Contains, StartsIn;
    MergeFacts(spans);
  }

  lemma EmptyComesFromLone(spans: seq<Span>, length: int)
    requires AllWithin(spans, length) && !NoneEmpty(Merge(spans))
    ensures exists i | 0 <= i < |spans| :: LoneEmpty(spans, i)
  {
    hide Merge, Contains, LoneEmpty, Separated;
    var m := Merge(spans);
    MergeContains(spans);
    var j :| 0 <= j < |m| && m[j].start >= m[j].end;
    assert StartsIn(spans, m[j]);
    var i :| 0 <= i < |spans| && spans[i].start == m[j].start;
    hide StartsIn, AllWithin;
    EmptyIsLone(m, spans, j, i);
  }

  /** Merging leaves an empty span exactly if one is empty and away from all nonempty ones. */
  lemma NoneEmptyIff(spans: seq<Span>, length: int)
    requires AllWithin(spans, length)
    ensures NoneEmpty(Merge(spans)) <==> forall i | 0 <= i < |spans| :: !LoneEmpty(spans, i)
  {
    hide Merge, LoneEmpty, AllWithin, NoneEmpty;
    if i :| 0 <= i < |spans| && LoneEmpty(spans, i) {
      LoneEmptyStays(spans, length, i);
    } else if !NoneEmpty(Merge(spans)) {
      EmptyComesFromLone(spans, length);
    }
  }

  lemma WithinIsOrdered(spans: seq<Span>, length: int)
    requires AllWithin(spans, length)
    ensures forall i | 0 <= i < |spans| :: spans[i].start <= spans[i].end
  {
  }

  lemma MergedMask(text: string, spans: seq<Span>, placeholder: string)
    requires AllWithin(spans, |text|)
    ensures Mask(text, Merge(spans), placeholder, 0) == Mask(text, spans, placeholder, 0)
  {
    hide Merge, Covered, Mask, AllWithin;
    WithinIsOrdered(spans, |text|);
    MergeCovers(spans);
    MaskSame(text, Merge(spans), spans, placeholder, 0);
  }

  lemma SplicedIsMaskIff(text: string, m: seq<Span>, placeholder: string)
    requires AllWithin(m, |text|) && Separated(m)
    ensures LeftToRight(text, m, placeholder, 0, 0) == Mask(text, m, placeholder, 0)
            <==> placeholder == "" || NoneEmpty(m)
  {
    hide Mask, LeftToRight, AllWithin, Separated, Surplus;
    LeftToRightIsMask(text, m, placeholder, 0);
    SurplusZero(m, placeholder, 0);
  }

  /** What `redact` returns, against the reference: every maximal covered run becomes exactly one
      placeholder and every uncovered character stays, exactly when the placeholder is empty or
      no matched span is empty and away from all nonempty ones. */
  lemma RedactIsMask(text: string, spans: seq<Span>, placeholder: string)
    requires AllWithin(spans, |text|)
    ensures AllWithin(Merge(spans), |text|) && Separated(Merge(spans))
    ensures LeftToRight(text, Merge(spans), placeholder, 0, 0) == Mask(text, spans, placeholder, 0)
            <==> placeholder == "" || forall i | 0 <= i < |spans| :: !LoneEmpty(spans, i)
  {
    hide Merge, Mask, LeftToRight, LoneEmpty, AllWithin, Separated, NoneEmpty;
    MergeWithin(spans, |text|);
    SplicedIsMaskIff(text, Merge(spans), placeholder);
    MergedMask(text, spans, placeholder);
    NoneEmptyIff(spans, |text|);
  }

  /** Only the covered positions matter: two lists of nonempty spans over the same positions
      redact alike, whatever their order, overlaps and duplicates. */
  lemma RedactionDependsOnCoverage(text: string, spans: seq<Span>, spans': seq<Span>, placeholder: string)
    requires AllWithin(spans, |text|) && NoneEmpty(spans) && AllWithin(spans', |text|) && NoneEmpty(spans')
    requires forall p :: Covered(spans, p) <==> Covered(spans', p)
    ensures AllWithin(Merge(spans), |text|) && Separated(Merge(spans))
    ensures AllWithin(Merge(spans'), |text|) && Separated(Merge(spans'))
    ensures LeftToRight(text, Merge(spans), placeholder, 0, 0) == LeftToRight(text, Merge(spans'), placeholder, 0, 0)
  {
    RedactIsMask(text, spans, placeholder);
    RedactIsMask(text, spans', placeholder);
    MaskSame(text, spans, spans', placeholder, 0);
  }

  // ---------------------------------------------------------------------------------------
  // The scanner
  // ---------------------------------------------------------------------------------------

  datatype Category = Email | IpAddress | Phone | Password | ApiKey | SshKey | CreditCard

  /** A compiled pattern: `find` is `finditer`. */
  datatype Detector = Detector(find: string -> seq<Span>, category: Category)

  datatype Match = Match(category: Category, value: string, start: int, end: int)

  datatype Scanner = Scanner(detectors: seq<Detector>, cards: string -> seq<Span>)

  /** Patterns only match inside the text. */
  predicate Fits(sc: Scanner, text: string) {
    && (forall i | 0 <= i < |sc.detectors| :: AllWithin(sc.detectors[i].find(text), |text|))
    && AllWithin(sc.cards(text), |text|)
  }

  function Digits(s: string): seq<Luhn.Digit> {
    if s == [] then []
    else
      var rest := Digits(s[..|s| - 1]);
      var c := s[|s| - 1];
      if '0' <= c <= '9' then rest + [c as int - '0' as int] else rest
  }

  /** Order of Python strings, on digit strings. */
  predicate TextLe(a: seq<int>, b: seq<int>) {
    a == [] || (b != [] && (a[0] < b[0] || (a[0] == b[0] && TextLe(a[1..], b[1..]))))
  }

  function Prefix(d: seq<Luhn.Digit>, n: nat): seq<Luhn.Digit> {
    if |d| < n then d else d[..n]
  }

  /** `_card_iin_prefix` */
  predicate KnownIssuer(d: seq<Luhn.Digit>) {
    && d != []
    && (|| d[0] == 4
        || Prefix(d, 2) in {[3, 4], [3, 7]}
        || (TextLe([5, 1], Prefix(d, 2)) && TextLe(Prefix(d, 2), [5, 5]))
        || (TextLe([2, 2, 2, 1], Prefix(d, 4)) && TextLe(Prefix(d, 4), [2, 7, 2, 0]))
        || Prefix(d, 4) == [6, 0, 1, 1] || Prefix(d, 2) == [6, 5]
        || (TextLe([3, 5, 2, 8], Prefix(d, 4)) && TextLe(Prefix(d, 4), [3, 5, 8, 9]))
        || Prefix(d, 2) in {[3, 0], [3, 6], [3, 8]}
        || Prefix(d, 2) == [6, 2])
  }

  predicate IsCard(text: string, s: Span)
    requires Within(s, |text|)
  {
    var d := Digits(text[s.start..s.end]);
    13 <= |d| <= 19 && Luhn.Valid(d) && KnownIssuer(d)
  }

  function MatchOf(text: string, category: Category, s: Span): Match
    requires Within(s, |text|)
  {
    Match(category, text[s.start..s.end], s.start, s.end)
  }

  function MatchesOf(text: string, category: Category, spans: seq<Span>): seq<Match>
    requires AllWithin(spans, |text|)
  {
    seq(|spans|, i requires 0 <= i < |spans| => MatchOf(text, category, spans[i]))
  }

  function PatternMatches(detectors: seq<Detector>, text: string): seq<Match>
    requires forall i | 0 <= i < |detectors| :: AllWithin(detectors[i].find(text), |text|)
  {
    if detectors == [] then []
    else
      var d := detectors[|detectors| - 1];
      PatternMatches(detectors[..|detectors| - 1], text) + MatchesOf(text, d.category, d.find(text))
  }

  function CardMatches(text: string, spans: seq<Span>): seq<Match>
    requires AllWithin(spans, |text|)
  {
    if spans == [] then []
    else
      var rest := CardMatches(text, spans[..|spans| - 1]);
      var s := spans[|spans| - 1];
      if IsCard(text, s) then rest + [MatchOf(text, CreditCard, s)] else rest
  }

  function AllMatches(sc: Scanner, text: string): seq<Match>
    requires Fits(sc, text)
  {
    PatternMatches(sc.detectors, text) + CardMatches(text, sc.cards(text))
  }

  predicate StartLe(a: Match, b: Match) {
    a.start <= b.start
  }

  method CheckCard(text: string, s: Span) returns (ok: bool)
    requires Within(s, |text|)
    ensures ok == IsCard(text, s)
  {
    var d := Digits(text[s.start..s.end]);
    if 13 <= |d| <= 19 {
      ok := Luhn.LuhnCheck(d);
      ok := ok && KnownIssuer(d);
    } else {
      ok := false;
    }
  }

  method Scan(sc: Scanner, text: string) returns (matches: seq<Match>)
    requires Fits(sc, text)
    ensures matches == SortBy(AllMatches(sc, text), StartLe)
  {
    matches := [];
    for i := 0 to |sc.detectors|
      invariant matches == PatternMatches(sc.detectors[..i], text)
    {
      assert sc.detectors[..i + 1][..i] == sc.detectors[..i];
      var spans := sc.detectors[i].find(text);
      var before := matches;
      for j := 0 to |spans|
        invariant matches == before + MatchesOf(text, sc.detectors[i].category, spans[..j])
      {
        matches := matches + [MatchOf(text, sc.detectors[i].category, spans[j])];
      }
      assert spans[..|spans|] == spans;
    }
    assert sc.detectors[..|sc.detectors|] == sc.detectors;
    var found := matches;
    var cards := sc.cards(text);
    for j := 0 to |cards|
      invariant matches == found + CardMatches(text, cards[..j])
    {
      assert cards[..j + 1][..j] == cards[..j];
      var ok := CheckCard(text, cards[j]);
      if ok {
        matches := matches + [MatchOf(text, CreditCard, cards[j])];
      }
    }
    assert cards[..|cards|] == cards;
    matches := SortBy(matches, StartLe);
  }

  /** `has_pii` stops at the first hit, and answers as the full scan does. */
  method HasPii(sc: Scanner, text: string) returns (found: bool)
    requires Fits(sc, text)
    ensures found == (AllMatches(sc, text) != [])
  {
    for i := 0 to |sc.detectors|
      invariant PatternMatches(sc.detectors[..i], text) == []
    {
      assert sc.detectors[..i + 1][..i] == sc.detectors[..i];
      if sc.detectors[i].find(text) != [] {
        assert PatternMatches(sc.detectors[..i + 1], text) != [];
        PatternMatchesGrow(sc.detectors, text, i + 1);
        return true;
      }
    }
    assert sc.detectors[..|sc.detectors|] == sc.detectors;
    var cards := sc.cards(text);
    for j := 0 to |cards|
      invariant CardMatches(text, cards[..j]) == []
    {
      assert cards[..j + 1][..j] == cards[..j];
      var ok := CheckCard(text, cards[j]);
      if ok {
        assert CardMatches(text, cards[..j + 1]) != [];
        CardMatchesGrow(text, cards, j + 1);
        return true;
      }
    }
    assert cards[..|cards|] == cards;
    return false;
  }

  lemma {:induction false} PatternMatchesGrow(detectors: seq<Detector>, text: string, n: nat)
    requires n <= |detectors| && forall i | 0 <= i < |detectors| :: AllWithin(detectors[i].find(text), |text|)
    ensures |PatternMatches(detectors[..n], text)| <= |PatternMatches(detectors, text)|
    decreases |detectors|
  {
    if n < |detectors| {
      PatternMatchesGrow(detectors[..|detectors| - 1], text, n);
      assert detectors[..|detectors| - 1][..n] == detectors[..n];
    } else {
      assert detectors[..n] == detectors;
    }
  }

  lemma {:induction false} CardMatchesGrow(text: string, spans: seq<Span>, n: nat)
    requires n <= |spans| && AllWithin(spans, |text|)
    ensures |CardMatches(text, spans[..n])| <= |CardMatches(text, spans)|
    decreases |spans|
  {
    if n < |spans| {
      CardMatchesGrow(text, spans[..|spans| - 1], n);
      assert spans[..|spans| - 1][..n] == spans[..n];
    } else {
      assert spans[..n] == spans;
    }
  }

  function SpansOf(matches: seq<Match>): seq<Span> {
    seq(|matches|, i requires 0 <= i < |matches| => Span(matches[i].start, matches[i].end))
  }

  lemma SpansOfConcat(a: seq<Match>, b: seq<Match>)
    ensures SpansOf(a + b) == SpansOf(a) + SpansOf(b)
  {
  }

  lemma MatchesWithin(sc: Scanner, text: string)
    requires Fits(sc, text)
    ensures AllWithin(SpansOf(AllMatches(sc, text)), |text|)
  {
    SpansOfConcat(PatternMatches(sc.detectors, text), CardMatches(text, sc.cards(text)));
    PatternMatchesWithin(sc.detectors, text);
    CardMatchesWithin(text, sc.cards(text));
  }

  lemma {:induction false} PatternMatchesWithin(detectors: seq<Detector>, text: string)
    requires forall i | 0 <= i < |detectors| :: AllWithin(detectors[i].find(text), |text|)
    ensures AllWithin(SpansOf(PatternMatches(detectors, text)), |text|)
  {
    if detectors != [] {
      var front, d := detectors[..|detectors| - 1], detectors[|detectors| - 1];
      PatternMatchesWithin(front, text);
      SpansOfConcat(PatternMatches(front, text), MatchesOf(text, d.category, d.find(text)));
      assert SpansOf(MatchesOf(text, d.category, d.find(text))) == d.find(text);
    }
  }

  lemma {:induction false} CardMatchesWithin(text: string, spans: seq<Span>)
    requires AllWithin(spans, |text|)
    ensures AllWithin(SpansOf(CardMatches(text, spans)), |text|)
  {
    if spans != [] {
      var front, last := spans[..|spans| - 1], spans[|spans| - 1];
      CardMatchesWithin(text, front);
      SpansOfConcat(CardMatches(text, front), [MatchOf(text, CreditCard, last)]);
      assert SpansOf([MatchOf(text, CreditCard, last)]) == [last];
    }
  }

  /** Both lists hold the same spans. */
  predicate SameSpans(s: seq<Span>, t: seq<Span>) {
    (forall i | 0 <= i < |s| :: s[i] in t) && (forall i | 0 <= i < |t| :: t[i] in s)
  }

  lemma SameSpansAlike(s: seq<Span>, t: seq<Span>, length: int)
    requires SameSpans(s, t) && AllWithin(s, length)
    ensures AllWithin(t, length)
    ensures forall p :: Covered(s, p) <==> Covered(t, p)
    ensures (exists i | 0 <= i < |s| :: LoneEmpty(s, i)) <==> exists i | 0 <= i < |t| :: LoneEmpty(t, i)
  {
    forall p
      ensures Covered(s, p) <==> Covered(t, p)
    {
      hide Within;
    }
    LoneEmptyCarries(s, t);
    LoneEmptyCarries(t, s);
  }

  lemma LoneEmptyCarries(s: seq<Span>, t: seq<Span>)
    requires SameSpans(s, t)
    ensures (exists i | 0 <= i < |s| :: LoneEmpty(s, i)) ==> exists i | 0 <= i < |t| :: LoneEmpty(t, i)
  {
    if i :| 0 <= i < |s| && LoneEmpty(s, i) {
      var j :| 0 <= j < |t| && t[j] == s[i];
      forall k | 0 <= k < |t| && t[k].start < t[k].end
        ensures t[j].start < t[k].start || t[k].end < t[j].start
      {
        var l :| 0 <= l < |s| && s[l] == t[k];
      }
      assert LoneEmpty(t, j);
    }
  }

  lemma SortedSpans(matches: seq<Match>)
    ensures SameSpans(SpansOf(matches), SpansOf(SortBy(matches, StartLe)))
  {
    var sorted := SortBy(matches, StartLe);
    SortByKeeps(matches, StartLe);
    hide SortBy;
    forall i | 0 <= i < |sorted|
      ensures SpansOf(sorted)[i] in SpansOf(matches)
    {
      assert sorted[i] in multiset(matches);
      var j :| 0 <= j < |matches| && matches[j] == sorted[i];
      assert SpansOf(sorted)[i] == SpansOf(matches)[j];
    }
    forall j | 0 <= j < |matches|
      ensures SpansOf(matches)[j] in SpansOf(sorted)
    {
      assert matches[j] in multiset(sorted);
      var i :| 0 <= i < |sorted| && matches[j] == sorted[i];
      assert SpansOf(sorted)[i] == SpansOf(matches)[j];
    }
  }

  /** `redact` end to end: the merged spans of the matches are spliced, and the result is the text
      with every maximal run of matched positions replaced by one placeholder, exactly when the
      placeholder is empty or no pattern matched the empty string away from all other matches. */
  method RedactText(sc: Scanner, text: string, placeholder: string) returns (result: string)
    requires Fits(sc, text)
    ensures var m := Merge(SpansOf(SortBy(AllMatches(sc, text), StartLe)));
            AllWithin(m, |text|) && Separated(m) && result == LeftToRight(text, m, placeholder, 0, 0)
    ensures var spans := SpansOf(AllMatches(sc, text));
            result == Mask(text, spans, placeholder, 0)
            <==> placeholder == "" || forall i | 0 <= i < |spans| :: !LoneEmpty(spans, i)
  {
    hide AllMatches, Mask, SpansOf, Merge, AllWithin, Separated, LoneEmpty, LeftToRight, SortBy;
    ghost var all := SpansOf(AllMatches(sc, text));
    MatchesWithin(sc, text);
    SortedSpans(AllMatches(sc, text));
    var matches := Scan(sc, text);
    var spans := SpansOf(matches);
    SameSpansAlike(all, spans, |text|);
    result := Redact(text, spans, placeholder);
    RedactIsMask(text, spans, placeholder);
    MaskSame(text, spans, all, placeholder, 0);
  }
}
