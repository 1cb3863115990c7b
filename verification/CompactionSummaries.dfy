/**
 Which summaries a conversation still holds after any run of compactions
 (core/context_manager.py, class `ContextCompactor`).
 */
module CompactionSummaries {
  import opened Compaction

  function NumberOf(m: Message): seq<nat> {
    if m.content.Compacted? then [m.content.summary.number] else []
  }

  /** The numbers of the summaries in a list, in order. */
  function Numbers(ms: seq<Message>): seq<nat> {
    Collect(NumberOf, ms)
  }

  /** Summaries come from compactions, not from what is appended. */
  predicate NoSummaries(ms: seq<Message>) {
    forall i | 0 <= i < |ms| :: !ms[i].content.Compacted?
  }

  predicate PlainAppends(es: seq<Event>) {
    forall i | 0 <= i < |es| && es[i].Append? :: NoSummaries(es[i].messages)
  }

  /** Where each compaction that took effect split the body; entry `i` belongs to number `i + 1`. */
  function Splits(es: seq<Event>, keep: nat): seq<nat>
    requires keep > 0
  {
    if es == [] then []
    else
      var front := es[..|es| - 1];
      var ms := Run(front, keep).0;
      if es[|es| - 1].CompactNow? && !TooFew(ms, keep) then Splits(front, keep) + [SplitPoint(Body(ms), keep)]
      else Splits(front, keep)
  }

  /** The list has a leading system message that is no summary. */
  predicate OwnHead(ms: seq<Message>) {
    ms != [] && ms[0].role == System && !ms[0].content.Compacted?
  }

  /** A summary other than the newest and a pinned one: the next compaction split right at it and
      each later one right behind the summary in front of it. */
  predicate Older(splits: seq<nat>, own: bool, j: nat) {
    && (if own then 1 else 2) <= j < |splits|
    && splits[j] == 0
    && forall i | j < i < |splits| :: splits[i] == 1
  }

  /** The reference: which summary numbers are in the list after compactions with these splits.
      The first one is pinned if the list had no head of its own. */
  predicate Present(splits: seq<nat>, own: bool, j: nat) {
    splits != [] && (j == |splits| || (!own && j == 1) || Older(splits, own, j))
  }

  /** System messages that are the summaries with these numbers. */
  predicate AreSummaries(ms: seq<Message>, numbers: seq<nat>) {
    |ms| == |numbers| && forall i | 0 <= i < |ms| :: ms[i].role == System && NumberOf(ms[i]) == [numbers[i]]
  }

  /** How a list looks after `n` compactions: the head, then the summaries numbered `tops`, then
      messages that are no summaries. */
  predicate Shape(ms: seq<Message>, own: bool, n: nat, tops: seq<nat>) {
    if n == 0 then tops == [] && NoSummaries(ms) && (ms != [] ==> (own <==> OwnHead(ms)))
    else
      && |ms| > |tops|
      && ms[0].role == System
      && NumberOf(ms[0]) == (if own then [] else [1])
      && AreSummaries(ms[1..1 + |tops|], tops)
      && NoSummaries(ms[1 + |tops|..])
  }

  /** The summaries behind the head after one more compaction. */
  function NextTops(tops: seq<nat>, own: bool, n: nat, split: nat): seq<nat> {
    if n == 0 then if own then [1] else []
    else [n + 1] + if split < |tops| then tops[split..] else []
  }

  lemma NumbersConcat(a: seq<Message>, b: seq<Message>)
    ensures Numbers(a + b) == Numbers(a) + Numbers(b)
  {
    CollectConcat(NumberOf, a, b);
  }

  lemma {:induction false} NoNumbers(ms: seq<Message>)
    requires NoSummaries(ms)
    ensures Numbers(ms) == []
  {
    if ms != [] {
      NoNumbers(ms[..|ms| - 1]);
    }
  }

  lemma {:induction false} NumbersAre(ms: seq<Message>, tops: seq<nat>)
    requires AreSummaries(ms, tops)
    ensures Numbers(ms) == tops
  {
    hide NumberOf;
    if ms != [] {
      NumbersAre(ms[..|ms| - 1], tops[..|tops| - 1]);
      assert tops == tops[..|tops| - 1] + [tops[|tops| - 1]];
    }
  }

  ghost predicate TopsMatch(tops: seq<nat>, splits: seq<nat>, own: bool) {
    if splits == [] || (!own && |splits| == 1) then tops == []
    else
      && 1 <= |tops| <= 2
      && tops[0] == |splits|
      && forall j :: Older(splits, own, j) <==> |tops| == 2 && j == tops[1]
  }

  lemma OlderNext(splits: seq<nat>, own: bool, split: nat, j: nat)
    ensures Older(splits + [split], own, j)
            <==> if j == |splits| then (own || j >= 2) && j >= 1 && split == 0 else Older(splits, own, j) && split == 1
  {
    var s := splits + [split];
    assert forall i | 0 <= i < |splits| :: s[i] == splits[i];
    assert s[|splits|] == split;
  }

  lemma NoOlder(splits: seq<nat>, own: bool)
    requires |splits| == 0 || (!own && |splits| == 1)
    ensures forall j :: !Older(splits, own, j)
  {
  }

  lemma TopsNext(tops: seq<nat>, splits: seq<nat>, own: bool, split: nat)
    requires TopsMatch(tops, splits, own) && (|tops| == 2 ==> split > 0)
    ensures TopsMatch(NextTops(tops, own, |splits|, split), splits + [split], own)
  {
    forall j: nat
      ensures Older(splits + [split], own, j)
              <==> if j == |splits| then (own || j >= 2) && j >= 1 && split == 0
                   else Older(splits, own, j) && split == 1
    {
      OlderNext(splits, own, split, j);
    }
    if |splits| == 0 || (!own && |splits| == 1) {
      NoOlder(splits, own);
    }
    assert !Older(splits, own, |splits|);
    hide Older;
  }

  lemma ErrorsHoldNoSummary(ms: seq<Message>)
    ensures NoSummaries(Errors(ms))
  {
    ErrorsAreErrors(ms);
  }

  /** A summary in front of the body stays, at split 0, exactly when everything behind it up to the
      kept messages is a tool result; with a second system message behind it, it never does. */
  lemma FrontStaysIff(body: seq<Message>, keep: nat)
    requires 0 < keep <= |body| && body[0].role == System
    ensures SplitPoint(body, keep) == 0 <==> forall i | 0 < i <= |body| - keep :: body[i].role == Tool
  {
    BackOverToolsFacts(body, |body| - keep);
  }

  lemma MakeShape(h: Message, mid: seq<Message>, rest: seq<Message>, own: bool, n: nat, tops: seq<nat>)
    requires n > 0 && h.role == System && NumberOf(h) == if own then [] else [1]
    requires AreSummaries(mid, tops) && NoSummaries(rest)
    ensures Shape([h] + mid + rest, own, n, tops)
  {
    hide AreSummaries, NoSummaries, NumberOf;
    var ms := [h] + mid + rest;
    assert ms[1..1 + |mid|] == mid && ms[1 + |mid|..] == rest;
    assert |mid| == |tops| by {
      SameLength(mid, tops);
    }
  }

  lemma SameLength(mid: seq<Message>, tops: seq<nat>)
    requires AreSummaries(mid, tops)
    ensures |mid| == |tops|
  {
  }

  lemma FirstShape(ms: seq<Message>, keep: nat, own: bool)
    requires keep > 0 && !TooFew(ms, keep) && Shape(ms, own, 0, [])
    ensures Shape(Compact(ms, keep, 1), own, 1, NextTops([], own, 0, 0))
  {
    hide SplitPoint, SummaryOf, Errors, Shape;
    var errors, recent := Errors(Old(ms, keep)), Recent(ms, keep);
    FreshList(ms, own);
    ErrorsHoldNoSummary(Old(ms, keep));
    assert NoSummaries(errors + recent);
    var s := Summarize(Old(ms, keep), 1);
    NewSummary(Old(ms, keep), 1);
    assert s.role == System && NumberOf(s) == [1];
    if own {
      MakeShape(ms[0], [s], errors + recent, own, 1, [1]);
      assert Compact(ms, keep, 1) == [ms[0]] + [s] + (errors + recent);
    } else {
      MakeShape(s, [], errors + recent, own, 1, []);
      assert Compact(ms, keep, 1) == [s] + [] + (errors + recent);
    }
  }

  lemma FreshList(ms: seq<Message>, own: bool)
    requires ms != [] && Shape(ms, own, 0, [])
    ensures NoSummaries(ms) && Head(ms) == if own then [ms[0]] else []
    ensures own ==> ms[0].role == System && NumberOf(ms[0]) == []
  {
  }

  lemma BehindHead(ms: seq<Message>, own: bool, n: nat, tops: seq<nat>)
    requires n > 0 && Shape(ms, own, n, tops)
    ensures Head(ms) == [ms[0]] && Body(ms) == ms[1..] == ms[1..1 + |tops|] + ms[1 + |tops|..]
  {
    hide AreSummaries, NoSummaries, NumberOf;
  }

  lemma CompactBehindHead(ms: seq<Message>, keep: nat, number: nat)
    requires keep > 0 && !TooFew(ms, keep) && Head(ms) == [ms[0]]
    ensures var (body, k) := (Body(ms), SplitPoint(Body(ms), keep));
            Compact(ms, keep, number) == [ms[0]] + [Summarize(body[..k], number)] + (Errors(body[..k]) + body[k..])
  {
    hide SplitPoint, Summarize, Errors;
  }

  lemma PartOfSummaries(mid: seq<Message>, tops: seq<nat>, k: nat)
    requires AreSummaries(mid, tops) && k <= |mid|
    ensures AreSummaries(mid[k..], tops[k..]) && Errors(mid[..k]) == []
  {
    hide Errors;
    SystemsAreNoErrors(mid[..k]);
  }

  lemma JoinSummaries(a: seq<Message>, m: seq<nat>, b: seq<Message>, n: seq<nat>)
    requires AreSummaries(a, m) && AreSummaries(b, n)
    ensures AreSummaries(a + b, m + n)
  {
  }

  lemma NewSummary(dropped: seq<Message>, number: nat)
    ensures AreSummaries([Summarize(dropped, number)], [number])
  {
    hide SummaryOf;
    assert SummaryOf(dropped, number).number == number by {
      NumberGiven(dropped, number);
    }
  }

  lemma NumberGiven(dropped: seq<Message>, number: nat)
    ensures SummaryOf(dropped, number).number == number
  {
  }

  lemma ShapeNext(ms: seq<Message>, keep: nat, own: bool, n: nat, tops: seq<nat>)
    requires keep > 0 && !TooFew(ms, keep) && n > 0 && Shape(ms, own, n, tops)
    ensures Shape(Compact(ms, keep, n + 1), own, n + 1, NextTops(tops, own, n, SplitPoint(Body(ms), keep)))
  {
    hide SplitPoint, Errors, AreSummaries, NoSummaries, NumberOf, Compact, Summarize;
    BehindHead(ms, own, n, tops);
    CompactBehindHead(ms, keep, n + 1);
    var body, k, mid, rest := Body(ms), SplitPoint(Body(ms), keep), ms[1..1 + |tops|], ms[1 + |tops|..];
    var s := Summarize(body[..k], n + 1);
    NewSummary(body[..k], n + 1);
    if k < |tops| {
      PartOfSummaries(mid, tops, k);
      JoinSummaries([s], [n + 1], mid[k..], tops[k..]);
      MakeShape(ms[0], [s] + mid[k..], rest, own, n + 1, [n + 1] + tops[k..]);
      assert body[..k] == mid[..k] && body[k..] == mid[k..] + rest;
      Flatten(ms[0], s, Errors(body[..k]), mid[k..], rest);
    } else {
      var more := Errors(body[..k]) + body[k..];
      ErrorsHoldNoSummary(body[..k]);
      PartIsPlain(rest, k - |tops|);
      assert body[k..] == rest[k - |tops|..];
      PlainConcat(Errors(body[..k]), body[k..]);
      MakeShape(ms[0], [s], more, own, n + 1, [n + 1]);
      assert [n + 1] + [] == [n + 1];
    }
  }

  lemma Flatten(h: Message, s: Message, none: seq<Message>, mid: seq<Message>, rest: seq<Message>)
    requires none == []
    ensures [h] + [s] + (none + (mid + rest)) == [h] + ([s] + mid) + rest
  {
  }

  lemma PartIsPlain(ms: seq<Message>, k: nat)
    requires NoSummaries(ms) && k <= |ms|
    ensures NoSummaries(ms[k..])
  {
  }

  lemma PlainConcat(a: seq<Message>, b: seq<Message>)
    requires NoSummaries(a) && NoSummaries(b)
    ensures NoSummaries(a + b)
  {
  }

  lemma SplitBehindTwo(ms: seq<Message>, keep: nat, own: bool, n: nat, tops: seq<nat>)
    requires keep > 0 && !TooFew(ms, keep) && n > 0 && Shape(ms, own, n, tops) && |tops| == 2
    ensures SplitPoint(Body(ms), keep) > 0
  {
    hide SplitPoint, NumberOf, NoSummaries;
    BehindHead(ms, own, n, tops);
    var body, mid := Body(ms), ms[1..1 + |tops|];
    assert body[0] == mid[0] && body[1] == mid[1];
    FrontStaysIff(body, keep);
    assert body[1].role == System;
  }

  lemma ShapeAppend(ms: seq<Message>, more: seq<Message>, own: bool, n: nat, tops: seq<nat>)
    requires n > 0 && Shape(ms, own, n, tops) && NoSummaries(more)
    ensures Shape(ms + more, own, n, tops)
  {
    hide AreSummaries, NoSummaries, NumberOf;
    var k := 1 + |tops|;
    assert (ms + more)[1..k] == ms[1..k] && (ms + more)[k..] == ms[k..] + more;
    PlainConcat(ms[k..], more);
  }

  lemma NumbersOfShape(ms: seq<Message>, own: bool, n: nat, tops: seq<nat>)
    requires Shape(ms, own, n, tops)
    ensures Numbers(ms) == (if n == 0 || own then [] else [1]) + tops
  {
    hide AreSummaries, NoSummaries, NumberOf, Numbers;
    if n == 0 {
      NoNumbers(ms);
    } else {
      var k := 1 + |tops|;
      var h, mid, rest := ms[0], ms[1..k], ms[k..];
      assert ms == [h] + mid + rest;
      NumbersConcat([h] + mid, rest);
      NumbersConcat([h], mid);
      NumbersAre(mid, tops);
      NoNumbers(rest);
      NumberOne(h);
      assert NumberOf(h) + tops + [] == NumberOf(h) + tops;
    }
  }

  lemma NumberOne(m: Message)
    ensures Numbers([m]) == NumberOf(m)
  {
    assert [m][..0] == [];
    assert Collect(NumberOf, [m]) == Collect(NumberOf, []) + NumberOf(m);
    hide NumberOf;
  }

  lemma {:induction false} Uncompacted(es: seq<Event>, keep: nat)
    requires keep > 0
    ensures Run(es, keep).1 == 0 ==> Run(es, keep).0 == Appended(es)
    ensures |Splits(es, keep)| == Run(es, keep).1
    ensures Run(es, keep).1 > 0 ==> Appended(es) != []
  {
    hide Compact, SplitPoint;
    if es != [] {
      Uncompacted(es[..|es| - 1], keep);
    }
  }

  ghost predicate Follows(es: seq<Event>, keep: nat, tops: seq<nat>)
    requires keep > 0
  {
    var own := OwnHead(Appended(es));
    Shape(Run(es, keep).0, own, Run(es, keep).1, tops) && TopsMatch(tops, Splits(es, keep), own)
  }

  lemma AppendFollows(es: seq<Event>, keep: nat, tops: seq<nat>)
    requires keep > 0 && es != [] && es[|es| - 1].Append? && NoSummaries(es[|es| - 1].messages)
    requires Follows(es[..|es| - 1], keep, tops)
    ensures Follows(es, keep, tops)
  {
    var front, more := es[..|es| - 1], es[|es| - 1].messages;
    var (ms, n) := Run(front, keep);
    Uncompacted(front, keep);
    hide TopsMatch;
    assert Appended(es) == Appended(front) + more;
    assert Run(es, keep) == (ms + more, n) && Splits(es, keep) == Splits(front, keep);
    if n > 0 {
      ShapeAppend(ms, more, OwnHead(Appended(front)), n, tops);
    } else {
      NoTops(tops, OwnHead(Appended(front)), OwnHead(Appended(es)));
    }
  }

  lemma NoTops(tops: seq<nat>, own: bool, own': bool)
    requires TopsMatch(tops, [], own)
    ensures TopsMatch(tops, [], own')
  {
  }

  lemma CompactRuns(es: seq<Event>, keep: nat)
    requires keep > 0 && es != [] && es[|es| - 1].CompactNow?
    ensures var (front, ms, n) := (es[..|es| - 1], Run(es[..|es| - 1], keep).0, Run(es[..|es| - 1], keep).1);
            && Appended(es) == Appended(front)
            && Run(es, keep) == (if TooFew(ms, keep) then (ms, n) else (Compact(ms, keep, n + 1), n + 1))
            && Splits(es, keep) == Splits(front, keep) + if TooFew(ms, keep) then [] else [SplitPoint(Body(ms), keep)]
  {
    hide Compact, SplitPoint;
  }

  lemma CompactFollows(es: seq<Event>, keep: nat, tops: seq<nat>) returns (next: seq<nat>)
    requires keep > 0 && es != [] && es[|es| - 1].CompactNow? && Follows(es[..|es| - 1], keep, tops)
    ensures Follows(es, keep, next)
  {
    hide TopsMatch, Compact, SplitPoint, Shape, NextTops, Run, Splits, Appended, OwnHead, TooFew;
    var front := es[..|es| - 1];
    var (ms, n) := Run(front, keep);
    var own, splits := OwnHead(Appended(front)), Splits(front, keep);
    Uncompacted(front, keep);
    CompactRuns(es, keep);
    if TooFew(ms, keep) {
      next := tops;
      assert splits + [] == splits;
    } else {
      next := CompactTops(ms, keep, own, tops, splits);
    }
  }

  lemma CompactTops(ms: seq<Message>, keep: nat, own: bool, tops: seq<nat>, splits: seq<nat>) returns (next: seq<nat>)
    requires keep > 0 && !TooFew(ms, keep) && Shape(ms, own, |splits|, tops) && TopsMatch(tops, splits, own)
    ensures Shape(Compact(ms, keep, |splits| + 1), own, |splits| + 1, next)
    ensures TopsMatch(next, splits + [SplitPoint(Body(ms), keep)], own)
  {
    hide TopsMatch, Compact, SplitPoint, Shape, NextTops;
    var n, split := |splits|, SplitPoint(Body(ms), keep);
    next := NextTops(tops, own, n, split);
    if n == 0 {
      EmptyTops(ms, own, tops);
      FirstShape(ms, keep, own);
      FirstTops(own, split);
    } else {
      ShapeNext(ms, keep, own, n, tops);
    }
    if |tops| == 2 {
      SplitBehindTwo(ms, keep, own, n, tops);
    }
    TopsNext(tops, splits, own, split);
  }

  lemma EmptyTops(ms: seq<Message>, own: bool, tops: seq<nat>)
    requires Shape(ms, own, 0, tops)
    ensures tops == []
  {
  }

  lemma FirstTops(own: bool, split: nat)
    ensures NextTops([], own, 0, split) == NextTops([], own, 0, 0)
  {
  }

  lemma {:induction false} RunFollows(es: seq<Event>, keep: nat) returns (tops: seq<nat>)
    requires keep > 0 && PlainAppends(es)
    ensures Follows(es, keep, tops)
  {
    if es == [] {
      tops := [];
    } else {
      hide Follows;
      var front := RunFollows(es[..|es| - 1], keep);
      if es[|es| - 1].Append? {
        AppendFollows(es, keep, front);
        tops := front;
      } else {
        tops := CompactFollows(es, keep, front);
      }
    }
  }

  lemma PresentIffListed(tops: seq<nat>, splits: seq<nat>, own: bool, numbers: seq<nat>)
    requires TopsMatch(tops, splits, own)
    requires numbers == (if splits == [] || own then [] else [1]) + tops
    ensures forall j :: j in numbers <==> Present(splits, own, j)
    ensures |numbers| <= if own then 2 else 3
  {
    if splits == [] || (!own && |splits| == 1) {
      NoOlder(splits, own);
    }
    hide Older;
  }

  /** Over any run of appends and compactions: of the summaries made so far the list holds the
      newest, the first if the list had no system message of its own in front, and at most one
      more, exactly if the compaction after it split at 0 and every later one at 1. */
  lemma SummariesInRun(es: seq<Event>, keep: nat)
    requires keep > 0 && PlainAppends(es)
    ensures var numbers := Numbers(Run(es, keep).0);
            && |Splits(es, keep)| == Run(es, keep).1
            && (forall j :: j in numbers <==> Present(Splits(es, keep), OwnHead(Appended(es)), j))
            && |numbers| <= if OwnHead(Appended(es)) then 2 else 3
  {
    hide Run, Splits, Appended, Shape, Numbers, OwnHead, TopsMatch, Present, PlainAppends;
    var tops := RunFollows(es, keep);
    Uncompacted(es, keep);
    NumbersOfShape(Run(es, keep).0, OwnHead(Appended(es)), Run(es, keep).1, tops);
    PresentIffListed(tops, Splits(es, keep), OwnHead(Appended(es)), Numbers(Run(es, keep).0));
  }

  /** For the second summary of a list without a head of its own: from the third compaction on it
      is gone unless that compaction split at 0 and every later one at 1. */
  lemma SecondSummaryGoneIff(es: seq<Event>, keep: nat)
    requires keep > 0 && PlainAppends(es) && |Splits(es, keep)| >= 3 && !OwnHead(Appended(es))
    ensures var splits := Splits(es, keep);
            2 !in Numbers(Run(es, keep).0) <==> splits[2] > 0 || exists i | 2 < i < |splits| :: splits[i] != 1
  {
    hide Run, Splits, Appended, Numbers, OwnHead, PlainAppends;
    SummariesInRun(es, keep);
  }

  // ---------------------------------------------------------------------------------------
  // Lists that do not begin with a tool result
  // ---------------------------------------------------------------------------------------

  /** The first message, behind a leading system message, is no tool result. */
  predicate Fronted(ms: seq<Message>) {
    Body(ms) != [] ==> Body(ms)[0].role != Tool
  }

  /** Between the `tops` summaries behind the head and the newest `keep` messages, the first of
      which counts, some message is no tool result. */
  predicate Anchored(ms: seq<Message>, keep: nat, tops: nat)
    requires keep > 0
  {
    exists i | 1 + tops <= i <= |ms| - keep :: ms[i].role != Tool
  }

  /** The summaries behind the head: the newest, unless it is the head itself. */
  function FrontTops(own: bool, n: nat): seq<nat> {
    if n == 0 || (!own && n == 1) then [] else [n]
  }

  ghost predicate Settled(es: seq<Event>, keep: nat)
    requires keep > 0
  {
    var (ms, n) := Run(es, keep);
    var tops := FrontTops(OwnHead(Appended(es)), n);
    Shape(ms, OwnHead(Appended(es)), n, tops) && (n > 0 ==> Anchored(ms, keep, |tops|))
  }

  lemma FrontedPrefix(a: seq<Message>, b: seq<Message>)
    requires Fronted(a + b)
    ensures Fronted(a)
  {
    if a != [] {
      assert (a + b)[0] == a[0];
      assert |a| > 1 ==> (a + b)[1] == a[1];
    }
  }

  lemma SplitAtFront(body: seq<Message>, keep: nat)
    requires 0 < keep <= |body| && (body[0].role != Tool || SplitPoint(body, keep) > 0)
    ensures body[SplitPoint(body, keep)].role != Tool
  {
    SplitFacts(body, keep);
  }

  lemma ZeroSplit(body: seq<Message>, keep: nat, i: nat)
    requires 0 < keep <= |body| && i <= |body| - keep && body[i].role != Tool && SplitPoint(body, keep) == 0
    ensures body[0].role != Tool
  {
    BackOverToolsFacts(body, |body| - keep);
  }

  lemma SplitBehindSummary(ms: seq<Message>, keep: nat, own: bool, n: nat, tops: seq<nat>)
    requires keep > 0 && !TooFew(ms, keep) && n > 0 && |tops| <= 1
    requires Shape(ms, own, n, tops) && Anchored(ms, keep, |tops|)
    ensures |tops| == 1 ==> SplitPoint(Body(ms), keep) > 0
    ensures Body(ms)[SplitPoint(Body(ms), keep)].role != Tool
  {
    hide SplitPoint, NumberOf, NoSummaries;
    BehindHead(ms, own, n, tops);
    var body := Body(ms);
    var i :| 1 + |tops| <= i <= |ms| - keep && ms[i].role != Tool;
    assert body[i - 1] == ms[i];
    if |tops| == 1 {
      assert body[0] == ms[1..1 + |tops|][0];
      FrontStaysIff(body, keep);
    } else if SplitPoint(body, keep) == 0 {
      ZeroSplit(body, keep, i - 1);
    }
    SplitAtFront(body, keep);
  }

  lemma CompactAnchors(ms: seq<Message>, keep: nat, number: nat, tops: nat)
    requires keep > 0 && !TooFew(ms, keep) && tops <= |Head(ms)|
    requires Body(ms)[SplitPoint(Body(ms), keep)].role != Tool
    ensures Anchored(Compact(ms, keep, number), keep, tops)
  {
    hide SplitPoint, Summarize, Errors;
    var r, recent := Compact(ms, keep, number), Recent(ms, keep);
    var p := |Head(ms)| + 1 + |Errors(Old(ms, keep))|;
    assert r[p] == recent[0];
  }

  lemma FirstSettles(ms: seq<Message>, keep: nat, own: bool)
    requires keep > 0 && !TooFew(ms, keep) && Shape(ms, own, 0, []) && Fronted(ms)
    ensures Shape(Compact(ms, keep, 1), own, 1, FrontTops(own, 1))
    ensures Anchored(Compact(ms, keep, 1), keep, |FrontTops(own, 1)|)
  {
    hide Shape, Compact, SplitPoint, Anchored;
    FirstShape(ms, keep, own);
    assert NextTops([], own, 0, 0) == FrontTops(own, 1);
    FreshList(ms, own);
    SplitAtFront(Body(ms), keep);
    CompactAnchors(ms, keep, 1, |FrontTops(own, 1)|);
  }

  lemma NextSettles(ms: seq<Message>, keep: nat, own: bool, n: nat)
    requires keep > 0 && !TooFew(ms, keep) && n > 0 && Shape(ms, own, n, FrontTops(own, n))
    requires Anchored(ms, keep, |FrontTops(own, n)|)
    ensures Shape(Compact(ms, keep, n + 1), own, n + 1, [n + 1])
    ensures Anchored(Compact(ms, keep, n + 1), keep, 1)
  {
    hide Shape, Compact, SplitPoint, Anchored;
    var tops := FrontTops(own, n);
    SplitBehindSummary(ms, keep, own, n, tops);
    ShapeNext(ms, keep, own, n, tops);
    assert NextTops(tops, own, n, SplitPoint(Body(ms), keep)) == [n + 1];
    BehindHead(ms, own, n, tops);
    CompactAnchors(ms, keep, n + 1, 1);
  }

  lemma AppendSettles(es: seq<Event>, keep: nat)
    requires keep > 0 && es != [] && es[|es| - 1].Append? && NoSummaries(es[|es| - 1].messages)
    requires Settled(es[..|es| - 1], keep)
    ensures Settled(es, keep)
  {
    var front, more := es[..|es| - 1], es[|es| - 1].messages;
    var (ms, n) := Run(front, keep);
    var own := OwnHead(Appended(front));
    Uncompacted(front, keep);
    assert Appended(es) == Appended(front) + more && Run(es, keep) == (ms + more, n);
    if n > 0 {
      assert OwnHead(Appended(es)) == own;
      ShapeAppend(ms, more, own, n, FrontTops(own, n));
      StaysAnchored(ms, more, keep, |FrontTops(own, n)|);
    } else {
      PlainConcat(Appended(front), more);
    }
    hide NoSummaries, Anchored, AreSummaries;
  }

  lemma StaysAnchored(ms: seq<Message>, more: seq<Message>, keep: nat, tops: nat)
    requires keep > 0 && Anchored(ms, keep, tops)
    ensures Anchored(ms + more, keep, tops)
  {
    var i :| 1 + tops <= i <= |ms| - keep && ms[i].role != Tool;
    assert (ms + more)[i] == ms[i];
  }

  lemma CompactSettles(es: seq<Event>, keep: nat)
    requires keep > 0 && es != [] && es[|es| - 1].CompactNow? && Settled(es[..|es| - 1], keep)
    requires Fronted(Appended(es))
    ensures Settled(es, keep)
  {
    hide Compact, SplitPoint, Shape, Anchored, Run, Splits, Appended, OwnHead, Fronted;
    var front := es[..|es| - 1];
    var (ms, n) := Run(front, keep);
    Uncompacted(front, keep);
    CompactRuns(es, keep);
    if !TooFew(ms, keep) {
      if n == 0 {
        FirstSettles(ms, keep, OwnHead(Appended(front)));
      } else {
        NextSettles(ms, keep, OwnHead(Appended(front)), n);
      }
    }
  }

  lemma {:induction false} RunSettles(es: seq<Event>, keep: nat)
    requires keep > 0 && PlainAppends(es) && Fronted(Appended(es))
    ensures Settled(es, keep)
  {
    hide Settled, Fronted, Run;
    if es == [] {
      EmptySettles(keep);
    } else {
      var front := es[..|es| - 1];
      match es[|es| - 1]
      case Append(more) =>
        FrontedPrefix(Appended(front), more);
        RunSettles(front, keep);
        AppendSettles(es, keep);
      case CompactNow(_) =>
        assert Appended(front) + [] == Appended(front);
        RunSettles(front, keep);
        CompactSettles(es, keep);
    }
  }

  lemma EmptySettles(keep: nat)
    requires keep > 0
    ensures Settled([], keep)
  {
  }

  /** Over any run of appends and compactions in which the first message, behind a leading system
      message, is no tool result: of all summaries made the list holds the newest and, if there
      is no such system message, the first.  Nothing of the others is left. */
  lemma SummariesKept(es: seq<Event>, keep: nat)
    requires keep > 0 && PlainAppends(es) && Fronted(Appended(es))
    ensures var (ms, n) := Run(es, keep);
            forall j :: j in Numbers(ms) <==> n > 0 && (j == n || (!OwnHead(Appended(es)) && j == 1))
  {
    hide Run, Appended, Numbers, OwnHead, PlainAppends, Fronted, Shape;
    RunSettles(es, keep);
    var (ms, n) := Run(es, keep);
    NumbersOfShape(ms, OwnHead(Appended(es)), n, FrontTops(OwnHead(Appended(es)), n));
  }

  lemma CompactAtZero(ms: seq<Message>, keep: nat, number: nat)
    requires keep > 0 && !TooFew(ms, keep) && SplitPoint(Body(ms), keep) == 0
    ensures Compact(ms, keep, number) == Head(ms) + [Summarize([], number)] + Body(ms)
  {
    hide SplitPoint, Summarize, IsError;
    assert Old(ms, keep) == [] && Errors([]) == [];
  }

  lemma RunCompacts(es: seq<Event>, keep: nat, ms: seq<Message>, n: nat)
    requires keep > 0 && Run(es, keep) == (ms, n) && !TooFew(ms, keep) && SplitPoint(Body(ms), keep) == 0
    ensures Run(es + [CompactNow(0)], keep) == (Head(ms) + [Summarize([], n + 1)] + Body(ms), n + 1)
  {
    hide SplitPoint, Summarize, Compact;
    assert (es + [CompactNow(0)])[..|es|] == es;
    CompactAtZero(ms, keep, n + 1);
  }

  lemma ResultsSplit(results: seq<Message>)
    requires |results| == 4 && forall i | 0 <= i < 4 :: results[i].role == Tool
    ensures SplitPoint(results, 1) == 0
  {
    BackOverToolsFacts(results, 3);
  }

  lemma RunAppends(ms: seq<Message>, keep: nat)
    requires keep > 0
    ensures Run([Append(ms)], keep) == (ms, 0)
  {
    assert [Append(ms)][..0] == [] && [] + ms == ms;
  }

  /** In a list of tool results alone the second summary does survive the third compaction. */
  lemma OlderSummaryStays(text: string)
    ensures var r := Message(Tool, Text(text), [], "");
            Numbers(Run([Append([r, r, r, r]), CompactNow(0), CompactNow(0), CompactNow(0)], 1).0) == [1, 3, 2]
  {
    hide Run, Numbers;
    var r := Message(Tool, Text(text), [], "");
    var rs, c := [r, r, r, r], CompactNow(0);
    RunAppends(rs, 1);
    ThreeCompactions([Append(rs)], rs);
    assert [Append(rs)] + [c] + [c] + [c] == [Append(rs), c, c, c];
  }

  lemma ThreeCompactions(es: seq<Event>, rs: seq<Message>)
    requires Run(es, 1) == (rs, 0) && |rs| == 4 && NoSummaries(rs) && forall i | 0 <= i < 4 :: rs[i].role == Tool
    ensures Numbers(Run(es + [CompactNow(0)] + [CompactNow(0)] + [CompactNow(0)], 1).0) == [1, 3, 2]
  {
    hide Run, SplitPoint, Summarize, Numbers, Compact, AreSummaries, NoSummaries;
    var c, s1, s2, s3 := CompactNow(0), Summarize([], 1), Summarize([], 2), Summarize([], 3);
    NewSummary([], 1);
    NewSummary([], 2);
    NewSummary([], 3);
    ResultsSplit(rs);
    RunCompacts(es, 1, rs, 0);
    BehindSystem(s1, rs);
    assert Head(rs) + [s1] + Body(rs) == [s1] + rs;
    RunCompacts(es + [c], 1, [s1] + rs, 1);
    var two := [s1] + [s2] + rs;
    BehindSystem(s1, [s2] + rs);
    assert two == [s1] + ([s2] + rs);
    SummaryThenResults(s2, rs);
    RunCompacts(es + [c] + [c], 1, two, 2);
    ThreeNumbers(s1, s3, s2, rs);
  }

  lemma BehindSystem(s: Message, rest: seq<Message>)
    requires AreSummaries([s], [1])
    ensures Head([s] + rest) == [s] && Body([s] + rest) == rest
  {
    assert [s][0].role == System;
  }

  lemma SummaryThenResults(s: Message, rs: seq<Message>)
    requires AreSummaries([s], [2]) && |rs| == 4 && forall i | 0 <= i < 4 :: rs[i].role == Tool
    ensures SplitPoint([s] + rs, 1) == 0
  {
    hide SplitPoint;
    assert [s][0].role == System;
    FrontStaysIff([s] + rs, 1);
  }

  lemma ThreeNumbers(a: Message, b: Message, c: Message, rs: seq<Message>)
    requires AreSummaries([a], [1]) && AreSummaries([b], [3]) && AreSummaries([c], [2]) && NoSummaries(rs)
    ensures Numbers([a] + [b] + ([c] + rs)) == [1, 3, 2]
  {
    hide Numbers, AreSummaries, NoSummaries;
    NumbersConcat([a] + [b], [c] + rs);
    NumbersConcat([a], [b]);
    NumbersConcat([c], rs);
    NumbersAre([a], [1]);
    NumbersAre([b], [3]);
    NumbersAre([c], [2]);
    NoNumbers(rs);
  }
}
