/**
 Promotion of repeated task patterns (core/golden_paths.py, class `GoldenPathStore`).

 `Store` is the JSON file: candidates by pattern signature and the list of promoted ones.  The
 reference looks at the full history of accepted outcomes; the file keeps counters over all of
 them and the newest fifty.
 */
module Promotion {
  import opened Common

  const MIN_SUCCESSES: nat := 3
  const MAX_OUTCOMES: nat := 50

  datatype Verdict = Success | Failure | Partial

  datatype Outcome = Outcome(runId: string, signature: string, verdict: Verdict, testsPassed: bool, rollback: bool)

  datatype Candidate = Candidate(
    signature: string, caption: string, outcomes: seq<Outcome>,
    promoted: bool, requiresApproval: bool, approved: bool, approvedBy: Option<string>,
    totalRuns: nat, successCount: nat, testsPassedCount: nat, rollbackCount: nat)

  datatype Reason =
    | AlreadyPromoted | TooFewSuccesses | TestsNotPassed | RolledBack | WaitingForApproval | AllMet | DuplicateRun

  // ---------------------------------------------------------------------------------------
  // One candidate
  // ---------------------------------------------------------------------------------------

  function Newest(h: seq<Outcome>): seq<Outcome> {
    if |h| > MAX_OUTCOMES then h[|h| - MAX_OUTCOMES..] else h
  }

  predicate HasRun(h: seq<Outcome>, runId: string) {
    exists i | 0 <= i < |h| :: h[i].runId == runId
  }

  predicate Tested(o: Outcome) {
    o.verdict == Success && o.testsPassed
  }

  /** Every successful run in the list passed its tests. */
  predicate SuccessesTested(h: seq<Outcome>) {
    forall i | 0 <= i < |h| && h[i].verdict == Success :: h[i].testsPassed
  }

  function Assess(c: Candidate): Reason {
    if c.promoted then AlreadyPromoted
    else if c.successCount < MIN_SUCCESSES then TooFewSuccesses
    else if !SuccessesTested(c.outcomes) then TestsNotPassed
    else if c.rollbackCount > 0 then RolledBack
    else if c.requiresApproval && !c.approved then WaitingForApproval
    else AllMet
  }

  function Count(c: bool): nat {
    if c then 1 else 0
  }

  function Accept(c: Candidate, o: Outcome): Candidate {
    c.(outcomes := Newest(c.outcomes + [o]),
       totalRuns := c.totalRuns + 1,
       successCount := c.successCount + Count(o.verdict == Success),
       testsPassedCount := c.testsPassedCount + Count(Tested(o)),
       rollbackCount := c.rollbackCount + Count(o.rollback))
  }

  function NewCandidate(signature: string, caption: string, requiresApproval: bool): Candidate {
    Candidate(signature, caption, [], false, requiresApproval, false, None, 0, 0, 0, 0)
  }

  // ---------------------------------------------------------------------------------------
  // The store
  // ---------------------------------------------------------------------------------------

  datatype Data = Data(candidates: map<string, Candidate>, promoted: seq<string>)

  /** The arguments of `record_outcome`. */
  datatype Report = Report(outcome: Outcome, caption: string, requiresApproval: bool)

  function Evaluate(d: Data, c: Candidate): (Data, Reason) {
    var why := Assess(c);
    if why != AllMet then (d.(candidates := d.candidates[c.signature := c]), why)
    else
      var c' := c.(promoted := true);
      (Data(d.candidates[c.signature := c'],
            if c.signature in d.promoted then d.promoted else d.promoted + [c.signature]), why)
  }

  function CandidateFor(d: Data, r: Report): Candidate {
    var sig := r.outcome.signature;
    var c := if sig in d.candidates then d.candidates[sig] else NewCandidate(sig, r.caption, r.requiresApproval);
    if r.requiresApproval then c.(requiresApproval := true) else c
  }

  function Record(d: Data, r: Report): (Data, Reason) {
    var c := CandidateFor(d, r);
    if HasRun(c.outcomes, r.outcome.runId) then (d.(candidates := d.candidates[r.outcome.signature := c]), DuplicateRun)
    else Evaluate(d, Accept(c, r.outcome))
  }

  /** The flag tells whether the candidate is promoted afterwards. */
  function Approve(d: Data, sig: string, user: string): (Data, bool) {
    if sig !in d.candidates then (d, false)
    else
      var (d', why) := Evaluate(d, d.candidates[sig].(approved := true, approvedBy := Some(user)));
      (d', why == AllMet || why == AlreadyPromoted)
  }

  class Store {
    var data: Data

    constructor ()
      ensures data == Data(map[], [])
    {
      data := Data(map[], []);
    }

    method EvaluatePromotion(c: Candidate) returns (why: Reason)
      modifies this
      ensures (data, why) == Evaluate(old(data), c)
    {
      data := data.(candidates := data.candidates[c.signature := c]);
      if c.promoted {
        return AlreadyPromoted;
      }
      if c.successCount < MIN_SUCCESSES {
        return TooFewSuccesses;
      }
      if !SuccessesTested(c.outcomes) {
        return TestsNotPassed;
      }
      if c.rollbackCount > 0 {
        return RolledBack;
      }
      if c.requiresApproval && !c.approved {
        return WaitingForApproval;
      }
      data := data.(candidates := data.candidates[c.signature := c.(promoted := true)]);
      if c.signature !in data.promoted {
        data := data.(promoted := data.promoted + [c.signature]);
      }
      assert data.candidates == old(data).candidates[c.signature := c.(promoted := true)];
      return AllMet;
    }

    method RecordOutcome(r: Report) returns (why: Reason)
      modifies this
      ensures (data, why) == Record(old(data), r)
    {
      var o, sig := r.outcome, r.outcome.signature;
      var c: Candidate;
      if sig !in data.candidates {
        c := NewCandidate(sig, r.caption, r.requiresApproval);
      } else {
        c := data.candidates[sig];
      }
      if r.requiresApproval {
        c := c.(requiresApproval := true);
      }
      if HasRun(c.outcomes, o.runId) {
        data := data.(candidates := data.candidates[sig := c]);
        return DuplicateRun;
      }
      c := AcceptOutcome(c, o);
      why := EvaluatePromotion(c);
    }

    method AcceptOutcome(c: Candidate, o: Outcome) returns (c': Candidate)
      ensures c' == Accept(c, o)
    {
      var outcomes, totalRuns := c.outcomes + [o], c.totalRuns + 1;
      var successes, tested, rollbacks := c.successCount, c.testsPassedCount, c.rollbackCount;
      if o.verdict == Success {
        successes := successes + 1;
      }
      if o.verdict == Success && o.testsPassed {
        tested := tested + 1;
      }
      if o.rollback {
        rollbacks := rollbacks + 1;
      }
      if |outcomes| > MAX_OUTCOMES {
        outcomes := outcomes[|outcomes| - MAX_OUTCOMES..];
      }
      assert successes == c.successCount + Count(o.verdict == Success);
      assert tested == c.testsPassedCount + Count(Tested(o)) && rollbacks == c.rollbackCount + Count(o.rollback);
      hide Count, Tested;
      c' := c.(outcomes := outcomes, totalRuns := totalRuns, successCount := successes,
               testsPassedCount := tested, rollbackCount := rollbacks);
    }

    method ApproveCandidate(sig: string, user: string) returns (promoted: bool)
      modifies this
      ensures (data, promoted) == Approve(old(data), sig, user)
    {
      if sig !in data.candidates {
        return false;
      }
      var why := EvaluatePromotion(data.candidates[sig].(approved := true, approvedBy := Some(user)));
      return why == AllMet || why == AlreadyPromoted;
    }
  }

  // ---------------------------------------------------------------------------------------
  // Runs and their reference
  // ---------------------------------------------------------------------------------------

  datatype Event = Recorded(report: Report) | Approved(signature: string, user: string)

  function Step(d: Data, e: Event): Data {
    match e
    case Recorded(r) => Record(d, r).0
    case Approved(sig, user) => Approve(d, sig, user).0
  }

  function Run(es: seq<Event>): Data {
    if es == [] then Data(map[], []) else Step(Run(es[..|es| - 1]), es[|es| - 1])
  }

  predicate About(e: Event, sig: string) {
    match e
    case Recorded(r) => r.outcome.signature == sig
    case Approved(s, _) => s == sig
  }

  /** What the reference knows of one pattern: whether it was ever reported, its accepted
      outcomes, the two approval flags, and whether it has met all criteria at some evaluation. */
  datatype View = View(known: bool, accepted: seq<Outcome>, approvalNeeded: bool, approved: bool, promoted: bool)

  function CountIf(h: seq<Outcome>, p: Outcome -> bool): nat {
    if h == [] then 0 else CountIf(h[..|h| - 1], p) + Count(p(h[|h| - 1]))
  }

  function Succeeded(): Outcome -> bool {
    (o: Outcome) => o.verdict == Success
  }

  function RolledBackRun(): Outcome -> bool {
    (o: Outcome) => o.rollback
  }

  function PassedTests(): Outcome -> bool {
    (o: Outcome) => Tested(o)
  }

  /** The newest fifty outcomes, or all of them. */
  function NewestFifty(h: seq<Outcome>): seq<Outcome> {
    h[if |h| <= 50 then 0 else |h| - 50..]
  }

  /** The criteria the program applies, over the full accepted history. */
  predicate Criteria(v: View) {
    && CountIf(v.accepted, Succeeded()) >= 3
    && SuccessesTested(NewestFifty(v.accepted))
    && CountIf(v.accepted, RolledBackRun()) == 0
    && (v.approvalNeeded ==> v.approved)
  }

  function Judge(v: View): View {
    v.(promoted := v.promoted || Criteria(v))
  }

  function ViewStep(v: View, e: Event): View {
    match e
    case Recorded(r) =>
      var v := v.(known := true, approvalNeeded := v.approvalNeeded || r.requiresApproval);
      if HasRun(NewestFifty(v.accepted), r.outcome.runId) then v else Judge(v.(accepted := v.accepted + [r.outcome]))
    case Approved(_, _) => if v.known then Judge(v.(approved := true)) else v
  }

  function Reference(es: seq<Event>, sig: string): View {
    if es == [] then View(false, [], false, false, false)
    else
      var v := Reference(es[..|es| - 1], sig);
      if About(es[|es| - 1], sig) then ViewStep(v, es[|es| - 1]) else v
  }

  /** A stored candidate against the full history. */
  predicate Matches(d: Data, sig: string, v: View) {
    && (sig in d.candidates <==> v.known)
    && (!v.known ==> v == View(false, [], false, false, false))
    && (v.known ==>
          var c := d.candidates[sig];
          && c.signature == sig
          && c.outcomes == NewestFifty(v.accepted)
          && c.totalRuns == |v.accepted|
          && c.successCount == CountIf(v.accepted, Succeeded())
          && c.testsPassedCount == CountIf(v.accepted, PassedTests())
          && c.rollbackCount == CountIf(v.accepted, RolledBackRun())
          && c.requiresApproval == v.approvalNeeded
          && c.approved == v.approved
          && c.promoted == v.promoted)
    && (sig in d.promoted <==> v.promoted)
  }

  lemma NewestIsFifty(h: seq<Outcome>)
    ensures Newest(h) == NewestFifty(h)
  {
  }

  lemma CountIfNext(h: seq<Outcome>, o: Outcome, p: Outcome -> bool)
    ensures CountIf(h + [o], p) == CountIf(h, p) + Count(p(o))
  {
    assert (h + [o])[..|h|] == h;
  }

  lemma NewestNext(h: seq<Outcome>, o: Outcome)
    ensures Newest(Newest(h) + [o]) == Newest(h + [o])
  {
  }

  lemma EvaluateMatches(d: Data, c: Candidate, sig: string, v: View)
    requires v.known && Matches(d.(candidates := d.candidates[sig := c]), sig, v)
    ensures Matches(Evaluate(d, c).0, sig, Judge(v))
  {
    hide CountIf, Newest, SuccessesTested;
    var d' := d.(candidates := d.candidates[sig := c]);
    assert d'.candidates[sig] == c;
    assert Assess(c) == AllMet <==> !v.promoted && Criteria(v);
  }

  lemma AcceptMatches(d: Data, c: Candidate, o: Outcome, sig: string, v: View)
    requires v.known && Matches(d.(candidates := d.candidates[sig := c]), sig, v)
    ensures Matches(d.(candidates := d.candidates[sig := Accept(c, o)]), sig, v.(accepted := v.accepted + [o]))
  {
    assert d.candidates[sig := c][sig] == c && d.candidates[sig := Accept(c, o)][sig] == Accept(c, o);
    CountIfNext(v.accepted, o, Succeeded());
    CountIfNext(v.accepted, o, PassedTests());
    CountIfNext(v.accepted, o, RolledBackRun());
    NewestNext(v.accepted, o);
    hide CountIf, Newest, Tested;
  }

  lemma ReportMatches(d: Data, r: Report, v: View)
    requires Matches(d, r.outcome.signature, v)
    ensures Matches(d.(candidates := d.candidates[r.outcome.signature := CandidateFor(d, r)]), r.outcome.signature,
                    v.(known := true, approvalNeeded := v.approvalNeeded || r.requiresApproval))
  {
    assert d.candidates[r.outcome.signature := CandidateFor(d, r)][r.outcome.signature] == CandidateFor(d, r);
  }

  lemma StepMatches(d: Data, e: Event, sig: string, v: View)
    requires Matches(d, sig, v) && About(e, sig)
    ensures Matches(Step(d, e), sig, ViewStep(v, e))
  {
    match e
    case Recorded(r) =>
      ReportMatches(d, r, v);
      var c := CandidateFor(d, r);
      var v' := v.(known := true, approvalNeeded := v.approvalNeeded || r.requiresApproval);
      assert d.candidates[sig := c][sig] == c;
      hide Matches, Judge, Evaluate, CandidateFor, Accept;
      MatchesOutcomes(d.(candidates := d.candidates[sig := c]), sig, v');
      if !HasRun(Newest(v'.accepted), r.outcome.runId) {
        AcceptMatches(d, c, r.outcome, sig, v');
        EvaluateMatches(d, Accept(c, r.outcome), sig, v'.(accepted := v'.accepted + [r.outcome]));
      }
    case Approved(_, user) =>
      if v.known {
        var c := d.candidates[sig].(approved := true, approvedBy := Some(user));
        assert d.candidates[sig := c][sig] == c;
        assert Matches(d.(candidates := d.candidates[sig := c]), sig, v.(approved := true));
        EvaluateMatches(d, c, sig, v.(approved := true));
      }
  }

  lemma MatchesOutcomes(d: Data, sig: string, v: View)
    requires Matches(d, sig, v) && v.known
    ensures && sig in d.candidates
            && d.candidates[sig].outcomes == Newest(v.accepted)
            && d.candidates[sig].signature == sig
  {
  }

  /** Patterns do not interfere. */
  lemma StepElsewhere(d: Data, e: Event, sig: string, v: View)
    requires Matches(d, sig, v) && !About(e, sig) && SignaturesFit(d)
    ensures Matches(Step(d, e), sig, v)
  {
    hide CountIf, Newest;
  }

  predicate SignaturesFit(d: Data) {
    forall s | s in d.candidates :: d.candidates[s].signature == s
  }

  lemma {:induction false} RunFits(es: seq<Event>)
    ensures SignaturesFit(Run(es))
  {
    if es != [] {
      RunFits(es[..|es| - 1]);
    }
  }

  /** Over any run, for every pattern: the counters are the counts over all accepted outcomes, the
      stored outcomes are the newest fifty, and the promotion flag, as well as membership in the
      list of promoted patterns, says exactly whether some evaluation met all criteria. */
  lemma {:induction false} RunMatches(es: seq<Event>, sig: string)
    ensures Matches(Run(es), sig, Reference(es, sig))
  {
    if es != [] {
      var front, e := es[..|es| - 1], es[|es| - 1];
      RunMatches(front, sig);
      hide Matches;
      if About(e, sig) {
        StepMatches(Run(front), e, sig, Reference(front, sig));
      } else {
        RunFits(front);
        StepElsewhere(Run(front), e, sig, Reference(front, sig));
      }
    }
  }

  // ---------------------------------------------------------------------------------------
  // What follows for whole runs
  // ---------------------------------------------------------------------------------------

  /** Every state change that could meet the criteria is evaluated at once. */
  lemma {:induction false} CriteriaArePromoted(es: seq<Event>, sig: string)
    ensures Criteria(Reference(es, sig)) ==> Reference(es, sig).promoted
    ensures !Reference(es, sig).known ==> Reference(es, sig) == View(false, [], false, false, false)
  {
    if es != [] {
      CriteriaArePromoted(es[..|es| - 1], sig);
      hide CountIf, Newest, SuccessesTested, HasRun;
    }
  }

  /** The reason returned for a report after any run: a run id among the newest fifty outcomes comes
      first, then an earlier promotion, then the first criterion that fails, with this outcome
      counted in. */
  lemma ReasonOfReport(es: seq<Event>, r: Report)
    ensures var v := Reference(es, r.outcome.signature);
            var h := v.accepted + [r.outcome];
            Record(Run(es), r).1
            == if HasRun(NewestFifty(v.accepted), r.outcome.runId) then DuplicateRun
               else if v.promoted then AlreadyPromoted
               else if CountIf(h, Succeeded()) < 3 then TooFewSuccesses
               else if !SuccessesTested(NewestFifty(h)) then TestsNotPassed
               else if CountIf(h, RolledBackRun()) > 0 then RolledBack
               else if (v.approvalNeeded || r.requiresApproval) && !v.approved then WaitingForApproval
               else AllMet
  {
    var (d, sig, o) := (Run(es), r.outcome.signature, r.outcome);
    var v, c := Reference(es, sig), CandidateFor(d, r);
    RunMatches(es, sig);
    ReportMatches(d, r, v);
    var v' := v.(known := true, approvalNeeded := v.approvalNeeded || r.requiresApproval);
    assert d.candidates[sig := c][sig] == c;
    AcceptMatches(d, c, o, sig, v');
    assert d.candidates[sig := Accept(c, o)][sig] == Accept(c, o);
    hide Run, Reference, CandidateFor, CountIf, Accept, SuccessesTested, HasRun;
  }

  /** A pattern is promoted exactly when at some moment of the run it met all criteria at once. */
  lemma {:induction false} PromotedIffCriteriaMet(es: seq<Event>, sig: string)
    ensures Reference(es, sig).promoted <==> exists k | 0 <= k <= |es| :: Criteria(Reference(es[..k], sig))
  {
    hide Criteria, ViewStep;
    if es == [] {
      assert es[..0] == [];
      CriteriaArePromoted(es, sig);
    } else {
      var n := |es| - 1;
      var front := es[..n];
      PromotedIffCriteriaMet(front, sig);
      CriteriaArePromoted(es, sig);
      PromotedNext(Reference(front, sig), es[n]);
      hide Reference;
      assert forall k | 0 <= k <= n :: front[..k] == es[..k];
      assert es[..n + 1] == es;
      if Reference(es, sig).promoted && Reference(front, sig).promoted {
        var k :| 0 <= k <= n && Criteria(Reference(front[..k], sig));
        assert Criteria(Reference(es[..k], sig));
      }
    }
  }

  lemma PromotedNext(v: View, e: Event)
    ensures ViewStep(v, e).promoted <==> v.promoted || (ViewStep(v, e).promoted && Criteria(ViewStep(v, e)))
    ensures v.accepted <= ViewStep(v, e).accepted
    ensures CountIf(ViewStep(v, e).accepted, RolledBackRun()) >= CountIf(v.accepted, RolledBackRun())
  {
    hide CountIf, Newest, SuccessesTested, HasRun, RolledBackRun;
    match e
    case Recorded(r) => CountIfNext(v.accepted, r.outcome, RolledBackRun());
    case Approved(_, _) =>
  }

  /** What `v` says for good about any later view `w`. */
  predicate Lasts(v: View, w: View) {
    && (v.promoted ==> w.promoted)
    && v.accepted <= w.accepted
    && CountIf(w.accepted, RolledBackRun()) >= CountIf(v.accepted, RolledBackRun())
    && (!v.promoted && CountIf(v.accepted, RolledBackRun()) > 0 ==> !w.promoted)
  }

  lemma StepLasts(v: View, e: Event)
    ensures Lasts(v, ViewStep(v, e))
  {
    PromotedNext(v, e);
    hide CountIf, ViewStep, SuccessesTested, Newest;
  }

  lemma LastsTransitively(u: View, v: View, w: View)
    requires Lasts(u, v) && Lasts(v, w)
    ensures Lasts(u, w)
  {
    hide CountIf;
  }

  lemma {:induction false} ReferenceLasts(es: seq<Event>, more: seq<Event>, sig: string)
    ensures Lasts(Reference(es, sig), Reference(es + more, sig))
  {
    hide Lasts;
    if more == [] {
      assert es + more == es;
      LastsItself(Reference(es, sig));
    } else {
      var n := |more| - 1;
      ReferenceLasts(es, more[..n], sig);
      assert (es + more)[..|es| + n] == es + more[..n];
      var v := Reference(es + more[..n], sig);
      StepLasts(v, more[n]);
      LastsTransitively(Reference(es, sig), v, ViewStep(v, more[n]));
    }
  }

  lemma LastsItself(v: View)
    ensures Lasts(v, v)
  {
  }

  /** Promotion is permanent, and a rollback before promotion blocks it for good. */
  lemma PromotionAndRollbackAreFinal(es: seq<Event>, more: seq<Event>, sig: string)
    ensures Reference(es, sig).promoted ==> Reference(es + more, sig).promoted
    ensures Reference(es, sig).accepted <= Reference(es + more, sig).accepted
    ensures CountIf(Reference(es + more, sig).accepted, RolledBackRun())
            >= CountIf(Reference(es, sig).accepted, RolledBackRun())
    ensures !Reference(es, sig).promoted && CountIf(Reference(es, sig).accepted, RolledBackRun()) > 0
            ==> !Reference(es + more, sig).promoted
  {
    hide Reference, CountIf;
    ReferenceLasts(es, more, sig);
  }

  /** A run id is refused while it is among the newest fifty, so equal ids are more than fifty
      acceptances apart. */
  lemma {:induction false} EqualRunIdsAreFarApart(es: seq<Event>, sig: string, i: nat, j: nat)
    requires i < j < |Reference(es, sig).accepted|
    requires Reference(es, sig).accepted[i].runId == Reference(es, sig).accepted[j].runId
    ensures j - i > 50
  {
    hide CountIf, Criteria, ViewStep, HasRun;
    var front := es[..|es| - 1];
    var h := Reference(front, sig).accepted;
    AcceptedNext(Reference(front, sig), es[|es| - 1]);
    if j < |h| {
      EqualRunIdsAreFarApart(front, sig, i, j);
    } else if |h| - i <= 50 {
      NewestHas(h, i);
    }
  }

  lemma AcceptedNext(v: View, e: Event)
    ensures ViewStep(v, e).accepted
            == if e.Recorded? && !HasRun(NewestFifty(v.accepted), e.report.outcome.runId)
               then v.accepted + [e.report.outcome] else v.accepted
  {
    hide Criteria, HasRun, NewestFifty;
  }

  lemma NewestHas(h: seq<Outcome>, i: nat)
    requires i < |h| <= i + 50
    ensures HasRun(NewestFifty(h), h[i].runId)
  {
    var recent := NewestFifty(h);
    assert recent[i - (|h| - |recent|)] == h[i];
  }

  predicate NoDuplicates(s: seq<string>) {
    forall i, j | 0 <= i < j < |s| :: s[i] != s[j]
  }

  /** The list of promoted patterns holds no pattern twice. */
  lemma {:induction false} PromotedListDistinct(es: seq<Event>)
    ensures NoDuplicates(Run(es).promoted)
  {
    if es != [] {
      PromotedListDistinct(es[..|es| - 1]);
      hide Assess, Accept, HasRun;
    }
  }

  // ---------------------------------------------------------------------------------------
  // The tests criterion: all successful runs, or the newest fifty
  // ---------------------------------------------------------------------------------------

  lemma SuccessesTestedNext(front: seq<Outcome>, last: Outcome)
    ensures SuccessesTested(front + [last])
            <==> SuccessesTested(front) && (last.verdict == Success ==> last.testsPassed)
  {
    var h := front + [last];
    assert forall i | 0 <= i < |front| :: h[i] == front[i];
    assert h[|front|] == last;
  }

  lemma {:induction false} CountersDecide(h: seq<Outcome>)
    ensures CountIf(h, PassedTests()) <= CountIf(h, Succeeded())
    ensures SuccessesTested(h) <==> CountIf(h, PassedTests()) == CountIf(h, Succeeded())
  {
    if h != [] {
      hide SuccessesTested, CountIf;
      var front, last := h[..|h| - 1], h[|h| - 1];
      assert h == front + [last];
      CountersDecide(front);
      SuccessesTestedNext(front, last);
      CountIfNext(front, last, PassedTests());
      CountIfNext(front, last, Succeeded());
    } else {
      NothingToTest();
    }
  }

  lemma NothingToTest()
    ensures SuccessesTested([]) && CountIf([], PassedTests()) == 0 == CountIf([], Succeeded())
  {
  }

  lemma NewestTested(h: seq<Outcome>)
    requires SuccessesTested(h)
    ensures SuccessesTested(Newest(h))
  {
    var k := |h| - |Newest(h)|;
    assert forall i | 0 <= i < |Newest(h)| :: Newest(h)[i] == h[k + i];
  }

  /** The documented criterion is that every successful run passed its tests.  The two lifetime
      counters decide it; what is evaluated instead covers the newest fifty outcomes, is implied
      by it, and is the same as long as nothing was dropped. */
  lemma TestsCriterion(h: seq<Outcome>)
    ensures CountIf(h, PassedTests()) <= CountIf(h, Succeeded())
    ensures SuccessesTested(h) <==> CountIf(h, PassedTests()) == CountIf(h, Succeeded())
    ensures SuccessesTested(h) ==> SuccessesTested(Newest(h))
    ensures |h| <= 50 ==> Newest(h) == h
  {
    hide SuccessesTested, CountIf;
    CountersDecide(h);
    if SuccessesTested(h) {
      NewestTested(h);
    }
  }

  /** The two readings of the criterion agree for a stored candidate exactly when its counters are
      equal or some success among its stored outcomes failed its tests. */
  lemma TestsCriterionAgreesIff(es: seq<Event>, sig: string)
    requires sig in Run(es).candidates
    ensures var (c, h) := (Run(es).candidates[sig], Reference(es, sig).accepted);
            (SuccessesTested(h) <==> SuccessesTested(c.outcomes))
            <==> c.testsPassedCount == c.successCount || !SuccessesTested(c.outcomes)
  {
    RunMatches(es, sig);
    TestsCriterion(Reference(es, sig).accepted);
  }

  lemma NewestAndOlder(h: seq<Outcome>)
    ensures SuccessesTested(h)
            <==> && SuccessesTested(Newest(h))
                 && forall i | 0 <= i < |h| - MAX_OUTCOMES && h[i].verdict == Success :: h[i].testsPassed
  {
    var k := |h| - |Newest(h)|;
    if SuccessesTested(Newest(h)) {
      assert forall i | k <= i < |h| :: h[i] == Newest(h)[i - k];
    }
    if SuccessesTested(h) {
      assert forall i | 0 <= i < |Newest(h)| :: Newest(h)[i] == h[k + i];
    }
  }

  /** The event that promotes a pattern meets the evaluated criterion.  It breaks the documented
      one exactly when the stored counters differ, that is when a success that is no longer among
      the newest fifty outcomes failed its tests. */
  lemma PromotionBreaksCriterionIff(es: seq<Event>, sig: string)
    requires es != [] && Reference(es, sig).promoted && !Reference(es[..|es| - 1], sig).promoted
    ensures sig in Run(es).candidates
    ensures var (c, h) := (Run(es).candidates[sig], Reference(es, sig).accepted);
            && SuccessesTested(c.outcomes)
            && (!SuccessesTested(h) <==> c.testsPassedCount != c.successCount)
            && (!SuccessesTested(h)
                <==> exists i | 0 <= i < |h| - 50 :: h[i].verdict == Success && !h[i].testsPassed)
  {
    hide Run, SuccessesTested, Newest, CountIf;
    RunMatches(es, sig);
    CriteriaArePromoted(es, sig);
    PromotedNext(Reference(es[..|es| - 1], sig), es[|es| - 1]);
    TestsCriterion(Reference(es, sig).accepted);
    NewestAndOlder(Reference(es, sig).accepted);
    NewestIsFifty(Reference(es, sig).accepted);
  }

  function Ones(n: nat): string {
    seq(n, _ => '1')
  }

  /** One success without passing tests, then `n` tested successes, all with different ids. */
  function UntestedThenTested(n: nat): seq<Event> {
    seq(n + 1, i requires 0 <= i <= n => Recorded(Report(UntestedOutcome(i), "p", false)))
  }

  lemma {:induction false} UntestedHistory(n: nat)
    ensures var h := Reference(UntestedThenTested(n), "p").accepted;
            && |h| == n + 1
            && (forall i | 0 <= i <= n :: h[i] == UntestedOutcome(i))
            && CountIf(h, Succeeded()) == n + 1 && CountIf(h, RolledBackRun()) == 0
    ensures !Reference(UntestedThenTested(n), "p").approvalNeeded
  {
    hide ViewStep, CountIf, Succeeded, RolledBackRun, Ones;
    var es := UntestedThenTested(n);
    ReferenceNext(es, "p");
    assert es[n] == Recorded(Report(UntestedOutcome(n), "p", false));
    if n == 0 {
      assert es[..0] == [];
      NothingCounted();
    } else {
      UntestedHistory(n - 1);
      assert es[..n] == UntestedThenTested(n - 1);
    }
    UntestedNext(Reference(es[..n], "p"), n);
  }

  lemma NothingCounted()
    ensures Reference([], "p") == View(false, [], false, false, false)
    ensures CountIf([], Succeeded()) == 0 && CountIf([], RolledBackRun()) == 0
  {
  }

  lemma ReferenceNext(es: seq<Event>, sig: string)
    requires es != [] && About(es[|es| - 1], sig)
    ensures Reference(es, sig) == ViewStep(Reference(es[..|es| - 1], sig), es[|es| - 1])
  {
  }

  function UntestedOutcome(i: nat): Outcome {
    Outcome(Ones(i), "p", Success, i > 0, false)
  }

  lemma UntestedNext(v: View, n: nat)
    requires |v.accepted| == n && forall i | 0 <= i < n :: v.accepted[i] == UntestedOutcome(i)
    ensures var v' := ViewStep(v, Recorded(Report(UntestedOutcome(n), "p", false)));
            && v'.accepted == v.accepted + [UntestedOutcome(n)]
            && v'.approvalNeeded == v.approvalNeeded
            && CountIf(v'.accepted, Succeeded()) == CountIf(v.accepted, Succeeded()) + 1
            && CountIf(v'.accepted, RolledBackRun()) == CountIf(v.accepted, RolledBackRun())
  {
    hide CountIf, Criteria, Newest;
    forall i | 0 <= i < n
      ensures v.accepted[i].runId != Ones(n)
    {
      assert |UntestedOutcome(i).runId| == i;
    }
    NewestIsPart(v.accepted, Ones(n));
    CountIfNext(v.accepted, UntestedOutcome(n), Succeeded());
    CountIfNext(v.accepted, UntestedOutcome(n), RolledBackRun());
  }

  lemma NewestIsPart(h: seq<Outcome>, runId: string)
    requires forall i | 0 <= i < |h| :: h[i].runId != runId
    ensures !HasRun(Newest(h), runId)
  {
  }

  /** A success that failed its tests is forgotten after fifty more outcomes: the pattern is then
      promoted although not every successful run passed its tests. */
  lemma UntestedSuccessIsForgotten()
    ensures Reference(UntestedThenTested(50), "p").promoted
    ensures !SuccessesTested(Reference(UntestedThenTested(50), "p").accepted)
  {
    hide Reference, CountIf, Ones, Assess;
    UntestedHistory(50);
    var v := Reference(UntestedThenTested(50), "p");
    assert !SuccessesTested(v.accepted) by {
      assert v.accepted[0] == UntestedOutcome(0);
    }
    NewestWithoutFirst(v.accepted);
    CriteriaArePromoted(UntestedThenTested(50), "p");
  }

  lemma NewestWithoutFirst(h: seq<Outcome>)
    requires |h| == 51 && forall i | 0 < i < 51 :: h[i].testsPassed
    ensures SuccessesTested(Newest(h))
  {
    assert forall i | 0 <= i < 50 :: Newest(h)[i] == h[i + 1];
  }

  // ---------------------------------------------------------------------------------------
  // What an approval answers
  // ---------------------------------------------------------------------------------------

  /** The answer is documented to tell whether the approval triggered a promotion.  Over every run
      it tells whether the pattern is promoted afterwards, so it is right exactly when the pattern
      was not promoted before. */
  lemma ApprovalAnswerIff(es: seq<Event>, sig: string, user: string)
    ensures var answer := Approve(Run(es), sig, user).1;
            var (before, after) := (Reference(es, sig).promoted, Reference(es + [Approved(sig, user)], sig).promoted);
            && (answer <==> after)
            && ((answer <==> after && !before) <==> !before)
  {
    var es' := es + [Approved(sig, user)];
    assert es'[..|es|] == es;
    RunFits(es);
    ApproveTells(Run(es), sig, user);
    RunMatches(es, sig);
    RunMatches(es', sig);
    PromotionStays(es, Approved(sig, user), sig);
    hide Approve, Reference, CountIf, Newest, SignaturesFit;
  }

  lemma PromotionStays(es: seq<Event>, e: Event, sig: string)
    ensures Reference(es, sig).promoted ==> Reference(es + [e], sig).promoted
  {
    PromotionAndRollbackAreFinal(es, [e], sig);
  }

  lemma ApproveTells(d: Data, sig: string, user: string)
    requires SignaturesFit(d)
    ensures var (d', answer) := Approve(d, sig, user);
            answer <==> sig in d'.candidates && d'.candidates[sig].promoted
  {
    hide SuccessesTested;
  }

  /** Approving a promoted pattern answers true and promotes nothing. */
  lemma ApprovedAgain(user: string)
    ensures var d := Run(UntestedThenTested(50));
            Approve(d, "p", user).1 && Approve(d, "p", user).0.promoted == d.promoted
  {
    var es := UntestedThenTested(50);
    UntestedSuccessIsForgotten();
    RunMatches(es, "p");
    RunFits(es);
    hide Run, UntestedThenTested, Reference, CountIf, Newest, SuccessesTested;
  }
}
