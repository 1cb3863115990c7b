/**
 The check before a run against the status after recording it (core/budget_controller.py,
 `estimate_cost`, `_check_would_exceed`, `record`, `effective_status`).
 */
module BudgetForecast {
  import opened Common
  import opened BudgetLedger
  import opened BudgetStore
  import D = BudgetDowngrade

  /** What is left of a limit; a limit that is absent or not positive never stops. */
  function Left(limit: Option<int>, spent: int): Option<int> {
    if limit.Some? && limit.value > 0 then Some(limit.value - spent) else None
  }

  function Least(a: Option<int>, b: Option<int>): Option<int> {
    if a.None? then b else if b.None? then a else if a.value <= b.value then a else b
  }

  /** The least that is left in any scope. */
  function Room(b: Book, project: string, task: string, month: string): Option<int> {
    Least(Left(b.limits.perTask, SpentOnTask(b.entries, project, task)),
          Least(Left(b.limits.perProject, SpentOnProject(b.entries, project, month)),
                Left(b.globalLimit, SpentGlobal(b.entries, month))))
  }

  predicate Fills(room: Option<int>, cost: int) {
    room.Some? && cost >= room.value
  }

  /** The room lies above the smaller and not above the larger of two costs. */
  predicate Between(room: Option<int>, a: int, b: int) {
    room.Some? && (a < room.value <= b || b < room.value <= a)
  }

  /** One number decides the check before a run. */
  lemma ExceedsIffFills(b: Book, project: string, task: string, month: string, cost: int)
    ensures WouldExceed(b, project, task, month, cost).0 <==> Fills(Room(b, project, task, month), cost)
  {
    hide SpentOnTask, SpentOnProject, SpentGlobal;
  }

  /** The book without the entries that one more record would trim. */
  function Trimmed(b: Book): Book {
    b.(entries := if |b.entries| < MAX_ENTRIES_IN_MEMORY then b.entries
                  else b.entries[|b.entries| + 1 - ENTRIES_TRIM_TO..])
  }

  lemma StoppedIffFills(b: Book, e: Entry)
    ensures var after := EffectiveStatus(b.(entries := Trim(b.entries + [e])), e.project, e.task, MonthOf(e));
            after.status == Stopped <==> Fills(Room(Trimmed(b), e.project, e.task, MonthOf(e)), e.cost)
  {
    hide EffectiveStatus, Room, Fills, WouldExceed;
    assert Trim(b.entries + [e]) == Trimmed(b).entries + [e];
    PredictorIsExact(Trimmed(b), e, e.project, e.task, MonthOf(e));
    ExceedsIffFills(Trimmed(b), e.project, e.task, MonthOf(e), e.cost);
  }

  /** A run that was checked and is then recorded as planned.  Its warning is decided by the
      estimate, its status afterwards by the stored cost: the estimate with the Manus credits
      once more, rounded, against the ledger without what the record trims.  While nothing is
      trimmed the two agree exactly when the room does not lie between the costs; in particular
      they always do without credits when the estimate is a whole number of micro-dollars. */
  lemma ForecastHoldsIff(b: Book, reg: D.Registry, u: Usage, timestamp: string)
    requires ValidProjectId(u.project) && !AnyNegative(u.plan) && u.override.None?
    requires D.Estimate(reg, u.model, u.plan).Cost?
    ensures OutcomeOf(reg, u, timestamp).Recorded?
    ensures var e := OutcomeOf(reg, u, timestamp).entry;
            var estimate := D.Estimate(reg, u.model, u.plan).amount;
            var stored := RoundMicro(estimate + u.plan.credits * D.MANUS_CREDIT);
            var room := Room(b, u.project, u.task, MonthOf(e));
            var exceeds := WouldExceed(b, u.project, u.task, MonthOf(e), estimate).0;
            var after := EffectiveStatus(b.(entries := Trim(b.entries + [e])), u.project, u.task, MonthOf(e));
            && (exceeds <==> Fills(room, estimate))
            && (after.status == Stopped <==> Fills(Room(Trimmed(b), u.project, u.task, MonthOf(e)), stored))
            && (|b.entries| < MAX_ENTRIES_IN_MEMORY ==>
                  ((exceeds <==> after.status == Stopped) <==> !Between(room, estimate, stored)))
            && (|b.entries| < MAX_ENTRIES_IN_MEMORY && u.plan.credits == 0 && estimate % 100 == 0 ==>
                  (exceeds <==> after.status == Stopped))
  {
    hide D.Estimate, EffectiveStatus, WouldExceed, Room, RoundMicro, Trim, ValidProjectId;
    RecordedIsEstimateIffNoCredits(reg, u);
    hide RawCost;
    var e := OutcomeOf(reg, u, timestamp).entry;
    var estimate := D.Estimate(reg, u.model, u.plan).amount;
    ExceedsIffFills(b, u.project, u.task, MonthOf(e), estimate);
    StoppedIffFills(b, e);
    RoundMicroBounds(estimate);
  }

  /** One Manus credit against a task limit of a fifth of a cent: the check before the run sees no
      problem, and once recorded the run has stopped its task. */
  lemma CreditStopsUnforeseen(reg: D.Registry)
    ensures var u := Usage("p", "t", "manus", "text", D.Plan(0, 0, "", 0, 1), None);
            var b := Book([], Limits(Some(200_000), None), None);
            && D.Estimate(reg, u.model, u.plan) == D.Cost(125_000)
            && !WouldExceed(b, "p", "t", "2025-01", 125_000).0
            && OutcomeOf(reg, u, "2025-01-01").Recorded?
            && var after := b.(entries := Trim([OutcomeOf(reg, u, "2025-01-01").entry]));
               EffectiveStatus(after, "p", "t", "2025-01").status == Stopped
  {
    hide D.Estimate, EffectiveStatus, WouldExceed, Room, OutcomeOf, Trim, RoundMicro, ValidProjectId;
    var u := Usage("p", "t", "manus", "text", D.Plan(0, 0, "", 0, 1), None);
    var b := Book([], Limits(Some(200_000), None), None);
    CreditEstimate(reg, u);
    PlainId();
    ForecastHoldsIff(b, reg, u, "2025-01-01");
    var e := OutcomeOf(reg, u, "2025-01-01").entry;
    MonthOfEntry(reg, u, "2025-01-01");
    RoomOfNewTask(b, "p", "t", "2025-01", 200_000);
    assert [] + [e] == [e] && Trimmed(b) == b;
    RoundMicroBounds(250_000);
  }

  lemma CreditEstimate(reg: D.Registry, u: Usage)
    requires u.model == "manus" && u.plan == D.Plan(0, 0, "", 0, 1)
    ensures D.Estimate(reg, u.model, u.plan) == D.Cost(125_000)
  {
    hide D.LlmCost, D.ImageCost;
    var plan := u.plan;
    assert D.TokenCost(reg, u.model, plan) == D.Cost(0);
    hide D.TokenCost;
    assert plan.imageModel == "" && plan.images == 0 && plan.credits == 1;
    assert D.ManusCost(1) == D.Cost(125_000);
  }

  lemma PlainId()
    ensures ValidProjectId("p")
  {
  }

  lemma MonthOfEntry(reg: D.Registry, u: Usage, timestamp: string)
    requires OutcomeOf(reg, u, timestamp).Recorded? && timestamp == "2025-01-01"
    ensures MonthOf(OutcomeOf(reg, u, timestamp).entry) == "2025-01"
  {
    hide RawCost, ValidProjectId, RoundMicro;
    assert timestamp[..7] == "2025-01";
  }

  lemma RoomOfNewTask(b: Book, project: string, task: string, month: string, limit: int)
    requires b == Book([], Limits(Some(limit), None), None) && limit > 0
    ensures Room(b, project, task, month) == Some(limit)
  {
  }
}
