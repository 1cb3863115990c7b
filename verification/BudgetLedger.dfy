/**
 Spend, limits and status (core/budget_controller.py, class `BudgetController`).

 Every price of the program is a whole number of units of 1e-8 USD per token, image or credit,
 so amounts are integers in that unit and comparisons with thresholds are exact.
 */
module BudgetLedger {
  import opened Common

  datatype Entry = Entry(
    timestamp: string, project: string, task: string, model: string, category: string,
    inputTokens: int, outputTokens: int, imageModel: string, images: int, credits: int, cost: int)

  /** The limits of one project; the program keeps one such record per project. */
  datatype Limits = Limits(perTask: Option<int>, perProject: Option<int>)

  datatype Status = Unlimited | Ok | Warning | Paused | Stopped

  datatype Scope = TaskScope | ProjectScope | GlobalScope | NoScope

  datatype Snapshot = Snapshot(spent: int, limit: Option<int>, status: Status, scope: Scope, count: nat)

  /** The year and month of a timestamp, its first seven characters. */
  function MonthOf(e: Entry): string {
    if |e.timestamp| < 7 then e.timestamp else e.timestamp[..7]
  }

  // ---------------------------------------------------------------------------------------
  // Sums over the ledger
  // ---------------------------------------------------------------------------------------

  function SumIf(p: Entry -> bool, es: seq<Entry>): int {
    if es == [] then 0
    else SumIf(p, es[..|es| - 1]) + if p(es[|es| - 1]) then es[|es| - 1].cost else 0
  }

  function CountIf(p: Entry -> bool, es: seq<Entry>): nat {
    if es == [] then 0
    else CountIf(p, es[..|es| - 1]) + if p(es[|es| - 1]) then 1 else 0
  }

  function OnTask(project: string, task: string): Entry -> bool {
    (e: Entry) => e.project == project && e.task == task
  }

  function OnProject(project: string, month: string): Entry -> bool {
    (e: Entry) => e.project == project && MonthOf(e) == month
  }

  function InMonth(month: string): Entry -> bool {
    (e: Entry) => MonthOf(e) == month
  }

  /** The entries a status counts: an empty project or task name filters nothing. */
  function Counted(project: string, task: string, month: string): Entry -> bool {
    (e: Entry) => && MonthOf(e) == month
                  && (project == "" || e.project == project)
                  && (task == "" || e.task == task)
  }

  function SpentOnTask(es: seq<Entry>, project: string, task: string): int {
    SumIf(OnTask(project, task), es)
  }

  function SpentOnProject(es: seq<Entry>, project: string, month: string): int {
    SumIf(OnProject(project, month), es)
  }

  function SpentGlobal(es: seq<Entry>, month: string): int {
    SumIf(InMonth(month), es)
  }

  lemma SumNext(p: Entry -> bool, es: seq<Entry>, e: Entry)
    ensures SumIf(p, es + [e]) == SumIf(p, es) + if p(e) then e.cost else 0
  {
    assert (es + [e])[..|es|] == es;
  }

  lemma {:induction false} SumConcat(p: Entry -> bool, a: seq<Entry>, b: seq<Entry>)
    ensures SumIf(p, a + b) == SumIf(p, a) + SumIf(p, b)
  {
    if b == [] {
      assert a + b == a;
    } else {
      var front, last := b[..|b| - 1], b[|b| - 1];
      SumConcat(p, a, front);
      SumNext(p, a + front, last);
      assert a + b == a + front + [last];
    }
  }

  // ---------------------------------------------------------------------------------------
  // Rounding to micro-dollars
  // ---------------------------------------------------------------------------------------

  /** `round(usd, 6)`: the nearest multiple of 100 units, ties to the even one. */
  function RoundMicro(amount: int): int {
    var q, r := amount / 100, amount % 100;
    if r < 50 || (r == 50 && q % 2 == 0) then 100 * q else 100 * (q + 1)
  }

  lemma RoundMicroBounds(amount: int)
    ensures -50 <= RoundMicro(amount) - amount <= 50
    ensures RoundMicro(amount) % 100 == 0
    ensures RoundMicro(amount) == amount <==> amount % 100 == 0
    ensures amount % 100 == 50 ==> RoundMicro(amount) / 100 % 2 == 0
  {
    var q, r := amount / 100, amount % 100;
    assert amount == 100 * q + r;
    assert RoundMicro(amount) / 100 == if r < 50 || (r == 50 && q % 2 == 0) then q else q + 1;
  }

  // ---------------------------------------------------------------------------------------
  // Status
  // ---------------------------------------------------------------------------------------

  /** Thresholds at 80, 95 and 100 percent of the limit. */
  function StatusOf(spent: int, limit: Option<int>): Status {
    if limit.None? || limit.value <= 0 then Unlimited
    else if spent >= limit.value then Stopped
    else if 100 * spent >= 95 * limit.value then Paused
    else if 100 * spent >= 80 * limit.value then Warning
    else Ok
  }

  function MakeSnapshot(spent: int, limit: Option<int>, scope: Scope, count: nat): Snapshot {
    var status := StatusOf(spent, limit);
    if status == Unlimited then Snapshot(spent, None, Unlimited, scope, count)
    else Snapshot(RoundMicro(spent), limit, status, scope, count)
  }

  /** The ledger with the limits that apply to one project. */
  datatype Book = Book(entries: seq<Entry>, limits: Limits, globalLimit: Option<int>)

  function StatusTask(b: Book, project: string, task: string, month: string): Snapshot {
    MakeSnapshot(SpentOnTask(b.entries, project, task), b.limits.perTask, TaskScope,
                 CountIf(Counted(project, task, month), b.entries))
  }

  function StatusProject(b: Book, project: string, month: string): Snapshot {
    MakeSnapshot(SpentOnProject(b.entries, project, month), b.limits.perProject, ProjectScope,
                 CountIf(Counted(project, "", month), b.entries))
  }

  function StatusGlobal(b: Book, month: string): Snapshot {
    MakeSnapshot(SpentGlobal(b.entries, month), b.globalLimit, GlobalScope, CountIf(Counted("", "", month), b.entries))
  }

  function Severity(s: Status): nat {
    match s
    case Unlimited => 0
    case Ok => 1
    case Warning => 2
    case Paused => 3
    case Stopped => 4
  }

  /** Python's `max`: the first of the greatest. */
  function Worse(a: Snapshot, b: Snapshot): Snapshot {
    if Severity(b.status) > Severity(a.status) then b else a
  }

  function EffectiveStatus(b: Book, project: string, task: string, month: string): Snapshot {
    Worse(Worse(StatusTask(b, project, task, month), StatusProject(b, project, month)), StatusGlobal(b, month))
  }

  /** `_check_would_exceed` */
  function WouldExceed(b: Book, project: string, task: string, month: string, cost: int): (bool, Scope) {
    if b.limits.perTask.Some? && b.limits.perTask.value > 0
       && SpentOnTask(b.entries, project, task) + cost >= b.limits.perTask.value then (true, TaskScope)
    else if b.limits.perProject.Some? && b.limits.perProject.value > 0
            && SpentOnProject(b.entries, project, month) + cost >= b.limits.perProject.value then (true, ProjectScope)
    else if b.globalLimit.Some? && b.globalLimit.value > 0
            && SpentGlobal(b.entries, month) + cost >= b.globalLimit.value then (true, GlobalScope)
    else (false, NoScope)
  }

  /** `can_run` */
  predicate CanRun(b: Book, project: string, task: string, month: string) {
    var s := EffectiveStatus(b, project, task, month);
    s.status != Paused && s.status != Stopped
  }

  // ---------------------------------------------------------------------------------------
  // The predictor is exact
  // ---------------------------------------------------------------------------------------

  lemma SpentNext(es: seq<Entry>, e: Entry, project: string, task: string, month: string)
    requires e.project == project && e.task == task && MonthOf(e) == month
    ensures SpentOnTask(es + [e], project, task) == SpentOnTask(es, project, task) + e.cost
    ensures SpentOnProject(es + [e], project, month) == SpentOnProject(es, project, month) + e.cost
    ensures SpentGlobal(es + [e], month) == SpentGlobal(es, month) + e.cost
  {
    SumNext(OnTask(project, task), es, e);
    SumNext(OnProject(project, month), es, e);
    SumNext(InMonth(month), es, e);
  }

  predicate Reached(spent: int, limit: Option<int>) {
    limit.Some? && limit.value > 0 && spent >= limit.value
  }

  lemma SnapshotStopped(spent: int, limit: Option<int>, scope: Scope, count: nat)
    ensures MakeSnapshot(spent, limit, scope, count).status == Stopped <==> Reached(spent, limit)
    ensures MakeSnapshot(spent, limit, scope, count).scope == scope
  {
  }

  /** STOPPED means some limit is reached, and the scope is the first one that is. */
  lemma StoppedIffReached(b: Book, project: string, task: string, month: string)
    ensures var s := EffectiveStatus(b, project, task, month);
            var (t, p, g) := (Reached(SpentOnTask(b.entries, project, task), b.limits.perTask),
                              Reached(SpentOnProject(b.entries, project, month), b.limits.perProject),
                              Reached(SpentGlobal(b.entries, month), b.globalLimit));
            && (s.status == Stopped <==> t || p || g)
            && (s.status == Stopped ==> s.scope == if t then TaskScope else if p then ProjectScope else GlobalScope)
  {
    hide MakeSnapshot, Reached, CountIf, SpentOnTask, SpentOnProject, SpentGlobal;
    SnapshotStopped(SpentOnTask(b.entries, project, task), b.limits.perTask, TaskScope,
                    CountIf(Counted(project, task, month), b.entries));
    SnapshotStopped(SpentOnProject(b.entries, project, month), b.limits.perProject, ProjectScope,
                    CountIf(Counted(project, "", month), b.entries));
    SnapshotStopped(SpentGlobal(b.entries, month), b.globalLimit, GlobalScope,
                    CountIf(Counted("", "", month), b.entries));
  }

  /** The check before a run says "would exceed" exactly when the status is STOPPED once an entry
      of that cost is on the ledger, and names the very scope the status then reports; for every
      ledger and all limits, present, absent or not positive. */
  lemma PredictorIsExact(b: Book, e: Entry, project: string, task: string, month: string)
    requires e.project == project && e.task == task && MonthOf(e) == month
    ensures var after := EffectiveStatus(b.(entries := b.entries + [e]), project, task, month);
            var (exceeds, scope) := WouldExceed(b, project, task, month, e.cost);
            && (exceeds <==> after.status == Stopped)
            && scope == if after.status == Stopped then after.scope else NoScope
  {
    hide EffectiveStatus, SpentOnTask, SpentOnProject, SpentGlobal, MonthOf;
    SpentNext(b.entries, e, project, task, month);
    StoppedIffReached(b.(entries := b.entries + [e]), project, task, month);
  }

  /** A dearer run is never let through where a cheaper one is stopped. */
  lemma ExceedsIsMonotone(b: Book, project: string, task: string, month: string, cost: int, more: int)
    requires cost <= more && WouldExceed(b, project, task, month, cost).0
    ensures WouldExceed(b, project, task, month, more).0
  {
    hide SpentOnTask, SpentOnProject, SpentGlobal;
  }

  /** The effective status is the most severe of the three, and on a tie that of the narrowest
      scope. */
  lemma EffectiveIsFirstWorst(b: Book, project: string, task: string, month: string)
    ensures var s := EffectiveStatus(b, project, task, month);
            var (t, p, g) := (StatusTask(b, project, task, month), StatusProject(b, project, month),
                              StatusGlobal(b, month));
            && Severity(t.status) <= Severity(s.status)
            && Severity(p.status) <= Severity(s.status)
            && Severity(g.status) <= Severity(s.status)
            && (s.scope == TaskScope <==> Severity(t.status) == Severity(s.status))
            && (s.scope == ProjectScope <==> Severity(t.status) < Severity(s.status) == Severity(p.status))
            && s in {t, p, g}
  {
    hide SumIf, CountIf, RoundMicro, StatusOf, SpentOnTask, SpentOnProject, SpentGlobal;
  }

  /** A run may start exactly when no scope with a positive limit has reached 95 percent of it. */
  lemma CanRunIffBelow95(b: Book, project: string, task: string, month: string)
    ensures CanRun(b, project, task, month)
            <==> && Below95(SpentOnTask(b.entries, project, task), b.limits.perTask)
                 && Below95(SpentOnProject(b.entries, project, month), b.limits.perProject)
                 && Below95(SpentGlobal(b.entries, month), b.globalLimit)
  {
    hide CountIf, RoundMicro, SpentOnTask, SpentOnProject, SpentGlobal;
  }

  predicate Below95(spent: int, limit: Option<int>) {
    limit.Some? && limit.value > 0 ==> 100 * spent < 95 * limit.value
  }

  // ---------------------------------------------------------------------------------------
  // What one more entry changes
  // ---------------------------------------------------------------------------------------

  /** The entry is of this month: the first seven characters of its timestamp are the month. */
  predicate OfMonth(e: Entry, month: string) {
    month == if |e.timestamp| >= 7 then e.timestamp[..7] else e.timestamp
  }

  /** What is spent, entry by entry: a task counts its own entries of all months, a project its own
      of the month, and the global sum all of the month. */
  lemma SpentSteps(es: seq<Entry>, e: Entry, project: string, task: string, month: string)
    ensures SpentOnTask([], project, task) == SpentOnProject([], project, month) == SpentGlobal([], month) == 0
    ensures SpentOnTask(es + [e], project, task)
            == SpentOnTask(es, project, task) + if e.project == project && e.task == task then e.cost else 0
    ensures SpentOnProject(es + [e], project, month)
            == SpentOnProject(es, project, month) + if e.project == project && OfMonth(e, month) then e.cost else 0
    ensures SpentGlobal(es + [e], month) == SpentGlobal(es, month) + if OfMonth(e, month) then e.cost else 0
  {
    SumNext(OnTask(project, task), es, e);
    SumNext(OnProject(project, month), es, e);
    SumNext(InMonth(month), es, e);
  }

  lemma CountNext(p: Entry -> bool, es: seq<Entry>, e: Entry)
    ensures CountIf(p, es + [e]) == CountIf(p, es) + if p(e) then 1 else 0
  {
    assert (es + [e])[..|es|] == es;
  }

  /** The number of entries a snapshot reports, for a named project and task. */
  lemma CountSteps(b: Book, e: Entry, project: string, task: string, month: string)
    requires project != "" && task != ""
    ensures b.entries == [] ==> StatusTask(b, project, task, month).count == StatusProject(b, project, month).count
                                == StatusGlobal(b, month).count == 0
    ensures var more := b.(entries := b.entries + [e]);
            && StatusTask(more, project, task, month).count
               == StatusTask(b, project, task, month).count
                  + (if e.project == project && e.task == task && OfMonth(e, month) then 1 else 0)
            && StatusProject(more, project, month).count
               == StatusProject(b, project, month).count + (if e.project == project && OfMonth(e, month) then 1 else 0)
            && StatusGlobal(more, month).count == StatusGlobal(b, month).count + (if OfMonth(e, month) then 1 else 0)
  {
    assert forall p :: CountIf(p, []) == 0;
    hide SumIf, RoundMicro, StatusOf, SpentOnTask, SpentOnProject, SpentGlobal, CountIf;
    CountNext(Counted(project, task, month), b.entries, e);
    CountNext(Counted(project, "", month), b.entries, e);
    CountNext(Counted("", "", month), b.entries, e);
  }

  /** An entry of another task leaves a task's status as it was, one of another project or month a
      project's, and one of another month the global one. */
  lemma OthersUnaffected(b: Book, e: Entry, project: string, task: string, month: string)
    requires project != "" && task != ""
    ensures var more := b.(entries := b.entries + [e]);
            && (e.project != project || e.task != task ==>
                  StatusTask(more, project, task, month) == StatusTask(b, project, task, month))
            && (e.project != project || !OfMonth(e, month) ==>
                  StatusProject(more, project, month) == StatusProject(b, project, month))
            && (!OfMonth(e, month) ==> StatusGlobal(more, month) == StatusGlobal(b, month))
  {
    SpentSteps(b.entries, e, project, task, month);
    CountNext(Counted(project, task, month), b.entries, e);
    CountNext(Counted(project, "", month), b.entries, e);
    CountNext(Counted("", "", month), b.entries, e);
    hide SumIf, CountIf, RoundMicro, StatusOf, SpentOnTask, SpentOnProject, SpentGlobal;
  }

  // ---------------------------------------------------------------------------------------
  // The five levels
  // ---------------------------------------------------------------------------------------

  /** The limit counts and the spend has reached this percentage of it. */
  predicate Reaches(spent: int, limit: Option<int>, percent: int) {
    limit.Some? && limit.value > 0 && 100 * spent >= percent * limit.value
  }

  predicate Limited(limit: Option<int>) {
    limit.Some? && limit.value > 0
  }

  lemma LevelOf(spent: int, limit: Option<int>, scope: Scope, count: nat)
    ensures var s := MakeSnapshot(spent, limit, scope, count);
            && (s.status == Stopped <==> Reaches(spent, limit, 100))
            && (s.status == Paused <==> Reaches(spent, limit, 95) && !Reaches(spent, limit, 100))
            && (s.status == Warning <==> Reaches(spent, limit, 80) && !Reaches(spent, limit, 95))
            && (s.status == Ok <==> Limited(limit) && !Reaches(spent, limit, 80))
            && (s.status == Unlimited <==> !Limited(limit))
            && s.scope == scope && s.count == count
            && s.limit == (if Limited(limit) then limit else None)
            && -50 <= s.spent - spent <= 50 && (!Limited(limit) ==> s.spent == spent)
  {
    RoundMicroBounds(spent);
    hide RoundMicro;
  }

  /** Some scope has reached this percentage of its limit. */
  predicate AnyReaches(b: Book, project: string, task: string, month: string, percent: int) {
    || Reaches(SpentOnTask(b.entries, project, task), b.limits.perTask, percent)
    || Reaches(SpentOnProject(b.entries, project, month), b.limits.perProject, percent)
    || Reaches(SpentGlobal(b.entries, month), b.globalLimit, percent)
  }

  /** The level of the effective status, from the three amounts and limits. */
  lemma EffectiveLevel(b: Book, project: string, task: string, month: string)
    ensures var status := EffectiveStatus(b, project, task, month).status;
            && (status == Stopped <==> AnyReaches(b, project, task, month, 100))
            && (status == Paused
                <==> AnyReaches(b, project, task, month, 95) && !AnyReaches(b, project, task, month, 100))
            && (status == Warning
                <==> AnyReaches(b, project, task, month, 80) && !AnyReaches(b, project, task, month, 95))
            && (status == Ok
                <==> && !AnyReaches(b, project, task, month, 80)
                     && (Limited(b.limits.perTask) || Limited(b.limits.perProject) || Limited(b.globalLimit)))
  {
    hide MakeSnapshot, SpentOnTask, SpentOnProject, SpentGlobal, CountIf, Reaches;
    var (t, p, g) := (SpentOnTask(b.entries, project, task), SpentOnProject(b.entries, project, month),
                      SpentGlobal(b.entries, month));
    LevelOf(t, b.limits.perTask, TaskScope, CountIf(Counted(project, task, month), b.entries));
    LevelOf(p, b.limits.perProject, ProjectScope, CountIf(Counted(project, "", month), b.entries));
    LevelOf(g, b.globalLimit, GlobalScope, CountIf(Counted("", "", month), b.entries));
    ReachesLess(t, b.limits.perTask);
    ReachesLess(p, b.limits.perProject);
    ReachesLess(g, b.globalLimit);
  }

  lemma ReachesLess(spent: int, limit: Option<int>)
    ensures Reaches(spent, limit, 100) ==> Reaches(spent, limit, 95)
    ensures Reaches(spent, limit, 95) ==> Reaches(spent, limit, 80)
    ensures Reaches(spent, limit, 80) ==> Limited(limit)
  {
  }
}
