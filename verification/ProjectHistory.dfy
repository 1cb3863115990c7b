/**
 Project history (core/project_manager.py): rotation of append-only lists into an archive file,
 cost records, and the combined "run with cost" operation with its rollback.

 The files of one project are fields; where the program writes a file, the caller may inject a
 failed write.  Amounts are in units of 1e-8 USD.
 */
module ProjectHistory {
  import opened Common
  import opened BudgetTotals

  const MAX_RUNS: nat := 500
  const MAX_DECISIONS: nat := 200

  datatype RunRecord = RunRecord(id: string, task: string, model: string, cost: int, result: string, ts: string)

  datatype Decision = Decision(date: string, what: string, why: string, who: string)

  datatype CostRecord = CostRecord(runId: string, model: string, tokensIn: int, tokensOut: int, cost: int, ts: string)

  /** `limits.per_project_month` in the budget file: missing, null or a number. */
  datatype Limit = Absent | Null | Amount(value: int)

  datatype Alert = NoAlert | Warning | Pause | Stop

  datatype Budget = Budget(total: int, byAgent: Sums, byRun: seq<CostRecord>, limit: Limit, alert: Alert)

  /** A list in a JSON file together with the archive file its oldest items move to. */
  datatype Log<T> = Log(archive: seq<T>, live: seq<T>) {
    /** Everything ever appended, oldest first. */
    function All(): seq<T> {
      archive + live
    }
  }

  /** Which write of a state change fails: none, the state file, or the PROJECT.md view that is
      regenerated after the state file was written. */
  datatype Fault = NoFault | StateWriteFails | ViewWriteFails

  datatype Outcome = Done | NotFound | IsArchived | Negative | LimitIsNull | WriteFailed

  // ---------------------------------------------------------------------------------------
  // Rotation
  // ---------------------------------------------------------------------------------------

  function Overflow<T>(items: seq<T>, max: nat): seq<T> {
    if |items| <= max then [] else items[..|items| - max]
  }

  function Kept<T>(items: seq<T>, max: nat): seq<T> {
    if |items| <= max then items else items[|items| - max..]
  }

  /** Append one item and rotate. */
  function Append<T>(log: Log<T>, item: T, max: nat): Log<T> {
    var items := log.live + [item];
    Log(log.archive + Overflow(items, max), Kept(items, max))
  }

  lemma AppendConserves<T>(log: Log<T>, item: T, max: nat)
    ensures Append(log, item, max).All() == log.All() + [item]
    ensures |log.live| <= max ==> |Append(log, item, max).live| <= max
  {
    var items := log.live + [item];
    assert Overflow(items, max) + Kept(items, max) == items;
  }

  function AppendAll<T>(log: Log<T>, items: seq<T>, max: nat): Log<T> {
    if items == [] then log else Append(AppendAll(log, items[..|items| - 1], max), items[|items| - 1], max)
  }

  /** From an empty list on, the archive and the live list together are the full history, and the
      live list holds exactly its newest `max` items (or all of them). */
  lemma {:induction false} HistoryIsComplete<T>(items: seq<T>, max: nat)
    requires max > 0
    ensures var log := AppendAll(Log([], []), items, max);
            && log.All() == items
            && log.live == items[if |items| <= max then 0 else |items| - max..]
  {
    if items != [] {
      var n := |items| - 1;
      HistoryIsComplete(items[..n], max);
      var log := AppendAll(Log([], []), items[..n], max);
      AppendConserves(log, items[n], max);
      AppendKept(log, items[n], max);
      KeptSuffix(items, if n <= max then 0 else n - max, max);
      hide Append, Overflow;
    }
  }

  lemma KeptSuffix<T>(items: seq<T>, k: nat, max: nat)
    requires 0 < max && items != [] && k == if |items| - 1 <= max then 0 else |items| - 1 - max
    ensures var n := |items| - 1;
            && items[..n] + [items[n]] == items
            && Kept(items[..n][k..] + [items[n]], max) == items[if |items| <= max then 0 else |items| - max..]
  {
    var n := |items| - 1;
    assert items[..n][k..] + [items[n]] == items[k..];
  }

  lemma AppendKept<T>(log: Log<T>, item: T, max: nat)
    ensures Append(log, item, max).live == Kept(log.live + [item], max)
  {
  }

  // ---------------------------------------------------------------------------------------
  // Cost records
  // ---------------------------------------------------------------------------------------

  function SumCosts(records: seq<CostRecord>): int {
    if records == [] then 0 else SumCosts(records[..|records| - 1]) + records[|records| - 1].cost
  }

  lemma {:induction false} SumCostsConcat(a: seq<CostRecord>, b: seq<CostRecord>)
    ensures SumCosts(a + b) == SumCosts(a) + SumCosts(b)
  {
    if b == [] {
      assert a + b == a;
    } else {
      SumCostsConcat(a, b[..|b| - 1]);
      assert (a + b)[..|a + b| - 1] == a + b[..|b| - 1];
    }
  }

  /** Thresholds at 80, 95 and 100 percent; a limit of zero or less always stops, and a file
      without the field counts as 10 dollars. */
  function AlertOf(spent: int, limit: Limit): Alert
    requires !limit.Null?
  {
    var l := if limit.Absent? then 1_000_000_000 else limit.value;
    if l <= 0 || spent >= l then Stop
    else if 100 * spent >= 95 * l then Pause
    else if 100 * spent >= 80 * l then Warning
    else NoAlert
  }

  /** The budget file with the cost archive. */
  datatype Books = Books(budget: Budget, archive: seq<CostRecord>) {
    function Records(): seq<CostRecord> {
      archive + budget.byRun
    }
  }

  /** Total, per-agent amounts and the archived and live records agree. */
  ghost predicate Balanced(b: Books) {
    b.budget.total == SumValues(b.budget.byAgent) == SumCosts(b.Records())
  }

  /** `record_cost`; a negative amount, a null limit or a failed write raises. */
  function Charge(b: Books, r: CostRecord, writeFails: bool): (Books, Outcome) {
    if r.cost < 0 || r.tokensIn < 0 || r.tokensOut < 0 then (b, Negative)
    else
      var log := Append(Log(b.archive, b.budget.byRun), r, MAX_RUNS);
      if b.budget.limit.Null? then (b.(archive := log.archive), LimitIsNull)
      else if writeFails then (b.(archive := log.archive), WriteFailed)
      else
        var total := b.budget.total + r.cost;
        (Books(Budget(total, AddTo(b.budget.byAgent, r.model, r.cost), log.live, b.budget.limit,
                      AlertOf(total, b.budget.limit)), log.archive), Done)
  }

  predicate IsNegative(c: CostRecord) {
    c.cost < 0 || c.tokensIn < 0 || c.tokensOut < 0
  }

  /** A cost is accepted if nothing in it is negative, the limit is not null and the write of the
      budget file succeeds. */
  predicate Accepts(limit: Limit, c: CostRecord, fails: bool) {
    !IsNegative(c) && !limit.Null? && !fails
  }

  lemma DoneIffAccepts(b: Books, c: CostRecord, fails: bool)
    ensures Charge(b, c, fails).1 == Done <==> Accepts(b.budget.limit, c, fails)
  {
    hide Append;
  }

  /** A recorded cost keeps the books balanced and the records complete. */
  lemma ChargeBalances(b: Books, r: CostRecord)
    requires Balanced(b) && Charge(b, r, false).1 == Done
    ensures Balanced(Charge(b, r, false).0)
    ensures Charge(b, r, false).0.Records() == b.Records() + [r]
    ensures |b.budget.byRun| <= MAX_RUNS ==> |Charge(b, r, false).0.budget.byRun| <= MAX_RUNS
  {
    AppendConserves(Log(b.archive, b.budget.byRun), r, MAX_RUNS);
    SumCostsConcat(b.Records(), [r]);
    assert SumCosts([r]) == r.cost by {
      assert [r][..0] == [];
    }
    SumValuesAdd(b.budget.byAgent, r.model, r.cost);
    hide SumValues, SumCosts, AlertOf, Append;
  }

  /** A refused charge keeps balanced books balanced exactly when the records it doubles cost
      nothing. */
  lemma FailedChargeBalance(b: Books, r: CostRecord, writeFails: bool)
    requires Balanced(b) && Charge(b, r, writeFails).1 != Done
    ensures Balanced(Charge(b, r, writeFails).0)
            <==> Charge(b, r, writeFails).1 == Negative || SumCosts(Overflow(b.budget.byRun + [r], MAX_RUNS)) == 0
  {
    hide SumCosts, SumValues, Overflow, Kept;
    var over := Overflow(b.budget.byRun + [r], MAX_RUNS);
    SumCostsConcat(b.archive, b.budget.byRun);
    SumCostsConcat(b.archive, over);
    SumCostsConcat(b.archive + over, b.budget.byRun);
  }

  /** A cost that is refused leaves the budget file alone; the records stay complete exactly when
      no live record had been moved to the archive before the failure. */
  lemma FailedChargeRecords(b: Books, r: CostRecord, writeFails: bool)
    requires Charge(b, r, writeFails).1 != Done
    ensures var (b', why) := Charge(b, r, writeFails);
            && b'.budget == b.budget
            && (b'.Records() == b.Records() <==> why == Negative || |b.budget.byRun| < MAX_RUNS)
  {
    var b' := Charge(b, r, writeFails).0;
    var items := b.budget.byRun + [r];
    if Charge(b, r, writeFails).1 != Negative {
      assert |b'.Records()| == |b.Records()| + |Overflow(items, MAX_RUNS)|;
      if |items| <= MAX_RUNS {
        assert b.archive + [] == b.archive;
      }
    }
  }

  // ---------------------------------------------------------------------------------------
  // One project
  // ---------------------------------------------------------------------------------------

  function Without(runs: seq<RunRecord>, id: string): seq<RunRecord> {
    if runs == [] then []
    else Without(runs[..|runs| - 1], id) + if runs[|runs| - 1].id != id then [runs[|runs| - 1]] else []
  }

  /** The run log after `add_run`, and how it ended. */
  function AddRunTo(log: Log<RunRecord>, archived: bool, r: RunRecord, fault: Fault): (Log<RunRecord>, Outcome) {
    if archived then (log, IsArchived)
    else
      var next := Append(log, r, MAX_RUNS);
      match fault
      case NoFault => (next, Done)
      case StateWriteFails => (log.(archive := next.archive), WriteFailed)
      case ViewWriteFails => (next, WriteFailed)
  }

  datatype State = State(runs: Log<RunRecord>, books: Books)

  /** `add_run_with_cost` on an existing project: add the run, charge the cost, and take the run
      out again if charging failed and the rollback's own writes succeed. */
  function RunWithCost(s: State, archived: bool, r: RunRecord, c: CostRecord,
                       runFault: Fault, chargeFails: bool, rollbackFault: Fault): (State, Outcome) {
    var (runs, added) := AddRunTo(s.runs, archived, r, runFault);
    if added != Done then (State(runs, s.books), added)
    else
      var (books, charged) := Charge(s.books, c, chargeFails);
      if charged == Done then (State(runs, books), Done)
      else
        var left := if rollbackFault == StateWriteFails then runs else runs.(live := Without(runs.live, r.id));
        (State(left, books), charged)
  }

  class Project {
    var onDisk: bool
    var archived: bool
    var runs: Log<RunRecord>
    var decisions: Log<Decision>
    var books: Books

    constructor (limit: Limit)
      ensures onDisk && !archived && runs == Log([], []) && decisions == Log([], [])
      ensures books == Books(Budget(0, map[], [], limit, NoAlert), [])
    {
      onDisk, archived := true, false;
      runs, decisions := Log([], []), Log([], []);
      books := Books(Budget(0, map[], [], limit, NoAlert), []);
    }

    method AddDecision(d: Decision, fault: Fault) returns (outcome: Outcome)
      modifies this`decisions
      ensures outcome == if !onDisk then NotFound else if archived then IsArchived
                         else if fault == NoFault then Done else WriteFailed
      ensures var next := Append(old(decisions), d, 200);
              decisions == if !onDisk || archived then old(decisions)
                           else if fault == StateWriteFails then old(decisions).(archive := next.archive) else next
    {
      if !onDisk {
        return NotFound;
      }
      if archived {
        return IsArchived;
      }
      var items := decisions.live + [d];
      var live := items;
      if |items| > MAX_DECISIONS {
        live := items[|items| - MAX_DECISIONS..];
        decisions := decisions.(archive := decisions.archive + items[..|items| - MAX_DECISIONS]);
      }
      assert decisions.archive == Append(old(decisions), d, MAX_DECISIONS).archive;
      if fault == StateWriteFails {
        return WriteFailed;
      }
      decisions := decisions.(live := live);
      return if fault == ViewWriteFails then WriteFailed else Done;
    }

    method AddRun(r: RunRecord, fault: Fault) returns (outcome: Outcome)
      modifies this`runs
      ensures !onDisk ==> outcome == NotFound && runs == old(runs)
      ensures onDisk ==> (runs, outcome) == AddRunTo(old(runs), archived, r, fault)
    {
      if !onDisk {
        return NotFound;
      }
      if archived {
        return IsArchived;
      }
      var items := runs.live + [r];
      var live := items;
      if |items| > MAX_RUNS {
        live := items[|items| - MAX_RUNS..];
        runs := runs.(archive := runs.archive + items[..|items| - MAX_RUNS]);
      }
      assert runs.archive == Append(old(runs), r, MAX_RUNS).archive;
      if fault == StateWriteFails {
        return WriteFailed;
      }
      runs := runs.(live := live);
      return if fault == ViewWriteFails then WriteFailed else Done;
    }

    method RecordCost(c: CostRecord, writeFails: bool) returns (outcome: Outcome)
      modifies this`books
      ensures !onDisk ==>
                && books == old(books)
                && outcome == if Charge(books, c, writeFails).1 == Negative then Negative else NotFound
      ensures onDisk ==> (books, outcome) == Charge(old(books), c, writeFails)
    {
      if c.cost < 0 || c.tokensIn < 0 || c.tokensOut < 0 {
        return Negative;
      }
      if !onDisk {
        return NotFound;
      }
      var budget := books.budget;
      budget := budget.(total := budget.total + c.cost, byAgent := AddTo(budget.byAgent, c.model, c.cost));
      budget := budget.(byRun := budget.byRun + [c]);
      var archive := books.archive;
      if |budget.byRun| > MAX_RUNS {
        archive := archive + budget.byRun[..|budget.byRun| - MAX_RUNS];
        budget := budget.(byRun := budget.byRun[|budget.byRun| - MAX_RUNS..]);
        books := books.(archive := archive);
      }
      assert archive == Append(Log(old(books).archive, old(books).budget.byRun), c, MAX_RUNS).archive;
      assert books == old(books).(archive := archive);
      if budget.limit.Null? {
        return LimitIsNull;
      }
      budget := budget.(alert := AlertOf(budget.total, budget.limit));
      if writeFails {
        return WriteFailed;
      }
      books := books.(budget := budget);
      return Done;
    }

    method RemoveRun(id: string, fault: Fault)
      requires onDisk && !archived
      modifies this`runs
      ensures runs == if fault == StateWriteFails then old(runs) else old(runs).(live := Without(old(runs).live, id))
    {
      var live: seq<RunRecord> := [];
      for i := 0 to |runs.live|
        invariant live == Without(runs.live[..i], id) && runs == old(runs)
      {
        assert runs.live[..i + 1][..i] == runs.live[..i];
        if runs.live[i].id != id {
          live := live + [runs.live[i]];
        }
      }
      assert runs.live[..|runs.live|] == runs.live;
      if fault != StateWriteFails {
        runs := runs.(live := live);
      }
    }

    method AddRunWithCost(r: RunRecord, c: CostRecord, runFault: Fault, chargeFails: bool, rollbackFault: Fault)
      returns (outcome: Outcome)
      modifies this`runs, this`books
      ensures !onDisk ==> outcome == NotFound && runs == old(runs) && books == old(books)
      ensures onDisk ==> (State(runs, books), outcome)
                         == RunWithCost(State(old(runs), old(books)), archived, r, c,
                                        runFault, chargeFails, rollbackFault)
    {
      outcome := AddRun(r, runFault);
      if outcome != Done {
        return;
      }
      outcome := RecordCost(c, chargeFails);
      if outcome != Done {
        RemoveRun(r.id, rollbackFault);
      }
    }
  }

  // ---------------------------------------------------------------------------------------
  // Rollback
  // ---------------------------------------------------------------------------------------

  predicate Fresh(runs: seq<RunRecord>, id: string) {
    forall i | 0 <= i < |runs| :: runs[i].id != id
  }

  lemma {:induction false} WithoutFacts(runs: seq<RunRecord>, id: string)
    ensures |Without(runs, id)| <= |runs|
    ensures Without(runs, id) == runs <==> Fresh(runs, id)
    ensures |Without(runs, id)| == |runs| <==> Fresh(runs, id)
  {
    if runs != [] {
      var n := |runs| - 1;
      WithoutFacts(runs[..n], id);
      assert Fresh(runs, id) <==> Fresh(runs[..n], id) && runs[n].id != id by {
        assert runs == runs[..n] + [runs[n]];
      }
    }
  }

  /** The live runs that stay beside one more: all of them, or the newest 499. */
  function Beside(runs: seq<RunRecord>): seq<RunRecord> {
    if |runs| < MAX_RUNS then runs else runs[|runs| + 1 - MAX_RUNS..]
  }

  lemma AppendBeside(log: Log<RunRecord>, r: RunRecord)
    ensures var next := Append(log, r, MAX_RUNS);
            && next.live == Beside(log.live) + [r]
            && next.archive + Beside(log.live) == log.All()
  {
    var items := log.live + [r];
    assert Overflow(items, MAX_RUNS) + Beside(log.live) == log.live;
    assert Kept(items, MAX_RUNS) == Beside(log.live) + [r];
  }

  /** When the cost is refused and the rollback gets through, the run history is as before, even
      if the oldest run moved to the archive in between, exactly when no remaining live run
      carries the id of the new one.  A fresh id suffices. */
  lemma RollbackRestores(s: State, r: RunRecord, c: CostRecord, chargeFails: bool, rollbackFault: Fault)
    requires Charge(s.books, c, chargeFails).1 != Done && rollbackFault != StateWriteFails
    ensures var (s', outcome) := RunWithCost(s, false, r, c, NoFault, chargeFails, rollbackFault);
            && outcome == Charge(s.books, c, chargeFails).1
            && s'.books.budget == s.books.budget
            && (s'.runs.All() == s.runs.All() <==> Fresh(Beside(s.runs.live), r.id))
            && (Fresh(s.runs.live, r.id) ==> s'.runs.All() == s.runs.All())
  {
    var rest, next := Beside(s.runs.live), Append(s.runs, r, MAX_RUNS);
    AppendBeside(s.runs, r);
    WithoutFacts(rest, r.id);
    FailedChargeRecords(s.books, c, chargeFails);
    assert (rest + [r])[..|rest|] == rest;
    assert Without(rest + [r], r.id) == Without(rest, r.id);
    assert Fresh(s.runs.live, r.id) ==> Fresh(rest, r.id);
    hide Append, Charge, Without;
    SameAfter(next.archive, rest, Without(rest, r.id));
  }

  lemma SameAfter<T>(a: seq<T>, b: seq<T>, c: seq<T>)
    ensures a + b == a + c <==> b == c
  {
    if a + b == a + c {
      assert b == (a + b)[|a|..] == (a + c)[|a|..] == c;
    }
  }

  /** Either both or neither: with working disks and a fresh id, the history gains the run and the
      books gain its cost, or both are as before. */
  lemma RunAndCostTogether(s: State, r: RunRecord, c: CostRecord)
    requires Balanced(s.books) && Fresh(s.runs.live, r.id)
    ensures var (s', outcome) := RunWithCost(s, false, r, c, NoFault, false, NoFault);
            if outcome == Done
            then && s'.runs.All() == s.runs.All() + [r]
                 && s'.books.Records() == s.books.Records() + [c]
                 && Balanced(s'.books)
            else s'.runs.All() == s.runs.All() && s'.books.budget == s.books.budget
  {
    if Charge(s.books, c, false).1 == Done {
      ChargeBalances(s.books, c);
      AppendConserves(s.runs, r, MAX_RUNS);
    } else {
      RollbackRestores(s, r, c, false, NoFault);
    }
  }

  /** A failed write of the state file duplicates history exactly when the list was full: the
      oldest run is then both archived and live. */
  lemma FailedWriteKeepsHistoryIff(log: Log<RunRecord>, r: RunRecord)
    ensures AddRunTo(log, false, r, StateWriteFails).0.All() == log.All() <==> |log.live| < MAX_RUNS
  {
    var after := AddRunTo(log, false, r, StateWriteFails).0;
    var items := log.live + [r];
    assert |after.All()| == |log.All()| + |Overflow(items, MAX_RUNS)|;
    if |items| <= MAX_RUNS {
      assert log.archive + [] == log.archive;
    }
  }

  /** The run and its cost are both recorded. */
  ghost predicate Both(s: State, s': State, r: RunRecord, c: CostRecord) {
    && s'.runs.All() == s.runs.All() + [r]
    && s'.books.Records() == s.books.Records() + [c]
    && s'.books.budget.total == s.books.budget.total + c.cost
    && s'.books.budget.byAgent == AddTo(s.books.budget.byAgent, c.model, c.cost)
  }

  /** Neither the run history nor the budget file has changed. */
  predicate Neither(s: State, s': State) {
    s'.runs.All() == s.runs.All() && s'.books.budget == s.books.budget
  }

  /** When `add_run_with_cost` keeps its promise: a failed view write after the run was added is
      never undone, and a refused cost needs a rollback that gets through and spares other runs. */
  predicate Atomic(s: State, archived: bool, r: RunRecord, c: CostRecord, runFault: Fault, chargeFails: bool,
                   rollbackFault: Fault) {
    || archived
    || match runFault
       case StateWriteFails => |s.runs.live| < MAX_RUNS
       case ViewWriteFails => false
       case NoFault =>
         || Accepts(s.books.budget.limit, c, chargeFails)
         || (rollbackFault != StateWriteFails && Fresh(Beside(s.runs.live), r.id))
  }

  lemma AddRunKeeps(log: Log<RunRecord>, r: RunRecord)
    ensures AddRunTo(log, false, r, NoFault).0.All() == log.All() + [r]
    ensures AddRunTo(log, false, r, ViewWriteFails).0.All() == log.All() + [r]
    ensures AddRunTo(log, false, r, StateWriteFails).0.All() == log.All() <==> |log.live| < MAX_RUNS
  {
    AppendConserves(log, r, MAX_RUNS);
    FailedWriteKeepsHistoryIff(log, r);
  }

  lemma RollbackLost(s: State, r: RunRecord, c: CostRecord, chargeFails: bool)
    requires Charge(s.books, c, chargeFails).1 != Done
    ensures var (s', outcome) := RunWithCost(s, false, r, c, NoFault, chargeFails, StateWriteFails);
            outcome != Done && s'.runs.All() == s.runs.All() + [r]
  {
    AddRunKeeps(s.runs, r);
    hide Append, Charge;
  }

  lemma ChargedBoth(s: State, r: RunRecord, c: CostRecord, chargeFails: bool, rollbackFault: Fault)
    requires Charge(s.books, c, chargeFails).1 == Done
    ensures var (s', outcome) := RunWithCost(s, false, r, c, NoFault, chargeFails, rollbackFault);
            outcome == Done && Both(s, s', r, c)
  {
    AppendConserves(s.runs, r, MAX_RUNS);
    AppendConserves(Log(s.books.archive, s.books.budget.byRun), c, MAX_RUNS);
    hide Append, AlertOf, AddTo;
  }

  /** The promise of `add_run_with_cost`, over every state and every fault: it reports success
      with both recorded, or fails with neither, exactly when `Atomic` holds; it never reports
      success otherwise. */
  lemma BothOrNeitherIff(s: State, archived: bool, r: RunRecord, c: CostRecord,
                         runFault: Fault, chargeFails: bool, rollbackFault: Fault)
    ensures var (s', outcome) := RunWithCost(s, archived, r, c, runFault, chargeFails, rollbackFault);
            && ((outcome == Done && Both(s, s', r, c)) || (outcome != Done && Neither(s, s'))
                <==> Atomic(s, archived, r, c, runFault, chargeFails, rollbackFault))
            && (outcome == Done ==> Both(s, s', r, c))
  {
    hide Append, Charge, Both, Fresh, Without, Beside;
    AddRunKeeps(s.runs, r);
    DoneIffAccepts(s.books, c, chargeFails);
    if !archived && runFault == NoFault {
      if Charge(s.books, c, chargeFails).1 == Done {
        ChargedBoth(s, r, c, chargeFails, rollbackFault);
      } else if rollbackFault == StateWriteFails {
        RollbackLost(s, r, c, chargeFails);
      } else {
        RollbackRestores(s, r, c, chargeFails, rollbackFault);
      }
    }
  }

  /** A view that cannot be written leaves the run without its cost, whatever its id. */
  lemma ViewFailureKeepsRun(s: State, r: RunRecord, c: CostRecord, chargeFails: bool, rollbackFault: Fault)
    ensures var (s', outcome) := RunWithCost(s, false, r, c, ViewWriteFails, chargeFails, rollbackFault);
            outcome == WriteFailed && s'.runs.All() == s.runs.All() + [r] && s'.books == s.books
  {
    AddRunKeeps(s.runs, r);
    hide Append;
  }

  /** So does a rollback that cannot be written, here after a negative cost. */
  lemma RollbackFailureKeepsRun()
    ensures var s := State(Log([], []), Books(Budget(0, map[], [], Amount(1), NoAlert), []));
            var (r, c) := (RunRecord("a", "", "", -1, "", ""), CostRecord("a", "", 0, 0, -1, ""));
            RunWithCost(s, false, r, c, NoFault, false, StateWriteFails) == (s.(runs := Log([], [r])), Negative)
  {
    AppendToEmpty(RunRecord("a", "", "", -1, "", ""));
  }

  lemma AppendToEmpty(r: RunRecord)
    ensures Append(Log([], []), r, MAX_RUNS) == Log([], [r])
  {
    assert [] + [r] == [r];
  }

  lemma AppendToOne(was: RunRecord, r: RunRecord)
    ensures Append(Log([], [was]), r, MAX_RUNS) == Log([], [was, r])
  {
    assert [was] + [r] == [was, r];
  }

  lemma {:induction false} WithoutAll(runs: seq<RunRecord>, id: string)
    requires forall i | 0 <= i < |runs| :: runs[i].id == id
    ensures Without(runs, id) == []
  {
    if runs != [] {
      WithoutAll(runs[..|runs| - 1], id);
    }
  }

  /** A refused cost under the id of a live run takes that run out of the history as well. */
  lemma ReusedIdLosesRun()
    ensures var (was, r) := (RunRecord("a", "first", "", 0, "", ""), RunRecord("a", "second", "", -1, "", ""));
            var s := State(Log([], [was]), Books(Budget(0, map[], [], Amount(1), NoAlert), []));
            RunWithCost(s, false, r, CostRecord("a", "", 0, 0, -1, ""), NoFault, false, NoFault)
            == (s.(runs := Log([], [])), Negative)
  {
    var was, r := RunRecord("a", "first", "", 0, "", ""), RunRecord("a", "second", "", -1, "", "");
    hide Without;
    AppendToOne(was, r);
    WithoutAll([was, r], "a");
  }

  // ---------------------------------------------------------------------------------------
  // Whole runs
  // ---------------------------------------------------------------------------------------

  /** What can happen to a project that is not archived, with the faults of each operation. */
  datatype Event =
    | RunAdded(run: RunRecord, fault: Fault)
    | CostRecorded(charge: CostRecord, chargeFails: bool)
    | RunWithCostAdded(run: RunRecord, fault: Fault, charge: CostRecord, chargeFails: bool, rollbackFault: Fault)

  function Step(s: State, e: Event): State {
    match e
    case RunAdded(r, fault) => s.(runs := AddRunTo(s.runs, false, r, fault).0)
    case CostRecorded(c, fails) => s.(books := Charge(s.books, c, fails).0)
    case RunWithCostAdded(r, fault, c, fails, rollback) => RunWithCost(s, false, r, c, fault, fails, rollback).0
  }

  /** The project after a run of events, from the constructor's state. */
  function Run(es: seq<Event>, limit: Limit): State {
    if es == [] then State(Log([], []), Books(Budget(0, map[], [], limit, NoAlert), []))
    else Step(Run(es[..|es| - 1], limit), es[|es| - 1])
  }

  /** Whether an event reaches `record_cost`. */
  predicate Attempts(e: Event) {
    e.CostRecorded? || (e.RunWithCostAdded? && e.fault == NoFault)
  }

  /** The cost records whose charge succeeded, oldest first. */
  function Paid(es: seq<Event>, limit: Limit): seq<CostRecord> {
    if es == [] then []
    else
      var e := es[|es| - 1];
      Paid(es[..|es| - 1], limit) + if Attempts(e) && Accepts(limit, e.charge, e.chargeFails) then [e.charge] else []
  }

  /** The record that a refused charge archives without taking it off the live list: the oldest
      live one, if the list was full and the charge failed after rotating it. */
  function DoubledBy(paid: seq<CostRecord>, e: Event, limit: Limit): seq<CostRecord> {
    if Attempts(e) && !IsNegative(e.charge) && !Accepts(limit, e.charge, e.chargeFails) && |paid| >= MAX_RUNS
    then [paid[|paid| - MAX_RUNS]] else []
  }

  function Doubled(es: seq<Event>, limit: Limit): seq<CostRecord> {
    if es == [] then []
    else
      var front := es[..|es| - 1];
      Doubled(front, limit) + DoubledBy(Paid(front, limit), es[|es| - 1], limit)
  }

  /** The books after accepted records `paid` and doubled records `doubled`. */
  ghost predicate Matches(b: Books, paid: seq<CostRecord>, doubled: seq<CostRecord>, limit: Limit) {
    && b.budget.limit == limit
    && b.budget.byRun == Kept(paid, MAX_RUNS)
    && b.budget.total == SumValues(b.budget.byAgent) == SumCosts(paid)
    && (forall m :: AmountOf(b.budget.byAgent, m) == SpentBy(paid, m))
    && b.budget.alert == AlertFor(paid, limit)
    && |b.archive| == |Overflow(paid, MAX_RUNS)| + |doubled|
    && SumCosts(b.archive) == SumCosts(Overflow(paid, MAX_RUNS)) + SumCosts(doubled)
    && (doubled == [] ==> b.archive == Overflow(paid, MAX_RUNS))
  }

  function AmountOf(sums: Sums, model: string): int {
    if model in sums then sums[model] else 0
  }

  /** What the records of one model cost together. */
  function SpentBy(records: seq<CostRecord>, model: string): int {
    if records == [] then 0
    else
      var last := records[|records| - 1];
      SpentBy(records[..|records| - 1], model) + if last.model == model then last.cost else 0
  }

  /** No alert before the first accepted cost, then the one of the sum. */
  function AlertFor(paid: seq<CostRecord>, limit: Limit): Alert {
    if paid == [] || limit.Null? then NoAlert else AlertOf(SumCosts(paid), limit)
  }

  lemma SpentByNext(paid: seq<CostRecord>, c: CostRecord, sums: Sums)
    requires forall m :: AmountOf(sums, m) == SpentBy(paid, m)
    ensures forall m :: AmountOf(AddTo(sums, c.model, c.cost), m) == SpentBy(paid + [c], m)
  {
    assert (paid + [c])[..|paid|] == paid;
  }

  lemma SumOne(c: CostRecord)
    ensures SumCosts([c]) == c.cost
  {
    assert [c][..0] == [];
  }

  /** Rotating the live part of a list once more is rotating the whole list. */
  lemma RotateOnce<T>(h: seq<T>, x: T, max: nat)
    requires max > 0
    ensures Overflow(h + [x], max) == Overflow(h, max) + Overflow(Kept(h, max) + [x], max)
    ensures Kept(h + [x], max) == Kept(Kept(h, max) + [x], max)
    ensures Overflow(Kept(h, max) + [x], max) == if |h| >= max then [h[|h| - max]] else []
  {
  }

  lemma Regroup<T>(a: seq<T>, b: seq<T>, c: seq<T>)
    ensures a + [] == a && (b == [] ==> a + b + c == a + c)
  {
  }

  lemma AppendSums(a: seq<CostRecord>, b: seq<CostRecord>, more: seq<CostRecord>)
    ensures |a + more| - |b + more| == |a| - |b|
    ensures SumCosts(a + more) - SumCosts(b + more) == SumCosts(a) - SumCosts(b)
  {
    hide SumCosts;
    SumCostsConcat(a, more);
    SumCostsConcat(b, more);
  }

  lemma AcceptedMatches(b: Books, paid: seq<CostRecord>, doubled: seq<CostRecord>, limit: Limit, c: CostRecord)
    requires Matches(b, paid, doubled, limit) && Accepts(limit, c, false)
    ensures Matches(Charge(b, c, false).0, paid + [c], doubled, limit)
  {
    hide SumValues, SumCosts, AlertOf, AddTo, Overflow, Kept, SpentBy, AmountOf;
    var over := Overflow(Kept(paid, MAX_RUNS) + [c], MAX_RUNS);
    RotateOnce(paid, c, MAX_RUNS);
    AppendSums(b.archive, Overflow(paid, MAX_RUNS), over);
    SumCostsConcat(paid, [c]);
    SumOne(c);
    SumValuesAdd(b.budget.byAgent, c.model, c.cost);
    SpentByNext(paid, c, b.budget.byAgent);
    var b' := Charge(b, c, false).0;
    assert b'.budget.total == SumValues(b'.budget.byAgent) == SumCosts(paid + [c]);
    assert b'.budget.alert == AlertFor(paid + [c], limit);
  }

  lemma RefusedMatches(b: Books, paid: seq<CostRecord>, doubled: seq<CostRecord>, limit: Limit, c: CostRecord,
                       fails: bool)
    requires Matches(b, paid, doubled, limit) && !Accepts(limit, c, fails)
    ensures Matches(Charge(b, c, fails).0, paid, doubled + DoubledBy(paid, CostRecorded(c, fails), limit), limit)
  {
    var over := Overflow(Kept(paid, MAX_RUNS) + [c], MAX_RUNS);
    var more := DoubledBy(paid, CostRecorded(c, fails), limit);
    RotateOnce(paid, c, MAX_RUNS);
    assert !IsNegative(c) ==> over == more;
    SumCostsConcat(b.archive, over);
    SumCostsConcat(doubled, more);
    Regroup(b.archive, doubled, more);
    Regroup(doubled, doubled, more);
    hide SumValues, SumCosts, AlertOf, AddTo, Overflow, Kept, DoubledBy, SpentBy, AmountOf, AlertFor;
  }

  lemma StepMatches(s: State, paid: seq<CostRecord>, doubled: seq<CostRecord>, limit: Limit, e: Event)
    requires Matches(s.books, paid, doubled, limit)
    ensures Matches(Step(s, e).books,
                    paid + if Attempts(e) && Accepts(limit, e.charge, e.chargeFails) then [e.charge] else [],
                    doubled + DoubledBy(paid, e, limit), limit)
  {
    hide Matches, Append, Charge, Without;
    Regroup(paid, [], []);
    Regroup(doubled, [], []);
    if Attempts(e) {
      assert Step(s, e).books == Charge(s.books, e.charge, e.chargeFails).0;
      if Accepts(limit, e.charge, e.chargeFails) {
        AcceptedMatches(s.books, paid, doubled, limit, e.charge);
      } else {
        RefusedMatches(s.books, paid, doubled, limit, e.charge, e.chargeFails);
      }
    }
  }

  /** The books of every run. */
  lemma {:induction false} BooksOfRun(es: seq<Event>, limit: Limit)
    ensures Matches(Run(es, limit).books, Paid(es, limit), Doubled(es, limit), limit)
  {
    if es == [] {
      assert SumValues(map[]) == 0;
    } else {
      var front := es[..|es| - 1];
      BooksOfRun(front, limit);
      StepMatches(Run(front, limit), Paid(front, limit), Doubled(front, limit), limit, es[|es| - 1]);
      hide Matches, Step, DoubledBy;
    }
  }

  /** Cost conservation over every run from a new project: the total and the sum by agent are
      always the sum of the accepted costs, and the live records are the newest 500 of them.
      The archived and live records are the accepted ones exactly when no refused charge met a
      full list, and they add up to the total exactly when those that were doubled cost nothing. */
  lemma BooksBalanceIff(es: seq<Event>, limit: Limit)
    ensures var (b, paid) := (Run(es, limit).books, Paid(es, limit));
            && b.budget.total == SumValues(b.budget.byAgent) == SumCosts(paid)
            && (forall m :: AmountOf(b.budget.byAgent, m) == SpentBy(paid, m))
            && |b.budget.byRun| == (if |paid| <= 500 then |paid| else 500)
            && b.budget.byRun == paid[|paid| - |b.budget.byRun|..]
            && (b.Records() == paid <==> Doubled(es, limit) == [])
            && (Balanced(b) <==> SumCosts(Doubled(es, limit)) == 0)
  {
    hide Run, Paid, Doubled, SumCosts, SumValues, SpentBy, AmountOf, AlertFor;
    BooksOfRun(es, limit);
    var b, paid := Run(es, limit).books, Paid(es, limit);
    var over, kept := Overflow(paid, MAX_RUNS), Kept(paid, MAX_RUNS);
    assert over + kept == paid && |kept| <= MAX_RUNS;
    hide Overflow, Kept;
    SumCostsConcat(over, kept);
    SumCostsConcat(b.archive, kept);
    assert |b.Records()| == |paid| + |Doubled(es, limit)|;
  }

  /** The alert in the budget file, over every run: after the first accepted cost it is the level of
      the total against the limit, 10 dollars if the file names none. */
  lemma AlertInRun(es: seq<Event>, limit: Limit)
    requires !limit.Null? && Paid(es, limit) != []
    ensures var (alert, spent) := (Run(es, limit).books.budget.alert, SumCosts(Paid(es, limit)));
            var l := if limit.Amount? then limit.value else 1_000_000_000;
            && (alert == Stop <==> l <= 0 || spent >= l)
            && (alert == Pause <==> l > 0 && 95 * l <= 100 * spent < 100 * l)
            && (alert == Warning <==> l > 0 && 80 * l <= 100 * spent < 95 * l)
            && (alert == NoAlert <==> l > 0 && 100 * spent < 80 * l)
  {
    hide Run, Paid, Doubled, SumCosts, SumValues, SpentBy, AmountOf, Overflow, Kept;
    BooksOfRun(es, limit);
  }

  /** How a charge ends after any run: by its own amounts first, then by the limit of the budget file,
      then by its write. */
  lemma ChargeOutcome(es: seq<Event>, limit: Limit, c: CostRecord, fails: bool)
    ensures Charge(Run(es, limit).books, c, fails).1
            == if c.cost < 0 || c.tokensIn < 0 || c.tokensOut < 0 then Negative
               else if limit == Null then LimitIsNull
               else if fails then WriteFailed
               else Done
  {
    hide Run, Paid, Doubled, SumCosts, SumValues, SpentBy, AmountOf, Append, AlertOf;
    BooksOfRun(es, limit);
  }

  /** How adding a run ends and what becomes of the history: an archived project refuses it
      unchanged, a history whose state file cannot be written keeps its live list, and any other
      gains exactly the run. */
  lemma RunOutcome(log: Log<RunRecord>, archived: bool, r: RunRecord, fault: Fault)
    ensures var (next, outcome) := AddRunTo(log, archived, r, fault);
            && (outcome == Done <==> !archived && fault == NoFault)
            && (outcome == IsArchived <==> archived)
            && (outcome == WriteFailed <==> !archived && fault != NoFault)
            && (archived ==> next == log)
            && (!archived && fault == StateWriteFails ==>
                  && next.live == log.live
                  && next.archive == log.archive + (log.live + [r])[..if |log.live| < 500 then 0 else |log.live| - 499])
            && (!archived && fault != StateWriteFails ==> next.All() == log.All() + [r])
  {
    AppendConserves(log, r, MAX_RUNS);
  }

  lemma {:induction false} PaidInFull(c: CostRecord, n: nat, limit: Limit)
    requires Accepts(limit, c, false)
    ensures Paid(seq(n, _ => CostRecorded(c, false)), limit) == seq(n, _ => c)
    ensures Doubled(seq(n, _ => CostRecorded(c, false)), limit) == []
  {
    if n > 0 {
      var es := seq(n, _ => CostRecorded(c, false));
      assert es[..n - 1] == seq(n - 1, _ => CostRecorded(c, false));
      PaidInFull(c, n - 1, limit);
      assert seq(n - 1, _ => c) + [c] == seq(n, _ => c);
    }
  }

  lemma RefusedDoubles(es: seq<Event>, c: CostRecord, limit: Limit)
    requires |Paid(es, limit)| == MAX_RUNS && Accepts(limit, c, false)
    ensures Doubled(es + [CostRecorded(c, true)], limit) == Doubled(es, limit) + [Paid(es, limit)[0]]
  {
    assert (es + [CostRecorded(c, true)])[..|es|] == es;
  }

  /** After 500 charges of the same positive cost, one more whose write fails leaves the oldest
      record both archived and live, and the books out of balance. */
  lemma RefusedChargeUnbalances(c: CostRecord)
    requires c.cost > 0 && c.tokensIn >= 0 && c.tokensOut >= 0
    ensures var es := seq(500, _ => CostRecorded(c, false)) + [CostRecorded(c, true)];
            var b := Run(es, Amount(1)).books;
            !Balanced(b) && b.Records() != Paid(es, Amount(1))
  {
    hide Run, Balanced, Paid, Doubled;
    var es := seq(500, _ => CostRecorded(c, false));
    PaidInFull(c, 500, Amount(1));
    RefusedDoubles(es, c, Amount(1));
    BooksBalanceIff(es + [CostRecorded(c, true)], Amount(1));
    SumOne(c);
    assert [] + [c] == [c];
  }

  // ---------------------------------------------------------------------------------------
  // The run history over whole runs
  // ---------------------------------------------------------------------------------------

  /** The run an event is to leave in the history: it is refused when its state write fails, and
      taken back when its cost is refused and the rollback gets through. */
  function Gained(e: Event, limit: Limit): seq<RunRecord> {
    match e
    case RunAdded(r, fault) => if fault == StateWriteFails then [] else [r]
    case CostRecorded(_, _) => []
    case RunWithCostAdded(r, fault, c, fails, rollback) =>
      if || fault == StateWriteFails
         || (fault == NoFault && !Accepts(limit, c, fails) && rollback != StateWriteFails)
      then [] else [r]
  }

  function History(es: seq<Event>, limit: Limit): seq<RunRecord> {
    if es == [] then [] else History(es[..|es| - 1], limit) + Gained(es[|es| - 1], limit)
  }

  /** An event does nothing else to the history: a failed state write meets a list that is not
      full, and a rollback an id that no remaining live run has. */
  predicate Clean(live: seq<RunRecord>, e: Event, limit: Limit) {
    match e
    case RunAdded(_, fault) => fault == StateWriteFails ==> |live| < MAX_RUNS
    case CostRecorded(_, _) => true
    case RunWithCostAdded(r, fault, c, fails, rollback) =>
      && (fault == StateWriteFails ==> |live| < MAX_RUNS)
      && (fault == NoFault && !Accepts(limit, c, fails) && rollback != StateWriteFails ==> Fresh(Beside(live), r.id))
  }

  lemma RefusedRunAll(s: State, r: RunRecord, c: CostRecord, fails: bool, rollback: Fault)
    requires Charge(s.books, c, fails).1 != Done
    ensures var all := RunWithCost(s, false, r, c, NoFault, fails, rollback).0.runs.All();
            if rollback == StateWriteFails then all == s.runs.All() + [r]
            else all == s.runs.All() <==> Fresh(Beside(s.runs.live), r.id)
  {
    hide Append, Charge, Fresh, Beside;
    if rollback == StateWriteFails {
      RollbackLost(s, r, c, fails);
    } else {
      RollbackRestores(s, r, c, fails, rollback);
    }
  }

  lemma StepGains(s: State, e: Event, limit: Limit)
    requires s.books.budget.limit == limit
    ensures Step(s, e).runs.All() == s.runs.All() + Gained(e, limit) <==> Clean(s.runs.live, e, limit)
  {
    hide Append, Charge, Fresh, Beside, AddRunTo, Log.All;
    Regroup(s.runs.All(), [], []);
    match e
    case RunAdded(r, fault) => AddRunKeeps(s.runs, r);
    case CostRecorded(c, fails) =>
    case RunWithCostAdded(r, fault, c, fails, rollback) =>
      AddRunKeeps(s.runs, r);
      DoneIffAccepts(s.books, c, fails);
      if fault == NoFault {
        if Accepts(limit, c, fails) {
          ChargedBoth(s, r, c, fails, rollback);
        } else {
          RefusedRunAll(s, r, c, fails, rollback);
        }
      } else {
        assert Step(s, e).runs == AddRunTo(s.runs, false, r, fault).0 by {
          AddRunOutcome(s.runs, r, fault);
        }
      }
  }

  lemma AddRunOutcome(log: Log<RunRecord>, r: RunRecord, fault: Fault)
    ensures AddRunTo(log, false, r, fault).1 == Done <==> fault == NoFault
  {
  }

  ghost predicate ExactUpTo(es: seq<Event>, n: nat, limit: Limit)
    requires n <= |es|
  {
    forall k | 0 <= k <= n :: Run(es[..k], limit).runs.All() == History(es[..k], limit)
  }

  ghost predicate CleanUpTo(es: seq<Event>, n: nat, limit: Limit)
    requires n <= |es|
  {
    forall k | 0 <= k < n :: Clean(Run(es[..k], limit).runs.live, es[k], limit)
  }

  lemma ExactNext(es: seq<Event>, n: nat, limit: Limit)
    requires n < |es| && Run(es[..n], limit).runs.All() == History(es[..n], limit)
    ensures Run(es[..n + 1], limit).runs.All() == History(es[..n + 1], limit)
            <==> Clean(Run(es[..n], limit).runs.live, es[n], limit)
  {
    var front, s := es[..n], Run(es[..n], limit);
    assert es[..n + 1][..n] == front;
    BooksOfRun(front, limit);
    StepGains(s, es[n], limit);
    hide Step, Clean, Gained, Log.All;
  }

  lemma {:induction false} ExactIffClean(es: seq<Event>, n: nat, limit: Limit)
    requires n <= |es|
    ensures ExactUpTo(es, n, limit) <==> CleanUpTo(es, n, limit)
  {
    hide Clean, Run, History;
    if n == 0 {
      NothingYet(es, limit);
    } else {
      ExactIffClean(es, n - 1, limit);
      if ExactUpTo(es, n - 1, limit) {
        ExactNext(es, n - 1, limit);
      } else {
        var k :| 0 <= k <= n - 1 && Run(es[..k], limit).runs.All() != History(es[..k], limit);
        var j :| 0 <= j < n - 1 && !Clean(Run(es[..j], limit).runs.live, es[j], limit);
      }
    }
  }

  lemma NothingYet(es: seq<Event>, limit: Limit)
    ensures Run(es[..0], limit).runs.All() == History(es[..0], limit)
  {
  }

  /** Over every run from a new project, with any faults: archive and live list always are the
      history of gained runs, in order, exactly when every event meets its condition, and at most
      500 runs are ever live. */
  lemma HistoryExactIff(es: seq<Event>, limit: Limit)
    ensures (forall k | 0 <= k <= |es| :: Run(es[..k], limit).runs.All() == History(es[..k], limit))
            <==> forall k | 0 <= k < |es| :: Clean(Run(es[..k], limit).runs.live, es[k], limit)
    ensures |Run(es, limit).runs.live| <= 500
  {
    ExactIffClean(es, |es|, limit);
    LiveIsBounded(es, limit);
    hide Run, History, Clean;
  }

  lemma StepBounded(s: State, e: Event)
    requires |s.runs.live| <= MAX_RUNS
    ensures |Step(s, e).runs.live| <= MAX_RUNS
  {
    hide Charge;
    if !e.CostRecorded? {
      var next := Append(s.runs, e.run, MAX_RUNS);
      AppendConserves(s.runs, e.run, MAX_RUNS);
      WithoutFacts(next.live, e.run.id);
      hide Append, Without;
    }
  }

  lemma {:induction false} LiveIsBounded(es: seq<Event>, limit: Limit)
    ensures |Run(es, limit).runs.live| <= MAX_RUNS
  {
    if es != [] {
      LiveIsBounded(es[..|es| - 1], limit);
      StepBounded(Run(es[..|es| - 1], limit), es[|es| - 1]);
      hide Step;
    }
  }
}
