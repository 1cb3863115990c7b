/**
 Recording, trimming, saving and loading (core/budget_controller.py, class `BudgetController`).

 The disk is a map from project id to the contents of its budget file; writes are atomic.
 */
module BudgetStore {
  import opened Common
  import opened BudgetLedger
  import opened BudgetTotals
  import D = BudgetDowngrade

  const MAX_ENTRIES_IN_MEMORY: nat := 10_000
  const ENTRIES_TRIM_TO: nat := 8_000

  /** One usage report, as passed to `record`. */
  datatype Usage = Usage(
    project: string, task: string, model: string, category: string, plan: D.Plan, override: Option<int>)

  /** A budget file; `None` is an entry that does not parse. */
  datatype File =
    | Corrupt
    | Document(entries: seq<Option<Entry>>, limits: Limits, totalSpent: int, byModel: Sums)

  datatype RecordOutcome = Recorded(entry: Entry) | InvalidProject | Rejected(error: D.Cost)

  // ---------------------------------------------------------------------------------------
  // Recording one usage
  // ---------------------------------------------------------------------------------------

  predicate IsIdChar(c: char) {
    'a' <= c <= 'z' || 'A' <= c <= 'Z' || '0' <= c <= '9' || c == '_' || c == '-'
  }

  predicate IsId(s: string) {
    1 <= |s| <= 128 && forall i | 0 <= i < |s| :: IsIdChar(s[i])
  }

  /** `_SAFE_PROJECT_ID.match`: the dollar sign of the pattern also matches before a final
      newline. */
  predicate ValidProjectId(s: string) {
    IsId(s) || (s != "" && s[|s| - 1] == '\n' && IsId(s[..|s| - 1]))
  }

  lemma ValidIdHasNoColon(s: string)
    requires ValidProjectId(s)
    ensures ColonFree(s)
  {
    if IsId(s) {
      assert forall i | 0 <= i < |s| :: s[i] != ':';
    } else {
      assert forall i | 0 <= i < |s| - 1 :: s[i] == s[..|s| - 1][i];
    }
  }

  predicate AnyNegative(p: D.Plan) {
    p.inputTokens < 0 || p.outputTokens < 0 || p.images < 0 || p.credits < 0
  }

  /** The cost before rounding: the override or the priced usage, and the Manus credits on top
      in either case. */
  function RawCost(reg: D.Registry, u: Usage): D.Cost {
    if AnyNegative(u.plan) then D.NegativeInput
    else
      var base := match u.override
                  case Some(amount) => D.Cost(amount)
                  case None => D.Estimate(reg, u.model, u.plan);
      D.Plus(base, D.ManusCost(u.plan.credits))
  }

  function EntryOf(u: Usage, timestamp: string, cost: int): Entry {
    Entry(timestamp, u.project, u.task, u.model, u.category, u.plan.inputTokens, u.plan.outputTokens,
          u.plan.imageModel, u.plan.images, u.plan.credits, RoundMicro(cost))
  }

  function OutcomeOf(reg: D.Registry, u: Usage, timestamp: string): RecordOutcome {
    if !ValidProjectId(u.project) then InvalidProject
    else
      var cost := RawCost(reg, u);
      if cost.Cost? then Recorded(EntryOf(u, timestamp, cost.amount)) else Rejected(cost)
  }

  /** What is recorded without an override equals the estimate exactly when no Manus credits were
      used: credits are charged twice, once in the estimate and once on top. */
  lemma RecordedIsEstimateIffNoCredits(reg: D.Registry, u: Usage)
    requires !AnyNegative(u.plan) && u.override.None? && D.Estimate(reg, u.model, u.plan).Cost?
    ensures RawCost(reg, u) == D.Cost(D.Estimate(reg, u.model, u.plan).amount + u.plan.credits * D.MANUS_CREDIT)
    ensures RawCost(reg, u) == D.Estimate(reg, u.model, u.plan) <==> u.plan.credits == 0
  {
    hide D.Estimate;
  }

  /** When a record is refused: for an impossible project id, then for any negative amount, then for
      what cannot be priced; with an amount passed in nothing is priced. */
  lemma RecordRefused(reg: D.Registry, u: Usage, timestamp: string)
    ensures var (outcome, p) := (OutcomeOf(reg, u, timestamp), u.plan);
            if !ValidProjectId(u.project) then outcome == InvalidProject
            else if p.inputTokens < 0 || p.outputTokens < 0 || p.images < 0 || p.credits < 0
            then outcome == Rejected(D.NegativeInput)
            else if u.override.None? && !D.Estimate(reg, u.model, p).Cost?
            then outcome == Rejected(D.Estimate(reg, u.model, p))
            else outcome.Recorded?
  {
    hide ValidProjectId, RoundMicro, D.Estimate;
  }

  /** The usage is stored as it was reported. */
  lemma RecordedAsReported(reg: D.Registry, u: Usage, timestamp: string)
    requires OutcomeOf(reg, u, timestamp).Recorded?
    ensures var (e, p) := (OutcomeOf(reg, u, timestamp).entry, u.plan);
            && e.timestamp == timestamp && e.project == u.project && e.task == u.task && e.model == u.model
            && e.category == u.category && e.inputTokens == p.inputTokens && e.outputTokens == p.outputTokens
            && e.imageModel == p.imageModel && e.images == p.images && e.credits == p.credits
  {
    hide ValidProjectId, RoundMicro, RawCost;
  }

  /** A letter, a digit, an underscore or a hyphen, by its code. */
  predicate IdCode(code: int) {
    97 <= code <= 122 || 65 <= code <= 90 || 48 <= code <= 57 || code == 95 || code == 45
  }

  /** Which project ids are accepted: 1 to 128 such characters, and possibly a newline after them. */
  lemma ProjectIdIs(s: string)
    ensures var n := if s != "" && s[|s| - 1] == '\n' then |s| - 1 else |s|;
            ValidProjectId(s) <==> 1 <= n <= 128 && forall i | 0 <= i < n :: IdCode(s[i] as int)
  {
    assert forall c: char :: IsIdChar(c) <==> IdCode(c as int);
    assert !IsIdChar('\n');
    if s != "" && s[|s| - 1] == '\n' {
      assert !IsId(s);
      assert forall i | 0 <= i < |s| - 1 :: s[..|s| - 1][i] == s[i];
    }
    hide IsIdChar, IdCode;
  }

  /** An amount passed in is charged as it is, with the credits on top at $0.00125 each, and what is
      stored of it is the nearest micro-dollar. */
  lemma OverrideIsCharged(reg: D.Registry, u: Usage, timestamp: string)
    requires ValidProjectId(u.project) && u.override.Some?
    requires u.plan.inputTokens >= 0 && u.plan.outputTokens >= 0 && u.plan.images >= 0 && u.plan.credits >= 0
    ensures OutcomeOf(reg, u, timestamp).Recorded?
    ensures OutcomeOf(reg, u, timestamp).entry.cost == RoundMicro(u.override.value + 125_000 * u.plan.credits)
  {
    hide ValidProjectId, RoundMicro;
  }

  // ---------------------------------------------------------------------------------------
  // Trimming
  // ---------------------------------------------------------------------------------------

  function Trim(es: seq<Entry>): seq<Entry> {
    if |es| > MAX_ENTRIES_IN_MEMORY then es[|es| - ENTRIES_TRIM_TO..] else es
  }

  /** The ledger after recording a history of entries and nothing else. */
  function Keep(history: seq<Entry>): seq<Entry> {
    if history == [] then [] else Trim(Keep(history[..|history| - 1]) + [history[|history| - 1]])
  }

  /** How many of `n` recorded entries are still in memory. */
  function KeptCount(n: nat): nat {
    if n <= 10_000 then n else 8_000 + (n - 10_001) % 2_001
  }

  /** In record-only runs the ledger is a suffix of the full history, of exactly known length,
      never above 10 000. */
  lemma {:induction false} KeepIsSuffix(history: seq<Entry>)
    ensures |Keep(history)| == KeptCount(|history|) <= MAX_ENTRIES_IN_MEMORY
    ensures |Keep(history)| <= |history| && Keep(history) == history[|history| - |Keep(history)|..]
  {
    if history != [] {
      var n := |history| - 1;
      KeepIsSuffix(history[..n]);
      KeptCountNext(n);
      TrimIsSuffix(history, |Keep(history[..n])|);
    }
  }

  lemma TrimIsSuffix(h: seq<Entry>, k: nat)
    requires k < |h|
    ensures var n := |h| - 1;
            var t := Trim(h[..n][n - k..] + [h[n]]);
            && |t| == (if k + 1 > MAX_ENTRIES_IN_MEMORY then ENTRIES_TRIM_TO else k + 1)
            && |t| <= |h| && t == h[|h| - |t|..]
  {
    var n := |h| - 1;
    assert h[..n][n - k..] + [h[n]] == h[n - k..];
  }

  lemma KeptCountNext(n: nat)
    ensures KeptCount(n + 1) == if KeptCount(n) + 1 > MAX_ENTRIES_IN_MEMORY then ENTRIES_TRIM_TO else KeptCount(n) + 1
  {
    if n > 10_000 {
      var x := n - 10_001;
      assert (x + 1) % 2_001 == if x % 2_001 == 2_000 then 0 else x % 2_001 + 1;
    }
  }

  /** Nothing is lost but what was trimmed: over any filter, the recorded total is what is in
      memory plus what was dropped. */
  lemma KeepConserves(history: seq<Entry>, p: Entry -> bool)
    ensures |Keep(history)| <= |history|
    ensures SumIf(p, history)
            == SumIf(p, Keep(history)) + SumIf(p, history[..|history| - |Keep(history)|])
  {
    KeepIsSuffix(history);
    var k := |history| - |Keep(history)|;
    assert history[..k] + history[k..] == history;
    SumConcat(p, history[..k], history[k..]);
  }

  /** What the trim drops from a sum when one more entry is recorded. */
  function Dropped(es: seq<Entry>, p: Entry -> bool): int {
    if |es| < MAX_ENTRIES_IN_MEMORY then 0 else SumIf(p, es[..|es| + 1 - ENTRIES_TRIM_TO])
  }

  lemma SumAfterRecord(es: seq<Entry>, e: Entry, p: Entry -> bool)
    ensures SumIf(p, Trim(es + [e])) == SumIf(p, es) - Dropped(es, p) + if p(e) then e.cost else 0
  {
    hide SumIf;
    if |es| >= MAX_ENTRIES_IN_MEMORY {
      var k := |es| + 1 - ENTRIES_TRIM_TO;
      SumConcat(p, es[..k], es[k..]);
      SumNext(p, es[k..], e);
      CutAt(es, e, k);
    } else {
      SumNext(p, es, e);
    }
  }

  lemma CutAt(es: seq<Entry>, e: Entry, k: nat)
    requires k <= |es|
    ensures es[..k] + es[k..] == es && (es + [e])[k..] == es[k..] + [e]
  {
  }

  /** Recording lowers a sum exactly when the trim drops more than the new entry adds. */
  lemma RecordLowersIffTrimmed(es: seq<Entry>, e: Entry, p: Entry -> bool)
    ensures SumIf(p, Trim(es + [e])) < SumIf(p, es) <==> Dropped(es, p) > if p(e) then e.cost else 0
  {
    SumAfterRecord(es, e, p);
  }

  /** Whether a limit stops after a record, from the ledger before it: exactly when the spend less
      what the trim drops plus the new cost reaches the limit. */
  lemma StoppedAfterRecordIff(es: seq<Entry>, e: Entry, p: Entry -> bool, limit: Option<int>)
    ensures StatusOf(SumIf(p, Trim(es + [e])), limit) == Stopped
            <==> limit.Some? && limit.value > 0
                 && SumIf(p, es) - Dropped(es, p) + (if p(e) then e.cost else 0) >= limit.value
  {
    hide SumIf, Dropped, Trim;
    SumAfterRecord(es, e, p);
  }

  lemma {:induction false} SumOfEqual(p: Entry -> bool, e: Entry, n: nat)
    ensures SumIf(p, seq(n, _ => e)) == if p(e) then n * e.cost else 0
  {
    if n > 0 {
      SumOfEqual(p, e, n - 1);
      assert seq(n, _ => e)[..n - 1] == seq(n - 1, _ => e);
    }
  }

  /** A free entry can take a stopped project back to OK: a full ledger whose 2001 oldest entries
      spent the whole limit loses exactly those. */
  lemma TrimCanUnstop(month: string, paid: Entry, free: Entry)
    requires paid.project == free.project == "p" && MonthOf(paid) == MonthOf(free) == month
    requires paid.cost == 100 && free.cost == 0
    ensures var es := seq(2_001, _ => paid) + seq(7_999, _ => free);
            && StatusOf(SpentOnProject(es, "p", month), Some(200_100)) == Stopped
            && StatusOf(SpentOnProject(Trim(es + [free]), "p", month), Some(200_100)) == Ok
  {
    var a, b := seq(2_001, _ => paid), seq(7_999, _ => free);
    var p := OnProject("p", month);
    SumOfEqual(p, paid, 2_001);
    SumOfEqual(p, free, 7_999);
    SumConcat(p, a, b);
    SumNext(p, b, free);
    assert Trim(a + b + [free]) == b + [free];
  }

  /** Stored costs against exact costs: at most half a micro-dollar of drift per entry. */
  lemma {:induction false} DriftIsBounded(raw: seq<int>)
    ensures -50 * |raw| <= SumRounded(raw) - SumExact(raw) <= 50 * |raw|
  {
    if raw != [] {
      DriftIsBounded(raw[..|raw| - 1]);
      RoundMicroBounds(raw[|raw| - 1]);
    }
  }

  function SumExact(raw: seq<int>): int {
    if raw == [] then 0 else SumExact(raw[..|raw| - 1]) + raw[|raw| - 1]
  }

  function SumRounded(raw: seq<int>): int {
    if raw == [] then 0 else SumRounded(raw[..|raw| - 1]) + RoundMicro(raw[|raw| - 1])
  }

  // ---------------------------------------------------------------------------------------
  // Saving and loading
  // ---------------------------------------------------------------------------------------

  function Filter(p: Entry -> bool, es: seq<Entry>): seq<Entry> {
    if es == [] then [] else Filter(p, es[..|es| - 1]) + if p(es[|es| - 1]) then [es[|es| - 1]] else []
  }

  function OfProject(project: string): Entry -> bool {
    (e: Entry) => e.project == project
  }

  function NotOfProject(project: string): Entry -> bool {
    (e: Entry) => e.project != project
  }

  function Only(project: string, es: seq<Entry>): seq<Entry> {
    Filter(OfProject(project), es)
  }

  function Others(project: string, es: seq<Entry>): seq<Entry> {
    Filter(NotOfProject(project), es)
  }

  /** The entries of a file that parse and belong to the project. */
  function Readable(project: string, entries: seq<Option<Entry>>): seq<Entry> {
    if entries == [] then []
    else
      var last := entries[|entries| - 1];
      Readable(project, entries[..|entries| - 1])
      + if last.Some? && last.value.project == project then [last.value] else []
  }

  function Wrap(es: seq<Entry>): seq<Option<Entry>> {
    seq(|es|, i requires 0 <= i < |es| => Some(es[i]))
  }

  function LimitsOf(limits: map<string, Limits>, project: string): Limits {
    if project in limits then limits[project] else Limits(None, None)
  }

  function RoundAll(m: Sums): Sums {
    map k | k in m :: RoundMicro(m[k])
  }

  function DocumentOf(project: string, es: seq<Entry>, limits: map<string, Limits>): File {
    Document(Wrap(Only(project, es)), LimitsOf(limits, project), RoundMicro(SumIf(OfProject(project), es)),
             RoundAll(Totals(ModelKey, OfProject(project), es)))
  }

  function Prefer(a: Option<int>, b: Option<int>): Option<int> {
    if a.Some? then a else b
  }

  /** What loading leaves in memory: entries and limits. */
  function Loaded(project: string, es: seq<Entry>, limits: map<string, Limits>, files: map<string, File>)
    : (seq<Entry>, map<string, Limits>)
  {
    if project !in files || files[project].Corrupt? then (Others(project, es), limits)
    else
      var doc := files[project];
      var now := LimitsOf(limits, project);
      (Others(project, es) + Readable(project, doc.entries),
       limits[project := Limits(Prefer(doc.limits.perTask, now.perTask),
                                Prefer(doc.limits.perProject, now.perProject))])
  }

  class Controller {
    const reg: D.Registry
    const autoSave: bool
    var entries: seq<Entry>
    var limits: map<string, Limits>
    var files: map<string, File>

    constructor (reg: D.Registry, autoSave: bool, files: map<string, File>)
      ensures this.reg == reg && this.autoSave == autoSave && entries == [] && limits == map[] && this.files == files
    {
      this.reg, this.autoSave, this.files := reg, autoSave, files;
      entries, limits := [], map[];
    }

    method SetLimits(project: string, perTask: Option<int>, perProject: Option<int>)
      modifies this`limits
      ensures limits == old(limits)[project := Limits(Prefer(perTask, LimitsOf(old(limits), project).perTask),
                                                      Prefer(perProject, LimitsOf(old(limits), project).perProject))]
      ensures perTask != None ==> limits[project].perTask == perTask
      ensures perTask == None && project in old(limits) ==> limits[project].perTask == old(limits)[project].perTask
      ensures perProject != None ==> limits[project].perProject == perProject
      ensures perProject == None && project in old(limits) ==>
                limits[project].perProject == old(limits)[project].perProject
    {
      var now := if project in limits then limits[project] else Limits(None, None);
      if perTask.Some? {
        now := now.(perTask := perTask);
      }
      if perProject.Some? {
        now := now.(perProject := perProject);
      }
      limits := limits[project := now];
    }

    method Record(u: Usage, timestamp: string) returns (outcome: RecordOutcome)
      modifies this`entries, this`files
      ensures outcome == OutcomeOf(reg, u, timestamp)
      ensures entries == if outcome.Recorded? then Trim(old(entries) + [outcome.entry]) else old(entries)
      ensures files == if outcome.Recorded? && autoSave
                       then old(files)[u.project := DocumentOf(u.project, entries, limits)] else old(files)
    {
      if !ValidProjectId(u.project) {
        return InvalidProject;
      }
      if AnyNegative(u.plan) {
        return Rejected(D.NegativeInput);
      }
      var cost: D.Cost;
      if u.override.Some? {
        cost := D.Cost(u.override.value);
      } else {
        cost := D.Estimate(reg, u.model, u.plan);
        if !cost.Cost? {
          return Rejected(cost);
        }
      }
      if u.plan.credits != 0 {
        cost := D.Plus(cost, D.ManusCost(u.plan.credits));
      }
      var entry := EntryOf(u, timestamp, cost.amount);
      entries := entries + [entry];
      MaybeTrimEntries();
      if autoSave {
        var saved := SaveProject(u.project);
      }
      return Recorded(entry);
    }

    method MaybeTrimEntries()
      modifies this`entries
      ensures entries == Trim(old(entries))
    {
      if |entries| > MAX_ENTRIES_IN_MEMORY {
        entries := entries[|entries| - ENTRIES_TRIM_TO..];
      }
    }

    method SaveProject(project: string) returns (ok: bool)
      modifies this`files
      ensures ok == ValidProjectId(project)
      ensures files == if ok then old(files)[project := DocumentOf(project, entries, limits)] else old(files)
    {
      if !ValidProjectId(project) {
        return false;
      }
      var kept: seq<Entry>, byModel: Sums, total := [], map[], 0;
      for i := 0 to |entries|
        invariant kept == Only(project, entries[..i])
        invariant byModel == Totals(ModelKey, OfProject(project), entries[..i])
        invariant total == SumIf(OfProject(project), entries[..i])
      {
        assert entries[..i + 1][..i] == entries[..i];
        var e := entries[i];
        if e.project == project {
          kept := kept + [e];
          byModel := AddTo(byModel, e.model, e.cost);
          total := total + e.cost;
        }
      }
      assert entries[..|entries|] == entries;
      files := files[project := Document(Wrap(kept), LimitsOf(limits, project), RoundMicro(total), RoundAll(byModel))];
      return true;
    }

    method LoadProject(project: string) returns (ok: bool)
      modifies this`entries, this`limits
      ensures ok == ValidProjectId(project)
      ensures (entries, limits) == if ok then Loaded(project, old(entries), old(limits), files)
                                   else (old(entries), old(limits))
    {
      if !ValidProjectId(project) {
        return false;
      }
      RemoveProject(project);
      if project !in files || files[project].Corrupt? {
        return true;
      }
      var doc := files[project];
      ghost var rest := entries;
      for i := 0 to |doc.entries|
        invariant entries == rest + Readable(project, doc.entries[..i]) && limits == old(limits)
      {
        assert doc.entries[..i + 1][..i] == doc.entries[..i];
        if doc.entries[i].Some? && doc.entries[i].value.project == project {
          entries := entries + [doc.entries[i].value];
        }
      }
      assert doc.entries[..|doc.entries|] == doc.entries;
      SetLimits(project, doc.limits.perTask, doc.limits.perProject);
      return true;
    }

    method RemoveProject(project: string)
      modifies this`entries
      ensures entries == Others(project, old(entries))
    {
      var rest: seq<Entry> := [];
      for i := 0 to |entries|
        invariant rest == Others(project, entries[..i]) && entries == old(entries)
      {
        assert entries[..i + 1][..i] == entries[..i];
        if entries[i].project != project {
          rest := rest + [entries[i]];
        }
      }
      assert entries[..|entries|] == entries;
      entries := rest;
    }
  }

  // ---------------------------------------------------------------------------------------
  // Save, then load
  // ---------------------------------------------------------------------------------------

  lemma FilterNext(p: Entry -> bool, es: seq<Entry>, e: Entry)
    ensures Filter(p, es + [e]) == Filter(p, es) + if p(e) then [e] else []
  {
    assert (es + [e])[..|es|] == es;
  }

  lemma {:induction false} FilterConcat(p: Entry -> bool, a: seq<Entry>, b: seq<Entry>)
    ensures Filter(p, a + b) == Filter(p, a) + Filter(p, b)
  {
    if b == [] {
      assert a + b == a;
    } else {
      var front, last := b[..|b| - 1], b[|b| - 1];
      FilterConcat(p, a, front);
      FilterNext(p, a + front, last);
      FilterNext(p, front, last);
      hide Filter;
      assert a + b == a + front + [last] && b == front + [last];
    }
  }

  /** Filtering by `p` first keeps all that `q` selects within `p`, and nothing outside it. */
  lemma {:induction false} FilterTwice(p: Entry -> bool, q: Entry -> bool, es: seq<Entry>)
    ensures (forall e :: q(e) ==> p(e)) ==> Filter(q, Filter(p, es)) == Filter(q, es)
    ensures (forall e :: !(p(e) && q(e))) ==> Filter(q, Filter(p, es)) == []
  {
    if es != [] {
      var front, e := es[..|es| - 1], es[|es| - 1];
      FilterTwice(p, q, front);
      FilterNext(q, Filter(p, front), e);
      assert Filter(p, es) == if p(e) then Filter(p, front) + [e] else Filter(p, front);
    }
  }

  lemma {:induction false} ReadableWrap(project: string, es: seq<Entry>)
    ensures Readable(project, Wrap(es)) == Only(project, es)
  {
    if es != [] {
      var n := |es| - 1;
      ReadableWrap(project, es[..n]);
      assert Wrap(es)[..n] == Wrap(es[..n]);
    }
  }

  /** A save of one project followed by a load of it. */
  function SaveLoad(project: string, es: seq<Entry>, limits: map<string, Limits>, files: map<string, File>)
    : (seq<Entry>, map<string, Limits>)
  {
    Loaded(project, es, limits, files[project := DocumentOf(project, es, limits)])
  }

  lemma SaveLoadIs(project: string, es: seq<Entry>, limits: map<string, Limits>, files: map<string, File>)
    ensures SaveLoad(project, es, limits, files)
            == (Others(project, es) + Only(project, es), limits[project := LimitsOf(limits, project)])
  {
    ReadableWrap(project, Only(project, es));
    FilterTwice(OfProject(project), OfProject(project), es);
    hide Filter, Others, Readable;
  }

  /** Saving and loading one project changes no project's entries or their order, and no limit. */
  lemma SaveLoadKeepsEntries(project: string, q: string, es: seq<Entry>, limits: map<string, Limits>,
                             files: map<string, File>)
    ensures Only(q, SaveLoad(project, es, limits, files).0) == Only(q, es)
    ensures LimitsOf(SaveLoad(project, es, limits, files).1, q) == LimitsOf(limits, q)
  {
    SaveLoadIs(project, es, limits, files);
    hide Filter, SaveLoad;
    FilterConcat(OfProject(q), Others(project, es), Only(project, es));
    FilterTwice(NotOfProject(project), OfProject(q), es);
    FilterTwice(OfProject(project), OfProject(q), es);
  }

  lemma {:induction false} SumSplit(p: Entry -> bool, project: string, es: seq<Entry>)
    ensures SumIf(p, Others(project, es)) + SumIf(p, Only(project, es)) == SumIf(p, es)
  {
    if es != [] {
      var front, e := es[..|es| - 1], es[|es| - 1];
      SumSplit(p, project, front);
      FilterAt(OfProject(project), es);
      FilterAt(NotOfProject(project), es);
      SumNext(p, front, e);
      assert front + [e] == es;
      hide SumIf, Filter;
      SumNext(p, Others(project, front), e);
      SumNext(p, Only(project, front), e);
    }
  }

  lemma FilterAt(p: Entry -> bool, es: seq<Entry>)
    requires es != []
    ensures var (front, e) := (es[..|es| - 1], es[|es| - 1]);
            Filter(p, es) == if p(e) then Filter(p, front) + [e] else Filter(p, front)
  {
  }

  /** Nor any aggregate: whatever is summed over the ledger keeps its value. */
  lemma SaveLoadKeepsSums(p: Entry -> bool, project: string, es: seq<Entry>, limits: map<string, Limits>,
                          files: map<string, File>)
    ensures SumIf(p, SaveLoad(project, es, limits, files).0) == SumIf(p, es)
  {
    SaveLoadIs(project, es, limits, files);
    SumConcat(p, Others(project, es), Only(project, es));
    SumSplit(p, project, es);
  }

  lemma {:induction false} ReadableIsOwn(project: string, file: seq<Option<Entry>>)
    ensures Others(project, Readable(project, file)) == []
  {
    if file != [] {
      var front, last := file[..|file| - 1], file[|file| - 1];
      ReadableIsOwn(project, front);
      if last.Some? && last.value.project == project {
        FilterNext(NotOfProject(project), Readable(project, front), last.value);
      } else {
        assert Readable(project, file) == Readable(project, front);
      }
    }
  }

  /** Loading twice is loading once, whatever the file holds. */
  lemma SecondLoadIsNoOp(project: string, es: seq<Entry>, limits: map<string, Limits>, files: map<string, File>)
    ensures var (es1, limits1) := Loaded(project, es, limits, files);
            Loaded(project, es1, limits1, files) == (es1, limits1)
  {
    FilterTwice(NotOfProject(project), NotOfProject(project), es);
    hide Filter, Readable;
    if project in files && files[project].Document? {
      ReadableIsOwn(project, files[project].entries);
      var rest, own := Others(project, es), Readable(project, files[project].entries);
      FilterConcat(NotOfProject(project), rest, own);
      assert rest + [] == rest;
      var (es1, limits1) := Loaded(project, es, limits, files);
      assert limits1[project := limits1[project]] == limits1;
    }
  }

  /** Loading a project that has no readable file empties its ledger and touches no other. */
  lemma LoadWithoutFileDrops(project: string, q: string, es: seq<Entry>, limits: map<string, Limits>,
                             files: map<string, File>)
    requires project !in files || files[project].Corrupt?
    ensures Only(q, Loaded(project, es, limits, files).0) == if q == project then [] else Only(q, es)
  {
    FilterTwice(NotOfProject(project), OfProject(q), es);
    hide Filter;
    assert Loaded(project, es, limits, files).0 == Others(project, es);
  }

  /** The limits after a load: those that the file gives, the ones in memory where it gives none, and
      no change for other projects. */
  lemma LoadedLimits(project: string, q: string, es: seq<Entry>, limits: map<string, Limits>, files: map<string, File>)
    requires project in files && files[project].Document?
    ensures var (given, before, after) := (files[project].limits, LimitsOf(limits, project),
                                           LimitsOf(Loaded(project, es, limits, files).1, project));
            && (given.perTask != None ==> after.perTask == given.perTask)
            && (given.perTask == None ==> after.perTask == before.perTask)
            && (given.perProject != None ==> after.perProject == given.perProject)
            && (given.perProject == None ==> after.perProject == before.perProject)
    ensures q != project ==> LimitsOf(Loaded(project, es, limits, files).1, q) == LimitsOf(limits, q)
  {
    hide Others, Readable;
  }

  // ---------------------------------------------------------------------------------------
  // The saved aggregates
  // ---------------------------------------------------------------------------------------

  function Costs(es: seq<Entry>): int {
    if es == [] then 0 else Costs(es[..|es| - 1]) + es[|es| - 1].cost
  }

  lemma {:induction false} CostsOfFilter(p: Entry -> bool, es: seq<Entry>)
    ensures Costs(Filter(p, es)) == SumIf(p, es)
  {
    if es != [] {
      CostsOfFilter(p, es[..|es| - 1]);
      var front, last := Filter(p, es[..|es| - 1]), es[|es| - 1];
      assert front + [] == front && (front + [last])[..|front|] == front;
      assert Costs(front + [last]) == Costs(front) + last.cost;
    }
  }

  function OfModel(project: string, model: string): Entry -> bool {
    (e: Entry) => e.project == project && e.model == model
  }

  /** A saved file, exactly: the project's entries and limits, what they cost together, and for every
      model they use what its entries cost, each to the nearest micro-dollar. */
  lemma SavedDocument(project: string, model: string, es: seq<Entry>, limits: map<string, Limits>)
    ensures var (d, own) := (DocumentOf(project, es, limits), Only(project, es));
            && |d.entries| == |own| && (forall i | 0 <= i < |own| :: d.entries[i] == Some(own[i]))
            && d.limits == LimitsOf(limits, project)
            && d.totalSpent == RoundMicro(Costs(own))
            && Get(d.byModel, model) == if Filter(OfModel(project, model), es) == [] then None
                                        else Some(RoundMicro(Costs(Filter(OfModel(project, model), es))))
  {
    CostsOfFilter(OfProject(project), es);
    CostsOfFilter(OfModel(project, model), es);
    TotalsAt(ModelKey, OfProject(project), es, model);
    SameSum(AtKey(ModelKey, OfProject(project), model), OfModel(project, model), es);
    NoneIfNotCounted(OfModel(project, model), es);
    hide Filter, SumIf, CountIf, RoundMicro, Totals;
  }

  lemma {:induction false} NoneIfNotCounted(p: Entry -> bool, es: seq<Entry>)
    ensures Filter(p, es) == [] <==> CountIf(p, es) == 0
  {
    if es != [] {
      NoneIfNotCounted(p, es[..|es| - 1]);
    }
  }

  /** Before rounding, the per-model amounts in a budget file add up to its total. */
  lemma SavedModelsAddUp(project: string, es: seq<Entry>)
    ensures SumValues(Totals(ModelKey, OfProject(project), es)) == SumIf(OfProject(project), es)
  {
    TotalsConserve(ModelKey, OfProject(project), es);
  }

  // ---------------------------------------------------------------------------------------
  // Ledger and files over whole runs
  // ---------------------------------------------------------------------------------------

  /** Records with automatic saving, explicit saves and loads, in any order. */
  datatype Event = Recording(entry: Entry) | Saving(project: string) | Loading(project: string)

  datatype State = State(entries: seq<Entry>, limits: map<string, Limits>, files: map<string, File>)

  function Save(s: State, project: string): State {
    s.(files := s.files[project := DocumentOf(project, s.entries, s.limits)])
  }

  function Load(s: State, project: string): State {
    var (entries, limits) := Loaded(project, s.entries, s.limits, s.files);
    s.(entries := entries, limits := limits)
  }

  function Step(s: State, e: Event): State {
    match e
    case Recording(entry) => Save(s.(entries := Trim(s.entries + [entry])), entry.project)
    case Saving(project) => Save(s, project)
    case Loading(project) => Load(s, project)
  }

  function Run(es: seq<Event>): State {
    if es == [] then State([], map[], map[]) else Step(Run(es[..|es| - 1]), es[|es| - 1])
  }

  /** The entries that a load of the project would bring back. */
  function Stored(s: State, project: string): seq<Entry> {
    if project in s.files && s.files[project].Document? then Readable(project, s.files[project].entries) else []
  }

  /** What the trim after one more record drops. */
  function Cut(es: seq<Entry>): seq<Entry> {
    if |es| < MAX_ENTRIES_IN_MEMORY then [] else es[..|es| + 1 - ENTRIES_TRIM_TO]
  }

  /** The reference: since the project's last record, save or load no trim has dropped one of its
      entries. */
  predicate Untrimmed(es: seq<Event>, project: string) {
    if es == [] then true
    else
      var front := es[..|es| - 1];
      match es[|es| - 1]
      case Recording(e) =>
        e.project == project || (Untrimmed(front, project) && Only(project, Cut(Run(front).entries)) == [])
      case Saving(p) => p == project || Untrimmed(front, project)
      case Loading(p) => p == project || Untrimmed(front, project)
  }

  /** The ledger holds a final part of what is stored. */
  predicate Behind(s: State, project: string) {
    var (own, stored) := (Only(project, s.entries), Stored(s, project));
    |own| <= |stored| && own == stored[|stored| - |own|..]
  }

  predicate InSync(s: State, project: string) {
    Only(project, s.entries) == Stored(s, project)
  }

  lemma StoredIsOnly(s: State, project: string)
    ensures Stored(Save(s, project), project) == Only(project, s.entries)
  {
    ReadableWrap(project, Only(project, s.entries));
    FilterTwice(OfProject(project), OfProject(project), s.entries);
    hide Filter, Readable;
  }

  lemma CutThenTrim(es: seq<Entry>, e: Entry)
    ensures var k := |Cut(es)|;
            && k <= |es| && Cut(es) == es[..k] && es == es[..k] + es[k..]
            && Trim(es + [e]) == es[k..] + [e]
  {
  }

  lemma OnlyAfterTrim(es: seq<Entry>, e: Entry, project: string)
    requires e.project != project
    ensures Only(project, es) == Only(project, Cut(es)) + Only(project, Trim(es + [e]))
  {
    hide Filter, Cut, Trim;
    var k := |Cut(es)|;
    CutThenTrim(es, e);
    FilterConcat(OfProject(project), es[..k], es[k..]);
    FilterNext(OfProject(project), es[k..], e);
  }

  lemma {:induction false} OnlyReadable(project: string, file: seq<Option<Entry>>)
    ensures Only(project, Readable(project, file)) == Readable(project, file)
  {
    if file != [] {
      var front, last := file[..|file| - 1], file[|file| - 1];
      OnlyReadable(project, front);
      if last.Some? && last.value.project == project {
        FilterNext(OfProject(project), Readable(project, front), last.value);
      } else {
        assert Readable(project, file) == Readable(project, front);
      }
    }
  }

  lemma {:induction false} OnlyOther(project: string, q: string, file: seq<Option<Entry>>)
    requires q != project
    ensures Only(q, Readable(project, file)) == []
  {
    if file != [] {
      var front, last := file[..|file| - 1], file[|file| - 1];
      OnlyOther(project, q, front);
      if last.Some? && last.value.project == project {
        FilterNext(OfProject(q), Readable(project, front), last.value);
      } else {
        assert Readable(project, file) == Readable(project, front);
      }
    }
  }

  lemma LoadedOnly(s: State, project: string, q: string)
    ensures Only(q, Load(s, project).entries) == if q == project then Stored(s, project) else Only(q, s.entries)
  {
    hide Filter, Readable;
    var own := Stored(s, project);
    assert Load(s, project).entries == Others(project, s.entries) + own by {
      assert Others(project, s.entries) + [] == Others(project, s.entries);
    }
    FilterConcat(OfProject(q), Others(project, s.entries), own);
    FilterTwice(NotOfProject(project), OfProject(q), s.entries);
    if own != [] {
      OnlyReadable(project, s.files[project].entries);
      if q != project {
        OnlyOther(project, q, s.files[project].entries);
      }
    } else {
      OnlyNothing(q);
    }
  }

  lemma OnlyNothing(q: string)
    ensures Only(q, []) == []
  {
  }

  lemma StepSync(s: State, e: Event, q: string, untrimmed: bool)
    requires Behind(s, q) && (InSync(s, q) <==> untrimmed)
    ensures Behind(Step(s, e), q)
    ensures InSync(Step(s, e), q)
            <==> match e
                 case Recording(r) => r.project == q || (untrimmed && Only(q, Cut(s.entries)) == [])
                 case Saving(p) => p == q || untrimmed
                 case Loading(p) => p == q || untrimmed
  {
    hide Filter, Readable, Trim, Cut, Loaded, DocumentOf;
    match e
    case Recording(r) =>
      var t := s.(entries := Trim(s.entries + [r]));
      if r.project == q {
        StoredIsOnly(t, q);
      } else {
        OnlyAfterTrim(s.entries, r, q);
      }
    case Saving(p) =>
      if p == q {
        StoredIsOnly(s, q);
      }
    case Loading(p) =>
      LoadedOnly(s, p, q);
  }

  /** Over every run of records, saves and loads from an empty store: the ledger's part of a
      project is a final part of its file, and all of it exactly when no trim dropped one of the
      project's entries since it was last recorded, saved or loaded. */
  lemma {:induction false} LedgerMatchesFileIff(es: seq<Event>, project: string)
    ensures Behind(Run(es), project)
    ensures InSync(Run(es), project) <==> Untrimmed(es, project)
  {
    if es != [] {
      var front := es[..|es| - 1];
      LedgerMatchesFileIff(front, project);
      StepSync(Run(front), es[|es| - 1], project, Untrimmed(front, project));
      hide Step, Behind, InSync, Cut;
    }
  }

  /** A project's entry is dropped from the ledger, and stays in its file, when 10 000 entries of
      another project follow it. */
  lemma TrimLeavesFileAhead(a: Entry, b: Entry)
    requires a.project == "a" && b.project == "b"
    ensures var s := Run([Recording(a)] + seq(10_000, _ => Recording(b)));
            Only("a", s.entries) == [] && Stored(s, "a") == [a]
  {
    var es := [Recording(a)] + seq(10_000, _ => Recording(b));
    assert es[..|es| - 1] == [Recording(a)] + seq(9_999, _ => Recording(b));
    UntilFull(a, b, 9_999);
    FullLedgerTrims(a, b);
    OnlyOthers(b, 8_000);
    hide Stored, Step, Trim, Filter;
    RecordOther(Run(es[..|es| - 1]), b, "a");
  }

  lemma {:induction false} UntilFull(a: Entry, b: Entry, k: nat)
    requires a.project == "a" && b.project == "b" && k <= 9_999
    ensures var s := Run([Recording(a)] + seq(k, _ => Recording(b)));
            s.entries == [a] + seq(k, _ => b) && Stored(s, "a") == [a]
  {
    hide Step, Stored;
    var es := [Recording(a)] + seq(k, _ => Recording(b));
    if k == 0 {
      assert es == [Recording(a)];
      FirstRecord(a);
    } else {
      var front := [Recording(a)] + seq(k - 1, _ => Recording(b));
      UntilFull(a, b, k - 1);
      assert es[..|es| - 1] == front && es[|es| - 1] == Recording(b);
      assert [a] + seq(k - 1, _ => b) + [b] == [a] + seq(k, _ => b);
      RecordOther(Run(front), b, "a");
    }
  }

  lemma RecordOther(s: State, e: Entry, project: string)
    requires e.project != project
    ensures Step(s, Recording(e)).entries == Trim(s.entries + [e])
    ensures |s.entries| < MAX_ENTRIES_IN_MEMORY ==> Step(s, Recording(e)).entries == s.entries + [e]
    ensures Stored(Step(s, Recording(e)), project) == Stored(s, project)
  {
    hide Stored, Save;
    var t := s.(entries := Trim(s.entries + [e]));
    StoredElsewhere(t, e.project, project);
    StoredHere(t, s, project);
    assert Save(t, e.project).entries == t.entries by {
      SaveKeepsEntries(t, e.project);
    }
  }

  lemma SaveKeepsEntries(s: State, project: string)
    ensures Save(s, project).entries == s.entries
  {
  }

  lemma FirstRecord(a: Entry)
    requires a.project == "a"
    ensures Run([Recording(a)]).entries == [a] && Stored(Run([Recording(a)]), "a") == [a]
  {
    assert [Recording(a)][..0] == [] && [] + [a] == [a];
    StoredIsOnly(State([a], map[], map[]), "a");
    FilterNext(OfProject("a"), [], a);
    hide Readable, DocumentOf;
  }

  lemma FullLedgerTrims(a: Entry, b: Entry)
    ensures Trim([a] + seq(9_999, _ => b) + [b]) == seq(8_000, _ => b)
  {
  }

  lemma {:induction false} OnlyOthers(b: Entry, n: nat)
    requires b.project != "a"
    ensures Only("a", seq(n, _ => b)) == []
  {
    if n > 0 {
      OnlyOthers(b, n - 1);
      assert seq(n, _ => b)[..n - 1] == seq(n - 1, _ => b);
    }
  }

  // ---------------------------------------------------------------------------------------
  // What a file still holds
  // ---------------------------------------------------------------------------------------

  /** The entries ever recorded for a project, oldest first. */
  function Ever(es: seq<Event>, project: string): seq<Entry> {
    if es == [] then []
    else
      var e := es[|es| - 1];
      Ever(es[..|es| - 1], project) + if e.Recording? && e.entry.project == project then [e.entry] else []
  }

  /** The reference: the file lost nothing, because whenever it was rewritten the ledger held all
      of the project's entries, and a record did not trim any of them. */
  predicate Complete(es: seq<Event>, project: string) {
    if es == [] then true
    else
      var front := es[..|es| - 1];
      && Complete(front, project)
      && match es[|es| - 1]
         case Recording(e) =>
           e.project == project ==> Untrimmed(front, project) && Only(project, Cut(Run(front).entries)) == []
         case Saving(p) => p == project ==> Untrimmed(front, project)
         case Loading(_) => true
  }

  predicate IsSuffix(a: seq<Entry>, b: seq<Entry>) {
    |a| <= |b| && a == b[|b| - |a|..]
  }

  lemma OnlyTrim(es: seq<Entry>, e: Entry, project: string)
    requires e.project == project
    ensures Only(project, es) + [e] == Only(project, Cut(es)) + Only(project, Trim(es + [e]))
  {
    hide Filter, Cut, Trim;
    var k := |Cut(es)|;
    CutThenTrim(es, e);
    FilterConcat(OfProject(project), es[..k], es[k..]);
    FilterNext(OfProject(project), es[k..], e);
  }

  lemma RewriteComplete(own: seq<Entry>, stored: seq<Entry>, ever: seq<Entry>, cut: seq<Entry>, now: seq<Entry>,
                        more: seq<Entry>)
    requires IsSuffix(own, stored) && IsSuffix(stored, ever) && own + more == cut + now
    ensures IsSuffix(now, ever + more)
    ensures now == ever + more <==> cut == [] && own == stored == ever
  {
    var k := |ever| - |own|;
    assert own == ever[k..];
    assert ever + more == ever[..k] + (cut + now);
    assert now == (cut + now)[|cut|..];
  }

  lemma StoredElsewhere(s: State, p: string, project: string)
    requires p != project
    ensures Stored(Save(s, p), project) == Stored(s, project)
  {
    hide DocumentOf, Readable;
  }

  lemma StepComplete(s: State, e: Event, q: string, ever: seq<Entry>, complete: bool)
    requires Behind(s, q) && IsSuffix(Stored(s, q), ever) && (Stored(s, q) == ever <==> complete)
    ensures var more := if e.Recording? && e.entry.project == q then [e.entry] else [];
            && IsSuffix(Stored(Step(s, e), q), ever + more)
            && (Stored(Step(s, e), q) == ever + more
                <==> && complete
                     && match e
                        case Recording(r) => r.project == q ==> InSync(s, q) && Only(q, Cut(s.entries)) == []
                        case Saving(p) => p == q ==> InSync(s, q)
                        case Loading(_) => true)
  {
    hide Filter, Readable, Trim, Cut, Loaded, DocumentOf, Stored, Save;
    var own, stored := Only(q, s.entries), Stored(s, q);
    assert ever + [] == ever;
    match e
    case Recording(r) =>
      var t := s.(entries := Trim(s.entries + [r]));
      if r.project == q {
        StoredIsOnly(t, q);
        OnlyTrim(s.entries, r, q);
        RewriteComplete(own, stored, ever, Only(q, Cut(s.entries)), Only(q, t.entries), [r]);
      } else {
        StoredElsewhere(t, r.project, q);
        StoredHere(t, s, q);
      }
    case Saving(p) =>
      if p == q {
        StoredIsOnly(s, q);
        assert own + [] == [] + own;
        RewriteComplete(own, stored, ever, [], own, []);
      } else {
        StoredElsewhere(s, p, q);
      }
    case Loading(p) =>
      StoredHere(Load(s, p), s, q);
  }

  lemma StoredHere(s: State, t: State, q: string)
    requires s.files == t.files
    ensures Stored(s, q) == Stored(t, q)
  {
  }

  /** Over every run of records, saves and loads from an empty store: a project's file holds a
      final part of all entries ever recorded for it, and all of them exactly when no record or
      save rewrote it after, or while, a trim dropped one that was still in it. */
  lemma {:induction false} FileCompleteIff(es: seq<Event>, project: string)
    ensures IsSuffix(Stored(Run(es), project), Ever(es, project))
    ensures Stored(Run(es), project) == Ever(es, project) <==> Complete(es, project)
  {
    if es != [] {
      var front := es[..|es| - 1];
      FileCompleteIff(front, project);
      LedgerMatchesFileIff(front, project);
      StepComplete(Run(front), es[|es| - 1], project, Ever(front, project), Complete(front, project));
      hide Step, Behind, InSync, Cut, Stored, Untrimmed;
    }
  }
}
