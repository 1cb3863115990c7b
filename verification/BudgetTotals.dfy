/**
 The single-pass dashboard (core/budget_controller.py, `dashboard`), before rounding and the
 cut to the twenty dearest tasks.
 */
module BudgetTotals {
  import opened Common
  import opened BudgetLedger

  type Sums = map<string, int>

  function AddTo(m: Sums, k: string, v: int): Sums {
    m[k := (if k in m then m[k] else 0) + v]
  }

  /** Costs of the entries that satisfy `p`, per key. */
  function Totals(key: Entry -> string, p: Entry -> bool, es: seq<Entry>): Sums {
    if es == [] then map[]
    else
      var m := Totals(key, p, es[..|es| - 1]);
      var e := es[|es| - 1];
      if p(e) then AddTo(m, key(e), e.cost) else m
  }

  function TaskKey(e: Entry): string {
    e.project + ":" + e.task
  }

  function ProjectKey(e: Entry): string {
    e.project
  }

  function ModelKey(e: Entry): string {
    e.model
  }

  function CategoryKey(e: Entry): string {
    e.category
  }

  /** The entries a dashboard is about: one month, and one project if one is given. */
  function Shown(month: string, project: Option<string>): Entry -> bool {
    (e: Entry) => MonthOf(e) == month && (project.Some? ==> e.project == project.value)
  }

  datatype Dashboard = Dashboard(total: int, count: nat, byProject: Sums, byModel: Sums, byTask: Sums, byCategory: Sums)

  /** The reference: every number computed by its own filtered sum or grouping. */
  function Reference(es: seq<Entry>, month: string, project: Option<string>): Dashboard {
    var p := Shown(month, project);
    Dashboard(SumIf(p, es), CountIf(p, es), Totals(ProjectKey, p, es), Totals(ModelKey, p, es),
              Totals(TaskKey, p, es), Totals(CategoryKey, p, es))
  }

  method MakeDashboard(entries: seq<Entry>, month: string, project: Option<string>) returns (d: Dashboard)
    ensures d == Reference(entries, month, project)
  {
    var byProject: Sums, byModel: Sums, byTask: Sums, byCategory: Sums := map[], map[], map[], map[];
    var total, count := 0, 0;
    for i := 0 to |entries|
      invariant Dashboard(total, count, byProject, byModel, byTask, byCategory)
                == Reference(entries[..i], month, project)
    {
      hide MonthOf;
      assert entries[..i + 1][..i] == entries[..i];
      var e := entries[i];
      if MonthOf(e) != month {
        continue;
      }
      if project.Some? && e.project != project.value {
        continue;
      }
      total := total + e.cost;
      count := count + 1;
      byProject := AddTo(byProject, e.project, e.cost);
      byModel := AddTo(byModel, e.model, e.cost);
      byTask := AddTo(byTask, TaskKey(e), e.cost);
      byCategory := AddTo(byCategory, e.category, e.cost);
    }
    assert entries[..|entries|] == entries;
    d := Dashboard(total, count, byProject, byModel, byTask, byCategory);
  }

  // ---------------------------------------------------------------------------------------
  // One key
  // ---------------------------------------------------------------------------------------

  function AtKey(key: Entry -> string, p: Entry -> bool, k: string): Entry -> bool {
    (e: Entry) => p(e) && key(e) == k
  }

  /** A key is present exactly when some entry has it, and holds the sum over those entries. */
  lemma {:induction false} TotalsAt(key: Entry -> string, p: Entry -> bool, es: seq<Entry>, k: string)
    ensures Get(Totals(key, p, es), k)
            == if CountIf(AtKey(key, p, k), es) == 0 then None else Some(SumIf(AtKey(key, p, k), es))
    ensures CountIf(AtKey(key, p, k), es) == 0 ==> SumIf(AtKey(key, p, k), es) == 0
  {
    if es != [] {
      TotalsAt(key, p, es[..|es| - 1], k);
    }
  }

  lemma {:induction false} SameSum(p: Entry -> bool, q: Entry -> bool, es: seq<Entry>)
    requires forall i | 0 <= i < |es| :: p(es[i]) == q(es[i])
    ensures SumIf(p, es) == SumIf(q, es) && CountIf(p, es) == CountIf(q, es)
  {
    if es != [] {
      SameSum(p, q, es[..|es| - 1]);
    }
  }

  // ---------------------------------------------------------------------------------------
  // All keys
  // ---------------------------------------------------------------------------------------

  ghost function SumValues(m: Sums): int {
    if m == map[] then 0
    else
      var k :| k in m;
      m[k] + SumValues(m - {k})
  }

  lemma {:induction false} SumValuesWithout(m: Sums, k: string)
    requires k in m
    ensures SumValues(m) == m[k] + SumValues(m - {k})
    decreases |m|
  {
    var k' :| k' in m && SumValues(m) == m[k'] + SumValues(m - {k'});
    if k' != k {
      SumValuesWithout(m - {k'}, k);
      SumValuesWithout(m - {k}, k');
      assert m - {k'} - {k} == m - {k} - {k'};
    }
  }

  lemma SumValuesAdd(m: Sums, k: string, v: int)
    ensures SumValues(AddTo(m, k, v)) == SumValues(m) + v
  {
    var m' := AddTo(m, k, v);
    SumValuesWithout(m', k);
    if k in m {
      SumValuesWithout(m, k);
      assert m' - {k} == m - {k};
    } else {
      assert m' - {k} == m;
    }
  }

  /** However entries are grouped, the groups add up to the filtered sum. */
  lemma {:induction false} TotalsConserve(key: Entry -> string, p: Entry -> bool, es: seq<Entry>)
    ensures SumValues(Totals(key, p, es)) == SumIf(p, es)
  {
    if es != [] {
      TotalsConserve(key, p, es[..|es| - 1]);
      var e := es[|es| - 1];
      hide SumValues;
      if p(e) {
        SumValuesAdd(Totals(key, p, es[..|es| - 1]), key(e), e.cost);
      }
    }
  }

  // ---------------------------------------------------------------------------------------
  // The dashboard against the sums behind status and limits
  // ---------------------------------------------------------------------------------------

  predicate ColonFree(s: string) {
    ':' !in s
  }

  /** `project:task` names one project and one task, because project ids hold no colon. */
  lemma TaskKeyInjective(project: string, task: string, project': string, task': string)
    requires ColonFree(project) && ColonFree(project')
    ensures project + ":" + task == project' + ":" + task' <==> project == project' && task == task'
  {
    var s, s' := project + ":" + task, project' + ":" + task';
    if s == s' {
      assert s[|project|] == ':' && s[|project'|] == ':';
      assert forall i | 0 <= i < |project| :: s[i] == project[i];
      assert forall i | 0 <= i < |project'| :: s[i] == project'[i];
      assert |project| == |project'|;
      assert project == s[..|project|] && project' == s[..|project|];
      assert task == s[|project| + 1..] && task' == s[|project| + 1..];
    }
  }

  /** With a colon in a project id, two different tasks would share a line. */
  lemma TaskKeyCollides()
    ensures "a:b" + ":" + "c" == "a" + ":" + "b:c"
  {
    assert "a:b" + ":" + "c" == "a:b:c";
  }

  /** The four breakdowns of the overall dashboard each add up to the month's spend, which is the
      total shown. */
  lemma BreakdownsAddUp(es: seq<Entry>, month: string)
    ensures var d := Reference(es, month, None);
            && d.total == SpentGlobal(es, month)
            && SumValues(d.byProject) == d.total
            && SumValues(d.byModel) == d.total
            && SumValues(d.byTask) == d.total
            && SumValues(d.byCategory) == d.total
  {
    var p := Shown(month, None);
    TotalsConserve(ProjectKey, p, es);
    TotalsConserve(ModelKey, p, es);
    TotalsConserve(TaskKey, p, es);
    TotalsConserve(CategoryKey, p, es);
    SameSum(p, InMonth(month), es);
  }

  /** The line of a project is the amount its monthly limit is checked against. */
  lemma ProjectLine(es: seq<Entry>, month: string, project: string)
    ensures Get(Reference(es, month, None).byProject, project).Some? ==>
              Reference(es, month, None).byProject[project] == SpentOnProject(es, project, month)
    ensures Get(Reference(es, month, None).byProject, project).None? ==> SpentOnProject(es, project, month) == 0
  {
    var p := Shown(month, None);
    TotalsAt(ProjectKey, p, es, project);
    SameSum(AtKey(ProjectKey, p, project), OnProject(project, month), es);
  }

  function OnTaskInMonth(project: string, task: string, month: string): Entry -> bool {
    (e: Entry) => e.project == project && e.task == task && MonthOf(e) == month
  }

  /** The line of a task counts the entries of that project and task, and no others. */
  lemma TaskLine(es: seq<Entry>, month: string, project: string, task: string)
    requires ColonFree(project) && forall i | 0 <= i < |es| :: ColonFree(es[i].project)
    ensures var m := Reference(es, month, None).byTask;
            var k := project + ":" + task;
            (if k in m then m[k] else 0) == SumIf(OnTaskInMonth(project, task, month), es)
  {
    var p, k := Shown(month, None), project + ":" + task;
    TotalsAt(TaskKey, p, es, k);
    forall i | 0 <= i < |es|
      ensures AtKey(TaskKey, p, k)(es[i]) == OnTaskInMonth(project, task, month)(es[i])
    {
      TaskKeyInjective(es[i].project, es[i].task, project, task);
    }
    SameSum(AtKey(TaskKey, p, k), OnTaskInMonth(project, task, month), es);
  }

  function Plus(m: Sums, k: string, cost: int): Sums {
    m[k := if k in m then m[k] + cost else cost]
  }

  lemma TotalsNext(key: Entry -> string, p: Entry -> bool, es: seq<Entry>, e: Entry)
    ensures Totals(key, p, es + [e]) == if p(e) then Plus(Totals(key, p, es), key(e), e.cost) else Totals(key, p, es)
  {
    assert (es + [e])[..|es|] == es;
  }

  /** What one more entry changes on a dashboard: nothing if it is of another month or project, and
      else the total, the number of entries, and the lines of its project, model, task and category. */
  lemma DashboardNext(es: seq<Entry>, e: Entry, month: string, project: Option<string>)
    ensures var (d, next) := (Reference(es, month, project), Reference(es + [e], month, project));
            if OfMonth(e, month) && project in {None, Some(e.project)}
            then next == Dashboard(d.total + e.cost, d.count + 1, Plus(d.byProject, e.project, e.cost),
                                   Plus(d.byModel, e.model, e.cost), Plus(d.byTask, e.project + ":" + e.task, e.cost),
                                   Plus(d.byCategory, e.category, e.cost))
            else next == d
    ensures Reference([], month, project) == Dashboard(0, 0, map[], map[], map[], map[])
  {
    var p := Shown(month, project);
    assert p(e) <==> OfMonth(e, month) && project in {None, Some(e.project)};
    SumNext(p, es, e);
    CountNext(p, es, e);
    TotalsNext(ProjectKey, p, es, e);
    TotalsNext(ModelKey, p, es, e);
    TotalsNext(TaskKey, p, es, e);
    TotalsNext(CategoryKey, p, es, e);
    assert SumIf(p, []) == 0 == CountIf(p, []) && forall key :: Totals(key, p, []) == map[];
    hide SumIf, CountIf, Totals;
  }

  /** The dashboard of one project agrees with that project's line in the overall one. */
  lemma OneProjectAgrees(es: seq<Entry>, month: string, project: string)
    ensures Reference(es, month, Some(project)).total == SpentOnProject(es, project, month)
    ensures SumValues(Reference(es, month, Some(project)).byTask) == SpentOnProject(es, project, month)
  {
    var p := Shown(month, Some(project));
    SameSum(p, OnProject(project, month), es);
    TotalsConserve(TaskKey, p, es);
  }
}
