/**
 How a run ends, read from the environment alone (core/agent_loop.py, class `AgentLoop`).

 The reference looks at turns, replies and tool calls and finds the first one that decides: it knows
 nothing of how the loop processes them.  `StatusFromEnvironment` connects the two.
 */
module AgentEndings {
  import opened Common
  import opened AgentRun

  /** What is known before a call or turn: whether a cancel request has arrived, the errors in a
      row and the information messages in a row. */
  datatype At = At(flagged: bool, errors: nat, infos: nat)

  // ---------------------------------------------------------------------------------------
  // Reading the calls of one answer
  // ---------------------------------------------------------------------------------------

  /** A cancel request has arrived by the check before call `j`. */
  predicate CancelledBy(calls: seq<ToolCall>, at: At, j: nat)
    requires j < |calls|
  {
    at.flagged || calls[j].cancelBefore || exists i | 0 <= i < j :: calls[i].cancelBefore || calls[i].cancelAfter
  }

  /** Information messages since the last work, before call `j`. */
  function InfosBefore(calls: seq<ToolCall>, at: At, j: nat): nat
    requires j <= |calls|
  {
    if j == 0 then at.infos
    else
      var end := calls[j - 1].end;
      if end.Work? || (end.Error? && end.worked) then 0
      else InfosBefore(calls, at, j - 1) + if end.InfoMessage? then 1 else 0
  }

  /** Failed calls before call `j`. */
  function ErrorsBefore(calls: seq<ToolCall>, at: At, j: nat): nat
    requires j <= |calls|
  {
    if j == 0 then at.errors else ErrorsBefore(calls, at, j - 1) + if calls[j - 1].end.Error? then 1 else 0
  }

  predicate Decides(calls: seq<ToolCall>, at: At, maxErrors: int, j: nat)
    requires j < |calls|
  {
    var end := calls[j].end;
    || CancelledBy(calls, at, j)
    || end.ResultMessage? || end.AskMessage? || end.Crash?
    || (end.InfoMessage? && InfosBefore(calls, at, j) + 1 >= 3)
    || (end.Error? && (end.critical || ErrorsBefore(calls, at, j) + 1 >= maxErrors))
  }

  /** Call `j` is the first one that decides. */
  predicate First(calls: seq<ToolCall>, at: At, maxErrors: int, j: nat) {
    j < |calls| && Decides(calls, at, maxErrors, j) && forall i | 0 <= i < j :: !Decides(calls, at, maxErrors, i)
  }

  predicate AnyCancel(calls: seq<ToolCall>) {
    exists i | 0 <= i < |calls| :: calls[i].cancelBefore || calls[i].cancelAfter
  }

  // ---------------------------------------------------------------------------------------
  // Reading turns
  // ---------------------------------------------------------------------------------------

  datatype Rules = Rules(maxIterations: int, maxErrors: int, timed: bool)

  /** What is known before the calls of an answer: errors count anew. */
  function BeforeCalls(t: Turn, at: At): At {
    At(at.flagged || t.cancelAfterCheck, 0, at.infos)
  }

  function CallsOf(t: Turn): seq<ToolCall> {
    if t.reply.Answer? then t.reply.calls else []
  }

  /** What is known after a turn that decided nothing. */
  function AfterTurn(t: Turn, at: At): At {
    var calls := CallsOf(t);
    At(at.flagged || t.cancelAtHead || t.cancelAfterCheck || AnyCancel(calls),
       if calls != [] then ErrorsBefore(calls, BeforeCalls(t, at), |calls|)
       else if t.reply.BadRequest? then at.errors else at.errors + 1,
       InfosBefore(calls, at, |calls|))
  }

  /** What is known before turn `n` of a run whose first turn is `first`. */
  function AtTurn(env: Env, first: nat, at: At, n: nat): At
    requires first <= n
    decreases n - first
  {
    if n == first then at else AfterTurn(env(n - 1), AtTurn(env, first, at, n - 1))
  }

  predicate HeadCancels(t: Turn, at: At) {
    at.flagged || t.cancelAtHead
  }

  predicate OutOfTime(t: Turn, n: nat, rules: Rules) {
    (rules.timed && t.timeUp) || n > rules.maxIterations
  }

  /** The turn gets as far as its model call. */
  predicate Reaches(t: Turn, n: nat, at: At, rules: Rules) {
    !HeadCancels(t, at) && !OutOfTime(t, n, rules)
  }

  /** The reply alone ends the run as FAILED. */
  predicate ReplyFails(t: Turn, at: At, rules: Rules) {
    || t.reply.CrashBefore? || t.reply.CrashAfter?
    || ((t.reply.Timeout? || t.reply.ProviderDown?) && at.errors + 1 >= rules.maxErrors)
    || (t.reply == Answer([], true) && at.errors + 1 >= 3)
    || (t.reply == Answer([], false) && at.errors + 1 >= rules.maxErrors)
  }

  predicate DecidingCall(t: Turn, at: At, rules: Rules, j: nat) {
    First(CallsOf(t), BeforeCalls(t, at), rules.maxErrors, j)
  }

  predicate TurnDecides(t: Turn, n: nat, at: At, rules: Rules) {
    || !Reaches(t, n, at, rules)
    || t.reply.BudgetError?
    || ReplyFails(t, at, rules)
    || exists j | 0 <= j < |CallsOf(t)| :: DecidingCall(t, at, rules, j)
  }

  /** Turn `n` is the first one that decides. */
  ghost predicate FirstTurn(env: Env, first: nat, at: At, rules: Rules, n: nat) {
    && first <= n
    && TurnDecides(env(n), n, AtTurn(env, first, at, n), rules)
    && forall m | first <= m < n :: !TurnDecides(env(m), m, AtTurn(env, first, at, m), rules)
  }

  // ---------------------------------------------------------------------------------------
  // The causes
  // ---------------------------------------------------------------------------------------

  /** The deciding call of a turn that reaches its model call satisfies `p` and comes before any
      cancel request. */
  predicate Call(t: Turn, n: nat, at: At, rules: Rules, p: ToolEnd -> bool) {
    && Reaches(t, n, at, rules)
    && exists j | 0 <= j < |CallsOf(t)| ::
         DecidingCall(t, at, rules, j) && !CancelledBy(CallsOf(t), BeforeCalls(t, at), j) && p(CallsOf(t)[j].end)
  }

  /** A question to the user comes first. */
  predicate Asked(t: Turn, n: nat, at: At, rules: Rules) {
    Call(t, n, at, rules, (end: ToolEnd) => end.AskMessage?)
  }

  /** A result comes first, or the third information message without work in between. */
  predicate Delivered(t: Turn, n: nat, at: At, rules: Rules) {
    Call(t, n, at, rules, (end: ToolEnd) => end.ResultMessage? || end.InfoMessage?)
  }

  predicate CancelledHere(t: Turn, n: nat, at: At, rules: Rules) {
    || HeadCancels(t, at)
    || (Reaches(t, n, at, rules)
        && exists j | 0 <= j < |CallsOf(t)| ::
             DecidingCall(t, at, rules, j) && CancelledBy(CallsOf(t), BeforeCalls(t, at), j))
  }

  predicate OverBudgetHere(t: Turn, n: nat, at: At, rules: Rules) {
    Reaches(t, n, at, rules) && t.reply.BudgetError?
  }

  predicate FailedHere(t: Turn, n: nat, at: At, rules: Rules) {
    || (!HeadCancels(t, at) && OutOfTime(t, n, rules))
    || (Reaches(t, n, at, rules) && ReplyFails(t, at, rules))
    || Call(t, n, at, rules, (end: ToolEnd) => end.Error? || end.Crash?)
  }

  // ---------------------------------------------------------------------------------------
  // Moving the reading one call on
  // ---------------------------------------------------------------------------------------

  /** What is known after a call that decided nothing. */
  function AfterCall(c: ToolCall, at: At): At {
    At(at.flagged || c.cancelBefore || c.cancelAfter, ErrorsBefore([c], at, 1), InfosBefore([c], at, 1))
  }

  lemma CancelledShift(calls: seq<ToolCall>, at: At, j: nat)
    requires j + 1 < |calls|
    ensures CancelledBy(calls, at, j + 1) <==> CancelledBy(calls[1..], AfterCall(calls[0], at), j)
  {
    var rest := calls[1..];
    assert rest[j] == calls[j + 1];
    assert forall i | 0 <= i < j :: rest[i] == calls[i + 1];
    if i :| 0 <= i < j + 1 && (calls[i].cancelBefore || calls[i].cancelAfter) {
      assert i > 0 ==> rest[i - 1] == calls[i];
    }
    if i :| 0 <= i < j && (rest[i].cancelBefore || rest[i].cancelAfter) {
      assert calls[i + 1] == rest[i];
    }
  }

  lemma {:induction false} CountsShift(calls: seq<ToolCall>, at: At, j: nat)
    requires j < |calls|
    ensures InfosBefore(calls, at, j + 1) == InfosBefore(calls[1..], AfterCall(calls[0], at), j)
    ensures ErrorsBefore(calls, at, j + 1) == ErrorsBefore(calls[1..], AfterCall(calls[0], at), j)
  {
    if j > 0 {
      CountsShift(calls, at, j - 1);
      assert calls[1..][j - 1] == calls[j];
    } else {
      assert InfosBefore(calls, at, 0) == at.infos == InfosBefore([calls[0]], at, 0);
      assert ErrorsBefore(calls, at, 0) == at.errors == ErrorsBefore([calls[0]], at, 0);
    }
  }

  lemma DecidesShift(calls: seq<ToolCall>, at: At, maxErrors: int, j: nat)
    requires j + 1 < |calls|
    ensures Decides(calls, at, maxErrors, j + 1) <==> Decides(calls[1..], AfterCall(calls[0], at), maxErrors, j)
  {
    hide CancelledBy, InfosBefore, ErrorsBefore, AfterCall;
    CancelledShift(calls, at, j);
    CountsShift(calls, at, j);
    assert calls[1..][j] == calls[j + 1];
  }

  lemma FirstShift(calls: seq<ToolCall>, at: At, maxErrors: int, j: nat)
    requires calls != [] && !Decides(calls, at, maxErrors, 0)
    ensures First(calls, at, maxErrors, j + 1) <==> First(calls[1..], AfterCall(calls[0], at), maxErrors, j)
  {
    hide Decides, AfterCall;
    var rest, next := calls[1..], AfterCall(calls[0], at);
    forall i: nat | i + 1 < |calls|
      ensures Decides(calls, at, maxErrors, i + 1) <==> Decides(rest, next, maxErrors, i)
    {
      DecidesShift(calls, at, maxErrors, i);
    }
    if First(rest, next, maxErrors, j) {
      forall i | 0 <= i < j + 1
        ensures !Decides(calls, at, maxErrors, i)
      {
        assert i > 0 ==> !Decides(rest, next, maxErrors, i - 1);
      }
    }
    if First(calls, at, maxErrors, j + 1) {
      forall i | 0 <= i < j
        ensures !Decides(rest, next, maxErrors, i)
      {
        assert !Decides(calls, at, maxErrors, i + 1);
      }
    }
  }

  lemma AnyCancelShift(calls: seq<ToolCall>)
    requires calls != []
    ensures AnyCancel(calls) <==> calls[0].cancelBefore || calls[0].cancelAfter || AnyCancel(calls[1..])
  {
    var rest := calls[1..];
    if i :| 0 <= i < |rest| && (rest[i].cancelBefore || rest[i].cancelAfter) {
      assert calls[i + 1] == rest[i];
    }
    if i :| 0 <= i < |calls| && (calls[i].cancelBefore || calls[i].cancelAfter) {
      assert i > 0 ==> rest[i - 1] == calls[i];
    }
  }

  // ---------------------------------------------------------------------------------------
  // The loop over calls
  // ---------------------------------------------------------------------------------------

  function AtOf(s: State): At {
    At(s.graph.cancelRequested, s.errors, s.infos)
  }

  /** The run ended with this status for this reason. */
  predicate Final(g: Graph, status: Status, why: Reason) {
    && g.status == status
    && g.history != [] && g.history[|g.history| - 1] == Transition(Running, status, why)
  }

  /** Where a deciding call leaves the run. */
  predicate CallEnds(g: Graph, flow: Flow, end: ToolEnd, cancelled: bool) {
    if cancelled then flow == Stop && Final(g, Cancelled, CancelBetweenTools)
    else match end
      case ResultMessage => flow == Stop && Final(g, Done, ResultDelivered)
      case AskMessage => flow == Stop && Final(g, WaitingUser, AskUser)
      case InfoMessage => flow == Stop && Final(g, Done, InfoLoopBreak)
      case Error(critical, _) => flow == Stop && g.status == Failed && (critical ==> Final(g, Failed, CriticalError))
      case Crash => flow == RaiseFatal && g.status == Running
      case _ => false
  }

  lemma OneCallReads(s: State, c: ToolCall)
    requires s.graph.status == Running
    ensures var (s', flow) := OneTool(s, c);
            if Decides([c], AtOf(s), s.maxErrors, 0)
            then flow != Continue && CallEnds(s'.graph, flow, c.end, CancelledBy([c], AtOf(s), 0))
            else flow == Continue && s'.graph.status == Running && AtOf(s') == AfterCall(c, AtOf(s))
  {
    assert InfosBefore([c], AtOf(s), 0) == s.infos && ErrorsBefore([c], AtOf(s), 0) == s.errors;
    assert [c][0] == c;
    assert InfosBefore([c], AtOf(s), 1) == (if c.end.Work? || (c.end.Error? && c.end.worked) then 0
                                            else s.infos + if c.end.InfoMessage? then 1 else 0);
    assert ErrorsBefore([c], AtOf(s), 1) == s.errors + if c.end.Error? then 1 else 0;
    hide InfosBefore, ErrorsBefore;
  }

  lemma FirstCallAlone(calls: seq<ToolCall>, at: At, maxErrors: int)
    requires calls != []
    ensures Decides(calls, at, maxErrors, 0) <==> Decides([calls[0]], at, maxErrors, 0)
    ensures CancelledBy(calls, at, 0) <==> CancelledBy([calls[0]], at, 0)
  {
  }

  /** The tool loop stops at the first deciding call, and otherwise ends knowing what the
      reference knows. */
  predicate CallsRead(s: State, calls: seq<ToolCall>, s': State, flow: Flow) {
    if flow == Continue
    then && (forall j | 0 <= j < |calls| :: !Decides(calls, AtOf(s), s.maxErrors, j))
         && s'.graph.status == Running
         && AtOf(s') == At(s.graph.cancelRequested || AnyCancel(calls),
                           ErrorsBefore(calls, AtOf(s), |calls|), InfosBefore(calls, AtOf(s), |calls|))
    else exists j | 0 <= j < |calls| ::
           First(calls, AtOf(s), s.maxErrors, j)
           && CallEnds(s'.graph, flow, calls[j].end, CancelledBy(calls, AtOf(s), j))
  }

  lemma NoCallsRead(s: State)
    requires s.graph.status == Running
    ensures CallsRead(s, [], s, Continue)
  {
  }

  lemma StopsAtFirst(s: State, calls: seq<ToolCall>, s': State, flow: Flow)
    requires calls != [] && flow != Continue && Decides(calls, AtOf(s), s.maxErrors, 0)
    requires CallEnds(s'.graph, flow, calls[0].end, CancelledBy(calls, AtOf(s), 0))
    ensures CallsRead(s, calls, s', flow)
  {
    hide CallEnds, Decides, CancelledBy, AtOf;
    assert First(calls, AtOf(s), s.maxErrors, 0);
  }

  lemma ReadsOn(s: State, calls: seq<ToolCall>, next: State, s': State, flow: Flow)
    requires calls != [] && !Decides(calls, AtOf(s), s.maxErrors, 0)
    requires AtOf(next) == AfterCall(calls[0], AtOf(s)) && next.maxErrors == s.maxErrors
    requires CallsRead(next, calls[1..], s', flow)
    ensures CallsRead(s, calls, s', flow)
  {
    hide CallEnds, Decides, CancelledBy, First, AnyCancel, AfterCall, InfosBefore, ErrorsBefore;
    var rest := calls[1..];
    if flow == Continue {
      forall j | 0 <= j < |calls|
        ensures !Decides(calls, AtOf(s), s.maxErrors, j)
      {
        if j > 0 {
          DecidesShift(calls, AtOf(s), s.maxErrors, j - 1);
        }
      }
      CountsShift(calls, AtOf(s), |rest|);
      AnyCancelShift(calls);
      FlagAfterCall(calls[0], AtOf(s));
    } else {
      var j :| 0 <= j < |rest| && First(rest, AtOf(next), next.maxErrors, j)
               && CallEnds(s'.graph, flow, rest[j].end, CancelledBy(rest, AtOf(next), j));
      FirstShift(calls, AtOf(s), s.maxErrors, j);
      CancelledShift(calls, AtOf(s), j);
      assert calls[j + 1] == rest[j];
    }
  }

  lemma FlagAfterCall(c: ToolCall, at: At)
    ensures AfterCall(c, at).flagged <==> at.flagged || c.cancelBefore || c.cancelAfter
  {
  }

  lemma {:induction false} ToolsRead(s: State, calls: seq<ToolCall>)
    requires s.graph.status == Running
    ensures CallsRead(s, calls, Tools(s, calls).0, Tools(s, calls).1)
    decreases |calls|
  {
    hide CallsRead, OneTool, Decides, AfterCall, CallEnds, CancelledBy;
    if calls == [] {
      NoCallsRead(s);
    } else {
      var (next, flow) := OneTool(s, calls[0]);
      OneCallReads(s, calls[0]);
      OneToolCounts(s, calls[0]);
      FirstCallAlone(calls, AtOf(s), s.maxErrors);
      if flow == Continue {
        ToolsRead(next, calls[1..]);
        ReadsOn(s, calls, next, Tools(next, calls[1..]).0, Tools(next, calls[1..]).1);
      } else {
        StopsAtFirst(s, calls, next, flow);
      }
    }
  }

  // ---------------------------------------------------------------------------------------
  // One turn
  // ---------------------------------------------------------------------------------------

  /** The status of a run that turn `n` ended, cause by cause. */
  predicate EndsAs(status: Status, t: Turn, n: nat, at: At, rules: Rules) {
    && status in ENDED
    && (status == WaitingUser <==> Asked(t, n, at, rules))
    && (status == Done <==> Delivered(t, n, at, rules))
    && (status == Cancelled <==> CancelledHere(t, n, at, rules))
    && (status == BudgetExceeded <==> OverBudgetHere(t, n, at, rules))
    && (status == Failed <==> FailedHere(t, n, at, rules))
  }

  lemma NoCallDecides(t: Turn, at: At, rules: Rules)
    requires CallsOf(t) == []
    ensures forall j :: !DecidingCall(t, at, rules, j)
  {
  }

  lemma FirstIsUnique(calls: seq<ToolCall>, at: At, maxErrors: int, i: nat, j: nat)
    requires First(calls, at, maxErrors, i) && First(calls, at, maxErrors, j)
    ensures i == j
  {
    hide Decides;
  }

  lemma HeadEnds(t: Turn, n: nat, at: At, rules: Rules)
    requires HeadCancels(t, at)
    ensures EndsAs(Cancelled, t, n, at, rules) && TurnDecides(t, n, at, rules)
  {
    hide DecidingCall, CallsOf;
  }

  lemma TimeEnds(t: Turn, n: nat, at: At, rules: Rules)
    requires !HeadCancels(t, at) && OutOfTime(t, n, rules)
    ensures EndsAs(Failed, t, n, at, rules) && TurnDecides(t, n, at, rules)
  {
    hide DecidingCall, CallsOf;
  }

  /** A turn without calls that reaches its model call. */
  lemma PlainTurn(t: Turn, n: nat, at: At, rules: Rules)
    requires Reaches(t, n, at, rules) && CallsOf(t) == []
    ensures TurnDecides(t, n, at, rules) <==> t.reply.BudgetError? || ReplyFails(t, at, rules)
    ensures t.reply.BudgetError? ==> EndsAs(BudgetExceeded, t, n, at, rules)
    ensures ReplyFails(t, at, rules) ==> EndsAs(Failed, t, n, at, rules)
  {
    hide DecidingCall, HeadCancels, OutOfTime;
    NoCallDecides(t, at, rules);
  }

  /** The status a deciding call leads to. */
  function LandingOf(end: ToolEnd, cancelled: bool): Status {
    if cancelled then Cancelled
    else match end
      case ResultMessage => Done
      case InfoMessage => Done
      case AskMessage => WaitingUser
      case Error(_, _) => Failed
      case Crash => Failed
      case _ => Running
  }

  lemma CallTurn(t: Turn, n: nat, at: At, rules: Rules, j: nat, status: Status)
    requires Reaches(t, n, at, rules) && t.reply.Answer? && DecidingCall(t, at, rules, j) && j < |CallsOf(t)|
    requires status == LandingOf(CallsOf(t)[j].end, CancelledBy(CallsOf(t), BeforeCalls(t, at), j))
    requires status != Running
    ensures EndsAs(status, t, n, at, rules) && TurnDecides(t, n, at, rules)
  {
    hide CancelledBy, First, HeadCancels, OutOfTime, BeforeCalls;
    assert !ReplyFails(t, at, rules) by {
      AnswerWithCalls(t, at, rules, j);
    }
    forall i | 0 <= i < |CallsOf(t)| && DecidingCall(t, at, rules, i)
      ensures i == j
    {
      FirstIsUnique(CallsOf(t), BeforeCalls(t, at), rules.maxErrors, i, j);
    }
  }

  lemma AnswerWithCalls(t: Turn, at: At, rules: Rules, j: nat)
    requires t.reply.Answer? && j < |CallsOf(t)|
    ensures !ReplyFails(t, at, rules)
  {
  }

  function RulesOf(s: State, timed: bool): Rules {
    Rules(s.maxIterations, s.maxErrors, timed)
  }

  /** One pass of the loop, against the reading of its turn. */
  predicate TurnRead(s: State, t: Turn, timed: bool, s': State, flow: Flow) {
    var n, at, rules := s.iteration + 1, AtOf(s), RulesOf(s, timed);
    if flow == Continue
    then !TurnDecides(t, n, at, rules) && s'.graph.status == Running && AtOf(s') == AfterTurn(t, at)
    else TurnDecides(t, n, at, rules) && EndsAs(Land(s', flow).graph.status, t, n, at, rules)
  }

  lemma MovesTo(s: State, to: Status, why: Reason)
    requires s.graph.status == Running && to in Allowed(Running)
    ensures To(s, to, why).graph.status == to
  {
  }

  lemma RoundStops(s: State, t: Turn, timed: bool)
    requires s.graph.status == Running && !Reaches(t, s.iteration + 1, AtOf(s), RulesOf(s, timed))
    ensures TurnRead(s, t, timed, Round(s, t, timed).0, Round(s, t, timed).1)
  {
    var n, at, rules := s.iteration + 1, AtOf(s), RulesOf(s, timed);
    if HeadCancels(t, at) {
      HeadEnds(t, n, at, rules);
    } else {
      TimeEnds(t, n, at, rules);
    }
    hide EndsAs, TurnDecides, Iterate;
  }

  /** The state in which a model call begins. */
  function Begun(s: State, t: Turn): State {
    var s := Begin(CancelIf(s.(iteration := s.iteration + 1), t.cancelAfterCheck));
    s.(llmCalls := s.llmCalls + 1)
  }

  lemma RoundBegins(s: State, t: Turn, timed: bool)
    requires s.graph.status == Running && Reaches(t, s.iteration + 1, AtOf(s), RulesOf(s, timed))
    ensures Round(s, t, timed)
            == if t.reply.CrashBefore? then (s.(iteration := s.iteration + 1), RaiseFatal)
               else Handle(Begun(s, t), t.reply)
    ensures Begun(s, t).graph.status == Running && Begun(s, t).maxErrors == s.maxErrors
    ensures AtOf(Begun(s, t)) == At(t.cancelAfterCheck, s.errors, s.infos)
  {
    hide Handle;
  }

  lemma PlainRound(s: State, t: Turn, timed: bool)
    requires s.graph.status == Running && CallsOf(t) == []
    requires Reaches(t, s.iteration + 1, AtOf(s), RulesOf(s, timed))
    ensures TurnRead(s, t, timed, Round(s, t, timed).0, Round(s, t, timed).1)
  {
    var n, at, rules := s.iteration + 1, AtOf(s), RulesOf(s, timed);
    RoundBegins(s, t, timed);
    PlainTurn(t, n, at, rules);
    assert InfosBefore([], at, 0) == at.infos && !AnyCancel([]);
    assert AfterTurn(t, at)
           == At(t.cancelAfterCheck, if t.reply.BadRequest? then at.errors else at.errors + 1, at.infos);
    hide EndsAs, TurnDecides, AfterTurn, Begun, Reaches, Round;
  }

  lemma CallsBegin(s: State, t: Turn, timed: bool)
    requires s.graph.status == Running && CallsOf(t) != []
    requires Reaches(t, s.iteration + 1, AtOf(s), RulesOf(s, timed))
    ensures var b := Begun(s, t).(errors := 0);
            && Round(s, t, timed) == Tools(b, CallsOf(t))
            && b.graph.status == Running && b.maxErrors == s.maxErrors
            && AtOf(b) == BeforeCalls(t, AtOf(s))
  {
    RoundBegins(s, t, timed);
    hide Begun, Round, Tools, Reaches;
  }

  lemma CallsRound(s: State, t: Turn, timed: bool)
    requires s.graph.status == Running && CallsOf(t) != []
    requires Reaches(t, s.iteration + 1, AtOf(s), RulesOf(s, timed))
    ensures TurnRead(s, t, timed, Round(s, t, timed).0, Round(s, t, timed).1)
  {
    hide Begun, Round, Tools, CallsRead, Reaches, TurnDecides, AfterTurn, EndsAs, BeforeCalls, CallsOf, Land, AtOf;
    var n, at, rules := s.iteration + 1, AtOf(s), RulesOf(s, timed);
    var calls, b := CallsOf(t), Begun(s, t).(errors := 0);
    CallsBegin(s, t, timed);
    var (s', flow) := Tools(b, calls);
    ToolsRead(b, calls);
    if flow == Continue {
      CallsGoOn(b, calls, s', t, n, at, rules);
    } else {
      StopsHere(b, calls, s', flow, t, n, at, rules);
    }
  }

  lemma CallsGoOn(b: State, calls: seq<ToolCall>, s': State, t: Turn, n: nat, at: At, rules: Rules)
    requires CallsRead(b, calls, s', Continue)
    requires calls == CallsOf(t) != [] && AtOf(b) == BeforeCalls(t, at) && b.maxErrors == rules.maxErrors
    requires Reaches(t, n, at, rules)
    ensures !TurnDecides(t, n, at, rules) && s'.graph.status == Running && AtOf(s') == AfterTurn(t, at)
  {
    hide Decides, Reaches, TurnDecides, AfterTurn, BeforeCalls, InfosBefore, ErrorsBefore, AnyCancel;
    GoesOn(t, n, at, rules);
  }

  lemma GoesOn(t: Turn, n: nat, at: At, rules: Rules)
    requires Reaches(t, n, at, rules) && CallsOf(t) != []
    requires forall j | 0 <= j < |CallsOf(t)| :: !Decides(CallsOf(t), BeforeCalls(t, at), rules.maxErrors, j)
    ensures !TurnDecides(t, n, at, rules)
    ensures AfterTurn(t, at) == At(BeforeCalls(t, at).flagged || AnyCancel(CallsOf(t)),
                                   ErrorsBefore(CallsOf(t), BeforeCalls(t, at), |CallsOf(t)|),
                                   InfosBefore(CallsOf(t), BeforeCalls(t, at), |CallsOf(t)|))
  {
    hide Decides;
    AnswerWithCalls(t, at, rules, 0);
    SameInfos(CallsOf(t), BeforeCalls(t, at), at, |CallsOf(t)|);
  }

  lemma {:induction false} SameInfos(calls: seq<ToolCall>, a: At, b: At, j: nat)
    requires j <= |calls| && a.infos == b.infos
    ensures InfosBefore(calls, a, j) == InfosBefore(calls, b, j)
  {
    if j > 0 {
      SameInfos(calls, a, b, j - 1);
    }
  }

  lemma StopsHere(b: State, calls: seq<ToolCall>, s': State, flow: Flow, t: Turn, n: nat, at: At, rules: Rules)
    requires flow != Continue && CallsRead(b, calls, s', flow)
    requires calls == CallsOf(t) != [] && AtOf(b) == BeforeCalls(t, at) && b.maxErrors == rules.maxErrors
    requires Reaches(t, n, at, rules)
    ensures TurnDecides(t, n, at, rules) && EndsAs(Land(s', flow).graph.status, t, n, at, rules)
  {
    hide CallEnds, First, CancelledBy, Reaches, BeforeCalls, EndsAs, TurnDecides, Land;
    var j :| 0 <= j < |calls| && First(calls, AtOf(b), b.maxErrors, j)
             && CallEnds(s'.graph, flow, calls[j].end, CancelledBy(calls, AtOf(b), j));
    CallLands(s', flow, calls[j].end, CancelledBy(calls, AtOf(b), j));
    CallTurn(t, n, at, rules, j, Land(s', flow).graph.status);
  }

  lemma CallLands(s: State, flow: Flow, end: ToolEnd, cancelled: bool)
    requires CallEnds(s.graph, flow, end, cancelled)
    ensures Land(s, flow).graph.status == LandingOf(end, cancelled)
    ensures Land(s, flow).graph.status != Running
  {
  }

  lemma RoundReads(s: State, t: Turn, timed: bool)
    requires s.graph.status == Running
    ensures TurnRead(s, t, timed, Round(s, t, timed).0, Round(s, t, timed).1)
  {
    hide TurnRead, Round, Reaches;
    if !Reaches(t, s.iteration + 1, AtOf(s), RulesOf(s, timed)) {
      RoundStops(s, t, timed);
    } else if CallsOf(t) == [] {
      PlainRound(s, t, timed);
    } else {
      CallsRound(s, t, timed);
    }
  }

  // ---------------------------------------------------------------------------------------
  // The loop
  // ---------------------------------------------------------------------------------------

  lemma {:induction false} AtTurnShift(env: Env, first: nat, at: At, n: nat)
    requires first < n
    ensures AtTurn(env, first, at, n) == AtTurn(env, first + 1, AfterTurn(env(first), at), n)
    decreases n - first
  {
    hide AfterTurn;
    if n > first + 1 {
      AtTurnShift(env, first, at, n - 1);
    } else {
      assert AtTurn(env, first, at, first) == at;
    }
  }

  lemma FirstTurnShift(env: Env, first: nat, at: At, rules: Rules, n: nat)
    requires FirstTurn(env, first, at, rules, n) && n > first
    ensures !TurnDecides(env(first), first, at, rules)
    ensures FirstTurn(env, first + 1, AfterTurn(env(first), at), rules, n)
    ensures AtTurn(env, first, at, n) == AtTurn(env, first + 1, AfterTurn(env(first), at), n)
  {
    hide TurnDecides, AfterTurn;
    assert AtTurn(env, first, at, first) == at;
    forall m | first < m <= n
      ensures AtTurn(env, first, at, m) == AtTurn(env, first + 1, AfterTurn(env(first), at), m)
    {
      AtTurnShift(env, first, at, m);
    }
  }

  /** The status a run ends in, read from the environment: `n` is the first turn that decides, and
      the status is WAITING_USER exactly if a question comes first in it, DONE exactly if a result
      or the third information message in a row does, and so on for the other three. */
  lemma {:induction false} StatusFromEnvironment(s: State, env: Env, timed: bool, n: nat)
    requires s.graph.status == Running
    requires FirstTurn(env, s.iteration + 1, AtOf(s), RulesOf(s, timed), n)
    ensures EndsAs(Loop(s, env, timed).graph.status, env(n), n, AtTurn(env, s.iteration + 1, AtOf(s), n),
                   RulesOf(s, timed))
    decreases n - s.iteration
  {
    hide TurnDecides, EndsAs, Round, AfterTurn, Land, FirstTurn, AtTurn;
    var first, at, rules := s.iteration + 1, AtOf(s), RulesOf(s, timed);
    var t := env(first);
    var (s', flow) := Round(s, t, timed);
    RoundReads(s, t, timed);
    RoundCounts(s, t, timed);
    LoopIs(s, env, timed);
    FirstBounds(env, first, at, rules, n);
    if n == first {
      FirstDecides(env, first, at, rules);
    } else {
      FirstTurnShift(env, first, at, rules, n);
      StatusFromEnvironment(s', env, timed, n);
    }
  }

  lemma FirstBounds(env: Env, first: nat, at: At, rules: Rules, n: nat)
    requires FirstTurn(env, first, at, rules, n)
    ensures first <= n
  {
  }

  lemma FirstDecides(env: Env, first: nat, at: At, rules: Rules)
    requires FirstTurn(env, first, at, rules, first)
    ensures TurnDecides(env(first), first, at, rules) && AtTurn(env, first, at, first) == at
  {
    hide TurnDecides;
  }

  lemma LoopIs(s: State, env: Env, timed: bool)
    requires s.graph.status == Running
    ensures var (s', flow) := Round(s, env(s.iteration + 1), timed);
            && RoundCounted(s, s', flow)
            && Loop(s, env, timed) == if flow == Continue then Loop(s', env, timed) else Land(s', flow)
  {
    hide Round;
    RoundCounts(s, env(s.iteration + 1), timed);
  }

  predicate RoundCounted(s: State, s': State, flow: Flow) {
    flow == Continue ==> s'.iteration == s.iteration + 1 <= s.maxIterations == s'.maxIterations
  }

  // ---------------------------------------------------------------------------------------
  // Whole runs
  // ---------------------------------------------------------------------------------------

  lemma {:induction false} FirstTurnExists(env: Env, first: nat, at: At, rules: Rules) returns (n: nat)
    ensures FirstTurn(env, first, at, rules, n) && (n == first || n <= rules.maxIterations + 1)
    decreases rules.maxIterations + 1 - first
  {
    hide AfterTurn;
    assert AtTurn(env, first, at, first) == at;
    if TurnDecides(env(first), first, at, rules) {
      n := first;
    } else {
      assert first <= rules.maxIterations by {
        LateTurnsDecide(env(first), first, at, rules);
      }
      n := FirstTurnExists(env, first + 1, AfterTurn(env(first), at), rules);
      hide TurnDecides;
      forall m | first < m <= n
        ensures AtTurn(env, first, at, m) == AtTurn(env, first + 1, AfterTurn(env(first), at), m)
      {
        AtTurnShift(env, first, at, m);
      }
    }
  }

  lemma LateTurnsDecide(t: Turn, n: nat, at: At, rules: Rules)
    ensures n > rules.maxIterations ==> TurnDecides(t, n, at, rules)
  {
    hide DecidingCall;
  }

  /** A new run, with no idempotency hit: its status is the one that the first deciding turn gives,
      among at most 50, 30 or 15 turns that reach the model. */
  lemma FreshRunEnds(maxIterations: int, maxErrors: int, maxRetries: int, env: Env, complexity: Complexity)
    returns (n: nat)
    ensures var limit := if complexity.Complex? then 50 else if complexity.Moderate? then 30 else 15;
            var (at, rules) := (At(false, 0, 0), Rules(limit, maxErrors, true));
            var start := State(FreshGraph(maxRetries), 0, maxIterations, maxErrors, 0, 0, 0, 0);
            && FirstTurn(env, 1, at, rules, n) && n <= limit + 1
            && EndsAs(RunTask(start, env, complexity, false).graph.status, env(n), n, AtTurn(env, 1, at, n), rules)
  {
    hide EndsAs, FirstTurn, AtTurn, Loop;
    var start := State(FreshGraph(maxRetries), 0, maxIterations, maxErrors, 0, 0, 0, 0);
    var limit := IterationLimit(complexity);
    var s := To(To(start, Assigned, TaskReceived), Running, ExecutionStarted).(maxIterations := limit);
    assert s.graph.status == Running && !s.graph.cancelRequested;
    assert RunTask(start, env, complexity, false) == Loop(s, env, true);
    n := FirstTurnExists(env, 1, At(false, 0, 0), Rules(limit, maxErrors, true));
    StatusFromEnvironment(s, env, true, n);
  }

  /** A resumed run: the same, with the errors counted anew, the information messages and the
      iterations counted on, and no time limit. */
  lemma ResumedRunEnds(s: State, env: Env) returns (n: nat)
    requires s.graph.status == WaitingUser
    ensures var (at, rules) := (At(s.graph.cancelRequested, 0, s.infos), Rules(s.maxIterations, s.maxErrors, false));
            && FirstTurn(env, s.iteration + 1, at, rules, n)
            && Resume(s, env).Some?
            && EndsAs(Resume(s, env).value.graph.status, env(n), n, AtTurn(env, s.iteration + 1, at, n), rules)
  {
    hide EndsAs, FirstTurn, AtTurn, Loop;
    var r := To(s, Running, UserResponded).(errors := 0);
    assert r.graph.status == Running && AtOf(r) == At(s.graph.cancelRequested, 0, s.infos);
    assert Resume(s, env) == Some(Loop(r, env, false));
    n := FirstTurnExists(env, s.iteration + 1, AtOf(r), RulesOf(r, false));
    StatusFromEnvironment(r, env, false, n);
  }

  // ---------------------------------------------------------------------------------------
  // How many calls begin
  // ---------------------------------------------------------------------------------------

  lemma RoundBegun(s: State, t: Turn, timed: bool)
    requires s.graph.status == Running
    ensures var (s', flow) := Round(s, t, timed);
            var reaches := Reaches(t, s.iteration + 1, AtOf(s), RulesOf(s, timed));
            && s'.llmCalls == s.llmCalls + (if reaches && !t.reply.CrashBefore? then 1 else 0)
            && s'.iteration == s.iteration + (if HeadCancels(t, AtOf(s)) then 0 else 1)
            && (flow == Continue ==> reaches && !t.reply.CrashBefore?)
  {
    hide Tools, Cancel, Move;
    if t.reply.Answer? {
      var s1 := CancelIf(s, t.cancelAtHead);
      var s2 := Begin(CancelIf(s1.(iteration := s1.iteration + 1), t.cancelAfterCheck));
      ToolsCount(s2.(llmCalls := s2.llmCalls + 1).(errors := 0), t.reply.calls);
    }
    assert CancelIf(s, t.cancelAtHead).graph.cancelRequested == HeadCancels(t, AtOf(s)) by {
      CancelFlags(s, t.cancelAtHead);
    }
  }

  lemma CancelFlags(s: State, arrives: bool)
    requires s.graph.status == Running
    ensures CancelIf(s, arrives).graph.cancelRequested <==> s.graph.cancelRequested || arrives
  {
  }

  /** Exactly one model call per turn up to the deciding one, which makes one if it gets there. */
  lemma {:induction false} CallsFromEnvironment(s: State, env: Env, timed: bool, n: nat)
    requires s.graph.status == Running
    requires FirstTurn(env, s.iteration + 1, AtOf(s), RulesOf(s, timed), n)
    ensures var (t, at, end) := (env(n), AtTurn(env, s.iteration + 1, AtOf(s), n), Loop(s, env, timed));
            && end.llmCalls == s.llmCalls + (n - s.iteration - 1)
                               + (if Reaches(t, n, at, RulesOf(s, timed)) && !t.reply.CrashBefore? then 1 else 0)
            && end.iteration == if HeadCancels(t, at) then n - 1 else n
    decreases n - s.iteration
  {
    hide TurnDecides, EndsAs, Round, AfterTurn, FirstTurn, AtTurn, Reaches, HeadCancels;
    var first, at, rules := s.iteration + 1, AtOf(s), RulesOf(s, timed);
    var t := env(first);
    var (s', flow) := Round(s, t, timed);
    RoundReads(s, t, timed);
    RoundCounts(s, t, timed);
    RoundBegun(s, t, timed);
    LoopIs(s, env, timed);
    FirstBounds(env, first, at, rules, n);
    if n == first {
      FirstDecides(env, first, at, rules);
      LandKeepsCounts(s', flow);
    } else {
      FirstTurnShift(env, first, at, rules, n);
      GoesOnFromHead(t, first, at, rules);
      CallsFromEnvironment(s', env, timed, n);
    }
  }

  lemma LandKeepsCounts(s: State, flow: Flow)
    ensures Land(s, flow).llmCalls == s.llmCalls && Land(s, flow).iteration == s.iteration
  {
    hide Move;
  }

  lemma GoesOnFromHead(t: Turn, n: nat, at: At, rules: Rules)
    requires !TurnDecides(t, n, at, rules)
    ensures Reaches(t, n, at, rules) && !HeadCancels(t, at)
  {
  }

  // ---------------------------------------------------------------------------------------
  // Calls that begin after a cancel request
  // ---------------------------------------------------------------------------------------

  /** Call `i` begins: nothing before it decides and no cancel request has arrived. */
  predicate Begins(calls: seq<ToolCall>, at: At, maxErrors: int, i: nat) {
    && i < |calls| && !CancelledBy(calls, at, i)
    && forall k | 0 <= k < i :: !Decides(calls, at, maxErrors, k)
  }

  /** A cancel request arrives between the check before a call and its beginning. */
  predicate OvertakesCall(calls: seq<ToolCall>, at: At, maxErrors: int) {
    exists i | 0 <= i < |calls| :: Begins(calls, at, maxErrors, i) && calls[i].cancelAfter
  }

  lemma BeginsShift(calls: seq<ToolCall>, at: At, maxErrors: int, i: nat)
    requires calls != [] && !Decides(calls, at, maxErrors, 0)
    ensures Begins(calls, at, maxErrors, i + 1) <==> Begins(calls[1..], AfterCall(calls[0], at), maxErrors, i)
  {
    hide Decides, AfterCall, CancelledBy;
    var rest, next := calls[1..], AfterCall(calls[0], at);
    forall k: nat | k + 1 < |calls|
      ensures Decides(calls, at, maxErrors, k + 1) <==> Decides(rest, next, maxErrors, k)
      ensures CancelledBy(calls, at, k + 1) <==> CancelledBy(rest, next, k)
    {
      DecidesShift(calls, at, maxErrors, k);
      CancelledShift(calls, at, k);
    }
    if Begins(rest, next, maxErrors, i) {
      forall k | 0 <= k < i + 1
        ensures !Decides(calls, at, maxErrors, k)
      {
        assert k > 0 ==> !Decides(rest, next, maxErrors, k - 1);
      }
    }
    if Begins(calls, at, maxErrors, i + 1) {
      forall k | 0 <= k < i
        ensures !Decides(rest, next, maxErrors, k)
      {
        assert !Decides(calls, at, maxErrors, k + 1);
      }
    }
  }

  lemma OvertakesShift(calls: seq<ToolCall>, at: At, maxErrors: int)
    requires calls != [] && !Decides(calls, at, maxErrors, 0)
    ensures OvertakesCall(calls, at, maxErrors)
            <==> calls[0].cancelAfter || OvertakesCall(calls[1..], AfterCall(calls[0], at), maxErrors)
  {
    var rest, next := calls[1..], AfterCall(calls[0], at);
    assert Begins(calls, at, maxErrors, 0);
    hide Begins, AfterCall, Decides;
    if i :| 0 <= i < |calls| && Begins(calls, at, maxErrors, i) && calls[i].cancelAfter {
      if i > 0 {
        BeginsShift(calls, at, maxErrors, i - 1);
        assert rest[i - 1] == calls[i];
      }
    }
    if i :| 0 <= i < |rest| && Begins(rest, next, maxErrors, i) && rest[i].cancelAfter {
      BeginsShift(calls, at, maxErrors, i);
      assert calls[i + 1] == rest[i];
    }
  }

  lemma FlaggedNeverOvertaken(calls: seq<ToolCall>, at: At, maxErrors: int)
    requires at.flagged
    ensures !OvertakesCall(calls, at, maxErrors)
  {
    hide Decides;
  }

  lemma DecidedAtOnce(calls: seq<ToolCall>, at: At, maxErrors: int)
    requires calls != [] && Decides(calls, at, maxErrors, 0)
    ensures OvertakesCall(calls, at, maxErrors) <==> !CancelledBy(calls, at, 0) && calls[0].cancelAfter
  {
    if OvertakesCall(calls, at, maxErrors) {
      var i :| 0 <= i < |calls| && Begins(calls, at, maxErrors, i) && calls[i].cancelAfter;
      hide Decides, CancelledBy;
      assert i == 0;
    } else {
      hide Decides, CancelledBy;
      assert !Begins(calls, at, maxErrors, 0) || !calls[0].cancelAfter;
    }
  }

  lemma OneToolLate(s: State, c: ToolCall)
    requires s.graph.status == Running
    ensures OneTool(s, c).0.lateCalls
            == s.lateCalls + if !s.graph.cancelRequested && !c.cancelBefore && c.cancelAfter then 1 else 0
  {
  }

  lemma {:induction false} ToolsLate(s: State, calls: seq<ToolCall>)
    requires s.graph.status == Running
    ensures Tools(s, calls).0.lateCalls == s.lateCalls + if OvertakesCall(calls, AtOf(s), s.maxErrors) then 1 else 0
    decreases |calls|
  {
    hide OneTool, Decides, AfterCall, CallEnds, OvertakesCall;
    if calls == [] {
      assert !OvertakesCall([], AtOf(s), s.maxErrors) by {
        NothingOvertaken(AtOf(s), s.maxErrors);
      }
    } else {
      var (next, flow) := OneTool(s, calls[0]);
      OneCallReads(s, calls[0]);
      OneToolCounts(s, calls[0]);
      OneToolLate(s, calls[0]);
      FirstCallAlone(calls, AtOf(s), s.maxErrors);
      if flow == Continue {
        ToolsLate(next, calls[1..]);
        OvertakesShift(calls, AtOf(s), s.maxErrors);
        FlagAfterCall(calls[0], AtOf(s));
        NotCancelledFirst(calls, AtOf(s), s.maxErrors);
        if AtOf(next).flagged {
          FlaggedNeverOvertaken(calls[1..], AtOf(next), s.maxErrors);
        }
      } else {
        DecidedAtOnce(calls, AtOf(s), s.maxErrors);
      }
    }
  }

  lemma NothingOvertaken(at: At, maxErrors: int)
    ensures !OvertakesCall([], at, maxErrors)
  {
  }

  lemma NotCancelledFirst(calls: seq<ToolCall>, at: At, maxErrors: int)
    requires calls != [] && !Decides(calls, at, maxErrors, 0)
    ensures !at.flagged && !calls[0].cancelBefore
  {
  }

  /** A turn begins a call after a cancel request exactly if the request arrives between a check
      and the model or tool call that follows it; and then it is one call. */
  lemma LateCallsOfTurn(s: State, t: Turn, timed: bool)
    requires s.graph.status == Running && Reaches(t, s.iteration + 1, AtOf(s), RulesOf(s, timed))
    ensures Round(s, t, timed).0.lateCalls
            == s.lateCalls
               + if && !t.reply.CrashBefore?
                    && (t.cancelAfterCheck || OvertakesCall(CallsOf(t), BeforeCalls(t, AtOf(s)), s.maxErrors))
                 then 1 else 0
  {
    var b := Begun(s, t);
    RoundBegins(s, t, timed);
    assert b.lateCalls == s.lateCalls + if t.cancelAfterCheck then 1 else 0;
    hide Begun, Round, Reaches;
    if CallsOf(t) == [] {
      NothingOvertaken(BeforeCalls(t, AtOf(s)), s.maxErrors);
    } else {
      ToolsLate(b.(errors := 0), CallsOf(t));
      if t.cancelAfterCheck {
        FlaggedNeverOvertaken(CallsOf(t), BeforeCalls(t, AtOf(s)), s.maxErrors);
      }
    }
    hide OvertakesCall, Tools;
  }
}
