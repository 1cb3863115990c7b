/**
 The agent loop and its run graph (core/agent_loop.py, classes `RunGraph` and `AgentLoop`).

 Everything outside the loop is an arbitrary environment: for each turn it says whether a cancel
 request arrives, whether the time limit has passed, what the model call comes back with and how
 each tool call ends.  Messages are left out; statuses, counters and history are kept.
 */
module AgentRun {
  import opened Common

  datatype Status =
    | Queued | Assigned | Running | Review | Done | Failed | Cancelled | Paused | BudgetExceeded | WaitingUser

  datatype Reason =
    | TaskReceived | ExecutionStarted | UserResponded
    | CancelAtHead | CancelBetweenTools
    | HardTimeout | MaxIterations(limit: int)
    | TimeoutErrors(count: nat) | ProviderErrors(count: nat) | NoToolCalls | EmptyResponses(count: nat)
    | CriticalError | ConsecutiveErrors(count: nat)
    | ResultDelivered | AskUser | InfoLoopBreak
    | OverBudget | Fatal

  datatype Record =
    | Created
    | Transition(from: Status, to: Status, reason: Reason)
    | CancelRequested
    | Retry(attempt: nat)

  // ---------------------------------------------------------------------------------------
  // The run graph
  // ---------------------------------------------------------------------------------------

  function Allowed(s: Status): set<Status> {
    match s
    case Queued => {Assigned, Cancelled}
    case Assigned => {Running, Cancelled}
    case Running => {Review, Done, Failed, Paused, BudgetExceeded, Cancelled, WaitingUser}
    case Review => {Done, Failed, Running, Cancelled}
    case Paused => {Running, Cancelled}
    case WaitingUser => {Running, Cancelled}
    case BudgetExceeded => {Cancelled}
    case Done => {}
    case Failed => {Queued}
    case Cancelled => {}
  }

  datatype Graph = Graph(status: Status, retries: nat, maxRetries: int, history: seq<Record>, cancelRequested: bool)

  function FreshGraph(maxRetries: int): Graph {
    Graph(Queued, 0, maxRetries, [Created], false)
  }

  function Move(g: Graph, to: Status, reason: Reason): Graph {
    if to in Allowed(g.status) then g.(status := to, history := g.history + [Transition(g.status, to, reason)]) else g
  }

  function Cancel(g: Graph): Graph {
    if g.status == Done || g.status == Cancelled then g
    else g.(cancelRequested := true, history := g.history + [CancelRequested])
  }

  /** The table of transitions read by its targets. */
  lemma AllowedByTarget(s: Status, to: Status)
    ensures to in Allowed(s)
            <==> match to
                 case Queued => s == Failed
                 case Assigned => s == Queued
                 case Running => s in {Assigned, Review, Paused, WaitingUser}
                 case Review => s == Running
                 case Done => s in {Running, Review}
                 case Failed => s in {Running, Review}
                 case Cancelled => s !in {Done, Failed, Cancelled}
                 case Paused => s == Running
                 case BudgetExceeded => s == Running
                 case WaitingUser => s == Running
  {
  }

  class RunGraph {
    var status: Status
    var retries: nat
    var maxRetries: int
    var history: seq<Record>
    var cancelRequested: bool

    ghost function Abs(): Graph
      reads this
    {
      Graph(status, retries, maxRetries, history, cancelRequested)
    }

    constructor (maxRetries: int)
      ensures Abs() == FreshGraph(maxRetries)
      ensures status == Queued && retries == 0 && history == [Created] && !cancelRequested
    {
      status, retries, this.maxRetries, cancelRequested := Queued, 0, maxRetries, false;
      history := [Created];
    }

    method TransitionTo(to: Status, reason: Reason) returns (ok: bool)
      modifies this
      ensures ok <==> to in Allowed(old(status))
      ensures ok ==> status == to && history == old(history) + [Transition(old(status), to, reason)]
      ensures !ok ==> Abs() == old(Abs())
      ensures Abs() == Move(old(Abs()), to, reason)
    {
      if to !in Allowed(status) {
        return false;
      }
      var from := status;
      status := to;
      history := history + [Transition(from, to, reason)];
      return true;
    }

    method RequestCancel() returns (ok: bool)
      modifies this
      ensures ok <==> old(status) != Done && old(status) != Cancelled
      ensures ok ==> cancelRequested && status == old(status) && history == old(history) + [CancelRequested]
      ensures !ok ==> Abs() == old(Abs())
      ensures Abs() == Cancel(old(Abs()))
    {
      if status == Done || status == Cancelled {
        return false;
      }
      cancelRequested := true;
      history := history + [CancelRequested];
      return true;
    }

    /** True for exactly the first `maxRetries` retries. */
    method RecordRetry() returns (ok: bool)
      modifies this
      ensures Abs() == old(Abs()).(retries := old(retries) + 1, history := old(history) + [Retry(old(retries) + 1)])
      ensures ok <==> old(retries) < maxRetries
    {
      retries := retries + 1;
      history := history + [Retry(retries)];
      return retries <= maxRetries;
    }
  }

  // ---------------------------------------------------------------------------------------
  // The environment
  // ---------------------------------------------------------------------------------------

  /** How a tool call ends: other work, one of the message types, an error (raised by the tool or
      while its result is processed, in which case the work was done), or an exception that
      escapes the tool loop. */
  datatype ToolEnd =
    | Work | ResultMessage | AskMessage | InfoMessage | OtherMessage | Error(critical: bool, worked: bool) | Crash

  /** A cancel request may arrive before the check that precedes the call, or right after it. */
  datatype ToolCall = ToolCall(cancelBefore: bool, cancelAfter: bool, end: ToolEnd)

  datatype Reply =
    | Timeout
    | BadRequest
    | ProviderDown
    | BudgetError
    | CrashBefore  // an exception before the model call begins
    | CrashAfter   // an exception of the model call, or before its answer is processed
    | Answer(calls: seq<ToolCall>, hasText: bool)

  datatype Turn = Turn(cancelAtHead: bool, timeUp: bool, cancelAfterCheck: bool, reply: Reply)

  type Env = nat -> Turn

  // ---------------------------------------------------------------------------------------
  // One turn, as a function on the state
  // ---------------------------------------------------------------------------------------

  /** `llmCalls` counts model calls begun, `lateCalls` model and tool calls begun after a cancel
      request. */
  datatype State = State(
    graph: Graph, iteration: nat, maxIterations: int, maxErrors: int, errors: nat, infos: nat,
    llmCalls: nat, lateCalls: nat)

  datatype Flow = Continue | Stop | RaiseBudget | RaiseFatal

  function To(s: State, to: Status, reason: Reason): State {
    s.(graph := Move(s.graph, to, reason))
  }

  function CancelIf(s: State, arrives: bool): State {
    if arrives then s.(graph := Cancel(s.graph)) else s
  }

  /** A model or tool call begins. */
  function Begin(s: State): State {
    if s.graph.cancelRequested then s.(lateCalls := s.lateCalls + 1) else s
  }

  function ToolError(s: State, critical: bool): (State, Flow) {
    var s := s.(errors := s.errors + 1);
    if critical then (To(s, Failed, CriticalError), Stop)
    else if s.errors >= s.maxErrors then (To(s, Failed, ConsecutiveErrors(s.errors)), Stop)
    else (s, Continue)
  }

  /** What one tool call does to the run once it has begun. */
  function EndTool(s: State, end: ToolEnd): (State, Flow) {
    match end
    case Work => (s.(infos := 0), Continue)
    case ResultMessage => (To(s, Done, ResultDelivered), Stop)
    case AskMessage => (To(s, WaitingUser, AskUser), Stop)
    case InfoMessage =>
      var s := s.(infos := s.infos + 1);
      if s.infos >= 3 then (To(s, Done, InfoLoopBreak), Stop) else (s, Continue)
    case OtherMessage => (s, Continue)
    case Error(critical, worked) => ToolError(if worked then s.(infos := 0) else s, critical)
    case Crash => (s, RaiseFatal)
  }

  function OneTool(s: State, c: ToolCall): (State, Flow) {
    var s := CancelIf(s, c.cancelBefore);
    if s.graph.cancelRequested then (To(s, Cancelled, CancelBetweenTools), Stop)
    else EndTool(Begin(CancelIf(s, c.cancelAfter)), c.end)
  }

  function Tools(s: State, calls: seq<ToolCall>): (State, Flow)
    decreases |calls|
  {
    if calls == [] then (s, Continue)
    else
      var (s', flow) := OneTool(s, calls[0]);
      if flow == Continue then Tools(s', calls[1..]) else (s', flow)
  }

  /** What a model call that ended with `reply` does to the run. */
  function Handle(s: State, reply: Reply): (State, Flow) {
    match reply
    case Timeout =>
      var s := s.(errors := s.errors + 1);
      if s.errors >= s.maxErrors then (To(s, Failed, TimeoutErrors(s.errors)), Stop) else (s, Continue)
    case BadRequest => (s, Continue)
    case ProviderDown =>
      var s := s.(errors := s.errors + 1);
      if s.errors >= s.maxErrors then (To(s, Failed, ProviderErrors(s.errors)), Stop) else (s, Continue)
    case BudgetError => (s, RaiseBudget)
    case CrashBefore => (s, RaiseFatal)
    case CrashAfter => (s, RaiseFatal)
    case Answer(calls, hasText) =>
      if calls != [] then Tools(s.(errors := 0), calls)
      else
        var s := s.(errors := s.errors + 1);
        if hasText then if s.errors >= 3 then (To(s, Failed, NoToolCalls), Stop) else (s, Continue)
        else if s.errors >= s.maxErrors then (To(s, Failed, EmptyResponses(s.errors)), Stop)
        else (s, Continue)
  }

  /** `_run_iteration` */
  function Iterate(s: State, t: Turn): (State, Flow) {
    if t.reply.CrashBefore? then (s, RaiseFatal)
    else
      var s := Begin(CancelIf(s, t.cancelAfterCheck));
      Handle(s.(llmCalls := s.llmCalls + 1), t.reply)
  }

  /** One pass through the loop; only the first run has the ten-minute limit. */
  function Round(s: State, t: Turn, timed: bool): (State, Flow) {
    var s := CancelIf(s, t.cancelAtHead);
    if s.graph.cancelRequested then (To(s, Cancelled, CancelAtHead), Stop)
    else
      var s := s.(iteration := s.iteration + 1);
      if timed && t.timeUp then (To(s, Failed, HardTimeout), Stop)
      else if s.iteration > s.maxIterations then (To(s, Failed, MaxIterations(s.maxIterations)), Stop)
      else Iterate(s, t)
  }

  /** The exception handlers around the loop. */
  function Land(s: State, flow: Flow): State {
    match flow
    case RaiseBudget => To(s, BudgetExceeded, OverBudget)
    case RaiseFatal => To(s, Failed, Fatal)
    case _ => s
  }

  function Left(s: State): nat {
    if s.iteration > s.maxIterations then 0 else s.maxIterations + 1 - s.iteration
  }

  /** The loop: turn `n` of the environment is the one of iteration `n`. */
  function Loop(s: State, env: Env, timed: bool): State
    decreases Left(s)
  {
    if s.graph.status != Running then s
    else
      var (s', flow) := Round(s, env(s.iteration + 1), timed);
      RoundCounts(s, env(s.iteration + 1), timed);
      if flow == Continue then Loop(s', env, timed) else Land(s', flow)
  }

  datatype Complexity = Complex | Moderate | Simple

  function IterationLimit(c: Complexity): int {
    match c
    case Complex => 50
    case Moderate => 30
    case Simple => 15
  }

  /** `run`; an idempotency hit returns the stored result right after the first transition. */
  function RunTask(s: State, env: Env, complexity: Complexity, hit: bool): State {
    var s := To(s.(iteration := 0, errors := 0), Assigned, TaskReceived);
    if hit then s
    else Loop(To(s, Running, ExecutionStarted).(maxIterations := IterationLimit(complexity)), env, true)
  }

  /** `resume`; `None` is the RuntimeError of a run that does not wait for its user. */
  function Resume(s: State, env: Env): Option<State> {
    if s.graph.status != WaitingUser then None
    else Some(Loop(To(s, Running, UserResponded).(errors := 0), env, false))
  }

  // ---------------------------------------------------------------------------------------
  // Counters
  // ---------------------------------------------------------------------------------------

  lemma OneToolCounts(s: State, c: ToolCall)
    ensures var s' := OneTool(s, c).0;
            && s'.iteration == s.iteration && s'.maxIterations == s.maxIterations && s'.maxErrors == s.maxErrors
            && s'.llmCalls == s.llmCalls
  {
    hide Move, Cancel, Allowed;
  }

  lemma {:induction false} ToolsCount(s: State, calls: seq<ToolCall>)
    ensures var s' := Tools(s, calls).0;
            && s'.iteration == s.iteration && s'.maxIterations == s.maxIterations && s'.maxErrors == s.maxErrors
            && s'.llmCalls == s.llmCalls
    decreases |calls|
  {
    if calls != [] {
      hide OneTool;
      OneToolCounts(s, calls[0]);
      ToolsCount(OneTool(s, calls[0]).0, calls[1..]);
    }
  }

  /** A turn is one iteration and at most one model call, none beyond the iteration limit. */
  lemma RoundCounts(s: State, t: Turn, timed: bool)
    ensures var (s', flow) := Round(s, t, timed);
            && s'.maxIterations == s.maxIterations && s'.maxErrors == s.maxErrors
            && s.iteration <= s'.iteration <= s.iteration + 1
            && s.llmCalls <= s'.llmCalls <= s.llmCalls + (s'.iteration - s.iteration)
            && (s'.llmCalls > s.llmCalls ==> s'.iteration <= s.maxIterations)
            && (flow == Continue ==> s'.iteration == s.iteration + 1 <= s.maxIterations)
  {
    hide Move, Cancel, Allowed, Tools;
    match t.reply
    case Answer(calls, _) =>
      var s1 := CancelIf(s, t.cancelAtHead);
      var s2 := Begin(CancelIf(s1.(iteration := s1.iteration + 1), t.cancelAfterCheck));
      ToolsCount(s2.(llmCalls := s2.llmCalls + 1).(errors := 0), calls);
    case _ =>
  }

  // ---------------------------------------------------------------------------------------
  // The object
  // ---------------------------------------------------------------------------------------

  class AgentLoop {
    const run: RunGraph
    const maxErrors: int
    var iteration: nat
    var maxIterations: int
    var errors: nat
    var infos: nat
    ghost var llmCalls: nat
    ghost var lateCalls: nat

    ghost function Abs(): State
      reads this, run
    {
      State(run.Abs(), iteration, maxIterations, maxErrors, errors, infos, llmCalls, lateCalls)
    }

    constructor (maxIterations: int, maxErrors: int, maxRetries: int)
      ensures fresh(run)
      ensures Abs() == State(FreshGraph(maxRetries), 0, maxIterations, maxErrors, 0, 0, 0, 0)
    {
      run := new RunGraph(maxRetries);
      this.maxIterations, this.maxErrors := maxIterations, maxErrors;
      iteration, errors, infos, llmCalls, lateCalls := 0, 0, 0, 0, 0;
    }

    method CancelArrives(arrives: bool)
      modifies run
      ensures Abs() == CancelIf(old(Abs()), arrives)
    {
      if arrives {
        var ok := run.RequestCancel();
      }
    }

    ghost method CallBegins()
      modifies this`lateCalls
      ensures Abs() == Begin(old(Abs()))
    {
      if run.cancelRequested {
        lateCalls := lateCalls + 1;
      }
    }

    method HandleToolError(critical: bool) returns (flow: Flow)
      modifies this`errors, run
      ensures (Abs(), flow) == ToolError(old(Abs()), critical)
    {
      errors := errors + 1;
      if critical {
        var ok := run.TransitionTo(Failed, CriticalError);
        return Stop;
      }
      if errors >= maxErrors {
        var ok := run.TransitionTo(Failed, ConsecutiveErrors(errors));
        return Stop;
      }
      return Continue;
    }

    method FinishTool(end: ToolEnd) returns (flow: Flow)
      modifies this`errors, this`infos, run
      ensures (Abs(), flow) == EndTool(old(Abs()), end)
    {
      match end {
        case Work =>
          infos := 0;
          return Continue;
        case ResultMessage =>
          var ok := run.TransitionTo(Done, ResultDelivered);
          return Stop;
        case AskMessage =>
          var ok := run.TransitionTo(WaitingUser, AskUser);
          return Stop;
        case InfoMessage =>
          infos := infos + 1;
          if infos >= 3 {
            var ok := run.TransitionTo(Done, InfoLoopBreak);
            return Stop;
          }
          return Continue;
        case OtherMessage =>
          return Continue;
        case Error(critical, worked) =>
          if worked {
            infos := 0;
          }
          flow := HandleToolError(critical);
        case Crash =>
          return RaiseFatal;
      }
    }

    method ExecuteToolCalls(calls: seq<ToolCall>) returns (flow: Flow)
      modifies this`errors, this`infos, this`lateCalls, run
      ensures (Abs(), flow) == Tools(old(Abs()), calls)
    {
      for i := 0 to |calls|
        invariant Tools(Abs(), calls[i..]) == Tools(old(Abs()), calls)
      {
        assert calls[i..][1..] == calls[i + 1..];
        CancelArrives(calls[i].cancelBefore);
        if run.cancelRequested {
          var ok := run.TransitionTo(Cancelled, CancelBetweenTools);
          return Stop;
        }
        CancelArrives(calls[i].cancelAfter);
        CallBegins();
        flow := FinishTool(calls[i].end);
        if flow != Continue {
          return;
        }
      }
      return Continue;
    }

    method RunIteration(t: Turn) returns (flow: Flow)
      modifies this`errors, this`infos, this`llmCalls, this`lateCalls, run
      ensures (Abs(), flow) == Iterate(old(Abs()), t)
    {
      hide Tools, Move, Cancel;
      if t.reply.CrashBefore? {
        return RaiseFatal;
      }
      CancelArrives(t.cancelAfterCheck);
      CallBegins();
      llmCalls := llmCalls + 1;
      match t.reply {
        case Timeout =>
          errors := errors + 1;
          if errors >= maxErrors {
            var ok := run.TransitionTo(Failed, TimeoutErrors(errors));
            return Stop;
          }
          return Continue;
        case BadRequest =>
          return Continue;
        case ProviderDown =>
          errors := errors + 1;
          if errors >= maxErrors {
            var ok := run.TransitionTo(Failed, ProviderErrors(errors));
            return Stop;
          }
          return Continue;
        case BudgetError =>
          return RaiseBudget;
        case CrashAfter =>
          return RaiseFatal;
        case Answer(calls, hasText) =>
          if calls != [] {
            errors := 0;
            flow := ExecuteToolCalls(calls);
            return;
          }
          errors := errors + 1;
          if hasText {
            if errors >= 3 {
              var ok := run.TransitionTo(Failed, NoToolCalls);
              return Stop;
            }
            return Continue;
          }
          if errors >= maxErrors {
            var ok := run.TransitionTo(Failed, EmptyResponses(errors));
            return Stop;
          }
          return Continue;
      }
    }

    method RunRound(t: Turn, timed: bool) returns (flow: Flow)
      modifies this, run
      ensures (Abs(), flow) == Round(old(Abs()), t, timed)
    {
      hide Iterate, Move, Cancel;
      CancelArrives(t.cancelAtHead);
      if run.cancelRequested {
        var ok := run.TransitionTo(Cancelled, CancelAtHead);
        return Stop;
      }
      iteration := iteration + 1;
      if timed && t.timeUp {
        var ok := run.TransitionTo(Failed, HardTimeout);
        return Stop;
      }
      if iteration > maxIterations {
        var ok := run.TransitionTo(Failed, MaxIterations(maxIterations));
        return Stop;
      }
      flow := RunIteration(t);
    }

    /** The loop of `run` (timed) and of `_continue_loop` (not timed), with its handlers. */
    method RunLoop(env: Env, timed: bool)
      modifies this, run
      ensures Abs() == Loop(old(Abs()), env, timed)
    {
      hide Round, Move, Cancel;
      while run.status == Running
        invariant Loop(Abs(), env, timed) == Loop(old(Abs()), env, timed)
        decreases Left(Abs())
      {
        RoundCounts(Abs(), env(iteration + 1), timed);
        var flow := RunRound(env(iteration + 1), timed);
        if flow != Continue {
          if flow == RaiseBudget {
            var ok := run.TransitionTo(BudgetExceeded, OverBudget);
          } else if flow == RaiseFatal {
            var ok := run.TransitionTo(Failed, Fatal);
          }
          return;
        }
      }
    }

    /** A message that the identity shield answers leaves the run untouched. */
    method RunMessage(env: Env, complexity: Complexity, shielded: bool, hit: bool)
      modifies this, run
      ensures Abs() == if shielded then old(Abs()) else RunTask(old(Abs()), env, complexity, hit)
    {
      hide Move, Cancel, Loop;
      if shielded {
        return;
      }
      iteration, errors := 0, 0;
      var ok := run.TransitionTo(Assigned, TaskReceived);
      if hit {
        return;
      }
      ok := run.TransitionTo(Running, ExecutionStarted);
      maxIterations := IterationLimit(complexity);
      RunLoop(env, true);
    }

    method ResumeRun(env: Env) returns (ok: bool)
      modifies this, run
      ensures ok <==> Resume(old(Abs()), env).Some?
      ensures Abs() == if ok then Resume(old(Abs()), env).value else old(Abs())
    {
      hide Move, Cancel, Loop;
      if run.status != WaitingUser {
        return false;
      }
      var moved := run.TransitionTo(Running, UserResponded);
      errors := 0;
      RunLoop(env, false);
      return true;
    }
  }

  // ---------------------------------------------------------------------------------------
  // What every run keeps
  // ---------------------------------------------------------------------------------------

  /** Where the recorded transitions lead from QUEUED, if each is allowed and starts where the
      one before it ended. */
  function Follow(history: seq<Record>): Option<Status> {
    if history == [] then Some(Queued)
    else
      var at := Follow(history[..|history| - 1]);
      match history[|history| - 1]
      case Transition(from, to, _) => if at == Some(from) && to in Allowed(from) then Some(to) else None
      case _ => at
  }

  predicate LegalPath(g: Graph) {
    Follow(g.history) == Some(g.status)
  }

  /** After a cancel request at most one more call has begun, and none without a request. */
  predicate PromptlyCancelled(s: State) {
    s.lateCalls <= 1 && (!s.graph.cancelRequested ==> s.lateCalls == 0)
  }

  predicate Sound(s: State) {
    LegalPath(s.graph) && PromptlyCancelled(s)
  }

  lemma MoveSound(s: State, to: Status, reason: Reason)
    requires Sound(s)
    ensures Sound(To(s, to, reason))
    ensures To(s, to, reason).graph.status == if to in Allowed(s.graph.status) then to else s.graph.status
  {
    var h := s.graph.history;
    assert (h + [Transition(s.graph.status, to, reason)])[..|h|] == h;
  }

  lemma CancelSound(s: State, arrives: bool)
    requires Sound(s)
    ensures Sound(CancelIf(s, arrives)) && CancelIf(s, arrives).graph.status == s.graph.status
    ensures s.graph.cancelRequested ==> CancelIf(s, arrives).graph.cancelRequested
    ensures arrives && s.graph.status == Running ==> CancelIf(s, arrives).graph.cancelRequested
  {
    var h := s.graph.history;
    assert (h + [CancelRequested])[..|h|] == h;
  }

  /** Where a flow leaves a run that was RUNNING. */
  predicate Landed(s: State, flow: Flow) {
    && Sound(s)
    && if flow == Stop then s.graph.status in {Cancelled, Failed, Done, WaitingUser} else s.graph.status == Running
  }

  lemma MoveLands(s: State, to: Status, reason: Reason)
    requires Sound(s) && s.graph.status == Running && to in {Cancelled, Failed, Done, WaitingUser}
    ensures Landed(To(s, to, reason), Stop)
  {
    hide Move, LegalPath;
    MoveSound(s, to, reason);
  }

  lemma BeginSound(s: State, arrives: bool)
    requires Sound(s) && s.graph.status == Running && !s.graph.cancelRequested
    ensures Sound(Begin(CancelIf(s, arrives))) && Begin(CancelIf(s, arrives)).graph.status == Running
  {
    CancelSound(s, arrives);
    hide LegalPath, Cancel;
  }

  lemma SameSound(s: State, s': State)
    requires Sound(s) && s'.graph == s.graph && s'.lateCalls == s.lateCalls
    ensures Sound(s')
  {
  }

  lemma ToolErrorLands(s: State, critical: bool)
    requires Sound(s) && s.graph.status == Running
    ensures Landed(ToolError(s, critical).0, ToolError(s, critical).1)
  {
    hide Move, LegalPath;
    var s1 := s.(errors := s.errors + 1);
    SameSound(s, s1);
    MoveLands(s1, Failed, CriticalError);
    MoveLands(s1, Failed, ConsecutiveErrors(s1.errors));
  }

  lemma EndToolLands(s: State, end: ToolEnd)
    requires Sound(s) && s.graph.status == Running
    ensures Landed(EndTool(s, end).0, EndTool(s, end).1)
  {
    hide Move, LegalPath;
    SameSound(s, s.(infos := 0));
    SameSound(s, s.(infos := s.infos + 1));
    match end
    case ResultMessage => MoveLands(s, Done, ResultDelivered);
    case AskMessage => MoveLands(s, WaitingUser, AskUser);
    case InfoMessage => MoveLands(s.(infos := s.infos + 1), Done, InfoLoopBreak);
    case Error(critical, worked) => ToolErrorLands(if worked then s.(infos := 0) else s, critical);
    case _ =>
  }

  lemma OneToolLands(s: State, c: ToolCall)
    requires Sound(s) && s.graph.status == Running
    ensures Landed(OneTool(s, c).0, OneTool(s, c).1)
  {
    hide Move, Cancel, Sound, Begin, EndTool;
    CancelSound(s, c.cancelBefore);
    var s1 := CancelIf(s, c.cancelBefore);
    if s1.graph.cancelRequested {
      MoveLands(s1, Cancelled, CancelBetweenTools);
    } else {
      BeginSound(s1, c.cancelAfter);
      EndToolLands(Begin(CancelIf(s1, c.cancelAfter)), c.end);
    }
  }

  lemma {:induction false} ToolsLand(s: State, calls: seq<ToolCall>)
    requires Sound(s) && s.graph.status == Running
    ensures Landed(Tools(s, calls).0, Tools(s, calls).1)
    decreases |calls|
  {
    hide Sound, OneTool;
    if calls != [] {
      OneToolLands(s, calls[0]);
      if OneTool(s, calls[0]).1 == Continue {
        ToolsLand(OneTool(s, calls[0]).0, calls[1..]);
      }
    }
  }

  lemma HandleLands(s: State, reply: Reply)
    requires Sound(s) && s.graph.status == Running
    ensures Landed(Handle(s, reply).0, Handle(s, reply).1)
  {
    hide Move, Sound, Tools;
    var s1 := s.(errors := s.errors + 1);
    SameSound(s, s1);
    SameSound(s, s.(errors := 0));
    match reply
    case Timeout => MoveLands(s1, Failed, TimeoutErrors(s1.errors));
    case ProviderDown => MoveLands(s1, Failed, ProviderErrors(s1.errors));
    case Answer(calls, hasText) =>
      ToolsLand(s.(errors := 0), calls);
      MoveLands(s1, Failed, NoToolCalls);
      MoveLands(s1, Failed, EmptyResponses(s1.errors));
    case _ =>
  }

  lemma RoundLands(s: State, t: Turn, timed: bool)
    requires Sound(s) && s.graph.status == Running
    ensures Landed(Round(s, t, timed).0, Round(s, t, timed).1)
  {
    hide Move, Cancel, Sound, Begin, Handle;
    CancelSound(s, t.cancelAtHead);
    var s1 := CancelIf(s, t.cancelAtHead);
    if s1.graph.cancelRequested {
      MoveLands(s1, Cancelled, CancelAtHead);
    } else {
      var s2 := s1.(iteration := s1.iteration + 1);
      SameSound(s1, s2);
      MoveLands(s2, Failed, HardTimeout);
      MoveLands(s2, Failed, MaxIterations(s2.maxIterations));
      BeginSound(s2, t.cancelAfterCheck);
      var s3 := Begin(CancelIf(s2, t.cancelAfterCheck));
      SameSound(s3, s3.(llmCalls := s3.llmCalls + 1));
      HandleLands(s3.(llmCalls := s3.llmCalls + 1), t.reply);
    }
  }

  const ENDED: set<Status> := {Cancelled, Failed, Done, WaitingUser, BudgetExceeded}

  /** The loop always ends, never in RUNNING but in one of five statuses; the recorded transitions
      stay a legal path and a cancel request lets at most one more call begin. */
  lemma {:induction false} LoopLands(s: State, env: Env, timed: bool)
    requires Sound(s) && s.graph.status == Running
    ensures Sound(Loop(s, env, timed)) && Loop(s, env, timed).graph.status in ENDED
    decreases Left(s)
  {
    hide Sound, Round, Move;
    var t := env(s.iteration + 1);
    var (s', flow) := Round(s, t, timed);
    RoundLands(s, t, timed);
    RoundCounts(s, t, timed);
    if flow == Continue {
      LoopLands(s', env, timed);
    } else {
      LandSound(s', flow);
    }
  }

  lemma LandSound(s: State, flow: Flow)
    requires Landed(s, flow) && flow != Continue
    ensures Sound(Land(s, flow)) && Land(s, flow).graph.status in ENDED
  {
    hide Sound, Move;
    match flow
    case RaiseBudget => MoveSound(s, BudgetExceeded, OverBudget);
    case RaiseFatal => MoveSound(s, Failed, Fatal);
    case _ =>
  }

  /** Model calls never exceed iterations, nor the iteration limit. */
  predicate CallsBounded(s: State) {
    s.llmCalls <= s.iteration && (s.llmCalls == 0 || s.llmCalls <= s.maxIterations)
  }

  lemma RoundBounded(s: State, t: Turn, timed: bool)
    requires CallsBounded(s)
    ensures CallsBounded(Round(s, t, timed).0) && Round(s, t, timed).0.maxIterations == s.maxIterations
  {
    hide Round;
    RoundCounts(s, t, timed);
  }

  lemma LandBounded(s: State, flow: Flow)
    requires CallsBounded(s)
    ensures CallsBounded(Land(s, flow)) && Land(s, flow).maxIterations == s.maxIterations
  {
    hide Move;
  }

  lemma {:induction false} LoopCounts(s: State, env: Env, timed: bool)
    requires CallsBounded(s)
    ensures CallsBounded(Loop(s, env, timed)) && Loop(s, env, timed).maxIterations == s.maxIterations
    decreases Left(s)
  {
    hide Round, Land, CallsBounded;
    if s.graph.status == Running {
      var t := env(s.iteration + 1);
      var (s', flow) := Round(s, t, timed);
      RoundBounded(s, t, timed);
      if flow == Continue {
        RoundCounts(s, t, timed);
        LoopCounts(s', env, timed);
      } else {
        LandBounded(s', flow);
      }
    }
  }

  /** A cancel request before the next turn ends the run there, without another call. */
  lemma CancelStopsLoop(s: State, env: Env, timed: bool)
    requires s.graph.status == Running && s.graph.cancelRequested
    ensures var s' := Loop(s, env, timed);
            && s'.graph.status == Cancelled
            && s'.llmCalls == s.llmCalls && s'.lateCalls == s.lateCalls && s'.iteration == s.iteration
  {
  }

  // ---------------------------------------------------------------------------------------
  // A run and its resumes
  // ---------------------------------------------------------------------------------------

  /** Any number of resumes, each against its own environment. */
  function Resumes(s: State, envs: seq<Env>): State
    decreases |envs|
  {
    if envs == [] then s
    else match Resume(s, envs[0])
      case None => s
      case Some(s') => Resumes(s', envs[1..])
  }

  lemma {:induction false} ResumesKeep(s: State, envs: seq<Env>)
    requires Sound(s) && CallsBounded(s) && s.graph.status in ENDED
    ensures var s' := Resumes(s, envs);
            Sound(s') && CallsBounded(s') && s'.graph.status in ENDED && s'.maxIterations == s.maxIterations
    decreases |envs|
  {
    hide Sound, Loop, Move;
    if envs != [] && s.graph.status == WaitingUser {
      MoveSound(s, Running, UserResponded);
      var s1 := To(s, Running, UserResponded).(errors := 0);
      SameSound(To(s, Running, UserResponded), s1);
      MoveCounts(s, Running, UserResponded);
      LoopLands(s1, envs[0], false);
      LoopCounts(s1, envs[0], false);
      ResumesKeep(Loop(s1, envs[0], false), envs[1..]);
    }
  }

  lemma MoveCounts(s: State, to: Status, reason: Reason)
    ensures var s' := To(s, to, reason);
            && s'.llmCalls == s.llmCalls && s'.iteration == s.iteration && s'.maxIterations == s.maxIterations
  {
  }

  /** A run from a fresh graph and any number of resumes, against every environment: it ends in
      one of five statuses, never in RUNNING; its recorded transitions are a legal path; it makes
      at most as many model calls as its iteration limit, so never more than 50; and after a
      cancel request at most one more model or tool call begins. */
  lemma FreshRunIsSafe(maxIterations: int, maxErrors: int, maxRetries: int, env: Env, complexity: Complexity,
                       envs: seq<Env>)
    ensures var start := State(FreshGraph(maxRetries), 0, maxIterations, maxErrors, 0, 0, 0, 0);
            var s := Resumes(RunTask(start, env, complexity, false), envs);
            && s.graph.status in ENDED
            && LegalPath(s.graph)
            && s.llmCalls <= IterationLimit(complexity) <= 50
            && s.lateCalls <= 1
  {
    var start := State(FreshGraph(maxRetries), 0, maxIterations, maxErrors, 0, 0, 0, 0);
    assert Sound(start) by {
      assert Follow([Created]) == Follow([]) by {
        assert [Created][..0] == [];
      }
    }
    var s1 := To(start, Assigned, TaskReceived);
    MoveSound(start, Assigned, TaskReceived);
    MoveSound(s1, Running, ExecutionStarted);
    var s2 := To(s1, Running, ExecutionStarted);
    var s3 := s2.(maxIterations := IterationLimit(complexity));
    SameSound(s2, s3);
    LoopLands(s3, env, true);
    LoopCounts(s3, env, true);
    ResumesKeep(Loop(s3, env, true), envs);
  }

  /** A run whose idempotency key was seen before stays ASSIGNED; it ends exactly without a hit. */
  lemma EndsIffNoHit(maxIterations: int, maxErrors: int, maxRetries: int, env: Env, complexity: Complexity, hit: bool)
    ensures var start := State(FreshGraph(maxRetries), 0, maxIterations, maxErrors, 0, 0, 0, 0);
            var s := RunTask(start, env, complexity, hit);
            && (s.graph.status in ENDED <==> !hit)
            && (hit ==> s.graph.status == Assigned && s.llmCalls == 0)
  {
    if !hit {
      FreshRunIsSafe(maxIterations, maxErrors, maxRetries, env, complexity, []);
    }
  }

  // ---------------------------------------------------------------------------------------
  // Legal paths
  // ---------------------------------------------------------------------------------------

  predicate EntersRunning(history: seq<Record>) {
    exists i | 0 <= i < |history| :: history[i].Transition? && history[i].to == Running
  }

  lemma {:induction false} NoRunningNoResult(history: seq<Record>)
    requires !EntersRunning(history)
    ensures Follow(history) in {None, Some(Queued), Some(Assigned), Some(Cancelled)}
  {
    if history != [] {
      NoRunningNoResult(history[..|history| - 1]);
    }
  }

  /** No run is done, failed, paused, over budget or waiting without having been running. */
  lemma OutcomesComeFromRunning(g: Graph)
    requires LegalPath(g) && g.status !in {Queued, Assigned, Cancelled}
    ensures EntersRunning(g.history)
  {
    if !EntersRunning(g.history) {
      NoRunningNoResult(g.history);
    }
  }

  lemma {:induction false} FollowPrefix(h: seq<Record>, more: seq<Record>)
    ensures Follow(h + more).Some? ==> Follow(h).Some?
    ensures Follow(h) in {Some(Done), Some(Cancelled)} && Follow(h + more).Some? ==> Follow(h + more) == Follow(h)
  {
    if more == [] {
      assert h + more == h;
    } else {
      FollowPrefix(h, more[..|more| - 1]);
      assert (h + more)[..|h + more| - 1] == h + more[..|more| - 1];
    }
  }

  /** DONE and CANCELLED are final: a legal history that reaches one of them stays there. */
  lemma DoneAndCancelledAreFinal(g: Graph, n: nat)
    requires LegalPath(g) && n <= |g.history| && Follow(g.history[..n]) in {Some(Done), Some(Cancelled)}
    ensures Some(g.status) == Follow(g.history[..n])
  {
    FollowPrefix(g.history[..n], g.history[n..]);
    assert g.history[..n] + g.history[n..] == g.history;
  }
}
