/**
 The approval protocol for dangerous actions (core/security.py, class `ApprovalGate`).

 `Gate` is the object: two dictionaries, `pending` and `decisions`, and the audit log.
 Every clock read of the program is an argument, because `check` reads the clock twice
 (once to reap, once to use or create a request).  The HMAC over the action context is taken
 to be injective, so a digest is the signed message itself.
 */
module Approval {
  import opened Common

  datatype Impact = Low | Medium | High | Critical

  /** One entry of the pattern table; the regular expression is an arbitrary predicate. */
  datatype Pattern = Pattern(matches: string -> bool, impact: Impact, description: string)

  datatype Request = Request(
    id: string, digest: string, display: string, impact: Impact, reason: string,
    model: string, project: string, server: Option<string>, createdAt: int, expiresAt: int)

  datatype Decision = Decision(requestId: string, approved: bool, decidedBy: string, decidedAt: int, note: string)

  datatype AuditEvent =
    | ActionMedium(model: string, project: string, server: Option<string>, reason: string, actionLength: nat)
    | ApprovalRequested(model: string, project: string, server: Option<string>,
                        requestId: string, impact: Impact, reason: string, expiresAt: int)
    | ApprovalDecided(model: string, project: string, server: Option<string>,
                      requestId: string, approved: bool, user: string)
    | ApprovalUsed(model: string, project: string, server: Option<string>, requestId: string)

  datatype State = State(pending: map<string, Request>, decisions: map<string, Decision>, audit: seq<AuditEvent>)

  /** The arguments of `check`, the id the program would draw and the two clock reads. */
  datatype CheckCall = CheckCall(
    action: string, model: string, project: string, server: Option<string>,
    token: Option<string>, freshId: string, reapAt: int, at: int)

  datatype DecideCall = DecideCall(id: string, approved: bool, user: string, note: string, at: int, stampedAt: int)

  datatype CheckOutcome =
    | Passed
    | Required(reason: string, requestId: string)
    | Denied(requestId: string, why: string)
    | Expired(requestId: string)

  datatype DecideOutcome = Decided(decision: Decision) | NoUser | UnknownRequest | DecidedTooLate

  /** 30 minutes in the clock's unit, the microsecond. */
  const TTL: int := 30 * 60 * 1_000_000

  // ---------------------------------------------------------------------------------------
  // Classification and digests
  // ---------------------------------------------------------------------------------------

  function Rank(level: Impact): nat {
    match level
    case Low => 0
    case Medium => 1
    case High => 2
    case Critical => 3
  }

  function Classify(patterns: seq<Pattern>, action: string): (Impact, string) {
    if patterns == [] then (Low, "Standard operation")
    else
      var best := Classify(patterns[..|patterns| - 1], action);
      var p := patterns[|patterns| - 1];
      if p.matches(action) && Rank(p.impact) > Rank(best.0) then (p.impact, p.description) else best
  }

  /** The level is the highest of all matching patterns and the description is that of the
      first pattern reaching it. */
  lemma {:induction false} ClassifyIsHighest(patterns: seq<Pattern>, action: string)
    ensures forall i | 0 <= i < |patterns| && patterns[i].matches(action) ::
              Rank(patterns[i].impact) <= Rank(Classify(patterns, action).0)
    ensures var best := Classify(patterns, action);
            if best.0 == Low then best.1 == "Standard operation"
            else exists i | 0 <= i < |patterns| ::
                   && patterns[i].matches(action) && best == (patterns[i].impact, patterns[i].description)
                   && forall j | 0 <= j < i && patterns[j].matches(action) :: Rank(patterns[j].impact) < Rank(best.0)
  {
    if patterns != [] {
      var n := |patterns| - 1;
      ClassifyIsHighest(patterns[..n], action);
      var before := Classify(patterns[..n], action);
      forall i | 0 <= i < n && patterns[i].matches(action)
        ensures Rank(patterns[i].impact) <= Rank(before.0)
      {
        assert patterns[..n][i] == patterns[i];
      }
      if patterns[n].matches(action) && Rank(patterns[n].impact) > Rank(before.0) {
        assert Classify(patterns, action) == (patterns[n].impact, patterns[n].description);
      } else if before.0 != Low {
        var i :| 0 <= i < n && patterns[..n][i].matches(action)
                 && before == (patterns[..n][i].impact, patterns[..n][i].description)
                 && forall j | 0 <= j < i && patterns[..n][j].matches(action) ::
                      Rank(patterns[..n][j].impact) < Rank(before.0);
        forall j | 0 <= j < i && patterns[j].matches(action)
          ensures Rank(patterns[j].impact) < Rank(before.0)
        {
          assert patterns[..n][j] == patterns[j];
        }
        assert patterns[..n][i] == patterns[i];
      }
    }
  }

  predicate Gated(level: Impact) {
    level == High || level == Critical
  }

  function ServerText(server: Option<string>): string {
    match server
    case None => ""
    case Some(s) => s
  }

  /** The message under the HMAC: the action context, separated by NUL characters. */
  function Digest(action: string, project: string, server: Option<string>): string {
    action + ['\0'] + project + ['\0'] + ServerText(server)
  }

  predicate NulFree(s: string) {
    forall i | 0 <= i < |s| :: s[i] != '\0'
  }

  lemma LastSeparator(a: string, b: string, a': string, b': string)
    requires NulFree(b) && NulFree(b')
    requires a + ['\0'] + b == a' + ['\0'] + b'
    ensures a == a' && b == b'
  {
    var s := a + ['\0'] + b;
    assert forall i | |a| < i < |s| :: s[i] == b[i - |a| - 1];
    assert forall i | |a'| < i < |s| :: s[i] == b'[i - |a'| - 1];
    assert s[|a|] == '\0' && s[|a'|] == '\0';
    assert |a| == |a'|;
    assert a == s[..|a|] && a' == s[..|a|];
    assert b == s[|a| + 1..] && b' == s[|a| + 1..];
  }

  /** Two contexts whose project and server hold no NUL share a digest exactly when they name
      the same action, project and server; no server and the empty server are one context. */
  lemma DigestBindsContext(action: string, project: string, server: Option<string>,
                           action': string, project': string, server': Option<string>)
    requires NulFree(project) && NulFree(project') && NulFree(ServerText(server)) && NulFree(ServerText(server'))
    ensures Digest(action, project, server) == Digest(action', project', server')
            <==> action == action' && project == project' && ServerText(server) == ServerText(server')
  {
    if Digest(action, project, server) == Digest(action', project', server') {
      LastSeparator(action + ['\0'] + project, ServerText(server), action' + ['\0'] + project', ServerText(server'));
      LastSeparator(action, project, action', project');
    }
  }

  /** With a NUL in the project id, two different contexts share a digest. */
  lemma DigestCollidesWithNul()
    ensures Digest("rm -rf a", "b\0c", None) == Digest("rm -rf a\0b", "c", None)
  {
    assert Digest("rm -rf a", "b\0c", None) == "rm -rf a\0b\0c\0";
    assert Digest("rm -rf a\0b", "c", None) == "rm -rf a\0b\0c\0";
  }

  // ---------------------------------------------------------------------------------------
  // What each operation does, as functions on the state
  // ---------------------------------------------------------------------------------------

  function Reap(s: State, now: int): State {
    var pending := map id | id in s.pending && now <= s.pending[id].expiresAt :: s.pending[id];
    s.(pending := pending, decisions := map id | id in s.decisions && id in pending :: s.decisions[id])
  }

  function Log(s: State, e: AuditEvent): State {
    s.(audit := s.audit + [e])
  }

  function Drop(s: State, id: string): State {
    s.(pending := s.pending - {id}, decisions := s.decisions - {id})
  }

  function Validate(s: State, token: string, c: CheckCall): (State, CheckOutcome) {
    if token !in s.decisions then (s, Required("Invalid or already-used approval token", token))
    else if !s.decisions[token].approved then
      (s.(decisions := s.decisions - {token}), Denied(token, "Previously rejected"))
    else if token !in s.pending then (s.(decisions := s.decisions - {token}), Expired(token))
    else if c.at > s.pending[token].expiresAt then (Drop(s, token), Expired(token))
    else if s.pending[token].digest != Digest(c.action, c.project, c.server) then
      (s, Denied(token, "Token was issued for a different action/project/server"))
    else (Log(Drop(s, token), ApprovalUsed(c.model, c.project, c.server, token)), Passed)
  }

  function NewRequest(c: CheckCall, impact: Impact, reason: string): Request {
    Request(c.freshId, Digest(c.action, c.project, c.server),
            if |c.action| > 200 then c.action[..200] else c.action,
            impact, reason, c.model, c.project, c.server, c.at, c.at + TTL)
  }

  function Submit(s: State, c: CheckCall, impact: Impact, reason: string): (State, CheckOutcome) {
    var r := NewRequest(c, impact, reason);
    (Log(s.(pending := s.pending[c.freshId := r]),
         ApprovalRequested(c.model, c.project, c.server, c.freshId, impact, reason, r.expiresAt)),
     Required(reason, c.freshId))
  }

  /** A token argument that is missing or empty counts as no token. */
  predicate HasToken(c: CheckCall) {
    c.token.Some? && c.token.value != ""
  }

  function CheckStep(patterns: seq<Pattern>, s: State, c: CheckCall): (State, CheckOutcome) {
    var s := Reap(s, c.reapAt);
    var (impact, reason) := Classify(patterns, c.action);
    match impact
    case Low => (s, Passed)
    case Medium => (Log(s, ActionMedium(c.model, c.project, c.server, reason, |c.action|)), Passed)
    case _ => if HasToken(c) then Validate(s, c.token.value, c) else Submit(s, c, impact, reason)
  }

  /** str.isspace() for one character. */
  predicate IsSpace(c: char) {
    || '\t' <= c <= '\r' || '\U{1C}' <= c <= ' ' || c == '\U{85}' || c == '\U{A0}' || c == '\U{1680}'
    || '\U{2000}' <= c <= '\U{200A}' || c == '\U{2028}' || c == '\U{2029}' || c == '\U{202F}'
    || c == '\U{205F}' || c == '\U{3000}'
  }

  predicate Blank(s: string) {
    forall i | 0 <= i < |s| :: IsSpace(s[i])
  }

  function DecideStep(s: State, d: DecideCall): (State, DecideOutcome) {
    if Blank(d.user) then (s, NoUser)
    else if d.id !in s.pending then (s, UnknownRequest)
    else
      var r := s.pending[d.id];
      if d.at > r.expiresAt then (s.(pending := s.pending - {d.id}), DecidedTooLate)
      else
        var decision := Decision(d.id, d.approved, d.user, d.stampedAt, d.note);
        var s' := if d.approved then s.(decisions := s.decisions[d.id := decision])
                  else s.(pending := s.pending - {d.id});
        (Log(s', ApprovalDecided(r.model, r.project, r.server, d.id, d.approved, d.user)), Decided(decision))
  }

  /** Reaping in the two passes of the program: expired requests with their decisions, then
      decisions without a request. */
  lemma ReapIs(s: State, now: int)
    ensures var expired := set id | id in s.pending && now > s.pending[id].expiresAt;
            var (pending, kept) := (s.pending - expired, s.decisions - expired);
            Reap(s, now) == State(pending, kept - (set id | id in kept && id !in pending), s.audit)
  {
  }

  lemma WithoutOneMore<V>(m: map<string, V>, done: set<string>, id: string)
    ensures m - (done + {id}) == m - done - {id}
  {
  }

  // ---------------------------------------------------------------------------------------
  // The object
  // ---------------------------------------------------------------------------------------

  class Gate {
    const patterns: seq<Pattern>
    var pending: map<string, Request>
    var decisions: map<string, Decision>
    var audit: seq<AuditEvent>

    ghost function Abs(): State
      reads this
    {
      State(pending, decisions, audit)
    }

    constructor (patterns: seq<Pattern>)
      ensures this.patterns == patterns && Abs() == State(map[], map[], [])
    {
      this.patterns, pending, decisions, audit := patterns, map[], map[], [];
    }

    method ClassifyAction(action: string) returns (level: Impact, description: string)
      ensures (level, description) == Classify(patterns, action)
    {
      level, description := Low, "Standard operation";
      for i := 0 to |patterns|
        invariant (level, description) == Classify(patterns[..i], action)
      {
        assert patterns[..i + 1][..i] == patterns[..i];
        if patterns[i].matches(action) && Rank(patterns[i].impact) > Rank(level) {
          level, description := patterns[i].impact, patterns[i].description;
        }
      }
      assert patterns[..|patterns|] == patterns;
    }

    method ReapExpired(now: int)
      modifies this
      ensures Abs() == Reap(old(Abs()), now)
    {
      hide Reap;
      var expired := set id | id in pending && now > pending[id].expiresAt;
      var todo := expired;
      ghost var done: set<string> := {};
      ReapIs(Abs(), now);
      while todo != {}
        invariant done + todo == expired && audit == old(audit)
        invariant pending == old(pending) - done && decisions == old(decisions) - done
        decreases todo
      {
        var id :| id in todo;
        WithoutOneMore(old(pending), done, id);
        WithoutOneMore(old(decisions), done, id);
        todo, done := todo - {id}, done + {id};
        pending, decisions := pending - {id}, decisions - {id};
      }
      assert done == expired;
      var orphans := set id | id in decisions && id !in pending;
      ghost var kept := decisions;
      todo, done := orphans, {};
      while todo != {}
        invariant done + todo == orphans && audit == old(audit) && pending == old(pending) - expired
        invariant decisions == kept - done
        decreases todo
      {
        var id :| id in todo;
        WithoutOneMore(kept, done, id);
        todo, done := todo - {id}, done + {id};
        decisions := decisions - {id};
      }
      assert done == orphans;
    }

    method ValidateToken(token: string, c: CheckCall) returns (outcome: CheckOutcome)
      modifies this
      ensures (Abs(), outcome) == Validate(old(Abs()), token, c)
    {
      if token !in decisions {
        return Required("Invalid or already-used approval token", token);
      }
      if !decisions[token].approved {
        decisions := decisions - {token};
        return Denied(token, "Previously rejected");
      }
      if token !in pending {
        decisions := decisions - {token};
        return Expired(token);
      }
      if c.at > pending[token].expiresAt {
        pending, decisions := pending - {token}, decisions - {token};
        return Expired(token);
      }
      if pending[token].digest != Digest(c.action, c.project, c.server) {
        return Denied(token, "Token was issued for a different action/project/server");
      }
      pending, decisions := pending - {token}, decisions - {token};
      audit := audit + [ApprovalUsed(c.model, c.project, c.server, token)];
      return Passed;
    }

    method Check(c: CheckCall) returns (outcome: CheckOutcome)
      modifies this
      ensures (Abs(), outcome) == CheckStep(patterns, old(Abs()), c)
    {
      ReapExpired(c.reapAt);
      var impact, reason := ClassifyAction(c.action);
      if impact == Low {
        return Passed;
      }
      if impact == Medium {
        audit := audit + [ActionMedium(c.model, c.project, c.server, reason, |c.action|)];
        return Passed;
      }
      if HasToken(c) {
        outcome := ValidateToken(c.token.value, c);
        return;
      }
      var r := NewRequest(c, impact, reason);
      pending := pending[c.freshId := r];
      audit := audit + [ApprovalRequested(c.model, c.project, c.server, c.freshId, impact, reason, r.expiresAt)];
      return Required(reason, c.freshId);
    }

    method Decide(d: DecideCall) returns (outcome: DecideOutcome)
      modifies this
      ensures (Abs(), outcome) == DecideStep(old(Abs()), d)
    {
      if Blank(d.user) {
        return NoUser;
      }
      if d.id !in pending {
        return UnknownRequest;
      }
      var r := pending[d.id];
      if d.at > r.expiresAt {
        pending := pending - {d.id};
        return DecidedTooLate;
      }
      var decision := Decision(d.id, d.approved, d.user, d.stampedAt, d.note);
      if d.approved {
        decisions := decisions[d.id := decision];
      } else {
        pending := pending - {d.id};
      }
      audit := audit + [ApprovalDecided(r.model, r.project, r.server, d.id, d.approved, d.user)];
      return Decided(decision);
    }

    /** `pending(project)`: each pending request of the project once, newest first. */
    method Pending(project: Option<string>, now: int) returns (requests: seq<Request>)
      modifies this
      ensures Abs() == Reap(old(Abs()), now)
      ensures NewestFirst(requests)
      ensures multiset(requests) == RequestsOf(pending, Shown(pending, project))
      ensures forall id :: id in Shown(pending, project)
                           <==> id in pending && (project in {None, Some("")} || project == Some(pending[id].project))
    {
      hide Reap, RequestsOf, NewestFirst;
      ReapExpired(now);
      requests := ListRequests(pending, Shown(pending, project));
    }
  }

  method ListRequests(pending: map<string, Request>, ids: set<string>) returns (requests: seq<Request>)
    requires ids <= pending.Keys
    ensures NewestFirst(requests) && multiset(requests) == RequestsOf(pending, ids)
  {
    hide RequestsOf, NewestFirst, InsertByAge;
    requests := [];
    var todo, done := ids, {};
    NothingListed(pending);
    while todo != {}
      invariant done !! todo && done + todo == ids
      invariant NewestFirst(requests) && multiset(requests) == RequestsOf(pending, done)
      decreases todo
    {
      var id :| id in todo;
      RequestsOfMore(pending, done, id);
      InsertKeepsOrder(pending[id], requests);
      requests := InsertByAge(pending[id], requests);
      todo, done := todo - {id}, done + {id};
    }
  }

  lemma NothingListed(pending: map<string, Request>)
    ensures NewestFirst([]) && RequestsOf(pending, {}) == multiset{}
  {
  }

  /** The ids listed for a project; a missing or empty project lists all. */
  function Shown(pending: map<string, Request>, project: Option<string>): set<string> {
    set id | id in pending && (project.Some? && project.value != "" ==> pending[id].project == project.value)
  }

  predicate NewestFirst(requests: seq<Request>) {
    forall i, j | 0 <= i < j < |requests| :: requests[i].createdAt >= requests[j].createdAt
  }

  /** The requests under these ids. */
  ghost function RequestsOf(pending: map<string, Request>, ids: set<string>): multiset<Request>
    requires ids <= pending.Keys
  {
    if ids == {} then multiset{}
    else
      var id :| id in ids;
      RequestsOf(pending, ids - {id}) + multiset{pending[id]}
  }

  lemma {:induction false} RequestsOfMore(pending: map<string, Request>, ids: set<string>, id: string)
    requires ids <= pending.Keys && id in pending && id !in ids
    ensures RequestsOf(pending, ids + {id}) == RequestsOf(pending, ids) + multiset{pending[id]}
    decreases |ids|
  {
    var all := ids + {id};
    var k :| k in all && RequestsOf(pending, all) == RequestsOf(pending, all - {k}) + multiset{pending[k]};
    if k == id {
      assert all - {k} == ids;
    } else {
      var rest := ids - {k};
      hide RequestsOf;
      assert rest + {k} == ids && all - {k} == rest + {id};
      RequestsOfMore(pending, rest, k);
      RequestsOfMore(pending, rest, id);
    }
  }

  function InsertByAge(r: Request, requests: seq<Request>): seq<Request> {
    if requests == [] || requests[0].createdAt <= r.createdAt then [r] + requests
    else [requests[0]] + InsertByAge(r, requests[1..])
  }

  lemma {:induction false} InsertHolds(r: Request, requests: seq<Request>)
    ensures multiset(InsertByAge(r, requests)) == multiset(requests) + multiset{r}
  {
    if requests != [] && requests[0].createdAt > r.createdAt {
      InsertHolds(r, requests[1..]);
      assert requests == [requests[0]] + requests[1..];
    }
  }

  lemma NewestInFront(first: Request, rest: seq<Request>)
    requires NewestFirst(rest) && forall i | 0 <= i < |rest| :: first.createdAt >= rest[i].createdAt
    ensures NewestFirst([first] + rest)
  {
  }

  lemma {:induction false} InsertKeepsOrder(r: Request, requests: seq<Request>)
    requires NewestFirst(requests)
    ensures NewestFirst(InsertByAge(r, requests))
    ensures multiset(InsertByAge(r, requests)) == multiset(requests) + multiset{r}
  {
    InsertHolds(r, requests);
    if requests == [] || requests[0].createdAt <= r.createdAt {
      NewestInFront(r, requests);
    } else {
      var first, rest := requests[0], requests[1..];
      var more := InsertByAge(r, rest);
      assert NewestFirst(rest);
      InsertKeepsOrder(r, rest);
      forall i | 0 <= i < |more|
        ensures first.createdAt >= more[i].createdAt
      {
        assert more[i] in multiset(more);
        assert more[i] in rest || more[i] == r;
      }
      hide NewestFirst;
      NewestInFront(first, more);
    }
  }

  // ---------------------------------------------------------------------------------------
  // Whole runs
  // ---------------------------------------------------------------------------------------

  datatype Event = Check(c: CheckCall) | Decide(d: DecideCall) | List(at: int)

  function Step(patterns: seq<Pattern>, s: State, e: Event): State {
    match e
    case Check(c) => CheckStep(patterns, s, c).0
    case Decide(d) => DecideStep(s, d).0
    case List(at) => Reap(s, at)
  }

  function Run(patterns: seq<Pattern>, es: seq<Event>): State {
    if es == [] then State(map[], map[], []) else Step(patterns, Run(patterns, es[..|es| - 1]), es[|es| - 1])
  }

  /** What the gate knows about one id. */
  datatype View = View(request: Option<Request>, decision: Option<Decision>)

  function ViewOf(s: State, id: string): View {
    View(Get(s.pending, id), Get(s.decisions, id))
  }

  function ReapView(v: View, now: int): View {
    if v.request.None? || now > v.request.value.expiresAt then View(None, None) else v
  }

  predicate GatedCall(patterns: seq<Pattern>, e: Event) {
    e.Check? && Gated(Classify(patterns, e.c.action).0)
  }

  predicate Requests(patterns: seq<Pattern>, e: Event, id: string) {
    GatedCall(patterns, e) && !HasToken(e.c) && e.c.freshId == id
  }

  predicate Presents(patterns: seq<Pattern>, e: Event, id: string) {
    GatedCall(patterns, e) && HasToken(e.c) && e.c.token.value == id
  }

  predicate Approves(e: Event, id: string) {
    e.Decide? && e.d.id == id && e.d.approved && !Blank(e.d.user)
  }

  predicate Rejects(e: Event, id: string) {
    e.Decide? && e.d.id == id && !e.d.approved && !Blank(e.d.user)
  }

  /** `_validate_token` on what is known of the presented id. */
  predicate Accepts(v: View, c: CheckCall) {
    && v.decision.Some? && v.decision.value.approved
    && v.request.Some? && c.at <= v.request.value.expiresAt
    && v.request.value.digest == Digest(c.action, c.project, c.server)
  }

  function RequestOf(patterns: seq<Pattern>, c: CheckCall): Request {
    var (impact, reason) := Classify(patterns, c.action);
    NewRequest(c, impact, reason)
  }

  /** What becomes of an id that is presented. */
  function PresentedView(v: View, c: CheckCall): View {
    if v.decision.None? then v
    else if !v.decision.value.approved || v.request.None? then v.(decision := None)
    else if c.at > v.request.value.expiresAt || Accepts(v, c) then View(None, None)
    else v
  }

  function ViewStep(patterns: seq<Pattern>, v: View, e: Event, id: string): View {
    match e
    case List(at) => ReapView(v, at)
    case Check(c) =>
      var v := ReapView(v, c.reapAt);
      if Requests(patterns, e, id) then v.(request := Some(RequestOf(patterns, c)))
      else if Presents(patterns, e, id) then PresentedView(v, c)
      else v
    case Decide(d) =>
      if d.id != id || Blank(d.user) || v.request.None? then v
      else if d.at > v.request.value.expiresAt || !d.approved then v.(request := None)
      else v.(decision := Some(Decision(d.id, d.approved, d.user, d.stampedAt, d.note)))
  }

  lemma ReapViewOf(s: State, now: int, id: string)
    ensures ViewOf(Reap(s, now), id) == ReapView(ViewOf(s, id), now)
  {
  }

  /** Ids do not interfere: what a step does to one id is a function of what was known of it. */
  lemma StepViewOf(patterns: seq<Pattern>, s: State, e: Event, id: string)
    ensures ViewOf(Step(patterns, s, e), id) == ViewStep(patterns, ViewOf(s, id), e, id)
  {
    hide Classify, Reap, Blank, Digest, CheckStep, DecideStep;
    match e
    case List(at) => ReapViewOf(s, at, id);
    case Check(c) => CheckViewOf(patterns, s, c, id);
    case Decide(d) => DecideViewOf(patterns, s, d, id);
  }

  lemma ValidateViewOf(s: State, token: string, c: CheckCall, id: string)
    ensures ViewOf(Validate(s, token, c).0, id)
            == if token == id then PresentedView(ViewOf(s, id), c) else ViewOf(s, id)
  {
    hide Digest;
  }

  lemma CheckViewOf(patterns: seq<Pattern>, s: State, c: CheckCall, id: string)
    ensures ViewOf(CheckStep(patterns, s, c).0, id) == ViewStep(patterns, ViewOf(s, id), Check(c), id)
  {
    hide Classify, Reap, Digest, Validate, PresentedView;
    ReapViewOf(s, c.reapAt, id);
    if HasToken(c) {
      ValidateViewOf(Reap(s, c.reapAt), c.token.value, c, id);
    }
  }

  lemma DecideViewOf(patterns: seq<Pattern>, s: State, d: DecideCall, id: string)
    ensures ViewOf(DecideStep(s, d).0, id) == ViewStep(patterns, ViewOf(s, id), Decide(d), id)
  {
    hide Blank;
  }

  lemma CheckOutcomeOf(patterns: seq<Pattern>, s: State, c: CheckCall, id: string)
    requires Presents(patterns, Check(c), id)
    ensures CheckStep(patterns, s, c).1 == Passed <==> Accepts(ReapView(ViewOf(s, id), c.reapAt), c)
  {
    ReapViewOf(s, c.reapAt, id);
  }

  /** Event `i` is a gated action that goes ahead on token `id`. */
  predicate Uses(patterns: seq<Pattern>, es: seq<Event>, i: nat, id: string)
    requires i < |es|
  {
    Presents(patterns, es[i], id) && CheckStep(patterns, Run(patterns, es[..i]), es[i].c).1 == Passed
  }

  function Start(e: Event): int {
    match e
    case Check(c) => c.reapAt
    case Decide(d) => d.at
    case List(at) => at
  }

  function End(e: Event): int {
    match e
    case Check(c) => c.at
    case Decide(d) => d.at
    case List(at) => at
  }

  /** The clock never runs backwards, within a call or between calls. */
  predicate Timed(es: seq<Event>) {
    && (forall i | 0 <= i < |es| :: Start(es[i]) <= End(es[i]))
    && (forall i, j | 0 <= i < j < |es| :: End(es[i]) <= Start(es[j]))
  }

  /** No id is drawn twice. */
  ghost predicate FreshIds(patterns: seq<Pattern>, es: seq<Event>) {
    forall i, j, id | 0 <= i < j < |es| && Requests(patterns, es[i], id) :: !Requests(patterns, es[j], id)
  }

  ghost predicate Untouched(patterns: seq<Pattern>, es: seq<Event>, r: nat, n: nat, id: string)
    requires n <= |es|
  {
    forall k | r < k < n :: !Rejects(es[k], id) && !Uses(patterns, es, k, id)
  }

  ghost predicate Approved(es: seq<Event>, r: nat, n: nat, id: string)
    requires n <= |es|
  {
    exists d | r < d < n :: Approves(es[d], id)
  }

  ghost function ViewAt(patterns: seq<Pattern>, es: seq<Event>, n: nat, id: string): View
    requires n <= |es|
  {
    ViewOf(Run(patterns, es[..n]), id)
  }

  lemma ViewAtNext(patterns: seq<Pattern>, es: seq<Event>, n: nat, id: string)
    requires n < |es|
    ensures ViewAt(patterns, es, n + 1, id) == ViewStep(patterns, ViewAt(patterns, es, n, id), es[n], id)
    ensures Uses(patterns, es, n, id)
            <==> && Presents(patterns, es[n], id)
                 && Accepts(ReapView(ViewAt(patterns, es, n, id), es[n].c.reapAt), es[n].c)
  {
    assert es[..n + 1][..n] == es[..n];
    StepViewOf(patterns, Run(patterns, es[..n]), es[n], id);
    if Presents(patterns, es[n], id) {
      CheckOutcomeOf(patterns, Run(patterns, es[..n]), es[n].c, id);
    }
  }

  /** An id nobody was given yet is unknown. */
  lemma {:induction false} UnknownBefore(patterns: seq<Pattern>, es: seq<Event>, n: nat, id: string)
    requires n <= |es| && forall k | 0 <= k < n :: !Requests(patterns, es[k], id)
    ensures ViewAt(patterns, es, n, id) == View(None, None)
  {
    if n > 0 {
      UnknownBefore(patterns, es, n - 1, id);
      ViewAtNext(patterns, es, n - 1, id);
    }
  }

  /** What the gate knows of an id requested as `q`: `untouched` tells that it was neither
      rejected nor used since, `approved` that a user approved it, `now` the latest moment. */
  predicate Explains(v: View, q: Request, untouched: bool, approved: bool, now: int) {
    && (v.request.Some? ==> v.request.value == q && untouched)
    && (v.decision.Some? ==> v.decision.value.approved && approved)
    && (untouched && now <= q.expiresAt ==> v.request.Some? && (v.decision.Some? <==> approved))
  }

  lemma ExplainsNext(patterns: seq<Pattern>, v: View, q: Request, untouched: bool, approved: bool, now: int,
                     e: Event, id: string, used: bool)
    requires Explains(v, q, untouched, approved, now) && !Requests(patterns, e, id)
    requires now <= Start(e) <= End(e)
    requires used <==> Presents(patterns, e, id) && Accepts(ReapView(v, e.c.reapAt), e.c)
    ensures Explains(ViewStep(patterns, v, e, id), q, untouched && !Rejects(e, id) && !used,
                     approved || Approves(e, id), End(e))
  {
    match e
    case List(at) =>
    case Check(c) =>
    case Decide(d) =>
  }

  lemma HistoryNext(patterns: seq<Pattern>, es: seq<Event>, r: nat, n: nat, id: string)
    requires r < n < |es|
    ensures Untouched(patterns, es, r, n + 1, id)
            <==> Untouched(patterns, es, r, n, id) && !Rejects(es[n], id) && !Uses(patterns, es, n, id)
    ensures Approved(es, r, n + 1, id) <==> Approved(es, r, n, id) || Approves(es[n], id)
  {
    hide Approves, Rejects, Uses;
    if Approved(es, r, n, id) {
      var d :| r < d < n && Approves(es[d], id);
    }
  }

  lemma KnownAtOnce(patterns: seq<Pattern>, es: seq<Event>, r: nat, id: string)
    requires r < |es| && FreshIds(patterns, es) && Requests(patterns, es[r], id)
    ensures Explains(ViewAt(patterns, es, r + 1, id), RequestOf(patterns, es[r].c),
                     Untouched(patterns, es, r, r + 1, id), Approved(es, r, r + 1, id), End(es[r]))
  {
    ViewAtNext(patterns, es, r, id);
    UnknownBefore(patterns, es, r, id);
  }

  lemma {:induction false} KnownSince(patterns: seq<Pattern>, es: seq<Event>, r: nat, n: nat, id: string)
    requires r < n <= |es| && Timed(es) && FreshIds(patterns, es) && Requests(patterns, es[r], id)
    ensures Explains(ViewAt(patterns, es, n, id), RequestOf(patterns, es[r].c),
                     Untouched(patterns, es, r, n, id), Approved(es, r, n, id), End(es[n - 1]))
  {
    hide Approves, Rejects, Uses, Presents, Accepts, ViewStep, Explains, RequestOf, Untouched, Approved, ViewAt;
    if n == r + 1 {
      KnownAtOnce(patterns, es, r, id);
    } else {
      var e := es[n - 1];
      ViewAtNext(patterns, es, n - 1, id);
      KnownSince(patterns, es, r, n - 1, id);
      HistoryNext(patterns, es, r, n - 1, id);
      ExplainsNext(patterns, ViewAt(patterns, es, n - 1, id), RequestOf(patterns, es[r].c),
                   Untouched(patterns, es, r, n - 1, id), Approved(es, r, n - 1, id), End(es[n - 2]),
                   e, id, Uses(patterns, es, n - 1, id));
    }
  }

  /** The protocol, over every run with fresh ids and a forward clock: a gated action goes
      ahead on a token exactly when that token is the id of an earlier request for the same
      action, project and server, a user approved it since then, nobody rejected it and no
      action used it since then, and the request is not past its 30 minutes. */
  lemma PassesIffApproved(patterns: seq<Pattern>, es: seq<Event>, i: nat, id: string)
    requires i < |es| && Timed(es) && FreshIds(patterns, es)
    requires Presents(patterns, es[i], id)
    ensures Uses(patterns, es, i, id)
            <==> exists r | 0 <= r < i :: PassJustified(patterns, es, r, i, id)
  {
    ViewAtNext(patterns, es, i, id);
    var v := ViewAt(patterns, es, i, id);
    if r :| 0 <= r < i && Requests(patterns, es[r], id) {
      KnownSince(patterns, es, r, i, id);
      assert End(es[i - 1]) <= Start(es[i]) <= End(es[i]);
      assert Uses(patterns, es, i, id) <==> PassJustified(patterns, es, r, i, id);
      forall r' | 0 <= r' < i && PassJustified(patterns, es, r', i, id)
        ensures r' == r
      {
      }
    } else {
      UnknownBefore(patterns, es, i, id);
    }
  }

  ghost predicate PassJustified(patterns: seq<Pattern>, es: seq<Event>, r: nat, i: nat, id: string)
    requires r < i < |es| && es[i].Check?
  {
    && Requests(patterns, es[r], id)
    && Digest(es[r].c.action, es[r].c.project, es[r].c.server)
       == Digest(es[i].c.action, es[i].c.project, es[i].c.server)
    && Approved(es, r, i, id)
    && Untouched(patterns, es, r, i, id)
    && es[i].c.at <= es[r].c.at + 1_800_000_000
  }

  /** One-time use: no token lets two actions through. */
  lemma TokensAreOneTime(patterns: seq<Pattern>, es: seq<Event>, i: nat, j: nat, id: string)
    requires i < j < |es| && Timed(es) && FreshIds(patterns, es)
    requires Uses(patterns, es, i, id)
    ensures !Uses(patterns, es, j, id)
  {
    PassesIffApproved(patterns, es, i, id);
    if Presents(patterns, es[j], id) {
      PassesIffApproved(patterns, es, j, id);
    }
  }

  /** A rejection after an approval revokes it for good. */
  lemma RejectionRevokes(patterns: seq<Pattern>, es: seq<Event>, r: nat, k: nat, i: nat, id: string)
    requires r < k < i < |es| && Timed(es) && FreshIds(patterns, es)
    requires Requests(patterns, es[r], id) && Rejects(es[k], id)
    ensures !Uses(patterns, es, i, id)
  {
    if Presents(patterns, es[i], id) {
      PassesIffApproved(patterns, es, i, id);
    }
  }

  /** Presenting a live token for another action, project or server is refused and leaves the
      token as it was. */
  lemma MismatchDoesNotConsume(patterns: seq<Pattern>, s: State, c: CheckCall, id: string)
    requires Presents(patterns, Check(c), id)
    requires id in s.pending && id in s.decisions && s.decisions[id].approved
    requires c.reapAt <= c.at <= s.pending[id].expiresAt
    requires s.pending[id].digest != Digest(c.action, c.project, c.server)
    ensures CheckStep(patterns, s, c).1.Denied?
    ensures ViewOf(CheckStep(patterns, s, c).0, id) == ViewOf(s, id)
  {
    ReapViewOf(s, c.reapAt, id);
  }

  // ---------------------------------------------------------------------------------------
  // What every call answers
  // ---------------------------------------------------------------------------------------

  /** The highest level of a matching pattern, level by level. */
  lemma LevelIs(patterns: seq<Pattern>, action: string)
    ensures var level := Classify(patterns, action).0;
            && (level == Critical <==> HasMatch(patterns, action, Critical))
            && (level == High <==> HasMatch(patterns, action, High) && !HasMatch(patterns, action, Critical))
            && (level == Medium <==> && HasMatch(patterns, action, Medium)
                                     && !HasMatch(patterns, action, High) && !HasMatch(patterns, action, Critical))
  {
    hide Classify;
    ClassifyIsHighest(patterns, action);
  }

  predicate HasMatch(patterns: seq<Pattern>, action: string, impact: Impact) {
    exists i | 0 <= i < |patterns| :: patterns[i].matches(action) && patterns[i].impact == impact
  }

  /** A matching pattern of level HIGH or CRITICAL makes an action need approval. */
  predicate Dangerous(patterns: seq<Pattern>, action: string) {
    HasMatch(patterns, action, High) || HasMatch(patterns, action, Critical)
  }

  lemma GatedIffDangerous(patterns: seq<Pattern>, action: string)
    ensures Gated(Classify(patterns, action).0) <==> Dangerous(patterns, action)
  {
    hide Classify, HasMatch;
    LevelIs(patterns, action);
  }

  /** A token is given. */
  predicate TokenGiven(c: CheckCall) {
    c.token != None && c.token != Some("")
  }

  /** An action that needs no approval goes ahead. */
  lemma HarmlessPasses(patterns: seq<Pattern>, s: State, c: CheckCall)
    requires !Dangerous(patterns, c.action)
    ensures CheckStep(patterns, s, c).1 == Passed
  {
    hide Classify, Dangerous;
    GatedIffDangerous(patterns, c.action);
  }

  /** A dangerous action without a token is refused, and exactly its request is made: pending
      under the drawn id for 30 minutes, with what the user is to see. */
  lemma NoTokenIsRefused(patterns: seq<Pattern>, s: State, c: CheckCall)
    requires Dangerous(patterns, c.action) && !TokenGiven(c)
    ensures var (s', outcome) := CheckStep(patterns, s, c);
            var (level, reason) := Classify(patterns, c.action);
            && outcome == Required(reason, c.freshId)
            && s'.pending == Reap(s, c.reapAt).pending[c.freshId :=
                 Request(c.freshId, Digest(c.action, c.project, c.server), s'.pending[c.freshId].display, level, reason,
                         c.model, c.project, c.server, c.at, c.at + 1_800_000_000)]
            && s'.pending[c.freshId].display <= c.action
            && |s'.pending[c.freshId].display| == (if |c.action| < 200 then |c.action| else 200)
            && s'.decisions == Reap(s, c.reapAt).decisions
            && s'.audit == s.audit + [ApprovalRequested(c.model, c.project, c.server, c.freshId, level, reason,
                                                        c.at + 1_800_000_000)]
  {
    hide Classify, Reap, Digest, Dangerous;
    GatedIffDangerous(patterns, c.action);
    assert Reap(s, c.reapAt).audit == s.audit by {
      ReapKeepsAudit(s, c.reapAt);
    }
  }

  lemma ReapKeepsAudit(s: State, now: int)
    ensures Reap(s, now).audit == s.audit
  {
  }

  /** The outcome of event `i`, a check. */
  function OutcomeAt(patterns: seq<Pattern>, es: seq<Event>, i: nat): CheckOutcome
    requires i < |es| && es[i].Check?
  {
    CheckStep(patterns, Run(patterns, es[..i]), es[i].c).1
  }

  /** Some request justifies that event `i` goes ahead on its token. */
  ghost predicate Justified(patterns: seq<Pattern>, es: seq<Event>, i: nat)
    requires i < |es| && es[i].Check?
  {
    TokenGiven(es[i].c) && exists r | 0 <= r < i :: PassJustified(patterns, es, r, i, es[i].c.token.value)
  }

  /** The gate, over every run with fresh ids and a forward clock: a check lets its action go ahead
      exactly when the action is not dangerous or a justified token is given. */
  lemma GateIsExact(patterns: seq<Pattern>, es: seq<Event>, i: nat)
    requires i < |es| && es[i].Check? && Timed(es) && FreshIds(patterns, es)
    ensures OutcomeAt(patterns, es, i) == Passed <==> !Dangerous(patterns, es[i].c.action) || Justified(patterns, es, i)
  {
    hide Classify, Dangerous, CheckStep, PassJustified, Run;
    var c := es[i].c;
    GatedIffDangerous(patterns, c.action);
    if !Dangerous(patterns, c.action) {
      HarmlessPasses(patterns, Run(patterns, es[..i]), c);
    } else if !TokenGiven(c) {
      NoTokenIsRefused(patterns, Run(patterns, es[..i]), c);
    } else {
      PassesIffApproved(patterns, es, i, c.token.value);
    }
  }

  // ---------------------------------------------------------------------------------------
  // What a presented token answers
  // ---------------------------------------------------------------------------------------

  /** The request made by event `r` under `id` is approved, untouched and not past its time. */
  ghost predicate Live(patterns: seq<Pattern>, es: seq<Event>, r: nat, i: nat, id: string, at: int)
    requires r < i < |es|
  {
    && Requests(patterns, es[r], id) && es[r].Check?
    && Approved(es, r, i, id) && Untouched(patterns, es, r, i, id)
    && at <= es[r].c.at + 1_800_000_000
  }

  /** The answer to a token from what is known of it. */
  function AnswerTo(v: View, c: CheckCall, token: string): CheckOutcome {
    if v.decision.None? then Required("Invalid or already-used approval token", token)
    else if !v.decision.value.approved then Denied(token, "Previously rejected")
    else if v.request.None? || c.at > v.request.value.expiresAt then Expired(token)
    else if v.request.value.digest != Digest(c.action, c.project, c.server) then
      Denied(token, "Token was issued for a different action/project/server")
    else Passed
  }

  lemma CheckAnswers(patterns: seq<Pattern>, s: State, c: CheckCall, id: string)
    requires Presents(patterns, Check(c), id)
    ensures CheckStep(patterns, s, c).1 == AnswerTo(ReapView(ViewOf(s, id), c.reapAt), c, id)
  {
    hide Digest, Classify;
    ReapViewOf(s, c.reapAt, id);
    hide Reap;
  }

  lemma AnswerOfExplained(v: View, q: Request, untouched: bool, approved: bool, now: int, c: CheckCall, id: string)
    requires Explains(v, q, untouched, approved, now) && now <= c.reapAt <= c.at
    ensures AnswerTo(ReapView(v, c.reapAt), c, id)
            == if untouched && approved && c.at <= q.expiresAt then
                 if q.digest == Digest(c.action, c.project, c.server) then Passed
                 else Denied(id, "Token was issued for a different action/project/server")
               else if untouched && approved && c.reapAt <= q.expiresAt then Expired(id)
               else Required("Invalid or already-used approval token", id)
  {
    hide Digest;
  }

  /** Which answer a presented token gets that is the id of request `r`, over every run: it goes
      ahead or is denied for its context when the request was live at both clock reads of the
      check, it has expired when it was live at the first one alone, and otherwise it is invalid or
      used. */
  lemma TokenAnswer(patterns: seq<Pattern>, es: seq<Event>, r: nat, i: nat, id: string)
    requires r < i < |es| && Timed(es) && FreshIds(patterns, es) && Presents(patterns, es[i], id)
    requires Requests(patterns, es[r], id)
    ensures var (q, c) := (es[r].c, es[i].c);
            OutcomeAt(patterns, es, i)
            == if Live(patterns, es, r, i, id, c.at) then
                 if Digest(q.action, q.project, q.server) == Digest(c.action, c.project, c.server) then Passed
                 else Denied(id, "Token was issued for a different action/project/server")
               else if Live(patterns, es, r, i, id, c.reapAt) then Expired(id)
               else Required("Invalid or already-used approval token", id)
  {
    hide CheckStep, Run, ViewStep, Digest, Explains, AnswerTo, Approved, Untouched;
    var v, c := ViewAt(patterns, es, i, id), es[i].c;
    KnownSince(patterns, es, r, i, id);
    CheckAnswers(patterns, Run(patterns, es[..i]), c, id);
    assert End(es[i - 1]) <= Start(es[i]) <= End(es[i]);
    AnswerOfExplained(v, RequestOf(patterns, es[r].c), Untouched(patterns, es, r, i, id), Approved(es, r, i, id),
                      End(es[i - 1]), c, id);
    RequestedWith(patterns, es[r].c);
    hide RequestOf;
  }

  lemma RequestedWith(patterns: seq<Pattern>, c: CheckCall)
    ensures RequestOf(patterns, c).expiresAt == c.at + 1_800_000_000
    ensures RequestOf(patterns, c).digest == Digest(c.action, c.project, c.server)
  {
    hide Classify, Digest;
  }

  /** A token that is no earlier request's id is invalid. */
  lemma ForeignTokenAnswer(patterns: seq<Pattern>, es: seq<Event>, i: nat, id: string)
    requires i < |es| && Presents(patterns, es[i], id) && forall k | 0 <= k < i :: !Requests(patterns, es[k], id)
    ensures OutcomeAt(patterns, es, i) == Required("Invalid or already-used approval token", id)
  {
    hide CheckStep, Run, ViewStep, Digest;
    UnknownBefore(patterns, es, i, id);
    CheckAnswers(patterns, Run(patterns, es[..i]), es[i].c, id);
  }

  /** On ASCII names: a name is blank if it holds white space and control separators alone. */
  lemma BlankAscii(user: string)
    requires forall i | 0 <= i < |user| :: user[i] < '\U{80}'
    ensures Blank(user) <==> forall i | 0 <= i < |user| :: user[i] in "\t\n\U{0B}\U{0C}\r\U{1C}\U{1D}\U{1E}\U{1F} "
  {
    var spaces := "\t\n\U{0B}\U{0C}\r\U{1C}\U{1D}\U{1E}\U{1F} ";
    forall c: char | c < '\U{80}'
      ensures IsSpace(c) <==> c in spaces
    {
      assert IsSpace(c) ==> c in {'\t', '\n', '\U{0B}', '\U{0C}', '\r', '\U{1C}', '\U{1D}', '\U{1E}', '\U{1F}', ' '};
      assert spaces[0] == '\t' && spaces[1] == '\n' && spaces[2] == '\U{0B}' && spaces[3] == '\U{0C}';
      assert spaces[4] == '\r' && spaces[5] == '\U{1C}' && spaces[6] == '\U{1D}' && spaces[7] == '\U{1E}';
      assert spaces[8] == '\U{1F}' && spaces[9] == ' ';
    }
    hide IsSpace;
  }

  lemma DecideAnswers(s: State, d: DecideCall)
    ensures var outcome := DecideStep(s, d).1;
            && (outcome == NoUser <==> Blank(d.user))
            && (outcome == UnknownRequest <==> !Blank(d.user) && ViewOf(s, d.id).request.None?)
            && (outcome == DecidedTooLate <==> && !Blank(d.user) && ViewOf(s, d.id).request.Some?
                                               && d.at > ViewOf(s, d.id).request.value.expiresAt)
            && (outcome.Decided? <==> && !Blank(d.user) && ViewOf(s, d.id).request.Some?
                                      && d.at <= ViewOf(s, d.id).request.value.expiresAt)
            && (outcome.Decided? ==>
                  outcome == Decided(Decision(d.id, d.approved, d.user, d.stampedAt, d.note)))
  {
    hide Blank;
  }

  /** A user's decision on request `r` takes effect, over every run, exactly when the user is named,
      nobody rejected or used the request before, and it is not past its 30 minutes; it records
      what the user said. */
  lemma DecisionAnswer(patterns: seq<Pattern>, es: seq<Event>, r: nat, i: nat)
    requires r < i < |es| && Timed(es) && FreshIds(patterns, es) && es[i].Decide?
    requires Requests(patterns, es[r], es[i].d.id)
    ensures var d := es[i].d;
            var outcome := DecideStep(Run(patterns, es[..i]), d).1;
            && (outcome.Decided? <==> && (exists k | 0 <= k < |d.user| :: !IsSpace(d.user[k]))
                                      && Untouched(patterns, es, r, i, d.id) && d.at <= es[r].c.at + 1_800_000_000)
            && (outcome.Decided? ==>
                  outcome == Decided(Decision(d.id, d.approved, d.user, d.stampedAt, d.note)))
  {
    var d := es[i].d;
    KnownSince(patterns, es, r, i, d.id);
    DecideAnswers(Run(patterns, es[..i]), d);
    assert Blank(d.user) <==> !exists k | 0 <= k < |d.user| :: !IsSpace(d.user[k]);
    hide DecideStep, Run, ViewStep, Digest, Approved, Untouched, Blank, IsSpace;
    assert End(es[i - 1]) <= d.at;
    RequestedWith(patterns, es[r].c);
    hide RequestOf;
  }

  // ---------------------------------------------------------------------------------------
  // What every call logs
  // ---------------------------------------------------------------------------------------

  /** The audit entries of one event, from its outcome. */
  lemma CheckLogs(patterns: seq<Pattern>, s: State, c: CheckCall)
    ensures var (s', outcome) := CheckStep(patterns, s, c);
            var (level, reason) := Classify(patterns, c.action);
            s'.audit
            == s.audit
               + if !Dangerous(patterns, c.action) then
                   if HasMatch(patterns, c.action, Medium)
                   then [ActionMedium(c.model, c.project, c.server, reason, |c.action|)] else []
                 else if !TokenGiven(c) then
                   [ApprovalRequested(c.model, c.project, c.server, c.freshId, level, reason, c.at + 1_800_000_000)]
                 else if outcome == Passed then [ApprovalUsed(c.model, c.project, c.server, c.token.value)] else []
  {
    hide Classify, Reap, Digest, Dangerous, HasMatch, Validate;
    GatedIffDangerous(patterns, c.action);
    LevelIs(patterns, c.action);
    MediumIff(patterns, c.action);
    ReapKeepsAudit(s, c.reapAt);
    if HasToken(c) {
      ValidateLogs(Reap(s, c.reapAt), c.token.value, c);
    }
  }

  lemma MediumIff(patterns: seq<Pattern>, action: string)
    ensures Classify(patterns, action).0 == Medium
            <==> !Dangerous(patterns, action) && HasMatch(patterns, action, Medium)
  {
    hide Classify, HasMatch;
    LevelIs(patterns, action);
  }

  lemma ValidateLogs(s: State, token: string, c: CheckCall)
    ensures Validate(s, token, c).0.audit
            == s.audit + if Validate(s, token, c).1 == Passed
                         then [ApprovalUsed(c.model, c.project, c.server, token)] else []
  {
    hide Digest;
  }

  lemma DecideLogs(s: State, d: DecideCall)
    ensures var (s', outcome) := DecideStep(s, d);
            && (!outcome.Decided? ==> s'.audit == s.audit)
            && (outcome.Decided? ==> d.id in s.pending)
            && (outcome.Decided? ==>
                  var r := s.pending[d.id];
                  s'.audit == s.audit + [ApprovalDecided(r.model, r.project, r.server, d.id, d.approved, d.user)])
  {
    hide Blank;
  }

  predicate LoggedUse(log: seq<AuditEvent>, id: string) {
    exists i | 0 <= i < |log| :: log[i].ApprovalUsed? && log[i].requestId == id
  }

  lemma LoggedUseNext(log: seq<AuditEvent>, e: AuditEvent, id: string)
    ensures LoggedUse(log + [e], id) <==> LoggedUse(log, id) || (e.ApprovalUsed? && e.requestId == id)
  {
    if LoggedUse(log, id) {
      var i :| 0 <= i < |log| && log[i].ApprovalUsed? && log[i].requestId == id;
      assert (log + [e])[i] == log[i];
    }
    assert (log + [e])[|log|] == e;
  }

  lemma ValidateAudit(s: State, token: string, c: CheckCall, id: string)
    ensures LoggedUse(Validate(s, token, c).0.audit, id)
            <==> LoggedUse(s.audit, id) || (token == id && Validate(s, token, c).1 == Passed)
  {
    hide Digest, LoggedUse;
    LoggedUseNext(s.audit, ApprovalUsed(c.model, c.project, c.server, token), id);
  }

  lemma CheckAudit(patterns: seq<Pattern>, s: State, c: CheckCall, id: string)
    ensures LoggedUse(CheckStep(patterns, s, c).0.audit, id)
            <==> LoggedUse(s.audit, id) || (Presents(patterns, Check(c), id) && CheckStep(patterns, s, c).1 == Passed)
  {
    hide Classify, Digest, LoggedUse, Validate;
    var (impact, reason) := Classify(patterns, c.action);
    var reaped := Reap(s, c.reapAt);
    LoggedUseNext(s.audit, ActionMedium(c.model, c.project, c.server, reason, |c.action|), id);
    LoggedUseNext(s.audit, ApprovalRequested(c.model, c.project, c.server, c.freshId, impact, reason, c.at + TTL), id);
    if HasToken(c) {
      ValidateAudit(reaped, c.token.value, c, id);
    }
  }

  lemma StepAudit(patterns: seq<Pattern>, s: State, e: Event, id: string)
    ensures LoggedUse(Step(patterns, s, e).audit, id)
            <==> LoggedUse(s.audit, id) || (Presents(patterns, e, id) && CheckStep(patterns, s, e.c).1 == Passed)
  {
    hide Classify, Blank, Digest, LoggedUse, CheckStep;
    match e
    case List(at) =>
    case Check(c) => CheckAudit(patterns, s, c, id);
    case Decide(d) =>
      if d.id in s.pending {
        var r := s.pending[d.id];
        LoggedUseNext(s.audit, ApprovalDecided(r.model, r.project, r.server, d.id, d.approved, d.user), id);
      }
  }

  ghost predicate UsedBefore(patterns: seq<Pattern>, es: seq<Event>, n: nat, id: string)
    requires n <= |es|
  {
    exists k | 0 <= k < n :: Uses(patterns, es, k, id)
  }

  lemma UsedBeforeNext(patterns: seq<Pattern>, es: seq<Event>, n: nat, id: string)
    requires n < |es|
    ensures UsedBefore(patterns, es, n + 1, id) <==> UsedBefore(patterns, es, n, id) || Uses(patterns, es, n, id)
  {
    hide Uses;
  }

  lemma NothingLogged(patterns: seq<Pattern>, es: seq<Event>, id: string)
    ensures !LoggedUse(Run(patterns, es[..0]).audit, id) && !UsedBefore(patterns, es, 0, id)
  {
  }

  /** The audit log of any run holds a use of a token exactly when an action went ahead on it. */
  lemma {:induction false} AuditShowsUses(patterns: seq<Pattern>, es: seq<Event>, n: nat, id: string)
    requires n <= |es|
    ensures LoggedUse(Run(patterns, es[..n]).audit, id) <==> UsedBefore(patterns, es, n, id)
  {
    hide CheckStep, Presents, LoggedUse, UsedBefore, Step;
    if n == 0 {
      NothingLogged(patterns, es, id);
    } else {
      AuditShowsUses(patterns, es, n - 1, id);
      assert es[..n][..n - 1] == es[..n - 1];
      StepAudit(patterns, Run(patterns, es[..n - 1]), es[n - 1], id);
      UsedBeforeNext(patterns, es, n - 1, id);
    }
  }
}
