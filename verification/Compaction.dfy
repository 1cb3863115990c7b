/**
 Context compaction (core/context_manager.py, class `ContextCompactor`) and the history
 clean-up after a rejected request (core/agent_loop.py, `_run_iteration`).

 A compacted summary is kept in structured form: what was put in it, before it is rendered to
 text and cut to length.
 */
module Compaction {
  import opened Common

  datatype Role = System | User | Assistant | Tool

  datatype Content =
    | Text(text: string)
    | Parts(texts: seq<string>)  // a multimodal list: the text of its text parts
    | Compacted(summary: Summary)

  /** A tool call: the function name and the `path` argument, "" if there is none. */
  datatype Call = Call(name: string, path: string)

  datatype Message = Message(role: Role, content: Content, calls: seq<Call>, callId: string)

  datatype Part =
    | UserPart(text: string) | CallsPart(names: seq<string>) | NotePart(text: string)
    | ResultPart(id: string, text: string)

  datatype Summary = Summary(count: nat, number: nat, parts: seq<Part>, files: set<string>, findings: seq<string>)

  // ---------------------------------------------------------------------------------------
  // Reading a message
  // ---------------------------------------------------------------------------------------

  function Join(texts: seq<string>): string {
    if texts == [] then "" else if |texts| == 1 then texts[0] else texts[0] + " " + Join(texts[1..])
  }

  function TextOf(c: Content): string {
    match c
    case Text(t) => t
    case Parts(ts) => Join(ts)
    case Compacted(_) => ""
  }

  function Clip(s: string, n: nat): string {
    if |s| > n then s[..n] + "..." else s
  }

  function Upto(s: string, n: nat): string {
    if |s| > n then s[..n] else s
  }

  predicate Has(s: string, part: string) {
    part <= s || (s != "" && Has(s[1..], part))
  }

  function Lower(s: string): string {
    seq(|s|, i requires 0 <= i < |s| => if 'A' <= s[i] <= 'Z' then s[i] - 'A' + 'a' else s[i])
  }

  /** A tool result that reports an error. */
  predicate IsError(m: Message) {
    m.role == Tool && (Has(TextOf(m.content), "ERROR") || Has(Upto(Lower(TextOf(m.content)), 50), "error"))
  }

  /** An assistant message that calls tools. */
  predicate IsCaller(m: Message) {
    m.role == Assistant && m.calls != []
  }

  function Names(calls: seq<Call>): seq<string> {
    seq(|calls|, i requires 0 <= i < |calls| => calls[i].name)
  }

  /** The summary entries of one message: none for system messages and preserved errors. */
  function PartsOf(m: Message): seq<Part> {
    match m.role
    case System => []
    case User => [UserPart(Clip(TextOf(m.content), 300))]
    case Assistant =>
      if m.calls != [] then [CallsPart(Names(m.calls))]
      else if TextOf(m.content) != "" then [NotePart(Clip(TextOf(m.content), 200))]
      else []
    case Tool => if IsError(m) then [] else [ResultPart(m.callId, Clip(TextOf(m.content), 100))]
  }

  predicate Writes(c: Call) {
    c.name in {"file_write", "file_edit", "file_create"} && c.path != ""
  }

  function WrittenPaths(calls: seq<Call>): seq<string> {
    if calls == [] then []
    else (if Writes(calls[0]) then [calls[0].path] else []) + WrittenPaths(calls[1..])
  }

  function FilesOf(m: Message): seq<string> {
    if m.role == Assistant then WrittenPaths(m.calls) else []
  }

  function FirstLine(s: string): string {
    if s == "" || s[0] == '\n' then "" else [s[0]] + FirstLine(s[1..])
  }

  function FindingsOf(m: Message): seq<string> {
    var line := Upto(FirstLine(TextOf(m.content)), 200);
    if m.role == Assistant && |TextOf(m.content)| > 50 && line != "" && line[0] != '[' then [line] else []
  }

  // ---------------------------------------------------------------------------------------
  // Compaction, as a function on the message list
  // ---------------------------------------------------------------------------------------

  function ErrorsOf(m: Message): seq<Message> {
    if IsError(m) then [m] else []
  }

  /** What the messages contribute one after another. */
  function Collect<T>(f: Message -> seq<T>, ms: seq<Message>): seq<T> {
    if ms == [] then [] else Collect(f, ms[..|ms| - 1]) + f(ms[|ms| - 1])
  }

  function Errors(ms: seq<Message>): seq<Message> {
    Collect(ErrorsOf, ms)
  }

  function LastFive(findings: seq<string>): seq<string> {
    if |findings| > 5 then findings[|findings| - 5..] else findings
  }

  function SummaryOf(dropped: seq<Message>, number: nat): Summary {
    var files := Collect(FilesOf, dropped);
    Summary(|dropped|, number, Collect(PartsOf, dropped), (set p | p in files), LastFive(Collect(FindingsOf, dropped)))
  }

  function Summarize(dropped: seq<Message>, number: nat): Message {
    Message(System, Compacted(SummaryOf(dropped, number)), [], "")
  }

  /** The leading system message, if any. */
  function Head(ms: seq<Message>): seq<Message> {
    if ms != [] && ms[0].role == System then ms[..1] else []
  }

  function Body(ms: seq<Message>): seq<Message> {
    ms[|Head(ms)|..]
  }

  function BackOverTools(body: seq<Message>, k: nat): (b: nat)
    requires k < |body|
    ensures b <= k
  {
    if k > 0 && body[k].role == Tool then BackOverTools(body, k - 1) else k
  }

  /** Where the kept tail begins. */
  function SplitPoint(body: seq<Message>, keep: nat): (k: nat)
    requires 0 < keep <= |body|
    ensures k <= |body| - keep
  {
    var k := BackOverTools(body, |body| - keep);
    if k > 0 && IsCaller(body[k - 1]) then k - 1 else k
  }

  predicate TooFew(ms: seq<Message>, keep: nat) {
    |ms| <= keep + 2
  }

  function Old(ms: seq<Message>, keep: nat): seq<Message>
    requires !TooFew(ms, keep) && keep > 0
  {
    Body(ms)[..SplitPoint(Body(ms), keep)]
  }

  function Recent(ms: seq<Message>, keep: nat): seq<Message>
    requires !TooFew(ms, keep) && keep > 0
  {
    Body(ms)[SplitPoint(Body(ms), keep)..]
  }

  /** The list after compaction number `number`. */
  function Compact(ms: seq<Message>, keep: nat, number: nat): seq<Message>
    requires keep > 0
  {
    if TooFew(ms, keep) then ms
    else Head(ms) + [Summarize(Old(ms, keep), number)] + Errors(Old(ms, keep)) + Recent(ms, keep)
  }

  lemma SummaryIs(dropped: seq<Message>, number: nat, s: Summary)
    requires s == Summary(|dropped|, number, Collect(PartsOf, dropped), s.files, LastFive(Collect(FindingsOf, dropped)))
    requires s.files == set p | p in Collect(FilesOf, dropped)
    ensures s == SummaryOf(dropped, number)
  {
  }

  // ---------------------------------------------------------------------------------------
  // The object
  // ---------------------------------------------------------------------------------------

  class Compactor {
    const keepRecent: nat
    var count: nat
    var lastIteration: int

    constructor (keepRecent: nat)
      ensures this.keepRecent == keepRecent && count == 0 && lastIteration == 0
    {
      this.keepRecent, count, lastIteration := keepRecent, 0, 0;
    }

    /** `None` is the IndexError of a compactor that keeps no recent message. */
    method CompactMessages(messages: seq<Message>, iteration: int) returns (result: Option<seq<Message>>)
      modifies this
      ensures count == old(count) + if TooFew(messages, keepRecent) then 0 else 1
      ensures lastIteration == if TooFew(messages, keepRecent) || iteration <= 0 then old(lastIteration) else iteration
      ensures result.None? <==> keepRecent == 0 && !TooFew(messages, keepRecent)
      ensures result.Some? ==>
                result.value == if keepRecent == 0 then messages else Compact(messages, keepRecent, count)
    {
      hide SplitPoint, SummaryOf, Errors, IsError, PartsOf, FindingsOf, FilesOf;
      if |messages| <= keepRecent + 2 {
        return Some(messages);
      }
      count := count + 1;
      if iteration > 0 {
        lastIteration := iteration;
      }
      var system, body := [], messages;
      if messages[0].role == System {
        system, body := [messages[0]], messages[1..];
      }
      if keepRecent == 0 {
        return None;  // reading the message at the split, one past the end
      }
      var split := FindSplit(body);
      var dropped, recent := body[..split], body[split..];
      var parts, errors := CollectParts(dropped);
      var files, findings := CollectFindings(dropped);
      var summary := Summary(|dropped|, count, parts, files, LastFive(findings));
      SummaryIs(dropped, count, summary);
      assert system == Head(messages) && body == Body(messages);
      return Some(system + [Message(System, Compacted(summary), [], "")] + errors + recent);
    }

    method FindSplit(body: seq<Message>) returns (split: nat)
      requires 0 < keepRecent <= |body|
      ensures split == SplitPoint(body, keepRecent)
    {
      split := |body| - keepRecent;
      while split > 0 && body[split].role == Tool
        invariant 0 <= split < |body|
        invariant BackOverTools(body, split) == BackOverTools(body, |body| - keepRecent)
      {
        split := split - 1;
      }
      if split > 0 && IsCaller(body[split - 1]) {
        split := split - 1;
      }
    }

    method CollectParts(dropped: seq<Message>) returns (parts: seq<Part>, errors: seq<Message>)
      ensures parts == Collect(PartsOf, dropped) && errors == Errors(dropped)
    {
      parts, errors := [], [];
      for i := 0 to |dropped|
        invariant parts == Collect(PartsOf, dropped[..i]) && errors == Errors(dropped[..i])
      {
        assert dropped[..i + 1][..i] == dropped[..i];
        if IsError(dropped[i]) {
          errors := errors + [dropped[i]];
        }
        parts := parts + PartsOf(dropped[i]);
      }
      assert dropped[..|dropped|] == dropped;
    }

    method CollectFindings(dropped: seq<Message>) returns (files: set<string>, findings: seq<string>)
      ensures files == set p | p in Collect(FilesOf, dropped)
      ensures findings == Collect(FindingsOf, dropped)
    {
      files, findings := {}, [];
      for i := 0 to |dropped|
        invariant files == set p | p in Collect(FilesOf, dropped[..i])
        invariant findings == Collect(FindingsOf, dropped[..i])
      {
        assert dropped[..i + 1][..i] == dropped[..i];
        var paths := FilesOf(dropped[i]);
        files := files + (set p | p in paths);
        findings := findings + FindingsOf(dropped[i]);
      }
      assert dropped[..|dropped|] == dropped;
    }
  }

  // ---------------------------------------------------------------------------------------
  // The split
  // ---------------------------------------------------------------------------------------

  lemma {:induction false} BackOverToolsFacts(body: seq<Message>, k: nat)
    requires k < |body|
    ensures var b := BackOverTools(body, k);
            && b <= k
            && (b == 0 || body[b].role != Tool)
            && forall i | b < i <= k :: body[i].role == Tool
  {
    if k > 0 && body[k].role == Tool {
      BackOverToolsFacts(body, k - 1);
    }
  }

  /** The tail holds at least the `keep` newest messages and does not begin with a tool result,
      unless it is the whole body; whatever was pulled in beyond `keep` is one tool group and at
      most one more caller. */
  lemma SplitFacts(body: seq<Message>, keep: nat)
    requires 0 < keep <= |body|
    ensures var k := SplitPoint(body, keep);
            && k <= |body| - keep
            && (k == 0 || body[k].role != Tool)
            && (k == 0 || !(IsCaller(body[k - 1]) && body[k].role == Tool))
            && forall i | k + 1 < i <= |body| - keep :: body[i].role == Tool
  {
    BackOverToolsFacts(body, |body| - keep);
  }

  /** `b` is the last position, not after the first of the newest `keep`, that holds no tool
      result, or the beginning. */
  predicate LastNonTool(body: seq<Message>, keep: nat, b: nat)
    requires 0 < keep <= |body|
  {
    && b <= |body| - keep
    && (b == 0 || body[b].role != Tool)
    && forall i | b < i <= |body| - keep :: body[i].role == Tool
  }

  /** The split, exactly: the last non-tool message not after the first of the newest `keep`, or
      the caller right in front of it. */
  lemma SplitExact(body: seq<Message>, keep: nat, b: nat)
    requires 0 < keep <= |body| && LastNonTool(body, keep, b)
    ensures SplitPoint(body, keep)
            == if b > 0 && body[b - 1].role == Assistant && body[b - 1].calls != [] then b - 1 else b
  {
    BackOverToolsFacts(body, |body| - keep);
  }

  lemma LastNonToolExists(body: seq<Message>, keep: nat) returns (b: nat)
    requires 0 < keep <= |body|
    ensures LastNonTool(body, keep, b)
  {
    BackOverToolsFacts(body, |body| - keep);
    b := BackOverTools(body, |body| - keep);
  }

  /** Every tool result follows its caller, directly or after other tool results. */
  predicate WellGrouped(ms: seq<Message>) {
    forall i | 0 <= i < |ms| && ms[i].role == Tool :: i > 0 && (ms[i - 1].role == Tool || IsCaller(ms[i - 1]))
  }

  /** A well-grouped list is cut between groups: each side is well grouped by itself. */
  lemma TailStaysGrouped(ms: seq<Message>, keep: nat)
    requires keep > 0 && !TooFew(ms, keep) && WellGrouped(ms)
    ensures WellGrouped(Recent(ms, keep)) && WellGrouped(Old(ms, keep))
  {
    var body := Body(ms);
    assert body == ms[|Head(ms)|..];
    GroupedSlice(ms, |Head(ms)|);
    SplitFacts(body, keep);
    GroupedSlice(body, SplitPoint(body, keep));
  }

  lemma GroupedSlice(ms: seq<Message>, k: nat)
    requires k <= |ms| && WellGrouped(ms)
    requires k == 0 || k == |ms| || ms[k].role != Tool || !(ms[k - 1].role == Tool || IsCaller(ms[k - 1]))
    ensures WellGrouped(ms[k..]) && WellGrouped(ms[..k])
  {
    var t := ms[k..];
    forall i | 0 <= i < |t| && t[i].role == Tool
      ensures i > 0 && (t[i - 1].role == Tool || IsCaller(t[i - 1]))
    {
      assert t[i] == ms[k + i];
    }
  }

  // ---------------------------------------------------------------------------------------
  // Errors survive
  // ---------------------------------------------------------------------------------------

  lemma CollectNext<T>(f: Message -> seq<T>, a: seq<Message>, m: Message)
    ensures Collect(f, a + [m]) == Collect(f, a) + f(m)
  {
    assert (a + [m])[..|a|] == a;
  }

  lemma {:induction false} CollectConcat<T>(f: Message -> seq<T>, a: seq<Message>, b: seq<Message>)
    ensures Collect(f, a + b) == Collect(f, a) + Collect(f, b)
  {
    if b == [] {
      assert a + b == a;
    } else {
      var front, last := b[..|b| - 1], b[|b| - 1];
      CollectConcat(f, a, front);
      CollectNext(f, a + front, last);
      CollectNext(f, front, last);
      assert a + b == a + front + [last] && b == front + [last];
      hide Collect;
    }
  }

  lemma ErrorsConcat(a: seq<Message>, b: seq<Message>)
    ensures Errors(a + b) == Errors(a) + Errors(b)
  {
    CollectConcat(ErrorsOf, a, b);
  }

  predicate AllErrors(ms: seq<Message>) {
    forall i | 0 <= i < |ms| :: IsError(ms[i])
  }

  lemma AllErrorsNext(ms: seq<Message>, m: Message)
    ensures AllErrors(ms + [m]) <==> AllErrors(ms) && IsError(m)
  {
    hide IsError;
    assert forall i | 0 <= i < |ms| :: (ms + [m])[i] == ms[i];
    assert (ms + [m])[|ms|] == m;
  }

  lemma ErrorsNext(ms: seq<Message>, m: Message)
    ensures Errors(ms + [m]) == if IsError(m) then Errors(ms) + [m] else Errors(ms)
  {
    CollectNext(ErrorsOf, ms, m);
    hide IsError, Collect;
  }

  lemma {:induction false} ErrorsAre(ms: seq<Message>)
    ensures |Errors(ms)| <= |ms| && AllErrors(Errors(ms))
    ensures |Errors(ms)| == |ms| <==> AllErrors(ms)
  {
    hide IsError, Errors, AllErrors;
    if ms == [] {
      NoErrorsInNothing();
    } else {
      var front, last := ms[..|ms| - 1], ms[|ms| - 1];
      assert ms == front + [last];
      ErrorsAre(front);
      ErrorsNext(front, last);
      AllErrorsNext(front, last);
      AllErrorsNext(Errors(front), last);
    }
  }

  lemma NoErrorsInNothing()
    ensures Errors([]) == [] && AllErrors([])
  {
  }

  lemma ErrorsAreTools(ms: seq<Message>)
    requires AllErrors(ms)
    ensures forall i | 0 <= i < |ms| :: IsError(ms[i]) && ms[i].role == Tool
  {
  }

  lemma ErrorsAreErrors(ms: seq<Message>)
    ensures |Errors(ms)| <= |ms|
    ensures forall i | 0 <= i < |Errors(ms)| :: IsError(Errors(ms)[i]) && Errors(ms)[i].role == Tool
    ensures |Errors(ms)| == |ms| <==> forall i | 0 <= i < |ms| :: IsError(ms[i])
  {
    hide IsError, Errors;
    ErrorsAre(ms);
    ErrorsAreTools(Errors(ms));
  }

  lemma {:induction false} ErrorsOfErrors(es: seq<Message>)
    requires forall i | 0 <= i < |es| :: IsError(es[i])
    ensures Errors(es) == es
  {
    if es != [] {
      ErrorsOfErrors(es[..|es| - 1]);
    }
  }

  lemma {:induction false} NoErrors(ms: seq<Message>)
    requires forall i | 0 <= i < |ms| :: !IsError(ms[i])
    ensures Errors(ms) == []
  {
    hide IsError;
    if ms != [] {
      NoErrors(ms[..|ms| - 1]);
    }
  }

  lemma SystemsAreNoErrors(ms: seq<Message>)
    requires forall i | 0 <= i < |ms| :: ms[i].role == System
    ensures Errors(ms) == []
  {
    NoErrors(ms);
  }

  lemma ErrorsAround(top: seq<Message>, head: seq<Message>, dropped: seq<Message>, recent: seq<Message>)
    requires Errors(top) == [] && Errors(head) == []
    ensures Errors(top + Errors(dropped) + recent) == Errors(head + (dropped + recent))
  {
    hide Errors;
    var errors := Errors(dropped);
    ErrorsAreErrors(dropped);
    ErrorsOfErrors(errors);
    ErrorsConcat(top, errors);
    ErrorsConcat(top + errors, recent);
    ErrorsConcat(head, dropped + recent);
    ErrorsConcat(dropped, recent);
  }

  /** Compaction keeps every tool error, unchanged and in order. */
  lemma CompactKeepsErrors(ms: seq<Message>, keep: nat, number: nat)
    requires keep > 0
    ensures Errors(Compact(ms, keep, number)) == Errors(ms)
  {
    hide IsError, SplitPoint, SummaryOf, Errors;
    if !TooFew(ms, keep) {
      var head, dropped, recent := Head(ms), Old(ms, keep), Recent(ms, keep);
      var top := head + [Summarize(dropped, number)];
      SystemsAreNoErrors(head);
      SystemsAreNoErrors(top);
      assert ms == head + (dropped + recent) by {
        assert dropped + recent == Body(ms);
      }
      ErrorsAround(top, head, dropped, recent);
    }
  }

  // ---------------------------------------------------------------------------------------
  // What counts as an error, position by position
  // ---------------------------------------------------------------------------------------

  predicate UpperError(text: string, i: nat) {
    i + 5 <= |text| && text[i..i + 5] == "ERROR"
  }

  /** The word "error" stands at position `i`, whatever the case of its letters. */
  predicate AnyError(text: string, i: nat) {
    && i + 5 <= |text|
    && text[i] in {'e', 'E'} && text[i + 1] in {'r', 'R'} && text[i + 2] in {'r', 'R'}
    && text[i + 3] in {'o', 'O'} && text[i + 4] in {'r', 'R'}
  }

  /** The reference: a tool result with "ERROR" anywhere, or "error" in any case within its first
      50 characters. */
  predicate ReportsError(m: Message) {
    var text := TextOf(m.content);
    && m.role == Tool
    && ((exists i | 0 <= i < |text| :: UpperError(text, i)) || exists i | 0 <= i <= 45 :: AnyError(text, i))
  }

  lemma {:induction false} HasAt(s: string, part: string, i: nat)
    requires i + |part| <= |s| && s[i..i + |part|] == part
    ensures Has(s, part)
  {
    if i > 0 {
      assert s[1..][i - 1..i - 1 + |part|] == part;
      HasAt(s[1..], part, i - 1);
    } else {
      assert part <= s;
    }
  }

  lemma {:induction false} HasWhere(s: string, part: string) returns (i: nat)
    requires Has(s, part)
    ensures i + |part| <= |s| && s[i..i + |part|] == part
  {
    if part <= s {
      i := 0;
    } else {
      var j := HasWhere(s[1..], part);
      i := j + 1;
      assert s[i..i + |part|] == s[1..][j..j + |part|];
    }
  }

  lemma LowerError(text: string, i: nat)
    requires i + 5 <= 50 && i + 5 <= |text|
    ensures |Upto(Lower(text), 50)| >= i + 5
    ensures Upto(Lower(text), 50)[i..i + 5] == "error" <==> AnyError(text, i)
  {
    var low := Upto(Lower(text), 50);
    assert forall k | i <= k < i + 5 :: low[k] == if 'A' <= text[k] <= 'Z' then text[k] - 'A' + 'a' else text[k];
    if AnyError(text, i) {
      assert low[i..i + 5] == [low[i], low[i + 1], low[i + 2], low[i + 3], low[i + 4]];
    }
    if low[i..i + 5] == "error" {
      assert low[i..i + 5][0] == 'e' && low[i..i + 5][1] == 'r' && low[i..i + 5][2] == 'r'
             && low[i..i + 5][3] == 'o' && low[i..i + 5][4] == 'r';
    }
  }

  lemma HasUpper(text: string)
    ensures Has(text, "ERROR") <==> exists i | 0 <= i < |text| :: UpperError(text, i)
  {
    if Has(text, "ERROR") {
      var i := HasWhere(text, "ERROR");
      assert UpperError(text, i);
    }
    if i :| 0 <= i < |text| && UpperError(text, i) {
      HasAt(text, "ERROR", i);
    }
  }

  lemma HasAnyCase(text: string)
    ensures Has(Upto(Lower(text), 50), "error") <==> exists i | 0 <= i <= 45 :: AnyError(text, i)
  {
    var low := Upto(Lower(text), 50);
    assert |low| <= |text| && |low| <= 50;
    if Has(low, "error") {
      var i := HasWhere(low, "error");
      LowerError(text, i);
    }
    if i :| 0 <= i <= 45 && AnyError(text, i) {
      LowerError(text, i);
      HasAt(low, "error", i);
    }
  }

  /** What the program treats as an error is what the reference says. */
  lemma IsErrorIff(m: Message)
    ensures IsError(m) <==> ReportsError(m)
  {
    hide Has, Lower, Upto, AnyError, UpperError;
    HasUpper(TextOf(m.content));
    HasAnyCase(TextOf(m.content));
  }

  /** The messages that report an error, in order. */
  function Reports(ms: seq<Message>): seq<Message> {
    if ms == [] then [] else Reports(ms[..|ms| - 1]) + if ReportsError(ms[|ms| - 1]) then [ms[|ms| - 1]] else []
  }

  lemma {:induction false} ReportsAreErrors(ms: seq<Message>)
    ensures Reports(ms) == Errors(ms)
  {
    hide IsError, ReportsError;
    if ms != [] {
      ReportsAreErrors(ms[..|ms| - 1]);
      IsErrorIff(ms[|ms| - 1]);
    }
  }

  /** Compaction keeps every message that reports an error, unchanged and in order. */
  lemma CompactKeepsReports(ms: seq<Message>, keep: nat, number: nat)
    requires keep > 0
    ensures Reports(Compact(ms, keep, number)) == Reports(ms)
  {
    hide Compact, Reports, Errors;
    ReportsAreErrors(ms);
    ReportsAreErrors(Compact(ms, keep, number));
    CompactKeepsErrors(ms, keep, number);
  }

  datatype Event = Append(messages: seq<Message>) | CompactNow(iteration: int)

  /** The list after a run that started empty, and how many compactions took effect. */
  function Run(es: seq<Event>, keep: nat): (seq<Message>, nat)
    requires keep > 0
  {
    if es == [] then ([], 0)
    else
      var (ms, count) := Run(es[..|es| - 1], keep);
      match es[|es| - 1]
      case Append(more) => (ms + more, count)
      case CompactNow(_) => if TooFew(ms, keep) then (ms, count) else (Compact(ms, keep, count + 1), count + 1)
  }

  function Appended(es: seq<Event>): seq<Message> {
    if es == [] then []
    else Appended(es[..|es| - 1]) + match es[|es| - 1]
                                    case Append(more) => more
                                    case CompactNow(_) => []
  }

  /** Over any run of appends and compactions, the tool errors still in the list are exactly the
      tool errors ever appended, in order. */
  lemma {:induction false} RunKeepsErrors(es: seq<Event>, keep: nat)
    requires keep > 0
    ensures Errors(Run(es, keep).0) == Errors(Appended(es))
  {
    hide Compact, Errors, IsError;
    if es != [] {
      var front := es[..|es| - 1];
      RunKeepsErrors(front, keep);
      match es[|es| - 1]
      case Append(more) =>
        ErrorsConcat(Run(front, keep).0, more);
        ErrorsConcat(Appended(front), more);
      case CompactNow(_) =>
        CompactKeepsErrors(Run(front, keep).0, keep, Run(front, keep).1 + 1);
        assert Appended(es) == Appended(front);
    }
  }

  /** The same for the reference: over any run, the messages that report an error are those ever
      appended that do, in order. */
  lemma RunKeepsReports(es: seq<Event>, keep: nat)
    requires keep > 0
    ensures Reports(Run(es, keep).0) == Reports(Appended(es))
  {
    hide Run, Appended, Reports, Errors;
    ReportsAreErrors(Run(es, keep).0);
    ReportsAreErrors(Appended(es));
    RunKeepsErrors(es, keep);
  }

  /** A list is compacted exactly if it has more than `keep` + 2 messages: then a summary with the
      given number stands in front, behind a leading system message. */
  lemma CompactedIff(ms: seq<Message>, keep: nat, number: nat)
    requires keep > 0
    ensures |ms| <= keep + 2 ==> Compact(ms, keep, number) == ms
    ensures |ms| > keep + 2 ==>
              var (r, k) := (Compact(ms, keep, number), if ms[0].role == System then 1 else 0);
              && |r| > k && r[..k] == ms[..k] && r[k].role == System && r[k].calls == []
              && r[k].content.Compacted? && r[k].content.summary.number == number
  {
    if |ms| > keep + 2 {
      hide SplitPoint, Errors, SummaryOf;
      SummaryRest(Old(ms, keep), number);
    }
  }

  /** The text of a multimodal message: its parts, joined by blanks. */
  lemma {:induction false} TextJoins(a: seq<string>, b: seq<string>, x: string)
    ensures TextOf(Parts([])) == "" && TextOf(Parts([x])) == TextOf(Text(x)) == x
    ensures a != [] && b != [] ==> TextOf(Parts(a + b)) == TextOf(Parts(a)) + " " + TextOf(Parts(b))
  {
    if |a| > 1 && b != [] {
      TextJoins(a[1..], b, x);
      assert (a + b)[1..] == a[1..] + b;
    } else if |a| == 1 && b != [] {
      assert (a + b)[1..] == b;
    }
  }

  // ---------------------------------------------------------------------------------------
  // What a summary holds
  // ---------------------------------------------------------------------------------------

  /** A message that leaves an entry in the summary. */
  predicate Contributes(m: Message) {
    || m.role == User
    || (m.role == Assistant && (m.calls != [] || TextOf(m.content) != ""))
    || (m.role == Tool && !ReportsError(m))
  }

  function Contributors(ms: seq<Message>, i: nat): nat
    requires i <= |ms|
  {
    if i == 0 then 0 else Contributors(ms, i - 1) + if Contributes(ms[i - 1]) then 1 else 0
  }

  /** A text of at most `n` characters whole, a longer one cut there and marked. */
  predicate IsClipOf(x: string, text: string, n: nat) {
    x == text[..if |text| < n then |text| else n] + if |text| > n then "..." else ""
  }

  /** The entry of a message: the names of the tools a caller called, and else its text. */
  predicate PartFits(part: Part, m: Message) {
    match m.role
    case User => part.UserPart? && IsClipOf(part.text, TextOf(m.content), 300)
    case Assistant =>
      if m.calls != []
      then && part.CallsPart? && |part.names| == |m.calls|
           && forall k | 0 <= k < |m.calls| :: part.names[k] == m.calls[k].name
      else part.NotePart? && IsClipOf(part.text, TextOf(m.content), 200)
    case Tool => part.ResultPart? && part.id == m.callId && IsClipOf(part.text, TextOf(m.content), 100)
    case System => false
  }

  lemma ClipIs(text: string, n: nat)
    ensures IsClipOf(Clip(text, n), text, n)
  {
    assert |text| <= n ==> text[..|text|] + "" == text;
  }

  lemma PartOfOne(m: Message)
    ensures |PartsOf(m)| == if Contributes(m) then 1 else 0
    ensures Contributes(m) ==> PartFits(PartsOf(m)[0], m)
  {
    hide IsError, ReportsError, Clip, IsClipOf, TextOf;
    IsErrorIff(m);
    ClipIs(TextOf(m.content), 300);
    ClipIs(TextOf(m.content), 200);
    ClipIs(TextOf(m.content), 100);
  }

  lemma {:induction false} ContributorsOfFront(ms: seq<Message>, m: Message, i: nat)
    requires i <= |ms|
    ensures Contributors(ms + [m], i) == Contributors(ms, i)
  {
    hide Contributes;
    if i > 0 {
      ContributorsOfFront(ms, m, i - 1);
    }
  }

  /** The summary entries, exactly: one for each contributing message, in order, made from it. */
  lemma {:induction false} SummaryEntries(dropped: seq<Message>, i: nat)
    requires i <= |dropped|
    ensures |Collect(PartsOf, dropped)| == Contributors(dropped, |dropped|)
    ensures i < |dropped| && Contributes(dropped[i]) ==>
              && Contributors(dropped, i) < |Collect(PartsOf, dropped)|
              && PartFits(Collect(PartsOf, dropped)[Contributors(dropped, i)], dropped[i])
  {
    hide Contributes, PartFits, PartsOf;
    if dropped != [] {
      var front, last := dropped[..|dropped| - 1], dropped[|dropped| - 1];
      assert dropped == front + [last];
      SummaryEntries(front, if i <= |front| then i else |front|);
      CollectNext(PartsOf, front, last);
      PartOfOne(last);
      ContributorsOfFront(front, last, |front|);
      if i < |front| {
        ContributorsOfFront(front, last, i);
      }
      hide Collect;
    }
  }

  /** The files named in a summary are the paths that some old call wrote, edited or created. */
  lemma {:induction false} SummaryFiles(dropped: seq<Message>, path: string)
    ensures path in Collect(FilesOf, dropped)
            <==> path != "" && exists i, k | 0 <= i < |dropped| && 0 <= k < |dropped[i].calls| ::
                   && dropped[i].role == Assistant && dropped[i].calls[k].path == path
                   && dropped[i].calls[k].name in {"file_write", "file_edit", "file_create"}
  {
    if dropped != [] {
      var front, last := dropped[..|dropped| - 1], dropped[|dropped| - 1];
      SummaryFiles(front, path);
      assert forall i | 0 <= i < |front| :: front[i] == dropped[i];
      WrittenIs(last.calls, path);
    }
  }

  lemma {:induction false} WrittenIs(calls: seq<Call>, path: string)
    ensures path in WrittenPaths(calls)
            <==> path != "" && exists k | 0 <= k < |calls| ::
                   calls[k].path == path && calls[k].name in {"file_write", "file_edit", "file_create"}
  {
    if calls != [] {
      WrittenIs(calls[1..], path);
      assert forall k | 0 <= k < |calls| - 1 :: calls[1..][k] == calls[k + 1];
      assert forall k | 0 < k < |calls| :: calls[k] == calls[1..][k - 1];
    }
  }

  lemma {:induction false} FirstLineIs(s: string)
    ensures FirstLine(s) <= s && (forall i | 0 <= i < |FirstLine(s)| :: s[i] != '\n')
    ensures |FirstLine(s)| < |s| ==> s[|FirstLine(s)|] == '\n'
  {
    if s != "" && s[0] != '\n' {
      FirstLineIs(s[1..]);
      assert s == [s[0]] + s[1..];
    }
  }

  /** A finding: the first 200 characters of the first line of an assistant message of more than 50
      characters, unless that line is empty or begins with a bracket. */
  lemma FindingIs(m: Message)
    ensures var text := TextOf(m.content);
            |FindingsOf(m)| == if m.role == Assistant && |text| > 50 && text[0] != '\n' && text[0] != '[' then 1 else 0
    ensures FindingsOf(m) != [] ==>
              var (text, f) := (TextOf(m.content), FindingsOf(m)[0]);
              && f <= text && |f| <= 200 && (forall i | 0 <= i < |f| :: f[i] != '\n')
              && (|f| < 200 && |f| < |text| ==> text[|f|] == '\n')
  {
    hide TextOf;
    FirstLineIs(TextOf(m.content));
    hide FirstLine;
  }

  /** The rest of a summary: how many messages it stands for, its number, and the last five
      findings. */
  lemma SummaryRest(dropped: seq<Message>, number: nat)
    ensures var (s, all) := (SummaryOf(dropped, number), Collect(FindingsOf, dropped));
            && s.count == |dropped| && s.number == number
            && s.findings == all[if |all| < 5 then 0 else |all| - 5..]
            && forall p :: p in s.files <==> p in Collect(FilesOf, dropped)
  {
    hide Collect, FindingsOf, FilesOf, PartsOf;
  }

  // ---------------------------------------------------------------------------------------
  // What compaction promises and does not deliver
  // ---------------------------------------------------------------------------------------

  function Replaced(ms: seq<Message>): nat {
    ErrorsAreErrors(ms);
    |ms| - |Errors(ms)|
  }

  /** The list gets shorter exactly when at least two old messages are not tool errors; with
      none it even grows. */
  lemma CompactSize(ms: seq<Message>, keep: nat, number: nat)
    requires keep > 0 && !TooFew(ms, keep)
    ensures var r := Compact(ms, keep, number);
            && |r| == |ms| - |Old(ms, keep)| + 1 + |Errors(Old(ms, keep))|
            && (|r| < |ms| <==> Replaced(Old(ms, keep)) >= 2)
            && (|r| > |ms| <==> forall i | 0 <= i < |Old(ms, keep)| :: IsError(Old(ms, keep)[i]))
            && keep <= |Recent(ms, keep)| && Recent(ms, keep) == ms[|ms| - |Recent(ms, keep)|..]
  {
    hide SplitPoint, Errors, IsError, Summarize;
    var dropped, recent := Old(ms, keep), Recent(ms, keep);
    ErrorsAreErrors(dropped);
    SplitFacts(Body(ms), keep);
    assert ms == Head(ms) + dropped + recent;
  }

  /** Tool results stay next to their callers exactly when no old message was a tool error:
      preserved errors are cut off from the message that called the tool. */
  lemma GroupingSurvivesIffNoErrors(ms: seq<Message>, keep: nat, number: nat)
    requires keep > 0 && !TooFew(ms, keep) && WellGrouped(ms)
    ensures WellGrouped(Compact(ms, keep, number)) <==> Errors(Old(ms, keep)) == []
  {
    var errors, recent := Errors(Old(ms, keep)), Recent(ms, keep);
    ErrorsAreErrors(Old(ms, keep));
    TailStaysGrouped(ms, keep);
    hide IsError, SplitPoint, SummaryOf, Errors, Old, Recent;
    GroupingOfJoin(Head(ms) + [Summarize(Old(ms, keep), number)], errors, recent);
  }

  lemma GroupingOfJoin(top: seq<Message>, errors: seq<Message>, recent: seq<Message>)
    requires top != [] && (forall i | 0 <= i < |top| :: top[i].role == System)
    requires (forall i | 0 <= i < |errors| :: errors[i].role == Tool) && WellGrouped(recent)
    ensures WellGrouped(top + errors + recent) <==> errors == []
  {
    var r, n := top + errors + recent, |top|;
    assert r[n - 1].role == System;
    if errors != [] {
      assert r[n] == errors[0];
    } else {
      forall i | 0 <= i < |r| && r[i].role == Tool
        ensures i > 0 && (r[i - 1].role == Tool || IsCaller(r[i - 1]))
      {
        assert r[i] == recent[i - n];
        assert r[i - 1] == recent[i - n - 1];
      }
    }
  }

  /** A caller with three results, of which one is to be kept: nothing is old, and the list gains
      a message. */
  lemma CompactionGrows(call: Call, a: string, number: nat)
    ensures var r := Message(Tool, Text(a), [], "");
            var ms := [Message(Assistant, Text(""), [call], ""), r, r, r];
            Old(ms, 1) == [] && |Compact(ms, 1, number)| == |ms| + 1
  {
    var r := Message(Tool, Text(a), [], "");
    var ms := [Message(Assistant, Text(""), [call], ""), r, r, r];
    hide SummaryOf, IsError, Errors, Compact;
    assert Body(ms) == ms;
    ToolsSplit(ms);
    assert Old(ms, 1) == [] && Errors([]) == [] by {
      NoErrors([]);
    }
    CompactSize(ms, 1, number);
  }

  lemma ToolsSplit(ms: seq<Message>)
    requires |ms| == 4 && ms[0].role == Assistant && ms[1].role == ms[2].role == ms[3].role == Tool
    ensures SplitPoint(ms, 1) == 0
  {
    BackOverToolsFacts(ms, 3);
  }

  /** An old tool error is kept behind the summary, away from the message that called the tool. */
  lemma CompactionDetachesError(call: Call, number: nat)
    ensures var u := Message(User, Text(""), [], "");
            var ms := [Message(Assistant, Text(""), [call], ""), Message(Tool, Text("ERROR"), [], ""), u, u];
            WellGrouped(ms) && !WellGrouped(Compact(ms, 1, number))
  {
    hide SummaryOf, IsError, Errors, SplitPoint, Compact;
    var u := Message(User, Text(""), [], "");
    var failed := Message(Tool, Text("ERROR"), [], "");
    var ms := [Message(Assistant, Text(""), [call], ""), failed, u, u];
    ErrorIsError(failed);
    assert Body(ms) == ms;
    UserSplit(ms);
    assert Old(ms, 1)[1] == failed;
    KeepsAnError(Old(ms, 1), 1);
    GroupingSurvivesIffNoErrors(ms, 1, number);
  }

  lemma UserSplit(ms: seq<Message>)
    requires |ms| == 4 && ms[2].role == ms[3].role == User
    ensures SplitPoint(ms, 1) == 3
  {
  }

  lemma ErrorIsError(m: Message)
    requires m.role == Tool && m.content == Text("ERROR")
    ensures IsError(m)
  {
    hide Lower;
    HasItself("ERROR");
  }

  lemma HasItself(s: string)
    ensures Has(s, s)
  {
  }

  lemma {:induction false} KeepsAnError(ms: seq<Message>, i: nat)
    requires i < |ms| && IsError(ms[i])
    ensures Errors(ms) != []
  {
    hide IsError;
    if i < |ms| - 1 {
      KeepsAnError(ms[..|ms| - 1], i);
    }
  }

  /** A system message in the old part, such as an earlier summary, leaves no trace: the new
      summary reads as if it had not been there. */
  lemma SystemLeavesNoTrace(s: Message, b: seq<Message>, number: nat)
    requires s.role == System
    ensures SummaryOf([s] + b, number) == SummaryOf(b, number).(count := |b| + 1)
    ensures Errors([s] + b) == Errors(b)
  {
    assert PartsOf(s) == [] && FilesOf(s) == [] && FindingsOf(s) == [] && ErrorsOf(s) == [];
    hide PartsOf, FilesOf, FindingsOf, ErrorsOf;
    CollectSkips(PartsOf, s, b);
    CollectSkips(FilesOf, s, b);
    CollectSkips(FindingsOf, s, b);
    CollectSkips(ErrorsOf, s, b);
    hide Collect, LastFive;
  }

  lemma CollectSkips<T>(f: Message -> seq<T>, s: Message, b: seq<Message>)
    requires f(s) == []
    ensures Collect(f, [s] + b) == Collect(f, b)
  {
    CollectConcat(f, [s], b);
    assert [s][..0] == [];
  }

  /** One step: behind a system message that stays in front, the previous summary is dropped and
      what it held is in no part of the new one. */
  lemma SecondSummaryIsForgotten(first: Message, second: Message, rest: seq<Message>, keep: nat, number: nat)
    requires keep > 0 && first.role == System && second.role == System
    requires |rest| > keep && SplitPoint([second] + rest, keep) > 0
    ensures var k := SplitPoint([second] + rest, keep) - 1;
            && k <= |rest|
            && Compact([first, second] + rest, keep, number)
               == [first, Message(System, Compacted(SummaryOf(rest[..k], number).(count := k + 1)), [], "")]
                  + Errors(rest[..k]) + rest[k..]
  {
    hide SummaryOf, Errors, SplitPoint;
    var ms := [first, second] + rest;
    var body := [second] + rest;
    assert Body(ms) == body && Head(ms) == [first];
    var k := SplitPoint(body, keep) - 1;
    assert body[..k + 1] == [second] + rest[..k] && body[k + 1..] == rest[k..];
    SystemLeavesNoTrace(second, rest[..k], number);
  }

  // ---------------------------------------------------------------------------------------
  // Clean-up after a rejected request
  // ---------------------------------------------------------------------------------------

  function CalledNotice(names: seq<string>): string {
    "[Previously called tools: " + JoinNames(names) + ". Results applied.]"
  }

  /** What the clean-up puts in place of one message. */
  function Cleaned(m: Message): seq<Message> {
    if m.role == Tool then []
    else if IsCaller(m) then [Message(Assistant, Text(CalledNotice(Names(m.calls))), [], "")]
    else [m]
  }

  function JoinNames(names: seq<string>): string {
    if names == [] then "" else if |names| == 1 then names[0] else names[0] + ", " + JoinNames(names[1..])
  }

  const CLEANED_NOTICE :=
    Message(User, Text("[System: Message history cleaned due to model switch. Continue.]"), [], "")

  method CleanHistory(messages: seq<Message>) returns (cleaned: seq<Message>)
    ensures cleaned == Collect(Cleaned, messages) + [CLEANED_NOTICE]
  {
    cleaned := [];
    for i := 0 to |messages|
      invariant cleaned == Collect(Cleaned, messages[..i])
    {
      assert messages[..i + 1][..i] == messages[..i];
      cleaned := cleaned + Cleaned(messages[i]);
    }
    assert messages[..|messages|] == messages;
    cleaned := cleaned + [CLEANED_NOTICE];
  }

  lemma {:induction false} CleanHasNoTools(ms: seq<Message>)
    ensures forall i | 0 <= i < |Collect(Cleaned, ms)| :: Collect(Cleaned, ms)[i].role != Tool
  {
    if ms != [] {
      CleanHasNoTools(ms[..|ms| - 1]);
      hide JoinNames;
    }
  }

  lemma {:induction false} NamesJoin(a: seq<string>, b: seq<string>, x: string)
    ensures JoinNames([]) == "" && JoinNames([x]) == x
    ensures a != [] && b != [] ==> JoinNames(a + b) == JoinNames(a) + ", " + JoinNames(b)
  {
    if |a| > 1 && b != [] {
      NamesJoin(a[1..], b, x);
      assert (a + b)[1..] == a[1..] + b;
    } else if |a| == 1 && b != [] {
      assert (a + b)[1..] == b;
    }
  }

  /** How many of the first `i` messages are no tool results. */
  function NonTools(ms: seq<Message>, i: nat): nat
    requires i <= |ms|
  {
    if i == 0 then 0 else NonTools(ms, i - 1) + if ms[i - 1].role != Tool then 1 else 0
  }

  lemma {:induction false} NonToolsOfFront(ms: seq<Message>, m: Message, i: nat)
    requires i <= |ms|
    ensures NonTools(ms + [m], i) == NonTools(ms, i)
  {
    if i > 0 {
      NonToolsOfFront(ms, m, i - 1);
    }
  }

  /** What stands in the cleaned list for a message that is no tool result. */
  predicate StandsFor(c: Message, m: Message) {
    if m.role == Assistant && m.calls != []
    then c.role == Assistant && c.calls == [] && c.callId == ""
         && c.content == Text("[Previously called tools: " + JoinNames(Names(m.calls)) + ". Results applied.]")
    else c == m
  }

  /** The cleaned list, exactly: one message for each that is no tool result, in order, unchanged
      unless it called tools. */
  lemma {:induction false} CleanedExactly(ms: seq<Message>, i: nat)
    requires i <= |ms|
    ensures |Collect(Cleaned, ms)| == NonTools(ms, |ms|)
    ensures i < |ms| && ms[i].role != Tool ==>
              && NonTools(ms, i) < |Collect(Cleaned, ms)|
              && StandsFor(Collect(Cleaned, ms)[NonTools(ms, i)], ms[i])
  {
    if ms != [] {
      var front, last := ms[..|ms| - 1], ms[|ms| - 1];
      assert ms == front + [last];
      CleanedExactly(front, if i <= |front| then i else |front|);
      CollectNext(Cleaned, front, last);
      assert |Cleaned(last)| == if last.role != Tool then 1 else 0;
      assert last.role != Tool ==> StandsFor(Cleaned(last)[0], last);
      hide Collect, StandsFor, Cleaned;
      NonToolsOfFront(front, last, |front|);
      if i < |front| {
        NonToolsOfFront(front, last, i);
      }
    }
  }

  /** The clean-up restores grouping whatever compaction did, by giving up every tool result. */
  lemma CleanIsGrouped(ms: seq<Message>)
    ensures WellGrouped(Collect(Cleaned, ms) + [CLEANED_NOTICE])
    ensures Errors(Collect(Cleaned, ms) + [CLEANED_NOTICE]) == []
  {
    CleanHasNoTools(ms);
    hide Collect;
    NoErrors(Collect(Cleaned, ms) + [CLEANED_NOTICE]);
  }
}
