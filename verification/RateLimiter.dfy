/**
 The sliding-window limiter of the task endpoint (api/api.py, class `_RateLimiter`).

 `Limiter` is the object as the program keeps it: one deque of admission times per key,
 pruned from the front on every call and dropped by `Cleanup`.  `Admitted` and `Decide` are
 the reference: they look at the whole admission history of a key and know nothing of
 deques, pruning or cleanup.  `Refines` connects the two over whole runs.
 */
module RateLimiter {

  type Calls = map<string, seq<real>>

  /** `EmptyWindowError` is the IndexError of reading the oldest entry of an empty deque,
      which a limit of zero or less reaches. */
  datatype Answer = Allowed | Denied(retryAfter: int) | EmptyWindowError

  datatype Event = Call(key: string, at: real) | Cleanup(at: real)

  /** Python's int(): truncation toward zero. */
  function Trunc(x: real): int {
    if x >= 0.0 then x.Floor else -((-x).Floor)
  }

  // ---------------------------------------------------------------------------------------
  // What the object does, as functions on its state
  // ---------------------------------------------------------------------------------------

  function Lookup(calls: Calls, key: string): seq<real> {
    if key in calls then calls[key] else []
  }

  function Prune(dq: seq<real>, now: real, window: real): seq<real> {
    if dq != [] && now - dq[0] > window then Prune(dq[1..], now, window) else dq
  }

  function Admit(calls: Calls, key: string, now: real, max: int, window: real): (Calls, Answer) {
    var dq := Prune(Lookup(calls, key), now, window);
    if |dq| < max then (calls[key := dq + [now]], Allowed)
    else if dq == [] then (calls[key := []], EmptyWindowError)
    else (calls[key := dq], Denied(Trunc(window - (now - dq[0])) + 1))
  }

  predicate Stale(dq: seq<real>, now: real, window: real) {
    dq == [] || now - dq[|dq| - 1] > window * 2.0
  }

  function Sweep(calls: Calls, now: real, window: real): Calls {
    map k | k in calls && !Stale(calls[k], now, window) :: calls[k]
  }

  class Limiter {
    const max: int
    const window: real
    var calls: Calls

    constructor (max: int, window: real)
      ensures this.max == max && this.window == window && calls == map[]
    {
      this.max, this.window, calls := max, window, map[];
    }

    method IsAllowed(key: string, now: real) returns (answer: Answer)
      modifies this
      ensures (calls, answer) == Admit(old(calls), key, now, max, window)
    {
      var dq := if key in calls then calls[key] else [];
      ghost var stored := dq;
      while dq != [] && now - dq[0] > window
        invariant Prune(dq, now, window) == Prune(stored, now, window)
        decreases |dq|
      {
        dq := dq[1..];
      }
      calls := calls[key := dq];
      assert Prune(dq, now, window) == dq;
      if |dq| >= max {
        if dq == [] {
          return EmptyWindowError;
        }
        var oldest := dq[0];
        return Denied(Trunc(window - (now - oldest)) + 1);
      }
      calls := calls[key := dq + [now]];
      assert calls == old(calls)[key := dq + [now]];
      return Allowed;
    }

    method Cleanup(now: real)
      modifies this
      ensures calls == Sweep(old(calls), now, window)
    {
      var stale := set k | k in calls && Stale(calls[k], now, window);
      var todo := stale;
      while todo != {}
        invariant todo <= stale
        invariant calls == map k | k in old(calls) && k !in stale - todo :: old(calls)[k]
        decreases todo
      {
        var k :| k in todo;
        todo := todo - {k};
        calls := calls - {k};
      }
    }
  }

  function Step(calls: Calls, e: Event, max: int, window: real): Calls {
    match e
    case Call(key, at) => Admit(calls, key, at, max, window).0
    case Cleanup(at) => Sweep(calls, at, window)
  }

  function Run(es: seq<Event>, max: int, window: real): Calls {
    if es == [] then map[] else Step(Run(es[..|es| - 1], max, window), es[|es| - 1], max, window)
  }

  // ---------------------------------------------------------------------------------------
  // The reference: decisions from the full admission history
  // ---------------------------------------------------------------------------------------

  /** The entries of a history that lie in the window ending at `now`. */
  function Recent(h: seq<real>, now: real, window: real): seq<real> {
    if h == [] then []
    else
      var rest := Recent(h[..|h| - 1], now, window);
      if now - h[|h| - 1] <= window then rest + [h[|h| - 1]] else rest
  }

  function Decide(h: seq<real>, now: real, max: int, window: real): Answer {
    var r := Recent(h, now, window);
    if |r| < max then Allowed
    else if r == [] then EmptyWindowError
    else Denied(Trunc(window - (now - r[0])) + 1)
  }

  function Extend(h: seq<real>, e: Event, key: string, max: int, window: real): seq<real> {
    if e.Call? && e.key == key && Decide(h, e.at, max, window) == Allowed then h + [e.at] else h
  }

  /** Times of the admitted calls for `key`, oldest first. */
  function Admitted(es: seq<Event>, key: string, max: int, window: real): seq<real> {
    if es == [] then []
    else Extend(Admitted(es[..|es| - 1], key, max, window), es[|es| - 1], key, max, window)
  }

  predicate Ordered(es: seq<Event>) {
    forall i, j | 0 <= i < j < |es| :: es[i].at <= es[j].at
  }

  /** `now` is not before any event of the run. */
  predicate Upto(es: seq<Event>, now: real) {
    Ordered(es) && forall i | 0 <= i < |es| :: es[i].at <= now
  }

  predicate Sorted(h: seq<real>) {
    forall i, j | 0 <= i < j < |h| :: h[i] <= h[j]
  }

  // ---------------------------------------------------------------------------------------
  // Histories
  // ---------------------------------------------------------------------------------------

  lemma {:induction false} AdmittedIsSorted(es: seq<Event>, now: real, key: string, max: int, window: real)
    requires Upto(es, now)
    ensures Sorted(Admitted(es, key, max, window))
    ensures forall t | t in Admitted(es, key, max, window) :: t <= now
  {
    if es != [] {
      AdmittedIsSorted(es[..|es| - 1], es[|es| - 1].at, key, max, window);
      var h := Admitted(es[..|es| - 1], key, max, window);
      assert forall i | 0 <= i < |h| :: h[i] in h;
    }
  }

  /** The first `k` entries have expired by `now`, the others have not. */
  predicate SplitAt(h: seq<real>, k: int, now: real, window: real) {
    && 0 <= k <= |h|
    && (forall j | 0 <= j < k :: now - h[j] > window)
    && (forall j | k <= j < |h| :: now - h[j] <= window)
  }

  lemma {:induction false} RecentFrom(h: seq<real>, k: nat, now: real, window: real)
    requires SplitAt(h, k, now, window)
    ensures Recent(h, now, window) == h[k..]
  {
    if h != [] {
      var n := |h| - 1;
      if k == |h| {
        RecentFrom(h[..n], n, now, window);
      } else {
        RecentFrom(h[..n], k, now, window);
        assert h[..n][k..] + [h[n]] == h[k..];
      }
    }
  }

  /** In a sorted history the window is a suffix, and everything before it has expired. */
  lemma {:induction false} RecentIsSuffix(h: seq<real>, now: real, window: real)
    requires Sorted(h)
    ensures var k := |h| - |Recent(h, now, window)|;
            SplitAt(h, k, now, window) && Recent(h, now, window) == h[k..]
  {
    var k := 0;
    while k < |h| && now - h[k] > window
      invariant k <= |h|
      invariant forall j | 0 <= j < k :: now - h[j] > window
    {
      k := k + 1;
    }
    RecentFrom(h, k, now, window);
  }

  /** Any `max` + 1 consecutive admitted calls span more than the window. */
  lemma {:induction false} AdmittedSpread(es: seq<Event>, key: string, max: nat, window: real, i: nat)
    requires Ordered(es)
    requires i + max < |Admitted(es, key, max, window)|
    ensures max > 0
    ensures Admitted(es, key, max, window)[i + max] - Admitted(es, key, max, window)[i] > window
  {
    var front := es[..|es| - 1];
    var h := Admitted(front, key, max, window);
    if i + max < |h| {
      AdmittedSpread(front, key, max, window, i);
    } else {
      AdmittedIsSorted(front, es[|es| - 1].at, key, max, window);
      RecentIsSuffix(h, es[|es| - 1].at, window);
    }
  }

  /** Hence no moment ever sees more than `max` admitted calls in its window. */
  lemma WindowNeverExceeded(es: seq<Event>, key: string, max: nat, window: real, now: real)
    requires Upto(es, now)
    ensures |Recent(Admitted(es, key, max, window), now, window)| <= max
  {
    var h := Admitted(es, key, max, window);
    AdmittedIsSorted(es, now, key, max, window);
    RecentIsSuffix(h, now, window);
    var k := |h| - |Recent(h, now, window)|;
    assert forall i | 0 <= i < |h| :: h[i] in h && h[i] <= now;
    if k + max < |h| {
      AdmittedSpread(es, key, max, window, k);
      assert false;
    }
  }

  /** A call is denied exactly when `max` admitted calls lie in its window. */
  lemma DeniedIffWindowFull(es: seq<Event>, key: string, max: nat, window: real, now: real)
    requires Upto(es, now)
    ensures Decide(Admitted(es, key, max, window), now, max, window) != Allowed
            <==> |Recent(Admitted(es, key, max, window), now, window)| == max
  {
    WindowNeverExceeded(es, key, max, window, now);
  }

  lemma TruncBounds(x: real)
    requires 0.0 <= x
    ensures x < (Trunc(x) + 1) as real <= x + 1.0
  {
  }

  lemma RetryFromHistory(h: seq<real>, k: nat, max: int, window: real, now: real, later: real)
    requires Sorted(h) && SplitAt(h, k, now, window) && k < |h| && |h| - k == max
    requires h[k] <= now <= later
    ensures Decide(h, now, max, window) == Denied(Trunc(window - (now - h[k])) + 1)
    ensures Decide(h, later, max, window) == Allowed <==> later - h[k] > window
  {
    RecentFrom(h, k, now, window);
    RecentIsSuffix(h, later, window);
    var k' := |h| - |Recent(h, later, window)|;
    if later - h[k] > window {
      assert k < k';
    } else {
      assert k' <= k;
    }
  }

  /** Once denied at `now`, the same key is admitted at a later moment with no admission in
      between exactly when more than the announced need has passed; the announced wait covers
      the need and exceeds it by at most one second. */
  lemma RetryAfterIsExact(es: seq<Event>, key: string, max: nat, window: real, now: real, later: real)
    requires Upto(es, now) && now <= later
    requires Decide(Admitted(es, key, max, window), now, max, window).Denied?
    ensures var h := Admitted(es, key, max, window);
            var retry := Decide(h, now, max, window).retryAfter;
            var need := window - (now - Recent(h, now, window)[0]);
            && 0.0 <= need < retry as real <= need + 1.0
            && (Decide(h, later, max, window) == Allowed <==> later - now > need)
  {
    var h := Admitted(es, key, max, window);
    AdmittedIsSorted(es, now, key, max, window);
    RecentIsSuffix(h, now, window);
    DeniedIffWindowFull(es, key, max, window, now);
    var oldest := h[|h| - max];
    assert oldest in h;
    RetryFromHistory(h, |h| - max, max, window, now, later);
    assert Recent(h, now, window)[0] == oldest;
    TruncBounds(window - (now - oldest));
  }

  // ---------------------------------------------------------------------------------------
  // The object refines the reference, and cleanup is invisible
  // ---------------------------------------------------------------------------------------

  /** The stored deque is the history minus entries that have already expired. */
  predicate Tracks(dq: seq<real>, h: seq<real>, last: real, window: real) {
    && |dq| <= |h|
    && dq == h[|h| - |dq|..]
    && forall j | 0 <= j < |h| - |dq| :: last - h[j] > window
  }

  lemma {:induction false} PruneIsRecent(dq: seq<real>, h: seq<real>, last: real, now: real, window: real)
    requires Sorted(h) && Tracks(dq, h, last, window) && last <= now
    ensures Prune(dq, now, window) == Recent(h, now, window)
    ensures Tracks(Prune(dq, now, window), h, now, window)
    decreases |dq|
  {
    var k := |h| - |dq|;
    if dq != [] && now - dq[0] > window {
      assert dq[1..] == h[k + 1..];
      PruneIsRecent(dq[1..], h, now, now, window);
    } else {
      assert SplitAt(h, k, now, window);
      RecentFrom(h, k, now, window);
    }
  }

  lemma SweepTracks(dq: seq<real>, h: seq<real>, now: real, window: real)
    requires Sorted(h) && Tracks(dq, h, now, window) && Stale(dq, now, window)
    requires forall t | t in h :: t <= now
    ensures Tracks([], h, now, window)
  {
    if dq != [] {
      assert dq[|dq| - 1] == h[|h| - 1];
      assert h[|h| - 1] in h;
      assert now - h[|h| - 1] > window;
    }
  }

  lemma AdmittedTracks(dq: seq<real>, h: seq<real>, at: real, window: real)
    requires Tracks(dq, h, at, window)
    ensures Tracks(dq + [at], h + [at], at, window)
  {
    assert (h + [at])[|h| - |dq|..] == dq + [at];
  }

  lemma CallTracks(calls: Calls, h: seq<real>, key: string, at: real, max: int, window: real)
    requires Sorted(h) && Tracks(Lookup(calls, key), h, at, window)
    ensures Tracks(Lookup(Admit(calls, key, at, max, window).0, key),
                   Extend(h, Call(key, at), key, max, window), at, window)
  {
    hide Prune, Recent, Sorted, Tracks;
    var dq := Lookup(calls, key);
    PruneIsRecent(dq, h, at, at, window);
    AdmittedTracks(Prune(dq, at, window), h, at, window);
  }

  lemma SweptTracks(calls: Calls, h: seq<real>, key: string, at: real, window: real)
    requires Sorted(h) && (forall t | t in h :: t <= at) && Tracks(Lookup(calls, key), h, at, window)
    ensures Tracks(Lookup(Sweep(calls, at, window), key), h, at, window)
  {
    var dq, swept := Lookup(calls, key), Lookup(Sweep(calls, at, window), key);
    assert swept == if Stale(dq, at, window) then [] else dq;
    hide Lookup, Sweep, Stale, Tracks, Sorted;
    if Stale(dq, at, window) {
      SweepTracks(dq, h, at, window);
    }
  }

  lemma StepTracks(calls: Calls, h: seq<real>, e: Event, key: string, max: int, window: real)
    requires Sorted(h) && (forall t | t in h :: t <= e.at)
    requires Tracks(Lookup(calls, key), h, e.at, window)
    ensures Tracks(Lookup(Step(calls, e, max, window), key), Extend(h, e, key, max, window), e.at, window)
  {
    hide Prune, Recent, Sorted, Tracks, Sweep;
    match e
    case Call(k, at) =>
      if k == key {
        CallTracks(calls, h, key, at, max, window);
      } else {
        OtherKeyKept(calls, k, key, at, max, window);
      }
    case Cleanup(at) =>
      SweptTracks(calls, h, key, at, window);
  }

  lemma OtherKeyKept(calls: Calls, k: string, key: string, at: real, max: int, window: real)
    requires k != key
    ensures Lookup(Admit(calls, k, at, max, window).0, key) == Lookup(calls, key)
  {
    hide Prune;
  }

  lemma {:induction false} RunTracks(es: seq<Event>, now: real, key: string, max: int, window: real)
    requires Upto(es, now)
    ensures Tracks(Lookup(Run(es, max, window), key), Admitted(es, key, max, window), now, window)
  {
    if es != [] {
      var front, e := es[..|es| - 1], es[|es| - 1];
      RunTracks(front, e.at, key, max, window);
      AdmittedIsSorted(front, e.at, key, max, window);
      StepTracks(Run(front, max, window), Admitted(front, key, max, window), e, key, max, window);
    }
  }

  /** After any run, the limiter's next answer is the reference decision on the history. */
  lemma Refines(es: seq<Event>, key: string, now: real, max: int, window: real)
    requires Upto(es, now)
    ensures Admit(Run(es, max, window), key, now, max, window).1
            == Decide(Admitted(es, key, max, window), now, max, window)
  {
    RunTracks(es, now, key, max, window);
    AdmittedIsSorted(es, now, key, max, window);
    PruneIsRecent(Lookup(Run(es, max, window), key), Admitted(es, key, max, window), now, now, window);
  }

  lemma {:induction false} NothingAdmitted(es: seq<Event>, key: string, max: int, window: real)
    requires max <= 0
    ensures Admitted(es, key, max, window) == []
  {
    if es != [] {
      NothingAdmitted(es[..|es| - 1], key, max, window);
    }
  }

  /** The IndexError: with a limit of zero or less every call of every key raises it, and with a
      positive limit none ever does. */
  lemma EmptyWindowIff(es: seq<Event>, key: string, now: real, max: int, window: real)
    requires Upto(es, now)
    ensures Admit(Run(es, max, window), key, now, max, window).1 == EmptyWindowError <==> max <= 0
  {
    Refines(es, key, now, max, window);
    if max <= 0 {
      NothingAdmitted(es, key, max, window);
    }
  }

  /** A clean-up keeps a key with its deque exactly if its last admission is at most two windows
      old. */
  lemma SweptIff(calls: Calls, now: real, window: real, key: string)
    ensures key in Sweep(calls, now, window)
            <==> key in calls && |calls[key]| > 0 && calls[key][|calls[key]| - 1] >= now - window - window
    ensures key in Sweep(calls, now, window) ==> Sweep(calls, now, window)[key] == calls[key]
  {
  }

  function CallsOnly(es: seq<Event>): seq<Event> {
    if es == [] then []
    else
      var rest := CallsOnly(es[..|es| - 1]);
      if es[|es| - 1].Call? then rest + [es[|es| - 1]] else rest
  }

  lemma {:induction false} HistoryIgnoresCleanup(es: seq<Event>, key: string, max: int, window: real)
    ensures Admitted(CallsOnly(es), key, max, window) == Admitted(es, key, max, window)
  {
    if es != [] {
      var front := es[..|es| - 1];
      HistoryIgnoresCleanup(front, key, max, window);
      if es[|es| - 1].Call? {
        assert CallsOnly(es)[..|CallsOnly(es)| - 1] == CallsOnly(front);
      }
    }
  }

  /** Two runs that differ only in where `Cleanup` happens give the same next answer. */
  lemma CleanupIsInvisible(es: seq<Event>, es': seq<Event>, key: string, now: real, max: int, window: real)
    requires Upto(es, now)
    requires Upto(es', now)
    requires CallsOnly(es) == CallsOnly(es')
    ensures Admit(Run(es, max, window), key, now, max, window).1
            == Admit(Run(es', max, window), key, now, max, window).1
  {
    Refines(es, key, now, max, window);
    Refines(es', key, now, max, window);
    HistoryIgnoresCleanup(es, key, max, window);
    HistoryIgnoresCleanup(es', key, max, window);
  }
}
