/** The circuit breaker of circuitbreaker.go, and what its sequential runs guarantee the protected operation. */
module Breakers {

  const SECOND: nat := 1_000_000_000
  const MIN_THRESHOLD: nat := 1
  const MAX_THRESHOLD: nat := 10_000
  const MIN_TIMEOUT: nat := 1_000_000
  const MAX_TIMEOUT: nat := 300 * SECOND
  const MIN_HALF_OPEN: nat := 1
  const MAX_HALF_OPEN: nat := 1_000

  datatype Mode = Closed | Open | HalfOpen

  datatype Limits = Limits(threshold: nat, timeout: nat, halfOpenMax: nat) {
    predicate Valid() {
      && MIN_THRESHOLD <= threshold <= MAX_THRESHOLD
      && MIN_TIMEOUT <= timeout <= MAX_TIMEOUT
      && MIN_HALF_OPEN <= halfOpenMax <= MAX_HALF_OPEN
    }
  }

  /** lastFailure is a UnixNano time, 0 when there has been no failure. */
  datatype Breaker = Breaker(mode: Mode, failureCount: nat, successCount: nat, lastFailure: int, healthy: bool)

  const FRESH := Breaker(Closed, 0, 0, 0, true)

  // ---- the pieces of one call -------------------------------------------------------------------

  predicate MayReset(l: Limits, b: Breaker, now: int) {
    b.lastFailure != 0 && now - b.lastFailure >= l.timeout
  }

  predicate Admits(l: Limits, b: Breaker, now: int) {
    match b.mode
    case Closed => true
    case Open => MayReset(l, b, now)
    case HalfOpen => b.successCount < l.halfOpenMax
  }

  function Probed(b: Breaker): Breaker {
    if b.mode.Open? then b.(mode := HalfOpen, successCount := 0) else b
  }

  function Failed(l: Limits, b: Breaker): Breaker {
    match b.mode
    case Closed =>
      if b.failureCount + 1 >= l.threshold then b.(failureCount := b.failureCount + 1, mode := Open, healthy := false)
      else b.(failureCount := b.failureCount + 1)
    case HalfOpen => b.(mode := Open, healthy := false)
    case Open => b
  }

  function Succeeded(l: Limits, b: Breaker): Breaker {
    match b.mode
    case Closed => b.(failureCount := 0)
    case HalfOpen =>
      if b.successCount + 1 >= l.halfOpenMax
      then b.(successCount := b.successCount + 1, mode := Closed, failureCount := 0, healthy := true)
      else b.(successCount := b.successCount + 1)
    case Open => b
  }

  function Recorded(l: Limits, b: Breaker, ok: bool, end: int): Breaker {
    if ok then Succeeded(l, b) else Failed(l, b.(lastFailure := end))
  }

  // ---- sequential runs --------------------------------------------------------------------------

  /** A call that arrives at `at` and, if admitted, ends at `end`, successfully or not. */
  datatype Call = Call(at: int, end: int, ok: bool)

  function AfterCall(l: Limits, b: Breaker, c: Call): Breaker {
    if !Admits(l, b, c.at) then b
    else Recorded(l, Probed(b), c.ok, c.end)
  }

  function AfterCalls(l: Limits, b: Breaker, calls: seq<Call>): Breaker
    decreases |calls|
  {
    if calls == [] then b else AfterCalls(l, AfterCall(l, b, calls[0]), calls[1..])
  }

  /** Which of the calls were let through. */
  function Decisions(l: Limits, b: Breaker, calls: seq<Call>): (admitted: seq<bool>)
    ensures |admitted| == |calls|
    decreases |calls|
  {
    if calls == [] then []
    else [Admits(l, b, calls[0].at)] + Decisions(l, AfterCall(l, b, calls[0]), calls[1..])
  }

  /** When the operations that were let through started. */
  function Starts(l: Limits, b: Breaker, calls: seq<Call>): seq<int>
    decreases |calls|
  {
    if calls == [] then []
    else (if Admits(l, b, calls[0].at) then [calls[0].at] else []) + Starts(l, AfterCall(l, b, calls[0]), calls[1..])
  }

  /** Calls one after another, none before `from`. */
  ghost predicate Sequential(calls: seq<Call>, from: int) {
    calls != [] ==> from <= calls[0].at <= calls[0].end && Sequential(calls[1..], calls[0].end)
  }

  ghost predicate AllFail(calls: seq<Call>) {
    forall c :: c in calls ==> !c.ok
  }

  // ---- load bound -------------------------------------------------------------------------------

  /** Each at least `gap` after the one before, the first not before `from`. */
  ghost predicate Spaced(starts: seq<int>, from: int, gap: nat) {
    starts != [] ==> from <= starts[0] && Spaced(starts[1..], starts[0] + gap, gap)
  }

  lemma {:induction false} SpacedFrom(starts: seq<int>, from: int, lower: int, gap: nat)
    requires Spaced(starts, from, gap) && lower <= from
    ensures Spaced(starts, lower, gap)
  {
  }

  /** Once open, operations start at least `timeout` after the last failure and after one another. */
  lemma {:induction false} StartsSpaced(l: Limits, b: Breaker, calls: seq<Call>, from: int)
    requires l.Valid() && b.mode.Open? && 0 < b.lastFailure <= from
    requires Sequential(calls, from) && AllFail(calls)
    ensures Spaced(Starts(l, b, calls), b.lastFailure + l.timeout, l.timeout)
    decreases |calls|
  {
    if calls != [] {
      var c := calls[0];
      var b' := AfterCall(l, b, c);
      assert c in calls && forall d :: d in calls[1..] ==> d in calls;
      StartsSpaced(l, b', calls[1..], c.end);
      var rest := Starts(l, b', calls[1..]);
      assert [] + rest == rest;
      if Admits(l, b, c.at) {
        SpacedFrom(rest, b'.lastFailure + l.timeout, c.at + l.timeout, l.timeout);
        assert Starts(l, b, calls)[1..] == rest;
      }
    }
  }

  function InWindow(starts: seq<int>, lo: int, hi: int): nat {
    if starts == [] then 0
    else (if lo <= starts[0] <= hi then 1 else 0) + InWindow(starts[1..], lo, hi)
  }

  /** One more start within the window leaves room for one gap more. */
  lemma OneMoreGap(n: nat, gap: int, first: int, end: int)
    requires n > 0 ==> (n - 1) * gap <= end - (first + gap)
    requires first <= end
    ensures n * gap <= end - first
  {
    if n > 0 {
      assert n * gap == (n - 1) * gap + gap;
    }
  }

  lemma {:induction false} WindowBound(starts: seq<int>, from: int, gap: nat, lo: int, hi: int)
    requires Spaced(starts, from, gap)
    ensures var n := InWindow(starts, lo, hi);
            n > 0 ==> (n - 1) * gap <= hi - lo && (n - 1) * gap <= hi - from
    decreases |starts|
  {
    if starts != [] {
      WindowBound(starts[1..], starts[0] + gap, gap, lo, hi);
      if lo <= starts[0] <= hi {
        OneMoreGap(InWindow(starts[1..], lo, hi), gap, starts[0], hi);
      }
    }
  }

  lemma NextGap(gap: int, width: int)
    requires gap > 0
    ensures (width / gap + 1) * gap > width
  {
    assert (width / gap + 1) * gap == width / gap * gap + gap;
  }

  /** More than width / gap gaps do not fit in a width. */
  lemma GapsFit(n: int, gap: int, width: int)
    requires gap > 0 && n * gap <= width
    ensures n <= width / gap
  {
    NextGap(gap, width);
    if n > width / gap {
      MoreGaps(n, width / gap + 1, gap);
    }
  }

  lemma MoreGaps(n: int, m: int, gap: int)
    requires m <= n && gap > 0
    ensures m * gap <= n * gap
  {
    assert n * gap - m * gap == (n - m) * gap;
  }

  lemma WindowCount(starts: seq<int>, from: int, gap: nat, lo: int, width: nat)
    requires gap > 0 && Spaced(starts, from, gap)
    ensures InWindow(starts, lo, lo + width) <= width / gap + 1
  {
    WindowBound(starts, from, gap, lo, lo + width);
    if InWindow(starts, lo, lo + width) > 0 {
      GapsFit(InWindow(starts, lo, lo + width) - 1, gap, width);
    }
  }

  /** However many calls arrive while everything fails, a window of length W after the trip sees at most
      W / timeout + 1 operations. */
  lemma LoadBound(l: Limits, b: Breaker, calls: seq<Call>, from: int, lo: int, width: nat)
    requires l.Valid() && b.mode.Open? && 0 < b.lastFailure <= from
    requires Sequential(calls, from) && AllFail(calls)
    ensures InWindow(Starts(l, b, calls), lo, lo + width) <= width / l.timeout + 1
  {
    StartsSpaced(l, b, calls, from);
    WindowCount(Starts(l, b, calls), b.lastFailure + l.timeout, l.timeout, lo, width);
  }

  /** The trip itself: a closed breaker opens at exactly the threshold-th consecutive failure, and not before. */
  lemma {:induction false} TripsAtThreshold(l: Limits, b: Breaker, calls: seq<Call>, from: int)
    requires l.Valid() && b.mode.Closed? && b.failureCount < l.threshold && 0 < from
    requires Sequential(calls, from) && AllFail(calls) && b.failureCount + |calls| <= l.threshold && calls != []
    ensures var b' := AfterCalls(l, b, calls);
            && b'.failureCount == b.failureCount + |calls|
            && b'.mode == (if b'.failureCount == l.threshold then Open else Closed)
            && b'.lastFailure == calls[|calls| - 1].end > 0
    ensures forall i :: 0 <= i < |calls| ==> Decisions(l, b, calls)[i]
    decreases |calls|
  {
    assert calls[0] in calls && forall d :: d in calls[1..] ==> d in calls;
    if |calls| > 1 {
      TripsAtThreshold(l, AfterCall(l, b, calls[0]), calls[1..], calls[0].end);
    } else {
      assert calls[1..] == [];
    }
  }

  lemma {:induction false} SequentialSuffix(calls: seq<Call>, from: int, k: nat)
    requires Sequential(calls, from) && 0 < k <= |calls|
    ensures Sequential(calls[k..], calls[k - 1].end)
    decreases |calls|
  {
    if k > 1 {
      SequentialSuffix(calls[1..], calls[0].end, k - 1);
      assert calls[1..][k - 1..] == calls[k..];
    }
  }

  /** A fresh breaker whose every operation fails: the first `threshold` calls all run and trip it,
      and from then on the load bound holds. */
  lemma FailingRun(l: Limits, calls: seq<Call>, from: int, lo: int, width: nat)
    requires l.Valid() && 0 < from && Sequential(calls, from) && AllFail(calls) && |calls| >= l.threshold
    ensures var tripped := AfterCalls(l, FRESH, calls[..l.threshold]);
            && tripped.mode.Open?
            && (forall i :: 0 <= i < l.threshold ==> Decisions(l, FRESH, calls[..l.threshold])[i])
            && InWindow(Starts(l, tripped, calls[l.threshold..]), lo, lo + width) <= width / l.timeout + 1
  {
    var k := l.threshold;
    SequentialPrefix(calls, from, k);
    SequentialSuffix(calls, from, k);
    TripsAtThreshold(l, FRESH, calls[..k], from);
    LoadBound(l, AfterCalls(l, FRESH, calls[..k]), calls[k..], calls[k - 1].end, lo, width);
  }

  lemma {:induction false} SequentialPrefix(calls: seq<Call>, from: int, k: nat)
    requires Sequential(calls, from) && k <= |calls|
    ensures Sequential(calls[..k], from)
    decreases |calls|
  {
    if k > 0 {
      SequentialPrefix(calls[1..], calls[0].end, k - 1);
      assert calls[1..][..k - 1] == calls[..k][1..];
    }
  }

  // ---- recovery ---------------------------------------------------------------------------------

  ghost predicate AllSucceed(calls: seq<Call>) {
    forall c :: c in calls ==> c.ok
  }

  /** A half-open breaker lets calls through as long as fewer than halfOpenMax have succeeded, and the halfOpenMax-th
      success closes it. */
  lemma {:induction false} HalfOpenRun(l: Limits, b: Breaker, calls: seq<Call>)
    requires b.mode.HalfOpen? && b.successCount < l.halfOpenMax && b.successCount + |calls| <= l.halfOpenMax
    requires AllSucceed(calls)
    ensures forall i :: 0 <= i < |calls| ==> Decisions(l, b, calls)[i]
    ensures var n := b.successCount + |calls|;
            AfterCalls(l, b, calls) == if n == l.halfOpenMax then Breaker(Closed, 0, n, b.lastFailure, true)
                                       else b.(successCount := n)
    decreases |calls|
  {
    if calls != [] {
      assert calls[0] in calls && forall d :: d in calls[1..] ==> d in calls;
      if |calls| > 1 {
        HalfOpenRun(l, AfterCall(l, b, calls[0]), calls[1..]);
      } else {
        assert calls[1..] == [];
      }
    }
  }

  /** The first k of the calls that end an open state. */
  lemma RecoversUpTo(l: Limits, b: Breaker, calls: seq<Call>, k: nat)
    requires l.Valid() && b.mode.Open? && b.lastFailure != 0 && 0 < k <= |calls| == l.halfOpenMax && AllSucceed(calls)
    requires calls[0].at >= b.lastFailure + l.timeout
    ensures forall i :: 0 <= i < k ==> Decisions(l, b, calls[..k])[i]
    ensures AfterCalls(l, b, calls[..k]) == if k == l.halfOpenMax then Breaker(Closed, 0, k, b.lastFailure, true)
                                            else b.(mode := HalfOpen, successCount := k)
  {
    var first, rest := calls[..k], calls[..k][1..];
    var b' := AfterCall(l, b, first[0]);
    assert first[0] in calls && forall d :: d in rest ==> d in calls;
    if k == l.halfOpenMax == 1 {
      assert rest == [];
    } else {
      HalfOpenRun(l, b', rest);
    }
  }

  /** What keeps too few calls from closing the breaker: each adds at most one success. */
  lemma {:induction false} TooFewToClose(l: Limits, b: Breaker, calls: seq<Call>)
    requires if b.mode.HalfOpen? then b.successCount + |calls| < l.halfOpenMax
             else b.mode.Open? && |calls| < l.halfOpenMax
    ensures !AfterCalls(l, b, calls).mode.Closed?
    decreases |calls|
  {
    if calls != [] {
      TooFewToClose(l, AfterCall(l, b, calls[0]), calls[1..]);
    }
  }

  lemma {:induction false} OneFailureTooMany(l: Limits, b: Breaker, calls: seq<Call>)
    requires if b.mode.HalfOpen? then b.successCount + |calls| == l.halfOpenMax
             else b.mode.Open? && |calls| == l.halfOpenMax
    requires !AllSucceed(calls)
    ensures !AfterCalls(l, b, calls).mode.Closed?
    decreases |calls|
  {
    if calls[0].ok && AfterCall(l, b, calls[0]).mode.HalfOpen? && AfterCall(l, b, calls[0]) != b {
      OneFailureTooMany(l, AfterCall(l, b, calls[0]), calls[1..]);
    } else {
      TooFewToClose(l, AfterCall(l, b, calls[0]), calls[1..]);
    }
  }

  /** An open breaker that has seen a failure, and halfOpenMax calls after one another: they close it if and only if
      the first comes no sooner than `timeout` after that failure and all succeed.  Then all are let through, and the
      breaker is half-open until the last. */
  lemma RecoversExactly(l: Limits, b: Breaker, calls: seq<Call>)
    requires l.Valid() && b.mode.Open? && b.lastFailure != 0 && |calls| == l.halfOpenMax
    ensures AfterCalls(l, b, calls).mode.Closed?
            <==> calls[0].at >= b.lastFailure + l.timeout && AllSucceed(calls)
    ensures AfterCalls(l, b, calls).mode.Closed? ==>
              && AfterCalls(l, b, calls) == Breaker(Closed, 0, l.halfOpenMax, b.lastFailure, true)
              && (forall i :: 0 <= i < |calls| ==> Decisions(l, b, calls)[i])
              && forall k :: 0 < k < |calls| ==> AfterCalls(l, b, calls[..k]).mode.HalfOpen?
  {
    if !AllSucceed(calls) {
      OneFailureTooMany(l, b, calls);
    } else if calls[0].at < b.lastFailure + l.timeout {
      TooFewToClose(l, b, calls[1..]);
    } else {
      forall k | 0 < k < |calls| ensures AfterCalls(l, b, calls[..k]).mode.HalfOpen? {
        RecoversUpTo(l, b, calls, k);
      }
      RecoversUpTo(l, b, calls, |calls|);
      assert calls[..|calls|] == calls;
    }
  }

  /** A failure on the way, after fewer successes than it takes: every call was let through, and the breaker is open
      again, to be left alone for another `timeout` from that failure. */
  lemma Relapses(l: Limits, b: Breaker, calls: seq<Call>, last: Call)
    requires l.Valid() && b.mode.Open? && b.lastFailure != 0 && |calls| < l.halfOpenMax && AllSucceed(calls) && !last.ok
    requires (calls + [last])[0].at >= b.lastFailure + l.timeout
    ensures forall i :: 0 <= i <= |calls| ==> Decisions(l, b, calls + [last])[i]
    ensures var b' := AfterCalls(l, b, calls + [last]);
            b'.mode.Open? && b'.lastFailure == last.end && !b'.healthy
  {
    if calls == [] {
      assert (calls + [last])[1..] == [];
    } else {
      var b1, rest := AfterCall(l, b, calls[0]), calls[1..];
      assert calls[0] in calls && forall d :: d in rest ==> d in calls;
      HalfOpenRun(l, b1, rest);
      CallsThen(l, b1, rest, last);
      assert (calls + [last])[1..] == rest + [last];
    }
  }

  lemma {:induction false} CallsThen(l: Limits, b: Breaker, calls: seq<Call>, last: Call)
    ensures AfterCalls(l, b, calls + [last]) == AfterCall(l, AfterCalls(l, b, calls), last)
    ensures Decisions(l, b, calls + [last])
            == Decisions(l, b, calls) + [Admits(l, AfterCalls(l, b, calls), last.at)]
    decreases |calls|
  {
    if calls == [] {
      assert (calls + [last])[1..] == [];
    } else {
      CallsThen(l, AfterCall(l, b, calls[0]), calls[1..], last);
      assert (calls + [last])[1..] == calls[1..] + [last];
    }
  }

  // ---- the object -------------------------------------------------------------------------------

  /** How an admitted operation ends: `Panicked` and `TimedOut` are recorded as failures. */
  datatype Outcome = Succeeds | Errs | Panicked | TimedOut

  /** What the caller sees.  A panic recovered by Execute returns nil; a call with no operation, or with a context that
      is already done, is refused. */
  datatype Answer = Refused | RejectedOpen | Nil | Err

  /** The context given to ExecuteWithContext, if any, when the call arrives. */
  datatype Context = NoContext | Live | Dead

  class CircuitBreaker {
    const l: Limits
    var mode: Mode
    var failureCount: nat
    var successCount: nat
    var lastFailure: int
    var healthy: bool
    var totalRequests: nat
    var totalFailures: nat
    var totalSuccesses: nat
    var totalTimeouts: nat
    var totalPanics: nat

    ghost function Contents(): Breaker
      reads this
    {
      Breaker(mode, failureCount, successCount, lastFailure, healthy)
    }

    constructor (l: Limits)
      requires l.Valid()
      ensures this.l == l && Contents() == FRESH
      ensures totalRequests == totalFailures == totalSuccesses == totalTimeouts == totalPanics == 0
    {
      this.l := l;
      mode, failureCount, successCount, lastFailure, healthy := Closed, 0, 0, 0, true;
      totalRequests, totalFailures, totalSuccesses, totalTimeouts, totalPanics := 0, 0, 0, 0, 0;
    }

    method CheckCircuitState(now: int) returns (admitted: bool)
      modifies this`mode, this`successCount
      ensures admitted == Admits(l, old(Contents()), now)
      ensures Contents() == if admitted then Probed(old(Contents())) else old(Contents())
    {
      match mode
      case Open =>
        admitted := lastFailure != 0 && now - lastFailure >= l.timeout;
        if admitted {
          mode, successCount := HalfOpen, 0;
        }
      case HalfOpen => admitted := successCount < l.halfOpenMax;
      case Closed => admitted := true;
    }

    method RecordFailure(now: int)
      modifies this`mode, this`failureCount, this`lastFailure, this`healthy, this`totalFailures
      ensures Contents() == Failed(l, old(Contents()).(lastFailure := now))
      ensures totalFailures == old(totalFailures) + 1
    {
      totalFailures, lastFailure := totalFailures + 1, now;
      match mode
      case Closed =>
        failureCount := failureCount + 1;
        if failureCount >= l.threshold {
          mode, healthy := Open, false;
        }
      case HalfOpen => mode, healthy := Open, false;
      case Open =>
    }

    method RecordSuccess()
      modifies this`mode, this`failureCount, this`successCount, this`healthy, this`totalSuccesses
      ensures Contents() == Succeeded(l, old(Contents()))
      ensures totalSuccesses == old(totalSuccesses) + 1
    {
      totalSuccesses := totalSuccesses + 1;
      match mode
      case Closed => failureCount := 0;
      case HalfOpen =>
        successCount := successCount + 1;
        if successCount >= l.halfOpenMax {
          mode, failureCount, healthy := Closed, 0, true;
        }
      case Open =>
    }

    /** Execute (context None) and ExecuteWithContext, whose context may be done before the call: a refused call changes
        nothing, and every admitted call is recorded exactly once. */
    method Execute(now: int, outcome: Outcome, end: int, context: Context, hasOperation: bool) returns (answer: Answer)
      requires outcome.TimedOut? ==> !context.NoContext?
      modifies this
      ensures answer.Refused? <==> !hasOperation || context.Dead?
      ensures answer.Refused? ==>
                && Contents() == old(Contents()) && totalRequests == old(totalRequests)
                && totalFailures == old(totalFailures) && totalSuccesses == old(totalSuccesses)
                && totalTimeouts == old(totalTimeouts) && totalPanics == old(totalPanics)
      ensures !answer.Refused? ==> totalRequests == old(totalRequests) + 1
      ensures !answer.Refused? ==> Contents() == AfterCall(l, old(Contents()), Call(now, end, outcome.Succeeds?))
      ensures !answer.Refused? ==>
                (answer.RejectedOpen? <==>
                   || (old(mode).Open? && (old(lastFailure) == 0 || now < old(lastFailure) + l.timeout))
                   || (old(mode).HalfOpen? && l.halfOpenMax <= old(successCount)))
      ensures answer.Nil? || answer.Err? ==>
                && (answer.Nil? <==> outcome.Succeeds? || (outcome.Panicked? && context.NoContext?))
                && totalSuccesses == old(totalSuccesses) + (if outcome.Succeeds? then 1 else 0)
                && totalFailures == old(totalFailures) + (if outcome.Succeeds? then 0 else 1)
                && totalTimeouts == old(totalTimeouts) + (if outcome.TimedOut? then 1 else 0)
                && totalPanics == old(totalPanics) + (if outcome.Panicked? then 1 else 0)
      ensures answer.RejectedOpen? ==>
                && totalFailures == old(totalFailures) && totalSuccesses == old(totalSuccesses)
                && totalTimeouts == old(totalTimeouts) && totalPanics == old(totalPanics)
    {
      if !hasOperation || context.Dead? {
        return Refused;
      }
      totalRequests := totalRequests + 1;
      var admitted := CheckCircuitState(now);
      if !admitted {
        return RejectedOpen;
      }
      match outcome
      case Succeeds =>
        RecordSuccess();
        return Nil;
      case Errs =>
        RecordFailure(end);
        return Err;
      case Panicked =>
        totalPanics := totalPanics + 1;
        RecordFailure(end);
        return if context.NoContext? then Nil else Err;
      case TimedOut =>
        totalTimeouts := totalTimeouts + 1;
        RecordFailure(end);
        return Err;
    }

    method ForceOpen()
      modifies this`mode, this`healthy
      ensures Contents() == old(Contents()).(mode := Open, healthy := false)
    {
      mode, healthy := Open, false;
    }

    /** ForceClose and Reset. */
    method Reset()
      modifies this
      ensures Contents() == FRESH
      ensures totalRequests == totalFailures == totalSuccesses == totalTimeouts == totalPanics == 0
    {
      mode, failureCount, successCount, lastFailure, healthy := Closed, 0, 0, 0, true;
      totalRequests, totalFailures, totalSuccesses, totalTimeouts, totalPanics := 0, 0, 0, 0, 0;
    }
  }
}
