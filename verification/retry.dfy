/** The three retry loops of retry.go refine one specification. */
module Retries {
  import opened Backoff

  datatype Option<+T> = None | Some(value: T)

  datatype Result<+T> = Ok(value: T) | Err(error: ErrorId)

  /** The concrete type of an error: that of errors.New, that of fmt.Errorf with two %w, or another. */
  datatype Kind = Plain | Joined | Other(name: string)

  /** Everything outside the loop: what each call returns and how long it takes, what calculateDelay returns after each
      attempt, when the caller's context is done, how a wait ends when both channels are ready, errors.Is, and the
      concrete types of the errors. */
  datatype World<T> = World(outcome: nat -> Result<T>, takes: nat -> nat, delay: nat -> nat,
                            cancelAt: Option<int>, tieCancels: nat -> bool, isA: (ErrorId, ErrorId) -> bool,
                            kindOf: ErrorId -> Kind)

  datatype End<+T> = Success(value: T) | NotRetryable(error: ErrorId) | Cancelled | Exhausted(last: ErrorId)
                   | InvalidPolicy | InvalidOperation

  /** A finished run: when the operation was called, the waits that were begun, whether it was the check before an
      attempt that saw the cancellation, and how it ended. */
  datatype History<+T> = History(calls: seq<int>, delays: seq<int>, atCheck: bool, end: End<T>)

  predicate Retryable<T>(p: Policy, w: World<T>, error: ErrorId) {
    p.retryable == [] || exists i :: 0 <= i < |p.retryable| && w.isA(error, p.retryable[i])
  }

  function Earlier(a: Option<int>, b: Option<int>): Option<int> {
    if a.None? then b else if b.None? || a.value <= b.value then a else b
  }

  /** Does a wait from `from` to `due` end in cancellation, when the context is done at `done`? */
  predicate WaitCancelled(done: Option<int>, from: int, due: int, tie: bool) {
    done.Some? && done.value <= due && ((done.value < due && from < due) || tie)
  }

  /** One turn of the loop: it ends the run, or goes on after a wait until `due`. */
  datatype Turn<+T> = Stop(h: History<T>) | GoOn(delay: int, due: int, deadline: Option<int>)

  function OneTurn<T>(p: Policy, w: World<T>, k: nat, now: int, deadline: Option<int>): Turn<T> {
    var done := Earlier(w.cancelAt, deadline);
    if done.Some? && done.value <= now then Stop(History([], [], true, Cancelled))
    else
      var deadline' := if p.timeout > 0 && deadline.None? then Some(now + p.timeout) else deadline;
      match w.outcome(k)
      case Ok(v) => Stop(History([now], [], false, Success(v)))
      case Err(error) => AfterFailure(p, w, k, now, deadline', error)
  }

  /** What follows a call made at `now`, under this deadline, that failed. */
  function AfterFailure<T>(p: Policy, w: World<T>, k: nat, now: int, deadline: Option<int>, error: ErrorId): Turn<T> {
    if !Retryable(p, w, error) then Stop(History([now], [], false, NotRetryable(error)))
    else if k == p.maxAttempts - 1 then Stop(History([now], [], false, Exhausted(error)))
    else
      var after, delay := now + w.takes(k), w.delay(k);
      if WaitCancelled(Earlier(w.cancelAt, deadline), after, after + delay, w.tieCancels(k))
      then Stop(History([now], [delay], false, Cancelled))
      else GoOn(delay, after + delay, deadline)
  }

  /** `before` is what a run has done so far, `h` what is still to come. */
  function Prepend<T>(calls: seq<int>, delays: seq<int>, h: History<T>): History<T> {
    History(calls + h.calls, delays + h.delays, h.atCheck, h.end)
  }

  /** The specification, from attempt k on: one deadline, fixed when the first attempt starts. */
  function Spec<T>(p: Policy, w: World<T>, k: nat, now: int, deadline: Option<int>): History<T>
    requires k < p.maxAttempts
    decreases p.maxAttempts - k
  {
    match OneTurn(p, w, k, now, deadline)
    case Stop(h) => h
    case GoOn(delay, due, deadline') => Prepend([now], [delay], Spec(p, w, k + 1, due, deadline'))
  }

  /** A run of the whole loop, with its checks of the arguments. */
  function RunOf<T>(p: Policy, w: World<T>, now: int, hasOperation: bool): History<T> {
    if !ValidPolicy(p) then History([], [], false, InvalidPolicy)
    else if !hasOperation then History([], [], false, InvalidOperation)
    else Spec(p, w, 0, now, None)
  }

  // ---- what the specification says --------------------------------------------------------------

  /** A bad policy or a missing operation is refused before anything is called, and nothing else is. */
  lemma ArgumentsChecked<T>(p: Policy, w: World<T>, now: int, hasOperation: bool)
    ensures var h := RunOf(p, w, now, hasOperation);
            && (h.end.InvalidPolicy? <==> !ValidPolicy(p))
            && (h.end.InvalidOperation? <==> ValidPolicy(p) && !hasOperation)
            && (h.end.InvalidPolicy? || h.end.InvalidOperation? ==> h.calls == [] && h.delays == [])
  {
    if ValidPolicy(p) && hasOperation {
      SpecExplained(p, w, 0, now, None);
    }
  }

  ghost predicate FailsRetryably<T>(p: Policy, w: World<T>, i: nat) {
    w.outcome(i).Err? && Retryable(p, w, w.outcome(i).error)
  }

  /** The run from attempt k on makes its calls one after another; all but the last fail retryably; and the last one,
      the attempts running out, or a cancellation decides how it ends. */
  ghost predicate Explained<T>(p: Policy, w: World<T>, k: nat, h: History<T>) {
    var n := k + |h.calls|;
    && n <= p.maxAttempts
    && match h.end
       case Success(v) => n > k && w.outcome(n - 1) == Ok(v) && forall i :: k <= i < n - 1 ==> FailsRetryably(p, w, i)
       case NotRetryable(e) =>
         n > k && w.outcome(n - 1) == Err(e) && !Retryable(p, w, e) && forall i :: k <= i < n - 1 ==>
             FailsRetryably(p, w, i)
       case Exhausted(e) =>
         n == p.maxAttempts && n > k && w.outcome(n - 1) == Err(e) && forall i :: k <= i < n ==> FailsRetryably(p, w, i)
       case Cancelled => forall i :: k <= i < n ==> FailsRetryably(p, w, i)
       case _ => false
  }

  lemma {:induction false} SpecExplained<T>(p: Policy, w: World<T>, k: nat, now: int, deadline: Option<int>)
    requires k < p.maxAttempts
    ensures Explained(p, w, k, Spec(p, w, k, now, deadline))
    decreases p.maxAttempts - k
  {
    var turn := OneTurn(p, w, k, now, deadline);
    if turn.GoOn? {
      SpecExplained(p, w, k + 1, turn.due, turn.deadline);
      assert FailsRetryably(p, w, k);
    }
  }

  /** No call starts once the context is done: neither after the caller's cancellation nor after the one deadline. */
  lemma {:induction false} SpecCallsInTime<T>(p: Policy, w: World<T>, k: nat, now: int, deadline: Option<int>, i: nat)
    requires k < p.maxAttempts && i < |Spec(p, w, k, now, deadline).calls|
    ensures var calls := Spec(p, w, k, now, deadline).calls;
            && (w.cancelAt.Some? ==> calls[i] < w.cancelAt.value)
            && (deadline.Some? ==> calls[i] < deadline.value)
            && (i > 0 && p.timeout > 0 && deadline.None? ==> calls[i] < calls[0] + p.timeout)
    decreases p.maxAttempts - k
  {
    var turn := OneTurn(p, w, k, now, deadline);
    if turn.GoOn? && i > 0 {
      SpecCallsInTime(p, w, k + 1, turn.due, turn.deadline, i - 1);
    }
  }

  /** The waits are the delays of the policy, one after each failed call but the last, or one more when cancelled. */
  lemma {:induction false} SpecWaits<T>(p: Policy, w: World<T>, k: nat, now: int, deadline: Option<int>)
    requires k < p.maxAttempts
    ensures var h := Spec(p, w, k, now, deadline);
            && (forall i :: 0 <= i < |h.delays| ==> h.delays[i] == w.delay(k + i))
            && |h.delays| == (if h.end.Cancelled? then |h.calls| else |h.calls| - 1)
            && |h.delays| <= p.maxAttempts - 1 - k
    decreases p.maxAttempts - k
  {
    var turn := OneTurn(p, w, k, now, deadline);
    if turn.GoOn? {
      SpecWaits(p, w, k + 1, turn.due, turn.deadline);
    }
  }

  /** When the wait after call i of a run from attempt k on is over, if nothing cuts it off. */
  function WaitEnds<T>(w: World<T>, k: nat, calls: seq<int>, i: nat): int
    requires i < |calls|
  {
    calls[i] + w.takes(k + i) + w.delay(k + i)
  }

  /** The first call is made at once, and each further one when the call before it has failed and its wait is over. */
  lemma {:induction false} SpecTimes<T>(p: Policy, w: World<T>, k: nat, now: int, deadline: Option<int>, i: nat)
    requires k < p.maxAttempts && i < |Spec(p, w, k, now, deadline).calls|
    ensures var calls := Spec(p, w, k, now, deadline).calls;
            calls[i] == if i == 0 then now else WaitEnds(w, k, calls, i - 1)
    decreases p.maxAttempts - k
  {
    var turn := OneTurn(p, w, k, now, deadline);
    if turn.GoOn? && i > 0 {
      SpecTimes(p, w, k + 1, turn.due, turn.deadline, i - 1);
    }
  }

  /** The context is done by then: through the caller, or through the deadline, which the first call sets if there is a
      timeout and no deadline yet. */
  predicate DoneBy<T>(p: Policy, w: World<T>, deadline: Option<int>, calls: seq<int>, t: int) {
    || (w.cancelAt.Some? && w.cancelAt.value <= t)
    || (deadline.Some? && deadline.value <= t)
    || (deadline.None? && p.timeout > 0 && calls != [] && calls[0] + p.timeout <= t)
  }

  /** When a run that is cancelled sees it: at the end of its last wait at the latest. */
  function SeenBy<T>(w: World<T>, k: nat, now: int, calls: seq<int>): int {
    if calls == [] then now else WaitEnds(w, k, calls, |calls| - 1)
  }

  /** If such a run is cancelled, the context is done by the end of its last wait.  It is the check before an attempt
      that sees this only if no call was made or that wait ended too soon for its own channel to win; and it is the
      wait otherwise, or if it happens to win a tie. */
  ghost predicate RightlyCancelled<T>(p: Policy, w: World<T>, k: nat, now: int, deadline: Option<int>, h: History<T>) {
    h.end.Cancelled? ==>
      var seen := SeenBy(w, k, now, h.calls);
      && DoneBy(p, w, deadline, h.calls, seen)
      && (h.calls == [] ==> h.atCheck)
      && (h.calls != [] ==>
            var inTime := w.delay(k + |h.calls| - 1) > 0 && DoneBy(p, w, deadline, h.calls, seen - 1);
            && (h.atCheck ==> !inTime)
            && (!h.atCheck ==> inTime || w.tieCancels(k + |h.calls| - 1)))
  }

  lemma StopCancelled<T>(p: Policy, w: World<T>, k: nat, now: int, deadline: Option<int>)
    requires k < p.maxAttempts && OneTurn(p, w, k, now, deadline).Stop?
    ensures RightlyCancelled(p, w, k, now, deadline, OneTurn(p, w, k, now, deadline).h)
  {
  }

  /** The deadline that a turn leaves is the one that counts afterwards. */
  lemma SameDeadline<T>(p: Policy, w: World<T>, k: nat, now: int, deadline: Option<int>, calls: seq<int>, t: int)
    requires OneTurn(p, w, k, now, deadline).GoOn?
    ensures DoneBy(p, w, OneTurn(p, w, k, now, deadline).deadline, calls, t)
            <==> DoneBy(p, w, deadline, [now] + calls, t)
  {
  }

  lemma GoOnCancelled<T>(p: Policy, w: World<T>, k: nat, now: int, deadline: Option<int>, rest: History<T>)
    requires k < p.maxAttempts && OneTurn(p, w, k, now, deadline).GoOn?
    requires var turn := OneTurn(p, w, k, now, deadline);
             RightlyCancelled(p, w, k + 1, turn.due, turn.deadline, rest)
    ensures RightlyCancelled(p, w, k, now, deadline,
                             Prepend([now], [OneTurn(p, w, k, now, deadline).delay], rest))
  {
    var turn := OneTurn(p, w, k, now, deadline);
    var calls, seen := [now] + rest.calls, SeenBy(w, k + 1, turn.due, rest.calls);
    assert seen == SeenBy(w, k, now, calls);
    SameDeadline(p, w, k, now, deadline, rest.calls, seen);
    SameDeadline(p, w, k, now, deadline, rest.calls, seen - 1);
  }

  lemma {:induction false} SpecCancelled<T>(p: Policy, w: World<T>, k: nat, now: int, deadline: Option<int>)
    requires k < p.maxAttempts
    ensures RightlyCancelled(p, w, k, now, deadline, Spec(p, w, k, now, deadline))
    decreases p.maxAttempts - k
  {
    var turn := OneTurn(p, w, k, now, deadline);
    if turn.GoOn? {
      SpecCancelled(p, w, k + 1, turn.due, turn.deadline);
      GoOnCancelled(p, w, k, now, deadline, Spec(p, w, k + 1, turn.due, turn.deadline));
    } else {
      StopCancelled(p, w, k, now, deadline);
    }
  }

  /** And every wait that another call follows ended before the context was done. */
  lemma SpecUncancelled<T>(p: Policy, w: World<T>, k: nat, now: int, deadline: Option<int>, i: nat)
    requires k < p.maxAttempts && i + 1 < |Spec(p, w, k, now, deadline).calls|
    ensures var calls := Spec(p, w, k, now, deadline).calls;
            !DoneBy(p, w, deadline, calls, WaitEnds(w, k, calls, i))
  {
    SpecTimes(p, w, k, now, deadline, i + 1);
    SpecCallsInTime(p, w, k, now, deadline, i + 1);
  }

  /** calculateDelay answers with delays of this policy. */
  ghost predicate PolicyDelays<T>(p: Policy, w: World<T>) {
    forall k: nat :: IsDelay(p, k, w.delay(k))
  }

  lemma WaitsPlanned<T>(p: Policy, w: World<T>, now: int)
    requires ValidPolicy(p) && PolicyDelays(p, w)
    ensures Planned(p, RunOf(p, w, now, true).delays) && |RunOf(p, w, now, true).delays| <= p.maxAttempts - 1
  {
    SpecWaits(p, w, 0, now, None);
  }

  /** All waits of a run together take at most (MaxAttempts - 1) * MaxDelay * (1 + JitterPercent / 100). */
  lemma RunWaitBound<T>(p: Policy, w: World<T>, now: int, n: nat, longest: real)
    requires ValidPolicy(p) && PolicyDelays(p, w) && longest >= Longest(p) && n == p.maxAttempts - 1
    ensures Total(RunOf(p, w, now, true).delays) as real <= n as real * longest
  {
    WaitsPlanned(p, w, now);
    TotalAtMost(p, RunOf(p, w, now, true).delays, n, longest);
  }

  // ---- the loops --------------------------------------------------------------------------------

  /** When a chain of nested timeouts is done. */
  function Soonest(chain: seq<int>): Option<int> {
    if chain == [] then None else Earlier(Soonest(chain[..|chain| - 1]), Some(chain[|chain| - 1]))
  }

  /** A chain of timeouts, each set no earlier than the first: only the first counts. */
  ghost predicate Nested(chain: seq<int>, latest: int) {
    chain != [] ==> Soonest(chain) == Some(chain[0]) && chain[0] <= latest
  }

  /** context.WithTimeout around a context that may already have timeouts. */
  method Wrap(chain: seq<int>, t: int) returns (chain': seq<int>)
    requires Nested(chain, t)
    ensures Nested(chain', t) && Soonest(chain') == if chain == [] then Some(t) else Soonest(chain)
    ensures chain' != []
  {
    assert (chain + [t])[..|chain|] == chain;
    chain' := chain + [t];
  }

  /** A loop that has made `calls` and waited `delays`, and stands before attempt k, is on the specified run. */
  ghost predicate OnCourse<T>(p: Policy, w: World<T>, start: int, calls: seq<int>, delays: seq<int>, k: nat, now: int,
                              deadline: Option<int>)
    requires 0 <= k < p.maxAttempts
  {
    Spec(p, w, 0, start, None) == Prepend(calls, delays, Spec(p, w, k, now, deadline))
  }

  lemma Stays<T>(p: Policy, w: World<T>, start: int, calls: seq<int>, delays: seq<int>, k: nat, now: int,
                 deadline: Option<int>)
    requires k < p.maxAttempts - 1 && OnCourse(p, w, start, calls, delays, k, now, deadline)
    requires OneTurn(p, w, k, now, deadline).GoOn?
    ensures var turn := OneTurn(p, w, k, now, deadline);
            OnCourse(p, w, start, calls + [now], delays + [turn.delay], k + 1, turn.due, turn.deadline)
  {
    var turn := OneTurn(p, w, k, now, deadline);
    var rest := Spec(p, w, k + 1, turn.due, turn.deadline);
    assert calls + ([now] + rest.calls) == (calls + [now]) + rest.calls;
    assert delays + ([turn.delay] + rest.delays) == (delays + [turn.delay]) + rest.delays;
  }

  lemma Arrives<T>(p: Policy, w: World<T>, start: int, calls: seq<int>, delays: seq<int>, k: nat, now: int,
                   deadline: Option<int>)
    requires k < p.maxAttempts && OnCourse(p, w, start, calls, delays, k, now, deadline)
    requires OneTurn(p, w, k, now, deadline).Stop?
    ensures Spec(p, w, 0, start, None) == Prepend(calls, delays, OneTurn(p, w, k, now, deadline).h)
  {
  }

  method IsRetryableError<T>(p: Policy, w: World<T>, error: ErrorId) returns (r: bool)
    ensures r == Retryable(p, w, error)
    ensures r <==> |p.retryable| == 0 || exists i :: 0 <= i < |p.retryable| && w.isA(error, p.retryable[i])
  {
    if |p.retryable| == 0 {
      return true;
    }
    for i := 0 to |p.retryable|
      invariant forall j :: 0 <= j < i ==> !w.isA(error, p.retryable[j])
    {
      if w.isA(error, p.retryable[i]) {
        return true;
      }
    }
    r := false;
  }

  /** How the caller of RetryWithContext sees an end. */
  function Forget<T>(end: End<T>): (seen: End<()>)
    ensures (seen.Success? <==> end.Success?) && (seen.Cancelled? <==> end.Cancelled?)
    ensures (seen.NotRetryable? <==> end.NotRetryable?) && (seen.NotRetryable? ==> seen.error == end.error)
    ensures (seen.Exhausted? <==> end.Exhausted?) && (seen.Exhausted? ==> seen.last == end.last)
    ensures (seen.InvalidPolicy? <==> end.InvalidPolicy?) && (seen.InvalidOperation? <==> end.InvalidOperation?)
  {
    match end
    case Success(_) => Success(())
    case NotRetryable(e) => NotRetryable(e)
    case Cancelled => Cancelled
    case Exhausted(e) => Exhausted(e)
    case InvalidPolicy => InvalidPolicy
    case InvalidOperation => InvalidOperation
  }

  /** What a turn did: its calls and its waits. */
  function CallsOf<T>(turn: Turn<T>, now: int): seq<int> {
    if turn.Stop? then turn.h.calls else [now]
  }

  function DelaysOf<T>(turn: Turn<T>): seq<int> {
    if turn.Stop? then turn.h.delays else [turn.delay]
  }

  /** The body of RetryWithContext's loop; `stop` is the loop's return, if this is the last time round. */
  method TurnOfRetry<T>(p: Policy, w: World<T>, k: nat, now: int, chain: seq<int>)
    returns (stop: Option<End<()>>, after: int, chain': seq<int>, ghost calls: seq<int>, ghost delays: seq<int>)
    requires k < p.maxAttempts && Nested(chain, now + p.timeout)
    ensures var turn := OneTurn(p, w, k, now, Soonest(chain));
            && calls == CallsOf(turn, now) && delays == DelaysOf(turn)
            && stop == (if turn.Stop? then Some(Forget(turn.h.end)) else None)
            && (turn.GoOn? ==>
               after == turn.due && Soonest(chain') == turn.deadline && Nested(chain', after + p.timeout))
  {
    after, chain', calls, delays := now, chain, [], [];
    var done := Earlier(w.cancelAt, Soonest(chain));
    if done.Some? && done.value <= now {
      stop := Some(Cancelled);
      return;
    }
    calls := [now];
    if p.timeout > 0 {
      chain' := Wrap(chain, now + p.timeout);
    }
    after := now + w.takes(k);
    if w.outcome(k).Ok? {
      stop := Some(Success(()));
      return;
    }
    var err := w.outcome(k).error;
    var again := IsRetryableError(p, w, err);
    if !again {
      stop := Some(NotRetryable(err));
    } else if k == p.maxAttempts - 1 {
      stop := Some(Exhausted(err));
    } else {
      delays := [w.delay(k)];
      var due := after + w.delay(k);
      stop := if WaitCancelled(Earlier(w.cancelAt, Soonest(chain')), after, due, w.tieCancels(k)) then Some(Cancelled)
          else None;
      after := due;
    }
  }

  /** RetryWithContext: only whether and how it failed comes back. */
  method RetryWithContext<T>(p: Policy, w: World<T>, start: int, hasOperation: bool)
    returns (end: End<()>, ghost calls: seq<int>, ghost delays: seq<int>)
    ensures end == Forget(RunOf(p, w, start, hasOperation).end)
    ensures calls == RunOf(p, w, start, hasOperation).calls && delays == RunOf(p, w, start, hasOperation).delays
  {
    calls, delays := [], [];
    if !ValidPolicy(p) {
      return InvalidPolicy, [], [];
    } else if !hasOperation {
      return InvalidOperation, [], [];
    }
    var now, chain, attempt := start, [], 0;
    while attempt < p.maxAttempts
      invariant 0 <= attempt < p.maxAttempts && Nested(chain, now + p.timeout)
      invariant OnCourse(p, w, start, calls, delays, attempt, now, Soonest(chain))
    {
      ghost var turn := OneTurn(p, w, attempt, now, Soonest(chain));
      if turn.GoOn? {
        Stays(p, w, start, calls, delays, attempt, now, Soonest(chain));
      } else {
        Arrives(p, w, start, calls, delays, attempt, now, Soonest(chain));
      }
      var stop;
      ghost var called, waited;
      stop, now, chain, called, waited := TurnOfRetry(p, w, attempt, now, chain);
      calls, delays := calls + called, delays + waited;
      if stop.Some? {
        return stop.value, calls, delays;
      }
      attempt := attempt + 1;
    }
  }

  /** How the caller of RetryWithResultAndContext sees an end: a result, or the zero value and an error. */
  datatype Returned<T> = Returned(value: T, error: End<()>)

  function AsReturned<T>(zero: T, end: End<T>): Returned<T> {
    Returned(if end.Success? then end.value else zero, Forget(end))
  }

  /** The body of RetryWithResultAndContext's loop. */
  method TurnOfRetryWithResult<T>(p: Policy, w: World<T>, zero: T, k: nat, now: int, chain: seq<int>)
    returns (stop: Option<Returned<T>>, after: int, chain': seq<int>, ghost calls: seq<int>, ghost delays: seq<int>)
    requires k < p.maxAttempts && Nested(chain, now + p.timeout)
    ensures var turn := OneTurn(p, w, k, now, Soonest(chain));
            && calls == CallsOf(turn, now) && delays == DelaysOf(turn)
            && stop == (if turn.Stop? then Some(AsReturned(zero, turn.h.end)) else None)
            && (turn.GoOn? ==>
               after == turn.due && Soonest(chain') == turn.deadline && Nested(chain', after + p.timeout))
  {
    after, chain', calls, delays := now, chain, [], [];
    var done := Earlier(w.cancelAt, Soonest(chain));
    if done.Some? && done.value <= now {
      stop := Some(Returned(zero, Cancelled));
      return;
    }
    calls := [now];
    if p.timeout > 0 {
      chain' := Wrap(chain, now + p.timeout);
    }
    after := now + w.takes(k);
    match w.outcome(k)
    case Ok(result) => stop := Some(Returned(result, Success(())));
    case Err(err) =>
      var again := IsRetryableError(p, w, err);
      if !again {
        stop := Some(Returned(zero, NotRetryable(err)));
      } else if k == p.maxAttempts - 1 {
        stop := Some(Returned(zero, Exhausted(err)));
      } else {
        delays := [w.delay(k)];
        var due := after + w.delay(k);
        stop := if WaitCancelled(Earlier(w.cancelAt, Soonest(chain')), after, due, w.tieCancels(k))
                then Some(Returned(zero, Cancelled)) else None;
        after := due;
      }
  }

  method RetryWithResultAndContext<T>(p: Policy, w: World<T>, zero: T, start: int, hasOperation: bool)
    returns (r: Returned<T>, ghost calls: seq<int>, ghost delays: seq<int>)
    ensures r.error == Forget(RunOf(p, w, start, hasOperation).end)
    ensures r.value == match RunOf(p, w, start, hasOperation).end case Success(v) => v case _ => zero
    ensures calls == RunOf(p, w, start, hasOperation).calls && delays == RunOf(p, w, start, hasOperation).delays
  {
    calls, delays := [], [];
    if !ValidPolicy(p) {
      return Returned(zero, InvalidPolicy), [], [];
    } else if !hasOperation {
      return Returned(zero, InvalidOperation), [], [];
    }
    var now, chain, attempt := start, [], 0;
    while attempt < p.maxAttempts
      invariant 0 <= attempt < p.maxAttempts && Nested(chain, now + p.timeout)
      invariant OnCourse(p, w, start, calls, delays, attempt, now, Soonest(chain))
    {
      ghost var turn := OneTurn(p, w, attempt, now, Soonest(chain));
      if turn.GoOn? {
        Stays(p, w, start, calls, delays, attempt, now, Soonest(chain));
      } else {
        Arrives(p, w, start, calls, delays, attempt, now, Soonest(chain));
      }
      var stop;
      ghost var called, waited;
      stop, now, chain, called, waited := TurnOfRetryWithResult(p, w, zero, attempt, now, chain);
      calls, delays := calls + called, delays + waited;
      if stop.Some? {
        return stop.value, calls, delays;
      }
      attempt := attempt + 1;
    }
  }
}
