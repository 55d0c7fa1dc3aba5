/** The second circuit breaker, in pubsub.go, and when it makes the same decisions as the first. */
module PubSubBreaker {
  import opened Breakers

  datatype Option<+T> = None | Some(value: T)

  /** lastFailure is None until the first failure. */
  datatype PsBreaker = PsBreaker(mode: Mode, failureCount: nat, lastFailure: Option<int>)

  const PS_FRESH := PsBreaker(Closed, 0, None)

  predicate PsAdmits(timeout: nat, p: PsBreaker, now: int) {
    p.mode.Open? ==> p.lastFailure.None? || now - p.lastFailure.value > timeout
  }

  function PsEntered(p: PsBreaker): PsBreaker {
    if p.mode.Open? then p.(mode := HalfOpen) else p
  }

  function PsRecorded(threshold: nat, p: PsBreaker, ok: bool, end: int): PsBreaker {
    if ok then p.(failureCount := 0, mode := Closed)
    else PsBreaker(if p.failureCount + 1 >= threshold then Open else p.mode, p.failureCount + 1, Some(end))
  }

  function PsAfterCall(threshold: nat, timeout: nat, p: PsBreaker, c: Call): PsBreaker {
    if !PsAdmits(timeout, p, c.at) then p
    else PsRecorded(threshold, PsEntered(p), c.ok, c.end)
  }

  function PsDecisions(l: Limits, p: PsBreaker, calls: seq<Call>): (admitted: seq<bool>)
    ensures |admitted| == |calls|
    decreases |calls|
  {
    if calls == [] then []
    else
      var p' := PsAfterCall(l.threshold, l.timeout, p, calls[0]);
      [PsAdmits(l.timeout, p, calls[0].at)] + PsDecisions(l, p', calls[1..])
  }

  /** The two breakers stand for the same thing between calls.  An open pub/sub breaker keeps at least `threshold`
      failures, so that a single half-open failure opens it again. */
  ghost predicate Agree(l: Limits, b: Breaker, p: PsBreaker) {
    match b.mode
    case Closed => p.mode.Closed? && p.failureCount == b.failureCount < l.threshold
    case Open => p.mode.Open? && p.failureCount >= l.threshold && 0 < b.lastFailure
        && p.lastFailure == Some(b.lastFailure)
    case HalfOpen => false
  }

  /** The one arrival on which `>=` and `>` differ. */
  predicate Tie(l: Limits, b: Breaker, now: int) {
    b.mode.Open? && now - b.lastFailure == l.timeout
  }

  predicate Ties(l: Limits, b: Breaker, calls: seq<Call>)
    decreases |calls|
  {
    calls != [] && (Tie(l, b, calls[0].at) || Ties(l, AfterCall(l, b, calls[0]), calls[1..]))
  }

  lemma OneCall(l: Limits, b: Breaker, p: PsBreaker, c: Call)
    requires l.Valid() && l.halfOpenMax == 1 && Agree(l, b, p) && 0 < c.end
    ensures Admits(l, b, c.at) == PsAdmits(l.timeout, p, c.at) <==> !Tie(l, b, c.at)
    ensures !Tie(l, b, c.at) ==> Agree(l, AfterCall(l, b, c), PsAfterCall(l.threshold, l.timeout, p, c))
  {
  }

  lemma {:induction false} AgreeAlong(l: Limits, b: Breaker, p: PsBreaker, calls: seq<Call>, from: int)
    requires l.Valid() && l.halfOpenMax == 1 && Agree(l, b, p) && 0 < from && Sequential(calls, from)
    ensures Decisions(l, b, calls) == PsDecisions(l, p, calls) <==> !Ties(l, b, calls)
    decreases |calls|
  {
    if calls != [] {
      var d, e := Decisions(l, b, calls), PsDecisions(l, p, calls);
      OneCall(l, b, p, calls[0]);
      assert d[0] == Admits(l, b, calls[0].at) && e[0] == PsAdmits(l.timeout, p, calls[0].at);
      if !Tie(l, b, calls[0].at) {
        AgreeAlong(l, AfterCall(l, b, calls[0]), PsAfterCall(l.threshold, l.timeout, p, calls[0]), calls[1..],
            calls[0].end);
        assert d[1..] == Decisions(l, AfterCall(l, b, calls[0]), calls[1..]);
        assert e[1..] == PsDecisions(l, PsAfterCall(l.threshold, l.timeout, p, calls[0]), calls[1..]);
        assert d == [d[0]] + d[1..] && e == [e[0]] + e[1..];
      }
    }
  }

  /** From fresh, the pub/sub breaker and a breaker with halfOpenMax 1 let through the same calls of a sequential run
      if and only if no call arrives exactly at the timeout. */
  lemma BreakersAgree(l: Limits, calls: seq<Call>, from: int)
    requires l.Valid() && l.halfOpenMax == 1 && 0 < from && Sequential(calls, from)
    ensures Decisions(l, FRESH, calls) == PsDecisions(l, PS_FRESH, calls)
            <==> !Ties(l, FRESH, calls)
  {
    AgreeAlong(l, FRESH, PS_FRESH, calls, from);
  }

  class CircuitBreakerPubSub {
    const threshold: nat
    const timeout: nat
    var mode: Mode
    var failureCount: nat
    var lastFailure: Option<int>

    ghost function Contents(): PsBreaker
      reads this
    {
      PsBreaker(mode, failureCount, lastFailure)
    }

    constructor (threshold: nat, timeout: nat)
      ensures this.threshold == threshold && this.timeout == timeout && Contents() == PS_FRESH
    {
      this.threshold, this.timeout := threshold, timeout;
      mode, failureCount, lastFailure := Closed, 0, None;
    }

    /** The part of Execute before the operation. */
    method Enter(now: int) returns (admitted: bool)
      modifies this`mode
      ensures admitted == PsAdmits(timeout, old(Contents()), now)
      ensures Contents() == if admitted then PsEntered(old(Contents())) else old(Contents())
    {
      if mode.Open? {
        if lastFailure.Some? && now - lastFailure.value <= timeout {
          return false;
        }
        mode := HalfOpen;
      }
      admitted := true;
    }

    /** recordSuccess and recordFailure. */
    method Record(ok: bool, end: int)
      modifies this
      ensures Contents() == PsRecorded(threshold, old(Contents()), ok, end)
    {
      if ok {
        failureCount, mode := 0, Closed;
      } else {
        failureCount, lastFailure := failureCount + 1, Some(end);
        if failureCount >= threshold {
          mode := Open;
        }
      }
    }

    method Execute(now: int, ok: bool, end: int) returns (admitted: bool)
      modifies this
      ensures admitted == PsAdmits(timeout, old(Contents()), now)
      ensures Contents() == PsAfterCall(threshold, timeout, old(Contents()), Call(now, end, ok))
    {
      admitted := Enter(now);
      if admitted {
        Record(ok, end);
      }
    }
  }
}
