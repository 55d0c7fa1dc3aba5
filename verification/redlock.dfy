/**
  The methods of redlock.go, run one client call at a time while everybody else keeps going.
  Each method leaves behind the `trace` of steps that happened meanwhile, its own and others',
  so what RedlockSafety proves of runs holds of the states these methods produce.
 */
module Redlock {
  import opened RedlockProtocol
  import opened RedlockSafety
  import opened RedlockTraces

  /** What the world does around one step of a method: what others do first, and the fate of the command. */
  datatype Moment = Moment(others: seq<Step>, took: bool, heard: bool, loss: int, cancelled: bool)

  lemma RunMore(cfg: Config, s: State, trace: seq<Step>, e: Step)
    ensures Run(cfg, s, trace + [e]) == Next(cfg, Run(cfg, s, trace), e)
  {
    assert (trace + [e])[..|trace|] == trace;
  }

  lemma {:induction false} ClockForward(cfg: Config, s: State, trace: seq<Step>)
    ensures s.now <= Run(cfg, s, trace).now
  {
    if trace != [] {
      ClockForward(cfg, s, trace[..|trace| - 1]);
    }
  }

  /** Nobody else can write v's value anywhere. */
  lemma OthersDoNotMatch(cfg: Config, s: State, e: Step, c: nat, r: Resource, v: Value)
    requires Actor(e) != Some(v) && c < |s.stores| && !Matches(s.stores[c], r, v, s.now)
    ensures c < |Next(cfg, s, e).stores| && !Matches(Next(cfg, s, e).stores[c], r, v, Next(cfg, s, e).now)
  {
    if Allowed(cfg, s, e) {
      match e
      case SetKey(_, _, _, _) =>
      case Release(_, _, _) =>
      case ExtendKey(_, _, _, _, _) =>
      case _ =>
    }
  }

  /** v's key is not at client c. */
  ghost predicate Missing(s: State, c: nat, r: Resource, v: Value) {
    c < |s.stores| && !Matches(s.stores[c], r, v, s.now)
  }

  /** What is gone stays gone. */
  ghost predicate Leaves(s: State, s': State, v: Value) {
    forall c, r :: Missing(s, c, r, v) ==> Missing(s', c, r, v)
  }

  ghost predicate AllMissing(s: State, cs: set<nat>, r: Resource, v: Value) {
    forall c :: c in cs ==> Missing(s, c, r, v)
  }

  lemma OneMoreMissing(s: State, s': State, cs: set<nat>, c: nat, took: bool, r: Resource, v: Value)
    requires AllMissing(s, cs, r, v) && Leaves(s, s', v) && (took ==> Missing(s', c, r, v))
    ensures AllMissing(s', cs + if took then {c} else {}, r, v)
  {
  }

  lemma StillLeaves(s: State, s': State, s'': State, v: Value)
    requires Leaves(s, s', v) && Leaves(s', s'', v)
    ensures Leaves(s, s'', v)
  {
  }

  lemma OthersLeave(cfg: Config, s: State, e: Step, v: Value)
    requires Actor(e) != Some(v)
    ensures var s' := Next(cfg, s, e);
            && |s'.stores| == |s.stores| && (v in s'.calls <==> v in s.calls)
            && (v in s.calls ==> s'.calls[v] == s.calls[v])
            && Leaves(s, s', v)
  {
    if v in s.calls {
      OthersUntouched(cfg, s, e, v);
    }
    forall c, r | Missing(s, c, r, v) ensures Missing(Next(cfg, s, e), c, r, v) {
      OthersDoNotMatch(cfg, s, e, c, r, v);
    }
  }

  /** v will not set its key again: its lock is unlocked, or it has failed and, unless it `retries`, waits. */
  predicate SetsNoMore(phase: Phase, retries: bool) {
    phase.Unlocking? || phase.Finished? || (!retries && (phase.RollingBack? || phase.Waiting?))
  }

  /** Once v's lock is unlocked, or while a failed attempt is not retried, nothing brings back a key that is gone. */
  lemma {:induction false} GoneForGood(cfg: Config, s: State, steps: seq<Step>, v: Value, c: nat, retries: bool)
    requires v in s.calls && Missing(s, c, s.calls[v].resource, v)
    requires SetsNoMore(s.calls[v].phase, retries) && (!retries ==> Retry(v) !in steps)
    ensures var s' := Run(cfg, s, steps);
            && v in s'.calls && s'.calls[v].resource == s.calls[v].resource && SetsNoMore(s'.calls[v].phase, retries)
            && Missing(s', c, s.calls[v].resource, v)
  {
    if steps != [] {
      var n := |steps| - 1;
      assert steps[n] in steps && forall e :: e in steps[..n] ==> e in steps;
      GoneForGood(cfg, s, steps[..n], v, c, retries);
      StaysGone(cfg, Run(cfg, s, steps[..n]), steps[n], v, c, retries);
    }
  }

  lemma StaysGone(cfg: Config, s: State, e: Step, v: Value, c: nat, retries: bool)
    requires v in s.calls && Missing(s, c, s.calls[v].resource, v)
    requires SetsNoMore(s.calls[v].phase, retries) && (!retries ==> e != Retry(v))
    ensures var s' := Next(cfg, s, e);
            && v in s'.calls && s'.calls[v].resource == s.calls[v].resource && SetsNoMore(s'.calls[v].phase, retries)
            && Missing(s', c, s.calls[v].resource, v)
  {
    if Actor(e) != Some(v) {
      OthersLeave(cfg, s, e, v);
    }
  }

  lemma ReleaseRemoves(cfg: Config, s: State, v: Value, took: bool, heard: bool)
    requires Allowed(cfg, s, Release(v, took, heard))
    ensures var s' := Next(cfg, s, Release(v, took, heard));
            && took ==> Missing(s', s.calls[v].phase.next, s.calls[v].resource, v)
    ensures Leaves(s, Next(cfg, s, Release(v, took, heard)), v)
  {
  }

  lemma SameStores(cfg: Config, s: State, e: Step)
    ensures |Next(cfg, s, e).stores| == |s.stores|
  {
  }

  // ---- what v's own steps do --------------------------------------------------------------------

  lemma BeginEffect(cfg: Config, s: State, v: Value, r: Resource, ttl: int, maxRetries: nat)
    requires v !in s.calls && 1 <= |r| <= MAX_RESOURCE_NAME && MIN_TTL <= ttl <= MAX_TTL
    ensures var s' := Next(cfg, s, Begin(v, r, ttl, maxRetries));
            && v in s'.calls && |s'.stores| == |s.stores|
            && s'.calls[v] == Call(r, ttl, 0, maxRetries, Attempting(s.now, 0, {}, 0), NoLock, map[])
  {
  }

  lemma RetryEffect(cfg: Config, s: State, v: Value)
    requires v in s.calls && s.calls[v].phase.Waiting?
    ensures var s' := Next(cfg, s, Retry(v));
            && v in s'.calls && |s'.stores| == |s.stores|
            && s'.calls[v] == s.calls[v].(attempt := s.calls[v].attempt + 1, phase := Attempting(s.now, 0, {}, 0))
  {
  }

  lemma SetEffect(cfg: Config, s: State, v: Value, took: bool, heard: bool, loss: int)
    requires v in s.calls && s.calls[v].phase.Attempting? && s.calls[v].phase.next < cfg.n == |s.stores|
    ensures var s', c, p := Next(cfg, s, SetKey(v, took, heard, loss)), s.calls[v].phase.next, s.calls[v].phase;
            && |s'.stores| == |s.stores| && v in s'.calls && s'.calls[v].phase.Attempting?
            && s'.calls[v] == s.calls[v].(phase := s'.calls[v].phase)
            && s'.calls[v].phase.start == p.start && s'.calls[v].phase.next == c + 1
            && s'.calls[v].phase.ok
               == p.ok + if Succeeds(cfg, s, SetKey(v, took, heard, loss), v, s.calls[v].resource, Setting, c) then {c}
                         else {}
  {
    assert Next(cfg, s, SetKey(v, took, heard, loss)) == AfterSet(cfg, s, v, took, heard, loss);
  }

  /** One client more has been asked to release. */
  function Asked(p: Phase, deleted: bool): Phase
    requires p.RollingBack? || p.Unlocking?
  {
    if p.RollingBack? then RollingBack(p.next + 1) else Unlocking(p.next + 1, p.released + if deleted then 1 else 0)
  }

  lemma ReleaseEffect(cfg: Config, s: State, v: Value, took: bool, heard: bool)
    requires v in s.calls && (s.calls[v].phase.RollingBack? || s.calls[v].phase.Unlocking?)
    requires s.calls[v].phase.next < cfg.n == |s.stores|
    ensures var s', p := Next(cfg, s, Release(v, took, heard)), s.calls[v].phase;
            var deleted := Succeeds(cfg, s, Release(v, took, heard), v, s.calls[v].resource, Releasing, p.next);
            && |s'.stores| == |s.stores| && v in s'.calls && s'.calls[v] == s.calls[v].(phase := s'.calls[v].phase)
            && s'.calls[v].phase == Asked(p, deleted)
  {
    assert Next(cfg, s, Release(v, took, heard)) == AfterRelease(cfg, s, v, took, heard);
  }

  lemma JudgeEffect(cfg: Config, s: State, v: Value)
    requires v in s.calls && s.calls[v].phase.Attempting? && s.calls[v].phase.next == cfg.n
    ensures var s', p := Next(cfg, s, Judge(v)), s.calls[v].phase;
            var validity := s.calls[v].ttl - (s.now - p.start) - DriftTime(cfg, s.calls[v].ttl);
            && |s'.stores| == |s.stores| && v in s'.calls
            && s'.calls[v] == s.calls[v].(phase := if |p.ok| < cfg.quorum || validity <= 0 then RollingBack(0)
                                                   else Measured(p.start, s.now, p.ok, p.loss, validity))
  {
    assert Next(cfg, s, Judge(v)) == AfterJudge(cfg, s, v);
  }

  lemma CommitEffect(cfg: Config, s: State, v: Value)
    requires v in s.calls && s.calls[v].phase.Measured? && cfg.lateness.Unlimited?
    ensures var s' := Next(cfg, s, Commit(v));
            && s'.now == s.now && s'.stores == s.stores && v in s'.calls
            && s'.calls[v] == s.calls[v].(phase := Holding, lock := Lock(s.now, s.calls[v].phase.validity, true))
  {
    assert Next(cfg, s, Commit(v)) == AfterCommit(cfg, s, v);
  }

  lemma EndRollbackEffect(cfg: Config, s: State, v: Value)
    requires v in s.calls && s.calls[v].phase == RollingBack(cfg.n)
    ensures var s' := Next(cfg, s, EndRollback(v));
            && v in s'.calls && |s'.stores| == |s.stores|
            && s'.calls[v] == s.calls[v].(phase := if s.calls[v].attempt == s.calls[v].maxRetries then Finished
                                                   else Waiting)
  {
  }

  lemma UnlockEffect(cfg: Config, s: State, v: Value)
    requires v in s.calls && s.calls[v].phase.Holding? && s.calls[v].lock.Lock?
    ensures var s' := Next(cfg, s, RedlockProtocol.Unlock(v));
            && v in s'.calls && |s'.stores| == |s.stores|
            && s'.calls[v] == s.calls[v].(phase := Unlocking(0, 0), lock := s.calls[v].lock.(acquired := false))
  {
  }

  lemma EndUnlockEffect(cfg: Config, s: State, v: Value)
    requires v in s.calls && s.calls[v].phase.Unlocking? && s.calls[v].phase.next == cfg.n
    ensures var s' := Next(cfg, s, EndUnlock(v));
            && v in s'.calls && s'.stores == s.stores && s'.now == s.now
            && s'.calls[v] == s.calls[v].(phase := Finished)
  {
  }

  lemma ExtendBeginEffect(cfg: Config, s: State, v: Value, x: nat, newTtl: int)
    requires v in s.calls && s.calls[v].lock.Lock? && s.calls[v].lock.acquired
    requires x !in s.calls[v].extensions && MIN_TTL <= newTtl <= MAX_TTL
    ensures var s' := Next(cfg, s, ExtendBegin(v, x, newTtl));
            && Extending(s', v, x) && |s'.stores| == |s.stores| && s'.calls[v].extensions[x] == Extension(newTtl, 0, {})
            && s'.calls[v] == s.calls[v].(extensions := s'.calls[v].extensions)
  {
  }

  lemma ExtendEffect(cfg: Config, s: State, v: Value, x: nat, took: bool, heard: bool, loss: int)
    requires Extending(s, v, x) && s.calls[v].extensions[x].next < cfg.n == |s.stores| && cfg.shortfall.Unlimited?
    ensures var s', ext := Next(cfg, s, ExtendKey(v, x, took, heard, loss)), s.calls[v].extensions[x];
            var extended := Succeeds(cfg, s, ExtendKey(v, x, took, heard, loss), v, s.calls[v].resource,
                                     ExtendingBy(x), ext.next);
            && |s'.stores| == |s.stores| && Extending(s', v, x)
            && s'.calls[v] == s.calls[v].(extensions := s'.calls[v].extensions)
            && s'.calls[v].extensions[x]
               == ext.(next := ext.next + 1, ok := if extended then ext.ok + {ext.next} else ext.ok)
  {
    assert Next(cfg, s, ExtendKey(v, x, took, heard, loss)) == AfterExtendKey(cfg, s, v, x, took, heard, loss);
  }

  lemma ExtendEndEffect(cfg: Config, s: State, v: Value, x: nat)
    requires Extending(s, v, x) && s.calls[v].extensions[x].next == cfg.n
    ensures var s', ext := Next(cfg, s, ExtendEnd(v, x)), s.calls[v].extensions[x];
            && v in s'.calls && |s'.stores| == |s.stores| && s'.calls[v].resource == s.calls[v].resource
            && s'.calls[v].lock
               == if |ext.ok| >= cfg.quorum then s.calls[v].lock.(ttl := ext.ttl) else s.calls[v].lock
  {
    assert Next(cfg, s, ExtendEnd(v, x)) == AfterExtendEnd(cfg, s, v, x);
  }

  // ---- the loops over the clients ---------------------------------------------------------------

  /** What others do while v is about to send its next command. */
  ghost predicate Meanwhile(cfg: Config, s: State, s': State, others: seq<Step>, v: Value) {
    && s' == Run(cfg, s, others) && NoneOf(others, v) && |s'.stores| == |s.stores| && Leaves(s, s', v)
    && (v in s.calls <==> v in s'.calls) && (v in s.calls ==> s'.calls[v] == s.calls[v])
  }

  /** c clients have been asked to set the key, and the call has recorded those that answered. */
  ghost predicate SetSoFar(cfg: Config, from: State, s: State, v: Value, c: nat, steps: seq<Step>) {
    && v in from.calls && from.calls[v].phase.Attempting? && v in s.calls && s.calls[v].phase.Attempting?
    && |s.stores| == cfg.n && SentSoFar(cfg, from, s, v, c, steps, Setting)
    && s.calls[v] == from.calls[v].(phase := Attempting(from.calls[v].phase.start, c,
         Answers(cfg, from, steps, v, from.calls[v].resource, Setting), s.calls[v].phase.loss))
  }

  lemma SetOneMore(cfg: Config, from: State, s: State, s': State, v: Value, c: nat, sofar: seq<Step>, others: seq<Step>,
                   took: bool, heard: bool, loss: int)
    requires SetSoFar(cfg, from, s, v, c, sofar) && c < cfg.n && Meanwhile(cfg, s, s', others, v)
    ensures var e := SetKey(v, took, heard, loss);
            SetSoFar(cfg, from, Next(cfg, s', e), v, c + 1, sofar + (others + [e]))
    ensures var e, r := SetKey(v, took, heard, loss), from.calls[v].resource;
            |Answers(cfg, from, sofar + (others + [e]), v, r, Setting)|
            == |Answers(cfg, from, sofar, v, r, Setting)| + if Succeeds(cfg, s', e, v, r, Setting, c) then 1 else 0
  {
    var e := SetKey(v, took, heard, loss);
    SetEffect(cfg, s', v, took, heard, loss);
    LoopGoesOn(cfg, from, s, v, c, sofar, others, e, from.calls[v].resource, Setting);
  }

  /** The phase of a caller that has asked c clients to release. */
  function AskedSoFar(p: Phase, c: nat, released: nat): Phase {
    if p.RollingBack? then RollingBack(c) else Unlocking(c, released)
  }

  lemma ReleaseMissing(cfg: Config, s: State, s': State, others: seq<Step>, v: Value, took: bool, heard: bool,
                       cs: set<nat>)
    requires Meanwhile(cfg, s, s', others, v) && Allowed(cfg, s', Release(v, took, heard))
    requires AllMissing(s, cs, s'.calls[v].resource, v)
    ensures AllMissing(Next(cfg, s', Release(v, took, heard)), cs + if took then {s'.calls[v].phase.next} else {},
                       s'.calls[v].resource, v)
  {
    var s'' := Next(cfg, s', Release(v, took, heard));
    ReleaseRemoves(cfg, s', v, took, heard);
    StillLeaves(s, s', s'', v);
    OneMoreMissing(s, s'', cs, s'.calls[v].phase.next, took, s'.calls[v].resource, v);
  }

  /** c clients have been asked to release; the key is at none of those on which the script has run. */
  ghost predicate ReleasedSoFar(cfg: Config, from: State, s: State, v: Value, c: nat, released: nat, steps: seq<Step>) {
    && v in from.calls && (from.calls[v].phase.RollingBack? || from.calls[v].phase.Unlocking?) && v in s.calls
    && |s.stores| == cfg.n && SentSoFar(cfg, from, s, v, c, steps, Releasing)
    && s.calls[v] == from.calls[v].(phase := AskedSoFar(from.calls[v].phase, c, released))
    && released == |Answers(cfg, from, steps, v, from.calls[v].resource, Releasing)|
    && AllMissing(s, Reached(steps, v, Releasing), from.calls[v].resource, v)
  }

  lemma ReleaseRecorded(cfg: Config, call: Call, s: State, v: Value, c: nat, released: nat, took: bool, heard: bool)
    requires call.phase.RollingBack? || call.phase.Unlocking?
    requires v in s.calls && s.calls[v] == call.(phase := AskedSoFar(call.phase, c, released))
    requires c < cfg.n == |s.stores|
    ensures var s', e := Next(cfg, s, Release(v, took, heard)), Release(v, took, heard);
            var n := released + if Succeeds(cfg, s, e, v, call.resource, Releasing, c) then 1 else 0;
            && v in s'.calls && |s'.stores| == |s.stores|
            && s'.calls[v] == call.(phase := AskedSoFar(call.phase, c + 1, n))
  {
    ReleaseEffect(cfg, s, v, took, heard);
  }

  lemma ReleaseOneMore(cfg: Config, from: State, s: State, s': State, v: Value, c: nat, released: nat, sofar: seq<Step>,
                       others: seq<Step>, took: bool, heard: bool)
    requires ReleasedSoFar(cfg, from, s, v, c, released, sofar) && c < cfg.n && Meanwhile(cfg, s, s', others, v)
    ensures var e := Release(v, took, heard);
            var ok := Succeeds(cfg, s', e, v, from.calls[v].resource, Releasing, c);
            ReleasedSoFar(cfg, from, Next(cfg, s', e), v, c + 1, released + if ok then 1 else 0, sofar + (others + [e]))
  {
    var e, r, cs := Release(v, took, heard), from.calls[v].resource, Reached(sofar, v, Releasing);
    assert Allowed(cfg, s', e) && s'.calls[v].phase.next == c;
    ReleaseRecorded(cfg, from.calls[v], s', v, c, released, took, heard);
    ReleaseMissing(cfg, s, s', others, v, took, heard, cs);
    LoopGoesOn(cfg, from, s, v, c, sofar, others, e, r, Releasing);
    assert Reached(sofar + (others + [e]), v, Releasing) == cs + if took then {c} else {};
  }

  /** c clients have been asked to extend, and the Extend has recorded those that answered 1. */
  ghost predicate ExtendedSoFar(cfg: Config, from: State, s: State, v: Value, x: nat, c: nat, steps: seq<Step>) {
    && Extending(from, v, x) && Extending(s, v, x) && |s.stores| == cfg.n
    && SentSoFar(cfg, from, s, v, c, steps, ExtendingBy(x))
    && s.calls[v] == from.calls[v].(extensions := s.calls[v].extensions)
    && s.calls[v].extensions[x] == Extension(from.calls[v].extensions[x].ttl, c,
         Answers(cfg, from, steps, v, from.calls[v].resource, ExtendingBy(x)))
  }

  lemma ExtendOneMore(cfg: Config, from: State, s: State, s': State, v: Value, x: nat, c: nat, sofar: seq<Step>,
                      others: seq<Step>, took: bool, heard: bool, loss: int)
    requires ExtendedSoFar(cfg, from, s, v, x, c, sofar) && c < cfg.n && Meanwhile(cfg, s, s', others, v)
    requires cfg.shortfall.Unlimited?
    ensures var e := ExtendKey(v, x, took, heard, loss);
            ExtendedSoFar(cfg, from, Next(cfg, s', e), v, x, c + 1, sofar + (others + [e]))
    ensures var e, r := ExtendKey(v, x, took, heard, loss), from.calls[v].resource;
            |Answers(cfg, from, sofar + (others + [e]), v, r, ExtendingBy(x))|
            == |Answers(cfg, from, sofar, v, r, ExtendingBy(x))|
               + if Succeeds(cfg, s', e, v, r, ExtendingBy(x), c) then 1 else 0
  {
    var e := ExtendKey(v, x, took, heard, loss);
    ExtendEffect(cfg, s', v, x, took, heard, loss);
    LoopGoesOn(cfg, from, s, v, c, sofar, others, e, from.calls[v].resource, ExtendingBy(x));
  }

  class Redlock {
    const cfg: Config
    const tape: nat -> Moment
    var at: nat
    var s: State
    var totalAcquisitions: nat
    var successfulAcquisitions: nat
    var failedAcquisitions: nat
    var totalReleases: nat
    var successfulReleases: nat
    var failedReleases: nat
    var totalExtensions: nat
    var successfulExtensions: nat
    var failedExtensions: nat

    /** Nothing is assumed of clocks or of the other callers' Extends here. */
    ghost predicate Valid()
      reads this
    {
      |s.stores| == cfg.n && cfg.lateness.Unlimited? && cfg.shortfall.Unlimited?
    }

    constructor (cfg: Config, tape: nat -> Moment)
      requires WellFormed(cfg) && cfg.lateness.Unlimited? && cfg.shortfall.Unlimited?
      ensures Valid() && s == Start(cfg) && this.cfg == cfg && this.tape == tape
      ensures totalAcquisitions == totalReleases == totalExtensions == 0
    {
      this.cfg, this.tape, at, s := cfg, tape, 0, Start(cfg);
      totalAcquisitions, successfulAcquisitions, failedAcquisitions := 0, 0, 0;
      totalReleases, successfulReleases, failedReleases := 0, 0, 0;
      totalExtensions, successfulExtensions, failedExtensions := 0, 0, 0;
    }

    /** v's key is at none of the clients on which the release script has run in these steps. */
    ghost predicate ReachedGone(v: Value, steps: seq<Step>)
      reads this
      requires v in s.calls
    {
      AllMissing(s, Reached(steps, v, Releasing), s.calls[v].resource, v)
    }

    /** Everybody but v moves on for a while. */
    method Others(v: Value) returns (m: Moment, ghost trace: seq<Step>)
      requires Valid()
      modifies this`s, this`at
      ensures Valid() && Meanwhile(cfg, old(s), s, trace, v) && m == tape(old(at))
    {
      m, trace := tape(at), [];
      at := at + 1;
      var i := 0;
      while i < |m.others|
        invariant 0 <= i <= |m.others| && Valid() && Meanwhile(cfg, old(s), s, trace, v)
      {
        if Actor(m.others[i]) != Some(v) {
          OthersLeave(cfg, s, m.others[i], v);
          StillLeaves(old(s), s, Next(cfg, s, m.others[i]), v);
          RunMore(cfg, old(s), trace, m.others[i]);
          s, trace := Next(cfg, s, m.others[i]), trace + [m.others[i]];
        }
        i := i + 1;
      }
    }

    /** v takes step e after everybody else has moved on for a while; `before` is the state e happened in. */
    method Act(v: Value, e: Step) returns (before: State, ghost trace: seq<Step>)
      requires Valid() && Actor(e) == Some(v)
      modifies this`s, this`at
      ensures Valid() && s == Run(cfg, old(s), trace) && s == Next(cfg, before, e) && old(s).now <= before.now
      ensures EndsIn(trace, v, e) && before == Run(cfg, old(s), trace[..|trace| - 1])
      ensures v in old(s).calls ==> v in before.calls && before.calls[v] == old(s).calls[v]
      ensures v !in old(s).calls ==> v !in before.calls
    {
      var m;
      ghost var others;
      m, others := Others(v);
      before := s;
      ClockForward(cfg, old(s), others);
      OneStepAfter(cfg, old(s), others, v, e);
      SameStores(cfg, s, e);
      trace := others + [e];
      s := Next(cfg, s, e);
    }

    /** client.Set on client c: `ok` is err == nil. */
    method SetOnNext(v: Value, c: nat, ghost from: State, ghost sofar: seq<Step>)
      returns (ok: bool, ghost trace: seq<Step>)
      requires Valid() && SetSoFar(cfg, from, s, v, c, sofar) && c < cfg.n
      modifies this`s, this`at
      ensures Valid() && SetSoFar(cfg, from, s, v, c + 1, trace)
      ensures |Answers(cfg, from, trace, v, from.calls[v].resource, Setting)|
              == |Answers(cfg, from, sofar, v, from.calls[v].resource, Setting)| + if ok then 1 else 0
    {
      var m;
      ghost var others, was := sofar, s;
      m, others := Others(v);
      var e := SetKey(v, m.took, m.heard, m.loss);
      ok := Succeeds(cfg, s, e, v, s.calls[v].resource, Setting, c);
      SetOneMore(cfg, from, was, s, v, c, sofar, others, m.took, m.heard, m.loss);
      s, trace := Next(cfg, s, e), sofar + (others + [e]);
    }

    /** The compare-and-delete script on client c: `ok` is a nil error from releaseLockWithTimeout. */
    method ReleaseOnNext(v: Value, c: nat, released: nat, ghost from: State, ghost sofar: seq<Step>)
      returns (ok: bool, ghost trace: seq<Step>)
      requires Valid() && ReleasedSoFar(cfg, from, s, v, c, released, sofar) && c < cfg.n
      modifies this`s, this`at
      ensures Valid() && ReleasedSoFar(cfg, from, s, v, c + 1, released + if ok then 1 else 0, trace)
    {
      var m;
      ghost var others, was := sofar, s;
      m, others := Others(v);
      var e := Release(v, m.took, m.heard);
      ok := Succeeds(cfg, s, e, v, s.calls[v].resource, Releasing, c);
      ReleaseOneMore(cfg, from, was, s, v, c, released, sofar, others, m.took, m.heard);
      s, trace := Next(cfg, s, e), sofar + (others + [e]);
    }

    /** The release loop of a failed attempt and of Unlock: every client is asked once, `released` counts those whose
        script deleted v's key and that are heard of, and the key is at none of the clients on which it has run. */
    method ReleaseAll(v: Value) returns (released: nat, ghost trace: seq<Step>)
      requires Valid() && v in s.calls
      requires s.calls[v].phase == RollingBack(0) || s.calls[v].phase == Unlocking(0, 0)
      modifies this`s, this`at
      ensures Valid() && ReleasedSoFar(cfg, old(s), s, v, cfg.n, released, trace)
    {
      released, trace := 0, [];
      for c := 0 to cfg.n
        invariant Valid() && ReleasedSoFar(cfg, old(s), s, v, c, released, trace)
      {
        var ok;
        ok, trace := ReleaseOnNext(v, c, released, old(s), trace);
        if ok {
          released := released + 1;
        }
      }
    }

    /** A call's lock, just handed out. */
    ghost predicate FreshLock(v: Value)
      reads this
    {
      && v in s.calls && s.calls[v].phase.Holding? && s.calls[v].lock.Lock? && s.calls[v].lock.acquired
      && 0 < s.calls[v].lock.ttl && s.calls[v].lock.created == s.now
    }

    /** Such a lock, valid for what is left of the TTL, but for a fraction of a nanosecond. */
    ghost predicate FreshFor(v: Value, left: real)
      reads this
    {
      FreshLock(v) && left <= s.calls[v].lock.ttl as real < left + 1.0
    }

    /** The loop of tryAcquireLockWithTimeout: every client is asked once, `successCount` of them answer. */
    method SetAll(v: Value) returns (successCount: nat, ghost trace: seq<Step>)
      requires Valid() && v in s.calls && s.calls[v].phase.Attempting?
      requires s.calls[v].phase.next == 0 && s.calls[v].phase.ok == {}
      modifies this`s, this`at
      ensures Valid() && SetSoFar(cfg, old(s), s, v, cfg.n, trace)
      ensures successCount == |Answers(cfg, old(s), trace, v, old(s).calls[v].resource, Setting)|
    {
      successCount, trace := 0, [];
      for c := 0 to cfg.n
        invariant Valid() && SetSoFar(cfg, old(s), s, v, c, trace)
        invariant successCount == |Answers(cfg, old(s), trace, v, old(s).calls[v].resource, Setting)|
      {
        var answered;
        answered, trace := SetOnNext(v, c, old(s), trace);
        if answered {
          successCount := successCount + 1;
        }
      }
    }

    /** The rest of it: the validity is computed after the steps `first`, and the lock handed out or all
        clients asked to release. */
    method Decide(v: Value, successCount: nat) returns (ok: bool, ghost first: seq<Step>, ghost rest: seq<Step>)
      requires Valid() && v in s.calls && s.calls[v].lock.NoLock? && s.calls[v].phase.Attempting?
      requires s.calls[v].phase.next == cfg.n && |s.calls[v].phase.ok| == successCount
      modifies this`s, this`at
      ensures Valid() && s == Run(cfg, Run(cfg, old(s), first), rest) && v in s.calls
      ensures s.calls[v] == old(s).calls[v].(phase := s.calls[v].phase, lock := s.calls[v].lock)
      ensures EndsIn(first, v, Judge(v)) && Concludes(rest, v)
      ensures var measured := Run(cfg, old(s), first[..|first| - 1]).now;
              var left := LeftAfter(cfg, s.calls[v].ttl, measured - old(s).calls[v].phase.start);
              (ok <==> successCount >= cfg.quorum && left > 0.0) && (ok ==> FreshFor(v, left))
      ensures !ok ==> s.calls[v].phase == RollingBack(cfg.n) && s.calls[v].lock.NoLock?
                      && Sent(rest, v, Releasing) == cfg.n && ReachedGone(v, rest)
    {
      var judged := s;
      judged, first := Act(v, Judge(v));
      JudgeEffect(cfg, judged, v);
      var ttl, elapsed := judged.calls[v].ttl, judged.now - judged.calls[v].phase.start;
      var validity := ttl - elapsed - DriftTime(cfg, ttl);
      LeftOverDrift(cfg, ttl, elapsed);
      if successCount < cfg.quorum || validity <= 0 {
        var released;
        released, rest := ReleaseAll(v);
        ok := false;
      } else {
        judged, rest := Act(v, Commit(v));
        CommitEffect(cfg, judged, v);
        ok := true;
      }
    }

    /** tryAcquireLockWithTimeout: the lock is handed out if and only if a quorum of clients answered and, when the
        attempt is judged, some of the TTL is left after the time it has taken and the share for drift; and it is valid
        for what is left.  Otherwise every client has been asked to release.  `call` is the call as it stands. */
    method TryAcquire(v: Value, ghost call: Call) returns (ok: bool, ghost measured: int, ghost trace: seq<Step>)
      requires Valid() && v in s.calls && s.calls[v] == call && call.lock.NoLock?
      requires call.phase.Attempting? && call.phase.next == 0 && call.phase.ok == {}
      modifies this`s, this`at
      ensures Valid() && s == Run(cfg, old(s), trace) && v in s.calls
      ensures s.calls[v] == call.(phase := s.calls[v].phase, lock := s.calls[v].lock)
      ensures Settled(cfg, old(s), trace, v, call.resource, call.ttl, call.phase.start, measured, ok)
      ensures ok ==> FreshFor(v, LeftAfter(cfg, call.ttl, measured - call.phase.start))
      ensures !ok ==> s.calls[v].phase == RollingBack(cfg.n) && s.calls[v].lock.NoLock?
                      && Sent(trace, v, Releasing) == cfg.n && ReachedGone(v, trace)
    {
      var successCount;
      ghost var sets, first, rest;
      successCount, sets := SetAll(v);
      ok, first, rest := Decide(v, successCount);
      trace := (sets + first) + rest;
      measured := Run(cfg, Run(cfg, old(s), sets), first[..|first| - 1]).now;
      SettledBy(cfg, old(s), sets, first, rest, v, call.resource, call.ttl, call.phase.start, ok);
    }

    /** The call has made so many attempts in vain and may make another. */
    ghost predicate MayTry(v: Value, r: Resource, ttl: int, maxRetries: nat, attempt: nat)
      reads this
    {
      && attempt <= maxRetries
      && if attempt == 0 then v !in s.calls
         else
           && v in s.calls && s.calls[v].resource == r && s.calls[v].ttl == ttl && s.calls[v].maxRetries == maxRetries
           && s.calls[v].attempt + 1 == attempt && s.calls[v].phase.Waiting? && s.calls[v].lock.NoLock?
    }

    /** The call has failed for good. */
    ghost predicate Failed(v: Value)
      reads this
    {
      v in s.calls && s.calls[v].phase.Finished? && s.calls[v].lock.NoLock?
    }

    /** An attempt begins: with the first step of the call, or with its next retry. */
    method BeginAttempt(v: Value, r: Resource, ttl: int, maxRetries: nat, attempt: nat) returns (ghost begin: seq<Step>)
      requires Valid() && 1 <= |r| <= MAX_RESOURCE_NAME && MIN_TTL <= ttl <= MAX_TTL
      requires MayTry(v, r, ttl, maxRetries, attempt)
      modifies this`s, this`at
      ensures Valid() && s == Run(cfg, old(s), begin) && v in s.calls
      ensures EndsIn(begin, v, FirstStep(v, r, ttl, maxRetries, attempt))
      ensures s.calls[v] == Call(r, ttl, attempt, maxRetries, Attempting(Run(cfg, old(s), begin[..|begin| - 1]).now, 0,
                                                                         {}, 0), NoLock, s.calls[v].extensions)
    {
      var before;
      if attempt == 0 {
        before, begin := Act(v, Begin(v, r, ttl, maxRetries));
        BeginEffect(cfg, before, v, r, ttl, maxRetries);
      } else {
        before, begin := Act(v, Retry(v));
        RetryEffect(cfg, before, v);
      }
    }

    /** A failed one is over. */
    method EndAttempt(v: Value, r: Resource, ttl: int, maxRetries: nat, attempt: nat) returns (ghost end: seq<Step>)
      requires Valid() && v in s.calls && s.calls[v].phase == RollingBack(cfg.n) && attempt <= maxRetries
      requires s.calls[v] == Call(r, ttl, attempt, maxRetries, s.calls[v].phase, NoLock, s.calls[v].extensions)
      modifies this`s, this`at
      ensures Valid() && s == Run(cfg, old(s), end) && EndsIn(end, v, EndRollback(v))
      ensures if attempt == maxRetries then Failed(v) else MayTry(v, r, ttl, maxRetries, attempt + 1)
    {
      var before;
      before, end := Act(v, EndRollback(v));
      EndRollbackEffect(cfg, before, v);
    }

    /** One round of LockWithRetry's loop, up to the wait. */
    method Attempt(v: Value, r: Resource, ttl: int, maxRetries: nat, attempt: nat)
      returns (ok: bool, ghost left: real, ghost trace: seq<Step>)
      requires Valid() && 1 <= |r| <= MAX_RESOURCE_NAME && MIN_TTL <= ttl <= MAX_TTL
      requires MayTry(v, r, ttl, maxRetries, attempt)
      modifies this`s, this`at
      ensures Valid() && s == Run(cfg, old(s), trace)
      ensures Round(cfg, old(s), trace, v, FirstStep(v, r, ttl, maxRetries, attempt), r, ttl, ok, left)
      ensures ok ==> FreshFor(v, left) && s.calls[v].resource == r
      ensures !ok ==> if attempt == maxRetries then Failed(v) else MayTry(v, r, ttl, maxRetries, attempt + 1)
    {
      ghost var begin := BeginAttempt(v, r, ttl, maxRetries, attempt);
      ghost var measured, more, end, start := 0, begin, begin, s.calls[v].phase.start;
      ok, measured, more, end := Finish(v, r, ttl, maxRetries, attempt, s.calls[v]);
      left, trace := LeftAfter(cfg, ttl, measured - start), (begin + more) + end;
      GrantedBy(cfg, old(s), begin, more, end, v, FirstStep(v, r, ttl, maxRetries, attempt), r, ttl, measured, ok);
    }

    /** It comes off or is over; `call` is the call as it stands. */
    method Finish(v: Value, r: Resource, ttl: int, maxRetries: nat, attempt: nat, ghost call: Call)
      returns (ok: bool, ghost measured: int, ghost more: seq<Step>, ghost end: seq<Step>)
      requires Valid() && v in s.calls && s.calls[v] == call && attempt <= maxRetries
      requires call == Call(r, ttl, attempt, maxRetries, call.phase, NoLock, call.extensions)
      requires call.phase.Attempting? && call.phase.next == 0 && call.phase.ok == {}
      modifies this`s, this`at
      ensures Valid() && s == Run(cfg, Run(cfg, old(s), more), end) && (end == [] || EndsIn(end, v, EndRollback(v)))
      ensures Settled(cfg, old(s), more, v, r, ttl, call.phase.start, measured, ok)
      ensures ok ==> FreshFor(v, LeftAfter(cfg, ttl, measured - call.phase.start)) && s.calls[v].resource == r
      ensures !ok ==> if attempt == maxRetries then Failed(v) else MayTry(v, r, ttl, maxRetries, attempt + 1)
    {
      ok, measured, more := TryAcquire(v, call);
      end := [];
      if !ok {
        end := EndAttempt(v, r, ttl, maxRetries, attempt);
      }
    }

    /** One more of them, after these. */
    method TryOnce(v: Value, r: Resource, ttl: int, maxRetries: nat, attempt: nat, ghost from: State,
                   ghost tries: seq<seq<Step>>) returns (ok: bool, ghost tries': seq<seq<Step>>)
      requires Valid() && 1 <= |r| <= MAX_RESOURCE_NAME && MIN_TTL <= ttl <= MAX_TTL
      requires MayTry(v, r, ttl, maxRetries, attempt) && attempt == |tries| && s == Run(cfg, from, Joined(tries))
      requires WonAtLast(cfg, from, tries, false, v, r, ttl, maxRetries)
      modifies this`s, this`at
      ensures Valid() && |tries'| == |tries| + 1 && s == Run(cfg, from, Joined(tries'))
      ensures WonAtLast(cfg, from, tries', ok, v, r, ttl, maxRetries)
      ensures ok ==> FreshFor(v, LeftAtLast(cfg, from, tries', v, r, ttl, maxRetries)) && s.calls[v].resource == r
      ensures !ok ==> if attempt == maxRetries then Failed(v) else MayTry(v, r, ttl, maxRetries, attempt + 1)
    {
      ghost var left, more;
      ok, left, more := Attempt(v, r, ttl, maxRetries, attempt);
      OneMoreTry(tries, more);
      OneTryMore(cfg, from, tries, more, ok, left, v, r, ttl, maxRetries);
      RunConcat(cfg, from, Joined(tries), more);
      tries' := tries + [more];
    }

    /** The context is cancelled before the next attempt. */
    method Abandon(v: Value) returns (ghost trace: seq<Step>)
      requires Valid() && (v in s.calls ==> s.calls[v].phase.Waiting? && s.calls[v].lock.NoLock?)
      modifies this`s, this`at
      ensures Valid() && s == Run(cfg, old(s), trace) && (v in s.calls ==> Failed(v))
    {
      var before;
      before, trace := Act(v, GiveUp(v));
    }

    /** LockWithRetry, for a value nobody has used.  It makes `tries` until one of them has a quorum of answers and time
        left, and unless the context is cancelled it makes maxRetries + 1 of them before it fails; each is counted. */
    method LockWithRetry(v: Value, r: Resource, ttl: int, maxRetries: nat)
      returns (ok: bool, ghost tries: seq<seq<Step>>, ghost trace: seq<Step>)
      requires Valid() && v !in s.calls
      modifies this`s, this`at, this`totalAcquisitions, this`successfulAcquisitions, this`failedAcquisitions
      ensures Valid() && s == Run(cfg, old(s), trace) && Joined(tries) <= trace
      ensures WonAtLast(cfg, old(s), tries, ok, v, r, ttl, maxRetries)
      ensures ok ==> FreshFor(v, LeftAtLast(cfg, old(s), tries, v, r, ttl, maxRetries)) && s.calls[v].resource == r
      ensures !ok && v in s.calls ==> Failed(v)
      ensures !(1 <= |r| <= MAX_RESOURCE_NAME && MIN_TTL <= ttl <= MAX_TTL) ==> !ok && trace == [] && tries == []
      ensures !ok && 1 <= |r| <= MAX_RESOURCE_NAME && MIN_TTL <= ttl <= MAX_TTL && (forall i :: !tape(i).cancelled) ==>
                Failed(v) && |tries| == maxRetries + 1
      ensures |tries| <= maxRetries + 1 && totalAcquisitions == old(totalAcquisitions) + |tries|
      ensures successfulAcquisitions == old(successfulAcquisitions) + if ok then 1 else 0
      ensures totalAcquisitions - successfulAcquisitions - failedAcquisitions
              == old(totalAcquisitions - successfulAcquisitions - failedAcquisitions)
    {
      ok, trace, tries := false, [], [];
      if |r| < 1 || |r| > MAX_RESOURCE_NAME || ttl < MIN_TTL || ttl > MAX_TTL {
        return;
      }
      var attempt := 0;
      while !ok && attempt <= maxRetries
        invariant attempt == |tries| <= maxRetries + 1 && Valid() && s == Run(cfg, old(s), Joined(tries))
        invariant totalAcquisitions == old(totalAcquisitions) + attempt
        invariant WonAtLast(cfg, old(s), tries, ok, v, r, ttl, maxRetries)
        invariant if ok then FreshFor(v, LeftAtLast(cfg, old(s), tries, v, r, ttl, maxRetries))
                             && s.calls[v].resource == r
                  else if attempt > maxRetries then Failed(v) else MayTry(v, r, ttl, maxRetries, attempt)
        invariant successfulAcquisitions == old(successfulAcquisitions) + if ok then 1 else 0
        invariant totalAcquisitions - failedAcquisitions - successfulAcquisitions
                  == old(totalAcquisitions - failedAcquisitions - successfulAcquisitions)
        decreases maxRetries + 1 - attempt
      {
        if tape(at).cancelled {
          ghost var more := Abandon(v);
          RunConcat(cfg, old(s), Joined(tries), more);
          trace := Joined(tries) + more;
          return;
        }
        ok, tries := TryOnce(v, r, ttl, maxRetries, attempt, old(s), tries);
        attempt := attempt + 1;
        totalAcquisitions := totalAcquisitions + 1;
        if ok {
          successfulAcquisitions := successfulAcquisitions + 1;
        } else {
          failedAcquisitions := failedAcquisitions + 1;
        }
      }
      trace := Joined(tries);
    }

    /** Unlock: an error if the lock is not acquired.  Otherwise every client is asked once, it succeeds if and only if
        some client's script deletes the key and is heard of, and the key is then at none of the clients on which the
        script has run.  A second Unlock always errs. */
    method Unlock(v: Value) returns (ok: bool, ghost trace: seq<Step>)
      requires Valid() && v in s.calls && s.calls[v].lock.Lock?
      requires LockInv(cfg, s, v)
      modifies this`s, this`at, this`totalReleases, this`successfulReleases, this`failedReleases
      ensures Valid() && s == Run(cfg, old(s), trace) && !Owns(s, v)
      ensures v in s.calls && s.calls[v].lock == old(s).calls[v].lock.(acquired := false)
      ensures !old(s).calls[v].lock.acquired ==> !ok && trace == [] && totalReleases == old(totalReleases)
      ensures old(s).calls[v].lock.acquired ==>
                && totalReleases == old(totalReleases) + 1 && Sent(trace, v, Releasing) == cfg.n
                && (ok <==> Answers(cfg, old(s), trace, v, s.calls[v].resource, Releasing) != {})
                && ReachedGone(v, trace)
      ensures successfulReleases == old(successfulReleases) + if ok then 1 else 0
      ensures totalReleases - successfulReleases - failedReleases
              == old(totalReleases - successfulReleases - failedReleases)
    {
      ok, trace := false, [];
      if !s.calls[v].lock.acquired {
        return;
      }
      var released;
      released, trace := AskAllToRelease(v);
      totalReleases := totalReleases + 1;
      ok := released > 0;
      if ok {
        successfulReleases := successfulReleases + 1;
      } else {
        failedReleases := failedReleases + 1;
      }
    }

    method AskAllToRelease(v: Value) returns (released: nat, ghost trace: seq<Step>)
      requires Valid() && v in s.calls && s.calls[v].lock.Lock? && s.calls[v].phase.Holding?
      modifies this`s, this`at
      ensures Valid() && s == Run(cfg, old(s), trace)
      ensures v in s.calls && s.calls[v].lock == old(s).calls[v].lock.(acquired := false)
      ensures Sent(trace, v, Releasing) == cfg.n && ReachedGone(v, trace)
      ensures released == |Answers(cfg, old(s), trace, v, s.calls[v].resource, Releasing)|
    {
      var before;
      ghost var begin, asked, end;
      before, begin := Act(v, RedlockProtocol.Unlock(v));
      UnlockEffect(cfg, before, v);
      released, asked := ReleaseAll(v);
      ghost var r, was := s.calls[v].resource, s;
      end := [EndUnlock(v)];
      EndUnlockEffect(cfg, s, v);
      s := Next(cfg, s, EndUnlock(v));
      trace := (begin + asked) + end;
      RunConcat(cfg, old(s), begin, asked);
      RunMore(cfg, old(s), begin + asked, EndUnlock(v));
      AttemptSends(cfg, old(s), begin, asked, end, v, RedlockProtocol.Unlock(v), r, Releasing);
      OneMoreMissing(was, s, Reached(asked, v, Releasing), 0, false, r, v);
    }

    /** The compare-and-expire script on client c: `ok` is an answer of 1. */
    method ExtendOnNext(v: Value, x: nat, c: nat, ghost from: State, ghost sofar: seq<Step>)
      returns (ok: bool, ghost trace: seq<Step>)
      requires Valid() && ExtendedSoFar(cfg, from, s, v, x, c, sofar) && c < cfg.n
      modifies this`s, this`at
      ensures Valid() && ExtendedSoFar(cfg, from, s, v, x, c + 1, trace)
      ensures |Answers(cfg, from, trace, v, from.calls[v].resource, ExtendingBy(x))|
              == |Answers(cfg, from, sofar, v, from.calls[v].resource, ExtendingBy(x))| + if ok then 1 else 0
    {
      var m;
      ghost var others, was := sofar, s;
      m, others := Others(v);
      var e := ExtendKey(v, x, m.took, m.heard, m.loss);
      ok := Succeeds(cfg, s, e, v, s.calls[v].resource, ExtendingBy(x), c);
      ExtendOneMore(cfg, from, was, s, v, x, c, sofar, others, m.took, m.heard, m.loss);
      s, trace := Next(cfg, s, e), sofar + (others + [e]);
    }

    /** The Extend loop: every client is asked once, `successCount` of them answer 1. */
    method ExtendAll(v: Value, x: nat) returns (successCount: nat, ghost trace: seq<Step>)
      requires Valid() && Extending(s, v, x)
      requires s.calls[v].extensions[x].next == 0 && s.calls[v].extensions[x].ok == {}
      modifies this`s, this`at
      ensures Valid() && ExtendedSoFar(cfg, old(s), s, v, x, cfg.n, trace)
      ensures successCount == |Answers(cfg, old(s), trace, v, old(s).calls[v].resource, ExtendingBy(x))|
    {
      successCount, trace := 0, [];
      for c := 0 to cfg.n
        invariant Valid() && ExtendedSoFar(cfg, old(s), s, v, x, c, trace)
        invariant successCount == |Answers(cfg, old(s), trace, v, old(s).calls[v].resource, ExtendingBy(x))|
      {
        var answered;
        answered, trace := ExtendOnNext(v, x, c, old(s), trace);
        if answered {
          successCount := successCount + 1;
        }
      }
    }

    method AskAllToExtend(v: Value, x: nat, newTtl: int) returns (successCount: nat, ghost trace: seq<Step>)
      requires Valid() && v in s.calls && s.calls[v].lock.Lock? && s.calls[v].lock.acquired
      requires x !in s.calls[v].extensions && MIN_TTL <= newTtl <= MAX_TTL
      modifies this`s, this`at
      ensures Valid() && s == Run(cfg, old(s), trace) && v in s.calls && Sent(trace, v, ExtendingBy(x)) == cfg.n
      ensures successCount == |Answers(cfg, old(s), trace, v, s.calls[v].resource, ExtendingBy(x))|
      ensures s.calls[v].lock == if successCount >= cfg.quorum then old(s).calls[v].lock.(ttl := newTtl)
                                 else old(s).calls[v].lock
    {
      var before;
      ghost var begin, asked, end;
      before, begin := Act(v, ExtendBegin(v, x, newTtl));
      ExtendBeginEffect(cfg, before, v, x, newTtl);
      successCount, asked := ExtendAll(v, x);
      ghost var r := s.calls[v].resource;
      end := [ExtendEnd(v, x)];
      ExtendEndEffect(cfg, s, v, x);
      s := Next(cfg, s, ExtendEnd(v, x));
      trace := (begin + asked) + end;
      RunConcat(cfg, old(s), begin, asked);
      RunMore(cfg, old(s), begin + asked, ExtendEnd(v, x));
      AttemptSends(cfg, old(s), begin, asked, end, v, ExtendBegin(v, x, newTtl), r, ExtendingBy(x));
    }

    /** Extend: every client is asked once; on a quorum of answers, and only then, it succeeds, and the
        lock's TTL becomes newTtl, still counted from `created`.  Otherwise the lock is as it was, though
        some keys may have moved. */
    method Extend(v: Value, x: nat, newTtl: int) returns (ok: bool, ghost trace: seq<Step>)
      requires Valid() && v in s.calls && s.calls[v].lock.Lock? && x !in s.calls[v].extensions
      modifies this`s, this`at, this`totalExtensions, this`successfulExtensions, this`failedExtensions
      ensures Valid() && s == Run(cfg, old(s), trace) && v in s.calls && s.calls[v].lock.Lock?
      ensures !(MIN_TTL <= newTtl <= MAX_TTL && old(s).calls[v].lock.acquired) ==>
                !ok && trace == [] && totalExtensions == old(totalExtensions)
      ensures MIN_TTL <= newTtl <= MAX_TTL && old(s).calls[v].lock.acquired ==>
                && totalExtensions == old(totalExtensions) + 1 && Sent(trace, v, ExtendingBy(x)) == cfg.n
                && (ok <==> |Answers(cfg, old(s), trace, v, s.calls[v].resource, ExtendingBy(x))| >= cfg.quorum)
      ensures s.calls[v].lock == if ok then old(s).calls[v].lock.(ttl := newTtl) else old(s).calls[v].lock
      ensures successfulExtensions == old(successfulExtensions) + if ok then 1 else 0
      ensures totalExtensions - successfulExtensions - failedExtensions
              == old(totalExtensions - successfulExtensions - failedExtensions)
    {
      ok, trace := false, [];
      if newTtl < MIN_TTL || newTtl > MAX_TTL || !s.calls[v].lock.acquired {
        return;
      }
      var successCount;
      successCount, trace := AskAllToExtend(v, x, newTtl);
      totalExtensions := totalExtensions + 1;
      ok := successCount >= cfg.quorum;
      if ok {
        successfulExtensions := successfulExtensions + 1;
      } else {
        failedExtensions := failedExtensions + 1;
      }
    }
  }
}
