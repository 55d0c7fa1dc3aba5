/**
  The circuit breaker under concurrency.  Every call goes through its own reads and its own mutex section;
  sections exclude one another but admission reads do not wait for them, so a read may fall between the
  two stores of a section (`held`).  As in RedlockProtocol, `Run` skips steps that cannot happen.
 */
module ConcurrentBreaker {
  import opened Breakers

  /** What happened inside the mutex, in order: recorded outcomes, and changes of state. */
  datatype Mark = Probe | Good | Bad | Trip | Shut | Forced | Wipe

  /** Where a call has got to; after `Failing` and before its section, its failure time is already stored. */
  datatype Pc =
    | Arrived
    | SawOpen
    | SawFailure(at: int)
    | Probing
    | Clearing
    | SawHalfOpen
    | Running
    | Failing
    | Succeeding
    | Shutting
    | Done(admitted: bool)

  /** A mutex section between its two stores. */
  datatype Held = Unheld | HalfProbed(id: nat) | HalfShut(id: nat) | HalfWiped

  datatype State = State(b: Breaker, held: Held, calls: map<nat, Pc>, now: int, log: seq<Mark>)

  const START := State(FRESH, Unheld, map[], 1, [])

  datatype Step =
    | Tick(d: nat)
    | Arrive(id: nat)
    | ReadState(id: nat)
    | ReadLastFailure(id: nat)
    | ReadClock(id: nat)
    | ReadSuccesses(id: nat)
    | ProbeSection(id: nat)
    | ClearSuccesses(id: nat)
    | Finish(id: nat, ok: bool)
    | Record(id: nat)
    | EndShut(id: nat)
    | ForceOpened
    | BeginWipe
    | EndWipe

  predicate At(s: State, id: nat, pc: Pc) {
    id in s.calls && s.calls[id] == pc
  }

  predicate Allowed(s: State, e: Step) {
    match e
    case Tick(_) => true
    case Arrive(id) => id !in s.calls
    case ReadState(id) => At(s, id, Arrived)
    case ReadLastFailure(id) => At(s, id, SawOpen)
    case ReadClock(id) => id in s.calls && s.calls[id].SawFailure?
    case ReadSuccesses(id) => At(s, id, SawHalfOpen)
    case ProbeSection(id) => At(s, id, Probing) && s.held.Unheld?
    case ClearSuccesses(id) => At(s, id, Clearing) && s.held == HalfProbed(id)
    case Finish(id, _) => At(s, id, Running)
    case Record(id) => (At(s, id, Failing) || At(s, id, Succeeding)) && s.held.Unheld?
    case EndShut(id) => At(s, id, Shutting) && s.held == HalfShut(id)
    case ForceOpened => s.held.Unheld?
    case BeginWipe => s.held.Unheld?
    case EndWipe => s.held.HalfWiped?
  }

  function Moved(s: State, id: nat, pc: Pc): State {
    s.(calls := s.calls[id := pc])
  }

  function AfterFailure(l: Limits, s: State, id: nat): State {
    Moved(s, id, Done(true)).(b := Failed(l, s.b),
                              log := s.log + if Failed(l, s.b).mode != s.b.mode then [Bad, Trip] else [Bad])
  }

  function AfterSuccess(l: Limits, s: State, id: nat): State {
    if s.b.mode.HalfOpen? && s.b.successCount + 1 >= l.halfOpenMax
    then Moved(s, id, Shutting).(b := s.b.(successCount := s.b.successCount + 1), held := HalfShut(id))
    else Moved(s, id, Done(true)).(b := Succeeded(l, s.b), log := s.log + [Good])
  }

  function Next(l: Limits, s: State, e: Step): State {
    if !Allowed(s, e) then s
    else match e
      case Tick(d) => s.(now := s.now + d)
      case Arrive(id) => Moved(s, id, Arrived)
      case ReadState(id) =>
        Moved(s, id, match s.b.mode case Closed => Running case Open => SawOpen case HalfOpen => SawHalfOpen)
      case ReadLastFailure(id) => Moved(s, id, if s.b.lastFailure == 0 then Done(false)
          else SawFailure(s.b.lastFailure))
      case ReadClock(id) => Moved(s, id, if s.now - s.calls[id].at >= l.timeout then Probing else Done(false))
      case ReadSuccesses(id) => Moved(s, id, if s.b.successCount >= l.halfOpenMax then Done(false) else Running)
      case ProbeSection(id) =>
        if s.b.mode.Open? then Moved(s, id, Clearing).(b := s.b.(mode := HalfOpen), held := HalfProbed(id))
        else Moved(s, id, Running)
      case ClearSuccesses(id) =>
        Moved(s, id, Running).(b := s.b.(successCount := 0), held := Unheld, log := s.log + [Probe])
      case Finish(id, ok) =>
        if ok then Moved(s, id, Succeeding) else Moved(s, id, Failing).(b := s.b.(lastFailure := s.now))
      case Record(id) => if s.calls[id].Failing? then AfterFailure(l, s, id) else AfterSuccess(l, s, id)
      case EndShut(id) =>
        Moved(s, id, Done(true)).(b := s.b.(mode := Closed, failureCount := 0, healthy := true), held := Unheld,
                                  log := s.log + [Good, Shut])
      case ForceOpened => s.(b := s.b.(mode := Open, healthy := false), log := s.log + [Forced])
      case BeginWipe => s.(b := s.b.(mode := Closed), held := HalfWiped)
      case EndWipe => s.(b := FRESH, held := Unheld, log := s.log + [Wipe])
  }

  function Run(l: Limits, s: State, steps: seq<Step>): State
    decreases |steps|
  {
    if steps == [] then s else Run(l, Next(l, s, steps[0]), steps[1..])
  }

  // ---- what the marks say -----------------------------------------------------------------------

  function ModeOf(log: seq<Mark>): Mode {
    if log == [] then Closed
    else match log[|log| - 1]
      case Probe => HalfOpen
      case Trip => Open
      case Forced => Open
      case Shut => Closed
      case Wipe => Closed
      case _ => ModeOf(log[..|log| - 1])
  }

  /** The failures recorded since the last success or close. */
  function TrailingFailures(log: seq<Mark>): nat {
    if log == [] || !log[|log| - 1].Bad? then 0 else 1 + TrailingFailures(log[..|log| - 1])
  }

  /** The log ends in a HalfOpen entry and, since, n recorded successes and nothing else. */
  ghost predicate ProbedSince(log: seq<Mark>, n: nat) {
    n < |log| && log[|log| - n - 1].Probe? && forall i :: |log| - n <= i < |log| ==> log[i].Good?
  }

  /** The close at index k was earned: a HalfOpen entry, then exactly halfOpenMax successes, then the close. */
  ghost predicate Earned(l: Limits, log: seq<Mark>, k: nat) {
    k < |log| && log[k].Shut? && ProbedSince(log[..k], l.halfOpenMax)
  }

  /** The breaker and the log as they will be once the running section ends. */
  function Settled(s: State): (Breaker, seq<Mark>) {
    match s.held
    case Unheld => (s.b, s.log)
    case HalfProbed(_) => (s.b.(successCount := 0), s.log + [Probe])
    case HalfShut(_) => (s.b.(mode := Closed, failureCount := 0, healthy := true), s.log + [Good, Shut])
    case HalfWiped => (FRESH, s.log + [Wipe])
  }

  ghost predicate LogInv(l: Limits, b: Breaker, log: seq<Mark>) {
    && b.mode == ModeOf(log)
    && (b.healthy <==> b.mode.Closed?)
    && (b.mode.Closed? ==> b.failureCount == TrailingFailures(log) < l.threshold)
    && (b.mode.HalfOpen? ==> b.successCount < l.halfOpenMax && ProbedSince(log, b.successCount))
    && forall k :: 0 <= k < |log| && log[k].Shut? ==> Earned(l, log, k)
  }

  ghost predicate Inv(l: Limits, s: State) {
    LogInv(l, Settled(s).0, Settled(s).1)
  }

  lemma EarnedKept(l: Limits, log: seq<Mark>, more: seq<Mark>)
    requires forall k :: 0 <= k < |log| && log[k].Shut? ==> Earned(l, log, k)
    requires Shut !in more
    ensures forall k :: 0 <= k < |log + more| && (log + more)[k].Shut? ==> Earned(l, log + more, k)
  {
    forall k | 0 <= k < |log| && log[k].Shut? ensures Earned(l, log + more, k) {
      assert Earned(l, log, k) && (log + more)[..k] == log[..k];
    }
    assert forall k :: |log| <= k < |log + more| ==> (log + more)[k] in more;
  }

  lemma MarksEnd(log: seq<Mark>, m: Mark)
    ensures (log + [m])[..|log|] == log
    ensures (log + [Bad, Trip])[..|log| + 1] == log + [Bad] && (log + [Good, Shut])[..|log| + 1] == log + [Good]
  {
  }

  lemma FailureInv(l: Limits, s: State, id: nat)
    requires l.Valid() && Inv(l, s) && s.held.Unheld?
    ensures Inv(l, AfterFailure(l, s, id))
  {
    MarksEnd(s.log, Bad);
    EarnedKept(l, s.log, if Failed(l, s.b).mode != s.b.mode then [Bad, Trip] else [Bad]);
  }

  lemma SuccessInv(l: Limits, s: State, id: nat)
    requires l.Valid() && Inv(l, s) && s.held.Unheld?
    ensures Inv(l, AfterSuccess(l, s, id))
  {
    MarksEnd(s.log, Good);
    if AfterSuccess(l, s, id).held.HalfShut? {
      ShutEarned(l, s.b, s.log);
    } else {
      EarnedKept(l, s.log, [Good]);
    }
  }

  /** The last success of a probe earns the close. */
  lemma ShutEarned(l: Limits, b: Breaker, log: seq<Mark>)
    requires l.Valid() && LogInv(l, b, log) && b.mode.HalfOpen? && b.successCount + 1 == l.halfOpenMax
    ensures forall k :: 0 <= k < |log + [Good, Shut]| && (log + [Good, Shut])[k].Shut? ==>
            Earned(l, log + [Good, Shut], k)
  {
    var longer := log + [Good, Shut];
    assert longer == (log + [Good]) + [Shut] && longer[..|log| + 1] == log + [Good];
    forall k | 0 <= k < |longer| && longer[k].Shut? ensures Earned(l, longer, k) {
      if k < |log| {
        assert Earned(l, log, k) && longer[..k] == log[..k];
      }
    }
  }

  lemma NextInv(l: Limits, s: State, e: Step)
    requires l.Valid() && Inv(l, s)
    ensures Inv(l, Next(l, s, e))
  {
    if Allowed(s, e) {
      match e
      case Record(id) =>
        if s.calls[id].Failing? {
          FailureInv(l, s, id);
        } else {
          SuccessInv(l, s, id);
        }
      case ProbeSection(_) => MarkInv(l, s, e, Probe);
      case ForceOpened => MarkInv(l, s, e, Forced);
      case BeginWipe => MarkInv(l, s, e, Wipe);
      case _ => KeptInv(l, s, e);
    }
  }

  /** A section begins that will add one mark. */
  lemma MarkInv(l: Limits, s: State, e: Step, m: Mark)
    requires l.Valid() && Inv(l, s) && Allowed(s, e)
    requires (e.ProbeSection? && m == Probe) || (e.ForceOpened? && m == Forced) || (e.BeginWipe? && m == Wipe)
    ensures Inv(l, Next(l, s, e))
  {
    MarksEnd(s.log, m);
    EarnedKept(l, s.log, [m]);
  }

  /** The other steps do not change what the breaker and the log will be, but for the failure time. */
  lemma KeptInv(l: Limits, s: State, e: Step)
    requires Inv(l, s) && Allowed(s, e)
    requires !e.Record? && !e.ProbeSection? && !e.ForceOpened? && !e.BeginWipe?
    ensures Inv(l, Next(l, s, e))
  {
    var s' := Next(l, s, e);
    assert Settled(s').1 == Settled(s).1;
    assert Settled(s').0 == Settled(s).0.(lastFailure := Settled(s').0.lastFailure);
  }

  lemma {:induction false} RunInv(l: Limits, s: State, steps: seq<Step>)
    requires l.Valid() && Inv(l, s)
    ensures Inv(l, Run(l, s, steps))
    decreases |steps|
  {
    if steps != [] {
      NextInv(l, s, steps[0]);
      RunInv(l, Next(l, s, steps[0]), steps[1..]);
    }
  }

  /** Whenever the mutex is free: the counters are what the recorded outcomes say, and the limits hold. */
  lemma CountersAtRelease(l: Limits, steps: seq<Step>)
    requires l.Valid()
    ensures var s := Run(l, START, steps);
            s.held.Unheld? ==>
              && (s.b.mode.Closed? ==> s.b.failureCount == TrailingFailures(s.log) < l.threshold)
              && (s.b.mode.HalfOpen? ==> s.b.successCount < l.halfOpenMax && ProbedSince(s.log, s.b.successCount))
              && (s.b.healthy <==> s.b.mode.Closed?)
  {
    RunInv(l, START, steps);
  }

  // ---- recovery ---------------------------------------------------------------------------------

  /** What a section has stored so far. */
  predicate HeldInv(s: State) {
    match s.held
    case Unheld => true
    case HalfProbed(_) => s.b.mode.HalfOpen?
    case HalfShut(_) => s.b.mode.HalfOpen?
    case HalfWiped => s.b.mode.Closed?
  }

  lemma {:induction false} RunHeld(l: Limits, s: State, steps: seq<Step>)
    requires HeldInv(s)
    ensures HeldInv(Run(l, s, steps))
    decreases |steps|
  {
    if steps != [] {
      RunHeld(l, Next(l, s, steps[0]), steps[1..]);
    }
  }

  lemma {:induction false} LogGrows(l: Limits, s: State, steps: seq<Step>) returns (extra: seq<Mark>)
    requires BeginWipe !in steps && !s.held.HalfWiped?
    ensures Run(l, s, steps).log == s.log + extra && Wipe !in extra && !Run(l, s, steps).held.HalfWiped?
    decreases |steps|
  {
    if steps == [] {
      extra := [];
    } else {
      var s' := Next(l, s, steps[0]);
      var added := s'.log[|s.log|..];
      assert steps[0] in steps && forall e :: e in steps[1..] ==> e in steps;
      assert s'.log == s.log + added && Wipe !in added;
      extra := LogGrows(l, s', steps[1..]);
      extra := added + extra;
    }
  }

  lemma {:induction false} MustShut(log: seq<Mark>, extra: seq<Mark>) returns (k: nat)
    requires !ModeOf(log).Closed? && ModeOf(log + extra).Closed? && Wipe !in extra
    ensures |log| <= k < |log + extra| && (log + extra)[k].Shut?
  {
    assert log + [] == log;
    var n := |extra| - 1;
    assert (log + extra)[..|log + extra| - 1] == log + extra[..n];
    assert extra[n] in extra;
    if extra[n].Shut? {
      k := |log| + n;
    } else {
      k := MustShut(log, extra[..n]);
      assert (log + extra)[k] == (log + extra[..n])[k];
    }
  }

  lemma {:induction false} ProbedIsHalfOpen(log: seq<Mark>, n: nat)
    requires ProbedSince(log, n)
    ensures ModeOf(log).HalfOpen?
  {
    if n > 0 {
      assert log[|log| - 1].Good?;
      ProbedIsHalfOpen(log[..|log| - 1], n - 1);
    }
  }

  /** The only way back: between a moment when the breaker is open and a later one when it is closed, with no
      ForceClose or Reset between, lies a HalfOpen entry followed by exactly halfOpenMax recorded successes, no
      recorded failure among them, and the close they earned. */
  lemma Recovery(l: Limits, before: seq<Step>, more: seq<Step>) returns (k: nat)
    requires l.Valid() && BeginWipe !in more
    requires Run(l, START, before).b.mode.Open? && Run(l, Run(l, START, before), more).b.mode.Closed?
    ensures var s0, s1 := Run(l, START, before), Run(l, Run(l, START, before), more);
            s0.log <= s1.log && Earned(l, s1.log, k) && k - l.halfOpenMax - 1 >= |s0.log|
  {
    var s0 := Run(l, START, before);
    var s1 := Run(l, s0, more);
    RunHeld(l, START, before);
    RunHeld(l, s0, more);
    RunInv(l, START, before);
    RunInv(l, s0, more);
    var extra := LogGrows(l, s0, more);
    k := MustShut(s0.log, extra);
    assert Earned(l, s1.log, k);
    var p := k - l.halfOpenMax - 1;
    assert s1.log[..k][p].Probe?;
    if p < |s0.log| {
      forall i | p < i < |s0.log| ensures s0.log[i].Good? {
        assert s1.log[..k][i].Good?;
      }
      ProbedIsHalfOpen(s0.log, |s0.log| - 1 - p);
    }
  }

  // ---- when recovery is possible at all ---------------------------------------------------------

  /** Nobody has been let in and not yet been recorded. */
  ghost predicate Quiet(s: State) {
    s.held.Unheld? && forall id :: id in s.calls ==> s.calls[id].Arrived? || s.calls[id].SawOpen? || s.calls[id].Done?
  }

  lemma {:induction false} StaysOpen(l: Limits, s: State, steps: seq<Step>)
    requires Quiet(s) && s.b.mode.Open? && s.b.lastFailure == 0 && BeginWipe !in steps
    ensures var s' := Run(l, s, steps); Quiet(s') && s'.b.mode.Open? && s'.b.lastFailure == 0
    decreases |steps|
  {
    if steps != [] {
      assert steps[0] in steps && forall e :: e in steps[1..] ==> e in steps;
      StaysOpen(l, Next(l, s, steps[0]), steps[1..]);
    }
  }

  lemma {:induction false} UnusedId(used: set<nat>) returns (id: nat)
    ensures forall u :: u in used ==> u < id
  {
    if used == {} {
      id := 0;
    } else {
      var u :| u in used;
      var below := UnusedId(used - {u});
      id := if u >= below then u + 1 else below;
      forall w | w in used ensures w < id {
        assert w == u || w in used - {u};
      }
    }
  }

  lemma RunCons(l: Limits, s: State, e: Step, rest: seq<Step>)
    ensures Run(l, s, [e] + rest) == Run(l, Next(l, s, e), rest)
  {
    assert ([e] + rest)[1..] == rest;
  }

  lemma {:induction false} RunConcat(l: Limits, s: State, a: seq<Step>, b: seq<Step>)
    ensures Run(l, s, a + b) == Run(l, Run(l, s, a), b)
    decreases |a|
  {
    if a == [] {
      assert a + b == b;
    } else {
      assert (a + b)[1..] == a[1..] + b;
      RunConcat(l, Next(l, s, a[0]), a[1..], b);
    }
  }

  lemma RunFour(l: Limits, s: State, a: Step, b: Step, c: Step, d: Step)
    ensures Run(l, s, [a, b, c, d]) == Next(l, Next(l, Next(l, Next(l, s, a), b), c), d)
  {
    var s1 := Next(l, s, a);
    var s2 := Next(l, s1, b);
    var s3 := Next(l, s2, c);
    assert [a, b, c, d][1..] == [b, c, d] && [b, c, d][1..] == [c, d] && [c, d][1..] == [d] && [d][1..] == [];
    assert Run(l, s3, [d]) == Next(l, s3, d);
    assert Run(l, s2, [c, d]) == Run(l, s3, [d]);
    assert Run(l, s1, [b, c, d]) == Run(l, s2, [c, d]);
  }

  /** What one call does, undisturbed; of these, the steps that do not apply are skipped. */
  function Enquire(id: nat): seq<Step> {
    [Arrive(id), ReadState(id), ReadLastFailure(id), ReadClock(id)]
  }

  function Enter(id: nat, d: nat): seq<Step> {
    [ReadSuccesses(id), ProbeSection(id), ClearSuccesses(id), Tick(d)]
  }

  function Leave(id: nat, ok: bool): seq<Step> {
    [Finish(id, ok), Record(id), EndShut(id), Tick(0)]
  }

  lemma Enquiry(l: Limits, s: State, id: nat)
    requires s.held.Unheld? && id !in s.calls
    ensures var s1 := Run(l, s, Enquire(id));
            && s1.b == s.b && s1.held.Unheld? && s1.now == s.now && id in s1.calls
            && s1.calls[id] == match s.b.mode
                               case Closed => Running
                               case HalfOpen => SawHalfOpen
                               case Open => if MayReset(l, s.b, s.now) then Probing else Done(false)
  {
    RunFour(l, s, Arrive(id), ReadState(id), ReadLastFailure(id), ReadClock(id));
  }

  lemma Entry(l: Limits, s: State, id: nat, d: nat)
    requires s.held.Unheld? && id in s.calls
    requires s.calls[id] == match s.b.mode
                            case Closed => Running
                            case HalfOpen => SawHalfOpen
                            case Open => if MayReset(l, s.b, s.now) then Probing else Done(false)
    ensures var s' := Run(l, s, Enter(id, d));
            && s'.held.Unheld? && s'.now == s.now + d && id in s'.calls
            && s'.calls[id] == (if Admits(l, s.b, s.now) then Running else Done(false))
            && s'.b == (if Admits(l, s.b, s.now) then Probed(s.b) else s.b)
  {
    RunFour(l, s, ReadSuccesses(id), ProbeSection(id), ClearSuccesses(id), Tick(d));
  }

  lemma Admission(l: Limits, s: State, id: nat, d: nat)
    requires s.held.Unheld? && id !in s.calls
    ensures var s' := Run(l, s, Enquire(id) + Enter(id, d));
            && s'.held.Unheld? && s'.now == s.now + d && id in s'.calls
            && s'.calls[id] == (if Admits(l, s.b, s.now) then Running else Done(false))
            && s'.b == (if Admits(l, s.b, s.now) then Probed(s.b) else s.b)
  {
    Enquiry(l, s, id);
    Entry(l, Run(l, s, Enquire(id)), id, d);
    RunConcat(l, s, Enquire(id), Enter(id, d));
  }

  /** A call that nobody interrupts does what the sequential breaker does. */
  lemma UndisturbedCall(l: Limits, s: State, id: nat, d: nat, ok: bool)
    requires s.held.Unheld? && id !in s.calls
    ensures var s' := Run(l, s, Enquire(id) + Enter(id, d) + Leave(id, ok));
            s'.held.Unheld? && s'.b == AfterCall(l, s.b, Call(s.now, s.now + d, ok))
  {
    Admission(l, s, id, d);
    Exit(l, Run(l, s, Enquire(id) + Enter(id, d)), id, ok);
    RunConcat(l, s, Enquire(id) + Enter(id, d), Leave(id, ok));
  }

  lemma Exit(l: Limits, s: State, id: nat, ok: bool)
    requires s.held.Unheld? && id in s.calls && (s.calls[id] == Running || s.calls[id] == Done(false))
    ensures var s' := Run(l, s, Leave(id, ok));
            s'.held.Unheld? && s'.b == if s.calls[id].Running? then Recorded(l, s.b, ok, s.now) else s.b
  {
    RunFour(l, s, Finish(id, ok), Record(id), EndShut(id), Tick(0));
  }

  /** An open breaker with nobody inside can be brought back without ForceClose or Reset
      if and only if some failure time is stored. */
  lemma RecoverableExactly(l: Limits, s: State)
    requires Quiet(s) && s.b.mode.Open?
    ensures (exists steps :: BeginWipe !in steps && Run(l, s, steps).b.mode.HalfOpen?) <==> s.b.lastFailure != 0
  {
    if s.b.lastFailure == 0 {
      forall steps | BeginWipe !in steps ensures !Run(l, s, steps).b.mode.HalfOpen? {
        StaysOpen(l, s, steps);
      }
    } else {
      var id := UnusedId(s.calls.Keys);
      var due := s.b.lastFailure + l.timeout - s.now;
      var wait: nat := if due > 0 then due else 0;
      var s1 := Next(l, s, Tick(wait));
      Admission(l, s1, id, 0);
      var steps := [Tick(wait)] + (Enquire(id) + Enter(id, 0));
      RunCons(l, s, Tick(wait), Enquire(id) + Enter(id, 0));
      assert BeginWipe !in steps && Run(l, s, steps).b.mode.HalfOpen?;
    }
  }

  /** Open with no failure time and nobody inside: RecoverableExactly says that only ForceClose or Reset helps. */
  ghost predicate Stuck(s: State) {
    Quiet(s) && s.b.mode.Open? && s.b.lastFailure == 0
  }

  /** ForceOpen on a breaker with no failure time and nobody inside leaves it stuck. */
  lemma ForceOpenSticks(l: Limits, s: State)
    requires Quiet(s) && s.b.lastFailure == 0
    ensures Stuck(Run(l, s, [ForceOpened]))
  {
    assert [ForceOpened][1..] == [];
  }

  /** k calls fail, and none has taken the mutex yet to be counted. */
  function FailAll(k: nat): seq<Step> {
    if k == 0 then [] else FailAll(k - 1) + [Arrive(k - 1), ReadState(k - 1), Finish(k - 1, false), Tick(0)]
  }

  function RecordAll(k: nat): seq<Step> {
    if k == 0 then [] else RecordAll(k - 1) + [Record(k - 1)]
  }

  lemma {:induction false} FailAllRun(l: Limits, k: nat)
    ensures var s := Run(l, START, FailAll(k));
            && s.b == FRESH.(lastFailure := s.b.lastFailure) && s.held.Unheld?
            && (forall id :: id in s.calls <==> 0 <= id < k) && forall id :: id in s.calls ==> s.calls[id].Failing?
  {
    if k > 0 {
      FailAllRun(l, k - 1);
      var s := Run(l, START, FailAll(k - 1));
      RunFour(l, s, Arrive(k - 1), ReadState(k - 1), Finish(k - 1, false), Tick(0));
      RunConcat(l, START, FailAll(k - 1), [Arrive(k - 1), ReadState(k - 1), Finish(k - 1, false), Tick(0)]);
    }
  }

  lemma {:induction false} RecordAllRun(l: Limits, s: State, n: nat, k: nat)
    requires l.Valid() && k <= n <= l.threshold && s.b == FRESH && s.held.Unheld?
    requires (forall id :: id in s.calls <==> 0 <= id < n) && forall id :: id in s.calls ==> s.calls[id].Failing?
    ensures var s' := Run(l, s, RecordAll(k));
            && s'.held.Unheld? && s'.b.lastFailure == 0 && s'.b.failureCount == k
            && s'.b.mode == (if k == l.threshold then Open else Closed)
            && (forall id :: id in s'.calls <==> 0 <= id < n)
            && forall id :: id in s'.calls ==> s'.calls[id] == if id < k then Done(true) else Failing
  {
    if k > 0 {
      RecordAllRun(l, s, n, k - 1);
      var s1 := Run(l, s, RecordAll(k - 1));
      RunConcat(l, s, RecordAll(k - 1), [Record(k - 1)]);
      assert [Record(k - 1)][1..] == [];
      assert Run(l, s1, [Record(k - 1)]) == AfterFailure(l, s1, k - 1);
    }
  }

  /** A Reset that falls between the two halves of a threshold of failures leaves the breaker stuck, for every limit. */
  lemma ResetRaceSticks(l: Limits) returns (steps: seq<Step>)
    requires l.Valid()
    ensures ForceOpened !in steps && Stuck(Run(l, START, steps))
  {
    var n := l.threshold;
    var wipe := [BeginWipe, EndWipe, Tick(0), Tick(0)];
    FailAllRun(l, n);
    var s := Run(l, START, FailAll(n));
    RunFour(l, s, BeginWipe, EndWipe, Tick(0), Tick(0));
    RunConcat(l, START, FailAll(n), wipe);
    RecordAllRun(l, Run(l, s, wipe), n, n);
    RunConcat(l, START, FailAll(n) + wipe, RecordAll(n));
    steps := FailAll(n) + wipe + RecordAll(n);
    NoForce(n);
  }

  lemma {:induction false} NoForce(n: nat)
    ensures ForceOpened !in FailAll(n) && ForceOpened !in RecordAll(n)
  {
    if n > 0 {
      NoForce(n - 1);
    }
  }

  /** No wipe falls between a failure's two halves, and nobody forces open a breaker that never failed. */
  ghost predicate Calm(l: Limits, s: State, steps: seq<Step>)
    decreases |steps|
  {
    steps != [] ==>
      && (steps[0].EndWipe? ==> forall id :: id in s.calls ==> !s.calls[id].Failing?)
      && (steps[0].ForceOpened? ==> s.b.lastFailure != 0)
      && Calm(l, Next(l, s, steps[0]), steps[1..])
  }

  ghost predicate FailureTimed(s: State) {
    && 0 < s.now && 0 <= s.b.lastFailure && HeldInv(s)
    && (s.b.mode.Open? || (exists id :: id in s.calls && s.calls[id].Failing?) ==> 0 < s.b.lastFailure)
  }

  /** In a calm run an open breaker always has a failure time, so it can recover. */
  lemma {:induction false} CalmStaysRecoverable(l: Limits, s: State, steps: seq<Step>)
    requires FailureTimed(s) && Calm(l, s, steps)
    ensures FailureTimed(Run(l, s, steps))
    decreases |steps|
  {
    if steps != [] {
      var s' := Next(l, s, steps[0]);
      if id :| id in s'.calls && s'.calls[id].Failing? {
        assert id in s.calls;
      }
      CalmStaysRecoverable(l, s', steps[1..]);
    }
  }

  lemma CalmFromStart(l: Limits, steps: seq<Step>)
    requires Calm(l, START, steps)
    ensures var s := Run(l, START, steps); s.b.mode.Open? ==> s.b.lastFailure != 0
  {
    CalmStaysRecoverable(l, START, steps);
  }
}
