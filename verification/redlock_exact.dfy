/** Why each assumption is there: mutual exclusion holds in every run if and only if all four are made. */
module RedlockExact {
  import opened RedlockProtocol
  import opened RedlockSafety

  /** The first `k` Sets of an attempt in which exactly the clients of `good` answer. */
  function Sets(v: Value, good: set<nat>, k: nat): (steps: seq<Step>)
    ensures |steps| == k
  {
    seq(k, c => SetKey(v, c in good, true, 0))
  }

  /** v has started one attempt on r, on clients that are all still as they were in s. */
  ghost predicate Begun(cfg: Config, s: State, s': State, v: Value, r: Resource, ttl: int, good: set<nat>, k: nat) {
    && s'.now == s.now && |s'.stores| == |s.stores|
    && s'.calls == s.calls[v := Call(r, ttl, 0, 0, Attempting(s.now, k, set c | c in good && c < k, 0), NoLock, map[])]
    && (forall c :: 0 <= c < |s.stores| ==>
          s'.stores[c] == if c in good && c < k then s.stores[c][r := Key(v, s.now + ttl)] else s.stores[c])
  }

  /** Every client of `good` will accept v's Set. */
  ghost predicate WillAccept(cfg: Config, s: State, r: Resource, good: set<nat>) {
    && |s.stores| == cfg.n && Below(good, cfg.n)
    && forall c :: c in good ==> c < |s.stores| && (cfg.absentOnly ==> Free(s.stores[c], r, s.now))
  }

  lemma SetStep(cfg: Config, s: State, s': State, v: Value, r: Resource, ttl: int, good: set<nat>, k: nat)
    requires WillAccept(cfg, s, r, good) && k < cfg.n && Begun(cfg, s, s', v, r, ttl, good, k)
    ensures Begun(cfg, s, Next(cfg, s', SetKey(v, k in good, true, 0)), v, r, ttl, good, k + 1)
  {
    var before, after := set c | c in good && c < k, set c | c in good && c < k + 1;
    assert after == if k in good then before + {k} else before;
    var e := SetKey(v, k in good, true, 0);
    assert Allowed(cfg, s', e);
    assert s'.stores[k] == s.stores[k];
    assert SetWrites(cfg, s'.stores[k], r, s'.now, k in good) == (k in good);
    var s'' := Next(cfg, s', e);
    assert s'' == AfterSet(cfg, s', v, k in good, true, 0);
    assert s''.calls[v].phase == Attempting(s.now, k + 1, after, 0);
    assert s''.calls == s.calls[v := s''.calls[v]];
  }

  lemma {:induction false} SetsRun(cfg: Config, s: State, v: Value, r: Resource, ttl: int, good: set<nat>, k: nat)
    requires v !in s.calls && 1 <= |r| <= MAX_RESOURCE_NAME && MIN_TTL <= ttl <= MAX_TTL
    requires WillAccept(cfg, s, r, good) && k <= cfg.n
    ensures Begun(cfg, s, Run(cfg, Next(cfg, s, Begin(v, r, ttl, 0)), Sets(v, good, k)), v, r, ttl, good, k)
  {
    if k > 0 {
      SetsRun(cfg, s, v, r, ttl, good, k - 1);
      assert Sets(v, good, k)[..k - 1] == Sets(v, good, k - 1);
      SetStep(cfg, s, Run(cfg, Next(cfg, s, Begin(v, r, ttl, 0)), Sets(v, good, k - 1)), v, r, ttl, good, k - 1);
    } else {
      assert (set c | c in good && c < 0) == {};
    }
  }

  lemma RunOne(cfg: Config, s: State, a: Step)
    ensures Run(cfg, s, [a]) == Next(cfg, s, a)
  {
    assert [a][..0] == [];
  }

  lemma RunTwo(cfg: Config, s: State, a: Step, b: Step)
    ensures Run(cfg, s, [a, b]) == Next(cfg, Next(cfg, s, a), b)
  {
    RunOne(cfg, s, a);
    assert [a, b][..1] == [a];
  }

  lemma RunThree(cfg: Config, s: State, a: Step, b: Step, c: Step)
    ensures Run(cfg, s, [a, b, c]) == Next(cfg, Next(cfg, Next(cfg, s, a), b), c)
  {
    RunTwo(cfg, s, a, b);
    assert [a, b, c][..2] == [a, b];
  }

  lemma DriftBounds(cfg: Config, ttl: int)
    requires WellFormed(cfg) && ttl >= MIN_TTL
    ensures 0 < DriftTime(cfg, ttl) < ttl
  {
    var t := ttl as real;
    assert t * cfg.driftFactor >= t * MIN_DRIFT_FACTOR >= 1000.0;
    assert t * cfg.driftFactor <= t * MAX_DRIFT_FACTOR < t;
  }

  function Acquire(cfg: Config, v: Value, r: Resource, ttl: int, good: set<nat>, lag: nat): seq<Step> {
    [Begin(v, r, ttl, 0)] + Sets(v, good, cfg.n) + [Judge(v), Tick(lag), Commit(v)]
  }

  lemma AcquireSteps(cfg: Config, s: State, v: Value, r: Resource, ttl: int, good: set<nat>, lag: nat)
    ensures Run(cfg, s, Acquire(cfg, v, r, ttl, good, lag))
            == Next(cfg, Next(cfg, Next(cfg, Run(cfg, Next(cfg, s, Begin(v, r, ttl, 0)), Sets(v, good, cfg.n)),
                                        Judge(v)), Tick(lag)), Commit(v))
  {
    var s1 := Next(cfg, s, Begin(v, r, ttl, 0));
    RunThree(cfg, Run(cfg, s1, Sets(v, good, cfg.n)), Judge(v), Tick(lag), Commit(v));
    RunOne(cfg, s, Begin(v, r, ttl, 0));
    RunConcat(cfg, s, [Begin(v, r, ttl, 0)], Sets(v, good, cfg.n));
    RunConcat(cfg, s, [Begin(v, r, ttl, 0)] + Sets(v, good, cfg.n), [Judge(v), Tick(lag), Commit(v)]);
  }

  /** What follows the Set calls of an attempt that a quorum answered. */
  lemma JudgeAndCommit(cfg: Config, s: State, v: Value, good: set<nat>, lag: nat) returns (s': State)
    requires WellFormed(cfg) && v in s.calls && MIN_TTL <= s.calls[v].ttl && |good| >= cfg.quorum
    requires s.calls[v].phase == Attempting(s.now, cfg.n, good, 0)
    requires cfg.lateness.Allows(lag - DriftTime(cfg, s.calls[v].ttl))
    ensures s' == Next(cfg, Next(cfg, Next(cfg, s, Judge(v)), Tick(lag)), Commit(v))
    ensures s' == s.(now := s.now + lag,
                     calls := s.calls[v := s.calls[v].(phase := Holding, lock := s'.calls[v].lock)])
    ensures s'.calls[v].lock == Lock(s.now + lag, s.calls[v].ttl - DriftTime(cfg, s.calls[v].ttl), true)
  {
    DriftBounds(cfg, s.calls[v].ttl);
    var s1 := Next(cfg, s, Judge(v));
    assert s1.calls[v].phase
           == Measured(s.now, s.now, good, 0, s.calls[v].ttl - DriftTime(cfg, s.calls[v].ttl));
    s' := Next(cfg, Next(cfg, s1, Tick(lag)), Commit(v));
  }

  lemma AllSets(cfg: Config, s: State, v: Value, r: Resource, ttl: int, good: set<nat>) returns (s2: State)
    requires v !in s.calls && 1 <= |r| <= MAX_RESOURCE_NAME && MIN_TTL <= ttl <= MAX_TTL && WillAccept(cfg, s, r, good)
    ensures s2 == Run(cfg, Next(cfg, s, Begin(v, r, ttl, 0)), Sets(v, good, cfg.n))
    ensures s2.now == s.now && |s2.stores| == |s.stores|
    ensures s2.calls == s.calls[v := Call(r, ttl, 0, 0, Attempting(s.now, cfg.n, good, 0), NoLock, map[])]
    ensures forall c :: 0 <= c < |s.stores| ==>
              s2.stores[c] == if c in good then s.stores[c][r := Key(v, s.now + ttl)] else s.stores[c]
  {
    s2 := Run(cfg, Next(cfg, s, Begin(v, r, ttl, 0)), Sets(v, good, cfg.n));
    SetsRun(cfg, s, v, r, ttl, good, cfg.n);
    assert (set c | c in good && c < cfg.n) == good;
  }

  /** An attempt that a quorum answers ends in a lock valid for ttl minus the drift allowance,
      counted from `lag` after the validity was computed. */
  lemma AcquireRun(cfg: Config, s: State, v: Value, r: Resource, ttl: int, good: set<nat>, lag: nat) returns (s': State)
    requires WellFormed(cfg) && v !in s.calls && 1 <= |r| <= MAX_RESOURCE_NAME && MIN_TTL <= ttl <= MAX_TTL
    requires WillAccept(cfg, s, r, good) && |good| >= cfg.quorum
    requires cfg.lateness.Allows(lag - DriftTime(cfg, ttl))
    ensures s' == Run(cfg, s, Acquire(cfg, v, r, ttl, good, lag))
    ensures s'.now == s.now + lag && |s'.stores| == |s.stores|
    ensures s'.calls == s.calls[v := Call(r, ttl, 0, 0, Holding,
                                          Lock(s.now + lag, ttl - DriftTime(cfg, ttl), true), map[])]
    ensures forall c :: 0 <= c < |s.stores| ==>
              s'.stores[c] == if c in good then s.stores[c][r := Key(v, s.now + ttl)] else s.stores[c]
    ensures Owns(s', v)
  {
    var s2 := AllSets(cfg, s, v, r, ttl, good);
    s' := JudgeAndCommit(cfg, s2, v, good, lag);
    AcquireSteps(cfg, s, v, r, ttl, good, lag);
    DriftBounds(cfg, ttl);
  }

  // ---- one run per missing assumption -----------------------------------------------------------

  /** No run from s ever lets two callers hold a resource at once. */
  ghost predicate AlwaysExclusive(cfg: Config, s: State) {
    forall steps :: Exclusive(Run(cfg, s, steps))
  }

  lemma BreaksLater(cfg: Config, s: State, steps: seq<Step>)
    requires !AlwaysExclusive(cfg, Run(cfg, s, steps))
    ensures !AlwaysExclusive(cfg, s)
  {
    var more :| !Exclusive(Run(cfg, Run(cfg, s, steps), more));
    RunConcat(cfg, s, steps, more);
    assert !Exclusive(Run(cfg, s, steps + more));
  }

  /** The clients numbered from lo up to, not including, hi. */
  function Clients(lo: nat, hi: nat): (cs: set<nat>)
    ensures forall c :: c in cs <==> lo <= c < hi
  {
    if lo >= hi then {} else Clients(lo, hi - 1) + {hi - 1}
  }

  lemma {:induction false} ClientsSize(lo: nat, hi: nat)
    requires lo <= hi
    ensures |Clients(lo, hi)| == hi - lo
  {
    if lo < hi {
      ClientsSize(lo, hi - 1);
      assert Clients(lo, hi) == Clients(lo, hi - 1) + {hi - 1} && hi - 1 !in Clients(lo, hi - 1);
    }
  }

  /** If one caller owns the resource and a quorum of clients would accept another caller's key, the run breaks. */
  lemma SecondOwner(cfg: Config, s: State, v: Value, w: Value, good: set<nat>)
    requires WellFormed(cfg) && v != w && Owns(s, v) && w !in s.calls
    requires 1 <= |s.calls[v].resource| <= MAX_RESOURCE_NAME
    requires WillAccept(cfg, s, s.calls[v].resource, good) && |good| >= cfg.quorum
    ensures !AlwaysExclusive(cfg, s)
  {
    var r := s.calls[v].resource;
    DriftBounds(cfg, SECOND);
    var s' := AcquireRun(cfg, s, w, r, SECOND, good, 0);
    assert Owns(s', v) && Owns(s', w) && s'.calls[v].resource == s'.calls[w].resource;
    assert !Exclusive(Run(cfg, s, Acquire(cfg, w, r, SECOND, good, 0)));
  }

  /** The repository's mock client: Set overwrites. */
  lemma OverwritingBreaks(cfg: Config)
    requires WellFormed(cfg) && !cfg.absentOnly
    ensures !AlwaysExclusive(cfg, Start(cfg))
  {
    ClientsSize(0, cfg.n);
    DriftBounds(cfg, SECOND);
    var s := AcquireRun(cfg, Start(cfg), "A", "r", SECOND, Clients(0, cfg.n), 0);
    SecondOwner(cfg, s, "A", "B", Clients(0, cfg.n));
    BreaksLater(cfg, Start(cfg), Acquire(cfg, "A", "r", SECOND, Clients(0, cfg.n), 0));
  }

  /** A takes the first `quorum` clients, and the next ones stay free. */
  lemma HalfTaken(cfg: Config) returns (s: State)
    requires WellFormed(cfg) && 2 * cfg.quorum <= cfg.n
    ensures s == Run(cfg, Start(cfg), Acquire(cfg, "A", "r", SECOND, Clients(0, cfg.quorum), 0))
    ensures Owns(s, "A") && s.calls["A"].resource == "r" && "B" !in s.calls
    ensures WillAccept(cfg, s, "r", Clients(cfg.quorum, 2 * cfg.quorum))
  {
    ClientsSize(0, cfg.quorum);
    DriftBounds(cfg, SECOND);
    s := AcquireRun(cfg, Start(cfg), "A", "r", SECOND, Clients(0, cfg.quorum), 0);
    assert forall c :: cfg.quorum <= c < cfg.n ==> s.stores[c] == map[];
  }

  /** A quorum that validateRedlockConfig accepts but that is not a majority. */
  lemma MinorityBreaks(cfg: Config)
    requires WellFormed(cfg) && 2 * cfg.quorum <= cfg.n
    ensures !AlwaysExclusive(cfg, Start(cfg))
  {
    var s := HalfTaken(cfg);
    ClientsSize(cfg.quorum, 2 * cfg.quorum);
    SecondOwner(cfg, s, "A", "B", Clients(cfg.quorum, 2 * cfg.quorum));
    BreaksLater(cfg, Start(cfg), Acquire(cfg, "A", "r", SECOND, Clients(0, cfg.quorum), 0));
  }

  /** A caller that may stall for just the drift allowance between computing the validity and stamping `created`. */
  lemma LateCommitBreaks(cfg: Config)
    requires WellFormed(cfg) && cfg.lateness != NONE
    ensures !AlwaysExclusive(cfg, Start(cfg))
  {
    ClientsSize(0, cfg.n);
    DriftBounds(cfg, SECOND);
    var all, lag := Clients(0, cfg.n), DriftTime(cfg, SECOND);
    var s := AcquireRun(cfg, Start(cfg), "A", "r", SECOND, all, lag);
    var s' := Next(cfg, s, Tick(SECOND - lag));
    RunOne(cfg, s, Tick(SECOND - lag));
    SecondOwner(cfg, s', "A", "B", all);
    BreaksLater(cfg, s, [Tick(SECOND - lag)]);
    BreaksLater(cfg, Start(cfg), Acquire(cfg, "A", "r", SECOND, all, lag));
  }

  // ---- any Extends of one lock ------------------------------------------------------------------

  /** v's lock is acquired, and no client holds anybody else's live key of the resource. */
  ghost predicate HoldsAlone(cfg: Config, s: State, v: Value) {
    && |s.stores| == cfg.n && v in s.calls && s.calls[v].lock.Lock? && s.calls[v].lock.acquired
    && forall c :: 0 <= c < |s.stores| ==>
         Free(s.stores[c], s.calls[v].resource, s.now) || s.stores[c][s.calls[v].resource].value == v
  }

  /** Time passes, or v's lock is being extended: `expire` may reach a client or not and the answer may be heard or not,
      a key may lose any lifetime, and one Extend may begin before another has ended. */
  predicate Extends(v: Value, e: Step) {
    e.Tick? || ((e.ExtendBegin? || e.ExtendKey? || e.ExtendEnd?) && e.v == v)
  }

  predicate OnlyExtends(v: Value, steps: seq<Step>) {
    forall i :: 0 <= i < |steps| ==> Extends(v, steps[i])
  }

  predicate NoneUnderWay(s: State, v: Value) {
    v in s.calls ==> s.calls[v].extensions == map[]
  }

  /** When v's lock runs out, as its caller sees it. */
  function End(s: State, v: Value): int
    requires v in s.calls && s.calls[v].lock.Lock?
  {
    s.calls[v].lock.created + s.calls[v].lock.ttl
  }

  /** The clients whose key outlasts v's lock. */
  function Outlasting(s: State, v: Value): (cs: set<nat>)
    requires v in s.calls && s.calls[v].lock.Lock?
  {
    var r := s.calls[v].resource;
    set c: nat | c < |s.stores| && r in s.stores[c] && s.stores[c][r].expiry > End(s, v)
  }

  /** v's lock has run out, or so many clients' keys outlast it that the others make no quorum. */
  predicate Outlasted(cfg: Config, s: State, v: Value)
    requires v in s.calls && s.calls[v].lock.Lock?
  {
    s.now > End(s, v) || |Outlasting(s, v)| > cfg.n - cfg.quorum
  }

  /** The same configuration, but for Extends that nothing is asked of. */
  function Lax(cfg: Config): Config {
    cfg.(shortfall := Unlimited)
  }

  /** All is well with everybody but v. */
  ghost predicate OthersWell(cfg: Config, s: State, v: Value) {
    forall u :: u in s.calls && u != v ==> CallInv(cfg, s, u, cfg.quorum)
  }

  /** At the end of v's lock, w can have every key that does not outlast it. */
  lemma ShortKeysBreak(cfg: Config, s: State, v: Value, w: Value)
    requires WellFormed(cfg) && HoldsAlone(cfg, s, v) && !Outlasted(cfg, s, v) && w !in s.calls
    requires 1 <= |s.calls[v].resource| <= MAX_RESOURCE_NAME
    ensures !AlwaysExclusive(cfg, s)
  {
    var wait, good := End(s, v) - s.now, Clients(0, cfg.n) - Outlasting(s, v);
    var s' := Next(cfg, s, Tick(wait));
    ClientsSize(0, cfg.n);
    assert |good| == |Clients(0, cfg.n)| - |Outlasting(s, v)| by {
      assert Outlasting(s, v) <= Clients(0, cfg.n);
    }
    assert forall c :: c in good ==> Free(s'.stores[c], s.calls[v].resource, s'.now);
    SecondOwner(cfg, s', v, w, good);
    RunOne(cfg, s, Tick(wait));
    BreaksLater(cfg, s, [Tick(wait)]);
  }

  lemma OutlastedCovers(cfg: Config, s: State, v: Value)
    requires WellFormed(cfg) && HoldsAlone(cfg, s, v) && Outlasted(cfg, s, v)
    ensures CoverInv(cfg, s, v, cfg.n - cfg.quorum + 1)
  {
    ClientsSize(0, cfg.n);
    var cover := if s.now > End(s, v) then Clients(0, cfg.n) else Outlasting(s, v);
    assert Covers(cfg, s, v, cfg.n - cfg.quorum + 1, cover);
  }

  /** What it takes, in a state in which v's lock is not being extended. */
  lemma AloneExactly(cfg: Config, s: State, v: Value, w: Value)
    requires WellFormed(cfg) && Guarded(cfg) && 2 * cfg.quorum > cfg.n && HoldsAlone(cfg, s, v) && OthersWell(cfg, s, v)
    requires LockInv(cfg, s, v) && s.calls[v].extensions == map[] && w !in s.calls
    requires 1 <= |s.calls[v].resource| <= MAX_RESOURCE_NAME
    ensures AlwaysExclusive(cfg, s) <==> Outlasted(cfg, s, v)
  {
    if Outlasted(cfg, s, v) {
      OutlastedCovers(cfg, s, v);
      assert WeakInv(cfg, s, Some(v));
      InvAlwaysExclusive(cfg, s, Some(v));
    } else {
      ShortKeysBreak(cfg, s, v, w);
    }
  }

  lemma ExtendsStep(cfg: Config, s: State, v: Value, e: Step)
    requires cfg.absentOnly && HoldsAlone(cfg, s, v) && LockInv(cfg, s, v) && Extends(v, e)
    ensures var s' := Next(cfg, s, e);
            && HoldsAlone(cfg, s', v) && LockInv(cfg, s', v) && s'.calls.Keys == s.calls.Keys
            && s'.calls[v].resource == s.calls[v].resource
  {
  }

  lemma ExtendsSpareOthers(cfg: Config, s: State, v: Value, e: Step)
    requires cfg.absentOnly && v in s.calls && OthersWell(cfg, s, v) && Extends(v, e)
    ensures OthersWell(cfg, Next(Lax(cfg), s, e), v)
  {
    var s' := Next(Lax(cfg), s, e);
    forall u | u in s'.calls && u != v ensures CallInv(cfg, s', u, cfg.quorum) {
      StepKeeps(Lax(cfg), s, e, u);
      OthersUntouched(Lax(cfg), s, e, u);
      CallKept(cfg, s, s', u, cfg.quorum);
    }
  }

  lemma {:induction false} ExtendsRun(cfg: Config, s: State, v: Value, steps: seq<Step>)
    requires cfg.absentOnly && HoldsAlone(cfg, s, v) && LockInv(cfg, s, v) && OthersWell(cfg, s, v)
    requires OnlyExtends(v, steps)
    ensures var s' := Run(Lax(cfg), s, steps);
            && HoldsAlone(cfg, s', v) && LockInv(cfg, s', v) && OthersWell(cfg, s', v)
            && s'.calls.Keys == s.calls.Keys && s'.calls[v].resource == s.calls[v].resource
  {
    if steps != [] {
      var before, e := steps[..|steps| - 1], steps[|steps| - 1];
      ExtendsRun(cfg, s, v, before);
      ExtendsStep(Lax(cfg), Run(Lax(cfg), s, before), v, e);
      ExtendsSpareOthers(cfg, Run(Lax(cfg), s, before), v, e);
    }
  }

  /** What the Extends of one lock do to mutual exclusion, whatever becomes of their commands: once they are over,
      everything from then on is exclusive if and only if the lock has run out, or the clients whose keys do not outlast
      it are too few for a quorum. */
  lemma ExtendsExactly(cfg: Config, s: State, v: Value, w: Value, steps: seq<Step>)
    requires WellFormed(cfg) && Guarded(cfg) && 2 * cfg.quorum > cfg.n && Inv(cfg, s) && HoldsAlone(cfg, s, v)
    requires 1 <= |s.calls[v].resource| <= MAX_RESOURCE_NAME && w !in s.calls
    requires OnlyExtends(v, steps) && NoneUnderWay(Run(Lax(cfg), s, steps), v)
    ensures var s' := Run(Lax(cfg), s, steps);
            HoldsAlone(cfg, s', v) && (AlwaysExclusive(cfg, s') <==> Outlasted(cfg, s', v))
  {
    assert CallInv(cfg, s, v, cfg.quorum);
    ExtendsRun(cfg, s, v, steps);
    AloneExactly(cfg, Run(Lax(cfg), s, steps), v, w);
  }

  lemma InvAlwaysExclusive(cfg: Config, s: State, weak: Option<Value>)
    requires Guarded(cfg) && 2 * cfg.quorum > cfg.n && WeakInv(cfg, s, weak)
    ensures AlwaysExclusive(cfg, s)
  {
    forall steps ensures Exclusive(Run(cfg, s, steps)) {
      RunKeepsInv(cfg, s, steps, weak);
      InvExclusive(cfg, Run(cfg, s, steps), weak);
    }
  }

  // ---- one Extend that all clients or none are heard of -----------------------------------------

  function ExtendKeys(v: Value, loss: int, heard: bool, k: nat): (steps: seq<Step>)
    ensures |steps| == k
  {
    seq(k, _ => ExtendKey(v, 0, true, heard, loss))
  }

  /** An Extend by newTtl that every client carries out, and of which every client or none is heard. */
  function ExtendSteps(n: nat, v: Value, newTtl: int, loss: int, heard: bool): seq<Step> {
    [ExtendBegin(v, 0, newTtl)] + ExtendKeys(v, loss, heard, n) + [ExtendEnd(v, 0)]
  }

  /** v's lock is acquired, not being extended, and v's key is live on every client. */
  ghost predicate HoldsEverywhere(cfg: Config, s: State, v: Value) {
    && |s.stores| == cfg.n && v in s.calls && s.calls[v].lock.Lock? && s.calls[v].lock.acquired
    && s.calls[v].extensions == map[] && forall c :: 0 <= c < |s.stores| ==>
       Matches(s.stores[c], s.calls[v].resource, v, s.now)
  }

  function NewExpiry(s: State, newTtl: int, loss: int): int {
    s.now + WholeSeconds(newTtl) - loss
  }

  /** k clients have carried out the Extend. */
  ghost predicate Extended(s: State, s': State, v: Value, newTtl: int, loss: int, heard: bool, k: nat)
    requires v in s.calls
  {
    && s'.now == s.now && |s'.stores| == |s.stores|
    && s'.calls == s.calls[v := s.calls[v].(extensions := map[0 := Extension(newTtl, k, if heard then Clients(0, k)
       else {})])]
    && forall c :: 0 <= c < |s.stores| ==>
         s'.stores[c]
         == if c < k then s.stores[c][s.calls[v].resource := Key(v, NewExpiry(s, newTtl, loss))] else s.stores[c]
  }

  /** The configuration lets such an Extend happen. */
  predicate MayExtend(cfg: Config, s: State, v: Value, newTtl: int, loss: int)
    requires v in s.calls && s.calls[v].lock.Lock?
  {
    var lock := s.calls[v].lock;
    && Reaches(cfg, s.now, lock.created, lock.ttl, NewExpiry(s, newTtl, loss))
    && Reaches(cfg, s.now, lock.created, newTtl, NewExpiry(s, newTtl, loss))
  }

  lemma ExtendStep(cfg: Config, s: State, s1: State, v: Value, newTtl: int, loss: int, heard: bool, k: nat)
    requires HoldsEverywhere(cfg, s, v) && MayExtend(cfg, s, v, newTtl, loss)
    requires k < cfg.n && Extended(s, s1, v, newTtl, loss, heard, k)
    ensures Extended(s, Next(cfg, s1, ExtendKey(v, 0, true, heard, loss)), v, newTtl, loss, heard, k + 1)
  {
    var e := ExtendKey(v, 0, true, heard, loss);
    assert Allowed(cfg, s1, e);
    assert s1.stores[k] == s.stores[k];
    var s2 := AfterExtendKey(cfg, s1, v, 0, true, heard, loss);
    assert s2.calls[v].extensions == map[0 := Extension(newTtl, k + 1, if heard then Clients(0, k + 1) else {})];
  }

  lemma {:induction false} KeysRun(cfg: Config, s: State, v: Value, newTtl: int, loss: int, heard: bool, k: nat)
    requires HoldsEverywhere(cfg, s, v) && MayExtend(cfg, s, v, newTtl, loss)
    requires k <= cfg.n && MIN_TTL <= newTtl <= MAX_TTL
    ensures Extended(s, Run(cfg, Next(cfg, s, ExtendBegin(v, 0, newTtl)), ExtendKeys(v, loss, heard, k)),
                     v, newTtl, loss, heard, k)
  {
    var s0 := Next(cfg, s, ExtendBegin(v, 0, newTtl));
    if k > 0 {
      KeysRun(cfg, s, v, newTtl, loss, heard, k - 1);
      assert ExtendKeys(v, loss, heard, k)[..k - 1] == ExtendKeys(v, loss, heard, k - 1);
      ExtendStep(cfg, s, Run(cfg, s0, ExtendKeys(v, loss, heard, k - 1)), v, newTtl, loss, heard, k - 1);
    }
  }

  /** The Extend has ended. */
  ghost predicate ExtendDone(cfg: Config, s: State, s': State, v: Value, newTtl: int, loss: int, heard: bool)
    requires v in s.calls && s.calls[v].lock.Lock?
  {
    var lock := s.calls[v].lock;
    && s'.now == s.now && |s'.stores| == |s.stores|
    && s'.calls == s.calls[v := s.calls[v].(lock := if heard then lock.(ttl := newTtl)
       else lock)]
    && forall c :: 0 <= c < |s.stores| ==>
         s'.stores[c] == s.stores[c][s.calls[v].resource := Key(v, NewExpiry(s, newTtl, loss))]
  }

  lemma ExtendEnds(cfg: Config, s: State, s1: State, v: Value, newTtl: int, loss: int, heard: bool)
    requires WellFormed(cfg) && HoldsEverywhere(cfg, s, v) && Extended(s, s1, v, newTtl, loss, heard, cfg.n)
    ensures ExtendDone(cfg, s, Next(cfg, s1, ExtendEnd(v, 0)), v, newTtl, loss, heard)
  {
    EndOfExtend(cfg, s1, v, newTtl, if heard then Clients(0, cfg.n) else {});
    ClientsSize(0, cfg.n);
    assert s.calls[v].extensions == map[];
  }

  lemma EndOfExtend(cfg: Config, s: State, v: Value, newTtl: int, ok: set<nat>)
    requires v in s.calls && s.calls[v].lock.Lock? && s.calls[v].extensions == map[0 := Extension(newTtl, cfg.n, ok)]
    ensures var call := s.calls[v];
            var lock := if |ok| >= cfg.quorum then call.lock.(ttl := newTtl) else call.lock;
            Next(cfg, s, ExtendEnd(v, 0)) == s.(calls := s.calls[v := call.(lock := lock, extensions := map[])])
  {
    assert Next(cfg, s, ExtendEnd(v, 0)) == AfterExtendEnd(cfg, s, v, 0);
    assert s.calls[v].extensions - {0} == map[];
  }

  lemma ExtendRun(cfg: Config, s: State, v: Value, newTtl: int, loss: int, heard: bool)
    requires WellFormed(cfg) && HoldsEverywhere(cfg, s, v) && MayExtend(cfg, s, v, newTtl, loss)
    requires MIN_TTL <= newTtl <= MAX_TTL
    ensures ExtendDone(cfg, s, Run(cfg, s, ExtendSteps(cfg.n, v, newTtl, loss, heard)), v, newTtl, loss, heard)
  {
    var begin, keys := [ExtendBegin(v, 0, newTtl)], ExtendKeys(v, loss, heard, cfg.n);
    KeysRun(cfg, s, v, newTtl, loss, heard, cfg.n);
    RunOne(cfg, s, ExtendBegin(v, 0, newTtl));
    RunConcat(cfg, s, begin, keys);
    var s1 := Run(cfg, s, begin + keys);
    ExtendEnds(cfg, s, s1, v, newTtl, loss, heard);
    RunOne(cfg, s1, ExtendEnd(v, 0));
    RunConcat(cfg, s, begin + keys, [ExtendEnd(v, 0)]);
  }

  /** The TTL the lock has afterwards. */
  function TtlAfter(s: State, v: Value, newTtl: int, heard: bool): int
    requires v in s.calls && s.calls[v].lock.Lock?
  {
    if heard then newTtl else s.calls[v].lock.ttl
  }

  /** The lock outlives its keys. */
  predicate FallsShort(s: State, v: Value, newTtl: int, loss: int, heard: bool)
    requires v in s.calls && s.calls[v].lock.Lock?
  {
    s.now <= s.calls[v].lock.created + TtlAfter(s, v, newTtl, heard)
    && NewExpiry(s, newTtl, loss) <= s.calls[v].lock.created + TtlAfter(s, v, newTtl, heard)
  }

  lemma AllOutlast(cfg: Config, s: State, s': State, v: Value, newTtl: int, loss: int, heard: bool)
    requires HoldsEverywhere(cfg, s, v) && ExtendDone(cfg, s, s', v, newTtl, loss, heard)
    ensures HoldsAlone(cfg, s', v)
    ensures Outlasting(s', v) == if NewExpiry(s, newTtl, loss) > End(s', v) then Clients(0, cfg.n) else {}
  {
    var r := s.calls[v].resource;
    assert forall c :: 0 <= c < cfg.n ==> s'.stores[c][r] == Key(v, NewExpiry(s, newTtl, loss));
  }

  lemma OneExtendOutlasts(cfg: Config, s: State, s': State, v: Value, newTtl: int, loss: int, heard: bool)
    requires WellFormed(cfg) && HoldsEverywhere(cfg, s, v) && ExtendDone(cfg, s, s', v, newTtl, loss, heard)
    ensures HoldsAlone(cfg, s', v) && (Outlasted(cfg, s', v) <==> !FallsShort(s, v, newTtl, loss, heard))
  {
    ClientsSize(0, cfg.n);
    AllOutlast(cfg, s, s', v, newTtl, loss, heard);
    assert End(s', v) == s.calls[v].lock.created + TtlAfter(s, v, newTtl, heard);
  }

  /** Then all keys outlast the lock, or none does. */
  lemma OneExtendExactly(cfg: Config, s: State, v: Value, w: Value, newTtl: int, loss: int, heard: bool)
    requires WellFormed(cfg) && Guarded(cfg) && 2 * cfg.quorum > cfg.n && Inv(cfg, s) && HoldsEverywhere(cfg, s, v)
    requires 1 <= |s.calls[v].resource| <= MAX_RESOURCE_NAME && w !in s.calls && MIN_TTL <= newTtl <= MAX_TTL
    ensures AlwaysExclusive(cfg, Run(Lax(cfg), s, ExtendSteps(cfg.n, v, newTtl, loss, heard)))
            <==> !FallsShort(s, v, newTtl, loss, heard)
  {
    var steps := ExtendSteps(cfg.n, v, newTtl, loss, heard);
    ExtendRun(Lax(cfg), s, v, newTtl, loss, heard);
    OneExtendOutlasts(cfg, s, Run(Lax(cfg), s, steps), v, newTtl, loss, heard);
    ExtendsExactly(cfg, s, v, w, steps);
  }

  // ---- the rules a caller can follow, one at a time ---------------------------------------------

  /** A lock got with TTL ttl is extended by newTtl when `elapsed` has passed since `created`; the keys lose `loss` to
      their stores' clocks; and every client is heard, or none. */
  datatype Case = Case(ttl: int, elapsed: nat, newTtl: int, loss: int, heard: bool)

  datatype Rule = WholeTtl | AfterCreated | NeverShorter | NoClockLoss

  predicate Obeys(p: Case, rule: Rule) {
    match rule
    case WholeTtl => p.newTtl % SECOND == 0
    case AfterCreated => p.elapsed > 0
    case NeverShorter => p.newTtl >= p.ttl
    case NoClockLoss => p.loss <= 0
  }

  predicate Fits(p: Case) {
    MIN_TTL <= p.ttl <= MAX_TTL && MIN_TTL <= p.newTtl <= MAX_TTL && p.elapsed < p.ttl
  }

  function CaseRun(cfg: Config, p: Case): State {
    Run(cfg, Start(cfg), Acquire(cfg, "A", "r", p.ttl, Clients(0, cfg.n), 0) + [Tick(p.elapsed)])
  }

  /** Everything from the end of such an Extend on is exclusive. */
  ghost predicate CaseIsSafe(cfg: Config, p: Case) {
    AlwaysExclusive(cfg, Run(Lax(cfg), CaseRun(cfg, p), ExtendSteps(cfg.n, "A", p.newTtl, p.loss, p.heard)))
  }

  lemma CaseHolds(cfg: Config, p: Case)
    requires WellFormed(cfg) && Guarded(cfg) && Fits(p)
    ensures var s := CaseRun(cfg, p);
            && HoldsEverywhere(cfg, s, "A") && Inv(cfg, s) && s.calls["A"].resource == "r" && "B" !in s.calls
            && s.calls["A"].lock.created == 0 && s.now == p.elapsed
            && s.calls["A"].lock.ttl == p.ttl - DriftTime(cfg, p.ttl)
  {
    var acquire := Acquire(cfg, "A", "r", p.ttl, Clients(0, cfg.n), 0);
    ClientsSize(0, cfg.n);
    DriftBounds(cfg, p.ttl);
    var s := AcquireRun(cfg, Start(cfg), "A", "r", p.ttl, Clients(0, cfg.n), 0);
    RunOne(cfg, s, Tick(p.elapsed));
    RunConcat(cfg, Start(cfg), acquire, [Tick(p.elapsed)]);
    RunKeepsInv(cfg, Start(cfg), acquire + [Tick(p.elapsed)], None);
  }

  /** Obeying all four rules is enough. */
  lemma RulesSuffice(cfg: Config, p: Case)
    requires WellFormed(cfg) && Guarded(cfg) && 2 * cfg.quorum > cfg.n && Fits(p)
    requires forall rule :: Obeys(p, rule)
    ensures CaseIsSafe(cfg, p)
  {
    CaseHolds(cfg, p);
    DriftBounds(cfg, p.ttl);
    assert Obeys(p, WholeTtl) && Obeys(p, AfterCreated) && Obeys(p, NeverShorter) && Obeys(p, NoClockLoss);
    OneExtendExactly(cfg, CaseRun(cfg, p), "A", "B", p.newTtl, p.loss, p.heard);
  }

  /** A case that breaks one rule only. */
  function Breaking(rule: Rule): (p: Case)
    ensures Fits(p) && forall other :: Obeys(p, other) <==> other != rule
  {
    match rule
    case WholeTtl => Case(SECOND, 1, SECOND + SECOND / 2, 0, true)
    case AfterCreated => Case(SECOND, 0, SECOND, 0, true)
    case NeverShorter => Case(3 * SECOND, 1, SECOND, 0, false)
    case NoClockLoss => Case(SECOND, 1, SECOND, 1, true)
  }

  /** No rule can be dropped: broken alone, each breaks mutual exclusion. */
  lemma EachRuleIsNeeded(cfg: Config, rule: Rule)
    requires WellFormed(cfg) && Guarded(cfg) && 2 * cfg.quorum > cfg.n
    ensures !CaseIsSafe(cfg, Breaking(rule))
  {
    var p := Breaking(rule);
    CaseHolds(cfg, p);
    DriftOfThreeSeconds(cfg);
    OneExtendExactly(cfg, CaseRun(cfg, p), "A", "B", p.newTtl, p.loss, p.heard);
  }

  /** The drift allowance is at most a tenth. */
  lemma DriftOfThreeSeconds(cfg: Config)
    requires WellFormed(cfg)
    ensures DriftTime(cfg, 3 * SECOND) <= SECOND / 3
  {
    var t := (3 * SECOND) as real;
    assert t * cfg.driftFactor <= t * MAX_DRIFT_FACTOR;
  }

  // ---- all of them ------------------------------------------------------------------------------

  /** If keys may fall short by the least amount: an Extend by one second, at `created`. */
  lemma RashExtendBreaks(cfg: Config)
    requires WellFormed(cfg) && cfg.shortfall != NONE
    ensures !AlwaysExclusive(cfg, Start(cfg))
  {
    var all := Clients(0, cfg.n);
    ClientsSize(0, cfg.n);
    DriftBounds(cfg, SECOND);
    var s := AcquireRun(cfg, Start(cfg), "A", "r", SECOND, all, 0);
    var extend := ExtendSteps(cfg.n, "A", SECOND, 0, true);
    ExtendRun(cfg, s, "A", SECOND, 0, true);
    OneExtendOutlasts(cfg, s, Run(cfg, s, extend), "A", SECOND, 0, true);
    ShortKeysBreak(cfg, Run(cfg, s, extend), "A", "B");
    BreaksLater(cfg, s, extend);
    BreaksLater(cfg, Start(cfg), Acquire(cfg, "A", "r", SECOND, all, 0));
  }

  /** Mutual exclusion holds in every run exactly when Set never overwrites a live key, the quorum is a majority,
      clock loss and lag stay below the drift allowance, and no Extend's keys fall short. */
  lemma ExclusionExactly(cfg: Config)
    requires WellFormed(cfg)
    ensures AlwaysExclusive(cfg, Start(cfg))
            <==> cfg.absentOnly && 2 * cfg.quorum > cfg.n && cfg.lateness == NONE && cfg.shortfall == NONE
  {
    if Guarded(cfg) && 2 * cfg.quorum > cfg.n {
      InvAlwaysExclusive(cfg, Start(cfg), None);
    } else if !cfg.absentOnly {
      OverwritingBreaks(cfg);
    } else if 2 * cfg.quorum <= cfg.n {
      MinorityBreaks(cfg);
    } else if cfg.lateness != NONE {
      LateCommitBreaks(cfg);
    } else {
      RashExtendBreaks(cfg);
    }
  }
}
