/** What a caller can do to keep mutual exclusion when nothing in the step system enforces it. */
module RedlockCallers {
  import opened RedlockProtocol
  import opened RedlockSafety

  function Guard(cfg: Config): Config {
    cfg.(lateness := NONE, shortfall := NONE)
  }

  /** Every commit in the run was in time, and every `expire` careful. */
  ghost predicate Behaved(cfg: Config, s: State, steps: seq<Step>) {
    steps != [] ==>
      var before, e := Run(cfg, s, steps[..|steps| - 1]), steps[|steps| - 1];
      Behaved(cfg, s, steps[..|steps| - 1]) && (Allowed(cfg, before, e) ==> Allowed(Guard(cfg), before, e))
  }

  lemma SameJudge(cfg: Config, s: State, v: Value)
    requires Allowed(cfg, s, Judge(v)) && Allowed(Guard(cfg), s, Judge(v))
    ensures AfterJudge(Guard(cfg), s, v) == AfterJudge(cfg, s, v)
  {
    assert DriftTime(Guard(cfg), s.calls[v].ttl) == DriftTime(cfg, s.calls[v].ttl);
  }

  lemma SameStep(cfg: Config, s: State, e: Step)
    requires Allowed(cfg, s, e) ==> Allowed(Guard(cfg), s, e)
    ensures Next(Guard(cfg), s, e) == Next(cfg, s, e)
  {
    if Allowed(cfg, s, e) && e.Judge? {
      SameJudge(cfg, s, e.v);
    }
  }

  lemma {:induction false} SameRun(cfg: Config, s: State, steps: seq<Step>)
    requires Behaved(cfg, s, steps)
    ensures Run(Guard(cfg), s, steps) == Run(cfg, s, steps)
  {
    if steps != [] {
      SameRun(cfg, s, steps[..|steps| - 1]);
      SameStep(cfg, Run(cfg, s, steps[..|steps| - 1]), steps[|steps| - 1]);
    }
  }

  lemma BehavedExclusive(cfg: Config, steps: seq<Step>)
    requires cfg.absentOnly && 2 * cfg.quorum > cfg.n && Behaved(cfg, Start(cfg), steps)
    ensures Exclusive(Run(cfg, Start(cfg), steps))
  {
    SameRun(cfg, Start(cfg), steps);
    MutualExclusion(Guard(cfg), steps);
  }

  // ---- a rule for Extend that a caller can check ------------------------------------------------

  /** v's lock carries this TTL, or one of its Extends under way is to give it. */
  ghost predicate Carries(call: Call, ttl: int) {
    (call.lock.Lock? && ttl == call.lock.ttl) || exists x :: x in call.extensions && ttl == call.extensions[x].ttl
  }

  /** Sent from now on, an `expire` of newTtl that loses no more than `worst` to the store's clock outlives every TTL
      that the lock carries or is being given. */
  ghost predicate HasRoom(now: int, call: Call, newTtl: int, worst: int)
    requires call.lock.Lock?
  {
    forall ttl | Carries(call, ttl) :: now + WholeSeconds(newTtl) - worst > call.lock.created + ttl
  }

  /** The call as it is once this Extend has begun. */
  function Begun(call: Call, x: nat, newTtl: int): Call {
    call.(extensions := call.extensions[x := Extension(newTtl, 0, {})])
  }

  /** What a caller can see to.  Commits are in time.  No store's clock costs a key more than `worst` during an Extend.
      And an Extend begins only when it, and every Extend of the lock still under way, then has room. */
  ghost predicate FollowsRule(cfg: Config, worst: int, s: State, e: Step) {
    match e
    case Commit(_) => Allowed(cfg, s, e) ==> Allowed(cfg.(lateness := NONE), s, e)
    case ExtendBegin(v, x, newTtl) =>
      Allowed(cfg, s, e) ==>
        var call := Begun(s.calls[v], x, newTtl);
        forall y | y in call.extensions :: HasRoom(s.now, call, call.extensions[y].ttl, worst)
    case ExtendKey(_, _, _, _, loss) => loss <= worst
    case _ => true
  }

  ghost predicate RuleRun(cfg: Config, worst: int, s: State, steps: seq<Step>) {
    steps != [] ==>
      && RuleRun(cfg, worst, s, steps[..|steps| - 1])
      && FollowsRule(cfg, worst, Run(cfg, s, steps[..|steps| - 1]), steps[|steps| - 1])
  }

  /** Every Extend under way has room, and goes on having it. */
  ghost predicate Roomy(cfg: Config, worst: int, s: State, v: Value)
    requires v in s.calls
  {
    var call := s.calls[v];
    && LockInv(cfg, s, v)
    && (call.lock.Lock? && call.lock.acquired ==>
          forall y | y in call.extensions :: HasRoom(s.now, call, call.extensions[y].ttl, worst))
  }

  ghost predicate AllRoomy(cfg: Config, worst: int, s: State) {
    forall v :: v in s.calls ==> Roomy(cfg, worst, s, v)
  }

  /** Fewer TTLs, and later: there is still room. */
  lemma RoomKept(worst: int, now: int, call: Call, now': int, call': Call, newTtl: int)
    requires call.lock.Lock? && call'.lock.Lock? && call'.lock.created == call.lock.created && now <= now'
    requires HasRoom(now, call, newTtl, worst) && forall ttl | Carries(call', ttl) :: Carries(call, ttl)
    ensures HasRoom(now', call', newTtl, worst)
  {
  }

  /** Only ExtendBegin adds a TTL. */
  lemma CarriesNoMore(cfg: Config, s: State, e: Step)
    requires Allowed(cfg, s, e) && !e.Tick? && !e.ExtendBegin? && e.v in s.calls && s.calls[e.v].lock.Lock?
    requires LockInv(cfg, s, e.v)
    ensures var call, call' := s.calls[e.v], Next(cfg, s, e).calls[e.v];
            && call'.lock.Lock? && call'.lock.created == call.lock.created
            && (forall y :: y in call'.extensions ==>
               y in call.extensions && call'.extensions[y].ttl == call.extensions[y].ttl)
            && forall ttl | Carries(call', ttl) :: Carries(call, ttl)
  {
    if e.ExtendEnd? {
      assert Carries(s.calls[e.v], s.calls[e.v].extensions[e.x].ttl);
    }
  }

  lemma OwnStepRoomy(cfg: Config, worst: int, s: State, e: Step)
    requires AllRoomy(cfg, worst, s) && FollowsRule(cfg, worst, s, e) && Allowed(cfg, s, e) && !e.Tick?
    ensures Roomy(cfg, worst, Next(cfg, s, e), e.v)
  {
    var s' := Next(cfg, s, e);
    if e.v in s.calls {
      assert Roomy(cfg, worst, s, e.v);
      var call, call' := s.calls[e.v], s'.calls[e.v];
      if e.ExtendBegin? {
        assert call' == Begun(call, e.x, e.newTtl);
      } else if call.lock.Lock? && call'.lock.acquired {
        CarriesNoMore(cfg, s, e);
        forall y | y in call'.extensions ensures HasRoom(s'.now, call', call'.extensions[y].ttl, worst) {
          assert call'.extensions[y].ttl == call.extensions[y].ttl;
          RoomKept(worst, s.now, call, s'.now, call', call.extensions[y].ttl);
        }
      }
    }
  }

  lemma NextRoomy(cfg: Config, worst: int, s: State, e: Step)
    requires AllRoomy(cfg, worst, s) && FollowsRule(cfg, worst, s, e)
    ensures AllRoomy(cfg, worst, Next(cfg, s, e))
  {
    if Allowed(cfg, s, e) {
      var s' := Next(cfg, s, e);
      forall v | v in s'.calls ensures Roomy(cfg, worst, s', v) {
        if Actor(e) == Some(v) {
          OwnStepRoomy(cfg, worst, s, e);
        } else {
          OthersUntouched(cfg, s, e, v);
          assert Roomy(cfg, worst, s, v);
        }
      }
    }
  }

  lemma RuleIsCareful(cfg: Config, worst: int, s: State, e: Step)
    requires AllRoomy(cfg, worst, s) && FollowsRule(cfg, worst, s, e) && Allowed(cfg, s, e)
    ensures Allowed(Guard(cfg), s, e)
  {
    if e.ExtendKey? && s.calls[e.v].lock.acquired {
      var call := s.calls[e.v];
      assert Roomy(cfg, worst, s, e.v);
      assert HasRoom(s.now, call, call.extensions[e.x].ttl, worst);
      assert Carries(call, call.lock.ttl) && forall y :: y in call.extensions ==> Carries(call, call.extensions[y].ttl);
    }
  }

  lemma {:induction false} RuleRunBehaved(cfg: Config, worst: int, steps: seq<Step>)
    requires RuleRun(cfg, worst, Start(cfg), steps)
    ensures Behaved(cfg, Start(cfg), steps) && AllRoomy(cfg, worst, Run(cfg, Start(cfg), steps))
  {
    if steps != [] {
      var before, e := Run(cfg, Start(cfg), steps[..|steps| - 1]), steps[|steps| - 1];
      RuleRunBehaved(cfg, worst, steps[..|steps| - 1]);
      NextRoomy(cfg, worst, before, e);
      if Allowed(cfg, before, e) {
        RuleIsCareful(cfg, worst, before, e);
      }
    }
  }

  /** Callers that follow the rule never hold one resource twice, also while and after an Extend misses quorum, and
      however many Extends of one lock overlap. */
  lemma RuleExclusive(cfg: Config, worst: int, steps: seq<Step>)
    requires cfg.absentOnly && 2 * cfg.quorum > cfg.n && RuleRun(cfg, worst, Start(cfg), steps)
    ensures Exclusive(Run(cfg, Start(cfg), steps))
  {
    RuleRunBehaved(cfg, worst, steps);
    BehavedExclusive(cfg, steps);
  }
}
