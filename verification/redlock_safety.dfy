/** Redlock mutual exclusion: in every run, and exactly under the stated assumptions. */
module RedlockSafety {
  import opened RedlockProtocol

  /** Store c holds v's key until `until`. */
  predicate Backs(s: State, c: nat, r: Resource, v: Value, until: int) {
    s.now < until ==>
      c < |s.stores| && r in s.stores[c] && s.stores[c][r].value == v && s.stores[c][r].expiry >= until
  }

  ghost predicate AllBack(s: State, cs: set<nat>, r: Resource, v: Value, until: int) {
    forall c :: c in cs ==> Backs(s, c, r, v, until)
  }

  ghost predicate Below(cs: set<nat>, n: nat) {
    forall c :: c in cs ==> c < n
  }

  ghost predicate AttemptInv(cfg: Config, s: State, v: Value)
    requires v in s.calls
  {
    var call := s.calls[v];
    match call.phase
    case Attempting(start, next, ok, loss) =>
      start <= s.now && next <= cfg.n && Below(ok, next) && AllBack(s, ok, call.resource, v, start + call.ttl - loss)
    case Measured(start, at, ok, loss, validity) =>
      && start <= at <= s.now && Below(ok, cfg.n) && |ok| >= cfg.quorum
      && validity == call.ttl - (at - start) - DriftTime(cfg, call.ttl)
      && AllBack(s, ok, call.resource, v, start + call.ttl - loss)
    case _ => true
  }

  ghost predicate LockInv(cfg: Config, s: State, v: Value)
    requires v in s.calls
  {
    var call := s.calls[v];
    match call.phase
    case Holding => call.lock.Lock? && call.lock.acquired
    case Unlocking(_, _) => call.lock.Lock? && !call.lock.acquired
    case Finished => call.lock.Lock? ==> !call.lock.acquired
    case _ => call.lock.NoLock? && call.extensions == map[]
  }

  /** While v's lock is acquired, `enough` clients hold keys of it that outlast it. */
  ghost predicate CoverInv(cfg: Config, s: State, v: Value, enough: int)
    requires v in s.calls
  {
    s.calls[v].lock.Lock? && s.calls[v].lock.acquired ==> exists cover :: Covers(cfg, s, v, enough, cover)
  }

  ghost predicate Covers(cfg: Config, s: State, v: Value, enough: int, cover: set<nat>)
    requires v in s.calls && s.calls[v].lock.Lock?
  {
    var call := s.calls[v];
    |cover| >= enough && Below(cover, cfg.n)
    && AllBack(s, cover, call.resource, v, call.lock.created + call.lock.ttl + 1)
  }

  ghost predicate ExtensionInv(cfg: Config, s: State, v: Value, x: nat)
    requires v in s.calls && x in s.calls[v].extensions
  {
    var call := s.calls[v];
    var ext := call.extensions[x];
    && ext.next <= cfg.n && Below(ext.ok, ext.next)
    && (call.lock.Lock? && call.lock.acquired ==>
          AllBack(s, ext.ok, call.resource, v, call.lock.created + ext.ttl + 1))
  }

  ghost predicate CallInv(cfg: Config, s: State, v: Value, enough: int)
    requires v in s.calls
  {
    && AttemptInv(cfg, s, v) && LockInv(cfg, s, v) && CoverInv(cfg, s, v, enough)
    && forall x :: x in s.calls[v].extensions ==> ExtensionInv(cfg, s, v, x)
  }

  /** A quorum for everybody; but one caller, `weak`, gets by with just enough clients to stop any quorum of others. */
  function Enough(cfg: Config, weak: Option<Value>, v: Value): (enough: int)
    requires weak.Some? ==> 2 * cfg.quorum > cfg.n
    ensures enough <= cfg.quorum
  {
    if weak == Some(v) then cfg.n - cfg.quorum + 1 else cfg.quorum
  }

  ghost predicate WeakInv(cfg: Config, s: State, weak: Option<Value>)
    requires weak.Some? ==> 2 * cfg.quorum > cfg.n
  {
    |s.stores| == cfg.n && forall v :: v in s.calls ==> CallInv(cfg, s, v, Enough(cfg, weak, v))
  }

  ghost predicate Inv(cfg: Config, s: State) {
    WeakInv(cfg, s, None)
  }

  /** The assumptions about stores and callers, besides a majority and unique values, that mutual exclusion rests on. */
  predicate Guarded(cfg: Config) {
    cfg.absentOnly && cfg.lateness == NONE && cfg.shortfall == NONE
  }

  /** Nothing that happened between s and s' took a key away from v, or shortened it. */
  ghost predicate Keeps(s: State, s': State, v: Value) {
    s.now <= s'.now && |s'.stores| == |s.stores|
    && forall c, r, until {:trigger Backs(s', c, r, v, until)} :: Backs(s, c, r, v, until) ==> Backs(s', c, r, v, until)
  }

  /** No step but v's own release and Extend takes anything away from v: in particular no other caller's step does. */
  lemma StepKeeps(cfg: Config, s: State, e: Step, v: Value)
    requires cfg.absentOnly && v in s.calls && LockInv(cfg, s, v)
    requires e.Release? ==> e.v != v
    requires e.ExtendKey? ==> e.v != v
    ensures Keeps(s, Next(cfg, s, e), v)
  {
    if Allowed(cfg, s, e) {
      match e
      case SetKey(w, took, heard, loss) =>
      case Release(w, took, heard) =>
      case ExtendKey(w, x, took, heard, loss) =>
      case _ =>
    }
  }

  lemma CallKept(cfg: Config, s: State, s': State, v: Value, enough: int)
    requires v in s.calls && CallInv(cfg, s, v, enough) && Keeps(s, s', v)
    requires v in s'.calls && s'.calls[v] == s.calls[v]
    ensures CallInv(cfg, s', v, enough)
  {
    CoverKept(cfg, s, s', v, enough);
    forall x | x in s.calls[v].extensions ensures ExtensionInv(cfg, s', v, x) {
      assert ExtensionInv(cfg, s, v, x);
    }
  }

  lemma CoverKept(cfg: Config, s: State, s': State, v: Value, enough: int)
    requires v in s.calls && CoverInv(cfg, s, v, enough) && Keeps(s, s', v)
    requires v in s'.calls && s'.calls[v].resource == s.calls[v].resource && s'.calls[v].lock == s.calls[v].lock
    ensures CoverInv(cfg, s', v, enough)
  {
    var call := s.calls[v];
    if call.lock.Lock? && call.lock.acquired {
      var cover :| Covers(cfg, s, v, enough, cover);
      assert Covers(cfg, s', v, enough, cover);
    }
  }

  function Actor(e: Step): (v: Option<Value>)
  {
    if e.Tick? then None else Some(e.v)
  }

  lemma OthersUntouched(cfg: Config, s: State, e: Step, v: Value)
    requires v in s.calls && Actor(e) != Some(v)
    ensures v in Next(cfg, s, e).calls && Next(cfg, s, e).calls[v] == s.calls[v]
  {
  }

  /** What the lemmas about a caller's own step need: that caller's part of the invariant. */
  ghost predicate Ready(cfg: Config, s: State, e: Step, enough: int) {
    && Guarded(cfg) && |s.stores| == cfg.n && enough <= cfg.quorum && Allowed(cfg, s, e)
    && (!e.Tick? && e.v in s.calls ==> CallInv(cfg, s, e.v, enough))
  }

  lemma SetKeepsCall(cfg: Config, s: State, e: Step, enough: int)
    requires e.SetKey? && Ready(cfg, s, e, enough)
    ensures CallInv(cfg, Next(cfg, s, e), e.v, enough)
  {
    var s' := Next(cfg, s, e);
    StepKeeps(cfg, s, e, e.v);
    CoverKept(cfg, s, s', e.v, enough);
    var p, p' := s.calls[e.v].phase, s'.calls[e.v].phase;
    forall c | c in p'.ok ensures Backs(s', c, s.calls[e.v].resource, e.v, p'.start + s.calls[e.v].ttl - p'.loss) {
      if c in p.ok {
        assert Backs(s', c, s.calls[e.v].resource, e.v, p.start + s.calls[e.v].ttl - p.loss);
      }
    }
  }

  /** Line 287 to line 300: the validity the caller is given ends before the first counted key does. */
  lemma CommitKeepsCall(cfg: Config, s: State, e: Step, enough: int)
    requires e.Commit? && Ready(cfg, s, e, enough)
    ensures CallInv(cfg, Next(cfg, s, e), e.v, enough)
  {
    var s' := Next(cfg, s, e);
    StepKeeps(cfg, s, e, e.v);
    var call, p := s.calls[e.v], s.calls[e.v].phase;
    forall c | c in p.ok ensures Backs(s', c, call.resource, e.v, s.now + p.validity + 1) {
      assert Backs(s', c, call.resource, e.v, p.start + call.ttl - p.loss);
    }
    assert Covers(cfg, s', e.v, enough, p.ok);
  }

  lemma ExtendKeyKeepsCover(cfg: Config, s: State, e: Step, enough: int)
    requires e.ExtendKey? && Ready(cfg, s, e, enough)
    ensures CoverInv(cfg, Next(cfg, s, e), e.v, enough)
  {
    var s', call := Next(cfg, s, e), s.calls[e.v];
    if call.lock.acquired {
      var cover :| Covers(cfg, s, e.v, enough, cover);
      forall c | c in cover ensures Backs(s', c, call.resource, e.v, call.lock.created + call.lock.ttl + 1) {
        ExtendKeeps(cfg, s, e, c, call.lock.ttl);
      }
      assert Covers(cfg, s', e.v, enough, cover);
    }
  }

  lemma ExtendKeyKeepsCall(cfg: Config, s: State, e: Step, enough: int)
    requires e.ExtendKey? && Ready(cfg, s, e, enough)
    ensures CallInv(cfg, Next(cfg, s, e), e.v, enough)
  {
    var s' := Next(cfg, s, e);
    ExtendKeyKeepsCover(cfg, s, e, enough);
    var call, call' := s.calls[e.v], s'.calls[e.v];
    forall x | x in call'.extensions ensures ExtensionInv(cfg, s', e.v, x) {
      assert ExtensionInv(cfg, s, e.v, x);
      if call.lock.acquired {
        forall c | c in call'.extensions[x].ok
          ensures Backs(s', c, call.resource, e.v, call.lock.created + call.extensions[x].ttl + 1)
        {
          if c in call.extensions[x].ok {
            ExtendKeeps(cfg, s, e, c, call.extensions[x].ttl);
          }
        }
      }
    }
  }

  /** A careful `expire` may shorten v's key, but not below a TTL that the lock carries or is being given. */
  lemma ExtendKeeps(cfg: Config, s: State, e: Step, c: nat, ttl: int)
    requires Guarded(cfg) && e.ExtendKey? && Allowed(cfg, s, e) && s.calls[e.v].lock.acquired
    requires ttl == s.calls[e.v].lock.ttl
             || exists y :: y in s.calls[e.v].extensions && ttl == s.calls[e.v].extensions[y].ttl
    requires Backs(s, c, s.calls[e.v].resource, e.v, s.calls[e.v].lock.created + ttl + 1)
    ensures Backs(Next(cfg, s, e), c, s.calls[e.v].resource, e.v, s.calls[e.v].lock.created + ttl + 1)
  {
  }

  lemma ExtendEndKeepsCall(cfg: Config, s: State, e: Step, enough: int)
    requires e.ExtendEnd? && Ready(cfg, s, e, enough)
    ensures CallInv(cfg, Next(cfg, s, e), e.v, enough)
  {
    var s', ext := Next(cfg, s, e), s.calls[e.v].extensions[e.x];
    assert ExtensionInv(cfg, s, e.v, e.x);
    if s.calls[e.v].lock.acquired {
      if |ext.ok| >= cfg.quorum {
        assert Covers(cfg, s', e.v, enough, ext.ok);
      } else {
        StepKeeps(cfg, s, e, e.v);
        CoverKept(cfg, s, s', e.v, enough);
      }
    }
    forall x | x in s'.calls[e.v].extensions ensures ExtensionInv(cfg, s', e.v, x) {
      assert ExtensionInv(cfg, s, e.v, x);
    }
  }

  /** Steps that leave keys and lock alone. */
  lemma OtherStepKeepsCall(cfg: Config, s: State, e: Step, enough: int)
    requires !e.Tick? && !e.SetKey? && !e.Commit? && !e.ExtendKey? && !e.ExtendEnd? && Ready(cfg, s, e, enough)
    ensures CallInv(cfg, Next(cfg, s, e), e.v, enough)
  {
    var s' := Next(cfg, s, e);
    if e.v in s.calls && !e.Release? {
      StepKeeps(cfg, s, e, e.v);
      if s'.calls[e.v].lock == s.calls[e.v].lock {
        CoverKept(cfg, s, s', e.v, enough);
      }
    }
    forall x | x in s'.calls[e.v].extensions ensures ExtensionInv(cfg, s', e.v, x) {
      if e.v in s.calls && x in s.calls[e.v].extensions {
        assert ExtensionInv(cfg, s, e.v, x);
      }
    }
  }

  lemma OwnStepKeepsCall(cfg: Config, s: State, e: Step, enough: int)
    requires !e.Tick? && Ready(cfg, s, e, enough)
    ensures CallInv(cfg, Next(cfg, s, e), e.v, enough)
  {
    if e.SetKey? {
      SetKeepsCall(cfg, s, e, enough);
    } else if e.Commit? {
      CommitKeepsCall(cfg, s, e, enough);
    } else if e.ExtendKey? {
      ExtendKeyKeepsCall(cfg, s, e, enough);
    } else if e.ExtendEnd? {
      ExtendEndKeepsCall(cfg, s, e, enough);
    } else {
      OtherStepKeepsCall(cfg, s, e, enough);
    }
  }

  /** The calls of everybody but the one who moves. */
  lemma OthersKeepCall(cfg: Config, s: State, e: Step, v: Value, enough: int)
    requires cfg.absentOnly && v in s.calls && CallInv(cfg, s, v, enough) && Actor(e) != Some(v)
    ensures v in Next(cfg, s, e).calls && CallInv(cfg, Next(cfg, s, e), v, enough)
  {
    StepKeeps(cfg, s, e, v);
    OthersUntouched(cfg, s, e, v);
    CallKept(cfg, s, Next(cfg, s, e), v, enough);
  }

  lemma NextKeepsInv(cfg: Config, s: State, e: Step, weak: Option<Value>)
    requires weak.Some? ==> 2 * cfg.quorum > cfg.n
    requires Guarded(cfg) && WeakInv(cfg, s, weak)
    ensures WeakInv(cfg, Next(cfg, s, e), weak)
  {
    if Allowed(cfg, s, e) {
      var s' := Next(cfg, s, e);
      forall v | v in s'.calls ensures CallInv(cfg, s', v, Enough(cfg, weak, v)) {
        if Actor(e) == Some(v) {
          OwnStepKeepsCall(cfg, s, e, Enough(cfg, weak, v));
        } else {
          OthersKeepCall(cfg, s, e, v, Enough(cfg, weak, v));
        }
      }
    }
  }

  lemma {:induction false} RunKeepsInv(cfg: Config, s: State, steps: seq<Step>, weak: Option<Value>)
    requires weak.Some? ==> 2 * cfg.quorum > cfg.n
    requires Guarded(cfg) && WeakInv(cfg, s, weak)
    ensures WeakInv(cfg, Run(cfg, s, steps), weak)
  {
    if steps != [] {
      RunKeepsInv(cfg, s, steps[..|steps| - 1], weak);
      NextKeepsInv(cfg, Run(cfg, s, steps[..|steps| - 1]), steps[|steps| - 1], weak);
    }
  }

  // ---- quorum intersection ----------------------------------------------------------------------

  lemma {:induction false} BelowHasAtMost(cs: set<nat>, n: nat)
    requires Below(cs, n)
    ensures |cs| <= n
  {
    if n == 0 {
      assert cs == {};
    } else {
      BelowHasAtMost(cs - {n - 1}, n - 1);
      assert |cs| <= |cs - {n - 1}| + 1;
    }
  }

  /** Two majorities of the same clients share a client. */
  lemma MajoritiesMeet(a: set<nat>, b: set<nat>, n: nat) returns (c: nat)
    requires Below(a, n) && Below(b, n) && |a| + |b| > n
    ensures c in a && c in b
  {
    BelowHasAtMost(a + b, n);
    assert |a + b| == |a| + |b| - |a * b|;
    assert a * b != {};
    c :| c in a * b;
  }

  /** Callers with enough clients between them would have to share a key. */
  lemma OwnersAgree(cfg: Config, s: State, v: Value, w: Value, n: int, m: int)
    requires Owns(s, v) && Owns(s, w) && s.calls[v].resource == s.calls[w].resource && n + m > cfg.n
    requires CallInv(cfg, s, v, n) && CallInv(cfg, s, w, m)
    ensures v == w
  {
    var a :| Covers(cfg, s, v, n, a);
    var b :| Covers(cfg, s, w, m, b);
    var c := MajoritiesMeet(a, b, cfg.n);
    assert Backs(s, c, s.calls[v].resource, v, s.calls[v].lock.created + s.calls[v].lock.ttl + 1);
    assert Backs(s, c, s.calls[w].resource, w, s.calls[w].lock.created + s.calls[w].lock.ttl + 1);
  }

  lemma InvExclusive(cfg: Config, s: State, weak: Option<Value>)
    requires 2 * cfg.quorum > cfg.n && WeakInv(cfg, s, weak)
    ensures Exclusive(s)
  {
    forall v, w | Owns(s, v) && Owns(s, w) && s.calls[v].resource == s.calls[w].resource ensures v == w {
      if v != w {
        OwnersAgree(cfg, s, v, w, Enough(cfg, weak, v), Enough(cfg, weak, w));
      }
    }
  }

  /** Mutual exclusion, with Extend: whatever callers do and however their steps interleave, at most one of
      them holds an acquired, unexpired lock on a resource at any time. */
  lemma MutualExclusion(cfg: Config, steps: seq<Step>)
    requires Guarded(cfg) && 2 * cfg.quorum > cfg.n
    ensures Exclusive(Run(cfg, Start(cfg), steps))
  {
    RunKeepsInv(cfg, Start(cfg), steps, None);
    InvExclusive(cfg, Run(cfg, Start(cfg), steps), None);
  }
}
