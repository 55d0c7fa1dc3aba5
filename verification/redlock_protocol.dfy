/**
  The Redlock protocol as a step system: N independent key stores, any number of callers of
  LockWithRetry, Unlock and Extend, and one clock.  A step is one atomic thing that happens somewhere:
  a command reaching a store, a caller reading the clock, a failed call moving on, or time passing.

  `Run` takes ANY sequence of steps: a step that cannot happen in a state leaves it alone.
  So a lemma about `Run(cfg, Start(cfg), steps)` for all `steps` is about every reachable state.
 */
module RedlockProtocol {

  type Value = string     // the random value of one LockWithRetry call; these are assumed unique
  type Resource = string

  const SECOND: int := 1_000_000_000
  const MIN_TTL: int := 1_000_000
  const MAX_TTL: int := 86_400 * SECOND
  const MAX_RESOURCE_NAME: nat := 256
  const MIN_DRIFT_FACTOR: real := 0.001
  const MAX_DRIFT_FACTOR: real := 0.1

  /** How far something may exceed what it should not: not at all, or by less than `limit`, or without limit. */
  datatype Excess = Under(limit: nat) | Unlimited {
    predicate Allows(excess: int) {
      Unlimited? || excess < limit
    }
  }

  const NONE := Under(0)

  /** The configuration of NewRedlock, and what the environment and the callers do:
      - absentOnly: a store's Set writes only when the key is absent or expired;
      - lateness: by how much the lifetime that a counted key loses to its store's clock, plus the lag between computing
        the validity and stamping `created`, may exceed the drift allowance;
      - shortfall: how far the keys of an Extend may fall short of a TTL that the lock carries or is being given. */
  datatype Config = Config(n: nat, quorum: nat, driftFactor: real,
                           absentOnly: bool, lateness: Excess, shortfall: Excess)

  predicate WellFormed(cfg: Config) {
    1 <= cfg.quorum <= cfg.n && MIN_DRIFT_FACTOR <= cfg.driftFactor <= MAX_DRIFT_FACTOR
  }

  /** The quorum NewRedlock settles on; None is a configuration error. */
  function NewQuorum(clients: nat, requested: int): (quorum: Option<nat>)
    ensures quorum.Some? <==> clients > 0 && 0 <= requested <= clients
    ensures quorum.Some? ==> 1 <= quorum.value <= clients
    ensures quorum.Some? && requested == 0 ==> 2 * quorum.value > clients && 2 * (quorum.value - 1) <= clients
    ensures quorum.Some? && requested > 0 ==> quorum.value == requested
  {
    if clients == 0 || requested < 0 || requested > clients then None
    else if requested == 0 then Some(clients / 2 + 1)
    else Some(requested)
  }

  datatype Option<+T> = None | Some(value: T)

  datatype Key = Key(value: Value, expiry: int)
  type Store = map<Resource, Key>

  /** The Lock object. */
  datatype Lock = NoLock | Lock(created: int, ttl: int, acquired: bool)

  /** An Extend in progress: `ok` are the clients that answered 1 so far. */
  datatype Extension = Extension(ttl: int, next: nat, ok: set<nat>)

  /** Where one LockWithRetry call, and the lock it returned, has got to.  The code keeps |ok| only.
      `loss` is history: the most lifetime any counted key has lost to its store's clock. */
  datatype Phase =
    | Attempting(start: int, next: nat, ok: set<nat>, loss: int)
    | Measured(start: int, at: int, ok: set<nat>, loss: int, validity: int)
    | RollingBack(next: nat)
    | Waiting
    | Holding
    | Unlocking(next: nat, released: nat)
    | Finished

  datatype Call = Call(resource: Resource, ttl: int, attempt: nat, maxRetries: nat,
                       phase: Phase, lock: Lock, extensions: map<nat, Extension>)

  datatype State = State(now: int, stores: seq<Store>, calls: map<Value, Call>)

  /** `took`: the command reached the store and was carried out.  `heard`: the caller got its answer.
      `loss`: how much sooner than asked for the key will expire, by the store's clock. */
  datatype Step =
    | Tick(d: nat)
    | Begin(v: Value, resource: Resource, ttl: int, maxRetries: nat)
    | SetKey(v: Value, took: bool, heard: bool, loss: int)
    | Judge(v: Value)
    | Commit(v: Value)
    | Release(v: Value, took: bool, heard: bool)
    | EndRollback(v: Value)
    | Retry(v: Value)
    | GiveUp(v: Value)
    | Unlock(v: Value)
    | EndUnlock(v: Value)
    | ExtendBegin(v: Value, x: nat, newTtl: int)
    | ExtendKey(v: Value, x: nat, took: bool, heard: bool, loss: int)
    | ExtendEnd(v: Value, x: nat)

  function Start(cfg: Config): State {
    State(0, seq(cfg.n, _ => map[]), map[])
  }

  // ---- store commands ---------------------------------------------------------------------------

  predicate Free(store: Store, r: Resource, now: int) {
    r !in store || store[r].expiry <= now
  }

  /** `get` answers v: the test both scripts make first. */
  predicate Matches(store: Store, r: Resource, v: Value, now: int) {
    !Free(store, r, now) && store[r].value == v
  }

  predicate SetWrites(cfg: Config, store: Store, r: Resource, now: int, took: bool) {
    took && (cfg.absentOnly ==> Free(store, r, now))
  }

  function DriftTime(cfg: Config, ttl: int): int {
    (ttl as real * cfg.driftFactor).Floor
  }

  /** `int(ttl.Seconds())`, back in nanoseconds: what `expire` is really asked for. */
  function WholeSeconds(ttl: int): int {
    ttl / SECOND * SECOND
  }

  // ---- one step ---------------------------------------------------------------------------------

  predicate HasClient(cfg: Config, s: State, next: nat) {
    next < cfg.n && next < |s.stores|
  }

  predicate Extending(s: State, v: Value, x: nat) {
    v in s.calls && s.calls[v].lock.Lock? && x in s.calls[v].extensions
  }

  function ExtendedExpiry(s: State, v: Value, x: nat, loss: int): int
    requires Extending(s, v, x)
  {
    s.now + WholeSeconds(s.calls[v].extensions[x].ttl) - loss
  }

  /** A key that expires at `expiry` falls short of a lock valid for ttl from `created`, unless that is over by now. */
  predicate Reaches(cfg: Config, now: int, created: int, ttl: int, expiry: int) {
    now > created + ttl || cfg.shortfall.Allows(created + ttl - expiry)
  }

  /** What an `expire` that is carried out for a lock still held must do: the new expiry reaches the end of the TTL that
      the lock carries, and of every TTL it is being given. */
  predicate Careful(cfg: Config, s: State, v: Value, x: nat, loss: int)
    requires Extending(s, v, x)
  {
    var call, expiry := s.calls[v], ExtendedExpiry(s, v, x, loss);
    call.lock.acquired ==>
      && Reaches(cfg, s.now, call.lock.created, call.lock.ttl, expiry)
      && forall y | y in call.extensions :: Reaches(cfg, s.now, call.lock.created, call.extensions[y].ttl, expiry)
  }

  predicate Allowed(cfg: Config, s: State, e: Step) {
    match e
    case Tick(_) => true
    case Begin(v, r, ttl, _) => v !in s.calls && 1 <= |r| <= MAX_RESOURCE_NAME && MIN_TTL <= ttl <= MAX_TTL
    case SetKey(v, _, _, _) =>
      v in s.calls && s.calls[v].phase.Attempting? && HasClient(cfg, s, s.calls[v].phase.next)
    case Judge(v) => v in s.calls && s.calls[v].phase.Attempting? && s.calls[v].phase.next == cfg.n
    case Commit(v) =>
      && v in s.calls && s.calls[v].phase.Measured?
      && var p := s.calls[v].phase;
         cfg.lateness.Allows(p.loss + (s.now - p.at) - DriftTime(cfg, s.calls[v].ttl))
    case Release(v, _, _) =>
      && v in s.calls && (s.calls[v].phase.RollingBack? || s.calls[v].phase.Unlocking?)
      && HasClient(cfg, s, s.calls[v].phase.next)
    case EndRollback(v) => v in s.calls && s.calls[v].phase.RollingBack? && s.calls[v].phase.next == cfg.n
    case Retry(v) => v in s.calls && s.calls[v].phase.Waiting?
    case GiveUp(v) => v in s.calls && s.calls[v].phase.Waiting?
    case Unlock(v) => v in s.calls && s.calls[v].phase.Holding? && s.calls[v].lock.Lock?
    case EndUnlock(v) => v in s.calls && s.calls[v].phase.Unlocking? && s.calls[v].phase.next == cfg.n
    case ExtendBegin(v, x, newTtl) =>
      && v in s.calls && s.calls[v].lock.Lock? && s.calls[v].lock.acquired
      && x !in s.calls[v].extensions && MIN_TTL <= newTtl <= MAX_TTL
    case ExtendKey(v, x, took, _, loss) =>
      && Extending(s, v, x) && HasClient(cfg, s, s.calls[v].extensions[x].next)
      && (took ==> Careful(cfg, s, v, x, loss))
    case ExtendEnd(v, x) => Extending(s, v, x) && s.calls[v].extensions[x].next == cfg.n
  }

  function WithPhase(s: State, v: Value, phase: Phase): State
    requires v in s.calls
  {
    s.(calls := s.calls[v := s.calls[v].(phase := phase)])
  }

  function WithKey(s: State, c: nat, r: Resource, key: Key): State
    requires c < |s.stores|
  {
    s.(stores := s.stores[c := s.stores[c][r := key]])
  }

  function WithoutKey(s: State, c: nat, r: Resource): State
    requires c < |s.stores|
  {
    s.(stores := s.stores[c := s.stores[c] - {r}])
  }

  function AfterSet(cfg: Config, s: State, v: Value, took: bool, heard: bool, loss: int): State
    requires Allowed(cfg, s, SetKey(v, took, heard, loss))
  {
    var call := s.calls[v];
    var p := call.phase;
    var writes := SetWrites(cfg, s.stores[p.next], call.resource, s.now, took);
    var s' := if writes then WithKey(s, p.next, call.resource, Key(v, s.now + call.ttl - loss)) else s;
    WithPhase(s', v, if writes && heard
                     then Attempting(p.start, p.next + 1, p.ok + {p.next}, if loss > p.loss then loss else p.loss)
                     else Attempting(p.start, p.next + 1, p.ok, p.loss))
  }

  function AfterJudge(cfg: Config, s: State, v: Value): State
    requires Allowed(cfg, s, Judge(v))
  {
    var call := s.calls[v];
    var p := call.phase;
    var validity := call.ttl - (s.now - p.start) - DriftTime(cfg, call.ttl);
    WithPhase(s, v, if |p.ok| < cfg.quorum || validity <= 0 then RollingBack(0)
                    else Measured(p.start, s.now, p.ok, p.loss, validity))
  }

  function AfterCommit(cfg: Config, s: State, v: Value): State
    requires Allowed(cfg, s, Commit(v))
  {
    var p := s.calls[v].phase;
    s.(calls := s.calls[v := s.calls[v].(phase := Holding, lock := Lock(s.now, p.validity, true))])
  }

  function AfterRelease(cfg: Config, s: State, v: Value, took: bool, heard: bool): State
    requires Allowed(cfg, s, Release(v, took, heard))
  {
    var call := s.calls[v];
    var c := call.phase.next;
    var deletes := took && Matches(s.stores[c], call.resource, v, s.now);
    var s' := if deletes then WithoutKey(s, c, call.resource) else s;
    WithPhase(s', v, if call.phase.Unlocking?
                     then Unlocking(c + 1, call.phase.released + if deletes && heard then 1 else 0)
                     else RollingBack(c + 1))
  }

  function AfterExtendKey(cfg: Config, s: State, v: Value, x: nat, took: bool, heard: bool, loss: int): State
    requires Allowed(cfg, s, ExtendKey(v, x, took, heard, loss))
  {
    var call := s.calls[v];
    var ext := call.extensions[x];
    var applies := took && Matches(s.stores[ext.next], call.resource, v, s.now);
    var s' := if applies then WithKey(s, ext.next, call.resource, Key(v, ExtendedExpiry(s, v, x, loss))) else s;
    var ext' := ext.(next := ext.next + 1, ok := if applies && heard then ext.ok + {ext.next} else ext.ok);
    s'.(calls := s.calls[v := call.(extensions := call.extensions[x := ext'])])
  }

  function AfterExtendEnd(cfg: Config, s: State, v: Value, x: nat): State
    requires Allowed(cfg, s, ExtendEnd(v, x))
  {
    var call := s.calls[v];
    var ext := call.extensions[x];
    var lock := if |ext.ok| >= cfg.quorum then call.lock.(ttl := ext.ttl) else call.lock;
    s.(calls := s.calls[v := call.(lock := lock, extensions := call.extensions - {x})])
  }

  function Next(cfg: Config, s: State, e: Step): State {
    if !Allowed(cfg, s, e) then s
    else match e
      case Tick(d) => s.(now := s.now + d)
      case Begin(v, r, ttl, maxRetries) =>
        s.(calls := s.calls[v := Call(r, ttl, 0, maxRetries, Attempting(s.now, 0, {}, 0), NoLock, map[])])
      case SetKey(v, took, heard, loss) => AfterSet(cfg, s, v, took, heard, loss)
      case Judge(v) => AfterJudge(cfg, s, v)
      case Commit(v) => AfterCommit(cfg, s, v)
      case Release(v, took, heard) => AfterRelease(cfg, s, v, took, heard)
      case EndRollback(v) =>
        WithPhase(s, v, if s.calls[v].attempt == s.calls[v].maxRetries then Finished else Waiting)
      case Retry(v) =>
        s.(calls := s.calls[v := s.calls[v].(attempt := s.calls[v].attempt + 1,
                                             phase := Attempting(s.now, 0, {}, 0))])
      case GiveUp(v) => WithPhase(s, v, Finished)
      case Unlock(v) =>
        s.(calls := s.calls[v := s.calls[v].(phase := Unlocking(0, 0),
            lock := s.calls[v].lock.(acquired := false))])
      case EndUnlock(v) => WithPhase(s, v, Finished)
      case ExtendBegin(v, x, newTtl) =>
        var call := s.calls[v];
        s.(calls := s.calls[v := call.(extensions := call.extensions[x := Extension(newTtl, 0, {})])])
      case ExtendKey(v, x, took, heard, loss) => AfterExtendKey(cfg, s, v, x, took, heard, loss)
      case ExtendEnd(v, x) => AfterExtendEnd(cfg, s, v, x)
  }

  function Run(cfg: Config, s: State, steps: seq<Step>): State
  {
    if steps == [] then s else Next(cfg, Run(cfg, s, steps[..|steps| - 1]), steps[|steps| - 1])
  }

  lemma {:induction false} RunConcat(cfg: Config, s: State, a: seq<Step>, b: seq<Step>)
    ensures Run(cfg, s, a + b) == Run(cfg, Run(cfg, s, a), b)
  {
    if b == [] {
      assert a + b == a;
    } else {
      assert (a + b)[..|a + b| - 1] == a + b[..|b| - 1];
      RunConcat(cfg, s, a, b[..|b| - 1]);
    }
  }

  // ---- what a caller relies on ------------------------------------------------------------------

  /** The caller of v sees IsAcquired() and not IsExpired(). */
  predicate Owns(s: State, v: Value) {
    v in s.calls && s.calls[v].lock.Lock? && s.calls[v].lock.acquired
    && s.now - s.calls[v].lock.created <= s.calls[v].lock.ttl
  }

  ghost predicate Exclusive(s: State) {
    forall v, w :: Owns(s, v) && Owns(s, w) && s.calls[v].resource == s.calls[w].resource ==> v == w
  }
}
