/**
  The dead letter queue of deadletter.go: operations move between callers adding them, a bounded channel, and
  workers, while a map tracks them and counters count them, one atomic store at a time.
  Runs are without Close, ClearQueue and the IsHealthy probe, with distinct IDs and with metrics on.
  `Run` skips steps that cannot happen.
 */
module DeadLetters {
  import opened Counting
  import opened Traces

  type Id = nat

  datatype Config = Config(maxRetries: nat, retryDelay: nat, workerCount: nat, queueSize: nat)

  datatype Stage =
    | Waiting                // for NextRetry
    | Retrying               // in the handler
    | Retried(ok: bool)      // add to TotalRetried
    | Requeueing             // send to the channel
    | Untracking(ok: bool)   // delete from the map
    | Tallying(ok: bool)     // add to TotalSucceeded or TotalDropped
    | Lowering(ok: bool)     // take away from CurrentQueue

  /** The one place an operation is in. */
  datatype Place =
    | Validated              // insert into the map
    | Tracked                // add to TotalFailed
    | Raising                // add to CurrentQueue
    | Offering               // send to the channel
    | Withdrawing            // delete from the map
    | Withdrawn              // take away from CurrentQueue
    | Refused                // AddFailedOperation returned ErrWorkerChannelFull
    | Queued
    | With(worker: nat, stage: Stage)
    | Gone(succeeded: bool)

  /** `initial` is the RetryCount the operation came with, and `starts` when its handler was called: history. */
  datatype Op = Op(place: Place, retryCount: int, maxRetries: int, nextRetry: int, initial: int, starts: seq<int>)

  datatype State = State(now: int, ops: map<Id, Op>, tracked: set<Id>, channel: seq<Id>, busy: map<nat, Id>,
                         totalFailed: int, totalRetried: int, totalSucceeded: int, totalDropped: int, currentQueue: int)

  const START := State(0, map[], {}, [], map[], 0, 0, 0, 0, 0)

  /** Go(id) is the one thing id's goroutine does next, by itself. */
  datatype Step =
    | Tick(d: nat)
    | Add(id: Id, retryCount: int, maxRetries: int, nextRetry: int, nextRetryIsZero: bool)
    | Go(id: Id)
    | SendTimeout(id: Id)            // the channel stayed full for 100ms
    | Take(worker: nat)
    | Attempt(id: Id)                // a handler is registered and wants the retry
    | Decline(id: Id)                // no handler, or it does not want the retry
    | HandlerDone(id: Id, ok: bool)

  predicate ReadyToRetry(s: State, id: Id) {
    id in s.ops && s.ops[id].place.With? && s.ops[id].place.stage.Waiting? && s.now >= s.ops[id].nextRetry
  }

  predicate CanGo(c: Config, s: State, id: Id) {
    id in s.ops
    && match s.ops[id].place
       case Offering => |s.channel| < c.queueSize
       case Refused => false
       case Queued => false
       case Gone(_) => false
       case With(_, Waiting) => false
       case With(_, Retrying) => false
       case With(_, Requeueing) => |s.channel| < c.queueSize
       case _ => true
  }

  predicate Allowed(c: Config, s: State, e: Step) {
    match e
    case Tick(_) => true
    case Add(id, _, _, _, _) => id !in s.ops
    case Go(id) => CanGo(c, s, id)
    case SendTimeout(id) =>
      id in s.ops && (s.ops[id].place.Offering? || (s.ops[id].place.With? && s.ops[id].place.stage.Requeueing?))
    case Take(worker) => worker < c.workerCount && worker !in s.busy && s.channel != [] && s.channel[0] in s.ops
    case Attempt(id) => ReadyToRetry(s, id) && s.ops[id].retryCount < s.ops[id].maxRetries
    case Decline(id) => ReadyToRetry(s, id)
    case HandlerDone(id, _) => id in s.ops && s.ops[id].place.With? && s.ops[id].place.stage.Retrying?
  }

  function Placed(s: State, id: Id, place: Place): State
    requires id in s.ops
  {
    s.(ops := s.ops[id := s.ops[id].(place := place)])
  }

  /** The worker is free again. */
  function Released(s: State, worker: nat): State {
    s.(busy := s.busy - {worker})
  }

  /** setOperationDefaults. */
  function Defaulted(c: Config, now: int, retryCount: int, maxRetries: int, nextRetry: int, nextRetryIsZero: bool): Op {
    Op(Validated, retryCount, if maxRetries == 0 then c.maxRetries else maxRetries,
       if nextRetryIsZero then now + c.retryDelay else nextRetry, retryCount, [])
  }

  function WorkerGoes(c: Config, s: State, id: Id): State
    requires CanGo(c, s, id) && s.ops[id].place.With?
  {
    var op := s.ops[id];
    var w := op.place.worker;
    match op.place.stage
    case Retried(ok) =>
      if ok then Placed(s, id, With(w, Untracking(true))).(totalRetried := s.totalRetried + 1)
      else s.(totalRetried := s.totalRetried + 1,
              ops := s.ops[id := op.(place := With(w, Requeueing), nextRetry := s.now + c.retryDelay * op.retryCount)])
    case Requeueing => Released(Placed(s, id, Queued).(channel := s.channel + [id]), w)
    case Untracking(ok) => Placed(s, id, With(w, Tallying(ok))).(tracked := s.tracked - {id})
    case Tallying(ok) =>
      if ok then Placed(s, id, With(w, Lowering(ok))).(totalSucceeded := s.totalSucceeded + 1)
      else Placed(s, id, With(w, Lowering(ok))).(totalDropped := s.totalDropped + 1)
    case Lowering(ok) => Released(Placed(s, id, Gone(ok)).(currentQueue := s.currentQueue - 1), w)
  }

  function AdderGoes(c: Config, s: State, id: Id): State
    requires CanGo(c, s, id) && !s.ops[id].place.With?
  {
    match s.ops[id].place
    case Validated => Placed(s, id, Tracked).(tracked := s.tracked + {id})
    case Tracked => Placed(s, id, Raising).(totalFailed := s.totalFailed + 1)
    case Raising => Placed(s, id, Offering).(currentQueue := s.currentQueue + 1)
    case Offering => Placed(s, id, Queued).(channel := s.channel + [id])
    case Withdrawing => Placed(s, id, Withdrawn).(tracked := s.tracked - {id})
    case Withdrawn => Placed(s, id, Refused).(currentQueue := s.currentQueue - 1)
  }

  function Next(c: Config, s: State, e: Step): State {
    if !Allowed(c, s, e) then s
    else match e
      case Tick(d) => s.(now := s.now + d)
      case Add(id, retryCount, maxRetries, nextRetry, zero) =>
        s.(ops := s.ops[id := Defaulted(c, s.now, retryCount, maxRetries, nextRetry, zero)])
      case Go(id) => if s.ops[id].place.With? then WorkerGoes(c, s, id) else AdderGoes(c, s, id)
      case SendTimeout(id) =>
        Placed(s, id, if s.ops[id].place.Offering? then Withdrawing
            else With(s.ops[id].place.worker, Untracking(false)))
      case Take(worker) =>
        var id := s.channel[0];
        Placed(s, id, With(worker, Waiting)).(channel := s.channel[1..], busy := s.busy[worker := id])
      case Attempt(id) =>
        var op := s.ops[id];
        s.(ops := s.ops[id := op.(place := With(op.place.worker, Retrying), retryCount := op.retryCount + 1,
                                  starts := op.starts + [s.now])])
      case Decline(id) => Placed(s, id, With(s.ops[id].place.worker, Untracking(false)))
      case HandlerDone(id, ok) => Placed(s, id, With(s.ops[id].place.worker, Retried(ok)))
  }

  function Run(c: Config, s: State, steps: seq<Step>): State {
    if steps == [] then s else Next(c, Run(c, s, steps[..|steps| - 1]), steps[|steps| - 1])
  }

  // ---- one place each ---------------------------------------------------------------------------

  predicate IsTracked(op: Op) {
    match op.place
    case Validated => false
    case Withdrawn => false
    case Refused => false
    case Gone(_) => false
    case With(_, Tallying(_)) => false
    case With(_, Lowering(_)) => false
    case _ => true
  }

  ghost predicate NoDuplicates(ids: seq<Id>) {
    forall i, j :: 0 <= i < j < |ids| ==> ids[i] != ids[j]
  }

  /** The channel holds exactly the queued operations, each once. */
  ghost predicate ChannelInv(c: Config, s: State) {
    && NoDuplicates(s.channel) && |s.channel| <= c.queueSize
    && (forall id :: id in s.channel <==> id in s.ops && s.ops[id].place.Queued?)
  }

  /** A busy worker and the operation it has know each other. */
  ghost predicate WorkerInv(c: Config, s: State) {
    && (forall id :: id in s.ops && s.ops[id].place.With? ==>
          s.ops[id].place.worker in s.busy && s.busy[s.ops[id].place.worker] == id)
    && (forall w :: w in s.busy ==>
          w < c.workerCount && s.busy[w] in s.ops && s.ops[s.busy[w]].place.With? && s.ops[s.busy[w]].place.worker == w)
  }

  ghost predicate Owned(c: Config, s: State) {
    s.tracked == Having(s.ops, IsTracked) && ChannelInv(c, s) && WorkerInv(c, s)
  }

  /** The operation a step is about. */
  function Subject(s: State, e: Step): Id
    requires !e.Tick? && (e.Take? ==> s.channel != [])
  {
    if e.Take? then s.channel[0] else e.id
  }

  lemma OnlySubjectMoves(c: Config, s: State, e: Step)
    requires Allowed(c, s, e) && !e.Tick?
    ensures var id := Subject(s, e);
            id in Next(c, s, e).ops && Next(c, s, e).ops == s.ops[id := Next(c, s, e).ops[id]]
  {
  }

  lemma NextTracked(c: Config, s: State, e: Step)
    requires Allowed(c, s, e) && !e.Tick? && ChannelInv(c, s) && s.tracked == Having(s.ops, IsTracked)
    ensures Next(c, s, e).tracked == Having(Next(c, s, e).ops, IsTracked)
  {
    OnlySubjectMoves(c, s, e);
    TrackedFollows(c, s, e);
    HavingPut(s.ops, IsTracked, Subject(s, e), Next(c, s, e).ops[Subject(s, e)]);
  }

  /** The map follows the operation that moves. */
  lemma TrackedFollows(c: Config, s: State, e: Step)
    requires Allowed(c, s, e) && !e.Tick? && ChannelInv(c, s) && s.tracked == Having(s.ops, IsTracked)
    ensures var s', id := Next(c, s, e), Subject(s, e);
            id in s'.ops && s'.tracked == if IsTracked(s'.ops[id]) then s.tracked + {id} else s.tracked - {id}
  {
    var id := Subject(s, e);
    assert e.Take? ==> s.ops[id].place.Queued?;
    assert id in s.tracked <==> id in s.ops && IsTracked(s.ops[id]);
  }

  lemma NextChannel(c: Config, s: State, e: Step)
    requires Allowed(c, s, e) && !e.Tick? && ChannelInv(c, s)
    ensures ChannelInv(c, Next(c, s, e))
  {
    OnlySubjectMoves(c, s, e);
    var s', id := Next(c, s, e), Subject(s, e);
    if e.Take? {
      assert s.channel == [id] + s'.channel;
    } else if s'.channel != s.channel {
      assert s'.channel == s.channel + [id] && id !in s.channel;
    }
  }

  lemma NextWorkers(c: Config, s: State, e: Step)
    requires Allowed(c, s, e) && !e.Tick? && ChannelInv(c, s) && WorkerInv(c, s)
    ensures WorkerInv(c, Next(c, s, e))
  {
    if e.Take? {
      TakeWorkers(c, s, e);
    } else {
      BusyFollows(c, s, e);
      OnlySubjectMoves(c, s, e);
    }
  }

  lemma TakeWorkers(c: Config, s: State, e: Step)
    requires Allowed(c, s, e) && e.Take? && ChannelInv(c, s) && WorkerInv(c, s)
    ensures WorkerInv(c, Next(c, s, e))
  {
    assert s.channel[0] in s.channel && s.ops[s.channel[0]].place.Queued?;
  }

  /** Besides taking, only giving an operation up changes who is busy, and an operation stays with its worker. */
  lemma BusyFollows(c: Config, s: State, e: Step)
    requires Allowed(c, s, e) && !e.Tick? && !e.Take?
    ensures var s', id := Next(c, s, e), e.id;
            && id in s'.ops
            && (s'.ops[id].place.With? ==>
                  && id in s.ops && s.ops[id].place.With? && s'.ops[id].place.worker == s.ops[id].place.worker)
            && s'.busy == if id in s.ops && s.ops[id].place.With? && !s'.ops[id].place.With?
                          then s.busy - {s.ops[id].place.worker} else s.busy
  {
  }

  lemma NextOwned(c: Config, s: State, e: Step)
    requires Owned(c, s)
    ensures Owned(c, Next(c, s, e))
  {
    if Allowed(c, s, e) && !e.Tick? {
      NextTracked(c, s, e);
      NextChannel(c, s, e);
      NextWorkers(c, s, e);
    }
  }

  /** In every run, whatever the interleaving: the map tracks exactly the operations that are being added, queued or
      with a worker; each of those is in one place; and no operation is queued twice or with two workers. */
  lemma {:induction false} OnePlaceEach(c: Config, steps: seq<Step>)
    ensures Owned(c, Run(c, START, steps))
  {
    if steps != [] {
      OnePlaceEach(c, steps[..|steps| - 1]);
      NextOwned(c, Run(c, START, steps[..|steps| - 1]), steps[|steps| - 1]);
    }
  }

  // ---- conservation -----------------------------------------------------------------------------

  predicate CountedFailed(op: Op) {
    !op.place.Validated? && !op.place.Tracked?
  }

  predicate InGauge(op: Op) {
    op.place.Offering? || op.place.Withdrawing? || op.place.Withdrawn? || op.place.Queued? || op.place.With?
  }

  predicate CountedSucceeded(op: Op) {
    op.place == Gone(true) || (op.place.With? && op.place.stage == Lowering(true))
  }

  predicate CountedDropped(op: Op) {
    op.place == Gone(false) || (op.place.With? && op.place.stage == Lowering(false))
  }

  predicate IsRefused(op: Op) {
    op.place.Refused?
  }

  predicate IsRaising(op: Op) {
    op.place.Raising?
  }

  predicate IsLowering(op: Op) {
    op.place.With? && op.place.stage.Lowering?
  }

  predicate IsGone(op: Op) {
    op.place.Gone?
  }

  predicate InHandlerStep(op: Op) {
    op.place.With? && (op.place.stage.Retrying? || op.place.stage.Retried?)
  }

  function Retries(op: Op): nat {
    |op.starts|
  }

  ghost predicate Counters(s: State) {
    && s.totalFailed == Count(s.ops, CountedFailed)
    && s.currentQueue == Count(s.ops, InGauge)
    && s.totalSucceeded == Count(s.ops, CountedSucceeded)
    && s.totalDropped == Count(s.ops, CountedDropped)
    && s.totalRetried == Sum(s.ops, Retries) - Count(s.ops, InHandlerStep)
  }

  /** What a step adds to the counters, it adds by moving its operation. */
  predicate Follows(s: State, id: Id, op: Op, p: Op -> bool, n: int, n': int) {
    n' == n + One(p(op)) - One(id in s.ops && p(s.ops[id]))
  }

  lemma MovedIn(c: Config, s: State, e: Step)
    requires Allowed(c, s, e) && !e.Tick? && ChannelInv(c, s)
    ensures var s', id := Next(c, s, e), Subject(s, e);
            && id in s'.ops
            && Follows(s, id, s'.ops[id], CountedFailed, s.totalFailed, s'.totalFailed)
            && Follows(s, id, s'.ops[id], InGauge, s.currentQueue, s'.currentQueue)
  {
    assert e.Take? ==> s.ops[s.channel[0]].place.Queued?;
  }

  lemma MovedOut(c: Config, s: State, e: Step)
    requires Allowed(c, s, e) && !e.Tick? && ChannelInv(c, s)
    ensures var s', id := Next(c, s, e), Subject(s, e);
            && id in s'.ops
            && Follows(s, id, s'.ops[id], CountedSucceeded, s.totalSucceeded, s'.totalSucceeded)
  {
    assert e.Take? ==> s.ops[s.channel[0]].place.Queued?;
  }

  lemma MovedAway(c: Config, s: State, e: Step)
    requires Allowed(c, s, e) && !e.Tick? && ChannelInv(c, s)
    ensures var s', id := Next(c, s, e), Subject(s, e);
            id in s'.ops && Follows(s, id, s'.ops[id], CountedDropped, s.totalDropped, s'.totalDropped)
  {
    assert e.Take? ==> s.ops[s.channel[0]].place.Queued?;
  }

  lemma MovedOn(c: Config, s: State, e: Step)
    requires Allowed(c, s, e) && !e.Tick? && ChannelInv(c, s)
    ensures var s', id := Next(c, s, e), Subject(s, e);
            && id in s'.ops
            && s'.totalRetried == s.totalRetried + Retries(s'.ops[id]) - (if id in s.ops then Retries(s.ops[id]) else 0)
                                  - One(InHandlerStep(s'.ops[id])) + One(id in s.ops && InHandlerStep(s.ops[id]))
  {
    assert e.Take? ==> s.ops[s.channel[0]].place.Queued?;
  }

  lemma NextCounters(c: Config, s: State, e: Step)
    requires Counters(s) && ChannelInv(c, s)
    ensures Counters(Next(c, s, e))
  {
    if Allowed(c, s, e) && !e.Tick? {
      OnlySubjectMoves(c, s, e);
      MovedIn(c, s, e);
      MovedOut(c, s, e);
      MovedAway(c, s, e);
      MovedOn(c, s, e);
      PutCounters(s, Next(c, s, e), Subject(s, e));
    }
  }

  lemma PutCounters(s: State, s': State, id: Id)
    requires Counters(s) && id in s'.ops && s'.ops == s.ops[id := s'.ops[id]]
    requires Follows(s, id, s'.ops[id], CountedFailed, s.totalFailed, s'.totalFailed)
    requires Follows(s, id, s'.ops[id], InGauge, s.currentQueue, s'.currentQueue)
    requires Follows(s, id, s'.ops[id], CountedSucceeded, s.totalSucceeded, s'.totalSucceeded)
    requires Follows(s, id, s'.ops[id], CountedDropped, s.totalDropped, s'.totalDropped)
    requires s'.totalRetried == s.totalRetried + Retries(s'.ops[id]) - (if id in s.ops then Retries(s.ops[id]) else 0)
                                - One(InHandlerStep(s'.ops[id])) + One(id in s.ops && InHandlerStep(s.ops[id]))
    ensures Counters(s')
  {
    var op := s'.ops[id];
    CountPut(s.ops, CountedFailed, id, op);
    CountPut(s.ops, InGauge, id, op);
    CountPut(s.ops, CountedSucceeded, id, op);
    CountPut(s.ops, CountedDropped, id, op);
    CountPut(s.ops, InHandlerStep, id, op);
    SumPut(s.ops, Retries, id, op);
  }

  lemma {:induction false} RunCounters(c: Config, steps: seq<Step>)
    ensures Counters(Run(c, START, steps))
  {
    if steps != [] {
      RunCounters(c, steps[..|steps| - 1]);
      OnePlaceEach(c, steps[..|steps| - 1]);
      NextCounters(c, Run(c, START, steps[..|steps| - 1]), steps[|steps| - 1]);
    }
  }

  /** No operation is between two of its counters. */
  predicate Settled(op: Op) {
    match op.place
    case Offering => true
    case Queued => true
    case Refused => true
    case Gone(_) => true
    case With(_, stage) => stage.Waiting? || stage.Retrying? || stage.Retried? || stage.Requeueing?
    case _ => false
  }

  predicate RaisingOrGauge(op: Op) {
    IsRaising(op) || InGauge(op)
  }

  predicate NotGone(op: Op) {
    RaisingOrGauge(op) || IsRefused(op)
  }

  predicate CountedOut(op: Op) {
    CountedSucceeded(op) || CountedDropped(op)
  }

  lemma FailedSplit(ops: map<Id, Op>)
    ensures Count(ops, CountedFailed)
            == Count(ops, IsRaising) + Count(ops, InGauge) + Count(ops, IsRefused) + Count(ops, IsGone)
  {
    CountBoth(ops, IsRaising, InGauge, RaisingOrGauge);
    CountBoth(ops, RaisingOrGauge, IsRefused, NotGone);
    CountBoth(ops, NotGone, IsGone, CountedFailed);
  }

  lemma OutSplit(ops: map<Id, Op>)
    ensures Count(ops, CountedSucceeded) + Count(ops, CountedDropped) == Count(ops, IsLowering) + Count(ops, IsGone)
  {
    CountBoth(ops, CountedSucceeded, CountedDropped, CountedOut);
    CountBoth(ops, IsLowering, IsGone, CountedOut);
  }

  /** Conservation at every moment: every failure counted is succeeded, dropped, in the gauge or refused, up to the
      operations that are between CurrentQueue and their other counter. */
  lemma Conserved(c: Config, steps: seq<Step>)
    ensures var s := Run(c, START, steps);
            s.totalFailed + Count(s.ops, IsLowering)
            == s.totalSucceeded + s.totalDropped + s.currentQueue + Count(s.ops, IsRefused) + Count(s.ops, IsRaising)
  {
    RunCounters(c, steps);
    FailedSplit(Run(c, START, steps).ops);
    OutSplit(Run(c, START, steps).ops);
  }

  lemma TrackedAreGauged(ops: map<Id, Op>)
    requires forall id :: id in ops ==> Settled(ops[id])
    ensures Having(ops, IsTracked) == Having(ops, InGauge)
  {
    assert forall id :: id in ops ==> (IsTracked(ops[id]) <==> InGauge(ops[id]));
  }

  lemma NoneHalfway(ops: map<Id, Op>)
    requires forall id :: id in ops ==> Settled(ops[id])
    ensures Count(ops, IsLowering) == Count(ops, IsRaising) == 0
  {
    CountNone(ops, IsLowering);
    CountNone(ops, IsRaising);
  }

  /** Conservation as the metrics read when no operation is half way through a step. */
  lemma ConservedWhenSettled(c: Config, steps: seq<Step>)
    requires forall id :: id in Run(c, START, steps).ops ==> Settled(Run(c, START, steps).ops[id])
    ensures var s := Run(c, START, steps);
            && s.totalFailed == s.totalSucceeded + s.totalDropped + s.currentQueue + Count(s.ops, IsRefused)
            && s.currentQueue == |s.tracked|
  {
    var ops := Run(c, START, steps).ops;
    Conserved(c, steps);
    OnePlaceEach(c, steps);
    RunCounters(c, steps);
    NoneHalfway(ops);
    TrackedAreGauged(ops);
  }

  // ---- retries ----------------------------------------------------------------------------------

  /** Handler calls an operation still has coming to it. */
  function Budget(op: Op): nat {
    if op.maxRetries > op.retryCount then op.maxRetries - op.retryCount else 0
  }

  /** The whole queue's budget falls with every retry, and nothing but a new operation raises it: retrying ends. */
  lemma BudgetFalls(c: Config, s: State, e: Step)
    requires Allowed(c, s, e) && !e.Add? && ChannelInv(c, s)
    ensures Sum(Next(c, s, e).ops, Budget) == Sum(s.ops, Budget) - One(e.Attempt?)
  {
    if !e.Tick? {
      OnlySubjectMoves(c, s, e);
      SumPut(s.ops, Budget, Subject(s, e), Next(c, s, e).ops[Subject(s, e)]);
    }
  }

  /** Each retry is at least retryDelay times its number after the one before it. */
  ghost predicate Spaced(starts: seq<int>, delay: nat) {
    forall i :: 0 < i < |starts| ==> starts[i] >= starts[i - 1] + delay * i
  }

  ghost predicate OpInv(c: Config, now: int, op: Op) {
    && op.retryCount == op.initial + |op.starts|
    && (op.starts != [] ==> op.retryCount <= op.maxRetries && op.starts[|op.starts| - 1] <= now)
    && (op.initial == 0 ==> Spaced(op.starts, c.retryDelay))
    && (op.initial == 0 && op.starts != []
        && (op.place.Queued? || (op.place.With? && (op.place.stage.Waiting? || op.place.stage.Requeueing?)))
        ==> op.nextRetry >= op.starts[|op.starts| - 1] + c.retryDelay * |op.starts|)
    && (!op.place.Queued? && !op.place.With? && !op.place.Gone? ==> op.starts == [])
  }

  ghost predicate OpsInv(c: Config, s: State) {
    forall id :: id in s.ops ==> OpInv(c, s.now, s.ops[id])
  }

  /** A retry begins no sooner than planned. */
  lemma AttemptOpInv(c: Config, s: State, id: Id)
    requires Allowed(c, s, Attempt(id)) && OpInv(c, s.now, s.ops[id])
    ensures OpInv(c, s.now, Next(c, s, Attempt(id)).ops[id])
  {
    var op, op' := s.ops[id], Next(c, s, Attempt(id)).ops[id];
    assert op'.starts == op.starts + [s.now];
  }

  /** A failed retry plans the next one. */
  lemma GoOpInv(c: Config, s: State, id: Id)
    requires CanGo(c, s, id) && OpInv(c, s.now, s.ops[id])
    ensures OpInv(c, s.now, Next(c, s, Go(id)).ops[id])
  {
    assert Next(c, s, Go(id)).ops[id].starts == s.ops[id].starts;
  }

  lemma NextOpInv(c: Config, s: State, e: Step)
    requires Allowed(c, s, e) && !e.Tick? && ChannelInv(c, s) && OpsInv(c, s)
    ensures OpInv(c, s.now, Next(c, s, e).ops[Subject(s, e)])
  {
    var id := Subject(s, e);
    assert e.Take? ==> s.ops[id].place.Queued?;
    if id in s.ops {
      assert OpInv(c, s.now, s.ops[id]);
    }
    if e.Attempt? {
      AttemptOpInv(c, s, id);
    } else if e.Go? {
      GoOpInv(c, s, id);
    }
  }

  lemma {:induction false} RunOps(c: Config, steps: seq<Step>)
    ensures OpsInv(c, Run(c, START, steps))
  {
    if steps != [] {
      var s, e := Run(c, START, steps[..|steps| - 1]), steps[|steps| - 1];
      RunOps(c, steps[..|steps| - 1]);
      OnePlaceEach(c, steps[..|steps| - 1]);
      if Allowed(c, s, e) && !e.Tick? {
        NextOpInv(c, s, e);
        OnlySubjectMoves(c, s, e);
      }
    }
  }

  // ---- what was asked for -----------------------------------------------------------------------

  /** Step k is the Add that brought the operation in. */
  predicate Brings(c: Config, steps: seq<Step>, k: nat, id: Id) {
    k < |steps| && steps[k].Add? && steps[k].id == id && id !in Run(c, START, steps[..k]).ops
  }

  /** The MaxRetries that an Add asks for: 0 asks for the queue's own. */
  function AskedFor(c: Config, add: Step): int
    requires add.Add?
  {
    if add.maxRetries == 0 then c.maxRetries else add.maxRetries
  }

  /** What an operation that was brought in at `at` keeps of that: its counts as asked for, and its first retry not
      before the time given, or retryDelay later if none was. */
  ghost predicate Kept(c: Config, add: Step, at: int, op: Op)
    requires add.Add?
  {
    var first := if add.nextRetryIsZero then at + c.retryDelay else add.nextRetry;
    && op.initial == add.retryCount && op.maxRetries == AskedFor(c, add)
    && (if op.starts == [] then op.nextRetry == first && !InHandlerStep(op) else op.starts[0] >= first)
  }

  lemma NextKept(c: Config, s: State, e: Step, id: Id, add: Step, at: int)
    requires add.Add? && id in s.ops && Kept(c, add, at, s.ops[id])
    ensures id in Next(c, s, e).ops && Kept(c, add, at, Next(c, s, e).ops[id])
  {
    if Moves(c, s, e, id) {
      if e.Go? {
        GoKept(c, s, id, add, at);
      }
    } else {
      Unmoved(c, s, e, id);
    }
  }

  /** The step is about this operation. */
  predicate Moves(c: Config, s: State, e: Step, id: Id) {
    Allowed(c, s, e) && !e.Tick? && Subject(s, e) == id
  }

  lemma Unmoved(c: Config, s: State, e: Step, id: Id)
    requires id in s.ops && !Moves(c, s, e, id)
    ensures id in Next(c, s, e).ops && Next(c, s, e).ops[id] == s.ops[id]
  {
    if Allowed(c, s, e) && !e.Tick? {
      OnlySubjectMoves(c, s, e);
    }
  }

  lemma GoKept(c: Config, s: State, id: Id, add: Step, at: int)
    requires add.Add? && CanGo(c, s, id) && Kept(c, add, at, s.ops[id])
    ensures Kept(c, add, at, Next(c, s, Go(id)).ops[id])
  {
  }

  lemma {:induction false} StaysAsBrought(c: Config, steps: seq<Step>, k: nat, id: Id)
    requires Brings(c, steps, k, id)
    ensures id in Run(c, START, steps).ops
    ensures Kept(c, steps[k], Run(c, START, steps[..k]).now, Run(c, START, steps).ops[id])
  {
    var n := |steps| - 1;
    if k < n {
      assert steps[..n][..k] == steps[..k];
      StaysAsBrought(c, steps[..n], k, id);
      NextKept(c, Run(c, START, steps[..n]), steps[n], id, steps[k], Run(c, START, steps[..k]).now);
    }
  }

  /** No operation's handler is called more than max(0, MaxRetries - RetryCount) times, as it came in. */
  lemma RetriesBounded(c: Config, steps: seq<Step>, k: nat, id: Id)
    requires Brings(c, steps, k, id)
    ensures id in Run(c, START, steps).ops
    ensures var left := AskedFor(c, steps[k]) - steps[k].retryCount;
            |Run(c, START, steps).ops[id].starts| <= if left > 0 then left else 0
  {
    StaysAsBrought(c, steps, k, id);
    RunOps(c, steps);
    assert OpInv(c, Run(c, START, steps).now, Run(c, START, steps).ops[id]);
  }

  /** Tried as often as it may be. */
  predicate TriedOut(op: Op) {
    op.initial + |op.starts| >= op.maxRetries
  }

  predicate BeingDropped(op: Op) {
    || op.place == Gone(false)
    || (op.place.With? && match op.place.stage
                          case Untracking(ok) => !ok
                          case Tallying(ok) => !ok
                          case Lowering(ok) => !ok
                          case _ => false)
  }

  /** The operation's handler wants it as long as it may be retried, and there is room to queue it again. */
  ghost predicate AlwaysWanted(c: Config, steps: seq<Step>, id: Id) {
    forall k :: 0 <= k < |steps| ==>
      && steps[k] != SendTimeout(id)
      && (steps[k] == Decline(id) && id in Run(c, START, steps[..k]).ops ==>
            TriedOut(Run(c, START, steps[..k]).ops[id]))
  }

  lemma NextTriedOut(c: Config, s: State, e: Step, id: Id)
    requires id in s.ops && e != SendTimeout(id) && (e == Decline(id) ==> TriedOut(s.ops[id]))
    requires BeingDropped(s.ops[id]) ==> TriedOut(s.ops[id])
    ensures id in Next(c, s, e).ops
    ensures var op := Next(c, s, e).ops[id]; BeingDropped(op) ==> TriedOut(op)
  {
    if Moves(c, s, e, id) {
      if e.Go? {
        GoTriedOut(c, s, id);
      }
    } else {
      Unmoved(c, s, e, id);
    }
  }

  lemma GoTriedOut(c: Config, s: State, id: Id)
    requires CanGo(c, s, id) && (BeingDropped(s.ops[id]) ==> TriedOut(s.ops[id]))
    ensures var op := Next(c, s, Go(id)).ops[id]; BeingDropped(op) ==> TriedOut(op)
  {
  }

  lemma {:induction false} DroppedTriedOut(c: Config, steps: seq<Step>, id: Id)
    requires AlwaysWanted(c, steps, id) && id in Run(c, START, steps).ops
    ensures var op := Run(c, START, steps).ops[id]; BeingDropped(op) ==> TriedOut(op)
  {
    var n := |steps| - 1;
    if id in Run(c, START, steps[..n]).ops {
      assert forall k :: 0 <= k < n ==> steps[..n][..k] == steps[..k];
      DroppedTriedOut(c, steps[..n], id);
      NextTriedOut(c, Run(c, START, steps[..n]), steps[n], id);
    }
  }

  /** And an operation that is always wanted, and that there is always room for, is tried exactly so often before it is
      dropped. */
  lemma DroppedAfterAll(c: Config, steps: seq<Step>, k: nat, id: Id)
    requires Brings(c, steps, k, id) && AlwaysWanted(c, steps, id)
    ensures id in Run(c, START, steps).ops
    ensures var left := AskedFor(c, steps[k]) - steps[k].retryCount;
            Run(c, START, steps).ops[id].place == Gone(false) ==>
              |Run(c, START, steps).ops[id].starts| == if left > 0 then left else 0
  {
    StaysAsBrought(c, steps, k, id);
    RetriesBounded(c, steps, k, id);
    DroppedTriedOut(c, steps, id);
  }

  lemma OneGapMore(delay: int, n: int)
    ensures delay * (n * (n - 1)) == delay * ((n - 1) * (n - 2)) + 2 * (delay * (n - 1))
  {
    assert n * (n - 1) == (n - 1) * (n - 2) + 2 * (n - 1);
  }

  lemma {:induction false} SpacedFar(starts: seq<int>, delay: nat, n: nat)
    requires Spaced(starts, delay) && 0 < n <= |starts|
    ensures 2 * (starts[n - 1] - starts[0]) >= delay * (n * (n - 1))
  {
    if n > 1 {
      SpacedFar(starts, delay, n - 1);
      OneGapMore(delay, n);
    }
  }

  /** From RetryCount 0, the n-th retry starts at least retryDelay * n(n-1)/2 after the first. */
  lemma RetriesBackOff(c: Config, steps: seq<Step>, id: Id, n: nat)
    requires id in Run(c, START, steps).ops && Run(c, START, steps).ops[id].initial == 0
    requires 0 < n <= |Run(c, START, steps).ops[id].starts|
    ensures var starts := Run(c, START, steps).ops[id].starts;
            2 * (starts[n - 1] - starts[0]) >= c.retryDelay * (n * (n - 1))
  {
    RunOps(c, steps);
    assert OpInv(c, Run(c, START, steps).now, Run(c, START, steps).ops[id]);
    SpacedFar(Run(c, START, steps).ops[id].starts, c.retryDelay, n);
  }

  // ---- the object -------------------------------------------------------------------------------

  /** What others do before one step of a caller or worker. */
  type Tape = nat -> seq<Step>

  /** What the registered handler makes of an operation, if there is one. */
  datatype Handling = NoHandler | Rejects | Retries(ok: bool)

  datatype AddResult = Added | InvalidOperation | ChannelFull

  lemma RunMore(c: Config, s: State, trace: seq<Step>, e: Step)
    ensures Run(c, s, trace + [e]) == Next(c, Run(c, s, trace), e)
  {
    assert (trace + [e])[..|trace|] == trace;
  }

  /** Only its own goroutine moves an operation that is not in the channel. */
  lemma LeavesAlone(c: Config, s: State, e: Step, id: Id)
    requires ChannelInv(c, s) && id in s.ops && !s.ops[id].place.Queued? && (e.Tick? || e.Take? || e.id != id)
    ensures id in Next(c, s, e).ops && Next(c, s, e).ops[id] == s.ops[id]
  {
    if Allowed(c, s, e) && !e.Tick? {
      OnlySubjectMoves(c, s, e);
      assert e.Take? ==> s.channel[0] in s.channel;
    }
  }

  lemma {:induction false} ClockForward(c: Config, before: seq<Step>, after: seq<Step>)
    requires before <= after
    ensures Run(c, START, before).now <= Run(c, START, after).now
  {
    if before != after {
      ClockForward(c, before, after[..|after| - 1]);
    }
  }

  function Runs(c: Config): seq<Step> -> State {
    (trace: seq<Step>) => Run(c, START, trace)
  }

  class DeadLetterQueue {
    const c: Config
    const tape: Tape
    var at: nat
    var s: State
    ghost var trace: seq<Step>

    /** The shared state is what the steps taken so far make of an empty queue. */
    ghost predicate Valid()
      reads this
    {
      s == Run(c, START, trace)
    }

    constructor (c: Config, tape: Tape)
      ensures Valid() && s == START && trace == [] && this.c == c && this.tape == tape
    {
      this.c, this.tape, at, s, trace := c, tape, 0, START, [];
    }

    method Do(e: Step)
      requires Valid()
      modifies this`s, this`trace
      ensures Valid() && s == Next(c, old(s), e) && trace == old(trace) + [e]
    {
      RunMore(c, START, trace, e);
      s, trace := Next(c, s, e), trace + [e];
    }

    /** Everybody but id's goroutine moves on for a while; nobody else can touch id meanwhile. */
    method Others(id: Id)
      requires Valid() && id in s.ops && !s.ops[id].place.Queued?
      modifies this`s, this`trace, this`at
      ensures Valid() && old(trace) <= trace && id in s.ops && s.ops[id] == old(s).ops[id]
    {
      var steps := tape(at);
      at := at + 1;
      var i := 0;
      while i < |steps|
        invariant 0 <= i <= |steps| && Valid() && old(trace) <= trace && id in s.ops && s.ops[id] == old(s).ops[id]
      {
        if steps[i].Tick? || steps[i].Take? || steps[i].id != id {
          OnePlaceEach(c, trace);
          LeavesAlone(c, s, steps[i], id);
          Do(steps[i]);
        }
        i := i + 1;
      }
    }

    /** id's goroutine takes step e, after others have moved on. */
    method Act(id: Id, e: Step) returns (before: State)
      requires Valid() && id in s.ops && !s.ops[id].place.Queued?
      modifies this`s, this`trace, this`at
      ensures Valid() && old(trace) <= trace
      ensures id in before.ops && before.ops[id] == old(s).ops[id] && s == Next(c, before, e)
      ensures old(s).now <= before.now
    {
      Others(id);
      ClockForward(c, old(trace), trace);
      before := s;
      Do(e);
    }

    /** The send of AddFailedOperation and of a requeue: into the channel as soon as there is room, or given up
        after it `saw` no room for `patience` rounds. */
    method Send(id: Id, patience: nat) returns (sent: bool, ghost saw: State)
      requires Valid() && id in s.ops
      requires s.ops[id].place.Offering? || (s.ops[id].place.With? && s.ops[id].place.stage.Requeueing?)
      modifies this`s, this`trace, this`at
      ensures Valid() && old(trace) <= trace && id in s.ops
      ensures sent ==>
              s.ops[id] == old(s).ops[id].(place := Queued) && s.channel != [] && s.channel[|s.channel| - 1] == id
      ensures sent && old(s).ops[id].place.With? ==> old(s).ops[id].place.worker !in s.busy
      ensures OnTheWay(Runs(c), old(trace), trace, saw) && (!sent && patience > 0 ==> |saw.channel| >= c.queueSize)
      ensures !sent ==> s.ops[id] == old(s).ops[id].(place := s.ops[id].place)
                        && s.ops[id].place == (if old(s).ops[id].place.Offering? then Withdrawing
                                               else With(old(s).ops[id].place.worker, Untracking(false)))
    {
      var rounds := 0;
      saw := s;
      ghost var seen := trace;
      while rounds < patience
        invariant 0 <= rounds <= patience && Valid() && old(trace) <= trace && id in s.ops
                  && s.ops[id] == old(s).ops[id]
        invariant old(trace) <= seen <= trace && saw == Run(c, START, seen)
        invariant rounds > 0 ==> |saw.channel| >= c.queueSize
      {
        Others(id);
        saw, seen := s, trace;
        if |s.channel| < c.queueSize {
          Do(Go(id));
          WasOnTheWay(Runs(c), old(trace), seen, trace, saw);
          return true, saw;
        }
        rounds := rounds + 1;
      }
      var before := Act(id, SendTimeout(id));
      sent := false;
      WasOnTheWay(Runs(c), old(trace), seen, trace, saw);
    }

    /** Lines 205 to 214: into the map, then the two counters. */
    method Register(id: Id)
      requires Valid() && id in s.ops && s.ops[id].place.Validated?
      modifies this`s, this`trace, this`at
      ensures Valid() && old(trace) <= trace && id in s.ops && s.ops[id] == old(s).ops[id].(place := Offering)
    {
      ghost var op := s.ops[id];
      var before := Act(id, Go(id));
      assert s.ops[id] == op.(place := Tracked);
      before := Act(id, Go(id));
      assert s.ops[id] == op.(place := Raising);
      before := Act(id, Go(id));
    }

    /** Lines 225 to 231: out of the map and the gauge again. */
    method Withdraw(id: Id)
      requires Valid() && id in s.ops && s.ops[id].place.Withdrawing?
      modifies this`s, this`trace, this`at
      ensures Valid() && old(trace) <= trace && id in s.ops && s.ops[id].place.Refused?
    {
      var before := Act(id, Go(id));
      assert s.ops[id].place == Withdrawn;
      before := Act(id, Go(id));
    }

    /** AddFailedOperation, for an ID not used before. */
    method AddFailedOperation(id: Id, retryCount: int, maxRetries: int, nextRetry: int, nextRetryIsZero: bool,
                              wellFormed: bool, patience: nat) returns (r: AddResult, ghost saw: State)
      requires Valid() && id !in s.ops
      modifies this`s, this`trace, this`at
      ensures Valid() && old(trace) <= trace
      ensures r.InvalidOperation? <==> !wellFormed
      ensures r.InvalidOperation? ==> trace == old(trace)
      ensures r.Added? ==> id in s.ops && s.channel != [] && s.channel[|s.channel| - 1] == id
                           && s.ops[id].place.Queued? && s.ops[id].starts == []
                           && s.ops[id].retryCount == s.ops[id].initial == retryCount
      ensures r.Added? && maxRetries != 0 ==> s.ops[id].maxRetries == maxRetries
      ensures r.Added? && maxRetries == 0 ==> s.ops[id].maxRetries == c.maxRetries
      ensures r.Added? && nextRetryIsZero ==> s.ops[id].nextRetry == old(s).now + c.retryDelay
      ensures r.Added? && !nextRetryIsZero ==> s.ops[id].nextRetry == nextRetry
      ensures r.ChannelFull? ==> id in s.ops && s.ops[id].place.Refused?
      ensures r.ChannelFull? && patience > 0 ==>
                OnTheWay(Runs(c), old(trace), trace, saw) && |saw.channel| >= c.queueSize
    {
      saw := s;
      if !wellFormed {
        return InvalidOperation, saw;
      }
      Do(Add(id, retryCount, maxRetries, nextRetry, nextRetryIsZero));
      Register(id);
      ghost var offered := trace;
      var sent;
      sent, saw := Send(id, patience);
      if sent {
        return Added, saw;
      }
      ghost var k :| |offered| <= k <= |trace| && saw == Run(c, START, trace[..k]);
      ghost var seen := trace[..k];
      Withdraw(id);
      r := ChannelFull;
      WasOnTheWay(Runs(c), old(trace), seen, trace, saw);
    }

    /** succeedOperation and dropOperation. */
    method Remove(id: Id, w: nat, ok: bool)
      requires Valid() && id in s.ops && s.ops[id].place == With(w, Untracking(ok))
      modifies this`s, this`trace, this`at
      ensures Valid() && old(trace) <= trace && id in s.ops && w !in s.busy
      ensures s.ops[id] == old(s).ops[id].(place := Gone(ok))
    {
      ghost var op := s.ops[id];
      var before := Act(id, Go(id));
      assert s.ops[id] == op.(place := With(w, Tallying(ok)));
      before := Act(id, Go(id));
      assert s.ops[id] == op.(place := With(w, Lowering(ok)));
      before := Act(id, Go(id));
    }

    /** The retry itself, as far as what follows from it. */
    method CallHandler(id: Id, w: nat, ok: bool) returns (ghost returned: int)
      requires Valid() && ReadyToRetry(s, id) && s.ops[id].place.worker == w
      requires s.ops[id].retryCount < s.ops[id].maxRetries
      modifies this`s, this`trace, this`at
      ensures Valid() && old(trace) <= trace && id in s.ops && old(s).now <= returned <= s.now
      ensures var op, op' := old(s).ops[id], s.ops[id];
              && op'.retryCount == op.retryCount + 1 && op'.starts == op.starts + [old(s).now]
              && op'.place == With(w, if ok then Untracking(true) else Requeueing)
              && (!ok ==> op'.nextRetry == returned + c.retryDelay * (op.retryCount + 1))
    {
      Do(Attempt(id));
      assert s.ops[id].place == With(w, Retrying);
      var before := Act(id, HandlerDone(id, ok));
      assert s.ops[id].place == With(w, Retried(ok));
      before := Act(id, Go(id));
      returned := before.now;
    }

    /** The retry and what follows from it. */
    method Handle(id: Id, w: nat, ok: bool, patience: nat) returns (ghost returned: int, ghost saw: State)
      requires Valid() && ReadyToRetry(s, id) && s.ops[id].place.worker == w
      requires s.ops[id].retryCount < s.ops[id].maxRetries
      modifies this`s, this`trace, this`at
      ensures Valid() && old(trace) <= trace && id in s.ops && w !in s.busy
      ensures s.ops[id].retryCount == old(s).ops[id].retryCount + 1
      ensures s.ops[id].starts == old(s).ops[id].starts + [old(s).now] && old(s).now <= returned <= s.now
      ensures if ok then s.ops[id].place == Gone(true) else QueuedLast(id) || s.ops[id].place == Gone(false)
      ensures !ok && s.ops[id].place.Gone? && patience > 0 ==> SawFull(old(trace), saw)
      ensures s.ops[id].place.Queued? ==>
                s.ops[id].nextRetry == returned + c.retryDelay * (old(s).ops[id].retryCount + 1)
    {
      returned := CallHandler(id, w, ok);
      saw := s;
      ghost var was := trace;
      if ok {
        Remove(id, w, true);
      } else {
        saw := Requeue(id, w, patience);
        if s.ops[id].place.Gone? && patience > 0 {
          StillOnTheWay(Runs(c), old(trace), was, trace, trace, saw);
        }
      }
      ClockForward(c, was, trace);
    }

    /** The operation is last in the channel. */
    ghost predicate QueuedLast(id: Id)
      reads this
    {
      id in s.ops && s.ops[id].place.Queued? && s.channel != [] && s.channel[|s.channel| - 1] == id
    }

    /** The channel was full at some moment since `from`. */
    ghost predicate SawFull(from: seq<Step>, saw: State)
      reads this
    {
      OnTheWay(Runs(c), from, trace, saw) && |saw.channel| >= c.queueSize
    }

    method Requeue(id: Id, w: nat, patience: nat) returns (ghost saw: State)
      requires Valid() && id in s.ops && s.ops[id].place == With(w, Requeueing)
      modifies this`s, this`trace, this`at
      ensures Valid() && old(trace) <= trace && id in s.ops && w !in s.busy
      ensures s.ops[id] == old(s).ops[id].(place := s.ops[id].place)
      ensures QueuedLast(id) || s.ops[id].place == Gone(false)
      ensures s.ops[id].place.Gone? && patience > 0 ==> SawFull(old(trace), saw)
    {
      var sent;
      sent, saw := Send(id, patience);
      ghost var was := trace;
      if !sent {
        Remove(id, w, false);
        StillOnTheWay(Runs(c), old(trace), old(trace), was, trace, saw);
      }
    }

    /** The operation at the head of the channel is taken, and its time waited for. */
    method Claim(w: nat) returns (id: Id)
      requires Valid() && w < c.workerCount && w !in s.busy && s.channel != []
      modifies this`s, this`trace, this`at
      ensures Valid() && old(trace) <= trace && id == old(s).channel[0] && id in old(s).ops && id in s.ops
      ensures s.ops[id] == old(s).ops[id].(place := With(w, Waiting)) && s.now >= s.ops[id].nextRetry
    {
      OnePlaceEach(c, trace);
      id := s.channel[0];
      Do(Take(w));
      var op := s.ops[id];
      Others(id);
      Do(Tick(if op.nextRetry > s.now then op.nextRetry - s.now else 0));
      assert s.ops[id] == op && s.now >= op.nextRetry;
    }

    /** One turn of a worker: take the operation at the head of the channel, wait for its time, and process it. */
    method ProcessNext(w: nat, handling: Handling, patience: nat)
      returns (id: Id, ghost returned: int, ghost saw: State)
      requires Valid() && w < c.workerCount && w !in s.busy && s.channel != []
      modifies this`s, this`trace, this`at
      ensures Valid() && old(trace) <= trace && w !in s.busy
      ensures id == old(s).channel[0] && id in old(s).ops && id in s.ops
      ensures var op, op' := old(s).ops[id], s.ops[id];
              if op.retryCount < op.maxRetries && handling.Retries? then
                && op'.retryCount == op.retryCount + 1
                && (exists t :: op.nextRetry <= t <= returned && op'.starts == op.starts + [t])
                && returned <= s.now
                && (op'.place.Queued? ==> op'.nextRetry == returned + c.retryDelay * op'.retryCount)
                && (if handling.ok then op'.place == Gone(true) else QueuedLast(id) || op'.place == Gone(false))
                && (!handling.ok && op'.place.Gone? && patience > 0 ==> SawFull(old(trace), saw))
              else op' == op.(place := Gone(false))
    {
      id := Claim(w);
      returned, saw := s.now, s;
      ghost var was := trace;
      var op := s.ops[id];
      if op.retryCount >= op.maxRetries || !handling.Retries? {
        Do(Decline(id));
        Remove(id, w, false);
      } else {
        returned, saw := Handle(id, w, handling.ok, patience);
        if !handling.ok && s.ops[id].place.Gone? && patience > 0 {
          StillOnTheWay(Runs(c), old(trace), was, trace, trace, saw);
        }
      }
    }
  }
}
