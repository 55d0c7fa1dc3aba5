/**
  The pool object: the loops of pool.go and worker.go, each running while everybody else keeps moving.  Every method
  takes only legal steps, so what `Pools` proves of all runs holds of the object whenever it is `Valid`.
 */
module WorkerPools {
  import opened Pools
  import opened Traces
  import Counting

  /** What happens around one step: what others do first, which ready case a select takes, how a task ends. */
  datatype Moment = Moment(others: seq<Step>, preferStop: bool, taskOk: bool)

  const MILLISECOND: int := 1_000_000
  const HOUR: int := 3_600_000 * MILLISECOND

  /** What a caller submits, as far as it is checked; a timeout of 0 asks for the default. */
  datatype Order = Order(hasTask: bool, timeout: int) {
    predicate Acceptable() {
      hasTask && (timeout == 0 || MILLISECOND <= timeout <= HOUR)
    }
  }

  /** Whose method is running: others do not take its steps. */
  datatype Actor = Caller | Scaler | Goroutine(w: nat) | Collecting

  predicate Mine(a: Actor, e: Step) {
    match a
    case Caller => false
    case Scaler => e.Hold?
    case Goroutine(w) => (e.Go? || e.HearStop? || e.Finish?) && e.w == w
    case Collecting => e.Collect?
  }

  /** What the others leave alone. */
  ghost predicate Undisturbed(a: Actor, s: State, s': State) {
    match a
    case Caller => s.jobs.accepted <= s'.jobs.accepted && (s.ready ==> s'.ready)
    case Scaler => HolderAlone(s, s')
    case Goroutine(w) =>
      w in s.staff.workers ==>
        && w in s'.staff.workers && s'.staff.workers[w].pc == s.staff.workers[w].pc
        && (s.staff.workers[w].stopped ==> s'.staff.workers[w].stopped)
    case Collecting =>
      && s'.collector == s.collector && s'.jobs.collected == s.jobs.collected
      && s'.counts.completed == s.counts.completed && s'.counts.failed == s.counts.failed
  }

  /** In a step from `from` on, this result entered the channel. */
  ghost predicate SentSince(c: Config, trace: seq<Step>, from: nat, r: Result) {
    exists m :: from <= m < |trace| && Enters(c, trace, m, r)
  }

  ghost predicate Enters(c: Config, trace: seq<Step>, m: nat, r: Result)
    requires m < |trace|
  {
    Run(c, Start(c), trace[..m + 1]).jobs.results == Run(c, Start(c), trace[..m]).jobs.results + [r]
  }

  lemma StillSent(c: Config, trace: seq<Step>, more: seq<Step>, from: nat, from': nat, r: Result)
    requires SentSince(c, trace, from, r) && trace <= more && from' <= from
    ensures SentSince(c, more, from', r)
  {
    var m :| from <= m < |trace| && Enters(c, trace, m, r);
    assert more[..m + 1] == trace[..m + 1] && more[..m] == trace[..m];
    assert Enters(c, more, m, r);
  }

  /** Nobody scales meanwhile; and until NewPool returns, nobody has a job to submit or to start. */
  ghost predicate HolderAlone(s: State, s': State) {
    !s.holder.Free? ==>
      && s'.holder == s.holder && s'.ready == s.ready
      && s'.staff.slice == s.staff.slice && s'.staff.workers.Keys == s.staff.workers.Keys
      && s'.counts.total == s.counts.total && (Unused(s) ==> Unused(s'))
  }

  predicate Unused(s: State) {
    !s.ready && s.jobs.queue == [] && s.jobs.started == 0
  }

  lemma OtherStep(c: Config, a: Actor, s: State, e: Step)
    requires !Mine(a, e) && |s.staff.workers| !in s.staff.workers
    ensures Undisturbed(a, s, Next(c, s, e))
  {
    match a
    case Scaler => ScalerAlone(c, s, e);
    case Goroutine(w) => GoroutineAlone(c, w, s, e);
    case _ =>
  }

  lemma ScalerAlone(c: Config, s: State, e: Step)
    requires !e.Hold?
    ensures HolderAlone(s, Next(c, s, e))
  {
  }

  lemma GoroutineAlone(c: Config, w: nat, s: State, e: Step)
    requires !Mine(Goroutine(w), e) && |s.staff.workers| !in s.staff.workers
    ensures Undisturbed(Goroutine(w), s, Next(c, s, e))
  {
  }

  datatype Scaling = Scaled | Refused | AwaitingMutex | CaughtInSend

  datatype Turn = Stopped | Did(job: Job, ok: bool) | NoJobYet | AwaitingSend

  function Runs(c: Config): seq<Step> -> State {
    (trace: seq<Step>) => Run(c, Start(c), trace)
  }

  class WorkerPool {
    const c: Config
    const tape: nat -> Moment
    var at: nat
    var s: State
    ghost var trace: seq<Step>

    ghost predicate Valid()
      reads this
    {
      c.Valid() && s == Run(c, Start(c), trace)
    }

    constructor (c: Config, tape: nat -> Moment)
      requires c.Valid()
      ensures Valid() && s == Start(c) && trace == [] && this.c == c && this.tape == tape
    {
      this.c, this.tape, at, s, trace := c, tape, 0, Start(c), [];
    }

    method Take(e: Step)
      requires Valid()
      modifies this`s, this`trace
      ensures Valid() && s == Next(c, old(s), e) && trace == old(trace) + [e]
    {
      RunMore(c, Start(c), trace, e);
      s, trace := Next(c, s, e), trace + [e];
    }

    method Others(a: Actor) returns (m: Moment)
      requires Valid()
      modifies this`s, this`trace, this`at
      ensures Valid() && old(trace) <= trace && Undisturbed(a, old(s), s)
    {
      m, at := tape(at), at + 1;
      var i := 0;
      while i < |m.others|
        invariant 0 <= i <= |m.others| && Valid() && old(trace) <= trace && Undisturbed(a, old(s), s)
      {
        if !Mine(a, m.others[i]) {
          RunSlice(c, trace);
          OtherStep(c, a, s, m.others[i]);
          Take(m.others[i]);
        }
        i := i + 1;
      }
    }

    /** The holder of the mutex takes its next step, after others have moved on. */
    method HoldOn() returns (ghost before: State)
      requires Valid() && !s.holder.Free? && !s.holder.Pooling?
      modifies this`s, this`trace, this`at
      ensures Valid() && old(trace) <= trace && Undisturbed(Scaler, old(s), before)
      ensures Allowed(c, before, Hold) && s == Held(c, before)
    {
      var m := Others(Scaler);
      before := s;
      RunSlice(c, trace);
      Take(Hold);
    }

    /** createWorker and the append. */
    method CreateWorker()
      requires Valid() && s.holder.Creating? && s.holder.next < s.holder.goal
      modifies this`s, this`trace, this`at
      ensures Valid() && old(trace) <= trace
      ensures old(s).staff.slice <= s.staff.slice && |s.staff.slice| == |old(s).staff.slice| + 1
              && |s.staff.workers| == |old(s).staff.workers| + 1
      ensures s.holder == Pooling(old(s).holder.next, old(s).holder.goal)
      ensures Unused(old(s)) ==> Unused(s)
    {
      ghost var keys := s.staff.workers.Keys;
      RunSlice(c, trace);
      assert |s.staff.workers| == |keys|;
      ghost var before := HoldOn();
      assert before.staff.workers.Keys == keys && |before.staff.workers| == |keys|;
      assert s.staff.workers.Keys == keys + {|keys|} && |s.staff.workers.Keys| == |s.staff.workers|;
    }

    /** The send into workerPool, which blocks for good when that is full. */
    method SendToPool() returns (caught: bool)
      requires Valid() && s.holder.Pooling?
      modifies this`s, this`trace, this`at
      ensures Valid() && old(trace) <= trace && s.staff.slice == old(s).staff.slice
              && s.staff.workers.Keys == old(s).staff.workers.Keys
      ensures if caught then s.holder.Pooling? && s.staff.pooled == c.maxWorkers
              else s.holder == RaisingTotal(old(s).holder.next, old(s).holder.goal)
      ensures Unused(old(s)) ==> Unused(s)
    {
      var m := Others(Scaler);
      RunPooled(c, trace);
      caught := s.staff.pooled == c.maxWorkers;
      if !caught {
        Take(Hold);
      }
    }

    /** One round of the loop in initializeWorkers and in ScaleUp: create a worker, send it, count it. */
    method AddWorker() returns (caught: bool)
      requires Valid() && s.holder.Creating? && s.holder.next < s.holder.goal
      modifies this`s, this`trace, this`at
      ensures Valid() && old(trace) <= trace
      ensures old(s).staff.slice <= s.staff.slice && |s.staff.slice| == |old(s).staff.slice| + 1
              && |s.staff.workers| == |old(s).staff.workers| + 1
      ensures if caught then s.holder.Pooling? && s.staff.pooled == c.maxWorkers
              else s.holder == Creating(old(s).holder.next + 1, old(s).holder.goal)
      ensures Unused(old(s)) ==> Unused(s)
    {
      CreateWorker();
      ghost var keys := s.staff.workers.Keys;
      assert |keys| == |s.staff.workers|;
      caught := SendToPool();
      if !caught {
        ghost var before := HoldOn();
        before := HoldOn();
      }
      assert s.staff.workers.Keys == keys && |s.staff.workers.Keys| == |s.staff.workers|;
    }

    /** The loop over AddWorker. */
    method AddWorkers() returns (caught: bool)
      requires Valid() && s.holder.Creating?
      modifies this`s, this`trace, this`at
      ensures Valid() && old(trace) <= trace && old(s).staff.slice <= s.staff.slice
      ensures |s.staff.workers| - |s.staff.slice| == old(|s.staff.workers| - |s.staff.slice|)
      ensures if caught then s.holder.Pooling? && s.staff.pooled == c.maxWorkers
              else s.holder.Free? && s.ready && |s.staff.slice| == old(s).holder.goal
      ensures Unused(old(s)) ==> s.jobs.started == 0
    {
      caught := false;
      var goal := s.holder.goal;
      RunSlice(c, trace);
      while s.holder.next < goal
        invariant Valid() && old(trace) <= trace && old(s).staff.slice <= s.staff.slice
        invariant |s.staff.workers| - |s.staff.slice| == old(|s.staff.workers| - |s.staff.slice|)
        invariant s.holder.Creating? && s.holder.goal == goal && s.holder.next == |s.staff.slice| <= goal
        invariant Unused(old(s)) ==> Unused(s)
        decreases goal - s.holder.next
      {
        caught := AddWorker();
        if caught {
          return;
        }
        RunSlice(c, trace);
      }
      ghost var n := |s.staff.workers.Keys|;
      ghost var before := HoldOn();
      assert |s.staff.workers.Keys| == n;
    }

    /** initializeWorkers: MinWorkers workers, numbered from 0; none of its sends can block. */
    method InitializeWorkers()
      requires Valid() && s == Start(c)
      modifies this`s, this`trace, this`at
      ensures Valid() && old(trace) <= trace && s.ready && s.holder.Free? && |s.staff.slice| == c.minWorkers
      ensures Placed(s.staff.slice, s.staff.workers)
    {
      var caught := AddWorkers();
      NeverCaughtAtFirst(c, trace);
      RunSlice(c, trace);
    }

    /** wp.mu.Lock(), given up after `patience` rounds. */
    method Lock(patience: nat) returns (locked: bool)
      requires Valid()
      modifies this`s, this`trace, this`at
      ensures Valid() && old(trace) <= trace && locked == s.holder.Free?
    {
      var rounds := 0;
      var m := Others(Caller);
      while !s.holder.Free? && rounds < patience
        invariant Valid() && old(trace) <= trace
      {
        m := Others(Caller);
        rounds := rounds + 1;
      }
      locked := s.holder.Free?;
    }

    /** ScaleUp adds as many of `count` workers as MaxWorkers allows, after those it found; or it is caught in a send
        that FullPoolIsForever shows never ends. */
    method ScaleUp(count: int, patience: nat) returns (r: Scaling, ghost found: State)
      requires Valid()
      modifies this`s, this`trace, this`at
      ensures Valid() && old(trace) <= trace
      ensures OnTheWay(Runs(c), old(trace), trace, found)
      ensures r.Refused? ==> s == found && (count <= 0 || |found.staff.slice| == c.maxWorkers)
      ensures r.AwaitingMutex? ==> !s.holder.Free?
      ensures r.Scaled? ==>
                && found.holder.Free? && s.holder.Free? && found.staff.slice <= s.staff.slice
                && |found.staff.slice| < |s.staff.slice| <= c.maxWorkers
                && |s.staff.slice| <= |found.staff.slice| + count
                && (|s.staff.slice| == |found.staff.slice| + count || |s.staff.slice| == c.maxWorkers)
      ensures r.CaughtInSend? ==> s.holder.Pooling? && s.staff.pooled == c.maxWorkers
    {
      found := s;
      ghost var was := trace;
      WasOnTheWay(Runs(c), old(trace), was, trace, found);
      if count <= 0 {
        return Refused, found;
      }
      var locked := Lock(patience);
      found, was := s, trace;
      WasOnTheWay(Runs(c), old(trace), was, trace, found);
      RunSlice(c, trace);
      if !locked {
        return AwaitingMutex, found;
      }
      if c.maxWorkers - |s.staff.slice| <= 0 {
        return Refused, found;
      }
      Take(Step.ScaleUp(count));
      var caught := AddWorkers();
      WasOnTheWay(Runs(c), old(trace), was, trace, found);
      r := if caught then CaughtInSend else Scaled;
    }

    /** The loop in ScaleDown that stops the last `count` workers, latest first. */
    method StopWorkers(count: nat)
      requires Valid() && s.holder == Stopping(0, count)
      modifies this`s, this`trace, this`at
      ensures Valid() && old(trace) <= trace && s.holder == LoweringTotal(count) && count <= |old(s).staff.slice|
      ensures s.staff.slice == old(s).staff.slice[..|old(s).staff.slice| - count]
      ensures s.staff.workers.Keys == old(s).staff.workers.Keys
    {
      var i := 0;
      RunSlice(c, trace);
      while i < count
        invariant 0 <= i <= count && Valid() && old(trace) <= trace && s.holder == Stopping(i, count)
        invariant s.staff.slice == old(s).staff.slice && s.staff.workers.Keys == old(s).staff.workers.Keys
      {
        ghost var before := HoldOn();
        i := i + 1;
      }
      ghost var before := HoldOn();
    }

    /** ScaleDown's second half: the workers are stopped, cut off the slice, and uncounted. */
    method RemoveWorkers(count: nat)
      requires Valid() && s.holder == Stopping(0, count)
      modifies this`s, this`trace, this`at
      ensures Valid() && old(trace) <= trace && s.holder.Free? && count <= |old(s).staff.slice|
      ensures s.staff.slice == old(s).staff.slice[..|old(s).staff.slice| - count]
      ensures s.staff.workers.Keys == old(s).staff.workers.Keys
    {
      StopWorkers(count);
      ghost var before := HoldOn();
      before := HoldOn();
    }

    /** ScaleDown takes as many of `count` workers as MinWorkers allows off the end of the slice, and each of those has
        been told to stop. */
    method ScaleDown(count: int, patience: nat) returns (r: Scaling, ghost found: State)
      requires Valid()
      modifies this`s, this`trace, this`at
      ensures Valid() && old(trace) <= trace && !r.CaughtInSend?
      ensures OnTheWay(Runs(c), old(trace), trace, found)
      ensures r.Refused? ==> s == found && (count <= 0 || |found.staff.slice| == c.minWorkers)
      ensures r.AwaitingMutex? ==> !s.holder.Free?
      ensures r.Scaled? ==>
                && found.holder.Free? && s.holder.Free? && s.staff.slice <= found.staff.slice
                && c.minWorkers <= |s.staff.slice| < |found.staff.slice|
                && |found.staff.slice| - count <= |s.staff.slice|
                && (|s.staff.slice| == |found.staff.slice| - count || |s.staff.slice| == c.minWorkers)
                && (forall i :: |s.staff.slice| <= i < |found.staff.slice| ==>
                                  found.staff.slice[i] in s.staff.workers
                                      && s.staff.workers[found.staff.slice[i]].stopped)
    {
      found := s;
      ghost var was := trace;
      WasOnTheWay(Runs(c), old(trace), was, trace, found);
      if count <= 0 {
        return Refused, found;
      }
      var locked := Lock(patience);
      found, was := s, trace;
      WasOnTheWay(Runs(c), old(trace), was, trace, found);
      RunSlice(c, was);
      if !locked {
        return AwaitingMutex, found;
      }
      if |s.staff.slice| <= c.minWorkers {
        return Refused, found;
      }
      Take(Step.ScaleDown(count));
      RemoveWorkers(Min(count, |s.staff.slice| - c.minWorkers));
      RemovedAreStopped(c, was, found, trace, s);
      WasOnTheWay(Runs(c), old(trace), was, trace, found);
      r := Scaled;
    }

    /** Submit: an acceptable job is taken, as the next in line, exactly if the queue it `found` has room; any
        other is refused outright. */
    method Submit(order: Order) returns (ok: bool, ghost job: Job, ghost found: State)
      requires Valid() && s.ready
      modifies this`s, this`trace, this`at
      ensures Valid() && old(trace) <= trace && OnTheWay(Runs(c), old(trace), trace, found)
      ensures ok <==> order.Acceptable() && |found.jobs.queue| < c.queueSize
      ensures job == found.jobs.accepted && (!order.Acceptable() ==> s == old(s) && trace == old(trace))
      ensures s.ready && old(s).jobs.accepted <= job <= s.jobs.accepted && (ok ==> job < s.jobs.accepted)
    {
      job, found := s.jobs.accepted, s;
      ghost var was := trace;
      if !order.Acceptable() {
        WasOnTheWay(Runs(c), old(trace), was, trace, found);
        return false, job, found;
      }
      var m := Others(Caller);
      job, found, was := s.jobs.accepted, s, trace;
      ok := |s.jobs.queue| < c.queueSize;
      if ok {
        Take(Step.Submit);
        m := Others(Caller);
        Take(Report);
      }
      WasOnTheWay(Runs(c), old(trace), was, trace, found);
    }

    /** SubmitBatch: every job is tried, in order, and the batch reports an error exactly if one of them was refused;
        the accepted ones keep their order in the queue. */
    method SubmitBatch(orders: seq<Order>) returns (oks: seq<bool>, batchOk: bool, ghost jobs: seq<Job>)
      requires Valid() && s.ready
      modifies this`s, this`trace, this`at
      ensures Valid() && old(trace) <= trace && |jobs| == |oks|
      ensures |oks| == |orders| && (orders == [] ==> !batchOk && s == old(s))
      ensures orders != [] ==> (batchOk <==> forall i :: 0 <= i < |oks| ==> oks[i])
      ensures forall i :: 0 <= i < |oks| && oks[i] ==> orders[i].Acceptable()
      ensures forall i, j :: 0 <= i < j < |jobs| && oks[i] && oks[j] ==>
              old(s).jobs.accepted <= jobs[i] < jobs[j] < s.jobs.accepted
    {
      oks, batchOk, jobs := [], orders != [], [];
      while |oks| < |orders|
        invariant Valid() && old(trace) <= trace && |jobs| == |oks| <= |orders|
        invariant s.ready && old(s).jobs.accepted <= s.jobs.accepted
        invariant orders == [] ==> s == old(s)
        invariant forall i :: 0 <= i < |oks| && oks[i] ==> orders[i].Acceptable()
        invariant batchOk <==> orders != [] && forall i :: 0 <= i < |oks| ==> oks[i]
        invariant forall i :: 0 <= i < |jobs| && oks[i] ==> old(s).jobs.accepted <= jobs[i] < s.jobs.accepted
        invariant forall i, j :: 0 <= i < j < |jobs| && oks[i] && oks[j] ==> jobs[i] < jobs[j]
        decreases |orders| - |oks|
      {
        var ok;
        ghost var job, found;
        ok, job, found := Submit(orders[|oks|]);
        var before := oks;
        oks, jobs, batchOk := oks + [ok], jobs + [job], batchOk && ok;
        assert oks[|before|] == ok && forall i :: 0 <= i < |before| ==> oks[i] == before[i];
      }
    }

    /** GetResult: the first result in the channel, if there is one; nobody gets that one again. */
    method GetResult() returns (ok: bool, result: Result)
      requires Valid()
      modifies this`s, this`trace, this`at
      ensures Valid() && old(trace) <= trace && (!ok ==> s.jobs.results == [])
      ensures ok ==> FinishedSince(c, trace, 0, result.job, result.ok)
      ensures ok ==>
                var job := result.job;
                && |s.jobs.fetched| > 0 && s.jobs.fetched[|s.jobs.fetched| - 1] == job
                && multiset(s.jobs.fetched)[job] == 1 && job !in s.jobs.queue && job !in s.jobs.collected
                && forall w :: w in s.staff.workers ==> !Holds(s.staff.workers[w].pc, job)
    {
      var m := Others(Caller);
      ok, result := s.jobs.results != [], Result(0, false);
      if ok {
        result := s.jobs.results[0];
        RunResults(c, trace);
        ghost var was := trace;
        Take(Step.GetResult);
        StillFinished(c, was, trace, 0, 0, result.job, result.ok);
        FetchedOnce(c, trace, result.job);
      }
    }

    /** One round of processJobResults on a waiting result: it is taken, and counted once as completed or failed. */
    method ProcessJobResult() returns (ok: bool, result: Result)
      requires Valid() && s.collector.Listening?
      modifies this`s, this`trace, this`at
      ensures Valid() && old(trace) <= trace && s.collector.Listening? && (!ok ==> s.jobs.results == [])
      ensures s.jobs.collected == old(s).jobs.collected + if ok then [result.job] else []
      ensures s.counts.completed == old(s).counts.completed + if ok && result.ok then 1 else 0
      ensures s.counts.failed == old(s).counts.failed + if ok && !result.ok then 1 else 0
      ensures ok ==> FinishedSince(c, trace, 0, result.job, result.ok)
    {
      var m := Others(Collecting);
      ok, result := s.jobs.results != [], Result(0, false);
      if ok {
        result := s.jobs.results[0];
        RunResults(c, trace);
        ghost var was := trace;
        CountResult();
        StillFinished(c, was, trace, 0, 0, result.job, result.ok);
      }
    }

    /** The waiting result is taken off the channel and counted. */
    method CountResult()
      requires Valid() && s.collector.Listening? && s.jobs.results != []
      modifies this`s, this`trace, this`at
      ensures Valid() && old(trace) <= trace && s.collector.Listening?
      ensures s.jobs.collected == old(s).jobs.collected + [old(s).jobs.results[0].job]
      ensures s.counts.completed == old(s).counts.completed + if old(s).jobs.results[0].ok then 1 else 0
      ensures s.counts.failed == old(s).counts.failed + if old(s).jobs.results[0].ok then 0 else 1
    {
      Take(Collect);
      var m := Others(Collecting);
      Take(Collect);
      m := Others(Collecting);
      Take(Collect);
    }

    /** Worker w's next step, after others have moved on, once it can be taken: `patience` rounds at most. */
    method GoOn(w: nat, patience: nat) returns (gone: bool, ghost before: State)
      requires Valid() && w in s.staff.workers
      modifies this`s, this`trace, this`at
      ensures Valid() && old(trace) <= trace
      ensures w in before.staff.workers && before.staff.workers[w].pc == old(s).staff.workers[w].pc
      ensures old(s).staff.workers[w].stopped ==> before.staff.workers[w].stopped
      ensures gone == Allowed(c, before, Go(w)) && s == if gone then Went(c, before, w) else before
      ensures gone ==> |old(trace)| < |trace| && before == Run(c, Start(c), trace[..|trace| - 1])
    {
      var rounds := 0;
      var m := Others(Goroutine(w));
      while !CanGo(c, s, s.staff.workers[w].pc) && rounds < patience
        invariant Valid() && old(trace) <= trace && w in s.staff.workers
                  && s.staff.workers[w].pc == old(s).staff.workers[w].pc
        invariant old(s).staff.workers[w].stopped ==> s.staff.workers[w].stopped
      {
        m := Others(Goroutine(w));
        rounds := rounds + 1;
      }
      before, gone := s, CanGo(c, s, s.staff.workers[w].pc);
      if gone {
        ghost var was := trace;
        Take(Go(w));
        assert trace[..|trace| - 1] == was;
      }
    }

    /** The select of the worker loop: a job, or the stop signal, or neither within `patience` rounds. */
    method Select(w: nat, patience: nat) returns (t: Turn)
      requires Valid() && w in s.staff.workers && s.staff.workers[w].pc.Selecting?
      modifies this`s, this`trace, this`at
      ensures Valid() && old(trace) <= trace && w in s.staff.workers
      ensures t.Stopped? ==> s.staff.workers[w].pc.Gone? && s.staff.workers[w].stopped
      ensures t.NoJobYet? ==> s.staff.workers[w].pc.Selecting? && !CanGo(c, s, Selecting) && !s.staff.workers[w].stopped
      ensures t.Did? ==> s.staff.workers[w].pc == Took(t.job)
      ensures !t.AwaitingSend?
    {
      var rounds := 0;
      while rounds <= patience
        invariant Valid() && old(trace) <= trace && w in s.staff.workers && s.staff.workers[w].pc.Selecting?
        invariant rounds > 0 ==> s.jobs.queue == [] && !s.staff.workers[w].stopped
      {
        var m := Others(Goroutine(w));
        if s.staff.workers[w].stopped && (m.preferStop || s.jobs.queue == []) {
          Take(HearStop(w));
          return Stopped;
        } else if s.jobs.queue != [] {
          t := Did(s.jobs.queue[0], false);
          Take(Go(w));
          return;
        }
        rounds := rounds + 1;
      }
      t := NoJobYet;
    }

    /** processJob between the worker's counters, as far as its send. */
    method RunJob(w: nat) returns (ok: bool)
      requires Valid() && w in s.staff.workers && s.staff.workers[w].pc.Took?
      modifies this`s, this`trace, this`at
      ensures Valid() && old(trace) <= trace && w in s.staff.workers
      ensures s.staff.workers[w].pc == Sending(old(s).staff.workers[w].pc.job, ok)
      ensures FinishedSince(c, trace, |old(trace)|, old(s).staff.workers[w].pc.job, ok)
    {
      var gone; ghost var before;
      gone, before := GoOn(w, 0);
      gone, before := GoOn(w, 0);
      var m := Others(Goroutine(w));
      ok := m.taskOk;
      ghost var was := trace;
      Take(Finish(w, ok));
      assert trace[..|was|] == was;
      assert FinishesAt(c, trace, |was|, s.staff.workers[w].pc.job, ok);
    }

    /** The result is sent, once there is room for it. */
    method SendResult(w: nat, patience: nat) returns (done: bool)
      requires Valid() && w in s.staff.workers && s.staff.workers[w].pc.Sending?
      modifies this`s, this`trace, this`at
      ensures Valid() && old(trace) <= trace && w in s.staff.workers
      ensures done ==>
                && s.staff.workers[w].pc == Sent
                && SentSince(c, trace, |old(trace)|,
                             Result(old(s).staff.workers[w].pc.job, old(s).staff.workers[w].pc.ok))
      ensures !done ==> s.staff.workers[w].pc == old(s).staff.workers[w].pc && |s.jobs.results| >= c.queueSize
    {
      ghost var before;
      done, before := GoOn(w, patience);
      if done {
        assert trace[..|trace| - 1 + 1] == trace;
        assert Enters(c, trace, |trace| - 1, Result(before.staff.workers[w].pc.job, before.staff.workers[w].pc.ok));
      }
    }

    /** The end of the round: the result is sent, the counters are set back, the worker sends itself to workerPool. */
    method HandIn(w: nat, patience: nat) returns (done: bool)
      requires Valid() && w in s.staff.workers && s.staff.workers[w].pc.Sending?
      modifies this`s, this`trace, this`at
      ensures Valid() && old(trace) <= trace && w in s.staff.workers
      ensures s.staff.workers[w].pc.Looping? || s.staff.workers[w].pc.Returning? ==>
                SentSince(c, trace, |old(trace)|, Result(old(s).staff.workers[w].pc.job, old(s).staff.workers[w].pc.ok))
      ensures if done then s.staff.workers[w].pc.Looping?
              else s.staff.workers[w].pc == old(s).staff.workers[w].pc || s.staff.workers[w].pc.Returning?
      ensures s.staff.workers[w].pc.Returning? ==> s.staff.pooled == c.maxWorkers
      ensures s.staff.workers[w].pc.Sending? ==> |s.jobs.results| >= c.queueSize
    {
      ghost var r := Result(s.staff.workers[w].pc.job, s.staff.workers[w].pc.ok);
      done := SendResult(w, patience);
      if done {
        ghost var sent := trace;
        done := ReturnToPool(w, patience);
        StillSent(c, sent, trace, |old(trace)|, |old(trace)|, r);
      }
    }

    /** The counters, and the send into workerPool, which may be full. */
    method ReturnToPool(w: nat, patience: nat) returns (done: bool)
      requires Valid() && w in s.staff.workers && s.staff.workers[w].pc.Sent?
      modifies this`s, this`trace, this`at
      ensures Valid() && old(trace) <= trace && w in s.staff.workers
      ensures if done then s.staff.workers[w].pc.Looping?
              else s.staff.workers[w].pc.Returning? && s.staff.pooled == c.maxWorkers
    {
      ghost var before;
      done, before := GoOn(w, 0);
      done, before := GoOn(w, 0);
      done, before := GoOn(w, patience);
      RunPooled(c, trace);
    }

    /** One round of the worker's loop: it ends, at once if the worker has been stopped, or takes the oldest
        job and does it, or waits in one of its three channel operations, the last of which, once blocked,
        is blocked for good. */
    method Round(w: nat, patience: nat) returns (t: Turn)
      requires Valid() && w in s.staff.workers && s.staff.workers[w].pc.Looping?
      modifies this`s, this`trace, this`at
      ensures Valid() && old(trace) <= trace && w in s.staff.workers
      ensures old(s).staff.workers[w].stopped ==> t.Stopped?
      ensures match t
              case Stopped => s.staff.workers[w].pc.Gone? && s.staff.workers[w].stopped
              case Did(job, ok) =>
                && s.staff.workers[w].pc.Looping? && FinishedSince(c, trace, |old(trace)|, job, ok)
                && SentSince(c, trace, |old(trace)|, Result(job, ok))
              case NoJobYet => s.staff.workers[w].pc.Selecting? && s.jobs.queue == [] && !s.staff.workers[w].stopped
              case AwaitingSend =>
                || (s.staff.workers[w].pc.Sending? && |s.jobs.results| >= c.queueSize)
                || (s.staff.workers[w].pc.Returning? && s.staff.pooled == c.maxWorkers)
    {
      var gone; ghost var before;
      gone, before := GoOn(w, 0);
      if s.staff.workers[w].pc.Gone? {
        return Stopped;
      }
      t := Select(w, patience);
      if t.Did? {
        ghost var was := trace;
        var ok := RunJob(w);
        ghost var finished := trace;
        var done := HandIn(w, patience);
        StillFinished(c, finished, trace, |was|, |old(trace)|, t.job, ok);
        if done {
          StillSent(c, trace, trace, |finished|, |old(trace)|, Result(t.job, ok));
        }
        t := if done then Did(t.job, ok) else AwaitingSend;
      }
    }
  }

  /** Without jobs, workerPool holds no more than the workers created. */
  lemma NeverCaughtAtFirst(c: Config, trace: seq<Step>)
    requires c.Valid()
    ensures var s := Run(c, Start(c), trace);
            s.jobs.started == 0 && |s.staff.workers| == |s.staff.slice| ==>
              !(s.holder.Pooling? && s.staff.pooled == c.maxWorkers)
  {
    RunSlice(c, trace);
    RunCounters(c, trace);
  }

  lemma RemovedAreStopped(c: Config, was: seq<Step>, found: State, trace: seq<Step>, s: State)
    requires c.Valid() && found == Run(c, Start(c), was) && s == Run(c, Start(c), trace)
    requires s.holder.Free? && s.staff.workers.Keys == found.staff.workers.Keys && s.staff.slice <= found.staff.slice
    ensures forall i :: |s.staff.slice| <= i < |found.staff.slice| ==>
                          found.staff.slice[i] in s.staff.workers && s.staff.workers[found.staff.slice[i]].stopped
  {
    RunSlice(c, was);
    RunSlice(c, trace);
    assert forall k :: 0 <= k < |s.staff.slice| ==>
        s.staff.slice[k] == found.staff.slice[k] && found.staff.workers[found.staff.slice[k]].id == k;
  }

  lemma FetchedOnce(c: Config, trace: seq<Step>, job: Job)
    requires c.Valid() && job in Run(c, Start(c), trace).jobs.fetched
    ensures var s := Run(c, Start(c), trace);
            && multiset(s.jobs.fetched)[job] == 1 && job !in s.jobs.queue && job !in s.jobs.collected
            && forall w :: w in s.staff.workers ==> !Holds(s.staff.workers[w].pc, job)
  {
    var s := Run(c, Start(c), trace);
    JobInOnePlace(c, trace, job);
    assert multiset(s.jobs.fetched)[job] >= 1;
    assert job in s.jobs.queue ==> multiset(s.jobs.queue)[job] >= 1;
    assert job in s.jobs.collected ==> multiset(s.jobs.collected)[job] >= 1;
    forall w | w in s.staff.workers ensures !Holds(s.staff.workers[w].pc, job) {
      if HoldsJob(job)(s.staff.workers[w]) {
        Counting.CountOne(s.staff.workers, HoldsJob(job), w);
      }
    }
  }
}
