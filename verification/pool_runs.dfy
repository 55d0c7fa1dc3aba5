/** Runs of the worker pool that show how far it can go: to the bound on started jobs, and to negative counters. */
module PoolRuns {
  import opened Counting
  import opened Pools

  /** The parts of a state that the runs below care about. */
  ghost predicate Is(s: State, workers: map<nat, Worker>, slice: seq<nat>, holder: Holder, pooled: nat, started: nat) {
    && s.ready && s.staff == Staff(workers, slice, pooled) && s.holder == holder
    && s.jobs.started == s.jobs.accepted == started && s.jobs.queue == [] && s.jobs.results == []
  }

  /** The workers 0 to n - 1, the first k of which have taken jobs and the others none. */
  ghost predicate Crew(workers: map<nat, Worker>, n: nat, k: nat) {
    && |workers| == n && (forall u :: u in workers <==> 0 <= u < n)
    && forall u :: u in workers ==>
       !workers[u].stopped && (if u < k then workers[u].pc.Took? else workers[u].pc.Looping?)
  }

  /** A pool in such a state. */
  ghost predicate Manned(s: State, n: nat, k: nat, pooled: nat, started: nat) {
    Is(s, s.staff.workers, s.staff.slice, s.holder, pooled, started) && Crew(s.staff.workers, n, k)
  }

  lemma CrewGrows(workers: map<nat, Worker>, n: nat, id: nat)
    requires Crew(workers, n, 0)
    ensures Crew(workers[n := Worker(id, false, Looping)], n + 1, 0)
  {
    PutSize(workers, n, Worker(id, false, Looping));
  }

  lemma CrewTakes(workers: map<nat, Worker>, n: nat, k: nat, job: Job)
    requires Crew(workers, n, k) && k < n
    ensures Crew(workers[k := workers[k].(pc := Took(job))], n, k + 1)
  {
    PutSize(workers, k, workers[k].(pc := Took(job)));
  }

  lemma Do(c: Config, s: State, steps: seq<Step>, e: Step) returns (s': State, steps': seq<Step>)
    requires s == Run(c, Start(c), steps)
    ensures s' == Next(c, s, e) == Run(c, Start(c), steps')
  {
    s', steps' := Next(c, s, e), steps + [e];
    RunMore(c, Start(c), steps, e);
  }

  /** initializeWorkers has created k workers. */
  ghost predicate Building(c: Config, s: State, k: nat) {
    && !s.ready && Crew(s.staff.workers, k, 0) && |s.staff.slice| == k && s.staff.pooled == k
    && s.holder == Creating(k, c.minWorkers) && s.jobs == Jobs(0, 0, [], [], [], [])
  }

  lemma BuildOne(c: Config, s: State, steps: seq<Step>, k: nat) returns (s': State, steps': seq<Step>)
    requires c.Valid() && k < c.minWorkers && s == Run(c, Start(c), steps) && Building(c, s, k)
    ensures s' == Run(c, Start(c), steps') && Building(c, s', k + 1)
  {
    CrewGrows(s.staff.workers, k, k);
    s', steps' := BeginWorker(c, s, steps);
    s', steps' := CountOneIn(c, s', steps', k);
  }

  /** What the holder of the mutex does after sending a worker into workerPool. */
  lemma HoldOnce(c: Config, s: State, steps: seq<Step>) returns (s': State, steps': seq<Step>)
    requires s == Run(c, Start(c), steps) && (s.holder.RaisingTotal? || s.holder.RaisingIdle?)
    ensures s' == Run(c, Start(c), steps') && s' == s.(counts := s'.counts, holder := s'.holder)
    ensures s'.holder == if s.holder.RaisingTotal? then RaisingIdle(s.holder.next, s.holder.goal)
                         else Creating(s.holder.next + 1, s.holder.goal)
  {
    s', steps' := Do(c, s, steps, Hold);
  }

  lemma CountOneIn(c: Config, s: State, steps: seq<Step>, k: nat) returns (s': State, steps': seq<Step>)
    requires s == Run(c, Start(c), steps) && s.holder.Pooling? && s.holder.next == k && s.staff.pooled < c.maxWorkers
    ensures s' == Run(c, Start(c), steps')
    ensures s' == s.(staff := s.staff.(pooled := s.staff.pooled + 1), counts := s'.counts,
                     holder := Creating(k + 1, s.holder.goal))
  {
    s', steps' := Do(c, s, steps, Hold);
    assert s' == s.(staff := s.staff.(pooled := s.staff.pooled + 1), holder := RaisingTotal(k, s.holder.goal));
    s', steps' := HoldOnce(c, s', steps');
    s', steps' := HoldOnce(c, s', steps');
  }

  lemma {:induction false} Build(c: Config, k: nat) returns (s: State, steps: seq<Step>)
    requires c.Valid() && k <= c.minWorkers
    ensures s == Run(c, Start(c), steps) && Building(c, s, k)
  {
    if k == 0 {
      s, steps := Start(c), [];
    } else {
      s, steps := Build(c, k - 1);
      s, steps := BuildOne(c, s, steps, k - 1);
    }
  }

  lemma Built(c: Config) returns (s: State, steps: seq<Step>)
    requires c.Valid()
    ensures s == Run(c, Start(c), steps) && |s.staff.slice| == c.minWorkers && s.holder.Free?
    ensures Manned(s, c.minWorkers, 0, c.minWorkers, 0)
  {
    s, steps := Build(c, c.minWorkers);
    s, steps := Do(c, s, steps, Hold);
  }

  /** Worker w, at the head of its loop, is given a job. */
  lemma TakeOne(c: Config, s: State, steps: seq<Step>, w: nat) returns (s': State, steps': seq<Step>)
    requires c.Valid() && s == Run(c, Start(c), steps) && w in s.staff.workers && s.staff.workers[w].pc == Looping
    requires Is(s, s.staff.workers, s.staff.slice, s.holder, s.staff.pooled, s.jobs.started)
             && !s.staff.workers[w].stopped
    ensures s' == Run(c, Start(c), steps')
    ensures Is(s', s.staff.workers[w := s.staff.workers[w].(pc := Took(s.jobs.started))], s.staff.slice, s.holder,
            s.staff.pooled, s.jobs.started + 1)
  {
    s', steps' := Do(c, s, steps, Submit);
    s', steps' := Do(c, s', steps', Go(w));
    assert s'.jobs.queue == [s.jobs.started]
        && s'.staff.workers == s.staff.workers[w := s.staff.workers[w].(pc := Selecting)];
    s', steps' := Do(c, s', steps', Go(w));
    assert s'.staff.workers == s.staff.workers[w := s.staff.workers[w].(pc := Took(s.jobs.started))];
  }

  /** It does the job, and somebody fetches the result. */
  lemma DoOne(c: Config, s: State, steps: seq<Step>, w: nat) returns (s': State, steps': seq<Step>)
    requires c.Valid() && s == Run(c, Start(c), steps) && w in s.staff.workers && s.staff.workers[w].pc.Took?
    requires Is(s, s.staff.workers, s.staff.slice, s.holder, s.staff.pooled, s.jobs.started)
    ensures s' == Run(c, Start(c), steps')
    ensures Is(s', s.staff.workers[w := s.staff.workers[w].(pc := Sent)], s.staff.slice, s.holder, s.staff.pooled,
            s.jobs.started)
  {
    var job := s.staff.workers[w].pc.job;
    s', steps' := Do(c, s, steps, Go(w));
    s', steps' := Do(c, s', steps', Go(w));
    assert s'.staff.workers == s.staff.workers[w := s.staff.workers[w].(pc := Working(job))];
    s', steps' := SendOne(c, s', steps', w);
    assert s'.staff.workers == s.staff.workers[w := s.staff.workers[w].(pc := Sent)];
  }

  lemma SendOne(c: Config, s: State, steps: seq<Step>, w: nat) returns (s': State, steps': seq<Step>)
    requires c.Valid() && s == Run(c, Start(c), steps) && w in s.staff.workers && s.staff.workers[w].pc.Working?
    requires Is(s, s.staff.workers, s.staff.slice, s.holder, s.staff.pooled, s.jobs.started)
    ensures s' == Run(c, Start(c), steps')
    ensures Is(s', s.staff.workers[w := s.staff.workers[w].(pc := Sent)], s.staff.slice, s.holder, s.staff.pooled,
            s.jobs.started)
  {
    s', steps' := Do(c, s, steps, Finish(w, true));
    s', steps' := Do(c, s', steps', Go(w));
    assert s'.staff.workers == s.staff.workers[w := s.staff.workers[w].(pc := Sent)] && |s'.jobs.results| == 1;
    s', steps' := Do(c, s', steps', GetResult);
  }

  /** It sends itself into workerPool, which has room. */
  lemma ReturnOne(c: Config, s: State, steps: seq<Step>, w: nat) returns (s': State, steps': seq<Step>)
    requires c.Valid() && s == Run(c, Start(c), steps) && w in s.staff.workers && s.staff.workers[w].pc.Sent?
    requires Is(s, s.staff.workers, s.staff.slice, s.holder, s.staff.pooled, s.jobs.started)
             && s.staff.pooled < c.maxWorkers
    ensures s' == Run(c, Start(c), steps')
    ensures Is(s', s.staff.workers[w := s.staff.workers[w].(pc := Looping)], s.staff.slice, s.holder,
            s.staff.pooled + 1, s.jobs.started)
  {
    s', steps' := Do(c, s, steps, Go(w));
    s', steps' := Do(c, s', steps', Go(w));
    assert s'.staff.workers == s.staff.workers[w := s.staff.workers[w].(pc := Returning)];
    s', steps' := Do(c, s', steps', Go(w));
    assert s'.staff.workers == s.staff.workers[w := s.staff.workers[w].(pc := Looping)];
  }

  /** Worker 0 does j jobs, until at the latest workerPool is full. */
  lemma {:induction false} JobsDone(c: Config, j: nat) returns (s: State, steps: seq<Step>)
    requires c.Valid() && c.minWorkers + j <= c.maxWorkers
    ensures s == Run(c, Start(c), steps) && |s.staff.slice| == c.minWorkers && s.holder.Free?
    ensures Manned(s, c.minWorkers, 0, c.minWorkers + j, j)
  {
    if j == 0 {
      s, steps := Built(c);
    } else {
      s, steps := JobsDone(c, j - 1);
      s, steps := OneRound(c, s, steps, 0);
    }
  }

  lemma OneRound(c: Config, s: State, steps: seq<Step>, w: nat) returns (s': State, steps': seq<Step>)
    requires c.Valid() && s == Run(c, Start(c), steps) && w in s.staff.workers && s.staff.workers[w].pc == Looping
    requires Is(s, s.staff.workers, s.staff.slice, s.holder, s.staff.pooled, s.jobs.started)
    requires !s.staff.workers[w].stopped && s.staff.pooled < c.maxWorkers
    ensures s' == Run(c, Start(c), steps')
    ensures Is(s', s.staff.workers, s.staff.slice, s.holder, s.staff.pooled + 1, s.jobs.started + 1)
  {
    s', steps' := TakeOne(c, s, steps, w);
    s', steps' := DoOne(c, s', steps', w);
    s', steps' := ReturnOne(c, s', steps', w);
    assert s'.staff.workers == s.staff.workers;
  }

  /** A ScaleUp creates one more worker. */
  lemma OneMoreWorker(c: Config, s: State, steps: seq<Step>) returns (s': State, steps': seq<Step>)
    requires c.Valid() && s == Run(c, Start(c), steps) && c.minWorkers < c.maxWorkers && |s.staff.slice| == c.minWorkers
    requires Manned(s, c.minWorkers, 0, s.staff.pooled, s.jobs.started) && s.holder.Free?
    ensures s' == Run(c, Start(c), steps')
    ensures Manned(s', c.minWorkers + 1, 0, s.staff.pooled, s.jobs.started)
  {
    var n := c.minWorkers;
    CrewGrows(s.staff.workers, n, n);
    s', steps' := BeginScaling(c, s, steps);
    s', steps' := BeginWorker(c, s', steps');
    assert s'.staff == Created(s.staff, n);
  }

  lemma BeginScaling(c: Config, s: State, steps: seq<Step>) returns (s': State, steps': seq<Step>)
    requires s == Run(c, Start(c), steps) && |s.staff.slice| < c.maxWorkers && s.holder.Free?
    ensures s' == Run(c, Start(c), steps')
    ensures s' == s.(holder := Creating(|s.staff.slice|, |s.staff.slice| + 1))
  {
    s', steps' := Do(c, s, steps, ScaleUp(1));
  }

  lemma BeginWorker(c: Config, s: State, steps: seq<Step>) returns (s': State, steps': seq<Step>)
    requires s == Run(c, Start(c), steps) && s.holder.Creating? && s.holder.next < s.holder.goal
    ensures s' == Run(c, Start(c), steps')
    ensures s' == s.(staff := Created(s.staff, s.holder.next), holder := Pooling(s.holder.next, s.holder.goal))
  {
    s', steps' := Do(c, s, steps, Hold);
  }

  /** The most workers there can be with workerPool full. */
  function Hands(c: Config): nat {
    c.minWorkers + One(c.minWorkers < c.maxWorkers)
  }

  /** With workerPool full, a ScaleUp creates one more worker, if it may, and is caught. */
  lemma FullPool(c: Config) returns (s: State, steps: seq<Step>)
    requires c.Valid()
    ensures s == Run(c, Start(c), steps) && Manned(s, Hands(c), 0, c.maxWorkers, c.maxWorkers - c.minWorkers)
  {
    s, steps := JobsDone(c, c.maxWorkers - c.minWorkers);
    if c.minWorkers < c.maxWorkers {
      s, steps := OneMoreWorker(c, s, steps);
    }
  }

  lemma CrewTakesOne(c: Config, s: State, steps: seq<Step>, k: nat) returns (s': State, steps': seq<Step>)
    requires c.Valid() && s == Run(c, Start(c), steps) && k < Hands(c)
    requires Manned(s, Hands(c), k, s.staff.pooled, s.jobs.started)
    ensures s' == Run(c, Start(c), steps') && Manned(s', Hands(c), k + 1, s.staff.pooled, s.jobs.started + 1)
  {
    CrewTakes(s.staff.workers, Hands(c), k, s.jobs.started);
    s', steps' := TakeOne(c, s, steps, k);
  }

  /** Then k of the workers take a job each. */
  lemma {:induction false} CrewBusy(c: Config, k: nat) returns (s: State, steps: seq<Step>)
    requires c.Valid() && k <= Hands(c)
    ensures s == Run(c, Start(c), steps) && Manned(s, Hands(c), k, c.maxWorkers, c.maxWorkers - c.minWorkers + k)
  {
    if k == 0 {
      s, steps := FullPool(c);
    } else {
      s, steps := CrewBusy(c, k - 1);
      s, steps := CrewTakesOne(c, s, steps, k - 1);
    }
  }

  /** The bound is met, by every configuration: one more job than MaxWorkers can start if there are fewer workers to
      begin with, and just MaxWorkers if not. */
  lemma BoundIsMet(c: Config) returns (steps: seq<Step>)
    requires c.Valid()
    ensures Run(c, Start(c), steps).jobs.started == c.maxWorkers + One(c.minWorkers < c.maxWorkers)
  {
    var s;
    s, steps := CrewBusy(c, Hands(c));
  }

  // ---- fewer idle workers than none -------------------------------------------------------------

  /** The workers 0 to n - 1, the first k of which are doing a job. */
  ghost predicate Toiling(workers: map<nat, Worker>, n: nat, k: nat) {
    && |workers| == n && (forall u :: u in workers <==> 0 <= u < n)
    && forall u :: u in workers ==>
         !workers[u].stopped && (if u < k then workers[u].pc.Working? else workers[u].pc.Looping?)
  }

  /** One worker more than MinWorkers, and nobody scaling. */
  lemma Grown(c: Config) returns (s: State, steps: seq<Step>)
    requires c.Valid() && c.minWorkers < c.maxWorkers
    ensures s == Run(c, Start(c), steps) && s.holder.Free? && |s.staff.slice| == c.minWorkers + 1
    ensures Is(s, s.staff.workers, s.staff.slice, Free, s.staff.pooled, 0)
    ensures Toiling(s.staff.workers, c.minWorkers + 1, 0)
  {
    var n := c.minWorkers;
    s, steps := Built(c);
    CrewGrows(s.staff.workers, n, n);
    s, steps := BeginScaling(c, s, steps);
    s, steps := BeginWorker(c, s, steps);
    s, steps := CountOneIn(c, s, steps, n);
    s, steps := Do(c, s, steps, Hold);
  }

  /** Worker w takes a job and begins to do it. */
  lemma BeginOne(c: Config, s: State, steps: seq<Step>, w: nat) returns (s': State, steps': seq<Step>)
    requires c.Valid() && s == Run(c, Start(c), steps) && w in s.staff.workers && s.staff.workers[w].pc == Looping
    requires Is(s, s.staff.workers, s.staff.slice, s.holder, s.staff.pooled, s.jobs.started)
    requires !s.staff.workers[w].stopped
    ensures s' == Run(c, Start(c), steps')
    ensures Is(s', s.staff.workers[w := s.staff.workers[w].(pc := Working(s.jobs.started))], s.staff.slice, s.holder,
               s.staff.pooled, s.jobs.started + 1)
  {
    var job := s.jobs.started;
    s', steps' := TakeOne(c, s, steps, w);
    s', steps' := Do(c, s', steps', Go(w));
    s', steps' := Do(c, s', steps', Go(w));
    assert s'.staff.workers == s.staff.workers[w := s.staff.workers[w].(pc := Working(job))];
  }

  lemma ToilsToo(workers: map<nat, Worker>, n: nat, k: nat, job: Job)
    requires Toiling(workers, n, k) && k < n
    ensures Toiling(workers[k := workers[k].(pc := Working(job))], n, k + 1)
  {
    PutSize(workers, k, workers[k].(pc := Working(job)));
  }

  lemma {:induction false} AllBegin(c: Config, k: nat) returns (s: State, steps: seq<Step>)
    requires c.Valid() && c.minWorkers < c.maxWorkers && k <= c.minWorkers + 1
    ensures s == Run(c, Start(c), steps) && s.holder.Free? && |s.staff.slice| == c.minWorkers + 1
    ensures Is(s, s.staff.workers, s.staff.slice, Free, s.staff.pooled, k)
    ensures Toiling(s.staff.workers, c.minWorkers + 1, k)
  {
    if k == 0 {
      s, steps := Grown(c);
    } else {
      s, steps := AllBegin(c, k - 1);
      ToilsToo(s.staff.workers, c.minWorkers + 1, k - 1, s.jobs.started);
      s, steps := BeginOne(c, s, steps, k - 1);
    }
  }

  /** All those workers are at work, whether or not told to stop. */
  ghost predicate AllWork(s: State, n: nat) {
    |s.staff.workers| == n && forall u :: u in s.staff.workers ==> s.staff.workers[u].pc.Working?
  }

  lemma BeginStopping(c: Config, s: State, steps: seq<Step>) returns (s': State, steps': seq<Step>)
    requires c.Valid() && s == Run(c, Start(c), steps) && s.holder.Free? && |s.staff.slice| == c.minWorkers + 1
    ensures s' == Run(c, Start(c), steps') && s' == s.(holder := Stopping(0, 1))
  {
    s', steps' := Do(c, s, steps, ScaleDown(1));
  }

  lemma StopStep(c: Config, s: State, u: nat)
    requires s.holder == Stopping(0, 1) && |s.staff.slice| >= 1
    requires u == s.staff.slice[|s.staff.slice| - 1] && u in s.staff.workers
    ensures Next(c, s, Hold) == s.(staff := Told(s.staff, u), holder := Stopping(1, 1))
  {
    assert Allowed(c, s, Hold);
    assert Held(c, s) == s.(staff := Told(s.staff, u), holder := Stopping(1, 1));
  }

  lemma StopOne(c: Config, s: State, steps: seq<Step>, u: nat) returns (s': State, steps': seq<Step>)
    requires s == Run(c, Start(c), steps) && s.holder == Stopping(0, 1) && |s.staff.slice| >= 1
    requires u == s.staff.slice[|s.staff.slice| - 1] && u in s.staff.workers
    ensures s' == Run(c, Start(c), steps')
    ensures s'.holder == Stopping(1, 1) && s'.staff == Told(s.staff, u)
  {
    StopStep(c, s, u);
    s', steps' := Do(c, s, steps, Hold);
  }

  lemma RemoveOne(c: Config, s: State, steps: seq<Step>) returns (s': State, steps': seq<Step>)
    requires s == Run(c, Start(c), steps) && s.holder == Stopping(1, 1) && |s.staff.slice| >= 1
    ensures s' == Run(c, Start(c), steps') && s'.holder == LoweringTotal(1)
    ensures s'.staff == s.staff.(slice := s.staff.slice[..|s.staff.slice| - 1])
  {
    s', steps' := Do(c, s, steps, Hold);
  }

  lemma CountOneOut(c: Config, s: State, steps: seq<Step>) returns (s': State, steps': seq<Step>)
    requires s == Run(c, Start(c), steps) && (s.holder.LoweringTotal? || s.holder.LoweringIdle?)
    ensures s' == Run(c, Start(c), steps') && s'.staff == s.staff
    ensures s'.holder == if s.holder.LoweringTotal? then LoweringIdle(s.holder.count) else Free
  {
    s', steps' := Do(c, s, steps, Hold);
  }

  /** Everybody works, and one worker is removed from the slice. */
  lemma Overworked(c: Config) returns (s: State, steps: seq<Step>)
    requires c.Valid() && c.minWorkers < c.maxWorkers
    ensures s == Run(c, Start(c), steps) && s.holder.Free? && AllWork(s, c.minWorkers + 1)
    ensures |s.staff.slice| == c.minWorkers
  {
    s, steps := AllBegin(c, c.minWorkers + 1);
    RunSlice(c, steps);
    var u := s.staff.slice[c.minWorkers];
    PutSize(s.staff.workers, u, s.staff.workers[u].(stopped := true));
    s, steps := BeginStopping(c, s, steps);
    s, steps := StopOne(c, s, steps, u);
    s, steps := RemoveOne(c, s, steps);
    s, steps := CountOneOut(c, s, steps);
    s, steps := CountOneOut(c, s, steps);
  }

  lemma EverybodyCounts(workers: map<nat, Worker>)
    requires forall u :: u in workers ==> workers[u].pc.Working?
    ensures Count(workers, CountedActive) == |workers|
  {
    assert Having(workers, CountedActive) == workers.Keys;
    assert |workers.Keys| == |workers|;
  }

  lemma ActiveAtMostAll(workers: map<nat, Worker>)
    ensures Count(workers, CountedActive) <= |workers|
  {
    assert Having(workers, CountedActive) <= workers.Keys;
    assert |workers.Keys - Having(workers, CountedActive)| == |workers.Keys| - |Having(workers, CountedActive)|;
    assert |workers.Keys| == |workers|;
  }

  /** In some run IdleWorkers is negative with nobody between two counters, if and only if the pool can scale. */
  lemma IdleNegativeExactly(c: Config)
    requires c.Valid()
    ensures (exists steps :: AtRest(Run(c, Start(c), steps)) && Run(c, Start(c), steps).counts.idle < 0)
            <==> c.minWorkers < c.maxWorkers
  {
    if c.minWorkers < c.maxWorkers {
      var s, steps := Overworked(c);
      CountersAgree(c, steps);
      EverybodyCounts(s.staff.workers);
      assert AtRest(Run(c, Start(c), steps)) && Run(c, Start(c), steps).counts.idle < 0;
    } else {
      forall steps | AtRest(Run(c, Start(c), steps)) ensures Run(c, Start(c), steps).counts.idle >= 0 {
        CountersAgree(c, steps);
        RunNoneRemoved(c, steps);
        ActiveAtMostAll(Run(c, Start(c), steps).staff.workers);
      }
    }
  }
}
