/**
  The worker pool of pool.go and worker.go as a step system: submitters, worker goroutines, the results goroutine,
  callers fetching results, and whoever holds the scaling mutex move one statement at a time, in any order.
  `Run` skips steps that cannot happen, such as a send into a full channel.  The pool is not closed meanwhile.
 */
module Pools {
  import opened Counting

  datatype Config = Config(minWorkers: nat, maxWorkers: nat, queueSize: nat) {
    /** validateConfigPool, as far as it matters here. */
    predicate Valid() {
      1 <= minWorkers <= maxWorkers && 1 <= queueSize
    }
  }

  /** Jobs are numbered in the order in which the queue accepted them. */
  type Job = nat

  datatype Result = Result(job: Job, ok: bool)

  /** The next statement of a worker's loop. */
  datatype Pc =
    | Looping                    // the stopped flag is read next
    | Selecting
    | Took(job: Job)             // ActiveWorkers goes up next
    | Rising(job: Job)           // IdleWorkers goes down next
    | Working(job: Job)
    | Sending(job: Job, ok: bool)
    | Sent                       // ActiveWorkers goes down next
    | Falling                    // IdleWorkers goes up next
    | Returning                  // the worker sends itself into workerPool next
    | Gone

  /** `id` is its place in the slice of workers; `stopped`: stop was called. */
  datatype Worker = Worker(id: nat, stopped: bool, pc: Pc)

  /** Who holds the mutex, and what it does next: create worker `next`, send it into workerPool, count it;
      or stop the i-th worker from the end, uncount them. */
  datatype Holder =
    | Free
    | Creating(next: nat, goal: nat)
    | Pooling(next: nat, goal: nat)
    | RaisingTotal(next: nat, goal: nat)
    | RaisingIdle(next: nat, goal: nat)
    | Stopping(i: nat, count: nat)
    | LoweringTotal(count: nat)
    | LoweringIdle(count: nat)

  /** processJobResults: QueuedJobs goes down next, then CompletedJobs or FailedJobs goes up. */
  datatype Collector = Listening | Received(ok: bool) | Uncounted(ok: bool)

  /** Goroutines are numbered from 0 as they are created; `slice` is wp.workers, `pooled` the length of workerPool. */
  datatype Staff = Staff(workers: map<nat, Worker>, slice: seq<nat>, pooled: nat)

  /** A result leaves the channel into `fetched` (GetResult) or `collected` (processJobResults). */
  datatype Jobs = Jobs(accepted: nat, started: nat, queue: seq<Job>, results: seq<Result>, fetched: seq<Job>,
                       collected: seq<Job>)

  datatype Counts = Counts(queuedJobs: int, active: int, idle: int, total: int, completed: int, failed: int)

  /** `ready`: NewPool has returned.  `unreported`: the submitters between their send and their counter. */
  datatype State = State(ready: bool, jobs: Jobs, staff: Staff, counts: Counts, holder: Holder, collector: Collector,
                         unreported: nat)

  /** A pool whose initializeWorkers is about to create its first worker. */
  function Start(c: Config): State {
    State(false, Jobs(0, 0, [], [], [], []), Staff(map[], [], 0), Counts(0, 0, 0, 0, 0, 0),
          Creating(0, c.minWorkers), Listening, 0)
  }

  datatype Step =
    | Submit
    | Report
    | Go(w: nat)
    | HearStop(w: nat)
    | Finish(w: nat, ok: bool)
    | GetResult
    | Collect
    | ScaleUp(count: int)
    | ScaleDown(count: int)
    | Hold

  function Min(a: int, b: int): int {
    if a < b then a else b
  }

  predicate CanGo(c: Config, s: State, pc: Pc) {
    match pc
    case Selecting => s.jobs.queue != []
    case Sending(_, _) => |s.jobs.results| < c.queueSize
    case Returning => s.staff.pooled < c.maxWorkers
    case Working(_) => false
    case Gone => false
    case _ => true
  }

  predicate Allowed(c: Config, s: State, e: Step) {
    match e
    case Submit => s.ready && |s.jobs.queue| < c.queueSize
    case Report => s.unreported > 0
    case Go(w) => w in s.staff.workers && CanGo(c, s, s.staff.workers[w].pc)
    case HearStop(w) => w in s.staff.workers && s.staff.workers[w].pc.Selecting? && s.staff.workers[w].stopped
    case Finish(w, _) => w in s.staff.workers && s.staff.workers[w].pc.Working?
    case GetResult => s.jobs.results != []
    case Collect => !s.collector.Listening? || s.jobs.results != []
    case ScaleUp(count) => s.holder.Free? && count > 0 && |s.staff.slice| < c.maxWorkers
    case ScaleDown(count) => s.holder.Free? && count > 0 && |s.staff.slice| > c.minWorkers
    case Hold =>
      match s.holder {
        case Free => false
        case Pooling(_, _) => s.staff.pooled < c.maxWorkers
        case Stopping(i, count) =>
          i <= count <= |s.staff.slice| && (i < count ==> s.staff.slice[|s.staff.slice| - 1 - i] in s.staff.workers)
        case _ => true
      }
  }

  function Moved(s: State, w: nat, pc: Pc): Staff
    requires w in s.staff.workers
  {
    s.staff.(workers := s.staff.workers[w := s.staff.workers[w].(pc := pc)])
  }

  function Went(c: Config, s: State, w: nat): State
    requires Allowed(c, s, Go(w))
  {
    match s.staff.workers[w].pc
    case Looping => s.(staff := Moved(s, w, if s.staff.workers[w].stopped then Gone else Selecting))
    case Selecting =>
      s.(staff := Moved(s, w, Took(s.jobs.queue[0])),
         jobs := s.jobs.(queue := s.jobs.queue[1..], started := s.jobs.started + 1))
    case Took(j) => s.(staff := Moved(s, w, Rising(j)), counts := s.counts.(active := s.counts.active + 1))
    case Rising(j) => s.(staff := Moved(s, w, Working(j)), counts := s.counts.(idle := s.counts.idle - 1))
    case Sending(j, ok) =>
      s.(staff := Moved(s, w, Sent), jobs := s.jobs.(results := s.jobs.results + [Result(j, ok)]))
    case Sent => s.(staff := Moved(s, w, Falling), counts := s.counts.(active := s.counts.active - 1))
    case Falling => s.(staff := Moved(s, w, Returning), counts := s.counts.(idle := s.counts.idle + 1))
    case Returning => s.(staff := Moved(s, w, Looping).(pooled := s.staff.pooled + 1))
  }

  function Created(s: Staff, id: nat): Staff {
    Staff(s.workers[|s.workers| := Worker(id, false, Looping)], s.slice + [|s.workers|], s.pooled)
  }

  function Told(s: Staff, u: nat): Staff
    requires u in s.workers
  {
    s.(workers := s.workers[u := s.workers[u].(stopped := true)])
  }

  function Held(c: Config, s: State): State
    requires Allowed(c, s, Hold)
  {
    match s.holder
    case Creating(n, goal) =>
      if n >= goal then s.(holder := Free, ready := true)
      else s.(staff := Created(s.staff, n), holder := Pooling(n, goal))
    case Pooling(n, goal) => s.(staff := s.staff.(pooled := s.staff.pooled + 1), holder := RaisingTotal(n, goal))
    case RaisingTotal(n, goal) => s.(counts := s.counts.(total := s.counts.total + 1), holder := RaisingIdle(n, goal))
    case RaisingIdle(n, goal) => s.(counts := s.counts.(idle := s.counts.idle + 1), holder := Creating(n + 1, goal))
    case Stopping(i, count) =>
      if i < count then
        s.(staff := Told(s.staff, s.staff.slice[|s.staff.slice| - 1 - i]), holder := Stopping(i + 1, count))
      else
        s.(staff := s.staff.(slice := s.staff.slice[..|s.staff.slice| - count]), holder := LoweringTotal(count))
    case LoweringTotal(count) =>
      s.(counts := s.counts.(total := s.counts.total - count), holder := LoweringIdle(count))
    case LoweringIdle(count) => s.(counts := s.counts.(idle := s.counts.idle - count), holder := Free)
  }

  function Collected(s: State): State
    requires !s.collector.Listening? || s.jobs.results != []
  {
    match s.collector
    case Listening =>
      s.(jobs := s.jobs.(results := s.jobs.results[1..], collected := s.jobs.collected + [s.jobs.results[0].job]),
         collector := Received(s.jobs.results[0].ok))
    case Received(ok) => s.(counts := s.counts.(queuedJobs := s.counts.queuedJobs - 1), collector := Uncounted(ok))
    case Uncounted(true) => s.(counts := s.counts.(completed := s.counts.completed + 1), collector := Listening)
    case Uncounted(false) => s.(counts := s.counts.(failed := s.counts.failed + 1), collector := Listening)
  }

  function Next(c: Config, s: State, e: Step): State {
    if !Allowed(c, s, e) then s
    else match e
      case Submit =>
        s.(jobs := s.jobs.(queue := s.jobs.queue + [s.jobs.accepted], accepted := s.jobs.accepted + 1),
           unreported := s.unreported + 1)
      case Report =>
        s.(counts := s.counts.(queuedJobs := s.counts.queuedJobs + 1), unreported := s.unreported - 1)
      case Go(w) => Went(c, s, w)
      case HearStop(w) => s.(staff := Moved(s, w, Gone))
      case Finish(w, ok) => s.(staff := Moved(s, w, Sending(s.staff.workers[w].pc.job, ok)))
      case GetResult =>
        s.(jobs := s.jobs.(results := s.jobs.results[1..], fetched := s.jobs.fetched + [s.jobs.results[0].job]))
      case Collect => Collected(s)
      case ScaleUp(count) =>
        var size := |s.staff.slice|;
        s.(holder := Creating(size, size + Min(count, c.maxWorkers - size)))
      case ScaleDown(count) => s.(holder := Stopping(0, Min(count, |s.staff.slice| - c.minWorkers)))
      case Hold => Held(c, s)
  }

  function Run(c: Config, s: State, steps: seq<Step>): State {
    if steps == [] then s else Next(c, Run(c, s, steps[..|steps| - 1]), steps[|steps| - 1])
  }

  // ---- every job is in one place ----------------------------------------------------------------

  predicate Holds(pc: Pc, j: Job) {
    (pc.Took? || pc.Rising? || pc.Working? || pc.Sending?) && pc.job == j
  }

  function HoldsJob(j: Job): Worker -> bool {
    (x: Worker) => Holds(x.pc, j)
  }

  function JobsOf(results: seq<Result>): (jobs: seq<Job>)
    ensures |jobs| == |results| && forall k :: 0 <= k < |jobs| ==> jobs[k] == results[k].job
  {
    seq(|results|, k requires 0 <= k < |results| => results[k].job)
  }

  /** How many times job j is in the queue, with a worker, in the results channel, or taken from there. */
  ghost function Places(s: State, j: Job): nat {
    multiset(s.jobs.queue)[j] + Count(s.staff.workers, HoldsJob(j)) + multiset(JobsOf(s.jobs.results))[j]
      + multiset(s.jobs.fetched)[j] + multiset(s.jobs.collected)[j]
  }

  lemma PopCount(q: seq<Job>, j: Job)
    requires q != []
    ensures multiset(q)[j] == One(q[0] == j) + multiset(q[1..])[j]
  {
    assert q == [q[0]] + q[1..];
  }

  lemma PushCount(q: seq<Job>, x: Job, j: Job)
    ensures multiset(q + [x])[j] == multiset(q)[j] + One(x == j)
  {
  }

  lemma MovePlaces(s: State, w: nat, pc: Pc, j: Job)
    requires w in s.staff.workers
    ensures Count(Moved(s, w, pc).workers, HoldsJob(j))
            == Count(s.staff.workers, HoldsJob(j)) + One(Holds(pc, j)) - One(Holds(s.staff.workers[w].pc, j))
  {
    CountPut(s.staff.workers, HoldsJob(j), w, s.staff.workers[w].(pc := pc));
  }

  lemma TakePlaces(c: Config, s: State, w: nat, j: Job)
    requires Allowed(c, s, Go(w)) && s.staff.workers[w].pc.Selecting?
    ensures Places(Went(c, s, w), j) == Places(s, j)
  {
    MovePlaces(s, w, Took(s.jobs.queue[0]), j);
    PopCount(s.jobs.queue, j);
  }

  lemma SendPlaces(c: Config, s: State, w: nat, j: Job)
    requires Allowed(c, s, Go(w)) && s.staff.workers[w].pc.Sending?
    ensures Places(Went(c, s, w), j) == Places(s, j)
  {
    var r := Result(s.staff.workers[w].pc.job, s.staff.workers[w].pc.ok);
    MovePlaces(s, w, Sent, j);
    assert JobsOf(s.jobs.results + [r]) == JobsOf(s.jobs.results) + [r.job];
    PushCount(JobsOf(s.jobs.results), r.job, j);
  }

  /** The steps of a worker that neither take a job nor give one away. */
  lemma KeepPlaces(s: State, s': State, w: nat, pc: Pc, j: Job)
    requires w in s.staff.workers && Holds(pc, j) == Holds(s.staff.workers[w].pc, j)
    requires s'.staff.workers == Moved(s, w, pc).workers && s'.jobs.queue == s.jobs.queue
             && s'.jobs.results == s.jobs.results
    requires s'.jobs.fetched == s.jobs.fetched && s'.jobs.collected == s.jobs.collected
    ensures Places(s', j) == Places(s, j)
  {
    MovePlaces(s, w, pc, j);
  }

  lemma GoPlaces(c: Config, s: State, w: nat, j: Job)
    requires Allowed(c, s, Go(w))
    ensures Places(Went(c, s, w), j) == Places(s, j)
  {
    var s' := Went(c, s, w);
    if s.staff.workers[w].pc.Selecting? {
      TakePlaces(c, s, w, j);
    } else if s.staff.workers[w].pc.Sending? {
      SendPlaces(c, s, w, j);
    } else {
      KeepPlaces(s, s', w, s'.staff.workers[w].pc, j);
    }
  }

  lemma ResultTaken(s: State, s': State, j: Job)
    requires s.jobs.results != [] && s'.jobs.results == s.jobs.results[1..] && s'.jobs.queue == s.jobs.queue
             && s'.staff.workers == s.staff.workers
    requires
      || (s'.jobs.fetched == s.jobs.fetched + [s.jobs.results[0].job] && s'.jobs.collected == s.jobs.collected)
      || (s'.jobs.fetched == s.jobs.fetched && s'.jobs.collected == s.jobs.collected + [s.jobs.results[0].job])
    ensures Places(s', j) == Places(s, j)
  {
    PopCount(JobsOf(s.jobs.results), j);
    assert JobsOf(s.jobs.results)[1..] == JobsOf(s.jobs.results[1..]);
    PushCount(s.jobs.fetched, s.jobs.results[0].job, j);
    PushCount(s.jobs.collected, s.jobs.results[0].job, j);
  }

  lemma NewHoldsNone(m: map<nat, Worker>, u: nat, x: Worker, j: Job)
    requires u !in m && x.pc.Looping?
    ensures Count(m[u := x], HoldsJob(j)) == Count(m, HoldsJob(j))
  {
    CountPut(m, HoldsJob(j), u, x);
  }

  lemma HoldPlaces(c: Config, s: State, j: Job)
    requires Allowed(c, s, Hold) && |s.staff.workers| !in s.staff.workers
    ensures Places(Held(c, s), j) == Places(s, j)
  {
    var s' := Held(c, s);
    if s.holder.Creating? && s.holder.next < s.holder.goal {
      var x := Worker(s.holder.next, false, Looping);
      NewHoldsNone(s.staff.workers, |s.staff.workers|, x, j);
    } else if s.holder.Stopping? && s.holder.i < s.holder.count {
      var u := s.staff.slice[|s.staff.slice| - 1 - s.holder.i];
      CountPut(s.staff.workers, HoldsJob(j), u, s'.staff.workers[u]);
    } else {
      assert s'.staff.workers == s.staff.workers;
    }
  }

  lemma LeavePlaces(c: Config, s: State, e: Step, j: Job)
    requires Allowed(c, s, e) && (e.HearStop? || e.Finish?)
    ensures Places(Next(c, s, e), j) == Places(s, j)
  {
    KeepPlaces(s, Next(c, s, e), e.w, Next(c, s, e).staff.workers[e.w].pc, j);
  }

  lemma NextPlaces(c: Config, s: State, e: Step, j: Job)
    requires Allowed(c, s, e) && |s.staff.workers| !in s.staff.workers
    ensures Places(Next(c, s, e), j) == Places(s, j) + One(e.Submit? && j == s.jobs.accepted)
  {
    match e
    case Submit => PushCount(s.jobs.queue, s.jobs.accepted, j);
    case Go(w) => GoPlaces(c, s, w, j);
    case HearStop(_) => LeavePlaces(c, s, e, j);
    case Finish(_, _) => LeavePlaces(c, s, e, j);
    case GetResult => ResultTaken(s, Next(c, s, e), j);
    case Collect =>
      if s.collector.Listening? {
        ResultTaken(s, Next(c, s, e), j);
      }
    case Hold => HoldPlaces(c, s, j);
    case _ =>
  }

  // ---- the slice of workers ---------------------------------------------------------------------

  /** The workers that have not been told to stop: all of wp.workers, but for a ScaleDown half done. */
  function Kept(s: State): (kept: seq<nat>)
    ensures kept <= s.staff.slice
  {
    if s.holder.Stopping? && s.holder.i <= |s.staff.slice| then s.staff.slice[..|s.staff.slice| - s.holder.i]
        else s.staff.slice
  }

  ghost predicate HolderInv(c: Config, s: State) {
    match s.holder
    case Free => c.minWorkers <= |s.staff.slice|
    case Creating(n, goal) => n == |s.staff.slice| <= goal <= c.maxWorkers && c.minWorkers <= goal
    case Pooling(n, goal) => n + 1 == |s.staff.slice| <= goal <= c.maxWorkers && c.minWorkers <= goal
    case RaisingTotal(n, goal) => n + 1 == |s.staff.slice| <= goal <= c.maxWorkers && c.minWorkers <= goal
    case RaisingIdle(n, goal) => n + 1 == |s.staff.slice| <= goal <= c.maxWorkers && c.minWorkers <= goal
    case Stopping(i, count) => i <= count && c.minWorkers + count <= |s.staff.slice|
    case LoweringTotal(_) => c.minWorkers <= |s.staff.slice|
    case LoweringIdle(_) => c.minWorkers <= |s.staff.slice|
  }

  /** The slice's workers are where they say. */
  ghost predicate Placed(slice: seq<nat>, workers: map<nat, Worker>) {
    forall i :: 0 <= i < |slice| ==> slice[i] in workers && workers[slice[i]].id == i
  }

  /** Exactly the workers that are not kept have been told to stop. */
  ghost predicate Flagged(kept: seq<nat>, workers: map<nat, Worker>) {
    forall u :: u in workers ==> (workers[u].stopped <==> u !in kept)
  }

  ghost predicate SliceInv(c: Config, s: State) {
    && (forall u :: u in s.staff.workers <==> 0 <= u < |s.staff.workers|)
    && |s.staff.slice| <= c.maxWorkers
    && Placed(s.staff.slice, s.staff.workers) && Flagged(Kept(s), s.staff.workers)
    && HolderInv(c, s)
  }

  lemma PutSize(m: map<nat, Worker>, w: nat, x: Worker)
    ensures |m[w := x]| == |m| + One(w !in m)
  {
    assert m[w := x].Keys == m.Keys + {w};
    assert |m[w := x].Keys| == |m[w := x]| && |m.Keys| == |m|;
  }

  lemma LastIsNot(slice: seq<nat>, workers: map<nat, Worker>, k: nat)
    requires Placed(slice, workers) && k < |slice|
    ensures slice[k] !in slice[..k]
  {
    assert forall i :: 0 <= i < k ==> workers[slice[..k][i]].id == i;
  }

  lemma StopOne(slice: seq<nat>, workers: map<nat, Worker>, k: nat)
    requires Placed(slice, workers) && k < |slice| && Flagged(slice[..k + 1], workers)
    ensures var after := workers[slice[k] := workers[slice[k]].(stopped := true)];
            Placed(slice, after) && Flagged(slice[..k], after) && |after| == |workers|
  {
    LastIsNot(slice, workers, k);
    assert slice[..k + 1] == slice[..k] + [slice[k]];
    PutSize(workers, slice[k], workers[slice[k]].(stopped := true));
  }

  lemma StopInv(c: Config, s: State)
    requires c.Valid() && SliceInv(c, s) && s.holder.Stopping? && s.holder.i < s.holder.count && Allowed(c, s, Hold)
    ensures SliceInv(c, Held(c, s))
  {
    var s', k := Held(c, s), |s.staff.slice| - 1 - s.holder.i;
    assert Kept(s') == s.staff.slice[..k] && Kept(s) == s.staff.slice[..k + 1];
    StopOne(s.staff.slice, s.staff.workers, k);
  }

  lemma CreateInv(c: Config, s: State)
    requires c.Valid() && SliceInv(c, s) && s.holder.Creating? && s.holder.next < s.holder.goal
    ensures SliceInv(c, Held(c, s))
  {
    var s', n := Held(c, s), |s.staff.workers|;
    assert n !in s.staff.workers;
    PutSize(s.staff.workers, n, Worker(s.holder.next, false, Looping));
    assert Kept(s') == Kept(s) + [n];
  }

  /** The stopped workers are cut off. */
  lemma CutInv(c: Config, s: State)
    requires c.Valid() && SliceInv(c, s) && s.holder.Stopping? && s.holder.i == s.holder.count && Allowed(c, s, Hold)
    ensures SliceInv(c, Held(c, s))
  {
    assert Held(c, s).staff.slice == Kept(s) == Kept(Held(c, s));
  }

  lemma CountInv(c: Config, s: State)
    requires c.Valid() && SliceInv(c, s) && Allowed(c, s, Hold) && !s.holder.Stopping?
    requires !(s.holder.Creating? && s.holder.next < s.holder.goal)
    ensures SliceInv(c, Held(c, s))
  {
    assert Held(c, s).staff.workers == s.staff.workers && Kept(Held(c, s)) == Kept(s) == s.staff.slice;
  }

  lemma HoldInv(c: Config, s: State)
    requires c.Valid() && SliceInv(c, s) && Allowed(c, s, Hold)
    ensures SliceInv(c, Held(c, s))
  {
    if s.holder.Creating? && s.holder.next < s.holder.goal {
      CreateInv(c, s);
    } else if s.holder.Stopping? {
      if s.holder.i < s.holder.count {
        StopInv(c, s);
      } else {
        CutInv(c, s);
      }
    } else {
      CountInv(c, s);
    }
  }

  /** A worker moves: neither its place nor its stop flag changes. */
  lemma MoveInv(c: Config, s: State, s': State, w: nat, pc: Pc)
    requires c.Valid() && SliceInv(c, s) && w in s.staff.workers
             && s'.staff.workers == s.staff.workers[w := s.staff.workers[w].(pc := pc)]
    requires s'.staff.slice == s.staff.slice && s'.holder == s.holder
    ensures SliceInv(c, s')
  {
    PutSize(s.staff.workers, w, s.staff.workers[w].(pc := pc));
    assert Kept(s') == Kept(s);
  }

  lemma GoFrame(c: Config, s: State, w: nat)
    requires Allowed(c, s, Go(w))
    ensures var s' := Went(c, s, w);
            && w in s'.staff.workers && s'.holder == s.holder && s'.staff.slice == s.staff.slice
            && s'.staff.workers
               == s.staff.workers[w := s.staff.workers[w].(pc := s'.staff.workers[w].pc)]
  {
  }

  lemma GoSlice(c: Config, s: State, w: nat)
    requires c.Valid() && SliceInv(c, s) && Allowed(c, s, Go(w))
    ensures SliceInv(c, Went(c, s, w))
  {
    GoFrame(c, s, w);
    MoveInv(c, s, Went(c, s, w), w, Went(c, s, w).staff.workers[w].pc);
  }

  lemma SameSlice(c: Config, s: State, s': State)
    requires SliceInv(c, s) && s'.staff.workers == s.staff.workers && s'.staff.slice == s.staff.slice
             && s'.holder == s.holder
    ensures SliceInv(c, s')
  {
    assert Kept(s') == Kept(s);
  }

  lemma LeaveSlice(c: Config, s: State, e: Step)
    requires c.Valid() && SliceInv(c, s) && Allowed(c, s, e) && (e.HearStop? || e.Finish?)
    ensures SliceInv(c, Next(c, s, e))
  {
    MoveInv(c, s, Next(c, s, e), e.w, Next(c, s, e).staff.workers[e.w].pc);
  }

  lemma ScaleSlice(c: Config, s: State, e: Step)
    requires c.Valid() && SliceInv(c, s) && Allowed(c, s, e) && (e.ScaleUp? || e.ScaleDown?)
    ensures SliceInv(c, Next(c, s, e))
  {
    assert Kept(Next(c, s, e)) == Kept(s);
  }

  lemma OtherSlice(c: Config, s: State, e: Step)
    requires SliceInv(c, s) && Allowed(c, s, e) && (e.Submit? || e.Report? || e.GetResult? || e.Collect?)
    ensures SliceInv(c, Next(c, s, e))
  {
    SameSlice(c, s, Next(c, s, e));
  }

  lemma NextSlice(c: Config, s: State, e: Step)
    requires c.Valid() && SliceInv(c, s)
    ensures SliceInv(c, Next(c, s, e))
  {
    if Allowed(c, s, e) {
      match e
      case Hold => HoldInv(c, s);
      case Go(w) => GoSlice(c, s, w);
      case HearStop(_) => LeaveSlice(c, s, e);
      case Finish(_, _) => LeaveSlice(c, s, e);
      case ScaleUp(_) => ScaleSlice(c, s, e);
      case ScaleDown(_) => ScaleSlice(c, s, e);
      case _ => OtherSlice(c, s, e);
    }
  }

  lemma {:induction false} RunSlice(c: Config, steps: seq<Step>)
    requires c.Valid()
    ensures SliceInv(c, Run(c, Start(c), steps))
  {
    if steps != [] {
      RunSlice(c, steps[..|steps| - 1]);
      NextSlice(c, Run(c, Start(c), steps[..|steps| - 1]), steps[|steps| - 1]);
    }
  }

  /** However scaling and jobs interleave, wp.workers[i] has id i and there are at most MaxWorkers of them;
      whenever the mutex is free there are at least MinWorkers, and exactly they have not been told to stop. */
  lemma WorkersInBounds(c: Config, steps: seq<Step>)
    requires c.Valid()
    ensures var s := Run(c, Start(c), steps);
            && |s.staff.slice| <= c.maxWorkers && Placed(s.staff.slice, s.staff.workers)
            && (s.holder.Free? ==> c.minWorkers <= |s.staff.slice| && Flagged(s.staff.slice, s.staff.workers))
  {
    RunSlice(c, steps);
  }

  /** Every accepted job is in exactly one place: the queue, one worker, the results channel, or taken once. */
  lemma {:induction false} JobInOnePlace(c: Config, steps: seq<Step>, j: Job)
    requires c.Valid()
    ensures Places(Run(c, Start(c), steps), j) == One(j < Run(c, Start(c), steps).jobs.accepted)
  {
    if steps == [] {
      CountNone(Start(c).staff.workers, HoldsJob(j));
    } else {
      var s, e := Run(c, Start(c), steps[..|steps| - 1]), steps[|steps| - 1];
      JobInOnePlace(c, steps[..|steps| - 1], j);
      RunSlice(c, steps[..|steps| - 1]);
      if Allowed(c, s, e) {
        NextPlaces(c, s, e, j);
      }
    }
  }

  // ---- results are those of the jobs ------------------------------------------------------------

  /** Step k is the one in which some worker finishes job j like this. */
  ghost predicate FinishesAt(c: Config, steps: seq<Step>, k: nat, j: Job, ok: bool) {
    && k < |steps| && steps[k].Finish? && steps[k].ok == ok
    && var s := Run(c, Start(c), steps[..k]);
       steps[k].w in s.staff.workers && s.staff.workers[steps[k].w].pc == Working(j)
  }

  ghost predicate FinishedSince(c: Config, steps: seq<Step>, from: nat, j: Job, ok: bool) {
    exists k :: from <= k < |steps| && FinishesAt(c, steps, k, j, ok)
  }

  lemma StillFinished(c: Config, steps: seq<Step>, more: seq<Step>, from: nat, from': nat, j: Job, ok: bool)
    requires FinishedSince(c, steps, from, j, ok) && steps <= more && from' <= from
    ensures FinishedSince(c, more, from', j, ok)
  {
    var k :| from <= k < |steps| && FinishesAt(c, steps, k, j, ok);
    assert more[..k] == steps[..k];
    assert FinishesAt(c, more, k, j, ok);
  }

  /** A result that is being sent, or waits in the channel, says how its job ended. */
  ghost predicate ResultsTrue(c: Config, steps: seq<Step>) {
    var s := Run(c, Start(c), steps);
    && (forall w :: w in s.staff.workers && s.staff.workers[w].pc.Sending? ==>
          FinishedSince(c, steps, 0, s.staff.workers[w].pc.job, s.staff.workers[w].pc.ok))
    && forall k :: 0 <= k < |s.jobs.results| ==>
         FinishedSince(c, steps, 0, s.jobs.results[k].job, s.jobs.results[k].ok)
  }

  /** Whatever is being sent after a step was so before, or is what the step finished. */
  lemma SendingFrom(c: Config, s: State, e: Step, w: nat)
    requires |s.staff.workers| !in s.staff.workers
    requires w in Next(c, s, e).staff.workers && Next(c, s, e).staff.workers[w].pc.Sending?
    ensures w in s.staff.workers
    ensures var pc := Next(c, s, e).staff.workers[w].pc;
            || s.staff.workers[w].pc == pc
            || (e == Finish(w, pc.ok) && s.staff.workers[w].pc == Working(pc.job))
  {
  }

  /** And whatever waits in the channel waited before, or was being sent. */
  lemma ResultFrom(c: Config, s: State, e: Step, k: nat)
    requires k < |Next(c, s, e).jobs.results|
    ensures var r := Next(c, s, e).jobs.results[k];
            || (exists i :: 0 <= i < |s.jobs.results| && s.jobs.results[i] == r)
            || (e.Go? && e.w in s.staff.workers && s.staff.workers[e.w].pc == Sending(r.job, r.ok))
  {
    var r, n := Next(c, s, e).jobs.results[k], |s.jobs.results|;
    if Allowed(c, s, e) && |Next(c, s, e).jobs.results| < n {
      assert s.jobs.results[k + 1] == r;
    } else if k < n {
      assert s.jobs.results[k] == r;
    }
  }

  /** In every run the results are true. */
  lemma {:induction false} RunResults(c: Config, steps: seq<Step>)
    requires c.Valid()
    ensures ResultsTrue(c, steps)
  {
    if steps != [] {
      var before, e := steps[..|steps| - 1], steps[|steps| - 1];
      RunResults(c, before);
      RunSlice(c, before);
      NextResults(c, before, e);
      assert before + [e] == steps;
    }
  }

  lemma NextResults(c: Config, before: seq<Step>, e: Step)
    requires ResultsTrue(c, before)
    requires |Run(c, Start(c), before).staff.workers| !in Run(c, Start(c), before).staff.workers
    ensures ResultsTrue(c, before + [e])
  {
    var s' := Next(c, Run(c, Start(c), before), e);
    RunMore(c, Start(c), before, e);
    forall w | w in s'.staff.workers && s'.staff.workers[w].pc.Sending?
      ensures FinishedSince(c, before + [e], 0, s'.staff.workers[w].pc.job, s'.staff.workers[w].pc.ok)
    {
      SendingTrue(c, before, e, w);
    }
    forall k | 0 <= k < |s'.jobs.results|
      ensures FinishedSince(c, before + [e], 0, s'.jobs.results[k].job, s'.jobs.results[k].ok)
    {
      ResultTrue(c, before, e, k);
    }
  }

  lemma SendingTrue(c: Config, before: seq<Step>, e: Step, w: nat)
    requires ResultsTrue(c, before)
    requires var s := Run(c, Start(c), before);
             && |s.staff.workers| !in s.staff.workers && w in Next(c, s, e).staff.workers
             && Next(c, s, e).staff.workers[w].pc.Sending?
    ensures var pc := Next(c, Run(c, Start(c), before), e).staff.workers[w].pc;
            FinishedSince(c, before + [e], 0, pc.job, pc.ok)
  {
    var s := Run(c, Start(c), before);
    var pc := Next(c, s, e).staff.workers[w].pc;
    SendingFrom(c, s, e, w);
    if s.staff.workers[w].pc == pc {
      StillFinished(c, before, before + [e], 0, 0, pc.job, pc.ok);
    } else {
      assert (before + [e])[..|before|] == before;
      assert FinishesAt(c, before + [e], |before|, pc.job, pc.ok);
    }
  }

  lemma ResultTrue(c: Config, before: seq<Step>, e: Step, k: nat)
    requires ResultsTrue(c, before) && k < |Next(c, Run(c, Start(c), before), e).jobs.results|
    ensures var r := Next(c, Run(c, Start(c), before), e).jobs.results[k];
            FinishedSince(c, before + [e], 0, r.job, r.ok)
  {
    var s := Run(c, Start(c), before);
    var r := Next(c, s, e).jobs.results[k];
    ResultFrom(c, s, e, k);
    StillFinished(c, before, before + [e], 0, 0, r.job, r.ok);
  }

  // ---- the counters -----------------------------------------------------------------------------

  predicate CountedActive(x: Worker) {
    x.pc.Rising? || x.pc.Working? || x.pc.Sending? || x.pc.Sent?
  }

  predicate IsRising(x: Worker) {
    x.pc.Rising?
  }

  predicate IsFalling(x: Worker) {
    x.pc.Falling?
  }

  /** Between taking a job and giving itself back to workerPool. */
  predicate Busy(x: Worker) {
    !x.pc.Looping? && !x.pc.Selecting? && !x.pc.Gone?
  }

  /** By how much TotalWorkers is ahead of the slice, and IdleWorkers ahead of TotalWorkers, while one scales. */
  function TotalAhead(h: Holder): int {
    match h
    case Pooling(_, _) => -1
    case RaisingTotal(_, _) => -1
    case LoweringTotal(count) => count
    case _ => 0
  }

  function IdleAhead(h: Holder): int {
    match h
    case RaisingIdle(_, _) => -1
    case LoweringIdle(count) => count
    case _ => 0
  }

  ghost predicate ActiveInv(s: State) {
    s.counts.active == Count(s.staff.workers, CountedActive)
  }

  ghost predicate SumInv(s: State) {
    Spare(s) == Count(s.staff.workers, IsRising) - Count(s.staff.workers, IsFalling)
  }

  ghost predicate TotalInv(s: State) {
    s.counts.total == |s.staff.slice| + TotalAhead(s.holder)
  }

  /** workerPool holds one entry for each worker created, and one for each job done with. */
  ghost predicate PooledInv(s: State) {
    s.staff.pooled + One(s.holder.Pooling?) + Count(s.staff.workers, Busy) == |s.staff.workers| + s.jobs.started
  }

  ghost predicate CountersInv(s: State) {
    ActiveInv(s) && SumInv(s) && TotalInv(s) && PooledInv(s)
  }

  /** The worker that x replaces, or is new beside. */
  function Prev(workers: map<nat, Worker>, w: nat): Worker {
    if w in workers then workers[w] else Worker(0, false, Looping)
  }

  /** IdleWorkers + ActiveWorkers - TotalWorkers, but for what a scaling has not counted yet. */
  function Spare(s: State): int {
    s.counts.idle + s.counts.active - s.counts.total - IdleAhead(s.holder)
  }

  /** Between these states worker w has become x, and the counters have followed. */
  predicate Followed(s: State, s': State, w: nat, x: Worker) {
    var y := Prev(s.staff.workers, w);
    && s'.staff.workers == s.staff.workers[w := x]
    && s'.counts.active == s.counts.active + One(CountedActive(x)) - One(CountedActive(y))
    && Spare(s') == Spare(s) + One(IsRising(x)) - One(IsRising(y)) - One(IsFalling(x)) + One(IsFalling(y))
    && s'.staff.pooled + One(s'.holder.Pooling?) + One(Busy(x)) - s'.jobs.started
       == s.staff.pooled + One(s.holder.Pooling?) + One(Busy(y)) - s.jobs.started + One(w !in s.staff.workers)
  }

  lemma PutCounters(s: State, s': State, w: nat, x: Worker)
    requires CountersInv(s) && TotalInv(s') && Followed(s, s', w, x)
    ensures CountersInv(s')
  {
    CountPut(s.staff.workers, CountedActive, w, x);
    CountPut(s.staff.workers, IsRising, w, x);
    CountPut(s.staff.workers, IsFalling, w, x);
    CountPut(s.staff.workers, Busy, w, x);
    PutSize(s.staff.workers, w, x);
  }

  lemma GoCounted(c: Config, s: State, w: nat)
    requires Allowed(c, s, Go(w)) && TotalInv(s)
    ensures var s', y := Went(c, s, w), s.staff.workers[w];
            && TotalInv(s') && w in s'.staff.workers
            && var x := s'.staff.workers[w];
               && s'.counts.active == s.counts.active + One(CountedActive(x)) - One(CountedActive(y))
               && Spare(s') == Spare(s) + One(IsRising(x)) - One(IsRising(y)) - One(IsFalling(x)) + One(IsFalling(y))
  {
  }

  lemma GoReturned(c: Config, s: State, w: nat)
    requires Allowed(c, s, Go(w))
    ensures var s' := Went(c, s, w);
            && w in s'.staff.workers && s'.staff.workers == s.staff.workers[w := s'.staff.workers[w]]
            && s'.holder == s.holder
            && s'.staff.pooled + One(Busy(s'.staff.workers[w])) - s'.jobs.started
               == s.staff.pooled + One(Busy(s.staff.workers[w])) - s.jobs.started
  {
  }

  lemma GoCounters(c: Config, s: State, w: nat)
    requires CountersInv(s) && Allowed(c, s, Go(w))
    ensures CountersInv(Went(c, s, w))
  {
    GoCounted(c, s, w);
    GoReturned(c, s, w);
    PutCounters(s, Went(c, s, w), w, Went(c, s, w).staff.workers[w]);
  }

  lemma LeaveFollowed(c: Config, s: State, e: Step)
    requires Allowed(c, s, e) && (e.HearStop? || e.Finish?) && TotalInv(s)
    ensures var s' := Next(c, s, e);
            TotalInv(s') && e.w in s'.staff.workers && Followed(s, s', e.w, s'.staff.workers[e.w])
  {
  }

  lemma LeaveCounters(c: Config, s: State, e: Step)
    requires CountersInv(s) && Allowed(c, s, e) && (e.HearStop? || e.Finish?)
    ensures CountersInv(Next(c, s, e))
  {
    LeaveFollowed(c, s, e);
    PutCounters(s, Next(c, s, e), e.w, Next(c, s, e).staff.workers[e.w]);
  }

  lemma CreateFollowed(c: Config, s: State)
    requires TotalInv(s) && |s.staff.workers| !in s.staff.workers && s.holder.Creating? && s.holder.next < s.holder.goal
    ensures TotalInv(Held(c, s))
    ensures Followed(s, Held(c, s), |s.staff.workers|, Worker(s.holder.next, false, Looping))
  {
  }

  lemma CreateCounters(c: Config, s: State)
    requires CountersInv(s) && |s.staff.workers| !in s.staff.workers
    requires s.holder.Creating? && s.holder.next < s.holder.goal
    ensures CountersInv(Held(c, s))
  {
    CreateFollowed(c, s);
    PutCounters(s, Held(c, s), |s.staff.workers|, Worker(s.holder.next, false, Looping));
  }

  lemma StopFollowed(c: Config, s: State, u: nat)
    requires TotalInv(s) && s.holder.Stopping? && s.holder.i < s.holder.count && Allowed(c, s, Hold)
    requires u == s.staff.slice[|s.staff.slice| - 1 - s.holder.i]
    ensures TotalInv(Held(c, s)) && Followed(s, Held(c, s), u, s.staff.workers[u].(stopped := true))
  {
  }

  lemma StopCounters(c: Config, s: State)
    requires CountersInv(s) && s.holder.Stopping? && s.holder.i < s.holder.count && Allowed(c, s, Hold)
    ensures CountersInv(Held(c, s))
  {
    var u := s.staff.slice[|s.staff.slice| - 1 - s.holder.i];
    StopFollowed(c, s, u);
    PutCounters(s, Held(c, s), u, s.staff.workers[u].(stopped := true));
  }

  /** The steps of a scaling that neither create a worker nor stop one. */
  lemma RestFrame(c: Config, s: State)
    requires Allowed(c, s, Hold) && TotalInv(s)
    requires !(s.holder.Creating? && s.holder.next < s.holder.goal)
    requires !(s.holder.Stopping? && s.holder.i < s.holder.count)
    ensures var s' := Held(c, s);
            && s'.staff.workers == s.staff.workers && s'.counts.active == s.counts.active && Spare(s') == Spare(s)
            && s'.staff.pooled + One(s'.holder.Pooling?) == s.staff.pooled + One(s.holder.Pooling?)
            && s'.jobs == s.jobs && TotalInv(s')
  {
  }

  lemma HoldCounters(c: Config, s: State)
    requires c.Valid() && CountersInv(s) && SliceInv(c, s) && Allowed(c, s, Hold)
    ensures CountersInv(Held(c, s))
  {
    if s.holder.Creating? && s.holder.next < s.holder.goal {
      CreateCounters(c, s);
    } else if s.holder.Stopping? && s.holder.i < s.holder.count {
      StopCounters(c, s);
    } else {
      RestFrame(c, s);
      SameCounters(s, Held(c, s));
    }
  }

  lemma NextCounters(c: Config, s: State, e: Step)
    requires c.Valid() && SliceInv(c, s) && CountersInv(s)
    ensures CountersInv(Next(c, s, e))
  {
    if Allowed(c, s, e) {
      match e
      case Hold => HoldCounters(c, s);
      case Go(w) => GoCounters(c, s, w);
      case HearStop(_) => LeaveCounters(c, s, e);
      case Finish(_, _) => LeaveCounters(c, s, e);
      case _ => OtherCounters(c, s, e);
    }
  }

  lemma SameCounters(s: State, s': State)
    requires CountersInv(s) && TotalInv(s') && s'.staff.workers == s.staff.workers
    requires s'.counts.active == s.counts.active && Spare(s') == Spare(s) && s'.jobs.started == s.jobs.started
    requires s'.staff.pooled + One(s'.holder.Pooling?) == s.staff.pooled + One(s.holder.Pooling?)
    ensures CountersInv(s')
  {
  }

  lemma OtherCounters(c: Config, s: State, e: Step)
    requires CountersInv(s) && Allowed(c, s, e) && !e.Hold? && !e.Go? && !e.HearStop? && !e.Finish?
    ensures CountersInv(Next(c, s, e))
  {
    OtherFrame(c, s, e);
    SameCounters(s, Next(c, s, e));
  }

  /** What the steps of callers, of the results goroutine and of a beginning scaling leave alone. */
  lemma OtherFrame(c: Config, s: State, e: Step)
    requires Allowed(c, s, e) && !e.Hold? && !e.Go? && !e.HearStop? && !e.Finish? && TotalInv(s)
    ensures var s' := Next(c, s, e);
            && s'.staff == s.staff && s'.jobs.started == s.jobs.started
            && s'.counts.active == s.counts.active && Spare(s') == Spare(s) && TotalInv(s')
            && s'.holder.Pooling? == s.holder.Pooling?
  {
  }

  lemma {:induction false} RunCounters(c: Config, steps: seq<Step>)
    requires c.Valid()
    ensures CountersInv(Run(c, Start(c), steps))
  {
    if steps == [] {
      CountNone(Start(c).staff.workers, CountedActive);
      CountNone(Start(c).staff.workers, IsRising);
      CountNone(Start(c).staff.workers, IsFalling);
      CountNone(Start(c).staff.workers, Busy);
    } else {
      RunCounters(c, steps[..|steps| - 1]);
      RunSlice(c, steps[..|steps| - 1]);
      NextCounters(c, Run(c, Start(c), steps[..|steps| - 1]), steps[|steps| - 1]);
    }
  }

  /** Nobody scales, and no worker is between its two counters. */
  ghost predicate AtRest(s: State) {
    s.holder.Free?
    && forall u :: u in s.staff.workers ==> !IsRising(s.staff.workers[u]) && !IsFalling(s.staff.workers[u])
  }

  /** Between counter updates ActiveWorkers is the number of workers with a job, TotalWorkers the length of the slice,
      and the two counters add up.  IdleWorkers goes negative when workers are removed while they work. */
  lemma CountersAgree(c: Config, steps: seq<Step>)
    requires c.Valid()
    ensures var s := Run(c, Start(c), steps);
            AtRest(s) ==>
              && s.counts.total == |s.staff.slice|
              && s.counts.active == Count(s.staff.workers, CountedActive)
              && s.counts.active + s.counts.idle == s.counts.total
              && (s.counts.idle < 0 <==> Count(s.staff.workers, CountedActive) > |s.staff.slice|)
  {
    var s := Run(c, Start(c), steps);
    RunCounters(c, steps);
    if AtRest(s) {
      CountNone(s.staff.workers, IsRising);
      CountNone(s.staff.workers, IsFalling);
    }
  }

  // ---- the jobs ---------------------------------------------------------------------------------

  predicate HasJob(x: Worker) {
    x.pc.Took? || x.pc.Rising? || x.pc.Working? || x.pc.Sending?
  }

  ghost predicate QueueInv(c: Config, s: State) {
    && |s.jobs.queue| == s.jobs.accepted - s.jobs.started <= c.queueSize
    && forall k :: 0 <= k < |s.jobs.queue| ==> s.jobs.queue[k] == s.jobs.started + k
  }

  ghost predicate ReportInv(s: State) {
    && s.counts.queuedJobs == s.jobs.accepted - s.unreported - |s.jobs.collected| + One(s.collector.Received?)
    && s.counts.completed + s.counts.failed == |s.jobs.collected| - One(!s.collector.Listening?)
  }

  ghost predicate FlowInv(s: State) {
    s.jobs.started == Count(s.staff.workers, HasJob) + |s.jobs.results| + |s.jobs.fetched| + |s.jobs.collected|
  }

  lemma NextQueue(c: Config, s: State, e: Step)
    requires QueueInv(c, s)
    ensures QueueInv(c, Next(c, s, e))
  {
  }

  lemma NextReport(c: Config, s: State, e: Step)
    requires ReportInv(s)
    ensures ReportInv(Next(c, s, e))
  {
  }

  lemma PutFlow(s: State, s': State, w: nat, x: Worker)
    requires FlowInv(s) && s'.staff.workers == s.staff.workers[w := x] && s'.jobs.fetched == s.jobs.fetched
             && s'.jobs.collected == s.jobs.collected
    requires s'.jobs.started - |s'.jobs.results|
             == s.jobs.started - |s.jobs.results| + One(HasJob(x))
                 - One(w in s.staff.workers && HasJob(s.staff.workers[w]))
    ensures FlowInv(s')
  {
    CountPut(s.staff.workers, HasJob, w, x);
  }

  lemma WorkerFrame(c: Config, s: State, e: Step)
    requires Allowed(c, s, e) && (e.Go? || e.HearStop? || e.Finish?)
    ensures var s' := Next(c, s, e);
            && e.w in s'.staff.workers && s'.staff.workers == s.staff.workers[e.w := s'.staff.workers[e.w]]
            && s'.jobs.fetched == s.jobs.fetched && s'.jobs.collected == s.jobs.collected
            && s'.jobs.started - |s'.jobs.results|
               == s.jobs.started - |s.jobs.results| + One(HasJob(s'.staff.workers[e.w]))
                   - One(HasJob(s.staff.workers[e.w]))
  {
  }

  lemma WorkerFlow(c: Config, s: State, e: Step)
    requires FlowInv(s) && Allowed(c, s, e) && (e.Go? || e.HearStop? || e.Finish?)
    ensures FlowInv(Next(c, s, e))
  {
    WorkerFrame(c, s, e);
    PutFlow(s, Next(c, s, e), e.w, Next(c, s, e).staff.workers[e.w]);
  }

  lemma NextFlow(c: Config, s: State, e: Step)
    requires FlowInv(s) && |s.staff.workers| !in s.staff.workers
    ensures FlowInv(Next(c, s, e))
  {
    if Allowed(c, s, e) {
      if e.Go? || e.HearStop? || e.Finish? {
        WorkerFlow(c, s, e);
      } else if e.Hold? {
        HoldFlow(c, s);
      }
    }
  }

  lemma HoldFlow(c: Config, s: State)
    requires FlowInv(s) && |s.staff.workers| !in s.staff.workers && Allowed(c, s, Hold)
    ensures FlowInv(Held(c, s))
  {
    var s' := Held(c, s);
    if s.holder.Creating? && s.holder.next < s.holder.goal {
      PutFlow(s, s', |s.staff.workers|, Worker(s.holder.next, false, Looping));
    } else if s.holder.Stopping? && s.holder.i < s.holder.count {
      var u := s.staff.slice[|s.staff.slice| - 1 - s.holder.i];
      PutFlow(s, s', u, s'.staff.workers[u]);
    } else {
      assert s'.staff.workers == s.staff.workers;
    }
  }

  lemma {:induction false} RunJobs(c: Config, steps: seq<Step>)
    requires c.Valid()
    ensures var s := Run(c, Start(c), steps);
            QueueInv(c, s) && ReportInv(s) && FlowInv(s)
  {
    if steps == [] {
      CountNone(Start(c).staff.workers, HasJob);
    } else {
      var s, e := Run(c, Start(c), steps[..|steps| - 1]), steps[|steps| - 1];
      RunJobs(c, steps[..|steps| - 1]);
      RunSlice(c, steps[..|steps| - 1]);
      NextQueue(c, s, e);
      NextReport(c, s, e);
      NextFlow(c, s, e);
    }
  }

  /** Jobs start in the order in which they were accepted, and once no counter update is pending QueuedJobs overstates
      the jobs not done by exactly the results that callers fetched, while CompletedJobs + FailedJobs misses those. */
  lemma JobsConserved(c: Config, steps: seq<Step>)
    requires c.Valid()
    ensures var s := Run(c, Start(c), steps);
            && |s.jobs.queue| == s.jobs.accepted - s.jobs.started <= c.queueSize
            && (forall k :: 0 <= k < |s.jobs.queue| ==> s.jobs.queue[k] == s.jobs.started + k)
            && s.jobs.started
               == Count(s.staff.workers, HasJob) + |s.jobs.results| + |s.jobs.fetched| + |s.jobs.collected|
            && (s.unreported == 0 && s.collector.Listening? ==>
                  && s.counts.completed + s.counts.failed == |s.jobs.collected|
                  && s.counts.queuedJobs
                     == |s.jobs.queue| + Count(s.staff.workers, HasJob) + |s.jobs.results| + |s.jobs.fetched|)
  {
    RunJobs(c, steps);
  }

  // ---- workerPool is filled but never drained ---------------------------------------------------

  lemma {:induction false} RunPooled(c: Config, steps: seq<Step>)
    ensures Run(c, Start(c), steps).staff.pooled <= c.maxWorkers
  {
    if steps != [] {
      RunPooled(c, steps[..|steps| - 1]);
    }
  }

  lemma RunMore(c: Config, s: State, steps: seq<Step>, e: Step)
    ensures Run(c, s, steps + [e]) == Next(c, Run(c, s, steps), e)
  {
    assert (steps + [e])[..|steps|] == steps;
  }

  /** A pool that cannot scale is never being scaled, and before it is ready it has no jobs. */
  ghost predicate FixedInv(c: Config, s: State) {
    && (!s.ready ==> s.jobs.accepted == 0 && s.jobs.queue == [] && s.jobs.started == 0)
    && (c.minWorkers == c.maxWorkers && s.ready ==> s.holder.Free?)
  }

  lemma NextFixed(c: Config, s: State, e: Step)
    requires c.Valid() && FixedInv(c, s) && SliceInv(c, s)
    ensures FixedInv(c, Next(c, s, e))
  {
  }

  lemma {:induction false} RunFixed(c: Config, steps: seq<Step>)
    requires c.Valid()
    ensures FixedInv(c, Run(c, Start(c), steps))
  {
    if steps != [] {
      RunFixed(c, steps[..|steps| - 1]);
      RunSlice(c, steps[..|steps| - 1]);
      NextFixed(c, Run(c, Start(c), steps[..|steps| - 1]), steps[|steps| - 1]);
    }
  }

  /** A pool that cannot scale never loses a worker either. */
  ghost predicate NoneRemoved(c: Config, s: State) {
    c.minWorkers == c.maxWorkers ==>
      |s.staff.workers| == |s.staff.slice|
      && !s.holder.Stopping? && !s.holder.LoweringTotal? && !s.holder.LoweringIdle?
  }

  lemma NextNoneRemoved(c: Config, s: State, e: Step)
    requires c.Valid() && NoneRemoved(c, s) && SliceInv(c, s)
    ensures NoneRemoved(c, Next(c, s, e))
  {
    if Allowed(c, s, e) && !e.ScaleDown? {
      match e
      case Hold => HoldNoneRemoved(c, s);
      case Go(w) =>
        GoFrame(c, s, w);
        PutSize(s.staff.workers, w, Went(c, s, w).staff.workers[w]);
      case HearStop(w) => PutSize(s.staff.workers, w, s.staff.workers[w].(pc := Gone));
      case Finish(w, ok) =>
        PutSize(s.staff.workers, w, s.staff.workers[w].(pc := Sending(s.staff.workers[w].pc.job, ok)));
      case _ =>
    }
  }

  lemma HoldNoneRemoved(c: Config, s: State)
    requires c.Valid() && NoneRemoved(c, s) && SliceInv(c, s) && Allowed(c, s, Hold)
    ensures NoneRemoved(c, Held(c, s))
  {
    if s.holder.Creating? && s.holder.next < s.holder.goal {
      PutSize(s.staff.workers, |s.staff.workers|, Worker(s.holder.next, false, Looping));
    }
  }

  lemma {:induction false} RunNoneRemoved(c: Config, steps: seq<Step>)
    requires c.Valid()
    ensures NoneRemoved(c, Run(c, Start(c), steps))
  {
    if steps != [] {
      RunNoneRemoved(c, steps[..|steps| - 1]);
      RunSlice(c, steps[..|steps| - 1]);
      NextNoneRemoved(c, Run(c, Start(c), steps[..|steps| - 1]), steps[|steps| - 1]);
    }
  }

  /** Since nothing takes workers out of workerPool, at most MaxWorkers jobs are ever started, and one more if a ScaleUp
      is caught in its send into workerPool; every job accepted after those stays in the queue. */
  lemma JobsEverStarted(c: Config, steps: seq<Step>)
    requires c.Valid()
    ensures var s := Run(c, Start(c), steps);
            && s.jobs.started <= c.maxWorkers + One(s.holder.Pooling? && s.staff.pooled == c.maxWorkers)
            && s.jobs.started <= c.maxWorkers + One(c.minWorkers < c.maxWorkers)
            && (forall k :: 0 <= k < |s.jobs.queue| ==> s.jobs.queue[k] == s.jobs.started + k)
            && |s.jobs.queue| >= s.jobs.accepted - c.maxWorkers - One(c.minWorkers < c.maxWorkers)
  {
    var s := Run(c, Start(c), steps);
    RunSlice(c, steps);
    RunCounters(c, steps);
    RunPooled(c, steps);
    RunJobs(c, steps);
    RunFixed(c, steps);
    BusyAtMostAll(s.staff.workers);
  }

  lemma BusyAtMostAll(workers: map<nat, Worker>)
    ensures Count(workers, Busy) <= |workers|
  {
    var all := (x: Worker) => true;
    CountLess(workers, Busy, all);
    assert Having(workers, all) == workers.Keys;
    assert |workers.Keys| == |workers|;
  }

  /** A worker or a ScaleUp at its send into workerPool. */
  ghost predicate StillCaught(s: State, s': State) {
    && s'.staff.pooled == s.staff.pooled
    && (s.holder.Pooling? ==> s'.holder == s.holder && s'.staff.slice == s.staff.slice)
    && forall w :: w in s.staff.workers && s.staff.workers[w].pc.Returning? ==>
       w in s'.staff.workers && s'.staff.workers[w].pc.Returning?
  }

  lemma FullStep(c: Config, s: State, e: Step)
    requires s.staff.pooled >= c.maxWorkers && |s.staff.workers| !in s.staff.workers
    ensures StillCaught(s, Next(c, s, e))
  {
  }

  lemma {:induction false} FullRun(c: Config, s: State, steps: seq<Step>)
    requires c.Valid() && s.staff.pooled >= c.maxWorkers && SliceInv(c, s)
    ensures SliceInv(c, Run(c, s, steps)) && StillCaught(s, Run(c, s, steps))
  {
    if steps != [] {
      var m, e := Run(c, s, steps[..|steps| - 1]), steps[|steps| - 1];
      FullRun(c, s, steps[..|steps| - 1]);
      NextSlice(c, m, e);
      FullStep(c, m, e);
    }
  }

  /** Once workerPool is full, a ScaleUp waiting to send into it holds the mutex for good, so that nobody scales again,
      and a worker waiting there never takes another job. */
  lemma FullPoolIsForever(c: Config, steps: seq<Step>, more: seq<Step>)
    requires c.Valid() && Run(c, Start(c), steps).staff.pooled == c.maxWorkers
    ensures var s := Run(c, Start(c), steps);
            var s' := Run(c, s, more);
            && (s.holder.Pooling? ==> s'.holder == s.holder && s'.staff.slice == s.staff.slice)
            && (forall w :: w in s.staff.workers && s.staff.workers[w].pc.Returning? ==>
                              w in s'.staff.workers && s'.staff.workers[w].pc.Returning?)
  {
    RunSlice(c, steps);
    FullRun(c, Run(c, Start(c), steps), more);
  }
}
