/**
  How long deliveries take.  Handlers, retry delays and scheduling get durations, and time passes only as long as nobody
  is overdue; then OperationTimeout can be compared with what a fan-out may need.
 */
module DeliveryTimes {
  import opened Delivery
  import opened DeliveryExact

  /** handler: the longest from calling a handler to hearing its result.  lag: the longest that a goroutine which could
      move on stays where it is, including the dead letter handler's time.  timeout: OperationTimeout. */
  datatype Times = Times(handler: nat, retryDelay: nat, lag: nat, timeout: nat)

  /** due: when each delivery will have moved on at the latest.  since: when the processor began to wait.  moved: when a
      delivery of the current message last returned from its handler, or the wait began. */
  datatype Timed = Timed(s: State, now: nat, due: map<(SubId, nat), nat>, since: nat, moved: nat)

  datatype TimedStep = Pass(d: nat) | Do(e: Step)

  /** Before attempt k: `RetryDelay * k`, and then the goroutine has to be scheduled. */
  function Pause(t: Times, attempt: nat): nat {
    t.lag + t.retryDelay * attempt
  }

  function Deadline(t: Times, now: nat, d: Delivery): nat {
    match d
    case Spawned => now + t.lag
    case Ready(attempt, _, _) => now + Pause(t, attempt)
    case InHandler(_, _) => now + t.handler
    case Delivered(_) => now
  }

  predicate MayPass(t: Times, x: Timed, d: nat) {
    && (forall key | key in x.s.deliveries && key in x.due ::
          x.s.deliveries[key].Delivered? || x.now + d <= x.due[key])
    && (x.s.processor.Waiting? && x.s.taken != [] && AllDelivered(x.s, |x.s.taken| - 1) ==>
          x.now + d <= x.moved + t.lag)
  }

  /** A retry waits for its delay to be over, and the processor goes on by itself only after OperationTimeout. */
  predicate InTime(c: Config, t: Times, x: Timed, e: Step) {
    && Allowed(c, x.s, e)
    && (e.Invoke? ==> (e.sub, e.i) in x.due && x.due[(e.sub, e.i)] <= x.now + t.lag)
    && (e.TimeOut? ==> x.since + t.timeout <= x.now)
  }

  predicate OfDelivery(e: Step) {
    e.Spawn? || e.Admit? || e.Invoke? || e.Return?
  }

  /** The delivery that a step is about. */
  function KeyOf(c: Config, s: State, e: Step): (SubId, nat)
    requires OfDelivery(e) && Allowed(c, s, e)
  {
    if e.Spawn? then (e.sub, |s.taken| - 1) else (e.sub, e.i)
  }

  function Scheduled(c: Config, t: Times, x: Timed, e: Step): (due: map<(SubId, nat), nat>)
    requires Allowed(c, x.s, e)
  {
    var after := Next(c, x.s, e).deliveries;
    if OfDelivery(e) && after != x.s.deliveries
    then x.due[KeyOf(c, x.s, e) := Deadline(t, x.now, after[KeyOf(c, x.s, e)])] else x.due
  }

  function TimedNext(c: Config, t: Times, x: Timed, te: TimedStep): Timed {
    match te
    case Pass(d) => if MayPass(t, x, d) then x.(now := x.now + d) else x
    case Do(e) =>
      if !InTime(c, t, x, e) then x
      else
        Timed(Next(c, x.s, e), x.now, Scheduled(c, t, x, e), if e.EndFanOut? then x.now else x.since,
              if e.EndFanOut? || (e.Return? && e.i == |x.s.taken| - 1) then x.now else x.moved)
  }

  function TimedRun(c: Config, t: Times, steps: seq<TimedStep>): Timed {
    if steps == [] then Timed(START, 0, map[], 0, 0)
    else TimedNext(c, t, TimedRun(c, t, steps[..|steps| - 1]), steps[|steps| - 1])
  }

  /** The same run without its times. */
  function Untimed(c: Config, t: Times, steps: seq<TimedStep>): seq<Step> {
    if steps == [] then []
    else
      var before, te := steps[..|steps| - 1], steps[|steps| - 1];
      Untimed(c, t, before) + if te.Do? && InTime(c, t, TimedRun(c, t, before), te.e) then [te.e] else []
  }

  lemma {:induction false} SameState(c: Config, t: Times, steps: seq<TimedStep>)
    ensures TimedRun(c, t, steps).s == Run(c, START, Untimed(c, t, steps))
  {
    if steps != [] {
      var before, te := steps[..|steps| - 1], steps[|steps| - 1];
      SameState(c, t, before);
      if te.Do? && InTime(c, t, TimedRun(c, t, before), te.e) {
        RunMore(c, START, Untimed(c, t, before), te.e);
      } else {
        assert Untimed(c, t, steps) == Untimed(c, t, before);
      }
    }
  }

  // ---- how long a delivery can take -------------------------------------------------------------

  /** The attempts from this one on, all failing as late as they can. */
  function Attempts(t: Times, maxRetries: nat, attempt: nat): nat
    decreases maxRetries + 1 - attempt
  {
    if attempt > maxRetries then 0 else Pause(t, attempt) + t.handler + Attempts(t, maxRetries, attempt + 1)
  }

  /** The delivery's worst future, counted from when it will have moved on. */
  function Left(t: Times, maxRetries: nat, d: Delivery): nat {
    match d
    case Spawned => 2 * Attempts(t, maxRetries, 0)
    case Ready(attempt, viaBreaker, _) =>
      t.handler + Attempts(t, maxRetries, attempt + 1) + if viaBreaker then Attempts(t, maxRetries, 0) else 0
    case InHandler(attempt, viaBreaker) =>
      Attempts(t, maxRetries, attempt + 1) + if viaBreaker then Attempts(t, maxRetries, 0) else 0
    case Delivered(_) => 0
  }

  /** A round of attempts inside the breaker, and one outside when the last error was the breaker's own. */
  function TwoRounds(t: Times, maxRetries: nat): nat {
    2 * ((maxRetries + 1) * (t.lag + t.handler)) + t.retryDelay * (maxRetries * (maxRetries + 1))
  }

  /** When the handler may be called for the last time, after the wait began. */
  function LastCall(t: Times, maxRetries: nat): int {
    t.lag + TwoRounds(t, maxRetries) - t.handler
  }

  /** When the processor will have heard of the end of a delivery, after the wait began. */
  function Heard(t: Times, maxRetries: nat): nat {
    t.lag + TwoRounds(t, maxRetries) + t.lag
  }

  /** 0 + 1 + ... + (a - 1), twice. */
  function Pairs(a: nat): int {
    a * (a - 1)
  }

  /** Twice the attempts from this one on, added up. */
  function Total(t: Times, maxRetries: nat, a: nat): int {
    2 * ((maxRetries + 1 - a) * (t.lag + t.handler)) + t.retryDelay * (Pairs(maxRetries + 1) - Pairs(a))
  }

  lemma TotalStep(t: Times, maxRetries: nat, a: nat)
    ensures Total(t, maxRetries, a) == Total(t, maxRetries, a + 1) + 2 * (t.lag + t.handler) + 2 * (t.retryDelay * a)
  {
    var rest := Pairs(maxRetries + 1) - Pairs(a + 1);
    assert Pairs(a + 1) == Pairs(a) + 2 * a;
    Distributes(t.retryDelay, rest, 2 * a);
    Distributes(t.lag + t.handler, maxRetries - a, 1);
    Distributes(t.retryDelay, a, a);
  }

  lemma Distributes(x: int, y: int, z: int)
    ensures x * (y + z) == x * y + x * z && (y + z) * x == y * x + z * x
  {
  }

  lemma {:induction false} AttemptsFrom(t: Times, maxRetries: nat, a: nat)
    requires a <= maxRetries + 1
    ensures 2 * Attempts(t, maxRetries, a) == Total(t, maxRetries, a)
    decreases maxRetries + 1 - a
  {
    if a <= maxRetries {
      AttemptsFrom(t, maxRetries, a + 1);
      TotalStep(t, maxRetries, a);
    }
  }

  lemma AttemptsTwice(t: Times, maxRetries: nat)
    ensures 2 * Attempts(t, maxRetries, 0) == TwoRounds(t, maxRetries)
  {
    AttemptsFrom(t, maxRetries, 0);
    assert Pairs(maxRetries + 1) == maxRetries * (maxRetries + 1) && Pairs(0) == 0;
  }

  /** The current message's delivery to v is on schedule. */
  ghost predicate OnSchedule(c: Config, t: Times, x: Timed, v: SubId)
    requires v in c.subs
  {
    var key := (v, |x.s.taken| - 1);
    !x.s.processor.Idle? && key in x.s.deliveries && !x.s.deliveries[key].Delivered? ==>
      && key in x.due && x.now <= x.due[key]
      && x.due[key] + Left(t, c.subs[v].maxRetries, x.s.deliveries[key])
         <= (if x.s.processor.Waiting? then x.since else x.now) + t.lag + 2 * Attempts(t, c.subs[v].maxRetries, 0)
  }

  /** One delivery, before and after one of its own steps. */
  predicate Follows(maxRetries: nat, d: Delivery, d': Delivery, result: Result) {
    match d
    case Spawned => d'.Ready? && d' == Ready(0, d'.viaBreaker, false)
    case Ready(attempt, viaBreaker, _) => d' == InHandler(attempt, viaBreaker)
    case InHandler(_, _) => d' == AfterReturn(maxRetries, d, result)
    case Delivered(_) => false
  }

  /** A delivery that moves on takes no more than its share of what was left. */
  lemma ShareOfTime(t: Times, maxRetries: nat, now: nat, d: Delivery, d': Delivery, result: Result)
    requires Follows(maxRetries, d, d', result) && Attempting(d, maxRetries) && !d'.Delivered?
    ensures Deadline(t, now, d') + Left(t, maxRetries, d') <= now + Left(t, maxRetries, d)
  {
    assert Attempts(t, maxRetries, 0) == Pause(t, 0) + t.handler + Attempts(t, maxRetries, 1);
  }

  lemma MovesOn(c: Config, t: Times, x: Timed, e: Step, v: SubId)
    requires v in c.subs && InTime(c, t, x, e) && OnSchedule(c, t, x, v) && ProperInv(c, x.s)
    requires (e.Admit? || e.Invoke? || e.Return?) && e.sub == v && e.i == |x.s.taken| - 1
    ensures OnSchedule(c, t, TimedNext(c, t, x, Do(e)), v)
  {
    var x', key := TimedNext(c, t, x, Do(e)), (v, e.i);
    assert Proper(c, x.s, v, e.i);
    var d, d', result := x.s.deliveries[key], x'.s.deliveries[key], if e.Return? then e.result else Fine;
    assert Follows(c.subs[v].maxRetries, d, d', result) && x'.s.processor == x.s.processor;
    if !d'.Delivered? {
      ShareOfTime(t, c.subs[v].maxRetries, x.now, d, d', result);
      assert x'.due[key] == Deadline(t, x.now, d');
    }
  }

  /** Nothing about v's current delivery has changed. */
  lemma Bystander(c: Config, t: Times, x: Timed, x': Timed, v: SubId)
    requires v in c.subs && OnSchedule(c, t, x, v) && |x'.s.taken| == |x.s.taken|
    requires x'.now == x.now && x'.since == x.since && x'.s.processor.Idle? == x.s.processor.Idle?
             && x'.s.processor.Waiting? == x.s.processor.Waiting?
    requires var key := (v, |x.s.taken| - 1);
             key in x'.s.deliveries ==>
               && key in x.s.deliveries && x'.s.deliveries[key] == x.s.deliveries[key]
               && (key in x.due ==> key in x'.due && x'.due[key] == x.due[key])
    ensures OnSchedule(c, t, x', v)
  {
  }

  lemma BystandsStep(c: Config, t: Times, x: Timed, e: Step, v: SubId)
    requires v in c.subs && InTime(c, t, x, e) && OnSchedule(c, t, x, v) && ProperInv(c, x.s)
    requires !e.Take? && !e.EndFanOut? && !e.Finish? && !e.TimeOut?
    requires OfDelivery(e) ==> KeyOf(c, x.s, e) != (v, |x.s.taken| - 1)
    ensures OnSchedule(c, t, TimedNext(c, t, x, Do(e)), v)
  {
    Bystander(c, t, x, TimedNext(c, t, x, Do(e)), v);
  }

  lemma SpawnTimes(c: Config, t: Times, x: Timed, e: Step, v: SubId)
    requires v in c.subs && e == Spawn(v) && InTime(c, t, x, e) && OnSchedule(c, t, x, v)
    ensures OnSchedule(c, t, TimedNext(c, t, x, Do(e)), v)
  {
    var x', key := TimedNext(c, t, x, Do(e)), (v, |x.s.taken| - 1);
    if x'.s.deliveries == x.s.deliveries {
      Bystander(c, t, x, x', v);
    } else {
      assert x'.s.deliveries[key] == Spawned && x'.due[key] == x.now + t.lag;
    }
  }

  lemma ProcessorTimes(c: Config, t: Times, x: Timed, e: Step, v: SubId)
    requires v in c.subs && InTime(c, t, x, e) && OnSchedule(c, t, x, v) && ProperInv(c, x.s)
    requires e.Take? || e.EndFanOut? || e.Finish? || e.TimeOut?
    ensures OnSchedule(c, t, TimedNext(c, t, x, Do(e)), v)
  {
    if e.Take? {
      forall i | (v, i) in x.s.deliveries ensures i < |x.s.taken| {
        assert Proper(c, x.s, v, i);
      }
    }
  }

  lemma PassTimes(c: Config, t: Times, x: Timed, d: nat, v: SubId)
    requires v in c.subs && MayPass(t, x, d) && OnSchedule(c, t, x, v)
    ensures OnSchedule(c, t, TimedNext(c, t, x, Pass(d)), v)
  {
  }

  lemma NextOnSchedule(c: Config, t: Times, x: Timed, te: TimedStep, v: SubId)
    requires v in c.subs && OnSchedule(c, t, x, v) && ProperInv(c, x.s)
    ensures OnSchedule(c, t, TimedNext(c, t, x, te), v)
  {
    match te
    case Pass(d) =>
      if MayPass(t, x, d) {
        PassTimes(c, t, x, d, v);
      }
    case Do(e) =>
      if InTime(c, t, x, e) {
        if e.Take? || e.EndFanOut? || e.Finish? || e.TimeOut? {
          ProcessorTimes(c, t, x, e, v);
        } else if !OfDelivery(e) || KeyOf(c, x.s, e) != (v, |x.s.taken| - 1) {
          BystandsStep(c, t, x, e, v);
        } else if e.Spawn? {
          SpawnTimes(c, t, x, e, v);
        } else {
          MovesOn(c, t, x, e, v);
        }
      }
  }

  lemma {:induction false} RunOnSchedule(c: Config, t: Times, steps: seq<TimedStep>, v: SubId)
    requires v in c.subs
    ensures OnSchedule(c, t, TimedRun(c, t, steps), v) && ProperInv(c, TimedRun(c, t, steps).s)
  {
    if steps != [] {
      RunOnSchedule(c, t, steps[..|steps| - 1], v);
      NextOnSchedule(c, t, TimedRun(c, t, steps[..|steps| - 1]), steps[|steps| - 1], v);
    }
    SameState(c, t, steps);
    RunProper(c, Untimed(c, t, steps));
  }

  // ---- a subscription that is in time stays in order --------------------------------------------

  /** After the last time at which u's handler may be called, it has been. */
  lemma NoMoreCalls(c: Config, t: Times, x: Timed, u: SubId)
    requires u in c.subs && OnSchedule(c, t, x, u) && ProperInv(c, x.s) && x.s.processor.Waiting?
    requires x.now > x.since + LastCall(t, c.subs[u].maxRetries)
    ensures DoneWith(c, x.s, u)
  {
    AttemptsTwice(t, c.subs[u].maxRetries);
    if (u, |x.s.taken| - 1) in x.s.deliveries {
      assert Proper(c, x.s, u, |x.s.taken| - 1);
    }
  }

  lemma TimeOutIsPatient(c: Config, t: Times, before: seq<TimedStep>, e: Step, u: SubId)
    requires u in c.subs && t.timeout > LastCall(t, c.subs[u].maxRetries) && e.TimeOut?
    requires InTime(c, t, TimedRun(c, t, before), e)
    ensures DoneWith(c, TimedRun(c, t, before).s, u)
  {
    RunOnSchedule(c, t, before, u);
    NoMoreCalls(c, t, TimedRun(c, t, before), u);
  }

  lemma OneMorePatient(c: Config, before: seq<Step>, e: Step, u: SubId)
    requires u in c.subs && Patient(c, before, u)
    requires e.TimeOut? && Allowed(c, Run(c, START, before), e) ==> DoneWith(c, Run(c, START, before), u)
    ensures Patient(c, before + [e], u)
  {
    assert (before + [e])[..|before|] == before;
  }

  lemma {:induction false} InTimeIsPatient(c: Config, t: Times, steps: seq<TimedStep>, u: SubId)
    requires u in c.subs && t.timeout > LastCall(t, c.subs[u].maxRetries)
    ensures Patient(c, Untimed(c, t, steps), u)
  {
    if steps != [] {
      var before, te := steps[..|steps| - 1], steps[|steps| - 1];
      InTimeIsPatient(c, t, before, u);
      if te.Do? && InTime(c, t, TimedRun(c, t, before), te.e) {
        SameState(c, t, before);
        if te.e.TimeOut? {
          TimeOutIsPatient(c, t, before, te.e, u);
        }
        OneMorePatient(c, Untimed(c, t, before), te.e, u);
      } else {
        assert Untimed(c, t, steps) == Untimed(c, t, before);
      }
    }
  }

  // ---- a fan-out as slow as it can be -----------------------------------------------------------

  lemma Continue(c: Config, t: Times, steps: seq<TimedStep>, te: TimedStep) returns (more: seq<TimedStep>)
    ensures more == steps + [te] && TimedRun(c, t, more) == TimedNext(c, t, TimedRun(c, t, steps), te)
  {
    more := steps + [te];
    assert more[..|more| - 1] == steps;
  }

  /** Of two messages that u wants, the first has been taken and the second is queued; nobody's handler has
      been called. */
  ghost predicate Setting(c: Config, x: Timed, u: SubId)
    requires u in c.subs
  {
    var headers := c.subs[u].filter.headers;
    && x.s.taken == [Message(1, headers, 0)] && x.s.queue == [Message(2, headers, 0)]
    && |x.s.retryCounts| == 1 && x.since == 0
  }

  lemma Prepared(c: Config, t: Times, u: SubId) returns (steps: seq<TimedStep>)
    requires u in c.subs && c.capacity > 0
    ensures var x := TimedRun(c, t, steps);
            && Setting(c, x, u) && x.now == 0 && x.due == map[] && x.s.processor == FanningOut(c.subs.Keys)
            && x.s.deliveries == map[] && x.s.logs == map[] && x.s.retryCounts == [0]
  {
    var headers := c.subs[u].filter.headers;
    steps := Continue(c, t, [], Do(Stamp(0, headers)));
    steps := Continue(c, t, steps, Do(Enqueue(0)));
    steps := Continue(c, t, steps, Do(Take));
    steps := Continue(c, t, steps, Do(Stamp(0, headers)));
    steps := Continue(c, t, steps, Do(Enqueue(0)));
  }

  /** The fan-out goes on with these subscriptions; nobody has moved yet. */
  ghost predicate Spreading(c: Config, t: Times, x: Timed, u: SubId, todo: set<SubId>)
    requires u in c.subs
  {
    && Setting(c, x, u) && x.now == 0 && x.s.processor == FanningOut(todo) && todo <= c.subs.Keys
    && (todo != c.subs.Keys && CanWant(c.subs[u]) ==> (u, 0) in x.s.deliveries)
    && Fresh(c, t, x) && x.s.retryCounts == [0]
  }

  /** Every delivery is about the first message, and none has moved. */
  ghost predicate Fresh(c: Config, t: Times, x: Timed) {
    && x.s.logs == map[]
    && forall key :: key in x.s.deliveries ==>
         && key.0 in c.subs && key.1 == 0 && x.s.deliveries[key] == Spawned && key in x.due && x.due[key] == t.lag
  }

  lemma SpreadOne(c: Config, t: Times, steps: seq<TimedStep>, u: SubId, todo: set<SubId>, v: SubId)
    returns (more: seq<TimedStep>)
    requires u in c.subs && Spreading(c, t, TimedRun(c, t, steps), u, todo) && v in todo
    requires todo == c.subs.Keys ==> v == u
    ensures Spreading(c, t, TimedRun(c, t, more), u, todo - {v})
  {
    more := Continue(c, t, steps, Do(Spawn(v)));
  }

  lemma {:induction false} Spread(c: Config, t: Times, steps: seq<TimedStep>, u: SubId, todo: set<SubId>)
    returns (more: seq<TimedStep>)
    requires u in c.subs && Spreading(c, t, TimedRun(c, t, steps), u, todo) && todo != c.subs.Keys
    ensures Spreading(c, t, TimedRun(c, t, more), u, {})
    decreases |todo|
  {
    if todo == {} {
      more := steps;
    } else {
      var v :| v in todo;
      more := SpreadOne(c, t, steps, u, todo, v);
      more := Spread(c, t, more, u, todo - {v});
    }
  }

  /** The wait begins. */
  ghost predicate Began(c: Config, t: Times, x: Timed, u: SubId)
    requires u in c.subs
  {
    && Setting(c, x, u) && x.now == x.moved == 0 && x.s.processor.Waiting? && Fresh(c, t, x)
    && (CanWant(c.subs[u]) ==> (u, 0) in x.s.deliveries)
  }

  lemma Begin(c: Config, t: Times, u: SubId) returns (steps: seq<TimedStep>)
    requires u in c.subs && c.capacity > 0
    ensures Began(c, t, TimedRun(c, t, steps), u)
  {
    steps := Prepared(c, t, u);
    steps := SpreadOne(c, t, steps, u, c.subs.Keys, u);
    steps := Spread(c, t, steps, u, c.subs.Keys - {u});
    steps := Continue(c, t, steps, Do(EndFanOut));
  }

  ghost predicate Has(x: Timed, v: SubId, d: Delivery, due: nat) {
    (v, 0) in x.s.deliveries && x.s.deliveries[(v, 0)] == d && (v, 0) in x.due && x.due[(v, 0)] == due
  }

  /** v's delivery after its next step. */
  function Moved(c: Config, v: SubId, d: Delivery, e: Step): Delivery
    requires v in c.subs && (e.Admit? || e.Invoke? || (e.Return? && d.InHandler?))
    requires e.Invoke? ==> d.Ready?
  {
    match e
    case Admit(_, _, admitted) => Ready(0, admitted, false)
    case Invoke(_, _) => InHandler(d.attempt, d.viaBreaker)
    case Return(_, _, result) => AfterReturn(c.subs[v].maxRetries, d, result)
  }

  lemma Move(c: Config, t: Times, steps: seq<TimedStep>, v: SubId, d: Delivery, due: nat, e: Step)
    returns (more: seq<TimedStep>)
    requires v in c.subs && Has(TimedRun(c, t, steps), v, d, due)
    requires |TimedRun(c, t, steps).s.retryCounts| == |TimedRun(c, t, steps).s.taken| == 1
    requires (e.Admit? && d.Spawned?) || (e.Return? && d.InHandler?)
             || (e.Invoke? && d.Ready? && due <= TimedRun(c, t, steps).now + t.lag)
    requires e.sub == v && e.i == 0
    ensures var x, x', d' := TimedRun(c, t, steps), TimedRun(c, t, more), Moved(c, v, d, e);
            && x' == x.(s := x'.s, due := x.due[(v, 0) := Deadline(t, x.now, d')],
                        moved := if e.Return? then x.now else x.moved)
            && x'.s == x.s.(deliveries := x.s.deliveries[(v, 0) := d'], retryCounts := x'.s.retryCounts,
                            logs := if e.Invoke? then x.s.logs[v := LogOf(x.s, v) + [0]] else x.s.logs)
            && |x'.s.retryCounts| == 1
  {
    more := Continue(c, t, steps, Do(e));
  }

  /** The subscriptions of `left` have yet to be served, u as well, and nobody else. */
  ghost predicate Serving(c: Config, t: Times, x: Timed, u: SubId, left: set<SubId>)
    requires u in c.subs
  {
    && Setting(c, x, u) && x.now == 0 && x.s.processor.Waiting? && u !in left && Has(x, u, Spawned, t.lag)
    && (forall v :: v in left ==> v in c.subs && Has(x, v, Spawned, t.lag))
    && forall key :: key in x.s.deliveries && !x.s.deliveries[key].Delivered? && key != (u, 0) ==>
         key.1 == 0 && key.0 in left
  }

  /** v's handler succeeds at once. */
  lemma ServeOne(c: Config, t: Times, steps: seq<TimedStep>, u: SubId, left: set<SubId>, v: SubId)
    returns (more: seq<TimedStep>)
    requires u in c.subs && v in left && Serving(c, t, TimedRun(c, t, steps), u, left)
    ensures Serving(c, t, TimedRun(c, t, more), u, left - {v})
  {
    more := Move(c, t, steps, v, Spawned, t.lag, Admit(v, 0, false));
    more := Move(c, t, more, v, Ready(0, false, false), t.lag, Invoke(v, 0));
    more := Move(c, t, more, v, InHandler(0, false), t.handler, Return(v, 0, Fine));
  }

  lemma {:induction false} ServeAll(c: Config, t: Times, steps: seq<TimedStep>, u: SubId, left: set<SubId>)
    returns (more: seq<TimedStep>)
    requires u in c.subs && Serving(c, t, TimedRun(c, t, steps), u, left)
    ensures Serving(c, t, TimedRun(c, t, more), u, {})
    decreases |left|
  {
    if left == {} {
      more := steps;
    } else {
      var v :| v in left;
      more := ServeOne(c, t, steps, u, left, v);
      more := ServeAll(c, t, more, u, left - {v});
    }
  }

  /** Only u's delivery is left: it is at d until `due`; and u was called about the first message, if d says so. */
  ghost predicate Lone(c: Config, x: Timed, u: SubId, d: Delivery, due: nat)
    requires u in c.subs
  {
    && Setting(c, x, u) && x.s.processor.Waiting? && Has(x, u, d, due)
    && (forall key :: key in x.s.deliveries && key != (u, 0) ==> x.s.deliveries[key].Delivered?)
    && (Invoked(d) ==> LogOf(x.s, u) != [] && LogOf(x.s, u)[|LogOf(x.s, u)| - 1] == 0)
  }

  lemma OneLeft(c: Config, t: Times, u: SubId) returns (steps: seq<TimedStep>)
    requires u in c.subs && CanWant(c.subs[u]) && c.capacity > 0
    ensures Lone(c, TimedRun(c, t, steps), u, Spawned, t.lag) && TimedRun(c, t, steps).now == 0
  {
    steps := Begin(c, t, u);
    var x := TimedRun(c, t, steps);
    steps := ServeAll(c, t, steps, u, (set key | key in x.s.deliveries :: key.0) - {u});
  }

  /** Until the delivery has to move on. */
  lemma WaitForIt(c: Config, t: Times, steps: seq<TimedStep>, u: SubId, d: Delivery, due: nat)
    returns (more: seq<TimedStep>)
    requires u in c.subs && Lone(c, TimedRun(c, t, steps), u, d, due) && !d.Delivered?
    requires TimedRun(c, t, steps).now <= due
    ensures TimedRun(c, t, more) == TimedRun(c, t, steps).(now := due)
  {
    more := Continue(c, t, steps, Pass(due - TimedRun(c, t, steps).now));
  }

  lemma MoveAlone(c: Config, t: Times, steps: seq<TimedStep>, u: SubId, d: Delivery, e: Step)
    returns (more: seq<TimedStep>)
    requires u in c.subs && Lone(c, TimedRun(c, t, steps), u, d, TimedRun(c, t, steps).now)
    requires (e.Admit? && d.Spawned?) || (e.Return? && d.InHandler?) || (e.Invoke? && d.Ready?)
    requires e.sub == u && e.i == 0
    ensures var x, x' := TimedRun(c, t, steps), TimedRun(c, t, more);
            && x'.now == x.now && (e.Return? ==> x'.moved == x.now)
            && Lone(c, x', u, Moved(c, u, d, e), Deadline(t, x.now, Moved(c, u, d, e)))
  {
    more := Move(c, t, steps, u, d, TimedRun(c, t, steps).now, e);
  }

  /** The handler is called and takes its time. */
  lemma CallSlowly(c: Config, t: Times, steps: seq<TimedStep>, u: SubId, d: Delivery) returns (more: seq<TimedStep>)
    requires u in c.subs && Lone(c, TimedRun(c, t, steps), u, d, TimedRun(c, t, steps).now) && d.Ready?
    ensures var x, x' := TimedRun(c, t, steps), TimedRun(c, t, more);
            && x'.now == x.now + t.handler && Lone(c, x', u, InHandler(d.attempt, d.viaBreaker), x'.now)
  {
    more := MoveAlone(c, t, steps, u, d, Invoke(u, 0));
    more := WaitForIt(c, t, more, u, InHandler(d.attempt, d.viaBreaker), TimedRun(c, t, more).now + t.handler);
  }

  /** A round of failing attempts, up to the moment before attempt a. */
  lemma {:induction false} Round(c: Config, t: Times, steps: seq<TimedStep>, u: SubId, d: Delivery, a: nat)
    returns (more: seq<TimedStep>, d': Delivery)
    requires u in c.subs && d.Ready? && d.attempt == 0 && a <= c.subs[u].maxRetries
    requires Lone(c, TimedRun(c, t, steps), u, d, TimedRun(c, t, steps).now + t.lag)
    ensures var x, x' := TimedRun(c, t, steps), TimedRun(c, t, more);
            && d' == Ready(a, d.viaBreaker, d.invoked || a > 0) && Lone(c, x', u, d', x'.now)
            && x'.now + t.handler + Attempts(t, c.subs[u].maxRetries, a + 1)
               == x.now + Attempts(t, c.subs[u].maxRetries, 0)
  {
    if a == 0 {
      d' := d;
      more := WaitForIt(c, t, steps, u, d, TimedRun(c, t, steps).now + t.lag);
    } else {
      more, d' := Round(c, t, steps, u, d, a - 1);
      more := CallSlowly(c, t, more, u, d');
      more, d' := FailSlowly(c, t, more, u, InHandler(a - 1, d.viaBreaker));
    }
  }

  /** The call fails, and the next attempt is put off as long as can be. */
  lemma FailSlowly(c: Config, t: Times, steps: seq<TimedStep>, u: SubId, d: Delivery)
    returns (more: seq<TimedStep>, d': Delivery)
    requires u in c.subs && Lone(c, TimedRun(c, t, steps), u, d, TimedRun(c, t, steps).now)
    requires d.InHandler? && d.attempt < c.subs[u].maxRetries
    ensures var x, x' := TimedRun(c, t, steps), TimedRun(c, t, more);
            && d' == Ready(d.attempt + 1, d.viaBreaker, true) && Lone(c, x', u, d', x'.now)
            && x'.now == x.now + Pause(t, d.attempt + 1)
  {
    more := MoveAlone(c, t, steps, u, d, Return(u, 0, Fails));
    d' := Ready(d.attempt + 1, d.viaBreaker, true);
    more := WaitForIt(c, t, more, u, d', TimedRun(c, t, more).now + Pause(t, d.attempt + 1));
  }

  /** A round inside the breaker ends with its own error, and so there is another; up to the last call. */
  lemma SlowestDelivery(c: Config, t: Times, u: SubId) returns (steps: seq<TimedStep>)
    requires u in c.subs && CanWant(c.subs[u]) && c.capacity > 0
    ensures var x := TimedRun(c, t, steps);
            && x.now == LastCall(t, c.subs[u].maxRetries)
            && Lone(c, x, u, Ready(c.subs[u].maxRetries, false, true), x.now)
  {
    var retries := c.subs[u].maxRetries;
    var d;
    steps := OneLeft(c, t, u);
    steps := WaitForIt(c, t, steps, u, Spawned, t.lag);
    steps := MoveAlone(c, t, steps, u, Spawned, Admit(u, 0, true));
    steps, d := Round(c, t, steps, u, Ready(0, true, false), retries);
    steps := CallSlowly(c, t, steps, u, d);
    steps := MoveAlone(c, t, steps, u, InHandler(retries, true), Return(u, 0, SaysOpen));
    steps, d := Round(c, t, steps, u, Ready(0, false, true), retries);
    AttemptsTwice(t, retries);
  }

  /** If the wait is over by then, the second message reaches u before the last call about the first one does. */
  lemma Overtaken(c: Config, t: Times, u: SubId) returns (steps: seq<TimedStep>)
    requires u in c.subs && CanWant(c.subs[u]) && c.capacity > 0 && c.timeouts
    requires t.timeout <= LastCall(t, c.subs[u].maxRetries)
    ensures var s := TimedRun(c, t, steps).s;
            |s.taken| == 2 && s.processor.FanningOut? && EndsWith(LogOf(s, u), 0, 1, 0)
  {
    steps := SlowestDelivery(c, t, u);
    var log := LogOf(TimedRun(c, t, steps).s, u);
    steps := TakeSecond(c, t, steps, u);
    steps := CallSecond(c, t, steps, u, Ready(c.subs[u].maxRetries, false, true));
    steps := Continue(c, t, steps, Do(Invoke(u, 0)));
    assert LogOf(TimedRun(c, t, steps).s, u) == log + [1] + [0];
  }

  predicate EndsWith(log: seq<nat>, i: nat, j: nat, k: nat) {
    |log| >= 3 && log[|log| - 3] == i && log[|log| - 2] == j && log[|log| - 1] == k
  }

  /** The processor gives up waiting and spawns u's delivery of the second message. */
  lemma TakeSecond(c: Config, t: Times, steps: seq<TimedStep>, u: SubId) returns (more: seq<TimedStep>)
    requires u in c.subs && CanWant(c.subs[u]) && c.timeouts && t.timeout <= TimedRun(c, t, steps).now
    requires Lone(c, TimedRun(c, t, steps), u, Ready(c.subs[u].maxRetries, false, true), TimedRun(c, t, steps).now)
    ensures var x, x' := TimedRun(c, t, steps), TimedRun(c, t, more);
            && x'.now == x.now && x'.s.logs == x.s.logs && TwoAtOnce(x', u, Ready(c.subs[u].maxRetries, false, true))
            && x'.s.deliveries[(u, 1)] == Spawned
  {
    more := Continue(c, t, steps, Do(TimeOut));
    more := TakeAnother(c, t, more, u, Ready(c.subs[u].maxRetries, false, true));
    more := Continue(c, t, more, Do(Spawn(u)));
  }

  lemma TakeAnother(c: Config, t: Times, steps: seq<TimedStep>, u: SubId, d: Delivery) returns (more: seq<TimedStep>)
    requires u in c.subs && Setting(c, TimedRun(c, t, steps), u) && TimedRun(c, t, steps).s.processor.Idle?
    requires Has(TimedRun(c, t, steps), u, d, TimedRun(c, t, steps).now)
    ensures var x, x' := TimedRun(c, t, steps), TimedRun(c, t, more);
            && x'.now == x.now && x'.s.logs == x.s.logs && |x'.s.taken| == |x'.s.retryCounts| == 2
            && x'.s.taken[1] == Message(2, c.subs[u].filter.headers, 0) && x'.s.retryCounts[1] == 0
            && x'.s.processor == FanningOut(c.subs.Keys) && Has(x', u, d, x.now)
  {
    more := Continue(c, t, steps, Do(Take));
  }

  /** The first message is still with u, at d, and the second has come. */
  ghost predicate TwoAtOnce(x: Timed, u: SubId, d: Delivery) {
    && |x.s.taken| == |x.s.retryCounts| == 2 && x.s.processor.FanningOut? && Has(x, u, d, x.now)
    && (u, 1) in x.s.deliveries
  }

  lemma CallSecond(c: Config, t: Times, steps: seq<TimedStep>, u: SubId, d: Delivery) returns (more: seq<TimedStep>)
    requires TwoAtOnce(TimedRun(c, t, steps), u, d) && TimedRun(c, t, steps).s.deliveries[(u, 1)] == Spawned
    ensures var x, x' := TimedRun(c, t, steps), TimedRun(c, t, more);
            && x'.now == x.now && TwoAtOnce(x', u, d) && LogOf(x'.s, u) == LogOf(x.s, u) + [1]
  {
    more := Continue(c, t, steps, Do(Admit(u, 1, true)));
    more := Continue(c, t, more, Do(Invoke(u, 1)));
  }

  lemma CollapsedEnd(log: seq<nat>)
    requires EndsWith(log, 0, 1, 0)
    ensures |Collapsed(log)| >= 2
    ensures Collapsed(log)[|Collapsed(log)| - 2] == 1 && Collapsed(log)[|Collapsed(log)| - 1] == 0
  {
    var shorter := log[..|log| - 1];
    var first := shorter[..|shorter| - 1];
    assert log == shorter + [0] && shorter == first + [1];
    CollapsedAppend(shorter, 0);
    CollapsedAppend(first, 1);
  }

  /** Such a log is in no order. */
  lemma OvertakenIsDisorder(c: Config, s: State, u: SubId)
    requires u in c.subs && |s.taken| == 2 && s.processor.FanningOut? && EndsWith(LogOf(s, u), 0, 1, 0)
    ensures !InOrder(c, s, u)
  {
    CollapsedEnd(LogOf(s, u));
    var seen, settled := Collapsed(LogOf(s, u)), Wanted(c.subs[u], s.taken[..1]);
    WantedExactly(c.subs[u], s.taken[..1]);
    assert seen != settled;
    assert seen != settled + [1];
  }

  /** In the timed system, a subscription that no other can spoil is kept in order in every run if and only if it can
      get nothing, or OperationTimeout is longer than its own handler calls can go on for.  How slow other
      subscriptions are does not matter. */
  lemma TimedOrderExactly(c: Config, t: Times, u: SubId)
    requires u in c.subs && c.timeouts && !Spoilt(c, u)
    ensures (forall steps :: InOrder(c, TimedRun(c, t, steps).s, u))
            <==> Idling(c, u) || t.timeout > LastCall(t, c.subs[u].maxRetries)
  {
    if Idling(c, u) {
      forall steps ensures InOrder(c, TimedRun(c, t, steps).s, u) {
        SameState(c, t, steps);
        RunNothing(c, u, Untimed(c, t, steps));
      }
    } else if t.timeout > LastCall(t, c.subs[u].maxRetries) {
      forall steps ensures InOrder(c, TimedRun(c, t, steps).s, u) {
        SameState(c, t, steps);
        InTimeIsPatient(c, t, steps, u);
        DeliveryOrder(c, Untimed(c, t, steps), u);
      }
    } else {
      var steps := Overtaken(c, t, u);
      OvertakenIsDisorder(c, TimedRun(c, t, steps).s, u);
    }
  }

  // ---- when the wait can time out at all --------------------------------------------------------

  /** OperationTimeout is longer than the processor can have to wait. */
  predicate LongEnough(c: Config, t: Times) {
    t.timeout > t.lag && forall v :: v in c.subs && CanWant(c.subs[v]) ==> t.timeout > Heard(t, c.subs[v].maxRetries)
  }

  /** The processor hears in time of what moved last. */
  ghost predicate Hearing(c: Config, t: Times, x: Timed) {
    && (x.s.processor.Idle? || x.s.taken != [])
    && (x.s.processor.Waiting? ==>
          && x.moved + t.lag < x.since + t.timeout
          && (AllDelivered(x.s, |x.s.taken| - 1) ==> x.now <= x.moved + t.lag))
  }

  /** A pending delivery of the current message is not late. */
  lemma PendingInTime(c: Config, t: Times, x: Timed, v: SubId)
    requires v in c.subs && OnSchedule(c, t, x, v) && LongEnough(c, t) && ProperInv(c, x.s) && x.s.processor.Waiting?
    requires x.s.taken != [] && (v, |x.s.taken| - 1) in x.s.deliveries
             && !x.s.deliveries[(v, |x.s.taken| - 1)].Delivered?
    ensures x.now + t.lag < x.since + t.timeout
  {
    assert Proper(c, x.s, v, |x.s.taken| - 1);
    AttemptsTwice(t, c.subs[v].maxRetries);
  }

  lemma ReturnHearing(c: Config, t: Times, x: Timed, e: Step)
    requires Hearing(c, t, x) && LongEnough(c, t) && ProperInv(c, x.s) && e.Return? && InTime(c, t, x, e)
    requires forall v :: v in c.subs ==> OnSchedule(c, t, x, v)
    ensures Hearing(c, t, TimedNext(c, t, x, Do(e)))
  {
    var x' := TimedNext(c, t, x, Do(e));
    if x.s.processor.Waiting? {
      if e.i == |x.s.taken| - 1 {
        PendingInTime(c, t, x, e.sub);
      } else {
        assert forall key :: key in x.s.deliveries && key.1 == |x.s.taken| - 1 ==>
                             x'.s.deliveries[key] == x.s.deliveries[key];
      }
    }
  }

  lemma NextHearing(c: Config, t: Times, x: Timed, te: TimedStep)
    requires Hearing(c, t, x) && LongEnough(c, t) && ProperInv(c, x.s)
    requires forall v :: v in c.subs ==> OnSchedule(c, t, x, v)
    ensures Hearing(c, t, TimedNext(c, t, x, te))
  {
    if te.Do? && InTime(c, t, x, te.e) {
      if te.e.Return? {
        ReturnHearing(c, t, x, te.e);
      } else if te.e.Admit? || te.e.Invoke? {
        MoveHearing(c, t, x, te.e);
      }
    }
  }

  lemma MoveHearing(c: Config, t: Times, x: Timed, e: Step)
    requires Hearing(c, t, x) && (e.Admit? || e.Invoke?) && InTime(c, t, x, e)
    ensures Hearing(c, t, TimedNext(c, t, x, Do(e)))
  {
    var x' := TimedNext(c, t, x, Do(e));
    assert x'.s.taken == x.s.taken && x'.s.processor == x.s.processor;
    assert !x'.s.deliveries[(e.sub, e.i)].Delivered? && x'.s.deliveries.Keys == x.s.deliveries.Keys;
    assert forall key :: key in x.s.deliveries && key != (e.sub, e.i) ==>
                         x'.s.deliveries[key] == x.s.deliveries[key];
    if x.s.processor.Waiting? && AllDelivered(x'.s, |x.s.taken| - 1) {
      assert AllDelivered(x.s, |x.s.taken| - 1);
    }
  }

  lemma {:induction false} RunHearing(c: Config, t: Times, steps: seq<TimedStep>)
    requires LongEnough(c, t)
    ensures Hearing(c, t, TimedRun(c, t, steps))
  {
    if steps != [] {
      var before := steps[..|steps| - 1];
      RunHearing(c, t, before);
      forall v | v in c.subs ensures OnSchedule(c, t, TimedRun(c, t, before), v) {
        RunOnSchedule(c, t, before, v);
      }
      SameState(c, t, before);
      RunProper(c, Untimed(c, t, before));
      NextHearing(c, t, TimedRun(c, t, before), steps[|steps| - 1]);
    }
  }

  lemma NeverTimesOut(c: Config, t: Times, steps: seq<TimedStep>)
    requires LongEnough(c, t)
    ensures !InTime(c, t, TimedRun(c, t, steps), TimeOut)
  {
    var x := TimedRun(c, t, steps);
    RunHearing(c, t, steps);
    if x.s.processor.Waiting? && !AllDelivered(x.s, |x.s.taken| - 1) {
      var key :| key in x.s.deliveries && key.1 == |x.s.taken| - 1 && !x.s.deliveries[key].Delivered?;
      SameState(c, t, steps);
      RunProper(c, Untimed(c, t, steps));
      assert Proper(c, x.s, key.0, key.1);
      RunOnSchedule(c, t, steps, key.0);
      PendingInTime(c, t, x, key.0);
    }
  }

  ghost predicate Taken(s: State) {
    s.accepted == s.taken + s.queue && (s.processor.Idle? || s.taken != [])
  }

  lemma NextTaken(c: Config, s: State, e: Step)
    requires Taken(s) && Allowed(c, s, e)
    ensures Taken(Next(c, s, e))
  {
    if e.Take? {
      assert s.queue == [s.queue[0]] + s.queue[1..];
    }
  }

  lemma {:induction false} RunTaken(c: Config, steps: seq<Step>)
    ensures Taken(Run(c, START, steps))
  {
    if steps != [] {
      RunTaken(c, steps[..|steps| - 1]);
      if Allowed(c, Run(c, START, steps[..|steps| - 1]), steps[|steps| - 1]) {
        NextTaken(c, Run(c, START, steps[..|steps| - 1]), steps[|steps| - 1]);
      }
    }
  }

  /** The slowest delivery of all has failed. */
  lemma SlowestReturn(c: Config, t: Times, v: SubId) returns (steps: seq<TimedStep>)
    requires v in c.subs && CanWant(c.subs[v]) && c.capacity > 0
    ensures var x := TimedRun(c, t, steps);
            && x.now == x.moved == LastCall(t, c.subs[v].maxRetries) + t.handler
            && Lone(c, x, v, Delivered(false), x.now)
  {
    var retries := c.subs[v].maxRetries;
    steps := SlowestDelivery(c, t, v);
    steps := CallSlowly(c, t, steps, v, Ready(retries, false, true));
    steps := MoveAlone(c, t, steps, v, InHandler(retries, false), Return(v, 0, Fails));
  }

  /** It is heard of too late. */
  lemma SlowDelivery(c: Config, t: Times, v: SubId) returns (steps: seq<TimedStep>)
    requires v in c.subs && CanWant(c.subs[v]) && c.capacity > 0 && c.timeouts
    requires t.timeout <= Heard(t, c.subs[v].maxRetries)
    ensures InTime(c, t, TimedRun(c, t, steps), TimeOut)
  {
    steps := SlowestReturn(c, t, v);
    steps := Continue(c, t, steps, Pass(t.lag));
  }

  /** The wait begins with nothing to wait for. */
  ghost predicate Deserted(x: Timed) {
    && x.s.processor.Waiting? && x.s.taken != [] && x.s.deliveries == map[]
    && x.now == x.moved == x.since
  }

  lemma NobodyWants(c: Config, t: Times, v: SubId) returns (steps: seq<TimedStep>)
    requires c.capacity > 0 && v in c.subs && forall u :: u in c.subs ==> !CanWant(c.subs[u])
    ensures Deserted(TimedRun(c, t, steps))
  {
    steps := Begin(c, t, v);
    RunOnSchedule(c, t, steps, v);
    var x := TimedRun(c, t, steps);
    OnlyWanted(c, x.s);
    assert x.s.deliveries.Keys == {};
  }

  lemma OnlyWanted(c: Config, s: State)
    requires ProperInv(c, s)
    ensures forall key :: key in s.deliveries ==> key.0 in c.subs && CanWant(c.subs[key.0])
  {
    forall key | key in s.deliveries ensures key.0 in c.subs && CanWant(c.subs[key.0]) {
      assert Proper(c, s, key.0, key.1);
    }
  }

  lemma NobodyThere(c: Config, t: Times) returns (steps: seq<TimedStep>)
    requires c.capacity > 0 && c.subs == map[]
    ensures Deserted(TimedRun(c, t, steps))
  {
    steps := Continue(c, t, [], Do(Stamp(0, map[])));
    steps := Continue(c, t, steps, Do(Enqueue(0)));
    steps := Continue(c, t, steps, Do(Take));
    steps := Continue(c, t, steps, Do(EndFanOut));
  }

  /** Nobody gets the message, and the processor is slow itself. */
  lemma SlowProcessor(c: Config, t: Times) returns (steps: seq<TimedStep>)
    requires c.capacity > 0 && c.timeouts && t.timeout <= t.lag && forall v :: v in c.subs ==> !CanWant(c.subs[v])
    ensures InTime(c, t, TimedRun(c, t, steps), TimeOut)
  {
    if v :| v in c.subs {
      steps := NobodyWants(c, t, v);
    } else {
      steps := NobodyThere(c, t);
    }
    steps := Continue(c, t, steps, Pass(t.lag));
  }

  /** In this run the processor ends up free to go on without its deliveries. */
  ghost predicate TimesOut(c: Config, t: Times, steps: seq<TimedStep>) {
    InTime(c, t, TimedRun(c, t, steps), TimeOut)
  }

  /** That some run does, holds if and only if messages can be queued at all and OperationTimeout is not longer than the
      wait for the slowest delivery there can be. */
  lemma TimesOutExactly(c: Config, t: Times)
    requires c.timeouts
    ensures (exists steps :: TimesOut(c, t, steps)) <==> c.capacity > 0 && !LongEnough(c, t)
  {
    if LongEnough(c, t) {
      forall steps ensures !TimesOut(c, t, steps) {
        NeverTimesOut(c, t, steps);
      }
    } else if c.capacity == 0 {
      forall steps ensures !TimesOut(c, t, steps) {
        SameState(c, t, steps);
        NoRoom(c, Untimed(c, t, steps));
        RunTaken(c, Untimed(c, t, steps));
      }
    } else {
      var steps;
      if v :| v in c.subs && CanWant(c.subs[v]) && t.timeout <= Heard(t, c.subs[v].maxRetries) {
        steps := SlowDelivery(c, t, v);
      } else {
        steps := SlowProcessor(c, t);
      }
      assert TimesOut(c, t, steps);
    }
  }
}
