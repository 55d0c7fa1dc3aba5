/**
  One topic of pubsub.go: publishers stamp messages and queue them, one processor takes them off the queue and fans
  each out to the subscriptions, whose deliveries run concurrently.  `Run` skips steps that cannot happen.
  Nothing is closed meanwhile, and the set of subscriptions does not change.
 */
module Delivery {

  type SubId = string

  datatype Filter = Filter(headers: map<string, string>, priority: int, maxRetryCount: int)

  /** publishMessage never sets the priority, so it is always 0. */
  datatype Message = Message(sequence: nat, headers: map<string, string>, priority: int)

  datatype Subscription = Subscription(filter: Filter, open: bool, maxRetries: nat)

  /** `timeouts`: may deliverMessageToSubscribers stop waiting for its deliveries after OperationTimeout?
      `DeliveryTimes` says when it can come to that. */
  datatype Config = Config(subs: map<SubId, Subscription>, capacity: nat, timeouts: bool)

  predicate HeadersMatch(f: Filter, m: Message) {
    forall key :: key in f.headers ==> key in m.headers && m.headers[key] == f.headers[key]
  }

  /** matchesFilter. */
  predicate Matches(f: Filter, m: Message, retryCount: int) {
    && HeadersMatch(f, m)
    && !(f.priority > 0 && m.priority < f.priority)
    && !(f.maxRetryCount > 0 && retryCount >= f.maxRetryCount)
  }

  datatype Processor = Idle | FanningOut(todo: set<SubId>) | Waiting

  /** One goroutine of deliverMessageToSubscriber.  `viaBreaker`: it runs inside the circuit breaker;
      `invoked`: the handler has been called. */
  datatype Delivery =
    | Spawned
    | Ready(attempt: nat, viaBreaker: bool, invoked: bool)
    | InHandler(attempt: nat, viaBreaker: bool)
    | Delivered(ok: bool)

  /** How a handler call ends; SaysOpen is an error that is ErrCircuitBreakerOpen. */
  datatype Result = Fine | Fails | TimesOut | SaysOpen

  /** `accepted` are all messages ever queued, `taken` those the processor took, with their RetryCount fields in
      `retryCounts`; a log entry is a handler call, for the message at that index of `taken`. */
  datatype State = State(sequence: nat, inHand: map<nat, Message>, accepted: seq<Message>, queue: seq<Message>,
                         taken: seq<Message>, retryCounts: seq<nat>, processor: Processor,
                         deliveries: map<(SubId, nat), Delivery>, logs: map<SubId, seq<nat>>)

  const START := State(0, map[], [], [], [], [], Idle, map[], map[])

  datatype Step =
    | Stamp(publisher: nat, headers: map<string, string>)
    | Enqueue(publisher: nat)
    | Abandon(publisher: nat)                        // its context ended before the message was queued
    | Take
    | Spawn(sub: SubId)
    | EndFanOut
    | Admit(sub: SubId, i: nat, admitted: bool)      // the breaker may let the delivery in or not
    | Invoke(sub: SubId, i: nat)
    | Return(sub: SubId, i: nat, result: Result)
    | Finish
    | TimeOut

  function LogOf(s: State, sub: SubId): seq<nat> {
    if sub in s.logs then s.logs[sub] else []
  }

  predicate AllDelivered(s: State, i: nat) {
    forall key | key in s.deliveries && key.1 == i :: s.deliveries[key].Delivered?
  }

  predicate Allowed(c: Config, s: State, e: Step) {
    match e
    case Stamp(p, _) => p !in s.inHand
    case Enqueue(p) => p in s.inHand
    case Abandon(p) => p in s.inHand
    case Take => s.processor.Idle? && s.queue != []
    case Spawn(sub) =>
      s.processor.FanningOut? && sub in s.processor.todo && sub in c.subs && 0 < |s.taken| == |s.retryCounts|
    case EndFanOut => s.processor.FanningOut? && s.processor.todo == {}
    case Admit(sub, i, _) => (sub, i) in s.deliveries && s.deliveries[(sub, i)].Spawned?
    case Invoke(sub, i) => (sub, i) in s.deliveries && s.deliveries[(sub, i)].Ready? && i < |s.retryCounts|
    case Return(sub, i, _) => (sub, i) in s.deliveries && s.deliveries[(sub, i)].InHandler? && sub in c.subs
    case Finish => s.processor.Waiting? && s.taken != [] && AllDelivered(s, |s.taken| - 1)
    case TimeOut => s.processor.Waiting? && c.timeouts
  }

  /** deliverWithRetry after a handler call, and the second, direct try when the error is the breaker's own. */
  function AfterReturn(maxRetries: nat, d: Delivery, result: Result): Delivery
    requires d.InHandler?
  {
    match result
    case Fine => Delivered(true)
    case TimesOut => Delivered(false)
    case Fails => if d.attempt < maxRetries then Ready(d.attempt + 1, d.viaBreaker, true) else Delivered(false)
    case SaysOpen =>
      if d.attempt < maxRetries then Ready(d.attempt + 1, d.viaBreaker, true)
      else if d.viaBreaker then Ready(0, false, true)
      else Delivered(false)
  }

  function Next(c: Config, s: State, e: Step): State {
    if !Allowed(c, s, e) then s
    else match e
      case Stamp(p, headers) =>
        s.(sequence := s.sequence + 1, inHand := s.inHand[p := Message(s.sequence + 1, headers, 0)])
      case Enqueue(p) =>
        if |s.queue| < c.capacity
        then s.(inHand := s.inHand - {p}, accepted := s.accepted + [s.inHand[p]], queue := s.queue + [s.inHand[p]])
        else s.(inHand := s.inHand - {p})
      case Abandon(p) => s.(inHand := s.inHand - {p})
      case Take =>
        s.(taken := s.taken + [s.queue[0]], retryCounts := s.retryCounts + [0], queue := s.queue[1..],
           processor := FanningOut(c.subs.Keys))
      case Spawn(sub) =>
        var i := |s.taken| - 1;
        var s' := s.(processor := FanningOut(s.processor.todo - {sub}));
        if c.subs[sub].open && Matches(c.subs[sub].filter, s.taken[i], s.retryCounts[i])
        then s'.(deliveries := s.deliveries[(sub, i) := Spawned]) else s'
      case EndFanOut => s.(processor := Waiting)
      case Admit(sub, i, admitted) => s.(deliveries := s.deliveries[(sub, i) := Ready(0, admitted, false)])
      case Invoke(sub, i) =>
        var d := s.deliveries[(sub, i)];
        s.(deliveries := s.deliveries[(sub, i) := InHandler(d.attempt, d.viaBreaker)],
           retryCounts := s.retryCounts[i := d.attempt], logs := s.logs[sub := LogOf(s, sub) + [i]])
      case Return(sub, i, result) =>
        s.(deliveries := s.deliveries[(sub, i) := AfterReturn(c.subs[sub].maxRetries, s.deliveries[(sub, i)], result)])
      case Finish => s.(processor := Idle)
      case TimeOut => s.(processor := Idle)
  }

  function Run(c: Config, s: State, steps: seq<Step>): State {
    if steps == [] then s else Next(c, Run(c, s, steps[..|steps| - 1]), steps[|steps| - 1])
  }

  // ---- the order a subscription sees ------------------------------------------------------------

  /** A log with consecutive calls for the same message counted once. */
  function Collapsed(log: seq<nat>): seq<nat> {
    if |log| <= 1 then log
    else if log[|log| - 1] == log[|log| - 2] then Collapsed(log[..|log| - 1])
    else Collapsed(log[..|log| - 1]) + [log[|log| - 1]]
  }

  predicate Wants(sub: Subscription, m: Message) {
    sub.open && Matches(sub.filter, m, 0)
  }

  /** The queue order, filtered. */
  function Wanted(sub: Subscription, messages: seq<Message>): (order: seq<nat>)
    ensures forall k :: 0 <= k < |order| ==> order[k] < |messages|
  {
    if messages == [] then []
    else
      var n := |messages| - 1;
      Wanted(sub, messages[..n]) + if Wants(sub, messages[n]) then [n] else []
  }

  predicate Invoked(d: Delivery) {
    match d
    case Spawned => false
    case Ready(_, _, invoked) => invoked
    case _ => true
  }

  lemma {:induction false} CollapsedLast(log: seq<nat>)
    requires log != []
    ensures Collapsed(log) != [] && Collapsed(log)[|Collapsed(log)| - 1] == log[|log| - 1]
  {
    if |log| > 1 && log[|log| - 1] == log[|log| - 2] {
      CollapsedLast(log[..|log| - 1]);
    }
  }

  lemma CollapsedAppend(log: seq<nat>, i: nat)
    requires log != []
    ensures Collapsed(log + [i]) == if log[|log| - 1] == i then Collapsed(log) else Collapsed(log) + [i]
  {
    var longer := log + [i];
    assert longer[..|longer| - 1] == log && longer[|longer| - 2] == log[|log| - 1];
  }

  /** The processor's place: how many messages are completely delivered. */
  function Settled(s: State): nat {
    if s.processor.Idle? || s.taken == [] then |s.taken| else |s.taken| - 1
  }

  /** Subscription u at message j: it has a delivery exactly if it wants the message. */
  ghost predicate Served(c: Config, s: State, u: SubId, j: nat)
    requires u in c.subs && j < |s.taken|
  {
    (u, j) in s.deliveries <==> Wants(c.subs[u], s.taken[j])
  }

  /** The delivery will not call the handler again. */
  predicate Spent(sub: Subscription, d: Delivery) {
    d.Delivered? || (d.InHandler? && d.attempt >= sub.maxRetries && !d.viaBreaker)
  }

  ghost predicate Inv(c: Config, s: State, u: SubId)
    requires u in c.subs
  {
    var n := Settled(s);
    var current := if n < |s.taken| && (u, n) in s.deliveries && Invoked(s.deliveries[(u, n)]) then [n] else [];
    && |s.retryCounts| == |s.taken| && (s.taken == [] ==> s.processor.Idle?)
    && s.accepted == s.taken + s.queue
    && (forall j :: (u, j) in s.deliveries ==> j < |s.taken|)
    && (forall j :: 0 <= j < n ==>
          Served(c, s, u, j) && ((u, j) in s.deliveries ==> Spent(c.subs[u], s.deliveries[(u, j)])))
    && (n < |s.taken| ==>
          if s.processor.FanningOut? && u in s.processor.todo then (u, n) !in s.deliveries else Served(c, s, u, n))
    && Collapsed(LogOf(s, u)) == Wanted(c.subs[u], s.taken[..n]) + current
  }

  /** Calling the handler once more for message n either starts n's entry or repeats it. */
  lemma LogStep(sub: Subscription, messages: seq<Message>, log: seq<nat>, n: nat, again: bool)
    requires Collapsed(log) == Wanted(sub, messages) + (if again then [n] else []) && n == |messages|
    ensures Collapsed(log + [n]) == Wanted(sub, messages) + [n]
  {
    if log == [] {
      assert log + [n] == [n];
    } else {
      CollapsedLast(log);
      CollapsedAppend(log, n);
    }
  }

  lemma InvokeInv(c: Config, s: State, u: SubId, e: Step)
    requires u in c.subs && Inv(c, s, u) && e.Invoke? && Allowed(c, s, e)
    ensures Inv(c, Next(c, s, e), u)
  {
    var n := Settled(s);
    if e.sub == u {
      assert e.i == n < |s.taken|;
      LogStep(c.subs[u], s.taken[..n], LogOf(s, u), n, Invoked(s.deliveries[(u, n)]));
    }
  }

  /** Inv is about u's own deliveries only. */
  lemma Unaffected(c: Config, s: State, s': State, u: SubId)
    requires u in c.subs && Inv(c, s, u)
    requires s' == s.(processor := s'.processor, deliveries := s'.deliveries)
    requires s.processor.FanningOut? && s'.processor.FanningOut? && (u in s'.processor.todo <==> u in s.processor.todo)
    requires forall j :: (u, j) in s'.deliveries <==> (u, j) in s.deliveries
    requires forall j :: (u, j) in s.deliveries ==> s'.deliveries[(u, j)] == s.deliveries[(u, j)]
    ensures Inv(c, s', u)
  {
    forall j | 0 <= j < |s.taken| && Served(c, s, u, j) ensures Served(c, s', u, j) {
      assert (u, j) in s'.deliveries <==> (u, j) in s.deliveries;
    }
  }

  lemma SpawnOther(c: Config, s: State, u: SubId, e: Step)
    requires u in c.subs && Inv(c, s, u) && e.Spawn? && e.sub != u && Allowed(c, s, e)
    ensures Inv(c, Next(c, s, e), u)
  {
    Unaffected(c, s, Next(c, s, e), u);
  }

  // ---- which deliveries there are, and what they do to the retry counts -------------------------

  /** The subscription can want a message at all: publishMessage never sets a priority. */
  predicate CanWant(sub: Subscription) {
    sub.open && sub.filter.priority <= 0
  }

  /** Some message passes both subscriptions' header filters. */
  predicate Overlap(f: Filter, g: Filter) {
    forall key :: key in f.headers && key in g.headers ==> f.headers[key] == g.headers[key]
  }

  /** Another subscription can drive the shared RetryCount of a message up to u's limit before u's filter is asked. */
  ghost predicate Spoilt(c: Config, u: SubId)
    requires u in c.subs
  {
    && c.subs[u].filter.maxRetryCount > 0
    && exists v :: v in c.subs && v != u && Spoils(c.subs[v], c.subs[u])
  }

  predicate Spoils(other: Subscription, sub: Subscription) {
    CanWant(other) && Overlap(other.filter, sub.filter) && other.maxRetries >= sub.filter.maxRetryCount
  }

  predicate Attempting(d: Delivery, maxRetries: nat) {
    match d
    case Ready(attempt, _, _) => attempt <= maxRetries
    case InHandler(attempt, _) => attempt <= maxRetries
    case _ => true
  }

  ghost predicate Plain(messages: seq<Message>) {
    forall k :: 0 <= k < |messages| ==> messages[k].priority == 0
  }

  ghost predicate MessagesInv(s: State) {
    && Plain(s.taken) && Plain(s.queue) && |s.retryCounts| == |s.taken|
    && forall p :: p in s.inHand ==> s.inHand[p].priority == 0
  }

  ghost predicate Proper(c: Config, s: State, v: SubId, i: nat)
    requires (v, i) in s.deliveries
  {
    && v in c.subs && i < |s.taken| && CanWant(c.subs[v]) && HeadersMatch(c.subs[v].filter, s.taken[i])
    && Attempting(s.deliveries[(v, i)], c.subs[v].maxRetries)
  }

  ghost predicate ProperInv(c: Config, s: State) {
    forall v, i :: (v, i) in s.deliveries ==> Proper(c, s, v, i)
  }

  /** A message's retry count is an attempt of one of its deliveries. */
  ghost predicate Caused(c: Config, s: State, i: nat)
    requires i < |s.retryCounts|
  {
    s.retryCounts[i] == 0
    || exists v :: (v, i) in s.deliveries && v in c.subs && s.retryCounts[i] <= c.subs[v].maxRetries
  }

  ghost predicate CausedInv(c: Config, s: State) {
    forall i :: 0 <= i < |s.retryCounts| ==> Caused(c, s, i)
  }

  lemma NextMessages(c: Config, s: State, e: Step)
    requires MessagesInv(s)
    ensures MessagesInv(Next(c, s, e))
  {
  }

  lemma NextProper(c: Config, s: State, e: Step)
    requires MessagesInv(s) && ProperInv(c, s)
    ensures ProperInv(c, Next(c, s, e))
  {
    var s' := Next(c, s, e);
    forall v, i | (v, i) in s'.deliveries ensures Proper(c, s', v, i) {
      if (v, i) in s.deliveries {
        assert Proper(c, s, v, i);
      }
    }
  }

  lemma NextCaused(c: Config, s: State, e: Step)
    requires MessagesInv(s) && ProperInv(c, s) && CausedInv(c, s)
    ensures CausedInv(c, Next(c, s, e))
  {
    var s' := Next(c, s, e);
    if Allowed(c, s, e) && e.Invoke? {
      assert Proper(c, s, e.sub, e.i);
    }
    forall i | 0 <= i < |s'.retryCounts| ensures Caused(c, s', i) {
      if i < |s.retryCounts| && s'.retryCounts[i] == s.retryCounts[i] {
        assert Caused(c, s, i);
        if s.retryCounts[i] != 0 {
          var v :| (v, i) in s.deliveries && v in c.subs && s.retryCounts[i] <= c.subs[v].maxRetries;
          assert (v, i) in s'.deliveries;
        }
      }
    }
  }

  lemma {:induction false} RunProper(c: Config, steps: seq<Step>)
    ensures var s := Run(c, START, steps);
            MessagesInv(s) && ProperInv(c, s) && CausedInv(c, s)
  {
    if steps != [] {
      var s, e := Run(c, START, steps[..|steps| - 1]), steps[|steps| - 1];
      RunProper(c, steps[..|steps| - 1]);
      NextMessages(c, s, e);
      NextProper(c, s, e);
      NextCaused(c, s, e);
    }
  }

  /** Nobody having spoilt it, u's filter lets a message through exactly if it would with no retries yet. */
  lemma FilterUnspoilt(c: Config, s: State, u: SubId, i: nat)
    requires MessagesInv(s) && ProperInv(c, s) && CausedInv(c, s) && i < |s.taken|
    requires u in c.subs && !Spoilt(c, u) && (u, i) !in s.deliveries
    ensures c.subs[u].open ==>
              (Matches(c.subs[u].filter, s.taken[i], s.retryCounts[i]) <==> Matches(c.subs[u].filter, s.taken[i], 0))
  {
    assert Caused(c, s, i);
    if Matches(c.subs[u].filter, s.taken[i], 0) && s.retryCounts[i] != 0 && c.subs[u].filter.maxRetryCount > 0 {
      var v :| (v, i) in s.deliveries && v in c.subs && s.retryCounts[i] <= c.subs[v].maxRetries;
      assert Proper(c, s, v, i) && v != u;
      assert Overlap(c.subs[v].filter, c.subs[u].filter);
      assert !Spoils(c.subs[v], c.subs[u]);
    }
  }

  lemma SpawnOwn(c: Config, s: State, u: SubId, e: Step)
    requires u in c.subs && !Spoilt(c, u) && Inv(c, s, u)
    requires MessagesInv(s) && ProperInv(c, s) && CausedInv(c, s)
    requires e.Spawn? && e.sub == u && Allowed(c, s, e)
    ensures Inv(c, Next(c, s, e), u)
  {
    var n, s' := Settled(s), Next(c, s, e);
    assert Settled(s') == n == |s.taken| - 1;
    FilterUnspoilt(c, s, u, n);
    assert (u, n) in s'.deliveries <==> Wants(c.subs[u], s.taken[n]);
    assert Served(c, s', u, n) && ((u, n) in s'.deliveries ==> s'.deliveries[(u, n)].Spawned?);
    forall j | 0 <= j < n ensures Served(c, s', u, j)
        && ((u, j) in s'.deliveries ==> Spent(c.subs[u], s'.deliveries[(u, j)])) {
      assert Served(c, s, u, j) && (u, j) != (u, n);
    }
  }

  lemma TakeInv(c: Config, s: State, u: SubId)
    requires u in c.subs && Inv(c, s, u) && Allowed(c, s, Take)
    ensures Inv(c, Next(c, s, Take), u)
  {
    var s' := Next(c, s, Take);
    var n := |s.taken|;
    assert Settled(s) == n == Settled(s') && s'.taken[..n] == s.taken == s.taken[..n];
    forall j | 0 <= j < n ensures Served(c, s', u, j) {
      assert Served(c, s, u, j);
    }
    assert s.queue == [s.queue[0]] + s'.queue;
  }

  /** u's handler will not be called again for the current message. */
  predicate DoneWith(c: Config, s: State, u: SubId)
    requires u in c.subs
  {
    (u, |s.taken| - 1) in s.deliveries ==> Spent(c.subs[u], s.deliveries[(u, |s.taken| - 1)])
  }

  lemma FinishInv(c: Config, s: State, u: SubId)
    requires u in c.subs && Inv(c, s, u) && s.processor.Waiting? && DoneWith(c, s, u)
    ensures Inv(c, s.(processor := Idle), u)
  {
    var s', n := s.(processor := Idle), |s.taken| - 1;
    assert Settled(s) == n && Settled(s') == n + 1 && Served(c, s, u, n);
    assert s.taken[..n + 1] == s.taken && s.taken[..n + 1][..n] == s.taken[..n];
    forall j | 0 <= j < n + 1 ensures Served(c, s', u, j) {
      assert Served(c, s, u, j);
    }
  }

  /** Publishers move nothing but the queue. */
  lemma PublishInv(c: Config, s: State, u: SubId, e: Step)
    requires u in c.subs && Inv(c, s, u) && Allowed(c, s, e) && (e.Stamp? || e.Enqueue? || e.Abandon?)
    ensures Inv(c, Next(c, s, e), u)
  {
    var s', n := Next(c, s, e), Settled(s);
    assert Settled(s') == n;
    forall j | 0 <= j < |s.taken| && Served(c, s, u, j) ensures Served(c, s', u, j) {
    }
    assert e.Enqueue? && |s.queue| < c.capacity ==> s'.accepted == s.taken + (s.queue + [s.inHand[e.publisher]]);
  }

  /** A delivery changes its own record, but not whether its handler was called. */
  lemma DeliveryInv(c: Config, s: State, u: SubId, e: Step)
    requires u in c.subs && Inv(c, s, u) && Allowed(c, s, e) && (e.Admit? || e.Return?)
    ensures Inv(c, Next(c, s, e), u)
  {
    var s', n := Next(c, s, e), Settled(s);
    assert Settled(s') == n && s'.deliveries.Keys == s.deliveries.Keys;
    assert Invoked(s'.deliveries[(e.sub, e.i)]) == Invoked(s.deliveries[(e.sub, e.i)]);
    forall j | 0 <= j < |s.taken| && Served(c, s, u, j) ensures Served(c, s', u, j) {
      assert (u, j) in s'.deliveries.Keys <==> (u, j) in s.deliveries.Keys;
    }
    assert (u, n) in s'.deliveries.Keys <==> (u, n) in s.deliveries.Keys;
  }

  lemma NextInv(c: Config, s: State, e: Step, u: SubId)
    requires u in c.subs && !Spoilt(c, u) && Inv(c, s, u)
    requires MessagesInv(s) && ProperInv(c, s) && CausedInv(c, s) && Allowed(c, s, e)
    requires e.TimeOut? ==> DoneWith(c, s, u)
    ensures Inv(c, Next(c, s, e), u)
  {
    match e
    case Take => TakeInv(c, s, u);
    case Spawn(sub) =>
      if sub == u {
        SpawnOwn(c, s, u, e);
      } else {
        SpawnOther(c, s, u, e);
      }
    case Invoke(_, _) => InvokeInv(c, s, u, e);
    case Finish => FinishInv(c, s, u);
    case TimeOut => FinishInv(c, s, u);
    case Admit(_, _, _) => DeliveryInv(c, s, u, e);
    case Return(_, _, _) => DeliveryInv(c, s, u, e);
    case EndFanOut => EndInv(c, s, u);
    case _ => PublishInv(c, s, u, e);
  }

  lemma EndInv(c: Config, s: State, u: SubId)
    requires u in c.subs && Inv(c, s, u) && Allowed(c, s, EndFanOut)
    ensures Inv(c, Next(c, s, EndFanOut), u)
  {
    assert Settled(s) < |s.taken| ==> Served(c, s, u, Settled(s));
  }

  /** Whenever the processor stopped waiting for its deliveries, u's handler was not to be called again. */
  ghost predicate Patient(c: Config, steps: seq<Step>, u: SubId)
    requires u in c.subs
  {
    steps != [] ==>
      var before, e := steps[..|steps| - 1], steps[|steps| - 1];
      && Patient(c, before, u)
      && (e.TimeOut? && Allowed(c, Run(c, START, before), e) ==> DoneWith(c, Run(c, START, before), u))
  }

  lemma {:induction false} RunInv(c: Config, steps: seq<Step>, u: SubId)
    requires u in c.subs && !Spoilt(c, u) && (c.timeouts ==> Patient(c, steps, u))
    ensures Inv(c, Run(c, START, steps), u)
  {
    if steps != [] {
      var s, e := Run(c, START, steps[..|steps| - 1]), steps[|steps| - 1];
      RunInv(c, steps[..|steps| - 1], u);
      if Allowed(c, s, e) {
        RunProper(c, steps[..|steps| - 1]);
        NextInv(c, s, e, u);
      }
    }
  }

  /** The current message has been offered to u, if u was to have it. */
  ghost predicate Offered(c: Config, s: State, u: SubId)
    requires u in c.subs
  {
    Settled(s) < |s.taken| && !(s.processor.FanningOut? && u in s.processor.todo) ==> Served(c, s, u, Settled(s))
  }

  /** Repeats aside, u has seen exactly the settled part of the queue order that its filter lets through, and at most
      the message being delivered besides; it is offered that one exactly if it wants it; and the processor takes
      messages in the order accepted. */
  ghost predicate InOrder(c: Config, s: State, u: SubId)
    requires u in c.subs
  {
    var seen := Collapsed(LogOf(s, u));
    var settled := Wanted(c.subs[u], s.taken[..Settled(s)]);
    && s.accepted == s.taken + s.queue
    && (seen == settled || (Settled(s) < |s.taken| && seen == settled + [Settled(s)]))
    && Offered(c, s, u)
  }

  /** However deliveries, retries, breakers and publishers interleave, the fan-out keeps u in order, if it never goes on
      while u's handler may still be called and no other subscription's retries can spoil u's filter. */
  lemma DeliveryOrder(c: Config, steps: seq<Step>, u: SubId)
    requires u in c.subs && !Spoilt(c, u) && (c.timeouts ==> Patient(c, steps, u))
    ensures InOrder(c, Run(c, START, steps), u)
    ensures var s := Run(c, START, steps);
            s.processor.Idle? ==> Collapsed(LogOf(s, u)) == Wanted(c.subs[u], s.taken)
  {
    var s := Run(c, START, steps);
    RunInv(c, steps, u);
    assert s.processor.Idle? ==> s.taken[..Settled(s)] == s.taken;
  }

  lemma {:induction false} WantedExactly(sub: Subscription, messages: seq<Message>)
    ensures var order := Wanted(sub, messages);
            && (forall j, k :: 0 <= j < k < |order| ==> order[j] < order[k])
            && (forall i: nat :: i in order <==> i < |messages| && Wants(sub, messages[i]))
  {
    if messages != [] {
      WantedExactly(sub, messages[..|messages| - 1]);
      OneMoreWanted(sub, messages);
    }
  }

  lemma OneMoreWanted(sub: Subscription, messages: seq<Message>)
    requires messages != []
    ensures var n, shorter := |messages| - 1, Wanted(sub, messages[..|messages| - 1]);
            && |shorter| <= |Wanted(sub, messages)| <= |shorter| + 1 && shorter <= Wanted(sub, messages)
            && (forall k :: |shorter| <= k < |Wanted(sub, messages)| ==> Wanted(sub, messages)[k] == n)
            && forall i: nat :: i in Wanted(sub, messages) <==> i in shorter || (i == n && Wants(sub, messages[n]))
  {
  }
}
