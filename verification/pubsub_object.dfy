/**
  The pub/sub object's loops: matchesFilter, publishing with its retries and batches, the topic processor, and one
  delivery with its retries.  They take only legal steps while everybody else keeps moving, so what `Delivery` and
  `DeliveryExact` prove of all runs holds of the object whenever it is `Valid`.
 */
module PubSubs {
  import opened Delivery
  import opened DeliveryExact
  import opened Traces
  import Breakers
  import PubSubBreaker

  const MAX_BATCH_SIZE: nat := 1000

  /** What happens around one step: what others do first, whether a worker slot is free, whether the context is done,
      whether the breaker lets a delivery in, how the handler ends, whether a wait ends. */
  datatype Moment =
    Moment(others: seq<Step>, slotFree: bool, done: bool, admitted: bool, result: Result, expired: bool)

  /** A message to publish; `valid`: its data and headers pass the validators. */
  datatype Draft = Draft(headers: map<string, string>, valid: bool)

  datatype Outcome = Published | Empty | TooLarge | Cancelled | InvalidAt(i: nat) | BreakerOpen | FailedAt(i: nat)

  datatype Actor = Publisher(p: nat) | Processing | Delivering(sub: SubId, i: nat)

  predicate Mine(a: Actor, e: Step) {
    match a
    case Publisher(p) => (e.Stamp? || e.Enqueue? || e.Abandon?) && e.publisher == p
    case Processing => e.Take? || e.Spawn? || e.EndFanOut? || e.Finish? || e.TimeOut?
    case Delivering(sub, i) => (e.Admit? || e.Invoke? || e.Return?) && e.sub == sub && e.i == i
  }

  /** Sequence number n was drawn, and its message was given up. */
  ghost predicate Lost(s: State, n: nat) {
    && n <= s.sequence && (forall p :: p in s.inHand ==> s.inHand[p].sequence != n)
    && forall k :: 0 <= k < |s.accepted| ==> s.accepted[k].sequence != n
  }

  /** How often u's handler was called for message i. */
  ghost function Calls(s: State, sub: SubId, i: nat): nat {
    multiset(LogOf(s, sub))[i]
  }

  /** What the others leave alone. */
  ghost predicate Undisturbed(a: Actor, s: State, s': State) {
    match a
    case Publisher(p) =>
      && s.accepted <= s'.accepted && (p in s.inHand <==> p in s'.inHand)
         && (p in s.inHand ==> s'.inHand[p] == s.inHand[p])
      && s.sequence <= s'.sequence && forall n | Lost(s, n) :: Lost(s', n)
    case Processing =>
      && s'.processor == s.processor && s'.taken == s.taken && s'.deliveries.Keys == s.deliveries.Keys
      && |s'.retryCounts| == |s.retryCounts| && s.queue <= s'.queue
    case Delivering(sub, i) =>
      && ((sub, i) in s.deliveries ==> (sub, i) in s'.deliveries && s'.deliveries[(sub, i)] == s.deliveries[(sub, i)])
      && Calls(s', sub, i) == Calls(s, sub, i) && |s.retryCounts| <= |s'.retryCounts|
  }

  lemma LostStays(c: Config, s: State, e: Step, n: nat)
    requires Lost(s, n)
    ensures Lost(Next(c, s, e), n)
  {
  }

  lemma PublisherAlone(c: Config, p: nat, s: State, e: Step)
    requires !Mine(Publisher(p), e)
    ensures Undisturbed(Publisher(p), s, Next(c, s, e))
  {
    forall n | Lost(s, n) ensures Lost(Next(c, s, e), n) {
      LostStays(c, s, e, n);
    }
  }

  lemma ProcessorAlone(c: Config, s: State, e: Step)
    requires !Mine(Processing, e)
    ensures Undisturbed(Processing, s, Next(c, s, e))
  {
    assert Next(c, s, e).deliveries.Keys == s.deliveries.Keys;
  }

  /** The processor is never offered the same subscription twice for one message, timeouts or not. */
  ghost predicate PlaceInv(c: Config, s: State) {
    && s.accepted == s.taken + s.queue && |s.queue| <= c.capacity && |s.retryCounts| == |s.taken|
    && (!s.processor.Idle? ==> s.taken != [])
    && (forall sub, i :: (sub, i) in s.deliveries ==> i < |s.taken|)
    && (s.processor.FanningOut? ==>
          s.processor.todo <= c.subs.Keys && forall sub :: sub in s.processor.todo ==>
              (sub, |s.taken| - 1) !in s.deliveries)
  }

  lemma NextPlace(c: Config, s: State, e: Step)
    requires PlaceInv(c, s)
    ensures PlaceInv(c, Next(c, s, e))
  {
    if Allowed(c, s, e) {
      match e
      case Take => TakePlace(c, s);
      case Spawn(sub) => SpawnPlace(c, s, sub);
      case _ => OtherPlace(c, s, e);
    }
  }

  lemma TakePlace(c: Config, s: State)
    requires PlaceInv(c, s) && Allowed(c, s, Step.Take)
    ensures PlaceInv(c, Next(c, s, Step.Take))
  {
    assert s.queue == [s.queue[0]] + s.queue[1..];
  }

  lemma SpawnPlace(c: Config, s: State, sub: SubId)
    requires PlaceInv(c, s) && Allowed(c, s, Spawn(sub))
    ensures PlaceInv(c, Next(c, s, Spawn(sub)))
  {
  }

  lemma OtherPlace(c: Config, s: State, e: Step)
    requires PlaceInv(c, s) && Allowed(c, s, e) && !e.Take? && !e.Spawn?
    ensures PlaceInv(c, Next(c, s, e))
  {
  }

  lemma {:induction false} RunPlace(c: Config, steps: seq<Step>)
    ensures PlaceInv(c, Run(c, START, steps))
  {
    if steps != [] {
      RunPlace(c, steps[..|steps| - 1]);
      NextPlace(c, Run(c, START, steps[..|steps| - 1]), steps[|steps| - 1]);
    }
  }

  lemma DeliveryAlone(c: Config, sub: SubId, i: nat, s: State, e: Step)
    requires !Mine(Delivering(sub, i), e) && PlaceInv(c, s) && (sub, i) in s.deliveries
    ensures Undisturbed(Delivering(sub, i), s, Next(c, s, e))
  {
    DeliveryUntouched(c, sub, i, s, e);
    CallsUntouched(c, sub, i, s, e);
  }

  lemma DeliveryUntouched(c: Config, sub: SubId, i: nat, s: State, e: Step)
    requires !Mine(Delivering(sub, i), e) && PlaceInv(c, s) && (sub, i) in s.deliveries
    ensures var s' := Next(c, s, e);
            (sub, i) in s'.deliveries && s'.deliveries[(sub, i)] == s.deliveries[(sub, i)]
  {
  }

  lemma CallsUntouched(c: Config, sub: SubId, i: nat, s: State, e: Step)
    requires !Mine(Delivering(sub, i), e)
    ensures Calls(Next(c, s, e), sub, i) == Calls(s, sub, i) && |s.retryCounts| <= |Next(c, s, e).retryCounts|
  {
    if Allowed(c, s, e) && e.Invoke? && e.sub == sub {
      InvokeLogs(c, s, e);
      PushOther(LogOf(s, sub), e.i, i);
    } else {
      assert LogOf(Next(c, s, e), sub) == LogOf(s, sub);
    }
  }

  lemma InvokeLogs(c: Config, s: State, e: Step)
    requires Allowed(c, s, e) && e.Invoke?
    ensures LogOf(Next(c, s, e), e.sub) == LogOf(s, e.sub) + [e.i]
    ensures |Next(c, s, e).retryCounts| == |s.retryCounts|
  {
  }

  lemma PushOther(log: seq<nat>, j: nat, i: nat)
    requires i != j
    ensures multiset(log + [j])[i] == multiset(log)[i]
  {
  }

  lemma OtherStep(c: Config, a: Actor, s: State, e: Step)
    requires !Mine(a, e) && PlaceInv(c, s) && (a.Delivering? ==> (a.sub, a.i) in s.deliveries)
    ensures Undisturbed(a, s, Next(c, s, e))
  {
    match a
    case Publisher(p) => PublisherAlone(c, p, s, e);
    case Processing => ProcessorAlone(c, s, e);
    case Delivering(sub, i) => DeliveryAlone(c, sub, i, s, e);
  }

  lemma Continues(a: Actor, s: State, m: State, s': State)
    requires Undisturbed(a, s, m) && Undisturbed(a, m, s') && (a.Delivering? ==> (a.sub, a.i) in s.deliveries)
    ensures Undisturbed(a, s, s')
  {
  }

  /** matchesFilter's loop over the filter's headers. */
  method MatchesFilter(f: Filter, m: Message, retryCount: int) returns (r: bool)
    ensures r == Matches(f, m, retryCount)
    ensures r <==>
              && (forall key :: key in f.headers ==> key in m.headers && m.headers[key] == f.headers[key])
              && (m.priority >= f.priority || f.priority <= 0) && (retryCount < f.maxRetryCount || f.maxRetryCount <= 0)
  {
    var keys := f.headers.Keys;
    while keys != {}
      invariant keys <= f.headers.Keys
      invariant forall key :: key in f.headers.Keys - keys ==> key in m.headers && m.headers[key] == f.headers[key]
      decreases |keys|
    {
      var key :| key in keys;
      if key !in m.headers || m.headers[key] != f.headers[key] {
        return false;
      }
      keys := keys - {key};
    }
    assert HeadersMatch(f, m);
    if f.priority > 0 && m.priority < f.priority {
      return false;
    }
    if f.maxRetryCount > 0 && retryCount >= f.maxRetryCount {
      return false;
    }
    r := true;
  }

  function Runs(c: Config): seq<Step> -> State {
    (trace: seq<Step>) => Run(c, START, trace)
  }

  /** deliverWithRetry tries again after these. */
  predicate Retryable(r: Result) {
    r.Fails? || r.SaysOpen?
  }

  /** What deliverWithRetry leaves of a delivery after calls with these results. */
  predicate EndsAs(maxRetries: nat, viaBreaker: bool, results: seq<Result>, d: Delivery) {
    && 1 <= |results| <= maxRetries + 1
    && (forall k :: 0 <= k < |results| - 1 ==> Retryable(results[k]))
    && match results[|results| - 1]
       case Fine => d == Delivered(true)
       case TimesOut => d == Delivered(false)
       case Fails => |results| == maxRetries + 1 && d == Delivered(false)
       case SaysOpen => |results| == maxRetries + 1 && d == if viaBreaker then Ready(0, false, true)
           else Delivered(false)
  }

  /** The results of a delivery whose rounds have up to n calls: there is a second round exactly if the breaker let the
      first one in and its n-th error was the breaker's own; only the last call of a round can succeed or time out. */
  predicate InRounds(n: nat, admitted: bool, results: seq<Result>) {
    && 0 < |results| <= 2 * n
    && (forall k :: 0 <= k < |results| - 1 ==> Retryable(results[k]))
    && (|results| < n || n < |results| < 2 * n ==> !Retryable(results[|results| - 1]))
    && (n <= |results| && n > 0 ==> (|results| > n <==> admitted && results[n - 1].SaysOpen?))
  }

  lemma OneRoundOnly(maxRetries: nat, admitted: bool, results: seq<Result>, d: Delivery)
    requires EndsAs(maxRetries, admitted, results, d) && !d.Ready?
    ensures InRounds(maxRetries + 1, admitted, results)
  {
  }

  lemma AnotherRound(maxRetries: nat, admitted: bool, first: seq<Result>, d: Delivery, second: seq<Result>,
                     d': Delivery)
    requires EndsAs(maxRetries, admitted, first, d) && d.Ready? && EndsAs(maxRetries, false, second, d')
    ensures InRounds(maxRetries + 1, admitted, first + second)
    ensures (first + second)[|first + second| - 1] == second[|second| - 1]
  {
    var all := first + second;
    forall k | 0 <= k < |all| - 1 ensures Retryable(all[k]) {
      assert k >= |first| ==> all[k] == second[k - |first|];
    }
  }

  /** The first messages of a batch stand at `places` of the queue order, none before `from`, in their order. */
  ghost predicate InQueueOrder(batch: seq<Draft>, places: seq<nat>, from: nat, accepted: seq<Message>) {
    && |places| <= |batch|
    && (forall k :: 0 <= k < |places| ==>
          from <= places[k] < |accepted| && accepted[places[k]].headers == batch[k].headers)
    && forall j, k :: 0 <= j < k < |places| ==> places[j] < places[k]
  }

  predicate Has(s: State, sub: SubId, i: nat) {
    (sub, i) in s.deliveries
  }

  lemma NextInOrder(batch: seq<Draft>, places: seq<nat>, from: nat, accepted: seq<Message>, accepted': seq<Message>,
                    place: nat)
    requires InQueueOrder(batch, places, from, accepted) && accepted <= accepted' && |places| < |batch|
    requires from <= |accepted| <= place < |accepted'| && accepted'[place].headers == batch[|places|].headers
    ensures InQueueOrder(batch, places + [place], from, accepted')
  {
  }

  /** The turn of one subscription in a fan-out, and whether it gets a delivery. */
  datatype Offer = Offer(sub: SubId, got: bool)

  /** It gets one exactly if it is open and its filter lets the message being fanned out through as it is now. */
  predicate Accepts(c: Config, s: State, sub: SubId)
    requires Allowed(c, s, Spawn(sub))
  {
    var i := |s.taken| - 1;
    c.subs[sub].open && Matches(c.subs[sub].filter, s.taken[i], s.retryCounts[i])
  }

  /** The turns taken in the steps of a trace from `from` on. */
  ghost function Offers(c: Config, trace: seq<Step>, from: nat): seq<Offer> {
    if |trace| <= from then []
    else
      var n := |trace| - 1;
      var s, e := Run(c, START, trace[..n]), trace[n];
      Offers(c, trace[..n], from) + if e.Spawn? && Allowed(c, s, e) then [Offer(e.sub, Accepts(c, s, e.sub))] else []
  }

  /** Each of `subs` has had one turn, and s has the deliveries of message i to those that got one. */
  ghost predicate OneEach(offers: seq<Offer>, subs: set<SubId>, i: nat, s: State) {
    && (forall o :: o in offers ==> o.sub in subs && o.got == Has(s, o.sub, i))
    && (forall sub :: sub in subs ==> exists o :: o in offers && o.sub == sub)
    && forall j, k :: 0 <= j < k < |offers| ==> offers[j].sub != offers[k].sub
  }

  class Topic {
    const c: Config
    const breaker: PubSubBreaker.CircuitBreakerPubSub     // the publisher's
    const tape: nat -> Moment
    var at: nat
    var s: State
    ghost var trace: seq<Step>

    ghost predicate Valid()
      reads this
    {
      s == Run(c, START, trace)
    }

    constructor (c: Config, breaker: PubSubBreaker.CircuitBreakerPubSub, tape: nat -> Moment)
      ensures Valid() && s == START && trace == [] && this.c == c && this.breaker == breaker && this.tape == tape
    {
      this.c, this.breaker, this.tape, at, s, trace := c, breaker, tape, 0, START, [];
    }

    method Do(e: Step)
      requires Valid()
      modifies this`s, this`trace
      ensures Valid() && s == Next(c, old(s), e) && trace == old(trace) + [e]
    {
      RunMore(c, START, trace, e);
      s, trace := Next(c, s, e), trace + [e];
    }

    method Others(a: Actor) returns (m: Moment)
      requires Valid() && (a.Delivering? ==> (a.sub, a.i) in s.deliveries)
      modifies this`s, this`trace, this`at
      ensures Valid() && old(trace) <= trace && Undisturbed(a, old(s), s) && m == tape(old(at))
      ensures forall k :: |old(trace)| <= k < |trace| ==> !Mine(a, trace[k])
    {
      m, at := tape(at), at + 1;
      var i := 0;
      while i < |m.others|
        invariant 0 <= i <= |m.others| && Valid() && old(trace) <= trace && Undisturbed(a, old(s), s)
        invariant forall k :: |old(trace)| <= k < |trace| ==> !Mine(a, trace[k])
      {
        if !Mine(a, m.others[i]) {
          RunPlace(c, trace);
          OtherStep(c, a, s, m.others[i]);
          ghost var before := s;
          Do(m.others[i]);
          Continues(a, old(s), before, s);
        }
        i := i + 1;
      }
    }

    // ---- publishing -----------------------------------------------------------------------------

    /** publishMessage: with a worker slot, a live context and room in the queue it `found`, the message is queued, as
        number `number` of the topic and at place `place` of the queue order; else it is lost, and its number with it.
        */
    method PublishMessage(p: nat, headers: map<string, string>)
      returns (ok: bool, ghost number: nat, ghost place: nat, ghost found: State)
      requires Valid() && p !in s.inHand
      modifies this`s, this`trace, this`at
      ensures Valid() && old(trace) <= trace && p !in s.inHand && old(s).accepted <= s.accepted
      ensures ok ==>
                && |old(s).accepted| <= place && |s.accepted| == place + 1 && number > old(s).sequence
                && s.accepted[place] == Message(number, headers, 0) && |found.queue| < c.capacity
      ensures !ok ==> (number == 0 || number > old(s).sequence) && Lost(s, number)
      ensures OnTheWay(Runs(c), old(trace), trace, found)
      ensures !ok && (forall i :: tape(i).slotFree && !tape(i).done) ==> |found.queue| >= c.capacity
      ensures forall n | Lost(old(s), n) :: Lost(s, n)
    {
      number, place := 0, 0;
      var m := Others(Publisher(p));
      found := s;
      ghost var seen := trace;
      if !m.slotFree {
        ZeroIsLost(c, trace);
        WasOnTheWay(Runs(c), old(trace), seen, trace, found);
        return false, 0, 0, found;
      }
      number := s.sequence + 1;
      ghost var drawn := s;
      Do(Stamp(p, headers));
      LostForAll(c, drawn, Stamp(p, headers));
      seen := trace;
      ok, place, found := SendToQueue(p);
      StillOnTheWay(Runs(c), old(trace), seen, trace, trace, found);
    }

    /** The send into the topic's queue. */
    method SendToQueue(p: nat) returns (ok: bool, ghost place: nat, ghost found: State)
      requires Valid() && p in s.inHand
      modifies this`s, this`trace, this`at
      ensures Valid() && old(trace) <= trace && p !in s.inHand && old(s).accepted <= s.accepted
      ensures ok ==>
                && |old(s).accepted| <= place && |s.accepted| == place + 1 && s.accepted[place] == old(s).inHand[p]
                && |found.queue| < c.capacity
      ensures !ok ==> Lost(s, old(s).inHand[p].sequence)
      ensures OnTheWay(Runs(c), old(trace), trace, found)
      ensures !ok && (forall i :: !tape(i).done) ==> |found.queue| >= c.capacity
      ensures forall n | Lost(old(s), n) :: Lost(s, n)
    {
      var m := Others(Publisher(p));
      place, found := |s.accepted|, s;
      ghost var seen := trace;
      ok := !m.done && |s.queue| < c.capacity;
      RunNumbers(c, trace);
      ghost var e := if m.done then Abandon(p) else Enqueue(p);
      LostForAll(c, s, e);
      Do(if m.done then Abandon(p) else Enqueue(p));
      WasOnTheWay(Runs(c), old(trace), seen, trace, found);
    }

    /** publishWithRetry: at most one of its tries is queued, the last; the numbers of the others are gaps. */
    method PublishWithRetry(p: nat, headers: map<string, string>, maxRetries: nat)
      returns (ok: bool, ghost numbers: seq<nat>, ghost place: nat)
      requires Valid() && p !in s.inHand
      modifies this`s, this`trace, this`at
      ensures Valid() && old(trace) <= trace && p !in s.inHand && old(s).accepted <= s.accepted
      ensures |numbers| <= maxRetries + 1
      ensures !ok && (forall i :: !tape(i).done) ==> |numbers| == maxRetries + 1
      ensures ok ==>
                && numbers != [] && |old(s).accepted| <= place < |s.accepted|
                && s.accepted[place] == Message(numbers[|numbers| - 1], headers, 0)
      ensures forall k :: 0 <= k < (if ok then |numbers| - 1 else |numbers|) ==> Lost(s, numbers[k])
    {
      ok, numbers, place := false, [], 0;
      var attempt := 0;
      while attempt <= maxRetries
        invariant Valid() && old(trace) <= trace && p !in s.inHand && old(s).accepted <= s.accepted
        invariant !ok && |numbers| == attempt <= maxRetries + 1
        invariant forall k :: 0 <= k < |numbers| ==> Lost(s, numbers[k])
      {
        var m := Others(Publisher(p));
        if m.done {
          return;
        }
        ghost var number, found;
        ok, number, place, found := PublishMessage(p, headers);
        numbers := numbers + [number];
        if ok {
          return;
        }
        attempt := attempt + 1;
      }
    }

    /** The loop of PublishBatch: the messages are queued in their order up to the first that is refused. */
    method PublishAll(p: nat, batch: seq<Draft>) returns (sent: nat, ghost places: seq<nat>, ghost found: State)
      requires Valid() && p !in s.inHand
      modifies this`s, this`trace, this`at
      ensures Valid() && old(trace) <= trace && p !in s.inHand && old(s).accepted <= s.accepted
      ensures sent == |places| <= |batch| && InQueueOrder(batch, places, |old(s).accepted|, s.accepted)
      ensures sent < |batch| && (forall i :: tape(i).slotFree && !tape(i).done) ==>
                OnTheWay(Runs(c), old(trace), trace, found) && |found.queue| >= c.capacity
    {
      sent, places, found := 0, [], s;
      while sent < |batch|
        invariant sent == |places| <= |batch|
        invariant Valid() && old(trace) <= trace && p !in s.inHand && old(s).accepted <= s.accepted
        invariant InQueueOrder(batch, places, |old(s).accepted|, s.accepted)
      {
        ghost var number, place, reached, accepted := 0, 0, trace, s.accepted;
        var ok;
        ok, number, place, found := PublishMessage(p, batch[sent].headers);
        if !ok {
          StillOnTheWay(Runs(c), old(trace), reached, trace, trace, found);
          return;
        }
        NextInOrder(batch, places, |old(s).accepted|, accepted, s.accepted, place);
        places, sent := places + [place], sent + 1;
      }
    }

    /** PublishBatch, through the publisher's breaker: an invalid batch, a done context and an open breaker queue
        nothing; otherwise the batch is queued in order up to the first message refused, and is a success for the
        breaker exactly if none is. */
    method PublishBatch(p: nat, batch: seq<Draft>, cancelled: bool, now: int, end: int)
      returns (r: Outcome, ghost places: seq<nat>, ghost found: State)
      requires Valid() && p !in s.inHand
      modifies this`s, this`trace, this`at, breaker
      ensures Valid() && old(trace) <= trace && p !in s.inHand && old(s).accepted <= s.accepted
      ensures r.Empty? <==> batch == []
      ensures r.TooLarge? <==> |batch| > MAX_BATCH_SIZE
      ensures r.Cancelled? <==> 0 < |batch| <= MAX_BATCH_SIZE && cancelled
      ensures r.InvalidAt? ==> r.i < |batch| && !batch[r.i].valid && forall j :: 0 <= j < r.i ==> batch[j].valid
      ensures r.InvalidAt?
              <==> 0 < |batch| <= MAX_BATCH_SIZE && !cancelled && exists j :: 0 <= j < |batch| && !batch[j].valid
      ensures r.BreakerOpen? <==>
                && 0 < |batch| <= MAX_BATCH_SIZE && !cancelled && (forall j :: 0 <= j < |batch| ==> batch[j].valid)
                && !PubSubBreaker.PsAdmits(breaker.timeout, old(breaker.Contents()), now)
      ensures breaker.Contents()
              == if r.Published? || r.FailedAt? || r.BreakerOpen?
                 then PubSubBreaker.PsAfterCall(breaker.threshold, breaker.timeout, old(breaker.Contents()),
                                                Breakers.Call(now, end, r.Published?))
                 else old(breaker.Contents())
      ensures !r.Published? && !r.FailedAt? ==> trace == old(trace) && places == []
      ensures |places| == (match r case Published => |batch| case FailedAt(i) => i case _ => 0) <= |batch|
      ensures InQueueOrder(batch, places, |old(s).accepted|, s.accepted)
      ensures r.FailedAt? ==> r.i < |batch|
      ensures r.FailedAt? && (forall i :: tape(i).slotFree && !tape(i).done) ==>
                OnTheWay(Runs(c), old(trace), trace, found) && |found.queue| >= c.capacity
    {
      places, found := [], s;
      if batch == [] {
        return Empty, places, found;
      } else if |batch| > MAX_BATCH_SIZE {
        return TooLarge, places, found;
      } else if cancelled {
        return Cancelled, places, found;
      }
      for i := 0 to |batch|
        invariant forall j :: 0 <= j < i ==> batch[j].valid
      {
        if !batch[i].valid {
          return InvalidAt(i), places, found;
        }
      }
      var admitted := breaker.Enter(now);
      if !admitted {
        return BreakerOpen, places, found;
      }
      var sent;
      sent, places, found := PublishAll(p, batch);
      r := if sent == |batch| then Published else FailedAt(sent);
      breaker.Record(r.Published?, end);
    }

    /** Publish, through the publisher's breaker: as PublishBatch for one message, but tried again when refused. */
    method Publish(p: nat, draft: Draft, maxRetries: nat, cancelled: bool, now: int, end: int)
      returns (r: Outcome, ghost numbers: seq<nat>, ghost place: nat)
      requires Valid() && p !in s.inHand
      modifies this`s, this`trace, this`at, breaker
      ensures Valid() && old(trace) <= trace && p !in s.inHand && old(s).accepted <= s.accepted
      ensures !r.Empty? && !r.TooLarge?
      ensures r.InvalidAt? <==> !draft.valid
      ensures r.Cancelled? <==> draft.valid && cancelled
      ensures r.BreakerOpen? <==>
                draft.valid && !cancelled && !PubSubBreaker.PsAdmits(breaker.timeout, old(breaker.Contents()), now)
      ensures breaker.Contents()
              == if draft.valid && !cancelled
                 then PubSubBreaker.PsAfterCall(breaker.threshold, breaker.timeout, old(breaker.Contents()),
                                                Breakers.Call(now, end, r.Published?))
                 else old(breaker.Contents())
      ensures !r.Published? && !r.FailedAt? ==> trace == old(trace)
      ensures r.Published? ==>
                && 0 < |numbers| <= maxRetries + 1 && |old(s).accepted| <= place < |s.accepted|
                && s.accepted[place] == Message(numbers[|numbers| - 1], draft.headers, 0)
      ensures r.FailedAt? && (forall i :: !tape(i).done) ==> |numbers| == maxRetries + 1
      ensures forall k :: 0 <= k < (if r.Published? then |numbers| - 1 else |numbers|) ==> Lost(s, numbers[k])
    {
      numbers, place := [], 0;
      if !draft.valid {
        return InvalidAt(0), numbers, place;
      } else if cancelled {
        return Cancelled, numbers, place;
      }
      var admitted := breaker.Enter(now);
      if !admitted {
        return BreakerOpen, numbers, place;
      }
      var ok;
      ok, numbers, place := PublishWithRetry(p, draft.headers, maxRetries);
      r := if ok then Published else FailedAt(0);
      breaker.Record(ok, end);
    }

    // ---- delivering -----------------------------------------------------------------------------

    /** One attempt: RetryCount is set and the handler called. */
    method BeginCall(sub: SubId, i: nat)
      requires Valid() && sub in c.subs && (sub, i) in s.deliveries && s.deliveries[(sub, i)].Ready?
      modifies this`s, this`trace, this`at
      ensures Valid() && old(trace) <= trace && (sub, i) in s.deliveries
      ensures Calls(s, sub, i) == old(Calls(s, sub, i)) + 1
      ensures var d := old(s).deliveries[(sub, i)];
              s.deliveries[(sub, i)] == InHandler(d.attempt, d.viaBreaker)
    {
      var m := Others(Delivering(sub, i));
      RunPlace(c, trace);
      ghost var before := LogOf(s, sub);
      Do(Invoke(sub, i));
      assert LogOf(s, sub) == before + [i];
    }

    /** The handler ends somehow. */
    method EndCall(sub: SubId, i: nat) returns (result: Result)
      requires Valid() && sub in c.subs && (sub, i) in s.deliveries && s.deliveries[(sub, i)].InHandler?
      modifies this`s, this`trace, this`at
      ensures Valid() && old(trace) <= trace && (sub, i) in s.deliveries
      ensures Calls(s, sub, i) == old(Calls(s, sub, i))
      ensures s.deliveries[(sub, i)] == AfterReturn(c.subs[sub].maxRetries, old(s).deliveries[(sub, i)], result)
    {
      var m := Others(Delivering(sub, i));
      result := m.result;
      Do(Return(sub, i, result));
    }

    /** deliverWithRetry: the handler is called until it succeeds, times out, or has failed MaxRetries + 1 times. */
    method DeliverWithRetry(sub: SubId, i: nat) returns (ghost results: seq<Result>)
      requires Valid() && sub in c.subs && (sub, i) in s.deliveries
      requires s.deliveries[(sub, i)].Ready? && s.deliveries[(sub, i)].attempt == 0
      modifies this`s, this`trace, this`at
      ensures Valid() && old(trace) <= trace && (sub, i) in s.deliveries
      ensures Calls(s, sub, i) == old(Calls(s, sub, i)) + |results|
      ensures EndsAs(c.subs[sub].maxRetries, old(s).deliveries[(sub, i)].viaBreaker, results, s.deliveries[(sub, i)])
    {
      results := [];
      var attempt := 0;
      var via := s.deliveries[(sub, i)].viaBreaker;
      var over := false;
      while !over
        invariant Valid() && old(trace) <= trace && (sub, i) in s.deliveries
        invariant Calls(s, sub, i) == old(Calls(s, sub, i)) + |results|
        invariant over ==> EndsAs(c.subs[sub].maxRetries, via, results, s.deliveries[(sub, i)])
        invariant !over ==>
                    && s.deliveries[(sub, i)].Ready? && s.deliveries[(sub, i)].viaBreaker == via
                    && s.deliveries[(sub, i)].attempt == attempt == |results| <= c.subs[sub].maxRetries
                    && forall k :: 0 <= k < |results| ==> Retryable(results[k])
        decreases !over, c.subs[sub].maxRetries - attempt
      {
        BeginCall(sub, i);
        var result := EndCall(sub, i);
        results := results + [result];
        over := !Retryable(result) || attempt == c.subs[sub].maxRetries;
        attempt := attempt + 1;
      }
    }

    method AdmitDelivery(sub: SubId, i: nat) returns (admitted: bool)
      requires Valid() && (sub, i) in s.deliveries && s.deliveries[(sub, i)].Spawned?
      modifies this`s, this`trace, this`at
      ensures Valid() && old(trace) <= trace && (sub, i) in s.deliveries && Calls(s, sub, i) == old(Calls(s, sub, i))
      ensures s.deliveries[(sub, i)] == Ready(0, admitted, false) && admitted == tape(old(at)).admitted
    {
      var m := Others(Delivering(sub, i));
      admitted := m.admitted;
      Do(Admit(sub, i, admitted));
    }

    /** deliverMessageToSubscriber: through the breaker, or directly when that is open, and once more directly when
        the handler's last error inside the breaker was the breaker's own.  A round of calls ends with success, a
        timeout, or MaxRetries + 1 failures, and the delivery succeeds exactly if its last call does. */
    method DeliverMessage(sub: SubId, i: nat) returns (ok: bool, ghost results: seq<Result>)
      requires Valid() && sub in c.subs && (sub, i) in s.deliveries && s.deliveries[(sub, i)].Spawned?
      modifies this`s, this`trace, this`at
      ensures Valid() && old(trace) <= trace
      ensures (sub, i) in s.deliveries && s.deliveries[(sub, i)] == Delivered(ok)
      ensures Calls(s, sub, i) == old(Calls(s, sub, i)) + |results| > old(Calls(s, sub, i))
      ensures ok <==> results[|results| - 1].Fine?
      ensures InRounds(c.subs[sub].maxRetries + 1, tape(old(at)).admitted, results)
    {
      var admitted := AdmitDelivery(sub, i);
      results := DeliverInRounds(sub, i, admitted);
      ok := s.deliveries[(sub, i)].ok;
    }

    /** From the breaker's decision on. */
    method DeliverInRounds(sub: SubId, i: nat, admitted: bool) returns (ghost results: seq<Result>)
      requires Valid() && sub in c.subs && (sub, i) in s.deliveries
      requires s.deliveries[(sub, i)] == Ready(0, admitted, false)
      modifies this`s, this`trace, this`at
      ensures Valid() && old(trace) <= trace && (sub, i) in s.deliveries
      ensures Calls(s, sub, i) == old(Calls(s, sub, i)) + |results|
      ensures InRounds(c.subs[sub].maxRetries + 1, admitted, results)
      ensures s.deliveries[(sub, i)] == Delivered(results[|results| - 1].Fine?)
    {
      results := DeliverWithRetry(sub, i);
      ghost var d := s.deliveries[(sub, i)];
      if s.deliveries[(sub, i)].Ready? {
        ghost var more := DeliverWithRetry(sub, i);
        AnotherRound(c.subs[sub].maxRetries, admitted, results, d, more, s.deliveries[(sub, i)]);
        results := results + more;
      } else {
        OneRoundOnly(c.subs[sub].maxRetries, admitted, results, d);
      }
    }

    // ---- the topic processor --------------------------------------------------------------------

    /** One subscription's turn in the loop of deliverMessageToSubscribers, which began at step `from`. */
    method OfferTo(sub: SubId, i: nat, ghost from: nat)
      requires Valid() && s.processor.FanningOut? && sub in s.processor.todo && |s.taken| == i + 1 && sub in c.subs
      requires from <= |trace|
      modifies this`s, this`trace, this`at
      ensures Valid() && old(trace) <= trace && s.processor == FanningOut(old(s).processor.todo - {sub})
      ensures s.taken == old(s).taken
      ensures Offers(c, trace, from) == Offers(c, old(trace), from) + [Offer(sub, Has(s, sub, i))]
      ensures forall u :: u != sub ==> Has(s, u, i) == Has(old(s), u, i)
    {
      OthersQuietly(from);
      SpawnTo(sub, i, from);
    }

    method SpawnTo(sub: SubId, i: nat, ghost from: nat)
      requires Valid() && s.processor.FanningOut? && sub in s.processor.todo && |s.taken| == i + 1 && sub in c.subs
      requires from <= |trace|
      modifies this`s, this`trace
      ensures Valid() && old(trace) <= trace && s.processor == FanningOut(old(s).processor.todo - {sub})
      ensures s.taken == old(s).taken
      ensures Offers(c, trace, from) == Offers(c, old(trace), from) + [Offer(sub, Has(s, sub, i))]
      ensures forall u :: u != sub ==> Has(s, u, i) == Has(old(s), u, i)
    {
      RunPlace(c, trace);
      SpawnOffers(c, s, sub);
      OneMoreOffer(c, trace, from, sub);
      Do(Spawn(sub));
    }

    /** Others move on; only the processor makes offers. */
    method OthersQuietly(ghost from: nat)
      requires Valid() && from <= |trace|
      modifies this`s, this`trace, this`at
      ensures Valid() && old(trace) <= trace && Undisturbed(Processing, old(s), s)
      ensures Offers(c, trace, from) == Offers(c, old(trace), from)
    {
      var m := Others(Processing);
      QuietSteps(c, old(trace), trace, from);
    }

    /** All but the subscriptions of `todo` have had their turn since step `from`. */
    ghost predicate Offering(i: nat, from: nat, todo: set<SubId>, taken: seq<Message>)
      reads this
    {
      && Valid() && from <= |trace| && todo <= c.subs.Keys && s.processor == FanningOut(todo)
      && s.taken == taken && |taken| == i + 1 && OneEach(Offers(c, trace, from), c.subs.Keys - todo, i, s)
    }

    /** The loop over the subscriptions in deliverMessageToSubscribers, in any order. */
    method OfferAll(i: nat)
      requires Valid() && s.processor == FanningOut(c.subs.Keys) && |s.taken| == i + 1
      modifies this`s, this`trace, this`at
      ensures old(trace) <= trace && Offering(i, |old(trace)|, {}, old(s).taken)
    {
      var todo := c.subs.Keys;
      while todo != {}
        invariant old(trace) <= trace && Offering(i, |old(trace)|, todo, old(s).taken)
        decreases |todo|
      {
        var sub :| sub in todo;
        OneTurn(sub, i, |old(trace)|, todo, old(s).taken);
        todo := todo - {sub};
      }
    }

    method OneTurn(sub: SubId, i: nat, ghost from: nat, ghost todo: set<SubId>, ghost taken: seq<Message>)
      requires Offering(i, from, todo, taken) && sub in todo
      modifies this`s, this`trace, this`at
      ensures old(trace) <= trace && Offering(i, from, todo - {sub}, taken)
    {
      ghost var offers, was, done := Offers(c, trace, from), s, c.subs.Keys - todo;
      OfferTo(sub, i, from);
      OneMoreEach(offers, done, i, was, s, sub);
      assert c.subs.Keys - (todo - {sub}) == done + {sub};
    }

    method EndFanOut()
      requires Valid() && s.processor == FanningOut({})
      modifies this`s, this`trace, this`at
      ensures Valid() && old(trace) <= trace && s.processor == Waiting && s.taken == old(s).taken
      ensures s.deliveries.Keys == old(s).deliveries.Keys
      ensures forall k :: |old(trace)| <= k < |trace| ==> !trace[k].Spawn?
    {
      var m := Others(Processing);
      Do(Step.EndFanOut);
    }

    /** deliverMessageToSubscribers up to its wait: each subscription is offered the message once, and gets it exactly
        if it is then open and its filter lets the message through. */
    method FanOut(i: nat)
      requires Valid() && s.processor == FanningOut(c.subs.Keys) && |s.taken| == i + 1
      modifies this`s, this`trace, this`at
      ensures Valid() && old(trace) <= trace && s.processor == Waiting && s.taken == old(s).taken
      ensures OneEach(Offers(c, trace, |old(trace)|), c.subs.Keys, i, s)
    {
      OfferAll(i);
      assert c.subs.Keys - {} == c.subs.Keys;
      ghost var before, was := trace, s;
      EndFanOut();
      QuietSteps(c, before, trace, |old(trace)|);
      SameEach(Offers(c, trace, |old(trace)|), c.subs.Keys, i, was, s);
    }

    /** The wait for the deliveries: it ends when they are all done, or on the timeout where there is one. */
    method Await(patience: nat) returns (done: bool)
      requires Valid() && s.processor == Waiting && s.taken != []
      modifies this`s, this`trace, this`at
      ensures Valid() && old(trace) <= trace && s.taken == old(s).taken
      ensures done == s.processor.Idle? && (!done ==> s.processor == Waiting)
      ensures done && !c.timeouts ==> AllDelivered(s, |s.taken| - 1)
      ensures !done ==> !AllDelivered(s, |s.taken| - 1)
    {
      done := false;
      var rounds := 0;
      while !done && rounds <= patience
        invariant Valid() && old(trace) <= trace && s.taken == old(s).taken
        invariant done == s.processor.Idle? && (!done ==> s.processor == Waiting)
        invariant done && !c.timeouts ==> AllDelivered(s, |s.taken| - 1)
        invariant !done && rounds > 0 ==> !AllDelivered(s, |s.taken| - 1)
        decreases !done, patience - rounds
      {
        var m := Others(Processing);
        if AllDelivered(s, |s.taken| - 1) {
          Do(Finish);
          done := true;
        } else if m.expired && c.timeouts {
          Do(TimeOut);
          done := true;
        }
        rounds := rounds + 1;
      }
    }

    /** One round of processTopicMessages: the next message of the queue order is fanned out and awaited. */
    method ProcessNext(patience: nat) returns (took: bool, done: bool)
      requires Valid() && s.processor.Idle?
      modifies this`s, this`trace, this`at
      ensures Valid() && old(trace) <= trace
      ensures !took ==> s.processor.Idle? && s.taken == old(s).taken && s.queue == [] && !done
      ensures took ==> |s.taken| == |old(s).taken| + 1 && s.taken <= s.accepted && (done <==> s.processor.Idle?)
      ensures took && done && !c.timeouts ==> AllDelivered(s, |old(s).taken|)
      ensures took && !done ==> !AllDelivered(s, |old(s).taken|)
      ensures done && !c.timeouts ==>
                forall u :: u in c.subs && !Spoilt(c, u) ==> Collapsed(LogOf(s, u)) == Wanted(c.subs[u], s.taken)
    {
      var m := Others(Processing);
      took, done := s.queue != [], false;
      if took {
        Do(Step.Take);
        FanOut(|s.taken| - 1);
        done := Await(patience);
      }
      RunPlace(c, trace);
      if done && !c.timeouts {
        forall u | u in c.subs && !Spoilt(c, u) ensures Collapsed(LogOf(s, u)) == Wanted(c.subs[u], s.taken) {
          DeliveryOrder(c, trace, u);
        }
      }
    }
  }

  lemma SpawnOffers(c: Config, s: State, sub: SubId)
    requires PlaceInv(c, s) && s.processor.FanningOut? && sub in s.processor.todo && sub in c.subs
    ensures Allowed(c, s, Spawn(sub))
    ensures var s', i := Next(c, s, Spawn(sub)), |s.taken| - 1;
            && s' == s.(processor := FanningOut(s.processor.todo - {sub}), deliveries := s'.deliveries)
            && i >= 0 && Has(s', sub, i) == Accepts(c, s, sub)
            && forall u :: u != sub ==> Has(s', u, i) == Has(s, u, i)
  {
    assert (sub, |s.taken| - 1) !in s.deliveries;
  }

  lemma {:induction false} QuietSteps(c: Config, before: seq<Step>, after: seq<Step>, from: nat)
    requires before <= after && from <= |before|
    requires forall k :: |before| <= k < |after| ==> !after[k].Spawn?
    ensures Offers(c, after, from) == Offers(c, before, from)
  {
    if |before| < |after| {
      QuietSteps(c, before, after[..|after| - 1], from);
    } else {
      assert before == after;
    }
  }

  lemma OneMoreOffer(c: Config, trace: seq<Step>, from: nat, sub: SubId)
    requires from <= |trace| && Allowed(c, Run(c, START, trace), Spawn(sub))
    ensures Offers(c, trace + [Spawn(sub)], from)
            == Offers(c, trace, from) + [Offer(sub, Accepts(c, Run(c, START, trace), sub))]
  {
    assert (trace + [Spawn(sub)])[..|trace|] == trace;
  }

  lemma OneMoreEach(offers: seq<Offer>, subs: set<SubId>, i: nat, s: State, s': State, sub: SubId)
    requires OneEach(offers, subs, i, s) && sub !in subs
    requires forall u :: u != sub ==> Has(s', u, i) == Has(s, u, i)
    ensures OneEach(offers + [Offer(sub, Has(s', sub, i))], subs + {sub}, i, s')
  {
    var more := offers + [Offer(sub, Has(s', sub, i))];
    assert more[|offers|] in more;
    forall u | u in subs ensures exists o :: o in more && o.sub == u {
      var o :| o in offers && o.sub == u;
      assert o in more;
    }
  }

  lemma SameEach(offers: seq<Offer>, subs: set<SubId>, i: nat, s: State, s': State)
    requires OneEach(offers, subs, i, s) && s'.deliveries.Keys == s.deliveries.Keys
    ensures OneEach(offers, subs, i, s')
  {
    assert forall u :: (u, i) in s'.deliveries.Keys <==> (u, i) in s.deliveries.Keys;
  }

  lemma LostForAll(c: Config, s: State, e: Step)
    ensures forall n | Lost(s, n) :: Lost(Next(c, s, e), n)
  {
    forall n | Lost(s, n) ensures Lost(Next(c, s, e), n) {
      LostStays(c, s, e, n);
    }
  }

  lemma {:induction false} ZeroIsLost(c: Config, trace: seq<Step>)
    ensures Lost(Run(c, START, trace), 0)
  {
    if trace != [] {
      ZeroIsLost(c, trace[..|trace| - 1]);
      LostStays(c, Run(c, START, trace[..|trace| - 1]), trace[|trace| - 1], 0);
    }
  }
}
