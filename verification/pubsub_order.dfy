/**
  Exactly which configurations keep a subscription in order, whatever happens, and what publishers can rely on:
  the sequence numbers in the queue.
 */
module DeliveryExact {
  import opened Delivery

  lemma RunMore(c: Config, s: State, steps: seq<Step>, e: Step)
    ensures Run(c, s, steps + [e]) == Next(c, Run(c, s, steps), e)
  {
    assert (steps + [e])[..|steps|] == steps;
  }

  ghost predicate AlwaysInOrder(c: Config, u: SubId)
    requires u in c.subs
  {
    forall steps :: InOrder(c, Run(c, START, steps), u)
  }

  /** Such a subscription cannot be disappointed: nothing it wants ever enters the queue. */
  predicate Idling(c: Config, u: SubId)
    requires u in c.subs
  {
    c.capacity == 0 || !CanWant(c.subs[u])
  }

  // ---- a subscription that never gets anything --------------------------------------------------

  ghost predicate NothingFor(c: Config, s: State, u: SubId) {
    && s.accepted == s.taken + s.queue && |s.queue| <= c.capacity && (c.capacity == 0 ==> s.accepted == [])
    && (forall j :: (u, j) !in s.deliveries) && LogOf(s, u) == []
  }

  lemma NextNothing(c: Config, s: State, u: SubId, e: Step)
    requires u in c.subs && Idling(c, u) && NothingFor(c, s, u) && MessagesInv(s)
    ensures NothingFor(c, Next(c, s, e), u)
  {
    if Allowed(c, s, e) {
      if e.Take? || e.Enqueue? {
        NothingQueued(c, s, u, e);
      } else {
        var s' := Next(c, s, e);
        assert s'.accepted == s.accepted && s'.taken == s.taken && s'.queue == s.queue;
      }
    }
  }

  lemma NothingQueued(c: Config, s: State, u: SubId, e: Step)
    requires NothingFor(c, s, u) && (e.Take? || e.Enqueue?) && Allowed(c, s, e)
    ensures NothingFor(c, Next(c, s, e), u)
  {
    if e.Take? {
      assert s.queue == [s.queue[0]] + s.queue[1..];
    }
  }

  lemma {:induction false} RunNothing(c: Config, u: SubId, steps: seq<Step>)
    requires u in c.subs && Idling(c, u)
    ensures NothingFor(c, Run(c, START, steps), u) && InOrder(c, Run(c, START, steps), u)
  {
    if steps != [] {
      RunNothing(c, u, steps[..|steps| - 1]);
      RunProper(c, steps[..|steps| - 1]);
      NextNothing(c, Run(c, START, steps[..|steps| - 1]), u, steps[|steps| - 1]);
    }
    var s := Run(c, START, steps);
    RunProper(c, steps);
    NoneWanted(c.subs[u], s.taken[..Settled(s)]);
  }

  lemma {:induction false} NoneWanted(sub: Subscription, messages: seq<Message>)
    requires forall k :: 0 <= k < |messages| ==> !Wants(sub, messages[k])
    ensures Wanted(sub, messages) == []
  {
    if messages != [] {
      NoneWanted(sub, messages[..|messages| - 1]);
    }
  }

  // ---- a fan-out that does not wait -------------------------------------------------------------

  /** A message with these headers goes through the queue to the processor. */
  lemma OneTaken(c: Config, headers: map<string, string>) returns (steps: seq<Step>)
    requires c.capacity > 0
    ensures var s, m := Run(c, START, steps), Message(1, headers, 0);
            && s.taken == s.accepted == [m] && s.retryCounts == [0] && s.queue == [] && s.deliveries == map[]
            && s.logs == map[] && s.processor == FanningOut(c.subs.Keys)
  {
    steps := [Stamp(0, headers)];
    RunMore(c, START, [], Stamp(0, headers));
    assert [] + [Stamp(0, headers)] == steps;
    RunMore(c, START, steps, Enqueue(0));
    steps := steps + [Enqueue(0)];
    RunMore(c, START, steps, Take);
    steps := steps + [Take];
  }

  /** The rest of the fan-out. */
  lemma {:induction false} FanOut(c: Config, steps: seq<Step>, todo: set<SubId>) returns (more: seq<Step>)
    requires Run(c, START, steps).processor == FanningOut(todo) && todo <= c.subs.Keys
    requires 0 < |Run(c, START, steps).taken| == |Run(c, START, steps).retryCounts|
    ensures var s, s' := Run(c, START, steps), Run(c, START, more);
            s' == s.(processor := Waiting, deliveries := s'.deliveries)
    decreases |todo|
  {
    if todo == {} {
      RunMore(c, START, steps, EndFanOut);
      more := steps + [EndFanOut];
    } else {
      var v :| v in todo;
      RunMore(c, START, steps, Spawn(v));
      more := FanOut(c, steps + [Spawn(v)], todo - {v});
    }
  }

  /** A delivery timeout lets the processor go on without u having seen its message. */
  lemma TimeoutsBreakOrder(c: Config, u: SubId) returns (steps: seq<Step>)
    requires u in c.subs && !Idling(c, u) && c.timeouts
    ensures !InOrder(c, Run(c, START, steps), u)
  {
    var m := Message(1, c.subs[u].filter.headers, 0);
    steps := OneTaken(c, m.headers);
    steps := FanOut(c, steps, c.subs.Keys);
    RunMore(c, START, steps, TimeOut);
    steps := steps + [TimeOut];
    var s := Run(c, START, steps);
    assert s.taken[..1] == [m] && Wanted(c.subs[u], [m]) == [0] by {
      WantedExactly(c.subs[u], [m]);
      assert Wants(c.subs[u], [m][0]);
      assert 0 in Wanted(c.subs[u], [m]);
    }
  }

  // ---- a filter spoilt by another subscription's retries ----------------------------------------

  ghost predicate AtAttempt(s: State, v: SubId, d: Delivery) {
    |s.retryCounts| == 1 && (v, 0) in s.deliveries && s.deliveries[(v, 0)] == d
  }

  lemma CallHandler(c: Config, steps: seq<Step>, v: SubId, k: nat, again: bool) returns (more: seq<Step>)
    requires AtAttempt(Run(c, START, steps), v, Ready(k, true, again))
    ensures var s, s' := Run(c, START, steps), Run(c, START, more);
            && s' == s.(retryCounts := [k], deliveries := s'.deliveries, logs := s'.logs)
            && s'.deliveries.Keys == s.deliveries.Keys && AtAttempt(s', v, InHandler(k, true))
  {
    RunMore(c, START, steps, Invoke(v, 0));
    more := steps + [Invoke(v, 0)];
  }

  lemma FailOnce(c: Config, steps: seq<Step>, v: SubId, k: nat) returns (more: seq<Step>)
    requires v in c.subs && k < c.subs[v].maxRetries && AtAttempt(Run(c, START, steps), v, InHandler(k, true))
    ensures var s, s' := Run(c, START, steps), Run(c, START, more);
            && s' == s.(deliveries := s'.deliveries)
            && s'.deliveries.Keys == s.deliveries.Keys && AtAttempt(s', v, Ready(k + 1, true, true))
  {
    RunMore(c, START, steps, Return(v, 0, Fails));
    more := steps + [Return(v, 0, Fails)];
  }

  /** v's delivery of message 0 fails until its attempt number is k. */
  lemma {:induction false} KeepFailing(c: Config, steps: seq<Step>, v: SubId, k: nat) returns (more: seq<Step>)
    requires v in c.subs && k <= c.subs[v].maxRetries && AtAttempt(Run(c, START, steps), v, Ready(0, true, false))
    ensures var s, s' := Run(c, START, steps), Run(c, START, more);
            && s' == s.(retryCounts := [k], deliveries := s'.deliveries, logs := s'.logs)
            && s'.deliveries.Keys == s.deliveries.Keys && AtAttempt(s', v, InHandler(k, true))
  {
    if k == 0 {
      more := CallHandler(c, steps, v, 0, false);
    } else {
      more := KeepFailing(c, steps, v, k - 1);
      more := FailOnce(c, more, v, k - 1);
      more := CallHandler(c, more, v, k, true);
    }
  }

  /** If v is served first and its handler keeps failing, u's filter refuses a message that u wants. */
  lemma RetriesSpoilFilter(c: Config, u: SubId, v: SubId) returns (steps: seq<Step>)
    requires u in c.subs && !Idling(c, u) && c.subs[u].filter.maxRetryCount > 0
    requires v in c.subs && v != u && Spoils(c.subs[v], c.subs[u])
    ensures !InOrder(c, Run(c, START, steps), u)
  {
    var f, g := c.subs[u].filter, c.subs[v].filter;
    var m := Message(1, f.headers + g.headers, 0);
    assert HeadersMatch(f, m) && HeadersMatch(g, m);
    steps := OneTaken(c, m.headers);
    RunMore(c, START, steps, Spawn(v));
    steps := steps + [Spawn(v)];
    RunMore(c, START, steps, Admit(v, 0, true));
    steps := steps + [Admit(v, 0, true)];
    steps := KeepFailing(c, steps, v, f.maxRetryCount);
    var s := Run(c, START, steps);
    RunMore(c, START, steps, Spawn(u));
    steps := steps + [Spawn(u)];
    assert Run(c, START, steps) == s.(processor := FanningOut(s.processor.todo - {u}));
    assert !Served(c, Run(c, START, steps), u, 0);
  }

  /** A subscription that can get anything is kept in order in every run exactly if the fan-out waits for its deliveries
      and no other subscription that can share a message with it retries as often as its filter's limit. */
  lemma OrderExactly(c: Config, u: SubId)
    requires u in c.subs
    ensures AlwaysInOrder(c, u) <==> Idling(c, u) || (!c.timeouts && !Spoilt(c, u))
  {
    if Idling(c, u) {
      forall steps ensures InOrder(c, Run(c, START, steps), u) {
        RunNothing(c, u, steps);
      }
    } else if c.timeouts {
      var steps := TimeoutsBreakOrder(c, u);
    } else if Spoilt(c, u) {
      var v :| v in c.subs && v != u && Spoils(c.subs[v], c.subs[u]);
      var steps := RetriesSpoilFilter(c, u, v);
    } else {
      forall steps ensures InOrder(c, Run(c, START, steps), u) {
        DeliveryOrder(c, steps, u);
      }
    }
  }

  /** publishMessage sets no priority, so a filter that asks for one is never satisfied. */
  lemma PriorityFilterStarves(c: Config, u: SubId, steps: seq<Step>)
    requires u in c.subs && c.subs[u].filter.priority > 0
    ensures LogOf(Run(c, START, steps), u) == []
  {
    RunNothing(c, u, steps);
  }

  // ---- sequence numbers -------------------------------------------------------------------------

  ghost predicate NumbersInv(s: State) {
    && (forall k :: 0 <= k < |s.accepted| ==> s.accepted[k].sequence <= s.sequence)
    && (forall p :: p in s.inHand ==> s.inHand[p].sequence <= s.sequence)
    && (forall p, q :: p in s.inHand && q in s.inHand && p != q ==> s.inHand[p].sequence != s.inHand[q].sequence)
    && (forall p, k :: p in s.inHand && 0 <= k < |s.accepted| ==> s.accepted[k].sequence != s.inHand[p].sequence)
    && (forall j, k :: 0 <= j < k < |s.accepted| ==> s.accepted[j].sequence != s.accepted[k].sequence)
  }

  lemma StampNumbers(c: Config, s: State, e: Step)
    requires NumbersInv(s) && e.Stamp? && Allowed(c, s, e)
    ensures NumbersInv(Next(c, s, e))
  {
    var s' := Next(c, s, e);
    assert forall p :: p in s'.inHand && p != e.publisher ==> p in s.inHand && s'.inHand[p] == s.inHand[p];
    assert s'.inHand[e.publisher].sequence == s.sequence + 1 && s'.accepted == s.accepted;
  }

  lemma EnqueueNumbers(c: Config, s: State, e: Step)
    requires NumbersInv(s) && (e.Enqueue? || e.Abandon?) && Allowed(c, s, e)
    ensures NumbersInv(Next(c, s, e))
  {
    var s' := Next(c, s, e);
    LetGoNumbers(s, s.(inHand := s.inHand - {e.publisher}), e.publisher);
    if s'.accepted != s.accepted {
      AcceptNumbers(s, s', e.publisher);
    }
  }

  lemma LetGoNumbers(s: State, s': State, p: nat)
    requires NumbersInv(s) && s' == s.(inHand := s.inHand - {p})
    ensures NumbersInv(s')
  {
    assert forall q :: q in s'.inHand ==> q in s.inHand && s'.inHand[q] == s.inHand[q];
  }

  lemma AcceptNumbers(s: State, s': State, p: nat)
    requires NumbersInv(s) && p in s.inHand && s'.inHand == s.inHand - {p} && s'.sequence == s.sequence
    requires s'.accepted == s.accepted + [s.inHand[p]]
    ensures NumbersInv(s')
  {
    assert forall q :: q in s'.inHand ==> q != p && q in s.inHand && s'.inHand[q] == s.inHand[q];
  }

  lemma NextNumbers(c: Config, s: State, e: Step)
    requires NumbersInv(s)
    ensures NumbersInv(Next(c, s, e))
  {
    if Allowed(c, s, e) {
      if e.Stamp? {
        StampNumbers(c, s, e);
      } else if e.Enqueue? || e.Abandon? {
        EnqueueNumbers(c, s, e);
      } else {
        var s' := Next(c, s, e);
        assert s'.accepted == s.accepted && s'.inHand == s.inHand && s'.sequence == s.sequence;
      }
    }
  }

  lemma {:induction false} RunNumbers(c: Config, steps: seq<Step>)
    ensures NumbersInv(Run(c, START, steps))
  {
    if steps != [] {
      RunNumbers(c, steps[..|steps| - 1]);
      NextNumbers(c, Run(c, START, steps[..|steps| - 1]), steps[|steps| - 1]);
    }
  }

  /** However many publishers there are, no two queued messages have the same sequence number. */
  lemma SequencesDiffer(c: Config, steps: seq<Step>)
    ensures var accepted := Run(c, START, steps).accepted;
            forall j, k :: 0 <= j < k < |accepted| ==> accepted[j].sequence != accepted[k].sequence
  {
    RunNumbers(c, steps);
  }

  predicate OnlyPublisher(p: nat, e: Step) {
    (e.Stamp? || e.Enqueue? || e.Abandon?) ==> e.publisher == p
  }

  ghost predicate LoneInv(p: nat, s: State) {
    && s.inHand.Keys <= {p}
    && (forall k :: 0 <= k < |s.accepted| ==> s.accepted[k].sequence <= s.sequence)
    && (p in s.inHand ==>
          s.inHand[p].sequence <= s.sequence
          && forall k :: 0 <= k < |s.accepted| ==> s.accepted[k].sequence < s.inHand[p].sequence)
    && forall j, k :: 0 <= j < k < |s.accepted| ==> s.accepted[j].sequence < s.accepted[k].sequence
  }

  lemma NextLone(c: Config, p: nat, s: State, e: Step)
    requires LoneInv(p, s) && OnlyPublisher(p, e)
    ensures LoneInv(p, Next(c, s, e))
  {
  }

  lemma {:induction false} RunLone(c: Config, p: nat, steps: seq<Step>)
    requires forall k :: 0 <= k < |steps| ==> OnlyPublisher(p, steps[k])
    ensures LoneInv(p, Run(c, START, steps))
  {
    if steps != [] {
      RunLone(c, p, steps[..|steps| - 1]);
      NextLone(c, p, Run(c, START, steps[..|steps| - 1]), steps[|steps| - 1]);
    }
  }

  /** A lone publisher's messages stand in the queue in the order of their sequence numbers. */
  lemma LonePublisherAscends(c: Config, p: nat, steps: seq<Step>)
    requires forall k :: 0 <= k < |steps| ==> OnlyPublisher(p, steps[k])
    ensures Ascending(Run(c, START, steps).accepted)
  {
    RunLone(c, p, steps);
  }

  /** So what a subscription sees of a lone publisher, repeats aside, has ascending sequence numbers. */
  lemma LonePublisherSeenInOrder(c: Config, p: nat, steps: seq<Step>, u: SubId)
    requires u in c.subs && !Spoilt(c, u) && !c.timeouts
    requires forall k :: 0 <= k < |steps| ==> OnlyPublisher(p, steps[k])
    ensures var s := Run(c, START, steps);
            var seen := Collapsed(LogOf(s, u));
            && (forall k :: 0 <= k < |seen| ==> seen[k] < |s.taken|)
            && (forall j, k :: 0 <= j < k < |seen| ==> s.taken[seen[j]].sequence < s.taken[seen[k]].sequence)
  {
    var s := Run(c, START, steps);
    DeliveryOrder(c, steps, u);
    RunLone(c, p, steps);
    SeenAscends(c, s, u);
  }

  lemma SeenAscends(c: Config, s: State, u: SubId)
    requires u in c.subs && InOrder(c, s, u)
    requires Ascending(s.accepted)
    ensures var seen := Collapsed(LogOf(s, u));
            && (forall k :: 0 <= k < |seen| ==> seen[k] < |s.taken|)
            && (forall j, k :: 0 <= j < k < |seen| ==> s.taken[seen[j]].sequence < s.taken[seen[k]].sequence)
  {
    SeenPlaces(c, s, u);
    var seen := Collapsed(LogOf(s, u));
    forall j, k | 0 <= j < k < |seen| ensures seen[j] < seen[k] {
    }
    AscendingAt(s.taken, s.queue, seen);
  }

  predicate Ascending(messages: seq<Message>) {
    forall j, k :: 0 <= j < k < |messages| ==> messages[j].sequence < messages[k].sequence
  }

  lemma AscendingAt(taken: seq<Message>, queue: seq<Message>, seen: seq<nat>)
    requires Ascending(taken + queue)
    requires forall k :: 0 <= k < |seen| ==> seen[k] < |taken|
    requires forall j, k :: 0 <= j < k < |seen| ==> seen[j] < seen[k]
    ensures forall j, k :: 0 <= j < k < |seen| ==> taken[seen[j]].sequence < taken[seen[k]].sequence
  {
    forall j, k | 0 <= j < k < |seen| ensures taken[seen[j]].sequence < taken[seen[k]].sequence {
      assert (taken + queue)[seen[j]] == taken[seen[j]] && (taken + queue)[seen[k]] == taken[seen[k]];
    }
  }

  lemma SeenPlaces(c: Config, s: State, u: SubId)
    requires u in c.subs && InOrder(c, s, u)
    ensures var seen := Collapsed(LogOf(s, u));
            && (forall k :: 0 <= k < |seen| ==> seen[k] < |s.taken|)
            && (forall j, k :: 0 <= j < k < |seen| ==> seen[j] < seen[k])
  {
    WantedExactly(c.subs[u], s.taken[..Settled(s)]);
  }

  // ---- exactly which publishers keep the queue in order -----------------------------------------

  ghost predicate PublishedBy(publishers: set<nat>, steps: seq<Step>) {
    forall e :: e in steps && (e.Stamp? || e.Enqueue? || e.Abandon?) ==> e.publisher in publishers
  }

  /** One step more. */
  lemma Do(c: Config, steps: seq<Step>, e: Step) returns (more: seq<Step>)
    ensures more == steps + [e] && Run(c, START, more) == Next(c, Run(c, START, steps), e)
  {
    RunMore(c, START, steps, e);
    more := steps + [e];
  }

  /** Any two publishers can queue their messages in the opposite order, however little room there is: a number is drawn
      before the queue is entered. */
  lemma TwoPublishersSwap(c: Config, p: nat, q: nat) returns (steps: seq<Step>)
    requires c.capacity >= 1 && p != q
    ensures PublishedBy({p, q}, steps)
    ensures var accepted := Run(c, START, steps).accepted;
            |accepted| == 2 && accepted[0].sequence == 2 && accepted[1].sequence == 1
  {
    steps := Do(c, [], Stamp(p, map[]));
    steps := Do(c, steps, Stamp(q, map[]));
    steps := Do(c, steps, Enqueue(q));
    steps := Do(c, steps, Step.Take);
    steps := Do(c, steps, Enqueue(p));
  }

  /** Nothing is ever queued where there is no room. */
  lemma {:induction false} NoRoom(c: Config, steps: seq<Step>)
    requires c.capacity == 0
    ensures Run(c, START, steps).accepted == []
  {
    if steps != [] {
      NoRoom(c, steps[..|steps| - 1]);
    }
  }

  ghost predicate AlwaysAscending(c: Config, publishers: set<nat>) {
    forall steps :: PublishedBy(publishers, steps) ==> Ascending(Run(c, START, steps).accepted)
  }

  /** In every run in which only these publish, the queue order is the order of the sequence numbers if and only if
      there is no room in the queue or at most one publisher. */
  lemma AscendingExactly(c: Config, publishers: set<nat>)
    ensures AlwaysAscending(c, publishers) <==> c.capacity == 0 || |publishers| <= 1
  {
    if c.capacity == 0 {
      forall steps | PublishedBy(publishers, steps) ensures Ascending(Run(c, START, steps).accepted) {
        NoRoom(c, steps);
      }
    } else if |publishers| <= 1 {
      var p := Only(publishers);
      forall steps | PublishedBy(publishers, steps) ensures Ascending(Run(c, START, steps).accepted) {
        forall k | 0 <= k < |steps| ensures OnlyPublisher(p, steps[k]) {
          assert steps[k] in steps;
        }
        LonePublisherAscends(c, p, steps);
      }
    } else {
      var p :| p in publishers;
      assert |publishers - {p}| == |publishers| - 1;
      var q :| q in publishers - {p};
      var steps := TwoPublishersSwap(c, p, q);
      assert !Ascending(Run(c, START, steps).accepted);
    }
  }

  lemma Only(publishers: set<nat>) returns (p: nat)
    requires |publishers| <= 1
    ensures publishers <= {p}
  {
    if publishers == {} {
      p := 0;
    } else {
      p :| p in publishers;
      assert |publishers - {p}| == 0;
    }
  }
}
