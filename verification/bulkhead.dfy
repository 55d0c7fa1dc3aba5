/**
  The bulkhead of bulkhead.go: two channels of tokens, one for running calls and one for the waiting room.
  Each call is a process; between any two of its steps others may move.  `Run` skips steps that cannot happen.
 */
module Bulkheads {
  import opened Counting
  import opened Traces

  datatype Limits = Limits(maxCalls: nat, maxQueue: nat) {
    predicate Valid() {
      1 <= maxCalls <= 10_000 && 1 <= maxQueue <= 100_000
    }
  }

  /** How a function ends. */
  datatype Ending = Fine | Error | Panic

  datatype Verdict = Succeeded | Errored | Panicked | Rejected(timedOut: bool)

  /** What a call does next. */
  datatype Pc =
    | Entered                       // add to TotalCalls
    | Trying                        // send to the semaphore, or see it full
    | Queueing                      // send to the queue, or see it full
    | Waiting                       // in the waiting room, until a slot or the deadline
    | Admitted                      // owns a slot, receive from the queue
    | GaveUp(deadline: bool)        // no slot, receive from the queue
    | Expired                       // add to TimeoutCalls
    | Refused(timedOut: bool)       // add to RejectedCalls
    | Starting                      // add to CurrentConcurrentCalls
    | Running                       // run the function
    | Returned(ok: bool)            // add to SuccessfulCalls or FailedCalls; a panic skips this
    | Releasing(how: Ending)        // receive from the semaphore, deferred
    | Leaving(how: Ending)          // take away from CurrentConcurrentCalls
    | Over(verdict: Verdict)

  datatype State = State(semaphore: nat, queue: nat, calls: map<nat, Pc>, total: nat, successful: nat, failed: nat,
                         rejected: nat, timeouts: nat, current: int)

  const START := State(0, 0, map[], 0, 0, 0, 0, 0, 0)

  /** Go(id) is the one thing call id does next, by itself; Arrive, Cancel (its context is done), Deadline (it waited
      MaxWaitDuration) and Return (its function is done) come from outside. */
  datatype Step = Arrive(id: nat) | Go(id: nat) | Cancel(id: nat) | Deadline(id: nat)
                | Return(id: nat, how: Ending)

  predicate Allowed(l: Limits, s: State, e: Step) {
    match e
    case Arrive(id) => id !in s.calls
    case Go(id) =>
      && id in s.calls
      && (match s.calls[id]
          case Waiting => s.semaphore < l.maxCalls       // the send blocks while the semaphore is full
          case Admitted => s.queue > 0                   // a receive blocks while the channel is empty
          case GaveUp(_) => s.queue > 0
          case Releasing(_) => s.semaphore > 0
          case Running => false
          case Over(_) => false
          case _ => true)
    case Cancel(id) => id in s.calls && (s.calls[id].Trying? || s.calls[id].Queueing? || s.calls[id].Waiting?)
    case Deadline(id) => id in s.calls && s.calls[id].Waiting?
    case Return(id, _) => id in s.calls && s.calls[id].Running?
  }

  function Moved(s: State, id: nat, pc: Pc): State {
    s.(calls := s.calls[id := pc])
  }

  function Went(l: Limits, s: State, id: nat): State
    requires Allowed(l, s, Go(id))
  {
    match s.calls[id]
    case Entered => Moved(s, id, Trying).(total := s.total + 1)
    case Trying =>
      if s.semaphore < l.maxCalls then Moved(s, id, Starting).(semaphore := s.semaphore + 1) else Moved(s, id, Queueing)
    case Queueing =>
      if s.queue < l.maxQueue then Moved(s, id, Waiting).(queue := s.queue + 1) else Moved(s, id, Refused(false))
    case Waiting => Moved(s, id, Admitted).(semaphore := s.semaphore + 1)
    case Admitted => Moved(s, id, Starting).(queue := s.queue - 1)
    case GaveUp(deadline) => Moved(s, id, if deadline then Expired else Refused(false)).(queue := s.queue - 1)
    case Expired => Moved(s, id, Refused(true)).(timeouts := s.timeouts + 1)
    case Refused(timedOut) => Moved(s, id, Over(Rejected(timedOut))).(rejected := s.rejected + 1)
    case Starting => Moved(s, id, Running).(current := s.current + 1)
    case Returned(ok) =>
      if ok then Moved(s, id, Releasing(Fine)).(successful := s.successful + 1)
      else Moved(s, id, Releasing(Error)).(failed := s.failed + 1)
    case Releasing(how) => Moved(s, id, Leaving(how)).(semaphore := s.semaphore - 1)
    case Leaving(how) => Moved(s, id, Over(VerdictOf(how))).(current := s.current - 1)
  }

  function VerdictOf(how: Ending): Verdict {
    match how
    case Fine => Succeeded
    case Error => Errored
    case Panic => Panicked
  }

  function Next(l: Limits, s: State, e: Step): State {
    if !Allowed(l, s, e) then s
    else match e
      case Arrive(id) => Moved(s, id, Entered)
      case Go(id) => Went(l, s, id)
      case Cancel(id) => Moved(s, id, if s.calls[id].Waiting? then GaveUp(false) else Refused(false))
      case Deadline(id) => Moved(s, id, GaveUp(true))
      case Return(id, how) => Moved(s, id, if how.Panic? then Releasing(Panic) else Returned(how.Fine?))
  }

  function Run(l: Limits, s: State, steps: seq<Step>): State {
    if steps == [] then s else Next(l, Run(l, s, steps[..|steps| - 1]), steps[|steps| - 1])
  }

  // ---- who holds what ---------------------------------------------------------------------------

  predicate OwnsSlot(pc: Pc) {
    pc.Admitted? || pc.Starting? || pc.Running? || pc.Returned? || pc.Releasing?
  }

  predicate InWaitingRoom(pc: Pc) {
    pc.Waiting? || pc.Admitted? || pc.GaveUp?
  }

  predicate Counted(pc: Pc) {
    !pc.Entered?
  }

  predicate HasSucceeded(pc: Pc) {
    EndedBy(pc, Fine)
  }

  predicate HasFailed(pc: Pc) {
    EndedBy(pc, Error)
  }

  predicate HasPanicked(pc: Pc) {
    EndedBy(pc, Panic)
  }

  /** The function has ended like this, and that has been counted, if it ever is. */
  predicate EndedBy(pc: Pc, how: Ending) {
    ((pc.Releasing? || pc.Leaving?) && pc.how == how) || pc == Over(VerdictOf(how))
  }

  predicate WasRejected(pc: Pc) {
    pc.Over? && pc.verdict.Rejected?
  }

  predicate InFlight(pc: Pc) {
    Counted(pc) && !HasSucceeded(pc) && !HasFailed(pc) && !HasPanicked(pc) && !WasRejected(pc)
  }

  predicate TimedOut(pc: Pc) {
    pc == Refused(true) || pc == Over(Rejected(true))
  }

  predicate IsCurrent(pc: Pc) {
    pc.Running? || pc.Returned? || pc.Releasing? || pc.Leaving?
  }

  ghost predicate TokensInv(l: Limits, s: State) {
    && s.semaphore == Count(s.calls, OwnsSlot) <= l.maxCalls
    && s.queue == Count(s.calls, InWaitingRoom) <= l.maxQueue
    && s.current == Count(s.calls, IsCurrent)
  }

  ghost predicate OutcomesInv(s: State) {
    && s.total == Count(s.calls, Counted)
    && s.successful == Count(s.calls, HasSucceeded)
    && s.failed == Count(s.calls, HasFailed)
  }

  ghost predicate RefusalsInv(s: State) {
    && s.rejected == Count(s.calls, WasRejected)
    && s.timeouts == Count(s.calls, TimedOut)
  }

  ghost predicate Inv(l: Limits, s: State) {
    TokensInv(l, s) && OutcomesInv(s) && RefusalsInv(s)
  }

  /** A counter changes from n to n' as call id's move says it should. */
  predicate Follows(s: State, s': State, id: nat, p: Pc -> bool, n: int, n': int)
    requires id in s'.calls
  {
    n' == n + One(p(s'.calls[id])) - One(id in s.calls && p(s.calls[id]))
  }

  lemma OneMoves(l: Limits, s: State, e: Step)
    requires Allowed(l, s, e)
    ensures var s' := Next(l, s, e);
            e.id in s'.calls && s'.calls == s.calls[e.id := s'.calls[e.id]]
  {
  }

  lemma SlotsFollow(l: Limits, s: State, e: Step)
    requires Allowed(l, s, e) && e.id in Next(l, s, e).calls
    ensures Follows(s, Next(l, s, e), e.id, OwnsSlot, s.semaphore, Next(l, s, e).semaphore)
    ensures Follows(s, Next(l, s, e), e.id, IsCurrent, s.current, Next(l, s, e).current)
  {
  }

  lemma PlacesFollow(l: Limits, s: State, e: Step)
    requires Allowed(l, s, e) && e.id in Next(l, s, e).calls
    ensures Follows(s, Next(l, s, e), e.id, InWaitingRoom, s.queue, Next(l, s, e).queue)
    ensures s.semaphore <= l.maxCalls && s.queue <= l.maxQueue ==>
              Next(l, s, e).semaphore <= l.maxCalls && Next(l, s, e).queue <= l.maxQueue
  {
  }

  lemma NextTokens(l: Limits, s: State, e: Step)
    requires TokensInv(l, s) && Allowed(l, s, e)
    ensures TokensInv(l, Next(l, s, e))
  {
    var s' := Next(l, s, e);
    OneMoves(l, s, e);
    SlotsFollow(l, s, e);
    PlacesFollow(l, s, e);
    CountPut(s.calls, OwnsSlot, e.id, s'.calls[e.id]);
    CountPut(s.calls, InWaitingRoom, e.id, s'.calls[e.id]);
    CountPut(s.calls, IsCurrent, e.id, s'.calls[e.id]);
  }

  lemma OutcomesFollow(l: Limits, s: State, e: Step)
    requires Allowed(l, s, e) && e.id in Next(l, s, e).calls
    ensures Follows(s, Next(l, s, e), e.id, HasSucceeded, s.successful, Next(l, s, e).successful)
    ensures Follows(s, Next(l, s, e), e.id, HasFailed, s.failed, Next(l, s, e).failed)
  {
  }

  lemma TotalFollows(l: Limits, s: State, e: Step)
    requires Allowed(l, s, e) && e.id in Next(l, s, e).calls
    ensures Follows(s, Next(l, s, e), e.id, Counted, s.total, Next(l, s, e).total)
  {
  }

  lemma NextOutcomes(l: Limits, s: State, e: Step)
    requires OutcomesInv(s) && Allowed(l, s, e)
    ensures OutcomesInv(Next(l, s, e))
  {
    var s' := Next(l, s, e);
    OneMoves(l, s, e);
    OutcomesFollow(l, s, e);
    TotalFollows(l, s, e);
    CountPut(s.calls, Counted, e.id, s'.calls[e.id]);
    CountPut(s.calls, HasSucceeded, e.id, s'.calls[e.id]);
    CountPut(s.calls, HasFailed, e.id, s'.calls[e.id]);
  }

  lemma NextRefusals(l: Limits, s: State, e: Step)
    requires RefusalsInv(s) && Allowed(l, s, e)
    ensures RefusalsInv(Next(l, s, e))
  {
    var s' := Next(l, s, e);
    OneMoves(l, s, e);
    CountPut(s.calls, WasRejected, e.id, s'.calls[e.id]);
    CountPut(s.calls, TimedOut, e.id, s'.calls[e.id]);
    assert Follows(s, s', e.id, WasRejected, s.rejected, s'.rejected);
    assert Follows(s, s', e.id, TimedOut, s.timeouts, s'.timeouts);
  }

  lemma NextInv(l: Limits, s: State, e: Step)
    requires Inv(l, s)
    ensures Inv(l, Next(l, s, e))
  {
    if Allowed(l, s, e) {
      NextTokens(l, s, e);
      NextOutcomes(l, s, e);
      NextRefusals(l, s, e);
    }
  }

  lemma {:induction false} RunInv(l: Limits, s: State, steps: seq<Step>)
    requires Inv(l, s)
    ensures Inv(l, Run(l, s, steps))
  {
    if steps != [] {
      RunInv(l, s, steps[..|steps| - 1]);
      NextInv(l, Run(l, s, steps[..|steps| - 1]), steps[|steps| - 1]);
    }
  }

  /** In every interleaving: semaphore tokens are exactly the calls that own a slot, queue tokens the calls in the
      waiting room, and neither exceeds its limit; so at most maxCalls functions run at once. */
  lemma Tokens(l: Limits, steps: seq<Step>)
    ensures var s := Run(l, START, steps);
            && s.semaphore == Count(s.calls, OwnsSlot) <= l.maxCalls
            && s.queue == Count(s.calls, InWaitingRoom) <= l.maxQueue
            && Count(s.calls, (pc: Pc) => pc.Running?) <= l.maxCalls
  {
    var s := Run(l, START, steps);
    assert Inv(l, START);
    RunInv(l, START, steps);
    CountLess(s.calls, (pc: Pc) => pc.Running?, OwnsSlot);
  }

  /** A call that gives a token back is never made to wait for one. */
  lemma ReceivesNeverBlock(l: Limits, steps: seq<Step>, id: nat)
    requires var s := Run(l, START, steps);
             id in s.calls && (s.calls[id].Admitted? || s.calls[id].GaveUp? || s.calls[id].Releasing?)
    ensures Allowed(l, Run(l, START, steps), Go(id))
  {
    var s := Run(l, START, steps);
    RunInv(l, START, steps);
    if s.calls[id].Releasing? {
      CountOne(s.calls, OwnsSlot, id);
    } else {
      CountOne(s.calls, InWaitingRoom, id);
    }
  }

  /** No deadlock, even if no deadline ever passes and no context is ever cancelled: while a call is unfinished,
      some call can take a step of its own or is running its function. */
  lemma Progress(l: Limits, steps: seq<Step>, id: nat) returns (e: Step)
    requires l.Valid() && id in Run(l, START, steps).calls && !Run(l, START, steps).calls[id].Over?
    ensures (e.Go? || e.Return?) && Allowed(l, Run(l, START, steps), e)
  {
    var s := Run(l, START, steps);
    RunInv(l, START, steps);
    var who := id;
    if s.calls[id].Waiting? && s.semaphore == l.maxCalls {
      who := CountSome(s.calls, OwnsSlot);
    }
    if s.calls[who].Running? {
      e := Return(who, Fine);
    } else {
      e := Go(who);
      if s.calls[who].Admitted? || s.calls[who].GaveUp? || s.calls[who].Releasing? {
        ReceivesNeverBlock(l, steps, who);
      }
    }
  }

  /** How many more steps a call can take at most. */
  function StepsLeft(pc: Pc): nat {
    match pc
    case Entered => 10
    case Trying => 9
    case Queueing => 8
    case Waiting => 7
    case Admitted => 6
    case Starting => 5
    case Running => 4
    case Returned(_) => 3
    case Releasing(_) => 2
    case Leaving(_) => 1
    case GaveUp(_) => 3
    case Expired => 2
    case Refused(_) => 1
    case Over(_) => 0
  }

  /** No livelock either: every step but an arrival uses up some of the steps all calls together have left. */
  lemma StepsRunOut(l: Limits, s: State, e: Step)
    requires Allowed(l, s, e) && !e.Arrive?
    ensures Sum(Next(l, s, e).calls, StepsLeft) < Sum(s.calls, StepsLeft)
  {
    SumPut(s.calls, StepsLeft, e.id, Next(l, s, e).calls[e.id]);
  }

  predicate Ended(pc: Pc) {
    SucceededOrFailed(pc) || WasRejected(pc)
  }

  predicate EndedSomehow(pc: Pc) {
    Ended(pc) || HasPanicked(pc)
  }

  predicate SucceededOrFailed(pc: Pc) {
    HasSucceeded(pc) || HasFailed(pc)
  }

  predicate RefusedLate(pc: Pc) {
    pc == Refused(true)
  }

  predicate RejectedLate(pc: Pc) {
    pc == Over(Rejected(true))
  }

  /** Every counted call is successful, failed, rejected or still in flight, but for those whose function panicked: they
      are in TotalCalls and in no other counter. */
  lemma CallsConserved(l: Limits, steps: seq<Step>)
    ensures var s := Run(l, START, steps);
            && s.total == s.successful + s.failed + s.rejected + Count(s.calls, HasPanicked) + Count(s.calls, InFlight)
            && s.successful == Count(s.calls, HasSucceeded) && s.failed == Count(s.calls, HasFailed)
            && s.rejected == Count(s.calls, WasRejected)
  {
    RunInv(l, START, steps);
    CountedSplit(Run(l, START, steps).calls);
  }

  lemma CountedSplit(calls: map<nat, Pc>)
    ensures Count(calls, Counted)
            == Count(calls, HasSucceeded) + Count(calls, HasFailed) + Count(calls, WasRejected)
               + Count(calls, HasPanicked) + Count(calls, InFlight)
  {
    CountBoth(calls, HasSucceeded, HasFailed, SucceededOrFailed);
    CountBoth(calls, SucceededOrFailed, WasRejected, Ended);
    CountBoth(calls, Ended, HasPanicked, EndedSomehow);
    CountBoth(calls, EndedSomehow, InFlight, Counted);
  }

  /** With no call in the bulkhead, the counters add up if and only if no function ever panicked. */
  lemma CountersAddUpExactly(l: Limits, steps: seq<Step>)
    requires forall id :: id in Run(l, START, steps).calls ==> Run(l, START, steps).calls[id].Over?
    ensures var s := Run(l, START, steps);
            s.total == s.successful + s.failed + s.rejected
            <==> forall id :: id in s.calls ==> !s.calls[id].verdict.Panicked?
  {
    var s := Run(l, START, steps);
    CallsConserved(l, steps);
    CountNone(s.calls, InFlight);
    if id :| id in s.calls && s.calls[id].verdict.Panicked? {
      CountOne(s.calls, HasPanicked, id);
    } else {
      CountNone(s.calls, HasPanicked);
    }
  }

  /** Timeouts are among the rejections, but for calls between the two counters. */
  lemma TimeoutsAreRejections(l: Limits, steps: seq<Step>)
    ensures var s := Run(l, START, steps);
            Count(s.calls, RefusedLate) <= s.timeouts <= s.rejected + Count(s.calls, RefusedLate)
  {
    var calls := Run(l, START, steps).calls;
    RunInv(l, START, steps);
    CountBoth(calls, RefusedLate, RejectedLate, TimedOut);
    CountLess(calls, RejectedLate, WasRejected);
  }

  // ---- the object -------------------------------------------------------------------------------

  /** What happens around one step of a call: what other calls do first, whether its context is done,
      and whether it has waited MaxWaitDuration. */
  datatype Moment = Moment(others: seq<Step>, cancelled: bool, expired: bool)

  lemma RunMore(l: Limits, s: State, trace: seq<Step>, e: Step)
    ensures Run(l, s, trace + [e]) == Next(l, Run(l, s, trace), e)
  {
    assert (trace + [e])[..|trace|] == trace;
  }

  lemma LeavesAlone(l: Limits, s: State, e: Step, id: nat)
    requires e.id != id
    ensures var s' := Next(l, s, e);
            (id in s'.calls <==> id in s.calls) && (id in s.calls ==> s'.calls[id] == s.calls[id])
  {
  }

  /** How often the call has waited MaxWaitDuration. */
  function Deadlines(trace: seq<Step>, id: nat): nat {
    if trace == [] then 0
    else Deadlines(trace[..|trace| - 1], id) + One(trace[|trace| - 1] == Deadline(id))
  }

  /** The call's wait has ended by the deadline between these two. */
  predicate Overdue(before: seq<Step>, after: seq<Step>, id: nat) {
    Deadlines(after, id) > Deadlines(before, id)
  }

  lemma OneMoreStep(trace: seq<Step>, e: Step, id: nat)
    ensures Deadlines(trace + [e], id) == Deadlines(trace, id) + One(e == Deadline(id))
  {
    assert (trace + [e])[..|trace|] == trace;
  }

  function Runs(l: Limits): seq<Step> -> State {
    (trace: seq<Step>) => Run(l, START, trace)
  }

  class Bulkhead {
    const l: Limits
    const tape: nat -> Moment
    var at: nat
    var s: State
    ghost var trace: seq<Step>

    /** The shared state is what the steps taken so far make of an idle bulkhead. */
    ghost predicate Valid()
      reads this
    {
      l.Valid() && s == Run(l, START, trace)
    }

    constructor (l: Limits, tape: nat -> Moment)
      requires l.Valid()
      ensures Valid() && s == START && trace == [] && this.l == l && this.tape == tape
    {
      this.l, this.tape, at, s, trace := l, tape, 0, START, [];
    }

    method Take(e: Step)
      requires Valid()
      modifies this`s, this`trace
      ensures Valid() && s == Next(l, old(s), e) && trace == old(trace) + [e]
    {
      RunMore(l, START, trace, e);
      s, trace := Next(l, s, e), trace + [e];
    }

    /** Everybody but call `id` moves on for a while. */
    method Others(id: nat) returns (m: Moment)
      requires Valid()
      modifies this`s, this`trace, this`at
      ensures Valid() && old(trace) <= trace && m == tape(old(at)) && at == old(at) + 1
      ensures id in old(s).calls ==> id in s.calls && s.calls[id] == old(s).calls[id]
      ensures id !in old(s).calls ==> id !in s.calls
      ensures Deadlines(trace, id) == Deadlines(old(trace), id)
    {
      m, at := tape(at), at + 1;
      var i := 0;
      while i < |m.others|
        invariant 0 <= i <= |m.others| && Valid() && old(trace) <= trace && at == old(at) + 1
        invariant id in old(s).calls ==> id in s.calls && s.calls[id] == old(s).calls[id]
        invariant id !in old(s).calls ==> id !in s.calls
        invariant Deadlines(trace, id) == Deadlines(old(trace), id)
      {
        if m.others[i].id != id {
          OneMoreStep(trace, m.others[i], id);
          LeavesAlone(l, s, m.others[i], id);
          Take(m.others[i]);
        }
        i := i + 1;
      }
    }

    /** One step of call `id`, after others have moved on.  It is never blocked. */
    method Step(id: nat) returns (before: State)
      requires Valid() && id in s.calls
      requires !s.calls[id].Waiting? && !s.calls[id].Running? && !s.calls[id].Over?
      modifies this`s, this`trace, this`at
      ensures Valid() && old(trace) <= trace
      ensures id in before.calls && before.calls[id] == old(s).calls[id] && Allowed(l, before, Go(id))
      ensures s == Went(l, before, id)
      ensures Deadlines(trace, id) == Deadlines(old(trace), id)
    {
      var m := Others(id);
      before := s;
      if s.calls[id].Admitted? || s.calls[id].GaveUp? || s.calls[id].Releasing? {
        ReceivesNeverBlock(l, trace, id);
      }
      OneMoreStep(trace, Go(id), id);
      Take(Go(id));
    }

    /** acquireSemaphore and acquireFromQueue.  Unless its context is cancelled, the call gets a slot at once if the
        semaphore it `saw` has one; else it is turned away at once if the queue of `next`, a later moment, is full; and
        else it waits, and is turned away only by the deadline. */
    method AcquireSemaphore(id: nat, patience: nat) returns (ok: bool, ghost saw: State, ghost next: State)
      requires Valid() && id in s.calls && s.calls[id].Trying?
      modifies this`s, this`trace, this`at
      ensures Valid() && old(trace) <= trace && id in s.calls
      ensures if ok then s.calls[id].Starting? else s.calls[id] == Refused(Overdue(old(trace), trace, id))
      ensures InTurn(Runs(l), old(trace), trace, saw, next)
      ensures (forall i :: !tape(i).cancelled) ==>
                && (saw.semaphore < l.maxCalls ==> ok && !Overdue(old(trace), trace, id) && at == old(at) + 1)
                && (saw.semaphore >= l.maxCalls && next.queue >= l.maxQueue ==>
                      !ok && !Overdue(old(trace), trace, id) && at == old(at) + 2)
                && (saw.semaphore >= l.maxCalls && next.queue < l.maxQueue ==> ok != Overdue(old(trace), trace, id))
    {
      saw, next := s, s;
      ghost var seen, later := trace, trace;
      if tape(at).cancelled {
        var m := Others(id);
        OneMoreStep(trace, Cancel(id), id);
        Take(Cancel(id));
        WereInTurn(Runs(l), old(trace), seen, later, trace, saw, next);
        return false, saw, next;
      }
      var m := Others(id);
      saw, next, seen, later := s, s, trace, trace;
      OneMoreStep(trace, Go(id), id);
      Take(Go(id));
      if s.calls[id].Queueing? {
        ok, next, later := AcquireFromQueue(id, patience);
      } else {
        ok := true;
      }
      WereInTurn(Runs(l), old(trace), seen, later, trace, saw, next);
    }

    /** acquireFromQueue: `next`, after `later`, is the moment at which the queue is tried. */
    method AcquireFromQueue(id: nat, patience: nat) returns (ok: bool, ghost next: State, ghost later: seq<Step>)
      requires Valid() && id in s.calls && s.calls[id].Queueing?
      modifies this`s, this`trace, this`at
      ensures Valid() && old(trace) <= later <= trace && id in s.calls && next == Run(l, START, later)
      ensures if ok then s.calls[id].Starting? else s.calls[id] == Refused(Overdue(old(trace), trace, id))
      ensures (forall i :: !tape(i).cancelled) ==>
                && (next.queue >= l.maxQueue ==> !ok && !Overdue(old(trace), trace, id) && at == old(at) + 1)
                && (next.queue < l.maxQueue ==> ok != Overdue(old(trace), trace, id))
    {
      if tape(at).cancelled {
        var m := Others(id);
        next, later := s, trace;
        OneMoreStep(trace, Cancel(id), id);
        Take(Cancel(id));
        return false, next, later;
      }
      var m := Others(id);
      next, later := s, trace;
      OneMoreStep(trace, Go(id), id);
      Take(Go(id));
      ok := false;
      if s.calls[id].Waiting? {
        ghost var saw;
        ok, saw := WaitForSemaphore(id, patience);
      }
    }

    /** waitForSemaphore: the call leaves the waiting room with a slot, or without one once its deadline or its context
        is done, or if it `saw` none free for `patience` rounds, which then counts as its deadline. */
    method WaitForSemaphore(id: nat, patience: nat) returns (ok: bool, ghost saw: State)
      requires Valid() && id in s.calls && s.calls[id].Waiting?
      modifies this`s, this`trace, this`at
      ensures Valid() && old(trace) <= trace && id in s.calls
      ensures if ok then s.calls[id].Starting? else s.calls[id] == Refused(Overdue(old(trace), trace, id))
      ensures ok ==> Deadlines(trace, id) == Deadlines(old(trace), id)
      ensures !ok && (forall i :: !tape(i).cancelled) ==> Overdue(old(trace), trace, id)
      ensures OnTheWay(Runs(l), old(trace), trace, saw)
      ensures !ok && (forall i :: !tape(i).cancelled && !tape(i).expired) ==> saw.semaphore >= l.maxCalls
    {
      ghost var seen;
      saw, seen := LeaveWaitingRoom(id, patience);
      ok := s.calls[id].Admitted?;
      var before := Step(id);
      if s.calls[id].Expired? {
        before := Step(id);
      }
      WasOnTheWay(Runs(l), old(trace), seen, trace, saw);
    }

    /** The select of waitForSemaphore. */
    method LeaveWaitingRoom(id: nat, patience: nat) returns (ghost saw: State, ghost seen: seq<Step>)
      requires Valid() && id in s.calls && s.calls[id].Waiting?
      modifies this`s, this`trace, this`at
      ensures Valid() && old(trace) <= seen <= trace && id in s.calls && saw == Run(l, START, seen)
      ensures s.calls[id] == Admitted || s.calls[id] == GaveUp(Overdue(old(trace), trace, id))
      ensures s.calls[id] == Admitted ==> Deadlines(trace, id) == Deadlines(old(trace), id)
      ensures s.calls[id].GaveUp? && (forall i :: !tape(i).cancelled) ==> Overdue(old(trace), trace, id)
      ensures s.calls[id].GaveUp? && (forall i :: !tape(i).cancelled && !tape(i).expired) ==>
                saw.semaphore >= l.maxCalls
    {
      var rounds := 0;
      saw, seen := s, trace;
      while true
        invariant Valid() && old(trace) <= seen <= trace && id in s.calls && saw == Run(l, START, seen)
        invariant s.calls[id].Waiting? && rounds <= patience && Deadlines(trace, id) == Deadlines(old(trace), id)
        decreases patience - rounds
      {
        var m := Others(id);
        saw, seen := s, trace;
        if m.cancelled {
          OneMoreStep(trace, Cancel(id), id);
          Take(Cancel(id));
          return;
        } else if m.expired {
          OneMoreStep(trace, Deadline(id), id);
          Take(Deadline(id));
          return;
        } else if s.semaphore < l.maxCalls {
          OneMoreStep(trace, Go(id), id);
          Take(Go(id));
          return;
        } else if rounds == patience {
          OneMoreStep(trace, Deadline(id), id);
          Take(Deadline(id));
          return;
        }
        rounds := rounds + 1;
      }
    }

    /** executeWithTimeout and the deferred releaseSemaphore. */
    method RunFunction(id: nat, how: Ending)
      requires Valid() && id in s.calls && s.calls[id].Running?
      modifies this`s, this`trace, this`at
      ensures Valid() && old(trace) <= trace && id in s.calls
      ensures s.calls[id] == Over(VerdictOf(how))
      ensures Deadlines(trace, id) == Deadlines(old(trace), id)
    {
      var m := Others(id);
      OneMoreStep(trace, Return(id, how), id);
      Take(Return(id, how));
      var before := s;
      if !how.Panic? {
        before := Step(id);
      }
      assert s.calls[id] == Releasing(how);
      before := Step(id);
      assert s.calls[id] == Leaving(how);
      before := Step(id);
    }

    /** Execute, on an open bulkhead with a live context: the call ends as its function does, or rejected, and as
        timed out exactly if the deadline ended its wait.  Unless its context is cancelled, it is rejected in no other
        way than by a full semaphore it `saw` and, `next`, a full queue. */
    method Execute(id: nat, patience: nat, how: Ending) returns (verdict: Verdict, ghost saw: State, ghost next: State)
      requires Valid() && id !in s.calls
      modifies this`s, this`trace, this`at
      ensures Valid() && old(trace) <= trace && id in s.calls && s.calls[id] == Over(verdict)
      ensures verdict.Rejected? ==> verdict == Rejected(Overdue(old(trace), trace, id))
      ensures !verdict.Rejected? ==>
                && (verdict.Succeeded? <==> how.Fine?) && (verdict.Errored? <==> how.Error?)
                && (verdict.Panicked? <==> how.Panic?)
      ensures InTurn(Runs(l), old(trace), trace, saw, next)
      ensures (forall i :: !tape(i).cancelled) && !Overdue(old(trace), trace, id) ==>
                (verdict.Rejected? <==> saw.semaphore >= l.maxCalls && next.queue >= l.maxQueue)
      ensures (forall i :: !tape(i).cancelled) && Overdue(old(trace), trace, id) ==>
                verdict.Rejected? && saw.semaphore >= l.maxCalls && next.queue < l.maxQueue
    {
      OneMoreStep(trace, Arrive(id), id);
      Take(Arrive(id));
      var before := Step(id);
      assert s.calls[id].Trying?;
      var ok;
      ghost var entered := trace;
      ok, saw, next := AcquireSemaphore(id, patience);
      ghost var acquired := trace;
      verdict := Conclude(id, ok, how);
      StillInTurn(Runs(l), old(trace), entered, acquired, trace, saw, next);
    }

    /** Execute from the answer of acquireSemaphore on. */
    method Conclude(id: nat, ok: bool, how: Ending) returns (verdict: Verdict)
      requires Valid() && id in s.calls && if ok then s.calls[id].Starting? else s.calls[id].Refused?
      modifies this`s, this`trace, this`at
      ensures Valid() && old(trace) <= trace && id in s.calls && s.calls[id] == Over(verdict)
      ensures if ok then verdict == VerdictOf(how) else verdict == Rejected(old(s).calls[id].timedOut)
      ensures Deadlines(trace, id) == Deadlines(old(trace), id)
    {
      var before := Step(id);
      if ok {
        RunFunction(id, how);
      }
      verdict := s.calls[id].verdict;
    }
  }
}
