/**
  RetryWithStatsAndContext, the third loop of retry.go.  It keeps the last error in an atomic.Value, whose Store panics
  when the concrete type differs from the one stored first; so it is the specified run exactly if all errors it stores
  have one concrete type.
 */
module RetryStatistics {
  import opened Backoff
  import opened Retries

  /** What LastError holds: a call's error, errors.New("") after a success, or the wrapped error of a cancellation. */
  datatype Stored = OfCall(error: ErrorId) | Blank | ContextDone

  function KindOf<T>(w: World<T>, x: Stored): Kind {
    match x
    case OfCall(error) => w.kindOf(error)
    case Blank => Plain
    case ContextDone => Joined
  }

  /** Store succeeds: it is the first, or of the same concrete type. */
  predicate Takes<T>(w: World<T>, slot: Option<Stored>, x: Stored) {
    slot.None? || KindOf(w, slot.value) == KindOf(w, x)
  }

  predicate AllTaken<T>(w: World<T>, slot: Option<Stored>, xs: seq<Stored>) {
    forall i :: 0 <= i < |xs| ==> Takes(w, LastOf(slot, xs[..i]), xs[i])
  }

  /** The errors that attempt k, ending like this, stores one after the other. */
  function StoredBy<T>(w: World<T>, k: nat, turn: Turn<T>): (xs: seq<Stored>)
    ensures |xs| <= 2
  {
    var call := if w.outcome(k).Err? then [OfCall(w.outcome(k).error)] else [];
    if turn.GoOn? then call
    else match turn.h.end
      case Success(_) => [Blank]
      case Cancelled => if turn.h.atCheck then [ContextDone] else call + [ContextDone]
      case _ => call
  }

  function LastOf(slot: Option<Stored>, xs: seq<Stored>): Option<Stored> {
    if xs == [] then slot else Some(xs[|xs| - 1])
  }

  /** A run of this loop: it returns, or it panics after these calls and waits. */
  datatype StatsRun<+T> = Returns(h: History<T>) | Panics(calls: seq<int>, delays: seq<int>)

  function PrependRun<T>(calls: seq<int>, delays: seq<int>, r: StatsRun<T>): StatsRun<T> {
    match r
    case Returns(h) => Returns(Prepend(calls, delays, h))
    case Panics(more, waits) => Panics(calls + more, delays + waits)
  }

  /** The waits begun by a turn that panics: a call's error is stored before its wait. */
  function DelaysBeforePanic<T>(w: World<T>, slot: Option<Stored>, xs: seq<Stored>, turn: Turn<T>): seq<int> {
    if xs != [] && Takes(w, slot, xs[0]) then DelaysOf(turn) else []
  }

  /** The loop from attempt k on, with what LastError holds so far. */
  function StatsSpec<T>(p: Policy, w: World<T>, k: nat, now: int, deadline: Option<int>, slot: Option<Stored>)
    : StatsRun<T>
    requires k < p.maxAttempts
    decreases p.maxAttempts - k
  {
    var turn := OneTurn(p, w, k, now, deadline);
    var xs := StoredBy(w, k, turn);
    if !AllTaken(w, slot, xs) then Panics(CallsOf(turn, now), DelaysBeforePanic(w, slot, xs, turn))
    else match turn
      case Stop(h) => Returns(h)
      case GoOn(delay, due, deadline') =>
        PrependRun([now], [delay], StatsSpec(p, w, k + 1, due, deadline', LastOf(slot, xs)))
  }

  function StatsRunOf<T>(p: Policy, w: World<T>, now: int, hasOperation: bool): StatsRun<T> {
    if !ValidPolicy(p) || !hasOperation then Returns(RunOf(p, w, now, hasOperation))
    else StatsSpec(p, w, 0, now, None, None)
  }

  // ---- when it is the specified run -------------------------------------------------------------

  function Failures<T>(h: History<T>): int {
    |h.calls| - if h.end.Success? then 1 else 0
  }

  /** The concrete type of the error of call i. */
  function FailureKind<T>(w: World<T>, i: nat): Kind {
    if w.outcome(i).Err? then w.kindOf(w.outcome(i).error) else Plain
  }

  /** Everything that a run from attempt k on stores, and what is stored already, is of this type. */
  ghost predicate AllOf<T>(w: World<T>, k: nat, h: History<T>, slot: Option<Stored>, kind: Kind) {
    && (slot.Some? ==> KindOf(w, slot.value) == kind)
    && (forall i :: k <= i < k + Failures(h) ==> FailureKind(w, i) == kind)
    && (h.end.Success? ==> kind == Plain) && (h.end.Cancelled? ==> kind == Joined)
  }

  ghost predicate OneKind<T>(w: World<T>, k: nat, h: History<T>, slot: Option<Stored>) {
    exists kind :: AllOf(w, k, h, slot, kind)
  }

  lemma StopTakes<T>(p: Policy, w: World<T>, k: nat, now: int, deadline: Option<int>, slot: Option<Stored>)
    requires k < p.maxAttempts && OneTurn(p, w, k, now, deadline).Stop?
    ensures var turn := OneTurn(p, w, k, now, deadline);
            AllTaken(w, slot, StoredBy(w, k, turn)) <==> OneKind(w, k, turn.h, slot)
  {
    var turn := OneTurn(p, w, k, now, deadline);
    var xs := StoredBy(w, k, turn);
    if AllTaken(w, slot, xs) && xs != [] {
      assert Takes(w, LastOf(slot, xs[..0]), xs[0]);
      assert |xs| == 2 ==> xs[..1] == [xs[0]] && Takes(w, LastOf(slot, xs[..1]), xs[1]);
      assert AllOf(w, k, turn.h, slot, KindOf(w, xs[0]));
    }
    if OneKind(w, k, turn.h, slot) {
      var kind :| AllOf(w, k, turn.h, slot, kind);
      assert Failures(turn.h) > 0 ==> FailureKind(w, k) == kind;
      assert forall x :: x in xs ==> KindOf(w, x) == kind;
    }
  }

  lemma GoOnTakes<T>(p: Policy, w: World<T>, k: nat, now: int, deadline: Option<int>, slot: Option<Stored>,
                     rest: History<T>)
    requires k < p.maxAttempts && OneTurn(p, w, k, now, deadline).GoOn? && Failures(rest) >= 0
    ensures var turn := OneTurn(p, w, k, now, deadline);
            var xs := StoredBy(w, k, turn);
            OneKind(w, k, Prepend([now], [turn.delay], rest), slot)
            <==> AllTaken(w, slot, xs) && OneKind(w, k + 1, rest, LastOf(slot, xs))
  {
    var turn := OneTurn(p, w, k, now, deadline);
    var xs, h := StoredBy(w, k, turn), Prepend([now], [turn.delay], rest);
    assert xs == [OfCall(w.outcome(k).error)] && LastOf(slot, xs) == Some(xs[0]);
    assert Failures(h) == Failures(rest) + 1;
    if OneKind(w, k, h, slot) {
      var kind :| AllOf(w, k, h, slot, kind);
      assert FailureKind(w, k) == kind;
      assert AllOf(w, k + 1, rest, LastOf(slot, xs), kind);
    }
    if AllTaken(w, slot, xs) && OneKind(w, k + 1, rest, LastOf(slot, xs)) {
      var kind :| AllOf(w, k + 1, rest, LastOf(slot, xs), kind);
      assert AllOf(w, k, h, slot, kind);
    }
  }

  lemma {:induction false} ReturnsExactly<T>(p: Policy, w: World<T>, k: nat, now: int, deadline: Option<int>,
                                             slot: Option<Stored>)
    requires k < p.maxAttempts
    ensures var h, r := Spec(p, w, k, now, deadline), StatsSpec(p, w, k, now, deadline, slot);
            (r.Returns? <==> OneKind(w, k, h, slot)) && (r.Returns? ==> r.h == h)
    decreases p.maxAttempts - k
  {
    var turn := OneTurn(p, w, k, now, deadline);
    if turn.GoOn? {
      ReturnsExactly(p, w, k + 1, turn.due, turn.deadline, LastOf(slot, StoredBy(w, k, turn)));
      SpecExplained(p, w, k + 1, turn.due, turn.deadline);
      GoOnTakes(p, w, k, now, deadline, slot, Spec(p, w, k + 1, turn.due, turn.deadline));
    } else {
      StopTakes(p, w, k, now, deadline, slot);
    }
  }

  /** The third loop is the specified run exactly if the errors of all failed calls have one concrete type, which is
      that of errors.New if a success follows, and that of a doubly wrapped error if a cancellation does. */
  lemma StatsExactly<T>(p: Policy, w: World<T>, start: int)
    requires ValidPolicy(p)
    ensures var h, r := RunOf(p, w, start, true), StatsRunOf(p, w, start, true);
            && (r.Returns? ==> r.h == h)
            && (r.Returns? <==>
                  Failures(h) > 0 ==>
                    && (forall i :: 0 <= i < Failures(h) ==> FailureKind(w, i) == FailureKind(w, 0))
                    && (h.end.Success? ==> FailureKind(w, 0) == Plain)
                    && (h.end.Cancelled? ==> FailureKind(w, 0) == Joined))
  {
    var h := RunOf(p, w, start, true);
    ReturnsExactly(p, w, 0, start, None, None);
    if OneKind(w, 0, h, None) {
      var kind :| AllOf(w, 0, h, None, kind);
      assert Failures(h) > 0 ==> FailureKind(w, 0) == kind;
    }
    var kind := if Failures(h) > 0 then FailureKind(w, 0) else if h.end.Success? then Plain else Joined;
    if AllOf(w, 0, h, None, kind) {
      assert OneKind(w, 0, h, None);
    }
  }

  /** A run that panics has made the first of the specified calls, and begun the first of the specified waits. */
  lemma {:induction false} PanicsOnTheWay<T>(p: Policy, w: World<T>, k: nat, now: int, deadline: Option<int>,
                                             slot: Option<Stored>)
    requires k < p.maxAttempts && StatsSpec(p, w, k, now, deadline, slot).Panics?
    ensures var h, r := Spec(p, w, k, now, deadline), StatsSpec(p, w, k, now, deadline, slot);
            r.calls <= h.calls && r.delays <= h.delays
    decreases p.maxAttempts - k
  {
    var turn := OneTurn(p, w, k, now, deadline);
    var xs := StoredBy(w, k, turn);
    if turn.GoOn? && AllTaken(w, slot, xs) {
      PanicsOnTheWay(p, w, k + 1, turn.due, turn.deadline, LastOf(slot, xs));
    }
  }

  // ---- what a caller can see to beforehand ------------------------------------------------------

  /** The operation's errors are of these types, and nobody cancels the caller's context unless it is `cancellable`. */
  ghost predicate Drawn<T>(w: World<T>, kinds: set<Kind>, cancellable: bool) {
    (forall i :: w.outcome(i).Err? ==> w.kindOf(w.outcome(i).error) in kinds) && (!cancellable ==> w.cancelAt.None?)
  }

  /** There is one attempt only, or no error ever, or no error but those of errors.New and no way to be cancelled. */
  predicate IsSafe(p: Policy, kinds: set<Kind>, cancellable: bool) {
    p.maxAttempts == 1 || kinds == {} || (kinds == {Plain} && !cancellable && p.timeout <= 0)
  }

  /** Cancellation comes from the caller's context or from the timeout. */
  lemma {:induction false} NoCancellation<T>(p: Policy, w: World<T>, k: nat, now: int, deadline: Option<int>)
    requires k < p.maxAttempts && p.timeout <= 0 && w.cancelAt.None? && deadline.None?
    ensures !Spec(p, w, k, now, deadline).end.Cancelled?
    decreases p.maxAttempts - k
  {
    var turn := OneTurn(p, w, k, now, deadline);
    if turn.GoOn? {
      NoCancellation(p, w, k + 1, turn.due, turn.deadline);
    }
  }

  /** A caller in this case never sees a panic. */
  lemma SafeReturns<T>(p: Policy, w: World<T>, start: int, kinds: set<Kind>, cancellable: bool)
    requires ValidPolicy(p) && Drawn(w, kinds, cancellable) && IsSafe(p, kinds, cancellable)
    ensures StatsRunOf(p, w, start, true).Returns?
  {
    var h := RunOf(p, w, start, true);
    StatsExactly(p, w, start);
    SpecExplained(p, w, 0, start, None);
    SpecWaits(p, w, 0, start, None);
    if p.maxAttempts > 1 && kinds == {Plain} {
      NoCancellation(p, w, 0, start, None);
      forall i | 0 <= i < Failures(h) ensures FailureKind(w, i) == Plain {
      }
    }
  }

  /** And in any other case some operation and some timing make the loop panic. */
  lemma UnsafePanics<T>(p: Policy, zero: T, kinds: set<Kind>, cancellable: bool) returns (w: World<T>)
    requires ValidPolicy(p) && !IsSafe(p, kinds, cancellable)
    ensures Drawn(w, kinds, cancellable) && StatsRunOf(p, w, 0, true).Panics?
  {
    if kind :| kind in kinds && kind != Plain {
      w := FailsOnce(zero, kind);
      FailsOncePanics(p, zero, kind);
    } else {
      var kind :| kind in kinds;
      assert kinds == {Plain};
      w := CutOff(p, cancellable);
      CutOffPanics(p, w, cancellable);
    }
  }

  lemma AnyIsRetryable<T>(p: Policy, w: World<T>, error: ErrorId)
    requires forall target :: w.isA(error, target)
    ensures Retryable(p, w, error)
  {
    assert p.retryable != [] ==> w.isA(error, p.retryable[0]);
  }

  /** The operation fails once, with an error of this type, and then succeeds. */
  function FailsOnce<T>(zero: T, kind: Kind): World<T> {
    World(i => if i == 0 then Err("failure") else Ok(zero), i => 0, i => 0, None, i => false, (a, b) => true, e => kind)
  }

  /** The other loops return the result; this one panics when it stores errors.New(""). */
  lemma FailsOncePanics<T>(p: Policy, zero: T, kind: Kind)
    requires ValidPolicy(p) && p.maxAttempts > 1 && kind != Plain
    ensures RunOf(p, FailsOnce(zero, kind), 0, true).end == Success(zero)
    ensures StatsRunOf(p, FailsOnce(zero, kind), 0, true) == Panics([0, 0], [0])
  {
    var w := FailsOnce(zero, kind);
    AnyIsRetryable(p, w, "failure");
    var turn := OneTurn(p, w, 0, 0, None);
    assert turn.GoOn? && turn.due == 0;
    var last := OneTurn(p, w, 1, 0, turn.deadline);
    assert last == Stop(History([0], [], false, Success(zero)));
    assert Spec(p, w, 1, 0, turn.deadline) == last.h;
    assert Spec(p, w, 0, 0, None) == Prepend([0], [0], last.h);
    var xs, slot := StoredBy(w, 1, last), Some(OfCall("failure"));
    assert StoredBy(w, 0, turn) == [OfCall("failure")];
    assert !Takes(w, LastOf(slot, xs[..0]), xs[0]);
    assert StatsSpec(p, w, 1, 0, turn.deadline, slot) == Panics([0], []);
    assert [0] + [0] == [0, 0] && [0] + [] == [0];
  }

  /** The operation fails with errors of errors.New, and its first wait is cut off by the context or by the timeout. */
  function CutOff<T>(p: Policy, cancellable: bool): World<T> {
    var end: nat := if p.timeout > 0 then p.timeout else 1;
    World(i => Err("failure"), i => end, i => 0, if cancellable then Some(end) else None, i => true, (a, b) => true,
          e => Plain)
  }

  /** The other loops return the cancellation; this one panics when it stores the wrapped error. */
  lemma CutOffPanics<T>(p: Policy, w: World<T>, cancellable: bool)
    requires ValidPolicy(p) && p.maxAttempts > 1 && (cancellable || p.timeout > 0) && w == CutOff(p, cancellable)
    ensures RunOf(p, w, 0, true).end == Cancelled
    ensures StatsRunOf(p, w, 0, true) == Panics([0], [0])
  {
    AnyIsRetryable(p, w, "failure");
    var turn := OneTurn(p, w, 0, 0, None);
    assert turn == Stop(History([0], [0], false, Cancelled));
    var xs := StoredBy(w, 0, turn);
    assert xs == [OfCall("failure"), ContextDone] && xs[..1] == [xs[0]];
    assert !Takes(w, LastOf(None, xs[..1]), xs[1]);
  }

  // ---- statistics -------------------------------------------------------------------------------

  datatype Stats = Stats(totalAttempts: nat, successful: nat, failed: nat, totalDelay: int)

  const NO_STATS := Stats(0, 0, 0, 0)

  /** What the statistics of a run are: an attempt is counted before the check that may cancel it,
      and a wait before it is known whether it is cancelled. */
  function StatsOf<T>(h: History<T>): Stats {
    Stats(|h.calls| + (if h.atCheck then 1 else 0), if h.end.Success? then 1 else 0,
          |h.calls| - (if h.end.Success? && |h.calls| > 0 then 1 else 0), Total(h.delays))
  }

  /** What LastError holds after a run that returns. */
  function LastErrorOf<T>(end: End<T>): Option<Stored> {
    match end
    case Success(_) => Some(Blank)
    case Cancelled => Some(ContextDone)
    case NotRetryable(e) => Some(OfCall(e))
    case Exhausted(e) => Some(OfCall(e))
    case _ => None
  }

  function AddStats(a: Stats, b: Stats): Stats {
    Stats(a.totalAttempts + b.totalAttempts, a.successful + b.successful, a.failed + b.failed,
          a.totalDelay + b.totalDelay)
  }

  /** The statistics of one turn of the loop. */
  function StatsOfTurn<T>(turn: Turn<T>): Stats {
    if turn.Stop? then StatsOf(turn.h) else Stats(1, 0, 1, turn.delay)
  }

  /** stats.LastError.Store. */
  method StoreError<T>(w: World<T>, slot: Option<Stored>, x: Stored) returns (panics: bool, slot': Option<Stored>)
    ensures panics <==> !Takes(w, slot, x)
    ensures slot' == if panics then slot else Some(x)
  {
    panics := slot.Some? && KindOf(w, slot.value) != KindOf(w, x);
    slot' := if panics then slot else Some(x);
  }

  lemma OneTaken<T>(w: World<T>, slot: Option<Stored>, x: Stored)
    ensures AllTaken(w, slot, [x]) <==> Takes(w, slot, x)
  {
    assert [x][..0] == [];
  }

  lemma TwoTaken<T>(w: World<T>, slot: Option<Stored>, x: Stored, y: Stored)
    ensures AllTaken(w, slot, [x, y]) <==> Takes(w, slot, x) && Takes(w, Some(x), y)
  {
    assert [x, y][..0] == [] && [x, y][..1] == [x];
    assert AllTaken(w, slot, [x, y]) ==> Takes(w, LastOf(slot, [x, y][..1]), [x, y][1]);
  }

  /** What a turn that begins with `slot` leaves, if it does not panic, or where it panics. */
  ghost predicate TurnDone<T>(p: Policy, w: World<T>, k: nat, now: int, slot: Option<Stored>, turn: Turn<T>,
                              stop: Option<End<()>>, panics: bool, slot': Option<Stored>, stats: Stats,
                              delays: seq<int>)
  {
    var xs := StoredBy(w, k, turn);
    && (panics <==> !AllTaken(w, slot, xs))
    && delays == (if panics then DelaysBeforePanic(w, slot, xs, turn) else DelaysOf(turn))
    && (!panics ==>
          && slot' == LastOf(slot, xs) && stats == StatsOfTurn(turn)
          && stop == (if turn.Stop? then Some(Forget(turn.h.end)) else None))
  }

  /** The body of RetryWithStatsAndContext's loop. */
  method TurnOfRetryWithStats<T>(p: Policy, w: World<T>, k: nat, now: int, chain: seq<int>, slot: Option<Stored>)
    returns (stop: Option<End<()>>, panics: bool, slot': Option<Stored>, after: int, chain': seq<int>, stats: Stats,
             ghost calls: seq<int>, ghost delays: seq<int>)
    requires k < p.maxAttempts && Nested(chain, now + p.timeout)
    ensures var turn := OneTurn(p, w, k, now, Soonest(chain));
            && TurnDone(p, w, k, now, slot, turn, stop, panics, slot', stats, delays) && calls == CallsOf(turn, now)
            && (!panics && turn.GoOn? ==>
                  after == turn.due && Soonest(chain') == turn.deadline && Nested(chain', after + p.timeout))
  {
    after, chain', calls, delays, slot', stop := now, chain, [], [], slot, None;
    stats := NO_STATS.(totalAttempts := 1);
    var done := Earlier(w.cancelAt, Soonest(chain));
    if done.Some? && done.value <= now {
      OneTaken(w, slot, ContextDone);
      panics, slot' := StoreError(w, slot, ContextDone);
      stop := Some(Cancelled);
      return;
    }
    calls := [now];
    if p.timeout > 0 {
      chain' := Wrap(chain, now + p.timeout);
    }
    after := now + w.takes(k);
    if w.outcome(k).Ok? {
      OneTaken(w, slot, Blank);
      stats := stats.(successful := 1);
      panics, slot' := StoreError(w, slot, Blank);
      stop := Some(Success(()));
      return;
    }
    ghost var turn := OneTurn(p, w, k, now, Soonest(chain));
    stop, panics, slot', stats, delays := FailedCall(p, w, k, now, slot, Soonest(chain'), turn);
    after := after + w.delay(k);
  }

  /** The loop's body after a call that failed, under the deadline of that call. */
  method FailedCall<T>(p: Policy, w: World<T>, k: nat, now: int, slot: Option<Stored>, deadline: Option<int>,
                       ghost turn: Turn<T>)
    returns (stop: Option<End<()>>, panics: bool, slot': Option<Stored>, stats: Stats, ghost delays: seq<int>)
    requires k < p.maxAttempts && w.outcome(k).Err?
    requires turn == AfterFailure(p, w, k, now, deadline, w.outcome(k).error)
    ensures TurnDone(p, w, k, now, slot, turn, stop, panics, slot', stats, delays)
  {
    var err, after := w.outcome(k).error, now + w.takes(k);
    OneTaken(w, slot, OfCall(err));
    TwoTaken(w, slot, OfCall(err), ContextDone);
    ghost var xs := StoredBy(w, k, turn);
    assert xs == if turn.Stop? && turn.h.end.Cancelled? then [OfCall(err), ContextDone] else [OfCall(err)];
    stop, delays, stats := None, [], NO_STATS.(totalAttempts := 1, failed := 1);
    panics, slot' := StoreError(w, slot, OfCall(err));
    if panics {
      return;
    }
    var again := IsRetryableError(p, w, err);
    if !again {
      stop := Some(NotRetryable(err));
    } else if k == p.maxAttempts - 1 {
      stop := Some(Exhausted(err));
    } else {
      delays := [w.delay(k)];
      assert Total([w.delay(k)]) == Total([w.delay(k)][..0]) + w.delay(k);
      stats := stats.(totalDelay := w.delay(k));
      if WaitCancelled(Earlier(w.cancelAt, deadline), after, after + w.delay(k), w.tieCancels(k)) {
        panics, slot' := StoreError(w, slot', ContextDone);
        stop := Some(Cancelled);
      }
    }
  }

  lemma {:induction false} TotalConcat(a: seq<int>, b: seq<int>)
    ensures Total(a + b) == Total(a) + Total(b)
  {
    if b == [] {
      assert a + b == a;
    } else {
      assert (a + b)[..|a + b| - 1] == a + b[..|b| - 1];
      TotalConcat(a, b[..|b| - 1]);
    }
  }

  /** Before its last turn a loop has only failed. */
  function StatsSoFar(calls: seq<int>, delays: seq<int>): Stats {
    Stats(|calls|, 0, |calls|, Total(delays))
  }

  lemma StatsAddUp<T>(calls: seq<int>, delays: seq<int>, turn: Turn<T>, now: int)
    requires turn.Stop? && turn.h.end.Success? ==> |turn.h.calls| > 0
    ensures AddStats(StatsSoFar(calls, delays), StatsOfTurn(turn))
            == if turn.Stop? then StatsOf(Prepend(calls, delays, turn.h))
               else StatsSoFar(calls + [now], delays + [turn.delay])
  {
    if turn.Stop? {
      TotalConcat(delays, turn.h.delays);
    } else {
      TotalConcat(delays, [turn.delay]);
      assert Total([turn.delay]) == Total([turn.delay][..0]) + turn.delay;
    }
  }

  /** A loop that has made `calls` and waited `delays`, and stands before attempt k, is on the run it should be on. */
  ghost predicate StatsOnCourse<T>(p: Policy, w: World<T>, start: int, calls: seq<int>, delays: seq<int>, k: nat,
                                   now: int, deadline: Option<int>, slot: Option<Stored>)
    requires 0 <= k < p.maxAttempts
  {
    StatsSpec(p, w, 0, start, None, None) == PrependRun(calls, delays, StatsSpec(p, w, k, now, deadline, slot))
  }

  lemma StatsStays<T>(p: Policy, w: World<T>, start: int, calls: seq<int>, delays: seq<int>, k: nat, now: int,
                      deadline: Option<int>, slot: Option<Stored>)
    requires k < p.maxAttempts - 1 && StatsOnCourse(p, w, start, calls, delays, k, now, deadline, slot)
    requires var turn := OneTurn(p, w, k, now, deadline); turn.GoOn? && AllTaken(w, slot, StoredBy(w, k, turn))
    ensures var turn := OneTurn(p, w, k, now, deadline);
            StatsOnCourse(p, w, start, calls + [now], delays + [turn.delay], k + 1, turn.due, turn.deadline,
                          LastOf(slot, StoredBy(w, k, turn)))
  {
    var turn := OneTurn(p, w, k, now, deadline);
    var rest := StatsSpec(p, w, k + 1, turn.due, turn.deadline, LastOf(slot, StoredBy(w, k, turn)));
    PrependTwice(calls, delays, [now], [turn.delay], rest);
  }

  /** The last turn decides how the run ends. */
  lemma StatsArrives<T>(p: Policy, w: World<T>, start: int, calls: seq<int>, delays: seq<int>, k: nat, now: int,
                        deadline: Option<int>, slot: Option<Stored>)
    requires k < p.maxAttempts && StatsOnCourse(p, w, start, calls, delays, k, now, deadline, slot)
    ensures var turn := OneTurn(p, w, k, now, deadline);
            var xs := StoredBy(w, k, turn);
            var r := StatsSpec(p, w, 0, start, None, None);
            && (!AllTaken(w, slot, xs) ==>
                  r == Panics(calls + CallsOf(turn, now), delays + DelaysBeforePanic(w, slot, xs, turn)))
            && (AllTaken(w, slot, xs) && turn.Stop? ==>
                  r == Returns(Prepend(calls, delays, turn.h)) && LastOf(slot, xs) == LastErrorOf(turn.h.end))
  {
  }

  lemma PrependTwice<T>(a: seq<int>, d: seq<int>, b: seq<int>, e: seq<int>, r: StatsRun<T>)
    ensures PrependRun(a, d, PrependRun(b, e, r)) == PrependRun(a + b, d + e, r)
  {
    match r
    case Returns(h) => assert a + (b + h.calls) == a + b + h.calls && d + (e + h.delays) == d + e + h.delays;
    case Panics(calls, delays) => assert a + (b + calls) == a + b + calls && d + (e + delays) == d + e + delays;
  }

  /** How the third loop ends: a panic brings no statistics back. */
  datatype StatsEnd = Ended(end: End<()>) | Panicked

  /** The loop has ended as this run does. */
  ghost predicate RunDone<T>(r: StatsRun<T>, end: StatsEnd, stats: Stats, lastError: Option<Stored>, calls: seq<int>,
                             delays: seq<int>)
  {
    match r
    case Returns(h) =>
      && end == Ended(Forget(h.end)) && stats == StatsOf(h) && lastError == LastErrorOf(h.end)
      && calls == h.calls && delays == h.delays
    case Panics(called, waited) => end == Panicked && calls == called && delays == waited
  }

  lemma StatsBegins<T>(p: Policy, w: World<T>, start: int)
    requires ValidPolicy(p)
    ensures StatsOnCourse(p, w, start, [], [], 0, start, None, None)
  {
    match StatsSpec(p, w, 0, start, None, None)
    case Returns(h) => assert [] + h.calls == h.calls && [] + h.delays == h.delays;
    case Panics(calls, delays) => assert [] + calls == calls && [] + delays == delays;
  }

  /** A turn ends the run, or keeps it on course. */
  lemma TurnEnds<T>(p: Policy, w: World<T>, start: int, calls: seq<int>, delays: seq<int>, k: nat, now: int,
                    deadline: Option<int>, slot: Option<Stored>, stop: Option<End<()>>, panics: bool,
                    slot': Option<Stored>, more: Stats, waited: seq<int>)
    requires k < p.maxAttempts && StatsOnCourse(p, w, start, calls, delays, k, now, deadline, slot)
    requires TurnDone(p, w, k, now, slot, OneTurn(p, w, k, now, deadline), stop, panics, slot', more, waited)
    ensures var turn, r := OneTurn(p, w, k, now, deadline), StatsSpec(p, w, 0, start, None, None);
            var calls', delays', stats :=
              calls + CallsOf(turn, now), delays + waited, AddStats(StatsSoFar(calls, delays), more);
            && (panics ==> RunDone(r, Panicked, NO_STATS, None, calls', delays'))
            && (!panics && stop.Some? ==> RunDone(r, Ended(stop.value), stats, slot', calls', delays'))
            && (!panics && stop.None? ==>
                  && turn.GoOn? && k + 1 < p.maxAttempts && stats == StatsSoFar(calls', delays')
                  && StatsOnCourse(p, w, start, calls', delays', k + 1, turn.due, turn.deadline, slot'))
  {
    var turn := OneTurn(p, w, k, now, deadline);
    StatsAddUp(calls, delays, turn, now);
    StatsArrives(p, w, start, calls, delays, k, now, deadline, slot);
    if turn.GoOn? && !panics {
      StatsStays(p, w, start, calls, delays, k, now, deadline, slot);
    }
  }

  /** RetryWithStatsAndContext: the run it should be, and when that returns, statistics that match it. */
  method RetryWithStatsAndContext<T>(p: Policy, w: World<T>, start: int, hasOperation: bool)
    returns (end: StatsEnd, stats: Stats, lastError: Option<Stored>, ghost calls: seq<int>, ghost delays: seq<int>)
    ensures end.Panicked? <==> StatsRunOf(p, w, start, hasOperation).Panics?
    ensures RunDone(StatsRunOf(p, w, start, hasOperation), end, stats, lastError, calls, delays)
  {
    calls, delays, stats, lastError := [], [], NO_STATS, None;
    if !ValidPolicy(p) {
      return Ended(InvalidPolicy), stats, None, [], [];
    } else if !hasOperation {
      return Ended(InvalidOperation), stats, None, [], [];
    }
    end, stats, lastError, calls, delays := StatsLoop(p, w, start);
  }

  /** Before attempt k the loop is on course, and its statistics are those so far. */
  ghost predicate OnTrack<T>(p: Policy, w: World<T>, start: int, calls: seq<int>, delays: seq<int>, k: int, now: int,
                             chain: seq<int>, slot: Option<Stored>, stats: Stats)
  {
    && 0 <= k < p.maxAttempts && Nested(chain, now + p.timeout) && stats == StatsSoFar(calls, delays)
    && StatsOnCourse(p, w, start, calls, delays, k, now, Soonest(chain), slot)
  }

  /** One turn of its loop. */
  method OneAttempt<T>(p: Policy, w: World<T>, start: int, k: nat, now: int, chain: seq<int>, slot: Option<Stored>,
                       stats: Stats, ghost calls: seq<int>, ghost delays: seq<int>)
    returns (done: Option<StatsEnd>, stats': Stats, slot': Option<Stored>, after: int, chain': seq<int>,
             ghost calls': seq<int>, ghost delays': seq<int>)
    requires OnTrack(p, w, start, calls, delays, k, now, chain, slot, stats)
    ensures done.Some? ==> RunDone(StatsSpec(p, w, 0, start, None, None), done.value, stats', slot', calls', delays')
    ensures done.None? ==> OnTrack(p, w, start, calls', delays', k + 1, after, chain', slot', stats')
  {
    var stop, panics, more;
    ghost var called, waited;
    stop, panics, slot', after, chain', more, called, waited := TurnOfRetryWithStats(p, w, k, now, chain, slot);
    TurnEnds(p, w, start, calls, delays, k, now, Soonest(chain), slot, stop, panics, slot', more, waited);
    calls', delays' := calls + called, delays + waited;
    if panics {
      return Some(Panicked), NO_STATS, None, after, chain', calls', delays';
    }
    stats' := AddStats(stats, more);
    done := if stop.Some? then Some(Ended(stop.value)) else None;
  }

  /** Its loop. */
  method StatsLoop<T>(p: Policy, w: World<T>, start: int)
    returns (end: StatsEnd, stats: Stats, lastError: Option<Stored>, ghost calls: seq<int>, ghost delays: seq<int>)
    requires ValidPolicy(p)
    ensures RunDone(StatsSpec(p, w, 0, start, None, None), end, stats, lastError, calls, delays)
  {
    calls, delays, stats, lastError := [], [], NO_STATS, None;
    var now, chain, attempt := start, [], 0;
    StatsBegins(p, w, start);
    while attempt < p.maxAttempts
      invariant attempt >= 0 && OnTrack(p, w, start, calls, delays, attempt, now, chain, lastError, stats)
    {
      var done;
      done, stats, lastError, now, chain, calls, delays :=
        OneAttempt(p, w, start, attempt, now, chain, lastError, stats, calls, delays);
      if done.Some? {
        return done.value, stats, lastError, calls, delays;
      }
      attempt := attempt + 1;
    }
  }

  /** Of the first n calls, those that succeed or those that fail. */
  function Those<T>(w: World<T>, n: nat, ok: bool): set<nat> {
    set i: nat | i < n && w.outcome(i).Ok? == ok
  }

  /** In every run that returns the statistics add up, and the attempts never exceed MaxAttempts. */
  lemma StatsConsistent<T>(p: Policy, w: World<T>, start: int)
    requires ValidPolicy(p) && StatsRunOf(p, w, start, true).Returns?
    ensures var h := StatsRunOf(p, w, start, true).h;
            var s := StatsOf(h);
            && h == RunOf(p, w, start, true)
            && s.totalAttempts == s.successful + s.failed + (if h.atCheck then 1 else 0)
            && s.totalAttempts <= p.maxAttempts
            && s.successful == |Those(w, |h.calls|, true)| && s.failed == |Those(w, |h.calls|, false)|
            && s.totalDelay == Total(h.delays) && forall i :: 0 <= i < |h.delays| ==> h.delays[i] == w.delay(i)
  {
    StatsExactly(p, w, start);
    SpecExplained(p, w, 0, start, None);
    SpecWaits(p, w, 0, start, None);
    SpecCheckHasRoom(p, w, 0, start, None);
    OutcomesOf(p, w, StatsRunOf(p, w, start, true).h);
  }

  /** Only the last call of a run can succeed, and it does if the run does. */
  lemma OutcomesOf<T>(p: Policy, w: World<T>, h: History<T>)
    requires Explained(p, w, 0, h)
    ensures var won := if h.end.Success? then 1 else 0;
            |Those(w, |h.calls|, true)| == won && |Those(w, |h.calls|, false)| == |h.calls| - won
  {
    var n := |h.calls|;
    var failed := if h.end.Success? then n - 1 else n;
    forall i | 0 <= i < failed ensures w.outcome(i).Err? {
      assert FailsRetryably(p, w, i) || i == n - 1;
    }
    AllFailed(w, failed);
    if h.end.Success? {
      assert Those(w, n, true) == Those(w, failed, true) + {n - 1} && Those(w, n, false) == Those(w, failed, false);
    }
  }

  lemma {:induction false} AllFailed<T>(w: World<T>, n: nat)
    requires forall i :: 0 <= i < n ==> w.outcome(i).Err?
    ensures Those(w, n, true) == {} && |Those(w, n, false)| == n
  {
    if n > 0 {
      AllFailed(w, n - 1);
      assert Those(w, n, false) == Those(w, n - 1, false) + {n - 1};
    }
  }

  lemma {:induction false} SpecCheckHasRoom<T>(p: Policy, w: World<T>, k: nat, now: int, deadline: Option<int>)
    requires k < p.maxAttempts
    ensures var h := Spec(p, w, k, now, deadline); h.atCheck ==> h.end.Cancelled? && k + |h.calls| < p.maxAttempts
    decreases p.maxAttempts - k
  {
    var turn := OneTurn(p, w, k, now, deadline);
    if turn.GoOn? {
      SpecCheckHasRoom(p, w, k + 1, turn.due, turn.deadline);
    }
  }
}
