/**
  What the steps of a caller say about the commands it sent: its n-th Set of an attempt goes to client n, and so do its
  n-th release script of a loop and its n-th script of an Extend.  Nothing here looks at the caller's own record of it.
 */
module RedlockTraces {
  import opened RedlockProtocol
  import opened RedlockSafety

  /** The commands of one loop over the clients. */
  datatype Command = Setting | Releasing | ExtendingBy(x: nat)

  predicate Sends(e: Step, v: Value, kind: Command) {
    match kind
    case Setting => e.SetKey? && e.v == v
    case Releasing => e.Release? && e.v == v
    case ExtendingBy(x) => e.ExtendKey? && e.v == v && e.x == x
  }

  /** What the store makes of such a command: Set needs room, the scripts need v's key. */
  predicate Obeys(cfg: Config, store: Store, r: Resource, v: Value, now: int, kind: Command) {
    if kind.Setting? then cfg.absentOnly ==> Free(store, r, now) else Matches(store, r, v, now)
  }

  /** The command e, sent in state s to client c, does its work and the caller hears so. */
  predicate Succeeds(cfg: Config, s: State, e: Step, v: Value, r: Resource, kind: Command, c: nat)
    requires Sends(e, v, kind)
  {
    e.took && e.heard && c < |s.stores| && Obeys(cfg, s.stores[c], r, v, s.now, kind)
  }

  /** How many commands have been sent, so that the next goes to the client of that number. */
  function Sent(steps: seq<Step>, v: Value, kind: Command): nat {
    if steps == [] then 0
    else Sent(steps[..|steps| - 1], v, kind) + if Sends(steps[|steps| - 1], v, kind) then 1 else 0
  }

  /** The clients on which a command was carried out, whatever came of it. */
  function Reached(steps: seq<Step>, v: Value, kind: Command): set<nat> {
    if steps == [] then {}
    else
      var before, e := steps[..|steps| - 1], steps[|steps| - 1];
      Reached(before, v, kind) + if Sends(e, v, kind) && e.took then {Sent(before, v, kind)} else {}
  }

  /** The clients whose command succeeded, in the steps that follow s. */
  function Answers(cfg: Config, s: State, steps: seq<Step>, v: Value, r: Resource, kind: Command): set<nat> {
    if steps == [] then {}
    else
      var before, e := steps[..|steps| - 1], steps[|steps| - 1];
      var c := Sent(before, v, kind);
      Answers(cfg, s, before, v, r, kind)
      + if Sends(e, v, kind) && Succeeds(cfg, Run(cfg, s, before), e, v, r, kind, c) then {c} else {}
  }

  /** When step e was last taken, or when s was if never. */
  function TimeOf(cfg: Config, s: State, steps: seq<Step>, e: Step): int {
    if steps == [] then s.now
    else if steps[|steps| - 1] == e then Run(cfg, s, steps[..|steps| - 1]).now
    else TimeOf(cfg, s, steps[..|steps| - 1], e)
  }

  ghost predicate Quiet(steps: seq<Step>, v: Value, kind: Command) {
    forall e :: e in steps ==> !Sends(e, v, kind)
  }

  /** Of v's own steps there are none but these. */
  ghost predicate OnlySends(steps: seq<Step>, v: Value, kind: Command) {
    forall e :: e in steps && Actor(e) == Some(v) ==> Sends(e, v, kind)
  }

  ghost predicate NoneOf(steps: seq<Step>, v: Value) {
    forall e :: e in steps ==> Actor(e) != Some(v)
  }

  lemma {:induction false} SentBounds(cfg: Config, s: State, steps: seq<Step>, v: Value, r: Resource, kind: Command)
    ensures Below(Reached(steps, v, kind), Sent(steps, v, kind))
    ensures Answers(cfg, s, steps, v, r, kind) <= Reached(steps, v, kind)
  {
    if steps != [] {
      SentBounds(cfg, s, steps[..|steps| - 1], v, r, kind);
    }
  }

  lemma {:induction false} QuietAfter(cfg: Config, s: State, a: seq<Step>, b: seq<Step>, v: Value, r: Resource,
                                      kind: Command)
    requires Quiet(b, v, kind)
    ensures Sent(a + b, v, kind) == Sent(a, v, kind) && Reached(a + b, v, kind) == Reached(a, v, kind)
    ensures Answers(cfg, s, a + b, v, r, kind) == Answers(cfg, s, a, v, r, kind)
  {
    if b == [] {
      assert a + b == a;
    } else {
      assert b[|b| - 1] in b && forall e :: e in b[..|b| - 1] ==> e in b;
      QuietAfter(cfg, s, a, b[..|b| - 1], v, r, kind);
      assert (a + b)[..|a + b| - 1] == a + b[..|b| - 1] && (a + b)[|a + b| - 1] == b[|b| - 1];
    }
  }

  lemma {:induction false} QuietBefore(cfg: Config, s: State, a: seq<Step>, b: seq<Step>, v: Value, r: Resource,
                                       kind: Command)
    requires Quiet(a, v, kind)
    ensures Sent(a + b, v, kind) == Sent(b, v, kind) && Reached(a + b, v, kind) == Reached(b, v, kind)
    ensures Answers(cfg, s, a + b, v, r, kind) == Answers(cfg, Run(cfg, s, a), b, v, r, kind)
  {
    if b == [] {
      QuietAfter(cfg, s, [], a, v, r, kind);
      assert a + b == a == [] + a;
    } else {
      QuietBefore(cfg, s, a, b[..|b| - 1], v, r, kind);
      RunConcat(cfg, s, a, b[..|b| - 1]);
      assert (a + b)[..|a + b| - 1] == a + b[..|b| - 1] && (a + b)[|a + b| - 1] == b[|b| - 1];
    }
  }

  /** v takes step e, after others have moved on for a while. */
  ghost predicate EndsIn(steps: seq<Step>, v: Value, e: Step) {
    Actor(e) == Some(v) && steps != [] && steps[|steps| - 1] == e && NoneOf(steps[..|steps| - 1], v)
  }

  lemma OneStepAfter(cfg: Config, s: State, others: seq<Step>, v: Value, e: Step)
    requires NoneOf(others, v) && Actor(e) == Some(v)
    ensures EndsIn(others + [e], v, e) && (others + [e])[..|others + [e]| - 1] == others
    ensures Run(cfg, s, others + [e]) == Next(cfg, Run(cfg, s, others), e)
  {
    assert (others + [e])[..|others|] == others;
  }

  lemma EndsQuietly(steps: seq<Step>, v: Value, e: Step, kind: Command)
    requires EndsIn(steps, v, e) && !Sends(e, v, kind)
    ensures Quiet(steps, v, kind)
  {
    var others := steps[..|steps| - 1];
    assert steps == others + [e];
  }

  /** One command more, with what others did before it. */
  lemma OneMoreSent(cfg: Config, s: State, a: seq<Step>, b: seq<Step>, e: Step, v: Value, r: Resource, kind: Command)
    requires EndsIn(b, v, e) && Sends(e, v, kind)
    ensures var c := Sent(a, v, kind);
            && Sent(a + b, v, kind) == c + 1
            && Reached(a + b, v, kind) == Reached(a, v, kind) + (if e.took then {c} else {})
            && Answers(cfg, s, a + b, v, r, kind)
               == Answers(cfg, s, a, v, r, kind)
                  + if Succeeds(cfg, Run(cfg, Run(cfg, s, a), b[..|b| - 1]), e, v, r, kind, c) then {c} else {}
  {
    var others := b[..|b| - 1];
    QuietAfter(cfg, s, a, others, v, r, kind);
    RunConcat(cfg, s, a, others);
    assert (a + b)[..|a + b| - 1] == a + others && (a + b)[|a + b| - 1] == e;
  }

  lemma OnlySendsMore(a: seq<Step>, b: seq<Step>, v: Value, e: Step, kind: Command)
    requires OnlySends(a, v, kind) && EndsIn(b, v, e) && Sends(e, v, kind)
    ensures OnlySends(a + b, v, kind)
  {
    var others := b[..|b| - 1];
    assert b == others + [e];
  }

  /** The steps since `from` have led to s, and among them v has sent c commands of one kind and done nothing else. */
  ghost predicate SentSoFar(cfg: Config, from: State, s: State, v: Value, c: nat, steps: seq<Step>, kind: Command) {
    s == Run(cfg, from, steps) && OnlySends(steps, v, kind) && Sent(steps, v, kind) == c
  }

  /** The loops over the clients go on like this. */
  lemma LoopGoesOn(cfg: Config, from: State, s: State, v: Value, c: nat, sofar: seq<Step>, others: seq<Step>, e: Step,
                   r: Resource, kind: Command)
    requires SentSoFar(cfg, from, s, v, c, sofar, kind) && NoneOf(others, v) && Actor(e) == Some(v) && Sends(e, v, kind)
    ensures var steps, s' := sofar + (others + [e]), Run(cfg, s, others);
            var ok := Succeeds(cfg, s', e, v, r, kind, c);
            && SentSoFar(cfg, from, Next(cfg, s', e), v, c + 1, steps, kind)
            && Reached(steps, v, kind) == Reached(sofar, v, kind) + (if e.took then {c} else {})
            && Answers(cfg, from, steps, v, r, kind) == Answers(cfg, from, sofar, v, r, kind) + (if ok then {c} else {})
            && |Answers(cfg, from, steps, v, r, kind)| == |Answers(cfg, from, sofar, v, r, kind)| + if ok then 1 else 0
  {
    var more := others + [e];
    OneStepAfter(cfg, s, others, v, e);
    RunConcat(cfg, from, sofar, more);
    SentBounds(cfg, from, sofar, v, r, kind);
    OneMoreSent(cfg, from, sofar, more, e, v, r, kind);
    OnlySendsMore(sofar, more, v, e, kind);
  }

  lemma {:induction false} TimeAfter(cfg: Config, s: State, a: seq<Step>, b: seq<Step>, e: Step)
    requires e !in b
    ensures TimeOf(cfg, s, a + b, e) == TimeOf(cfg, s, a, e)
  {
    if b == [] {
      assert a + b == a;
    } else {
      TimeAfter(cfg, s, a, b[..|b| - 1], e);
      assert (a + b)[..|a + b| - 1] == a + b[..|b| - 1] && (a + b)[|a + b| - 1] == b[|b| - 1];
    }
  }

  lemma {:induction false} TimeWithin(cfg: Config, s: State, a: seq<Step>, b: seq<Step>, e: Step)
    requires e in b
    ensures TimeOf(cfg, s, a + b, e) == TimeOf(cfg, Run(cfg, s, a), b, e)
  {
    assert (a + b)[..|a + b| - 1] == a + b[..|b| - 1] && (a + b)[|a + b| - 1] == b[|b| - 1];
    if b[|b| - 1] == e {
      RunConcat(cfg, s, a, b[..|b| - 1]);
    } else {
      TimeWithin(cfg, s, a, b[..|b| - 1], e);
    }
  }

  // ---- the parts of an attempt ------------------------------------------------------------------

  /** Of v's own steps there are none but those of an attempt. */
  ghost predicate Tries(steps: seq<Step>, v: Value) {
    forall e :: e in steps && Actor(e) == Some(v) ==> e.SetKey? || e == Judge(v) || e.Commit? || e.Release?
  }

  /** And none but those that follow its judgement. */
  ghost predicate Concludes(steps: seq<Step>, v: Value) {
    forall e :: e in steps && Actor(e) == Some(v) ==> e.Commit? || e.Release?
  }

  lemma PartsSent(cfg: Config, s: State, sets: seq<Step>, first: seq<Step>, rest: seq<Step>, v: Value, r: Resource)
    requires OnlySends(sets, v, Setting) && EndsIn(first, v, Judge(v)) && Concludes(rest, v)
    ensures var all := (sets + first) + rest;
            && Sent(all, v, Setting) == Sent(sets, v, Setting)
            && Answers(cfg, s, all, v, r, Setting) == Answers(cfg, s, sets, v, r, Setting)
  {
    EndsQuietly(first, v, Judge(v), Setting);
    QuietAfter(cfg, s, sets, first, v, r, Setting);
    QuietAfter(cfg, s, sets + first, rest, v, r, Setting);
  }

  lemma PartsReleased(cfg: Config, s: State, sets: seq<Step>, first: seq<Step>, rest: seq<Step>, v: Value, r: Resource)
    requires OnlySends(sets, v, Setting) && EndsIn(first, v, Judge(v))
    ensures var all := (sets + first) + rest;
            && Sent(all, v, Releasing) == Sent(rest, v, Releasing)
            && Reached(all, v, Releasing) == Reached(rest, v, Releasing)
  {
    EndsQuietly(first, v, Judge(v), Releasing);
    assert Quiet(sets + first, v, Releasing);
    QuietBefore(cfg, s, sets + first, rest, v, r, Releasing);
  }

  lemma PartsJudged(cfg: Config, s: State, sets: seq<Step>, first: seq<Step>, rest: seq<Step>, v: Value)
    requires OnlySends(sets, v, Setting) && EndsIn(first, v, Judge(v)) && Concludes(rest, v)
    ensures var all := (sets + first) + rest;
            && Tries(all, v) && Judge(v) in all
            && TimeOf(cfg, s, all, Judge(v)) == Run(cfg, Run(cfg, s, sets), first[..|first| - 1]).now
  {
    var others := first[..|first| - 1];
    assert first == others + [Judge(v)];
    TimeAfter(cfg, s, sets + first, rest, Judge(v));
    TimeWithin(cfg, s, sets, first, Judge(v));
  }

  // ---- what an acquisition comes to -------------------------------------------------------------

  /** How long the attempt had taken when it was judged. */
  function Elapsed(cfg: Config, s: State, steps: seq<Step>, v: Value, first: Step): int {
    TimeOf(cfg, s, steps, Judge(v)) - TimeOf(cfg, s, steps, first)
  }

  /** What is left of the TTL after that, less the share of it that is allowed for drift. */
  function LeftAfter(cfg: Config, ttl: int, elapsed: int): real {
    (ttl - elapsed) as real - ttl as real * cfg.driftFactor
  }

  function Left(cfg: Config, s: State, steps: seq<Step>, v: Value, first: Step, ttl: int): real {
    LeftAfter(cfg, ttl, Elapsed(cfg, s, steps, v, first))
  }

  /** The attempt that began with step `first` has a quorum of answers and time left. */
  predicate Granted(cfg: Config, s: State, steps: seq<Step>, v: Value, first: Step, r: Resource, ttl: int) {
    |Answers(cfg, s, steps, v, r, Setting)| >= cfg.quorum && Left(cfg, s, steps, v, first, ttl) > 0.0
  }

  /** An attempt that began at `start` has asked every client, was judged at `measured`, and came off if and only if a
      quorum of clients answered and some of the TTL was left. */
  ghost predicate Settled(cfg: Config, s: State, steps: seq<Step>, v: Value, r: Resource, ttl: int, start: int,
                          measured: int, ok: bool)
  {
    && Tries(steps, v) && Judge(v) in steps && Sent(steps, v, Setting) == cfg.n
    && measured == TimeOf(cfg, s, steps, Judge(v))
    && (ok <==> |Answers(cfg, s, steps, v, r, Setting)| >= cfg.quorum && LeftAfter(cfg, ttl, measured - start) > 0.0)
  }

  lemma SettledBy(cfg: Config, s: State, sets: seq<Step>, first: seq<Step>, rest: seq<Step>, v: Value, r: Resource,
                  ttl: int, start: int, ok: bool)
    requires OnlySends(sets, v, Setting) && EndsIn(first, v, Judge(v)) && Concludes(rest, v)
    requires Sent(sets, v, Setting) == cfg.n
    requires var measured := Run(cfg, Run(cfg, s, sets), first[..|first| - 1]).now;
             ok <==> |Answers(cfg, s, sets, v, r, Setting)| >= cfg.quorum && LeftAfter(cfg, ttl, measured - start) > 0.0
    ensures var all, measured := (sets + first) + rest, Run(cfg, Run(cfg, s, sets), first[..|first| - 1]).now;
            && Settled(cfg, s, all, v, r, ttl, start, measured, ok)
            && Sent(all, v, Releasing) == Sent(rest, v, Releasing)
            && Reached(all, v, Releasing) == Reached(rest, v, Releasing)
            && Run(cfg, s, all) == Run(cfg, Run(cfg, Run(cfg, s, sets), first), rest)
  {
    RunConcat(cfg, s, sets, first);
    RunConcat(cfg, s, sets + first, rest);
    PartsSent(cfg, s, sets, first, rest, v, r);
    PartsReleased(cfg, s, sets, first, rest, v, r);
    PartsJudged(cfg, s, sets, first, rest, v);
  }

  /** What comes before and after the attempt proper does not matter: neither to its commands... */
  lemma AttemptSends(cfg: Config, s: State, begin: seq<Step>, tried: seq<Step>, end: seq<Step>, v: Value, e: Step,
                     r: Resource, kind: Command)
    requires EndsIn(begin, v, e) && !Sends(e, v, kind) && Quiet(end, v, kind)
    ensures var all := (begin + tried) + end;
            && Sent(all, v, kind) == Sent(tried, v, kind) && Reached(all, v, kind) == Reached(tried, v, kind)
            && Answers(cfg, s, all, v, r, kind) == Answers(cfg, Run(cfg, s, begin), tried, v, r, kind)
  {
    EndsQuietly(begin, v, e, kind);
    QuietBefore(cfg, s, begin, tried, v, r, kind);
    QuietAfter(cfg, s, begin + tried, end, v, r, kind);
  }

  /** ...nor to its times. */
  lemma AttemptTimes(cfg: Config, s: State, begin: seq<Step>, tried: seq<Step>, end: seq<Step>, v: Value, e: Step)
    requires EndsIn(begin, v, e) && (e.Begin? || e == Retry(v)) && Tries(tried, v) && Judge(v) in tried
    requires Judge(v) !in end && e !in end
    ensures var all := (begin + tried) + end;
            && TimeOf(cfg, s, all, Judge(v)) == TimeOf(cfg, Run(cfg, s, begin), tried, Judge(v))
            && TimeOf(cfg, s, all, e) == Run(cfg, s, begin[..|begin| - 1]).now
  {
    TimeWithin(cfg, s, begin, tried, Judge(v));
    TimeAfter(cfg, s, begin + tried, end, Judge(v));
    TimeAfter(cfg, s, begin, tried, e);
    TimeAfter(cfg, s, begin + tried, end, e);
  }

  /** A round of LockWithRetry, begun with step `first`, that comes off exactly if `ok`, with so much left
      of the TTL. */
  ghost predicate Round(cfg: Config, s: State, steps: seq<Step>, v: Value, first: Step, r: Resource, ttl: int, ok: bool,
                        left: real)
  {
    && (ok <==> Granted(cfg, s, steps, v, first, r, ttl)) && Sent(steps, v, Setting) == cfg.n
    && left == Left(cfg, s, steps, v, first, ttl)
  }

  lemma GrantedBy(cfg: Config, s: State, begin: seq<Step>, tried: seq<Step>, end: seq<Step>, v: Value, e: Step,
                  r: Resource, ttl: int, measured: int, ok: bool)
    requires EndsIn(begin, v, e) && (e.Begin? || e == Retry(v)) && (end == [] || EndsIn(end, v, EndRollback(v)))
    requires var start := Run(cfg, s, begin[..|begin| - 1]).now;
             Settled(cfg, Run(cfg, s, begin), tried, v, r, ttl, start, measured, ok)
    ensures Round(cfg, s, (begin + tried) + end, v, e, r, ttl, ok,
                  LeftAfter(cfg, ttl, measured - Run(cfg, s, begin[..|begin| - 1]).now))
    ensures Run(cfg, s, (begin + tried) + end) == Run(cfg, Run(cfg, Run(cfg, s, begin), tried), end)
  {
    RunConcat(cfg, s, begin, tried);
    RunConcat(cfg, s, begin + tried, end);
    ElapsedBy(cfg, s, begin, tried, end, v, e, measured);
    SameSets(cfg, s, begin, tried, end, v, e, r);
  }

  lemma ElapsedBy(cfg: Config, s: State, begin: seq<Step>, tried: seq<Step>, end: seq<Step>, v: Value, e: Step,
                  measured: int)
    requires EndsIn(begin, v, e) && (e.Begin? || e == Retry(v)) && (end == [] || EndsIn(end, v, EndRollback(v)))
    requires Tries(tried, v) && Judge(v) in tried && measured == TimeOf(cfg, Run(cfg, s, begin), tried, Judge(v))
    ensures Elapsed(cfg, s, (begin + tried) + end, v, e) == measured - Run(cfg, s, begin[..|begin| - 1]).now
  {
    EndIsQuiet(end, v, e);
    AttemptTimes(cfg, s, begin, tried, end, v, e);
  }

  lemma SameSets(cfg: Config, s: State, begin: seq<Step>, tried: seq<Step>, end: seq<Step>, v: Value, e: Step,
                 r: Resource)
    requires EndsIn(begin, v, e) && (e.Begin? || e == Retry(v)) && (end == [] || EndsIn(end, v, EndRollback(v)))
    ensures var all := (begin + tried) + end;
            && Sent(all, v, Setting) == Sent(tried, v, Setting)
            && Answers(cfg, s, all, v, r, Setting) == Answers(cfg, Run(cfg, s, begin), tried, v, r, Setting)
  {
    EndIsQuiet(end, v, e);
    AttemptSends(cfg, s, begin, tried, end, v, e, r, Setting);
  }

  lemma EndIsQuiet(end: seq<Step>, v: Value, e: Step)
    requires (end == [] || EndsIn(end, v, EndRollback(v))) && Actor(e) == Some(v) && (e.Begin? || e == Retry(v))
    ensures Quiet(end, v, Setting) && e !in end && Judge(v) !in end
  {
    if end != [] {
      EndsQuietly(end, v, EndRollback(v), Setting);
      NotIn(end, v, EndRollback(v), e);
      NotIn(end, v, EndRollback(v), Judge(v));
    }
  }

  lemma NotIn(steps: seq<Step>, v: Value, e: Step, other: Step)
    requires EndsIn(steps, v, e) && Actor(other) == Some(v) && other != e
    ensures other !in steps
  {
    var others := steps[..|steps| - 1];
    assert steps == others + [e];
  }

  /** An integer is above the rounded drift allowance exactly if it is above the allowance itself. */
  lemma LeftOverDrift(cfg: Config, ttl: int, elapsed: int)
    ensures var left, validity := LeftAfter(cfg, ttl, elapsed), ttl - elapsed - DriftTime(cfg, ttl);
            (validity > 0 <==> left > 0.0) && left <= validity as real < left + 1.0
  {
  }

  function Joined(parts: seq<seq<Step>>): seq<Step> {
    if parts == [] then [] else Joined(parts[..|parts| - 1]) + parts[|parts| - 1]
  }

  /** Attempt i of these, after the ones before it, had a quorum of answers and time left. */
  predicate Won(cfg: Config, s: State, tries: seq<seq<Step>>, i: nat, v: Value, r: Resource, ttl: int, maxRetries: nat)
    requires i < |tries|
  {
    Granted(cfg, Run(cfg, s, Joined(tries[..i])), tries[i], v, FirstStep(v, r, ttl, maxRetries, i), r, ttl)
  }

  /** The step with which attempt i of a LockWithRetry call begins. */
  function FirstStep(v: Value, r: Resource, ttl: int, maxRetries: nat, i: nat): Step {
    if i == 0 then Begin(v, r, ttl, maxRetries) else Retry(v)
  }

  /** What was left of the TTL when the last of these attempts was judged. */
  function LeftAtLast(cfg: Config, s: State, tries: seq<seq<Step>>, v: Value, r: Resource, ttl: int, maxRetries: nat)
    : real
    requires tries != []
  {
    var n := |tries| - 1;
    Left(cfg, Run(cfg, s, Joined(tries[..n])), tries[n], v, FirstStep(v, r, ttl, maxRetries, n), ttl)
  }

  /** Only the last of them was won, and that if `ok`; and each asked every client. */
  ghost predicate WonAtLast(cfg: Config, s: State, tries: seq<seq<Step>>, ok: bool, v: Value, r: Resource, ttl: int,
                            maxRetries: nat)
  {
    (ok ==> tries != [])
    && forall i :: 0 <= i < |tries| ==>
         (Won(cfg, s, tries, i, v, r, ttl, maxRetries) <==> ok && i == |tries| - 1)
         && Sent(tries[i], v, Setting) == cfg.n
  }

  lemma OneTryMore(cfg: Config, s: State, tries: seq<seq<Step>>, more: seq<Step>, ok: bool, left: real, v: Value,
                   r: Resource, ttl: int, maxRetries: nat)
    requires WonAtLast(cfg, s, tries, false, v, r, ttl, maxRetries)
    requires var first := FirstStep(v, r, ttl, maxRetries, |tries|);
             Round(cfg, Run(cfg, s, Joined(tries)), more, v, first, r, ttl, ok, left)
    ensures WonAtLast(cfg, s, tries + [more], ok, v, r, ttl, maxRetries)
    ensures LeftAtLast(cfg, s, tries + [more], v, r, ttl, maxRetries) == left
  {
    OneMoreTry(tries, more);
    forall i | 0 <= i < |tries|
      ensures Won(cfg, s, tries + [more], i, v, r, ttl, maxRetries) == Won(cfg, s, tries, i, v, r, ttl, maxRetries)
    {
    }
  }

  lemma OneMoreTry(tries: seq<seq<Step>>, more: seq<Step>)
    ensures Joined(tries + [more]) == Joined(tries) + more
    ensures (tries + [more])[..|tries|] == tries
    ensures forall i :: 0 <= i <= |tries| ==> (tries + [more])[..i] == tries[..i]
  {
    assert (tries + [more])[..|tries|] == tries;
  }
}
