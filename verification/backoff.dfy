/** calculateDelay and validatePolicy of retry.go, over real numbers. */
module Backoff {

  const MILLISECOND: int := 1_000_000
  const HOUR: int := 3_600_000 * MILLISECOND

  type ErrorId = string

  /** Durations are nanoseconds.  `retryable` empty means every error is retried. */
  datatype Policy = Policy(maxAttempts: int, initialDelay: int, maxDelay: int, multiplier: real, jitter: bool,
                           jitterPercent: real, retryable: seq<ErrorId>, timeout: int, rateLimit: int,
                           rateLimitWindow: int)

  predicate ValidPolicy(p: Policy) {
    && 1 <= p.maxAttempts <= 100
    && MILLISECOND <= p.initialDelay <= HOUR
    && MILLISECOND <= p.maxDelay <= 24 * HOUR
    && p.initialDelay <= p.maxDelay
    && 0.1 <= p.multiplier <= 10.0
    && 0.0 <= p.jitterPercent <= 50.0
    && |p.retryable| <= 100
    && 0 <= p.rateLimit && 0 < p.rateLimitWindow
  }

  function Pow(b: real, k: nat): real {
    if k == 0 then 1.0 else b * Pow(b, k - 1)
  }

  /** The delay before jitter. */
  function Base(p: Policy, k: nat): real {
    var delay := p.initialDelay as real * Pow(p.multiplier, k);
    if delay > p.maxDelay as real then p.maxDelay as real else delay
  }

  /** The delay after attempt k, for a random draw u from [0, 1). */
  function RealDelay(p: Policy, k: nat, u: real): real {
    Jittered(p.jitter, Base(p, k), Spread(Base(p, k), p.jitterPercent / 100.0), u)
  }

  /** `share` of a base delay. */
  function Spread(base: real, share: real): (spread: real)
    ensures 0.0 <= base && 0.0 <= share <= 1.0 ==> 0.0 <= spread <= base
  {
    if 0.0 <= base && 0.0 <= share <= 1.0 then ShareBounds(base, share); base * share else base * share
  }

  /** A base delay, moved by up to `spread` either way. */
  function Jittered(jitter: bool, base: real, spread: real, u: real): real {
    var delay := if jitter then base + (u * 2.0 * spread - spread) else base;
    if delay < 0.0 then 0.0 else delay
  }

  /** time.Duration(delay) drops the fraction. */
  function Delay(p: Policy, k: nat, u: real): int {
    RealDelay(p, k, u).Floor
  }

  lemma {:induction false} PowPositive(b: real, k: nat)
    requires b > 0.0
    ensures Pow(b, k) > 0.0
  {
    if k > 0 {
      PowPositive(b, k - 1);
      MulPositive(b, Pow(b, k - 1));
    }
  }

  lemma MulPositive(a: real, b: real)
    requires a > 0.0 && b > 0.0
    ensures a * b > 0.0
  {
  }

  lemma MulMonotone(a: real, b: real, c: real)
    requires a >= 0.0 && b <= c
    ensures a * b <= a * c
  {
  }

  lemma BasePositive(p: Policy, k: nat)
    requires ValidPolicy(p)
    ensures 0.0 < Base(p, k) <= p.maxDelay as real
  {
    PowPositive(p.multiplier, k);
    MulPositive(p.initialDelay as real, Pow(p.multiplier, k));
  }

  lemma ShareBounds(base: real, share: real)
    requires 0.0 <= base && 0.0 <= share <= 1.0
    ensures 0.0 <= base * share <= base
  {
    MulMonotone(base, 0.0, share);
    MulMonotone(base, share, 1.0);
  }

  lemma DrawBounds(spread: real, u: real)
    requires 0.0 <= spread && 0.0 <= u < 1.0
    ensures 0.0 <= u * 2.0 * spread <= 2.0 * spread
  {
    MulMonotone(spread, 0.0, 2.0 * u);
    MulMonotone(spread, 2.0 * u, 2.0);
  }

  lemma JitterSpread(jitter: bool, base: real, spread: real, u: real)
    requires 0.0 <= spread <= base && 0.0 <= u < 1.0
    ensures base - spread <= Jittered(jitter, base, spread, u) <= base + spread
    ensures 0.0 <= Jittered(jitter, base, spread, u) && (!jitter ==> Jittered(jitter, base, spread, u) == base)
  {
    DrawBounds(spread, u);
  }

  /** Every delay lies within JitterPercent of the capped exponential, and is never negative. */
  lemma WithinJitter(p: Policy, k: nat, u: real)
    requires ValidPolicy(p) && 0.0 <= u < 1.0
    ensures var spread := Spread(Base(p, k), p.jitterPercent / 100.0);
            && Base(p, k) - spread <= RealDelay(p, k, u) <= Base(p, k) + spread
            && (!p.jitter ==> RealDelay(p, k, u) == Base(p, k))
    ensures RealDelay(p, k, u) - 1.0 < Delay(p, k, u) as real <= RealDelay(p, k, u)
    ensures 0 <= Delay(p, k, u)
  {
    BasePositive(p, k);
    JitterSpread(p.jitter, Base(p, k), Spread(Base(p, k), p.jitterPercent / 100.0), u);
  }

  function Least(x: real, y: real): real {
    if x < y then x else y
  }

  /** The capped exponential, step by step: it begins with InitialDelay, and each delay before jitter is Multiplier
      times the one before it, but no more than MaxDelay. */
  lemma BaseInTurn(p: Policy, k: nat)
    requires ValidPolicy(p)
    ensures Base(p, 0) == p.initialDelay as real
    ensures Base(p, k + 1) == Least(p.multiplier * Base(p, k), p.maxDelay as real)
  {
    FirstBase(p);
    var y := FollowingBases(p, k);
    CapStep(p.multiplier, y, p.maxDelay as real);
  }

  /** Before the cap, each is Multiplier times the other. */
  lemma FollowingBases(p: Policy, k: nat) returns (y: real)
    requires ValidPolicy(p)
    ensures y > 0.0 && (p.multiplier < 1.0 ==> y <= p.maxDelay as real)
    ensures Base(p, k) == Least(y, p.maxDelay as real) && Base(p, k + 1) == Least(p.multiplier * y, p.maxDelay as real)
  {
    y := Term(p.initialDelay as real, p.multiplier, k);
    BaseIs(p, k);
    BaseIs(p, k + 1);
    TermNext(p.initialDelay as real, p.multiplier, k);
    TermPositive(p, k);
    if p.multiplier < 1.0 {
      TermBelow(p, k);
    }
  }

  lemma FirstBase(p: Policy)
    requires ValidPolicy(p)
    ensures Base(p, 0) == p.initialDelay as real
  {
    assert Pow(p.multiplier, 0) == 1.0;
  }

  function Term(d: real, m: real, k: nat): real {
    d * Pow(m, k)
  }

  lemma BaseIs(p: Policy, k: nat)
    ensures Base(p, k) == Least(Term(p.initialDelay as real, p.multiplier, k), p.maxDelay as real)
  {
  }

  lemma TermNext(d: real, m: real, k: nat)
    ensures Term(d, m, k + 1) == m * Term(d, m, k)
  {
    Reorder(d, m, Pow(m, k));
  }

  lemma Reorder(d: real, m: real, x: real)
    ensures d * (m * x) == m * (d * x)
  {
  }

  lemma TermPositive(p: Policy, k: nat)
    requires ValidPolicy(p)
    ensures Term(p.initialDelay as real, p.multiplier, k) > 0.0
  {
    PowPositive(p.multiplier, k);
    MulPositive(p.initialDelay as real, Pow(p.multiplier, k));
  }

  /** Without growth it is never above MaxDelay. */
  lemma TermBelow(p: Policy, k: nat)
    requires ValidPolicy(p) && p.multiplier < 1.0
    ensures Term(p.initialDelay as real, p.multiplier, k) <= p.maxDelay as real
  {
    var d := p.initialDelay as real;
    assert 0.0 <= d <= p.maxDelay as real;
    TermAtMost(d, p.multiplier, k);
  }

  lemma TermAtMost(d: real, m: real, k: nat)
    requires d >= 0.0 && 0.0 < m <= 1.0
    ensures Term(d, m, k) <= d
  {
    PowAtMostOne(m, k);
    AtMostItself(d, Pow(m, k));
  }

  lemma AtMostItself(d: real, x: real)
    requires d >= 0.0 && x <= 1.0
    ensures d * x <= d
  {
    MulMonotone(d, x, 1.0);
  }

  lemma CapStep(m: real, y: real, cap: real)
    requires m > 0.0 && y > 0.0 && cap > 0.0 && (m >= 1.0 || y <= cap)
    ensures Least(m * Least(y, cap), cap) == Least(m * y, cap)
  {
    if y > cap {
      TimesMore(m, cap);
      TimesMore(m, y);
    }
  }

  lemma TimesMore(m: real, x: real)
    requires m >= 1.0 && x >= 0.0
    ensures m * x >= x
  {
    MulMonotone(x, 1.0, m);
  }

  lemma {:induction false} PowAtMostOne(m: real, k: nat)
    requires 0.0 < m <= 1.0
    ensures Pow(m, k) <= 1.0
  {
    if k > 0 {
      PowAtMostOne(m, k - 1);
      AtMostItself(m, Pow(m, k - 1));
    }
  }

  /** u draws x from base - spread up to base + spread. */
  predicate DrawnFrom(base: real, spread: real, x: real, u: real) {
    0.0 <= u < 1.0 && x == base + (u * 2.0 * spread - spread)
  }

  lemma DrawsWithin(base: real, spread: real, x: real, u: real)
    requires spread > 0.0 && DrawnFrom(base, spread, x, u)
    ensures base - spread <= x < base + spread
  {
    DrawBounds(spread, u);
    MulPositive(1.0 - u, spread);
    assert (1.0 - u) * spread == spread - u * spread;
  }

  /** The draw that gives this delay. */
  lemma DrawFor(base: real, spread: real, x: real) returns (u: real)
    requires spread > 0.0 && base - spread <= x < base + spread
    ensures DrawnFrom(base, spread, x, u)
  {
    u := (x - (base - spread)) / (2.0 * spread);
    Fraction(x - (base - spread), 2.0 * spread);
    assert u * 2.0 * spread == u * (2.0 * spread);
  }

  lemma Fraction(y: real, z: real)
    requires 0.0 <= y < z
    ensures 0.0 <= y / z < 1.0 && (y / z) * z == y
  {
  }

  /** Delay k, with u drawn, is x before the fraction is dropped. */
  predicate IsDrawn(p: Policy, k: nat, x: real, u: real) {
    0.0 <= u < 1.0 && RealDelay(p, k, u) == x
  }

  lemma SpreadIs(p: Policy, k: nat)
    requires ValidPolicy(p) && p.jitterPercent > 0.0
    ensures 0.0 < Base(p, k) * (p.jitterPercent / 100.0) <= Base(p, k)
    ensures Spread(Base(p, k), p.jitterPercent / 100.0) == Base(p, k) * (p.jitterPercent / 100.0)
  {
    BasePositive(p, k);
    MulPositive(Base(p, k), p.jitterPercent / 100.0);
    ShareBounds(Base(p, k), p.jitterPercent / 100.0);
  }

  lemma SameDraw(p: Policy, k: nat, x: real, u: real)
    requires ValidPolicy(p) && p.jitter && p.jitterPercent > 0.0
    ensures IsDrawn(p, k, x, u) <==> DrawnFrom(Base(p, k), Base(p, k) * (p.jitterPercent / 100.0), x, u)
  {
    SpreadIs(p, k);
    if 0.0 <= u < 1.0 {
      NotNegative(Base(p, k), Base(p, k) * (p.jitterPercent / 100.0), u);
    }
  }

  lemma NotNegative(base: real, spread: real, u: real)
    requires 0.0 < spread <= base && 0.0 <= u < 1.0
    ensures base + (u * 2.0 * spread - spread) >= 0.0
  {
    DrawBounds(spread, u);
  }

  /** With jitter, the delays that can be drawn are exactly those within JitterPercent of the capped exponential,
      the upper bound excluded. */
  lemma JitterExactly(p: Policy, k: nat, x: real)
    requires ValidPolicy(p) && p.jitter && p.jitterPercent > 0.0
    ensures var spread := Base(p, k) * (p.jitterPercent / 100.0);
            (exists u :: IsDrawn(p, k, x, u)) <==> Base(p, k) - spread <= x < Base(p, k) + spread
  {
    var spread := Base(p, k) * (p.jitterPercent / 100.0);
    SpreadIs(p, k);
    if u :| IsDrawn(p, k, x, u) {
      SameDraw(p, k, x, u);
      DrawsWithin(Base(p, k), spread, x, u);
    }
    if Base(p, k) - spread <= x < Base(p, k) + spread {
      var u := DrawFor(Base(p, k), spread, x);
      SameDraw(p, k, x, u);
    }
  }

  lemma CapMonotone(d: real, x: real, y: real, cap: real)
    requires d >= 0.0 && x <= y
    ensures (if d * x > cap then cap else d * x) <= if d * y > cap then cap else d * y
  {
    MulMonotone(d, x, y);
  }

  lemma BaseMonotone(p: Policy, k: nat)
    requires ValidPolicy(p) && p.multiplier >= 1.0
    ensures Base(p, k) <= Base(p, k + 1)
  {
    PowPositive(p.multiplier, k);
    MulMonotone(Pow(p.multiplier, k), 1.0, p.multiplier);
    assert Pow(p.multiplier, k) <= Pow(p.multiplier, k + 1) by {
      assert Pow(p.multiplier, k + 1) == Pow(p.multiplier, k) * p.multiplier;
    }
    CapMonotone(p.initialDelay as real, Pow(p.multiplier, k), Pow(p.multiplier, k + 1), p.maxDelay as real);
  }

  lemma FloorMonotone(a: real, b: real)
    requires a <= b
    ensures a.Floor <= b.Floor
  {
  }

  /** Without jitter, a multiplier of at least 1 never shortens the next delay. */
  lemma Monotone(p: Policy, k: nat, u: real, u': real)
    requires ValidPolicy(p) && !p.jitter && p.multiplier >= 1.0 && 0.0 <= u < 1.0 && 0.0 <= u' < 1.0
    ensures Delay(p, k, u) <= Delay(p, k + 1, u')
  {
    BaseMonotone(p, k);
    WithinJitter(p, k, u);
    WithinJitter(p, k + 1, u');
    FloorMonotone(RealDelay(p, k, u), RealDelay(p, k + 1, u'));
  }

  /** The longest any one delay can be. */
  function Longest(p: Policy): real {
    p.maxDelay as real * (1.0 + p.jitterPercent / 100.0)
  }

  lemma SpreadAtMost(base: real, share: real, cap: real)
    requires 0.0 <= share && base <= cap
    ensures base + Spread(base, share) <= cap * (1.0 + share)
  {
    MulMonotone(1.0 + share, base, cap);
  }

  lemma DelayAtMost(p: Policy, k: nat, u: real)
    requires ValidPolicy(p) && 0.0 <= u < 1.0
    ensures 0.0 <= Delay(p, k, u) as real <= Longest(p)
  {
    WithinJitter(p, k, u);
    BasePositive(p, k);
    SpreadAtMost(Base(p, k), p.jitterPercent / 100.0, p.maxDelay as real);
  }

  // ---- totals -----------------------------------------------------------------------------------

  function Total(delays: seq<int>): int {
    if delays == [] then 0 else Total(delays[..|delays| - 1]) + delays[|delays| - 1]
  }

  ghost predicate IsDelay(p: Policy, k: nat, delay: int) {
    exists u :: 0.0 <= u < 1.0 && delay == Delay(p, k, u)
  }

  /** The delays after the first attempts, for some draws. */
  ghost predicate Planned(p: Policy, delays: seq<int>) {
    forall k :: 0 <= k < |delays| ==> IsDelay(p, k, delays[k])
  }

  lemma {:induction false} SumAtMost(delays: seq<int>, n: nat, each: real)
    requires |delays| <= n && 0.0 <= each
    requires forall k :: 0 <= k < |delays| ==> 0.0 <= delays[k] as real <= each
    ensures 0 <= Total(delays) && Total(delays) as real <= n as real * each
  {
    if delays != [] {
      SumAtMost(delays[..|delays| - 1], n - 1, each);
      assert n as real * each == (n - 1) as real * each + each;
    }
  }

  /** Up to n delays take at most n times the longest one, MaxDelay * (1 + JitterPercent / 100). */
  lemma TotalAtMost(p: Policy, delays: seq<int>, n: nat, longest: real)
    requires ValidPolicy(p) && Planned(p, delays) && |delays| <= n && longest >= Longest(p)
    ensures 0 <= Total(delays) && Total(delays) as real <= n as real * longest
  {
    DelayAtMost(p, 0, 0.0);
    forall k | 0 <= k < |delays| ensures 0.0 <= delays[k] as real <= longest {
      assert IsDelay(p, k, delays[k]);
      var u :| 0.0 <= u < 1.0 && delays[k] == Delay(p, k, u);
      DelayAtMost(p, k, u);
    }
    SumAtMost(delays, n, longest);
  }

  function Geometric(d: real, m: real, n: nat): real {
    if n == 0 then 0.0 else Geometric(d, m, n - 1) + Term(d, m, n - 1)
  }

  lemma GeometricStep(m: real, d: real, x: real, sum: real)
    requires sum * (m - 1.0) == d * (x - 1.0)
    ensures (sum + d * x) * (m - 1.0) == d * (m * x - 1.0)
  {
    assert (sum + d * x) * (m - 1.0) == sum * (m - 1.0) + d * x * (m - 1.0);
    assert d * x * (m - 1.0) == d * (m * x) - d * x;
  }

  lemma {:induction false} ClosedForm(d: real, m: real, n: nat)
    ensures Geometric(d, m, n) * (m - 1.0) == d * (Pow(m, n) - 1.0)
  {
    if n > 0 {
      ClosedForm(d, m, n - 1);
      GeometricStep(m, d, Pow(m, n - 1), Geometric(d, m, n - 1));
    }
  }

  lemma {:induction false} SumGeometric(delays: seq<int>, d: real, m: real)
    requires forall k :: 0 <= k < |delays| ==> delays[k] as real <= Term(d, m, k)
    ensures Total(delays) as real <= Geometric(d, m, |delays|)
  {
    if delays != [] {
      SumGeometric(delays[..|delays| - 1], d, m);
    }
  }

  lemma BaseAtMost(p: Policy, k: nat)
    ensures Base(p, k) <= Term(p.initialDelay as real, p.multiplier, k)
  {
  }

  lemma UnjitteredAtMost(p: Policy, k: nat, delay: int)
    requires ValidPolicy(p) && !p.jitter && IsDelay(p, k, delay)
    ensures delay as real <= Term(p.initialDelay as real, p.multiplier, k)
  {
    var u :| 0.0 <= u < 1.0 && delay == Delay(p, k, u);
    WithinJitter(p, k, u);
    BaseAtMost(p, k);
  }

  /** Without jitter, n delays take at most the geometric sum of InitialDelay * m^k over k < n. */
  lemma TotalUnderSum(p: Policy, delays: seq<int>)
    requires ValidPolicy(p) && Planned(p, delays) && !p.jitter
    ensures Total(delays) as real <= Geometric(p.initialDelay as real, p.multiplier, |delays|)
  {
    forall k | 0 <= k < |delays| ensures delays[k] as real <= Term(p.initialDelay as real, p.multiplier, k) {
      UnjitteredAtMost(p, k, delays[k]);
    }
    SumGeometric(delays, p.initialDelay as real, p.multiplier);
  }

  /** For a multiplier m above 1, that sum is d * (m^n - 1) / (m - 1). */
  lemma UnderClosedForm(d: real, m: real, n: nat, total: real)
    requires m > 1.0 && total <= Geometric(d, m, n)
    ensures total * (m - 1.0) <= d * (Pow(m, n) - 1.0)
  {
    ClosedForm(d, m, n);
    MulMonotone(m - 1.0, total, Geometric(d, m, n));
  }
}
