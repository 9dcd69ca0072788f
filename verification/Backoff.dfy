/** The wait before each reconnect (src/agentchatme/_realtime.py:330-348,
    380-391, 1358-1370). */
module Backoff {
  import opened Wrappers

  const LONG_OUTAGE_AFTER_ATTEMPTS := 60
  const LONG_OUTAGE_MAX_INTERVAL_MS := 300_000
  const AUTH_RETRY_INTERVAL_MS := 750_000

  /** A draw from [0, 1). */
  type Draw = u: real | 0.0 <= u < 1.0 witness 0.0

  function Power2(n: nat): nat {
    if n == 0 then 1 else 2 * Power2(n - 1)
  }

  /** `ms` scaled, cut to whole milliseconds. */
  function Scale(ms: nat, factor: real): nat
    requires factor >= 0.0
  {
    NotNegative(ms as real, factor);
    (ms as real * factor).Floor
  }

  /** A factor in (3/4, 1]. */
  function JitteredBelow(ms: int, u: Draw): nat {
    if ms <= 0 then 0 else Scale(ms, 1.0 - u * 0.25)
  }

  /** A factor in [4/5, 6/5). */
  function JitteredAround(ms: nat, u: Draw): nat {
    Scale(ms, 0.8 + u * 0.4)
  }

  function CapOf(cap: int, attempt: nat): int {
    if attempt > LONG_OUTAGE_AFTER_ATTEMPTS then Max(cap, LONG_OUTAGE_MAX_INTERVAL_MS) else cap
  }

  /** The step before jitter. */
  function RawStep(base: int, cap: int, attempt: nat): int
    requires attempt >= 1
  {
    Min(base * Power2(Min(attempt - 1, 20)), CapOf(cap, attempt))
  }

  function ReconnectDelay(base: int, cap: int, attempt: nat, u: Draw): nat
    requires attempt >= 1
  {
    JitteredBelow(RawStep(base, cap, attempt), u)
  }

  function AuthRetryDelay(u: Draw): nat {
    JitteredAround(AUTH_RETRY_INTERVAL_MS, u)
  }

  /** No wait of either kind is longer. */
  function LongestWait(cap: int): nat {
    Max(900_000, Max(cap, LONG_OUTAGE_MAX_INTERVAL_MS))
  }

  /** What the n-th wait can be at least: three quarters of its step. */
  function Floor(base: int, cap: int, attempt: nat): nat
    requires attempt >= 1
  {
    Max(0, RawStep(base, cap, attempt)) * 3 / 4
  }

  lemma NotNegative(x: real, y: real)
    requires x >= 0.0 && y >= 0.0
    ensures x * y >= 0.0
  {}

  lemma ProductGrows(x: real, lo: real, y: real, hi: real)
    requires x >= 0.0 && lo <= y <= hi
    ensures lo * x <= x * y <= hi * x
  {
    NotNegative(x, y - lo);
    NotNegative(x, hi - y);
    assert x * (y - lo) == x * y - lo * x;
    assert x * (hi - y) == hi * x - x * y;
  }

  /** Scaled by three quarters or more, and by at most `hi`. */
  lemma ScaleBounds(ms: nat, factor: real, hi: real)
    requires 0.75 <= factor <= hi
    ensures ms * 3 / 4 <= Scale(ms, factor) && Scale(ms, factor) as real <= hi * (ms as real)
  {
    var x := ms as real;
    ProductGrows(x, 0.75, factor, hi);
    ThreeQuarters(ms, x * factor);
  }

  lemma ThreeQuarters(ms: nat, z: real)
    requires 0.75 * (ms as real) <= z
    ensures ms * 3 / 4 <= z.Floor
  {
    var q := ms * 3 / 4;
    assert 4.0 * (q as real) <= 3.0 * (ms as real);
  }

  lemma JitterBounds(ms: int, u: Draw)
    ensures Max(0, ms) * 3 / 4 <= JitteredBelow(ms, u) <= Max(0, ms)
  {
    if ms > 0 { ScaleBounds(ms, 1.0 - u * 0.25, 1.0); }
  }

  lemma {:induction false} Power2Grows(m: nat, n: nat)
    requires m <= n
    ensures 1 <= Power2(m) <= Power2(n)
    decreases n
  {
    if n > 0 { if m < n { Power2Grows(m, n - 1); } else { Power2Grows(m - 1, n - 1); } }
  }

  lemma ScaledGrows(base: int, p: nat, q: nat)
    requires p <= q
    ensures base >= 0 ==> base * p <= base * q
    ensures base <= 0 ==> base * p <= 0 && base * q <= 0
  {}

  /** Counted as waits, the steps never shrink, not even where the cap widens. */
  lemma StepsNeverShrink(base: int, cap: int, m: nat, n: nat)
    requires 1 <= m <= n
    ensures Max(0, RawStep(base, cap, m)) <= Max(0, RawStep(base, cap, n))
    ensures Floor(base, cap, m) <= Floor(base, cap, n)
  {
    var p, q := Power2(Min(m - 1, 20)), Power2(Min(n - 1, 20));
    Power2Grows(Min(m - 1, 20), Min(n - 1, 20));
    ScaledGrows(base, p, q);
  }

  lemma ScaledMin(base: int, p: nat, cap: int)
    requires base > 0 && cap > 0
    ensures Min(base * (2 * p), cap) == Min(2 * Min(base * p, cap), cap)
  {
    assert base * (2 * p) == 2 * (base * p);
  }

  lemma {:induction false} Power2At20()
    ensures Power2(20) == 1_048_576
  {
    assert Power2(10) == 1024;
    assert Power2(20) == 1024 * Power2(10);
  }

  /** The first step is the base, each of the next twenty doubles the one before as
      far as the cap lets it, and from then on they stay, until the cap widens to at
      least five minutes after the 60th attempt. */
  lemma {:induction false} StepsDouble(base: int, cap: int, n: nat)
    requires base > 0 && cap > 0 && n >= 1
    ensures RawStep(base, cap, 1) == Min(base, cap)
    ensures n <= 20 ==> RawStep(base, cap, n + 1) == Min(2 * RawStep(base, cap, n), cap)
    ensures 21 <= n <= 60 ==> RawStep(base, cap, n) == RawStep(base, cap, 21)
    ensures n > 60 ==> RawStep(base, cap, n) == Min(1_048_576 * base, Max(cap, 300_000))
  {
    if n <= 20 { ScaledMin(base, Power2(n - 1), cap); }
    Power2At20();
  }

  /** Each wait lies between three quarters of its step and that step, which is at
      most its cap. */
  lemma DelayBounds(base: int, cap: int, attempt: nat, u: Draw)
    requires attempt >= 1
    ensures Floor(base, cap, attempt) <= ReconnectDelay(base, cap, attempt, u)
    ensures ReconnectDelay(base, cap, attempt, u) <= Max(0, RawStep(base, cap, attempt)) <= Max(0, CapOf(cap, attempt))
  {
    JitterBounds(RawStep(base, cap, attempt), u);
  }

  /** The blocked retry comes after 10 to 15 minutes. */
  lemma AuthRetryBounds(u: Draw)
    ensures 600_000 <= AuthRetryDelay(u) < 900_000
  {
    ProductGrows(AUTH_RETRY_INTERVAL_MS as real, 0.8, 0.8 + u * 0.4, 1.2);
  }
}
