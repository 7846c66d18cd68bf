/** The backoff calculator: `min(base * 2^n, max)`, optionally replaced by a uniform draw below it. */
module Backoff {
  /** A value returned by `random.random()`. */
  type UnitDraw = u: real | 0.0 <= u < 1.0

  function Pow2(n: nat): (p: nat)
    ensures p >= 1
  {
    if n == 0 then 1 else 2 * Pow2(n - 1)
  }

  function Min(a: real, b: real): real {
    if a <= b then a else b
  }

  /** `min(base_delay * (2 ** retry_count), max_delay)`: the delay before any jitter. */
  function CappedDelay(retryCount: nat, baseDelay: real, maxDelay: real): (d: real)
    ensures d <= maxDelay && d <= baseDelay * Pow2(retryCount) as real
    ensures d == maxDelay || d == baseDelay * Pow2(retryCount) as real
  {
    Min(baseDelay * Pow2(retryCount) as real, maxDelay)
  }

  /** `random.uniform(a, b)`, which CPython computes as `a + (b - a) * random.random()`. */
  function Uniform(a: real, b: real, u: UnitDraw): (r: real)
    ensures a <= b ==> a <= r <= b
    ensures b <= a ==> b <= r <= a
  {
    var w := if a <= b then b - a else a - b;
    MulNonnegative(w, u);
    MulNonnegative(w, 1.0 - u);
    assert w * u + w * (1.0 - u) == w;
    a + (b - a) * u
  }

  lemma MulNonnegative(x: real, y: real)
    requires x >= 0.0 && y >= 0.0
    ensures x * y >= 0.0
  {
  }

  /** `exponential_backoff(retry_count, base_delay, max_delay, jitter)`; `u` is the draw of the
      random generator, used only when jitter is on. */
  function ExponentialBackoff(retryCount: nat, baseDelay: real, maxDelay: real, jitter: bool, u: UnitDraw): (r: real)
    ensures !jitter ==> r == CappedDelay(retryCount, baseDelay, maxDelay)
    ensures jitter && CappedDelay(retryCount, baseDelay, maxDelay) >= 0.0 ==>
              0.0 <= r <= CappedDelay(retryCount, baseDelay, maxDelay)
  {
    var delay := CappedDelay(retryCount, baseDelay, maxDelay);
    if jitter then Uniform(0.0, delay, u) else delay
  }

  /** For non-negative settings every delay, jittered or not, lies in `[0, max_delay]`. */
  lemma BackoffWithinBounds(retryCount: nat, baseDelay: real, maxDelay: real, jitter: bool, u: UnitDraw)
    requires baseDelay >= 0.0 && maxDelay >= 0.0
    ensures 0.0 <= ExponentialBackoff(retryCount, baseDelay, maxDelay, jitter, u) <= maxDelay
  {
    assert CappedDelay(retryCount, baseDelay, maxDelay) >= 0.0;
  }

  /** The first retry waits `min(base_delay, max_delay)` before jitter. */
  lemma FirstRetryDelay(baseDelay: real, maxDelay: real)
    ensures CappedDelay(0, baseDelay, maxDelay) == Min(baseDelay, maxDelay)
  {
  }

  lemma {:induction false} Pow2Monotone(m: nat, n: nat)
    requires m <= n
    ensures Pow2(m) <= Pow2(n)
    decreases n
  {
    if m < n {
      Pow2Monotone(m, n - 1);
    }
  }

  /** Without jitter, a later retry never waits less than an earlier one. */
  lemma {:induction false} DelayMonotone(m: nat, n: nat, baseDelay: real, maxDelay: real)
    requires m <= n && baseDelay >= 0.0
    ensures ExponentialBackoff(m, baseDelay, maxDelay, false, 0.0) <= ExponentialBackoff(n, baseDelay, maxDelay, false, 0.0)
  {
    Pow2Monotone(m, n);
    MulMonotone(baseDelay, Pow2(m) as real, Pow2(n) as real);
    var early, late := baseDelay * Pow2(m) as real, baseDelay * Pow2(n) as real;
    assert ExponentialBackoff(m, baseDelay, maxDelay, false, 0.0) == Min(early, maxDelay);
    assert ExponentialBackoff(n, baseDelay, maxDelay, false, 0.0) == Min(late, maxDelay);
  }

  lemma MulMonotone(c: real, x: real, y: real)
    requires c >= 0.0 && x <= y
    ensures c * x <= c * y
  {
    MulNonnegative(c, y - x);
    assert c * y - c * x == c * (y - x);
  }
}
