/** The doubling loops of internal/controller/provider_safety.go and selection_policy.go, in int64. */
module Backoff {
  import opened Prelude
  import opened Api

  function Min(a: int, b: int): int { if a < b then a else b }

  function Max(a: int, b: int): int { if a < b then b else a }

  function Power2(n: nat): int { if n == 0 then 1 else 2 * Power2(n - 1) }

  // The delay after n rounds of "double, but not beyond cap".
  function Doubled(delay: int, cap: int, n: int): (r: int)
    ensures 0 < delay ==> delay <= r
    decreases n
  {
    if n <= 0 || delay >= cap then delay else Doubled(Min(2 * delay, cap), cap, n - 1)
  }

  lemma {:induction false} Power2Positive(n: nat)
    ensures Power2(n) >= 1
  {
    if n > 0 { Power2Positive(n - 1); }
  }

  lemma ProductAtLeast(a: int, b: int)
    requires 0 < a && 1 <= b
    ensures a <= a * b
  {
  }

  // Closed form: a power of two under the cap; a delay that starts at or above the cap stays put.
  lemma {:induction false} DoubledClosedForm(delay: int, cap: int, n: nat)
    requires 0 < delay
    ensures Doubled(delay, cap, n) == if delay >= cap then delay else Min(cap, delay * Power2(n))
    decreases n
  {
    if delay < cap && n > 0 {
      Power2Positive(n - 1);
      assert delay * Power2(n) == (2 * delay) * Power2(n - 1);
      if 2 * delay < cap {
        DoubledClosedForm(2 * delay, cap, n - 1);
      } else {
        ProductAtLeast(2 * delay, Power2(n - 1));
      }
    }
  }

  lemma {:induction false} DoubledMonotone(delay: int, cap: int, m: nat, n: nat)
    requires 0 < delay && m <= n
    ensures delay <= Doubled(delay, cap, m) <= Doubled(delay, cap, n) <= Max(delay, cap)
    decreases n
  {
    if delay < cap && m > 0 {
      DoubledMonotone(Min(2 * delay, cap), cap, m - 1, n - 1);
    } else if delay < cap && n > 0 {
      DoubledMonotone(Min(2 * delay, cap), cap, 0, n - 1);
    }
  }

  function CleanupBase(spec: Spec): int { SecondsOr(spec.cleanupRetrySeconds, 2 * SECOND) }

  // The wait after the given number of failed cleanup checks.
  function CleanupDelay(spec: Spec, attempts: int): int {
    Doubled(CleanupBase(spec), MINUTE, attempts - 1)
  }

  function RetryBase(spec: Spec): int { SecondsOr(spec.retryBaseSeconds, 2 * SECOND) }

  function RetryCap(spec: Spec): int { Max(SecondsOr(spec.retryMaxSeconds, MINUTE), RetryBase(spec)) }

  function RetryCeiling(spec: Spec, retryCount: int): int {
    Doubled(RetryBase(spec), RetryCap(spec), retryCount)
  }

  lemma MinOfSeconds(a: int, b: int, p: int)
    ensures Min(a * SECOND, b * SECOND * p) == SECOND * Min(a, b * p)
  {
    assert b * SECOND * p == SECOND * (b * p);
  }

  lemma CleanupDelayIsCappedPower(spec: Spec, attempts: nat)
    requires attempts >= 1
    ensures var base := if spec.cleanupRetrySeconds > 0 then spec.cleanupRetrySeconds as int else 2;
            CleanupDelay(spec, attempts) == SECOND * (if base >= 60 then base else Min(60, base * Power2(attempts - 1)))
    ensures SECOND <= CleanupDelay(spec, attempts) <= CleanupDelay(spec, attempts + 1)
  {
    DoubledClosedForm(CleanupBase(spec), MINUTE, attempts - 1);
    DoubledMonotone(CleanupBase(spec), MINUTE, attempts - 1, attempts);
    hide Doubled, Power2;
    MinOfSeconds(60, CleanupBase(spec) / SECOND, Power2(attempts - 1));
  }

  lemma RetryCeilingIsCappedPower(spec: Spec, retryCount: nat)
    ensures var base := if spec.retryBaseSeconds > 0 then spec.retryBaseSeconds as int else 2;
            var cap := if spec.retryMaxSeconds > 0 then spec.retryMaxSeconds as int else 60;
            RetryCeiling(spec, retryCount) == SECOND * Min(Max(cap, base), base * Power2(retryCount))
    ensures RetryBase(spec) <= RetryCeiling(spec, retryCount) <= RetryCeiling(spec, retryCount + 1) <= RetryCap(spec)
  {
    DoubledClosedForm(RetryBase(spec), RetryCap(spec), retryCount);
    DoubledMonotone(RetryBase(spec), RetryCap(spec), retryCount, retryCount + 1);
    Power2Positive(retryCount);
    ProductAtLeast(RetryBase(spec), Power2(retryCount));
    hide Doubled, Power2;
    MinOfSeconds(RetryCap(spec) / SECOND, RetryBase(spec) / SECOND, Power2(retryCount));
  }

  // A configured int32 count of seconds as int64 nanoseconds: never overflows.
  function Duration(seconds: int32): int64 { seconds as int64 * 1_000_000_000 }

  // Every arithmetic step below is in int64, so verification also shows that none overflows.
  method CleanupRetryDelay(spec: Spec, attempts: int32) returns (delay: int64)
    ensures delay as int == CleanupDelay(spec, attempts as int)
  {
    delay := Duration(spec.cleanupRetrySeconds);
    if delay <= 0 { delay := 2_000_000_000; }
    var i: int32 := 1;
    while i < attempts && delay < 60_000_000_000
      invariant 0 < delay && 1 <= i && (i <= attempts || i == 1)
      invariant Doubled(delay as int, MINUTE, attempts as int - i as int) == CleanupDelay(spec, attempts as int)
    {
      delay := delay * 2;
      if delay > 60_000_000_000 { delay := 60_000_000_000; }
      i := i + 1;
    }
  }

  // `draw` stands for the random source: draw % (delay + 1) ranges over all of [0, delay].
  method RetryDelay(spec: Spec, retryCount: int32, draw: int64) returns (jitter: int64)
    requires 0 <= draw && 0 <= retryCount
    ensures jitter as int == Max(SECOND, draw as int % (RetryCeiling(spec, retryCount as int) + 1))
    ensures SECOND <= jitter as int <= Max(SECOND, RetryCeiling(spec, retryCount as int))
  {
    var base: int64 := 2_000_000_000;
    var max: int64 := 60_000_000_000;
    if spec.retryBaseSeconds > 0 { base := Duration(spec.retryBaseSeconds); }
    if spec.retryMaxSeconds > 0 { max := Duration(spec.retryMaxSeconds); }
    if max < base { max := base; }
    var delay := base;
    var i: int32 := 0;
    while i < retryCount && delay < max
      invariant 0 < delay <= max && 0 <= i <= retryCount
      invariant Doubled(delay as int, max as int, retryCount as int - i as int) == RetryCeiling(spec, retryCount as int)
    {
      delay := delay * 2;
      if delay > max { delay := max; }
      i := i + 1;
    }
    assert delay as int == RetryCeiling(spec, retryCount as int);
    jitter := draw % (delay + 1);
    if jitter < 1_000_000_000 { jitter := 1_000_000_000; }
  }
}
