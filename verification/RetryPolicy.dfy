/** Retry budget and exponential backoff of a failing task (`sdk/retry_policy.py`). */
module RetryPolicy {
  function Max(a: int, b: int): int {
    if a >= b then a else b
  }

  function Pow2(n: nat): (p: nat)
    ensures p >= 1
  {
    if n == 0 then 1 else 2 * Pow2(n - 1)
  }

  function RetryDelayMs(backoffMs: int, currentAttempt: int): int {
    Max(0, backoffMs) * Pow2(Max(1, currentAttempt) - 1)
  }

  function RetryDelaySeconds(backoffMs: int, currentAttempt: int): real {
    RetryDelayMs(backoffMs, currentAttempt) as real / 1000.0
  }

  predicate ShouldRetry(currentAttempt: int, maxAttempts: int) {
    currentAttempt < maxAttempts
  }

  function NextAttempt(currentAttempt: int): int {
    currentAttempt + 1
  }

  /** The number of times a task may be dispatched: the first attempt is never refused. */
  function Budget(maxAttempts: int): (b: int)
    ensures b >= 1
  {
    Max(1, maxAttempts)
  }

  /** Time spent sleeping before attempts 2..k, in seconds. */
  function TotalDelaySeconds(backoffMs: int, k: nat): real
    requires k >= 1
  {
    if k == 1 then 0.0
    else TotalDelaySeconds(backoffMs, k - 1) + RetryDelaySeconds(backoffMs, k - 1)
  }

  lemma AddSeconds(a: int, b: int)
    ensures a as real / 1000.0 + b as real / 1000.0 == (a + b) as real / 1000.0
  {
  }

  lemma GeometricStep(base: int, p: int)
    ensures base * (p - 1) + base * p == base * (2 * p - 1)
  {
  }

  lemma {:induction false} TotalDelayClosedForm(backoffMs: int, k: nat)
    requires k >= 1
    ensures TotalDelaySeconds(backoffMs, k) == (Max(0, backoffMs) * (Pow2(k - 1) - 1)) as real / 1000.0
  {
    var base := Max(0, backoffMs);
    if k == 1 {
      assert base * (Pow2(0) - 1) == 0;
    } else {
      var p := Pow2(k - 2);
      TotalDelayClosedForm(backoffMs, k - 1);
      AddSeconds(base * (p - 1), base * p);
      GeometricStep(base, p);
    }
  }

  /** The first wait is the configured one, which counts as 0 if it is negative; each further wait is twice the one before. */
  lemma BackoffDoubles(backoffMs: int, attempt: nat)
    requires attempt >= 1
    ensures RetryDelaySeconds(backoffMs, attempt + 1) == 2.0 * RetryDelaySeconds(backoffMs, attempt)
    ensures RetryDelaySeconds(backoffMs, 1) == (if backoffMs > 0 then backoffMs else 0) as real / 1000.0
    ensures forall early :: early < 1 ==> RetryDelaySeconds(backoffMs, early) == RetryDelaySeconds(backoffMs, 1)
  {
    var base, p := Max(0, backoffMs), Pow2(attempt - 1);
    assert base * (2 * p) == 2 * (base * p);
  }
}
