/** `RetryConfig`: the exponential-backoff schedule and the classification of
    errors into retryable and final ones. Durations are whole milliseconds. */
module Retry {
  import opened Errors

  /** Rust's `u32`. */
  type u32 = x: int | 0 <= x < 0x1_0000_0000

  /** The backoff multiplier is an `f64` in the source; here it is a whole number. */
  datatype RetryConfig = RetryConfig(
    maxRetries: u32,
    initialDelayMs: nat,
    maxDelayMs: nat,
    backoffMultiplier: nat)

  /** `RetryConfig::new`: the multiplier is always 2. */
  function New(maxRetries: u32, initialDelayMs: nat, maxDelayMs: nat): (c: RetryConfig)
    ensures c.maxRetries == maxRetries && c.initialDelayMs == initialDelayMs
    ensures c.maxDelayMs == maxDelayMs && c.backoffMultiplier == 2
  {
    RetryConfig(maxRetries, initialDelayMs, maxDelayMs, 2)
  }

  /** `RetryConfig::default`: 3 retries, 100 ms initial delay, 10 s cap, doubling. */
  function Default(): (c: RetryConfig)
    ensures c == New(3, 100, 10_000)
  {
    RetryConfig(3, 100, 10_000, 2)
  }

  function Pow(base: nat, exp: nat): (p: nat)
    ensures base >= 1 ==> p >= 1
  {
    if exp == 0 then 1 else base * Pow(base, exp - 1)
  }

  /** `attempt as i32`: past `i32::MAX` the exponent wraps to a negative value. */
  function ExponentOf(attempt: u32): (e: int)
    ensures I32Min <= e <= I32Max
    ensures attempt <= I32Max ==> e == attempt
    ensures attempt > I32Max ==> e < 0 && e == attempt - 0x1_0000_0000
  {
    if attempt <= I32Max then attempt else attempt - 0x1_0000_0000
  }

  /** 2^1024, the smallest power of two an `f64` cannot hold: a product this
      large is infinite. */
  const F64Overflow: nat := 0x10000000000000000000000000000000000000000000000000000000000000000000000000000000000000000000000000000000000000000000000000000000000000000000000000000000000000000000000000000000000000000000000000000000000000000000000000000000000000000000000000000000000000000

  /** `initial_delay * multiplier.powi(attempt as i32)` as whole milliseconds, or
      None when the `f64` product is infinite or NaN, which `min` replaces by the
      cap: 0 × ∞ once the power overflows, or any delay over a power of 0 with a
      negative exponent. A negative exponent divides, and `as u64` truncates. */
  function Uncapped(c: RetryConfig, attempt: u32): Option<nat>
  {
    var e := ExponentOf(attempt);
    if e >= 0 then
      if c.initialDelayMs == 0 && Pow(c.backoffMultiplier, e) >= F64Overflow then None
      else Some(c.initialDelayMs * Pow(c.backoffMultiplier, e))
    else if c.backoffMultiplier == 0 then None
    else Some(c.initialDelayMs / Pow(c.backoffMultiplier, -e))
  }

  /** `calculate_delay`: the exponential delay, capped at the maximum. */
  function CalculateDelay(c: RetryConfig, attempt: u32): (d: nat)
    ensures d <= c.maxDelayMs
  {
    match Uncapped(c, attempt)
    case None => c.maxDelayMs
    case Some(raw) => if raw < c.maxDelayMs then raw else c.maxDelayMs
  }

  /** Up to `i32::MAX` attempts and with a non-zero initial delay, the delay is
      the uncapped exponential value or the cap, whichever is smaller; a zero
      initial delay stays zero until the power overflows, and the cap after that. */
  lemma DelayBounds(c: RetryConfig, attempt: u32)
    ensures attempt <= I32Max && c.initialDelayMs > 0 ==>
      && CalculateDelay(c, attempt) <= c.initialDelayMs * Pow(c.backoffMultiplier, attempt)
      && (CalculateDelay(c, attempt) == c.maxDelayMs ||
          CalculateDelay(c, attempt) == c.initialDelayMs * Pow(c.backoffMultiplier, attempt))
    ensures attempt <= I32Max && c.initialDelayMs == 0 ==>
      CalculateDelay(c, attempt) == if Pow(c.backoffMultiplier, attempt) >= F64Overflow then c.maxDelayMs else 0
    ensures attempt > I32Max && c.backoffMultiplier > 0 ==>
      CalculateDelay(c, attempt) <= c.initialDelayMs / Pow(c.backoffMultiplier, 0x1_0000_0000 - attempt)
  {
  }

  /** `is_retryable`: timeouts, upstream rate limiting and 5xx statuses are worth retrying. */
  function IsRetryable(c: RetryConfig, e: DlsiteError): (b: bool)
    ensures b <==> e.Timeout? || e.RateLimit? || (e.HttpStatus? && e.code >= 500)
  {
    match e
    case Timeout => true
    case RateLimit(_) => true
    case HttpStatus(code) => code >= 500
    case _ => false
  }

  lemma {:induction false} PowMonotone(base: nat, a: nat, b: nat)
    requires base >= 1 && a <= b
    ensures Pow(base, a) <= Pow(base, b)
  {
    if a < b {
      PowMonotone(base, a, b - 1);
      assert Pow(base, b) == base * Pow(base, b - 1);
      assert Pow(base, b - 1) <= base * Pow(base, b - 1);
    }
  }

  /** With a multiplier of at least 1 the delay never shrinks from one attempt
      to the next, as long as the exponent does not wrap. */
  lemma DelayMonotone(c: RetryConfig, a: u32, b: u32)
    requires c.backoffMultiplier >= 1 && a <= b <= I32Max
    ensures CalculateDelay(c, a) <= CalculateDelay(c, b)
  {
    PowMonotone(c.backoffMultiplier, a, b);
    MulMonotone(c.initialDelayMs, Pow(c.backoffMultiplier, a), Pow(c.backoffMultiplier, b));
  }

  /** Past `i32::MAX` the exponent wraps: the default schedule is at its cap on
      attempt 2^31 - 1 and drops to 0 on attempt 2^31. */
  lemma DelayWrapsAround()
    ensures CalculateDelay(Default(), 0x7FFF_FFFF) == 10_000
    ensures CalculateDelay(Default(), 0x8000_0000) == 0
  {
    assert Pow(2, 7) == 128;
    PowMonotone(2, 7, 0x7FFF_FFFF);
    PowMonotone(2, 7, 0x8000_0000);
    SmallQuotient(100, Pow(2, 0x8000_0000));
  }

  lemma SmallQuotient(a: nat, b: nat)
    requires a < b
    ensures a / b == 0
  {
  }

  lemma MulMonotone(k: nat, x: nat, y: nat)
    requires x <= y
    ensures k * x <= k * y
  {
  }

  /** The default schedule starts 100, 200, 400 ms and a cap of 1 s holds however late the attempt. */
  lemma DefaultSchedule()
    ensures CalculateDelay(Default(), 0) == 100
    ensures CalculateDelay(Default(), 1) == 200
    ensures CalculateDelay(Default(), 2) == 400
    ensures CalculateDelay(New(3, 100, 1000), 10) <= 1000
  {
  }

  /** The classification reads only the error: the configuration plays no part. */
  lemma RetryableIgnoresConfig(c1: RetryConfig, c2: RetryConfig, e: DlsiteError)
    ensures IsRetryable(c1, e) == IsRetryable(c2, e)
  {
  }

  /** The cases the crate's tests pin down, plus the kinds never retried. */
  lemma RetryableExamples(c: RetryConfig, m: string)
    ensures IsRetryable(c, Timeout) && IsRetryable(c, RateLimit(m))
    ensures IsRetryable(c, HttpStatus(500)) && IsRetryable(c, HttpStatus(503))
    ensures !IsRetryable(c, HttpStatus(404)) && !IsRetryable(c, HttpStatus(400))
    ensures !IsRetryable(c, Reqwest) && !IsRetryable(c, SerdeJson)
    ensures !IsRetryable(c, Parse(m)) && !IsRetryable(c, Server(m))
  {
  }
}
