/** The delay before a retry (src/engine.rs, retry_delay_seconds). */
module Backoff {
  import opened Prelude
  import opened Conditions
  import opened Config

  function Pow2(n: nat): (p: nat)
    ensures p >= 1
  {
    if n == 0 then 1 else 2 * Pow2(n - 1)
  }

  /** u64::saturating_mul */
  function SaturatingMul(a: nat, b: nat): nat { Min(a * b, U64_MAX) }

  /** 2_u64.saturating_pow, multiplied out. */
  function SaturatingPow2(n: nat): nat {
    if n == 0 then 1 else SaturatingMul(2, SaturatingPow2(n - 1))
  }

  /** u32::try_from(attempts).unwrap_or(u32::MAX) */
  function ToU32(attempts: nat): nat { Min(attempts, U32_MAX) }

  function ConfiguredDelay(policy: ResolvedPolicy, attempts: nat): nat {
    match policy.backoff.GetOr(Exponential)
    case Fixed => policy.initialDelay
    case Exponential =>
      Min(SaturatingMul(policy.initialDelay, SaturatingPow2(ToU32(attempts))), policy.maxDelay)
  }

  function RetryDelay(policy: ResolvedPolicy, attempts: nat, retryAfter: Option<nat>): nat {
    Max(ConfiguredDelay(policy, attempts), retryAfter.GetOr(0))
  }

  lemma {:induction false} Pow2Monotone(m: nat, n: nat)
    requires m <= n
    ensures Pow2(m) <= Pow2(n)
    decreases n
  {
    if m < n {
      Pow2Monotone(m, n - 1);
    }
  }

  lemma Pow2PassesU64()
    ensures Pow2(64) > U64_MAX
  {
    assert Pow2(8) == 256;
    Pow2Adds(8, 8);
    Pow2Adds(16, 16);
    Pow2Adds(32, 32);
  }

  lemma {:induction false} Pow2Adds(m: nat, n: nat)
    ensures Pow2(m + n) == Pow2(m) * Pow2(n)
    decreases n
  {
    if n == 0 {
    } else {
      Pow2Adds(m, n - 1);
      assert Pow2(m + n) == 2 * Pow2(m + (n - 1));
    }
  }

  lemma {:induction false} SaturatingPow2Exact(n: nat)
    ensures SaturatingPow2(n) == Min(Pow2(n), U64_MAX)
  {
    if n == 0 {
    } else {
      SaturatingPow2Exact(n - 1);
    }
  }

  /** Under a 64-bit cap, clamping the factor and the product changes nothing. */
  lemma CapHidesSaturation(a: nat, p: nat, cap: nat)
    requires cap <= U64_MAX
    ensures Min(SaturatingMul(a, Min(p, U64_MAX)), cap) == Min(a * p, cap)
  {
    if a == 0 {
    } else if p > U64_MAX {
      MulMonotone(a, U64_MAX, p);
      MulMonotone(U64_MAX, 1, a);
    }
  }

  /** Saturation never shows: for every 64-bit policy and any number of attempts the delay is
      the exact exponential, capped. */
  lemma ExponentialIsExact(policy: ResolvedPolicy, attempts: nat)
    requires policy.backoff == Some(Exponential) && policy.maxDelay <= U64_MAX
    ensures ConfiguredDelay(policy, attempts) == Min(policy.initialDelay * Pow2(attempts), policy.maxDelay)
  {
    var n := ToU32(attempts);
    SaturatingPow2Exact(n);
    assert SaturatingPow2(n) == Min(Pow2(attempts), U64_MAX) by {
      if n != attempts {
        Pow2Monotone(64, n);
        Pow2Monotone(64, attempts);
        Pow2PassesU64();
      }
    }
    CapHidesSaturation(policy.initialDelay, Pow2(attempts), policy.maxDelay);
  }

  /** More attempts never shorten the wait. */
  lemma DelayIsMonotone(policy: ResolvedPolicy, m: nat, n: nat, retryAfter: Option<nat>)
    requires policy.backoff == Some(Exponential) && policy.maxDelay <= U64_MAX && m <= n
    ensures RetryDelay(policy, m, retryAfter) <= RetryDelay(policy, n, retryAfter)
  {
    ExponentialIsExact(policy, m);
    ExponentialIsExact(policy, n);
    Pow2Monotone(m, n);
    MulMonotone(policy.initialDelay, Pow2(m), Pow2(n));
  }

  /** The first delay is the shortest, whatever the policy. */
  lemma FirstDelayIsLeast(policy: ResolvedPolicy, attempts: nat, retryAfter: Option<nat>)
    requires policy.maxDelay <= U64_MAX
    ensures RetryDelay(policy, 0, retryAfter) <= RetryDelay(policy, attempts, retryAfter)
  {
    if policy.backoff != Some(Fixed) {
      DelayIsMonotone(policy.(backoff := Some(Exponential)), 0, attempts, retryAfter);
    }
  }

  /** A sound retry policy waits at least its initial delay, at least what the provider asked
      for, and at most the larger of its cap and that request. */
  lemma DelayBounds(policy: ResolvedPolicy, attempts: nat, retryAfter: Option<nat>)
    requires Sound(policy) && policy.action == Retry && policy.maxDelay <= U64_MAX
    ensures policy.initialDelay <= RetryDelay(policy, attempts, retryAfter)
    ensures retryAfter.GetOr(0) <= RetryDelay(policy, attempts, retryAfter)
              <= Max(policy.maxDelay, retryAfter.GetOr(0))
  {
    if policy.backoff == Some(Exponential) {
      ExponentialIsExact(policy, attempts);
      Pow2Monotone(0, attempts);
      MulMonotone(policy.initialDelay, 1, Pow2(attempts));
    }
  }
}
