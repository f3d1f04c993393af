/** `Backoff::delay_for`: exponential delays, capped, optionally jittered. Times are nanoseconds. */
module Backoff {
  import opened Basics

  const U64_RANGE: nat := 0x1_0000_0000_0000_0000
  const DURATION_MAX: nat := 0x1_0000_0000_0000_0000 * 1_000_000_000 - 1

  /** A `Duration` has 64-bit seconds. */
  type Duration = d: nat | d <= 0x1_0000_0000_0000_0000 * 1_000_000_000 - 1

  datatype Backoff = Backoff(initial: Duration, max: Duration, jitter: bool)

  function SaturatingMul(d: Duration, k: nat): Duration {
    if d * k <= DURATION_MAX then d * k else DURATION_MAX
  }

  function Base(b: Backoff, attempt: nat): Duration {
    Min(SaturatingMul(b.initial, Pow2(Min(attempt, 30))), b.max)
  }

  /** The jittered delay; `None` where the 64-bit sum overflows. */
  function Jittered(base: Duration, entropy: nat): Option<nat> {
    var baseNs := (if base == 0 then 1 else base) % U64_RANGE;
    var span := baseNs / 2;
    var offset := entropy % (if span == 0 then 1 else span);
    var delay := baseNs - span / 2 + offset;
    if delay < U64_RANGE then Some(delay) else None
  }

  function DelayFor(b: Backoff, attempt: nat, entropy: nat): Option<nat> {
    if b.jitter then Jittered(Base(b, attempt), entropy) else Some(Base(b, attempt))
  }

  predicate WithinQuarter(delay: Option<nat>, base: nat) {
    delay.Some? && base - base / 4 <= delay.value <= base + base / 4
  }

  /** Without jitter the saturation never shows: the cap is itself a `Duration`. */
  lemma UnjitteredDelay(b: Backoff, attempt: nat, entropy: nat)
    requires !b.jitter
    ensures DelayFor(b, attempt, entropy) == Some(Min(b.max, b.initial * Pow2(Min(attempt, 30))))
  {
  }

  lemma {:induction false} Pow2Monotone(m: nat, n: nat)
    requires m <= n
    ensures Pow2(m) <= Pow2(n)
  {
    if m < n {
      Pow2Monotone(m, n - 1);
    }
  }

  /** Later attempts never wait less. */
  lemma BaseMonotone(b: Backoff, m: nat, n: nat)
    requires m <= n
    ensures Base(b, m) <= Base(b, n) <= b.max
  {
    Pow2Monotone(Min(m, 30), Min(n, 30));
    MulMonotone(b.initial, Pow2(Min(m, 30)), Pow2(Min(n, 30)));
  }

  lemma MulMonotone(d: nat, j: nat, k: nat)
    requires j <= k
    ensures d * j <= d * k
  {
  }

  lemma JitterRange(base: Duration, entropy: nat)
    requires 0 < base && base - base / 4 + (if base < 2 then 1 else base / 2) - 1 < U64_RANGE
    ensures WithinQuarter(Jittered(base, entropy), base)
  {
    assert base % U64_RANGE == base;
  }

  /**
   * Jitter keeps every delay within a quarter of the base exactly for bases from
   * one nanosecond up to the point where the 64-bit arithmetic gives out.
   */
  lemma JitterWithinQuarter(base: Duration)
    ensures (forall entropy: nat :: WithinQuarter(Jittered(base, entropy), base)) <==>
            0 < base && base - base / 4 + (if base < 2 then 1 else base / 2) - 1 < U64_RANGE
  {
    if 0 < base && base - base / 4 + (if base < 2 then 1 else base / 2) - 1 < U64_RANGE {
      forall entropy: nat ensures WithinQuarter(Jittered(base, entropy), base) {
        JitterRange(base, entropy);
      }
    } else if base < U64_RANGE {
      Overflows(base);
    } else {
      Truncated(base);
      assert !WithinQuarter(Jittered(base, 0), base);
    }
  }

  lemma Overflows(base: Duration)
    requires base < U64_RANGE
    requires base == 0 || base - base / 4 + (if base < 2 then 1 else base / 2) - 1 >= U64_RANGE
    ensures exists entropy: nat :: !WithinQuarter(Jittered(base, entropy), base)
  {
    if base == 0 {
      assert !WithinQuarter(Jittered(base, 0), base);
    } else {
      var top: nat := base / 2 - 1;
      assert base >= 2;
      ModSmall(base, U64_RANGE);
      ModSmall(top, base / 2);
      assert base / 2 / 2 == base / 4;
      assert Jittered(base, top) == None;
      assert !WithinQuarter(Jittered(base, top), base);
    }
  }

  lemma ModSmall(a: nat, n: nat)
    requires a < n
    ensures a % n == a
  {
  }

  lemma Truncated(base: Duration)
    requires base >= U64_RANGE
    ensures !WithinQuarter(Jittered(base, 0), base)
  {
    var b := base % U64_RANGE;
    assert b <= base - U64_RANGE by {
      assert base == base / U64_RANGE * U64_RANGE + b;
    }
    assert b - b / 4 < base - base / 4;
  }
}
