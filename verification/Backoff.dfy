/**
 The delay before an automatic restart.  Durations are nanoseconds in a signed
 64-bit integer that wraps around.
 */
module Backoff {
  import opened Wrappers

  const SECOND: int := 1_000_000_000
  const INT64_MAX: int := 0x7FFF_FFFF_FFFF_FFFF
  const INT64_SPAN: int := 0x1_0000_0000_0000_0000
  const HALF: int := 0x4000_0000_0000_0000

  /** The 64-bit value of an integer. */
  function Wrap(x: int): (w: int)
    ensures -INT64_MAX - 1 <= w <= INT64_MAX
    ensures -INT64_MAX - 1 <= x <= INT64_MAX ==> w == x
  {
    (x + INT64_MAX + 1) % INT64_SPAN - INT64_MAX - 1
  }

  function Min(a: int, b: int): int {
    if a < b then a else b
  }

  function Power(n: nat): nat {
    if n == 0 then 1 else 2 * Power(n - 1)
  }

  /** Base and cap after the defaults have been filled in. */
  function BaseDelay(delay: int): int {
    if delay <= 0 then SECOND else delay
  }

  function Cap(maxDelay: int): int {
    if maxDelay <= 0 then 30 * SECOND else maxDelay
  }

  /** Doubling until the cap is reached, without a limit on the numbers. */
  function Doubled(delay: int, cap: int, attempt: int): int
    decreases if attempt > 0 then attempt else 0
  {
    if attempt <= 0 || delay >= cap then delay else Doubled(2 * delay, cap, attempt - 1)
  }

  function Attempts(attempt: int): nat {
    if attempt < 0 then 0 else attempt
  }

  lemma DoublingOnce(delay: int, power: int)
    ensures 2 * delay * power == delay * (2 * power)
  {
  }

  lemma GrowsBy(delay: int, factor: int)
    requires delay > 0 && factor >= 1
    ensures delay * factor >= delay
  {
  }

  /** Stopping at the cap changes nothing: capped, the delay is exponential. */
  lemma {:induction false} CappedDoubling(delay: int, cap: int, attempt: int)
    requires delay > 0
    ensures Min(Doubled(delay, cap, attempt), cap) == Min(delay * Power(Attempts(attempt)), cap)
    decreases Attempts(attempt)
  {
    PowerIsPositive(Attempts(attempt));
    if attempt > 0 {
      if delay < cap {
        CappedDoubling(2 * delay, cap, attempt - 1);
        DoublingOnce(delay, Power(attempt - 1));
      } else {
        GrowsBy(delay, Power(attempt));
      }
    }
  }

  lemma {:induction false} PowerIsPositive(n: nat)
    ensures Power(n) >= 1
  {
    if n > 0 {
      PowerIsPositive(n - 1);
    }
  }

  /** A cap of at most half the range leaves room for the last doubling. */
  lemma {:induction false} DoublingFits(delay: int, cap: int, attempt: int)
    requires 0 < delay <= INT64_MAX && cap <= HALF
    ensures 0 < Doubled(delay, cap, attempt) <= INT64_MAX
    decreases Attempts(attempt)
  {
    if attempt > 0 && delay < cap {
      DoublingFits(2 * delay, cap, attempt - 1);
    }
  }

  lemma {:induction false} DoublingGrows(delay: int, cap: int, attempt: int)
    requires delay > 0
    ensures Doubled(delay, cap, attempt) >= delay
    decreases Attempts(attempt)
  {
    if attempt > 0 && delay < cap {
      DoublingGrows(2 * delay, cap, attempt - 1);
    }
  }

  /** The delay before jitter does not shrink from one attempt to the next. */
  lemma DelayIsMonotone(delay: int, cap: int, attempt: nat)
    requires delay > 0
    ensures Min(delay * Power(attempt), cap) <= Min(delay * Power(attempt + 1), cap)
  {
  }

  /** Division by five, truncated towards zero. */
  function Fifth(x: int): (f: int)
    ensures if x >= 0 then 5 * f <= x < 5 * f + 5 else 5 * f - 5 < x <= 5 * f
  {
    if x >= 0 then x / 5 else -((-x) / 5)
  }

  /** The doubling loop in 64 bits.  It is exact precisely when the number it aims
      for can be represented. */
  method DoubleInRange(base: int, cap: int, attempt: int) returns (delay: int)
    requires 0 < base <= INT64_MAX && cap <= INT64_MAX
    ensures -INT64_MAX - 1 <= delay <= INT64_MAX
    ensures delay == Doubled(base, cap, attempt) <==> Doubled(base, cap, attempt) <= INT64_MAX
  {
    delay := base;
    var i := 0;
    while i < attempt && delay < cap
      invariant 0 <= i <= Attempts(attempt)
      invariant -INT64_MAX - 1 <= delay <= INT64_MAX
      invariant Doubled(base, cap, attempt) <= INT64_MAX ==>
                  delay > 0 && Doubled(delay, cap, attempt - i) == Doubled(base, cap, attempt)
    {
      if Doubled(base, cap, attempt) <= INT64_MAX {
        DoublingGrows(2 * delay, cap, attempt - i - 1);
      }
      delay := Wrap(delay * 2);
      i := i + 1;
    }
  }

  /** The delay with its jitter.  `roll` stands for the random number; there is no
      result when the random source is asked for a number below zero. */
  method Delay(delayOption: int, maxOption: int, attempt: int, roll: nat) returns (result: Option<int>)
    requires delayOption <= INT64_MAX && maxOption <= INT64_MAX
    ensures maxOption <= HALF ==>
              var base, cap := if delayOption <= 0 then 1_000_000_000 else delayOption,
                               if maxOption <= 0 then 30_000_000_000 else maxOption;
              var ideal := Min(base * Power(if attempt < 0 then 0 else attempt), cap);
              result.Some? && 0 < ideal <= result.value <= ideal + ideal / 5
              && result.value - ideal == roll % (ideal / 5 + 1)
    ensures Doubled(BaseDelay(delayOption), Cap(maxOption), attempt) <= INT64_MAX ==>
              var ideal := Min(BaseDelay(delayOption) * Power(Attempts(attempt)), Cap(maxOption));
              var jitter := roll % (ideal / 5 + 1);
              ideal > 0 && (result == Some(ideal + jitter) <==> ideal + jitter <= INT64_MAX)
  {
    var base, cap := BaseDelay(delayOption), Cap(maxOption);
    var delay := DoubleInRange(base, cap, attempt);
    CappedDoubling(base, cap, attempt);
    DoublingGrows(base, cap, attempt);
    if cap <= HALF {
      DoublingFits(base, cap, attempt);
    }
    if delay > cap {
      delay := cap;
    }
    var bound := Wrap(Fifth(delay) + 1);
    if bound <= 0 {
      return None;
    }
    result := Some(Wrap(delay + roll % bound));
  }

  /** Without the bound on the cap the doubling can leave the range. */
  lemma LargeCapOverflows()
    ensures Doubled(HALF, INT64_MAX, 1) > INT64_MAX
  {
  }
}
