/** The retry delay (internal/core/async/runner.go), with Go's 64-bit shift written out. */
module Backoff {
  import opened Base

  const INT64_MAX: int := 0x7FFF_FFFF_FFFF_FFFF
  const TWO_TO_THE_64: int := 0x1_0000_0000_0000_0000

  /** The largest exponent retryDelay shifts by. */
  const MAX_SHIFT: nat := 10

  function Pow2(n: nat): (p: int)
    ensures p >= 1
  {
    if n == 0 then 1 else 2 * Pow2(n - 1)
  }

  /** A Go int64 keeps the low 64 bits, read as a signed number. */
  function Wrap64(x: int): (w: int)
    ensures -INT64_MAX - 1 <= w <= INT64_MAX
    ensures (w - x) % TWO_TO_THE_64 == 0
    ensures -INT64_MAX - 1 <= x <= INT64_MAX ==> w == x
  {
    (x + INT64_MAX + 1) % TWO_TO_THE_64 - INT64_MAX - 1
  }

  function ShiftOf(attempt: int): (k: nat)
    requires attempt >= 1
  {
    Min(attempt - 1, MAX_SHIFT)
  }

  function RetryDelay(attempt: int, base: Time, max: Time): Time {
    if attempt <= 0 then base
    else
      var delay := Wrap64(base * Pow2(ShiftOf(attempt)));
      if delay > max then max else delay
  }

  /** Exponential backoff as intended: the base first, doubled by each of the next ten attempts, never above the cap. */
  function IntendedDelay(attempt: int, base: Time, max: Time): Time
    requires attempt >= 1
  {
    if attempt == 1 then Min(base, max)
    else if attempt <= 11 then Min(2 * IntendedDelay(attempt - 1, base, max), max)
    else IntendedDelay(attempt - 1, base, max)
  }

  lemma {:induction false} IntendedInOneShift(attempt: int, base: Time, max: Time)
    requires attempt >= 1 && base > 0 && max > 0
    ensures IntendedDelay(attempt, base, max) == Min(base * Pow2(Min(attempt - 1, 10)), max)
  {
    if attempt == 1 {
      assert Pow2(0) == 1;
    } else {
      IntendedInOneShift(attempt - 1, base, max);
      if attempt <= 11 {
        DoubledOnceMore(base, attempt - 2);
      }
    }
  }

  lemma DoubledOnceMore(base: Time, n: nat)
    ensures base * Pow2(n + 1) == 2 * (base * Pow2(n))
  {
  }

  /** The delay is the intended one exactly when the shift fits 64 bits or wraps onto something still above the cap. */
  lemma DelayIsIntendedIff(attempt: int, base: Time, max: Time)
    requires attempt >= 1 && 0 < base && 0 < max <= INT64_MAX
    ensures RetryDelay(attempt, base, max) == IntendedDelay(attempt, base, max)
       <==> base * Pow2(Min(attempt - 1, 10)) <= INT64_MAX
            || Wrap64(base * Pow2(Min(attempt - 1, 10))) >= max
  {
    IntendedInOneShift(attempt, base, max);
  }

  /** Whatever the arithmetic does, no delay after a claim exceeds the configured maximum. */
  lemma DelayNeverExceedsMax(attempt: int, base: Time, max: Time)
    requires attempt >= 1
    ensures RetryDelay(attempt, base, max) <= max
  {
  }

  lemma Pow2Monotone(m: nat, n: nat)
    requires m <= n
    ensures Pow2(m) <= Pow2(n)
  {
  }

  lemma ScaleMonotone(base: int, x: int, y: int)
    requires base >= 0 && x <= y
    ensures base * x <= base * y
  {
  }

  /** Bases the ten-bit shift cannot push out of int64. */
  predicate SafeBase(base: Time) {
    0 < base <= INT64_MAX / 1024
  }

  lemma SafeShift(attempt: int, base: Time)
    requires attempt >= 1 && SafeBase(base)
    ensures base <= base * Pow2(ShiftOf(attempt)) <= INT64_MAX && ShiftOf(attempt) == Min(attempt - 1, 10)
  {
    var k := ShiftOf(attempt);
    Pow2Monotone(k, 10);
    assert Pow2(10) == 1024;
    ScaleMonotone(base, Pow2(k), 1024);
    ScaleMonotone(base, 1, Pow2(k));
  }

  /** With a safe base every delay is the intended one, positive and within the cap. */
  lemma SafeDelay(attempt: int, base: Time, max: Time)
    requires attempt >= 1 && SafeBase(base) && max > 0
    ensures RetryDelay(attempt, base, max) == IntendedDelay(attempt, base, max)
    ensures 0 < RetryDelay(attempt, base, max) <= max
  {
    SafeShift(attempt, base);
    IntendedInOneShift(attempt, base, max);
  }

  /** With a safe base the first failure waits the base, each of the next ten twice its forerunner, up to the cap. */
  lemma DelaysDouble(attempt: int, base: Time, max: Time)
    requires attempt >= 1 && SafeBase(base) && max > 0
    ensures RetryDelay(1, base, max) == Min(base, max)
    ensures attempt <= 10 ==> RetryDelay(attempt + 1, base, max) == Min(2 * RetryDelay(attempt, base, max), max)
    ensures attempt >= 11 ==> RetryDelay(attempt + 1, base, max) == RetryDelay(attempt, base, max)
  {
    SafeDelay(1, base, max);
    SafeDelay(attempt, base, max);
    SafeDelay(attempt + 1, base, max);
  }

  /** The safe bases are exactly the ones for which every attempt, under every cap, waits as intended. */
  lemma SafeBaseIsExact(base: Time)
    requires 0 < base <= INT64_MAX
    ensures SafeBase(base)
       <==> forall attempt: int, max: Time ::
              attempt >= 1 && 0 < max <= INT64_MAX ==>
                RetryDelay(attempt, base, max) == IntendedDelay(attempt, base, max)
  {
    if SafeBase(base) {
      forall attempt: int, max: Time | attempt >= 1 && 0 < max <= INT64_MAX
        ensures RetryDelay(attempt, base, max) == IntendedDelay(attempt, base, max)
      {
        SafeDelay(attempt, base, max);
      }
    } else {
      assert Pow2(ShiftOf(11)) == 1024;
      // An even number cannot wrap onto the odd INT64_MAX, so the eleventh attempt misses that cap.
      assert Wrap64(base * 1024) != INT64_MAX by { EvenWrap(base * 512); }
      IntendedInOneShift(11, base, INT64_MAX);
      assert RetryDelay(11, base, INT64_MAX) != IntendedDelay(11, base, INT64_MAX);
    }
  }

  lemma EvenWrap(half: int)
    ensures Wrap64(2 * half) % 2 == 0
  {
  }

  /** With a safe base a later attempt never waits less than an earlier one. */
  lemma SafeDelayMonotone(earlier: int, later: int, base: Time, max: Time)
    requires 1 <= earlier <= later && SafeBase(base) && max > 0
    ensures RetryDelay(earlier, base, max) <= RetryDelay(later, base, max)
  {
    SafeDelay(earlier, base, max);
    SafeDelay(later, base, max);
    IntendedInOneShift(earlier, base, max);
    IntendedInOneShift(later, base, max);
    Pow2Monotone(ShiftOf(earlier), ShiftOf(later));
    ScaleMonotone(base, Pow2(ShiftOf(earlier)), Pow2(ShiftOf(later)));
  }

  /** An accepted configuration outside the safe range: a base of 2^62 ns retries at once on the third attempt. */
  lemma OverflowCollapsesDelay()
    ensures var base := 0x4000_0000_0000_0000; var max := INT64_MAX;
            && !SafeBase(base)
            && RetryDelay(3, base, max) == 0
            && IntendedDelay(3, base, max) == max
  {
  }

  /** The least total time the first `failures` failed attempts of a job must wait. */
  function SumOfDelays(failures: nat, base: Time, max: Time): Time {
    if failures == 0 then 0
    else SumOfDelays(failures - 1, base, max) + RetryDelay(failures, base, max)
  }
}
