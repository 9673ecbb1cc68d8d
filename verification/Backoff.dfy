/**
 Exponential backoff with Go's wrapping 64-bit durations: the pending-reference
 worker, the outbox publisher and the queue consumer.
 */
module Backoff {
  import opened Prelude

  const SECOND: int := 1_000_000_000
  const DAY: int := 86400 * SECOND

  function Pow2(k: nat): (p: int)
    ensures p >= 1
  {
    if k == 0 then 1 else 2 * Pow2(k - 1)
  }

  function ClampShift(attempt: int): (shift: nat)
    ensures attempt <= 1 ==> shift == 0
    ensures 1 <= attempt <= 31 ==> shift == attempt - 1
    ensures attempt >= 31 ==> shift == 30
  {
    var shift := attempt - 1;
    if shift < 0 then 0 else if shift > 30 then 30 else shift
  }

  /** base * time.Duration(uint64(1)<<shift), reduced to 64 bits as the machine does. */
  function ShiftedDelay(base: int, attempt: int): (delay: int)
    ensures IsInt64(delay)
  {
    Wrap64(base * Pow2(ClampShift(attempt)))
  }

  /** The delay nextReferenceAttempt and nextAttempt add to the current time. */
  function WorkerDelay(base: int, attempt: int): (delay: int) {
    if base <= 0 then 0
    else if ShiftedDelay(base, attempt) < 0 then DAY
    else ShiftedDelay(base, attempt)
  }

  /** retryDelay: the queue visibility the consumer asks for. */
  function RetryDelay(base: int, attempt: int, visibility: int): (delay: int) {
    if base <= 0 || visibility <= 0 then 0
    else
      var shifted := ShiftedDelay(base, if attempt < 1 then 1 else attempt);
      if shifted < 0 || shifted > visibility - SECOND then
        (if 0 > visibility - SECOND then 0 else visibility - SECOND)
      else shifted
  }

  lemma {:induction false} Pow2Monotone(j: nat, k: nat)
    requires j <= k
    ensures Pow2(j) <= Pow2(k)
    decreases k - j
  {
    if j < k {
      Pow2Monotone(j, k - 1);
    }
  }

  lemma ScaleMonotone(base: int, x: int, y: int)
    requires base >= 0 && x <= y
    ensures base * x <= base * y
  {
  }

  /** When the largest product fits, no shift wraps. */
  lemma ShiftedExact(base: int, attempt: int)
    requires 0 <= base && base * Pow2(30) <= MAX_INT64
    ensures ShiftedDelay(base, attempt) == base * Pow2(ClampShift(attempt)) >= 0
  {
    Pow2Monotone(ClampShift(attempt), 30);
    ScaleMonotone(base, Pow2(ClampShift(attempt)), Pow2(30));
    ScaleMonotone(base, 0, Pow2(ClampShift(attempt)));
  }

  /** No attempt is ever scheduled before the present, even when the product wraps. */
  lemma WorkerDelayNeverNegative(base: int, attempt: int)
    requires IsInt64(base)
    ensures 0 <= WorkerDelay(base, attempt) <= MAX_INT64
  {
  }

  /** The intended schedule, on every base whose largest delay fits. */
  lemma WorkerDelayExact(base: int, attempt: int)
    requires 0 <= base && base * Pow2(30) <= MAX_INT64
    ensures WorkerDelay(base, attempt) == base * Pow2(ClampShift(attempt))
  {
    ShiftedExact(base, attempt);
  }

  lemma WorkerDelayMonotone(base: int, earlier: int, later: int)
    requires 0 <= base && base * Pow2(30) <= MAX_INT64 && earlier <= later
    ensures WorkerDelay(base, earlier) <= WorkerDelay(base, later)
  {
    WorkerDelayExact(base, earlier);
    WorkerDelayExact(base, later);
    Pow2Monotone(ClampShift(earlier), ClampShift(later));
    ScaleMonotone(base, Pow2(ClampShift(earlier)), Pow2(ClampShift(later)));
  }

  lemma Pow2Of30()
    ensures Pow2(30) == 0x4000_0000
  {
    assert Pow2(10) == 1024;
    assert Pow2(20) == 1024 * Pow2(10) by {
      Pow2Sum(10, 10);
    }
    assert Pow2(30) == 1024 * Pow2(20) by {
      Pow2Sum(10, 20);
    }
  }

  lemma {:induction false} Pow2Sum(j: nat, k: nat)
    ensures Pow2(j + k) == Pow2(j) * Pow2(k)
  {
    if j > 0 {
      Pow2Sum(j - 1, k);
    }
  }

  /**
   Outside that range monotonicity is lost: a base of 2^34 nanoseconds (about
   17 seconds) wraps to a delay of zero from the thirty-first attempt on.
   */
  lemma WrappedDelayShrinks()
    ensures WorkerDelay(0x4_0000_0000, 31) == 0 < WorkerDelay(0x4_0000_0000, 1)
  {
    Pow2Of30();
    assert Pow2(0) == 1;
    assert 0x4_0000_0000 * Pow2(30) == 0x1_0000_0000_0000_0000;
  }

  /** The first shift that leaves the range, when one does. */
  lemma {:induction false} FirstOverflow(base: int, top: nat) returns (k: nat)
    requires 0 < base <= MAX_INT64 < base * Pow2(top)
    ensures 0 < k <= top && base * Pow2(k - 1) <= MAX_INT64 < base * Pow2(k)
  {
    k := top;
    if base * Pow2(top - 1) > MAX_INT64 {
      k := FirstOverflow(base, top - 1);
    }
  }

  /** Just past that shift the delay collapses to a day. */
  lemma OverflowCollapses(base: int, k: nat)
    requires 0 < base && 0 < k <= 30 && base * Pow2(k - 1) <= MAX_INT64 < base * Pow2(k)
    ensures WorkerDelay(base, k) > DAY == WorkerDelay(base, k + 1)
  {
    var half := base * Pow2(k - 1);
    assert base * Pow2(k) == 2 * half;
    assert ShiftedDelay(base, k) == half;
    assert ShiftedDelay(base, k + 1) == Wrap64(2 * half) == 2 * half - 0x1_0000_0000_0000_0000 < 0;
  }

  /** Delays never shrink as attempts grow exactly when the largest product fits. */
  lemma WorkerDelayMonotoneIff(base: int)
    requires IsInt64(base)
    ensures (forall i, j :: i <= j ==> WorkerDelay(base, i) <= WorkerDelay(base, j))
            <==> base <= 0 || base * Pow2(30) <= MAX_INT64
  {
    if base > 0 {
      if base * Pow2(30) <= MAX_INT64 {
        forall i: int, j: int | i <= j
          ensures WorkerDelay(base, i) <= WorkerDelay(base, j)
        {
          WorkerDelayMonotone(base, i, j);
        }
      } else {
        var k := FirstOverflow(base, 30);
        OverflowCollapses(base, k);
      }
    }
  }

  /** The consumer's delay always lies within the visibility window less a second. */
  lemma RetryDelayBounded(base: int, attempt: int, visibility: int)
    requires IsInt64(base) && IsInt64(visibility)
    ensures 0 <= RetryDelay(base, attempt, visibility)
    ensures RetryDelay(base, attempt, visibility) <= (if visibility > SECOND then visibility - SECOND else 0)
  {
  }

  /** When nothing wraps the consumer's delay is the worker's schedule, capped. */
  lemma RetryDelayIsCappedSchedule(base: int, attempt: int, visibility: int)
    requires 0 <= base && base * Pow2(30) <= MAX_INT64
    ensures var cap := if visibility > SECOND then visibility - SECOND else 0;
            var exact := base * Pow2(ClampShift(attempt));
            RetryDelay(base, attempt, visibility) == if exact < cap then exact else cap
  {
    ShiftedExact(base, attempt);
    ShiftedExact(base, if attempt < 1 then 1 else attempt);
    ScaleMonotone(base, 1, Pow2(ClampShift(attempt)));
  }

  // ---------------------------------------------------------------------
  // Both schedules for every base
  // ---------------------------------------------------------------------

  /** The low 64 bits of base times two to the attempts already made, at most thirty. */
  function LowBits(base: int, attempt: int): (low: nat)
    ensures low < 0x1_0000_0000_0000_0000
  {
    base * Pow2(if attempt < 1 then 0 else if attempt > 31 then 30 else attempt - 1) % 0x1_0000_0000_0000_0000
  }

  lemma WrapReads(x: int)
    ensures var low := x % 0x1_0000_0000_0000_0000;
            Wrap64(x) == if low < 0x8000_0000_0000_0000 then low else low - 0x1_0000_0000_0000_0000
  {
  }

  /** The worker's delay for every base: a product that reads as negative becomes a day. */
  lemma WorkerDelayAlways(base: int, attempt: int)
    ensures var low := LowBits(base, attempt);
            WorkerDelay(base, attempt) == if base <= 0 then 0 else if low < 0x8000_0000_0000_0000 then low else 86_400_000_000_000
  {
    WrapReads(base * Pow2(ClampShift(attempt)));
  }

  /** The consumer's delay for every base: it is the low bits, unless they read as negative or exceed the cap. */
  lemma RetryDelayAlways(base: int, attempt: int, visibility: int)
    ensures var low := LowBits(base, attempt); var cap := if visibility > 1_000_000_000 then visibility - 1_000_000_000 else 0;
            RetryDelay(base, attempt, visibility) == if base <= 0 then 0 else if low < 0x8000_0000_0000_0000 && low < cap then low else cap
  {
    WrapReads(base * Pow2(ClampShift(attempt)));
  }

  lemma LowBitsExact(base: int, attempt: int)
    requires 0 <= base && base * Pow2(ClampShift(attempt)) <= MAX_INT64
    ensures LowBits(base, attempt) == base * Pow2(ClampShift(attempt))
  {
    ScaleMonotone(base, 0, Pow2(ClampShift(attempt)));
  }

  /** No shift leaves a product that wrapped below the cap. */
  ghost predicate NeverDrops(base: int, cap: int) {
    forall k: nat :: k <= 30 && base * Pow2(k) > MAX_INT64 ==> LowBits(base, k + 1) >= cap
  }

  /** In particular none does when the largest product fits. */
  lemma FittingNeverDrops(base: int, cap: int)
    requires 0 <= base && base * 0x4000_0000 <= MAX_INT64
    ensures NeverDrops(base, cap)
  {
    Pow2Of30();
    forall k: nat | k <= 30
      ensures base * Pow2(k) <= MAX_INT64
    {
      Pow2Monotone(k, 30);
      ScaleMonotone(base, Pow2(k), Pow2(30));
    }
  }

  /** The consumer's delays never shrink as attempts grow exactly when no wrapped product falls below the cap. */
  lemma RetryDelayMonotoneIff(base: int, visibility: int)
    requires IsInt64(base) && IsInt64(visibility)
    ensures (forall i, j :: i <= j ==> RetryDelay(base, i, visibility) <= RetryDelay(base, j, visibility))
            <==> base <= 0 || NeverDrops(base, if visibility > 1_000_000_000 then visibility - 1_000_000_000 else 0)
  {
    var cap := if visibility > 1_000_000_000 then visibility - 1_000_000_000 else 0;
    if base > 0 {
      if NeverDrops(base, cap) {
        forall i: int, j: int | i <= j
          ensures RetryDelay(base, i, visibility) <= RetryDelay(base, j, visibility)
        {
          RetryDelayGrows(base, i, j, visibility);
        }
      } else {
        var k: nat :| k <= 30 && base * Pow2(k) > MAX_INT64 && LowBits(base, k + 1) < cap;
        RetryDelayDrops(base, k, visibility);
      }
    }
  }

  /** Where nothing drops, the delay is the capped product. */
  lemma RetryDelayCapped(base: int, attempt: int, visibility: int)
    requires 0 < base <= MAX_INT64 && IsInt64(visibility)
    requires NeverDrops(base, if visibility > 1_000_000_000 then visibility - 1_000_000_000 else 0)
    ensures var cap := if visibility > 1_000_000_000 then visibility - 1_000_000_000 else 0; var product := base * Pow2(ClampShift(attempt));
            RetryDelay(base, attempt, visibility) == if product < cap then product else cap
  {
    var shift := ClampShift(attempt);
    RetryDelayAlways(base, attempt, visibility);
    assert LowBits(base, attempt) == LowBits(base, shift + 1);
    if base * Pow2(shift) <= MAX_INT64 {
      LowBitsExact(base, attempt);
    }
  }

  lemma RetryDelayGrows(base: int, i: int, j: int, visibility: int)
    requires 0 < base <= MAX_INT64 && IsInt64(visibility) && i <= j
    requires NeverDrops(base, if visibility > 1_000_000_000 then visibility - 1_000_000_000 else 0)
    ensures RetryDelay(base, i, visibility) <= RetryDelay(base, j, visibility)
  {
    RetryDelayCapped(base, i, visibility);
    RetryDelayCapped(base, j, visibility);
    Pow2Monotone(ClampShift(i), ClampShift(j));
    ScaleMonotone(base, Pow2(ClampShift(i)), Pow2(ClampShift(j)));
  }

  /** At the first shift that overflows the delay is the cap, so a drop is always a step back. */
  lemma RetryDelayDrops(base: int, k: nat, visibility: int)
    requires 0 < base <= MAX_INT64 && IsInt64(visibility) && k <= 30 && base * Pow2(k) > MAX_INT64
    requires LowBits(base, k + 1) < if visibility > 1_000_000_000 then visibility - 1_000_000_000 else 0
    ensures exists i, j :: i <= j && RetryDelay(base, i, visibility) > RetryDelay(base, j, visibility)
  {
    hide RetryDelay, LowBits, Pow2;
    var first := FirstOverflow(base, k);
    OverflowReads(base, first);
    RetryDelayAlways(base, first + 1, visibility);
    RetryDelayAlways(base, k + 1, visibility);
    assert first + 1 <= k + 1 && RetryDelay(base, first + 1, visibility) > RetryDelay(base, k + 1, visibility);
  }

  lemma OverflowReads(base: int, k: nat)
    requires 0 < base && 0 < k <= 30 && base * Pow2(k - 1) <= MAX_INT64 < base * Pow2(k)
    ensures LowBits(base, k + 1) > MAX_INT64
  {
    assert base * Pow2(k) == 2 * (base * Pow2(k - 1));
  }

  /** A base of 2^34 nanoseconds under a visibility of two minutes: the thirty-first retry is not hidden at all. */
  lemma RetryDelayShrinks()
    ensures RetryDelay(0x4_0000_0000, 31, 120 * SECOND) == 0 < RetryDelay(0x4_0000_0000, 1, 120 * SECOND)
  {
    Pow2Of30();
    assert Pow2(0) == 1;
    assert 0x4_0000_0000 * Pow2(30) == 0x1_0000_0000_0000_0000;
  }
}
