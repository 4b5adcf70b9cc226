/**
 Exponential backoff of pkg/queue/schedulingqueue/priority_scheduling_queue.go, lines
 233-259. Durations are int64 nanoseconds, so the doubling wraps around.
 */
module Backoff {
  import opened Orders
  import opened Units

  const TWO62: int := 0x4000_0000_0000_0000
  const TWO63: int := 0x8000_0000_0000_0000
  const TWO64: int := 0x1_0000_0000_0000_0000

  predicate IsInt64(x: int)
  {
    -TWO63 <= x < TWO63
  }

  /** The int64 value a machine multiplication by two leaves. */
  function Doubled(d: int): (r: int)
    requires IsInt64(d)
    ensures IsInt64(r)
    ensures -TWO62 <= d < TWO62 <==> r == 2 * d
  {
    if 2 * d >= TWO63 then 2 * d - TWO64
    else if 2 * d < -TWO63 then 2 * d + TWO64
    else 2 * d
  }

  function Pow2(n: nat): (r: int)
    ensures r >= 1
  {
    if n == 0 then 1 else 2 * Pow2(n - 1)
  }

  function Min(x: int, y: int): int
  {
    if x <= y then x else y
  }

  function Max(x: int, y: int): int
  {
    if x <= y then y else x
  }

  /** The doubling loop from duration d with k rounds to go. */
  function Rounds(d: int, max: int, k: nat): (r: int)
    requires IsInt64(d) && IsInt64(max)
    ensures IsInt64(r)
    decreases k
  {
    if k == 0 then d
    else if Doubled(d) > max then max
    else Rounds(Doubled(d), max, k - 1)
  }

  function BackoffDuration(initial: int, max: int, attempts: int): int
    requires IsInt64(initial) && IsInt64(max)
  {
    Rounds(initial, max, if attempts <= 1 then 0 else attempts - 1)
  }

  method CalculateBackoffDuration(initial: int, max: int, attempts: int) returns (duration: int)
    requires IsInt64(initial) && IsInt64(max)
    ensures duration == BackoffDuration(initial, max, attempts)
  {
    duration := initial;
    var i := 1;
    while i < attempts
      invariant i >= 1 && IsInt64(duration)
      invariant Rounds(duration, max, if i < attempts then attempts - i else 0) ==
                BackoffDuration(initial, max, attempts)
    {
      duration := Doubled(duration);
      if duration > max {
        return max;
      }
      i := i + 1;
    }
  }

  /** What the design promises: the initial duration, then doubling up to a cap. */
  function ClosedForm(initial: int, max: int, attempts: int): int
  {
    if attempts <= 1 then initial else Min(max, initial * Pow2(attempts - 1))
  }

  /**
   The last value reached by doubling d > 0 that can no longer be doubled in an int64.
   */
  function TopDoubling(d: int): (r: int)
    requires 0 < d < TWO63
    ensures TWO62 <= r < TWO63 && r >= d
    decreases TWO63 - d
  {
    if d >= TWO62 then d else TopDoubling(2 * d)
  }

  /** The durations for which no attempt count makes the loop overflow. */
  predicate NeverOverflows(initial: int, max: int)
    requires 0 <= initial < TWO63
  {
    initial == 0 || (initial < TWO62 && TopDoubling(initial) > max)
  }

  lemma {:induction false} RoundsClosedForm(d: int, max: int, k: nat)
    requires 0 <= d < TWO63 && 0 <= max < TWO63
    requires k >= 1 ==> NeverOverflows(d, max)
    ensures Rounds(d, max, k) == if k == 0 then d else Min(max, d * Pow2(k))
    decreases k
  {
    if k >= 1 && d > 0 {
      assert d * Pow2(k) == Doubled(d) * Pow2(k - 1);
      if Doubled(d) > max {
        ProductAtLeast(2 * d, Pow2(k - 1));
      } else {
        assert TopDoubling(d) == TopDoubling(2 * d);
        if k >= 2 {
          RoundsClosedForm(2 * d, max, k - 1);
        } else {
          assert Pow2(k - 1) == 1;
        }
      }
    } else if k >= 1 {
      assert Doubled(0) == 0;
      RoundsClosedForm(0, max, k - 1);
    }
  }

  lemma ProductAtLeast(x: int, p: int)
    requires x >= 0 && p >= 1
    ensures x * p >= x
  {
  }

  /** If the loop can overflow, this many rounds return a negative duration. */
  lemma {:induction false} OverflowWitness(d: int, max: int) returns (k: nat)
    requires 0 < d < TWO63 && 0 <= max < TWO63
    requires !NeverOverflows(d, max)
    ensures k >= 1 && Rounds(d, max, k) < 0
    decreases TWO63 - d
  {
    if d >= TWO62 {
      k := 1;
      assert Doubled(d) < 0;
      assert Rounds(Doubled(d), max, 0) == Doubled(d);
    } else {
      assert 2 * d <= TopDoubling(2 * d) <= max;
      k := OverflowWitness(2 * d, max);
      k := k + 1;
    }
  }

  /**
   For non-negative durations the loop returns the promised value for every attempt count
   if and only if no doubling it performs leaves the int64 range, a condition on the two
   configured durations alone.
   */
  lemma ClosedFormIff(initial: int, max: int)
    requires 0 <= initial < TWO63 && 0 <= max < TWO63
    ensures (forall attempts :: BackoffDuration(initial, max, attempts) == ClosedForm(initial, max, attempts))
            <==> NeverOverflows(initial, max)
  {
    if NeverOverflows(initial, max) {
      forall attempts ensures BackoffDuration(initial, max, attempts) == ClosedForm(initial, max, attempts) {
        RoundsClosedForm(initial, max, if attempts <= 1 then 0 else attempts - 1);
      }
    } else {
      var k := OverflowWitness(initial, max);
      assert BackoffDuration(initial, max, k + 1) < 0;
      assert ClosedForm(initial, max, k + 1) >= 0;
    }
  }

  /** Durations below 2^62 ns, some 146 years, are always safe. */
  lemma SmallDurationsNeverOverflow(initial: int, max: int)
    requires 0 <= initial < TWO62 && 0 <= max < TWO62
    ensures NeverOverflows(initial, max)
  {
  }

  const SECOND: int := 1_000_000_000

  /** Above that the code fails: with these whole seconds the second attempt gets a negative duration. */
  lemma OverflowExample()
    ensures var initial, max := 4_611_686_019 * SECOND, 9_223_372_036 * SECOND;
            && 0 < initial < TWO63 && 0 < max < TWO63
            && !NeverOverflows(initial, max) && BackoffDuration(initial, max, 2) < 0
  {
  }

  /** Overflow or not, no duration exceeds the larger of the two configured ones. */
  lemma {:induction false} RoundsBounded(d: int, max: int, k: nat)
    requires IsInt64(d) && IsInt64(max)
    ensures Rounds(d, max, k) <= Max(d, max)
    decreases k
  {
    if k > 0 && Doubled(d) <= max {
      RoundsBounded(Doubled(d), max, k - 1);
    }
  }

  lemma {:induction false} Pow2Monotone(a: nat, b: nat)
    requires a <= b
    ensures Pow2(a) <= Pow2(b)
  {
    if a < b {
      Pow2Monotone(a, b - 1);
    }
  }

  lemma ScaledMonotone(x: int, p: int, q: int)
    requires x >= 0 && p <= q
    ensures x * p <= x * q
  {
  }

  /** More attempts never shorten the backoff, exactly when initial is at most max and nothing overflows. */
  lemma BackoffMonotoneIff(initial: int, max: int)
    requires 0 <= initial < TWO63 && 0 <= max < TWO63
    ensures (forall a, b | a <= b :: BackoffDuration(initial, max, a) <= BackoffDuration(initial, max, b))
            <==> initial <= max && NeverOverflows(initial, max)
  {
    assert BackoffDuration(initial, max, 1) == initial;
    if !NeverOverflows(initial, max) {
      var k := OverflowWitness(initial, max);
      assert BackoffDuration(initial, max, k + 1) < 0;
    } else if initial > max {
      ClosedFormIff(initial, max);
      assert BackoffDuration(initial, max, 2) == ClosedForm(initial, max, 2) <= max;
    } else {
      forall a, b | a <= b ensures BackoffDuration(initial, max, a) <= BackoffDuration(initial, max, b) {
        ClosedFormMonotone(initial, max, a, b);
      }
    }
  }

  lemma ClosedFormMonotone(initial: int, max: int, a: int, b: int)
    requires 0 <= initial <= max < TWO63 && NeverOverflows(initial, max) && a <= b
    ensures BackoffDuration(initial, max, a) <= BackoffDuration(initial, max, b)
  {
    ClosedFormIff(initial, max);
    if b > 1 {
      var m := if a <= 1 then 0 else a - 1;
      Pow2Monotone(m, b - 1);
      ScaledMonotone(initial, Pow2(m), Pow2(b - 1));
      assert BackoffDuration(initial, max, a) == Min(max, initial * Pow2(m));
    }
  }

  /** The time at which a unit's backoff completes. */
  function BackoffTime(initial: int, max: int, info: QueueUnitInfo): int
    requires IsInt64(initial) && IsInt64(max)
  {
    info.timestamp + BackoffDuration(initial, max, info.attempts)
  }

  /** podsCompareBackoffCompleted for a queue with these two durations. */
  function BackoffLess(initial: int, max: int): (QueueUnitInfo, QueueUnitInfo) -> bool
    requires IsInt64(initial) && IsInt64(max)
  {
    (x: QueueUnitInfo, y: QueueUnitInfo) => BackoffTime(initial, max, x) < BackoffTime(initial, max, y)
  }

  lemma BackoffLessIsStrictWeak(initial: int, max: int)
    requires IsInt64(initial) && IsInt64(max)
    ensures StrictWeakOrder(BackoffLess(initial, max))
  {
  }

  /** A unit still backing off at time t was sent there less than the longest backoff ago. */
  lemma StillBackingOff(initial: int, max: int, info: QueueUnitInfo, t: int)
    requires IsInt64(initial) && IsInt64(max)
    requires BackoffTime(initial, max, info) > t
    ensures info.timestamp > t - Max(initial, max)
  {
    RoundsBounded(initial, max, if info.attempts <= 1 then 0 else info.attempts - 1);
  }
}
