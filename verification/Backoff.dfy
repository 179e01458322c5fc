/** Exponential backoff on signed 64-bit durations (internal/service/delivery_service.go:642-658). */
module Backoff {
  const TWO_63: int := 0x8000_0000_0000_0000
  const TWO_64: int := 0x1_0000_0000_0000_0000

  predicate IsInt64(x: int) { -TWO_63 <= x < TWO_63 }

  /** Two's complement wrap-around of time.Duration arithmetic. */
  function Wrap(x: int): (r: int)
    ensures IsInt64(r)
    ensures IsInt64(x) ==> r == x
  {
    (x + TWO_63) % TWO_64 - TWO_63
  }

  /** base doubled n times. */
  function Doubled(base: int, n: nat): int {
    if n == 0 then base else 2 * Doubled(base, n - 1)
  }

  /** The delay over unbounded integers: base doubled attempt - 1 times, capped. */
  function Delay(attempt: int, base: int, max: int): int
    requires attempt >= 1
  {
    if Doubled(base, attempt - 1) < max then Doubled(base, attempt - 1) else max
  }

  lemma {:induction false} DoubledGrows(base: int, m: nat, n: nat)
    requires base > 0 && m <= n
    ensures base <= Doubled(base, m) <= Doubled(base, n)
    decreases n
  {
    if m < n {
      DoubledGrows(base, m, n - 1);
    } else if n > 0 {
      DoubledGrows(base, n - 1, n - 1);
    }
  }

  /** The wrapped doubling loop computes the capped exponential of every attempt, however large, without overflow showing. */
  method ComputeDelay(attempt: int, base: int, max: int) returns (delay: int)
    requires IsInt64(attempt) && IsInt64(base) && IsInt64(max)
    ensures attempt < 1 ==> delay == base
    ensures attempt >= 1 && 0 < base <= max ==> delay == Delay(attempt, base, max)
    ensures attempt >= 1 && base > max ==> delay == max
    ensures IsInt64(delay)
  {
    if attempt < 1 {
      return base;
    }
    delay := base;
    var step := 1;
    while step < attempt
      invariant 1 <= step <= attempt && IsInt64(delay)
      invariant 0 < base <= max ==> delay == Doubled(base, step - 1) && 0 < delay <= max
      invariant base > max ==> step == 1 && delay == base
    {
      ghost var before := delay;
      delay := Wrap(delay * 2);
      if delay >= max || delay <= 0 {
        if 0 < base <= max {
          assert 2 * before == Doubled(base, step) >= max;
          DoubledGrows(base, step, attempt - 1);
        }
        return max;
      }
      step := step + 1;
    }
    if delay > max {
      return max;
    }
  }

  /** The first attempt waits the base delay, and each later one twice as long as the one before, up to max. */
  lemma DelayDoubles(attempt: int, base: int, max: int)
    requires attempt >= 1 && 0 < base <= max
    ensures Delay(1, base, max) == base
    ensures Delay(attempt + 1, base, max) ==
            if 2 * Delay(attempt, base, max) < max then 2 * Delay(attempt, base, max) else max
  {
    assert Doubled(base, attempt) == 2 * Doubled(base, attempt - 1);
  }

  /** Later attempts never wait less, and every delay lies between base and max. */
  lemma DelayMonotone(attempt: int, later: int, base: int, max: int)
    requires 1 <= attempt <= later && 0 < base <= max
    ensures base <= Delay(attempt, base, max) <= Delay(later, base, max) <= max
  {
    DoubledGrows(base, attempt - 1, later - 1);
  }

  lemma FloorBetween(lo: int, x: real, hi: int)
    requires lo as real <= x <= hi as real
    ensures lo <= x.Floor <= hi
  {
  }

  lemma ScaledBetween(x: real, f: real)
    requires x >= 0.0 && 0.0 <= f < 1.0
    ensures 0.0 <= x * f <= x
  {
  }

  lemma Distributes(x: real, f: real)
    ensures x * (0.5 + 0.5 * f) == 0.5 * x + 0.5 * (x * f)
  {
  }

  lemma HalfBelow(delay: int)
    ensures (delay / 2) as real <= 0.5 * (delay as real)
  {
    assert 2 * (delay / 2) <= delay;
    assert (2 * (delay / 2)) as real == 2.0 * ((delay / 2) as real);
  }

  lemma HalfToWhole(x: real, y: real, w: real)
    requires 0.0 <= y <= x && w == 0.5 * x + 0.5 * y
    ensures 0.5 * x <= w <= x
  {
  }

  lemma JitterBetween(delay: int, f: real)
    requires delay > 0 && 0.0 <= f < 1.0
    ensures delay / 2 <= (delay as real * (0.5 + 0.5 * f)).Floor <= delay
  {
    var x := delay as real;
    ScaledBetween(x, f);
    Distributes(x, f);
    HalfToWhole(x, x * f, x * (0.5 + 0.5 * f));
    HalfBelow(delay);
    FloorBetween(delay / 2, x * (0.5 + 0.5 * f), delay);
  }

  /** Equal jitter: the delay times a factor from 0.5 to 1, with f the random number; rounding of floats aside. */
  method ComputeBackoff(attempt: int, base: int, max: int, f: real) returns (wait: int)
    requires IsInt64(attempt) && IsInt64(base) && IsInt64(max) && 0.0 <= f < 1.0
    ensures attempt >= 1 && 0 < base <= max ==> base / 2 <= Delay(attempt, base, max) / 2 <= wait <= Delay(attempt, base, max)
  {
    var delay := ComputeDelay(attempt, base, max);
    wait := (delay as real * (0.5 + 0.5 * f)).Floor;
    if attempt >= 1 && 0 < base <= max {
      DelayMonotone(attempt, attempt, base, max);
      JitterBetween(delay, f);
    }
  }

}
