/**
 * Rounding a duration up to the next multiple of a billing increment
 * (`round_up_duration` in log_hours_to_jira.py). Durations are whole
 * seconds; the increment is given in minutes.
 */
module Rounding {

  /** The increment in seconds: `increment_minutes * 60`. */
  function IncrementSeconds(incrementMinutes: nat): nat
  {
    incrementMinutes * 60
  }

  /** `math.ceil(t / i)`, computed exactly on integers. */
  function CeilDiv(t: nat, i: nat): (q: nat)
    requires i > 0
    ensures q * i >= t
    ensures q == 0 || (q - 1) * i < t
  {
    var q := (t + i - 1) / i;
    assert q * i + (t + i - 1) % i == t + i - 1;
    assert q * i >= t;
    q
  }

  /**
   * The rounded duration: `ceil(T / I) * I` with `I = incrementMinutes * 60`.
   * It is the least multiple of the increment that is not below the total.
   */
  function RoundUp(totalSeconds: nat, incrementMinutes: nat): (r: nat)
    requires incrementMinutes > 0
    ensures r >= totalSeconds
    ensures r % IncrementSeconds(incrementMinutes) == 0
    ensures r < totalSeconds + IncrementSeconds(incrementMinutes)
  {
    var i := IncrementSeconds(incrementMinutes);
    var q := CeilDiv(totalSeconds, i);
    MultipleMod(q, i);
    if q == 0 then 0 else
      assert q * i == (q - 1) * i + i;
      q * i
  }

  /** `n * i >= i` once `n` counts at least one increment. */
  lemma MulAtLeastOne(n: int, i: nat)
    requires n >= 1
    ensures n * i >= i
  {
    assert n * i == (n - 1) * i + i;
  }

  /** Quotient and remainder are unique: `x == a * i + b` with `0 <= b < i` fixes `x % i`. */
  lemma {:induction false} ModUnique(x: nat, i: nat, a: nat, b: nat)
    requires i > 0
    requires x == a * i + b && b < i
    ensures x % i == b
  {
    var a', b' := x / i, x % i;
    assert a' * i + b' == a * i + b;
    if a > a' {
      assert (a - a') * i == a * i - a' * i;
      MulAtLeastOne(a - a', i);
    } else if a < a' {
      assert (a' - a) * i == a' * i - a * i;
      MulAtLeastOne(a' - a, i);
    }
  }

  lemma MultipleMod(q: nat, i: nat)
    requires i > 0
    ensures (q * i) % i == 0
  {
    ModUnique(q * i, i, q, 0);
  }

  /** Two multiples of `i` that lie less than `i` apart are equal. */
  lemma {:induction false} MultiplesApart(a: nat, b: nat, i: nat)
    requires i > 0
    requires a % i == 0 && b % i == 0
    requires a <= b < a + i
    ensures a == b
  {
    var qa, qb := a / i, b / i;
    assert a == qa * i;
    assert b == qb * i;
    if qb > qa {
      assert (qb - qa) * i == qb * i - qa * i;
      MulAtLeastOne(qb - qa, i);
    } else if qb < qa {
      assert (qa - qb) * i == qa * i - qb * i;
      MulAtLeastOne(qa - qb, i);
    }
  }

  /** Rounding never lands beyond any multiple that already covers the total. */
  lemma {:induction false} RoundUpIsLeast(totalSeconds: nat, incrementMinutes: nat, m: nat)
    requires incrementMinutes > 0
    requires m % IncrementSeconds(incrementMinutes) == 0
    requires m >= totalSeconds
    ensures RoundUp(totalSeconds, incrementMinutes) <= m
  {
    var r := RoundUp(totalSeconds, incrementMinutes);
    if m < r {
      MultiplesApart(m, r, IncrementSeconds(incrementMinutes));
    }
  }

  /** A total that is already a whole number of increments is left as it is. */
  lemma {:induction false} RoundUpFixesMultiples(totalSeconds: nat, incrementMinutes: nat)
    requires incrementMinutes > 0
    ensures (totalSeconds % IncrementSeconds(incrementMinutes) == 0)
            <==> (RoundUp(totalSeconds, incrementMinutes) == totalSeconds)
  {
    var r := RoundUp(totalSeconds, incrementMinutes);
    if totalSeconds % IncrementSeconds(incrementMinutes) == 0 {
      MultiplesApart(totalSeconds, r, IncrementSeconds(incrementMinutes));
    }
  }

  /** A zero-length group stays at zero rather than growing to one increment. */
  lemma RoundUpZero(incrementMinutes: nat)
    requires incrementMinutes > 0
    ensures RoundUp(0, incrementMinutes) == 0
  {
    ModUnique(0, IncrementSeconds(incrementMinutes), 0, 0);
    RoundUpFixesMultiples(0, incrementMinutes);
  }

  /** Rounding twice is rounding once. */
  lemma RoundUpIdempotent(totalSeconds: nat, incrementMinutes: nat)
    requires incrementMinutes > 0
    ensures RoundUp(RoundUp(totalSeconds, incrementMinutes), incrementMinutes)
            == RoundUp(totalSeconds, incrementMinutes)
  {
    RoundUpFixesMultiples(RoundUp(totalSeconds, incrementMinutes), incrementMinutes);
  }

  /** A longer total never rounds to a shorter billed duration. */
  lemma RoundUpMonotonic(t1: nat, t2: nat, incrementMinutes: nat)
    requires incrementMinutes > 0
    requires t1 <= t2
    ensures RoundUp(t1, incrementMinutes) <= RoundUp(t2, incrementMinutes)
  {
    RoundUpIsLeast(t1, incrementMinutes, RoundUp(t2, incrementMinutes));
  }
}
