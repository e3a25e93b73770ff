/**
 The two capped exponential backoffs (app/services/mission_retry_policy.py and
 app/services/notification_outbox.py).  Durations are whole microseconds, the
 resolution of `timedelta`.
 */
module Backoff {
  import opened Wrappers

  function Min(a: int, b: int): int {
    if a < b then a else b
  }

  function Power(base: nat, exponent: nat): nat {
    if exponent == 0 then 1 else base * Power(base, exponent - 1)
  }

  lemma {:induction false} PowerPositive(base: nat, exponent: nat)
    requires base >= 1
    ensures Power(base, exponent) >= 1
  {
    if exponent > 0 {
      PowerPositive(base, exponent - 1);
    }
  }

  /** `MissionRetryPolicy`, within the bounds its `__post_init__` enforces. */
  datatype RetryPolicy = RetryPolicy(initialDelay: int, maximumDelay: int, multiplier: int) {
    predicate Valid() {
      0 < initialDelay <= maximumDelay && multiplier >= 1
    }
  }

  const DEFAULT_RETRY_POLICY := RetryPolicy(30_000_000, 900_000_000, 2)

  datatype PolicyError = InvalidPolicy | InvalidAttemptNumber

  function MakePolicy(initialDelay: int, maximumDelay: int, multiplier: int): (r: Result<RetryPolicy, PolicyError>)
    ensures r.Success? <==> RetryPolicy(initialDelay, maximumDelay, multiplier).Valid()
  {
    if initialDelay <= 0 || maximumDelay < initialDelay || multiplier < 1 then Failure(InvalidPolicy)
    else Success(RetryPolicy(initialDelay, maximumDelay, multiplier))
  }

  /** The closed form: the n-th delay is initial * multiplier^(n-1), capped. */
  function CappedDelay(policy: RetryPolicy, attemptNumber: nat): int
    requires policy.Valid() && attemptNumber >= 1
  {
    Min(policy.initialDelay * Power(policy.multiplier, attemptNumber - 1), policy.maximumDelay)
  }

  lemma PowerStep(initial: int, multiplier: nat, k: nat)
    ensures initial * Power(multiplier, k + 1) == initial * Power(multiplier, k) * multiplier
  {
    calc {
      initial * Power(multiplier, k + 1);
      initial * (multiplier * Power(multiplier, k));
      initial * Power(multiplier, k) * multiplier;
    }
  }

  lemma MulGrows(a: int, b: int, m: int)
    requires 0 < a && a <= b && m >= 1
    ensures a * m <= b * m && b <= b * m
  {
  }

  /** One turn of the loop: capping before multiplying changes nothing. */
  lemma CappedStep(policy: RetryPolicy, k: nat)
    requires policy.Valid() && k >= 1
    ensures CappedDelay(policy, k + 1) == Min(CappedDelay(policy, k) * policy.multiplier, policy.maximumDelay)
    ensures CappedDelay(policy, k) <= CappedDelay(policy, k + 1)
  {
    var raw := policy.initialDelay * Power(policy.multiplier, k - 1);
    PowerStep(policy.initialDelay, policy.multiplier, k - 1);
    PowerPositive(policy.multiplier, k - 1);
    assert raw >= 1 by {
      MulGrows(1, Power(policy.multiplier, k - 1), policy.initialDelay);
    }
    MulGrows(raw, raw, policy.multiplier);
    MulGrows(policy.maximumDelay, policy.maximumDelay, policy.multiplier);
    if raw > policy.maximumDelay {
      MulGrows(policy.maximumDelay, raw, policy.multiplier);
    }
  }

  /** `delay_after_attempt`. */
  method DelayAfterAttempt(policy: RetryPolicy, attemptNumber: int) returns (r: Result<int, PolicyError>)
    requires policy.Valid()
    ensures r == if attemptNumber < 1 then Failure(InvalidAttemptNumber) else Success(CappedDelay(policy, attemptNumber))
  {
    if attemptNumber < 1 {
      return Failure(InvalidAttemptNumber);
    }
    var delay := policy.initialDelay;
    for turn := 0 to attemptNumber - 1
      invariant delay == CappedDelay(policy, turn + 1)
    {
      CappedStep(policy, turn + 1);
      delay := Min(delay * policy.multiplier, policy.maximumDelay);
    }
    return Success(delay);
  }

  /** The first attempt waits the initial delay, each later one the multiple of it, but never longer than the maximum. */
  lemma {:induction false} DelayIsMonotone(policy: RetryPolicy, m: nat, n: nat)
    requires policy.Valid() && 1 <= m <= n
    ensures CappedDelay(policy, 1) == policy.initialDelay
    ensures CappedDelay(policy, n + 1) == Min(CappedDelay(policy, n) * policy.multiplier, policy.maximumDelay)
    ensures 0 < policy.initialDelay <= CappedDelay(policy, m) <= CappedDelay(policy, n) <= policy.maximumDelay
    decreases n
  {
    PowerPositive(policy.multiplier, m - 1);
    MulGrows(1, Power(policy.multiplier, m - 1), policy.initialDelay);
    CappedStep(policy, n);
    if m < n {
      DelayIsMonotone(policy, m, n - 1);
      CappedStep(policy, n - 1);
    }
  }

  // --------------------------------------------------- notification backoff

  /** `timedelta / 2`: exact halves of an odd count of microseconds round to the even neighbour. */
  function HalfOf(duration: nat): nat {
    if duration % 2 == 0 then duration / 2
    else if (duration / 2) % 2 == 0 then duration / 2
    else duration / 2 + 1
  }

  function Doubled(base: int, turns: nat): int {
    base * Power(2, turns)
  }

  /** The doublings that the loop meets before turn `turns` and that trip its early exit too soon. */
  ghost predicate MeetsRoundedHalf(base: int, max: int, turns: nat) {
    max % 2 == 1 && (max / 2) % 2 == 0 && exists j :: 0 <= j < turns && Doubled(base, j) == max / 2
  }

  /** `_exponential_retry_delay`, against the exact condition under which it is the capped power. */
  method ExponentialRetryDelay(base: int, max: int, attempt: int) returns (delay: int)
    requires 0 < base <= max
    ensures var turns := if attempt >= 1 then attempt - 1 else 0;
            delay == (if MeetsRoundedHalf(base, max, turns) then max
                      else Min(Doubled(base, turns), max))
  {
    delay := base;
    ghost var turns := if attempt >= 1 then attempt - 1 else 0;
    assert Doubled(base, 0) == base;
    for turn := 0 to if attempt >= 1 then attempt - 1 else 0
      invariant delay == Doubled(base, turn)
      invariant delay <= max && !MeetsRoundedHalf(base, max, turn)
    {
      PowerStep(base, 2, turn);
      if delay >= HalfOf(max) {
        if max % 2 == 1 && (max / 2) % 2 == 0 && delay == max / 2 {
          assert MeetsRoundedHalf(base, max, turns);
        } else {
          DoublingReachesMax(base, max, turn, turns);
        }
        return max;
      }
      assert Doubled(base, turn) != max / 2 || max % 2 == 0 || (max / 2) % 2 == 1;
      delay := delay * 2;
    }
    return Min(delay, max);
  }

  lemma {:induction false} DoubledGrows(base: int, j: nat, k: nat)
    requires base > 0 && j <= k
    ensures 0 < Doubled(base, j) <= Doubled(base, k)
    ensures j < k ==> 2 * Doubled(base, j) <= Doubled(base, k)
    decreases k
  {
    PowerPositive(2, j);
    MulGrows(1, Power(2, j), base);
    if j < k {
      DoubledGrows(base, j, k - 1);
      PowerStep(base, 2, k - 1);
    }
  }

  /** Once half of the maximum is really reached, every later doubling is at least the maximum. */
  lemma DoublingReachesMax(base: int, max: int, turn: nat, turns: nat)
    requires 0 < base <= max && turn < turns
    requires Doubled(base, turn) >= HalfOf(max)
    requires !(max % 2 == 1 && (max / 2) % 2 == 0 && Doubled(base, turn) == max / 2)
    ensures Doubled(base, turns) >= max
  {
    DoubledGrows(base, turn, turns);
    assert 2 * Doubled(base, turn) >= max;
  }

  /**
   The notification delay is the capped power of two exactly when the loop meets no rounded
   half, so for every maximum that is an even number of microseconds it always is.
   */
  lemma NotificationDelayIsCapped(base: int, max: int, turns: nat)
    requires 0 < base <= max
    ensures (if MeetsRoundedHalf(base, max, turns) then max else Min(Doubled(base, turns), max))
            == CappedDelay(RetryPolicy(base, max, 2), turns + 1)
            <==> !(max % 2 == 1 && (max / 2) % 2 == 0 && turns >= 1 && Doubled(base, turns - 1) == max / 2)
    ensures max % 2 == 0 ==> !MeetsRoundedHalf(base, max, turns)
  {
    if MeetsRoundedHalf(base, max, turns) {
      var j :| 0 <= j < turns && Doubled(base, j) == max / 2;
      if j == turns - 1 {
        PowerStep(base, 2, j);
        assert Doubled(base, turns) == max - 1;
      } else {
        DoubledGrows(base, j, j + 1);
        DoubledGrows(base, j + 1, turns);
        assert Doubled(base, turns) >= 4 * (max / 2) >= max by {
          PowerStep(base, 2, j);
          DoubledGrows(base, j + 1, turns);
          PowerStep(base, 2, j + 1);
          DoubledGrows(base, j + 2, turns);
          DoubledGrows(base, j, turns);
        }
        DoubledGrows(base, j + 1, turns - 1);
      }
    }
  }

  /**
   The failing family at its smallest: a maximum of five microseconds over a base of one.  The third attempt is to
   wait four, and the method, by its contract, answers five.
   */
  lemma OddMaximumExample()
    ensures MeetsRoundedHalf(1, 5, 2)
    ensures CappedDelay(RetryPolicy(1, 5, 2), 3) == 4
  {
    assert Power(2, 1) == 2 && Power(2, 2) == 4;
    assert Doubled(1, 1) == 5 / 2;
  }
}
