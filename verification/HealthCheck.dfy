/** The capped exponential backoff and the bounded health probe that uses it. */
module HealthCheck {
  import opened Common

  function Pow2(n: nat): nat {
    if n == 0 then 1 else 2 * Pow2(n - 1)
  }

  function Min(a: int, b: int): int {
    if a <= b then a else b
  }

  /** The remaining iterations of the doubling loop of Backoff.Delay. */
  function Doubling(delay: int, max: int, rounds: nat): int
    decreases rounds
  {
    if rounds == 0 then delay
    else
      var doubled := Wrap(2 * delay);
      if doubled >= max then max else Doubling(doubled, max, rounds - 1)
  }

  /** The largest doubling of `delay` that fits int64. */
  function Top(delay: int): (top: int)
    requires 0 < delay < TWO_63
    ensures delay <= top < TWO_63 <= 2 * top
    decreases TWO_63 - delay
  {
    if 2 * delay < TWO_63 then Top(2 * delay) else delay
  }

  /** The doubling reaches the cap before it overflows. */
  predicate IsSafe(initial: int, max: int) {
    0 < initial < TWO_62 && max <= Top(initial)
  }

  method Delay(initial: int, max: int, retryNumber: int) returns (delay: int)
    ensures retryNumber <= 0 ==> delay == initial
    ensures retryNumber > 0 ==> delay == Doubling(initial, max, retryNumber)
    ensures retryNumber > 0 && IsSafe(initial, max) ==> delay == Min(initial * Pow2(retryNumber), max)
  {
    if retryNumber <= 0 {
      return initial;
    }
    if IsSafe(initial, max) {
      DoublingIsCappedPower(initial, max, retryNumber);
    }
    delay := initial;
    var i := 0;
    while i < retryNumber
      invariant 0 <= i <= retryNumber
      invariant Doubling(initial, max, retryNumber) == Doubling(delay, max, retryNumber - i)
    {
      delay := Wrap(delay * 2);
      if delay >= max {
        return max;
      }
      i := i + 1;
    }
  }

  lemma {:induction false} Pow2Grows(n: nat)
    ensures Pow2(n) >= 1 && Pow2(n + 1) == 2 * Pow2(n)
  {
    if n > 0 {
      Pow2Grows(n - 1);
    }
  }

  lemma WrapFits(x: int)
    requires -TWO_63 <= x < TWO_63
    ensures Wrap(x) == x
  {}

  lemma PowerStep(delay: nat, rounds: nat)
    requires rounds > 0
    ensures delay * Pow2(rounds) == (2 * delay) * Pow2(rounds - 1)
    ensures (2 * delay) * Pow2(rounds - 1) >= 2 * delay
  {
    Pow2Grows(rounds - 1);
    var p := Pow2(rounds - 1);
    assert delay * (2 * p) == (2 * delay) * p;
    assert (2 * delay) * p >= (2 * delay) * 1;
  }

  /** Up to the overflow the loop computes the capped power. */
  lemma {:induction false} DoublingIsCappedPower(delay: int, max: int, rounds: nat)
    requires 0 < delay < TWO_63 && max <= Top(delay)
    requires if rounds > 0 then delay < TWO_62 else delay < max
    ensures Doubling(delay, max, rounds) == Min(delay * Pow2(rounds), max)
    decreases rounds
  {
    if rounds > 0 {
      WrapFits(2 * delay);
      PowerStep(delay, rounds);
      if 2 * delay < max {
        DoublingIsCappedPower(2 * delay, max, rounds - 1);
      }
    }
  }

  /** Delay(n) is min(initial * 2^n, max). */
  predicate IsExact(initial: int, max: int, n: nat) {
    Doubling(initial, max, n) == Min(initial * Pow2(n), max)
  }

  /** A cap that no doubling below the overflow reaches: the one that wraps is negative, and returned. */
  lemma {:induction false} OverflowIsReturned(delay: int, max: int) returns (n: nat)
    requires 0 < delay < TWO_63 && 0 < max < TWO_63
    requires delay >= TWO_62 || max > Top(delay)
    ensures n >= 1 && Doubling(delay, max, n) < 0 && delay * Pow2(n) >= TWO_63
    decreases TWO_63 - delay
  {
    assert Doubling(Wrap(2 * delay), max, 0) == Wrap(2 * delay);
    if delay >= TWO_62 {
      n := 1;
      assert Wrap(2 * delay) == 2 * delay - TWO_64;
      assert Pow2(1) == 2 * Pow2(0);
    } else {
      WrapFits(2 * delay);
      var rest := OverflowIsReturned(2 * delay, max);
      n := rest + 1;
      PowerStep(delay, n);
    }
  }

  /**
   For positive int64 values the delay is min(initial * 2^n, max) for every retry exactly when
   the doubling reaches the cap before it overflows; otherwise some retry gets a negative delay.
   */
  lemma DelayIsExactIff(initial: int, max: int)
    requires 0 < initial < TWO_63 && 0 < max < TWO_63
    ensures (forall n: nat | n >= 1 :: IsExact(initial, max, n)) <==> IsSafe(initial, max)
    ensures !IsSafe(initial, max) ==> exists n: nat :: n >= 1 && Doubling(initial, max, n) < 0
  {
    if IsSafe(initial, max) {
      forall n: nat | n >= 1
        ensures IsExact(initial, max, n)
      {
        DoublingIsCappedPower(initial, max, n);
      }
    } else {
      var n := OverflowIsReturned(initial, max);
      assert !IsExact(initial, max, n);
    }
  }

  /** In particular a cap of at most 2^62 is safe for all initial delays below 2^62, and no larger one is. */
  lemma SafeCapIff(max: int)
    ensures (forall initial: int | 0 < initial < TWO_62 :: IsSafe(initial, max)) <==> max <= TWO_62
  {
    if max > TWO_62 {
      assert Top(TWO_62 / 2) == Top(TWO_62) == TWO_62;
      assert !IsSafe(TWO_62 / 2, max);
    }
  }

  /** What Delay(i) returns. */
  function Pause(initial: int, max: int, i: nat): int {
    if i == 0 then initial else Doubling(initial, max, i)
  }

  /** The pauses before probe number `n`. */
  function BackoffTotal(initial: int, max: int, n: nat): int {
    if n == 0 then 0 else BackoffTotal(initial, max, n - 1) + Pause(initial, max, n - 1)
  }

  datatype Verdict = Healthy | Unhealthy | TimedOut

  /**
   WaitUntilHealthy. `probe(i)` is the outcome of the i-th request and `expires(i)` says that
   the deadline falls into the pause after it. It succeeds exactly when one of the permitted
   probes does before the deadline; it makes at most maxRetries + 1 of them, and its pauses
   add up to the capped geometric sum.
   */
  method WaitUntilHealthy(probe: nat -> bool, expires: nat -> bool, initial: int, max: int, maxRetries: int)
    returns (verdict: Verdict, probes: nat, slept: int)
    ensures probes <= (if maxRetries < 0 then 0 else maxRetries + 1)
    ensures verdict.Healthy? <==> exists i: nat :: i <= maxRetries && probe(i) && forall j: nat | j < i :: !expires(j)
    ensures verdict.Healthy? ==> probes > 0 && probe(probes - 1)
    ensures verdict.TimedOut? ==> probes > 0 && expires(probes - 1)
    ensures verdict.Unhealthy? ==> probes == if maxRetries < 0 then 0 else maxRetries + 1
    ensures forall j: nat | j + 1 < probes :: !probe(j) && !expires(j)
    ensures slept == BackoffTotal(initial, max, if probes == 0 then 0 else probes - 1)
  {
    probes, slept := 0, 0;
    while probes <= maxRetries
      invariant probes <= (if maxRetries < 0 then 0 else maxRetries)
      invariant forall j: nat | j < probes :: !probe(j) && !expires(j)
      invariant slept == BackoffTotal(initial, max, probes)
      decreases maxRetries - probes
    {
      if probe(probes) {
        return Healthy, probes + 1, slept;
      }
      if probes == maxRetries {
        return Unhealthy, probes + 1, slept;
      }
      var delay := Delay(initial, max, probes);
      if expires(probes) {
        return TimedOut, probes + 1, slept;
      }
      slept := slept + delay;
      probes := probes + 1;
    }
    verdict := Unhealthy;
  }

  /** The capped geometric sum: initial, then min(initial * 2^i, max). */
  function CappedSum(initial: int, max: int, n: nat): int {
    if n == 0 then 0
    else CappedSum(initial, max, n - 1) + if n == 1 then initial else Min(initial * Pow2(n - 1), max)
  }

  /** In the range where delays are exact, the total pause is the capped geometric sum, and linear in n. */
  lemma {:induction false} BackoffIsBounded(initial: int, max: int, n: nat)
    requires IsSafe(initial, max) && 0 < max
    ensures BackoffTotal(initial, max, n) == CappedSum(initial, max, n) <= initial + n * max
    ensures initial <= max ==> CappedSum(initial, max, n) <= n * max
  {
    if n > 0 {
      BackoffIsBounded(initial, max, n - 1);
      if n > 1 {
        DoublingIsCappedPower(initial, max, n - 1);
      }
      assert n * max == (n - 1) * max + max;
    }
  }
}
