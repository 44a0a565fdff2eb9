/** The retry delay of the outbox relay: exponential, capped, plus jitter. */
module Backoff {
  import opened Powers

  /** The delay after the `attempts`-th failure, before jitter. */
  function Delay(base: nat, max: nat, attempts: nat): nat
    requires attempts >= 1
  {
    var exponential := base * Pow2(attempts - 1);
    if exponential <= max then exponential else max
  }

  lemma ScaledPow2Monotone(base: nat, j: nat, k: nat)
    requires j <= k
    ensures base * Pow2(j) <= base * Pow2(k)
  {
    Pow2Monotone(j, k);
  }

  /** Waiting never gets shorter with more failures. */
  lemma DelayMonotone(base: nat, max: nat, j: nat, k: nat)
    requires 1 <= j <= k
    ensures Delay(base, max, j) <= Delay(base, max, k) <= max
  {
    ScaledPow2Monotone(base, j - 1, k - 1);
  }

  /** Sum of the first `n` delays without jitter. */
  function TotalDelay(base: nat, max: nat, n: nat): nat
  {
    if n == 0 then 0 else TotalDelay(base, max, n - 1) + Delay(base, max, n)
  }

  /** How many of the first `n` exponential terms are within the cap. */
  function Uncapped(base: nat, max: nat, n: nat): (k: nat)
    ensures k <= n
  {
    if n == 0 then 0
    else Uncapped(base, max, n - 1) + (if base * Pow2(n - 1) <= max then 1 else 0)
  }

  /** The uncapped terms come first: term n is capped exactly when fewer than n terms are uncapped. */
  lemma {:induction false} UncappedIsPrefix(base: nat, max: nat, n: nat)
    requires n >= 1
    ensures base * Pow2(n - 1) <= max <==> Uncapped(base, max, n) == n
    decreases n
  {
    if n > 1 {
      UncappedIsPrefix(base, max, n - 1);
      ScaledPow2Monotone(base, n - 2, n - 1);
    }
  }

  /** Closed form of the total: a geometric series while uncapped, then the cap for every further failure. */
  lemma {:induction false} TotalDelayClosedForm(base: nat, max: nat, n: nat)
    ensures var k := Uncapped(base, max, n); TotalDelay(base, max, n) == base * (Pow2(k) - 1) + (n - k) * max
    decreases n
  {
    if n > 0 {
      TotalDelayClosedForm(base, max, n - 1);
      UncappedIsPrefix(base, max, n);
      var j := Uncapped(base, max, n - 1);
      if base * Pow2(n - 1) <= max {
        assert j == n - 1;
        assert (n - 1 - j) * max == 0 && (n - n) * max == 0;
        GeometricStep(base, Pow2(n - 1));
      } else {
        CapStep(n - j, max);
      }
    } else {
      assert Pow2(0) == 1;
    }
  }

  lemma GeometricStep(base: int, p: int)
    ensures base * (2 * p - 1) == base * (p - 1) + base * p
  {
  }

  lemma CapStep(n: int, max: int)
    ensures n * max == (n - 1) * max + max
  {
  }

  /** Where one wait, jitter included, always lies. */
  lemma DelayWithJitter(base: nat, max: nat, ratio: real, random: real, attempts: nat)
    requires attempts >= 1 && ratio >= 0.0 && 0.0 <= random < 1.0
    ensures var wait := Delay(base, max, attempts) as real + random * ratio * base as real;
            Delay(base, max, attempts) as real <= wait <= max as real + ratio * base as real
  {
    DelayMonotone(base, max, attempts, attempts);
    var b := base as real;
    assert random * ratio <= ratio;
    assert 0.0 <= random * ratio * b <= ratio * b;
  }
}
