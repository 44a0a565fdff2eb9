/**
 * A leg is the part of a journal line that a balance sees: what it is posted to, on which side and
 * how much.  Every component that adds up lines is specified by the sums of this module.
 */
module Legs {
  import opened Sums
  import opened Permutations

  datatype Leg<K> = Leg(key: K, debit: bool, amount: int)

  function Part<K(==)>(leg: Leg<K>, key: K, debit: bool): int
  {
    if leg.key == key && leg.debit == debit then leg.amount else 0
  }

  /** What the first `n` legs post to `key` on one side. */
  function SumUpTo<K(==)>(legs: seq<Leg<K>>, n: nat, key: K, debit: bool): int
    requires n <= |legs|
  {
    if n == 0 then 0 else SumUpTo(legs, n - 1, key, debit) + Part(legs[n - 1], key, debit)
  }

  function SumOn<K(==)>(legs: seq<Leg<K>>, key: K, debit: bool): int
  {
    SumUpTo(legs, |legs|, key, debit)
  }

  /** Everything the first `n` legs post on one side, whatever it is posted to. */
  function SideUpTo<K>(legs: seq<Leg<K>>, n: nat, debit: bool): int
    requires n <= |legs|
  {
    if n == 0 then 0
    else SideUpTo(legs, n - 1, debit) + (if legs[n - 1].debit == debit then legs[n - 1].amount else 0)
  }

  function Side<K>(legs: seq<Leg<K>>, debit: bool): int
  {
    SideUpTo(legs, |legs|, debit)
  }

  predicate Balanced<K>(legs: seq<Leg<K>>)
  {
    Side(legs, true) == Side(legs, false)
  }

  /** A key with no leg among the first `n` receives nothing. */
  lemma {:induction false} UntouchedIsZero<K(!new)>(legs: seq<Leg<K>>, n: nat, key: K, debit: bool)
    requires n <= |legs|
    requires forall i :: 0 <= i < n ==> legs[i].key != key
    ensures SumUpTo(legs, n, key, debit) == 0
  {
    if n > 0 {
      UntouchedIsZero(legs, n - 1, key, debit);
    }
  }

  /** Only the first `n` legs matter to a sum up to `n`. */
  lemma {:induction false} SumUpToPrefix<K(!new)>(a: seq<Leg<K>>, b: seq<Leg<K>>, n: nat, key: K, debit: bool)
    requires n <= |a| && n <= |b|
    requires forall i :: 0 <= i < n ==> a[i] == b[i]
    ensures SumUpTo(a, n, key, debit) == SumUpTo(b, n, key, debit)
    ensures SideUpTo(a, n, debit) == SideUpTo(b, n, debit)
  {
    if n > 0 {
      SumUpToPrefix(a, b, n - 1, key, debit);
    }
  }

  lemma {:induction false} SumConcat<K(!new)>(a: seq<Leg<K>>, b: seq<Leg<K>>, key: K, debit: bool)
    ensures SumOn(a + b, key, debit) == SumOn(a, key, debit) + SumOn(b, key, debit)
    ensures Side(a + b, debit) == Side(a, debit) + Side(b, debit)
  {
    SumUpToPrefix(a + b, a, |a|, key, debit);
    SumConcatUpTo(a, b, |b|, key, debit);
  }

  lemma {:induction false} SumConcatUpTo<K(!new)>(a: seq<Leg<K>>, b: seq<Leg<K>>, n: nat, key: K, debit: bool)
    requires n <= |b|
    ensures SumUpTo(a + b, |a| + n, key, debit) == SumUpTo(a + b, |a|, key, debit) + SumUpTo(b, n, key, debit)
    ensures SideUpTo(a + b, |a| + n, debit) == SideUpTo(a + b, |a|, debit) + SideUpTo(b, n, debit)
  {
    if n > 0 {
      SumConcatUpTo(a, b, n - 1, key, debit);
      assert (a + b)[|a| + n - 1] == b[n - 1];
    }
  }

  /** Taking one leg out of a sequence, wherever it stands, takes out exactly its own part. */
  lemma {:induction false} SumWithout<K(!new)>(a: seq<Leg<K>>, j: nat, key: K, debit: bool)
    requires j < |a|
    ensures var rest := a[..j] + a[j + 1..];
            && SumOn(a, key, debit) == SumOn(rest, key, debit) + Part(a[j], key, debit)
            && Side(a, debit) == Side(rest, debit) + (if a[j].debit == debit then a[j].amount else 0)
  {
    var lo, one, hi := a[..j], [a[j]], a[j + 1..];
    SumConcat(lo, hi, key, debit);
    SumConcat(lo, one, key, debit);
    SumConcat(lo + one, hi, key, debit);
    assert a == lo + one + hi;
    assert SumUpTo(one, 1, key, debit) == SumUpTo(one, 0, key, debit) + Part(one[0], key, debit);
    assert SideUpTo(one, 1, debit) == SideUpTo(one, 0, debit) + (if one[0].debit == debit then one[0].amount else 0);
  }

  /** Sums do not depend on the order of the legs. */
  lemma {:induction false} SumPermutation<K(!new)>(a: seq<Leg<K>>, b: seq<Leg<K>>, key: K, debit: bool)
    requires multiset(a) == multiset(b)
    ensures SumOn(a, key, debit) == SumOn(b, key, debit)
    ensures Side(a, debit) == Side(b, debit)
    decreases |a|
  {
    if a == [] {
      assert b == [] by { assert |b| == |multiset(b)|; }
    } else {
      var j := Partner(a, b);
      SumWithout(a, 0, key, debit);
      SumWithout(b, j, key, debit);
      SumPermutation(a[..0] + a[1..], b[..j] + b[j + 1..], key, debit);
    }
  }

  /** Adding up every key of a set that covers the legs gives the whole side. */
  lemma {:induction false} KeysCoverSide<K(!new)>(keys: set<K>, legs: seq<Leg<K>>, n: nat, debit: bool)
    requires n <= |legs|
    requires forall i :: 0 <= i < n ==> legs[i].key in keys
    ensures SetSum(keys, (k: K) => SumUpTo(legs, n, k, debit)) == SideUpTo(legs, n, debit)
  {
    var now := (k: K) => SumUpTo(legs, n, k, debit);
    if n == 0 {
      SetSumZero(keys, now);
    } else {
      var before := (k: K) => SumUpTo(legs, n - 1, k, debit);
      var last := (k: K) => Part(legs[n - 1], k, debit);
      KeysCoverSide(keys, legs, n - 1, debit);
      SetSumPlus(keys, before, last, now);
      SetSumSingle(keys, legs[n - 1].key, last);
    }
  }

  lemma SideOfThree<K(!new)>(legs: seq<Leg<K>>, debit: bool)
    requires |legs| == 3
    ensures Side(legs, debit) == (if legs[0].debit == debit then legs[0].amount else 0)
                               + (if legs[1].debit == debit then legs[1].amount else 0)
                               + (if legs[2].debit == debit then legs[2].amount else 0)
  {
    assert SideUpTo(legs, 0, debit) == 0;
    assert SideUpTo(legs, 1, debit) == (if legs[0].debit == debit then legs[0].amount else 0);
    assert SideUpTo(legs, 2, debit)
        == SideUpTo(legs, 1, debit) + (if legs[1].debit == debit then legs[1].amount else 0);
  }

  lemma {:induction false} SideMonotone<K(!new)>(legs: seq<Leg<K>>, m: nat, n: nat, debit: bool)
    requires m <= n <= |legs|
    requires forall i :: 0 <= i < |legs| ==> legs[i].amount >= 0
    ensures 0 <= SideUpTo(legs, m, debit) <= SideUpTo(legs, n, debit)
    decreases n
  {
    if m < n {
      SideMonotone(legs, m, n - 1, debit);
    } else if n > 0 {
      SideMonotone(legs, n - 1, n - 1, debit);
    }
  }

  /** Leg by leg the same, with amounts `scale` times as large. */
  predicate Scaled<K(==)>(large: seq<Leg<K>>, small: seq<Leg<K>>, scale: nat)
  {
    |large| == |small| && forall i :: 0 <= i < |large| ==> large[i] == small[i].(amount := scale * small[i].amount)
  }

  lemma {:induction false} ScaledSums<K(!new)>(large: seq<Leg<K>>, small: seq<Leg<K>>, scale: nat, n: nat, key: K,
          debit: bool)
    requires Scaled(large, small, scale) && n <= |large|
    ensures SumUpTo(large, n, key, debit) == scale * SumUpTo(small, n, key, debit)
  {
    if n > 0 {
      ScaledSums(large, small, scale, n - 1, key, debit);
      DistributeLeft(scale, SumUpTo(small, n - 1, key, debit), Part(small[n - 1], key, debit));
    }
  }

  lemma DistributeLeft(k: int, x: int, y: int)
    ensures k * (x + y) == k * x + k * y
  {
  }
}
