/**
 * Integers as IEEE 754 binary64 numbers.  `Round` is the Number value that parseFloat and Number
 * addition give for an exact non-negative integer result: round to nearest, ties to even.
 */
module Doubles {
  import opened Powers

  const TWO_53: nat := 9007199254740992

  const TWO_52: nat := 4503599627370496

  /** How many binades `n` lies above the integers below 2^53. */
  function Level(n: nat): nat
  {
    if n < TWO_53 then 0 else Level(n / 2) + 1
  }

  /** Distance between neighbouring doubles around `n`, at least 1. */
  function Spacing(n: nat): (u: nat)
    ensures u >= 1
  {
    Pow2(Level(n))
  }

  function Round(n: nat): nat
  {
    var u := Spacing(n);
    var q, r := n / u, n % u;
    if 2 * r < u || (2 * r == u && q % 2 == 0) then q * u else (q + 1) * u
  }

  predicate Exact(n: nat)
  {
    n % Spacing(n) == 0
  }

  /** Rounding keeps exactly the integers that are doubles. */
  lemma RoundExact(n: nat)
    ensures Round(n) == n <==> Exact(n)
  {
    var u := Spacing(n);
    var q, r := n / u, n % u;
    assert n == q * u + r && 0 <= r < u;
    assert (q + 1) * u == q * u + u;
  }

  lemma SmallIsExact(n: nat)
    requires n <= TWO_53
    ensures Exact(n) && Round(n) == n
  {
    if n < TWO_53 {
      assert Spacing(n) == 1;
    } else {
      assert Spacing(n) == 2 by {
        assert n / 2 < TWO_53 && Spacing(n / 2) == 1;
      }
    }
    RoundExact(n);
  }

  /** 2^53 is tight: the next integer is not a double and rounds down. */
  lemma FirstInexact()
    ensures Round(TWO_53 + 1) == TWO_53
  {
    var n := TWO_53 + 1;
    assert n / 2 == 4503599627370496;
    assert Spacing(n / 2) == 1;
    assert Spacing(n) == 2;
  }

  /* ----- Round is rounding to the nearest double ----- */

  lemma {:induction false} Binade(n: nat)
    ensures n < TWO_53 * Spacing(n)
    ensures Level(n) > 0 ==> TWO_52 * Spacing(n) <= n
  {
    if n >= TWO_53 {
      Binade(n / 2);
    }
  }

  lemma {:induction false} LevelAtMost(n: nat, k: nat)
    requires n < TWO_53 * Pow2(k)
    ensures Level(n) <= k
  {
    if n >= TWO_53 {
      LevelAtMost(n / 2, k - 1);
    }
  }

  lemma {:induction false} LevelMonotone(m: nat, n: nat)
    requires m <= n
    ensures Level(m) <= Level(n)
  {
    if m >= TWO_53 {
      LevelMonotone(m / 2, n / 2);
    }
  }

  lemma MultipleOf(x: nat, a: nat, b: nat, c: nat)
    requires b >= 1 && x == a * (c * b)
    ensures x % b == 0
  {
    assert x == (a * c) * b;
    ModMultiple(a * c, b);
  }

  lemma {:induction false} ModMultiple(k: nat, b: nat)
    requires b >= 1
    ensures (k * b) % b == 0 && (k * b) / b == k
  {
    var q, r := (k * b) / b, (k * b) % b;
    assert k * b == q * b + r;
    if k < q { Below(k, q, b); } else if k > q { Below(q, k, b); }
  }

  /** A significand of at most 2^53 at any exponent is a double. */
  lemma MultipleIsExact(q: nat, k: nat)
    requires q <= TWO_53
    ensures Exact(q * Pow2(k))
    decreases TWO_53 - q + (if q == TWO_53 then TWO_53 else 0)
  {
    if q == TWO_53 {
      assert q * Pow2(k) == TWO_52 * Pow2(k + 1);
      MultipleIsExact(TWO_52, k + 1);
    } else {
      var m := q * Pow2(k);
      assert m < TWO_53 * Pow2(k) by { Below(q, TWO_53, Pow2(k)); }
      LevelAtMost(m, k);
      Pow2Divides(Level(m), k);
      MultipleOf(m, q, Pow2(Level(m)), Pow2(k - Level(m)));
    }
  }

  lemma Below(x: nat, y: nat, u: nat)
    requires x < y && u >= 1
    ensures x * u < y * u && (x + 1) * u <= y * u
  {
    assert y * u == (x + 1) * u + (y - x - 1) * u;
  }

  lemma QuotientBelow(n: nat, u: nat, limit: nat)
    requires u >= 1 && n < limit * u
    ensures n / u < limit
  {
    assert n == n / u * u + n % u;
    if limit < n / u { Below(limit, n / u, u); }
  }

  lemma QuotientAtLeast(n: nat, u: nat, least: nat)
    requires u >= 1 && least * u <= n
    ensures least <= n / u && least * u <= n / u * u
  {
    assert n == n / u * u + n % u;
    if n / u < least { Below(n / u, least, u); }
  }

  function Scaled(q: nat, k: nat): nat
  {
    q * Pow2(k)
  }

  /** The non-negative integers that binary64 represents: a significand of at most 53 bits times a power of two. */
  ghost predicate IsDouble(n: nat)
  {
    exists q: nat, k: nat :: q < 9007199254740992 && n == Scaled(q, k)
  }

  lemma ExactIsDouble(n: nat)
    ensures Exact(n) <==> IsDouble(n)
  {
    if Exact(n) {
      Binade(n);
      QuotientBelow(n, Spacing(n), TWO_53);
      WholeQuotient(n, Spacing(n));
      assert n == Scaled(n / Spacing(n), Level(n));
    }
    if q: nat, k: nat :| q < 9007199254740992 && n == Scaled(q, k) {
      MultipleIsExact(q, k);
    }
  }

  lemma WholeQuotient(n: nat, u: nat)
    requires u >= 1 && n % u == 0
    ensures n == n / u * u
  {
  }

  /** The result of rounding is a double. */
  lemma RoundIsDouble(n: nat)
    ensures IsDouble(Round(n))
  {
    RoundIsExact(n);
    ExactIsDouble(Round(n));
  }

  lemma RoundIsExact(n: nat)
    ensures Exact(Round(n))
  {
    var u := Spacing(n);
    Binade(n);
    QuotientBelow(n, u, TWO_53);
    MultipleIsExact(n / u, Level(n));
    MultipleIsExact(n / u + 1, Level(n));
  }

  lemma LowerBinade(d: nat, n: nat)
    requires d <= n && Level(d) != Level(n)
    ensures d < TWO_52 * Spacing(n) <= n
  {
    LevelMonotone(d, n);
    Binade(d);
    Binade(n);
    Pow2Monotone(Level(d) + 1, Level(n));
  }

  /** No double lies strictly between the two candidates of `Round`. */
  lemma NoneBetween(n: nat, d: nat)
    requires Exact(d)
    ensures d <= n ==> d <= n / Spacing(n) * Spacing(n)
    ensures d > n ==> (n / Spacing(n) + 1) * Spacing(n) <= d
  {
    var u, v := Spacing(n), Spacing(d);
    var w := d / v;
    assert d == w * v;
    if d > n {
      LevelMonotone(n, d);
      Pow2Divides(Level(n), Level(d));
      MultipleOf(d, w, u, Pow2(Level(d) - Level(n)));
      NextMultiple(n, d, u);
    } else if Level(d) == Level(n) {
      QuotientAtLeast(n, u, w);
    } else {
      LowerBinade(d, n);
      QuotientAtLeast(n, u, TWO_52);
    }
  }

  lemma NextMultiple(n: nat, d: nat, u: nat)
    requires u >= 1 && d > n && d % u == 0
    ensures (n / u + 1) * u <= d
  {
    var w := d / u;
    assert d == w * u && n == n / u * u + n % u;
    if w < n / u { Below(w, n / u, u); } else if w > n / u { Below(n / u, w, u); }
  }

  function Distance(x: nat, y: nat): nat
  {
    if x <= y then y - x else x - y
  }

  /** No double is nearer than the result. */
  lemma RoundNearest(n: nat, d: nat)
    requires IsDouble(d)
    ensures Distance(Round(n), n) <= Distance(d, n)
  {
    var u := Spacing(n);
    ExactIsDouble(d);
    NoneBetween(n, d);
    assert n == n / u * u + n % u;
    assert (n / u + 1) * u == n / u * u + u;
  }

  /** Of two doubles equally near the result is the one whose significand is even, on the scale of their distance. */
  lemma RoundTies(n: nat, d: nat)
    requires IsDouble(d) && d != Round(n) && Distance(d, n) == Distance(Round(n), n)
    ensures exists q: nat, k: nat :: Round(n) == Scaled(q, k) && q % 2 == 0 && Distance(d, Round(n)) == Pow2(k)
  {
    ExactIsDouble(d);
    NoneBetween(n, d);
    var k, q, lo := RoundParts(n);
    TieChoice(n, lo, Pow2(k), q, Round(n), d);
    if q % 2 == 0 {
      assert Round(n) == Scaled(q, k);
    } else {
      assert Round(n) == Scaled(q + 1, k) && (q + 1) % 2 == 0;
    }
  }

  /** The two candidates of `Round` and the choice between them. */
  lemma RoundParts(n: nat) returns (k: nat, q: nat, lo: nat)
    ensures k == Level(n) && q == n / Spacing(n) && lo == n / Spacing(n) * Spacing(n)
    ensures lo + Pow2(k) == (n / Spacing(n) + 1) * Spacing(n)
    ensures lo == Scaled(q, k) && lo + Pow2(k) == Scaled(q + 1, k) && lo <= n < lo + Pow2(k)
    ensures Round(n) == if 2 * (n - lo) < Pow2(k) || (2 * (n - lo) == Pow2(k) && q % 2 == 0) then lo else lo + Pow2(k)
  {
    k, q := Level(n), n / Spacing(n);
    lo := q * Spacing(n);
    Candidates(n, Spacing(n));
  }

  lemma Candidates(n: nat, u: nat)
    requires u >= 1
    ensures n / u * u <= n < n / u * u + u && n % u == n - n / u * u && (n / u + 1) * u == n / u * u + u
  {
  }

  /** A tie lies halfway between `lo` and `lo + u`. */
  lemma TieChoice(n: nat, lo: nat, u: nat, q: nat, result: nat, d: nat)
    requires lo <= n < lo + u && (d <= n ==> d <= lo) && (d > n ==> lo + u <= d)
    requires result == if 2 * (n - lo) < u || (2 * (n - lo) == u && q % 2 == 0) then lo else lo + u
    requires d != result && Distance(d, n) == Distance(result, n)
    ensures Distance(d, result) == u && (if q % 2 == 0 then result == lo else result == lo + u)
  {
  }
}
