/** Sums of an integer function over a finite set, independent of the order of summation. */
module Sums {
  ghost function SetSum<T(!new)>(s: set<T>, f: T -> int): int
  {
    if s == {} then 0
    else
      var x :| x in s;
      f(x) + SetSum(s - {x}, f)
  }

  lemma {:induction false} SetSumInsert<T(!new)>(s: set<T>, x: T, f: T -> int)
    requires x !in s
    ensures SetSum(s + {x}, f) == SetSum(s, f) + f(x)
    decreases s
  {
    var t := s + {x};
    var y :| y in t && SetSum(t, f) == f(y) + SetSum(t - {y}, f);
    if y == x {
      assert t - {y} == s;
    } else {
      var r := s - {y};
      assert t - {y} == r + {x};
      SetSumInsert(r, x, f);
      assert s == r + {y};
      SetSumInsert(r, y, f);
    }
  }

  lemma {:induction false} SetSumRemove<T(!new)>(s: set<T>, x: T, f: T -> int)
    requires x in s
    ensures SetSum(s, f) == SetSum(s - {x}, f) + f(x)
  {
    SetSumInsert(s - {x}, x, f);
    assert (s - {x}) + {x} == s;
  }

  lemma {:induction false} SetSumEqual<T(!new)>(s: set<T>, f: T -> int, g: T -> int)
    requires forall x :: x in s ==> f(x) == g(x)
    ensures SetSum(s, f) == SetSum(s, g)
    decreases s
  {
    if s != {} {
      var x :| x in s;
      SetSumEqual(s - {x}, f, g);
      SetSumRemove(s, x, f);
      SetSumRemove(s, x, g);
    }
  }

  lemma {:induction false} SetSumPlus<T(!new)>(s: set<T>, f: T -> int, g: T -> int, h: T -> int)
    requires forall x :: x in s ==> h(x) == f(x) + g(x)
    ensures SetSum(s, h) == SetSum(s, f) + SetSum(s, g)
    decreases s
  {
    if s != {} {
      var x :| x in s;
      SetSumPlus(s - {x}, f, g, h);
      SetSumRemove(s, x, f);
      SetSumRemove(s, x, g);
      SetSumRemove(s, x, h);
    }
  }

  lemma {:induction false} SetSumZero<T(!new)>(s: set<T>, f: T -> int)
    requires forall x :: x in s ==> f(x) == 0
    ensures SetSum(s, f) == 0
    decreases s
  {
    if s != {} {
      var x :| x in s;
      SetSumZero(s - {x}, f);
      SetSumRemove(s, x, f);
    }
  }

  /** A point mass: only `x` contributes. */
  lemma {:induction false} SetSumSingle<T(!new)>(s: set<T>, x: T, f: T -> int)
    requires x in s
    requires forall y :: y in s && y != x ==> f(y) == 0
    ensures SetSum(s, f) == f(x)
  {
    SetSumZero(s - {x}, f);
    SetSumRemove(s, x, f);
  }

  lemma {:induction false} SetSumUnion<T(!new)>(s: set<T>, t: set<T>, f: T -> int)
    requires s !! t
    ensures SetSum(s + t, f) == SetSum(s, f) + SetSum(t, f)
    decreases t
  {
    if t == {} {
      assert s + t == s;
    } else {
      var x :| x in t;
      SetSumUnion(s, t - {x}, f);
      SetSumInsert(s + (t - {x}), x, f);
      assert s + (t - {x}) + {x} == s + t;
      SetSumRemove(t, x, f);
    }
  }

  lemma {:induction false} SetSumNonNegative<T(!new)>(s: set<T>, f: T -> int)
    requires forall x :: x in s ==> f(x) >= 0
    ensures SetSum(s, f) >= 0
    decreases s
  {
    if s != {} {
      var x :| x in s;
      SetSumNonNegative(s - {x}, f);
      SetSumRemove(s, x, f);
    }
  }

  /** Terms of at least 1 make the sum at least the size of the set. */
  lemma {:induction false} SetSumAtLeastSize<T(!new)>(s: set<T>, f: T -> int)
    requires forall x :: x in s ==> f(x) >= 1
    ensures SetSum(s, f) >= |s|
    decreases s
  {
    if s != {} {
      var x :| x in s;
      SetSumAtLeastSize(s - {x}, f);
      SetSumRemove(s, x, f);
      assert |s| == |s - {x}| + 1;
    }
  }

  lemma {:induction false} SetSumAtMost<T(!new)>(s: set<T>, f: T -> int, hi: nat)
    requires forall x :: x in s ==> f(x) <= hi
    ensures SetSum(s, f) <= |s| * hi
    decreases s
  {
    if s != {} {
      var x :| x in s;
      SetSumAtMost(s - {x}, f, hi);
      SetSumRemove(s, x, f);
      Distribute(|s - {x}|, hi);
      assert |s| == |s - {x}| + 1;
    }
  }

  lemma Distribute(n: int, k: int)
    ensures (n + 1) * k == n * k + k
  {
  }

  /** Exchanging the order of a double sum of f(a)(b) == g(b)(a). */
  lemma {:induction false} SetSumExchange<A(!new), B(!new)>(s: set<A>, t: set<B>, f: A -> B -> int, g: B -> A -> int,
          rows: A -> int, cols: B -> int)
    requires forall a, b :: a in s && b in t ==> f(a)(b) == g(b)(a)
    requires forall a :: a in s ==> rows(a) == SetSum(t, f(a))
    requires forall b :: b in t ==> cols(b) == SetSum(s, g(b))
    ensures SetSum(s, rows) == SetSum(t, cols)
    decreases s
  {
    if s == {} {
      SetSumZero(t, cols);
    } else {
      var x :| x in s;
      var rest := (b: B) => SetSum(s - {x}, g(b));
      SetSumExchange(s - {x}, t, f, g, rows, rest);
      SetSumRemove(s, x, rows);
      forall b | b in t
        ensures cols(b) == f(x)(b) + rest(b)
      {
        SetSumRemove(s, x, g(b));
      }
      SetSumPlus(t, f(x), rest, cols);
    }
  }

  lemma {:induction false} SubsetSize<T>(a: set<T>, b: set<T>)
    requires a <= b
    ensures |a| <= |b|
    decreases a
  {
    if a != {} {
      var x :| x in a;
      SubsetSize(a - {x}, b - {x});
    }
  }
}
