/** A stable sort, as Array.prototype.sort is required to be. */
module StableSort {
  ghost predicate TotalPreorder<T(!new)>(le: (T, T) -> bool)
  {
    && (forall x, y :: le(x, y) || le(y, x))
    && (forall x, y, z :: le(x, y) && le(y, z) ==> le(x, z))
  }

  ghost predicate Sorted<T>(s: seq<T>, le: (T, T) -> bool)
  {
    forall i, j :: 0 <= i < j < |s| ==> le(s[i], s[j])
  }

  /** Puts `x` before the first element it does not exceed. */
  function Insert<T>(x: T, s: seq<T>, le: (T, T) -> bool): (r: seq<T>)
    ensures multiset(r) == multiset{x} + multiset(s)
  {
    if s == [] then [x]
    else if le(x, s[0]) then [x] + s
    else
      assert s == [s[0]] + s[1..];
      [s[0]] + Insert(x, s[1..], le)
  }

  function Sort<T>(s: seq<T>, le: (T, T) -> bool): (r: seq<T>)
    ensures multiset(r) == multiset(s)
  {
    if s == [] then []
    else
      assert s == [s[0]] + s[1..];
      Insert(s[0], Sort(s[1..], le), le)
  }

  /** The elements of `s` equivalent to `k`, in their order. */
  function Class<T>(s: seq<T>, k: T, le: (T, T) -> bool): seq<T>
  {
    if s == [] then []
    else (if le(s[0], k) && le(k, s[0]) then [s[0]] else []) + Class(s[1..], k, le)
  }

  lemma {:induction false} InsertSorted<T(!new)>(x: T, s: seq<T>, le: (T, T) -> bool)
    requires TotalPreorder(le) && Sorted(s, le)
    ensures Sorted(Insert(x, s, le), le)
  {
    if s != [] && !le(x, s[0]) {
      InsertSorted(x, s[1..], le);
      var r := Insert(x, s[1..], le);
      forall y | y in r
        ensures le(s[0], y)
      {
        assert y in multiset(r);
        assert y == x || y in s[1..];
      }
    }
  }

  lemma {:induction false} SortSorted<T(!new)>(s: seq<T>, le: (T, T) -> bool)
    requires TotalPreorder(le)
    ensures Sorted(Sort(s, le), le)
  {
    if s != [] {
      SortSorted(s[1..], le);
      InsertSorted(s[0], Sort(s[1..], le), le);
    }
  }

  function Match<T>(x: T, k: T, le: (T, T) -> bool): seq<T>
  {
    if le(x, k) && le(k, x) then [x] else []
  }

  lemma ClassCons<T>(x: T, s: seq<T>, k: T, le: (T, T) -> bool)
    ensures Class([x] + s, k, le) == Match(x, k, le) + Class(s, k, le)
  {
    assert ([x] + s)[1..] == s;
  }

  /** Behind an element `y` that is not equivalent to `x`. */
  lemma InsertBehind<T>(x: T, y: T, t: seq<T>, rest: seq<T>, k: T, le: (T, T) -> bool)
    requires Class(rest, k, le) == Match(x, k, le) + Class(t, k, le)
    requires Match(y, k, le) == [] || Match(x, k, le) == []
    ensures Class([y] + rest, k, le) == Match(x, k, le) + Class([y] + t, k, le)
  {
    ClassCons(y, t, k, le);
    ClassCons(y, rest, k, le);
    SwapEmpty(Match(y, k, le), Match(x, k, le), Class(t, k, le));
  }

  lemma SwapEmpty<T>(a: seq<T>, b: seq<T>, c: seq<T>)
    requires a == [] || b == []
    ensures a + (b + c) == b + (a + c)
  {
    if a == [] {
      assert a + (b + c) == b + c && a + c == c;
    } else {
      assert b + c == c && b + (a + c) == a + c;
    }
  }

  lemma {:induction false} InsertStable<T(!new)>(x: T, s: seq<T>, k: T, le: (T, T) -> bool)
    requires TotalPreorder(le)
    ensures Class(Insert(x, s, le), k, le) == Match(x, k, le) + Class(s, k, le)
  {
    if s == [] || le(x, s[0]) {
      ClassCons(x, s, k, le);
      assert Insert(x, s, le) == [x] + s;
    } else {
      InsertStable(x, s[1..], k, le);
      InsertBehind(x, s[0], s[1..], Insert(x, s[1..], le), k, le);
      assert s == [s[0]] + s[1..];
    }
  }

  /** Equivalent elements keep their order. */
  lemma {:induction false} SortStable<T(!new)>(s: seq<T>, k: T, le: (T, T) -> bool)
    requires TotalPreorder(le)
    ensures Class(Sort(s, le), k, le) == Class(s, k, le)
  {
    if s != [] {
      SortStable(s[1..], k, le);
      InsertStable(s[0], Sort(s[1..], le), k, le);
    }
  }

  /** A sorted sequence starts with an element that does not exceed any of its elements. */
  lemma FirstIsLeast<T(!new)>(a: seq<T>, x: T, le: (T, T) -> bool)
    requires Sorted(a, le) && a != [] && x in multiset(a) && le(a[0], a[0])
    ensures le(a[0], x)
  {
    var i :| 0 <= i < |a| && a[i] == x;
  }

  lemma RestOf<T>(a: seq<T>)
    requires a != []
    ensures multiset(a[1..]) == multiset(a) - multiset{a[0]}
  {
    assert a == [a[0]] + a[1..];
  }

  /** Equivalent elements of `m` are equal. */
  ghost predicate Strict<T(!new)>(m: multiset<T>, le: (T, T) -> bool)
  {
    forall x, y :: x in m && y in m && le(x, y) && le(y, x) ==> x == y
  }

  lemma StrictSubset<T(!new)>(m: multiset<T>, n: multiset<T>, le: (T, T) -> bool)
    requires m <= n && Strict(n, le)
    ensures Strict(m, le)
  {
  }

  lemma FirstsEqual<T(!new)>(a: seq<T>, b: seq<T>, le: (T, T) -> bool)
    requires Sorted(a, le) && Sorted(b, le) && multiset(a) == multiset(b) && a != []
    requires forall x :: le(x, x)
    requires Strict(multiset(a), le)
    ensures b != [] && a[0] == b[0]
  {
    assert b != [] by { assert a[0] in multiset(b); }
    assert a[0] in multiset(a) && b[0] in multiset(b);
    FirstIsLeast(a, b[0], le);
    FirstIsLeast(b, a[0], le);
  }

  lemma RestsAlike<T(!new)>(a: seq<T>, b: seq<T>, le: (T, T) -> bool)
    requires Sorted(a, le) && Sorted(b, le) && multiset(a) == multiset(b) && Strict(multiset(a), le)
    requires a != [] && b != [] && a[0] == b[0]
    ensures Sorted(a[1..], le) && Sorted(b[1..], le) && multiset(a[1..]) == multiset(b[1..])
        && Strict(multiset(a[1..]), le)
  {
    RestOf(a);
    RestOf(b);
    StrictSubset(multiset(a[1..]), multiset(a), le);
  }

  /** Two sorted arrangements of the same elements are equal when equivalent elements are equal. */
  lemma {:induction false} SortedUnique<T(!new)>(a: seq<T>, b: seq<T>, le: (T, T) -> bool)
    requires Sorted(a, le) && Sorted(b, le) && multiset(a) == multiset(b)
    requires forall x :: le(x, x)
    requires Strict(multiset(a), le)
    ensures a == b
  {
    if a == [] {
      assert b == [] by { assert |b| == |multiset(b)|; }
    } else {
      FirstsEqual(a, b, le);
      RestsAlike(a, b, le);
      SortedUnique(a[1..], b[1..], le);
      assert a == [a[0]] + a[1..] && b == [b[0]] + b[1..];
    }
  }
}
