/** Rearranging a sequence, element by element. */
module Permutations {
  function Map<A, B>(f: A -> B, s: seq<A>): (r: seq<B>)
    ensures |r| == |s|
    ensures forall i :: 0 <= i < |s| ==> r[i] == f(s[i])
  {
    seq(|s|, i requires 0 <= i < |s| => f(s[i]))
  }

  lemma {:induction false} MultisetWithout<T>(a: seq<T>, j: nat)
    requires j < |a|
    ensures multiset(a[..j] + a[j + 1..]) == multiset(a) - multiset{a[j]}
    ensures multiset(a) == multiset(a[..j] + a[j + 1..]) + multiset{a[j]}
  {
    assert a == a[..j] + ([a[j]] + a[j + 1..]);
  }

  lemma MapWithout<A, B>(f: A -> B, a: seq<A>, j: nat)
    requires j < |a|
    ensures multiset(Map(f, a)) == multiset(Map(f, a[..j] + a[j + 1..])) + multiset{f(a[j])}
  {
    var m := Map(f, a);
    assert Map(f, a[..j] + a[j + 1..]) == m[..j] + m[j + 1..];
    MultisetWithout(m, j);
  }

  /** Where the first element of one arrangement stands in another one; the rests are arrangements of each other. */
  lemma {:induction false} Partner<T>(a: seq<T>, b: seq<T>) returns (j: nat)
    requires multiset(a) == multiset(b) && a != []
    ensures j < |b| && b[j] == a[0] && multiset(a[..0] + a[1..]) == multiset(b[..j] + b[j + 1..])
  {
    assert a[0] in multiset(b);
    j :| 0 <= j < |b| && b[j] == a[0];
    MultisetWithout(a, 0);
    MultisetWithout(b, j);
  }

  /** Mapping keeps a permutation a permutation. */
  lemma {:induction false} MapPermutation<A, B>(f: A -> B, a: seq<A>, b: seq<A>)
    requires multiset(a) == multiset(b)
    ensures multiset(Map(f, a)) == multiset(Map(f, b))
    decreases |a|
  {
    if a == [] {
      assert b == [] by { assert |b| == |multiset(b)|; }
    } else {
      var j := Partner(a, b);
      MapPermutation(f, a[..0] + a[1..], b[..j] + b[j + 1..]);
      MapWithout(f, a, 0);
      MapWithout(f, b, j);
    }
  }

  predicate Distinct<T(==)>(s: seq<T>)
  {
    forall i, j :: 0 <= i < j < |s| ==> s[i] != s[j]
  }

  lemma {:induction false} DistinctOnce<T>(s: seq<T>, x: T)
    requires Distinct(s)
    ensures multiset(s)[x] <= 1
  {
    if s != [] {
      var init, last := s[..|s| - 1], s[|s| - 1];
      assert s == init + [last];
      DistinctOnce(init, x);
      assert last !in init;
    }
  }

  lemma RepeatedTwice<T>(s: seq<T>, i: nat, j: nat)
    requires i < j < |s| && s[i] == s[j]
    ensures multiset(s)[s[i]] >= 2
  {
    assert s == s[..j] + [s[j]] + s[j + 1..];
    assert s[..j][i] == s[j];
  }

  /** Rearranging keeps elements distinct. */
  lemma DistinctPermutation<T>(a: seq<T>, b: seq<T>)
    requires multiset(a) == multiset(b) && Distinct(b)
    ensures Distinct(a)
  {
    forall i, j | 0 <= i < j < |a|
      ensures a[i] != a[j]
    {
      DistinctOnce(b, a[i]);
      if a[i] == a[j] { RepeatedTwice(a, i, j); }
    }
  }
}
