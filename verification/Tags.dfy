/** Accounts and currencies of a sequence of lines, in order of first appearance, as a JavaScript Map keeps them. */
module Tags {
  import opened Types

  datatype Tag = Tag(account: AccountId, currency: string)

  function FirstSeen(tags: seq<Tag>, n: nat): seq<AccountId>
    requires n <= |tags|
  {
    if n == 0 then []
    else
      var before := FirstSeen(tags, n - 1);
      if tags[n - 1].account in before then before else before + [tags[n - 1].account]
  }

  /** The currency of the first line of an account. */
  function CurrencyFor(tags: seq<Tag>, account: AccountId): string
  {
    if tags == [] then ""
    else if tags[0].account == account then tags[0].currency
    else CurrencyFor(tags[1..], account)
  }

  predicate OneCurrencyEach(tags: seq<Tag>)
  {
    forall i, j :: 0 <= i < |tags| && 0 <= j < |tags| && tags[i].account == tags[j].account ==>
        tags[i].currency == tags[j].currency
  }

  lemma {:induction false} FirstSeenExact(tags: seq<Tag>, n: nat)
    requires n <= |tags|
    ensures forall i :: 0 <= i < n ==> tags[i].account in FirstSeen(tags, n)
    ensures forall a :: a in FirstSeen(tags, n) ==> exists i :: 0 <= i < n && tags[i].account == a
    ensures forall i, j :: 0 <= i < j < |FirstSeen(tags, n)| ==> FirstSeen(tags, n)[i] != FirstSeen(tags, n)[j]
  {
    if n > 0 {
      FirstSeenExact(tags, n - 1);
      assert tags[n - 1].account in FirstSeen(tags, n);
    }
  }

  /** Some line on `a` stands before every line on `b`. */
  predicate AppearsBefore(tags: seq<Tag>, a: AccountId, b: AccountId)
  {
    exists p :: 0 <= p < |tags| && tags[p].account == a && forall q :: 0 <= q <= p ==> tags[q].account != b
  }

  /** Accounts stand in the order in which they first appear. */
  lemma {:induction false} FirstSeenInOrder(tags: seq<Tag>, n: nat, i: nat, j: nat)
    requires n <= |tags| && i < j < |FirstSeen(tags, n)|
    ensures AppearsBefore(tags, FirstSeen(tags, n)[i], FirstSeen(tags, n)[j])
  {
    var before := FirstSeen(tags, n - 1);
    if j < |before| {
      FirstSeenInOrder(tags, n - 1, i, j);
    } else {
      FirstSeenExact(tags, n - 1);
      assert before[i] in before;
      var p :| 0 <= p < n - 1 && tags[p].account == before[i];
      assert forall q :: 0 <= q <= p ==> tags[q].account in before;
    }
  }

  lemma {:induction false} CurrencyForFirst(tags: seq<Tag>, account: AccountId, i: nat)
    requires i < |tags| && tags[i].account == account
    requires forall j :: 0 <= j < i ==> tags[j].account != account
    ensures CurrencyFor(tags, account) == tags[i].currency
    decreases i
  {
    if i > 0 {
      CurrencyForFirst(tags[1..], account, i - 1);
    }
  }

  /** With one currency per account any line of the account tells it. */
  lemma {:induction false} CurrencyForAny(tags: seq<Tag>, account: AccountId, i: nat)
    requires OneCurrencyEach(tags) && i < |tags| && tags[i].account == account
    ensures CurrencyFor(tags, account) == tags[i].currency
    decreases |tags|
  {
    if tags[0].account != account {
      assert tags[1..][i - 1] == tags[i];
      forall p, q | 0 <= p < |tags[1..]| && 0 <= q < |tags[1..]| && tags[1..][p].account == tags[1..][q].account
        ensures tags[1..][p].currency == tags[1..][q].currency
      {
        assert tags[1..][p] == tags[p + 1] && tags[1..][q] == tags[q + 1];
      }
      CurrencyForAny(tags[1..], account, i - 1);
    }
  }
}
