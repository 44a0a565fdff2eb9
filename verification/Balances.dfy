/** balancePerAccount: the balance of every account that journal lines post to. */
module Balances {
  import opened Wrappers
  import opened Types
  import opened Permutations
  import opened Legs
  import opened Tags
  import opened Money
  import opened Posting

  /** One value of the Map that balancePerAccount returns; the Map is the sequence of its values in insertion order. */
  datatype AccountBalance = AccountBalance(account: AccountId, currency: string, debitTotal: Sum, creditTotal: Sum,
      net: Sum)

  datatype Tally = Tally(currency: string, debit: int, credit: int)

  function TagOf(line: EntryLine): Tag
  {
    Tag(line.account, line.amount.currency)
  }

  function EntryTags(lines: seq<EntryLine>): seq<Tag>
  {
    Map(TagOf, lines)
  }

  predicate AllCurrenciesValid(lines: seq<EntryLine>)
  {
    forall i :: 0 <= i < |lines| ==> CurrencyCode(lines[i].amount.currency)
  }

  function Totals(lines: seq<EntryLine>, account: AccountId): AccountBalance
  {
    var currency := CurrencyFor(EntryTags(lines), account);
    var debit, credit := SumOn(EntryLegs(lines), account, true), SumOn(EntryLegs(lines), account, false);
    AccountBalance(account, currency, Sum(debit, currency), Sum(credit, currency), Sum(debit - credit, currency))
  }

  /** What balancePerAccount computes: per account, in order of first appearance, the exact sums of its lines. */
  function PerAccount(lines: seq<EntryLine>): Result<seq<AccountBalance>, ErrorCode>
  {
    if lines == [] then Failure(InvalidInput)
    else if !OneCurrencyEach(EntryTags(lines)) then Failure(CurrencyMismatch)
    else if !AllCurrenciesValid(lines) then Failure(InvalidInput)
    else Success(Map((a: AccountId) => Totals(lines, a), FirstSeen(EntryTags(lines), |EntryTags(lines)|)))
  }

  /** The tallies after the first `n` lines. */
  predicate TalliesExact(lines: seq<EntryLine>, n: nat, byAccount: map<AccountId, Tally>)
    requires n <= |lines|
  {
    && (forall j :: 0 <= j < n ==>
          lines[j].account in byAccount && byAccount[lines[j].account].currency == lines[j].amount.currency)
    && (forall a :: a in byAccount ==>
          byAccount[a].debit == SumUpTo(EntryLegs(lines), n, a, true)
              && byAccount[a].credit == SumUpTo(EntryLegs(lines), n, a, false))
  }

  lemma NewAccountIsZero(lines: seq<EntryLine>, n: nat, account: AccountId)
    requires n <= |lines| && forall j :: 0 <= j < n ==> lines[j].account != account
    ensures SumUpTo(EntryLegs(lines), n, account, true) == 0 && SumUpTo(EntryLegs(lines), n, account, false) == 0
  {
    UntouchedIsZero(EntryLegs(lines), n, account, true);
    UntouchedIsZero(EntryLegs(lines), n, account, false);
  }

  lemma NextTally(lines: seq<EntryLine>, n: nat, account: AccountId)
    requires n < |lines|
    ensures SumUpTo(EntryLegs(lines), n + 1, account, true) == SumUpTo(EntryLegs(lines), n, account, true)
              + (if lines[n].account == account && lines[n].side == Debit then lines[n].amount.amount else 0)
    ensures SumUpTo(EntryLegs(lines), n + 1, account, false) == SumUpTo(EntryLegs(lines), n, account, false)
              + (if lines[n].account == account && lines[n].side == Credit then lines[n].amount.amount else 0)
  {
  }

  /** The tallies after one more line in a matching currency. */
  function Tallied(byAccount: map<AccountId, Tally>, line: EntryLine): map<AccountId, Tally>
  {
    var t := if line.account in byAccount then byAccount[line.account] else Tally(line.amount.currency, 0, 0);
    byAccount[line.account := if line.side == Debit then t.(debit := t.debit + line.amount.amount)
        else t.(credit := t.credit + line.amount.amount)]
  }

  predicate AccountsSeen(lines: seq<EntryLine>, n: nat, byAccount: map<AccountId, Tally>)
    requires n <= |lines|
  {
    forall a :: a in byAccount ==> exists j :: 0 <= j < n && lines[j].account == a
  }

  lemma {:induction false} TalliedExact(lines: seq<EntryLine>, n: nat, byAccount: map<AccountId, Tally>)
    requires n < |lines| && TalliesExact(lines, n, byAccount)
    requires lines[n].account in byAccount ==> byAccount[lines[n].account].currency == lines[n].amount.currency
    ensures TalliesExact(lines, n + 1, Tallied(byAccount, lines[n]))
  {
    if lines[n].account !in byAccount {
      NewAccountIsZero(lines, n, lines[n].account);
    }
    forall a | a in Tallied(byAccount, lines[n])
      ensures Tallied(byAccount, lines[n])[a].debit == SumUpTo(EntryLegs(lines), n + 1, a, true)
      ensures Tallied(byAccount, lines[n])[a].credit == SumUpTo(EntryLegs(lines), n + 1, a, false)
    {
      NextTally(lines, n, a);
    }
  }

  lemma {:induction false} AccountsSeenNext(lines: seq<EntryLine>, n: nat, byAccount: map<AccountId, Tally>)
    requires n < |lines| && AccountsSeen(lines, n, byAccount)
    ensures AccountsSeen(lines, n + 1, Tallied(byAccount, lines[n]))
  {
    forall a | a in Tallied(byAccount, lines[n])
      ensures exists j :: 0 <= j < n + 1 && lines[j].account == a
    {
      if a == lines[n].account {
        assert lines[n].account == a;
      } else {
        var j :| 0 <= j < n && lines[j].account == a;
        assert lines[j].account == a;
      }
    }
  }

  lemma {:induction false} FirstSeenNext(lines: seq<EntryLine>, n: nat)
    requires n < |lines|
    ensures var before := FirstSeen(EntryTags(lines), n);
            FirstSeen(EntryTags(lines), n + 1) == if lines[n].account in before then before
                else before + [lines[n].account]
  {
  }

  lemma {:induction false} UpdateTwice<K, V>(m: map<K, V>, k: K, v: V, w: V)
    ensures m[k := v][k := w] == m[k := w]
  {
  }

  /** What the loop has after `n` lines in matching currencies. */
  ghost predicate Accumulated(lines: seq<EntryLine>, n: nat, byAccount: map<AccountId, Tally>, order: seq<AccountId>)
    requires n <= |lines|
  {
    && TalliesExact(lines, n, byAccount) && AccountsSeen(lines, n, byAccount)
    && order == FirstSeen(EntryTags(lines), n)
    && forall a :: a in byAccount <==> a in order
  }

  function Ordered(order: seq<AccountId>, account: AccountId): seq<AccountId>
  {
    if account in order then order else order + [account]
  }

  lemma {:induction false} AccumulatedNext(lines: seq<EntryLine>, n: nat, byAccount: map<AccountId, Tally>,
          order: seq<AccountId>)
    requires n < |lines| && Accumulated(lines, n, byAccount, order)
    requires lines[n].account in byAccount ==> byAccount[lines[n].account].currency == lines[n].amount.currency
    ensures Accumulated(lines, n + 1, Tallied(byAccount, lines[n]), Ordered(order, lines[n].account))
  {
    TalliedExact(lines, n, byAccount);
    AccountsSeenNext(lines, n, byAccount);
    FirstSeenNext(lines, n);
  }

  /** The body of the accumulation loop. */
  method AddLine(byAccount: map<AccountId, Tally>, order: seq<AccountId>, line: EntryLine)
    returns (byAccount': map<AccountId, Tally>, order': seq<AccountId>)
    requires line.account in byAccount <==> line.account in order
    ensures byAccount' == Tallied(byAccount, line) && order' == Ordered(order, line.account)
  {
    byAccount', order' := byAccount, order;
    if line.account !in byAccount' {
      byAccount' := byAccount'[line.account := Tally(line.amount.currency, 0, 0)];
      order' := order' + [line.account];
    }
    var tally := byAccount'[line.account];
    var next := if line.side == Debit then tally.(debit := tally.debit + line.amount.amount)
        else tally.(credit := tally.credit + line.amount.amount);
    UpdateTwice(byAccount, line.account, Tally(line.amount.currency, 0, 0), next);
    byAccount' := byAccount'[line.account := next];
  }

  /** The accumulation loop of balancePerAccount. */
  method Accumulate(lines: seq<EntryLine>)
    returns (byAccount: map<AccountId, Tally>, order: seq<AccountId>, mismatch: bool)
    ensures mismatch <==> !OneCurrencyEach(EntryTags(lines))
    ensures !mismatch ==> Accumulated(lines, |lines|, byAccount, order)
  {
    byAccount, order, mismatch := map[], [], false;
    var i := 0;
    while i < |lines|
      invariant 0 <= i <= |lines|
      invariant Accumulated(lines, i, byAccount, order)
    {
      var line := lines[i];
      if line.account in byAccount && byAccount[line.account].currency != line.amount.currency {
        Mismatched(lines, i, byAccount);
        mismatch := true;
        return;
      }
      AccumulatedNext(lines, i, byAccount, order);
      byAccount, order := AddLine(byAccount, order, line);
      i := i + 1;
    }
    OneCurrencyFromTallies(lines, byAccount);
  }

  lemma Mismatched(lines: seq<EntryLine>, i: nat, byAccount: map<AccountId, Tally>)
    requires i < |lines| && TalliesExact(lines, i, byAccount) && AccountsSeen(lines, i, byAccount)
    requires lines[i].account in byAccount && byAccount[lines[i].account].currency != lines[i].amount.currency
    ensures !OneCurrencyEach(EntryTags(lines))
  {
    var j :| 0 <= j < i && lines[j].account == lines[i].account;
    assert EntryTags(lines)[j].account == EntryTags(lines)[i].account;
    assert EntryTags(lines)[j].currency != EntryTags(lines)[i].currency;
  }

  lemma OneCurrencyFromTallies(lines: seq<EntryLine>, byAccount: map<AccountId, Tally>)
    requires TalliesExact(lines, |lines|, byAccount)
    ensures OneCurrencyEach(EntryTags(lines))
  {
    forall i, j | 0 <= i < |lines| && 0 <= j < |lines| && lines[i].account == lines[j].account
      ensures lines[i].amount.currency == lines[j].amount.currency
    {
      assert byAccount[lines[i].account].currency == lines[i].amount.currency;
    }
  }

  /** The value that the second loop makes of one tally. */
  function Valued(account: AccountId, tally: Tally): AccountBalance
  {
    AccountBalance(account, tally.currency, Sum(tally.debit, tally.currency), Sum(tally.credit, tally.currency),
                   Sum(tally.debit - tally.credit, tally.currency))
  }

  /** The second loop of balancePerAccount, which stops at the first currency that money() refuses. */
  method ValuesOf(byAccount: map<AccountId, Tally>, order: seq<AccountId>)
    returns (values: seq<AccountBalance>, valid: bool)
    requires forall j :: 0 <= j < |order| ==> order[j] in byAccount
    ensures valid <==> forall j :: 0 <= j < |order| ==> CurrencyCode(byAccount[order[j]].currency)
    ensures valid ==> |values| == |order| && forall j :: 0 <= j < |order| ==>
        values[j] == Valued(order[j], byAccount[order[j]])
  {
    values, valid := [], true;
    var i := 0;
    while i < |order|
      invariant 0 <= i <= |order|
      invariant |values| == i && forall j :: 0 <= j < i ==> values[j] == Valued(order[j], byAccount[order[j]])
      invariant forall j :: 0 <= j < i ==> CurrencyCode(byAccount[order[j]].currency)
    {
      var tally := byAccount[order[i]];
      // money() refuses the currency for all three amounts alike.
      if !CurrencyCode(tally.currency) {
        valid := false;
        return;
      }
      values := values + [Valued(order[i], tally)];
      i := i + 1;
    }
  }

  method BalancePerAccount(lines: seq<EntryLine>) returns (r: Result<seq<AccountBalance>, ErrorCode>)
    ensures r == PerAccount(lines)
  {
    if |lines| == 0 {
      return Failure(InvalidInput);
    }
    var byAccount, order, mismatch := Accumulate(lines);
    if mismatch {
      return Failure(CurrencyMismatch);
    }
    var values, valid := ValuesOf(byAccount, order);
    if !valid {
      var j :| 0 <= j < |order| && !CurrencyCode(byAccount[order[j]].currency);
      TallyCurrency(lines, byAccount, order, order[j]);
      return Failure(InvalidInput);
    }
    CurrenciesChecked(lines, byAccount, order);
    ValuesExact(lines, byAccount, order, values);
    return Success(values);
  }

  lemma {:induction false} ValuesExact(lines: seq<EntryLine>, byAccount: map<AccountId, Tally>,
          order: seq<AccountId>, values: seq<AccountBalance>)
    requires TalliesExact(lines, |lines|, byAccount) && OneCurrencyEach(EntryTags(lines))
    requires order == FirstSeen(EntryTags(lines), |lines|) && |values| == |order|
    requires forall j :: 0 <= j < |order| ==>
        order[j] in byAccount && values[j] == Valued(order[j], byAccount[order[j]])
    ensures values == Map((a: AccountId) => Totals(lines, a), order)
  {
    var want := Map((a: AccountId) => Totals(lines, a), order);
    forall j | 0 <= j < |order|
      ensures values[j] == want[j]
    {
      TallyCurrency(lines, byAccount, order, order[j]);
    }
  }

  lemma TallyCurrency(lines: seq<EntryLine>, byAccount: map<AccountId, Tally>, order: seq<AccountId>, a: AccountId)
    requires TalliesExact(lines, |lines|, byAccount) && OneCurrencyEach(EntryTags(lines))
    requires order == FirstSeen(EntryTags(lines), |lines|) && a in order && a in byAccount
    ensures byAccount[a].currency == CurrencyFor(EntryTags(lines), a)
    ensures !CurrencyCode(byAccount[a].currency) ==> !AllCurrenciesValid(lines)
  {
    FirstSeenExact(EntryTags(lines), |lines|);
    var j :| 0 <= j < |lines| && EntryTags(lines)[j].account == a;
    CurrencyForAny(EntryTags(lines), a, j);
    assert lines[j].account == a && byAccount[lines[j].account].currency == lines[j].amount.currency;
  }

  lemma {:induction false} CurrenciesChecked(lines: seq<EntryLine>, byAccount: map<AccountId, Tally>,
          order: seq<AccountId>)
    requires TalliesExact(lines, |lines|, byAccount) && order == FirstSeen(EntryTags(lines), |lines|)
    requires forall j :: 0 <= j < |order| ==> order[j] in byAccount && CurrencyCode(byAccount[order[j]].currency)
    ensures AllCurrenciesValid(lines)
  {
    FirstSeenExact(EntryTags(lines), |lines|);
    forall i | 0 <= i < |lines|
      ensures CurrencyCode(lines[i].amount.currency)
    {
      assert EntryTags(lines)[i].account in order;
      var j :| 0 <= j < |order| && order[j] == lines[i].account;
      assert CurrencyCode(byAccount[order[j]].currency);
    }
  }

  /* ----- Reading a result ----- */

  /** getAccountBalance on a computed result. */
  function Find(values: seq<AccountBalance>, account: AccountId): Option<AccountBalance>
  {
    if values == [] then None
    else if values[0].account == account then Some(values[0])
    else Find(values[1..], account)
  }

  lemma {:induction false} FindMapped(lines: seq<EntryLine>, order: seq<AccountId>, account: AccountId)
    ensures Find(Map((a: AccountId) => Totals(lines, a), order), account) == if account in order
        then Some(Totals(lines, account)) else None
    decreases |order|
  {
    var f := (a: AccountId) => Totals(lines, a);
    if order != [] {
      assert Map(f, order)[1..] == Map(f, order[1..]);
      FindMapped(lines, order[1..], account);
    }
  }

  /** Debit and credit total of an account in a result; an absent account has none. */
  function ReadTotals(values: seq<AccountBalance>, account: AccountId): (int, int)
  {
    match Find(values, account)
    case None => (0, 0)
    case Some(b) => (b.debitTotal.amount, b.creditTotal.amount)
  }

  /** Every account reads exactly the sums of its lines, and only accounts with lines are present. */
  lemma TotalsExact(lines: seq<EntryLine>, account: AccountId)
    requires PerAccount(lines).Success?
    ensures ReadTotals(PerAccount(lines).value, account)
        == (SumOn(EntryLegs(lines), account, true), SumOn(EntryLegs(lines), account, false))
    ensures Find(PerAccount(lines).value, account).Some? <==>
        exists i :: 0 <= i < |lines| && lines[i].account == account
    ensures Find(PerAccount(lines).value, account).Some? ==>
              var b := Find(PerAccount(lines).value, account).value;
              var debit, credit := SumOn(EntryLegs(lines), account, true), SumOn(EntryLegs(lines), account, false);
              b == AccountBalance(account, b.currency, Sum(debit, b.currency), Sum(credit, b.currency),
                  Sum(debit - credit, b.currency))
  {
    var tags := EntryTags(lines);
    FirstSeenExact(tags, |tags|);
    FindMapped(lines, FirstSeen(tags, |tags|), account);
    if account !in FirstSeen(tags, |tags|) {
      forall i | 0 <= i < |lines|
        ensures lines[i].account != account
      {
        assert tags[i].account in FirstSeen(tags, |tags|);
      }
      NewAccountIsZero(lines, |lines|, account);
    } else {
      var i :| 0 <= i < |tags| && tags[i].account == account;
      assert lines[i].account == account;
    }
  }

  /** The balance of an account is in the currency of its lines. */
  lemma CurrencyOfLines(lines: seq<EntryLine>, i: nat)
    requires PerAccount(lines).Success? && i < |lines|
    ensures Find(PerAccount(lines).value, lines[i].account).Some?
    ensures Find(PerAccount(lines).value, lines[i].account).value.currency == lines[i].amount.currency
  {
    var tags := EntryTags(lines);
    FirstSeenExact(tags, |tags|);
    FindMapped(lines, FirstSeen(tags, |tags|), lines[i].account);
    assert tags[i].account in FirstSeen(tags, |tags|);
    CurrencyForAny(tags, lines[i].account, i);
  }

  /** The balances stand in the order in which their accounts first appear. */
  lemma OrderOfAppearance(lines: seq<EntryLine>, i: nat, j: nat)
    requires PerAccount(lines).Success? && i < j < |PerAccount(lines).value|
    ensures var values := PerAccount(lines).value;
            AppearsBefore(EntryTags(lines), values[i].account, values[j].account)
  {
    FirstSeenInOrder(EntryTags(lines), |lines|, i, j);
  }

  /** Two lines on one account in different currencies. */
  predicate Clashes(lines: seq<EntryLine>)
  {
    exists i, j ::
      0 <= i < |lines| && 0 <= j < |lines| && lines[i].account == lines[j].account &&
      lines[i].amount.currency != lines[j].amount.currency
  }

  /** Which lines have no balances, and why: a clash of currencies comes before a currency that money() refuses. */
  lemma BalanceErrors(lines: seq<EntryLine>)
    ensures PerAccount(lines) == Failure(CurrencyMismatch) <==> Clashes(lines)
    ensures PerAccount(lines) == Failure(InvalidInput) <==>
              || lines == []
              || (!Clashes(lines) && exists i :: 0 <= i < |lines| && !CurrencyCode(lines[i].amount.currency))
    ensures PerAccount(lines).Success? || PerAccount(lines).error in {CurrencyMismatch, InvalidInput}
  {
    var tags := EntryTags(lines);
    assert |tags| == |lines|;
    assert forall i :: 0 <= i < |lines| ==>
        tags[i].account == lines[i].account && tags[i].currency == lines[i].amount.currency;
    if Clashes(lines) {
      var i, j :| 0 <= i < |lines| && 0 <= j < |lines| && lines[i].account == lines[j].account
        && lines[i].amount.currency != lines[j].amount.currency;
      assert tags[i].account == tags[j].account && tags[i].currency != tags[j].currency;
    }
  }

  lemma ConcatLegs(a: seq<EntryLine>, b: seq<EntryLine>, account: AccountId, debit: bool)
    ensures SumOn(EntryLegs(a + b), account, debit)
        == SumOn(EntryLegs(a), account, debit) + SumOn(EntryLegs(b), account, debit)
  {
    assert EntryLegs(a + b) == EntryLegs(a) + EntryLegs(b);
    SumConcat(EntryLegs(a), EntryLegs(b), account, debit);
  }

  lemma ConcatSides(a: seq<EntryLine>, b: seq<EntryLine>, debit: bool)
    ensures Side(EntryLegs(a + b), debit) == Side(EntryLegs(a), debit) + Side(EntryLegs(b), debit)
  {
    assert EntryLegs(a + b) == EntryLegs(a) + EntryLegs(b);
    SumConcat(EntryLegs(a), EntryLegs(b), 0, debit);
  }

  /** Accounts that both histories post to have one currency. */
  predicate CurrenciesAgree(a: seq<EntryLine>, b: seq<EntryLine>)
  {
    forall i, j :: 0 <= i < |a| && 0 <= j < |b| && a[i].account == b[j].account ==>
        a[i].amount.currency == b[j].amount.currency
  }

  lemma ConcatTags(a: seq<EntryLine>, b: seq<EntryLine>)
    ensures OneCurrencyEach(EntryTags(a + b)) <==>
              OneCurrencyEach(EntryTags(a)) && OneCurrencyEach(EntryTags(b)) && CurrenciesAgree(a, b)
  {
    var ta, tb, t := EntryTags(a), EntryTags(b), EntryTags(a + b);
    assert t == ta + tb;
    if OneCurrencyEach(t) {
      forall i, j | 0 <= i < |a| && 0 <= j < |b| && a[i].account == b[j].account
        ensures a[i].amount.currency == b[j].amount.currency
      {
        assert t[i] == ta[i] && t[|a| + j] == tb[j];
      }
      assert forall i :: 0 <= i < |a| ==> ta[i] == t[i];
      assert forall j :: 0 <= j < |b| ==> tb[j] == t[|a| + j];
    }
  }

  lemma ConcatCurrencies(a: seq<EntryLine>, b: seq<EntryLine>)
    ensures AllCurrenciesValid(a + b) <==> AllCurrenciesValid(a) && AllCurrenciesValid(b)
  {
    assert forall i :: 0 <= i < |a| ==> (a + b)[i] == a[i];
    assert forall j :: 0 <= j < |b| ==> (a + b)[|a| + j] == b[j];
  }

  /**
   * Two histories have balances together exactly when each that has lines has balances and they agree on
   * currencies.
   */
  lemma ConcatSucceeds(a: seq<EntryLine>, b: seq<EntryLine>)
    ensures PerAccount(a + b).Success? <==>
              && (a != [] || b != []) && CurrenciesAgree(a, b)
              && (a != [] ==> PerAccount(a).Success?) && (b != [] ==> PerAccount(b).Success?)
  {
    ConcatTags(a, b);
    ConcatCurrencies(a, b);
  }

  /** The balances of two histories one after the other are the pointwise sums of their balances. */
  lemma BalancesOfConcat(a: seq<EntryLine>, b: seq<EntryLine>, account: AccountId)
    requires PerAccount(a).Success? && PerAccount(b).Success? && CurrenciesAgree(a, b)
    ensures PerAccount(a + b).Success?
    ensures ReadTotals(PerAccount(a + b).value, account).0
        == ReadTotals(PerAccount(a).value, account).0 + ReadTotals(PerAccount(b).value, account).0
    ensures ReadTotals(PerAccount(a + b).value, account).1
        == ReadTotals(PerAccount(a).value, account).1 + ReadTotals(PerAccount(b).value, account).1
  {
    ConcatSucceeds(a, b);
    TotalsExact(a, account);
    TotalsExact(b, account);
    TotalsExact(a + b, account);
    ConcatLegs(a, b, account, true);
    ConcatLegs(a, b, account, false);
  }
}
