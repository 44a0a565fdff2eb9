/** validateEntry: the double-entry rules and the canonical order of lines. */
module Posting {
  import opened Wrappers
  import opened Types
  import opened Legs
  import opened Permutations
  import opened Money
  import opened StableSort
  import Decimal

  datatype EntryLine = EntryLine(account: AccountId, side: Direction, amount: Sum, memo: Option<string>)

  datatype EntryInput = EntryInput(
    tenantId: string, idempotencyKey: string, bookingDate: string, currency: string, memo: Option<string>,
    lines: seq<EntryLine>)

  datatype ValidatedEntry = ValidatedEntry(
    tenantId: string, idempotencyKey: string, bookingDate: string, currency: string, memo: Option<string>,
    lines: seq<EntryLine>, totalDebit: Sum, totalCredit: Sum)

  predicate DigitAt(s: string, i: nat)
    requires i < |s|
  {
    '0' <= s[i] <= '9'
  }

  /** YYYY-MM-DD, digits only */
  predicate BookingDate(s: string)
  {
    && |s| == 10 && s[4] == '-' && s[7] == '-'
    && DigitAt(s, 0) && DigitAt(s, 1) && DigitAt(s, 2) && DigitAt(s, 3)
    && DigitAt(s, 5) && DigitAt(s, 6) && DigitAt(s, 8) && DigitAt(s, 9)
  }

  /** A booking date is four digits, two digits and two digits with hyphens between them, and nothing else. */
  lemma BookingDateExact(s: string)
    ensures BookingDate(s) <==>
              exists y: string, m: string, d: string ::
                && |y| == 4 && |m| == 2 && |d| == 2
                && Decimal.IsDigits(y) && Decimal.IsDigits(m) && Decimal.IsDigits(d)
                && s == y + "-" + m + "-" + d
  {
    if BookingDate(s) {
      var y, m, d := s[..4], s[5..7], s[8..];
      assert s == y + "-" + m + "-" + d;
      assert Decimal.IsDigits(y) && Decimal.IsDigits(m) && Decimal.IsDigits(d);
    }
  }

  /** The error that one line raises, if any. */
  function LineError(line: EntryLine, currency: string): Option<ErrorCode>
  {
    if line.account == 0 then Some(InvalidInput)
    else if line.amount.amount < 0 then Some(NegativeAmount)
    else if line.amount.amount == 0 then Some(InvalidInput)
    else if line.amount.currency != currency then Some(CurrencyMismatch)
    else None
  }

  /** The loop over the lines stops at the first one that raises an error. */
  function LinesError(lines: seq<EntryLine>, currency: string): Option<ErrorCode>
  {
    if lines == [] then None
    else if LineError(lines[0], currency).Some? then LineError(lines[0], currency)
    else LinesError(lines[1..], currency)
  }

  /** The amounts of one side among the first `n` lines: filter, then map. */
  function SideAmounts(lines: seq<EntryLine>, n: nat, side: Direction): seq<Sum>
    requires n <= |lines|
  {
    if n == 0 then []
    else SideAmounts(lines, n - 1, side) + (if lines[n - 1].side == side then [lines[n - 1].amount] else [])
  }

  /** The comparator: account, then debits first, then amount; memo plays no part. */
  predicate LineLe(a: EntryLine, b: EntryLine)
  {
    a.account < b.account ||
    (a.account == b.account &&
      ((a.side == Debit && b.side == Credit) || (a.side == b.side && a.amount.amount <= b.amount.amount)))
  }

  /** The checks that come before any sum. */
  function FormError(input: EntryInput): Option<ErrorCode>
  {
    if input.tenantId == "" then Some(InvalidInput)
    else if input.idempotencyKey == "" || |input.idempotencyKey| > 128 then Some(InvalidInput)
    else if !BookingDate(input.bookingDate) then Some(InvalidDate)
    else if |input.lines| < 2 then Some(EmptyLines)
    else LinesError(input.lines, input.currency)
  }

  function ValidateEntry(input: EntryInput): Result<ValidatedEntry, ErrorCode>
  {
    if FormError(input).Some? then Failure(FormError(input).value)
    else
      var debits := SideAmounts(input.lines, |input.lines|, Debit);
      var credits := SideAmounts(input.lines, |input.lines|, Credit);
      if debits == [] || credits == [] then Failure(UnbalancedEntry)
      else
        var totalDebit :- SumMoney(debits);
        var totalCredit :- SumMoney(credits);
        if totalDebit.amount != totalCredit.amount then Failure(UnbalancedEntry)
        else Success(ValidatedEntry(input.tenantId, input.idempotencyKey, input.bookingDate, input.currency, input.memo,
                                    Sort(input.lines, LineLe), totalDebit, totalCredit))
  }

  /* ----- Acceptance ----- */

  function LegOf(line: EntryLine): Leg<AccountId>
  {
    Leg(line.account, line.side == Debit, line.amount.amount)
  }

  function EntryLegs(lines: seq<EntryLine>): seq<Leg<AccountId>>
  {
    Map(LegOf, lines)
  }

  predicate HeaderOk(input: EntryInput)
  {
    && input.tenantId != "" && 1 <= |input.idempotencyKey| <= 128 && BookingDate(input.bookingDate)
  }

  predicate GoodForm(input: EntryInput)
  {
    HeaderOk(input) && |input.lines| >= 2
  }

  predicate GoodLine(line: EntryLine, currency: string)
  {
    line.account != 0 && line.amount.amount > 0 && line.amount.currency == currency
  }

  predicate GoodLines(lines: seq<EntryLine>, currency: string)
  {
    forall i :: 0 <= i < |lines| ==> GoodLine(lines[i], currency)
  }

  predicate HasSide(lines: seq<EntryLine>, n: nat, side: Direction)
    requires n <= |lines|
  {
    exists i :: 0 <= i < n && lines[i].side == side
  }

  lemma {:induction false} LinesErrorExact(lines: seq<EntryLine>, currency: string)
    ensures LinesError(lines, currency) == None <==> GoodLines(lines, currency)
  {
    if lines != [] {
      LinesErrorExact(lines[1..], currency);
      if GoodLines(lines[1..], currency) && GoodLine(lines[0], currency) {
        forall i | 0 <= i < |lines|
          ensures GoodLine(lines[i], currency)
        {
          if i > 0 { assert lines[i] == lines[1..][i - 1]; }
        }
      }
      if GoodLines(lines, currency) {
        assert GoodLine(lines[0], currency);
        forall i | 0 <= i < |lines[1..]|
          ensures GoodLine(lines[1..][i], currency)
        {
          assert lines[1..][i] == lines[i + 1];
        }
      }
    }
  }

  lemma {:induction false} SideAmountsPresent(lines: seq<EntryLine>, n: nat, side: Direction)
    requires n <= |lines|
    ensures SideAmounts(lines, n, side) == [] <==> !HasSide(lines, n, side)
  {
    if n > 0 {
      SideAmountsPresent(lines, n - 1, side);
      if lines[n - 1].side == side {
        assert HasSide(lines, n, side);
      } else if HasSide(lines, n, side) {
        var i :| 0 <= i < n && lines[i].side == side;
        assert HasSide(lines, n - 1, side);
      }
    }
  }

  predicate GoodSums(items: seq<Sum>, currency: string)
  {
    forall i :: 0 <= i < |items| ==> items[i].currency == currency && items[i].amount > 0
  }

  lemma {:induction false} SideAmountsGood(lines: seq<EntryLine>, currency: string, n: nat, side: Direction)
    requires n <= |lines| && GoodLines(lines, currency)
    ensures GoodSums(SideAmounts(lines, n, side), currency)
  {
    if n > 0 {
      SideAmountsGood(lines, currency, n - 1, side);
      assert GoodLine(lines[n - 1], currency);
      var before, items := SideAmounts(lines, n - 1, side), SideAmounts(lines, n, side);
      assert items == before + (if lines[n - 1].side == side then [lines[n - 1].amount] else []);
    }
  }

  /** One side's amounts add up to that side of the entry. */
  lemma {:induction false} SideAmountsTotal(lines: seq<EntryLine>, n: nat, side: Direction)
    requires n <= |lines|
    ensures var items := SideAmounts(lines, n, side);
            TotalFirst(items, |items|) == SideUpTo(EntryLegs(lines), n, side == Debit)
  {
    if n > 0 {
      SideAmountsTotal(lines, n - 1, side);
      var before, items := SideAmounts(lines, n - 1, side), SideAmounts(lines, n, side);
      if lines[n - 1].side == side {
        assert items == before + [lines[n - 1].amount];
        TotalPrefix(items, before, |before|);
      } else {
        assert items == before;
      }
    }
  }

  lemma {:induction false} TotalPrefix(a: seq<Sum>, b: seq<Sum>, n: nat)
    requires n <= |a| && n <= |b| && forall i :: 0 <= i < n ==> a[i] == b[i]
    ensures TotalFirst(a, n) == TotalFirst(b, n)
  {
    if n > 0 {
      TotalPrefix(a, b, n - 1);
    }
  }

  lemma {:induction false} TotalPositive(items: seq<Sum>, n: nat)
    requires n <= |items| && forall i :: 0 <= i < |items| ==> items[i].amount > 0
    ensures TotalFirst(items, n) >= n
  {
    if n > 0 {
      TotalPositive(items, n - 1);
    }
  }

  /** What an entry has to be to be accepted. */
  predicate Acceptable(input: EntryInput)
  {
    && GoodForm(input) && GoodLines(input.lines, input.currency)
    && HasSide(input.lines, |input.lines|, Debit) && HasSide(input.lines, |input.lines|, Credit)
    && Balanced(EntryLegs(input.lines))
  }

  /** Once both sides are present sumMoney cannot fail, and each total is the positive sum of its side. */
  lemma SideTotals(lines: seq<EntryLine>, currency: string, side: Direction)
    requires GoodLines(lines, currency) && HasSide(lines, |lines|, side)
    ensures SumMoney(SideAmounts(lines, |lines|, side)) == Success(Sum(Side(EntryLegs(lines), side == Debit), currency))
    ensures Side(EntryLegs(lines), side == Debit) > 0
  {
    var items := SideAmounts(lines, |lines|, side);
    SideAmountsPresent(lines, |lines|, side);
    SideAmountsGood(lines, currency, |lines|, side);
    SideAmountsTotal(lines, |lines|, side);
    SumMoneyExact(items);
    TotalPositive(items, |items|);
  }

  /**
   * validateEntry accepts exactly the acceptable entries, with both totals equal, positive and in the entry's
   * currency.
   */
  lemma AcceptanceExact(input: EntryInput)
    ensures ValidateEntry(input).Success? <==> Acceptable(input)
    ensures Acceptable(input) ==>
              var v := ValidateEntry(input).value;
              && v.totalDebit == v.totalCredit == Sum(Side(EntryLegs(input.lines), true), input.currency)
                  && v.totalDebit.amount > 0
              && v.tenantId == input.tenantId && v.idempotencyKey == input.idempotencyKey
                  && v.bookingDate == input.bookingDate
              && v.currency == input.currency && v.memo == input.memo
    ensures GoodForm(input) && GoodLines(input.lines, input.currency) && !Acceptable(input) ==>
        ValidateEntry(input) == Failure(UnbalancedEntry)
  {
    LinesErrorExact(input.lines, input.currency);
    if GoodLines(input.lines, input.currency) {
      SideAmountsPresent(input.lines, |input.lines|, Debit);
      SideAmountsPresent(input.lines, |input.lines|, Credit);
      if HasSide(input.lines, |input.lines|, Debit) && HasSide(input.lines, |input.lines|, Credit) {
        SideTotals(input.lines, input.currency, Debit);
        SideTotals(input.lines, input.currency, Credit);
      }
    }
  }

  /** What is wrong with a line that raises `e`: an empty account comes first, then the amount, then the currency. */
  predicate Faulty(line: EntryLine, currency: string, e: ErrorCode)
  {
    match e
    case InvalidInput => line.account == 0 || line.amount.amount == 0
    case NegativeAmount => line.account != 0 && line.amount.amount < 0
    case CurrencyMismatch => line.account != 0 && line.amount.amount > 0 && line.amount.currency != currency
    case _ => false
  }

  /** Line `i` is the first one that raises an error, and raises `e`. */
  predicate Raises(lines: seq<EntryLine>, currency: string, i: nat, e: ErrorCode)
  {
    && i < |lines| && Faulty(lines[i], currency, e)
    && forall j :: 0 <= j < i ==> GoodLine(lines[j], currency)
  }

  lemma RaisesShift(lines: seq<EntryLine>, currency: string, i: nat, e: ErrorCode)
    requires lines != [] && LineError(lines[0], currency) == None
    ensures Raises(lines[1..], currency, i, e) <==> Raises(lines, currency, i + 1, e)
    ensures !Raises(lines, currency, 0, e)
  {
    if Raises(lines, currency, i + 1, e) {
      assert forall j :: 0 <= j < i ==> lines[1..][j] == lines[j + 1];
    }
  }

  lemma {:induction false} LinesErrorRaised(lines: seq<EntryLine>, currency: string, e: ErrorCode)
    ensures LinesError(lines, currency) == Some(e) <==> exists i: nat :: Raises(lines, currency, i, e)
  {
    if lines != [] {
      if LineError(lines[0], currency).Some? {
        assert LineError(lines[0], currency) == Some(e) ==> Raises(lines, currency, 0, e);
      } else {
        LinesErrorRaised(lines[1..], currency, e);
        if i: nat :| Raises(lines[1..], currency, i, e) {
          RaisesShift(lines, currency, i, e);
        }
        if i: nat :| Raises(lines, currency, i, e) {
          RaisesShift(lines, currency, if i == 0 then 0 else i - 1, e);
        }
      }
    }
  }

  lemma {:induction false} LinesErrorKinds(lines: seq<EntryLine>, currency: string)
    ensures LinesError(lines, currency) in {None, Some(InvalidInput), Some(NegativeAmount), Some(CurrencyMismatch)}
  {
    if lines != [] {
      LinesErrorKinds(lines[1..], currency);
    }
  }

  /** Which error a rejected entry gets: header rules first, then the first bad line, then the balance. */
  lemma RejectionExact(input: EntryInput)
    ensures ValidateEntry(input) == Failure(InvalidInput) <==>
              || input.tenantId == "" || !(1 <= |input.idempotencyKey| <= 128)
              || (GoodForm(input) && exists i: nat :: Raises(input.lines, input.currency, i, InvalidInput))
    ensures ValidateEntry(input) == Failure(InvalidDate) <==>
              input.tenantId != "" && 1 <= |input.idempotencyKey| <= 128 && !BookingDate(input.bookingDate)
    ensures ValidateEntry(input) == Failure(EmptyLines) <==> HeaderOk(input) && |input.lines| < 2
    ensures ValidateEntry(input) == Failure(NegativeAmount) <==>
              GoodForm(input) && exists i: nat :: Raises(input.lines, input.currency, i, NegativeAmount)
    ensures ValidateEntry(input) == Failure(CurrencyMismatch) <==>
              GoodForm(input) && exists i: nat :: Raises(input.lines, input.currency, i, CurrencyMismatch)
    ensures ValidateEntry(input) == Failure(UnbalancedEntry) <==>
              GoodForm(input) && GoodLines(input.lines, input.currency) && !Acceptable(input)
  {
    AcceptanceExact(input);
    LinesErrorExact(input.lines, input.currency);
    LinesErrorKinds(input.lines, input.currency);
    LinesErrorRaised(input.lines, input.currency, InvalidInput);
    LinesErrorRaised(input.lines, input.currency, NegativeAmount);
    LinesErrorRaised(input.lines, input.currency, CurrencyMismatch);
  }

  /* ----- Canonical order ----- */

  lemma LineLeIsOrder()
    ensures TotalPreorder(LineLe)
  {
  }

  /** The lines on the account and side of `k` with its amount, in their order. */
  function Alike(lines: seq<EntryLine>, k: EntryLine): seq<EntryLine>
  {
    if lines == [] then []
    else if lines[0].account == k.account && lines[0].side == k.side && lines[0].amount.amount == k.amount.amount
    then [lines[0]] + Alike(lines[1..], k)
    else Alike(lines[1..], k)
  }

  lemma {:induction false} AlikeIsClass(lines: seq<EntryLine>, k: EntryLine)
    ensures Class(lines, k, LineLe) == Alike(lines, k)
  {
    if lines != [] {
      AlikeIsClass(lines[1..], k);
    }
  }

  /** Accounts do not descend; on one account no debit follows a credit; on one account and side no amount descends. */
  predicate InOrder(a: EntryLine, b: EntryLine)
  {
    && a.account <= b.account
    && (a.account == b.account && a.side == Credit ==> b.side == Credit)
    && (a.account == b.account && a.side == b.side ==> a.amount.amount <= b.amount.amount)
  }

  predicate Ascending(lines: seq<EntryLine>)
  {
    forall i, j :: 0 <= i < j < |lines| ==> InOrder(lines[i], lines[j])
  }

  /**
   * The accepted lines are the input lines by ascending account, on one account debits before credits, on one
   * account and side by ascending amount, and lines that agree in all three keep their order.
   */
  lemma CanonicalOrder(input: EntryInput, k: EntryLine)
    requires ValidateEntry(input).Success?
    ensures var lines := ValidateEntry(input).value.lines;
            && multiset(lines) == multiset(input.lines)
            && Alike(lines, k) == Alike(input.lines, k)
            && Ascending(lines)
  {
    AcceptedLines(input);
    SortIsCanonical(input.lines, k);
  }

  lemma SortIsCanonical(lines: seq<EntryLine>, k: EntryLine)
    ensures Alike(Sort(lines, LineLe), k) == Alike(lines, k) && Ascending(Sort(lines, LineLe))
  {
    LineLeIsOrder();
    SortSorted(lines, LineLe);
    SortStable(lines, k, LineLe);
    AlikeIsClass(Sort(lines, LineLe), k);
    AlikeIsClass(lines, k);
    SortedAscends(Sort(lines, LineLe));
  }

  lemma SortedAscends(lines: seq<EntryLine>)
    requires Sorted(lines, LineLe)
    ensures Ascending(lines)
  {
    forall i, j | 0 <= i < j < |lines|
      ensures InOrder(lines[i], lines[j])
    {
      assert LineLe(lines[i], lines[j]);
    }
  }

  function Bare(line: EntryLine): EntryLine
  {
    line.(memo := None)
  }

  function BareLines(lines: seq<EntryLine>): seq<EntryLine>
  {
    Map(Bare, lines)
  }

  /** Memos do not reach the legs. */
  lemma BareSameLegs(a: seq<EntryLine>, b: seq<EntryLine>)
    requires multiset(BareLines(a)) == multiset(BareLines(b))
    ensures multiset(EntryLegs(a)) == multiset(EntryLegs(b))
  {
    MapPermutation(LegOf, BareLines(a), BareLines(b));
    assert Map(LegOf, BareLines(a)) == EntryLegs(a) && Map(LegOf, BareLines(b)) == EntryLegs(b);
  }

  /** Acceptance and totals do not depend on the order of the lines or on their memos. */
  lemma AcceptanceOrderFree(a: EntryInput, b: EntryInput)
    requires b == a.(lines := b.lines) && multiset(BareLines(a.lines)) == multiset(BareLines(b.lines))
    ensures Acceptable(a) <==> Acceptable(b)
  {
    if Acceptable(a) { AcceptanceCarries(a, b); }
    if Acceptable(b) { AcceptanceCarries(b, a); }
  }

  /** Every line of `b` is, memo aside, a line of `a`. */
  lemma LineCarries(a: seq<EntryLine>, b: seq<EntryLine>, i: nat) returns (j: nat)
    requires multiset(BareLines(a)) == multiset(BareLines(b)) && i < |b|
    ensures j < |a| && Bare(a[j]) == Bare(b[i])
  {
    var x, y := BareLines(a), BareLines(b);
    assert y[i] in multiset(x);
    j :| 0 <= j < |x| && x[j] == y[i];
  }

  lemma AcceptanceCarries(a: EntryInput, b: EntryInput)
    requires b == a.(lines := b.lines) && multiset(BareLines(a.lines)) == multiset(BareLines(b.lines))
    requires Acceptable(a)
    ensures Acceptable(b)
  {
    assert |b.lines| == |a.lines| by {
      assert |multiset(BareLines(a.lines))| == |BareLines(a.lines)|
          && |multiset(BareLines(b.lines))| == |BareLines(b.lines)|;
    }
    forall i | 0 <= i < |b.lines|
      ensures GoodLine(b.lines[i], b.currency)
    {
      var j := LineCarries(a.lines, b.lines, i);
      assert GoodLine(a.lines[j], a.currency) && Bare(a.lines[j]) == Bare(b.lines[i]);
    }
    SideCarries(a.lines, b.lines, Debit);
    SideCarries(a.lines, b.lines, Credit);
    BareSameLegs(a.lines, b.lines);
    SumPermutation(EntryLegs(a.lines), EntryLegs(b.lines), 0, true);
    SumPermutation(EntryLegs(a.lines), EntryLegs(b.lines), 0, false);
  }

  lemma SideCarries(a: seq<EntryLine>, b: seq<EntryLine>, side: Direction)
    requires multiset(BareLines(a)) == multiset(BareLines(b)) && HasSide(a, |a|, side)
    ensures HasSide(b, |b|, side)
  {
    var i :| 0 <= i < |a| && a[i].side == side;
    var j := LineCarries(b, a, i);
    assert Bare(b[j]).side == Bare(a[i]).side;
  }

  lemma AcceptedLines(input: EntryInput)
    requires ValidateEntry(input).Success?
    ensures ValidateEntry(input).value.lines == Sort(input.lines, LineLe)
  {
  }

  /**
   * Canonical form: the same lines in any order, with any memos, are accepted together and come out in the same
   * sequence.
   */
  lemma CanonicalUnique(a: EntryInput, b: EntryInput)
    requires b == a.(lines := b.lines) && multiset(BareLines(a.lines)) == multiset(BareLines(b.lines))
    ensures ValidateEntry(a).Success? <==> ValidateEntry(b).Success?
    ensures ValidateEntry(a).Success? ==>
        BareLines(ValidateEntry(a).value.lines) == BareLines(ValidateEntry(b).value.lines)
  {
    AcceptanceExact(a);
    AcceptanceExact(b);
    AcceptanceOrderFree(a, b);
    if Acceptable(a) {
      SortsAlike(a, b);
      AcceptedLines(a);
      AcceptedLines(b);
    }
  }

  lemma SortsAlike(a: EntryInput, b: EntryInput)
    requires GoodLines(a.lines, a.currency) && multiset(BareLines(a.lines)) == multiset(BareLines(b.lines))
    ensures BareLines(Sort(a.lines, LineLe)) == BareLines(Sort(b.lines, LineLe))
  {
    var x, y := Sort(a.lines, LineLe), Sort(b.lines, LineLe);
    LineLeIsOrder();
    SortSorted(a.lines, LineLe);
    SortSorted(b.lines, LineLe);
    MapPermutation(Bare, x, a.lines);
    MapPermutation(Bare, y, b.lines);
    BareSorted(x);
    BareSorted(y);
    BareOrdered(a.lines, x, a.currency);
    SortedUnique(BareLines(x), BareLines(y), LineLe);
  }

  lemma BareSorted(x: seq<EntryLine>)
    requires Sorted(x, LineLe)
    ensures Sorted(BareLines(x), LineLe)
  {
    forall i, j | 0 <= i < j < |x|
      ensures LineLe(BareLines(x)[i], BareLines(x)[j])
    {
      assert LineLe(x[i], x[j]);
    }
  }

  /** Bare lines in one currency that compare as equal are equal. */
  lemma BareOrdered(lines: seq<EntryLine>, x: seq<EntryLine>, currency: string)
    requires GoodLines(lines, currency) && multiset(x) == multiset(lines)
    ensures forall p, q ::
              p in multiset(BareLines(x)) && q in multiset(BareLines(x)) && LineLe(p, q) && LineLe(q, p) ==> p == q
  {
    forall p | p in multiset(BareLines(x))
      ensures p.memo == None && p.amount.currency == currency
    {
      BareInCurrency(lines, x, currency, p);
    }
  }

  lemma BareInCurrency(lines: seq<EntryLine>, x: seq<EntryLine>, currency: string, p: EntryLine)
    requires GoodLines(lines, currency) && multiset(x) == multiset(lines) && p in multiset(BareLines(x))
    ensures p.memo == None && p.amount.currency == currency
  {
    assert p in BareLines(x);
    var i :| 0 <= i < |x| && BareLines(x)[i] == p;
    assert x[i] in multiset(lines);
    var j :| 0 <= j < |lines| && lines[j] == x[i];
    assert GoodLine(lines[j], currency);
  }
}
