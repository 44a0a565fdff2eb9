/** Trial balances of per-account balances, and of a history of validated entries. */
module TrialBalances {
  import opened Wrappers
  import opened Types
  import opened Sums
  import opened Permutations
  import opened Legs
  import opened Tags
  import opened Money
  import opened Posting
  import opened Balances
  import opened StableSort

  datatype TrialRow = TrialRow(account: AccountId, currency: string, debit: Sum, credit: Sum)

  datatype TrialBalance = TrialBalance(rows: seq<TrialRow>, totalDebit: Sum, totalCredit: Sum, balanced: bool)

  function RowOf(b: AccountBalance): TrialRow
  {
    TrialRow(b.account, b.currency, b.debitTotal, b.creditTotal)
  }

  predicate RowLe(a: TrialRow, b: TrialRow)
  {
    a.account <= b.account
  }

  function Cell(b: AccountBalance, debit: bool): int
  {
    if debit then b.debitTotal.amount else b.creditTotal.amount
  }

  function Column(values: seq<AccountBalance>, n: nat, debit: bool): int
    requires n <= |values|
  {
    if n == 0 then 0
    else Column(values, n - 1, debit) + Cell(values[n - 1], debit)
  }

  predicate OneCurrency(values: seq<AccountBalance>)
    requires values != []
  {
    forall i :: 0 <= i < |values| ==> values[i].currency == values[0].currency
  }

  /** What trialBalanceFromMap computes from the values of the Map. */
  function Trial(values: seq<AccountBalance>): Result<TrialBalance, ErrorCode>
  {
    if values == [] then Failure(InvalidInput)
    else if !OneCurrency(values) then Failure(CurrencyMismatch)
    else if !CurrencyCode(values[0].currency) then Failure(InvalidInput)
    else
      var c := values[0].currency;
      var debit, credit := Column(values, |values|, true), Column(values, |values|, false);
      Success(TrialBalance(Sort(Map(RowOf, values), RowLe), Sum(debit, c), Sum(credit, c), debit == credit))
  }

  method TrialBalanceFromMap(values: seq<AccountBalance>) returns (r: Result<TrialBalance, ErrorCode>)
    ensures r == Trial(values)
  {
    if |values| == 0 {
      return Failure(InvalidInput);
    }
    var currencies := {};
    var i := 0;
    while i < |values|
      invariant 0 <= i <= |values|
      invariant currencies == set j | 0 <= j < i :: values[j].currency
    {
      currencies := currencies + {values[i].currency};
      i := i + 1;
    }
    CurrencySet(values, currencies);
    if |currencies| > 1 {
      return Failure(CurrencyMismatch);
    }
    var rows: seq<TrialRow> := [];
    var totalDebit, totalCredit := 0, 0;
    i := 0;
    while i < |values|
      invariant 0 <= i <= |values|
      invariant rows == Map(RowOf, values)[..i]
      invariant totalDebit == Column(values, i, true) && totalCredit == Column(values, i, false)
    {
      rows := rows + [RowOf(values[i])];
      totalDebit := totalDebit + values[i].debitTotal.amount;
      totalCredit := totalCredit + values[i].creditTotal.amount;
      i := i + 1;
    }
    assert rows == Map(RowOf, values);
    rows := Sort(rows, RowLe);
    var debit, credit := MakeMoney(totalDebit, values[0].currency), MakeMoney(totalCredit, values[0].currency);
    if debit.Failure? {
      return Failure(debit.error);
    }
    return Success(TrialBalance(rows, debit.value, credit.value, totalDebit == totalCredit));
  }

  lemma {:induction false} CurrencySet(values: seq<AccountBalance>, currencies: set<string>)
    requires values != [] && currencies == set j | 0 <= j < |values| :: values[j].currency
    ensures |currencies| > 1 <==> !OneCurrency(values)
  {
    var c := values[0].currency;
    assert c in currencies;
    if OneCurrency(values) {
      assert currencies == {c};
    } else {
      var i :| 0 <= i < |values| && values[i].currency != c;
      assert {c, values[i].currency} <= currencies;
      assert |{c, values[i].currency}| == 2;
      SubsetSize({c, values[i].currency}, currencies);
    }
  }

  function TrialOf(lines: seq<EntryLine>): Result<TrialBalance, ErrorCode>
  {
    var values :- PerAccount(lines);
    Trial(values)
  }

  method TrialBalanceFromLines(lines: seq<EntryLine>) returns (r: Result<TrialBalance, ErrorCode>)
    ensures r == TrialOf(lines)
  {
    var values :- BalancePerAccount(lines);
    r := TrialBalanceFromMap(values);
  }

  /* ----- The columns are the two sides of the lines ----- */

  function Firsts(order: seq<AccountId>, n: nat): set<AccountId>
    requires n <= |order|
  {
    if n == 0 then {} else Firsts(order, n - 1) + {order[n - 1]}
  }

  lemma {:induction false} FirstsExact(order: seq<AccountId>, n: nat, a: AccountId)
    requires n <= |order|
    ensures a in Firsts(order, n) <==> exists i :: 0 <= i < n && order[i] == a
  {
    if n > 0 {
      FirstsExact(order, n - 1, a);
      if a == order[n - 1] {
        assert order[n - 1] == a;
      } else if i :| 0 <= i < n && order[i] == a {
        assert i < n - 1 && order[i] == a;
      }
    }
  }

  lemma {:induction false} ColumnIsSetSum(f: AccountId -> int, order: seq<AccountId>, values: seq<AccountBalance>,
          n: nat, debit: bool)
    requires n <= |order| == |values| && forall i, j :: 0 <= i < j < |order| ==> order[i] != order[j]
    requires forall i :: 0 <= i < |order| ==> Cell(values[i], debit) == f(order[i])
    ensures Column(values, n, debit) == SetSum(Firsts(order, n), f)
  {
    if n > 0 {
      ColumnIsSetSum(f, order, values, n - 1, debit);
      FirstsExact(order, n - 1, order[n - 1]);
      SetSumInsert(Firsts(order, n - 1), order[n - 1], f);
    }
  }

  lemma {:induction false} ColumnIsSide(lines: seq<EntryLine>, debit: bool)
    requires PerAccount(lines).Success?
    ensures var values := PerAccount(lines).value;
            Column(values, |values|, debit) == Side(EntryLegs(lines), debit)
  {
    var tags := EntryTags(lines);
    var order := FirstSeen(tags, |tags|);
    FirstSeenExact(tags, |tags|);
    ColumnIsSetSum((a: AccountId) => SumOn(EntryLegs(lines), a, debit), order, PerAccount(lines).value, |order|, debit);
    var keys := Firsts(order, |order|);
    var legs := EntryLegs(lines);
    forall i | 0 <= i < |legs|
      ensures legs[i].key in keys
    {
      assert tags[i].account in order;
      FirstsExact(order, |order|, tags[i].account);
    }
    KeysCoverSide(keys, legs, |legs|, debit);
    SetSumEqual(keys, (a: AccountId) => SumOn(legs, a, debit), (a: AccountId) => SumUpTo(legs, |legs|, a, debit));
  }

  /* ----- What a trial balance of lines shows ----- */

  predicate InCurrency(lines: seq<EntryLine>, currency: string)
  {
    forall i :: 0 <= i < |lines| ==> lines[i].amount.currency == currency
  }

  /** Lines in one valid currency always have balances, all in that currency. */
  lemma {:induction false} OneCurrencySucceeds(lines: seq<EntryLine>, currency: string)
    requires lines != [] && InCurrency(lines, currency) && CurrencyCode(currency)
    ensures PerAccount(lines).Success?
    ensures var values := PerAccount(lines).value;
            values != [] && forall i :: 0 <= i < |values| ==> values[i].currency == currency
  {
    var tags := EntryTags(lines);
    forall i | 0 <= i < |tags|
      ensures tags[i].currency == currency
    {
      assert lines[i].amount.currency == currency;
    }
    var order := FirstSeen(tags, |tags|);
    FirstSeenExact(tags, |tags|);
    assert tags[0].account in order;
    forall k | 0 <= k < |order|
      ensures Totals(lines, order[k]).currency == currency
    {
      assert order[k] in order;
      var i :| 0 <= i < |tags| && tags[i].account == order[k];
      CurrencyForAny(tags, order[k], i);
    }
  }

  /** One row for every account with lines and no other, in ascending order, with the two sums of those lines. */
  predicate ShowsLines(lines: seq<EntryLine>, currency: string, rows: seq<TrialRow>)
  {
    && (forall i, j :: 0 <= i < j < |rows| ==> rows[i].account < rows[j].account)
    && (forall i :: 0 <= i < |rows| ==> exists k :: 0 <= k < |lines| && lines[k].account == rows[i].account)
    && (forall k :: 0 <= k < |lines| ==> exists i :: 0 <= i < |rows| && rows[i].account == lines[k].account)
    && (forall i :: 0 <= i < |rows| ==>
          && rows[i].currency == currency
          && rows[i].debit == Sum(SumOn(EntryLegs(lines), rows[i].account, true), currency)
          && rows[i].credit == Sum(SumOn(EntryLegs(lines), rows[i].account, false), currency))
  }

  function RowAccount(row: TrialRow): AccountId
  {
    row.account
  }

  /** Rows that are a rearrangement of the balances in ascending order show the lines. */
  lemma {:induction false} RowsShowLines(lines: seq<EntryLine>, currency: string, rows: seq<TrialRow>)
    requires lines != [] && InCurrency(lines, currency) && PerAccount(lines).Success?
    requires multiset(rows) == multiset(Map(RowOf, PerAccount(lines).value))
    requires forall i, j :: 0 <= i < j < |rows| ==> rows[i].account <= rows[j].account
    ensures ShowsLines(lines, currency, rows)
  {
    var values := PerAccount(lines).value;
    forall i | 0 <= i < |rows|
      ensures exists k :: 0 <= k < |lines| && lines[k].account == rows[i].account
      ensures rows[i].currency == currency
      ensures rows[i].debit == Sum(SumOn(EntryLegs(lines), rows[i].account, true), currency)
      ensures rows[i].credit == Sum(SumOn(EntryLegs(lines), rows[i].account, false), currency)
    {
      assert rows[i] in multiset(rows);
      var j :| 0 <= j < |values| && Map(RowOf, values)[j] == rows[i];
      ValueShowsLines(lines, currency, j);
    }
    forall k | 0 <= k < |lines|
      ensures exists i :: 0 <= i < |rows| && rows[i].account == lines[k].account
    {
      var j := ValueOfLine(lines, k);
      assert Map(RowOf, values)[j] in multiset(rows);
      var i :| 0 <= i < |rows| && rows[i] == Map(RowOf, values)[j];
      assert rows[i].account == lines[k].account;
    }
    AccountsOnce(lines, rows);
  }

  lemma {:induction false} ValueShowsLines(lines: seq<EntryLine>, currency: string, j: nat)
    requires InCurrency(lines, currency) && PerAccount(lines).Success? && j < |PerAccount(lines).value|
    ensures var b := PerAccount(lines).value[j];
            && (exists k :: 0 <= k < |lines| && lines[k].account == b.account)
            && b.currency == currency
            && b.debitTotal == Sum(SumOn(EntryLegs(lines), b.account, true), currency)
            && b.creditTotal == Sum(SumOn(EntryLegs(lines), b.account, false), currency)
  {
    var k := LineOfValue(lines, j);
    ValueCurrency(lines, k, j);
  }

  lemma {:induction false} LineOfValue(lines: seq<EntryLine>, j: nat) returns (k: nat)
    requires PerAccount(lines).Success? && j < |PerAccount(lines).value|
    ensures k < |lines| && lines[k].account == PerAccount(lines).value[j].account
  {
    var tags := EntryTags(lines);
    FirstSeenExact(tags, |tags|);
    assert FirstSeen(tags, |tags|)[j] in FirstSeen(tags, |tags|);
    k :| 0 <= k < |tags| && tags[k].account == FirstSeen(tags, |tags|)[j];
  }

  lemma {:induction false} ValueOfLine(lines: seq<EntryLine>, k: nat) returns (j: nat)
    requires PerAccount(lines).Success? && k < |lines|
    ensures j < |PerAccount(lines).value| && PerAccount(lines).value[j].account == lines[k].account
  {
    var tags := EntryTags(lines);
    FirstSeenExact(tags, |tags|);
    assert tags[k].account in FirstSeen(tags, |tags|);
    j :| 0 <= j < |FirstSeen(tags, |tags|)| && FirstSeen(tags, |tags|)[j] == tags[k].account;
  }

  lemma {:induction false} AccountsOnce(lines: seq<EntryLine>, rows: seq<TrialRow>)
    requires PerAccount(lines).Success? && multiset(rows) == multiset(Map(RowOf, PerAccount(lines).value))
    ensures forall i, j :: 0 <= i < j < |rows| ==> rows[i].account != rows[j].account
  {
    var values, tags := PerAccount(lines).value, EntryTags(lines);
    MapPermutation(RowAccount, rows, Map(RowOf, values));
    assert Map(RowAccount, Map(RowOf, values)) == FirstSeen(tags, |tags|);
    FirstSeenExact(tags, |tags|);
    DistinctPermutation(Map(RowAccount, rows), FirstSeen(tags, |tags|));
    forall i, j | 0 <= i < j < |rows|
      ensures rows[i].account != rows[j].account
    {
      assert Map(RowAccount, rows)[i] != Map(RowAccount, rows)[j];
    }
  }

  /** Some line is in another currency than the first. */
  predicate Mixed(lines: seq<EntryLine>)
    requires lines != []
  {
    !InCurrency(lines, lines[0].amount.currency)
  }

  /**
   * Which lines have a trial balance and what it shows: all lines in one valid currency, a row for every
   * account, the two sides as totals, and the flag exactly when they are equal.
   */
  lemma {:induction false} TrialExact(lines: seq<EntryLine>)
    ensures TrialOf(lines).Success? <==>
              lines != [] && !Mixed(lines) && CurrencyCode(lines[0].amount.currency)
    ensures TrialOf(lines).Success? ==>
              var t, c := TrialOf(lines).value, lines[0].amount.currency;
              && ShowsLines(lines, c, t.rows)
              && t.totalDebit == Sum(Side(EntryLegs(lines), true), c)
              && t.totalCredit == Sum(Side(EntryLegs(lines), false), c)
              && (t.balanced <==> Side(EntryLegs(lines), true) == Side(EntryLegs(lines), false))
  {
    TrialWhen(lines);
    if TrialOf(lines).Success? {
      TrialSucceeds(lines, lines[0].amount.currency);
    }
  }

  lemma {:induction false} TrialWhen(lines: seq<EntryLine>)
    ensures TrialOf(lines).Success? <==>
              lines != [] && !Mixed(lines) && CurrencyCode(lines[0].amount.currency)
  {
    if lines != [] && !Mixed(lines) && CurrencyCode(lines[0].amount.currency) {
      TrialSucceeds(lines, lines[0].amount.currency);
    } else if PerAccount(lines).Success? {
      assert CurrencyCode(lines[0].amount.currency);
      var k :| 0 <= k < |lines| && lines[k].amount.currency != lines[0].amount.currency;
      var i := ValueOfLine(lines, 0);
      var j := ValueOfLine(lines, k);
      ValueCurrency(lines, 0, i);
      ValueCurrency(lines, k, j);
    }
  }

  lemma {:induction false} ValueCurrency(lines: seq<EntryLine>, k: nat, j: nat)
    requires PerAccount(lines).Success? && k < |lines|
    requires j < |PerAccount(lines).value| && PerAccount(lines).value[j].account == lines[k].account
    ensures PerAccount(lines).value[j].currency == lines[k].amount.currency
  {
    CurrencyForAny(EntryTags(lines), lines[k].account, k);
  }

  lemma {:induction false} TrialSucceeds(lines: seq<EntryLine>, currency: string)
    requires lines != [] && InCurrency(lines, currency) && CurrencyCode(currency)
    ensures TrialOf(lines).Success?
    ensures var t := TrialOf(lines).value;
            && ShowsLines(lines, currency, t.rows)
            && t.totalDebit == Sum(Side(EntryLegs(lines), true), currency)
            && t.totalCredit == Sum(Side(EntryLegs(lines), false), currency)
            && (t.balanced <==> Side(EntryLegs(lines), true) == Side(EntryLegs(lines), false))
  {
    OneCurrencySucceeds(lines, currency);
    ColumnIsSide(lines, true);
    ColumnIsSide(lines, false);
    SortedRowsShowLines(lines, currency);
    SucceedsWith(lines, currency, PerAccount(lines).value);
  }

  lemma {:induction false} SucceedsWith(lines: seq<EntryLine>, currency: string, values: seq<AccountBalance>)
    requires PerAccount(lines) == Success(values) && values != [] && CurrencyCode(currency)
    requires forall i :: 0 <= i < |values| ==> values[i].currency == currency
    ensures TrialOf(lines) == Success(TrialBalance(Sort(Map(RowOf, values), RowLe),
        Sum(Column(values, |values|, true), currency), Sum(Column(values, |values|, false), currency),
        Column(values, |values|, true) == Column(values, |values|, false)))
  {
  }

  lemma {:induction false} SortedRowsShowLines(lines: seq<EntryLine>, currency: string)
    requires lines != [] && InCurrency(lines, currency) && PerAccount(lines).Success?
    ensures ShowsLines(lines, currency, Sort(Map(RowOf, PerAccount(lines).value), RowLe))
  {
    var rows := Map(RowOf, PerAccount(lines).value);
    SortedByAccount(rows);
    RowsShowLines(lines, currency, Sort(rows, RowLe));
  }

  lemma {:induction false} SortedByAccount(rows: seq<TrialRow>)
    ensures multiset(Sort(rows, RowLe)) == multiset(rows)
    ensures var sorted := Sort(rows, RowLe);
            forall i, j :: 0 <= i < j < |sorted| ==> sorted[i].account <= sorted[j].account
  {
    var sorted := Sort(rows, RowLe);
    SortSorted(rows, RowLe);
    forall i, j | 0 <= i < j < |sorted|
      ensures sorted[i].account <= sorted[j].account
    {
      assert RowLe(sorted[i], sorted[j]);
    }
  }

  /** Without a trial balance the error tells why. */
  lemma {:induction false} TrialErrors(lines: seq<EntryLine>)
    ensures TrialOf(lines) == Failure(CurrencyMismatch) <==>
              Clashes(lines) || (lines != [] && Mixed(lines) && AllCurrenciesValid(lines))
    ensures TrialOf(lines) == Failure(InvalidInput) <==>
              lines == [] || (!Clashes(lines) && !AllCurrenciesValid(lines))
  {
    BalanceErrors(lines);
    TrialWhen(lines);
    if PerAccount(lines).Failure? {
      assert TrialOf(lines) == Failure(PerAccount(lines).error);
    } else {
      MixedFails(lines);
    }
  }

  lemma {:induction false} MixedFails(lines: seq<EntryLine>)
    requires PerAccount(lines).Success?
    ensures lines != [] && AllCurrenciesValid(lines)
    ensures TrialOf(lines) == Failure(CurrencyMismatch) <==> Mixed(lines)
    ensures TrialOf(lines) != Failure(InvalidInput)
  {
    TrialWhen(lines);
    var j := ValueOfLine(lines, 0);
    var k := LineOfValue(lines, 0);
    ValueCurrency(lines, k, 0);
  }

  /* ----- A history of validated entries ----- */

  /** An entry as validateEntry returned it. */
  ghost predicate Accepted(entry: ValidatedEntry, currency: string)
  {
    exists input :: ValidateEntry(input) == Success(entry) && input.currency == currency
  }

  function History(entries: seq<ValidatedEntry>): seq<EntryLine>
  {
    if entries == [] then [] else History(entries[..|entries| - 1]) + entries[|entries| - 1].lines
  }

  function TotalOf(entries: seq<ValidatedEntry>): int
  {
    if entries == [] then 0 else TotalOf(entries[..|entries| - 1]) + entries[|entries| - 1].totalDebit.amount
  }

  /** The lines of an accepted entry keep its currency and its two equal totals. */
  lemma {:induction false} AcceptedLinesBalance(entry: ValidatedEntry, currency: string)
    requires Accepted(entry, currency)
    ensures entry.lines != [] && InCurrency(entry.lines, currency)
    ensures Side(EntryLegs(entry.lines), true) == Side(EntryLegs(entry.lines), false) == entry.totalDebit.amount
  {
    var input :| ValidateEntry(input) == Success(entry) && input.currency == currency;
    AcceptanceExact(input);
    AcceptedLines(input);
    SortKeepsLegs(input.lines);
    forall i | 0 <= i < |entry.lines|
      ensures entry.lines[i].amount.currency == currency
    {
      assert entry.lines[i] in multiset(input.lines);
      var j :| 0 <= j < |input.lines| && input.lines[j] == entry.lines[i];
      assert GoodLine(input.lines[j], currency);
    }
    assert |multiset(entry.lines)| == |entry.lines| && |multiset(input.lines)| == |input.lines|;
  }

  lemma {:induction false} SortKeepsLegs(lines: seq<EntryLine>)
    ensures Side(EntryLegs(Sort(lines, LineLe)), true) == Side(EntryLegs(lines), true)
    ensures Side(EntryLegs(Sort(lines, LineLe)), false) == Side(EntryLegs(lines), false)
  {
    MapPermutation(LegOf, Sort(lines, LineLe), lines);
    SumPermutation(EntryLegs(Sort(lines, LineLe)), EntryLegs(lines), 0, true);
    SumPermutation(EntryLegs(Sort(lines, LineLe)), EntryLegs(lines), 0, false);
  }

  lemma {:induction false} HistorySides(entries: seq<ValidatedEntry>, currency: string)
    requires forall i :: 0 <= i < |entries| ==> Accepted(entries[i], currency)
    ensures InCurrency(History(entries), currency) && (entries != [] ==> History(entries) != [])
    ensures Side(EntryLegs(History(entries)), true) == Side(EntryLegs(History(entries)), false) == TotalOf(entries)
    decreases |entries|
  {
    if entries != [] {
      var before, last := entries[..|entries| - 1], entries[|entries| - 1];
      HistorySides(before, currency);
      assert Accepted(last, currency);
      AcceptedLinesBalance(last, currency);
      ConcatSides(History(before), last.lines, true);
      ConcatSides(History(before), last.lines, false);
    }
  }

  /**
   * Any non-empty history of accepted entries in one valid currency has a trial balance; its rows are
   * sorted by account, it balances, and its totals are the summed entry totals.
   */
  lemma {:induction false} HistoryBalances(entries: seq<ValidatedEntry>, currency: string)
    requires entries != [] && CurrencyCode(currency)
    requires forall i :: 0 <= i < |entries| ==> Accepted(entries[i], currency)
    ensures TrialOf(History(entries)).Success?
    ensures var t := TrialOf(History(entries)).value;
            && t.balanced && t.totalDebit == t.totalCredit == Sum(TotalOf(entries), currency)
            && ShowsLines(History(entries), currency, t.rows)
  {
    var lines := History(entries);
    HistorySides(entries, currency);
    TrialSucceeds(lines, currency);
  }
}
