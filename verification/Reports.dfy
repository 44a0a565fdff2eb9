/** Trial balance and balance sheet: what a reader computes from the projected balances of a tenant. */
module Reports {
  import opened Sums
  import opened Types
  import opened Schema
  import opened Pipeline
  import opened ExactlyOnce
  import opened Conservation
  import opened JournalAgreement
  import Doubles

  /** A row of the report query. */
  datatype ReportRow = ReportRow(account: AccountId, code: string, debit: int, credit: int, net: int)

  /** The row of one account: its balance row, or zeros when it has none. */
  function RowFor(chart: Chart, balances: map<Slot, Balance>, a: AccountId): ReportRow
    requires a in chart.accounts
  {
    var (debit, credit, net) := ReadRow(balances, Slot(chart.accounts[a].tenant, a));
    ReportRow(a, chart.accounts[a].code, debit, credit, net)
  }

  function TenantAccounts(chart: Chart, tenant: TenantId): set<AccountId>
  {
    set a | a in chart.accounts && chart.accounts[a].tenant == tenant
  }

  /** The query joins every account of the tenant with its balance row; the order of the rows is left open. */
  ghost predicate IsReport(chart: Chart, balances: map<Slot, Balance>, tenant: TenantId, rows: seq<ReportRow>)
  {
    && (forall i :: 0 <= i < |rows| ==>
        rows[i].account in TenantAccounts(chart, tenant) && rows[i] == RowFor(chart, balances, rows[i].account))
    && (forall i, j :: 0 <= i < j < |rows| ==> rows[i].account != rows[j].account)
    && (forall a :: a in TenantAccounts(chart, tenant) ==> exists i :: 0 <= i < |rows| && rows[i].account == a)
  }

  /* ----- Trial balance ----- */

  function NetSum(rows: seq<ReportRow>): int
  {
    if rows == [] then 0 else NetSum(rows[..|rows| - 1]) + rows[|rows| - 1].net
  }

  /** The nets shown on one side: non-negative ones as debit, the others, sign flipped, as credit. */
  function Shown(rows: seq<ReportRow>, side: Direction): nat
  {
    if rows == [] then 0
    else
      var net := rows[|rows| - 1].net;
      Shown(rows[..|rows| - 1], side) +
      if side == Debit && net >= 0 then net else if side == Credit && net < 0 then -net else 0
  }

  lemma {:induction false} ShownDifference(rows: seq<ReportRow>)
    ensures Shown(rows, Debit) - Shown(rows, Credit) == NetSum(rows)
  {
    if rows != [] {
      ShownDifference(rows[..|rows| - 1]);
    }
  }

  method TrialBalance(rows: seq<ReportRow>) returns (totalDebit: nat, totalCredit: nat, balanced: bool)
    ensures totalDebit == Shown(rows, Debit) && totalCredit == Shown(rows, Credit)
    ensures totalDebit - totalCredit == NetSum(rows)
    ensures balanced <==> NetSum(rows) == 0
  {
    totalDebit, totalCredit := 0, 0;
    var i := 0;
    while i < |rows|
      invariant 0 <= i <= |rows|
      invariant totalDebit == Shown(rows[..i], Debit) && totalCredit == Shown(rows[..i], Credit)
    {
      var net := rows[i].net;
      if net >= 0 {
        totalDebit := totalDebit + net;
      } else {
        totalCredit := totalCredit + -net;
      }
      i := i + 1;
      assert rows[..i][..i - 1] == rows[..i - 1];
    }
    assert rows[..i] == rows;
    ShownDifference(rows);
    balanced := totalDebit == totalCredit;
  }

  /* ----- Balance sheet ----- */

  predicate StartsWith(code: string, c: char)
  {
    code != "" && code[0] == c
  }

  function Filter(rows: seq<ReportRow>, keep: ReportRow -> bool): seq<ReportRow>
  {
    if rows == [] then []
    else
      var last := rows[|rows| - 1];
      Filter(rows[..|rows| - 1], keep) + if keep(last) then [last] else []
  }

  function Section(rows: seq<ReportRow>, c: char): seq<ReportRow>
  {
    Filter(rows, (row: ReportRow) => StartsWith(row.code, c))
  }

  /** The rows that are neither asset nor liability nor equity. */
  function Rest(rows: seq<ReportRow>): seq<ReportRow>
  {
    Filter(rows, (row: ReportRow) => !StartsWith(row.code, '1') && !StartsWith(row.code, '2')
        && !StartsWith(row.code, '3'))
  }

  datatype Sheet = Sheet(assets: int, liabilities: int, equity: int, balanced: bool)

  function BalanceSheet(rows: seq<ReportRow>): Sheet
  {
    var assets, liabilities, equity := NetSum(Section(rows, '1')), NetSum(Section(rows, '2')),
        NetSum(Section(rows, '3'));
    Sheet(assets, liabilities, equity, assets == liabilities + equity)
  }

  lemma NetSumAppend(rows: seq<ReportRow>, row: ReportRow)
    ensures NetSum(rows + [row]) == NetSum(rows) + row.net
  {
    assert (rows + [row])[..|rows|] == rows;
  }

  lemma FilterSum(rows: seq<ReportRow>, keep: ReportRow -> bool)
    requires rows != []
    ensures NetSum(Filter(rows, keep)) == NetSum(Filter(rows[..|rows| - 1], keep)) + if keep(rows[|rows| - 1])
        then rows[|rows| - 1].net else 0
  {
    var init, last := Filter(rows[..|rows| - 1], keep), rows[|rows| - 1];
    if keep(last) {
      NetSumAppend(init, last);
    } else {
      assert init + [] == init;
    }
  }

  /** Filters of which exactly one keeps each row split the sum. */
  lemma {:induction false} FiltersPartition(rows: seq<ReportRow>, a: ReportRow -> bool, b: ReportRow -> bool,
          c: ReportRow -> bool, d: ReportRow -> bool)
    requires forall row :: (a(row) || b(row) || c(row)) != d(row)
    requires forall row :: !(a(row) && b(row)) && !(a(row) && c(row)) && !(b(row) && c(row))
    ensures NetSum(Filter(rows, a)) + NetSum(Filter(rows, b)) + NetSum(Filter(rows, c)) + NetSum(Filter(rows, d))
        == NetSum(rows)
  {
    if rows != [] {
      FiltersPartition(rows[..|rows| - 1], a, b, c, d);
      FilterSum(rows, a);
      FilterSum(rows, b);
      FilterSum(rows, c);
      FilterSum(rows, d);
    }
  }

  /** Every row is in exactly one of the three sections or in the rest. */
  lemma SectionsPartition(rows: seq<ReportRow>)
    ensures NetSum(Section(rows, '1')) + NetSum(Section(rows, '2')) + NetSum(Section(rows, '3'))
        + NetSum(Rest(rows)) == NetSum(rows)
  {
    FiltersPartition(rows,
      (row: ReportRow) => StartsWith(row.code, '1'),
      (row: ReportRow) => StartsWith(row.code, '2'),
      (row: ReportRow) => StartsWith(row.code, '3'),
      (row: ReportRow) => !StartsWith(row.code, '1') && !StartsWith(row.code, '2') && !StartsWith(row.code, '3'));
  }

  /* ----- Over reachable states ----- */

  function Accounts(rows: seq<ReportRow>): set<AccountId>
  {
    set i | 0 <= i < |rows| :: rows[i].account
  }

  /** Adding up rows is adding up over the set of their accounts. */
  lemma {:induction false} NetSumOverAccounts(rows: seq<ReportRow>, f: AccountId -> int)
    requires forall i :: 0 <= i < |rows| ==> rows[i].net == f(rows[i].account)
    requires forall i, j :: 0 <= i < j < |rows| ==> rows[i].account != rows[j].account
    ensures NetSum(rows) == SetSum(Accounts(rows), f)
  {
    if rows != [] {
      var init, last := rows[..|rows| - 1], rows[|rows| - 1];
      NetSumOverAccounts(init, f);
      assert Accounts(rows) == Accounts(init) + {last.account} by {
        assert rows == init + [last];
      }
      assert last.account !in Accounts(init);
      SetSumInsert(Accounts(init), last.account, f);
    }
  }

  /** A sum over accounts is the sum over the balance keys they stand for. */
  lemma {:induction false} SumOverSlots(tenant: TenantId, accounts: set<AccountId>, slots: set<Slot>,
          f: AccountId -> int, g: Slot -> int)
    requires slots == set a | a in accounts :: Slot(tenant, a)
    requires forall a :: a in accounts ==> f(a) == g(Slot(tenant, a))
    ensures SetSum(accounts, f) == SetSum(slots, g)
    decreases accounts
  {
    if accounts != {} {
      var a :| a in accounts;
      SumOverSlots(tenant, accounts - {a}, slots - {Slot(tenant, a)}, f, g);
      SetSumRemove(accounts, a, f);
      SetSumRemove(slots, Slot(tenant, a), g);
    }
  }

  lemma ReportShowsNetTotal(chart: Chart, s: State, tenant: TenantId, rows: seq<ReportRow>)
    requires IsReport(chart, s.balances, tenant, rows)
    ensures NetSum(rows) == NetTotal(chart, s, tenant)
  {
    var f := (a: AccountId) => ReadRow(s.balances, Slot(tenant, a)).2;
    var g := (slot: Slot) => ReadRow(s.balances, slot).2;
    NetSumOverAccounts(rows, f);
    assert Accounts(rows) == TenantAccounts(chart, tenant);
    assert SlotsOf(chart, tenant) == set a | a in TenantAccounts(chart, tenant) :: Slot(tenant, a);
    SumOverSlots(tenant, TenantAccounts(chart, tenant), SlotsOf(chart, tenant), f, g);
  }

  /** The accounts of the rows that `keep` keeps. */
  function Kept(rows: seq<ReportRow>, keep: ReportRow -> bool): set<AccountId>
  {
    set i | 0 <= i < |rows| && keep(rows[i]) :: rows[i].account
  }

  lemma {:induction false} KeptSum(rows: seq<ReportRow>, keep: ReportRow -> bool, f: AccountId -> int)
    requires forall i :: 0 <= i < |rows| ==> rows[i].net == f(rows[i].account)
    requires forall i, j :: 0 <= i < j < |rows| ==> rows[i].account != rows[j].account
    ensures NetSum(Filter(rows, keep)) == SetSum(Kept(rows, keep), f)
  {
    if rows != [] {
      var init, last := rows[..|rows| - 1], rows[|rows| - 1];
      KeptSum(init, keep, f);
      FilterSum(rows, keep);
      KeptNext(rows, keep);
      if keep(last) { SetSumInsert(Kept(init, keep), last.account, f); }
    }
  }

  lemma KeptNext(rows: seq<ReportRow>, keep: ReportRow -> bool)
    requires rows != [] && forall i, j :: 0 <= i < j < |rows| ==> rows[i].account != rows[j].account
    ensures var init, last := rows[..|rows| - 1], rows[|rows| - 1];
            && last.account !in Kept(init, keep)
            && Kept(rows, keep) == if keep(last) then Kept(init, keep) + {last.account} else Kept(init, keep)
  {
    var init, last := rows[..|rows| - 1], rows[|rows| - 1];
    assert rows == init + [last];
    forall a
      ensures a in Kept(rows, keep) <==> a in Kept(init, keep) || (keep(last) && a == last.account)
    {
      if a in Kept(init, keep) {
        var i :| 0 <= i < |init| && keep(init[i]) && init[i].account == a;
        assert rows[i].account == a && keep(rows[i]);
      }
      if keep(last) && a == last.account {
        assert keep(rows[|rows| - 1]) && rows[|rows| - 1].account == a;
      }
    }
  }

  /** The tenant's accounts whose code starts with `c`. */
  function Under(chart: Chart, tenant: TenantId, c: char): set<AccountId>
  {
    set a | a in chart.accounts && chart.accounts[a].tenant == tenant && chart.accounts[a].code != ""
        && chart.accounts[a].code[0] == c
  }

  /** The tenant's accounts whose net is on the debit side, zero included, or on the credit side. */
  function OnSide(chart: Chart, balances: map<Slot, Balance>, tenant: TenantId, side: Direction): set<AccountId>
  {
    set a | a in chart.accounts && chart.accounts[a].tenant == tenant
        && (ReadRow(balances, Slot(tenant, a)).2 >= 0 <==> side == Debit)
  }

  /** The net column of a tenant's accounts. */
  function NetOf(balances: map<Slot, Balance>, tenant: TenantId): AccountId -> int
  {
    (a: AccountId) => ReadRow(balances, Slot(tenant, a)).2
  }

  /** On a report a filter of rows adds up the nets of the accounts it keeps. */
  lemma ReportKeeps(chart: Chart, balances: map<Slot, Balance>, tenant: TenantId, rows: seq<ReportRow>,
          keep: ReportRow -> bool, accounts: set<AccountId>)
    requires IsReport(chart, balances, tenant, rows)
    requires forall a :: a in accounts <==> a in TenantAccounts(chart, tenant) && keep(RowFor(chart, balances, a))
    ensures NetSum(Filter(rows, keep)) == SetSum(accounts, NetOf(balances, tenant))
  {
    forall i | 0 <= i < |rows|
      ensures rows[i].net == NetOf(balances, tenant)(rows[i].account)
    {
      assert rows[i] == RowFor(chart, balances, rows[i].account);
    }
    KeptSum(rows, keep, NetOf(balances, tenant));
    ReportKeepsAccounts(chart, balances, tenant, rows, keep, accounts);
  }

  lemma ReportKeepsAccounts(chart: Chart, balances: map<Slot, Balance>, tenant: TenantId, rows: seq<ReportRow>,
          keep: ReportRow -> bool, accounts: set<AccountId>)
    requires IsReport(chart, balances, tenant, rows)
    requires forall a :: a in accounts <==> a in TenantAccounts(chart, tenant) && keep(RowFor(chart, balances, a))
    ensures Kept(rows, keep) == accounts
  {
    forall a | a in accounts
      ensures a in Kept(rows, keep)
    {
      var i :| 0 <= i < |rows| && rows[i].account == a;
      assert rows[i] == RowFor(chart, balances, a);
      assert keep(rows[i]) && rows[i].account == a;
    }
    forall a | a in Kept(rows, keep)
      ensures a in accounts
    {
      var i :| 0 <= i < |rows| && keep(rows[i]) && rows[i].account == a;
      assert rows[i] == RowFor(chart, balances, a);
    }
  }

  predicate OnDebit(row: ReportRow)
  {
    row.net >= 0
  }

  predicate OnCredit(row: ReportRow)
  {
    row.net < 0
  }

  lemma {:induction false} ShownIsFilter(rows: seq<ReportRow>)
    ensures Shown(rows, Debit) == NetSum(Filter(rows, OnDebit))
    ensures Shown(rows, Credit) == -NetSum(Filter(rows, OnCredit))
  {
    if rows != [] {
      var init, net := rows[..|rows| - 1], rows[|rows| - 1].net;
      ShownIsFilter(init);
      FilterSum(rows, OnDebit);
      FilterSum(rows, OnCredit);
      assert Shown(rows, Debit) == Shown(init, Debit) + if net >= 0 then net else 0;
      assert Shown(rows, Credit) == Shown(init, Credit) + if net < 0 then -net else 0;
    }
  }

  /**
   * The two totals of a trial balance, each for itself: the nets of the accounts on the debit side, and the nets
   * of those on the credit side with the sign flipped.
   */
  lemma TrialBalanceExact(chart: Chart, balances: map<Slot, Balance>, tenant: TenantId, rows: seq<ReportRow>)
    requires IsReport(chart, balances, tenant, rows)
    ensures Shown(rows, Debit) == SetSum(OnSide(chart, balances, tenant, Debit), NetOf(balances, tenant))
    ensures Shown(rows, Credit) == -SetSum(OnSide(chart, balances, tenant, Credit), NetOf(balances, tenant))
  {
    ShownIsFilter(rows);
    ReportKeeps(chart, balances, tenant, rows, OnDebit, OnSide(chart, balances, tenant, Debit));
    ReportKeeps(chart, balances, tenant, rows, OnCredit, OnSide(chart, balances, tenant, Credit));
  }

  /** The three totals of a balance sheet, each for itself, and the flag, on the accounts of the chart. */
  lemma BalanceSheetExact(chart: Chart, balances: map<Slot, Balance>, tenant: TenantId, rows: seq<ReportRow>)
    requires IsReport(chart, balances, tenant, rows)
    ensures BalanceSheet(rows).assets == SetSum(Under(chart, tenant, '1'), NetOf(balances, tenant))
    ensures BalanceSheet(rows).liabilities == SetSum(Under(chart, tenant, '2'), NetOf(balances, tenant))
    ensures BalanceSheet(rows).equity == SetSum(Under(chart, tenant, '3'), NetOf(balances, tenant))
    ensures BalanceSheet(rows).balanced <==>
              SetSum(Under(chart, tenant, '1'), NetOf(balances, tenant))
                == SetSum(Under(chart, tenant, '2'), NetOf(balances, tenant))
                 + SetSum(Under(chart, tenant, '3'), NetOf(balances, tenant))
  {
    SectionExact(chart, balances, tenant, rows, '1');
    SectionExact(chart, balances, tenant, rows, '2');
    SectionExact(chart, balances, tenant, rows, '3');
  }

  lemma SectionExact(chart: Chart, balances: map<Slot, Balance>, tenant: TenantId, rows: seq<ReportRow>, c: char)
    requires IsReport(chart, balances, tenant, rows)
    ensures NetSum(Section(rows, c)) == SetSum(Under(chart, tenant, c), NetOf(balances, tenant))
  {
    ReportKeeps(chart, balances, tenant, rows, (row: ReportRow) => StartsWith(row.code, c), Under(chart, tenant, c));
  }

  /** The net that the stored lines of the projected entries give an account, with the rounding of their amounts. */
  ghost function StoredNet(s: State, tenant: TenantId): AccountId -> int
  {
    (a: AccountId) =>
      JournalRow(s.entries, s.projected.Keys, Slot(tenant, a)).2 +
      RoundingRow(s.entries, s.projected.Keys, Slot(tenant, a)).2
  }

  /** In every reachable state a sum of nets is the sum of what the stored journal says, rounding included. */
  lemma NetsAreStored(cfg: Config, states: seq<State>, steps: seq<Step>, i: nat, tenant: TenantId,
          accounts: set<AccountId>)
    requires Run(cfg, states, steps) && i < |states|
    ensures SetSum(accounts, NetOf(states[i].balances, tenant)) == SetSum(accounts, StoredNet(states[i], tenant))
  {
    forall a | a in accounts
      ensures NetOf(states[i].balances, tenant)(a) == StoredNet(states[i], tenant)(a)
    {
      RowShowsJournal(cfg, states, steps, i, Slot(tenant, a));
    }
    SetSumEqual(accounts, NetOf(states[i].balances, tenant), StoredNet(states[i], tenant));
  }

  /** In every reachable state each total of a balance sheet is that of the stored journal, rounding included. */
  lemma SheetShowsJournal(cfg: Config, states: seq<State>, steps: seq<Step>, i: nat, tenant: TenantId,
          rows: seq<ReportRow>)
    requires Run(cfg, states, steps) && i < |states| && IsReport(cfg.chart, states[i].balances, tenant, rows)
    ensures BalanceSheet(rows).assets == SetSum(Under(cfg.chart, tenant, '1'), StoredNet(states[i], tenant))
    ensures BalanceSheet(rows).liabilities == SetSum(Under(cfg.chart, tenant, '2'), StoredNet(states[i], tenant))
    ensures BalanceSheet(rows).equity == SetSum(Under(cfg.chart, tenant, '3'), StoredNet(states[i], tenant))
  {
    BalanceSheetExact(cfg.chart, states[i].balances, tenant, rows);
    NetsAreStored(cfg, states, steps, i, tenant, Under(cfg.chart, tenant, '1'));
    NetsAreStored(cfg, states, steps, i, tenant, Under(cfg.chart, tenant, '2'));
    NetsAreStored(cfg, states, steps, i, tenant, Under(cfg.chart, tenant, '3'));
  }

  /** In every reachable state a row of a report is its account's stored journal, rounding included. */
  lemma ReportRowsExact(cfg: Config, states: seq<State>, steps: seq<Step>, i: nat, tenant: TenantId,
          rows: seq<ReportRow>, k: nat)
    requires Run(cfg, states, steps) && i < |states| && IsReport(cfg.chart, states[i].balances, tenant, rows)
    requires k < |rows|
    ensures var row, s, slot := rows[k], states[i], Slot(tenant, rows[k].account);
            && row.account in cfg.chart.accounts && cfg.chart.accounts[row.account] == Account(tenant, row.code)
            && (row.debit, row.credit, row.net)
                == Plus(JournalRow(s.entries, s.projected.Keys, slot), RoundingRow(s.entries, s.projected.Keys, slot))
  {
    assert rows[k] == RowFor(cfg.chart, states[i].balances, rows[k].account);
    RowShowsJournal(cfg, states, steps, i, Slot(tenant, rows[k].account));
  }

  /** What the projected entries of a tenant put out of balance, entry by entry. */
  ghost function DriftTotal(s: State, tenant: TenantId): int
  {
    SetSum(s.projected.Keys, (e: EntryId) => DriftOf(s.entries, e, tenant))
  }

  /** In every reachable state the trial balance is out by exactly the drift of the projected entries. */
  lemma TrialBalanceShowsDrift(cfg: Config, states: seq<State>, steps: seq<Step>, i: nat, tenant: TenantId,
          rows: seq<ReportRow>)
    requires Run(cfg, states, steps) && i < |states| && IsReport(cfg.chart, states[i].balances, tenant, rows)
    ensures Shown(rows, Debit) - Shown(rows, Credit) == DriftTotal(states[i], tenant)
  {
    ShownDifference(rows);
    ReportShowsNetTotal(cfg.chart, states[i], tenant, rows);
    NetTotalIsDrift(cfg, states, steps, i, tenant);
  }

  predicate SmallAmounts(s: State, tenant: TenantId)
  {
    forall e :: e in s.projected && e in s.entries && s.entries[e].tenant == tenant ==>
        WithinCap(s.entries[e].lines, Doubles.TWO_53)
  }

  /**
   * With no amount above 2^53 the trial balance reports equal totals in every reachable state, mid-catch-up
   * included.
   */
  lemma TrialBalanceBalances(cfg: Config, states: seq<State>, steps: seq<Step>, i: nat, tenant: TenantId,
          rows: seq<ReportRow>)
    requires Run(cfg, states, steps) && i < |states| && IsReport(cfg.chart, states[i].balances, tenant, rows)
    requires SmallAmounts(states[i], tenant)
    ensures Shown(rows, Debit) == Shown(rows, Credit)
  {
    ShownDifference(rows);
    ReportShowsNetTotal(cfg.chart, states[i], tenant, rows);
    Conserved(cfg, states, steps, i, tenant);
  }

  /**
   * The balance sheet identity in debit-positive signs.  The flag compares without flipping the signs
   * of liabilities and equity, so it holds exactly when twice the assets cancel the net of all other codes.
   */
  lemma BalanceSheetIdentity(cfg: Config, states: seq<State>, steps: seq<Step>, i: nat, tenant: TenantId,
          rows: seq<ReportRow>)
    requires Run(cfg, states, steps) && i < |states| && IsReport(cfg.chart, states[i].balances, tenant, rows)
    ensures var sheet := BalanceSheet(rows);
            && sheet.assets + sheet.liabilities + sheet.equity + NetSum(Rest(rows)) == DriftTotal(states[i], tenant)
            && (sheet.balanced <==> 2 * sheet.assets == DriftTotal(states[i], tenant) - NetSum(Rest(rows)))
    ensures SmallAmounts(states[i], tenant) ==>
              var sheet := BalanceSheet(rows);
              && sheet.assets + sheet.liabilities + sheet.equity + NetSum(Rest(rows)) == 0
              && (sheet.balanced <==> 2 * sheet.assets == -NetSum(Rest(rows)))
  {
    SectionsPartition(rows);
    ReportShowsNetTotal(cfg.chart, states[i], tenant, rows);
    NetTotalIsDrift(cfg, states, steps, i, tenant);
    if SmallAmounts(states[i], tenant) {
      Conserved(cfg, states, steps, i, tenant);
    }
  }

  lemma SectionOfTwo(a: ReportRow, b: ReportRow, c: char)
    ensures NetSum(Section([a, b], c)) == (if StartsWith(a.code, c) then a.net else 0) + if StartsWith(b.code, c)
        then b.net else 0
  {
    FilterOfTwo(a, b, (row: ReportRow) => StartsWith(row.code, c));
  }

  lemma FilterOfTwo(a: ReportRow, b: ReportRow, keep: ReportRow -> bool)
    ensures NetSum(Filter([a, b], keep)) == (if keep(a) then a.net else 0) + if keep(b) then b.net else 0
  {
    assert [a, b][..1] == [a] && [a][..0] == [];
    FilterSum([a, b], keep);
    FilterSum([a], keep);
  }

  /** The documented identity does not hold of the flag: an owner paying in cash already turns it off. */
  lemma PaidInCapitalTurnsFlagOff(cash: AccountId, capital: AccountId, amount: int)
    requires amount > 0
    ensures var rows := [ReportRow(cash, "1000", amount, 0, amount), ReportRow(capital, "3000", 0, amount, -amount)];
            NetSum(rows) == 0 && Shown(rows, Debit) == Shown(rows, Credit) && !BalanceSheet(rows).balanced
  {
    var first := [ReportRow(cash, "1000", amount, 0, amount)];
    var rows := first + [ReportRow(capital, "3000", 0, amount, -amount)];
    assert first[..0] == [] && rows[..1] == first;
    NetSumAppend([], first[0]);
    NetSumAppend(first, rows[1]);
    ShownDifference(rows);
    SectionOfTwo(first[0], rows[1], '1');
    SectionOfTwo(first[0], rows[1], '2');
    SectionOfTwo(first[0], rows[1], '3');
  }
}
