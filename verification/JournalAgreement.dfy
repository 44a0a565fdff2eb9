/**
 * The incremental balances against the journal as it is stored, and against balancePerAccount over its
 * lines.  The projection rounds each amount to a double, so the difference is the rounding of the
 * projected amounts, which is zero up to 2^53.
 */
module JournalAgreement {
  import opened Wrappers
  import opened Types
  import opened Sums
  import opened Permutations
  import opened Legs
  import opened Schema
  import opened Pipeline
  import opened PipelineInvariants
  import opened PipelineTheorems
  import opened ExactlyOnce
  import opened Money
  import opened Posting
  import opened Balances
  import Doubles

  /* ----- Stored amounts and rounding ----- */

  function StoredOn(entries: map<EntryId, Entry>, e: EntryId, slot: Slot, debit: bool): int
  {
    if e in entries then SumOn(StoredLegs(entries[e].lines), slot, debit) else 0
  }

  /** What the stored journal lines of the entries in `es` post to `slot` on one side. */
  ghost function JournalSum(entries: map<EntryId, Entry>, es: set<EntryId>, slot: Slot, debit: bool): int
  {
    SetSum(es, (e: EntryId) => StoredOn(entries, e, slot, debit))
  }

  /** The lines with the error that parseFloat makes on each amount. */
  function RoundingLegs(lines: seq<Line>): (legs: seq<Leg<Slot>>)
    ensures |legs| == |lines|
  {
    seq(|lines|, i requires 0 <= i < |lines| =>
      Leg(SlotOf(lines[i]), lines[i].direction == Debit, Doubles.Round(lines[i].amount) - lines[i].amount))
  }

  function RoundingOn(entries: map<EntryId, Entry>, e: EntryId, slot: Slot, debit: bool): int
  {
    if e in entries then SumOn(RoundingLegs(entries[e].lines), slot, debit) else 0
  }

  /** The sum of Round(amount) - amount over the lines of `es` on one side of `slot`. */
  ghost function RoundingSum(entries: map<EntryId, Entry>, es: set<EntryId>, slot: Slot, debit: bool): int
  {
    SetSum(es, (e: EntryId) => RoundingOn(entries, e, slot, debit))
  }

  lemma {:induction false} ParsedSplits(lines: seq<Line>, n: nat, slot: Slot, debit: bool)
    requires n <= |lines|
    ensures SumUpTo(ParsedLegs(lines), n, slot, debit)
         == SumUpTo(StoredLegs(lines), n, slot, debit) + SumUpTo(RoundingLegs(lines), n, slot, debit)
  {
    if n > 0 {
      ParsedSplits(lines, n - 1, slot, debit);
      PartSplits(lines, n - 1, slot, debit);
    }
  }

  lemma PartSplits(lines: seq<Line>, i: nat, slot: Slot, debit: bool)
    requires i < |lines|
    ensures Part(ParsedLegs(lines)[i], slot, debit)
         == Part(StoredLegs(lines)[i], slot, debit) + Part(RoundingLegs(lines)[i], slot, debit)
  {
  }

  lemma FoldSplits(entries: map<EntryId, Entry>, es: set<EntryId>, slot: Slot, debit: bool)
    ensures SumOver(entries, es, slot, debit)
        == JournalSum(entries, es, slot, debit) + RoundingSum(entries, es, slot, debit)
  {
    var stored := (e: EntryId) => StoredOn(entries, e, slot, debit);
    var rounding := (e: EntryId) => RoundingOn(entries, e, slot, debit);
    var parsed := (e: EntryId) => EntrySum(entries, e, slot, debit);
    forall e | e in es
      ensures parsed(e) == stored(e) + rounding(e)
    {
      if e in entries { ParsedSplits(entries[e].lines, |entries[e].lines|, slot, debit); }
    }
    SetSumPlus(es, stored, rounding, parsed);
  }

  predicate SmallLines(lines: seq<Line>, slot: Slot)
  {
    forall i :: 0 <= i < |lines| && SlotOf(lines[i]) == slot ==> lines[i].amount <= Doubles.TWO_53
  }

  /** No line of `es` posts more than 2^53 to `slot`. */
  predicate SmallOn(entries: map<EntryId, Entry>, es: set<EntryId>, slot: Slot)
  {
    forall e :: e in es && e in entries ==> SmallLines(entries[e].lines, slot)
  }

  lemma {:induction false} SmallLinesExact(lines: seq<Line>, n: nat, slot: Slot, debit: bool)
    requires n <= |lines| && SmallLines(lines, slot)
    ensures SumUpTo(RoundingLegs(lines), n, slot, debit) == 0
  {
    if n > 0 {
      SmallLinesExact(lines, n - 1, slot, debit);
      if SlotOf(lines[n - 1]) == slot { Doubles.SmallIsExact(lines[n - 1].amount); }
    }
  }

  lemma SmallIsExact(entries: map<EntryId, Entry>, es: set<EntryId>, slot: Slot, debit: bool)
    requires SmallOn(entries, es, slot)
    ensures RoundingSum(entries, es, slot, debit) == 0
  {
    forall e | e in es
      ensures RoundingOn(entries, e, slot, debit) == 0
    {
      if e in entries { SmallLinesExact(entries[e].lines, |entries[e].lines|, slot, debit); }
    }
    SetSumZero(es, (e: EntryId) => RoundingOn(entries, e, slot, debit));
  }

  /* ----- Over runs ----- */

  /** Debit, credit and net of the stored lines of `es`. */
  ghost function JournalRow(entries: map<EntryId, Entry>, es: set<EntryId>, slot: Slot): (int, int, int)
  {
    var d, c := JournalSum(entries, es, slot, true), JournalSum(entries, es, slot, false);
    (d, c, d - c)
  }

  ghost function RoundingRow(entries: map<EntryId, Entry>, es: set<EntryId>, slot: Slot): (int, int, int)
  {
    var d, c := RoundingSum(entries, es, slot, true), RoundingSum(entries, es, slot, false);
    (d, c, d - c)
  }

  function Plus(a: (int, int, int), b: (int, int, int)): (int, int, int)
  {
    (a.0 + b.0, a.1 + b.1, a.2 + b.2)
  }

  /**
   * In every reachable state a balance row is the stored lines of the projected entries plus the error of
   * rounding their amounts, and exactly the stored lines when none of them exceeds 2^53.
   */
  lemma RowShowsJournal(cfg: Config, states: seq<State>, steps: seq<Step>, i: nat, slot: Slot)
    requires Run(cfg, states, steps) && i < |states|
    ensures var s := states[i];
            && ReadRow(s.balances, slot) == Plus(JournalRow(s.entries, s.projected.Keys, slot),
                RoundingRow(s.entries, s.projected.Keys, slot))
            && (SmallOn(s.entries, s.projected.Keys, slot) ==>
                ReadRow(s.balances, slot) == JournalRow(s.entries, s.projected.Keys, slot))
  {
    RunInv(cfg, states, steps, i);
    InvShowsAbstract(cfg, states[i]);
    assert ShowsSlot(states[i], slot);
    ShownRow(states[i], slot);
  }

  lemma ShownRow(s: State, slot: Slot)
    requires ShowsSlot(s, slot)
    ensures ReadRow(s.balances, slot)
        == Plus(JournalRow(s.entries, s.projected.Keys, slot), RoundingRow(s.entries, s.projected.Keys, slot))
    ensures SmallOn(s.entries, s.projected.Keys, slot) ==>
        ReadRow(s.balances, slot) == JournalRow(s.entries, s.projected.Keys, slot)
  {
    FoldSplits(s.entries, s.projected.Keys, slot, true);
    FoldSplits(s.entries, s.projected.Keys, slot, false);
    if SmallOn(s.entries, s.projected.Keys, slot) {
      SmallIsExact(s.entries, s.projected.Keys, slot, true);
      SmallIsExact(s.entries, s.projected.Keys, slot, false);
    }
  }

  lemma JournalUnion(entries: map<EntryId, Entry>, es: set<EntryId>, fs: set<EntryId>, slot: Slot)
    requires es !! fs
    ensures JournalRow(entries, es + fs, slot) == Plus(JournalRow(entries, es, slot), JournalRow(entries, fs, slot))
  {
    SetSumUnion(es, fs, (e: EntryId) => StoredOn(entries, e, slot, true));
    SetSumUnion(es, fs, (e: EntryId) => StoredOn(entries, e, slot, false));
  }

  /**
   * The exact lag behind the stored journal, debit, credit and net alike: the whole journal with the
   * rounding of what is projected is the balance row plus the unprojected entries.
   */
  lemma StoredLag(cfg: Config, states: seq<State>, steps: seq<Step>, i: nat, slot: Slot)
    requires Run(cfg, states, steps) && i < |states|
    ensures LagsBy(states[i], slot, JournalRow(states[i].entries, Unprojected(states[i]), slot))
  {
    RunInv(cfg, states, steps, i);
    ProjectedAreStored(cfg, states[i]);
    RowShowsJournal(cfg, states, steps, i, slot);
    LagAt(states[i], slot);
  }

  function Unprojected(s: State): set<EntryId>
  {
    s.entries.Keys - s.projected.Keys
  }

  /** The stored journal is ahead of the balance row by `lag`, up to the rounding of projected amounts. */
  ghost predicate LagsBy(s: State, slot: Slot, lag: (int, int, int))
  {
    var journal := JournalRow(s.entries, s.entries.Keys, slot);
    && Plus(journal, RoundingRow(s.entries, s.projected.Keys, slot)) == Plus(ReadRow(s.balances, slot), lag)
    && (SmallOn(s.entries, s.projected.Keys, slot) ==> journal == Plus(ReadRow(s.balances, slot), lag))
  }

  lemma LagAt(s: State, slot: Slot)
    requires s.projected.Keys <= s.entries.Keys
    requires ReadRow(s.balances, slot)
        == Plus(JournalRow(s.entries, s.projected.Keys, slot), RoundingRow(s.entries, s.projected.Keys, slot))
    requires SmallOn(s.entries, s.projected.Keys, slot) ==>
        ReadRow(s.balances, slot) == JournalRow(s.entries, s.projected.Keys, slot)
    ensures LagsBy(s, slot, JournalRow(s.entries, Unprojected(s), slot))
  {
    JournalSplits(s.entries, s.projected.Keys, slot);
    PlusSwap(JournalRow(s.entries, s.projected.Keys, slot), JournalRow(s.entries, Unprojected(s), slot),
             RoundingRow(s.entries, s.projected.Keys, slot));
  }

  lemma PlusSwap(a: (int, int, int), b: (int, int, int), c: (int, int, int))
    ensures Plus(Plus(a, b), c) == Plus(Plus(a, c), b)
  {
  }

  lemma ProjectedAreStored(cfg: Config, s: State)
    requires Inv(cfg, s)
    ensures s.projected.Keys <= s.entries.Keys
  {
    ProjectedEntriesOk(cfg, s);
  }

  lemma JournalSplits(entries: map<EntryId, Entry>, es: set<EntryId>, slot: Slot)
    requires es <= entries.Keys
    ensures JournalRow(entries, entries.Keys, slot)
        == Plus(JournalRow(entries, es, slot), JournalRow(entries, entries.Keys - es, slot))
  {
    assert es + (entries.Keys - es) == entries.Keys;
    JournalUnion(entries, es, entries.Keys - es, slot);
  }

  /** With every posted event published, a balance row is the stored journal with the rounding of its amounts. */
  lemma QuiescentJournal(cfg: Config, states: seq<State>, steps: seq<Step>, i: nat, slot: Slot)
    requires Run(cfg, states, steps) && i < |states| && Quiescent(states[i])
    ensures var s := states[i];
            && ReadRow(s.balances, slot) == Plus(JournalRow(s.entries, s.entries.Keys, slot),
                RoundingRow(s.entries, s.entries.Keys, slot))
            && (SmallOn(s.entries, s.entries.Keys, slot) ==>
                ReadRow(s.balances, slot) == JournalRow(s.entries, s.entries.Keys, slot))
  {
    QuiescentAgreement(cfg, states, steps, i, slot);
    RowShowsJournal(cfg, states, steps, i, slot);
  }

  /* ----- Against balancePerAccount ----- */

  /** A stored line as the library takes it. */
  function LibraryLine(line: Line): EntryLine
  {
    EntryLine(line.account, line.direction, Sum(line.amount, line.currency), None)
  }

  predicate AllStored(entries: map<EntryId, Entry>, order: seq<EntryId>)
  {
    forall i :: 0 <= i < |order| ==> order[i] in entries
  }

  /** The lines of the entries in `order`, one after the other. */
  function JournalLines(entries: map<EntryId, Entry>, order: seq<EntryId>): seq<EntryLine>
    requires AllStored(entries, order)
  {
    if order == [] then []
    else JournalLines(entries, order[..|order| - 1]) + Map(LibraryLine, entries[order[|order| - 1]].lines)
  }

  /** `order` lists the entries of `es`, each once. */
  ghost predicate Lists(order: seq<EntryId>, es: set<EntryId>)
  {
    && (forall i :: 0 <= i < |order| ==> order[i] in es)
    && (forall e :: e in es ==> e in order)
    && (forall i, j :: 0 <= i < j < |order| ==> order[i] != order[j])
  }

  /** Lines on an account all stand in the slot of the account's tenant. */
  lemma {:induction false} LibrarySums(chart: Chart, entry: Entry, n: nat, a: AccountId, debit: bool)
    requires EntryOk(chart, entry) && n <= |entry.lines| && a in chart.accounts
    ensures SumUpTo(EntryLegs(Map(LibraryLine, entry.lines)), n, a, debit)
         == SumUpTo(StoredLegs(entry.lines), n, Slot(chart.accounts[a].tenant, a), debit)
  {
    if n > 0 {
      LibrarySums(chart, entry, n - 1, a, debit);
      assert LineOk(chart, entry.tenant, entry.lines[n - 1]);
    }
  }

  lemma {:induction false} JournalLineSums(chart: Chart, entries: map<EntryId, Entry>, order: seq<EntryId>,
          es: set<EntryId>, a: AccountId, debit: bool)
    requires AllStored(entries, order) && Lists(order, es) && a in chart.accounts
    requires forall e :: e in es ==> e in entries && EntryOk(chart, entries[e])
    ensures SumOn(EntryLegs(JournalLines(entries, order)), a, debit)
         == JournalSum(entries, es, Slot(chart.accounts[a].tenant, a), debit)
    decreases |order|
  {
    if order == [] {
      assert es == {};
    } else {
      var init, last := order[..|order| - 1], order[|order| - 1];
      ListsInit(order, es);
      JournalLineSums(chart, entries, init, es - {last}, a, debit);
      LibrarySums(chart, entries[last], |entries[last].lines|, a, debit);
      ConcatLegs(JournalLines(entries, init), Map(LibraryLine, entries[last].lines), a, debit);
      SetSumRemove(es, last, (e: EntryId) => StoredOn(entries, e, Slot(chart.accounts[a].tenant, a), debit));
    }
  }

  lemma ListsInit(order: seq<EntryId>, es: set<EntryId>)
    requires Lists(order, es) && order != []
    ensures order[|order| - 1] in es && Lists(order[..|order| - 1], es - {order[|order| - 1]})
  {
    var init, last := order[..|order| - 1], order[|order| - 1];
    assert order == init + [last];
  }

  /**
   * Debit, credit and net of an account as balancePerAccount computes them from the lines of the entries in
   * `order`.
   */
  function LibraryRow(entries: map<EntryId, Entry>, order: seq<EntryId>, a: AccountId): (int, int, int)
    requires AllStored(entries, order) && PerAccount(JournalLines(entries, order)).Success?
  {
    match Find(PerAccount(JournalLines(entries, order)).value, a)
    case None => (0, 0, 0)
    case Some(b) => (b.debitTotal.amount, b.creditTotal.amount, b.net.amount)
  }

  lemma LibraryReads(chart: Chart, entries: map<EntryId, Entry>, order: seq<EntryId>, es: set<EntryId>, a: AccountId)
    requires AllStored(entries, order) && Lists(order, es) && a in chart.accounts
    requires forall e :: e in es ==> e in entries && EntryOk(chart, entries[e])
    requires PerAccount(JournalLines(entries, order)).Success?
    ensures LibraryRow(entries, order, a) == JournalRow(entries, es, Slot(chart.accounts[a].tenant, a))
  {
    JournalLineSums(chart, entries, order, es, a, true);
    JournalLineSums(chart, entries, order, es, a, false);
    LibraryRowSums(entries, order, a);
  }

  /** The row that the library gives an account is the two sums of its lines and their difference. */
  lemma LibraryRowSums(entries: map<EntryId, Entry>, order: seq<EntryId>, a: AccountId)
    requires AllStored(entries, order) && PerAccount(JournalLines(entries, order)).Success?
    ensures var legs := EntryLegs(JournalLines(entries, order));
            LibraryRow(entries, order, a)
              == (SumOn(legs, a, true), SumOn(legs, a, false), SumOn(legs, a, true) - SumOn(legs, a, false))
  {
    TotalsExact(JournalLines(entries, order), a);
  }

  lemma LibraryReadsProjected(cfg: Config, s: State, order: seq<EntryId>, a: AccountId)
    requires Inv(cfg, s) && a in cfg.chart.accounts
    requires Lists(order, s.projected.Keys) && AllStored(s.entries, order)
    requires PerAccount(JournalLines(s.entries, order)).Success?
    ensures LibraryRow(s.entries, order, a)
        == JournalRow(s.entries, s.projected.Keys, Slot(cfg.chart.accounts[a].tenant, a))
  {
    ProjectedEntriesOk(cfg, s);
    LibraryReads(cfg.chart, s.entries, order, s.projected.Keys, a);
  }

  /**
   * In every reachable state a balance row is what balancePerAccount computes from the stored lines of the
   * projected entries, in any order, plus the error of rounding, which is zero up to 2^53.
   */
  lemma LibraryAgrees(cfg: Config, states: seq<State>, steps: seq<Step>, i: nat, order: seq<EntryId>, a: AccountId)
    requires Run(cfg, states, steps) && i < |states| && a in cfg.chart.accounts
    requires Lists(order, states[i].projected.Keys) && AllStored(states[i].entries, order)
    requires PerAccount(JournalLines(states[i].entries, order)).Success?
    ensures var s, slot := states[i], Slot(cfg.chart.accounts[a].tenant, a);
            && ReadRow(s.balances, slot) == Plus(LibraryRow(s.entries, order, a),
                RoundingRow(s.entries, s.projected.Keys, slot))
            && (SmallOn(s.entries, s.projected.Keys, slot) ==>
                ReadRow(s.balances, slot) == LibraryRow(s.entries, order, a))
  {
    RunInv(cfg, states, steps, i);
    LibraryReadsProjected(cfg, states[i], order, a);
    RowShowsJournal(cfg, states, steps, i, Slot(cfg.chart.accounts[a].tenant, a));
  }

  /** At quiescence the balance row of an account is what balancePerAccount computes from the whole stored journal. */
  lemma QuiescentLibrary(cfg: Config, states: seq<State>, steps: seq<Step>, i: nat, order: seq<EntryId>, a: AccountId)
    requires Run(cfg, states, steps) && i < |states| && a in cfg.chart.accounts && Quiescent(states[i])
    requires Lists(order, states[i].entries.Keys) && AllStored(states[i].entries, order)
    requires PerAccount(JournalLines(states[i].entries, order)).Success?
    requires SmallOn(states[i].entries, states[i].entries.Keys, Slot(cfg.chart.accounts[a].tenant, a))
    ensures ReadRow(states[i].balances, Slot(cfg.chart.accounts[a].tenant, a))
        == LibraryRow(states[i].entries, order, a)
  {
    QuiescentAgreement(cfg, states, steps, i, Slot(cfg.chart.accounts[a].tenant, a));
    LibraryAgrees(cfg, states, steps, i, order, a);
  }
}
