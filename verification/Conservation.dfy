/**
 * Conservation seen through the projected balances.  The journal balances exactly, but the projection
 * parses each amount into a double, so what a reader sees is conserved up to the rounding of amounts
 * above 2^53, and the bound 2^53 is tight.
 */
module Conservation {
  import opened Sums
  import opened Legs
  import opened Types
  import opened Schema
  import opened Pipeline
  import opened PipelineInvariants
  import opened PipelineTheorems
  import opened ExactlyOnce
  import Doubles

  /** What an entry adds to the sum of all nets of its tenant: zero unless rounding is uneven. */
  function Drift(lines: seq<Line>): int
  {
    Side(ParsedLegs(lines), true) - Side(ParsedLegs(lines), false)
  }

  function DriftOf(entries: map<EntryId, Entry>, e: EntryId, tenant: TenantId): int
  {
    if e in entries && entries[e].tenant == tenant then Drift(entries[e].lines) else 0
  }

  function SideOf(entries: map<EntryId, Entry>, e: EntryId, tenant: TenantId, debit: bool): int
  {
    if e in entries && entries[e].tenant == tenant then Side(ParsedLegs(entries[e].lines), debit) else 0
  }

  /** The rows of account_balances that belong to the tenant's chart of accounts. */
  ghost function SlotsOf(chart: Chart, tenant: TenantId): set<Slot>
  {
    set a | a in chart.accounts && chart.accounts[a].tenant == tenant :: Slot(tenant, a)
  }

  /** The sum of net_balance over all accounts of a tenant, as the reports read it. */
  ghost function NetTotal(chart: Chart, s: State, tenant: TenantId): int
  {
    SetSum(SlotsOf(chart, tenant), (slot: Slot) => ReadRow(s.balances, slot).2)
  }

  /** Over the tenant's slots, an entry of the tenant shows its whole sides and an entry of another tenant nothing. */
  lemma EntryOverSlots(chart: Chart, entries: map<EntryId, Entry>, e: EntryId, tenant: TenantId, debit: bool)
    requires e in entries && EntryOk(chart, entries[e])
    ensures SetSum(SlotsOf(chart, tenant), (slot: Slot) => EntrySum(entries, e, slot, debit))
         == SideOf(entries, e, tenant, debit)
  {
    var lines := entries[e].lines;
    var legs := ParsedLegs(lines);
    var slots := SlotsOf(chart, tenant);
    var f := (slot: Slot) => EntrySum(entries, e, slot, debit);
    forall i | 0 <= i < |lines|
      ensures legs[i].key == SlotOf(lines[i]) && legs[i].key.tenant == entries[e].tenant
      ensures entries[e].tenant == tenant ==> legs[i].key in slots
    {
      assert LineOk(chart, entries[e].tenant, lines[i]);
    }
    if entries[e].tenant == tenant {
      KeysCoverSide(slots, legs, |legs|, debit);
      SetSumEqual(slots, f, (slot: Slot) => SumUpTo(legs, |legs|, slot, debit));
    } else {
      forall slot | slot in slots
        ensures f(slot) == 0
      {
        UntouchedIsZero(legs, |legs|, slot, debit);
      }
      SetSumZero(slots, f);
    }
  }

  lemma SideOverSlots(chart: Chart, entries: map<EntryId, Entry>, es: set<EntryId>, tenant: TenantId, debit: bool)
    requires forall e :: e in es ==> e in entries && EntryOk(chart, entries[e])
    ensures SetSum(SlotsOf(chart, tenant), (slot: Slot) => SumOver(entries, es, slot, debit))
         == SetSum(es, (e: EntryId) => SideOf(entries, e, tenant, debit))
  {
    var slots := SlotsOf(chart, tenant);
    var f := (slot: Slot) => (e: EntryId) => EntrySum(entries, e, slot, debit);
    var g := (e: EntryId) => (slot: Slot) => EntrySum(entries, e, slot, debit);
    var bySlot := (slot: Slot) => SumOver(entries, es, slot, debit);
    var byEntry := (e: EntryId) => SideOf(entries, e, tenant, debit);
    forall slot | slot in slots
      ensures bySlot(slot) == SetSum(es, f(slot))
    {
      SetSumEqual(es, f(slot), (e: EntryId) => EntrySum(entries, e, slot, debit));
    }
    forall e | e in es
      ensures byEntry(e) == SetSum(slots, g(e))
    {
      SetSumEqual(slots, g(e), (slot: Slot) => EntrySum(entries, e, slot, debit));
      EntryOverSlots(chart, entries, e, tenant, debit);
    }
    SetSumExchange(slots, es, f, g, bySlot, byEntry);
  }

  /** Adding up the nets of a set of rows is adding up its debits and taking away its credits. */
  lemma SlotsAddUp(s: State, slots: set<Slot>)
    requires ShowsAbstract(s)
    ensures SetSum(slots, (slot: Slot) => SumOver(s.entries, s.projected.Keys, slot, true))
         == SetSum(slots, (slot: Slot) => ReadRow(s.balances, slot).2)
          + SetSum(slots, (slot: Slot) => SumOver(s.entries, s.projected.Keys, slot, false))
  {
    var net := (slot: Slot) => ReadRow(s.balances, slot).2;
    var dr := (slot: Slot) => SumOver(s.entries, s.projected.Keys, slot, true);
    var cr := (slot: Slot) => SumOver(s.entries, s.projected.Keys, slot, false);
    forall slot | slot in slots
      ensures dr(slot) == net(slot) + cr(slot)
    {
      assert ShowsSlot(s, slot);
    }
    SetSumPlus(slots, net, cr, dr);
  }

  lemma InvNetTotal(cfg: Config, s: State, tenant: TenantId)
    requires Inv(cfg, s)
    ensures NetTotal(cfg.chart, s, tenant) == SetSum(s.projected.Keys, (e: EntryId) => DriftOf(s.entries, e, tenant))
  {
    InvShowsAbstract(cfg, s);
    ProjectedEntriesOk(cfg, s);
    ShownNetTotal(cfg.chart, s, tenant);
  }

  lemma ShownNetTotal(chart: Chart, s: State, tenant: TenantId)
    requires ShowsAbstract(s) && forall e :: e in s.projected.Keys ==> e in s.entries && EntryOk(chart, s.entries[e])
    ensures NetTotal(chart, s, tenant) == SetSum(s.projected.Keys, (e: EntryId) => DriftOf(s.entries, e, tenant))
  {
    var es := s.projected.Keys;
    SlotsAddUp(s, SlotsOf(chart, tenant));
    SideOverSlots(chart, s.entries, es, tenant, true);
    SideOverSlots(chart, s.entries, es, tenant, false);
    SetSumPlus(es,
      (e: EntryId) => DriftOf(s.entries, e, tenant),
      (e: EntryId) => SideOf(s.entries, e, tenant, false),
      (e: EntryId) => SideOf(s.entries, e, tenant, true));
  }

  /** In every reachable state, mid-catch-up included, a tenant's nets sum to the drift of its projected entries. */
  lemma NetTotalIsDrift(cfg: Config, states: seq<State>, steps: seq<Step>, i: nat, tenant: TenantId)
    requires Run(cfg, states, steps) && i < |states|
    ensures NetTotal(cfg.chart, states[i], tenant)
         == SetSum(states[i].projected.Keys, (e: EntryId) => DriftOf(states[i].entries, e, tenant))
  {
    RunInv(cfg, states, steps, i);
    InvNetTotal(cfg, states[i], tenant);
  }

  /* ----- When nothing drifts ----- */

  predicate WithinCap(lines: seq<Line>, cap: nat)
  {
    forall i :: 0 <= i < |lines| ==> lines[i].amount <= cap
  }

  lemma {:induction false} ParsedIsStored(lines: seq<Line>, n: nat, slot: Slot, debit: bool)
    requires n <= |lines| && WithinCap(lines, Doubles.TWO_53)
    ensures SumUpTo(ParsedLegs(lines), n, slot, debit) == SumUpTo(StoredLegs(lines), n, slot, debit)
    ensures SideUpTo(ParsedLegs(lines), n, debit) == SideUpTo(StoredLegs(lines), n, debit)
  {
    if n > 0 {
      ParsedIsStored(lines, n - 1, slot, debit);
      Doubles.SmallIsExact(lines[n - 1].amount);
    }
  }

  lemma NoDriftWithinCap(lines: seq<Line>)
    requires LinesBalanced(lines) && WithinCap(lines, Doubles.TWO_53)
    ensures Drift(lines) == 0
  {
    ParsedIsStored(lines, |lines|, Slot(0, 0), true);
    ParsedIsStored(lines, |lines|, Slot(0, 0), false);
  }

  /**
   * Conservation: with no stored amount above 2^53, every tenant's projected nets sum to zero in every state of
   * every run.
   */
  lemma Conserved(cfg: Config, states: seq<State>, steps: seq<Step>, i: nat, tenant: TenantId)
    requires Run(cfg, states, steps) && i < |states|
    requires forall e :: e in states[i].projected && e in states[i].entries && states[i].entries[e].tenant == tenant
               ==> WithinCap(states[i].entries[e].lines, Doubles.TWO_53)
    ensures NetTotal(cfg.chart, states[i], tenant) == 0
  {
    var s := states[i];
    NetTotalIsDrift(cfg, states, steps, i, tenant);
    RunInv(cfg, states, steps, i);
    forall e | e in s.projected.Keys
      ensures DriftOf(s.entries, e, tenant) == 0
    {
      assert ProjectedOk(s, e) && Anchored(cfg, s, e);
      if s.entries[e].tenant == tenant { NoDriftWithinCap(s.entries[e].lines); }
    }
    SetSumZero(s.projected.Keys, (e: EntryId) => DriftOf(s.entries, e, tenant));
  }

  /** A balanced entry that the API accepts and the projection unbalances: one debit of 2^53 + 1 against 2^53 and 1. */
  function UnevenLines(tenant: TenantId, a: AccountId, b: AccountId, currency: string): seq<Line>
  {
    [Line(tenant, a, Debit, Doubles.TWO_53 + 1, currency),
     Line(tenant, b, Credit, Doubles.TWO_53, currency),
     Line(tenant, b, Credit, 1, currency)]
  }

  lemma UnevenDrifts(tenant: TenantId, a: AccountId, b: AccountId, currency: string)
    ensures LinesBalanced(UnevenLines(tenant, a, b, currency)) && Drift(UnevenLines(tenant, a, b, currency)) == -1
    ensures forall i :: 0 <= i < 3 ==> FitsAmount(UnevenLines(tenant, a, b, currency)[i].amount)
  {
    var lines := UnevenLines(tenant, a, b, currency);
    var stored, parsed := StoredLegs(lines), ParsedLegs(lines);
    Doubles.FirstInexact();
    Doubles.SmallIsExact(Doubles.TWO_53);
    Doubles.SmallIsExact(1);
    SideOfThree(stored, true);
    SideOfThree(stored, false);
    SideOfThree(parsed, true);
    SideOfThree(parsed, false);
  }

  /** The exact bound: a cap on amounts keeps every balanced entry free of drift if and only if it is at most 2^53. */
  lemma CapIsTight(cap: nat)
    ensures (forall lines :: LinesBalanced(lines) && WithinCap(lines, cap) ==> Drift(lines) == 0) <==>
        cap <= Doubles.TWO_53
  {
    if cap <= Doubles.TWO_53 {
      forall lines | LinesBalanced(lines) && WithinCap(lines, cap)
        ensures Drift(lines) == 0
      {
        NoDriftWithinCap(lines);
      }
    } else {
      var lines := UnevenLines(0, 1, 2, "USD");
      UnevenDrifts(0, 1, 2, "USD");
      assert LinesBalanced(lines) && WithinCap(lines, cap) && Drift(lines) != 0;
    }
  }
}
