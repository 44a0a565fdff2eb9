/** The upserts that the projection runs against the delta map of projectionDeltas. */
module Fusion {
  import opened Wrappers
  import opened Types
  import opened Permutations
  import opened Legs
  import opened Schema
  import opened ExactlyOnce
  import opened ProjectionService
  import opened JournalAgreement
  import opened FloatDeltas
  import Deltas

  function ParsedLeg(line: Line): Leg<Slot>
  {
    Leg(SlotOf(line), line.direction == Debit, Parsed(line))
  }

  /** What lines post to a slot does not depend on their order. */
  lemma ParsedInAnyOrder(lines: seq<Line>, order: seq<Line>, slot: Slot, debit: bool)
    requires multiset(order) == multiset(lines)
    ensures SumOn(ParsedLegs(order), slot, debit) == SumOn(ParsedLegs(lines), slot, debit)
  {
    assert ParsedLegs(order) == Map(ParsedLeg, order) && ParsedLegs(lines) == Map(ParsedLeg, lines);
    MapPermutation(ParsedLeg, order, lines);
    SumPermutation(ParsedLegs(order), ParsedLegs(lines), slot, debit);
  }

  predicate OneTenant(lines: seq<Line>, tenant: TenantId)
  {
    forall i :: 0 <= i < |lines| ==> lines[i].tenant == tenant
  }

  /** Within one tenant a slot is an account. */
  lemma {:induction false} SlotSums(lines: seq<Line>, n: nat, slot: Slot, debit: bool)
    requires n <= |lines| && OneTenant(lines, slot.tenant)
    ensures SumUpTo(StoredLegs(lines), n, slot, debit) == SumUpTo(AccountLegs(lines), n, slot.account, debit)
  {
    if n > 0 {
      SlotSums(lines, n - 1, slot, debit);
    }
  }

  /** For amounts within 2^53, `scale` times what any order of the lines posts to a slot is the delta of its account. */
  lemma {:induction false} PostsDelta(lines: seq<Line>, order: seq<Line>, db: seq<Deltas.DbLine>, scale: nat,
          slot: Slot, debit: bool)
    requires multiset(order) == multiset(lines) && OneTenant(lines, slot.tenant)
    requires SameLines(lines, db, scale) && SmallLines(lines, slot)
    ensures Deltas.DeltasOf(db).Success?
    ensures scale * SumOn(ParsedLegs(order), slot, debit)
         == if debit then Deltas.Figures(Deltas.DeltasOf(db).value, slot.account).0
            else Deltas.Figures(Deltas.DeltasOf(db).value, slot.account).1
  {
    ParsedInAnyOrder(lines, order, slot, debit);
    ParsedSplits(lines, |lines|, slot, debit);
    SmallLinesExact(lines, |lines|, slot, debit);
    SlotSums(lines, |lines|, slot, debit);
    ScaledSums(Deltas.LegsOf(Deltas.Items(db)), AccountLegs(lines), scale, |db|, slot.account, debit);
    Deltas.DeltaFigures(Deltas.Items(db), slot.account);
  }

  /**
   * Delta fusion for the statements the projection runs: the upserts of an entry's lines in any order add
   * to each balance row of its tenant exactly the delta of the account, over the scale of the text format,
   * net being debit minus credit.
   */
  lemma UpsertsAreDeltas(balances: map<Slot, Balance>, lines: seq<Line>, order: seq<Line>, db: seq<Deltas.DbLine>,
          scale: nat, slot: Slot)
    requires multiset(order) == multiset(lines) && OneTenant(lines, slot.tenant)
    requires SameLines(lines, db, scale) && SmallLines(lines, slot)
    requires Upserts(balances, order, |order|).Some?
    ensures Deltas.DeltasOf(db).Success?
    ensures var before, after := ReadRow(balances, slot), ReadRow(Upserts(balances, order, |order|).value, slot);
            var (debit, credit) := Deltas.Figures(Deltas.DeltasOf(db).value, slot.account);
            MovesBy(scale, before, after, debit, credit)
  {
    OrderPostsDeltas(lines, order, db, scale, slot);
    UpsertsAdd(balances, order, |order|, slot);
    RowMoves(scale, ReadRow(balances, slot), ReadRow(Upserts(balances, order, |order|).value, slot),
             SumOn(ParsedLegs(order), slot, true), SumOn(ParsedLegs(order), slot, false));
  }

  lemma OrderPostsDeltas(lines: seq<Line>, order: seq<Line>, db: seq<Deltas.DbLine>, scale: nat, slot: Slot)
    requires multiset(order) == multiset(lines) && OneTenant(lines, slot.tenant)
    requires SameLines(lines, db, scale) && SmallLines(lines, slot)
    ensures Deltas.DeltasOf(db).Success?
    ensures Deltas.Figures(Deltas.DeltasOf(db).value, slot.account)
         == (scale * SumOn(ParsedLegs(order), slot, true), scale * SumOn(ParsedLegs(order), slot, false))
  {
    PostsDelta(lines, order, db, scale, slot, true);
    PostsDelta(lines, order, db, scale, slot, false);
  }

  /** From `before` to `after` a balance row moves by the two figures over the scale, its net by their difference. */
  predicate MovesBy(scale: int, before: (int, int, int), after: (int, int, int), debit: int, credit: int)
  {
    && scale * (after.0 - before.0) == debit && scale * (after.1 - before.1) == credit
    && scale * (after.2 - before.2) == debit - credit
  }

  lemma RowMoves(scale: int, before: (int, int, int), after: (int, int, int), d: int, c: int)
    requires after == (before.0 + d, before.1 + c, before.2 + d - c)
    ensures MovesBy(scale, before, after, scale * d, scale * c)
  {
    assert after.0 - before.0 == d && after.1 - before.1 == c && after.2 - before.2 == d - c;
  }

  /** Rows of other tenants are left alone. */
  lemma OtherTenantsStay(balances: map<Slot, Balance>, order: seq<Line>, tenant: TenantId, slot: Slot)
    requires OneTenant(order, tenant) && slot.tenant != tenant && Upserts(balances, order, |order|).Some?
    ensures ReadRow(Upserts(balances, order, |order|).value, slot) == ReadRow(balances, slot)
  {
    UpsertsAdd(balances, order, |order|, slot);
    UntouchedIsZero(ParsedLegs(order), |order|, slot, true);
    UntouchedIsZero(ParsedLegs(order), |order|, slot, false);
  }
}
