/** projectionDeltas: one balance delta per account from database lines, and how it relates to one upsert per line. */
module Deltas {
  import opened Wrappers
  import opened Types
  import opened Permutations
  import opened Legs
  import opened Tags
  import opened Money
  import opened Posting
  import opened Balances
  import opened Decimal

  datatype DbLine = DbLine(account: AccountId, direction: Direction, amount: string, currency: string)

  /** A parsed line. */
  datatype Item = Item(leg: Leg<AccountId>, currency: string)

  predicate AllParse(lines: seq<DbLine>)
  {
    forall i :: 0 <= i < |lines| ==> ParseMinor(lines[i].amount).Some?
  }

  /** What is added up for a line; a text that does not parse never gets here. */
  function ItemOf(line: DbLine): Item
  {
    Item(Leg(line.account, line.direction == Debit, match ParseMinor(line.amount) case Some(v) => v case None => 0),
        line.currency)
  }

  function Items(lines: seq<DbLine>): seq<Item>
  {
    Map(ItemOf, lines)
  }

  function ItemLeg(item: Item): Leg<AccountId>
  {
    item.leg
  }

  function ItemTag(item: Item): Tag
  {
    Tag(item.leg.key, item.currency)
  }

  function LegsOf(items: seq<Item>): seq<Leg<AccountId>>
  {
    Map(ItemLeg, items)
  }

  function AccountsOf(items: seq<Item>): set<AccountId>
  {
    set i | 0 <= i < |items| :: items[i].leg.key
  }

  function ItemDeltas(items: seq<Item>): map<AccountId, Tally>
  {
    map a | a in AccountsOf(items) ::
      Tally(CurrencyFor(Map(ItemTag, items), a), SumOn(LegsOf(items), a, true), SumOn(LegsOf(items), a, false))
  }

  /** What projectionDeltas computes; it throws when some amount does not parse. */
  function DeltasOf(lines: seq<DbLine>): Result<map<AccountId, Tally>, ErrorCode>
  {
    if !AllParse(lines) then Failure(SyntaxError) else Success(ItemDeltas(Items(lines)))
  }

  /** INSERT ... ON CONFLICT DO UPDATE of one parsed line on a table of tallies. */
  function Upsert(table: map<AccountId, Tally>, item: Item): map<AccountId, Tally>
  {
    var t := if item.leg.key in table then table[item.leg.key] else Tally(item.currency, 0, 0);
    table[item.leg.key := if item.leg.debit then t.(debit := t.debit + item.leg.amount)
        else t.(credit := t.credit + item.leg.amount)]
  }

  function UpsertAll(table: map<AccountId, Tally>, items: seq<Item>, n: nat): map<AccountId, Tally>
    requires n <= |items|
  {
    if n == 0 then table else Upsert(UpsertAll(table, items, n - 1), items[n - 1])
  }

  /** The delta map applied once per account. */
  function ApplyDeltas(table: map<AccountId, Tally>, deltas: map<AccountId, Tally>): map<AccountId, Tally>
  {
    map a | a in table.Keys + deltas.Keys ::
      if a !in deltas then table[a]
      else if a !in table then deltas[a]
      else Tally(table[a].currency, table[a].debit + deltas[a].debit, table[a].credit + deltas[a].credit)
  }

  lemma UpsertNext(items: seq<Item>, n: nat)
    requires n < |items|
    ensures UpsertAll(map[], items, n + 1) == Upsert(UpsertAll(map[], items, n), items[n])
  {
  }

  /** The body of the loop after parsing. */
  method AddParsed(deltas: map<AccountId, Tally>, line: DbLine, amount: int) returns (r: map<AccountId, Tally>)
    requires ParseMinor(line.amount) == Some(amount)
    ensures r == Upsert(deltas, ItemOf(line))
  {
    r := deltas;
    if line.account !in r {
      r := r[line.account := Tally(line.currency, 0, 0)];
    }
    var d := r[line.account];
    var next := if line.direction == Debit then d.(debit := d.debit + amount) else d.(credit := d.credit + amount);
    UpdateTwice(deltas, line.account, Tally(line.currency, 0, 0), next);
    r := r[line.account := next];
  }

  method ProjectionDeltas(lines: seq<DbLine>) returns (r: Result<map<AccountId, Tally>, ErrorCode>)
    ensures r == DeltasOf(lines)
  {
    var deltas: map<AccountId, Tally> := map[];
    var i := 0;
    while i < |lines|
      invariant 0 <= i <= |lines|
      invariant forall j :: 0 <= j < i ==> ParseMinor(lines[j].amount).Some?
      invariant deltas == UpsertAll(map[], Items(lines), i)
    {
      var line := lines[i];
      var parsed := ParseMinor(line.amount);
      if parsed.None? {
        return Failure(SyntaxError);
      }
      UpsertNext(Items(lines), i);
      deltas := AddParsed(deltas, line, parsed.value);
      i := i + 1;
    }
    UpsertAllFromEmpty(Items(lines));
    return Success(deltas);
  }

  /* ----- One upsert per line against one delta per account ----- */

  predicate Seen(items: seq<Item>, n: nat, a: AccountId)
    requires n <= |items|
  {
    exists i :: 0 <= i < n && items[i].leg.key == a
  }

  /** Debit and credit of a row, without the currency, which an upsert takes from whichever line comes first. */
  function Figures(table: map<AccountId, Tally>, a: AccountId): (int, int)
  {
    if a in table then (table[a].debit, table[a].credit) else (0, 0)
  }

  lemma {:induction false} SeenNext(items: seq<Item>, n: nat, a: AccountId)
    requires n < |items|
    ensures Seen(items, n + 1, a) <==> Seen(items, n, a) || items[n].leg.key == a
  {
    if items[n].leg.key == a {
      assert items[n].leg.key == a;
    } else if Seen(items, n + 1, a) {
      var i :| 0 <= i < n + 1 && items[i].leg.key == a;
      assert items[i].leg.key == a && i < n;
    }
  }

  lemma {:induction false} UpsertAllKeys(table: map<AccountId, Tally>, items: seq<Item>, n: nat, a: AccountId)
    requires n <= |items|
    ensures a in UpsertAll(table, items, n) <==> a in table || Seen(items, n, a)
  {
    if n > 0 {
      UpsertAllKeys(table, items, n - 1, a);
      SeenNext(items, n - 1, a);
    }
  }

  lemma {:induction false} UpsertFigures(table: map<AccountId, Tally>, item: Item, a: AccountId)
    ensures Figures(Upsert(table, item), a)
        == (Figures(table, a).0 + Part(item.leg, a, true), Figures(table, a).1 + Part(item.leg, a, false))
  {
  }

  /** After `n` upserts every account reads its base plus the sums of the first `n` lines. */
  lemma {:induction false} UpsertAllFigures(table: map<AccountId, Tally>, items: seq<Item>, n: nat, a: AccountId)
    requires n <= |items|
    ensures Figures(UpsertAll(table, items, n), a) == (Figures(table, a).0 + SumUpTo(LegsOf(items), n, a, true),
                                                       Figures(table, a).1 + SumUpTo(LegsOf(items), n, a, false))
  {
    if n > 0 {
      UpsertAllFigures(table, items, n - 1, a);
      UpsertFigures(UpsertAll(table, items, n - 1), items[n - 1], a);
    }
  }

  lemma {:induction false} UpsertAllCurrency(table: map<AccountId, Tally>, items: seq<Item>, n: nat, a: AccountId)
    requires n <= |items| && a in UpsertAll(table, items, n)
    ensures UpsertAll(table, items, n)[a].currency == if a in table then table[a].currency
        else CurrencyFor(Map(ItemTag, items), a)
  {
    if n > 0 {
      if a in UpsertAll(table, items, n - 1) {
        UpsertAllCurrency(table, items, n - 1, a);
      } else {
        UpsertAllKeys(table, items, n - 1, a);
        CurrencyForFirst(Map(ItemTag, items), a, n - 1);
      }
    }
  }

  lemma {:induction false} NotSeenIsZero(items: seq<Item>, a: AccountId)
    requires !Seen(items, |items|, a)
    ensures SumOn(LegsOf(items), a, true) == 0 && SumOn(LegsOf(items), a, false) == 0
  {
    UntouchedIsZero(LegsOf(items), |items|, a, true);
    UntouchedIsZero(LegsOf(items), |items|, a, false);
  }

  lemma {:induction false} DeltaFigures(items: seq<Item>, a: AccountId)
    ensures a in ItemDeltas(items) <==> Seen(items, |items|, a)
    ensures Figures(ItemDeltas(items), a) == (SumOn(LegsOf(items), a, true), SumOn(LegsOf(items), a, false))
  {
    assert a in AccountsOf(items) <==> Seen(items, |items|, a);
    if !Seen(items, |items|, a) { NotSeenIsZero(items, a); }
  }

  lemma {:induction false} AppliedFigures(table: map<AccountId, Tally>, deltas: map<AccountId, Tally>, a: AccountId)
    ensures Figures(ApplyDeltas(table, deltas), a)
        == (Figures(table, a).0 + Figures(deltas, a).0, Figures(table, a).1 + Figures(deltas, a).1)
  {
  }

  /** Delta fusion: one upsert per line does to any table what applying the delta map once per account does. */
  lemma {:induction false} UpsertAllExact(table: map<AccountId, Tally>, items: seq<Item>)
    ensures UpsertAll(table, items, |items|) == ApplyDeltas(table, ItemDeltas(items))
  {
    var x, y := UpsertAll(table, items, |items|), ApplyDeltas(table, ItemDeltas(items));
    forall a
      ensures a in x <==> a in y
      ensures a in x ==> x[a] == y[a]
    {
      FusedRow(table, items, a);
    }
  }

  /** From an empty table the upserts build the delta map itself. */
  lemma {:induction false} UpsertAllFromEmpty(items: seq<Item>)
    ensures UpsertAll(map[], items, |items|) == ItemDeltas(items)
  {
    UpsertAllExact(map[], items);
    assert ApplyDeltas(map[], ItemDeltas(items)) == ItemDeltas(items);
  }

  lemma {:induction false} FusedRow(table: map<AccountId, Tally>, items: seq<Item>, a: AccountId)
    ensures var x, y := UpsertAll(table, items, |items|), ApplyDeltas(table, ItemDeltas(items));
            (a in x <==> a in y) && (a in x ==> x[a] == y[a])
  {
    var x, y := UpsertAll(table, items, |items|), ApplyDeltas(table, ItemDeltas(items));
    UpsertAllKeys(table, items, |items|, a);
    UpsertAllFigures(table, items, |items|, a);
    DeltaFigures(items, a);
    AppliedFigures(table, ItemDeltas(items), a);
    if a in x {
      UpsertAllCurrency(table, items, |items|, a);
      assert x[a] == Tally(x[a].currency, Figures(x, a).0, Figures(x, a).1);
      assert y[a] == Tally(y[a].currency, Figures(y, a).0, Figures(y, a).1);
    }
  }

  /** What the first `n` lines post to an account on one side, amounts as they parse. */
  function Minor(lines: seq<DbLine>, n: nat, a: AccountId, direction: Direction): int
    requires n <= |lines| && forall i :: 0 <= i < n ==> ParseMinor(lines[i].amount).Some?
  {
    if n == 0 then 0
    else
      Minor(lines, n - 1, a, direction) +
      if lines[n - 1].account == a && lines[n - 1].direction == direction then ParseMinor(lines[n - 1].amount).value
      else 0
  }

  lemma {:induction false} MinorIsSum(lines: seq<DbLine>, n: nat, a: AccountId, direction: Direction)
    requires n <= |lines| && forall i :: 0 <= i < n ==> ParseMinor(lines[i].amount).Some?
    ensures SumUpTo(LegsOf(Items(lines)), n, a, direction == Debit) == Minor(lines, n, a, direction)
  {
    if n > 0 {
      MinorIsSum(lines, n - 1, a, direction);
    }
  }

  /** Line `i` is the first one on its account. */
  predicate FirstLine(lines: seq<DbLine>, i: nat)
    requires i < |lines|
  {
    forall j :: 0 <= j < i ==> lines[j].account != lines[i].account
  }

  /** projectionDeltas fails exactly when some amount does not parse. */
  lemma DeltasParse(lines: seq<DbLine>)
    ensures DeltasOf(lines) == Failure(SyntaxError) <==>
              exists i :: 0 <= i < |lines| && ParseMinor(lines[i].amount).None?
    ensures DeltasOf(lines).Failure? ==> DeltasOf(lines) == Failure(SyntaxError)
  {
  }

  /**
   * An account has a delta exactly when it has lines; the delta is the two sums of its lines, in the currency of
   * the first of them.
   */
  lemma DeltasExact(lines: seq<DbLine>, a: AccountId)
    requires DeltasOf(lines).Success?
    ensures a in DeltasOf(lines).value <==> exists i :: 0 <= i < |lines| && lines[i].account == a
    ensures a in DeltasOf(lines).value ==>
              && DeltasOf(lines).value[a].debit == Minor(lines, |lines|, a, Debit)
              && DeltasOf(lines).value[a].credit == Minor(lines, |lines|, a, Credit)
    ensures forall i :: 0 <= i < |lines| && lines[i].account == a && FirstLine(lines, i) ==>
        a in DeltasOf(lines).value && DeltasOf(lines).value[a].currency == lines[i].currency
  {
    var items := Items(lines);
    assert AllParse(lines);
    MinorIsSum(lines, |lines|, a, Debit);
    MinorIsSum(lines, |lines|, a, Credit);
    assert forall i :: 0 <= i < |lines| ==> items[i].leg.key == lines[i].account;
    if a in ItemDeltas(items) {
      var i :| 0 <= i < |items| && items[i].leg.key == a;
      assert lines[i].account == a;
    }
    forall i | 0 <= i < |lines| && lines[i].account == a && FirstLine(lines, i)
      ensures a in ItemDeltas(items) && ItemDeltas(items)[a].currency == lines[i].currency
    {
      assert items[i].leg.key == a;
      CurrencyForFirst(Map(ItemTag, items), a, i);
    }
  }

  /** In any order of the lines: the same rows exist and read the same figures. */
  lemma {:induction false} FusionInAnyOrder(table: map<AccountId, Tally>, items: seq<Item>, order: seq<Item>,
          a: AccountId)
    requires multiset(order) == multiset(items)
    ensures a in UpsertAll(table, order, |order|) <==> a in ApplyDeltas(table, ItemDeltas(items))
    ensures Figures(UpsertAll(table, order, |order|), a) == Figures(ApplyDeltas(table, ItemDeltas(items)), a)
  {
    MapPermutation(ItemLeg, order, items);
    SumPermutation(LegsOf(order), LegsOf(items), a, true);
    SumPermutation(LegsOf(order), LegsOf(items), a, false);
    UpsertAllFigures(table, order, |order|, a);
    UpsertAllKeys(table, order, |order|, a);
    DeltaFigures(items, a);
    AppliedFigures(table, ItemDeltas(items), a);
    SeenInAnyOrder(items, order, a);
    SeenInAnyOrder(order, items, a);
  }

  lemma {:induction false} SeenInAnyOrder(items: seq<Item>, order: seq<Item>, a: AccountId)
    requires multiset(order) == multiset(items)
    ensures Seen(items, |items|, a) ==> Seen(order, |order|, a)
  {
    if Seen(items, |items|, a) {
      var i :| 0 <= i < |items| && items[i].leg.key == a;
      assert items[i] in multiset(order);
      var j :| 0 <= j < |order| && order[j] == items[i];
      assert order[j].leg.key == a;
    }
  }

  /* ----- Deltas against balancePerAccount ----- */

  /** Line by line the same account and side, and an amount text that parses to `scale` times the amount. */
  predicate SameLines(db: seq<DbLine>, lines: seq<EntryLine>, scale: nat)
  {
    && |db| == |lines|
    && forall i :: 0 <= i < |db| ==>
         && db[i].account == lines[i].account && db[i].direction == lines[i].side
         && ParseMinor(db[i].amount) == Some(scale * lines[i].amount.amount)
  }

  /** For lines in one decimal format the deltas are the balances of balancePerAccount times the scale of the format. */
  lemma {:induction false} DeltasAreScaledBalances(db: seq<DbLine>, lines: seq<EntryLine>, scale: nat, a: AccountId)
    requires SameLines(db, lines, scale) && PerAccount(lines).Success?
    ensures DeltasOf(db).Success?
    ensures Figures(DeltasOf(db).value, a)
        == (scale * ReadTotals(PerAccount(lines).value, a).0, scale * ReadTotals(PerAccount(lines).value, a).1)
  {
    TotalsExact(lines, a);
    ScaledSums(LegsOf(Items(db)), EntryLegs(lines), scale, |db|, a, true);
    ScaledSums(LegsOf(Items(db)), EntryLegs(lines), scale, |db|, a, false);
    DeltaFigures(Items(db), a);
  }

  /** The two formats that NUMERIC(20,4) and plain integers give: scale 10000 with a dot, scale 1 without. */
  lemma {:induction false} FormatScales(n: nat)
    ensures ParseMinor(Print(n * 10000)) == Some(10000 * n)
    ensures ParseMinor(Digits(n)) == Some(1 * n)
  {
    RoundTrip(n * 10000);
    PlainRoundTrip(n);
  }
}
