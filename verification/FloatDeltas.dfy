/** computeDeltas: per-account totals in doubles, and when they agree with the exact deltas of projectionDeltas. */
module FloatDeltas {
  import opened Wrappers
  import opened Types
  import opened Legs
  import opened Schema
  import opened ProjectionService
  import opened Decimal
  import opened Balances
  import Deltas
  import Doubles

  datatype FloatTally = FloatTally(currency: string, debit: nat, credit: nat)

  function AccountLegs(lines: seq<Line>): (legs: seq<Leg<AccountId>>)
    ensures |legs| == |lines|
  {
    seq(|lines|, i requires 0 <= i < |lines| => Leg(lines[i].account, lines[i].direction == Debit, lines[i].amount))
  }

  /** What the first `n` lines add up to on one side of an account, every addition rounded to a double. */
  function FloatOn(lines: seq<Line>, n: nat, a: AccountId, direction: Direction): nat
    requires n <= |lines|
  {
    if n == 0 then 0
    else
      var t := FloatOn(lines, n - 1, a, direction);
      if lines[n - 1].account == a && lines[n - 1].direction == direction
          then Doubles.Round(t + Parsed(lines[n - 1])) else t
  }

  /** The first of the first `n` lines on the account names the currency. */
  predicate CurrencyFrom(lines: seq<Line>, n: nat, a: AccountId, currency: string)
    requires n <= |lines|
  {
    exists i :: 0 <= i < n && lines[i].account == a && lines[i].currency == currency && forall j :: 0 <= j < i ==>
        lines[j].account != a
  }

  predicate TallyOk(lines: seq<Line>, n: nat, a: AccountId, tally: FloatTally)
    requires n <= |lines|
  {
    && tally.debit == FloatOn(lines, n, a, Debit) && tally.credit == FloatOn(lines, n, a, Credit)
    && CurrencyFrom(lines, n, a, tally.currency)
  }

  ghost predicate TalliesOk(lines: seq<Line>, n: nat, tallies: map<AccountId, FloatTally>)
    requires n <= |lines|
  {
    && (forall i :: 0 <= i < n ==> lines[i].account in tallies)
    && (forall a :: a in tallies ==> TallyOk(lines, n, a, tallies[a]))
  }

  lemma {:induction false} UntouchedFloat(lines: seq<Line>, n: nat, a: AccountId, direction: Direction)
    requires n <= |lines| && forall i :: 0 <= i < n ==> lines[i].account != a
    ensures FloatOn(lines, n, a, direction) == 0
  {
    if n > 0 {
      UntouchedFloat(lines, n - 1, a, direction);
    }
  }

  /** One more line changes the tally of its own account only. */
  lemma NextTally(lines: seq<Line>, n: nat, a: AccountId, currency: string)
    requires n < |lines|
    requires CurrencyFrom(lines, n, a, currency)
          || (lines[n].account == a && lines[n].currency == currency && forall j :: 0 <= j < n ==>
              lines[j].account != a)
    ensures CurrencyFrom(lines, n + 1, a, currency)
  {
    if CurrencyFrom(lines, n, a, currency) {
      var i :| 0 <= i < n && lines[i].account == a && lines[i].currency == currency && forall j :: 0 <= j < i ==>
          lines[j].account != a;
      assert lines[i].account == a;
    } else {
      assert lines[n].account == a;
    }
  }

  function Tallied(tallies: map<AccountId, FloatTally>, line: Line): map<AccountId, FloatTally>
  {
    var t := if line.account in tallies then tallies[line.account] else FloatTally(line.currency, 0, 0);
    tallies[line.account :=
      if line.direction == Debit then t.(debit := Doubles.Round(t.debit + Parsed(line)))
      else t.(credit := Doubles.Round(t.credit + Parsed(line)))]
  }

  lemma OldTally(lines: seq<Line>, n: nat, tallies: map<AccountId, FloatTally>, a: AccountId)
    requires n < |lines| && a in tallies && TallyOk(lines, n, a, tallies[a])
    ensures TallyOk(lines, n + 1, a, Tallied(tallies, lines[n])[a])
  {
    NextTally(lines, n, a, tallies[a].currency);
  }

  lemma NewTally(lines: seq<Line>, n: nat, tallies: map<AccountId, FloatTally>)
    requires n < |lines| && lines[n].account !in tallies && forall i :: 0 <= i < n ==> lines[i].account in tallies
    ensures TallyOk(lines, n + 1, lines[n].account, Tallied(tallies, lines[n])[lines[n].account])
  {
    UntouchedFloat(lines, n, lines[n].account, Debit);
    UntouchedFloat(lines, n, lines[n].account, Credit);
    NextTally(lines, n, lines[n].account, lines[n].currency);
  }

  lemma TalliedOk(lines: seq<Line>, n: nat, tallies: map<AccountId, FloatTally>)
    requires n < |lines| && TalliesOk(lines, n, tallies)
    ensures TalliesOk(lines, n + 1, Tallied(tallies, lines[n]))
  {
    forall a | a in Tallied(tallies, lines[n])
      ensures TallyOk(lines, n + 1, a, Tallied(tallies, lines[n])[a])
    {
      if a in tallies {
        OldTally(lines, n, tallies, a);
      } else {
        NewTally(lines, n, tallies);
      }
    }
  }

  /** The body of the loop. */
  method AddLine(tallies: map<AccountId, FloatTally>, line: Line) returns (r: map<AccountId, FloatTally>)
    ensures r == Tallied(tallies, line)
  {
    r := tallies;
    if line.account !in r {
      r := r[line.account := FloatTally(line.currency, 0, 0)];
    }
    var d := r[line.account];
    var amount := Parsed(line);
    var next := if line.direction == Debit then d.(debit := Doubles.Round(d.debit + amount))
        else d.(credit := Doubles.Round(d.credit + amount));
    UpdateTwice(tallies, line.account, FloatTally(line.currency, 0, 0), next);
    r := r[line.account := next];
  }

  method ComputeDeltas(lines: seq<Line>) returns (tallies: map<AccountId, FloatTally>)
    ensures TalliesOk(lines, |lines|, tallies)
  {
    tallies := map[];
    var i := 0;
    while i < |lines|
      invariant 0 <= i <= |lines|
      invariant TalliesOk(lines, i, tallies)
    {
      TalliedOk(lines, i, tallies);
      tallies := AddLine(tallies, lines[i]);
      i := i + 1;
    }
  }

  /** Up to 2^53 a double tally is the exact sum. */
  lemma {:induction false} FloatOnExact(lines: seq<Line>, n: nat, a: AccountId, direction: Direction)
    requires n <= |lines| && SumUpTo(AccountLegs(lines), n, a, direction == Debit) <= Doubles.TWO_53
    ensures FloatOn(lines, n, a, direction) == SumUpTo(AccountLegs(lines), n, a, direction == Debit)
  {
    if n > 0 {
      FloatOnExact(lines, n - 1, a, direction);
      if lines[n - 1].account == a && lines[n - 1].direction == direction {
        SumNonNegative(lines, n - 1, a, direction);
        Doubles.SmallIsExact(lines[n - 1].amount);
        Doubles.SmallIsExact(SumUpTo(AccountLegs(lines), n, a, direction == Debit));
      }
    }
  }

  /** On each account the helper adds up as the projection loop does on the lines of that account alone. */
  lemma {:induction false} FloatOnIsFloatTotal(lines: seq<Line>, n: nat, a: AccountId, direction: Direction)
    requires n <= |lines|
    ensures var own := OnAccount(lines, n, a);
            FloatOn(lines, n, a, direction) == FloatTotal(own, |own|, direction)
  {
    if n > 0 {
      var before := OnAccount(lines, n - 1, a);
      FloatOnIsFloatTotal(lines, n - 1, a, direction);
      if lines[n - 1].account == a {
        FloatTotalNext(before, lines[n - 1], direction);
        assert OnAccount(lines, n, a) == before + [lines[n - 1]];
      } else {
        assert OnAccount(lines, n, a) == before;
      }
    }
  }

  /** Those of the first `n` lines that are on the account, in their order. */
  function OnAccount(lines: seq<Line>, n: nat, a: AccountId): seq<Line>
    requires n <= |lines|
  {
    if n == 0 then []
    else if lines[n - 1].account == a then OnAccount(lines, n - 1, a) + [lines[n - 1]]
    else OnAccount(lines, n - 1, a)
  }

  lemma {:induction false} SumNonNegative(lines: seq<Line>, n: nat, a: AccountId, direction: Direction)
    requires n <= |lines|
    ensures SumUpTo(AccountLegs(lines), n, a, direction == Debit) >= 0
  {
    if n > 0 {
      SumNonNegative(lines, n - 1, a, direction);
    }
  }

  /** The same lines as database texts of one format: `scale` is 10000 with four decimals and 1 without. */
  predicate SameLines(lines: seq<Line>, db: seq<Deltas.DbLine>, scale: nat)
  {
    && |db| == |lines|
    && forall i :: 0 <= i < |db| ==>
         && db[i].account == lines[i].account && db[i].direction == lines[i].direction
         && ParseMinor(db[i].amount) == Some(scale * lines[i].amount)
  }

  /** The two delta helpers agree, up to the scale of the text format, on every account whose sides stay within 2^53. */
  lemma {:induction false} HelpersAgree(lines: seq<Line>, db: seq<Deltas.DbLine>, scale: nat, a: AccountId)
    requires SameLines(lines, db, scale)
    requires SumOn(AccountLegs(lines), a, true) <= Doubles.TWO_53
    requires SumOn(AccountLegs(lines), a, false) <= Doubles.TWO_53
    ensures Deltas.DeltasOf(db).Success?
    ensures Deltas.Figures(Deltas.DeltasOf(db).value, a)
         == (scale * FloatOn(lines, |lines|, a, Debit), scale * FloatOn(lines, |lines|, a, Credit))
  {
    FloatOnExact(lines, |lines|, a, Debit);
    FloatOnExact(lines, |lines|, a, Credit);
    var large := Deltas.LegsOf(Deltas.Items(db));
    ScaledSums(large, AccountLegs(lines), scale, |db|, a, true);
    ScaledSums(large, AccountLegs(lines), scale, |db|, a, false);
    Deltas.DeltaFigures(Deltas.Items(db), a);
  }
}
