/** Currency-safe integer money. */
module Money {
  import opened Wrappers

  datatype ErrorCode =
    | UnbalancedEntry | EmptyLines | CurrencyMismatch | NegativeAmount | InvalidDate | InvalidInput | SyntaxError

  /** An amount in minor units with its currency. */
  datatype Sum = Sum(amount: int, currency: string)

  predicate CurrencyCode(s: string)
  {
    |s| == 3 && forall i :: 0 <= i < 3 ==> 'A' <= s[i] <= 'Z'
  }

  const CAPITALS: string := "ABCDEFGHIJKLMNOPQRSTUVWXYZ"

  /** money() keeps the amount, whatever its sign, and accepts exactly three capital letters as a currency. */
  lemma MakeMoneyExact(amount: int, currency: string)
    ensures MakeMoney(amount, currency) == Success(Sum(amount, currency))
        <==> exists a, b, c :: a in CAPITALS && b in CAPITALS && c in CAPITALS && currency == [a, b, c]
    ensures MakeMoney(amount, currency) != Success(Sum(amount, currency)) ==>
        MakeMoney(amount, currency) == Failure(InvalidInput)
  {
    CapitalsAreLetters();
    if CurrencyCode(currency) {
      assert currency == [currency[0], currency[1], currency[2]];
    }
  }

  lemma CapitalsAreLetters()
    ensures forall c: char :: c in CAPITALS <==> 'A' <= c <= 'Z'
  {
    forall c: char | 'A' <= c <= 'Z'
      ensures c in CAPITALS
    {
      assert CAPITALS[c as int - 65] == c;
    }
  }

  function MakeMoney(amount: int, currency: string): Result<Sum, ErrorCode>
  {
    if CurrencyCode(currency) then Success(Sum(amount, currency)) else Failure(InvalidInput)
  }

  function AddMoney(a: Sum, b: Sum): Result<Sum, ErrorCode>
  {
    if a.currency != b.currency then Failure(CurrencyMismatch) else Success(Sum(a.amount + b.amount, a.currency))
  }

  /** The reduce of sumMoney over the first `n` items. */
  function SumFirst(items: seq<Sum>, n: nat): Result<Sum, ErrorCode>
    requires 1 <= n <= |items|
  {
    if n == 1 then Success(items[0])
    else
      var acc :- SumFirst(items, n - 1);
      AddMoney(acc, items[n - 1])
  }

  function SumMoney(items: seq<Sum>): Result<Sum, ErrorCode>
  {
    if items == [] then Failure(InvalidInput) else SumFirst(items, |items|)
  }

  function TotalFirst(items: seq<Sum>, n: nat): int
    requires n <= |items|
  {
    if n == 0 then 0 else TotalFirst(items, n - 1) + items[n - 1].amount
  }

  predicate SameCurrency(items: seq<Sum>, n: nat)
    requires 1 <= n <= |items|
  {
    forall i :: 0 <= i < n ==> items[i].currency == items[0].currency
  }

  lemma {:induction false} SumFirstExact(items: seq<Sum>, n: nat)
    requires 1 <= n <= |items|
    ensures SumFirst(items, n) == if SameCurrency(items, n) then Success(Sum(TotalFirst(items, n), items[0].currency))
                                  else Failure(CurrencyMismatch)
  {
    if n > 1 {
      SumFirstExact(items, n - 1);
      if SameCurrency(items, n - 1) && items[n - 1].currency == items[0].currency {
        assert SameCurrency(items, n);
      }
    } else {
      assert TotalFirst(items, 1) == TotalFirst(items, 0) + items[0].amount;
    }
  }

  /** sumMoney is exact: it fails on no items, fails on mixed currencies, and otherwise is the integer total. */
  lemma SumMoneyExact(items: seq<Sum>)
    ensures items == [] ==> SumMoney(items) == Failure(InvalidInput)
    ensures items != [] ==> SumMoney(items) == if SameCurrency(items, |items|)
        then Success(Sum(TotalFirst(items, |items|), items[0].currency))
                                               else Failure(CurrencyMismatch)
  {
    if items != [] {
      SumFirstExact(items, |items|);
    }
  }
}
