/** The decimal parser of projectionDeltas: text to integer minor units of four decimal places. */
module Decimal {
  import opened Wrappers

  predicate IsDigits(s: string)
  {
    forall i :: 0 <= i < |s| ==> '0' <= s[i] <= '9'
  }

  function DigitValue(c: char): nat
    requires '0' <= c <= '9'
  {
    (c as int) - ('0' as int)
  }

  function DigitChar(d: nat): (c: char)
    requires d < 10
    ensures '0' <= c <= '9' && DigitValue(c) == d
  {
    (d + ('0' as int)) as char
  }

  /** The number a string of digits denotes; no digits denote 0. */
  function ValueOf(s: string): nat
    requires IsDigits(s)
  {
    if s == "" then 0 else 10 * ValueOf(s[..|s| - 1]) + DigitValue(s[|s| - 1])
  }

  /** BigInt of a decimal literal with optional sign; None where it throws. */
  function BigIntOf(s: string): Option<int>
  {
    if IsDigits(s) then Some(ValueOf(s))
    else if |s| > 1 && s[0] == '-' && IsDigits(s[1..]) then Some(-(ValueOf(s[1..]) as int))
    else if |s| > 1 && s[0] == '+' && IsDigits(s[1..]) then Some(ValueOf(s[1..]))
    else None
  }

  function Dots(s: string): nat
  {
    if s == "" then 0 else (if s[0] == '.' then 1 else 0) + Dots(s[1..])
  }

  function FirstDot(s: string): (i: nat)
    requires Dots(s) > 0
    ensures i < |s| && s[i] == '.'
  {
    if s[0] == '.' then 0 else 1 + FirstDot(s[1..])
  }

  /** Four fraction digits: padded with zeros on the right, anything further cut off. */
  function FourPlaces(frac: string): (r: string)
    ensures |r| == 4
  {
    (frac + "0000")[..4]
  }

  function ParseMinor(s: string): Option<int>
  {
    if s != "" && IsDigits(s) then Some(ValueOf(s))
    else if Dots(s) == 1 then
      var i := FirstDot(s);
      BigIntOf(s[..i] + FourPlaces(s[i + 1..]))
    else BigIntOf(s)
  }

  /* ----- Digit strings ----- */

  function Pow10(k: nat): (p: nat)
    ensures p >= 1
  {
    if k == 0 then 1 else 10 * Pow10(k - 1)
  }

  lemma {:induction false} Pow10Sum(j: nat, k: nat)
    ensures Pow10(j + k) == Pow10(j) * Pow10(k)
    decreases k
  {
    if k > 0 {
      Pow10Sum(j, k - 1);
      assert Pow10(j + k) == 10 * (Pow10(j) * Pow10(k - 1));
      Shuffle(Pow10(j), Pow10(k - 1));
    }
  }

  lemma Shuffle(a: int, b: int)
    ensures 10 * (a * b) == a * (10 * b)
  {
  }

  lemma ValueSnoc(s: string, c: char)
    requires IsDigits(s) && '0' <= c <= '9'
    ensures IsDigits(s + [c]) && ValueOf(s + [c]) == 10 * ValueOf(s) + DigitValue(c)
  {
    assert (s + [c])[..|s|] == s;
  }

  lemma {:induction false} ValueConcat(a: string, b: string)
    requires IsDigits(a) && IsDigits(b)
    ensures IsDigits(a + b) && ValueOf(a + b) == ValueOf(a) * Pow10(|b|) + ValueOf(b)
    decreases |b|
  {
    if b == "" {
      assert a + b == a;
    } else {
      var b', c := b[..|b| - 1], b[|b| - 1];
      assert b == b' + [c] && a + b == (a + b') + [c];
      ValueConcat(a, b');
      ValueConcatNext(a, b', c);
    }
  }

  lemma ValueConcatNext(a: string, b: string, c: char)
    requires IsDigits(a) && IsDigits(b) && IsDigits(a + b) && '0' <= c <= '9'
    requires ValueOf(a + b) == ValueOf(a) * Pow10(|b|) + ValueOf(b)
    ensures IsDigits(b + [c]) && IsDigits((a + b) + [c])
    ensures ValueOf((a + b) + [c]) == ValueOf(a) * Pow10(|b + [c]|) + ValueOf(b + [c])
  {
    ValueSnoc(a + b, c);
    ValueSnoc(b, c);
    ConcatStep(ValueOf(a), Pow10(|b|), Pow10(|b + [c]|), ValueOf(b), DigitValue(c));
  }

  lemma ConcatStep(a: int, p: int, q: int, b: int, d: int)
    requires q == 10 * p
    ensures 10 * (a * p + b) + d == a * q + (10 * b + d)
  {
    Shuffle(a, p);
  }

  lemma {:induction false} ValueBelow(s: string)
    requires IsDigits(s)
    ensures ValueOf(s) < Pow10(|s|)
    decreases |s|
  {
    if s != "" {
      ValueBelow(s[..|s| - 1]);
    }
  }

  function Zeros(k: nat): (r: string)
    ensures |r| == k && IsDigits(r) && forall i :: 0 <= i < k ==> r[i] == '0'
  {
    seq(k, _ => '0')
  }

  lemma {:induction false} ZerosAreZero(k: nat)
    ensures ValueOf(Zeros(k)) == 0
  {
    if k > 0 {
      ZerosAreZero(k - 1);
      assert Zeros(k)[..k - 1] == Zeros(k - 1);
    }
  }

  lemma {:induction false} DigitsHaveNoDots(s: string)
    requires IsDigits(s)
    ensures Dots(s) == 0
  {
    if s != "" {
      DigitsHaveNoDots(s[1..]);
    }
  }

  lemma {:induction false} OneDot(w: string, f: string)
    requires IsDigits(w) && IsDigits(f)
    ensures Dots(w + "." + f) == 1 && FirstDot(w + "." + f) == |w|
    decreases |w|
  {
    var s := w + "." + f;
    if w == "" {
      assert s[1..] == f;
      DigitsHaveNoDots(f);
    } else {
      assert s[1..] == w[1..] + "." + f;
      OneDot(w[1..], f);
    }
  }

  /* ----- What the parser computes ----- */

  lemma CancelPad(w: nat, v: nat, p: nat, q: nat)
    requires p >= 1 && q >= 1 && p * q == 10000
    ensures (w * p + v) * 10000 / p == w * 10000 + v * q
  {
    assert (w * p + v) * 10000 == (w * 10000 + v * q) * p by {
      assert v * 10000 == v * (q * p) == (v * q) * p;
      assert (w * p + v) * 10000 == w * p * 10000 + v * 10000;
      assert w * p * 10000 == (w * 10000) * p;
      assert (w * 10000 + v * q) * p == (w * 10000) * p + (v * q) * p;
    }
    Cancel(w * 10000 + v * q, p, 0);
  }

  lemma Cancel(x: nat, p: nat, r: nat)
    requires r < p
    ensures (x * p + r) / p == x
  {
    var q, m := (x * p + r) / p, (x * p + r) % p;
    var d := x - q;
    assert d * p == x * p - q * p == m - r;
    assert d >= 1 ==> d * p >= p;
    assert d <= -1 ==> d * p + p <= 0;
  }

  lemma CancelCut(x: nat, p: nat, r: nat)
    requires r < p
    ensures (x * p + r) * 10000 / (10000 * p) == x
  {
    assert (x * p + r) * 10000 == x * (10000 * p) + r * 10000 by {
      assert (x * p + r) * 10000 == (x * p) * 10000 + r * 10000;
      assert (x * p) * 10000 == x * (10000 * p);
    }
    Cancel(x, 10000 * p, r * 10000);
  }

  lemma PaddedValue(f: string)
    requires IsDigits(f) && |f| <= 4
    ensures IsDigits(FourPlaces(f)) && ValueOf(FourPlaces(f)) == ValueOf(f) * Pow10(4 - |f|)
  {
    assert FourPlaces(f) == f + Zeros(4 - |f|);
    ValueConcat(f, Zeros(4 - |f|));
    ZerosAreZero(4 - |f|);
  }

  lemma Pow10Four()
    ensures Pow10(4) == 10000
  {
    assert Pow10(2) == 100 && Pow10(3) == 1000;
  }

  lemma ShortFraction(w: string, f: string)
    requires IsDigits(w) && IsDigits(f) && |f| <= 4
    ensures IsDigits(w + f) && IsDigits(w + FourPlaces(f))
    ensures ValueOf(w + FourPlaces(f)) == ValueOf(w + f) * 10000 / Pow10(|f|)
  {
    Pow10Four();
    ValueConcat(w, f);
    PaddedValue(f);
    ValueConcat(w, FourPlaces(f));
    Pow10Sum(|f|, 4 - |f|);
    CancelPad(ValueOf(w), ValueOf(f), Pow10(|f|), Pow10(4 - |f|));
  }

  /** Dropping the digits `g` behind `s` rounds down. */
  lemma CutValue(s: string, g: string)
    requires IsDigits(s) && IsDigits(g)
    ensures IsDigits(s + g) && ValueOf(s) == ValueOf(s + g) * 10000 / Pow10(4 + |g|)
  {
    ValueConcat(s, g);
    ValueBelow(g);
    Pow10Four();
    Pow10Sum(4, |g|);
    CancelCut(ValueOf(s), Pow10(|g|), ValueOf(g));
  }

  lemma LongFraction(w: string, f: string)
    requires IsDigits(w) && IsDigits(f) && |f| > 4
    ensures IsDigits(w + f) && IsDigits(w + FourPlaces(f))
    ensures ValueOf(w + FourPlaces(f)) == ValueOf(w + f) * 10000 / Pow10(|f|)
  {
    var f4, g := f[..4], f[4..];
    assert f == f4 + g && FourPlaces(f) == f4;
    assert w + f4 + g == w + f;
    CutValue(w + f4, g);
  }

  /**
   * A dotted amount `w.f` parses to its value in units of 1/10000, rounded down: up to four fraction
   * digits are exact and further ones are cut off.
   */
  lemma DottedIsFloor(w: string, f: string)
    requires IsDigits(w) && IsDigits(f)
    ensures IsDigits(w + f)
    ensures ParseMinor(w + "." + f) == Some(ValueOf(w + f) * 10000 / Pow10(|f|))
  {
    var s := w + "." + f;
    OneDot(w, f);
    assert !IsDigits(s) by { assert s[|w|] == '.'; }
    assert s[..|w|] == w && s[|w| + 1..] == f;
    FourPlacesValue(w, f);
    assert BigIntOf(w + FourPlaces(f)) == Some(ValueOf(w + FourPlaces(f)));
  }

  lemma FourPlacesValue(w: string, f: string)
    requires IsDigits(w) && IsDigits(f)
    ensures IsDigits(w + f) && IsDigits(w + FourPlaces(f))
    ensures ValueOf(w + FourPlaces(f)) == ValueOf(w + f) * 10000 / Pow10(|f|)
  {
    if |f| <= 4 { ShortFraction(w, f); } else { LongFraction(w, f); }
  }

  predicate IsSign(c: char)
  {
    c == '-' || c == '+'
  }

  function WithSign(c: char, n: int): int
    requires IsSign(c)
  {
    if c == '-' then -n else n
  }

  /** A sign in front of a dotted amount gives its value that sign; the magnitude is still rounded down. */
  lemma SignedDotted(c: char, w: string, f: string)
    requires IsSign(c) && IsDigits(w) && IsDigits(f)
    ensures IsDigits(w + f)
    ensures ParseMinor([c] + w + "." + f) == Some(WithSign(c, ValueOf(w + f) * 10000 / Pow10(|f|)))
  {
    FourPlacesValue(w, f);
    SignedParse(c, w, f);
  }

  lemma SignedParse(c: char, w: string, f: string)
    requires IsSign(c) && IsDigits(w) && IsDigits(f) && IsDigits(w + FourPlaces(f))
    ensures ParseMinor([c] + w + "." + f) == Some(WithSign(c, ValueOf(w + FourPlaces(f))))
  {
    var s := [c] + w + "." + f;
    assert s[1..] == w + "." + f;
    OneDot(w, f);
    assert Dots(s) == 1 && FirstDot(s) == 1 + |w|;
    assert s[..1 + |w|] == [c] + w && s[2 + |w|..] == f;
    SignedBigInt(c, w + FourPlaces(f));
    assert [c] + w + FourPlaces(f) == [c] + (w + FourPlaces(f));
    assert !IsDigits(s) by { assert s[0] == c; }
  }

  lemma SignedBigInt(c: char, digits: string)
    requires IsSign(c) && digits != "" && IsDigits(digits)
    ensures BigIntOf([c] + digits) == Some(WithSign(c, ValueOf(digits)))
  {
    var s := [c] + digits;
    assert s[1..] == digits;
    assert !IsDigits(s) by { assert s[0] == c; }
  }

  /** Without a dot exactly the digit strings parse, with or without one sign in front, unscaled. */
  lemma DotlessParses(s: string)
    requires Dots(s) == 0
    ensures ParseMinor(s).Some? <==>
              IsDigits(s) || exists c, digits :: IsSign(c) && digits != "" && IsDigits(digits) && s == [c] + digits
    ensures forall c, digits :: IsSign(c) && digits != "" && IsDigits(digits) && s == [c] + digits ==>
        ParseMinor(s) == Some(WithSign(c, ValueOf(digits)))
  {
    forall c, digits | IsSign(c) && digits != "" && IsDigits(digits) && s == [c] + digits
      ensures ParseMinor(s) == Some(WithSign(c, ValueOf(digits)))
    {
      SignedBigInt(c, digits);
      assert s[0] == c && !IsDigits(s);
    }
    if |s| > 1 && IsSign(s[0]) && IsDigits(s[1..]) {
      assert s == [s[0]] + s[1..];
    }
  }

  /** A text with two dots or more never parses. */
  lemma ManyDotsFail(s: string)
    requires Dots(s) >= 2
    ensures ParseMinor(s) == None
  {
    if IsDigits(s) { DigitsHaveNoDots(s); }
    if IsDigits(s[1..]) { DigitsHaveNoDots(s[1..]); }
  }

  /** A text without a dot is taken as it is, unscaled. */
  lemma PlainIsUnscaled(s: string)
    requires s != "" && IsDigits(s)
    ensures ParseMinor(s) == Some(ValueOf(s))
  {
  }

  /* ----- Round trips ----- */

  function Digits(n: nat): (s: string)
    ensures s != "" && IsDigits(s)
  {
    if n < 10 then [DigitChar(n)] else Digits(n / 10) + [DigitChar(n % 10)]
  }

  lemma {:induction false} DigitsValue(n: nat)
    ensures ValueOf(Digits(n)) == n
  {
    if n < 10 {
      assert Digits(n)[..0] == "";
    } else {
      DigitsValue(n / 10);
      assert Digits(n)[..|Digits(n)| - 1] == Digits(n / 10);
    }
  }

  function FourDigits(r: nat): (s: string)
    requires r < 10000
    ensures |s| == 4 && IsDigits(s)
  {
    [DigitChar(r / 10 / 10 / 10), DigitChar(r / 10 / 10 % 10), DigitChar(r / 10 % 10), DigitChar(r % 10)]
  }

  lemma FourDigitsValue(r: nat)
    requires r < 10000
    ensures ValueOf(FourDigits(r)) == r
  {
    var a, b, c, d := DigitChar(r / 10 / 10 / 10), DigitChar(r / 10 / 10 % 10), DigitChar(r / 10 % 10),
        DigitChar(r % 10);
    ValueSnoc("", a);
    ValueSnoc("" + [a], b);
    ValueSnoc("" + [a] + [b], c);
    ValueSnoc("" + [a] + [b] + [c], d);
    assert FourDigits(r) == "" + [a] + [b] + [c] + [d];
  }

  /** `n` units of 1/10000 as NUMERIC(20,4) prints them. */
  function Print(n: nat): string
  {
    Digits(n / 10000) + "." + FourDigits(n % 10000)
  }

  /** Printing and parsing gives back every non-negative amount. */
  lemma RoundTrip(n: nat)
    ensures ParseMinor(Print(n)) == Some(n)
  {
    var w, f := Digits(n / 10000), FourDigits(n % 10000);
    DottedIsFloor(w, f);
    DigitsValue(n / 10000);
    FourDigitsValue(n % 10000);
    ValueConcat(w, f);
    Pow10Four();
    Cancel(n, 10000, 0);
  }

  lemma PlainRoundTrip(n: nat)
    ensures ParseMinor(Digits(n)) == Some(n)
  {
    DigitsValue(n);
    PlainIsUnscaled(Digits(n));
  }

  /** The two formats of one amount agree only for zero: the dotless one is not scaled. */
  lemma FormatsDiffer(n: nat)
    ensures ParseMinor(Digits(n)) == ParseMinor(Print(n * 10000)) <==> n == 0
  {
    PlainRoundTrip(n);
    RoundTrip(n * 10000);
  }
}
