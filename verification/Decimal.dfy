/** Fixed-point decimals: the numeric(14,3) kernel shared by Money and Quantity, and the journal's
    `toMilli`. An amount is an integer number of thousandths. JavaScript strings and BigInts become
    Dafny strings and integers; `\d` is an ASCII digit. */
module Decimal {
  import opened Outcomes

  const SCALE: nat := 1000
  /** 11 integer nines and 3 fractional nines, in thousandths. */
  const MAX_MAGNITUDE: nat := 99_999_999_999_999

  // ---------------------------------------------------------------- digit strings

  predicate IsDigit(c: char) { '0' <= c <= '9' }

  predicate AllDigits(s: string) { forall i | 0 <= i < |s| :: IsDigit(s[i]) }

  predicate AllZeros(s: string) { forall i | 0 <= i < |s| :: s[i] == '0' }

  function DigitValue(c: char): (d: nat)
    requires IsDigit(c)
    ensures d < 10
  {
    c as int - '0' as int
  }

  function DigitChar(d: nat): (c: char)
    requires d < 10
    ensures IsDigit(c) && DigitValue(c) == d
  {
    ('0' as int + d) as char
  }

  function Pow10(k: nat): (p: nat)
    ensures p >= 1
  {
    if k == 0 then 1 else 10 * Pow10(k - 1)
  }

  /** `BigInt(s)` on a string of digits. */
  function ToNat(s: string): nat
    requires AllDigits(s)
  {
    if s == "" then 0 else ToNat(s[..|s| - 1]) * 10 + DigitValue(s[|s| - 1])
  }

  /** `n.toString()` of a non-negative BigInt. */
  function FromNat(n: nat): (s: string)
    ensures |s| >= 1 && AllDigits(s)
  {
    if n < 10 then [DigitChar(n)] else FromNat(n / 10) + [DigitChar(n % 10)]
  }

  function Zeros(k: nat): (s: string)
    ensures |s| == k && AllZeros(s) && AllDigits(s)
  {
    seq(k, i => '0')
  }

  /** `s.padEnd(k, '0')`. */
  function PadEnd(s: string, k: nat): (r: string)
    ensures |s| <= k ==> |r| == k
    ensures AllDigits(s) ==> AllDigits(r)
  {
    if |s| >= k then s else s + Zeros(k - |s|)
  }

  /** `s.padStart(k, '0')`. */
  function PadStart(s: string, k: nat): (r: string)
    ensures |s| <= k ==> |r| == k
    ensures AllDigits(s) ==> AllDigits(r)
  {
    if |s| >= k then s else Zeros(k - |s|) + s
  }

  lemma TimesTen(x: nat, p: nat)
    ensures x * (10 * p) == 10 * (x * p)
  {
  }

  lemma {:induction false} ToNatAppend(a: string, b: string)
    requires AllDigits(a) && AllDigits(b)
    ensures AllDigits(a + b)
    ensures ToNat(a + b) == ToNat(a) * Pow10(|b|) + ToNat(b)
    decreases |b|
  {
    if b == "" {
      assert a + b == a;
    } else {
      var init := b[..|b| - 1];
      ToNatAppend(a, init);
      assert (a + b)[..|a + b| - 1] == a + init;
      assert (a + b)[|a + b| - 1] == b[|b| - 1];
      TimesTen(ToNat(a), Pow10(|init|));
    }
  }

  lemma {:induction false} ToNatZeros(s: string)
    requires AllZeros(s)
    ensures AllDigits(s) && ToNat(s) == 0
  {
    if s != "" {
      ToNatZeros(s[..|s| - 1]);
    }
  }

  lemma {:induction false} ToNatZeroIffAllZeros(s: string)
    requires AllDigits(s)
    ensures ToNat(s) == 0 <==> AllZeros(s)
  {
    if s != "" {
      var init := s[..|s| - 1];
      ToNatZeroIffAllZeros(init);
      assert s == init + [s[|s| - 1]];
      assert DigitValue(s[|s| - 1]) == 0 <==> s[|s| - 1] == '0';
      if AllZeros(init) && s[|s| - 1] == '0' {
        assert AllZeros(s);
      }
    }
  }

  lemma {:induction false} ToNatBound(s: string)
    requires AllDigits(s)
    ensures ToNat(s) < Pow10(|s|)
  {
    if s != "" {
      ToNatBound(s[..|s| - 1]);
    }
  }

  lemma {:induction false} ToNatFromNat(n: nat)
    ensures ToNat(FromNat(n)) == n
  {
    if n >= 10 {
      ToNatFromNat(n / 10);
      var s := FromNat(n);
      assert s[..|s| - 1] == FromNat(n / 10);
    } else {
      assert FromNat(n)[..0] == "";
    }
  }

  /** A printed number below 10^k has at most k digits. */
  lemma {:induction false} FromNatLength(n: nat, k: nat)
    requires k >= 1 && n < Pow10(k)
    ensures |FromNat(n)| <= k
  {
    if n >= 10 {
      PowersOfTen();
      FromNatLength(n / 10, k - 1);
    }
  }

  lemma {:induction false} FromNatLengthAtLeast(n: nat, k: nat)
    requires n >= Pow10(k)
    ensures |FromNat(n)| >= k + 1
  {
    if k >= 1 {
      assert n >= 10;
      FromNatLengthAtLeast(n / 10, k - 1);
    }
  }

  lemma PowersOfTen()
    ensures Pow10(0) == 1 && Pow10(1) == 10 && Pow10(2) == 100 && Pow10(3) == 1000
    ensures Pow10(11) == 100_000_000_000
  {
  }

  // ---------------------------------------------------------------- splitting at the point

  /** `s.split(sep)`. */
  function Split(s: string, sep: char): (parts: seq<string>)
    ensures |parts| >= 1
  {
    if s == "" then [""]
    else if s[0] == sep then [""] + Split(s[1..], sep)
    else
      var rest := Split(s[1..], sep);
      [[s[0]] + rest[0]] + rest[1..]
  }

  lemma {:induction false} SplitWithout(s: string, sep: char)
    requires sep !in s
    ensures Split(s, sep) == [s]
  {
    if s != "" {
      SplitWithout(s[1..], sep);
      assert [s[0]] + s[1..] == s;
    }
  }

  lemma {:induction false} SplitOnce(a: string, b: string, sep: char)
    requires sep !in a && sep !in b
    ensures Split(a + [sep] + b, sep) == [a, b]
  {
    var s := a + [sep] + b;
    if a == "" {
      assert s[1..] == b;
      SplitWithout(b, sep);
    } else {
      assert s[1..] == a[1..] + [sep] + b;
      SplitOnce(a[1..], b, sep);
      assert [a[0]] + a[1..] == a;
    }
  }

  /** The parts never contain the separator, and one or two parts determine the string. */
  lemma SplitShape(s: string, sep: char)
    ensures var p := Split(s, sep);
            && (forall k | 0 <= k < |p| :: sep !in p[k])
            && (|p| == 1 ==> s == p[0])
            && (|p| == 2 ==> s == p[0] + [sep] + p[1])
  {
  }

  // ---------------------------------------------------------------- the patterns

  /** The unsigned body `\d{1,whole}(?:\.\d{1,fraction})?`, as a grammar. */
  ghost predicate UnsignedGrammar(s: string, whole: nat, fraction: nat) {
    exists i: string, f: string ::
      && 1 <= |i| <= whole && AllDigits(i)
      && (s == i || (1 <= |f| <= fraction && AllDigits(f) && s == i + ['.'] + f))
  }

  /** The same body, decided by splitting at the point. */
  predicate MatchesUnsigned(s: string, whole: nat, fraction: nat) {
    var p := Split(s, '.');
    && |p| <= 2
    && 1 <= |p[0]| <= whole && AllDigits(p[0])
    && (|p| == 2 ==> 1 <= |p[1]| <= fraction && AllDigits(p[1]))
  }

  lemma DigitsHaveNoPoint(s: string)
    requires AllDigits(s)
    ensures '.' !in s && '-' !in s
  {
  }

  lemma MatchesUnsignedIsGrammar(s: string, whole: nat, fraction: nat)
    ensures MatchesUnsigned(s, whole, fraction) <==> UnsignedGrammar(s, whole, fraction)
  {
    var p := Split(s, '.');
    SplitShape(s, '.');
    if MatchesUnsigned(s, whole, fraction) {
      var f := if |p| == 2 then p[1] else "";
      assert s == p[0] || (1 <= |f| <= fraction && AllDigits(f) && s == p[0] + ['.'] + f);
    }
    if UnsignedGrammar(s, whole, fraction) {
      var i: string, f: string :| 1 <= |i| <= whole && AllDigits(i)
        && (s == i || (1 <= |f| <= fraction && AllDigits(f) && s == i + ['.'] + f));
      DigitsHaveNoPoint(i);
      if s == i {
        SplitWithout(i, '.');
      } else {
        DigitsHaveNoPoint(f);
        SplitOnce(i, f, '.');
      }
    }
  }

  predicate Negative(s: string) { |s| > 0 && s[0] == '-' }

  /** `value.slice(1)` after a minus sign, the value itself otherwise. */
  function Unsigned(s: string): string {
    if Negative(s) then s[1..] else s
  }

  /** DECIMAL_PATTERN: `^-?\d{1,11}(?:\.\d{1,3})?$`. */
  predicate MatchesDecimal(s: string) { MatchesUnsigned(Unsigned(s), 11, 3) }

  /** SCALAR_PATTERN: `^-?\d+(?:\.\d+)?$` (no digit ceiling: the string's own length is one). */
  predicate MatchesScalar(s: string) { MatchesUnsigned(Unsigned(s), |s|, |s|) }

  function WholePart(s: string): string { Split(s, '.')[0] }

  function FractionPart(s: string): string {
    var p := Split(s, '.');
    if |p| >= 2 then p[1] else ""
  }

  // ---------------------------------------------------------------- parse and print

  /** The thousandths of an unsigned decimal text. */
  function Magnitude(s: string): nat
    requires MatchesUnsigned(s, 11, 3)
  {
    ToNat(WholePart(s)) * SCALE + ToNat(PadEnd(FractionPart(s), 3))
  }

  /** `parseAmount`: `None` is the RangeError. */
  function ParseAmount(s: string): Option<int> {
    if !MatchesDecimal(s) then None
    else
      var magnitude: int := Magnitude(Unsigned(s));
      Some(if Negative(s) then -magnitude else magnitude)
  }

  function Abs(n: int): nat { if n < 0 then -n else n }

  function FormatMagnitude(n: nat): string {
    FromNat(n / SCALE) + ['.'] + PadStart(FromNat(n % SCALE), 3)
  }

  /** `formatAmount`. */
  function FormatAmount(n: int): string {
    (if n < 0 then ['-'] else "") + FormatMagnitude(Abs(n))
  }

  lemma PadStartValue(n: nat)
    requires n < 1000
    ensures var f := PadStart(FromNat(n), 3); |f| == 3 && AllDigits(f) && ToNat(f) == n
  {
    PowersOfTen();
    FromNatLength(n, 3);
    ToNatFromNat(n);
    var s := FromNat(n);
    if |s| < 3 {
      var z := Zeros(3 - |s|);
      ToNatZeros(z);
      ToNatAppend(z, s);
    }
  }

  lemma FormatMagnitudeParts(n: nat)
    ensures Split(FormatMagnitude(n), '.') == [FromNat(n / SCALE), PadStart(FromNat(n % SCALE), 3)]
    ensures !Negative(FormatMagnitude(n))
  {
    var i, f := FromNat(n / SCALE), PadStart(FromNat(n % SCALE), 3);
    PadStartValue(n % SCALE);
    DigitsHaveNoPoint(i);
    DigitsHaveNoPoint(f);
    SplitOnce(i, f, '.');
  }

  lemma UnsignedPrinted(n: int)
    ensures Unsigned(FormatAmount(n)) == FormatMagnitude(Abs(n))
  {
    FormatMagnitudeParts(Abs(n));
    if n < 0 {
      assert FormatAmount(n)[1..] == FormatMagnitude(Abs(n));
    } else {
      assert FormatAmount(n) == FormatMagnitude(Abs(n));
    }
  }

  lemma PrintedMagnitudeMatches(n: nat)
    ensures MatchesUnsigned(FormatMagnitude(n), 11, 3) <==> n <= MAX_MAGNITUDE
  {
    FormatMagnitudeParts(n);
    PadStartValue(n % SCALE);
    PowersOfTen();
    if n <= MAX_MAGNITUDE {
      FromNatLength(n / SCALE, 11);
    } else {
      FromNatLengthAtLeast(n / SCALE, 11);
    }
  }

  /** A printed amount is accepted by the pattern exactly when it is within the 14-digit bound. */
  lemma PrintedAmountMatches(n: int)
    ensures MatchesDecimal(FormatAmount(n)) <==> Abs(n) <= MAX_MAGNITUDE
  {
    UnsignedPrinted(n);
    PrintedMagnitudeMatches(Abs(n));
  }

  /** of(toString(x)) = x for every representable amount. */
  lemma ParsePrinted(n: int)
    requires Abs(n) <= MAX_MAGNITUDE
    ensures ParseAmount(FormatAmount(n)) == Some(n)
  {
    PrintedAmountMatches(n);
    var a := Abs(n);
    FormatMagnitudeParts(a);
    PadStartValue(a % SCALE);
    ToNatFromNat(a / SCALE);
    var t := FormatAmount(n);
    if n < 0 { assert t[1..] == FormatMagnitude(a); }
    else { assert t == FormatMagnitude(a); }
  }

  lemma MagnitudeBound(s: string)
    requires MatchesUnsigned(s, 11, 3)
    ensures Magnitude(s) <= MAX_MAGNITUDE
  {
    var i, f := WholePart(s), PadEnd(FractionPart(s), 3);
    PowersOfTen();
    ToNatBound(i);
    ToNatBound(f);
    Pow10Monotone(|i|, 11);
  }

  lemma {:induction false} Pow10Monotone(a: nat, b: nat)
    requires a <= b
    ensures Pow10(a) <= Pow10(b)
    decreases b
  {
    if a < b {
      Pow10Monotone(a, b - 1);
    }
  }

  /** Every accepted string lies within the 14-digit bound, and printing it gives a canonical text:
      it parses to the same amount and printing that again changes nothing. */
  lemma PrintParsedIsCanonical(s: string)
    requires ParseAmount(s).Some?
    ensures Abs(ParseAmount(s).value) <= MAX_MAGNITUDE
    ensures ParseAmount(FormatAmount(ParseAmount(s).value)) == ParseAmount(s)
  {
    MagnitudeBound(Unsigned(s));
    ParsePrinted(ParseAmount(s).value);
  }

  /** Two texts denote the same amount exactly when they print to the same canonical text. */
  lemma SameAmountIffSameCanonical(s: string, t: string)
    requires ParseAmount(s).Some? && ParseAmount(t).Some?
    ensures ParseAmount(s) == ParseAmount(t)
       <==> FormatAmount(ParseAmount(s).value) == FormatAmount(ParseAmount(t).value)
  {
    PrintParsedIsCanonical(s);
    PrintParsedIsCanonical(t);
  }

  // ---------------------------------------------------------------- scaling by a decimal

  datatype Scalar = Scalar(unscaled: int, scale: nat)

  /** `parseScalar`: `None` is the RangeError. */
  function ParseScalar(s: string): (r: Option<Scalar>)
    ensures r.Some? ==> r.value.scale >= 1
  {
    if !MatchesScalar(s) then None
    else
      var u := Unsigned(s);
      var unscaled: int := ToNat(WholePart(u) + FractionPart(u));
      Some(Scalar(if Negative(s) then -unscaled else unscaled, Pow10(|FractionPart(u)|)))
  }

  /** `divRoundHalfUp`: BigInt division truncates, and both operands of the division are
      non-negative here, so Dafny's `/` and `%` are the source's. */
  function DivRoundHalfUp(numerator: int, denominator: nat): int
    requires denominator >= 1
  {
    if denominator == 1 then numerator
    else
      var n := Abs(numerator);
      var quotient, remainder := n / denominator, n % denominator;
      var rounded: int := if remainder * 2 >= denominator then quotient + 1 else quotient;
      if numerator < 0 then -rounded else rounded
  }

  /** r is the integer nearest to numerator/denominator, a tie going away from zero. */
  predicate IsNearest(r: int, numerator: int, denominator: nat) {
    && 2 * Abs(r * denominator - numerator) <= denominator
    && (2 * Abs(r * denominator - numerator) == denominator ==> Abs(r * denominator) > Abs(numerator))
  }

  /** Rounding of a non-negative numerator. */
  function RoundUp(n: nat, d: nat): nat
    requires d >= 1
  {
    if n % d * 2 >= d then n / d + 1 else n / d
  }

  lemma RoundUpProduct(n: nat, d: nat)
    requires d >= 1
    ensures var x := RoundUp(n, d) * d; if n % d * 2 >= d then x == n - n % d + d else x == n - n % d
    ensures n % d < d
  {
  }

  lemma DivRoundIsNearest(numerator: int, denominator: nat)
    requires denominator >= 1
    ensures IsNearest(DivRoundHalfUp(numerator, denominator), numerator, denominator)
  {
    var n := Abs(numerator);
    var q: int := RoundUp(n, denominator);
    RoundUpProduct(n, denominator);
    var r := DivRoundHalfUp(numerator, denominator);
    if denominator != 1 {
      if numerator < 0 {
        assert r == -q;
        assert r * denominator == -(q * denominator);
      } else {
        assert r == q;
      }
    }
  }

  /** There is only one nearest integer, so `IsNearest` says exactly what rounding returns. */
  lemma NearestIsUnique(r: int, t: int, numerator: int, denominator: nat)
    requires denominator >= 1
    requires IsNearest(r, numerator, denominator) && IsNearest(t, numerator, denominator)
    ensures r == t
  {
    if r != t {
      var lo, hi := if r < t then r else t, if r < t then t else r;
      ProductGap(lo, hi, denominator);
      assert 2 * Abs(lo * denominator - numerator) == denominator;
      assert 2 * Abs(hi * denominator - numerator) == denominator;
      assert lo * denominator < numerator < hi * denominator;
      ProductSign(lo, denominator);
      ProductSign(hi, denominator);
      assert false;
    }
  }

  lemma ProductGap(lo: int, hi: int, d: nat)
    requires lo < hi
    ensures hi * d >= lo * d + d
  {
    assert hi * d - lo * d == (hi - lo) * d;
    assert (hi - lo) * d >= d by { assert (hi - lo - 1) * d >= 0; }
  }

  lemma ProductSign(x: int, d: nat)
    ensures x >= 0 ==> x * d >= 0
    ensures x < 0 ==> x * d + d <= 0
  {
  }

  /** Negating the numerator negates the result. */
  lemma DivRoundOdd(numerator: int, denominator: nat)
    requires denominator >= 1
    ensures DivRoundHalfUp(-numerator, denominator) == -DivRoundHalfUp(numerator, denominator)
  {
    var n := Abs(numerator);
    assert Abs(-numerator) == n;
    if numerator == 0 {
      assert 0 / denominator == 0 && 0 % denominator == 0;
    } else {
      var quotient, remainder := n / denominator, n % denominator;
    }
  }

  /** Scaling both terms by k changes nothing: trailing zeros of the scalar do not matter, and
      the denominator-1 shortcut agrees with the general case. */
  lemma DivRoundScales(numerator: int, denominator: nat, k: nat)
    requires denominator >= 1 && k >= 1
    ensures denominator * k >= 1
    ensures DivRoundHalfUp(numerator * k, denominator * k) == DivRoundHalfUp(numerator, denominator)
  {
    var r := DivRoundHalfUp(numerator, denominator);
    DivRoundIsNearest(numerator, denominator);
    assert denominator * k >= denominator by { ProductGap(0, k, denominator); assert k * denominator == denominator * k; }
    ScaledNearest(r, numerator, denominator, k);
    DivRoundIsNearest(numerator * k, denominator * k);
    NearestIsUnique(r, DivRoundHalfUp(numerator * k, denominator * k), numerator * k, denominator * k);
  }

  lemma AbsTimes(x: int, k: nat)
    ensures Abs(x * k) == Abs(x) * k
  {
  }

  lemma ScaledNearest(r: int, numerator: int, denominator: nat, k: nat)
    requires denominator >= 1 && k >= 1 && IsNearest(r, numerator, denominator)
    ensures IsNearest(r, numerator * k, denominator * k)
  {
    var x := r * denominator;
    var gap := Abs(x - numerator);
    ScaledTerms(r, numerator, denominator, k);
    AbsTimes(x - numerator, k);
    AbsTimes(x, k);
    AbsTimes(numerator, k);
    MulMono(2 * gap, denominator, k);
    assert 2 * gap * k == 2 * (gap * k);
    if 2 * gap < denominator {
      ProductGap(2 * gap, denominator, k);
    } else {
      ProductGap(Abs(numerator), Abs(x), k);
    }
  }

  lemma ScaledTerms(r: int, numerator: int, denominator: nat, k: nat)
    ensures r * (denominator * k) == r * denominator * k
    ensures r * (denominator * k) - numerator * k == (r * denominator - numerator) * k
  {
  }

  lemma MulMono(x: nat, y: nat, k: nat)
    requires x <= y
    ensures x * k <= y * k
  {
  }

  /** `fromResult`: an amount outside numeric(14,3) is refused. */
  function FromResult(amount: int): Option<int> {
    if Abs(amount) > MAX_MAGNITUDE then None else Some(amount)
  }

  function MultiplyBy(amount: int, s: Scalar): Option<int>
    requires s.scale >= 1
  {
    FromResult(DivRoundHalfUp(amount * s.unscaled, s.scale))
  }

  /** `multiply(scalar)`: `None` is the RangeError of a malformed scalar or of a result outside
      numeric(14,3). */
  function Multiply(amount: int, scalar: string): Option<int> {
    match ParseScalar(scalar)
    case None => None
    case Some(s) => MultiplyBy(amount, s)
  }

  // ---------------------------------------------------------------- the number a text denotes

  /** x with its decimal point moved k places to the left. */
  ghost function Shift(x: real, k: nat): real {
    if k == 0 then x else Shift(x, k - 1) / 10.0
  }

  /** What digits after the point are worth: the k-th of them counts 10 to the power of -k. */
  ghost function FractionValue(digits: string): real
    requires AllDigits(digits)
  {
    if digits == "" then 0.0
    else
      var n := |digits|;
      FractionValue(digits[..n - 1]) + Shift(DigitValue(digits[n - 1]) as real, n)
  }

  predicate IsNumeral(s: string) {
    var u := Unsigned(s); AllDigits(WholePart(u)) && AllDigits(FractionPart(u))
  }

  /** The real number a decimal text denotes, by place value. */
  ghost function TextValue(s: string): real
    requires IsNumeral(s)
  {
    var u := Unsigned(s);
    var value := ToNat(WholePart(u)) as real + FractionValue(FractionPart(u));
    if Negative(s) then -value else value
  }

  lemma {:induction false} ShiftSum(x: real, y: real, k: nat)
    ensures Shift(x + y, k) == Shift(x, k) + Shift(y, k)
    ensures Shift(-x, k) == -Shift(x, k)
    ensures k >= 1 ==> Shift(10.0 * x, k) == Shift(x, k - 1)
  {
    if k > 0 { ShiftSum(x, y, k - 1); }
  }

  lemma TenTimes(x: real, p: real, y: real)
    requires x * p == y
    ensures x / 10.0 * (10.0 * p) == y
  {
  }

  lemma {:induction false} ShiftBack(x: real, k: nat)
    ensures Shift(x, k) * Pow10(k) as real == x
  {
    if k > 0 {
      ShiftBack(x, k - 1);
      TenTimes(Shift(x, k - 1), Pow10(k - 1) as real, x);
    }
  }

  /** Digits read as one integer, with the point moved back to where it was. */
  lemma {:induction false} DigitsDenote(whole: string, f: string)
    requires AllDigits(whole) && AllDigits(f)
    ensures AllDigits(whole + f) && Shift(ToNat(whole + f) as real, |f|) == ToNat(whole) as real + FractionValue(f)
    decreases |f|
  {
    if f == "" {
      assert whole + f == whole;
    } else {
      var init, d := f[..|f| - 1], DigitValue(f[|f| - 1]);
      DigitsDenote(whole, init);
      assert (whole + f)[..|whole + f| - 1] == whole + init;
      assert (whole + f)[|whole + f| - 1] == f[|f| - 1];
      ShiftSum(10.0 * ToNat(whole + init) as real, d as real, |f|);
      ShiftSum(ToNat(whole + init) as real, 0.0, |f|);
    }
  }

  lemma {:induction false} ShiftZero(k: nat)
    ensures Shift(0.0, k) == 0.0
  {
    if k > 0 { ShiftZero(k - 1); }
  }

  lemma OneMoreZero(f: string)
    requires AllDigits(f)
    ensures AllDigits(f + ['0']) && FractionValue(f + ['0']) == FractionValue(f)
  {
    ShiftZero(|f| + 1);
    assert (f + ['0'])[..|f|] == f;
  }

  /** Zeros at the end of a fraction are worth nothing. */
  lemma {:induction false} ZerosAreWorthless(f: string, k: nat)
    requires AllDigits(f)
    ensures AllDigits(f + Zeros(k)) && FractionValue(f + Zeros(k)) == FractionValue(f)
    decreases k
  {
    if k == 0 {
      assert f + Zeros(0) == f;
    } else {
      ZerosAreWorthless(f, k - 1);
      OneMoreZero(f + Zeros(k - 1));
      assert f + Zeros(k) == f + Zeros(k - 1) + ['0'];
    }
  }

  /** `parseScalar` reads the number that the text denotes. */
  lemma ScalarDenotes(s: string)
    requires MatchesScalar(s)
    ensures IsNumeral(s) && ParseScalar(s).Some?
    ensures exists k: nat :: ParseScalar(s).value.scale == Pow10(k) && TextValue(s) == Shift(ParseScalar(s).value.unscaled as real, k)
  {
    var whole, f := WholePart(Unsigned(s)), FractionPart(Unsigned(s));
    DigitsDenote(whole, f);
    ShiftSum(ToNat(whole + f) as real, 0.0, |f|);
  }

  /** `parseAmount` reads it too, in thousandths. */
  lemma AmountDenotes(s: string)
    requires MatchesDecimal(s)
    ensures IsNumeral(s) && ParseAmount(s).Some? && TextValue(s) == Shift(ParseAmount(s).value as real, 3)
  {
    var whole, f := WholePart(Unsigned(s)), FractionPart(Unsigned(s));
    var padded := PadEnd(f, 3);
    assert padded == f + Zeros(3 - |f|);
    ZerosAreWorthless(f, 3 - |f|);
    DigitsDenote(whole, padded);
    ToNatAppend(whole, padded);
    PowersOfTen();
    ShiftSum(ToNat(whole + padded) as real, 0.0, 3);
  }

  ghost function AbsReal(x: real): real { if x < 0.0 then -x else x }

  /** r is the integer nearest to x, a tie going away from zero. */
  ghost predicate Rounds(r: int, x: real) {
    && AbsReal(r as real - x) <= 0.5
    && (AbsReal(r as real - x) == 0.5 ==> AbsReal(r as real) > AbsReal(x))
  }

  lemma RoundsOnce(r: int, t: int, x: real)
    requires Rounds(r, x) && Rounds(t, x)
    ensures r == t
  {
  }

  lemma RealProduct(x: int, y: int)
    ensures (x * y) as real == x as real * y as real
  {
  }

  lemma SizeOf(x: real, d: real, n: real)
    requires d > 0.0 && x * d == n
    ensures AbsReal(x) * d == AbsReal(n)
  {
  }

  lemma Above(x: real, y: real, d: real, xd: real, yd: real)
    requires d > 0.0 && x * d == xd && y * d == yd && xd > yd
    ensures x > y
  {
  }

  lemma AtMost(x: real, half: real, d: real, xd: real)
    requires d > 0.0 && x * d == xd && 2.0 * half == 1.0
    ensures 2.0 * xd <= d ==> x <= half
    ensures x == half ==> 2.0 * xd == d
  {
  }

  lemma Larger(y: real, x: real, p: real, n: real, d: real)
    requires d > 0.0 && x * d == n && y * d == p && AbsReal(p) > AbsReal(n)
    ensures AbsReal(y) > AbsReal(x)
  {
    SizeOf(x, d, n);
    SizeOf(y, d, p);
    Above(AbsReal(y), AbsReal(x), d, AbsReal(p), AbsReal(n));
  }

  lemma Gap(y: real, x: real, p: real, n: real, d: real)
    requires x * d == n && y * d == p
    ensures (y - x) * d == p - n
  {
  }

  /** From products to quotients: p is y·d and n is x·d. */
  lemma NearestQuotient(y: real, x: real, p: real, n: real, d: real)
    requires d > 0.0 && x * d == n && y * d == p
    requires 2.0 * AbsReal(p - n) <= d
    requires 2.0 * AbsReal(p - n) == d ==> AbsReal(p) > AbsReal(n)
    ensures AbsReal(y - x) <= 0.5
    ensures AbsReal(y - x) == 0.5 ==> AbsReal(y) > AbsReal(x)
  {
    Gap(y, x, p, n, d);
    SizeOf(y - x, d, p - n);
    AtMost(AbsReal(y - x), 0.5, d, AbsReal(p - n));
    if AbsReal(y - x) == 0.5 {
      Larger(y, x, p, n, d);
    }
  }

  lemma NearestRounds(r: int, num: int, d: nat, x: real)
    requires d >= 1 && IsNearest(r, num, d) && x * d as real == num as real
    ensures Rounds(r, x)
  {
    RealProduct(r, d);
    var p := r * d;
    NearestQuotient(r as real, x, p as real, num as real, d as real);
  }

  lemma ScaledValue(amount: int, value: real, scale: nat, unscaled: int)
    requires value * scale as real == unscaled as real
    ensures amount as real * value * scale as real == (amount * unscaled) as real
  {
    RealProduct(amount, unscaled);
  }

  /** The product of an amount and a number, rounded and checked against the bound. */
  ghost predicate IsProduct(result: Option<int>, amount: int, value: real) {
    exists r: int :: Rounds(r, amount as real * value) && result == FromResult(r)
  }

  /** `multiply` rounds the exact product of the amount and the number that the scalar's text denotes
      to the nearest thousandth, a tie away from zero, and refuses exactly when the text is no scalar
      or the rounded product does not fit. */
  lemma MultiplyRounds(amount: int, scalar: string)
    ensures MatchesScalar(scalar) ==> IsNumeral(scalar) && IsProduct(Multiply(amount, scalar), amount, TextValue(scalar))
    ensures !MatchesScalar(scalar) ==> Multiply(amount, scalar) == None
  {
    if MatchesScalar(scalar) {
      ScalarDenotes(scalar);
      var s := ParseScalar(scalar).value;
      var k: nat :| s.scale == Pow10(k) && TextValue(scalar) == Shift(s.unscaled as real, k);
      DenotedRounds(amount, s, TextValue(scalar), k);
    }
  }

  lemma DenotedRounds(amount: int, s: Scalar, value: real, k: nat)
    requires s.scale == Pow10(k) && value == Shift(s.unscaled as real, k)
    ensures IsProduct(MultiplyBy(amount, s), amount, value)
  {
    ShiftBack(s.unscaled as real, k);
    ScalarRounds(amount, s, value);
  }

  lemma ScalarRounds(amount: int, s: Scalar, value: real)
    requires s.scale >= 1 && value * s.scale as real == s.unscaled as real
    ensures IsProduct(MultiplyBy(amount, s), amount, value)
  {
    DivRoundIsNearest(amount * s.unscaled, s.scale);
    ScaledValue(amount, value, s.scale, s.unscaled);
    NearestRounds(DivRoundHalfUp(amount * s.unscaled, s.scale), amount * s.unscaled, s.scale, amount as real * value);
  }

  lemma OneProduct(a: Option<int>, b: Option<int>, amount: int, value: real)
    requires IsProduct(a, amount, value) && IsProduct(b, amount, value)
    ensures a == b
  {
    var r: int :| Rounds(r, amount as real * value) && a == FromResult(r);
    var t: int :| Rounds(t, amount as real * value) && b == FromResult(t);
    RoundsOnce(r, t, amount as real * value);
  }

  /** So the product depends on the number alone: two scalars that denote one number, such as "2" and
      "2.000", give one product. */
  lemma SameValueSameProduct(amount: int, s: string, t: string)
    requires MatchesScalar(s) && MatchesScalar(t) && IsNumeral(s) && IsNumeral(t) && TextValue(s) == TextValue(t)
    ensures Multiply(amount, s) == Multiply(amount, t)
  {
    MultiplyRounds(amount, s);
    MultiplyRounds(amount, t);
    OneProduct(Multiply(amount, s), Multiply(amount, t), amount, TextValue(s));
  }

  lemma MultiplyByOdd(amount: int, s: Scalar)
    requires s.scale >= 1
    ensures var r := MultiplyBy(amount, s);
            var negated := if r.Some? then Some(-r.value) else None;
            && MultiplyBy(-amount, s) == negated
            && MultiplyBy(amount, Scalar(-s.unscaled, s.scale)) == negated
  {
    var num := amount * s.unscaled;
    assert -amount * s.unscaled == -num && amount * -s.unscaled == -num;
    DivRoundOdd(num, s.scale);
  }

  lemma ParseMinus(scalar: string)
    requires !Negative(scalar)
    ensures ParseScalar(['-'] + scalar)
         == (match ParseScalar(scalar) case None => None case Some(s) => Some(Scalar(-s.unscaled, s.scale)))
  {
    var m := ['-'] + scalar;
    assert Unsigned(m) == scalar && Unsigned(scalar) == scalar;
    SplitLengths(scalar);
    assert MatchesScalar(m) == MatchesScalar(scalar);
  }

  /** Negating the amount, or putting a minus sign before the scalar, negates the product. */
  lemma MultiplyOdd(amount: int, scalar: string)
    ensures var r := Multiply(amount, scalar);
            var negated := if r.Some? then Some(-r.value) else None;
            && Multiply(-amount, scalar) == negated
            && (!Negative(scalar) ==> Multiply(amount, ['-'] + scalar) == negated)
  {
    if ParseScalar(scalar).Some? {
      MultiplyByOdd(amount, ParseScalar(scalar).value);
    }
    if !Negative(scalar) {
      ParseMinus(scalar);
    }
  }

  /** No part of a split is longer than the string, so a length ceiling of |s| is no ceiling. */
  lemma {:induction false} SplitLengths(s: string)
    ensures forall k | 0 <= k < |Split(s, '.')| :: |Split(s, '.')[k]| <= |s|
  {
    if s != "" { SplitLengths(s[1..]); }
  }

  /** A text followed by zeros, after a point if it has none. */
  function WithZeros(s: string, k: nat): string { if '.' in s then s + Zeros(k) else s + ['.'] + Zeros(k) }

  lemma SplitWithZeros(u: string, k: nat)
    requires MatchesUnsigned(u, |u|, |u|) && ('.' !in u ==> k >= 1)
    ensures Split(WithZeros(u, k), '.') == [WholePart(u), FractionPart(u) + Zeros(k)]
    ensures |FractionPart(u) + Zeros(k)| >= 1
  {
    var p := Split(u, '.');
    SplitShape(u, '.');
    DigitsHaveNoPoint(p[0]);
    DigitsHaveNoPoint(Zeros(k));
    if |p| == 2 {
      DigitsHaveNoPoint(p[1]);
      assert u + Zeros(k) == p[0] + ['.'] + (p[1] + Zeros(k));
      SplitOnce(p[0], p[1] + Zeros(k), '.');
    } else {
      assert "" + Zeros(k) == Zeros(k);
      SplitOnce(u, Zeros(k), '.');
    }
  }

  /** Zeros appended after the point, or after a point where there was none, change no product. */
  lemma MultiplyIgnoresTrailingZeros(amount: int, scalar: string, k: nat)
    requires MatchesScalar(scalar) && ('.' !in scalar ==> k >= 1)
    ensures MatchesScalar(WithZeros(scalar, k))
    ensures Multiply(amount, WithZeros(scalar, k)) == Multiply(amount, scalar)
  {
    var u, longer := Unsigned(scalar), WithZeros(Unsigned(scalar), k);
    assert Unsigned(WithZeros(scalar, k)) == longer && |longer| <= |WithZeros(scalar, k)|;
    SplitLengths(u);
    SplitWithZeros(u, k);
    SplitLengths(longer);
    SameWithZeros(scalar, WithZeros(scalar, k), k);
    SameValueSameProduct(amount, WithZeros(scalar, k), scalar);
  }

  lemma SameWithZeros(s: string, t: string, k: nat)
    requires MatchesScalar(s) && Negative(s) == Negative(t)
    requires Split(Unsigned(t), '.') == [WholePart(Unsigned(s)), FractionPart(Unsigned(s)) + Zeros(k)]
    ensures IsNumeral(s) && IsNumeral(t) && TextValue(s) == TextValue(t)
  {
    ZerosAreWorthless(FractionPart(Unsigned(s)), k);
  }

  // ---------------------------------------------------------------- the journal's amounts

  /** Length of the leading run of digits. */
  function DigitRun(s: string): (k: nat)
    ensures k <= |s| && AllDigits(s[..k]) && (k < |s| ==> !IsDigit(s[k]))
  {
    if s == "" || !IsDigit(s[0]) then 0
    else
      var k := DigitRun(s[1..]);
      assert s[..k + 1] == [s[0]] + s[1..][..k];
      k + 1
  }

  lemma {:induction false} DigitRunEnds(a: string, b: string)
    requires AllDigits(a) && (b == "" || !IsDigit(b[0]))
    ensures DigitRun(a + b) == |a|
  {
    if a == "" {
      assert a + b == b;
    } else {
      assert (a + b)[1..] == a[1..] + b;
      DigitRunEnds(a[1..], b);
    }
  }

  /** AMOUNT_PATTERN.exec: the two capture groups of `^(\d{1,11})(?:\.(\d{1,3}))?$`. */
  function MatchAmount(s: string): (r: Option<(string, string)>)
    ensures r.Some? ==> AllDigits(r.value.0) && AllDigits(r.value.1) && |r.value.1| <= 3
  {
    var k := DigitRun(s);
    if !(1 <= k <= 11) then None
    else if k == |s| then Some((s[..k], ""))
    else if s[k] == '.' && 1 <= |s| - k - 1 <= 3 && AllDigits(s[k + 1..]) then Some((s[..k], s[k + 1..]))
    else None
  }

  /** `toMilli`: `None` is InvalidAmountError. */
  function ToMilli(s: string): Option<nat> {
    match MatchAmount(s)
    case None => None
    case Some(g) => Some(ToNat(g.0) * 1000 + ToNat(PadEnd(g.1, 3)))
  }

  /** The lookahead `0+(?:\.0+)?$` of POSITIVE_AMOUNT_PATTERN. */
  predicate ZeroShape(s: string) {
    var p := Split(s, '.');
    && |p| <= 2
    && |p[0]| >= 1 && AllZeros(p[0])
    && (|p| == 2 ==> |p[1]| >= 1 && AllZeros(p[1]))
  }

  /** POSITIVE_AMOUNT_PATTERN: `^(?!0+(?:\.0+)?$)\d{1,11}(?:\.\d{1,3})?$`. */
  predicate MatchesPositiveAmount(s: string) { !ZeroShape(s) && MatchesUnsigned(s, 11, 3) }

  lemma MatchedGroupsSplit(s: string)
    requires MatchAmount(s).Some?
    ensures Split(s, '.') == if MatchAmount(s).value.0 == s then [s] else [MatchAmount(s).value.0, MatchAmount(s).value.1]
    ensures MatchesUnsigned(s, 11, 3) && MatchAmount(s).value == (WholePart(s), FractionPart(s))
  {
    var k := DigitRun(s);
    var i := s[..k];
    DigitsHaveNoPoint(i);
    if k == |s| {
      assert i == s;
      SplitWithout(s, '.');
    } else {
      var f := s[k + 1..];
      DigitsHaveNoPoint(f);
      assert s == i + ['.'] + f;
      SplitOnce(i, f, '.');
    }
  }

  lemma SplitIsMatched(s: string)
    requires MatchesUnsigned(s, 11, 3)
    ensures MatchAmount(s).Some?
  {
    var p := Split(s, '.');
    SplitShape(s, '.');
    var tail := if |p| == 2 then ['.'] + p[1] else "";
    assert s == p[0] + tail;
    DigitRunEnds(p[0], tail);
    if |p| == 2 {
      assert s[|p[0]| + 1..] == p[1];
    }
  }

  /** The capture groups are the two halves of the split. */
  lemma MatchAmountIsSplit(s: string)
    ensures MatchAmount(s).Some? <==> MatchesUnsigned(s, 11, 3)
    ensures MatchAmount(s).Some? ==> MatchAmount(s).value == (WholePart(s), FractionPart(s))
  {
    if MatchAmount(s).Some? {
      MatchedGroupsSplit(s);
    }
    if MatchesUnsigned(s, 11, 3) {
      SplitIsMatched(s);
    }
  }

  /** `toMilli` agrees with `Quantity.of` on every text without a sign, and refuses every other. */
  lemma ToMilliIsQuantity(s: string)
    ensures ToMilli(s).Some? <==> ParseAmount(s).Some? && !Negative(s)
    ensures ToMilli(s).Some? ==> ParseAmount(s) == Some(ToMilli(s).value) && ToMilli(s).value <= MAX_MAGNITUDE
  {
    MatchAmountIsSplit(s);
    if Negative(s) {
      assert DigitRun(s) == 0;
    } else if ToMilli(s).Some? {
      MagnitudeBound(s);
    }
  }

  /** The contract's positive pattern accepts exactly the amounts above zero. */
  lemma PositivePatternIsPositive(s: string)
    ensures MatchesPositiveAmount(s) <==> ToMilli(s).Some? && ToMilli(s).value > 0
  {
    MatchAmountIsSplit(s);
    if MatchesUnsigned(s, 11, 3) {
      var i, f := WholePart(s), FractionPart(s);
      ToNatZeroIffAllZeros(i);
      var z := Zeros(3 - |f|);
      ToNatAppend(f, z);
      ToNatZeros(z);
      ToNatZeroIffAllZeros(f);
      PowersOfTen();
      assert PadEnd(f, 3) == f + z;
      ScaledZero(ToNat(f), Pow10(|z|));
      assert ToMilli(s).value == 0 <==> AllZeros(i) && AllZeros(f);
    }
  }

  lemma ScaledZero(x: nat, p: nat)
    requires p >= 1
    ensures x * p == 0 <==> x == 0
  {
  }

  /** Reading back a stored amount: a printed non-negative amount is accepted by `toMilli`, unchanged. */
  lemma ToMilliPrinted(n: nat)
    requires n <= MAX_MAGNITUDE
    ensures ToMilli(FormatAmount(n)) == Some(n)
  {
    ParsePrinted(n);
    FormatMagnitudeParts(n);
    assert FormatAmount(n) == FormatMagnitude(n);
    ToMilliIsQuantity(FormatAmount(n));
  }
}
