/** Exact money: rendering a rational with twelve decimals, the dollar display, and the conversion of native quota. */
module Money {
  import opened Prelude
  import opened Decimal

  const SCALE: nat := 1_000_000_000_000

  /** How many millionths of a millionth come nearest, halves up. */
  function Scaled(x: real): nat
    requires x >= 0.0
  {
    (x * 1_000_000_000_000.0 + 0.5).Floor
  }

  function Unsigned(x: real): string
    requires x >= 0.0
  {
    Digits(Scaled(x) / SCALE) + "." + Padded(Scaled(x) % SCALE, 12)
  }

  /** big.Rat's FloatString(12): halves away from zero, the sign kept even when every digit is zero. */
  function FloatString(x: real): string {
    if x < 0.0 then "-" + Unsigned(-x) else Unsigned(x)
  }

  function ExactDecimal(x: real): string {
    var text := TrimRight(TrimRight(FloatString(x), '0'), '.');
    if text == "" || text == "-" then "0" else text
  }

  /** The whole part and the trimmed fraction of a rendering. */
  function Fraction(n: nat): (f: string)
    ensures AllDigits(f)
  {
    Pow10Twelve();
    PaddedWrites(n % SCALE, 12);
    TrimmedZeros(Padded(n % SCALE, 12));
    TrimRight(Padded(n % SCALE, 12), '0')
  }

  function Rendered(n: nat): string {
    if Fraction(n) == "" then Digits(n / SCALE) else Digits(n / SCALE) + "." + Fraction(n)
  }

  lemma FractionWrites(n: nat)
    ensures var f := Fraction(n);
            && |f| <= 12 && AllDigits(f) && (f != "" ==> Last(f) != '0')
            && n % SCALE == Number(f) * Pow10(12 - |f|)
  {
    Pow10Twelve();
    PaddedWrites(n % SCALE, 12);
    TrimmedZeros(Padded(n % SCALE, 12));
  }

  /** Trimming stops at the point or at the last digit of the whole part: no digit of the whole part is lost. */
  lemma TrimKeepsWhole(prefix: string, whole: string, padded: string)
    requires AllDigits(whole) && whole != "" && AllDigits(padded)
    ensures var f := TrimRight(padded, '0');
            var t := TrimRight(TrimRight(prefix + whole + "." + padded, '0'), '.');
            t == if f == "" then prefix + whole else prefix + whole + "." + f
  {
    var f := TrimRight(padded, '0');
    var front := prefix + whole;
    TrimStopsAt(front + ".", padded, '0');
    TrimmedZeros(padded);
    LastOfConcat(prefix, whole);
    if f == "" {
      assert front + "." + f == front + ".";
      TrimStopsAt(front, ".", '.');
      TrimsAll('.');
    } else {
      LastOfConcat(front + ".", f);
      NothingToTrim(front + "." + f, '.');
    }
  }

  lemma LastOfConcat(x: string, y: string)
    requires y != ""
    ensures Last(x + y) == Last(y)
  {}

  lemma TrimsAll(c: char)
    ensures TrimRight([c], c) == ""
  {
    assert [c][..0] == "";
  }

  lemma NothingToTrim(s: string, c: char)
    requires s != "" && Last(s) != c
    ensures TrimRight(s, c) == s
  {}

  lemma TrimmedText(prefix: string, n: nat)
    ensures var shown := prefix + Digits(n / SCALE) + "." + Padded(n % SCALE, 12);
            TrimRight(TrimRight(shown, '0'), '.') == prefix + Rendered(n)
    ensures |Rendered(n)| > 0
  {
    Pow10Twelve();
    DigitsWrite(n / SCALE);
    PaddedWrites(n % SCALE, 12);
    TrimKeepsWhole(prefix, Digits(n / SCALE), Padded(n % SCALE, 12));
    assert prefix + Digits(n / SCALE) + "." + Fraction(n) == prefix + (Digits(n / SCALE) + "." + Fraction(n));
  }

  lemma ExactIsRendered(x: real)
    requires x >= 0.0
    ensures ExactDecimal(x) == Rendered(Scaled(x))
  {
    var n := Scaled(x);
    TrimmedText("", n);
    assert "" + Digits(n / SCALE) + "." + Padded(n % SCALE, 12) == FloatString(x);
    assert "" + Rendered(n) == Rendered(n);
    DigitsWrite(n / SCALE);
    assert Rendered(n)[0] == Digits(n / SCALE)[0] != '-';
  }

  lemma Regroup(w: string, x: string, y: string, z: string)
    ensures w + x + y + z == w + (x + y + z)
  {}

  lemma NegativeIsRendered(x: real)
    requires x < 0.0
    ensures ExactDecimal(x) == "-" + Rendered(Scaled(-x))
  {
    var n := Scaled(-x);
    TrimmedText("-", n);
    Regroup("-", Digits(n / SCALE), ".", Padded(n % SCALE, 12));
    assert |"-" + Rendered(n)| >= 2;
  }

  // ----- the text parses back -----

  lemma Widen(a: nat, p: nat, q: nat)
    requires p > 0 && q > 0 && p * q == SCALE
    ensures a as real / p as real == (a * q) as real / 1_000_000_000_000.0
  {
    assert (a * q) as real == a as real * q as real;
    assert (p * q) as real == p as real * q as real;
  }

  lemma FractionWorth(n: nat)
    ensures Pow10(|Fraction(n)|) > 0
    ensures Number(Fraction(n)) as real / Pow10(|Fraction(n)|) as real == (n % SCALE) as real / 1_000_000_000_000.0
  {
    var f := Fraction(n);
    FractionWrites(n);
    Pow10Positive(|f|);
    Pow10Positive(12 - |f|);
    Pow10Splits(|f|, 12 - |f|);
    Pow10Twelve();
    Widen(Number(f), Pow10(|f|), Pow10(12 - |f|));
  }

  lemma RenderedReads(n: nat)
    ensures Canonical(Rendered(n)) && Worth(Rendered(n)) == n as real / 1_000_000_000_000.0
  {
    var whole, f := Digits(n / SCALE), Fraction(n);
    DigitsWrite(n / SCALE);
    FractionWrites(n);
    assert n == n / SCALE * SCALE + n % SCALE;
    if f == "" {
      WholeNumber(whole);
      assert whole[..|whole|] == whole;
    } else {
      FractionWorth(n);
      WithFraction(whole, f, Pow10(|f|) as real);
      PointBetween(whole, f);
    }
  }

  /** Every non-negative amount reads back as its nearest multiple of 10^-12, halves up, written the canonical way. */
  lemma ExactParsesBack(x: real)
    requires x >= 0.0
    ensures Canonical(ExactDecimal(x)) && Worth(ExactDecimal(x)) == Scaled(x) as real / 1_000_000_000_000.0
    ensures -0.000_000_000_000_5 < Worth(ExactDecimal(x)) - x <= 0.000_000_000_000_5
  {
    ExactIsRendered(x);
    RenderedReads(Scaled(x));
  }

  /** Two amounts share their text exactly when they share their nearest multiple. */
  lemma SameTextSameMultiple(x: real, y: real)
    requires x >= 0.0 && y >= 0.0
    ensures ExactDecimal(x) == ExactDecimal(y) <==> Scaled(x) == Scaled(y)
  {
    ExactIsRendered(x);
    ExactIsRendered(y);
    RenderedReads(Scaled(x));
    RenderedReads(Scaled(y));
  }

  lemma NonZeroEnd(f: string)
    requires AllDigits(f)
    ensures f != "" && Last(f) != '0' ==> Number(f) > 0
  {}

  lemma ZeroProduct(a: nat, b: nat)
    requires b > 0 && a * b == 0
    ensures a == 0
  {}

  lemma ZeroIsBare()
    ensures Rendered(0) == "0"
  {
    var f := Fraction(0);
    FractionWrites(0);
    Pow10Positive(12 - |f|);
    ZeroProduct(Number(f), Pow10(12 - |f|));
    NonZeroEnd(f);
  }

  lemma OnlyZeroIsBare(n: nat)
    ensures Rendered(n) == "0" <==> n == 0
  {
    ZeroIsBare();
    RenderedReads(0);
    RenderedReads(n);
  }

  /** A negative amount too small for the twelfth decimal keeps its sign: it is written "-0". */
  lemma NegativeDust(x: real)
    requires x < 0.0
    ensures ExactDecimal(x) == "-0" <==> x > -0.000_000_000_000_5
  {
    var text := Rendered(Scaled(-x));
    NegativeIsRendered(x);
    OnlyZeroIsBare(Scaled(-x));
    assert ("-" + text)[1..] == text && "-0" == "-" + "0";
    assert text == "0" ==> "-" + text == "-0";
    assert "-" + text == "-0" ==> text == "-0"[1..] == "0";
  }

  // ----- converting native quota -----

  datatype Converted = Converted(value: string, display: string)

  /** Native units over the platform's units per dollar. */
  function Convert(native: int, unit: real): Converted
    requires unit > 0.0
  {
    Converted(ExactDecimal(native as real / unit), DisplayUSD(native as real / unit))
  }

  /** Back to native units, to the nearest whole one. */
  function ToNative(usd: real, unit: real): int {
    (usd * unit + 0.5).Floor
  }

  lemma ErrorTimesUnit(value: real, usd: real, unit: real, native: int)
    requires 0.0 < unit < 1_000_000_000_000.0 && usd * unit == native as real
    requires -0.000_000_000_000_5 < value - usd <= 0.000_000_000_000_5
    ensures -0.5 < value * unit - native as real < 0.5
  {
    var e := value - usd;
    assert value * unit == usd * unit + e * unit;
    assert e * unit <= 0.000_000_000_000_5 * unit;
    assert e * unit > -0.000_000_000_000_5 * unit;
  }

  ghost predicate ReadsBack(native: nat, unit: real)
    requires unit > 0.0
  {
    var value := Convert(native, unit).value;
    IsDecimal(value) && ToNative(Worth(value), unit) == native
  }

  /** Up to 10^12 units a dollar, the stored value times the unit rounds back to the native amount. */
  lemma NativeIsRecovered(native: nat, unit: real)
    requires 0.0 < unit <= 1_000_000_000_000.0
    ensures ReadsBack(native, unit)
  {
    QuotientTimes(native as real, unit);
    TextRecovers(native as real / unit, unit, native);
  }

  lemma TextRecovers(usd: real, unit: real, native: nat)
    requires 0.0 < unit <= 1_000_000_000_000.0 && usd >= 0.0 && usd * unit == native as real
    ensures IsDecimal(ExactDecimal(usd)) && ToNative(Worth(ExactDecimal(usd)), unit) == native
  {
    ExactParsesBack(usd);
    WorthRecovers(Worth(ExactDecimal(usd)), usd, unit, native);
  }

  lemma WorthRecovers(value: real, usd: real, unit: real, native: nat)
    requires 0.0 < unit <= 1_000_000_000_000.0 && usd >= 0.0 && usd * unit == native as real
    requires value == Scaled(usd) as real / 1_000_000_000_000.0
    ensures ToNative(value, unit) == native
  {
    if unit < 1_000_000_000_000.0 {
      ErrorTimesUnit(value, usd, unit, native);
      NearestInteger(value * unit, native);
    } else {
      // every amount is a multiple of the last decimal, so nothing is rounded
      assert Scaled(usd) == native;
      assert value * unit == native as real;
    }
  }

  lemma QuotientTimes(n: real, u: real)
    requires u > 0.0
    ensures n / u * u == n
    ensures n >= 0.0 ==> n / u >= 0.0
  {}

  lemma NearestInteger(v: real, n: int)
    requires -0.5 < v - n as real < 0.5
    ensures (v + 0.5).Floor == n
  {}

  lemma Ceiling(h: real) returns (n: int)
    ensures (n - 1) as real < h <= n as real
  {
    n := -((-h).Floor);
  }

  function Times(n: int, d: real): real {
    n as real * d
  }

  /** The least amount whose share of the excess d reaches one half. */
  ghost predicate LeastLost(n: int, d: real) {
    d > 0.0 && n >= 1 && Times(n, d) >= 0.5 && Times(n - 1, d) < 0.5
  }

  lemma TimesIsMonotone(i: int, j: int, d: real)
    requires i <= j && d >= 0.0
    ensures Times(i, d) <= Times(j, d)
  {
    Product(i as real, j as real, d);
  }

  lemma Product(a: real, b: real, d: real)
    requires a <= b && d >= 0.0
    ensures a * d <= b * d
  {}

  lemma StrictProduct(a: real, b: real, d: real)
    requires a < b && d > 0.0
    ensures a * d < b * d
  {}

  lemma FindLeastLost(d: real) returns (n: nat)
    requires d > 0.0
    ensures LeastLost(n, d)
  {
    var h := 0.5 / d;
    HalfOver(d);
    var c := Ceiling(h);
    CeilingIsLeast(c, h, d);
    n := c;
  }

  lemma CeilingIsLeast(c: int, h: real, d: real)
    requires d > 0.0 && h > 0.0 && h * d == 0.5 && (c - 1) as real < h <= c as real
    ensures LeastLost(c, d)
  {
    StrictProduct((c - 1) as real, h, d);
    Product(h, c as real, d);
  }

  lemma HalfOver(d: real)
    requires d > 0.0
    ensures 0.5 / d > 0.0 && 0.5 / d * d == 0.5
  {}

  lemma RoundsBelow(j: nat, n: nat, x: real)
    requires j < n && x < 0.5
    ensures (j as real + x + 0.5).Floor < n
  {}

  lemma RoundsAbove(j: nat, n: nat, x: real)
    requires j >= n && x >= 0.5
    ensures (j as real + x + 0.5).Floor > n
  {}

  /** No multiple of 1 + d rounds to the least lost amount: the smaller ones fall short of it, the others pass it. */
  lemma NoMultipleRounds(j: nat, n: nat, d: real)
    requires LeastLost(n, d)
    ensures (j as real + Times(j, d) + 0.5).Floor != n
  {
    if j < n {
      TimesIsMonotone(j, n - 1, d);
      RoundsBelow(j, n, Times(j, d));
    } else {
      TimesIsMonotone(n, j, d);
      RoundsAbove(j, n, Times(j, d));
    }
  }

  /** By how much a dollar exceeds 10^12 units, in parts of 10^12. */
  function Excess(unit: real): real {
    unit / 1_000_000_000_000.0 - 1.0
  }

  /** What a stored value of j last decimals comes to in native units. */
  lemma ScaledBack(j: nat, unit: real)
    ensures j as real / 1_000_000_000_000.0 * unit == j as real + Times(j, Excess(unit))
  {
    var q := unit / 1_000_000_000_000.0;
    assert j as real / 1_000_000_000_000.0 * unit == j as real * q;
    assert j as real * q == j as real + j as real * (q - 1.0);
  }

  lemma NotNative(usd: real, j: nat, unit: real, n: nat)
    requires usd == j as real / 1_000_000_000_000.0 && LeastLost(n, Excess(unit))
    ensures ToNative(usd, unit) != n
  {
    ScaledBack(j, unit);
    NoMultipleRounds(j, n, Excess(unit));
  }

  lemma TextOfLost(n: nat, usd: real, unit: real)
    requires usd >= 0.0 && LeastLost(n, Excess(unit))
    ensures IsDecimal(ExactDecimal(usd)) && ToNative(Worth(ExactDecimal(usd)), unit) != n
  {
    ExactParsesBack(usd);
    NotNative(Worth(ExactDecimal(usd)), Scaled(usd), unit, n);
  }

  /** Above 10^12 units a dollar some amount does not read back: the least one the rounding of its text throws off. */
  lemma AmountIsLost(unit: real) returns (n: nat)
    requires unit > 1_000_000_000_000.0
    ensures !ReadsBack(n, unit)
  {
    n := FindLeastLost(Excess(unit));
    QuotientTimes(n as real, unit);
    TextOfLost(n, n as real / unit, unit);
  }

  /** Every native amount reads back exactly when a dollar is at most 10^12 units. */
  lemma AllRecoveredIff(unit: real)
    requires unit > 0.0
    ensures (forall native: nat :: ReadsBack(native, unit)) <==> unit <= 1_000_000_000_000.0
  {
    if unit <= 1_000_000_000_000.0 {
      forall native: nat ensures ReadsBack(native, unit) {
        NativeIsRecovered(native, unit);
      }
    } else {
      var n := AmountIsLost(unit);
    }
  }

  /** What is left of a budget, and whether it was overdrawn. */
  function Remainder(total: real, used: real): (real, bool) {
    if total - used < 0.0 then (0.0, true) else (total - used, false)
  }

  lemma RemainderConserves(total: real, used: real)
    ensures var (left, clamped) := Remainder(total, used);
            && left >= 0.0 && (clamped <==> used > total)
            && (if clamped then left == 0.0 else used + left == total)
  {}

  // ----- the dollar display -----

  function Cents(a: real): nat
    requires a >= 0.0
  {
    (a * 100.0 + 0.5).Floor
  }

  function CentsText(c: nat): string {
    Digits(c / 100) + "." + Padded(c % 100, 2)
  }

  function Abs(x: real): real {
    if x < 0.0 then -x else x
  }

  function DisplayUSD(x: real): string {
    if x == 0.0 then "$0.00"
    else if Abs(x) < 0.005 then (if x < 0.0 then "-$" else "$") + ExactDecimal(Abs(x))
    else (if x < 0.0 then "-" else "") + "$" + CentsText(Cents(Abs(x)))
  }

  /** The text after the sign and the dollar mark. */
  function Bare(x: real): string {
    if x == 0.0 then "0.00" else if Abs(x) < 0.005 then ExactDecimal(Abs(x)) else CentsText(Cents(Abs(x)))
  }

  function Mark(x: real): string {
    if x < 0.0 then "-$" else "$"
  }

  lemma DisplayIsMarked(x: real)
    ensures DisplayUSD(x) == Mark(x) + Bare(x)
  {
    assert "$" + "0.00" == "$0.00";
    assert "-" + "$" + Bare(x) == "-$" + Bare(x);
    assert "" + "$" + Bare(x) == "$" + Bare(x);
  }

  predicate IsAmount(s: string) {
    (s != "" && s[0] == '$' && IsDecimal(s[1..])) || (|s| >= 2 && s[0] == '-' && s[1] == '$' && IsDecimal(s[2..]))
  }

  /** What a reader takes a displayed amount for. */
  function Shown(s: string): real
    requires IsAmount(s)
  {
    if s[0] == '$' then Worth(s[1..]) else -Worth(s[2..])
  }

  lemma WithCents(whole: string, cents: string, scale: real)
    requires AllDigits(whole) && whole != "" && AllDigits(cents) && |cents| == 2 && scale == 100.0
    ensures Reads(whole + "." + cents, Number(whole) as real + Number(cents) as real / scale)
  {
    assert Pow10(2) == 100;
    WithFraction(whole, cents, scale);
  }

  lemma CentsRead(c: nat)
    ensures Reads(CentsText(c), c as real / 100.0)
  {
    var scale :| scale == 100.0;
    CentsReadAt(c, scale);
    HundredthsAdd(c / 100, c % 100, scale);
  }

  lemma CentsReadAt(c: nat, scale: real)
    requires scale == 100.0
    ensures Reads(CentsText(c), (c / 100) as real + (c % 100) as real / scale)
  {
    assert Pow10(2) == 100;
    DigitsWrite(c / 100);
    PaddedWrites(c % 100, 2);
    WithCents(Digits(c / 100), Padded(c % 100, 2), scale);
  }

  lemma HundredthsAdd(whole: nat, rest: nat, scale: real)
    requires scale == 100.0
    ensures whole as real + rest as real / scale == (100 * whole + rest) as real / 100.0
  {}

  /** The value a display stands for: a multiple of 10^-12 below half a cent, whole cents from there on. */
  function Rounded(a: real): real
    requires a >= 0.0
  {
    if a < 0.005 then Scaled(a) as real / 1_000_000_000_000.0 else Cents(a) as real / 100.0
  }

  function Signed(x: real): real {
    if x < 0.0 then -Rounded(-x) else Rounded(x)
  }

  lemma DisplayReads(x: real)
    ensures IsAmount(DisplayUSD(x)) && Shown(DisplayUSD(x)) == Signed(x)
  {
    var s := DisplayUSD(x);
    DisplayIsMarked(x);
    BareReads(x);
    if x < 0.0 {
      assert s[2..] == Bare(x);
    } else {
      assert s[1..] == Bare(x);
    }
  }

  lemma BareReads(x: real)
    ensures IsDecimal(Bare(x)) && Worth(Bare(x)) == Rounded(Abs(x))
  {
    if x == 0.0 {
      assert Digits(0) == "0" && Padded(0, 2) == "00";
      assert CentsText(0) == "0.00";
      CentsRead(0);
    } else if Abs(x) < 0.005 {
      ExactParsesBack(Abs(x));
    } else {
      CentsRead(Cents(Abs(x)));
    }
  }

  /** A negative amount displays as the minus sign and its opposite. */
  lemma DisplayIsSymmetric(x: real)
    requires x > 0.0
    ensures DisplayUSD(-x) == "-" + DisplayUSD(x)
  {
    DisplayIsMarked(x);
    DisplayIsMarked(-x);
    assert "-$" + Bare(x) == "-" + ("$" + Bare(x));
  }

  /** Half-up cents from half a cent on, within half of 10^-12 below. */
  lemma DisplayIsClose(x: real)
    ensures IsAmount(DisplayUSD(x))
    ensures Abs(x) >= 0.005 ==> -0.005 < Abs(Shown(DisplayUSD(x))) - Abs(x) <= 0.005
    ensures Abs(x) < 0.005 ==> -0.000_000_000_000_5 < Abs(Shown(DisplayUSD(x))) - Abs(x) <= 0.000_000_000_000_5
  {
    DisplayReads(x);
  }

  /**
   The stored value and the displayed amount of one conversion differ by half a cent at most, up to the
   twelfth decimal.
   */
  lemma TextsAgree(native: nat, unit: real)
    requires unit > 0.0
    ensures IsDecimal(Convert(native, unit).value) && IsAmount(Convert(native, unit).display)
    ensures Abs(Shown(Convert(native, unit).display) - Worth(Convert(native, unit).value)) <= 0.005_000_000_000_5
  {
    QuotientTimes(native as real, unit);
    NearBoth(native as real / unit);
  }

  lemma NearBoth(x: real)
    requires x >= 0.0
    ensures IsDecimal(ExactDecimal(x)) && IsAmount(DisplayUSD(x))
    ensures Abs(Shown(DisplayUSD(x)) - Worth(ExactDecimal(x))) <= 0.005_000_000_000_5
  {
    ExactParsesBack(x);
    DisplayReads(x);
  }

  lemma RoundedIsMonotone(a: real, b: real)
    requires 0.0 <= a <= b
    ensures Rounded(a) <= Rounded(b)
  {
    if b < 0.005 {
      FloorIsMonotone(a * 1_000_000_000_000.0 + 0.5, b * 1_000_000_000_000.0 + 0.5);
    } else if a < 0.005 {
      FloorIsMonotone(a * 1_000_000_000_000.0 + 0.5, 5_000_000_000.5);
      FloorIsMonotone(1.0, b * 100.0 + 0.5);
      assert Scaled(a) <= 5_000_000_000 && Cents(b) >= 1;
    } else {
      FloorIsMonotone(a * 100.0 + 0.5, b * 100.0 + 0.5);
    }
  }

  lemma SignedIsMonotone(x: real, y: real)
    requires x <= y
    ensures Signed(x) <= Signed(y)
  {
    if y < 0.0 {
      RoundedIsMonotone(-y, -x);
    } else if x >= 0.0 {
      RoundedIsMonotone(x, y);
    }
  }

  lemma FloorIsMonotone(a: real, b: real)
    requires a <= b
    ensures a.Floor <= b.Floor
  {}

  /** A larger amount never displays as a smaller one, also across the seam at half a cent. */
  lemma DisplayIsMonotone(x: real, y: real)
    requires x <= y
    ensures IsAmount(DisplayUSD(x)) && IsAmount(DisplayUSD(y)) && Shown(DisplayUSD(x)) <= Shown(DisplayUSD(y))
  {
    DisplayReads(x);
    DisplayReads(y);
    SignedIsMonotone(x, y);
  }

  lemma ZeroCentsText()
    ensures IsDecimal("0.00") && !Canonical("0.00") && Worth("0.00") == 0.0
  {
    assert "0" + "." + "00" == "0.00";
    PointBetween("0", "00");
    BareReads(0.0);
  }

  lemma BareDigitsOnly(x: real, text: string)
    requires DisplayUSD(x) == "$" + text || DisplayUSD(x) == "-$" + text
    requires text != "" && text[0] != '$'
    ensures Bare(x) == text
  {
    DisplayIsMarked(x);
    BareReads(x);
    var s := DisplayUSD(x);
    assert s[0] == '-' <==> x < 0.0;
    if x < 0.0 {
      assert s[2..] == Bare(x) && ("-$" + text)[2..] == text;
    } else {
      assert s[1..] == Bare(x) && ("$" + text)[1..] == text;
    }
  }

  /** Only zero is displayed as zero dollars and zero cents. */
  lemma OnlyZeroShowsNoCents(x: real)
    ensures DisplayUSD(x) == "$0.00" || DisplayUSD(x) == "-$0.00" <==> x == 0.0
  {
    if DisplayUSD(x) == "$0.00" || DisplayUSD(x) == "-$0.00" {
      assert "$" + "0.00" == "$0.00" && "-$" + "0.00" == "-$0.00";
      BareDigitsOnly(x, "0.00");
      BareReads(x);
      ZeroCentsText();
      ExactParsesBack(Abs(x));
    }
  }

  /** A bare zero without cents stands exactly for the amounts too small for the twelfth decimal. */
  lemma BareZeroIsDust(x: real)
    ensures DisplayUSD(x) == "$0" || DisplayUSD(x) == "-$0" <==> 0.0 < Abs(x) < 0.000_000_000_000_5
  {
    if 0.0 < Abs(x) < 0.005 {
      ExactIsRendered(Abs(x));
      OnlyZeroIsBare(Scaled(Abs(x)));
    }
    if DisplayUSD(x) == "$0" || DisplayUSD(x) == "-$0" {
      assert "$" + "0" == "$0" && "-$" + "0" == "-$0";
      BareDigitsOnly(x, "0");
      BareReads(x);
      ZeroIsBare();
      RenderedReads(0);
    }
  }
}
