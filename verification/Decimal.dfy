/** Decimal text: digits, fixed-point rendering, trimming, and an independent reading of what a text is worth. */
module Decimal {
  import opened Prelude

  function Digit(d: nat): (c: char)
    requires d < 10
  {
    ('0' as int + d) as char
  }

  predicate IsDigit(c: char) {
    '0' <= c <= '9'
  }

  function DigitValue(c: char): nat
    requires IsDigit(c)
  {
    c as int - '0' as int
  }

  predicate AllDigits(s: string) {
    forall i :: 0 <= i < |s| ==> IsDigit(s[i])
  }

  function Pow10(k: nat): nat {
    if k == 0 then 1 else 10 * Pow10(k - 1)
  }

  lemma {:induction false} Pow10Positive(k: nat)
    ensures Pow10(k) > 0
  {
    if k > 0 {
      Pow10Positive(k - 1);
    }
  }

  lemma {:induction false} Pow10Splits(j: nat, k: nat)
    ensures Pow10(j + k) == Pow10(j) * Pow10(k)
  {
    if j > 0 {
      Pow10Splits(j - 1, k);
      assert Pow10(j + k) == 10 * Pow10(j - 1 + k);
    }
  }

  lemma Pow10Twelve()
    ensures Pow10(12) == 1_000_000_000_000
  {
    assert Pow10(4) == 10_000;
    Pow10Splits(4, 4);
    Pow10Splits(8, 4);
  }

  /** The number a digit string writes. */
  function Number(s: string): nat
    requires AllDigits(s)
  {
    if s == "" then 0 else 10 * Number(s[..|s| - 1]) + DigitValue(Last(s))
  }

  /** A natural number without leading zeros. */
  function Digits(n: nat): string {
    if n < 10 then [Digit(n)] else Digits(n / 10) + [Digit(n % 10)]
  }

  /** The last k digits of n, zero-padded. */
  function Padded(n: nat, k: nat): (s: string)
    ensures |s| == k
  {
    if k == 0 then "" else Padded(n / 10, k - 1) + [Digit(n % 10)]
  }

  predicate NoLeadingZero(s: string) {
    s != "" && (s[0] == '0' ==> s == "0")
  }

  lemma {:induction false} DigitsWrite(n: nat)
    ensures AllDigits(Digits(n)) && Number(Digits(n)) == n && NoLeadingZero(Digits(n)) && (Digits(n) == "0" <==> n == 0)
  {
    var s := Digits(n);
    if n >= 10 {
      DigitsWrite(n / 10);
      assert s[..|s| - 1] == Digits(n / 10);
    } else {
      assert s[..0] == "";
      assert Number(s) == DigitValue(s[0]);
    }
  }

  lemma {:induction false} PaddedWrites(n: nat, k: nat)
    requires n < Pow10(k)
    ensures AllDigits(Padded(n, k)) && Number(Padded(n, k)) == n
  {
    if k > 0 {
      PaddedWrites(n / 10, k - 1);
      var s := Padded(n, k);
      assert s[..|s| - 1] == Padded(n / 10, k - 1);
    }
  }

  /** strings.TrimRight with a one-character cutset */
  function TrimRight(s: string, c: char): string {
    if s != "" && Last(s) == c then TrimRight(s[..|s| - 1], c) else s
  }

  lemma {:induction false} TrimStopsAt(front: string, back: string, c: char)
    requires front != "" && Last(front) != c
    ensures TrimRight(front + back, c) == front + TrimRight(back, c)
  {
    if back == "" {
      assert front + back == front;
    } else {
      assert (front + back)[..|front + back| - 1] == front + back[..|back| - 1];
      if Last(back) == c {
        TrimStopsAt(front, back[..|back| - 1], c);
      }
    }
  }

  /** Trimming zeros drops only zeros, all the trailing ones, each worth a factor of ten. */
  lemma {:induction false} TrimmedZeros(s: string)
    requires AllDigits(s)
    ensures var t := TrimRight(s, '0');
            && t <= s && AllDigits(t) && (t != "" ==> Last(t) != '0')
            && Number(s) == Number(t) * Pow10(|s| - |t|)
  {
    if s != "" && Last(s) == '0' {
      var front := s[..|s| - 1];
      TrimmedZeros(front);
      var t := TrimRight(s, '0');
      TenTimes(Number(t), |front| - |t|);
    }
  }

  lemma TenTimes(n: nat, k: nat)
    ensures 10 * (n * Pow10(k)) == n * Pow10(k + 1)
  {}

  // ----- what a decimal text is worth -----

  /** Where the decimal point stands, or the length without one. */
  function PointAt(s: string): (i: nat)
    ensures i <= |s| && (i < |s| ==> s[i] == '.') && forall j :: 0 <= j < i ==> s[j] != '.'
  {
    if s == "" || s[0] == '.' then 0
    else
      var i := PointAt(s[1..]);
      assert forall j :: 0 < j < i + 1 ==> s[j] == s[1..][j - 1];
      i + 1
  }

  predicate IsDecimal(s: string) {
    var i := PointAt(s);
    i > 0 && AllDigits(s[..i]) && (i < |s| ==> i + 1 < |s| && AllDigits(s[i + 1..]))
  }

  function Worth(s: string): real
    requires IsDecimal(s)
  {
    var i := PointAt(s);
    if i == |s| then Number(s) as real
    else
      Pow10Positive(|s| - i - 1);
      Number(s[..i]) as real + Number(s[i + 1..]) as real / Pow10(|s| - i - 1) as real
  }

  predicate Reads(s: string, value: real) {
    IsDecimal(s) && Worth(s) == value
  }

  /** The one way to write a value: no leading zero, and no zero or point at the end of a fraction. */
  predicate Canonical(s: string) {
    IsDecimal(s) && NoLeadingZero(s[..PointAt(s)]) && (PointAt(s) < |s| ==> Last(s) != '0')
  }

  lemma PointIs(s: string, i: nat)
    requires i <= |s| && (i < |s| ==> s[i] == '.') && forall j :: 0 <= j < i ==> s[j] != '.'
    ensures PointAt(s) == i
  {}

  lemma WholeNumber(whole: string)
    requires AllDigits(whole) && whole != ""
    ensures PointAt(whole) == |whole| && IsDecimal(whole) && Worth(whole) == Number(whole) as real
  {
    PointIs(whole, |whole|);
    assert whole[..|whole|] == whole;
  }

  lemma PointBetween(whole: string, fraction: string)
    requires AllDigits(whole)
    ensures var s := whole + "." + fraction;
            PointAt(s) == |whole| && s[..|whole|] == whole && s[|whole| + 1..] == fraction
  {
    var s := whole + "." + fraction;
    assert forall j :: 0 <= j < |whole| ==> s[j] == whole[j] && IsDigit(whole[j]);
    PointIs(s, |whole|);
  }

  lemma WithFraction(whole: string, fraction: string, scale: real)
    requires AllDigits(whole) && whole != "" && AllDigits(fraction) && fraction != ""
    requires scale == Pow10(|fraction|) as real > 0.0
    ensures Reads(whole + "." + fraction, Number(whole) as real + Number(fraction) as real / scale)
  {
    PointBetween(whole, fraction);
  }
}
