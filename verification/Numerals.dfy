/** Decimal numerals: what `toString`, `parseInt`, `toFixed(2)` and `parseFloat` do to the
    numbers the translators handle. Numbers are exact reals; `NaN` is kept because
    `parseFloat` can produce it. */
module Numerals {
  import opened Text

  datatype JsNumber = NaN | Finite(value: real)

  predicate IsDigit(c: char) {
    '0' <= c <= '9'
  }

  predicate AllDigits(s: string) {
    forall i :: 0 <= i < |s| ==> IsDigit(s[i])
  }

  function DigitChar(d: nat): (c: char)
    requires d < 10
    ensures IsDigit(c)
  {
    '0' + d as char
  }

  function DigitValue(c: char): (d: nat)
    requires IsDigit(c)
    ensures d < 10
  {
    c as int - '0' as int
  }

  /** `n.toString()` for a whole number. */
  function Dec(n: nat): (s: string)
    ensures |s| >= 1 && AllDigits(s)
  {
    if n < 10 then [DigitChar(n)] else Dec(n / 10) + [DigitChar(n % 10)]
  }

  /** `parseInt(s, 10)` on a digit string. */
  function Value(s: string): nat
    requires AllDigits(s)
  {
    if s == "" then 0 else 10 * Value(s[..|s| - 1]) + DigitValue(s[|s| - 1])
  }

  function Pow10(k: nat): (p: nat)
    ensures p >= 1
  {
    if k == 0 then 1 else 10 * Pow10(k - 1)
  }

  lemma {:induction false} ValueOfDec(n: nat)
    ensures Value(Dec(n)) == n
  {
    if n >= 10 {
      ValueOfDec(n / 10);
      assert Dec(n)[..|Dec(n)| - 1] == Dec(n / 10);
    }
  }

  /** A numeral below `10^k` has at most `k` digits. */
  lemma {:induction false} DecWidth(n: nat, k: nat)
    requires k >= 1 && n < Pow10(k)
    ensures |Dec(n)| <= k
  {
    if n >= 10 {
      assert k > 1;
      DecWidth(n / 10, k - 1);
    }
  }

  /** Leading zeros do not change the value. */
  lemma {:induction false} ValueOfPadded(s: string, n: nat)
    requires AllDigits(s)
    ensures AllDigits(PadStart(s, n, '0')) && Value(PadStart(s, n, '0')) == Value(s)
  {
    ValueOfZeros(Fill('0', n - |s|), s);
  }

  lemma {:induction false} ValueOfZeros(z: string, s: string)
    requires AllDigits(s) && forall i :: 0 <= i < |z| ==> z[i] == '0'
    ensures AllDigits(z + s) && Value(z + s) == Value(s)
  {
    if s != "" {
      assert (z + s)[..|z + s| - 1] == z + s[..|s| - 1];
      ValueOfZeros(z, s[..|s| - 1]);
    } else if z != "" {
      assert z + s == z;
      assert z[..|z| - 1] + s == z[..|z| - 1];
      ValueOfZeros(z[..|z| - 1], s);
    } else {
      assert z + s == "";
    }
  }

  lemma {:induction false} ValueOfConcat(a: string, b: string)
    requires AllDigits(a) && AllDigits(b)
    ensures AllDigits(a + b) && Value(a + b) == Value(a) * Pow10(|b|) + Value(b)
  {
    if b == "" {
      assert a + b == a;
    } else {
      var n := |b| - 1;
      ValueOfConcat(a, b[..n]);
      assert (a + b)[..|a + b| - 1] == a + b[..n];
      assert 10 * (Value(a) * Pow10(n)) == Value(a) * Pow10(n + 1);
    }
  }

  // ---------- two-decimal amounts ----------

  /** `Math.round(100 * x)`: the nearest whole number of cents, ties upwards. */
  function RoundCents(x: real): int {
    (100.0 * x + 0.5).Floor
  }

  predicate WholeCents(x: real) {
    (100.0 * x).Floor as real == 100.0 * x
  }

  function CentsString(cents: nat): string {
    Dec(cents / 100) + "." + [DigitChar(cents % 100 / 10), DigitChar(cents % 10)]
  }

  /** `x.toFixed(2)`, for `|x|` below 1e21 (from there on JavaScript switches to exponents). */
  function ToFixed2(x: JsNumber): string {
    if x.NaN? then "NaN"
    else if x.value < 0.0 then "-" + CentsString(Abs(RoundCents(-x.value)))
    else CentsString(Abs(RoundCents(x.value)))
  }

  function Abs(n: int): nat {
    if n < 0 then -n else n
  }

  function LeadingDigits(s: string): (d: string)
    ensures d <= s && AllDigits(d)
    ensures |d| < |s| ==> !IsDigit(s[|d|])
  {
    if s == "" || !IsDigit(s[0]) then "" else [s[0]] + LeadingDigits(s[1..])
  }

  function Decimal(whole: string, fraction: string): JsNumber
    requires AllDigits(whole) && AllDigits(fraction)
  {
    if whole == "" && fraction == "" then NaN
    else Finite(Value(whole) as real + Value(fraction) as real / Pow10(|fraction|) as real)
  }

  /** `parseFloat` on text without sign or exponent: digits, then optionally a point and more
      digits; whatever follows is ignored. */
  function ParseFloat(s: string): JsNumber {
    var whole := LeadingDigits(s);
    var rest := s[|whole|..];
    var fraction := if rest != "" && rest[0] == '.' then LeadingDigits(rest[1..]) else "";
    Decimal(whole, fraction)
  }

  lemma {:induction false} LeadingDigitsOf(d: string, rest: string)
    requires AllDigits(d) && (rest == "" || !IsDigit(rest[0]))
    ensures LeadingDigits(d + rest) == d
  {
    if d == "" {
      assert d + rest == rest;
    } else {
      assert (d + rest)[1..] == d[1..] + rest;
      LeadingDigitsOf(d[1..], rest);
    }
  }

  lemma ParseOfParts(whole: string, fraction: string)
    requires AllDigits(whole) && AllDigits(fraction)
    ensures ParseFloat(whole + ("." + fraction)) == Decimal(whole, fraction)
  {
    var s := whole + ("." + fraction);
    LeadingDigitsOf(whole, "." + fraction);
    assert LeadingDigits(s) == whole;
    assert s[|whole|..] == "." + fraction;
    assert ("." + fraction)[1..] == fraction == fraction + "";
    LeadingDigitsOf(fraction, "");
    assert LeadingDigits(("." + fraction)[1..]) == fraction;
  }

  lemma ValueOfTwoDigits(n: nat)
    requires n < 100
    ensures Value([DigitChar(n / 10), DigitChar(n % 10)]) == n
  {
    var s := [DigitChar(n / 10), DigitChar(n % 10)];
    assert s[..1][..0] == "";
    assert Value(s[..1]) == n / 10;
  }

  lemma Hundredths(cents: nat)
    ensures (cents / 100) as real + (cents % 100) as real / 100.0 == cents as real / 100.0
  {
    var q, r := cents / 100, cents % 100;
    assert cents as real == 100.0 * q as real + r as real;
  }

  /** Reading back a printed amount gives the amount rounded to cents. */
  lemma ParseOfCents(cents: nat)
    ensures ParseFloat(CentsString(cents)) == Finite(cents as real / 100.0)
  {
    var whole := Dec(cents / 100);
    var fraction := [DigitChar(cents % 100 / 10), DigitChar(cents % 10)];
    assert cents % 10 == cents % 100 % 10;
    assert CentsString(cents) == whole + ("." + fraction);
    ParseOfParts(whole, fraction);
    ValueOfDec(cents / 100);
    ValueOfTwoDigits(cents % 100);
    assert Pow10(1) == 10 && Pow10(2) == 100;
    Hundredths(cents);
  }

  lemma RoundOfCents(cents: int)
    ensures RoundCents(cents as real / 100.0) == cents
  {
  }

  /** A printed amount survives being parsed and printed again. */
  lemma CentsTextReturns(cents: nat)
    ensures ToFixed2(ParseFloat(CentsString(cents))) == CentsString(cents)
  {
    ParseOfCents(cents);
    RoundOfCents(cents);
  }

  /** A text is an amount with two decimals exactly when parsing and printing it changes nothing. */
  lemma AmountTextReturns(s: string)
    requires ParseFloat(s).Finite? && ParseFloat(s).value > 0.0
    ensures ToFixed2(ParseFloat(s)) == s <==> exists cents: nat :: s == CentsString(cents)
  {
    if ToFixed2(ParseFloat(s)) == s {
      assert s == CentsString(Abs(RoundCents(ParseFloat(s).value)));
    }
    if cents: nat :| s == CentsString(cents) { CentsTextReturns(cents); }
  }

  lemma PositiveCents(cents: int)
    ensures cents as real / 100.0 > 0.0 <==> cents >= 1
  {
  }

  /** Rounding to cents changes an amount unless it is in whole cents. */
  lemma AmountExact(x: real)
    ensures RoundCents(x) as real / 100.0 == x <==> WholeCents(x)
  {
  }

  /** Printed with two decimals and parsed, an amount is positive exactly from half a cent up, and
      unchanged exactly in whole cents. */
  lemma AmountReturns(x: real)
    requires x > 0.0
    ensures var back := ParseFloat(ToFixed2(Finite(x)));
      back.Finite? && (back.value > 0.0 <==> RoundCents(x) >= 1) && (back == Finite(x) <==> WholeCents(x))
  {
    ParseOfCents(RoundCents(x));
    PositiveCents(RoundCents(x));
    AmountExact(x);
  }
}
