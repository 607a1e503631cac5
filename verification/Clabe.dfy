/** The weighted check digit of an 18-digit CLABE. */
module Clabe {
  import opened Numerals

  /** 3, 7, 1 in turn; the check digit, in place 17, falls on a 1. */
  function Weight(i: nat): int {
    if i % 3 == 0 then 3 else if i % 3 == 1 then 7 else 1
  }

  const WEIGHTS := [3, 7, 1, 3, 7, 1, 3, 7, 1, 3, 7, 1, 3, 7, 1, 3, 7]

  function WeightedSum(s: string): nat
    requires AllDigits(s)
  {
    if s == "" then 0 else WeightedSum(s[..|s| - 1]) + Weight(|s| - 1) * DigitValue(s[|s| - 1])
  }

  predicate IsClabeShape(s: string) {
    |s| == 18 && AllDigits(s)
  }

  /** Valid numbers are those whose weighted sum, check digit included, is a multiple of ten. */
  predicate Valid(s: string) {
    IsClabeShape(s) && WeightedSum(s) % 10 == 0
  }

  lemma SumStep(s: string, i: nat)
    requires AllDigits(s) && i < 17 && i < |s|
    ensures WeightedSum(s[..i + 1]) == WeightedSum(s[..i]) + DigitValue(s[i]) * WEIGHTS[i]
  {
    OneMore(s, i);
    assert WEIGHTS[i] == Weight(i);
  }

  lemma OneMore(s: string, i: nat)
    requires AllDigits(s) && i < |s|
    ensures WeightedSum(s[..i + 1]) == WeightedSum(s[..i]) + Weight(i) * DigitValue(s[i])
  {
    assert s[..i + 1][..i] == s[..i];
  }

  lemma SumTo(s: string, i: nat)
    requires AllDigits(s) && i + 3 <= |s| && i % 3 == 0
    ensures WeightedSum(s[..i + 3])
         == WeightedSum(s[..i]) + 3 * DigitValue(s[i]) + 7 * DigitValue(s[i + 1]) + DigitValue(s[i + 2])
  {
    OneMore(s, i);
    OneMore(s, i + 1);
    OneMore(s, i + 2);
    assert Weight(i) == 3 && Weight(i + 1) == 7 && Weight(i + 2) == 1;
  }

  /** The digits in place `i`, `i + 3` and so on, added up. */
  function EveryThird(s: string, i: nat): nat
    requires AllDigits(s)
    decreases |s| - i
  {
    if i >= |s| then 0 else DigitValue(s[i]) + EveryThird(s, i + 3)
  }

  lemma {:induction false} SumFrom(s: string, i: nat)
    requires AllDigits(s) && i % 3 == |s| % 3 == 0 && i <= |s|
    ensures WeightedSum(s)
         == WeightedSum(s[..i]) + 3 * EveryThird(s, i) + 7 * EveryThird(s, i + 1) + EveryThird(s, i + 2)
    decreases |s| - i
  {
    if i == |s| {
      assert s[..i] == s;
    } else {
      SumTo(s, i);
      SumFrom(s, i + 3);
    }
  }

  /** The sum place by place: the first digit and every third after it count three times, the ones behind
      them seven times, the others once. */
  lemma SumByPlace(s: string)
    requires IsClabeShape(s)
    ensures WeightedSum(s) == 3 * EveryThird(s, 0) + 7 * EveryThird(s, 1) + EveryThird(s, 2)
  {
    SumFrom(s, 0);
    assert s[..0] == "";
  }

  /** The account number of the source's own examples. */
  lemma ExampleIsValid()
    ensures Valid("032180000118359719")
  {
    var s := "032180000118359719";
    assert EveryThird(s, 15) == 7 && EveryThird(s, 12) == 10 && EveryThird(s, 9) == 11;
    assert EveryThird(s, 6) == 11 && EveryThird(s, 3) == 12 && EveryThird(s, 0) == 12;
    assert EveryThird(s, 16) == 1 && EveryThird(s, 13) == 6 && EveryThird(s, 10) == 7;
    assert EveryThird(s, 7) == 7 && EveryThird(s, 4) == 15 && EveryThird(s, 1) == 18;
    assert EveryThird(s, 17) == 9 && EveryThird(s, 14) == 18 && EveryThird(s, 11) == 26;
    assert EveryThird(s, 8) == 26 && EveryThird(s, 5) == 26 && EveryThird(s, 2) == 28;
    SumByPlace(s);
  }

  lemma CompletesToTen(sum: nat, d: nat)
    requires d < 10
    ensures (sum + d) % 10 == 0 <==> d == (10 - sum % 10) % 10
  {
  }

  lemma CheckDecides(s: string)
    requires IsClabeShape(s)
    ensures Valid(s) <==> DigitValue(s[17]) == (10 - WeightedSum(s[..17]) % 10) % 10
  {
    CompletesToTen(WeightedSum(s[..17]), DigitValue(s[17]));
  }

  method IsValidClabe(clabe: string) returns (valid: bool)
    ensures valid <==> Valid(clabe)
    ensures valid <==> && |clabe| == 18 && AllDigits(clabe)
                       && (3 * EveryThird(clabe, 0) + 7 * EveryThird(clabe, 1) + EveryThird(clabe, 2)) % 10 == 0
  {
    if !IsClabeShape(clabe) {
      return false;
    }
    var sum := 0;
    for i := 0 to 17
      invariant sum == WeightedSum(clabe[..i])
    {
      SumStep(clabe, i);
      sum := sum + DigitValue(clabe[i]) * WEIGHTS[i];
    }
    CheckDecides(clabe);
    SumByPlace(clabe);
    valid := DigitValue(clabe[17]) == (10 - sum % 10) % 10;
  }

  lemma {:induction false} SumAfterUpdate(s: string, i: nat, c: char)
    requires AllDigits(s) && i < |s| && IsDigit(c)
    ensures AllDigits(s[i := c])
    ensures WeightedSum(s[i := c]) == WeightedSum(s) + Weight(i) * (DigitValue(c) - DigitValue(s[i]))
  {
    var s', n := s[i := c], |s| - 1;
    if i == n {
      assert s'[..n] == s[..n];
    } else {
      assert s'[..n] == s[..n][i := c];
      SumAfterUpdate(s[..n], i, c);
    }
  }

  function CheckDigit(prefix: string): char
    requires AllDigits(prefix)
  {
    DigitChar((10 - WeightedSum(prefix) % 10) % 10)
  }

  lemma SumWithCheck(prefix: string, c: char)
    requires |prefix| == 17 && AllDigits(prefix) && IsDigit(c)
    ensures AllDigits(prefix + [c]) && WeightedSum(prefix + [c]) == WeightedSum(prefix) + DigitValue(c)
  {
    assert (prefix + [c])[..17] == prefix;
  }

  /** Every 17-digit prefix has exactly one check digit. */
  lemma UniqueCheckDigit(prefix: string, c: char)
    requires |prefix| == 17 && AllDigits(prefix)
    ensures Valid(prefix + [c]) <==> c == CheckDigit(prefix)
  {
    if IsDigit(c) {
      SumWithCheck(prefix, c);
      CompletesToTen(WeightedSum(prefix), DigitValue(c));
    } else {
      assert (prefix + [c])[17] == c;
    }
  }

  lemma WeightsAreUnits(i: nat, difference: int)
    requires -10 < difference < 10
    ensures Weight(i) * difference % 10 == 0 <==> difference == 0
  {
  }

  /** Changing any one digit of a valid CLABE makes it invalid. */
  lemma SingleErrorDetected(s: string, i: nat, c: char)
    requires Valid(s) && i < 18 && c != s[i]
    ensures !Valid(s[i := c])
  {
    if IsDigit(c) {
      SumAfterUpdate(s, i, c);
      WeightsAreUnits(i, DigitValue(c) - DigitValue(s[i]));
      SumsModTen(WeightedSum(s), Weight(i) * (DigitValue(c) - DigitValue(s[i])));
    } else {
      assert s[i := c][i] == c;
    }
  }

  lemma SumsModTen(sum: int, change: int)
    requires sum % 10 == 0
    ensures (sum + change) % 10 == 0 <==> change % 10 == 0
  {
  }

  /** Exchanging two digits of a valid CLABE goes unnoticed exactly when the difference of their
      weights times the difference of the digits is a multiple of ten. */
  lemma SwapUndetected(s: string, i: nat, j: nat)
    requires Valid(s) && i < j < 18
    ensures AllDigits(s) && (Valid(s[i := s[j]][j := s[i]]) <==>
      (Weight(i) - Weight(j)) * (DigitValue(s[j]) - DigitValue(s[i])) % 10 == 0)
  {
    SumAfterUpdate(s, i, s[j]);
    SumAfterUpdate(s[i := s[j]], j, s[i]);
    SwapArithmetic(Weight(i), Weight(j), DigitValue(s[i]), DigitValue(s[j]), WeightedSum(s));
  }

  lemma SwapArithmetic(v: int, w: int, a: int, b: int, sum: int)
    requires sum % 10 == 0
    ensures (sum + v * (b - a) + w * (a - b)) % 10 == 0 <==> (v - w) * (b - a) % 10 == 0
  {
    assert v * (b - a) + w * (a - b) == (v - w) * (b - a);
    SumsModTen(sum, (v - w) * (b - a));
  }

  /** Exchanging neighbours, check digit included, goes unnoticed exactly when they are equal or
      five apart. */
  lemma NeighbourSwapUndetected(s: string, i: nat)
    requires Valid(s) && i < 17
    ensures AllDigits(s)
    ensures var a, b := DigitValue(s[i]), DigitValue(s[i + 1]);
      Valid(s[i := s[i + 1]][i + 1 := s[i]]) <==> a == b || a - b == 5 || b - a == 5
  {
    SwapUndetected(s, i, i + 1);
    FivesOnly(i, DigitValue(s[i + 1]) - DigitValue(s[i]));
  }

  lemma FivesOnly(i: nat, d: int)
    requires -10 < d < 10
    ensures (Weight(i) - Weight(i + 1)) * d % 10 == 0 <==> d == 0 || d == 5 || d == -5
  {
  }

  /** Digits whose places differ by a multiple of three can be exchanged without being noticed. */
  lemma DistantSwapNeverDetected(s: string, i: nat, j: nat)
    requires Valid(s) && i < j < 18 && (j - i) % 3 == 0
    ensures Valid(s[i := s[j]][j := s[i]])
  {
    SwapUndetected(s, i, j);
  }
}
