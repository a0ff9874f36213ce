/**
 * Check-digit method C1 (ChecksumC1.java). A number whose first digit is
 * not 5 is checked by method 17 (variant 1); a number starting with 5 by
 * variant 2: modulus 11 with weights 1, 2, 1, 2, ... from the left over
 * positions 1 to 9, the crossfoot taken of the doubled products, 1
 * subtracted from the sum, and 10 minus the remainder as check digit
 * (0 when the remainder is 0).
 */
module MethodC1 {
  import opened Utils
  import opened SubMethods

  /** Variant 2's weights, from left to right over positions 1 to 9. */
  const WeightsC1: seq<nat> := [1, 2, 1, 2, 1, 2, 1, 2, 1]

  /** Position i's contribution: the crossfoot at the 2nd, 4th, 6th and 8th digit, the product elsewhere. */
  function Term(a: seq<Digit>, i: nat): nat
    requires i < |WeightsC1| <= |a|
  {
    if (i + 1) % 2 == 0 then DigitSum(a[i] * WeightsC1[i]) else a[i] * WeightsC1[i]
  }

  /** The contributions of the first n positions. */
  function SumC1(a: seq<Digit>, n: nat): nat
    requires n <= |WeightsC1| <= |a|
  {
    if n == 0 then 0 else SumC1(a, n - 1) + Term(a, n - 1)
  }

  /**
   * Variant 2's check digit. It completes the sum to a multiple of 11,
   * except that the completion 10 becomes 0. A sum of 0 makes Java's
   * remainder of sum - 1 negative, and the result is then 11.
   */
  function CheckDigitC1(a: seq<Digit>): (c: int)
    requires |a| >= |WeightsC1|
    ensures var sum := SumC1(a, |WeightsC1|);
      && (sum >= 1 ==> 0 <= c <= 9)
      && (sum >= 1 && sum % 11 != 1 ==> (sum + c) % 11 == 0)
      && (sum % 11 == 1 ==> c == 0)
      && (sum == 0 ==> c == 11)
  {
    var sum := SumC1(a, |WeightsC1|);
    var rem := JavaRem(sum - 1, 11);
    RemainderOfPredecessor(sum);
    if rem == 0 then 0 else 10 - rem
  }

  /**
   * The remainder of sum - 1 in Java's terms: one less than the
   * remainder of sum, 10 when sum is a multiple of 11, and -1 for 0.
   */
  lemma RemainderOfPredecessor(sum: nat)
    ensures sum == 0 ==> JavaRem(sum - 1, 11) == -1
    ensures sum >= 1 && sum % 11 == 0 ==> JavaRem(sum - 1, 11) == 10
    ensures sum >= 1 && sum % 11 != 0 ==> JavaRem(sum - 1, 11) == sum % 11 - 1
    ensures sum >= 1 && sum % 11 != 1 ==> (sum + (10 - JavaRem(sum - 1, 11))) % 11 == 0
  {
    if sum >= 1 {
      var q, r := sum / 11, sum % 11;
      assert sum == 11 * q + r;
      if r == 0 {
        DivModUnique(sum - 1, 11, q - 1, 10);
        DivModUnique(sum + 0, 11, q, 0);
      } else {
        DivModUnique(sum - 1, 11, q, r - 1);
        DivModUnique(sum + (11 - r), 11, q + 1, 0);
      }
    }
  }

  /** A number starting with 5 has a sum of at least 5, so its check digit is a digit. */
  lemma LeadingFiveGivesDigit(a: seq<Digit>)
    requires |a| >= |WeightsC1| && a[0] == 5
    ensures SumC1(a, |WeightsC1|) >= 5
    ensures 0 <= CheckDigitC1(a) <= 9
  {
    SumC1AtLeastFirst(a, |WeightsC1|);
  }

  lemma {:induction false} SumC1AtLeastFirst(a: seq<Digit>, n: nat)
    requires 1 <= n <= |WeightsC1| <= |a|
    ensures SumC1(a, n) >= a[0]
  {
    if n > 1 {
      SumC1AtLeastFirst(a, n - 1);
    }
  }

  /** ChecksumC1.validate as a function: method 17 or variant 2, chosen by the first digit. */
  function VerdictC1(ext: Oracle, a: seq<Digit>): (v: Verdict)
    requires |a| >= 10
    ensures a[0] != 5 ==> v == Verdict(ext(M17, None, a), 0)
    ensures a[0] == 5 ==> v.alternative == 1 && (v.valid <==> a[9] == CheckDigitC1(a))
  {
    Route(a[0] == 5, ext(M17, None, a), a[9] == CheckDigitC1(a))
  }

  /**
   * Variant 2 accepts a number exactly when its 10th digit completes the
   * sum to a multiple of 11, or, when the completion would be 10, when
   * its 10th digit is 0.
   */
  lemma VariantTwoAccepts(ext: Oracle, a: seq<Digit>)
    requires |a| >= 10 && a[0] == 5
    ensures VerdictC1(ext, a).valid <==>
      if SumC1(a, 9) % 11 == 1 then a[9] == 0 else (SumC1(a, 9) + a[9]) % 11 == 0
  {
    LeadingFiveGivesDigit(a);
    var sum := SumC1(a, 9);
    if sum % 11 != 1 {
      var c := CheckDigitC1(a);
      var q := sum / 11;
      assert sum + c == 11 * ((sum + c) / 11);
      if (sum + a[9]) % 11 == 0 {
        var q' := (sum + a[9]) / 11;
        assert sum + a[9] == 11 * q';
        DistinctDigitsModEleven(c, a[9], (sum + c) / 11, q');
      }
    }
  }

  /** Two digits that complete the same sum to a multiple of 11 are equal. */
  lemma DistinctDigitsModEleven(c: int, d: int, p: int, q: int)
    requires 0 <= c <= 9 && 0 <= d <= 9 && c - d == 11 * (p - q)
    ensures c == d
  {
    if p > q {
      MulStep(11, 0, p - q);
    } else if p < q {
      MulStep(11, 0, q - p);
    }
  }

  class ChecksumC1 {
    var alternative: int

    constructor ()
      ensures alternative == 0
    {
      alternative := 0;
    }

    /** ChecksumC1.calcChecksum: the weighted sum, then the remainder of sum - 1. */
    static method CalcChecksum(a: seq<Digit>) returns (checksum: int)
      requires |a| >= |WeightsC1|
      ensures checksum == CheckDigitC1(a)
    {
      var sum := 0;
      for i := 0 to |WeightsC1|
        invariant sum == SumC1(a, i)
      {
        if (i + 1) % 2 == 0 {
          var q := Qs(a[i] * WeightsC1[i]);
          sum := sum + q;
        } else {
          sum := sum + a[i] * WeightsC1[i];
        }
      }
      checksum := if JavaRem(sum - 1, 11) == 0 then 0 else 10 - JavaRem(sum - 1, 11);
    }

    /** ChecksumC1.validate: records the variant used and returns its answer. */
    method Validate(ext: Oracle, a: seq<Digit>) returns (ok: bool)
      requires |a| >= 10
      modifies this
      ensures Verdict(ok, alternative) == VerdictC1(ext, a)
    {
      if a[0] != 5 {
        alternative := 0;
        ok := ext(M17, None, a);
      } else {
        alternative := 1;
        var checksum := CalcChecksum(a);
        ok := a[9] == checksum;
      }
    }
  }

  // -------------------------------------------------------------------
  // The documented numbers for variant 2. Each pair of a valid and an
  // invalid number shares its first nine digits, so one lemma per prefix
  // covers both: the verdict is "valid" exactly for the listed check digit.

  /** The worked example: sum 35, 35 - 1 = 34, remainder 1, check digit 9. */
  lemma MethodC1Example5432112349(ext: Oracle, a: seq<Digit>, p: Digit)
    requires a == [5, 4, 3, 2, 1, 1, 2, 3, 4, p]
    ensures SumC1(a, 9) == 35
    ensures VerdictC1(ext, a) == Verdict(p == 9, 1)
  {
    DoubledDigitSum(4);
    DoubledDigitSum(2);
    DoubledDigitSum(1);
    DoubledDigitSum(3);
    assert SumC1(a, 1) == 5;
    assert SumC1(a, 2) == 13;
    assert SumC1(a, 3) == 16;
    assert SumC1(a, 4) == 20;
    assert SumC1(a, 5) == 21;
    assert SumC1(a, 6) == 23;
    assert SumC1(a, 7) == 25;
    assert SumC1(a, 8) == 31;
    assert SumC1(a, 9) == 35;
    DivModUnique(35, 11, 3, 2);
    assert CheckDigitC1(a) == 9;
  }

  lemma MethodC1Example5543223456(ext: Oracle, a: seq<Digit>, p: Digit)
    requires a == [5, 5, 4, 3, 2, 2, 3, 4, 5, p]
    ensures VerdictC1(ext, a) == Verdict(p == 6, 1)
  {
    DoubledDigitSum(5);
    DoubledDigitSum(3);
    DoubledDigitSum(2);
    DoubledDigitSum(4);
    assert SumC1(a, 1) == 5;
    assert SumC1(a, 2) == 6;
    assert SumC1(a, 3) == 10;
    assert SumC1(a, 4) == 16;
    assert SumC1(a, 5) == 18;
    assert SumC1(a, 6) == 22;
    assert SumC1(a, 7) == 25;
    assert SumC1(a, 8) == 33;
    assert SumC1(a, 9) == 38;
    DivModUnique(38, 11, 3, 5);
    assert CheckDigitC1(a) == 6;
  }

  lemma MethodC1Example5654334563(ext: Oracle, a: seq<Digit>, p: Digit)
    requires a == [5, 6, 5, 4, 3, 3, 4, 5, 6, p]
    ensures VerdictC1(ext, a) == Verdict(p == 3, 1)
  {
    DoubledDigitSum(6);
    DoubledDigitSum(4);
    DoubledDigitSum(3);
    DoubledDigitSum(5);
    assert SumC1(a, 1) == 5;
    assert SumC1(a, 2) == 8;
    assert SumC1(a, 3) == 13;
    assert SumC1(a, 4) == 21;
    assert SumC1(a, 5) == 24;
    assert SumC1(a, 6) == 30;
    assert SumC1(a, 7) == 34;
    assert SumC1(a, 8) == 35;
    assert SumC1(a, 9) == 41;
    DivModUnique(41, 11, 3, 8);
    assert CheckDigitC1(a) == 3;
  }

  lemma MethodC1Example5765445670(ext: Oracle, a: seq<Digit>, p: Digit)
    requires a == [5, 7, 6, 5, 4, 4, 5, 6, 7, p]
    ensures VerdictC1(ext, a) == Verdict(p == 0, 1)
  {
    DoubledDigitSum(7);
    DoubledDigitSum(5);
    DoubledDigitSum(4);
    DoubledDigitSum(6);
    assert SumC1(a, 1) == 5;
    assert SumC1(a, 2) == 10;
    assert SumC1(a, 3) == 16;
    assert SumC1(a, 4) == 17;
    assert SumC1(a, 5) == 21;
    assert SumC1(a, 6) == 29;
    assert SumC1(a, 7) == 34;
    assert SumC1(a, 8) == 37;
    assert SumC1(a, 9) == 44;
    DivModUnique(44, 11, 4, 0);
    assert CheckDigitC1(a) == 0;
  }

  lemma MethodC1Example5876556788(ext: Oracle, a: seq<Digit>, p: Digit)
    requires a == [5, 8, 7, 6, 5, 5, 6, 7, 8, p]
    ensures VerdictC1(ext, a) == Verdict(p == 8, 1)
  {
    DoubledDigitSum(8);
    DoubledDigitSum(6);
    DoubledDigitSum(5);
    DoubledDigitSum(7);
    assert SumC1(a, 1) == 5;
    assert SumC1(a, 2) == 12;
    assert SumC1(a, 3) == 19;
    assert SumC1(a, 4) == 22;
    assert SumC1(a, 5) == 27;
    assert SumC1(a, 6) == 28;
    assert SumC1(a, 7) == 34;
    assert SumC1(a, 8) == 39;
    assert SumC1(a, 9) == 47;
    DivModUnique(47, 11, 4, 3);
    assert CheckDigitC1(a) == 8;
  }
}
