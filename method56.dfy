/**
 * Check-digit method 56 (Checksum56.java): modulus 11 over positions 1 to
 * 9 with weights 2, 3, 4, 5, 6, 7, 2, 3, 4 from the right; the check digit
 * is 11 minus the remainder. Remainders 0 and 1 make the number invalid,
 * except for numbers starting with 9, which then get the check digits 8
 * and 7.
 */
module Method56 {
  import opened Utils

  const Weights56: seq<nat> := [4, 3, 2, 7, 6, 5, 4, 3, 2]

  /**
   * The check digit for positions 1 to 9 of `a`, or -1 when no digit can
   * be valid. The weighted sum is never negative, so Java's `%` and
   * Dafny's agree on it.
   */
  function Check56(a: seq<Digit>): (c: int)
    requires |a| >= 9
    ensures var rem := WSum(a, Weights56, 0, 9) % 11;
      && (a[0] == 9 && rem == 0 ==> c == 8)
      && (a[0] == 9 && rem == 1 ==> c == 7)
      && (a[0] != 9 && rem <= 1 ==> c == -1)
      && (rem >= 2 ==> 1 <= c <= 9 && (WSum(a, Weights56, 0, 9) + c) % 11 == 0)
  {
    var sum := WSum(a, Weights56, 0, 9);
    WSumNonNegative(a, Weights56, 0, 9);
    ElevenComplement(sum);
    if a[0] == 9 then
      if sum % 11 == 0 then 8 else if sum % 11 == 1 then 7 else 11 - sum % 11
    else
      if sum % 11 == 0 || sum % 11 == 1 then -1 else 11 - sum % 11
  }

  /** 11 minus the remainder modulo 11 completes a sum to a multiple of 11. */
  lemma ElevenComplement(sum: nat)
    ensures sum % 11 >= 2 ==> 1 <= 11 - sum % 11 <= 9 && (sum + (11 - sum % 11)) % 11 == 0
  {
    var q, r := sum / 11, sum % 11;
    assert sum == 11 * q + r;
    if r >= 2 {
      assert sum + (11 - r) == 11 * (q + 1) + 0;
      DivModUnique(sum + (11 - r), 11, q + 1, 0);
      assert (sum + (11 - sum % 11)) % 11 == 0;
    }
  }

  /** Checksum56.calcChecksum: the weighted sum, then the remainder mapping. */
  method CalcChecksum(a: seq<Digit>) returns (checksum: int)
    requires |a| >= 9
    ensures checksum == Check56(a)
  {
    var sum := 0;
    for i := 0 to |Weights56|
      invariant sum == WSum(a, Weights56, 0, i)
    {
      sum := sum + a[i] * Weights56[i];
    }
    WSumNonNegative(a, Weights56, 0, 9);
    if a[0] == 9 {
      checksum := if JavaRem(sum, 11) == 0 then 8
        else if JavaRem(sum, 11) == 1 then 7
        else 11 - JavaRem(sum, 11);
    } else {
      checksum := if JavaRem(sum, 11) == 0 || JavaRem(sum, 11) == 1 then -1
        else 11 - JavaRem(sum, 11);
    }
  }

  /** Checksum56.validate: the 10th digit must equal the check digit. */
  method Validate(a: seq<Digit>) returns (ok: bool)
    requires |a| >= 10
    ensures ok <==> a[9] == Check56(a)
    ensures ok ==> a[9] != 0
    ensures ok && a[0] != 9 ==> (WSum(a, Weights56, 0, 9) + a[9]) % 11 == 0
  {
    var checksum := CalcChecksum(a);
    ok := a[9] == checksum;
  }

  /**
   * The remainders 0 and 1 reject every number that does not start with
   * 9, whatever its 10th digit.
   */
  lemma NoCheckDigitForLowRemainders(a: seq<Digit>)
    requires |a| >= 10 && a[0] != 9
    requires WSum(a, Weights56, 0, 9) % 11 <= 1
    ensures a[9] != Check56(a)
  {
  }

  /** The worked example of the method's documentation: sum 94, remainder 6, check digit 5. */
  lemma Method56Example(p: Digit)
    ensures WSum([0, 2, 9, 0, 5, 4, 5, 0, 0, p], Weights56, 0, 9) == 94
    ensures Check56([0, 2, 9, 0, 5, 4, 5, 0, 0, p]) == 5
  {
  }
}
