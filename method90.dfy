/**
 * Check-digit method 90 (Checksum90.java). A number padded to 10 digits
 * whose 3rd digit is 9 (a general-ledger account) is checked by method F
 * only. Any other number (a customer account) is tried with methods A to
 * E in turn until one produces its last digit. The object remembers, in
 * `methodFlag`, which method was tried last.
 */
module Method90 {
  import opened Utils

  // Weights from left to right, and the position of the first weighted digit.
  const WeightsA: seq<nat> := [7, 6, 5, 4, 3, 2]   // positions 4 to 9
  const WeightsB: seq<nat> := [6, 5, 4, 3, 2]      // positions 5 to 9
  const WeightsC: seq<nat> := [6, 5, 4, 3, 2]
  const WeightsD: seq<nat> := [6, 5, 4, 3, 2]
  const WeightsE: seq<nat> := [2, 1, 2, 1, 2]
  const WeightsF: seq<nat> := [8, 7, 6, 5, 4, 3, 2] // positions 3 to 9

  /** a[offset + i] * w[i] summed for i < n. */
  function WindowSum(a: seq<Digit>, offset: nat, w: seq<nat>, n: nat): nat
    requires n <= |w| && offset + n <= |a|
  {
    if n == 0 then 0 else WindowSum(a, offset, w, n - 1) + a[offset + n - 1] * w[n - 1]
  }

  // The remainder mappings. Every sum is non-negative, so Java's `%` is Dafny's.

  /** Methods A, B and F: remainders 0 and 1 give 0, otherwise 11 minus the remainder. */
  function Mod11Digit(sum: nat): (c: int)
    ensures 0 <= c <= 9
    ensures sum % 11 <= 1 ==> c == 0
    ensures sum % 11 >= 2 ==> (sum + c) % 11 == 0
  {
    if sum % 11 == 1 || sum % 11 == 0 then 0 else 11 - sum % 11
  }

  /** Method C: modulus 7, so the check digits 7, 8 and 9 cannot occur. */
  function Mod7Digit(sum: nat): (c: int)
    ensures 0 <= c <= 6
    ensures (sum + c) % 7 == 0
  {
    if sum % 7 == 0 then 0 else 7 - sum % 7
  }

  /** Method D: modulus 9, so the check digit 9 cannot occur. */
  function Mod9Digit(sum: nat): (c: int)
    ensures 0 <= c <= 8
    ensures (sum + c) % 9 == 0
  {
    if sum % 9 == 0 then 0 else 9 - sum % 9
  }

  /** Method E: modulus 10. */
  function Mod10Digit(sum: nat): (c: int)
    ensures 0 <= c <= 9
    ensures (sum + c) % 10 == 0
  {
    if sum % 10 == 0 then 0 else 10 - sum % 10
  }

  function MethodA(a: seq<Digit>): int
    requires |a| >= 9
  {
    Mod11Digit(WindowSum(a, 3, WeightsA, 6))
  }

  function MethodB(a: seq<Digit>): int
    requires |a| >= 9
  {
    Mod11Digit(WindowSum(a, 4, WeightsB, 5))
  }

  function MethodC(a: seq<Digit>): int
    requires |a| >= 9
  {
    Mod7Digit(WindowSum(a, 4, WeightsC, 5))
  }

  function MethodD(a: seq<Digit>): int
    requires |a| >= 9
  {
    Mod9Digit(WindowSum(a, 4, WeightsD, 5))
  }

  function MethodE(a: seq<Digit>): int
    requires |a| >= 9
  {
    Mod10Digit(WindowSum(a, 4, WeightsE, 5))
  }

  function MethodF(a: seq<Digit>): int
    requires |a| >= 9
  {
    Mod11Digit(WindowSum(a, 2, WeightsF, 7))
  }

  /** The method selected by a flag value for a customer account; -1 for flags past E. */
  function ByFlag(a: seq<Digit>, flag: int): (c: int)
    requires |a| >= 9
    ensures 0 <= flag <= 4 ==> 0 <= c <= 9
    ensures !(0 <= flag <= 4) ==> c == -1
  {
    if flag == 0 then MethodA(a)
    else if flag == 1 then MethodB(a)
    else if flag == 2 then MethodC(a)
    else if flag == 3 then MethodD(a)
    else if flag == 4 then MethodE(a)
    else -1
  }

  /** The answer of `validate` and the value `methodFlag` holds afterwards. */
  datatype Outcome90 = Outcome90(valid: bool, methodFlag: int)

  /**
   * The flags from `flag` on tried in turn against the check digit `p`:
   * the first flag whose method yields `p`, or failure with flag 6.
   */
  function Scan(f: seq<Digit>, p: Digit, flag: nat): (o: Outcome90)
    requires |f| >= 9 && flag <= 6
    ensures o.valid ==> flag <= o.methodFlag < 5 && p == ByFlag(f, o.methodFlag)
    ensures o.valid ==> forall k :: flag <= k < o.methodFlag ==> p != ByFlag(f, k)
    ensures !o.valid ==> o.methodFlag == 6 && forall k :: flag <= k < 6 ==> p != ByFlag(f, k)
    decreases 6 - flag
  {
    if flag == 6 then Outcome90(false, 6)
    else if p == ByFlag(f, flag) then Outcome90(true, flag)
    else Scan(f, p, flag + 1)
  }

  /**
   * Method 90 for a number of any length: padded to 10 digits, the
   * general-ledger route (3rd digit 9) uses method F alone, the customer
   * route the first of A to E that reproduces the number's last digit.
   */
  function Verdict90(a: seq<Digit>): (o: Outcome90)
    requires |a| >= 1
    ensures var f := Padded(10, a); var p := a[|a| - 1];
      && (o.valid ==> 0 <= o.methodFlag <= 5)
      && (!o.valid ==> o.methodFlag == 6)
      && (f[2] == 9 ==> (o.valid <==> p == MethodF(f)) && (o.valid ==> o.methodFlag == 5))
      && (f[2] != 9 ==> (o.valid <==> exists k :: 0 <= k < 5 && p == ByFlag(f, k)))
      && (f[2] != 9 && o.valid ==>
            (o.methodFlag < 5 && p == ByFlag(f, o.methodFlag)
             && forall k :: 0 <= k < o.methodFlag ==> p != ByFlag(f, k)))
  {
    var f := Padded(10, a);
    var p := a[|a| - 1];
    if f[2] == 9 then
      if p == MethodF(f) then Outcome90(true, 5) else Outcome90(false, 6)
    else
      Scan(f, p, 0)
  }

  class Checksum90 {
    var methodFlag: int

    constructor ()
      ensures methodFlag == 0
    {
      methodFlag := 0;
    }

    /** The loops of calcChecksumMethodA to calcChecksumMethodF. */
    static method SumWindow(a: seq<Digit>, offset: nat, w: seq<nat>) returns (sum: nat)
      requires offset + |w| <= |a|
      ensures sum == WindowSum(a, offset, w, |w|)
    {
      sum := 0;
      for i := 0 to |w|
        invariant sum == WindowSum(a, offset, w, i)
      {
        sum := sum + a[i + offset] * w[i];
      }
    }

    /**
     * Checksum90.calcChecksum: method F for a general-ledger account (and
     * the flag becomes 5), otherwise the method the flag selects.
     */
    method CalcChecksum(a: seq<Digit>) returns (checksum: int)
      requires |a| >= 9
      modifies this
      ensures a[2] == 9 ==> methodFlag == 5 && checksum == MethodF(a)
      ensures a[2] != 9 ==> methodFlag == old(methodFlag) && checksum == ByFlag(a, methodFlag)
    {
      if a[2] == 9 {
        methodFlag := 5;
        var sum := SumWindow(a, 2, WeightsF);
        checksum := if JavaRem(sum, 11) == 1 || JavaRem(sum, 11) == 0 then 0 else 11 - JavaRem(sum, 11);
      } else if methodFlag == 0 {
        var sum := SumWindow(a, 3, WeightsA);
        checksum := if JavaRem(sum, 11) == 1 || JavaRem(sum, 11) == 0 then 0 else 11 - JavaRem(sum, 11);
      } else if methodFlag == 1 {
        var sum := SumWindow(a, 4, WeightsB);
        checksum := if JavaRem(sum, 11) == 1 || JavaRem(sum, 11) == 0 then 0 else 11 - JavaRem(sum, 11);
      } else if methodFlag == 2 {
        var sum := SumWindow(a, 4, WeightsC);
        checksum := if JavaRem(sum, 7) == 0 then 0 else 7 - JavaRem(sum, 7);
      } else if methodFlag == 3 {
        var sum := SumWindow(a, 4, WeightsD);
        checksum := if JavaRem(sum, 9) == 0 then 0 else 9 - JavaRem(sum, 9);
      } else if methodFlag == 4 {
        var sum := SumWindow(a, 4, WeightsE);
        checksum := if JavaRem(sum, 10) == 0 then 0 else 10 - JavaRem(sum, 10);
      } else {
        checksum := -1;
      }
    }

    /**
     * Checksum90.validate: resets the flag, pads the number to 10 digits
     * and tries flag after flag until the computed digit equals the
     * number's last digit or the flag reaches 6.
     */
    method Validate(a: seq<Digit>) returns (ok: bool)
      requires |a| >= 1
      modifies this
      ensures Outcome90(ok, methodFlag) == Verdict90(a)
    {
      methodFlag := 0;
      var filled := FilledAccountNumber(10, a);
      assert filled == Padded(10, a);
      while methodFlag < 6
        invariant 0 <= methodFlag <= 6
        invariant filled[2] == 9 ==> methodFlag == 0 || (methodFlag == 6 && a[|a| - 1] != MethodF(filled))
        invariant filled[2] != 9 ==> Scan(filled, a[|a| - 1], methodFlag) == Verdict90(a)
        decreases 6 - methodFlag
      {
        var checksum := CalcChecksum(filled);
        if a[|a| - 1] == checksum {
          return true;
        }
        methodFlag := methodFlag + 1;
      }
      return false;
    }
  }

  // -------------------------------------------------------------------
  // Properties

  /** Padding makes no difference: a short number and its 10-digit form get the same answer. */
  lemma PaddingIrrelevant(a: seq<Digit>)
    requires 1 <= |a| <= 10
    ensures Verdict90(Padded(10, a)) == Verdict90(a)
  {
    PaddedIdempotent(10, a);
  }

  /**
   * Method A weighs position 4 with 7 and positions 5 to 9 like method B,
   * so when the 4th digit is 0 both give the same digit, and a customer
   * account is never decided by method B.
   */
  lemma NeverMethodBWhenFourthDigitZero(a: seq<Digit>)
    requires |a| == 10 && a[2] != 9 && a[3] == 0
    ensures MethodA(a) == MethodB(a)
    ensures Verdict90(a).methodFlag != 1
  {
    WindowSumShift(a, 3, WeightsA, 6);
    assert WeightsA[1..] == WeightsB;
  }

  /** The first weighted digit can be split off. */
  lemma {:induction false} WindowSumShift(a: seq<Digit>, offset: nat, w: seq<nat>, n: nat)
    requires 1 <= n <= |w| && offset + n <= |a|
    ensures WindowSum(a, offset, w, n) == a[offset] * w[0] + WindowSum(a, offset + 1, w[1..], n - 1)
  {
    if n > 1 {
      WindowSumShift(a, offset, w, n - 1);
    }
  }

  /** The last digits a method cannot produce: 7 to 9 for C, 9 for D. */
  lemma UnreachableCheckDigits(a: seq<Digit>)
    requires |a| == 10 && a[2] != 9
    ensures a[9] >= 7 ==> Verdict90(a).methodFlag != 2
    ensures a[9] == 9 ==> Verdict90(a).methodFlag != 3
  {
  }

  // Numbers from the method's documentation, with the flag that decides them.

  lemma Method90ExampleA(a: seq<Digit>)
    requires a == [0, 0, 0, 1, 9, 7, 5, 6, 4, 1]
    ensures Verdict90(a) == Outcome90(true, 0)
  {
    assert Padded(10, a) == a;
    assert WindowSum(a, 3, WeightsA, 1) == 7;
    assert WindowSum(a, 3, WeightsA, 2) == 61;
    assert WindowSum(a, 3, WeightsA, 3) == 96;
    assert WindowSum(a, 3, WeightsA, 4) == 116;
    assert WindowSum(a, 3, WeightsA, 5) == 134;
    assert WindowSum(a, 3, WeightsA, 6) == 142;
    assert MethodA(a) == 1;
    assert Scan(a, a[9], 0) == Outcome90(true, 0);
  }

  lemma Method90ExampleALowRemainder(a: seq<Digit>)
    requires a == [0, 0, 0, 0, 8, 6, 3, 5, 3, 0]
    ensures Verdict90(a) == Outcome90(true, 0)
  {
    assert Padded(10, a) == a;
    assert WindowSum(a, 3, WeightsA, 1) == 0;
    assert WindowSum(a, 3, WeightsA, 2) == 48;
    assert WindowSum(a, 3, WeightsA, 3) == 78;
    assert WindowSum(a, 3, WeightsA, 4) == 90;
    assert WindowSum(a, 3, WeightsA, 5) == 105;
    assert WindowSum(a, 3, WeightsA, 6) == 111;
    assert MethodA(a) == 0;
    assert Scan(a, a[9], 0) == Outcome90(true, 0);
  }

  lemma Method90ExampleC(a: seq<Digit>)
    requires a == [0, 0, 0, 0, 6, 5, 4, 3, 2, 1]
    ensures Verdict90(a) == Outcome90(true, 2)
  {
    assert Padded(10, a) == a;
    assert WindowSum(a, 3, WeightsA, 1) == 0;
    assert WindowSum(a, 3, WeightsA, 2) == 36;
    assert WindowSum(a, 3, WeightsA, 3) == 61;
    assert WindowSum(a, 3, WeightsA, 4) == 77;
    assert WindowSum(a, 3, WeightsA, 5) == 86;
    assert WindowSum(a, 3, WeightsA, 6) == 90;
    assert MethodA(a) == 9;
    assert WindowSum(a, 4, WeightsB, 1) == 36;
    assert WindowSum(a, 4, WeightsB, 2) == 61;
    assert WindowSum(a, 4, WeightsB, 3) == 77;
    assert WindowSum(a, 4, WeightsB, 4) == 86;
    assert WindowSum(a, 4, WeightsB, 5) == 90;
    assert MethodB(a) == 9;
    assert WindowSum(a, 4, WeightsC, 1) == 36;
    assert WindowSum(a, 4, WeightsC, 2) == 61;
    assert WindowSum(a, 4, WeightsC, 3) == 77;
    assert WindowSum(a, 4, WeightsC, 4) == 86;
    assert WindowSum(a, 4, WeightsC, 5) == 90;
    assert MethodC(a) == 1;
    assert Scan(a, a[9], 0) == Outcome90(true, 2);
  }

  lemma Method90ExampleD(a: seq<Digit>)
    requires a == [0, 0, 0, 0, 8, 6, 3, 5, 3, 6]
    ensures Verdict90(a) == Outcome90(true, 3)
  {
    assert Padded(10, a) == a;
    assert WindowSum(a, 3, WeightsA, 1) == 0;
    assert WindowSum(a, 3, WeightsA, 2) == 48;
    assert WindowSum(a, 3, WeightsA, 3) == 78;
    assert WindowSum(a, 3, WeightsA, 4) == 90;
    assert WindowSum(a, 3, WeightsA, 5) == 105;
    assert WindowSum(a, 3, WeightsA, 6) == 111;
    assert MethodA(a) == 0;
    assert WindowSum(a, 4, WeightsB, 1) == 48;
    assert WindowSum(a, 4, WeightsB, 2) == 78;
    assert WindowSum(a, 4, WeightsB, 3) == 90;
    assert WindowSum(a, 4, WeightsB, 4) == 105;
    assert WindowSum(a, 4, WeightsB, 5) == 111;
    assert MethodB(a) == 0;
    assert WindowSum(a, 4, WeightsC, 1) == 48;
    assert WindowSum(a, 4, WeightsC, 2) == 78;
    assert WindowSum(a, 4, WeightsC, 3) == 90;
    assert WindowSum(a, 4, WeightsC, 4) == 105;
    assert WindowSum(a, 4, WeightsC, 5) == 111;
    assert MethodC(a) == 1;
    assert WindowSum(a, 4, WeightsD, 1) == 48;
    assert WindowSum(a, 4, WeightsD, 2) == 78;
    assert WindowSum(a, 4, WeightsD, 3) == 90;
    assert WindowSum(a, 4, WeightsD, 4) == 105;
    assert WindowSum(a, 4, WeightsD, 5) == 111;
    assert MethodD(a) == 6;
    assert Scan(a, a[9], 0) == Outcome90(true, 3);
  }

  lemma Method90ExampleE(a: seq<Digit>)
    requires a == [0, 0, 0, 0, 9, 9, 6, 6, 6, 3]
    ensures Verdict90(a) == Outcome90(true, 4)
  {
    assert Padded(10, a) == a;
    assert WindowSum(a, 3, WeightsA, 1) == 0;
    assert WindowSum(a, 3, WeightsA, 2) == 54;
    assert WindowSum(a, 3, WeightsA, 3) == 99;
    assert WindowSum(a, 3, WeightsA, 4) == 123;
    assert WindowSum(a, 3, WeightsA, 5) == 141;
    assert WindowSum(a, 3, WeightsA, 6) == 153;
    assert MethodA(a) == 1;
    assert WindowSum(a, 4, WeightsB, 1) == 54;
    assert WindowSum(a, 4, WeightsB, 2) == 99;
    assert WindowSum(a, 4, WeightsB, 3) == 123;
    assert WindowSum(a, 4, WeightsB, 4) == 141;
    assert WindowSum(a, 4, WeightsB, 5) == 153;
    assert MethodB(a) == 1;
    assert WindowSum(a, 4, WeightsC, 1) == 54;
    assert WindowSum(a, 4, WeightsC, 2) == 99;
    assert WindowSum(a, 4, WeightsC, 3) == 123;
    assert WindowSum(a, 4, WeightsC, 4) == 141;
    assert WindowSum(a, 4, WeightsC, 5) == 153;
    assert MethodC(a) == 1;
    assert WindowSum(a, 4, WeightsD, 1) == 54;
    assert WindowSum(a, 4, WeightsD, 2) == 99;
    assert WindowSum(a, 4, WeightsD, 3) == 123;
    assert WindowSum(a, 4, WeightsD, 4) == 141;
    assert WindowSum(a, 4, WeightsD, 5) == 153;
    assert MethodD(a) == 0;
    assert WindowSum(a, 4, WeightsE, 1) == 18;
    assert WindowSum(a, 4, WeightsE, 2) == 27;
    assert WindowSum(a, 4, WeightsE, 3) == 39;
    assert WindowSum(a, 4, WeightsE, 4) == 45;
    assert WindowSum(a, 4, WeightsE, 5) == 57;
    assert MethodE(a) == 3;
    assert Scan(a, a[9], 0) == Outcome90(true, 4);
  }

  lemma Method90ExampleF(a: seq<Digit>)
    requires a == [0, 0, 9, 9, 1, 0, 0, 0, 0, 2]
    ensures Verdict90(a) == Outcome90(true, 5)
  {
    assert Padded(10, a) == a;
    assert WindowSum(a, 2, WeightsF, 1) == 72;
    assert WindowSum(a, 2, WeightsF, 2) == 135;
    assert WindowSum(a, 2, WeightsF, 3) == 141;
    assert WindowSum(a, 2, WeightsF, 4) == 141;
    assert WindowSum(a, 2, WeightsF, 5) == 141;
    assert WindowSum(a, 2, WeightsF, 6) == 141;
    assert WindowSum(a, 2, WeightsF, 7) == 141;
    assert MethodF(a) == 2;
  }

  lemma Method90ExampleFRejected(a: seq<Digit>)
    requires a == [0, 0, 9, 9, 1, 0, 0, 0, 0, 7]
    ensures Verdict90(a) == Outcome90(false, 6)
  {
    assert Padded(10, a) == a;
    assert WindowSum(a, 2, WeightsF, 1) == 72;
    assert WindowSum(a, 2, WeightsF, 2) == 135;
    assert WindowSum(a, 2, WeightsF, 3) == 141;
    assert WindowSum(a, 2, WeightsF, 4) == 141;
    assert WindowSum(a, 2, WeightsF, 5) == 141;
    assert WindowSum(a, 2, WeightsF, 6) == 141;
    assert WindowSum(a, 2, WeightsF, 7) == 141;
    assert MethodF(a) == 2;
  }

  lemma Method90ExampleRejected(a: seq<Digit>)
    requires a == [0, 0, 0, 1, 9, 2, 4, 5, 9, 2]
    ensures Verdict90(a) == Outcome90(false, 6)
  {
    assert Padded(10, a) == a;
    assert WindowSum(a, 3, WeightsA, 1) == 7;
    assert WindowSum(a, 3, WeightsA, 2) == 61;
    assert WindowSum(a, 3, WeightsA, 3) == 71;
    assert WindowSum(a, 3, WeightsA, 4) == 87;
    assert WindowSum(a, 3, WeightsA, 5) == 102;
    assert WindowSum(a, 3, WeightsA, 6) == 120;
    assert MethodA(a) == 1;
    assert WindowSum(a, 4, WeightsB, 1) == 54;
    assert WindowSum(a, 4, WeightsB, 2) == 64;
    assert WindowSum(a, 4, WeightsB, 3) == 80;
    assert WindowSum(a, 4, WeightsB, 4) == 95;
    assert WindowSum(a, 4, WeightsB, 5) == 113;
    assert MethodB(a) == 8;
    assert WindowSum(a, 4, WeightsC, 1) == 54;
    assert WindowSum(a, 4, WeightsC, 2) == 64;
    assert WindowSum(a, 4, WeightsC, 3) == 80;
    assert WindowSum(a, 4, WeightsC, 4) == 95;
    assert WindowSum(a, 4, WeightsC, 5) == 113;
    assert MethodC(a) == 6;
    assert WindowSum(a, 4, WeightsD, 1) == 54;
    assert WindowSum(a, 4, WeightsD, 2) == 64;
    assert WindowSum(a, 4, WeightsD, 3) == 80;
    assert WindowSum(a, 4, WeightsD, 4) == 95;
    assert WindowSum(a, 4, WeightsD, 5) == 113;
    assert MethodD(a) == 4;
    assert WindowSum(a, 4, WeightsE, 1) == 18;
    assert WindowSum(a, 4, WeightsE, 2) == 20;
    assert WindowSum(a, 4, WeightsE, 3) == 28;
    assert WindowSum(a, 4, WeightsE, 4) == 33;
    assert WindowSum(a, 4, WeightsE, 5) == 51;
    assert MethodE(a) == 9;
    assert Scan(a, a[9], 0) == Outcome90(false, 6);
  }

  lemma Method90ExampleRejectedShort(a: seq<Digit>)
    requires a == [0, 0, 0, 0, 9, 2, 4, 5, 9, 1]
    ensures Verdict90(a) == Outcome90(false, 6)
  {
    assert Padded(10, a) == a;
    assert WindowSum(a, 3, WeightsA, 1) == 0;
    assert WindowSum(a, 3, WeightsA, 2) == 54;
    assert WindowSum(a, 3, WeightsA, 3) == 64;
    assert WindowSum(a, 3, WeightsA, 4) == 80;
    assert WindowSum(a, 3, WeightsA, 5) == 95;
    assert WindowSum(a, 3, WeightsA, 6) == 113;
    assert MethodA(a) == 8;
    assert WindowSum(a, 4, WeightsB, 1) == 54;
    assert WindowSum(a, 4, WeightsB, 2) == 64;
    assert WindowSum(a, 4, WeightsB, 3) == 80;
    assert WindowSum(a, 4, WeightsB, 4) == 95;
    assert WindowSum(a, 4, WeightsB, 5) == 113;
    assert MethodB(a) == 8;
    assert WindowSum(a, 4, WeightsC, 1) == 54;
    assert WindowSum(a, 4, WeightsC, 2) == 64;
    assert WindowSum(a, 4, WeightsC, 3) == 80;
    assert WindowSum(a, 4, WeightsC, 4) == 95;
    assert WindowSum(a, 4, WeightsC, 5) == 113;
    assert MethodC(a) == 6;
    assert WindowSum(a, 4, WeightsD, 1) == 54;
    assert WindowSum(a, 4, WeightsD, 2) == 64;
    assert WindowSum(a, 4, WeightsD, 3) == 80;
    assert WindowSum(a, 4, WeightsD, 4) == 95;
    assert WindowSum(a, 4, WeightsD, 5) == 113;
    assert MethodD(a) == 4;
    assert WindowSum(a, 4, WeightsE, 1) == 18;
    assert WindowSum(a, 4, WeightsE, 2) == 20;
    assert WindowSum(a, 4, WeightsE, 3) == 28;
    assert WindowSum(a, 4, WeightsE, 4) == 33;
    assert WindowSum(a, 4, WeightsE, 5) == 51;
    assert MethodE(a) == 9;
    assert Scan(a, a[9], 0) == Outcome90(false, 6);
  }

  /** A short number is padded: 654321 is the documented 0000654321. */
  lemma Method90ExampleShort(a: seq<Digit>)
    requires a == [6, 5, 4, 3, 2, 1]
    ensures Verdict90(a) == Outcome90(true, 2)
  {
    PaddingIrrelevant(a);
    assert Padded(10, a) == [0, 0, 0, 0, 6, 5, 4, 3, 2, 1];
    Method90ExampleC(Padded(10, a));
  }
}
