/**
 * Check-digit method 00 (modulus 10, weights 2, 1, 2, ... from the right,
 * crossfoot of each product) and its variants 60 and 67, which reuse the
 * calculation with other weight vectors (Checksum00.java, Checksum60.java,
 * Checksum67.java).
 */
module Method00 {
  import opened Utils

  const Weights00: seq<nat> := [2, 1, 2, 1, 2, 1, 2, 1, 2]
  /** Method 60: the two-digit sub-account in positions 1 and 2 has weight 0. */
  const Weights60: seq<nat> := [0, 0, 2, 1, 2, 1, 2, 1, 2]
  /** Method 67: the check digit is position 8; positions 8 to 10 have weight 0. */
  const Weights67: seq<nat> := [2, 1, 2, 1, 2, 1, 2, 0, 0, 0]

  /** The crossfoots of a[j] * w[j] summed over the positions i <= j < |w|. */
  function QsSum(a: seq<Digit>, w: seq<nat>, i: nat): nat
    requires |w| <= |a|
    decreases |w| - i
  {
    if i >= |w| then 0 else DigitSum(a[i] * w[i]) + QsSum(a, w, i + 1)
  }

  /**
   * The check digit of method 00 for the leading |w| digits of `a`: the
   * one digit that brings the crossfoot sum up to a multiple of 10.
   */
  function CheckDigit00(a: seq<Digit>, w: seq<nat>): (c: int)
    requires |w| <= |a|
    ensures 0 <= c <= 9
    ensures (QsSum(a, w, 0) + c) % 10 == 0
  {
    (10 - QsSum(a, w, 0) % 10) % 10
  }

  /**
   * Method 00's verdict: the 10th digit is the check digit, i.e. the
   * crossfoot sum plus the 10th digit is a multiple of 10.
   */
  function Valid00(a: seq<Digit>, w: seq<nat>): (ok: bool)
    requires 10 <= |a| && |w| <= |a|
    ensures ok <==> (QsSum(a, w, 0) + a[9]) % 10 == 0
  {
    CompletesToTen(QsSum(a, w, 0), a[9]);
    a[9] == CheckDigit00(a, w)
  }

  /** Exactly one digit completes a sum to a multiple of 10. */
  lemma CompletesToTen(sum: nat, x: Digit)
    ensures x == (10 - sum % 10) % 10 <==> (sum + x) % 10 == 0
  {
    var q, r := sum / 10, sum % 10;
    assert sum == 10 * q + r;
    var c := (10 - r) % 10;
    if r == 0 {
      DivModUnique(10 - r, 10, 1, 0);
    } else {
      DivModUnique(10 - r, 10, 0, 10 - r);
    }
    if r + x < 10 {
      DivModUnique(sum + x, 10, q, r + x);
    } else {
      DivModUnique(sum + x, 10, q + 1, r + x - 10);
    }
  }

  class Checksum00 {
    const weights: seq<nat>

    constructor Default()
      ensures weights == Weights00
    {
      weights := Weights00;
    }

    constructor (weights: seq<nat>)
      ensures this.weights == weights
    {
      this.weights := weights;
    }

    /** Checksum00.calcChecksum: crossfoots summed from the last weight down. */
    method CalcChecksum(a: seq<Digit>) returns (checksum: int)
      requires |weights| <= |a|
      ensures 0 <= checksum <= 9
      ensures checksum == CheckDigit00(a, weights)
    {
      var sum := 0;
      var i := |weights| - 1;
      while i >= 0
        invariant -1 <= i < |weights|
        invariant sum == QsSum(a, weights, i + 1)
      {
        var product := a[i] * weights[i];
        assert product >= 0;
        var q := Qs(product);
        sum := sum + q;
        i := i - 1;
      }
      checksum := (10 - sum % 10) % 10;
    }

    /** Checksum00.validate: the 10th digit must equal the computed check digit. */
    method Validate(a: seq<Digit>) returns (ok: bool)
      requires 10 <= |a| && |weights| <= |a|
      ensures ok == Valid00(a, weights)
    {
      var checksum := CalcChecksum(a);
      ok := checksum == a[9];
    }
  }

  // -------------------------------------------------------------------
  // General facts about the crossfoot sum

  /** Positions whose products coincide contribute the same. */
  lemma {:induction false} QsSumPointwise(a: seq<Digit>, w: seq<nat>, b: seq<Digit>, v: seq<nat>, i: nat)
    requires |w| <= |a| && |v| <= |b| && |w| == |v|
    requires forall j :: i <= j < |w| ==> a[j] * w[j] == b[j] * v[j]
    ensures QsSum(a, w, i) == QsSum(b, v, i)
    decreases |w| - i
  {
    if i < |w| {
      QsSumPointwise(a, w, b, v, i + 1);
    }
  }

  /** Trailing weights of 0 can be dropped. */
  lemma {:induction false} QsSumZeroTail(a: seq<Digit>, w: seq<nat>, k: nat, i: nat)
    requires |w| <= |a| && i <= k <= |w|
    requires forall j :: k <= j < |w| ==> w[j] == 0
    ensures QsSum(a, w, i) == QsSum(a, w[..k], i)
    decreases |w| - i
  {
    if i < k {
      QsSumZeroTail(a, w, k, i + 1);
    } else {
      QsSumZeroWeights(a, w, i);
    }
  }

  lemma {:induction false} QsSumZeroWeights(a: seq<Digit>, w: seq<nat>, i: nat)
    requires |w| <= |a|
    requires forall j :: i <= j < |w| ==> w[j] == 0
    ensures QsSum(a, w, i) == 0
    decreases |w| - i
  {
    if i < |w| {
      QsSumZeroWeights(a, w, i + 1);
    }
  }

  /** Digits under weight 0 never influence method 00's check digit. */
  lemma ZeroWeightIrrelevant(a: seq<Digit>, b: seq<Digit>, w: seq<nat>)
    requires |w| <= |a| && |w| <= |b|
    requires forall i :: 0 <= i < |w| && w[i] != 0 ==> a[i] == b[i]
    ensures CheckDigit00(a, w) == CheckDigit00(b, w)
  {
    QsSumPointwise(a, w, b, w, 0);
  }

  /** The crossfoot of a doubled digit. */
  function Doubled(d: Digit): nat
  {
    if d <= 4 then 2 * d else 2 * d - 9
  }

  /**
   * Method 00's crossfoot sum written out: positions 1, 3, 5, 7 and 9
   * contribute their doubled digit's crossfoot, the others their digit.
   */
  lemma QsSum00(a: seq<Digit>, w: seq<nat>)
    requires |a| >= 9 && w == Weights00
    ensures QsSum(a, w, 0) == Doubled(a[0]) + a[1] + Doubled(a[2]) + a[3]
      + Doubled(a[4]) + a[5] + Doubled(a[6]) + a[7] + Doubled(a[8])
  {
    assert w[0] == w[2] == w[4] == w[6] == w[8] == 2 && w[1] == w[3] == w[5] == w[7] == 1 && |w| == 9;
    QsSumPair(a, w, 0);
    QsSumPair(a, w, 2);
    QsSumPair(a, w, 4);
    QsSumPair(a, w, 6);
    DoubledDigitSum(a[8]);
    assert QsSum(a, w, 9) == 0;
  }

  /** Weights 2 and 1 on two consecutive positions: a doubled digit, then a plain one. */
  lemma QsSumPair(a: seq<Digit>, w: seq<nat>, i: nat)
    requires |w| <= |a| && i + 1 < |w| && w[i] == 2 && w[i + 1] == 1
    ensures QsSum(a, w, i) == Doubled(a[i]) + a[i + 1] + QsSum(a, w, i + 2)
  {
    DoubledDigitSum(a[i]);
    DigitSumTwoDigits(a[i + 1]);
  }

  // The numbers listed in the documentation of method 00 are accepted.

  lemma Method00Example9290701(a: seq<Digit>)
    requires a == [0, 0, 0, 9, 2, 9, 0, 7, 0, 1]
    ensures Valid00(a, Weights00)
  {
    assert QsSum(a, Weights00, 8) == 0;
    assert QsSum(a, Weights00, 7) == 7;
    assert QsSum(a, Weights00, 6) == 7;
    assert QsSum(a, Weights00, 5) == 16;
    assert QsSum(a, Weights00, 4) == 20;
    assert QsSum(a, Weights00, 3) == 29;
    assert QsSum(a, Weights00, 2) == 29;
    assert QsSum(a, Weights00, 1) == 29;
    assert QsSum(a, Weights00, 0) == 29;
  }

  lemma Method00Example539290858(a: seq<Digit>)
    requires a == [0, 5, 3, 9, 2, 9, 0, 8, 5, 8]
    ensures Valid00(a, Weights00)
  {
    DigitSumTwoDigits(10);
    assert QsSum(a, Weights00, 8) == 1;
    assert QsSum(a, Weights00, 7) == 9;
    assert QsSum(a, Weights00, 6) == 9;
    assert QsSum(a, Weights00, 5) == 18;
    assert QsSum(a, Weights00, 4) == 22;
    assert QsSum(a, Weights00, 3) == 31;
    assert QsSum(a, Weights00, 2) == 37;
    assert QsSum(a, Weights00, 1) == 42;
    assert QsSum(a, Weights00, 0) == 42;
  }

  lemma Method00Example1501824(a: seq<Digit>)
    requires a == [0, 0, 0, 1, 5, 0, 1, 8, 2, 4]
    ensures Valid00(a, Weights00)
  {
    DigitSumTwoDigits(10);
    assert QsSum(a, Weights00, 8) == 4;
    assert QsSum(a, Weights00, 7) == 12;
    assert QsSum(a, Weights00, 6) == 14;
    assert QsSum(a, Weights00, 5) == 14;
    assert QsSum(a, Weights00, 4) == 15;
    assert QsSum(a, Weights00, 3) == 16;
    assert QsSum(a, Weights00, 2) == 16;
    assert QsSum(a, Weights00, 1) == 16;
    assert QsSum(a, Weights00, 0) == 16;
  }

  lemma Method00Example1501832(a: seq<Digit>)
    requires a == [0, 0, 0, 1, 5, 0, 1, 8, 3, 2]
    ensures Valid00(a, Weights00)
  {
    DigitSumTwoDigits(10);
    assert QsSum(a, Weights00, 8) == 6;
    assert QsSum(a, Weights00, 7) == 14;
    assert QsSum(a, Weights00, 6) == 16;
    assert QsSum(a, Weights00, 5) == 16;
    assert QsSum(a, Weights00, 4) == 17;
    assert QsSum(a, Weights00, 3) == 18;
    assert QsSum(a, Weights00, 2) == 18;
    assert QsSum(a, Weights00, 1) == 18;
    assert QsSum(a, Weights00, 0) == 18;
  }

  // -------------------------------------------------------------------
  // Method 60

  /**
   * Method 60 (Checksum60.java): method 00 over positions 3 to 9 only; the
   * 10th digit completes their crossfoot sum to a multiple of 10.
   */
  function Valid60(a: seq<Digit>): (ok: bool)
    requires |a| >= 10
    ensures ok <==> (QsSum(a, Weights60, 2) + a[9]) % 10 == 0
  {
    assert QsSum(a, Weights60, 0) == QsSum(a, Weights60, 2) by {
      assert a[0] * Weights60[0] == 0 && a[1] * Weights60[1] == 0;
      assert QsSum(a, Weights60, 1) == DigitSum(0) + QsSum(a, Weights60, 2);
    }
    Valid00(a, Weights60)
  }

  /** The sub-account in positions 1 and 2 never changes method 60's verdict. */
  lemma Method60IgnoresSubAccount(a: seq<Digit>, b: seq<Digit>)
    requires |a| >= 10 && |b| >= 10
    requires forall i :: 2 <= i < 10 ==> a[i] == b[i]
    ensures Valid60(a) == Valid60(b)
  {
    QsSumPointwise(a, Weights60, b, Weights60, 2);
  }

  /** With sub-account 00, method 60 agrees with method 00. */
  lemma Method60AgreesWith00(a: seq<Digit>)
    requires |a| >= 10 && a[0] == 0 && a[1] == 0
    ensures Valid60(a) == Valid00(a, Weights00)
  {
    QsSumPointwise(a, Weights60, a, Weights00, 0);
  }

  // -------------------------------------------------------------------
  // Method 67

  /**
   * Method 67 (Checksum67.java): the check digit is the 8th digit, and it
   * completes the crossfoot sum of the first seven digits to a multiple
   * of 10.
   */
  function Valid67(a: seq<Digit>): (ok: bool)
    requires |a| >= 10
    ensures ok <==> (QsSum(a, Weights67[..7], 0) + a[7]) % 10 == 0
  {
    QsSumZeroTail(a, Weights67, 7, 0);
    CompletesToTen(QsSum(a, Weights67, 0), a[7]);
    a[7] == CheckDigit00(a, Weights67)
  }

  /** The sub-account in positions 9 and 10 never changes method 67's verdict. */
  lemma Method67IgnoresSubAccount(a: seq<Digit>, b: seq<Digit>)
    requires |a| >= 10 && |b| >= 10
    requires forall i :: 0 <= i < 8 ==> a[i] == b[i]
    ensures Valid67(a) == Valid67(b)
  {
    QsSumPointwise(a, Weights67[..7], b, Weights67[..7], 0);
  }
}
