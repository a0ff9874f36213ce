/**
 * Check-digit method 52 (Checksum52.java). The 8-digit account number and
 * the bank code are spliced into the account number of the legacy ESER
 * system (at most 12 digits). Its check digit sits at the 6th position
 * from the left and is found by counting non-zero digits. With that slot
 * zeroed, the weighted sum modulo 11 plus the check digit times the
 * slot's weight must leave remainder 10 modulo 11.
 */
module Method52 {
  import opened Utils
  import opened SubMethods

  /** Weights from left to right (2, 4, 8, 5, 10, 9, 7, 3, 6, 1, 2, 4 from the right). */
  const Weights52: seq<nat> := [4, 2, 1, 6, 3, 7, 9, 10, 5, 8, 4, 2]

  /** The position of the check digit when counting non-zero digits from the left. */
  const CheckDigitPosition := 6

  // -------------------------------------------------------------------
  // The ESER number (generateEserAccountNumber)

  /** `s` without its leading zeros. */
  function DropLeadingZeros(s: seq<Digit>): (r: seq<Digit>)
    ensures |r| <= |s| && s == seq(|s| - |r|, _ => 0) + r
    ensures r == [] || r[0] != 0
  {
    s[LeadingZeros(s)..]
  }

  /**
   * The digits of the ESER number before padding: the last four digits of
   * the bank code, the account's 3rd and 4th digits, then the rest of the
   * account without its leading zeros.
   */
  function EserDigits(a: seq<Digit>, bank: seq<Digit>): seq<Digit>
    requires |a| >= 4 && |bank| >= 4
  {
    bank[|bank| - 4..] + a[2..4] + DropLeadingZeros(a[4..])
  }

  /** The outcome of generateEserAccountNumber, including its exceptions. */
  function Eser(a: seq<Digit>, bank: seq<Digit>): (r: Result<seq<Digit>>)
    requires |a| >= 4 && |bank| >= 4
    ensures r.Ok? ==> |r.value| == 12
    ensures (a[0] != 0 || a[1] != 0 || a[2] == 0) ==> r == Err(IllegalAccountNumber)
  {
    if a[0] != 0 || a[1] != 0 || a[2] == 0 then Err(IllegalAccountNumber)
    else
      var v := ValueOf(EserDigits(a, bank));
      if v < Pow10(12) then Ok(DigitsOf(v, 12)) else Err(IllegalAccountNumber)
  }

  /**
   * For a 10-digit account of the required shape the ESER number always
   * fits: it is the spliced digits padded with zeros to 12 digits.
   */
  lemma EserIsPaddedSplice(a: seq<Digit>, bank: seq<Digit>)
    requires |a| == 10 && |bank| >= 4
    ensures Eser(a, bank).Ok? <==> a[0] == 0 && a[1] == 0 && a[2] != 0
    ensures Eser(a, bank).Ok? ==> Eser(a, bank).value == Padded(12, EserDigits(a, bank))
  {
    var d := EserDigits(a, bank);
    assert |d| <= 12;
    DigitsPowMono(|d|, 12);
    PaddedByValue(d, 12);
  }

  /** Appending a digit to a number whose leading zeros are dropped. */
  lemma DropLeadingZerosStep(s: seq<Digit>, x: Digit)
    ensures DropLeadingZeros(s + [x]) ==
      if DropLeadingZeros(s) == [] && x == 0 then [] else DropLeadingZeros(s) + [x]
  {
    var n := LeadingZeros(s);
    if n < |s| {
      LeadingZerosIs(s + [x], n);
      assert (s + [x])[n..] == s[n..] + [x];
    } else if x != 0 {
      LeadingZerosIs(s + [x], n);
    } else {
      assert forall j :: 0 <= j < |s + [x]| ==> (s + [x])[j] == 0;
    }
  }

  /** The digits generateEserAccountNumber has accumulated before account index i. */
  function Kept(a: seq<Digit>, bank: seq<Digit>, i: int): seq<Digit>
    requires |a| >= 4 && |bank| >= 4 && 2 <= i <= |a|
  {
    if i <= 4 then bank[|bank| - 4..] + a[2..i]
    else bank[|bank| - 4..] + a[2..4] + DropLeadingZeros(a[4..i])
  }

  /** One step of the accumulating loop: digit a[i] is kept or skipped. */
  lemma KeptStep(a: seq<Digit>, bank: seq<Digit>, i: int)
    requires |a| >= 4 && |bank| >= 4 && 2 <= i < |a|
    ensures Kept(a, bank, i + 1) ==
      if i < 4 || a[i] != 0 || (i > 4 && DropLeadingZeros(a[4..i]) != []) then Kept(a, bank, i) + [a[i]]
      else Kept(a, bank, i)
  {
    if i < 4 {
      assert a[2..i + 1] == a[2..i] + [a[i]];
    } else {
      assert a[4..i + 1] == a[4..i] + [a[i]];
      DropLeadingZerosStep(a[4..i], a[i]);
      if i == 4 {
        assert a[2..4] == a[2..i];
        assert DropLeadingZeros(a[4..4]) == [];
      }
    }
  }

  /** Once a non-zero digit follows the account's 4th, every later digit is kept. */
  lemma FoundStep(a: seq<Digit>, i: int)
    requires 2 <= i < |a|
    ensures (i + 1 > 4 && DropLeadingZeros(a[4..i + 1]) != [])
      <==> i >= 4 && (a[i] != 0 || (i > 4 && DropLeadingZeros(a[4..i]) != []))
  {
    if i >= 4 {
      assert a[4..i + 1] == a[4..i] + [a[i]];
      DropLeadingZerosStep(a[4..i], a[i]);
      if i == 4 {
        assert DropLeadingZeros(a[4..4]) == [];
      }
    }
  }

  lemma KeptAll(a: seq<Digit>, bank: seq<Digit>)
    requires |a| >= 4 && |bank| >= 4
    ensures Kept(a, bank, |a|) == EserDigits(a, bank)
  {
    assert a[4..|a|] == a[4..];
    if |a| == 4 {
      assert DropLeadingZeros(a[4..]) == [];
    }
  }

  lemma ValueOfAppend(s: seq<Digit>, x: Digit)
    ensures ValueOf(s + [x]) == ValueOf(s) * 10 + x
  {
    assert (s + [x])[..|s|] == s;
  }

  // -------------------------------------------------------------------
  // The check-digit slot (resetChecksumDigit)

  /** The number of non-zero digits. */
  function NonZeros(s: seq<Digit>): (n: nat)
    ensures n <= |s|
  {
    if s == [] then 0 else NonZeros(s[..|s| - 1]) + (if s[|s| - 1] != 0 then 1 else 0)
  }

  /** The number of non-zero digits among e[0], ..., e[i]. */
  function Count(e: seq<Digit>, i: int): nat
    requires 0 <= i < |e|
  {
    NonZeros(e[..i + 1])
  }

  /**
   * The index resetChecksumDigit records after scanning the first n digits:
   * the last index i < n at which the count of non-zero digits is `pos`,
   * or the previous index when there is none.
   */
  function Slot(e: seq<Digit>, pos: int, n: nat, prev: int): (k: int)
    requires n <= |e|
    ensures (exists i :: 0 <= i < n && Count(e, i) == pos) ==>
      0 <= k < n && Count(e, k) == pos && forall i :: k < i < n ==> Count(e, i) != pos
    ensures (forall i :: 0 <= i < n ==> Count(e, i) != pos) ==> k == prev
  {
    if n == 0 then prev
    else if Count(e, n - 1) == pos then n - 1
    else Slot(e, pos, n - 1, prev)
  }

  /** The copy resetChecksumDigit returns: every digit at which the count is `pos` is set to 0. */
  function Reset(e: seq<Digit>, pos: int): (r: seq<Digit>)
    ensures |r| == |e|
  {
    seq(|e|, i requires 0 <= i < |e| => if Count(e, i) == pos then 0 else e[i])
  }

  // -------------------------------------------------------------------
  // The factor search (calcChecksum)

  /** Factor i over the slot's weight w brings the remainder `offcut` to 10. */
  predicate Hits(offcut: int, w: int, i: int)
  {
    offcut + (i * w) % 11 == 10
  }

  /** The smallest factor from i to 10 that hits remainder 10, or -1. */
  function FactorSearch(offcut: int, w: int, i: nat): (c: int)
    requires i <= 11
    ensures c == -1 ==> forall k :: i <= k < 11 ==> !Hits(offcut, w, k)
    ensures c != -1 ==> i <= c < 11 && Hits(offcut, w, c) && forall k :: i <= k < c ==> !Hits(offcut, w, k)
    decreases 11 - i
  {
    if i == 11 then -1
    else if Hits(offcut, w, i) then i
    else FactorSearch(offcut, w, i + 1)
  }

  /** The check digit calcChecksum computes for a copy whose slot is zeroed. */
  function CheckDigit52(t: seq<Digit>, w: seq<nat>, index: int): (c: int)
    requires |w| <= |t| && 0 <= index < |w|
    ensures -1 <= c <= 10
    ensures c != -1 ==> (WSum(t, w, 0, |w|) + c * w[index]) % 11 == 10
  {
    WSumNonNegative(t, w, 0, |w|);
    var c := FactorSearch(WSum(t, w, 0, |w|) % 11, w[index], 0);
    if c == -1 then c
    else HitsIsRemainderTen(WSum(t, w, 0, |w|), w[index], c); c
  }

  lemma HitsIsRemainderTen(sum: nat, w: nat, c: nat)
    requires Hits(sum % 11, w, c)
    ensures (sum + c * w) % 11 == 10
  {
    var q1, q2 := sum / 11, (c * w) / 11;
    assert sum + c * w == 11 * (q1 + q2) + (sum % 11 + (c * w) % 11);
    DivModUnique(sum + c * w, 11, q1 + q2, 10);
  }

  /**
   * The inverse of each weight modulo 11 gives a factor for every
   * remainder, so with weights from 1 to 10 the search never fails.
   */
  lemma FactorAlwaysFound(offcut: int, w: int)
    requires 0 <= offcut <= 10 && 1 <= w <= 10
    ensures FactorSearch(offcut, w, 0) != -1
  {
    var inverse :=
      if w == 1 then 1 else if w == 2 then 6 else if w == 3 then 4 else if w == 4 then 3
      else if w == 5 then 9 else if w == 6 then 2 else if w == 7 then 8 else if w == 8 then 7
      else if w == 9 then 5 else 10;
    HitsByInverse(10 - offcut, w, inverse, (w * inverse - 1) / 11);
  }

  /** If w * inv leaves remainder 1, factor r * inv hits remainder 10 from 10 - r. */
  lemma HitsByInverse(r: int, w: int, inv: int, m: int)
    requires 0 <= r <= 10 && inv >= 0 && w * inv == 1 + 11 * m
    ensures Hits(10 - r, w, r * inv % 11)
  {
    var p := r * inv;
    var q, i := p / 11, p % 11;
    assert p == 11 * q + i;
    var k := r * m - q * w;
    assert i * w == r + 11 * k by {
      assert i == p + (-11 * q);
      MulDistrib(w, p, -11 * q);
      MulAssoc(-11, q, w);
      MulAssoc(r, inv, w);
      assert inv * w == 1 + 11 * m;
      MulDistrib(r, 1, 11 * m);
      MulAssoc(11, m, r);
    }
    DivModUnique(i * w, 11, k, r);
  }

  /**
   * 11 is prime, so two factors from 0 to 10 that both bring the sum to
   * remainder 10 under a weight from 1 to 10 are the same factor.
   */
  lemma FactorUnique(s: int, w: int, c: int, d: int)
    requires 1 <= w <= 10 && 0 <= c <= 10 && 0 <= d <= 10
    requires (s + c * w) % 11 == 10 && (s + d * w) % 11 == 10
    ensures c == d
  {
    if c != d {
      var hi, lo := if c > d then c else d, if c > d then d else c;
      var q1, q2 := (s + hi * w) / 11, (s + lo * w) / 11;
      assert s + hi * w == 11 * q1 + 10 && s + lo * w == 11 * q2 + 10;
      MulDistrib(w, lo, hi - lo);
      DivModUnique((hi - lo) * w, 11, q1 - q2, 0);
      NoZeroDivisor(hi - lo, w);
      assert false;
    }
  }

  /** No product of two numbers from 1 to 10 is a multiple of 11. */
  lemma NoZeroDivisor(k: int, w: int)
    requires 1 <= k <= 10 && 1 <= w <= 10
    ensures (k * w) % 11 != 0
  {
    var p := k * w;
    if w == 1 {
      assert p == k;
    } else if w == 2 {
      assert p == 2 * k;
    } else if w == 3 {
      assert p == 3 * k;
    } else if w == 4 {
      assert p == 4 * k;
    } else if w == 5 {
      assert p == 5 * k;
    } else if w == 6 {
      assert p == 6 * k;
    } else if w == 7 {
      assert p == 7 * k;
    } else if w == 8 {
      assert p == 8 * k;
    } else if w == 9 {
      assert p == 9 * k;
    } else {
      assert p == 10 * k;
    }
  }

  lemma MulDistrib(a: int, b: int, c: int)
    ensures (b + c) * a == b * a + c * a && a * (b + c) == a * b + a * c
  {
  }

  lemma MulAssoc(a: int, b: int, c: int)
    ensures (a * b) * c == a * (b * c) && (a * b) * c == b * (a * c)
  {
  }

  // -------------------------------------------------------------------
  // The validator

  /** The answer of `validate` and the index the object holds afterwards. */
  datatype Outcome52 = Outcome52(result: Result<bool>, index: int)

  /**
   * Checksum52.validate as a function of the weights, the account, the
   * bank code and the index left by earlier calls. For a 10-digit account
   * the ESER number is the padded splice (EserIsPaddedSplice), so its
   * overflow exception cannot occur.
   */
  function Verdict52(ext: Oracle, w: seq<nat>, a: seq<Digit>, bank: seq<Digit>, prev: int): (o: Outcome52)
    requires |a| == 10 && |bank| >= 4 && |w| == 12 && -1 <= prev < 12
    ensures -1 <= o.index < 12
    ensures a[0] == 9 ==> o == Outcome52(Ok(ext(M20, None, a)), prev)
    ensures a[0] != 9 && (a[0] != 0 || a[1] != 0 || a[2] == 0) ==> o.result == Err(IllegalAccountNumber)
  {
    if a[0] == 9 then Outcome52(Ok(ext(M20, None, a)), prev)
    else if a[0] != 0 || a[1] != 0 || a[2] == 0 then Outcome52(Err(IllegalAccountNumber), prev)
    else EserVerdict(w, Padded(12, EserDigits(a, bank)), prev)
  }

  /**
   * The part of validate after the ESER number e is built: locate the
   * slot, zero it, and compare its digit with the computed check digit.
   */
  function EserVerdict(w: seq<nat>, e: seq<Digit>, prev: int): (o: Outcome52)
    requires |e| == 12 && |w| == 12 && -1 <= prev < 12
    ensures -1 <= o.index < 12
    ensures o.result == Ok(true) ==>
      0 <= o.index && (WSum(Reset(e, CheckDigitPosition), w, 0, |w|) + e[o.index] * w[o.index]) % 11 == 10
    ensures o.result == Err(Validation) <==> o.index == -1
    ensures (forall i :: 0 <= i < |w| ==> 1 <= w[i] <= 10) && o.index != -1 ==>
      (o.result == Ok(true) <==> (WSum(Reset(e, CheckDigitPosition), w, 0, |w|) + e[o.index] * w[o.index]) % 11 == 10)
  {
    var index := Slot(e, CheckDigitPosition, 12, prev);
    if index == -1 then Outcome52(Err(Validation), index)
    else
      var c := CheckDigit52(Reset(e, CheckDigitPosition), w, index);
      OnlyCheckDigitHits(Reset(e, CheckDigitPosition), w, index, e[index]);
      Outcome52(Ok(e[index] == c), index)
  }

  /**
   * With weights from 1 to 10 the check digit is the only digit that
   * brings the weighted sum to remainder 10.
   */
  lemma OnlyCheckDigitHits(t: seq<Digit>, w: seq<nat>, index: int, digit: Digit)
    requires |w| <= |t| && 0 <= index < |w|
    ensures (forall i :: 0 <= i < |w| ==> 1 <= w[i] <= 10) && (WSum(t, w, 0, |w|) + digit * w[index]) % 11 == 10
      ==> digit == CheckDigit52(t, w, index)
  {
    if (forall i :: 0 <= i < |w| ==> 1 <= w[i] <= 10) && (WSum(t, w, 0, |w|) + digit * w[index]) % 11 == 10 {
      CheckDigitAlwaysFound(t, w, index);
      FactorUnique(WSum(t, w, 0, |w|), w[index], digit, CheckDigit52(t, w, index));
    }
  }

  class Checksum52 {
    const weights: seq<nat>
    var checksumDigitIndex: int

    constructor Default()
      ensures weights == Weights52 && checksumDigitIndex == -1
    {
      weights := Weights52;
      checksumDigitIndex := -1;
    }

    constructor (weights: seq<nat>)
      ensures this.weights == weights && checksumDigitIndex == -1
    {
      this.weights := weights;
      checksumDigitIndex := -1;
    }

    /**
     * Checksum52.generateEserAccountNumber: the bank digits and the kept
     * account digits accumulated in a number, then parsed at width 12.
     */
    method GenerateEserAccountNumber(a: seq<Digit>, bank: seq<Digit>) returns (r: Result<seq<Digit>>)
      requires |a| >= 4 && |bank| >= 4
      ensures r == Eser(a, bank)
    {
      var eser: nat := 0;
      if a[0] != 0 || a[1] != 0 || a[2] == 0 {
        return Err(IllegalAccountNumber);
      }
      for i := 0 to 4
        invariant eser == ValueOf(bank[|bank| - 4..|bank| - 4 + i])
      {
        assert bank[|bank| - 4..|bank| - 4 + i + 1] == bank[|bank| - 4..|bank| - 4 + i] + [bank[|bank| - (4 - i)]];
        ValueOfAppend(bank[|bank| - 4..|bank| - 4 + i], bank[|bank| - (4 - i)]);
        eser := eser * 10;
        eser := eser + bank[|bank| - (4 - i)];
      }
      assert Kept(a, bank, 2) == bank[|bank| - 4..|bank| - 4 + 4];
      var found := false;
      for i := 2 to |a|
        invariant eser == ValueOf(Kept(a, bank, i))
        invariant found <==> i > 4 && DropLeadingZeros(a[4..i]) != []
      {
        KeptStep(a, bank, i);
        FoundStep(a, i);
        if i == 2 || i == 3 || (a[i] == 0 && found) || a[i] != 0 {
          ValueOfAppend(Kept(a, bank, i), a[i]);
          eser := eser * 10;
          eser := eser + a[i];
          if i != 2 && i != 3 {
            found := true;
          }
        }
      }
      KeptAll(a, bank);
      r := ParseEserAccountNumber(eser);
    }

    /**
     * Checksum52.resetChecksumDigit: a copy of `e` in which the digit at
     * which the non-zero count reaches `pos` (and any zero following it)
     * is set to 0; the index of the last such digit is recorded.
     */
    method ResetChecksumDigit(e: seq<Digit>, pos: int) returns (t: seq<Digit>)
      modifies this
      ensures t == Reset(e, pos)
      ensures checksumDigitIndex == Slot(e, pos, |e|, old(checksumDigitIndex))
    {
      var copy := new Digit[|e|](i requires 0 <= i < |e| => e[i]);
      var j := 0;
      for i := 0 to |e|
        invariant j == NonZeros(e[..i])
        invariant forall k :: 0 <= k < i ==> copy[k] == Reset(e, pos)[k]
        invariant forall k :: i <= k < |e| ==> copy[k] == e[k]
        invariant checksumDigitIndex == Slot(e, pos, i, old(checksumDigitIndex))
      {
        assert e[..i + 1][..i] == e[..i];
        if copy[i] != 0 && j >= 0 {
          j := j + 1;
        }
        assert j == Count(e, i);
        if j == pos {
          copy[i] := 0;
          checksumDigitIndex := i;
        }
      }
      t := copy[..];
      assert forall k :: 0 <= k < |e| ==> t[k] == Reset(e, pos)[k];
    }

    /**
     * Checksum52.calcChecksum: the weighted sum modulo 11, then the first
     * factor from 0 to 10 of the slot's weight that brings it to 10.
     */
    method CalcChecksum(t: seq<Digit>) returns (checksum: int)
      requires |weights| <= |t| && 0 <= checksumDigitIndex < |weights|
      ensures checksum == CheckDigit52(t, weights, checksumDigitIndex)
    {
      var sum := 0;
      for i := 0 to |weights|
        invariant sum == WSum(t, weights, 0, i)
      {
        sum := sum + t[i] * weights[i];
      }
      WSumNonNegative(t, weights, 0, |weights|);
      var offcut := JavaRem(sum, 11);
      for i := 0 to 11
        invariant FactorSearch(offcut, weights[checksumDigitIndex], i) == FactorSearch(offcut, weights[checksumDigitIndex], 0)
      {
        if offcut + JavaRem(i * weights[checksumDigitIndex], 11) == 10 {
          return i;
        }
      }
      return -1;
    }

    /**
     * Checksum52.validate: a 10-digit account starting with 9 is checked by
     * method 20; any other is checked through its ESER number.
     */
    method Validate(ext: Oracle, a: seq<Digit>, bank: seq<Digit>) returns (r: Result<bool>)
      requires |a| == 10 && |bank| >= 4 && |weights| == 12 && -1 <= checksumDigitIndex < 12
      modifies this
      ensures Outcome52(r, checksumDigitIndex) == Verdict52(ext, weights, a, bank, old(checksumDigitIndex))
    {
      if a[0] == 9 {
        return Ok(ext(M20, None, a));
      }
      var eser := GenerateEserAccountNumber(a, bank);
      if eser.Err? {
        assert a[0] != 0 || a[1] != 0 || a[2] == 0 by {
          EserIsPaddedSplice(a, bank);
        }
        return Err(eser.error);
      }
      assert eser.value == Padded(12, EserDigits(a, bank)) by {
        EserIsPaddedSplice(a, bank);
      }
      var t := ResetChecksumDigit(eser.value, CheckDigitPosition);
      if checksumDigitIndex != -1 {
        var checksum := CalcChecksum(t);
        return Ok(eser.value[checksumDigitIndex] == checksum);
      } else {
        return Err(Validation);
      }
    }
  }

  // -------------------------------------------------------------------
  // Properties of the validator

  /** With weights from 1 to 10 (the default ones) calcChecksum always finds a check digit. */
  lemma CheckDigitAlwaysFound(t: seq<Digit>, w: seq<nat>, index: int)
    requires |w| <= |t| && 0 <= index < |w|
    requires forall i :: 0 <= i < |w| ==> 1 <= w[i] <= 10
    ensures 0 <= CheckDigit52(t, w, index) <= 10
  {
    WSumNonNegative(t, w, 0, |w|);
    FactorAlwaysFound(WSum(t, w, 0, |w|) % 11, w[index]);
  }

  /**
   * When the count of non-zero digits never reaches 6, validate answers
   * with the index an earlier call left behind, and with an exception only
   * when no earlier call set one.
   */
  lemma MissingSlotKeepsEarlierIndex(w: seq<nat>, e: seq<Digit>, prev: int)
    requires |e| == 12 && |w| == 12 && -1 <= prev < 12
    requires forall i :: 0 <= i < 12 ==> Count(e, i) != CheckDigitPosition
    ensures EserVerdict(w, e, prev).index == prev
    ensures prev == -1 <==> EserVerdict(w, e, prev).result == Err(Validation)
  {
  }

  lemma {:induction false} CountStep(e: seq<Digit>, i: int)
    requires 0 < i < |e|
    ensures Count(e, i) == Count(e, i - 1) + (if e[i] != 0 then 1 else 0)
  {
    assert e[..i + 1][..i] == e[..i];
  }

  lemma {:induction false} CountZeros(e: seq<Digit>, i: int)
    requires 0 <= i < |e| && forall j :: 0 <= j <= i ==> e[j] == 0
    ensures Count(e, i) == 0
  {
    if i > 0 {
      CountStep(e, i);
      CountZeros(e, i - 1);
    }
  }

  /** After n zeros, a run of non-zero digits counts up from 1. */
  lemma {:induction false} CountRun(e: seq<Digit>, n: int, i: int)
    requires 0 <= n <= i < |e|
    requires forall j :: 0 <= j < n ==> e[j] == 0
    requires forall j :: n <= j <= i ==> e[j] != 0
    ensures Count(e, i) == i - n + 1
    decreases i
  {
    if i == 0 {
    } else if i == n {
      CountStep(e, i);
      CountZeros(e, i - 1);
    } else {
      CountStep(e, i);
      CountRun(e, n, i - 1);
    }
  }

  lemma {:induction false} CountMono(e: seq<Digit>, i: int, j: int)
    requires 0 <= i <= j < |e|
    ensures Count(e, i) <= Count(e, j)
    decreases j
  {
    if i < j {
      CountStep(e, j);
      CountMono(e, i, j - 1);
    }
  }

  /**
   * When the first six spliced digits are non-zero and the rest has no
   * leading zero, the slot is the 6th spliced digit: it is the only digit
   * the reset zeroes, and validate compares it with the computed check
   * digit.
   */
  lemma SlotOfSplice(w: seq<nat>, d: seq<Digit>, prev: int)
    requires 6 <= |d| <= 12 && |w| == 12 && -1 <= prev < 12
    requires forall j :: 0 <= j < 6 ==> d[j] != 0
    requires |d| > 6 ==> d[6] != 0
    ensures var e, k := Padded(12, d), 12 - |d| + 5;
      && Reset(e, CheckDigitPosition) == e[k := 0]
      && EserVerdict(w, e, prev) == Outcome52(Ok(d[5] == CheckDigit52(e[k := 0], w, k)), k)
  {
    var e, k := Padded(12, d), 12 - |d| + 5;
    SpliceCounts(d);
    assert Reset(e, CheckDigitPosition) == e[k := 0];
  }

  /** In such a splice the count reaches 6 at the 6th spliced digit and nowhere else. */
  lemma SpliceCounts(d: seq<Digit>)
    requires 6 <= |d| <= 12
    requires forall j :: 0 <= j < 6 ==> d[j] != 0
    requires |d| > 6 ==> d[6] != 0
    ensures var e, k := Padded(12, d), 12 - |d| + 5;
      && e[k] == d[5]
      && forall i :: 0 <= i < 12 ==> (Count(e, i) == CheckDigitPosition <==> i == k)
  {
    var e := Padded(12, d);
    var n := 12 - |d|;
    forall j | 0 <= j < |d|
      ensures e[n + j] == d[j]
    {
      assert e[|e| - |d| + j] == d[j];
    }
    CountsAroundSlot(e, n);
  }

  /**
   * After n zeros, six non-zero digits and (if any digit follows) one more
   * non-zero digit, the count is 6 exactly at the sixth non-zero digit.
   */
  lemma CountsAroundSlot(e: seq<Digit>, n: int)
    requires |e| == 12 && 0 <= n && n + 5 < 12
    requires forall j :: 0 <= j < n ==> e[j] == 0
    requires forall j :: n <= j <= n + 5 ==> e[j] != 0
    requires n + 6 < 12 ==> e[n + 6] != 0
    ensures forall i :: 0 <= i < 12 ==> (Count(e, i) == CheckDigitPosition <==> i == n + 5)
  {
    var k := n + 5;
    CountRun(e, n, k);
    forall i | 0 <= i < n
      ensures Count(e, i) == 0
    {
      CountZeros(e, i);
    }
    forall i | n <= i < k
      ensures Count(e, i) == i - n + 1
    {
      CountRun(e, n, i);
    }
    if k + 1 < 12 {
      CountStep(e, k + 1);
      forall i | k < i < 12
        ensures Count(e, i) >= 7
      {
        CountMono(e, k + 1, i);
      }
    }
  }

  /**
   * When the last four digits of the bank code and the account's 3rd and
   * 4th digits are all non-zero, the account's 4th digit is the check
   * digit validate compares.
   */
  lemma SlotIsFourthAccountDigit(ext: Oracle, w: seq<nat>, a: seq<Digit>, bank: seq<Digit>, prev: int)
    requires |a| == 10 && |bank| >= 4 && |w| == 12 && -1 <= prev < 12
    requires a[0] == 0 && a[1] == 0 && a[2] != 0 && a[3] != 0
    requires forall i :: |bank| - 4 <= i < |bank| ==> bank[i] != 0
    ensures var e, k := Padded(12, EserDigits(a, bank)), 12 - |EserDigits(a, bank)| + 5;
      Verdict52(ext, w, a, bank, prev) == Outcome52(Ok(a[3] == CheckDigit52(e[k := 0], w, k)), k)
  {
    var d := EserDigits(a, bank);
    assert d[5] == a[3];
    SlotOfSplice(w, d, prev);
  }

  /**
   * When the account's 5th digit is non-zero as well, no digit is dropped:
   * the ESER number is the last four bank digits followed by the account's
   * digits 3 to 10, and its 6th digit is the check digit.
   */
  lemma FullRestVerdict(ext: Oracle, w: seq<nat>, a: seq<Digit>, bank: seq<Digit>, prev: int)
    requires |a| == 10 && |bank| >= 4 && |w| == 12 && -1 <= prev < 12
    requires a[0] == 0 && a[1] == 0 && a[2] != 0 && a[3] != 0 && a[4] != 0
    requires forall i :: |bank| - 4 <= i < |bank| ==> bank[i] != 0
    ensures Verdict52(ext, w, a, bank, prev)
      == Outcome52(Ok(a[3] == CheckDigit52((bank[|bank| - 4..] + a[2..])[5 := 0], w, 5)), 5)
  {
    LeadingZerosIs(a[4..], 0);
    assert a[2..4] + a[4..] == a[2..];
    var d := EserDigits(a, bank);
    assert d == bank[|bank| - 4..] + a[2..];
    assert Padded(12, d) == d;
    SlotIsFourthAccountDigit(ext, w, a, bank, prev);
  }

  /**
   * When the account's 5th and 6th digits are zero and its 7th is not,
   * exactly those two zeros are dropped: the ESER number is two zeros, the
   * last four bank digits, the account's 3rd and 4th digits and its digits
   * 7 to 10, and its 8th digit is the check digit.
   */
  lemma TwoZerosDroppedVerdict(ext: Oracle, w: seq<nat>, a: seq<Digit>, bank: seq<Digit>, prev: int)
    requires |a| == 10 && |bank| >= 4 && |w| == 12 && -1 <= prev < 12
    requires a[0] == 0 && a[1] == 0 && a[2] != 0 && a[3] != 0
    requires a[4] == 0 && a[5] == 0 && a[6] != 0
    requires forall i :: |bank| - 4 <= i < |bank| ==> bank[i] != 0
    ensures Verdict52(ext, w, a, bank, prev)
      == Outcome52(Ok(a[3] == CheckDigit52(([0, 0] + bank[|bank| - 4..] + a[2..4] + a[6..])[7 := 0], w, 7)), 7)
  {
    LeadingZerosIs(a[4..], 2);
    assert a[4..][2..] == a[6..];
    var d := EserDigits(a, bank);
    assert d == bank[|bank| - 4..] + a[2..4] + a[6..];
    assert |d| == 10;
    var e := [0, 0] + bank[|bank| - 4..] + a[2..4] + a[6..];
    assert seq(2, _ => 0) == [0, 0];
    assert Padded(12, d) == e;
    SlotIsFourthAccountDigit(ext, w, a, bank, prev);
  }

  /**
   * Bank code 13051172 with account 0040123456: the ESER number is
   * 117240123456. Its 6th digit is the account's 4th, a 0, so counting
   * non-zero digits puts the slot on the 7th digit instead.
   */
  lemma SlotSkipsZeroSixthDigit(ext: Oracle, a: seq<Digit>, bank: seq<Digit>)
    requires a == [0, 0, 4, 0, 1, 2, 3, 4, 5, 6] && bank == [1, 3, 0, 5, 1, 1, 7, 2]
    ensures Padded(12, EserDigits(a, bank))[5] == a[3] == 0
    ensures Verdict52(ext, Weights52, a, bank, -1) == Outcome52(Ok(false), 6)
  {
    var e := [1, 1, 7, 2, 4, 0, 1, 2, 3, 4, 5, 6];
    EserDigitsExample(a, bank, e);
    SlotSkipsZeroSixthDigitVerdict(e);
  }

  lemma SlotSkipsZeroSixthDigitVerdict(e: seq<Digit>)
    requires e == [1, 1, 7, 2, 4, 0, 1, 2, 3, 4, 5, 6]
    ensures EserVerdict(Weights52, e, -1) == Outcome52(Ok(false), 6)
  {
    SlotSkipsZeroSixthDigitSlot(e);
    SlotSkipsZeroSixthDigitCheck(e[6 := 0]);
  }

  /** An account whose 5th digit is non-zero keeps all its digits from the 3rd on. */
  lemma EserDigitsExample(a: seq<Digit>, bank: seq<Digit>, e: seq<Digit>)
    requires |a| == 10 && |bank| == 8 && a[4] != 0
    requires e == bank[4..] + a[2..]
    ensures Padded(12, EserDigits(a, bank)) == e
  {
    LeadingZerosIs(a[4..], 0);
    assert a[2..4] + a[4..] == a[2..];
  }

  lemma SlotSkipsZeroSixthDigitSlot(e: seq<Digit>)
    requires e == [1, 1, 7, 2, 4, 0, 1, 2, 3, 4, 5, 6]
    ensures Slot(e, CheckDigitPosition, 12, -1) == 6 && Reset(e, CheckDigitPosition) == e[6 := 0]
  {
    CountRun(e, 0, 4);
    CountStep(e, 5);
    CountStep(e, 6);
    CountStep(e, 7);
    forall i | 0 <= i < 12
      ensures Count(e, i) == CheckDigitPosition <==> i == 6
    {
      if i < 6 {
        CountMono(e, i, 5);
      } else if i > 6 {
        CountMono(e, 7, i);
      }
    }
  }

  lemma SlotSkipsZeroSixthDigitCheck(t: seq<Digit>)
    requires t == [1, 1, 7, 2, 4, 0, 0, 2, 3, 4, 5, 6]
    ensures CheckDigit52(t, Weights52, 6) == 8
  {
    SlotSkipsZeroSixthDigitSum(t);
    DivModUnique(136, 11, 12, 4);
    FactorSearchExampleSlotSkips();
  }

  /** Remainder 4 and weight 9: factor 8 is the first to reach remainder 10. */
  lemma FactorSearchExampleSlotSkips()
    ensures FactorSearch(4, 9, 0) == 8
  {
    DivModUnique(0, 11, 0, 0);
    DivModUnique(9, 11, 0, 9);
    DivModUnique(18, 11, 1, 7);
    DivModUnique(27, 11, 2, 5);
    DivModUnique(36, 11, 3, 3);
    DivModUnique(45, 11, 4, 1);
    DivModUnique(54, 11, 4, 10);
    DivModUnique(63, 11, 5, 8);
    DivModUnique(72, 11, 6, 6);
    assert FactorSearch(4, 9, 7) == 8;
    assert FactorSearch(4, 9, 6) == 8;
    assert FactorSearch(4, 9, 5) == 8;
    assert FactorSearch(4, 9, 4) == 8;
    assert FactorSearch(4, 9, 3) == 8;
    assert FactorSearch(4, 9, 2) == 8;
    assert FactorSearch(4, 9, 1) == 8;
  }

  lemma SlotSkipsZeroSixthDigitSum(t: seq<Digit>)
    requires t == [1, 1, 7, 2, 4, 0, 0, 2, 3, 4, 5, 6]
    ensures WSum(t, Weights52, 0, 12) == 136
  {
    assert WSum(t, Weights52, 0, 1) == 4;
    assert WSum(t, Weights52, 0, 2) == 6;
    assert WSum(t, Weights52, 0, 3) == 13;
    assert WSum(t, Weights52, 0, 4) == 25;
    assert WSum(t, Weights52, 0, 5) == 37;
    assert WSum(t, Weights52, 0, 6) == 37;
    assert WSum(t, Weights52, 0, 7) == 37;
    assert WSum(t, Weights52, 0, 8) == 57;
    assert WSum(t, Weights52, 0, 9) == 72;
    assert WSum(t, Weights52, 0, 10) == 104;
    assert WSum(t, Weights52, 0, 11) == 124;
    assert WSum(t, Weights52, 0, 12) == 136;
  }

  /**
   * Bank code 13051172 with account 0040100004: the ESER number is
   * 117240100004. Its 6th digit is a 0 and the weighted sum of all twelve
   * digits leaves remainder 10, so the check the class comment describes
   * accepts it; counting non-zero digits puts the slot on the 11th digit
   * (the last of a run of zeros) and validate rejects the number.
   */
  lemma SlotDisagreesWithSixthDigitRule(ext: Oracle, a: seq<Digit>, bank: seq<Digit>)
    requires a == [0, 0, 4, 0, 1, 0, 0, 0, 0, 4] && bank == [1, 3, 0, 5, 1, 1, 7, 2]
    ensures Padded(12, EserDigits(a, bank))[5] == a[3] == 0
    ensures WSum(Padded(12, EserDigits(a, bank)), Weights52, 0, 12) % 11 == 10
    ensures Verdict52(ext, Weights52, a, bank, -1) == Outcome52(Ok(false), 10)
  {
    var e := [1, 1, 7, 2, 4, 0, 1, 0, 0, 0, 0, 4];
    EserDigitsExample(a, bank, e);
    SlotDisagreesSum(e);
    SlotDisagreesVerdict(e);
  }

  lemma SlotDisagreesVerdict(e: seq<Digit>)
    requires e == [1, 1, 7, 2, 4, 0, 1, 0, 0, 0, 0, 4]
    ensures EserVerdict(Weights52, e, -1) == Outcome52(Ok(false), 10)
  {
    SlotDisagreesSlot(e);
    SlotDisagreesCheck(e[6 := 0][7 := 0][8 := 0][9 := 0][10 := 0]);
  }

  lemma SlotDisagreesSum(e: seq<Digit>)
    requires e == [1, 1, 7, 2, 4, 0, 1, 0, 0, 0, 0, 4]
    ensures WSum(e, Weights52, 0, 12) == 54
  {
    assert WSum(e, Weights52, 0, 5) == 37;
    assert WSum(e, Weights52, 0, 7) == 46;
    assert WSum(e, Weights52, 0, 11) == 46;
  }

  lemma SlotDisagreesSlot(e: seq<Digit>)
    requires e == [1, 1, 7, 2, 4, 0, 1, 0, 0, 0, 0, 4]
    ensures Slot(e, CheckDigitPosition, 12, -1) == 10
    ensures Reset(e, CheckDigitPosition) == e[6 := 0][7 := 0][8 := 0][9 := 0][10 := 0]
  {
    CountRun(e, 0, 4);
    CountStep(e, 5);
    CountStep(e, 6);
    CountStep(e, 7);
    CountStep(e, 8);
    CountStep(e, 9);
    CountStep(e, 10);
    CountStep(e, 11);
    forall i | 0 <= i < 12
      ensures Count(e, i) == CheckDigitPosition <==> 6 <= i <= 10
    {
      if i < 6 {
        CountMono(e, i, 5);
      }
    }
  }

  lemma SlotDisagreesCheck(t: seq<Digit>)
    requires t == [1, 1, 7, 2, 4, 0, 0, 0, 0, 0, 0, 4]
    ensures CheckDigit52(t, Weights52, 10) == 5
  {
    SlotDisagreesCheckSum(t);
    DivModUnique(45, 11, 4, 1);
    FactorSearchExampleSlotDisagrees();
  }

  lemma SlotDisagreesCheckSum(t: seq<Digit>)
    requires t == [1, 1, 7, 2, 4, 0, 0, 0, 0, 0, 0, 4]
    ensures WSum(t, Weights52, 0, 12) == 45
  {
    assert WSum(t, Weights52, 0, 5) == 37;
    assert WSum(t, Weights52, 0, 11) == 37;
  }

  /** Remainder 1 and weight 4: factor 5 is the first to reach remainder 10. */
  lemma FactorSearchExampleSlotDisagrees()
    ensures FactorSearch(1, 4, 0) == 5
  {
    DivModUnique(0, 11, 0, 0);
    DivModUnique(4, 11, 0, 4);
    DivModUnique(8, 11, 0, 8);
    DivModUnique(12, 11, 1, 1);
    DivModUnique(16, 11, 1, 5);
    DivModUnique(20, 11, 1, 9);
    assert FactorSearch(1, 4, 4) == 5;
    assert FactorSearch(1, 4, 3) == 5;
    assert FactorSearch(1, 4, 2) == 5;
    assert FactorSearch(1, 4, 1) == 5;
  }

  /** Bank code 13051172 with account 0043001500: ESER number 001172431500, slot 7, accepted. */
  lemma Method52ExampleShortRest(ext: Oracle, a: seq<Digit>, bank: seq<Digit>)
    requires a == [0, 0, 4, 3, 0, 0, 1, 5, 0, 0] && bank == [1, 3, 0, 5, 1, 1, 7, 2]
    ensures Verdict52(ext, Weights52, a, bank, -1)
      == Outcome52(Ok(true), 7)
  {
    TwoZerosDroppedVerdict(ext, Weights52, a, bank, -1);
    CheckDigit52ExampleShortRest(a, bank);
  }

  lemma CheckDigit52ExampleShortRest(a: seq<Digit>, bank: seq<Digit>)
    requires a == [0, 0, 4, 3, 0, 0, 1, 5, 0, 0] && bank == [1, 3, 0, 5, 1, 1, 7, 2]
    ensures CheckDigit52(([0, 0] + bank[|bank| - 4..] + a[2..4] + a[6..])[7 := 0], Weights52, 7) == 3
  {
    var t := ([0, 0] + bank[|bank| - 4..] + a[2..4] + a[6..])[7 := 0];
    WSumExampleShortRest(t);
    DivModUnique(123, 11, 11, 2);
    FactorSearchExampleShortRest();
  }

  lemma WSumExampleShortRest(t: seq<Digit>)
    requires |t| == 12 && t[2] == 1 && t[3] == 1 && t[4] == 7 && t[5] == 2 && t[6] == 4 && t[8] == 1 && t[9] == 5
    requires t[0] == 0 && t[1] == 0 && t[7] == 0 && t[10] == 0 && t[11] == 0
    ensures WSum(t, Weights52, 0, 12) == 123
  {
    assert WSum(t, Weights52, 0, 1) == 0;
    assert WSum(t, Weights52, 0, 2) == 0;
    assert WSum(t, Weights52, 0, 3) == 1;
    assert WSum(t, Weights52, 0, 4) == 7;
    assert WSum(t, Weights52, 0, 5) == 28;
    assert WSum(t, Weights52, 0, 6) == 42;
    assert WSum(t, Weights52, 0, 7) == 78;
    assert WSum(t, Weights52, 0, 8) == 78;
    assert WSum(t, Weights52, 0, 9) == 83;
    assert WSum(t, Weights52, 0, 10) == 123;
    assert WSum(t, Weights52, 0, 11) == 123;
  }

  /** Remainder 2 and weight 10: factor 3 is the first to reach remainder 10. */
  lemma FactorSearchExampleShortRest()
    ensures FactorSearch(2, 10, 0) == 3
  {
    DivModUnique(0, 11, 0, 0);
    DivModUnique(10, 11, 0, 10);
    DivModUnique(20, 11, 1, 9);
    DivModUnique(30, 11, 2, 8);
    assert FactorSearch(2, 10, 2) == 3;
    assert FactorSearch(2, 10, 1) == 3;
  }

  /** Bank code 13051172 with account 0048726458: ESER number 117248726458, slot 5, accepted. */
  lemma Method52ExampleFullRest(ext: Oracle, a: seq<Digit>, bank: seq<Digit>)
    requires a == [0, 0, 4, 8, 7, 2, 6, 4, 5, 8] && bank == [1, 3, 0, 5, 1, 1, 7, 2]
    ensures Verdict52(ext, Weights52, a, bank, -1)
      == Outcome52(Ok(true), 5)
  {
    FullRestVerdict(ext, Weights52, a, bank, -1);
    CheckDigit52ExampleFullRest(a, bank);
  }

  lemma CheckDigit52ExampleFullRest(a: seq<Digit>, bank: seq<Digit>)
    requires a == [0, 0, 4, 8, 7, 2, 6, 4, 5, 8] && bank == [1, 3, 0, 5, 1, 1, 7, 2]
    ensures CheckDigit52((bank[|bank| - 4..] + a[2..])[5 := 0], Weights52, 5) == 8
  {
    var t := (bank[|bank| - 4..] + a[2..])[5 := 0];
    assert WSum(t, Weights52, 0, 1) == 4;
    assert WSum(t, Weights52, 0, 2) == 6;
    assert WSum(t, Weights52, 0, 3) == 13;
    assert WSum(t, Weights52, 0, 4) == 25;
    assert WSum(t, Weights52, 0, 5) == 37;
    assert WSum(t, Weights52, 0, 6) == 37;
    assert WSum(t, Weights52, 0, 7) == 100;
    assert WSum(t, Weights52, 0, 8) == 120;
    assert WSum(t, Weights52, 0, 9) == 150;
    assert WSum(t, Weights52, 0, 10) == 182;
    assert WSum(t, Weights52, 0, 11) == 202;
    assert WSum(t, Weights52, 0, 12) == 218;
  }

  /** Bank code 13051172 with account 0082335729: the check digit would be 4, not 2. */
  lemma Method52ExampleRejected(ext: Oracle, a: seq<Digit>, bank: seq<Digit>)
    requires a == [0, 0, 8, 2, 3, 3, 5, 7, 2, 9] && bank == [1, 3, 0, 5, 1, 1, 7, 2]
    ensures Verdict52(ext, Weights52, a, bank, -1)
      == Outcome52(Ok(false), 5)
  {
    FullRestVerdict(ext, Weights52, a, bank, -1);
    CheckDigit52ExampleRejected(a, bank);
  }

  lemma CheckDigit52ExampleRejected(a: seq<Digit>, bank: seq<Digit>)
    requires a == [0, 0, 8, 2, 3, 3, 5, 7, 2, 9] && bank == [1, 3, 0, 5, 1, 1, 7, 2]
    ensures CheckDigit52((bank[|bank| - 4..] + a[2..])[5 := 0], Weights52, 5) == 4
  {
    var t := (bank[|bank| - 4..] + a[2..])[5 := 0];
    assert WSum(t, Weights52, 0, 1) == 4;
    assert WSum(t, Weights52, 0, 2) == 6;
    assert WSum(t, Weights52, 0, 3) == 13;
    assert WSum(t, Weights52, 0, 4) == 25;
    assert WSum(t, Weights52, 0, 5) == 49;
    assert WSum(t, Weights52, 0, 6) == 49;
    assert WSum(t, Weights52, 0, 7) == 76;
    assert WSum(t, Weights52, 0, 8) == 106;
    assert WSum(t, Weights52, 0, 9) == 131;
    assert WSum(t, Weights52, 0, 10) == 187;
    assert WSum(t, Weights52, 0, 11) == 195;
    assert WSum(t, Weights52, 0, 12) == 213;
  }

  /** Bank code 13051172 with account 0029837521: the check digit would be 8, not 9. */
  lemma Method52ExampleRejected29837521(ext: Oracle, a: seq<Digit>, bank: seq<Digit>)
    requires a == [0, 0, 2, 9, 8, 3, 7, 5, 2, 1] && bank == [1, 3, 0, 5, 1, 1, 7, 2]
    ensures Verdict52(ext, Weights52, a, bank, -1)
      == Outcome52(Ok(false), 5)
  {
    FullRestVerdict(ext, Weights52, a, bank, -1);
    CheckDigit52ExampleRejected29837521(a, bank);
  }

  lemma CheckDigit52ExampleRejected29837521(a: seq<Digit>, bank: seq<Digit>)
    requires a == [0, 0, 2, 9, 8, 3, 7, 5, 2, 1] && bank == [1, 3, 0, 5, 1, 1, 7, 2]
    ensures CheckDigit52((bank[|bank| - 4..] + a[2..])[5 := 0], Weights52, 5) == 8
  {
    var t := (bank[|bank| - 4..] + a[2..])[5 := 0];
    WSumExampleRejected29837521(t);
    DivModUnique(218, 11, 19, 9);
    FactorSearchExampleRejected29837521();
  }

  lemma WSumExampleRejected29837521(t: seq<Digit>)
    requires t == [1, 1, 7, 2, 2, 0, 8, 3, 7, 5, 2, 1]
    ensures WSum(t, Weights52, 0, 12) == 218
  {
    assert WSum(t, Weights52, 0, 1) == 4;
    assert WSum(t, Weights52, 0, 2) == 6;
    assert WSum(t, Weights52, 0, 3) == 13;
    assert WSum(t, Weights52, 0, 4) == 25;
    assert WSum(t, Weights52, 0, 5) == 31;
    assert WSum(t, Weights52, 0, 6) == 31;
    assert WSum(t, Weights52, 0, 7) == 103;
    assert WSum(t, Weights52, 0, 8) == 133;
    assert WSum(t, Weights52, 0, 9) == 168;
    assert WSum(t, Weights52, 0, 10) == 208;
    assert WSum(t, Weights52, 0, 11) == 216;
  }

  /** Remainder 9 and weight 7: factor 8 is the first to reach remainder 10. */
  lemma FactorSearchExampleRejected29837521()
    ensures FactorSearch(9, 7, 0) == 8
  {
    DivModUnique(0, 11, 0, 0);
    DivModUnique(7, 11, 0, 7);
    DivModUnique(14, 11, 1, 3);
    DivModUnique(21, 11, 1, 10);
    DivModUnique(28, 11, 2, 6);
    DivModUnique(35, 11, 3, 2);
    DivModUnique(42, 11, 3, 9);
    DivModUnique(49, 11, 4, 5);
    DivModUnique(56, 11, 5, 1);
    assert FactorSearch(9, 7, 7) == 8;
    assert FactorSearch(9, 7, 6) == 8;
    assert FactorSearch(9, 7, 5) == 8;
    assert FactorSearch(9, 7, 4) == 8;
    assert FactorSearch(9, 7, 3) == 8;
    assert FactorSearch(9, 7, 2) == 8;
    assert FactorSearch(9, 7, 1) == 8;
  }
}
