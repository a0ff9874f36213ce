/**
 * The dispatching check-digit methods: each one chains or selects other
 * methods and records in `alternative` which variant gave the answer
 * (0 = first, 1 = second). Methods 00 and 52 are part of this model;
 * every other method they call is consulted through the oracle `ext`.
 */
module Alternatives {
  import opened Utils
  import opened SubMethods
  import opened Method00
  import opened Method52

  // -------------------------------------------------------------------
  // C0: method 52 for numbers with exactly two leading zeros, else 20

  /** Variant 1 of C0 (method 52) and variant 2 (method 20), left to right. */
  const WeightsC0Alt1: seq<nat> := [4, 2, 1, 6, 3, 7, 9, 10, 5, 8, 4, 2]
  const WeightsC0Alt2: seq<nat> := [3, 9, 8, 7, 6, 5, 4, 3, 2]

  /** The answer of C0's validate, which may raise an exception, and the alternative afterwards. */
  datatype OutcomeC0 = OutcomeC0(result: Result<bool>, alternative: int)

  /**
   * ChecksumC0.validate as a function of the oracle, the account, the bank
   * code and the alternative held before the call. An all-zero number has
   * no first non-zero digit and the leading-zero scan fails before any
   * variant is chosen. With exactly two leading zeros method 52 decides
   * when it accepts, and its exceptions propagate; otherwise method 20
   * decides. Method 52 never reports an illegal number here, because two
   * leading zeros are exactly the shape it requires.
   */
  function VerdictC0(ext: Oracle, a: seq<Digit>, bank: seq<Digit>, prev: int): (o: OutcomeC0)
    requires |a| == 10 && |bank| >= 4
    ensures o.result == Err(IndexOutOfBounds) <==> LeadingZeros(a) == |a|
    ensures LeadingZeros(a) == |a| ==> o.alternative == prev
    ensures o.result.Err? ==> o.result.error != IllegalAccountNumber
    ensures o.result.Err? && LeadingZeros(a) < |a| ==> o.result == Err(Validation) && o.alternative == 0
    ensures o.result == Ok(true) && o.alternative == 0 <==>
      LeadingZeros(a) == 2 && Verdict52(ext, WeightsC0Alt1, a, bank, -1).result == Ok(true)
    ensures LeadingZeros(a) < |a| ==> (o.alternative == 1 <==>
      LeadingZeros(a) != 2 || Verdict52(ext, WeightsC0Alt1, a, bank, -1).result == Ok(false))
    ensures LeadingZeros(a) < |a| && o.alternative == 1 ==> o.result == Ok(ext(M20, Some(WeightsC0Alt2), a))
  {
    if LeadingZeros(a) == |a| then OutcomeC0(Err(IndexOutOfBounds), prev)
    else if LeadingZeros(a) == 2 then
      var o52 := Verdict52(ext, WeightsC0Alt1, a, bank, -1);
      if o52.result.Err? then OutcomeC0(o52.result, 0)
      else if o52.result.value then OutcomeC0(Ok(true), 0)
      else OutcomeC0(Ok(ext(M20, Some(WeightsC0Alt2), a)), 1)
    else OutcomeC0(Ok(ext(M20, Some(WeightsC0Alt2), a)), 1)
  }

  class ChecksumC0 {
    var alternative: int

    constructor ()
      ensures alternative == 0
    {
      alternative := 0;
    }

    /** ChecksumC0.validate, with a fresh method-52 object for variant 1. */
    method Validate(ext: Oracle, a: seq<Digit>, bank: seq<Digit>) returns (r: Result<bool>)
      requires |a| == 10 && |bank| >= 4
      modifies this
      ensures OutcomeC0(r, alternative) == VerdictC0(ext, a, bank, old(alternative))
    {
      var lead := CountNeutralLeadingDigits(a);
      if lead.Err? {
        return Err(lead.error);
      }
      if lead.value == 2 {
        alternative := 0;
        var first := new Checksum52(WeightsC0Alt1);
        var r52 := first.Validate(ext, a, bank);
        if r52.Err? {
          return Err(r52.error);
        }
        if r52.value {
          return Ok(true);
        }
        alternative := 1;
        return Ok(ext(M20, Some(WeightsC0Alt2), a));
      } else {
        alternative := 1;
        return Ok(ext(M20, Some(WeightsC0Alt2), a));
      }
    }
  }

  /** C0's first variant is method 52 with that method's own weights. */
  lemma C0FirstVariantIsMethod52(ext: Oracle, a: seq<Digit>, bank: seq<Digit>)
    requires |a| == 10 && |bank| >= 4
    ensures Verdict52(ext, WeightsC0Alt1, a, bank, -1) == Verdict52(ext, Weights52, a, bank, -1)
  {
    assert WeightsC0Alt1 == Weights52;
  }

  /**
   * With two leading zeros, a non-zero 4th digit and a bank code whose last
   * four digits are non-zero, method 52 always finds its slot (the 4th
   * digit), so C0 raises nothing, and the first variant accepts exactly
   * when the 4th digit is method 52's check digit.
   */
  lemma C0TwoLeadingZerosDecide(ext: Oracle, a: seq<Digit>, bank: seq<Digit>, prev: int)
    requires |a| == 10 && |bank| >= 4
    requires a[0] == 0 && a[1] == 0 && a[2] != 0 && a[3] != 0
    requires forall i :: |bank| - 4 <= i < |bank| ==> bank[i] != 0
    ensures var e, k := Padded(12, EserDigits(a, bank)), 12 - |EserDigits(a, bank)| + 5;
      && VerdictC0(ext, a, bank, prev).result.Ok?
      && (VerdictC0(ext, a, bank, prev).alternative == 0 <==> a[3] == CheckDigit52(e[k := 0], WeightsC0Alt1, k))
  {
    LeadingZerosIs(a, 2);
    SlotIsFourthAccountDigit(ext, WeightsC0Alt1, a, bank, -1);
  }

  /** Bank code 13051172, account 0043001500: the first variant accepts. */
  lemma C0Accepts0043001500(ext: Oracle, a: seq<Digit>, bank: seq<Digit>, prev: int)
    requires a == [0, 0, 4, 3, 0, 0, 1, 5, 0, 0] && bank == [1, 3, 0, 5, 1, 1, 7, 2]
    ensures VerdictC0(ext, a, bank, prev) == OutcomeC0(Ok(true), 0)
  {
    LeadingZerosIs(a, 2);
    C0FirstVariantIsMethod52(ext, a, bank);
    Method52ExampleShortRest(ext, a, bank);
  }

  /** Bank code 13051172, account 0048726458: the first variant accepts. */
  lemma C0Accepts0048726458(ext: Oracle, a: seq<Digit>, bank: seq<Digit>, prev: int)
    requires a == [0, 0, 4, 8, 7, 2, 6, 4, 5, 8] && bank == [1, 3, 0, 5, 1, 1, 7, 2]
    ensures VerdictC0(ext, a, bank, prev) == OutcomeC0(Ok(true), 0)
  {
    LeadingZerosIs(a, 2);
    C0FirstVariantIsMethod52(ext, a, bank);
    Method52ExampleFullRest(ext, a, bank);
  }

  /** Bank code 13051172, account 0082335729: the first variant rejects, so method 20 decides. */
  lemma C0Delegates0082335729(ext: Oracle, a: seq<Digit>, bank: seq<Digit>, prev: int)
    requires a == [0, 0, 8, 2, 3, 3, 5, 7, 2, 9] && bank == [1, 3, 0, 5, 1, 1, 7, 2]
    ensures VerdictC0(ext, a, bank, prev) == OutcomeC0(Ok(ext(M20, Some(WeightsC0Alt2), a)), 1)
  {
    LeadingZerosIs(a, 2);
    C0FirstVariantIsMethod52(ext, a, bank);
    Method52ExampleRejected(ext, a, bank);
  }

  /** Bank code 13051172, account 0029837521: the first variant rejects, so method 20 decides. */
  lemma C0Delegates0029837521(ext: Oracle, a: seq<Digit>, bank: seq<Digit>, prev: int)
    requires a == [0, 0, 2, 9, 8, 3, 7, 5, 2, 1] && bank == [1, 3, 0, 5, 1, 1, 7, 2]
    ensures VerdictC0(ext, a, bank, prev) == OutcomeC0(Ok(ext(M20, Some(WeightsC0Alt2), a)), 1)
  {
    LeadingZerosIs(a, 2);
    C0FirstVariantIsMethod52(ext, a, bank);
    Method52ExampleRejected29837521(ext, a, bank);
  }

  // -------------------------------------------------------------------
  // The fallback chains: the second method is tried when the first rejects

  /** Method 20's weights in B8's first variant. */
  const WeightsB8: seq<nat> := [3, 9, 8, 7, 6, 5, 4, 3, 2]

  /** ChecksumB8.validate: method 20 with B8's weights, then method 29. */
  function VerdictB8(ext: Oracle, a: seq<Digit>): (v: Verdict)
    ensures v.valid <==> ext(M20, Some(WeightsB8), a) || ext(M29, None, a)
    ensures v.alternative == 0 <==> ext(M20, Some(WeightsB8), a)
    ensures v.alternative == 1 ==> v.valid == ext(M29, None, a)
  {
    Fallback(ext(M20, Some(WeightsB8), a), ext(M29, None, a))
  }

  class ChecksumB8 {
    var alternative: int

    constructor ()
      ensures alternative == 0
    {
      alternative := 0;
    }

    method Validate(ext: Oracle, a: seq<Digit>) returns (ok: bool)
      modifies this
      ensures Verdict(ok, alternative) == VerdictB8(ext, a)
    {
      if ext(M20, Some(WeightsB8), a) {
        alternative := 0;
        return true;
      } else {
        alternative := 1;
        return ext(M29, None, a);
      }
    }
  }

  /** C2's weights: method 01 for variant 1, method 00 for variant 2. */
  const WeightsC2Alt1: seq<nat> := [3, 1, 3, 1, 3, 1, 3, 1, 3]
  const WeightsC2Alt2: seq<nat> := [2, 1, 2, 1, 2, 1, 2, 1, 2]

  /** ChecksumC2.validate: method 01 with C2's weights, then method 00. */
  function VerdictC2(ext: Oracle, a: seq<Digit>): (v: Verdict)
    requires |a| >= 10
    ensures v.valid <==> ext(M01, Some(WeightsC2Alt1), a) || (QsSum(a, WeightsC2Alt2, 0) + a[9]) % 10 == 0
    ensures v.alternative == 0 <==> ext(M01, Some(WeightsC2Alt1), a)
    ensures v.alternative == 1 ==> v.valid == Valid00(a, WeightsC2Alt2)
  {
    Fallback(ext(M01, Some(WeightsC2Alt1), a), Valid00(a, WeightsC2Alt2))
  }

  class ChecksumC2 {
    var alternative: int

    constructor ()
      ensures alternative == 0
    {
      alternative := 0;
    }

    method Validate(ext: Oracle, a: seq<Digit>) returns (ok: bool)
      requires |a| >= 10
      modifies this
      ensures Verdict(ok, alternative) == VerdictC2(ext, a)
    {
      if ext(M01, Some(WeightsC2Alt1), a) {
        alternative := 0;
        return true;
      } else {
        alternative := 1;
        var second := new Checksum00(WeightsC2Alt2);
        ok := second.Validate(a);
      }
    }
  }

  /** C2's second variant is method 00 with its own default weights. */
  lemma C2SecondVariantIsMethod00(a: seq<Digit>)
    requires |a| >= 10
    ensures Valid00(a, WeightsC2Alt2) == Valid00(a, Weights00)
  {
    assert WeightsC2Alt2 == Weights00;
  }

  /** ChecksumA2.validate: method 00, then method 04. */
  function VerdictA2(ext: Oracle, a: seq<Digit>): (v: Verdict)
    requires |a| >= 10
    ensures v.valid <==> (QsSum(a, Weights00, 0) + a[9]) % 10 == 0 || ext(M04, None, a)
    ensures v.alternative == 0 <==> Valid00(a, Weights00)
    ensures v.alternative == 1 ==> v.valid == ext(M04, None, a)
  {
    Fallback(Valid00(a, Weights00), ext(M04, None, a))
  }

  class ChecksumA2 {
    var alternative: int

    constructor ()
      ensures alternative == 0
    {
      alternative := 0;
    }

    method Validate(ext: Oracle, a: seq<Digit>) returns (ok: bool)
      requires |a| >= 10
      modifies this
      ensures Verdict(ok, alternative) == VerdictA2(ext, a)
    {
      alternative := 0;
      var first := new Checksum00.Default();
      var accepted := first.Validate(a);
      if accepted {
        return true;
      } else {
        alternative := 1;
        return ext(M04, None, a);
      }
    }
  }

  /** ChecksumA3.validate: method 00, then method 10. */
  function VerdictA3(ext: Oracle, a: seq<Digit>): (v: Verdict)
    requires |a| >= 10
    ensures v.valid <==> (QsSum(a, Weights00, 0) + a[9]) % 10 == 0 || ext(M10, None, a)
    ensures v.alternative == 0 <==> Valid00(a, Weights00)
    ensures v.alternative == 1 ==> v.valid == ext(M10, None, a)
  {
    Fallback(Valid00(a, Weights00), ext(M10, None, a))
  }

  class ChecksumA3 {
    var alternative: int

    constructor ()
      ensures alternative == 0
    {
      alternative := 0;
    }

    method Validate(ext: Oracle, a: seq<Digit>) returns (ok: bool)
      requires |a| >= 10
      modifies this
      ensures Verdict(ok, alternative) == VerdictA3(ext, a)
    {
      alternative := 0;
      var first := new Checksum00.Default();
      var accepted := first.Validate(a);
      if accepted {
        return true;
      } else {
        alternative := 1;
        return ext(M10, None, a);
      }
    }
  }

  /** ChecksumA7.validate: method 00, then method 03. */
  function VerdictA7(ext: Oracle, a: seq<Digit>): (v: Verdict)
    requires |a| >= 10
    ensures v.valid <==> (QsSum(a, Weights00, 0) + a[9]) % 10 == 0 || ext(M03, None, a)
    ensures v.alternative == 0 <==> Valid00(a, Weights00)
    ensures v.alternative == 1 ==> v.valid == ext(M03, None, a)
  {
    Fallback(Valid00(a, Weights00), ext(M03, None, a))
  }

  class ChecksumA7 {
    var alternative: int

    constructor ()
      ensures alternative == 0
    {
      alternative := 0;
    }

    method Validate(ext: Oracle, a: seq<Digit>) returns (ok: bool)
      requires |a| >= 10
      modifies this
      ensures Verdict(ok, alternative) == VerdictA7(ext, a)
    {
      var first := new Checksum00.Default();
      var accepted := first.Validate(a);
      if accepted {
        alternative := 0;
        return true;
      } else {
        alternative := 1;
        return ext(M03, None, a);
      }
    }
  }

  /** ChecksumA9.validate: method 01, then method 06. */
  function VerdictA9(ext: Oracle, a: seq<Digit>): (v: Verdict)
    ensures v.valid <==> ext(M01, None, a) || ext(M06, None, a)
    ensures v.alternative == 0 <==> ext(M01, None, a)
    ensures v.alternative == 1 ==> v.valid == ext(M06, None, a)
  {
    Fallback(ext(M01, None, a), ext(M06, None, a))
  }

  class ChecksumA9 {
    var alternative: int

    constructor ()
      ensures alternative == 0
    {
      alternative := 0;
    }

    method Validate(ext: Oracle, a: seq<Digit>) returns (ok: bool)
      modifies this
      ensures Verdict(ok, alternative) == VerdictA9(ext, a)
    {
      alternative := 0;
      if ext(M01, None, a) {
        return true;
      } else {
        alternative := 1;
        return ext(M06, None, a);
      }
    }
  }

  /**
   * A number that method 00 accepts is accepted by A2, A3 and A7 alike,
   * through their common first variant; only a number it rejects tells
   * them apart.
   */
  lemma SharedFirstVariant(ext: Oracle, a: seq<Digit>)
    requires |a| >= 10
    ensures Valid00(a, Weights00) ==>
      VerdictA2(ext, a) == VerdictA3(ext, a) == VerdictA7(ext, a) == Verdict(true, 0)
    ensures !Valid00(a, Weights00) ==>
      && VerdictA2(ext, a) == Verdict(ext(M04, None, a), 1)
      && VerdictA3(ext, a) == Verdict(ext(M10, None, a), 1)
      && VerdictA7(ext, a) == Verdict(ext(M03, None, a), 1)
  {
  }

  // -------------------------------------------------------------------
  // D2: a chain of three methods

  /**
   * ChecksumD2.validate: method 95, then method 00, then method 68. The
   * third variant sets no alternative, so the object keeps the value it
   * held before the call.
   */
  function VerdictD2(ext: Oracle, a: seq<Digit>, prev: int): (v: Verdict)
    requires |a| >= 10
    ensures v.valid <==> ext(M95, None, a) || Valid00(a, Weights00) || ext(M68, None, a)
    ensures ext(M95, None, a) ==> v.alternative == 0
    ensures !ext(M95, None, a) && Valid00(a, Weights00) ==> v.alternative == 1
    ensures !ext(M95, None, a) && !Valid00(a, Weights00) ==> v.alternative == prev
  {
    if ext(M95, None, a) then Verdict(true, 0)
    else if Valid00(a, Weights00) then Verdict(true, 1)
    else Verdict(ext(M68, None, a), prev)
  }

  class ChecksumD2 {
    var alternative: int

    constructor ()
      ensures alternative == 0
    {
      alternative := 0;
    }

    method Validate(ext: Oracle, a: seq<Digit>) returns (ok: bool)
      requires |a| >= 10
      modifies this
      ensures Verdict(ok, alternative) == VerdictD2(ext, a, old(alternative))
    {
      if ext(M95, None, a) {
        alternative := 0;
        return true;
      } else {
        var second := new Checksum00.Default();
        var accepted := second.Validate(a);
        if accepted {
          alternative := 1;
          return true;
        } else {
          return ext(M68, None, a);
        }
      }
    }
  }

  /**
   * The alternative D2 reports after its third variant is whatever an
   * earlier call left: two objects that differ only in their history give
   * different alternatives for the same number.
   */
  lemma D2AlternativeDependsOnHistory(ext: Oracle, a: seq<Digit>, p: int, q: int)
    requires |a| >= 10 && !ext(M95, None, a) && !Valid00(a, Weights00) && p != q
    ensures VerdictD2(ext, a, p).valid == VerdictD2(ext, a, q).valid
    ensures VerdictD2(ext, a, p).alternative != VerdictD2(ext, a, q).alternative
  {
  }

  // -------------------------------------------------------------------
  // The routing methods: a property of the number selects the variant

  /** ChecksumC3.validate: method 58 for numbers starting with 9, else method 00. */
  function VerdictC3(ext: Oracle, a: seq<Digit>): (v: Verdict)
    requires |a| >= 10
    ensures a[0] != 9 ==> v.alternative == 0 && (v.valid <==> (QsSum(a, Weights00, 0) + a[9]) % 10 == 0)
    ensures a[0] == 9 ==> v == Verdict(ext(M58, None, a), 1)
  {
    Route(a[0] == 9, Valid00(a, Weights00), ext(M58, None, a))
  }

  class ChecksumC3 {
    var alternative: int

    constructor ()
      ensures alternative == 0
    {
      alternative := 0;
    }

    method Validate(ext: Oracle, a: seq<Digit>) returns (ok: bool)
      requires |a| >= 10
      modifies this
      ensures Verdict(ok, alternative) == VerdictC3(ext, a)
    {
      if a[0] != 9 {
        alternative := 0;
        var first := new Checksum00.Default();
        ok := first.Validate(a);
      } else {
        alternative := 1;
        ok := ext(M58, None, a);
      }
    }
  }

  /** ChecksumC4.validate: method 58 for numbers starting with 9, else method 15. */
  function VerdictC4(ext: Oracle, a: seq<Digit>): (v: Verdict)
    requires |a| >= 1
    ensures a[0] != 9 ==> v == Verdict(ext(M15, None, a), 0)
    ensures a[0] == 9 ==> v == Verdict(ext(M58, None, a), 1)
  {
    Route(a[0] == 9, ext(M15, None, a), ext(M58, None, a))
  }

  class ChecksumC4 {
    var alternative: int

    constructor ()
      ensures alternative == 0
    {
      alternative := 0;
    }

    method Validate(ext: Oracle, a: seq<Digit>) returns (ok: bool)
      requires |a| >= 1
      modifies this
      ensures Verdict(ok, alternative) == VerdictC4(ext, a)
    {
      if a[0] != 9 {
        alternative := 0;
        return ext(M15, None, a);
      } else {
        alternative := 1;
        return ext(M58, None, a);
      }
    }
  }

  /**
   * C3 and C4 send a number starting with 9 to the same method 58 and
   * report the same answer for it.
   */
  lemma C3AndC4AgreeOnNine(ext: Oracle, a: seq<Digit>)
    requires |a| >= 10 && a[0] == 9
    ensures VerdictC3(ext, a) == VerdictC4(ext, a)
  {
  }

  /** ChecksumD0.validate: method 09 for numbers starting with 57, else method 20. */
  function VerdictD0(ext: Oracle, a: seq<Digit>): (v: Verdict)
    requires |a| >= 2
    ensures !(a[0] == 5 && a[1] == 7) ==> v == Verdict(ext(M20, None, a), 0)
    ensures a[0] == 5 && a[1] == 7 ==> v == Verdict(ext(M09, None, a), 1)
  {
    Route(a[0] == 5 && a[1] == 7, ext(M20, None, a), ext(M09, None, a))
  }

  class ChecksumD0 {
    var alternative: int

    constructor ()
      ensures alternative == 0
    {
      alternative := 0;
    }

    method Validate(ext: Oracle, a: seq<Digit>) returns (ok: bool)
      requires |a| >= 2
      modifies this
      ensures Verdict(ok, alternative) == VerdictD0(ext, a)
    {
      if a[0] == 5 && a[1] == 7 {
        alternative := 1;
        return ext(M09, None, a);
      } else {
        alternative := 0;
        return ext(M20, None, a);
      }
    }
  }

  /**
   * Method 09 performs no check at all; with such a method 09, D0 accepts
   * every number starting with 57 and checks only the others.
   */
  lemma D0AcceptsEvery57(ext: Oracle, a: seq<Digit>)
    requires |a| >= 2 && forall x :: ext(M09, None, x)
    ensures a[0] == 5 && a[1] == 7 ==> VerdictD0(ext, a) == Verdict(true, 1)
  {
  }

  // -------------------------------------------------------------------
  // 81: method 51 for numbers whose 3rd digit is 9, else method 32

  /** Method 32's weights in method 81, from left to right. */
  const Weights81: seq<nat> := [0, 0, 0, 7, 6, 5, 4, 3, 2]

  /** The answer of method 81 and its exception flag afterwards. */
  datatype Outcome81 = Outcome81(valid: bool, exception: bool)

  /**
   * Checksum81.validate: a 9 in the 3rd position marks the exception case,
   * checked by method 51, and raises the flag; the flag is never lowered.
   */
  function Verdict81(ext: Oracle, a: seq<Digit>, prev: bool): (o: Outcome81)
    requires |a| >= 3
    ensures a[2] == 9 ==> o == Outcome81(ext(M51, None, a), true)
    ensures a[2] != 9 ==> o == Outcome81(ext(M32, Some(Weights81), a), prev)
  {
    if a[2] == 9 then Outcome81(ext(M51, None, a), true)
    else Outcome81(ext(M32, Some(Weights81), a), prev)
  }

  class Checksum81 {
    var exception: bool

    constructor ()
      ensures !exception
    {
      exception := false;
    }

    method Validate(ext: Oracle, a: seq<Digit>) returns (ok: bool)
      requires |a| >= 3
      modifies this
      ensures Outcome81(ok, exception) == Verdict81(ext, a, old(exception))
    {
      if a[2] == 9 {
        exception := true;
        return ext(M51, None, a);
      } else {
        return ext(M32, Some(Weights81), a);
      }
    }
  }

  /**
   * The exception flag reports whether any number checked so far had a 9
   * in its 3rd position: over a sequence of calls it is raised exactly
   * when one of them had.
   */
  function Flag81(ext: Oracle, calls: seq<seq<Digit>>, start: bool): (flag: bool)
    requires forall i :: 0 <= i < |calls| ==> |calls[i]| >= 3
  {
    if calls == [] then start
    else Flag81(ext, calls[1..], Verdict81(ext, calls[0], start).exception)
  }

  lemma {:induction false} Flag81Sticky(ext: Oracle, calls: seq<seq<Digit>>, start: bool)
    requires forall i :: 0 <= i < |calls| ==> |calls[i]| >= 3
    ensures Flag81(ext, calls, start) <==> start || exists i :: 0 <= i < |calls| && calls[i][2] == 9
  {
    if calls != [] {
      Flag81Sticky(ext, calls[1..], Verdict81(ext, calls[0], start).exception);
      assert forall i :: 1 <= i < |calls| ==> calls[i] == calls[1..][i - 1];
      if exists i :: 1 <= i < |calls| && calls[i][2] == 9 {
        var i :| 1 <= i < |calls| && calls[i][2] == 9;
        assert calls[1..][i - 1][2] == 9;
      }
    }
  }

  // The test numbers listed in the documentation of the dispatchers: the
  // parts decided by method 00 are computed here, the unseen alternatives
  // stay whatever the oracle answers.

  lemma C3Accepts9294182(ext: Oracle, a: seq<Digit>)
    requires a == [0, 0, 0, 9, 2, 9, 4, 1, 8, 2]
    ensures VerdictC3(ext, a) == Verdict(true, 0)
  {
    QsSum00(a, Weights00);
  }

  lemma C3Accepts4431276(ext: Oracle, a: seq<Digit>)
    requires a == [0, 0, 0, 4, 4, 3, 1, 2, 7, 6]
    ensures VerdictC3(ext, a) == Verdict(true, 0)
  {
    QsSum00(a, Weights00);
  }

  lemma C3Accepts19919(ext: Oracle, a: seq<Digit>)
    requires a == [0, 0, 0, 0, 0, 1, 9, 9, 1, 9]
    ensures VerdictC3(ext, a) == Verdict(true, 0)
  {
    QsSum00(a, Weights00);
  }

  lemma C3Rejects17002(ext: Oracle, a: seq<Digit>)
    requires a == [0, 0, 0, 0, 0, 1, 7, 0, 0, 2]
    ensures VerdictC3(ext, a) == Verdict(false, 0)
  {
    QsSum00(a, Weights00);
  }

  lemma C3Rejects123451(ext: Oracle, a: seq<Digit>)
    requires a == [0, 0, 0, 0, 1, 2, 3, 4, 5, 1]
    ensures VerdictC3(ext, a) == Verdict(false, 0)
  {
    QsSum00(a, Weights00);
  }

  lemma C3Rejects122448(ext: Oracle, a: seq<Digit>)
    requires a == [0, 0, 0, 0, 1, 2, 2, 4, 4, 8]
    ensures VerdictC3(ext, a) == Verdict(false, 0)
  {
    QsSum00(a, Weights00);
  }

  lemma A2Accepts3456789019(ext: Oracle, a: seq<Digit>)
    requires a == [3, 4, 5, 6, 7, 8, 9, 0, 1, 9]
    ensures VerdictA2(ext, a) == Verdict(true, 0)
  {
    QsSum00(a, Weights00);
  }

  lemma A2Accepts5678901231(ext: Oracle, a: seq<Digit>)
    requires a == [5, 6, 7, 8, 9, 0, 1, 2, 3, 1]
    ensures VerdictA2(ext, a) == Verdict(true, 0)
  {
    QsSum00(a, Weights00);
  }

  lemma A2Accepts6789012348(ext: Oracle, a: seq<Digit>)
    requires a == [6, 7, 8, 9, 0, 1, 2, 3, 4, 8]
    ensures VerdictA2(ext, a) == Verdict(true, 0)
  {
    QsSum00(a, Weights00);
  }

  lemma A2Delegates3456789012(ext: Oracle, a: seq<Digit>)
    requires a == [3, 4, 5, 6, 7, 8, 9, 0, 1, 2]
    ensures VerdictA2(ext, a) == Verdict(ext(M04, None, a), 1)
  {
    QsSum00(a, Weights00);
  }

  lemma A3Accepts1234567897(ext: Oracle, a: seq<Digit>)
    requires a == [1, 2, 3, 4, 5, 6, 7, 8, 9, 7]
    ensures VerdictA3(ext, a) == Verdict(true, 0)
  {
    QsSum00(a, Weights00);
  }

  lemma A3Accepts0123456782(ext: Oracle, a: seq<Digit>)
    requires a == [0, 1, 2, 3, 4, 5, 6, 7, 8, 2]
    ensures VerdictA3(ext, a) == Verdict(true, 0)
  {
    QsSum00(a, Weights00);
  }

  lemma A3Delegates9876543210(ext: Oracle, a: seq<Digit>)
    requires a == [9, 8, 7, 6, 5, 4, 3, 2, 1, 0]
    ensures VerdictA3(ext, a) == Verdict(ext(M10, None, a), 1)
  {
    QsSum00(a, Weights00);
  }

  lemma A7Accepts19010008(ext: Oracle, a: seq<Digit>)
    requires a == [0, 0, 1, 9, 0, 1, 0, 0, 0, 8]
    ensures VerdictA7(ext, a) == Verdict(true, 0)
  {
    QsSum00(a, Weights00);
  }

  lemma A7Accepts19010438(ext: Oracle, a: seq<Digit>)
    requires a == [0, 0, 1, 9, 0, 1, 0, 4, 3, 8]
    ensures VerdictA7(ext, a) == Verdict(true, 0)
  {
    QsSum00(a, Weights00);
  }

  lemma A7Delegates19010660(ext: Oracle, a: seq<Digit>)
    requires a == [0, 0, 1, 9, 0, 1, 0, 6, 6, 0]
    ensures VerdictA7(ext, a) == Verdict(ext(M03, None, a), 1)
  {
    QsSum00(a, Weights00);
  }

  lemma C2Accepts5127485166(ext: Oracle, a: seq<Digit>)
    requires a == [5, 1, 2, 7, 4, 8, 5, 1, 6, 6]
    ensures VerdictC2(ext, a).valid
  {
    C2SecondVariantIsMethod00(a);
    QsSum00(a, Weights00);
    assert QsSum(a, Weights00, 0) == 34;
  }

  lemma C2Accepts8738142564(ext: Oracle, a: seq<Digit>)
    requires a == [8, 7, 3, 8, 1, 4, 2, 5, 6, 4]
    ensures VerdictC2(ext, a).valid
  {
    C2SecondVariantIsMethod00(a);
    QsSum00(a, Weights00);
  }

  lemma C2Delegates0328705282(ext: Oracle, a: seq<Digit>)
    requires a == [0, 3, 2, 8, 7, 0, 5, 2, 8, 2]
    ensures VerdictC2(ext, a) == Verdict(ext(M01, Some(WeightsC2Alt1), a), if ext(M01, Some(WeightsC2Alt1), a) then 0 else 1)
  {
    C2SecondVariantIsMethod00(a);
    QsSum00(a, Weights00);
  }

  lemma D2Accepts4455667784(ext: Oracle, a: seq<Digit>, prev: int)
    requires a == [4, 4, 5, 5, 6, 6, 7, 7, 8, 4]
    ensures VerdictD2(ext, a, prev).valid
  {
    QsSum00(a, Weights00);
  }

  lemma D2Accepts1234567897(ext: Oracle, a: seq<Digit>, prev: int)
    requires a == [1, 2, 3, 4, 5, 6, 7, 8, 9, 7]
    ensures VerdictD2(ext, a, prev).valid
  {
    QsSum00(a, Weights00);
  }

  lemma D2Delegates51181008(ext: Oracle, a: seq<Digit>, prev: int)
    requires a == [0, 0, 5, 1, 1, 8, 1, 0, 0, 8]
    ensures !ext(M95, None, a) ==> VerdictD2(ext, a, prev) == Verdict(ext(M68, None, a), prev)
  {
    QsSum00(a, Weights00);
  }
}
