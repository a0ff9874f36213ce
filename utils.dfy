/**
 * Digit-vector utilities shared by all check-digit methods
 * (ChecksumUtils.java): crossfoot, left zero-padding, conversion between
 * numbers and fixed-width digit vectors, leading-zero count, the distance
 * to the next half decade and the plain weighted sum.
 *
 * An account or bank number is a sequence of decimal digits, most
 * significant first. Java's `int[]` arguments are never written by the
 * code that receives them, so they are modelled as `seq<Digit>` values;
 * arrays that the source allocates and fills are local arrays here.
 */
module Utils {

  type Digit = d: int | 0 <= d <= 9

  /** The exceptions the core can raise. */
  datatype Error =
    | IllegalAccountNumber  // IllegalAccountNumberException: too many digits, or ESER preconditions
    | Validation            // ValidationException: the check-digit position could not be found
    | IndexOutOfBounds      // the leading-zero scan ran off the end of an all-zero number

  datatype Result<T> = Ok(value: T) | Err(error: Error)

  datatype Option<T> = None | Some(value: T)

  // ---------------------------------------------------------------------
  // Java integer arithmetic

  /** Java's `/` on int and long: truncates toward zero. */
  function JavaDiv(a: int, b: int): int
    requires b > 0
  {
    if a >= 0 then a / b else -((-a) / b)
  }

  /** Java's `%` on int and long: the remainder takes the sign of the dividend. */
  function JavaRem(a: int, b: int): (r: int)
    requires b > 0
    ensures a == JavaDiv(a, b) * b + r
    ensures a >= 0 ==> 0 <= r < b
    ensures a < 0 ==> -b < r <= 0
  {
    if a >= 0 then a % b else -((-a) % b)
  }

  // ---------------------------------------------------------------------
  // Crossfoot (qs)

  /** The sum of the decimal digits of a non-negative number. */
  function DigitSum(n: nat): nat
  {
    if n == 0 then 0 else DigitSum(n / 10) + n % 10
  }

  /**
   * What `qs` computes for any int: the digit sum for n >= 0 and, because
   * Java's `%` and `/` truncate toward zero, minus the digit sum of -n for
   * n < 0.
   */
  function Crossfoot(n: int): int
  {
    if n >= 0 then DigitSum(n) else -(DigitSum(-n) as int)
  }

  /** ChecksumUtils.qs: accumulate `number % 10` while dividing by 10. */
  method Qs(number: int) returns (qs: int)
    ensures number >= 0 ==> qs == DigitSum(number)
    ensures number < 0 ==> qs == -(DigitSum(-number) as int)
  {
    qs := 0;
    var n := number;
    while n != 0
      invariant number >= 0 ==> n >= 0
      invariant number < 0 ==> n <= 0
      invariant qs + Crossfoot(n) == Crossfoot(number)
      decreases if n >= 0 then n else -n
    {
      qs := qs + JavaRem(n, 10);
      n := JavaDiv(n, 10);
    }
  }

  /** The digit sums the source's tests expect, for both signs. */
  lemma CrossfootExamples()
    ensures Crossfoot(0) == 0 && Crossfoot(2) == 2 && Crossfoot(13) == 4
    ensures Crossfoot(93) == 12 && Crossfoot(1234567) == 28
    ensures Crossfoot(-2) == -2 && Crossfoot(-13) == -4
    ensures Crossfoot(-93) == -12 && Crossfoot(-1234567) == -28
  {
    assert DigitSum(1) == 1;
    assert DigitSum(12) == 3;
    assert DigitSum(123) == 6;
    assert DigitSum(1234) == 10;
    assert DigitSum(12345) == 15;
    assert DigitSum(123456) == 21;
  }

  /** A two-digit product (at most 99) adds its tens digit plus its units digit. */
  lemma {:induction false} DigitSumTwoDigits(n: nat)
    requires n < 100
    ensures DigitSum(n) == n / 10 + n % 10
  {
    if n >= 10 {
      assert DigitSum(n / 10) == n / 10 by {
        assert (n / 10) / 10 == 0;
      }
    }
  }

  /** The doubled digits' crossfoots: 2d below 10, 2d - 9 from 10 on. */
  lemma DoubledDigitSum(d: Digit)
    ensures DigitSum(d * 2) == if d <= 4 then d * 2 else d * 2 - 9
  {
    DigitSumTwoDigits(d * 2);
  }

  // ---------------------------------------------------------------------
  // Padding (getFilledAcountNumber)

  /** `s` with zeros prepended up to `size` digits; never truncated. */
  function Padded(size: int, s: seq<Digit>): (r: seq<Digit>)
    ensures |r| == if size > |s| then size else |s|
    ensures forall i :: 0 <= i < |s| ==> r[|r| - |s| + i] == s[i]
    ensures forall i :: 0 <= i < |r| - |s| ==> r[i] == 0
  {
    if size > |s| then seq(size - |s|, _ => 0) + s else s
  }

  /** Padding a padded vector to the same size changes nothing. */
  lemma PaddedIdempotent(size: int, s: seq<Digit>)
    ensures Padded(size, Padded(size, s)) == Padded(size, s)
  {
  }

  /**
   * ChecksumUtils.getFilledAcountNumber: when `size` exceeds the length, a
   * new zero-initialised array of `size` digits receives `a` at the right;
   * otherwise `a` itself is returned.
   */
  method FilledAccountNumber(size: int, a: seq<Digit>) returns (r: seq<Digit>)
    ensures r == Padded(size, a)
  {
    if size > |a| {
      var filled := new Digit[size](_ => 0);
      var offset := size - |a|;
      for i := 0 to |a|
        invariant forall k :: 0 <= k < offset ==> filled[k] == 0
        invariant forall k :: offset <= k < offset + i ==> filled[k] == a[k - offset]
        invariant forall k :: offset + i <= k < size ==> filled[k] == 0
      {
        filled[i + offset] := a[i];
      }
      r := filled[..];
      assert forall k :: 0 <= k < size ==> r[k] == Padded(size, a)[k];
    } else {
      r := a;
    }
  }

  // ---------------------------------------------------------------------
  // Numbers and digit vectors (parseLong, parseAccountNumber, parseBlz,
  // parseEserAccountNumber)

  function Pow10(n: nat): (p: nat)
    ensures p >= 1
  {
    if n == 0 then 1 else 10 * Pow10(n - 1)
  }

  /** The number a digit vector denotes, most significant digit first. */
  function ValueOf(s: seq<Digit>): (v: nat)
    ensures v < Pow10(|s|)
  {
    if s == [] then 0 else ValueOf(s[..|s| - 1]) * 10 + s[|s| - 1]
  }

  /** The lowest `width` decimal digits of `n`, most significant first. */
  function DigitsOf(n: nat, width: nat): (r: seq<Digit>)
    ensures |r| == width
  {
    if width == 0 then [] else DigitsOf(n / 10, width - 1) + [n % 10]
  }

  /** Euclidean division has one quotient and one remainder. */
  lemma DivModUnique(n: int, d: int, q: int, r: int)
    requires d > 0 && 0 <= r < d && n == d * q + r
    ensures n / d == q && n % d == r
  {
    var q', r' := n / d, n % d;
    assert n == d * q' + r';
    if q > q' {
      MulStep(d, q', q);
    } else if q < q' {
      MulStep(d, q, q');
    }
  }

  lemma MulStep(d: int, a: int, b: int)
    requires d > 0 && a < b
    ensures d * a + d <= d * b
  {
    var k := b - a;
    assert d * b == d * a + d * k;
    MulAtLeast(d, k);
  }

  lemma {:induction false} MulAtLeast(d: int, k: int)
    requires d > 0 && k >= 1
    ensures d * k >= d
    decreases k
  {
    if k > 1 {
      MulAtLeast(d, k - 1);
      assert d * k == d * (k - 1) + d;
    }
  }

  lemma DivDiv(n: nat, a: nat, b: nat)
    requires a > 0 && b > 0
    ensures n / a / b == n / (a * b)
  {
    var q1, r1 := n / a, n % a;
    var q2, r2 := q1 / b, q1 % b;
    assert n == a * b * q2 + (a * r2 + r1) by {
      calc {
        n;
        a * q1 + r1;
        a * (b * q2 + r2) + r1;
        { assert a * (b * q2 + r2) == a * b * q2 + a * r2; }
        a * b * q2 + (a * r2 + r1);
      }
    }
    assert a * r2 + r1 < a * b by {
      MulStep(a, r2, b);
    }
    DivModUnique(n, a * b, q2, a * r2 + r1);
  }

  lemma ModMul(n: nat, p: nat)
    requires p > 0
    ensures (n / 10) % p * 10 + n % 10 == n % (10 * p)
  {
    var q, r := n / 10, n % 10;
    var k, m := q / p, q % p;
    assert n == 10 * p * k + (10 * m + r) by {
      assert n == 10 * q + r;
      assert q == p * k + m;
    }
    DivModUnique(n, 10 * p, k, 10 * m + r);
  }

  /** Reading back the lowest `width` digits yields `n` modulo 10^width. */
  lemma {:induction false} ValueOfDigitsOf(n: nat, width: nat)
    ensures ValueOf(DigitsOf(n, width)) == n % Pow10(width)
  {
    if width > 0 {
      var d := DigitsOf(n, width);
      assert d[..width - 1] == DigitsOf(n / 10, width - 1);
      ValueOfDigitsOf(n / 10, width - 1);
      ModMul(n, Pow10(width - 1));
    }
  }

  /** A digit vector is recovered from the number it denotes. */
  lemma {:induction false} DigitsOfValueOf(s: seq<Digit>)
    ensures DigitsOf(ValueOf(s), |s|) == s
  {
    if s != [] {
      var v := ValueOf(s);
      assert v / 10 == ValueOf(s[..|s| - 1]) && v % 10 == s[|s| - 1];
      DigitsOfValueOf(s[..|s| - 1]);
    }
  }

  /** Digits of zero are zeros. */
  lemma {:induction false} DigitsOfZero(width: nat)
    ensures DigitsOf(0, width) == seq(width, _ => 0)
  {
    if width > 0 {
      DigitsOfZero(width - 1);
    }
  }

  /** A number below 10^k written with w >= k digits starts with w - k zeros. */
  lemma {:induction false} DigitsOfWider(n: nat, k: nat, w: nat)
    requires n < Pow10(k) && k <= w
    ensures DigitsOf(n, w) == seq(w - k, _ => 0) + DigitsOf(n, k)
  {
    if k == 0 {
      DigitsOfZero(w);
    } else {
      DigitsOfWider(n / 10, k - 1, w - 1);
    }
  }

  /** The next-higher digit is prepended on the left. */
  lemma {:induction false} DigitsOfStep(n: nat, k: nat)
    ensures DigitsOf(n, k + 1) == [n / Pow10(k) % 10] + DigitsOf(n, k)
  {
    if k > 0 {
      DigitsOfStep(n / 10, k - 1);
      DivDiv(n, 10, Pow10(k - 1));
    }
  }

  /**
   * Writing a vector of at most `w` digits as a number and back at width
   * `w` pads it on the left with zeros.
   */
  lemma PaddedByValue(s: seq<Digit>, w: nat)
    requires |s| <= w
    ensures DigitsOf(ValueOf(s), w) == Padded(w, s)
  {
    DigitsOfWider(ValueOf(s), |s|, w);
    DigitsOfValueOf(s);
  }

  /** ChecksumUtils.parseLong: Horner evaluation, left to right. */
  method ParseLong(a: seq<Digit>) returns (l: nat)
    ensures l == ValueOf(a)
  {
    l := 0;
    for i := 0 to |a|
      invariant l == ValueOf(a[..i])
    {
      assert a[..i + 1][..i] == a[..i];
      l := l * 10;
      l := l + a[i];
    }
    assert a[..|a|] == a;
  }

  /**
   * The do-while loop shared by the three parse methods: it writes the
   * units digit of `n` into the last free slot of a zero-initialised array
   * of `width` digits and divides `n` by 10, until `n` is 0 or the array
   * is full. `rest` is what is left of `n` afterwards.
   */
  method ParseDigits(n: nat, width: nat) returns (digits: seq<Digit>, rest: nat)
    requires width >= 1
    ensures digits == DigitsOf(n, width)
    ensures rest == n / Pow10(width)
  {
    var result := new Digit[width](_ => 0);
    var pos := 0;
    var m := n;
    while true
      invariant 0 <= pos < width
      invariant m == n / Pow10(pos)
      invariant result[..] == seq(width - pos, _ => 0) + DigitsOf(n, pos)
      decreases width - pos
    {
      ghost var before := result[..];
      ParseStep(n, pos, width, before);
      result[width - 1 - pos] := m % 10;
      assert result[..] == before[width - 1 - pos := m % 10];
      m := m / 10;
      pos := pos + 1;
      if !(m != 0 && pos < width) {
        break;
      }
    }
    if pos < width {
      DivModUnique(n, Pow10(pos), 0, n);
      DigitsOfWider(n, pos, width);
      DivModUnique(n, Pow10(width), 0, n) by {
        DigitsPowMono(pos, width);
      }
    }
    digits := result[..];
    rest := m;
  }

  /** One round of the parsing loop: the next digit lands left of those already placed. */
  lemma ParseStep(n: nat, pos: nat, width: nat, before: seq<Digit>)
    requires pos < width && before == seq(width - pos, _ => 0) + DigitsOf(n, pos)
    ensures before[width - 1 - pos := n / Pow10(pos) % 10] == seq(width - pos - 1, _ => 0) + DigitsOf(n, pos + 1)
    ensures n / Pow10(pos) / 10 == n / Pow10(pos + 1)
  {
    DigitsOfStep(n, pos);
    DivDiv(n, Pow10(pos), 10);
    assert Pow10(pos) * 10 == Pow10(pos + 1);
  }

  lemma {:induction false} DigitsPowMono(k: nat, w: nat)
    requires k <= w
    ensures Pow10(k) <= Pow10(w)
  {
    if k < w {
      DigitsPowMono(k, w - 1);
    }
  }

  /**
   * ChecksumUtils.parseAccountNumber: exactly 10 digits, most significant
   * first; more than 10 digits raise IllegalAccountNumberException.
   */
  method ParseAccountNumber(n: nat) returns (r: Result<seq<Digit>>)
    ensures n < Pow10(10) ==> r == Ok(DigitsOf(n, 10))
    ensures n >= Pow10(10) ==> r == Err(IllegalAccountNumber)
  {
    var digits, rest := ParseDigits(n, 10);
    if rest > 0 {
      return Err(IllegalAccountNumber);
    }
    return Ok(digits);
  }

  /** ChecksumUtils.parseBlz: 8 digits; higher digits are silently dropped. */
  method ParseBlz(n: nat) returns (r: seq<Digit>)
    ensures r == DigitsOf(n, 8)
  {
    var rest;
    r, rest := ParseDigits(n, 8);
  }

  /**
   * ChecksumUtils.parseEserAccountNumber: exactly 12 digits; more raise
   * IllegalAccountNumberException.
   */
  method ParseEserAccountNumber(n: nat) returns (r: Result<seq<Digit>>)
    ensures n < Pow10(12) ==> r == Ok(DigitsOf(n, 12))
    ensures n >= Pow10(12) ==> r == Err(IllegalAccountNumber)
  {
    var digits, rest := ParseDigits(n, 12);
    if rest > 0 {
      return Err(IllegalAccountNumber);
    }
    return Ok(digits);
  }

  /** parseAccountNumber followed by parseLong gives back the number. */
  lemma AccountNumberRoundTrip(n: nat)
    requires n < Pow10(10)
    ensures |DigitsOf(n, 10)| == 10 && ValueOf(DigitsOf(n, 10)) == n
  {
    ValueOfDigitsOf(n, 10);
  }

  /** parseBlz keeps the number modulo 10^8: only the lowest 8 digits survive. */
  lemma BlzKeepsLowDigits(n: nat)
    ensures ValueOf(DigitsOf(n, 8)) == n % 100000000
  {
    ValueOfDigitsOf(n, 8);
  }

  // ---------------------------------------------------------------------
  // Leading zeros (countNeutralLeadingDigits)

  /** The number of zeros before the first non-zero digit (|s| if none). */
  function LeadingZeros(s: seq<Digit>): (c: nat)
    ensures c <= |s|
    ensures forall j :: 0 <= j < c ==> s[j] == 0
    ensures c < |s| ==> s[c] != 0
  {
    if s == [] || s[0] != 0 then 0 else 1 + LeadingZeros(s[1..])
  }

  /**
   * ChecksumUtils.countNeutralLeadingDigits: scans while the digit is 0;
   * on an all-zero number the scan runs off the end of the array.
   */
  method CountNeutralLeadingDigits(a: seq<Digit>) returns (r: Result<nat>)
    ensures r.Ok? <==> exists j :: 0 <= j < |a| && a[j] != 0
    ensures r.Ok? ==> r.value == LeadingZeros(a)
    ensures r.Err? ==> r.error == IndexOutOfBounds
  {
    var c := 0;
    var i := 0;
    while true
      invariant 0 <= i <= |a| && c == i
      invariant forall j :: 0 <= j < i ==> a[j] == 0
      decreases |a| - i
    {
      if i == |a| {
        return Err(IndexOutOfBounds);
      }
      if a[i] != 0 {
        break;
      }
      c := c + 1;
      i := i + 1;
    }
    LeadingZerosIs(a, c);
    return Ok(c);
  }

  /** The characterisation of LeadingZeros determines it. */
  lemma {:induction false} LeadingZerosIs(s: seq<Digit>, c: nat)
    requires c < |s| && s[c] != 0
    requires forall j :: 0 <= j < c ==> s[j] == 0
    ensures LeadingZeros(s) == c
  {
    if c > 0 {
      LeadingZerosIs(s[1..], c - 1);
    }
  }

  // ---------------------------------------------------------------------
  // Half decade (getDiffToHalfDecade)

  /**
   * ChecksumUtils.getDiffToHalfDecade: for a non-negative number, the
   * distance to the next number ending in 5. Negative arguments follow
   * Java's remainder but get no promise, since no method in this model
   * calls it.
   */
  function DiffToHalfDecade(number: int): (r: int)
    ensures number >= 0 ==> 0 <= r <= 9 && (number + r) % 10 == 5
  {
    if JavaRem(number, 10) <= 5 then 5 - JavaRem(number, 10)
    else 10 - JavaRem(JavaRem(number, 10), 5)
  }

  // ---------------------------------------------------------------------
  // Weighted sums (calcWeightedSum)

  /** The sum of a[i] * w[i] for lo <= i < hi. */
  function WSum(a: seq<int>, w: seq<int>, lo: nat, hi: int): int
    requires hi <= |a| && hi <= |w|
    decreases hi - lo
  {
    if hi <= lo then 0 else WSum(a, w, lo, hi - 1) + a[hi - 1] * w[hi - 1]
  }

  /** With digits and non-negative weights no product is negative. */
  lemma {:induction false} WSumNonNegative(a: seq<Digit>, w: seq<nat>, lo: nat, hi: int)
    requires hi <= |a| && hi <= |w|
    ensures WSum(a, w, lo, hi) >= 0
    decreases hi - lo
  {
    if hi > lo {
      WSumNonNegative(a, w, lo, hi - 1);
    }
  }

  /**
   * Digits whose weight is 0 do not contribute: numbers that agree where
   * the weight is non-zero have the same weighted sum.
   */
  lemma {:induction false} WSumAgree(a: seq<int>, b: seq<int>, w: seq<int>, lo: nat, hi: int)
    requires hi <= |a| && hi <= |b| && hi <= |w|
    requires forall i :: lo <= i < hi && w[i] != 0 ==> a[i] == b[i]
    ensures WSum(a, w, lo, hi) == WSum(b, w, lo, hi)
    decreases hi - lo
  {
    if hi > lo {
      WSumAgree(a, b, w, lo, hi - 1);
    }
  }

  /**
   * ChecksumUtils.calcWeightedSum: account[i] * weights[i] summed for i
   * from start to end inclusive; 0 when start > end.
   */
  method CalcWeightedSum(a: seq<int>, w: seq<int>, start: int, end: int) returns (sum: int)
    requires start > end || (0 <= start && end < |a| && end < |w|)
    ensures start > end ==> sum == 0
    ensures start <= end ==> sum == WSum(a, w, start, end + 1)
  {
    sum := 0;
    var i := start;
    while i <= end
      invariant start <= end ==> start <= i <= end + 1
      invariant start <= end ==> sum == WSum(a, w, start, i)
      invariant start > end ==> sum == 0
    {
      sum := sum + a[i] * w[i];
      i := i + 1;
    }
  }
}
