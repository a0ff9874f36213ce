# bankcheck check-digit core in Dafny

This project models the core of the German account-number validator
`hx.bankcheck.accountvalidator`. A German bank account number has ten
digits. Each bank publishes a "Prüfziffernmethode", a check-digit method that
decides whether a number is well-formed. The model covers four parts:

- the digit utilities of `ChecksumUtils`: cross sums, padding, parsing longs
  into digit arrays, counting leading zeros and weighted sums;
- the weighted-sum evaluators of methods 00, 60, 67, 56, 90 (variants A to F)
  and C1;
- method 52, which rebuilds the 12-digit legacy "ESER" account number from
  the bank code and the account number. It then finds the check digit by a
  modular search at a position that depends on the rebuilt number;
- the dispatchers C0, B8, C2, A2, A3, A7, A9, D2, C3, C4, D0 and 81.
  B8, C2, A2, A3, A7, A9 and D2 try one sub-method and fall back to another
  when it rejects. C3, C4, D0 and 81 pick one sub-method by a digit test and
  never fall back. C0 falls back only when the account has exactly two
  leading zeros. Each records which variant decided in an `alternative`
  field, or in an `exception` flag for method 81.

Account numbers are `seq<Digit>`, where `Digit` is `0..9`. Java's `int[]`
arrays are read-only here, so they become sequences. A validator object
keeps state between calls: `alternative`, `methodFlag`,
`checksumDigitIndex` or `exception`. Such an object becomes a `class` with
that field. Every `Validate` method is tied by its `ensures` to a pure
function of its inputs and its old state. For the dispatchers and for
methods 52, 90 and C1 that function is a `Verdict…` function. For method 00
it is `Valid00`, and for method 56 it is `a[9] == Check56(a)`. The
properties are proved about those functions.

Some sub-methods are not part of this model: 01, 03, 04, 06, 09, 10, 15, 17,
20, 29, 32, 51, 58, 68 and 95. They enter as a parameter
`ext: Oracle` (module `SubMethods`). The parameter maps a method name, an
optional weight vector and the digits to that method's answer.

Java's `%` truncates toward zero. It is modelled as `Utils.JavaRem` wherever
its operand can be negative. That happens in `ChecksumUtils.qs` (`Utils.Qs`)
and `getDiffToHalfDecade` (`Utils.DiffToHalfDecade`) for negative arguments,
and in method C1 when the sum is 0.
Java's `long` parsing is modelled with unbounded naturals (see "Left out").

One test disagrees with the code. `ChecksumUtilsTest.testparseAccountNumber`
(`accountvalidator/java/tests/hx/bankcheck/accountvalidator/ChecksumUtilsTest.java:57-70`)
expects arrays as short as the number. `ChecksumUtils.parseAccountNumber`
always returns ten digits padded with leading zeros, and the model follows
the code.

## Model

Paths are relative to the repository root.

| member | source | states |
|---|---|---|
| Utils.JavaRem | accountvalidator/java/src/hx/bankcheck/accountvalidator/impl/ChecksumC1.java:106 | Java's remainder: `a == q*b + r`, and `r` has the sign of `a` with `|r| < b` |
| Utils.Qs | accountvalidator/java/src/hx/bankcheck/accountvalidator/utils/ChecksumUtils.java:13-22 | the cross sum of a non-negative number is its decimal digit sum; a negative number gets the negated digit sum of its absolute value |
| Utils.CrossfootExamples | accountvalidator/java/tests/hx/bankcheck/accountvalidator/ChecksumUtilsTest.java:32-50 | the cross sums the tests expect: 0→0, 2→2, 13→4, 93→12, 1234567→28, and their negatives |
| Utils.DigitSumTwoDigits | accountvalidator/java/src/hx/bankcheck/accountvalidator/utils/ChecksumUtils.java:13-22 | below 100 the cross sum is tens digit plus units digit, which is how the methods fold a doubled digit |
| Utils.Padded | accountvalidator/java/src/hx/bankcheck/accountvalidator/utils/ChecksumUtils.java:37-48 | a filled number is as long as the requested size (or the input, if longer), keeps the input right-aligned and is zero in front |
| Utils.PaddedIdempotent | accountvalidator/java/src/hx/bankcheck/accountvalidator/utils/ChecksumUtils.java:37-48 | filling an already filled number changes nothing |
| Utils.FilledAccountNumber | accountvalidator/java/src/hx/bankcheck/accountvalidator/utils/ChecksumUtils.java:37-48 | the copying loop produces exactly the filled number |
| Utils.ParseLong | accountvalidator/java/src/hx/bankcheck/accountvalidator/utils/ChecksumUtils.java:59-66 | the loop computes the decimal value of the digit sequence |
| Utils.ParseDigits | accountvalidator/java/src/hx/bankcheck/accountvalidator/utils/ChecksumUtils.java:84-89 | the do-while loop writes the low `width` decimal digits, right-aligned, and leaves the quotient by 10^width |
| Utils.ParseAccountNumber | accountvalidator/java/src/hx/bankcheck/accountvalidator/utils/ChecksumUtils.java:80-96 | a number below 10^10 becomes its ten digits; a longer one is rejected with `IllegalAccountNumber`, never truncated |
| Utils.ParseBlz | accountvalidator/java/src/hx/bankcheck/accountvalidator/utils/ChecksumUtils.java:105-116 | the bank code becomes its low eight digits, padded with zeros in front |
| Utils.ParseEserAccountNumber | accountvalidator/java/src/hx/bankcheck/accountvalidator/utils/ChecksumUtils.java:130-146 | a number below 10^12 becomes its twelve digits; a longer one is rejected with `IllegalAccountNumber` |
| Utils.AccountNumberRoundTrip | accountvalidator/java/src/hx/bankcheck/accountvalidator/utils/ChecksumUtils.java:80-96 | parsing an account number and reading its digits back gives the number again |
| Utils.DigitsOfValueOf | accountvalidator/java/src/hx/bankcheck/accountvalidator/utils/ChecksumUtils.java:59-66 | reading a digit sequence as a long and parsing it back at the same width gives the sequence again |
| Utils.ValueOfDigitsOf | accountvalidator/java/src/hx/bankcheck/accountvalidator/utils/ChecksumUtils.java:84-89 | the digits written for width w have the value n mod 10^w |
| Utils.PaddedByValue | accountvalidator/java/src/hx/bankcheck/accountvalidator/utils/ChecksumUtils.java:37-48 | parsing the value of a digit sequence at a larger width is the same as filling the sequence to that width |
| Utils.BlzKeepsLowDigits | accountvalidator/java/src/hx/bankcheck/accountvalidator/utils/ChecksumUtils.java:105-116 | a bank code with more than eight digits keeps only n mod 10^8 |
| Utils.LeadingZeros | accountvalidator/java/src/hx/bankcheck/accountvalidator/utils/ChecksumUtils.java:157-165 | the count is the length of the zero prefix: every earlier digit is 0 and the digit at the count is not |
| Utils.CountNeutralLeadingDigits | accountvalidator/java/src/hx/bankcheck/accountvalidator/utils/ChecksumUtils.java:157-165 | it succeeds exactly when some digit is non-zero, with the number of leading zeros; an all-zero number runs off the array (`IndexOutOfBounds`) |
| Utils.LeadingZerosIs | accountvalidator/java/src/hx/bankcheck/accountvalidator/utils/ChecksumUtils.java:157-165 | a zero prefix ending at a non-zero digit determines the count |
| Utils.DiffToHalfDecade | accountvalidator/java/src/hx/bankcheck/accountvalidator/utils/ChecksumUtils.java:177-180 | for a non-negative number the result is a digit that brings it to a number ending in 5 |
| Utils.WSumNonNegative | accountvalidator/java/src/hx/bankcheck/accountvalidator/utils/ChecksumUtils.java:192-199 | a weighted sum of digits with natural weights is never negative, so Java's `%` and Dafny's agree on it |
| Utils.WSumAgree | accountvalidator/java/src/hx/bankcheck/accountvalidator/utils/ChecksumUtils.java:192-199 | digits under weight 0 do not affect the weighted sum |
| Utils.CalcWeightedSum | accountvalidator/java/src/hx/bankcheck/accountvalidator/utils/ChecksumUtils.java:192-199 | the loop sums digit times weight over the inclusive range; an empty range gives 0 |
| SubMethods.Fallback | accountvalidator/java/src/hx/bankcheck/accountvalidator/impl/ChecksumA9.java:44-52 | a two-variant chain accepts when either variant does; alternative 0 exactly when the first variant accepted, otherwise 1 |
| SubMethods.Route | accountvalidator/java/src/hx/bankcheck/accountvalidator/impl/ChecksumC4.java:54-62 | a selector-driven dispatch uses exactly one variant, and its verdict, with alternative 0 or 1 |
| Method00.CheckDigit00 | accountvalidator/java/src/hx/bankcheck/accountvalidator/impl/Checksum00.java:44-54 | the check digit is a digit that makes the sum of cross sums of the weighted products plus itself a multiple of 10 |
| Method00.Valid00 | accountvalidator/java/src/hx/bankcheck/accountvalidator/impl/Checksum00.java:40-42 | a number is valid exactly when the products' cross-sum total plus the 10th digit is a multiple of 10 |
| Method00.CompletesToTen | accountvalidator/java/src/hx/bankcheck/accountvalidator/impl/Checksum00.java:44-54 | `(10 - sum % 10) % 10` is the only digit that completes the sum to a multiple of 10 |
| Method00.Checksum00.Default | accountvalidator/java/src/hx/bankcheck/accountvalidator/impl/Checksum00.java:31-33 | the default validator uses weights 2,1,2,1,2,1,2,1,2 |
| Method00.Checksum00.constructor | accountvalidator/java/src/hx/bankcheck/accountvalidator/impl/Checksum00.java:35-37 | a validator with caller-supplied weights keeps them |
| Method00.Checksum00.CalcChecksum | accountvalidator/java/src/hx/bankcheck/accountvalidator/impl/Checksum00.java:44-54 | the loop yields a digit in 0..9 and it is the method-00 check digit |
| Method00.Checksum00.Validate | accountvalidator/java/src/hx/bankcheck/accountvalidator/impl/Checksum00.java:40-42 | validation compares the 10th digit with the check digit and is exactly `Valid00` |
| Method00.QsSumPointwise | accountvalidator/java/src/hx/bankcheck/accountvalidator/impl/Checksum00.java:44-54 | equal products position by position give equal cross-sum totals |
| Method00.QsSumZeroTail | accountvalidator/java/src/hx/bankcheck/accountvalidator/impl/Checksum67.java:24 | trailing zero weights can be cut off without changing the total |
| Method00.QsSumZeroWeights | accountvalidator/java/src/hx/bankcheck/accountvalidator/impl/Checksum60.java:22 | all-zero weights from some position on contribute nothing |
| Method00.ZeroWeightIrrelevant | accountvalidator/java/src/hx/bankcheck/accountvalidator/impl/Checksum00.java:44-54 | digits under weight 0 cannot change the check digit |
| Method00.QsSum00 | accountvalidator/java/src/hx/bankcheck/accountvalidator/impl/Checksum00.java:44-54 | under the method-00 weights the cross-sum total is the cross sums of the doubled 1st, 3rd, 5th, 7th and 9th digits plus the 2nd, 4th, 6th and 8th digits |
| Method00.QsSumPair | accountvalidator/java/src/hx/bankcheck/accountvalidator/impl/Checksum00.java:44-54 | weights 2 then 1 contribute a doubled digit's cross sum and the next digit |
| Method00.Method00Example9290701 | accountvalidator/java/src/hx/bankcheck/accountvalidator/impl/Checksum00.java:22 | the documented test number 9290701 is valid |
| Method00.Method00Example539290858 | accountvalidator/java/src/hx/bankcheck/accountvalidator/impl/Checksum00.java:22 | the documented test number 539290858 is valid |
| Method00.Method00Example1501824 | accountvalidator/java/src/hx/bankcheck/accountvalidator/impl/Checksum00.java:22 | the documented test number 1501824 is valid |
| Method00.Method00Example1501832 | accountvalidator/java/src/hx/bankcheck/accountvalidator/impl/Checksum00.java:22 | the documented test number 1501832 is valid |
| Method00.Valid60 | accountvalidator/java/src/hx/bankcheck/accountvalidator/impl/Checksum60.java:20-27 | method 60 is method 00 with the first two digits (the sub-account) unweighted |
| Method00.Method60IgnoresSubAccount | accountvalidator/java/src/hx/bankcheck/accountvalidator/impl/Checksum60.java:22 | numbers that differ only in the first two digits get the same method-60 verdict |
| Method00.Method60AgreesWith00 | accountvalidator/java/src/hx/bankcheck/accountvalidator/impl/Checksum60.java:20-27 | with a zero sub-account, method 60 and method 00 agree |
| Method00.Valid67 | accountvalidator/java/src/hx/bankcheck/accountvalidator/impl/Checksum67.java:26-33 | method 67 checks the 8th digit against the first seven, as in method 00 |
| Method00.Method67IgnoresSubAccount | accountvalidator/java/src/hx/bankcheck/accountvalidator/impl/Checksum67.java:24 | the last two digits (the sub-account) never change the method-67 verdict |
| Method56.Check56 | accountvalidator/java/src/hx/bankcheck/accountvalidator/impl/Checksum56.java:52-63 | remainder ≥ 2 gives the digit completing the sum to a multiple of 11; remainders 0/1 give 8/7 for a leading 9 and "no check digit" (-1) otherwise |
| Method56.CalcChecksum | accountvalidator/java/src/hx/bankcheck/accountvalidator/impl/Checksum56.java:52-63 | the loop with Java's `%` computes exactly that check digit |
| Method56.Validate | accountvalidator/java/src/hx/bankcheck/accountvalidator/impl/Checksum56.java:48-50 | valid iff the 10th digit is the check digit; a valid number never ends in 0, and without a leading 9 its full sum is a multiple of 11 |
| Method56.NoCheckDigitForLowRemainders | accountvalidator/java/src/hx/bankcheck/accountvalidator/impl/Checksum56.java:26-31 | remainders 0 and 1 reject every number not starting with 9 |
| Method56.Method56Example | accountvalidator/java/src/hx/bankcheck/accountvalidator/impl/Checksum56.java:18-24 | the documented example has sum 94 and check digit 5 |
| Method90.Mod11Digit | accountvalidator/java/src/hx/bankcheck/accountvalidator/Checksum90.java:199-205 | remainders 0 and 1 map to 0; otherwise the digit completes the sum to a multiple of 11 |
| Method90.Mod7Digit | accountvalidator/java/src/hx/bankcheck/accountvalidator/Checksum90.java:215-221 | a digit 0..6 completing the sum to a multiple of 7 |
| Method90.Mod9Digit | accountvalidator/java/src/hx/bankcheck/accountvalidator/Checksum90.java:223-229 | a digit 0..8 completing the sum to a multiple of 9 |
| Method90.Mod10Digit | accountvalidator/java/src/hx/bankcheck/accountvalidator/Checksum90.java:231-237 | a digit 0..9 completing the sum to a multiple of 10 |
| Method90.ByFlag | accountvalidator/java/src/hx/bankcheck/accountvalidator/Checksum90.java:168-181 | flags 0 to 4 select variants A to E and give a digit; any other flag gives -1 |
| Method90.Scan | accountvalidator/java/src/hx/bankcheck/accountvalidator/Checksum90.java:189-194 | the retry loop stops at the first variant whose digit matches and reports its flag; otherwise it rejects with flag 6 after every variant failed |
| Method90.Verdict90 | accountvalidator/java/src/hx/bankcheck/accountvalidator/Checksum90.java:186-197 | the number is padded to ten digits; a 9 in the third position goes to variant F alone, otherwise variants A to E are tried in order |
| Method90.Checksum90.constructor | accountvalidator/java/src/hx/bankcheck/accountvalidator/Checksum90.java:157 | a new validator starts at variant A |
| Method90.Checksum90.SumWindow | accountvalidator/java/src/hx/bankcheck/accountvalidator/Checksum90.java:199-245 | the weighted-sum loop of every variant computes the window sum |
| Method90.Checksum90.CalcChecksum | accountvalidator/java/src/hx/bankcheck/accountvalidator/Checksum90.java:163-183 | a 9 in the third position forces variant F and sets the flag to 5; otherwise the current flag picks the variant and is left alone |
| Method90.Checksum90.Validate | accountvalidator/java/src/hx/bankcheck/accountvalidator/Checksum90.java:186-197 | the verdict and the final method flag are exactly `Verdict90` |
| Method90.PaddingIrrelevant | accountvalidator/java/src/hx/bankcheck/accountvalidator/Checksum90.java:188-189 | padding a short number first gives the same verdict |
| Method90.NeverMethodBWhenFourthDigitZero | accountvalidator/java/src/hx/bankcheck/accountvalidator/Checksum90.java:199-213 | variants A and B coincide when the fourth digit is 0, so B never decides such a number |
| Method90.UnreachableCheckDigits | accountvalidator/java/src/hx/bankcheck/accountvalidator/Checksum90.java:215-229 | variant C never accepts a check digit 7 to 9, and variant D never accepts 9 |
| Method90.Method90ExampleA | accountvalidator/java/src/hx/bankcheck/accountvalidator/Checksum90.java:41-43 | 0001975641 is valid by variant A |
| Method90.Method90ExampleALowRemainder | accountvalidator/java/src/hx/bankcheck/accountvalidator/Checksum90.java:56-59 | 0000863530 is valid by variant A, whose remainder 1 maps to check digit 0 |
| Method90.Method90ExampleC | accountvalidator/java/src/hx/bankcheck/accountvalidator/Checksum90.java:77-80 | 0000654321 is valid by variant C |
| Method90.Method90ExampleD | accountvalidator/java/src/hx/bankcheck/accountvalidator/Checksum90.java:100-103 | 0000863536 is valid by variant D |
| Method90.Method90ExampleE | accountvalidator/java/src/hx/bankcheck/accountvalidator/Checksum90.java:120-121 | 0000996663 is valid by variant E |
| Method90.Method90ExampleF | accountvalidator/java/src/hx/bankcheck/accountvalidator/Checksum90.java:140-141 | 0099100002 is valid by variant F |
| Method90.Method90ExampleFRejected | accountvalidator/java/src/hx/bankcheck/accountvalidator/Checksum90.java:140-141 | 0099100007 is rejected, with flag 6 |
| Method90.Method90ExampleRejected | accountvalidator/java/src/hx/bankcheck/accountvalidator/Checksum90.java:41-43 | 0001924592 is rejected by every variant |
| Method90.Method90ExampleRejectedShort | accountvalidator/java/src/hx/bankcheck/accountvalidator/Checksum90.java:120-121 | 0000924591 is rejected by every variant |
| Method90.Method90ExampleShort | accountvalidator/java/src/hx/bankcheck/accountvalidator/Checksum90.java:188-189 | a six-digit input 654321 is padded and accepted by variant C |
| Method52.DropLeadingZeros | accountvalidator/java/src/hx/bankcheck/accountvalidator/impl/Checksum52.java:125-136 | the result is the input minus its zero prefix, and it starts with a non-zero digit or is empty |
| Method52.Eser | accountvalidator/java/src/hx/bankcheck/accountvalidator/impl/Checksum52.java:107-141 | the rebuilt ESER number has 12 digits; an account not of the form 00x… with x ≠ 0 is rejected with `IllegalAccountNumber` |
| Method52.EserIsPaddedSplice | accountvalidator/java/src/hx/bankcheck/accountvalidator/impl/Checksum52.java:107-141 | the rebuild succeeds exactly for 00x… with x ≠ 0 and is then the zero-filled splice: last four bank-code digits, 3rd and 4th account digits, the rest without leading zeros |
| Method52.KeptAll | accountvalidator/java/src/hx/bankcheck/accountvalidator/impl/Checksum52.java:125-136 | the digit-by-digit account loop keeps exactly the splice |
| Method52.ValueOfAppend | accountvalidator/java/src/hx/bankcheck/accountvalidator/impl/Checksum52.java:116-136 | appending a digit multiplies the value by ten and adds it, which is how the loops build the number |
| Method52.Slot | accountvalidator/java/src/hx/bankcheck/accountvalidator/impl/Checksum52.java:153-167 | the check-digit index is a position where the count of non-zero digits reaches the target; with no such position the earlier index stays |
| Method52.FactorSearch | accountvalidator/java/src/hx/bankcheck/accountvalidator/impl/Checksum52.java:86-91 | the factor loop returns the least factor below 11 that completes the sum to remainder 10, or -1 if none does |
| Method52.CheckDigit52 | accountvalidator/java/src/hx/bankcheck/accountvalidator/impl/Checksum52.java:80-92 | the check digit lies in -1..10, and unless it is -1, placing it under its weight gives a weighted sum with remainder 10 mod 11 |
| Method52.HitsIsRemainderTen | accountvalidator/java/src/hx/bankcheck/accountvalidator/impl/Checksum52.java:86-91 | the loop's stop condition means the sum with the factor has remainder 10 |
| Method52.FactorAlwaysFound | accountvalidator/java/src/hx/bankcheck/accountvalidator/impl/Checksum52.java:86-91 | for every offcut and every weight 1..10 the factor search succeeds, because 11 is prime |
| Method52.HitsByInverse | accountvalidator/java/src/hx/bankcheck/accountvalidator/impl/Checksum52.java:86-91 | the factor `r * w⁻¹ mod 11` satisfies the stop condition |
| Method52.Verdict52 | accountvalidator/java/src/hx/bankcheck/accountvalidator/impl/Checksum52.java:63-78 | a leading 9 goes to method 20; otherwise an account not of the ESER form is illegal, and the index stays in -1..11 |
| Method52.EserVerdict | accountvalidator/java/src/hx/bankcheck/accountvalidator/impl/Checksum52.java:63-92 | on a rebuilt number the verdict is a `Validation` error exactly when no check-digit index was ever found; with weights in 1..10 and an index found, the number is accepted exactly when its digit at the index, under its weight, brings the weighted sum of the reset number to remainder 10 mod 11 |
| Method52.OnlyCheckDigitHits | accountvalidator/java/src/hx/bankcheck/accountvalidator/impl/Checksum52.java:80-92 | with weights in 1..10, a digit that brings the weighted sum to remainder 10 is the computed check digit |
| Method52.FactorUnique | accountvalidator/java/src/hx/bankcheck/accountvalidator/impl/Checksum52.java:86-91 | since 11 is prime, two factors in 0..10 that both reach remainder 10 under a weight in 1..10 are equal |
| Method52.Checksum52.Default | accountvalidator/java/src/hx/bankcheck/accountvalidator/impl/Checksum52.java:48-50 | the default validator uses the method-52 weights and no index yet |
| Method52.Checksum52.constructor | accountvalidator/java/src/hx/bankcheck/accountvalidator/impl/Checksum52.java:52-54 | a validator with caller-supplied weights keeps them, with no index yet |
| Method52.Checksum52.GenerateEserAccountNumber | accountvalidator/java/src/hx/bankcheck/accountvalidator/impl/Checksum52.java:107-141 | the two loops produce exactly the ESER number, or the same rejection |
| Method52.Checksum52.ResetChecksumDigit | accountvalidator/java/src/hx/bankcheck/accountvalidator/impl/Checksum52.java:153-167 | the check digit is replaced by 0, and the stored index becomes the located slot, or keeps its old value |
| Method52.Checksum52.CalcChecksum | accountvalidator/java/src/hx/bankcheck/accountvalidator/impl/Checksum52.java:80-92 | the weighted sum and factor search give exactly the check digit |
| Method52.Checksum52.Validate | accountvalidator/java/src/hx/bankcheck/accountvalidator/impl/Checksum52.java:63-78 | the result and the new stored index are exactly `Verdict52` of the inputs and the old index |
| Method52.CheckDigitAlwaysFound | accountvalidator/java/src/hx/bankcheck/accountvalidator/impl/Checksum52.java:80-92 | with weights in 1..10 the check digit is never -1 |
| Method52.MissingSlotKeepsEarlierIndex | accountvalidator/java/src/hx/bankcheck/accountvalidator/impl/Checksum52.java:71-76 | when no position reaches the target, a stale index from an earlier call is used, and only an index never set raises `Validation` |
| Method52.CountZeros | accountvalidator/java/src/hx/bankcheck/accountvalidator/impl/Checksum52.java:153-167 | within a zero prefix the non-zero count stays 0 |
| Method52.CountRun | accountvalidator/java/src/hx/bankcheck/accountvalidator/impl/Checksum52.java:153-167 | after a zero prefix of length n, a run of non-zero digits counts up one by one |
| Method52.CountMono | accountvalidator/java/src/hx/bankcheck/accountvalidator/impl/Checksum52.java:153-167 | the non-zero count never decreases along the number |
| Method52.CountsAroundSlot | accountvalidator/java/src/hx/bankcheck/accountvalidator/impl/Checksum52.java:153-167 | after leading zeros, six non-zero digits and one more non-zero digit, the count of non-zero digits is 6 at the sixth of them and nowhere else |
| Method52.SpliceCounts | accountvalidator/java/src/hx/bankcheck/accountvalidator/impl/Checksum52.java:153-167 | in a zero-filled splice whose first seven digits are non-zero, the count reaches 6 exactly at the 6th spliced digit |
| Method52.SlotOfSplice | accountvalidator/java/src/hx/bankcheck/accountvalidator/impl/Checksum52.java:153-167 | in a filled splice whose first seven digits are non-zero, the slot is the sixth significant digit |
| Method52.SlotIsFourthAccountDigit | accountvalidator/java/src/hx/bankcheck/accountvalidator/impl/Checksum52.java:8-40 | with a non-zero bank suffix and non-zero 3rd and 4th account digits, the check digit sits where the 4th account digit went |
| Method52.FullRestVerdict | accountvalidator/java/src/hx/bankcheck/accountvalidator/impl/Checksum52.java:63-92 | with no leading zeros to drop, the verdict compares the 4th account digit with the check digit of the splice at index 5 |
| Method52.TwoZerosDroppedVerdict | accountvalidator/java/src/hx/bankcheck/accountvalidator/impl/Checksum52.java:125-167 | when two zeros are dropped, the splice is shifted right and the check digit moves to index 7 |
| Method52.Method52ExampleShortRest | accountvalidator/java/src/hx/bankcheck/accountvalidator/impl/Checksum52.java:125-167 | account 0043001500 at bank 13051172 is accepted, with check-digit index 7 |
| Method52.Method52ExampleFullRest | accountvalidator/java/src/hx/bankcheck/accountvalidator/impl/Checksum52.java:63-92 | account 0048726458 at bank 13051172 is accepted, with index 5 |
| Method52.Method52ExampleRejected | accountvalidator/java/src/hx/bankcheck/accountvalidator/impl/Checksum52.java:63-92 | account 0082335729 at bank 13051172 is rejected: its check digit is 4, not 2 |
| Method52.Method52ExampleRejected29837521 | accountvalidator/java/src/hx/bankcheck/accountvalidator/impl/ChecksumC0.java:27 | account 0029837521 at bank 13051172 is rejected: its check digit is 8, not 9 |
| Method52.SlotSkipsZeroSixthDigit | accountvalidator/java/src/hx/bankcheck/accountvalidator/impl/Checksum52.java:153-167 | account 0040123456 at bank 13051172: the 6th ESER digit is the account's 4th digit, which is 0, so the counted slot is index 6, not 5; the number is rejected |
| Method52.SlotDisagreesWithSixthDigitRule | accountvalidator/java/src/hx/bankcheck/accountvalidator/impl/Checksum52.java:17-18 | account 0040100004 at bank 13051172: the ESER number's 6th digit is 0 and its weighted sum has remainder 10, as the class comment's rule asks, yet the code's slot is index 10 and it rejects the number |
| MethodC1.CheckDigitC1 | accountvalidator/java/src/hx/bankcheck/accountvalidator/impl/ChecksumC1.java:96-107 | for a positive sum, a digit completing the sum to a multiple of 11, or 0 when the remainder is 1; Java's negative remainder makes a zero sum give 11 |
| MethodC1.RemainderOfPredecessor | accountvalidator/java/src/hx/bankcheck/accountvalidator/impl/ChecksumC1.java:106 | Java's `(sum - 1) % 11` in terms of `sum % 11`, including -1 for sum 0 |
| Utils.DoubledDigitSum | accountvalidator/java/src/hx/bankcheck/accountvalidator/impl/ChecksumC1.java:99-101 | the cross sum of a doubled digit is the double, less 9 once it reaches 10 |
| MethodC1.LeadingFiveGivesDigit | accountvalidator/java/src/hx/bankcheck/accountvalidator/impl/ChecksumC1.java:86-94 | numbers routed to variant 2 (leading 5) always get a check digit in 0..9 |
| MethodC1.SumC1AtLeastFirst | accountvalidator/java/src/hx/bankcheck/accountvalidator/impl/ChecksumC1.java:96-105 | the sum is at least the first digit |
| MethodC1.VerdictC1 | accountvalidator/java/src/hx/bankcheck/accountvalidator/impl/ChecksumC1.java:86-94 | no leading 5: method 17 with alternative 0; leading 5: the 10th digit against the check digit, alternative 1 |
| MethodC1.VariantTwoAccepts | accountvalidator/java/src/hx/bankcheck/accountvalidator/impl/ChecksumC1.java:86-107 | variant 2 accepts exactly when sum plus 10th digit is a multiple of 11, or the digit is 0 when the remainder is 1 |
| MethodC1.DistinctDigitsModEleven | accountvalidator/java/src/hx/bankcheck/accountvalidator/impl/ChecksumC1.java:106 | two digits congruent mod 11 are equal, so the check digit is unique |
| MethodC1.ChecksumC1.constructor | accountvalidator/java/src/hx/bankcheck/accountvalidator/impl/ChecksumC1.java:74 | a new validator starts at alternative 0 |
| MethodC1.ChecksumC1.CalcChecksum | accountvalidator/java/src/hx/bankcheck/accountvalidator/impl/ChecksumC1.java:96-107 | the loop computes exactly the check digit |
| MethodC1.ChecksumC1.Validate | accountvalidator/java/src/hx/bankcheck/accountvalidator/impl/ChecksumC1.java:86-94 | the verdict and alternative are exactly `VerdictC1` |
| MethodC1.MethodC1Example5432112349 | accountvalidator/java/tests/hx/bankcheck/accountvalidator/ChecksumC1Test.java:42-50 | 543211234p has sum 35 and is valid exactly for p = 9 |
| MethodC1.MethodC1Example5543223456 | accountvalidator/java/tests/hx/bankcheck/accountvalidator/ChecksumC1Test.java:43-52 | 554322345p is valid exactly for p = 6 |
| MethodC1.MethodC1Example5654334563 | accountvalidator/java/tests/hx/bankcheck/accountvalidator/ChecksumC1Test.java:44-54 | 565433456p is valid exactly for p = 3 |
| MethodC1.MethodC1Example5765445670 | accountvalidator/java/tests/hx/bankcheck/accountvalidator/ChecksumC1Test.java:45-56 | 576544567p is valid exactly for p = 0 |
| MethodC1.MethodC1Example5876556788 | accountvalidator/java/tests/hx/bankcheck/accountvalidator/ChecksumC1Test.java:46-58 | 587655678p is valid exactly for p = 8 |
| Alternatives.VerdictC0 | accountvalidator/java/src/hx/bankcheck/accountvalidator/impl/ChecksumC0.java:59-75 | an all-zero number fails while counting zeros and keeps the alternative; two leading zeros try method 52, and its acceptance means alternative 0; otherwise method 20 with the second weights decides, with alternative 1; an ESER error surfaces as `Validation` |
| Alternatives.ChecksumC0.constructor | accountvalidator/java/src/hx/bankcheck/accountvalidator/impl/ChecksumC0.java:50 | a new validator starts at alternative 0 |
| Alternatives.ChecksumC0.Validate | accountvalidator/java/src/hx/bankcheck/accountvalidator/impl/ChecksumC0.java:59-75 | the result and the new alternative are exactly `VerdictC0` of the inputs and the old alternative |
| Alternatives.C0FirstVariantIsMethod52 | accountvalidator/java/src/hx/bankcheck/accountvalidator/impl/ChecksumC0.java:45-48 | C0's first weights make its first variant exactly method 52 |
| Alternatives.C0TwoLeadingZerosDecide | accountvalidator/java/src/hx/bankcheck/accountvalidator/impl/ChecksumC0.java:59-75 | for an ESER-form number with non-zero bank suffix, the first variant compares the 4th digit with the method-52 check digit |
| Alternatives.C0Accepts0043001500 | accountvalidator/java/src/hx/bankcheck/accountvalidator/impl/ChecksumC0.java:26 | account 0043001500 at bank 13051172 is accepted by the first variant (alternative 0) |
| Alternatives.C0Accepts0048726458 | accountvalidator/java/src/hx/bankcheck/accountvalidator/impl/ChecksumC0.java:26 | account 0048726458 at bank 13051172 is accepted by the first variant (alternative 0) |
| Alternatives.C0Delegates0082335729 | accountvalidator/java/src/hx/bankcheck/accountvalidator/impl/ChecksumC0.java:27 | account 0082335729 at bank 13051172 fails the first variant, so method 20 decides (alternative 1) |
| Alternatives.C0Delegates0029837521 | accountvalidator/java/src/hx/bankcheck/accountvalidator/impl/ChecksumC0.java:27 | account 0029837521 at bank 13051172 fails the first variant, so method 20 decides (alternative 1) |
| Alternatives.VerdictB8 | accountvalidator/java/src/hx/bankcheck/accountvalidator/impl/ChecksumB8.java:45-53 | method 20 with B8's weights, else method 29; alternative 0 exactly when the first accepts |
| Alternatives.ChecksumB8.constructor | accountvalidator/java/src/hx/bankcheck/accountvalidator/impl/ChecksumB8.java:34 | a new validator starts at alternative 0 |
| Alternatives.ChecksumB8.Validate | accountvalidator/java/src/hx/bankcheck/accountvalidator/impl/ChecksumB8.java:45-53 | the verdict and alternative are exactly `VerdictB8` |
| Alternatives.VerdictC2 | accountvalidator/java/src/hx/bankcheck/accountvalidator/impl/ChecksumC2.java:52-60 | method 01 with C2's weights, else method 00 with the second weights |
| Alternatives.ChecksumC2.constructor | accountvalidator/java/src/hx/bankcheck/accountvalidator/impl/ChecksumC2.java:37 | a new validator starts at alternative 0 |
| Alternatives.ChecksumC2.Validate | accountvalidator/java/src/hx/bankcheck/accountvalidator/impl/ChecksumC2.java:52-60 | the verdict and alternative are exactly `VerdictC2` |
| Alternatives.C2SecondVariantIsMethod00 | accountvalidator/java/src/hx/bankcheck/accountvalidator/impl/ChecksumC2.java:40-43 | C2's second variant is plain method 00 |
| Alternatives.VerdictA2 | accountvalidator/java/src/hx/bankcheck/accountvalidator/impl/ChecksumA2.java:46-54 | method 00, else method 04 |
| Alternatives.ChecksumA2.constructor | accountvalidator/java/src/hx/bankcheck/accountvalidator/impl/ChecksumA2.java:38 | a new validator starts at alternative 0 |
| Alternatives.ChecksumA2.Validate | accountvalidator/java/src/hx/bankcheck/accountvalidator/impl/ChecksumA2.java:46-54 | the verdict and alternative are exactly `VerdictA2` |
| Alternatives.VerdictA3 | accountvalidator/java/src/hx/bankcheck/accountvalidator/impl/ChecksumA3.java:48-56 | method 00, else method 10 |
| Alternatives.ChecksumA3.constructor | accountvalidator/java/src/hx/bankcheck/accountvalidator/impl/ChecksumA3.java:40 | a new validator starts at alternative 0 |
| Alternatives.ChecksumA3.Validate | accountvalidator/java/src/hx/bankcheck/accountvalidator/impl/ChecksumA3.java:48-56 | the verdict and alternative are exactly `VerdictA3` |
| Alternatives.VerdictA7 | accountvalidator/java/src/hx/bankcheck/accountvalidator/impl/ChecksumA7.java:38-46 | method 00, else method 03 |
| Alternatives.ChecksumA7.constructor | accountvalidator/java/src/hx/bankcheck/accountvalidator/impl/ChecksumA7.java:35 | a new validator starts at alternative 0 |
| Alternatives.ChecksumA7.Validate | accountvalidator/java/src/hx/bankcheck/accountvalidator/impl/ChecksumA7.java:38-46 | the verdict and alternative are exactly `VerdictA7` |
| Alternatives.VerdictA9 | accountvalidator/java/src/hx/bankcheck/accountvalidator/impl/ChecksumA9.java:44-52 | method 01, else method 06 |
| Alternatives.ChecksumA9.constructor | accountvalidator/java/src/hx/bankcheck/accountvalidator/impl/ChecksumA9.java:36 | a new validator starts at alternative 0 |
| Alternatives.ChecksumA9.Validate | accountvalidator/java/src/hx/bankcheck/accountvalidator/impl/ChecksumA9.java:44-52 | the verdict and alternative are exactly `VerdictA9` |
| Alternatives.SharedFirstVariant | accountvalidator/java/src/hx/bankcheck/accountvalidator/impl/ChecksumA2.java:46-54 | A2, A3 and A7 accept every method-00 number with alternative 0, and differ only in the fallback they consult otherwise |
| Alternatives.VerdictD2 | accountvalidator/java/src/hx/bankcheck/accountvalidator/impl/ChecksumD2.java:57-69 | method 95 (alternative 0), else method 00 (alternative 1), else method 68, which leaves the alternative as it was |
| Alternatives.ChecksumD2.constructor | accountvalidator/java/src/hx/bankcheck/accountvalidator/impl/ChecksumD2.java:48 | a new validator starts at alternative 0 |
| Alternatives.ChecksumD2.Validate | accountvalidator/java/src/hx/bankcheck/accountvalidator/impl/ChecksumD2.java:57-69 | the verdict and new alternative are exactly `VerdictD2` of the inputs and the old alternative |
| Alternatives.D2AlternativeDependsOnHistory | accountvalidator/java/src/hx/bankcheck/accountvalidator/impl/ChecksumD2.java:66 | in the third variant two validators with different histories agree on validity but report different alternatives |
| Alternatives.VerdictC3 | accountvalidator/java/src/hx/bankcheck/accountvalidator/impl/ChecksumC3.java:51-59 | a leading 9 uses method 58 (alternative 1); otherwise method 00 (alternative 0) |
| Alternatives.ChecksumC3.constructor | accountvalidator/java/src/hx/bankcheck/accountvalidator/impl/ChecksumC3.java:42 | a new validator starts at alternative 0 |
| Alternatives.ChecksumC3.Validate | accountvalidator/java/src/hx/bankcheck/accountvalidator/impl/ChecksumC3.java:51-59 | the verdict and alternative are exactly `VerdictC3` |
| Alternatives.VerdictC4 | accountvalidator/java/src/hx/bankcheck/accountvalidator/impl/ChecksumC4.java:54-62 | a leading 9 uses method 58 (alternative 1); otherwise method 15 (alternative 0) |
| Alternatives.ChecksumC4.constructor | accountvalidator/java/src/hx/bankcheck/accountvalidator/impl/ChecksumC4.java:45 | a new validator starts at alternative 0 |
| Alternatives.ChecksumC4.Validate | accountvalidator/java/src/hx/bankcheck/accountvalidator/impl/ChecksumC4.java:54-62 | the verdict and alternative are exactly `VerdictC4` |
| Alternatives.C3AndC4AgreeOnNine | accountvalidator/java/src/hx/bankcheck/accountvalidator/impl/ChecksumC4.java:54-62 | on numbers with a leading 9, C3 and C4 give the same verdict |
| Alternatives.VerdictD0 | accountvalidator/java/src/hx/bankcheck/accountvalidator/impl/ChecksumD0.java:49-57 | numbers starting 57 use method 09 (alternative 1); all others method 20 (alternative 0) |
| Alternatives.ChecksumD0.constructor | accountvalidator/java/src/hx/bankcheck/accountvalidator/impl/ChecksumD0.java:40 | a new validator starts at alternative 0 |
| Alternatives.ChecksumD0.Validate | accountvalidator/java/src/hx/bankcheck/accountvalidator/impl/ChecksumD0.java:49-57 | the verdict and alternative are exactly `VerdictD0` |
| Alternatives.D0AcceptsEvery57 | accountvalidator/java/tests/hx/bankcheck/accountvalidator/impl/Checksum09Test.java:20-30 | as method 09 accepts every number, D0 accepts every number starting 57 |
| Alternatives.Verdict81 | accountvalidator/java/src/hx/bankcheck/accountvalidator/impl/Checksum81.java:46-53 | a 9 in the third position uses method 51 and raises the exception flag; otherwise method 32 with 81's weights, flag unchanged |
| Alternatives.Checksum81.constructor | accountvalidator/java/src/hx/bankcheck/accountvalidator/impl/Checksum81.java:35 | a new validator has the exception flag down |
| Alternatives.Checksum81.Validate | accountvalidator/java/src/hx/bankcheck/accountvalidator/impl/Checksum81.java:46-53 | the verdict and new flag are exactly `Verdict81` of the inputs and the old flag |
| Alternatives.Flag81Sticky | accountvalidator/java/src/hx/bankcheck/accountvalidator/impl/Checksum81.java:48 | over any sequence of calls the flag is up exactly when it started up or some call saw a 9 in the third position: it is never cleared |
| Alternatives.C3Accepts9294182 | accountvalidator/java/src/hx/bankcheck/accountvalidator/impl/ChecksumC3.java:26 | 9294182, which does not start with 9, is valid by method 00 (alternative 0) |
| Alternatives.C3Accepts4431276 | accountvalidator/java/src/hx/bankcheck/accountvalidator/impl/ChecksumC3.java:26 | 4431276, which does not start with 9, is valid by method 00 (alternative 0) |
| Alternatives.C3Accepts19919 | accountvalidator/java/src/hx/bankcheck/accountvalidator/impl/ChecksumC3.java:26 | 19919, which does not start with 9, is valid by method 00 (alternative 0) |
| Alternatives.C3Rejects17002 | accountvalidator/java/src/hx/bankcheck/accountvalidator/impl/ChecksumC3.java:27 | 17002 is invalid by method 00 (alternative 0) |
| Alternatives.C3Rejects123451 | accountvalidator/java/src/hx/bankcheck/accountvalidator/impl/ChecksumC3.java:27 | 123451 is invalid by method 00 (alternative 0) |
| Alternatives.C3Rejects122448 | accountvalidator/java/src/hx/bankcheck/accountvalidator/impl/ChecksumC3.java:27 | 122448 is invalid by method 00 (alternative 0) |
| Alternatives.A2Accepts3456789019 | accountvalidator/java/src/hx/bankcheck/accountvalidator/impl/ChecksumA2.java:22 | 3456789019 is valid by method 00 (alternative 0) |
| Alternatives.A2Accepts5678901231 | accountvalidator/java/src/hx/bankcheck/accountvalidator/impl/ChecksumA2.java:22 | 5678901231 is valid by method 00 (alternative 0) |
| Alternatives.A2Accepts6789012348 | accountvalidator/java/src/hx/bankcheck/accountvalidator/impl/ChecksumA2.java:22 | 6789012348 is valid by method 00 (alternative 0) |
| Alternatives.A2Delegates3456789012 | accountvalidator/java/src/hx/bankcheck/accountvalidator/impl/ChecksumA2.java:23 | 3456789012 fails method 00, so method 04 decides (alternative 1) |
| Alternatives.A3Accepts1234567897 | accountvalidator/java/src/hx/bankcheck/accountvalidator/impl/ChecksumA3.java:22 | 1234567897 is valid by method 00 (alternative 0) |
| Alternatives.A3Accepts0123456782 | accountvalidator/java/src/hx/bankcheck/accountvalidator/impl/ChecksumA3.java:22 | 0123456782 is valid by method 00 (alternative 0) |
| Alternatives.A3Delegates9876543210 | accountvalidator/java/src/hx/bankcheck/accountvalidator/impl/ChecksumA3.java:23 | 9876543210 fails method 00, so method 10 decides (alternative 1) |
| Alternatives.A7Accepts19010008 | accountvalidator/java/src/hx/bankcheck/accountvalidator/impl/ChecksumA7.java:19 | 19010008 is valid by method 00 (alternative 0) |
| Alternatives.A7Accepts19010438 | accountvalidator/java/src/hx/bankcheck/accountvalidator/impl/ChecksumA7.java:19 | 19010438 is valid by method 00 (alternative 0) |
| Alternatives.A7Delegates19010660 | accountvalidator/java/src/hx/bankcheck/accountvalidator/impl/ChecksumA7.java:20 | 19010660 fails method 00, so method 03 decides (alternative 1) |
| Alternatives.C2Accepts5127485166 | accountvalidator/java/src/hx/bankcheck/accountvalidator/impl/ChecksumC2.java:30 | 5127485166 passes the second variant, so C2 accepts it whatever method 01 answers |
| Alternatives.C2Accepts8738142564 | accountvalidator/java/src/hx/bankcheck/accountvalidator/impl/ChecksumC2.java:30 | 8738142564 passes the second variant, so C2 accepts it whatever method 01 answers |
| Alternatives.C2Delegates0328705282 | accountvalidator/java/src/hx/bankcheck/accountvalidator/impl/ChecksumC2.java:31 | 0328705282 fails the second variant, so C2 answers what method 01 answers |
| Alternatives.D2Accepts4455667784 | accountvalidator/java/src/hx/bankcheck/accountvalidator/impl/ChecksumD2.java:30 | 4455667784 passes the second variant, so D2 accepts it whatever methods 95 and 68 answer |
| Alternatives.D2Accepts1234567897 | accountvalidator/java/src/hx/bankcheck/accountvalidator/impl/ChecksumD2.java:30 | 1234567897 passes the second variant, so D2 accepts it whatever methods 95 and 68 answer |
| Alternatives.D2Delegates51181008 | accountvalidator/java/src/hx/bankcheck/accountvalidator/impl/ChecksumD2.java:31 | 51181008 fails the second variant, so when method 95 rejects it method 68 decides and the alternative stays as it was |

## Left out

- The sub-methods 01, 03, 04, 06, 09, 10, 15, 17, 20, 29, 32, 51, 58, 68 and
  95 are not part of this model. They are the `ext` parameter, and any
  exception they throw is not modelled.
- `AbstractChecksumValidator` is not part of this model. The model assumes a
  new validator's `alternative` starts at 0; the `constructor` of each class
  states it.
- Getters, setters and logging are left out, because they carry no logic.
- Utils.ParseLong: Java's `long` wraps around beyond 18 digits; the model
  uses unbounded naturals, so it gives the true value there.
- Utils.ParseAccountNumber, Utils.ParseBlz, Utils.ParseEserAccountNumber:
  negative inputs are left out (the argument is a `nat`), because account
  numbers and bank codes are never negative.
- Method52.Verdict52, Method52.Checksum52.Validate and
  Alternatives.VerdictC0: they require a ten-digit account, a bank code of at
  least four digits and twelve weights. Callers pass the ten digits that
  `parseAccountNumber` returns and the eight that `parseBlz` returns, and
  other lengths are not modelled.
- Method00.Checksum00.CalcChecksum requires at least as many digits as
  weights. Shorter arrays make Java throw, which is not modelled.
- Method52.CheckDigit52 is stated for weights that fit the number. Index
  errors on shorter weight arrays are not modelled.
- Method90.Verdict90 requires at least one digit. Java reads the last digit
  of the unpadded array, and an empty array makes it throw.
- Method52.Slot follows the code, not the class comment
  (`Checksum52.java:17-18`), which places the check digit at the 6th ESER
  digit. The code counts non-zero digits (`Checksum52.java:153-167`). When
  the 6th digit is 0 the two disagree: Method52.SlotSkipsZeroSixthDigit
  shows the slot moving to index 6, and
  Method52.SlotDisagreesWithSixthDigitRule shows a number the comment's rule
  accepts and the code rejects.
- Alternatives.VerdictD2: in the third variant the alternative keeps its old
  value. This follows the code at `ChecksumD2.java:66`, which never sets it.
