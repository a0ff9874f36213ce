/**
 * The check-digit methods that the modelled dispatchers call but whose
 * code is not part of this model (01, 03, 04, 06, 09, 10, 15, 17, 20, 29,
 * 32, 51, 58, 68, 95), and the two ways a dispatcher chains methods.
 *
 * Every such method is taken as a stateless function of its weights and
 * the account number (the alternative or flag such a method may record is
 * not seen by the caller), so all of them are represented by one
 * parameter `ext: Oracle`:
 * `ext(m, None, a)` is method m with its own default weights applied to
 * a, `ext(m, Some(w), a)` the same method constructed with weights w.
 */
module SubMethods {
  import opened Utils

  datatype SubMethod =
    | M01 | M03 | M04 | M06 | M09 | M10 | M15 | M17 | M20
    | M29 | M32 | M51 | M58 | M68 | M95

  type Oracle = (SubMethod, Option<seq<nat>>, seq<Digit>) -> bool

  /**
   * The answer of a dispatcher: whether the number is accepted, and the
   * value its `alternative` field holds afterwards (0 = first variant,
   * 1 = second variant).
   */
  datatype Verdict = Verdict(valid: bool, alternative: int)

  /**
   * Fallback chain: the second variant is consulted only when the first
   * rejects; the alternative names the variant that decided.
   */
  function Fallback(first: bool, second: bool): (v: Verdict)
    ensures v.valid <==> first || second
    ensures v.alternative == 0 <==> first
    ensures v.alternative == 1 <==> !first
  {
    if first then Verdict(true, 0) else Verdict(second, 1)
  }

  /**
   * Exclusive routing: a property of the number selects one variant,
   * whose answer is final; the alternative names the selected variant.
   */
  function Route(useSecond: bool, first: bool, second: bool): (v: Verdict)
    ensures !useSecond ==> v.alternative == 0 && (v.valid <==> first)
    ensures useSecond ==> v.alternative == 1 && (v.valid <==> second)
  {
    if useSecond then Verdict(second, 1) else Verdict(first, 0)
  }
}
