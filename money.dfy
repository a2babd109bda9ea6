/**
 * Money arithmetic of the finance pages. Amounts are exact `real`s; the pages
 * round only for display, with JavaScript's `Math.round`, which rounds halves
 * up (towards +infinity): 2.5 becomes 3 and -2.5 becomes -2.
 */
module Money {

  /** `Math.round(x)`: the integer nearest to `x`, halves going up. */
  function Round(x: real): (r: int)
    ensures r as real <= x + 0.5 < r as real + 1.0
  {
    (x + 0.5).Floor
  }

  /** `x` is a whole number of cents. */
  predicate WholeCents(x: real) {
    (x * 100.0).Floor as real == x * 100.0
  }

  /** `Math.round(x * 100) / 100`: `x` rounded to whole cents. */
  function RoundCents(x: real): (r: real)
    ensures x - 0.005 < r <= x + 0.005
    ensures WholeCents(r)
  {
    Round(x * 100.0) as real / 100.0
  }

  /** Rounding never reverses the order of two amounts. */
  lemma RoundMonotone(x: real, y: real)
    requires x <= y
    ensures Round(x) <= Round(y)
  {
  }

  /** A non-negative amount rounds to a non-negative integer. */
  lemma RoundNonNegative(x: real)
    requires x >= 0.0
    ensures Round(x) >= 0
  {
  }

  /** Whole numbers are left as they are. */
  lemma RoundInteger(n: int)
    ensures Round(n as real) == n
  {
  }
}
