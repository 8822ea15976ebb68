/** Math.round over exact rationals: the nearest integer, halves going up. */
module Rounding {
  function Round(x: real): int {
    (x + 0.5).Floor
  }

  /** An amount of dollars at a rate, in whole naira. */
  function ToNaira(usd: real, fxRate: real): int {
    Round(usd * fxRate)
  }

  lemma RoundNearest(x: real)
    ensures x - 0.5 < Round(x) as real <= x + 0.5
  {
  }

  /** A rounded whole-number shift is the shift of the rounding. */
  lemma RoundShift(x: real, n: int)
    ensures Round(x + n as real) == Round(x) + n
  {
  }

  /** Rounding a number and its negation cancel, except on a half. */
  lemma RoundNegation(x: real)
    ensures Round(x) + Round(-x) == if x + 0.5 == Round(x) as real then 1 else 0
  {
  }
}
