/** Squares of reals, shared by the path and the camera models. */
module Squares {

  /** The identity; see `Sq`. */
  function Self(x: real): real {
    x
  }

  /**
   * `x` squared. The second factor goes through `Self` so that the solver keeps
   * the square as an ordinary product of two terms, which it reasons about
   * more reliably than a power.
   */
  function Sq(x: real): real {
    x * Self(x)
  }

  lemma SquarePositive(t: real)
    requires t != 0.0
    ensures Sq(t) > 0.0
  {
  }

  lemma SquareNonNegative(t: real)
    ensures Sq(t) >= 0.0
  {
  }

  lemma SquareOfNegation(t: real)
    ensures Sq(-t) == Sq(t)
  {
  }
}
