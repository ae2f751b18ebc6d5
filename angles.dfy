/**
 * Trigonometry as seen by the model.  The source calls the platform's
 * `sin`, `cos` and `sqrt` on floats; none of them has a definition here, so
 * they enter every member that needs them as function-typed parameters.
 */
module Angles {

  /** Sine and cosine of an angle given in DEGREES (the source converts
      degrees to radians with `deg / 180 * PI` right before each call). */
  datatype Trig = Trig(sin: real -> real, cos: real -> real)

  /** `x * y`.  Squares are written `Times(x, x)` in the proofs below, so
      that a fact about a square is stated once and reused as it is. */
  function Times(x: real, y: real): real
  {
    x * y
  }

  /** Products of two numbers of the same sign are positive. */
  lemma TimesSameSign(x: real, y: real)
    requires (x > 0.0 && y > 0.0) || (x < 0.0 && y < 0.0)
    ensures Times(x, y) > 0.0
  {
  }

  /** A square is not negative, and positive unless its root is 0. */
  lemma TimesSelf(x: real)
    ensures Times(x, x) >= 0.0
    ensures x != 0.0 ==> Times(x, x) > 0.0
  {
    if x != 0.0 {
      TimesSameSign(x, x);
    }
  }

  /** The properties of a real square root that the look-at construction
      relies on: non-negative, and squaring gives back the argument. */
  ghost predicate IsSqrt(sqrt: real -> real)
  {
    forall v :: 0.0 <= v ==> 0.0 <= sqrt(v) && sqrt(v) * sqrt(v) == v
  }

  /** The one property of `sqrt` the look-at construction needs in order to
      divide by it: positive on positive arguments. */
  ghost predicate PositiveOnPositive(sqrt: real -> real)
  {
    forall v :: 0.0 < v ==> 0.0 < sqrt(v)
  }

  lemma SqrtIsPositiveOnPositive(sqrt: real -> real)
    requires IsSqrt(sqrt)
    ensures PositiveOnPositive(sqrt)
  {
    forall v | 0.0 < v
      ensures 0.0 < sqrt(v)
    {
      if sqrt(v) == 0.0 {
        assert false;
      }
    }
  }
}
