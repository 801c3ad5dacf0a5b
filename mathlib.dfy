/** The few facts about the C math library that the model relies on.

    `sqrtf`, `cosf` and `sinf` are not computed here: every operation that uses
    them takes them as function-valued parameters, and its precondition states
    the one property it needs of them (exact square roots, cos² + sin² = 1).
    Floating-point rounding is not modelled: `GLfloat` becomes `real`. */
module MathLib {

  /** The identity; `Sq` multiplies by it so the solver keeps the sign facts of `a * a`. */
  function Same(a: real): real {
    a
  }

  /** The square of `a`. */
  function Sq(a: real): real {
    a * Same(a)
  }

  /** `sqrt` is the exact non-negative square root on non-negative arguments. */
  ghost predicate IsSqrt(sqrt: real -> real) {
    forall m :: m >= 0.0 ==> sqrt(m) >= 0.0 && Sq(sqrt(m)) == m
  }

  /** `cos` and `sin` satisfy the Pythagorean identity at every angle. */
  ghost predicate IsTrig(cos: real -> real, sin: real -> real) {
    forall a :: Sq(cos(a)) + Sq(sin(a)) == 1.0
  }

  function Abs(r: real): real {
    if r < 0.0 then -r else r
  }

  /** `r` lies in the closed interval spanned by `a` and `b`, whichever is larger. */
  predicate Between(r: real, a: real, b: real) {
    (a <= r <= b) || (b <= r <= a)
  }

  /** A product is zero only when a factor is. */
  lemma MulZero(a: real, b: real)
    requires a * b == 0.0
    ensures a == 0.0 || b == 0.0
  {
  }

  lemma MulPositive(a: real, b: real)
    requires a > 0.0 && b > 0.0
    ensures a * b > 0.0
  {
  }

  lemma MulNonNegative(a: real, b: real)
    requires a >= 0.0 && b >= 0.0
    ensures a * b >= 0.0
  {
  }

  /** A square is never negative. */
  lemma SquareNonNegative(a: real)
    ensures Sq(a) >= 0.0
  {
  }

  /** A non-zero number has a positive square. */
  lemma SquarePositive(a: real)
    requires a != 0.0
    ensures Sq(a) > 0.0
  {
  }

  /** Squaring distributes over products. */
  lemma SquareProduct(a: real, b: real)
    ensures Sq(a * b) == Sq(a) * Sq(b)
  {
  }

  /** The square root of a positive number is positive, so dividing by it is defined. */
  lemma SqrtPositive(sqrt: real -> real, m: real)
    requires IsSqrt(sqrt)
    requires m > 0.0
    ensures sqrt(m) > 0.0
  {
    assert sqrt(m) >= 0.0 && Sq(sqrt(m)) == m;
  }

  /** The square root of 1 is 1. */
  lemma SqrtOne(sqrt: real -> real)
    requires IsSqrt(sqrt)
    ensures sqrt(1.0) == 1.0
  {
    var s := sqrt(1.0);
    assert s >= 0.0 && Sq(s) == 1.0;
    assert (s - 1.0) * (s + 1.0) == Sq(s) - 1.0;
    MulZero(s - 1.0, s + 1.0);
  }

  /** Multiplying by a non-negative factor keeps an inequality. */
  lemma MulLeq(a: int, b: int, c: int)
    requires a <= b && c >= 0
    ensures a * c <= b * c
  {
    assert b * c - a * c == (b - a) * c;
  }

  /** A strict step a < b gives a*c + c <= b*c for a non-negative factor c. */
  lemma MulStep(a: int, b: int, c: int)
    requires c >= 0
    ensures a < b ==> a * c + c <= b * c
  {
    if a < b {
      MulLeq(a + 1, b, c);
    }
  }

  /** Dividing by a positive number keeps a strict upper bound. */
  lemma DivLess(a: real, s: real, c: real)
    requires s > 0.0 && a < c * s
    ensures a / s < c
  {
    assert (a / s) * s == a;
  }

  /** Dividing by a positive number keeps a lower bound. */
  lemma DivAtLeast(a: real, s: real, c: real)
    requires s > 0.0 && a >= c * s
    ensures a / s >= c
  {
    assert (a / s) * s == a;
  }
}
