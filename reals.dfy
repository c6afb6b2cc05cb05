/** Facts about real arithmetic and square roots that the vector algebra relies on.

    The source takes square roots through `f64::hypot` and `f64::sqrt`, calls into the
    platform's maths library. The model receives that library routine as a parameter
    `sqrt: real -> real`; `IsSqrt` is what the properties assume of it. Squares are
    written with `Square` so that the solver treats them as single terms. */
module Reals {

  function Square(x: real): real
  {
    x * x
  }

  /** `sqrt` returns the non-negative square root of every non-negative argument. */
  ghost predicate IsSqrt(sqrt: real -> real)
  {
    forall x: real :: x >= 0.0 ==> sqrt(x) >= 0.0 && Square(sqrt(x)) == x
  }

  function Abs(x: real): (r: real)
    ensures r >= 0.0 && (r == x || r == -x)
  {
    if x < 0.0 then -x else x
  }

  lemma SquareNonNegative(x: real)
    ensures Square(x) >= 0.0
  {
    if x < 0.0 {
      assert Square(x) == (-x) * (-x);
    }
  }

  lemma SquarePositive(x: real)
    requires x != 0.0
    ensures Square(x) > 0.0
  {
    var a := Abs(x);
    calc {
      Square(x);
      == a * a;
      > { Positive(a, a); }
      0.0;
    }
  }

  lemma Positive(a: real, b: real)
    requires a > 0.0 && b > 0.0
    ensures a * b > 0.0
  {
  }

  lemma SquareOfAbs(x: real)
    ensures Square(Abs(x)) == Square(x)
  {
  }

  lemma SquareOfProduct(a: real, b: real)
    ensures Square(a * b) == Square(a) * Square(b)
  {
  }

  lemma SquareOfNegation(x: real)
    ensures Square(-x) == Square(x)
  {
  }

  /** Scaling both bases by `k` scales a sum of two squares by `k²`. */
  lemma SumOfSquaresScaled(a: real, b: real, k: real)
    ensures Square(a * k) + Square(b * k) == Square(k) * (Square(a) + Square(b))
  {
    SquareOfProduct(a, k);
    SquareOfProduct(b, k);
  }

  /** Dividing by `l` is multiplying by its reciprocal. */
  lemma DivideIsMultiplyByReciprocal(a: real, l: real)
    requires l != 0.0
    ensures a / l == a * (1.0 / l)
  {
  }

  /** Two non-negative reals with the same square are equal. */
  lemma SquareInjective(a: real, b: real)
    requires a >= 0.0 && b >= 0.0 && Square(a) == Square(b)
    ensures a == b
  {
    assert (a - b) * (a + b) == 0.0;
    if a + b != 0.0 {
      assert a - b == ((a - b) * (a + b)) / (a + b);
    }
  }

  /** If `s * z == z` for a positive `z`, then `s` is one. */
  lemma CancelFactor(s: real, z: real)
    requires z > 0.0 && s * z == z
    ensures s == 1.0
  {
    assert (s - 1.0) * z == 0.0;
    assert s - 1.0 == ((s - 1.0) * z) / z;
  }

  /** The sum of two squares is positive unless both bases are zero. */
  lemma SumOfSquaresPositive(a: real, b: real)
    ensures Square(a) + Square(b) >= 0.0
    ensures a != 0.0 || b != 0.0 ==> Square(a) + Square(b) > 0.0
  {
    SquareNonNegative(a);
    SquareNonNegative(b);
    if a != 0.0 {
      SquarePositive(a);
    } else if b != 0.0 {
      SquarePositive(b);
    }
  }

  /** A non-negative root of `x` is the value `sqrt` returns. */
  lemma SqrtIs(sqrt: real -> real, x: real, r: real)
    requires IsSqrt(sqrt)
    requires r >= 0.0 && Square(r) == x
    ensures sqrt(x) == r
  {
    SquareNonNegative(r);
    SquareInjective(sqrt(x), r);
  }

  /** The root of a non-negative argument is zero exactly when the argument is;
      otherwise it is positive. */
  lemma SqrtZero(sqrt: real -> real, x: real)
    requires IsSqrt(sqrt) && x >= 0.0
    ensures sqrt(x) >= 0.0
    ensures sqrt(x) == 0.0 <==> x == 0.0
  {
    if x == 0.0 {
      SqrtIs(sqrt, 0.0, 0.0);
    }
  }

  /** The root of `k² · x` is `|k|` times the root of `x`. */
  lemma SqrtOfScaled(sqrt: real -> real, k: real, x: real)
    requires IsSqrt(sqrt) && x >= 0.0
    ensures sqrt(Square(k) * x) == Abs(k) * sqrt(x)
  {
    var m := sqrt(x);
    var a := Abs(k);
    SquareOfAbs(k);
    SquareOfProduct(a, m);
    SquareNonNegative(k);
    SqrtIs(sqrt, Square(k) * x, a * m);
  }

  lemma QuotientPositive(a: real, b: real)
    requires a > 0.0 && b > 0.0
    ensures a / b > 0.0
  {
  }

  /** `|s / d| · d == |s|` for a positive `d`. */
  lemma AbsOfQuotient(s: real, d: real)
    requires d > 0.0
    ensures Abs(s / d) * d == Abs(s)
  {
  }

  /** Dividing by `d`, then scaling by `p / d²` and by `g`, is scaling once by
      `(g · p / d²) / d`. */
  lemma ChainedScaling(a: real, d: real, p: real, g: real)
    requires d != 0.0
    ensures Square(d) > 0.0
    ensures ((a / d) * (p / Square(d))) * g == a * ((g * p / Square(d)) / d)
  {
    SquarePositive(d);
    RegroupQuotients(a, d, p, g, Square(d));
  }

  lemma RegroupQuotients(a: real, d: real, p: real, g: real, q: real)
    requires d != 0.0 && q != 0.0
    ensures ((a / d) * (p / q)) * g == a * ((g * p / q) / d)
  {
  }

  /** Division distributes over a sum. */
  lemma DivideSum(a: real, b: real, m: real)
    requires m != 0.0
    ensures (a + b) / m == a / m + b / m
  {
  }

  lemma NonNegative(a: real, b: real)
    requires a >= 0.0 && b >= 0.0
    ensures a * b >= 0.0
  {
  }

  lemma QuotientNonNegative(a: real, b: real)
    requires a >= 0.0 && b > 0.0
    ensures a / b >= 0.0
  {
  }

  lemma NegateProduct(a: real, k: real)
    ensures (-a) * k == -(a * k)
  {
  }
}
