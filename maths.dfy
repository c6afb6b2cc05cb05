/** Two-dimensional points and vectors (src/maths.rs).

    A `Coordinate` is an absolute position, a `EuclideanVector` a displacement, velocity
    or force. The source's `f64` components are modelled as `real`, so every identity
    below holds exactly. Compound assignments (`c += v`, `u += v`) act on copyable values;
    the model writes them as the function that gives the updated value. */
module Maths {
  import opened Reals

  datatype Coordinate = Coordinate(x: real, y: real)

  datatype EuclideanVector = EuclideanVector(dx: real, dy: real)

  const Origin: Coordinate := Coordinate(0.0, 0.0)

  const Zero: EuclideanVector := EuclideanVector(0.0, 0.0)

  /** `Coordinate::from`: the coordinate whose components are the pair's two entries. */
  function CoordinateFrom(pair: (real, real)): (c: Coordinate)
    ensures (c.x, c.y) == pair
  {
    Coordinate(pair.0, pair.1)
  }

  /** `c += v` for a coordinate `c`: the point reached from `c` by the displacement `v`. */
  function Offset(c: Coordinate, v: EuclideanVector): Coordinate
  {
    Coordinate(c.x + v.dx, c.y + v.dy)
  }

  /** `a - b` for coordinates: the displacement that leads from `b` to `a`. */
  function Difference(a: Coordinate, b: Coordinate): (v: EuclideanVector)
    ensures Offset(b, v) == a
  {
    EuclideanVector(a.x - b.x, a.y - b.y)
  }

  /** `EuclideanVector::between`: the vector pointing from `from` to `to`. */
  function Between(from: Coordinate, to: Coordinate): (v: EuclideanVector)
    ensures v == Difference(to, from)
    ensures Offset(from, v) == to
  {
    EuclideanVector(to.x - from.x, to.y - from.y)
  }

  /** `EuclideanVector::towards`: the position vector of `to`, seen from the origin. */
  function Towards(to: Coordinate): (v: EuclideanVector)
    ensures v == Between(Origin, to)
  {
    EuclideanVector(to.x, to.y)
  }

  /** Derived `u + v` and `u += v`. */
  function Add(u: EuclideanVector, v: EuclideanVector): EuclideanVector
  {
    EuclideanVector(u.dx + v.dx, u.dy + v.dy)
  }

  /** Derived `u - v`: the vector that, added to `v`, gives back `u`. */
  function Subtract(u: EuclideanVector, v: EuclideanVector): (r: EuclideanVector)
    ensures Add(r, v) == u
  {
    EuclideanVector(u.dx - v.dx, u.dy - v.dy)
  }

  /** Derived `u - v` undoes derived `u + v`. */
  lemma SubtractUndoesAdd(u: EuclideanVector, v: EuclideanVector)
    ensures Subtract(Add(u, v), v) == u
  {
  }

  /** `-v`: the additive inverse. */
  function Negate(v: EuclideanVector): (r: EuclideanVector)
    ensures Add(v, r) == Zero
  {
    EuclideanVector(-v.dx, -v.dy)
  }

  /** Derived `v * k`: both components multiplied by `k`. */
  function Scale(v: EuclideanVector, k: real): EuclideanVector
  {
    EuclideanVector(v.dx * k, v.dy * k)
  }

  /** Derived `v / k`: both components divided by `k`; undone by scaling with `k`. */
  function DivideBy(v: EuclideanVector, k: real): (r: EuclideanVector)
    requires k != 0.0
    ensures Scale(r, k) == v
  {
    EuclideanVector(v.dx / k, v.dy / k)
  }

  /** The sum of the squared components, the square of the length. */
  function NormSquared(v: EuclideanVector): real
  {
    Square(v.dx) + Square(v.dy)
  }

  /** `magnitude`: `dx.hypot(dy)`, the square root of the sum of the squared components. */
  function Magnitude(v: EuclideanVector, sqrt: real -> real): real
  {
    sqrt(NormSquared(v))
  }

  /** The length of `between(a, b)`: how far apart two coordinates are. */
  function Distance(a: Coordinate, b: Coordinate, sqrt: real -> real): real
  {
    Magnitude(Between(a, b), sqrt)
  }

  /** `versor`: the vector divided by its own magnitude, which must not be zero. */
  function Versor(v: EuclideanVector, sqrt: real -> real): (r: EuclideanVector)
    requires Magnitude(v, sqrt) != 0.0
    ensures Scale(r, Magnitude(v, sqrt)) == v
  {
    var len := Magnitude(v, sqrt);
    EuclideanVector(v.dx / len, v.dy / len)
  }

  /** `impl PartialEq<f64> for EuclideanVector`: a vector equals a scalar when its magnitude does. */
  function EqualsScalar(v: EuclideanVector, scalar: real, sqrt: real -> real): bool
  {
    Magnitude(v, sqrt) == scalar
  }

  // ---------------------------------------------------------------------------
  // Properties of the algebra

  /** Moving by `v` and measuring the displacement gives back `v` (the `+=` round trip). */
  lemma OffsetThenBetween(c: Coordinate, v: EuclideanVector)
    ensures Between(c, Offset(c, v)) == v
  {
  }

  /** Reversing the end points of `between` negates the vector; negation is an involution. */
  lemma BetweenAntisymmetric(a: Coordinate, b: Coordinate)
    ensures Between(a, b) == Negate(Between(b, a))
    ensures Negate(Negate(Between(a, b))) == Between(a, b)
  {
  }

  /** Negation is an involution on every vector. */
  lemma NegateInvolutive(v: EuclideanVector)
    ensures Negate(Negate(v)) == v
  {
  }

  /** The squared length is never negative, and it is zero exactly for the zero vector. */
  lemma NormSquaredZero(v: EuclideanVector)
    ensures NormSquared(v) >= 0.0
    ensures NormSquared(v) == 0.0 <==> v == Zero
  {
    SumOfSquaresPositive(v.dx, v.dy);
    assert v == EuclideanVector(v.dx, v.dy);
  }

  /** The magnitude is never negative, and it is zero exactly for the zero vector. */
  lemma MagnitudeZero(v: EuclideanVector, sqrt: real -> real)
    requires IsSqrt(sqrt)
    ensures Magnitude(v, sqrt) >= 0.0
    ensures Magnitude(v, sqrt) == 0.0 <==> v == Zero
  {
    NormSquaredZero(v);
    SqrtZero(sqrt, NormSquared(v));
  }

  /** The distance between two coordinates is zero exactly when they coincide, and it
      does not depend on the direction of measurement. */
  lemma DistanceZero(a: Coordinate, b: Coordinate, sqrt: real -> real)
    requires IsSqrt(sqrt)
    ensures Magnitude(Between(a, b), sqrt) == 0.0 <==> a == b
    ensures Magnitude(Between(a, b), sqrt) == Magnitude(Between(b, a), sqrt)
  {
    MagnitudeZero(Between(a, b), sqrt);
    SquareOfNegation(a.x - b.x);
    SquareOfNegation(a.y - b.y);
    assert NormSquared(Between(a, b)) == NormSquared(Between(b, a));
  }

  /** Two different coordinates are a positive distance apart. */
  lemma DistancePositive(a: Coordinate, b: Coordinate, sqrt: real -> real)
    requires IsSqrt(sqrt) && a != b
    ensures Distance(a, b, sqrt) > 0.0
  {
    DistanceZero(a, b, sqrt);
    MagnitudeZero(Between(a, b), sqrt);
  }

  /** Scaling a vector by `k` scales its squared length by `k²`. */
  lemma NormSquaredScaled(v: EuclideanVector, k: real)
    ensures NormSquared(Scale(v, k)) == Square(k) * NormSquared(v)
  {
    SumOfSquaresScaled(v.dx, v.dy, k);
  }

  /** Scaling a vector by `k` scales its magnitude by `|k|`. */
  lemma MagnitudeScaled(v: EuclideanVector, k: real, sqrt: real -> real)
    requires IsSqrt(sqrt)
    ensures Magnitude(Scale(v, k), sqrt) == Abs(k) * Magnitude(v, sqrt)
  {
    NormSquaredScaled(v, k);
    NormSquaredZero(v);
    SqrtOfScaled(sqrt, k, NormSquared(v));
  }

  /** The versor of a non-zero vector has magnitude one and is a positive multiple of
      the vector. */
  lemma VersorIsUnit(v: EuclideanVector, sqrt: real -> real)
    requires IsSqrt(sqrt)
    requires v != Zero
    ensures Magnitude(v, sqrt) > 0.0
    ensures Magnitude(Versor(v, sqrt), sqrt) == 1.0
    ensures Versor(v, sqrt) == Scale(v, 1.0 / Magnitude(v, sqrt))
  {
    MagnitudeZero(v, sqrt);
    NormSquaredZero(v);
    var len := Magnitude(v, sqrt);
    var r := Versor(v, sqrt);
    NormSquaredScaled(r, len);
    assert Square(len) == NormSquared(v);
    SquarePositive(len);
    CancelFactor(NormSquared(r), Square(len));
    SqrtIs(sqrt, 1.0, 1.0);
    DivideIsMultiplyByReciprocal(v.dx, len);
    DivideIsMultiplyByReciprocal(v.dy, len);
  }

  /** Scaling commutes with negation. */
  lemma NegateScaled(v: EuclideanVector, k: real)
    ensures Scale(Negate(v), k) == Negate(Scale(v, k))
  {
    NegateProduct(v.dx, k);
    NegateProduct(v.dy, k);
  }

  /** The scalar comparisons that src/maths_tests.rs makes: (1, 0) equals 1 and not 2;
      (4, 3) equals 5 and not 1. */
  lemma ScalarComparisons(sqrt: real -> real)
    requires IsSqrt(sqrt)
    ensures EqualsScalar(EuclideanVector(1.0, 0.0), 1.0, sqrt)
    ensures !EqualsScalar(EuclideanVector(1.0, 0.0), 2.0, sqrt)
    ensures EqualsScalar(EuclideanVector(4.0, 3.0), 5.0, sqrt)
    ensures !EqualsScalar(EuclideanVector(4.0, 3.0), 1.0, sqrt)
  {
    SqrtIs(sqrt, 1.0, 1.0);
    SqrtIs(sqrt, 25.0, 5.0);
  }

  /** A vector equals the scalar zero exactly when it is the zero vector, and it never
      equals a negative scalar. */
  lemma EqualsScalarZero(v: EuclideanVector, scalar: real, sqrt: real -> real)
    requires IsSqrt(sqrt)
    ensures EqualsScalar(v, 0.0, sqrt) <==> v == Zero
    ensures scalar < 0.0 ==> !EqualsScalar(v, scalar, sqrt)
  {
    MagnitudeZero(v, sqrt);
  }
}
