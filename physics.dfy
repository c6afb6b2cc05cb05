/** The point-mass body of the physics engine (src/physics.rs).

    A `Body` is an object whose fields the engine changes in place: the builder setters
    and `update` assign its fields, `add_pull_from` pushes onto its force list. The
    gravitational law behind `pull_from` is the value function `Attraction`, shared with
    the older copy of the engine that src/main.rs holds. */
module Physics {
  import opened Reals
  import opened Maths

  /** `GRAVITATIONAL_CONSTANT`. */
  const GravitationalConstant: real := 10.0

  /** `Body::DENSITY`: mass per unit of volume, used to derive the radius. */
  const Density: real := 3.0

  /** `core::f64::consts::PI`, to the precision of an `f64` literal. */
  const Pi: real := 3.141592653589793

  /** The exponent `with_mass` passes to `powf`; the source writes 0.33, not one third. */
  const RadiusExponent: real := 0.33

  /** Newton's law of gravitation, the reference for `pull_from`: the strength of the
      pull between masses `m1` and `m2` at distance `d` is G · m1 · m2 / d². */
  function Strength(m1: real, m2: real, d: real): real
    requires d != 0.0
  {
    SquarePositive(d);
    GravitationalConstant * (m1 * m2) / Square(d)
  }

  /** The body of `pull_from`: the force on a body of mass `m1` at `from` exerted by a
      body of mass `m2` at `to`, computed as the versor of the joining vector, scaled by
      m1 · m2 / d² and then by G. The distance must not be zero. */
  function Attraction(from: Coordinate, m1: real, to: Coordinate, m2: real, sqrt: real -> real): (f: EuclideanVector)
    requires Distance(from, to, sqrt) != 0.0
    ensures m1 == 0.0 || m2 == 0.0 ==> f == Zero
  {
    var joining := Between(from, to);
    var distance := Magnitude(joining, sqrt);
    SquarePositive(distance);
    Scale(Scale(Versor(joining, sqrt), (m1 * m2) / Square(distance)), GravitationalConstant)
  }

  /** Derived `+` over a list of forces, folded from the front of the list. */
  function Sum(forces: seq<EuclideanVector>): EuclideanVector
  {
    if forces == [] then Zero else Add(Sum(forces[..|forces| - 1]), forces[|forces| - 1])
  }

  /** The velocity that `update` reaches from `v` by adding `force / mass` for each
      stored force, in list order. Dividing by a zero mass is excluded unless there is
      nothing to divide. */
  function Integrate(v: EuclideanVector, forces: seq<EuclideanVector>, mass: real): EuclideanVector
    requires mass != 0.0 || forces == []
  {
    if forces == [] then v
    else Add(Integrate(v, forces[..|forces| - 1], mass), DivideBy(forces[|forces| - 1], mass))
  }

  /** The radius `with_mass` derives: `powf` applied to the volume of the mass, scaled
      by 3 / (4 · PI), with the exponent 0.33. `powf` is the platform's routine, so it is
      a parameter. */
  function RadiusOf(mass: real, powf: (real, real) -> real): real
  {
    powf((3.0 / (4.0 * Pi)) * (mass / Density), RadiusExponent)
  }

  class Body {
    var name: string
    var position: Coordinate
    var mass: real
    var radius: real
    var velocity: EuclideanVector
    var forces: seq<EuclideanVector>
    var highlighted: bool

    /** `Body::new`: every field zero or empty. */
    constructor ()
      ensures name == "" && position == Origin && mass == 0.0 && radius == 0.0
      ensures velocity == Zero && forces == [] && !highlighted
    {
      name := "";
      position := Origin;
      mass := 0.0;
      radius := 0.0;
      velocity := Zero;
      forces := [];
      highlighted := false;
    }

    /** `at`: sets the position and nothing else. */
    method At(arg: Coordinate)
      modifies this
      ensures position == arg
      ensures name == old(name) && mass == old(mass) && radius == old(radius)
      ensures velocity == old(velocity) && forces == old(forces) && highlighted == old(highlighted)
    {
      position := arg;
    }

    /** `moving`: sets the velocity and nothing else. */
    method Moving(arg: EuclideanVector)
      modifies this
      ensures velocity == arg
      ensures name == old(name) && position == old(position) && mass == old(mass)
      ensures radius == old(radius) && forces == old(forces) && highlighted == old(highlighted)
    {
      velocity := arg;
    }

    /** `named`: sets the name and nothing else. */
    method Named(arg: string)
      modifies this
      ensures name == arg
      ensures position == old(position) && mass == old(mass) && radius == old(radius)
      ensures velocity == old(velocity) && forces == old(forces) && highlighted == old(highlighted)
    {
      name := arg;
    }

    /** `with_mass`: sets the mass and the radius derived from it, and nothing else. */
    method WithMass(arg: real, powf: (real, real) -> real)
      modifies this
      ensures mass == arg && radius == RadiusOf(arg, powf)
      ensures name == old(name) && position == old(position)
      ensures velocity == old(velocity) && forces == old(forces) && highlighted == old(highlighted)
    {
      mass := arg;
      var volume := mass / Density;
      radius := powf((3.0 / (4.0 * Pi)) * volume, RadiusExponent);
    }

    /** `update`: first moves the position by the velocity the body had before the call,
        then adds each stored force divided by the mass to the velocity, in list order.
        The force list and every other field stay as they were. */
    method Update()
      requires mass != 0.0 || forces == []
      modifies this
      ensures forces == old(forces) && mass == old(mass) && name == old(name)
      ensures radius == old(radius) && highlighted == old(highlighted)
      ensures position == Offset(old(position), old(velocity))
      ensures velocity == Integrate(old(velocity), forces, mass)
    {
      position := Offset(position, velocity);
      var i := 0;
      while i < |forces|
        invariant 0 <= i <= |forces|
        invariant forces == old(forces) && mass == old(mass) && name == old(name)
        invariant radius == old(radius) && highlighted == old(highlighted)
        invariant position == Offset(old(position), old(velocity))
        invariant velocity == Integrate(old(velocity), forces[..i], mass)
      {
        var acceleration := DivideBy(forces[i], mass);
        assert forces[..i + 1][..i] == forces[..i];
        velocity := Add(velocity, acceleration);
        i := i + 1;
      }
      assert forces[..i] == forces;
    }

    /** `pull_from`: the attraction this body feels from `other`. */
    function PullFrom(other: Body, sqrt: real -> real): EuclideanVector
      reads this, other
      requires Distance(position, other.position, sqrt) != 0.0
    {
      Attraction(position, mass, other.position, other.mass, sqrt)
    }

    /** `add_pull_from`: appends exactly one force, the pull from `other`, and changes
        nothing else. */
    method AddPullFrom(other: Body, sqrt: real -> real)
      requires other != this
      requires Distance(position, other.position, sqrt) != 0.0
      modifies this`forces
      ensures forces == old(forces) + [Attraction(position, mass, other.position, other.mass, sqrt)]
    {
      var pull := PullFrom(other, sqrt);
      forces := forces + [pull];
    }
  }

  // ---------------------------------------------------------------------------
  // Properties of the law and of the integration step

  /** Integrating the forces one at a time adds their sum divided by the mass. */
  lemma {:induction false} IntegrateIsTotalAcceleration(v: EuclideanVector, forces: seq<EuclideanVector>, mass: real)
    requires mass != 0.0
    ensures Integrate(v, forces, mass) == Add(v, DivideBy(Sum(forces), mass))
  {
    if forces != [] {
      var init, last := forces[..|forces| - 1], forces[|forces| - 1];
      IntegrateIsTotalAcceleration(v, init, mass);
      DivideSum(Sum(init).dx, last.dx, mass);
      DivideSum(Sum(init).dy, last.dy, mass);
    }
  }

  /** `pull_from` is the joining vector scaled by G · m1 · m2 / d³: Newton's strength
      along the unit vector towards the other body. Only a positive distance is needed;
      for a true square root that is the case exactly when the positions differ
      (`DistanceZero`). */
  lemma AttractionAlongJoin(from: Coordinate, m1: real, to: Coordinate, m2: real, sqrt: real -> real)
    requires Distance(from, to, sqrt) > 0.0
    ensures Attraction(from, m1, to, m2, sqrt)
         == Scale(Between(from, to), Strength(m1, m2, Distance(from, to, sqrt)) / Distance(from, to, sqrt))
  {
    var j := Between(from, to);
    var d := Distance(from, to, sqrt);
    ChainedScaling(j.dx, d, m1 * m2, GravitationalConstant);
    ChainedScaling(j.dy, d, m1 * m2, GravitationalConstant);
  }

  /** For positive masses the pull is a positive multiple of `between(from, to)`: it is
      attractive, pointing from the body towards the other one. */
  lemma AttractionIsAttractive(from: Coordinate, m1: real, to: Coordinate, m2: real, sqrt: real -> real)
    requires Distance(from, to, sqrt) > 0.0
    requires m1 > 0.0 && m2 > 0.0
    ensures Strength(m1, m2, Distance(from, to, sqrt)) / Distance(from, to, sqrt) > 0.0
    ensures Attraction(from, m1, to, m2, sqrt)
         == Scale(Between(from, to), Strength(m1, m2, Distance(from, to, sqrt)) / Distance(from, to, sqrt))
  {
    AttractionAlongJoin(from, m1, to, m2, sqrt);
    var d := Distance(from, to, sqrt);
    StrengthSign(m1, m2, d);
    QuotientPositive(Strength(m1, m2, d), d);
  }

  /** Newton's strength is never negative between non-negative masses, and positive
      between positive ones. */
  lemma StrengthSign(m1: real, m2: real, d: real)
    requires d != 0.0
    ensures m1 >= 0.0 && m2 >= 0.0 ==> Strength(m1, m2, d) >= 0.0
    ensures m1 > 0.0 && m2 > 0.0 ==> Strength(m1, m2, d) > 0.0
  {
    SquarePositive(d);
    if m1 >= 0.0 && m2 >= 0.0 {
      NonNegative(m1, m2);
      NonNegative(GravitationalConstant, m1 * m2);
      QuotientNonNegative(GravitationalConstant * (m1 * m2), Square(d));
    }
    if m1 > 0.0 && m2 > 0.0 {
      Positive(m1, m2);
      Positive(GravitationalConstant, m1 * m2);
      QuotientPositive(GravitationalConstant * (m1 * m2), Square(d));
    }
  }

  /** The length of the pull is Newton's strength G · |m1 · m2| / d²; for non-negative
      masses it is exactly G · m1 · m2 / d². */
  lemma AttractionMagnitude(from: Coordinate, m1: real, to: Coordinate, m2: real, sqrt: real -> real)
    requires IsSqrt(sqrt) && from != to
    ensures Distance(from, to, sqrt) > 0.0
    ensures Magnitude(Attraction(from, m1, to, m2, sqrt), sqrt) == Abs(Strength(m1, m2, Distance(from, to, sqrt)))
    ensures m1 >= 0.0 && m2 >= 0.0 ==>
      Magnitude(Attraction(from, m1, to, m2, sqrt), sqrt) == Strength(m1, m2, Distance(from, to, sqrt))
  {
    DistancePositive(from, to, sqrt);
    AttractionAlongJoin(from, m1, to, m2, sqrt);
    var d := Distance(from, to, sqrt);
    var k := Strength(m1, m2, d);
    calc {
      Magnitude(Attraction(from, m1, to, m2, sqrt), sqrt);
      Magnitude(Scale(Between(from, to), k / d), sqrt);
      { MagnitudeScaled(Between(from, to), k / d, sqrt); }
      Abs(k / d) * d;
      { AbsOfQuotient(k, d); }
      Abs(k);
    }
    StrengthSign(m1, m2, d);
  }

  /** Newton's third law: the pull on the first body from the second is the negation of
      the pull on the second from the first. */
  lemma AttractionReciprocal(from: Coordinate, m1: real, to: Coordinate, m2: real, sqrt: real -> real)
    requires IsSqrt(sqrt) && from != to
    ensures Distance(to, from, sqrt) == Distance(from, to, sqrt) != 0.0
    ensures Attraction(from, m1, to, m2, sqrt) == Negate(Attraction(to, m2, from, m1, sqrt))
  {
    DistanceZero(from, to, sqrt);
    DistancePositive(from, to, sqrt);
    AttractionAlongJoin(from, m1, to, m2, sqrt);
    AttractionAlongJoin(to, m2, from, m1, sqrt);
    BetweenAntisymmetric(from, to);
    var k := Strength(m1, m2, Distance(from, to, sqrt)) / Distance(from, to, sqrt);
    assert Strength(m2, m1, Distance(to, from, sqrt)) / Distance(to, from, sqrt) == k;
    NegateScaled(Between(to, from), k);
  }

  // ---------------------------------------------------------------------------
  // The scenarios of src/physics_tests.rs

  /** Integrating a single force adds that force divided by the mass. */
  lemma IntegrateOne(v: EuclideanVector, force: EuclideanVector, mass: real)
    requires mass != 0.0
    ensures Integrate(v, [force], mass) == Add(v, DivideBy(force, mass))
  {
    assert [force][..0] == [];
  }

  /** A resting unit mass at the origin, after integrating the pull of a unit mass at
      `to`, moves the way `between(origin, to)` points. */
  lemma PullFromUnitMass(v: EuclideanVector, to: Coordinate, sqrt: real -> real) returns (k: real)
    requires Distance(Origin, to, sqrt) > 0.0
    ensures k > 0.0
    ensures Integrate(v, [Attraction(Origin, 1.0, to, 1.0, sqrt)], 1.0)
         == EuclideanVector(v.dx + to.x * k, v.dy + to.y * k)
  {
    AttractionIsAttractive(Origin, 1.0, to, 1.0, sqrt);
    k := Strength(1.0, 1.0, Distance(Origin, to, sqrt)) / Distance(Origin, to, sqrt);
    IntegrateOne(v, Attraction(Origin, 1.0, to, 1.0, sqrt), 1.0);
  }

  /** A body with no stored forces keeps its velocity through `update`. */
  method UpdatedWithoutForces(powf: (real, real) -> real) returns (v: EuclideanVector)
    ensures v == EuclideanVector(4.4, 7.7)
  {
    var initial := EuclideanVector(4.4, 7.7);
    var body := new Body();
    body.WithMass(1.0, powf);
    body.Moving(initial);
    body.Update();
    v := body.velocity;
  }

  /** A resting unit mass at the origin, pulled by a unit mass above and to the right
      of it (the test places it at (10, 10)), gains velocity with both components
      positive. */
  method PulledFromUpperRight(x: real, y: real, sqrt: real -> real, powf: (real, real) -> real)
    returns (v: EuclideanVector)
    requires x > 0.0 && y > 0.0
    requires Distance(Origin, Coordinate(x, y), sqrt) > 0.0
    ensures v.dx > 0.0 && v.dy > 0.0
  {
    ghost var k := PullFromUnitMass(Zero, Coordinate(x, y), sqrt);
    Positive(x, k);
    Positive(y, k);
    var body := new Body();
    body.At(Coordinate(0.0, 0.0));
    body.WithMass(1.0, powf);
    var other := new Body();
    other.At(Coordinate(x, y));
    other.WithMass(1.0, powf);
    body.AddPullFrom(other, sqrt);
    body.Update();
    v := body.velocity;
  }

  /** A unit mass at the origin moving with (1, 1), pulled by a unit mass above and to
      the left of it (the test places it at (-10, 10)), slows down along x and speeds
      up along y. */
  method PulledFromUpperLeft(x: real, y: real, sqrt: real -> real, powf: (real, real) -> real)
    returns (v: EuclideanVector)
    requires x < 0.0 && y > 0.0
    requires Distance(Origin, Coordinate(x, y), sqrt) > 0.0
    ensures v.dx < 1.0 && v.dy > 1.0
  {
    var initial := EuclideanVector(1.0, 1.0);
    ghost var k := PullFromUnitMass(initial, Coordinate(x, y), sqrt);
    NegateProduct(x, k);
    Positive(-x, k);
    Positive(y, k);
    var body := new Body();
    body.At(Coordinate(0.0, 0.0));
    body.WithMass(1.0, powf);
    body.Moving(initial);
    var other := new Body();
    other.At(Coordinate(x, y));
    other.WithMass(1.0, powf);
    body.AddPullFrom(other, sqrt);
    body.Update();
    v := body.velocity;
  }
}
