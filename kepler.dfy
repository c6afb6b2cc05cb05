/** The simulation loop of the windowed program (src/main.rs:17-152).

    src/main.rs carries its own copy of the vector algebra and of a smaller `Body`
    (position, mass, velocity and forces; no name, radius or highlight). Over the reals
    its vector operations are the ones of `Maths` (its `magnitude` squares and adds the
    components and takes `sqrt`, which is what `hypot` computes), and its
    `GRAVITATIONAL_CONSTANT` is again 10, so the model reuses `Maths`, and the force law
    `Attraction` and the fold `Integrate` of `Physics`.

    A `Situation` owns its bodies; `update` visits them in index order. The effect of one
    call is specified on values: `BodyState` is the content of one body, and `Tick`
    computes the states after a call from the states before it. */
module Kepler {
  import opened Maths
  import opened Physics

  /** The content of one body of src/main.rs. */
  datatype BodyState = BodyState(position: Coordinate, mass: real, velocity: EuclideanVector, forces: seq<EuclideanVector>)

  /** `Body::update` on a value: move by the old velocity, then integrate the stored
      forces into the velocity. */
  function Advance(b: BodyState): (r: BodyState)
    requires b.mass != 0.0 || b.forces == []
    ensures r.mass == b.mass && r.forces == b.forces
  {
    b.(position := Offset(b.position, b.velocity), velocity := Integrate(b.velocity, b.forces, b.mass))
  }

  /** `Body::pull_from` on values: the pull that `other` exerts on `b`. */
  function Pull(b: BodyState, other: BodyState, sqrt: real -> real): EuclideanVector
    requires Distance(b.position, other.position, sqrt) != 0.0
  {
    Attraction(b.position, b.mass, other.position, other.mass, sqrt)
  }

  /** No body of `others` sits where `b` is. */
  predicate ApartFrom(b: BodyState, others: seq<BodyState>, sqrt: real -> real)
  {
    forall k :: 0 <= k < |others| ==> Distance(b.position, others[k].position, sqrt) != 0.0
  }

  /** The forces that repeated `add_pull_from` calls append for `others`, in order. */
  function PullsFrom(b: BodyState, others: seq<BodyState>, sqrt: real -> real): (r: seq<EuclideanVector>)
    requires ApartFrom(b, others, sqrt)
    ensures |r| == |others|
  {
    if others == [] then []
    else PullsFrom(b, others[..|others| - 1], sqrt) + [Pull(b, others[|others| - 1], sqrt)]
  }

  /** What visiting body `i` of the states `u` needs: its mass can divide its forces,
      and where it moves to, no other body is. */
  predicate StepOk(u: seq<BodyState>, i: nat, sqrt: real -> real)
    requires i < |u|
  {
    && (u[i].mass != 0.0 || u[i].forces == [])
    && forall j :: 0 <= j < |u| && j != i ==> Distance(Offset(u[i].position, u[i].velocity), u[j].position, sqrt) != 0.0
  }

  /** The bodies other than `i`, in the order `head.iter_mut().chain(tail)` visits them:
      those before `i`, then those after it. */
  function Others<T>(u: seq<T>, i: nat): (r: seq<T>)
    requires i < |u|
    ensures |r| == |u| - 1
    ensures forall k :: 0 <= k < |r| ==> r[k] == u[if k < i then k else k + 1]
  {
    u[..i] + u[i + 1..]
  }

  /** One iteration of the loop in `Situation::update`: body `i` is updated, its forces
      are cleared and then rebuilt from the other bodies. */
  function Step(u: seq<BodyState>, i: nat, sqrt: real -> real): (r: seq<BodyState>)
    requires i < |u| && StepOk(u, i, sqrt)
    ensures |r| == |u|
  {
    var moved := Advance(u[i]);
    StepOkApart(u, i, sqrt);
    u[i := moved.(forces := PullsFrom(moved, Others(u, i), sqrt))]
  }

  /** The first `i` iterations can run. */
  predicate CanTick(s: seq<BodyState>, i: nat, sqrt: real -> real)
    requires i <= |s|
    decreases i, 0
  {
    i == 0 || (CanTick(s, i - 1, sqrt) && StepOk(Ticked(s, i - 1, sqrt), i - 1, sqrt))
  }

  /** The states after the first `i` iterations of the loop. */
  function Ticked(s: seq<BodyState>, i: nat, sqrt: real -> real): (r: seq<BodyState>)
    requires i <= |s| && CanTick(s, i, sqrt)
    ensures |r| == |s|
    decreases i, 1
  {
    if i == 0 then s else Step(Ticked(s, i - 1, sqrt), i - 1, sqrt)
  }

  /** The states after a whole call of `Situation::update`. */
  function Tick(s: seq<BodyState>, sqrt: real -> real): seq<BodyState>
    requires CanTick(s, |s|, sqrt)
  {
    Ticked(s, |s|, sqrt)
  }

  /** `count_forces` on values: the lengths of all force lists, added up in order. */
  function TotalForces(s: seq<BodyState>): nat
  {
    if s == [] then 0 else TotalForces(s[..|s| - 1]) + |s[|s| - 1].forces|
  }

  // ---------------------------------------------------------------------------
  // Properties of one tick

  /** The forces appended for `others` are the pulls from them, in the same order. */
  lemma {:induction false} PullsFromAt(b: BodyState, others: seq<BodyState>, k: nat, sqrt: real -> real)
    requires ApartFrom(b, others, sqrt) && k < |others|
    ensures Distance(b.position, others[k].position, sqrt) != 0.0
    ensures PullsFrom(b, others, sqrt)[k] == Pull(b, others[k], sqrt)
  {
    var init := others[..|others| - 1];
    if k < |init| {
      assert init[k] == others[k];
      PullsFromAt(b, init, k, sqrt);
    }
  }

  /** The pull on a body depends on its position and mass, not on its stored forces. */
  lemma PullIgnoresForces(b: BodyState, c: BodyState, other: BodyState, sqrt: real -> real)
    requires b.position == c.position && b.mass == c.mass
    requires Distance(b.position, other.position, sqrt) != 0.0
    ensures Pull(b, other, sqrt) == Pull(c, other, sqrt)
  {
  }

  /** The pulls appended for `others` depend on the body's position and mass only. */
  lemma {:induction false} PullsFromIgnoresForces(b: BodyState, c: BodyState, others: seq<BodyState>, sqrt: real -> real)
    requires b.position == c.position && b.mass == c.mass && ApartFrom(b, others, sqrt)
    ensures ApartFrom(c, others, sqrt)
    ensures PullsFrom(b, others, sqrt) == PullsFrom(c, others, sqrt)
  {
    if others != [] {
      PullsFromIgnoresForces(b, c, others[..|others| - 1], sqrt);
      PullIgnoresForces(b, c, others[|others| - 1], sqrt);
    }
  }

  /** Visiting one more body appends exactly the pull from it to the forces so far. */
  lemma PullsFromNext(b: BodyState, others: seq<BodyState>, j: nat, sqrt: real -> real)
    requires ApartFrom(b, others, sqrt) && j < |others|
    ensures Distance(b.position, others[j].position, sqrt) != 0.0
    ensures ApartFrom(b, others[..j], sqrt) && ApartFrom(b, others[..j + 1], sqrt)
    ensures PullsFrom(b, others[..j + 1], sqrt) == PullsFrom(b, others[..j], sqrt) + [Pull(b, others[j], sqrt)]
  {
    assert others[..j + 1][..j] == others[..j];
  }

  /** Where a body that may be visited moves to, none of the others is. */
  lemma StepOkApart(u: seq<BodyState>, i: nat, sqrt: real -> real)
    requires i < |u| && StepOk(u, i, sqrt)
    ensures ApartFrom(Advance(u[i]), Others(u, i), sqrt)
  {
  }

  /** Iteration `i` replaces body `i` by its advanced state with the pulls from the
      others, and leaves every other body as it was. */
  lemma StepIs(u: seq<BodyState>, i: nat, sqrt: real -> real)
    requires i < |u| && StepOk(u, i, sqrt)
    ensures ApartFrom(Advance(u[i]), Others(u, i), sqrt)
    ensures Step(u, i, sqrt) == u[i := Advance(u[i]).(forces := PullsFrom(Advance(u[i]), Others(u, i), sqrt))]
  {
    StepOkApart(u, i, sqrt);
  }

  /** If the first `n` iterations can run, so can the first `i` for any `i <= n`. */
  lemma {:induction false} CanTickPrefix(s: seq<BodyState>, i: nat, n: nat, sqrt: real -> real)
    requires i <= n <= |s| && CanTick(s, n, sqrt)
    ensures CanTick(s, i, sqrt)
    decreases n - i
  {
    if i < n {
      CanTickPrefix(s, i, n - 1, sqrt);
    }
  }

  /** After `i` iterations, the bodies from index `i` on are still as they were, and each
      body before `i` is as its own iteration left it. */
  lemma {:induction false} TickedFrame(s: seq<BodyState>, i: nat, k: nat, sqrt: real -> real)
    requires i <= |s| && CanTick(s, i, sqrt) && k < |s|
    ensures i <= k ==> Ticked(s, i, sqrt)[k] == s[k]
    ensures k < i ==> CanTick(s, k + 1, sqrt) && Ticked(s, i, sqrt)[k] == Ticked(s, k + 1, sqrt)[k]
  {
    if i > 0 && k != i - 1 {
      TickedFrame(s, i - 1, k, sqrt);
    }
  }

  /** Iteration `i` visits body `i` in the state it had before the call. */
  lemma VisitedUntouched(s: seq<BodyState>, i: nat, sqrt: real -> real)
    requires CanTick(s, |s|, sqrt) && i < |s|
    ensures CanTick(s, i + 1, sqrt) && CanTick(s, i, sqrt)
    ensures Ticked(s, i, sqrt)[i] == s[i]
    ensures StepOk(Ticked(s, i, sqrt), i, sqrt)
    ensures Tick(s, sqrt)[i] == Step(Ticked(s, i, sqrt), i, sqrt)[i]
  {
    CanTickPrefix(s, i + 1, |s|, sqrt);
    TickedFrame(s, i, i, sqrt);
    TickedFrame(s, |s|, i, sqrt);
  }

  /** After a tick, every body keeps its mass, has moved by its velocity from before the
      tick, has integrated the forces it held before the tick, and holds one force per
      other body. */
  lemma TickMovesBody(s: seq<BodyState>, i: nat, sqrt: real -> real)
    requires CanTick(s, |s|, sqrt) && i < |s|
    ensures |Tick(s, sqrt)| == |s|
    ensures s[i].mass != 0.0 || s[i].forces == []
    ensures Tick(s, sqrt)[i].mass == s[i].mass
    ensures Tick(s, sqrt)[i].position == Offset(s[i].position, s[i].velocity)
    ensures Tick(s, sqrt)[i].velocity == Integrate(s[i].velocity, s[i].forces, s[i].mass)
    ensures |Tick(s, sqrt)[i].forces| == |s| - 1
  {
    VisitedUntouched(s, i, sqrt);
  }

  /** The forces of body `i` after a tick: the pulls, at the position it has just moved
      to, from the bodies before it as they are after their own iterations, followed by
      the pulls from the bodies after it as they were before the tick. */
  lemma TickForces(s: seq<BodyState>, i: nat, sqrt: real -> real)
    requires CanTick(s, |s|, sqrt) && i < |s|
    ensures s[i].mass != 0.0 || s[i].forces == []
    ensures CanTick(s, i, sqrt)
    ensures var u := Ticked(s, i, sqrt);
            && i < |u| && StepOk(u, i, sqrt)
            && u[i] == s[i]
            && (forall k :: i < k < |s| ==> u[k] == s[k])
            && ApartFrom(Advance(s[i]), Others(u, i), sqrt)
            && Tick(s, sqrt)[i] == Advance(s[i]).(forces := PullsFrom(Advance(s[i]), Others(u, i), sqrt))
  {
    VisitedUntouched(s, i, sqrt);
    var u := Ticked(s, i, sqrt);
    StepOkApart(u, i, sqrt);
    forall k | i < k < |s| ensures u[k] == s[k] {
      TickedFrame(s, i, k, sqrt);
    }
  }

  /** For `k < i`, the `k`-th force of body `i` after a tick is the pull from body `k`
      at the position body `k` has already reached in this tick. */
  lemma TickForceFromEarlier(s: seq<BodyState>, i: nat, k: nat, sqrt: real -> real)
    requires CanTick(s, |s|, sqrt) && k < i < |s|
    ensures |Tick(s, sqrt)| == |s| && |Tick(s, sqrt)[i].forces| == |s| - 1
    ensures Distance(Tick(s, sqrt)[i].position, Tick(s, sqrt)[k].position, sqrt) != 0.0
    ensures Tick(s, sqrt)[i].forces[k]
         == Attraction(Tick(s, sqrt)[i].position, s[i].mass, Tick(s, sqrt)[k].position, Tick(s, sqrt)[k].mass, sqrt)
  {
    TickMovesBody(s, i, sqrt);
    TickForces(s, i, sqrt);
    var u := Ticked(s, i, sqrt);
    PullsFromAt(Advance(s[i]), Others(u, i), k, sqrt);
    TickedFrame(s, i, k, sqrt);
    TickedFrame(s, |s|, k, sqrt);
  }

  /** For `k >= i`, the `k`-th force of body `i` after a tick is the pull from body
      `k + 1` at the position it had before the tick. */
  lemma TickForceFromLater(s: seq<BodyState>, i: nat, k: nat, sqrt: real -> real)
    requires CanTick(s, |s|, sqrt) && i <= k < |s| - 1
    ensures |Tick(s, sqrt)| == |s| && |Tick(s, sqrt)[i].forces| == |s| - 1
    ensures Distance(Tick(s, sqrt)[i].position, s[k + 1].position, sqrt) != 0.0
    ensures Tick(s, sqrt)[i].forces[k]
         == Attraction(Tick(s, sqrt)[i].position, s[i].mass, s[k + 1].position, s[k + 1].mass, sqrt)
  {
    TickMovesBody(s, i, sqrt);
    TickForces(s, i, sqrt);
    var u := Ticked(s, i, sqrt);
    PullsFromAt(Advance(s[i]), Others(u, i), k, sqrt);
  }

  /** The number of forces over bodies that each hold `m` of them is `m` per body. */
  lemma {:induction false} TotalForcesUniform(t: seq<BodyState>, m: int)
    requires forall k :: 0 <= k < |t| ==> |t[k].forces| == m
    ensures TotalForces(t) == |t| * m
  {
    if t != [] {
      var init := t[..|t| - 1];
      assert forall k :: 0 <= k < |init| ==> init[k] == t[k];
      TotalForcesUniform(init, m);
      assert |t| * m == |init| * m + m;
    }
  }

  /** After a tick of `n` bodies, `count_forces` finds n · (n - 1) forces. */
  lemma TickTotalForces(s: seq<BodyState>, sqrt: real -> real)
    requires CanTick(s, |s|, sqrt)
    ensures |Tick(s, sqrt)| == |s|
    ensures TotalForces(Tick(s, sqrt)) == |s| * (|s| - 1)
  {
    forall i | 0 <= i < |s|
      ensures |Tick(s, sqrt)[i].forces| == |s| - 1
    {
      TickMovesBody(s, i, sqrt);
    }
    TotalForcesUniform(Tick(s, sqrt), |s| - 1);
  }

  class Body {
    var position: Coordinate
    var mass: real
    var velocity: EuclideanVector
    var forces: seq<EuclideanVector>

    function State(): BodyState
      reads this
    {
      BodyState(position, mass, velocity, forces)
    }

    /** `Body::new`: every field zero or empty. */
    constructor ()
      ensures State() == BodyState(Origin, 0.0, Zero, [])
    {
      position := Origin;
      mass := 0.0;
      velocity := Zero;
      forces := [];
    }

    /** `at`: sets the position and nothing else. */
    method At(arg: Coordinate)
      modifies this`position
      ensures State() == old(State()).(position := arg)
    {
      position := arg;
    }

    /** `moving`: sets the velocity and nothing else. */
    method Moving(arg: EuclideanVector)
      modifies this`velocity
      ensures State() == old(State()).(velocity := arg)
    {
      velocity := arg;
    }

    /** `with_mass`: sets the mass and nothing else; this copy of `Body` has no radius. */
    method WithMass(arg: real)
      modifies this`mass
      ensures State() == old(State()).(mass := arg)
    {
      mass := arg;
    }

    /** `update`: the position moves by the old velocity, then every stored force divided
        by the mass is added to the velocity. */
    method Update()
      requires mass != 0.0 || forces == []
      modifies this`position, this`velocity
      ensures State() == Advance(old(State()))
    {
      position := Offset(position, velocity);
      var i := 0;
      while i < |forces|
        invariant 0 <= i <= |forces|
        invariant position == Offset(old(position), old(velocity))
        invariant velocity == Integrate(old(velocity), forces[..i], mass)
      {
        assert forces[..i + 1][..i] == forces[..i];
        velocity := Add(velocity, DivideBy(forces[i], mass));
        i := i + 1;
      }
      assert forces[..i] == forces;
    }

    /** `pull_from`: the attraction this body feels from `other`. */
    function PullFrom(other: Body, sqrt: real -> real): EuclideanVector
      reads this, other
      requires Distance(position, other.position, sqrt) != 0.0
    {
      Pull(State(), other.State(), sqrt)
    }

    /** `add_pull_from`: appends the pull from `other` and changes nothing else. */
    method AddPullFrom(other: Body, sqrt: real -> real)
      requires other != this
      requires Distance(position, other.position, sqrt) != 0.0
      modifies this`forces
      ensures forces == old(forces) + [Pull(old(State()), old(other.State()), sqrt)]
    {
      var pull := PullFrom(other, sqrt);
      forces := forces + [pull];
    }

    /** What one iteration of the loop in `Situation::update` does to the body it visits:
        `update`, clear the forces, then `add_pull_from` for each of `others` in turn,
        whose states are `os`. */
    method Step(others: seq<Body>, ghost os: seq<BodyState>, sqrt: real -> real)
      requires |others| == |os|
      requires forall k :: 0 <= k < |others| ==> others[k] != this && others[k].State() == os[k]
      requires mass != 0.0 || forces == []
      requires ApartFrom(Advance(State()), os, sqrt)
      modifies this`position, this`velocity, this`forces
      ensures ApartFrom(Advance(old(State())), os, sqrt)
      ensures State() == Advance(old(State())).(forces := PullsFrom(Advance(old(State())), os, sqrt))
    {
      ghost var moved := Advance(State());
      Update();
      forces := [];
      PullsFromIgnoresForces(moved, State(), os, sqrt);
      ghost var start := State();
      var j := 0;
      while j < |others|
        invariant 0 <= j <= |others|
        invariant position == start.position && mass == start.mass && velocity == start.velocity
        invariant forces == PullsFrom(start, os[..j], sqrt)
      {
        PullsFromNext(start, os, j, sqrt);
        AddPullFrom(others[j], sqrt);
        j := j + 1;
      }
      assert os[..j] == os;
      PullsFromIgnoresForces(start, moved, os, sqrt);
    }
  }

  class Situation {
    var bodies: seq<Body>

    /** The situation owns each of its bodies once. */
    ghost predicate Valid()
      reads this
    {
      forall i, j :: 0 <= i < j < |bodies| ==> bodies[i] != bodies[j]
    }

    /** The contents of the bodies, in order. */
    function States(): (r: seq<BodyState>)
      reads this, bodies
      ensures |r| == |bodies|
    {
      seq(|bodies|, i reads this, bodies requires 0 <= i < |bodies| => bodies[i].State())
    }

    /** `Situation::new`: no bodies. */
    constructor ()
      ensures Valid() && bodies == []
    {
      bodies := [];
    }

    /** `add`: the body joins at the end; the bodies already there stay as they are. */
    method Add(body: Body)
      requires Valid() && body !in bodies
      modifies this
      ensures Valid() && bodies == old(bodies) + [body]
      ensures States() == old(States()) + [body.State()]
    {
      bodies := bodies + [body];
    }

    /** `with`: `add`, returning the situation itself. */
    method With(body: Body) returns (r: Situation)
      requires Valid() && body !in bodies
      modifies this
      ensures r == this
      ensures Valid() && bodies == old(bodies) + [body]
      ensures States() == old(States()) + [body.State()]
    {
      Add(body);
      r := this;
    }

    /** One pass of the loop in `update`: body `i` is updated, its force list is
        cleared, and the pulls from the other bodies are appended in the order
        `head.iter_mut().chain(tail)` visits them. */
    method Visit(i: nat, sqrt: real -> real)
      requires Valid() && i < |bodies| && StepOk(States(), i, sqrt)
      modifies bodies[i]
      ensures States() == Step(old(States()), i, sqrt)
    {
      ghost var u := States();
      ghost var moved := Advance(u[i]);
      ghost var os := Others(u, i);
      StepOkApart(u, i, sqrt);
      StepIs(u, i, sqrt);
      var body := bodies[i];
      var others := Others(bodies, i);
      body.Step(others, os, sqrt);
      assert forall k :: 0 <= k < |bodies| && k != i ==> bodies[k] != body;
      assert States() == u[i := moved.(forces := PullsFrom(moved, os, sqrt))];
    }

    /** `update`: one tick, visiting the bodies in index order. */
    method Update(sqrt: real -> real)
      requires Valid() && CanTick(States(), |bodies|, sqrt)
      modifies bodies
      ensures Valid() && bodies == old(bodies)
      ensures States() == Tick(old(States()), sqrt)
    {
      ghost var start := States();
      var i := 0;
      while i < |bodies|
        invariant 0 <= i <= |bodies|
        invariant CanTick(start, i, sqrt)
        invariant States() == Ticked(start, i, sqrt)
      {
        CanTickPrefix(start, i + 1, |bodies|, sqrt);
        Visit(i, sqrt);
        i := i + 1;
      }
    }

    /** `count_forces`: the number of forces stored over all bodies. */
    method CountForces() returns (r: nat)
      ensures r == TotalForces(States())
    {
      r := 0;
      var i := 0;
      while i < |bodies|
        invariant 0 <= i <= |bodies|
        invariant r == TotalForces(States()[..i])
      {
        assert States()[..i + 1][..i] == States()[..i];
        r := r + |bodies[i].forces|;
        i := i + 1;
      }
      assert States()[..i] == States();
    }
  }
}
