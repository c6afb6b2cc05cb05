# rs-kepler physics core in Dafny

rs-kepler is a toy two-dimensional N-body gravity simulation. This project models its
physics engine and proves properties of that model:

- the vector algebra of `Coordinate` and `EuclideanVector` (src/maths.rs);
- the point-mass `Body` with its builder setters, Newton's law of attraction with G = 10,
  force accumulation and the `update` integration step (src/physics.rs);
- the windowed program's own copy of the vectors and of a smaller `Body`, and the
  `Situation` whose `update` advances every body by one tick and whose `count_forces`
  counts the stored forces (src/main.rs:17-152).

Files:

- `reals.dfy` (module `Reals`) holds facts about real arithmetic and square roots.
- `maths.dfy` (module `Maths`) models src/maths.rs.
- `physics.dfy` (module `Physics`) models src/physics.rs and the scenarios its tests check.
- `kepler.dfy` (module `Kepler`) models src/main.rs.

Numbers are `real`, so every algebraic identity holds exactly. The platform's square root
(`f64::hypot` in src/maths.rs, `f64::sqrt` in src/main.rs) is a parameter
`sqrt: real -> real`. Lemmas that need its meaning assume `IsSqrt(sqrt)`: it returns the
non-negative root of every non-negative argument. Over the reals, `hypot(dx, dy)` and
`sqrt(dx*dx + dy*dy)` are the same number. The copy of the vector code in src/main.rs:20-81
defines fewer operations (no `towards`, negation, vector `+` or `-`, `Coordinate::from` or coordinate
difference), but each operation it defines coincides with the src/maths.rs one, so `Kepler`
reuses `Maths`. src/main.rs:17 has
G = 10 again, so `Kepler` also reuses the law `Physics.Attraction` and the fold
`Physics.Integrate`.

The engine's objects are classes:

- `Physics.Body` and `Kepler.Body` are classes whose methods assign their fields.
  `Physics.Body.PullFrom` and `Kepler.Body.PullFrom` read both bodies and apply the law.
- `Kepler.Situation` holds a sequence of `Kepler.Body` objects. Its methods change those
  bodies in place.

The effect of `Situation::update` is specified on values:

- `Kepler.BodyState` is one body's content.
- `Kepler.Step` is one pass of the loop.
- `Kepler.Ticked` is the first `i` passes, and `Kepler.Tick` the whole call.
- `Kepler.CanTick` states what each pass needs: a mass that can divide the forces, and a
  non-zero distance to every other body.

The lemmas prove the promised properties of `Tick`:

- n − 1 forces per body and n · (n − 1) in total;
- motion by the pre-tick velocity;
- the order of the forces, with the bodies visited earlier already moved.

A sphere's radius would be the cube root of its volume. The code instead calls
`powf(0.33)` (src/physics.rs:45), and the model follows the code
(`Physics.RadiusExponent`).

## Model

| member | source | states |
|---|---|---|
| Maths.CoordinateFrom | src/maths.rs:10-12 | the coordinate's x and y are the pair's first and second entries |
| Maths.Difference | src/maths.rs:61-67 | `a - b` is the displacement that takes `b` to `a` |
| Maths.Between | src/maths.rs:22-24 | `between(from, to)` equals `to - from` and takes `from` to `to` |
| Maths.Offset | src/maths.rs:54-59 | `c += v` (also src/main.rs:47-52) moves the coordinate by the vector; `Maths.OffsetThenBetween` proves that `between(c, c + v)` is `v` |
| Maths.Towards | src/maths.rs:35-37 | `towards(to)` is the vector between the origin and `to` |
| Maths.Add | src/maths.rs:15 | derived `u + v` and `u += v` (also src/main.rs:54-59) add field by field; `Maths.SubtractUndoesAdd` proves that subtracting `v` undoes it |
| Maths.Scale | src/maths.rs:15 | derived `v * k` (also src/main.rs:61-67) scales each component; `Maths.NormSquaredScaled`, `Maths.MagnitudeScaled` and `Maths.NegateScaled` prove how it acts on length and sign |
| Maths.Subtract | src/maths.rs:15 | derived `u - v`: adding `v` back gives `u` |
| Maths.SubtractUndoesAdd | src/maths.rs:15 | derived `(u + v) - v` is `u` for every `u` and `v` |
| Maths.Negate | src/maths.rs:40-46 | `-v` is the additive inverse: `v + (-v)` is the zero vector |
| Maths.DivideBy | src/maths.rs:15 | derived `v / k` for non-zero `k` is undone by derived `* k` |
| Maths.Versor | src/maths.rs:30-33 | for a non-zero magnitude, the versor scaled by the magnitude is the vector again |
| Maths.OffsetThenBetween | src/maths.rs:54-59 | after `c += v`, `between(old c, new c)` is `v` |
| Maths.NegateInvolutive | src/maths.rs:40-46 | `-(-v)` is `v` for every vector |
| Maths.BetweenAntisymmetric | src/maths.rs:22-24 | `between(a, b) == -between(b, a)`, and double negation is the identity |
| Maths.Magnitude | src/maths.rs:26-28 | `magnitude` (also src/main.rs:37-39) is the root of the squared length; `Maths.MagnitudeZero` and `Maths.MagnitudeScaled` prove it is non-negative, zero only for the zero vector, and scales by abs(k) |
| Maths.NormSquaredZero | src/maths.rs:26-28 | the sum of squared components is non-negative and zero exactly for the zero vector |
| Maths.MagnitudeZero | src/maths.rs:26-28 | `magnitude` is non-negative and zero exactly when both components are zero |
| Maths.DistanceZero | src/maths.rs:22-28 | the distance between two coordinates is zero exactly when they coincide, and it is symmetric |
| Maths.DistancePositive | src/maths.rs:22-28 | two different coordinates have a positive distance |
| Maths.NormSquaredScaled | src/maths.rs:26-28 | scaling by `k` multiplies the squared length by `k²` |
| Maths.MagnitudeScaled | src/maths.rs:26-28 | the magnitude of `v * k` is abs(k) times the magnitude of `v` |
| Maths.VersorIsUnit | src/maths.rs:30-33 | a non-zero vector's versor has magnitude 1 and equals the vector times 1/magnitude, a positive multiple |
| Maths.NegateScaled | src/maths.rs:40-46 | negating and then scaling is scaling and then negating |
| Maths.ScalarComparisons | src/maths_tests.rs:40-46 | (1, 0) == 1, (1, 0) != 2, (4, 3) == 5 and (4, 3) != 1 |
| Maths.EqualsScalar | src/maths.rs:69-73 | `v == s` for a scalar (also src/main.rs:77-81) compares the magnitude with `s`; `Maths.ScalarComparisons` and `Maths.EqualsScalarZero` prove what it decides |
| Maths.EqualsScalarZero | src/maths.rs:69-73 | a vector equals the scalar 0 exactly when it is the zero vector; it never equals a negative scalar |
| Physics.GravitationalConstant | src/physics.rs:4 | G = 10 (also src/main.rs:17) |
| Physics.Density | src/physics.rs:17 | `Body::DENSITY` = 3, the mass per unit of volume that `with_mass` divides by |
| Physics.Attraction | src/physics.rs:58-63 | if either mass is zero the pull is the zero vector |
| Physics.AttractionAlongJoin | src/physics.rs:58-63 | at a positive distance d the pull is `between(from, to)` scaled by (G · m1 · m2 / d²) / d |
| Physics.AttractionIsAttractive | src/physics.rs:58-63 | for positive masses the pull is a positive multiple of `between(from, to)`, so it points at the other body |
| Physics.StrengthSign | src/physics.rs:62 | G · m1 · m2 / d² is non-negative for non-negative masses and positive for positive ones |
| Physics.AttractionMagnitude | src/physics.rs:58-63 | the pull's magnitude is G · abs(m1 · m2) / d², which is G · m1 · m2 / d² for non-negative masses |
| Physics.AttractionReciprocal | src/physics.rs:58-63 | the pull on one body from another is the negation of the pull on the other from the first |
| Physics.Integrate | src/physics.rs:52-55 | the loop over the stored forces adds each `force / mass` to the velocity in list order; `Physics.IntegrateIsTotalAcceleration` proves the result is the velocity plus the sum of the forces divided by the mass |
| Physics.RadiusOf | src/physics.rs:44-45 | the radius is `powf` of (3 / (4π)) · (mass / 3) with exponent 0.33; `Physics.Body.WithMass` stores it |
| Physics.IntegrateIsTotalAcceleration | src/physics.rs:52-55 | folding `force / mass` into the velocity force by force adds the sum of the forces divided by the mass |
| Physics.IntegrateOne | src/physics.rs:52-55 | with one stored force the velocity gains that force divided by the mass |
| Physics.PullFromUnitMass | src/physics.rs:49-67 | a unit mass at the origin pulled by a unit mass at `to` gains `to` scaled by a positive coefficient |
| Physics.Body.constructor | src/physics.rs:19-29 | `new()`: position (0, 0), mass 0, radius 0, velocity (0, 0), no forces, empty name, not highlighted |
| Physics.Body.At | src/physics.rs:30-33 | `at` sets the position and leaves every other field as it was |
| Physics.Body.Moving | src/physics.rs:34-37 | `moving` sets the velocity and leaves every other field as it was |
| Physics.Body.Named | src/physics.rs:38-41 | `named` sets the name and leaves every other field as it was |
| Physics.Body.WithMass | src/physics.rs:42-47 | `with_mass` sets the mass and the radius `powf((3 / (4π)) · mass / 3, 0.33)`, and nothing else |
| Physics.Body.Update | src/physics.rs:49-56 | the position moves by the OLD velocity; the velocity integrates the stored forces divided by the mass in list order; forces, mass, name, radius and highlight are unchanged |
| Physics.Body.PullFrom | src/physics.rs:58-63 | the pull this body feels from `other` is `Physics.Attraction` of the two positions and masses, whose properties `Physics.AttractionAlongJoin`, `Physics.AttractionIsAttractive`, `Physics.AttractionMagnitude` and `Physics.AttractionReciprocal` prove |
| Physics.Body.AddPullFrom | src/physics.rs:65-67 | appends exactly one force, the pull from `other`, after the earlier forces; no other field changes |
| Physics.UpdatedWithoutForces | src/physics_tests.rs:7-12 | a body with no forces keeps its velocity (4.4, 7.7) through `update` |
| Physics.PulledFromUpperRight | src/physics_tests.rs:15-28 | a resting unit mass at the origin pulled by a unit mass up and to the right ends with both velocity components positive |
| Physics.PulledFromUpperLeft | src/physics_tests.rs:31-46 | a unit mass moving with (1, 1) pulled by a unit mass up and to the left ends with dx < 1 and dy > 1 |
| Kepler.Advance | src/main.rs:96-103 | `update` on a value keeps the mass and forces |
| Kepler.Pull | src/main.rs:105-110 | `pull_from` on values is `Physics.Attraction` with G = 10, so the attraction lemmas of `Physics` apply to it |
| Kepler.PullsFrom | src/main.rs:141-143 | the rebuilt list holds one force per other body |
| Kepler.PullsFromIgnoresForces | src/main.rs:105-110 | the pulls a body collects depend on its position and mass only, not on the forces it already holds |
| Kepler.PullsFromAt | src/main.rs:141-143 | the k-th appended force is the pull from the k-th body visited |
| Kepler.Others | src/main.rs:134-141 | the chained head and tail visit every body except `i`, in index order: body k for k < i, body k + 1 otherwise |
| Kepler.StepOkApart | src/main.rs:141-142 | a body allowed to move is apart from every other body at its new position |
| Kepler.Step | src/main.rs:133-144 | one pass of the loop keeps the number of bodies |
| Kepler.Ticked | src/main.rs:133-144 | any number of passes keeps the number of bodies |
| Kepler.CanTickPrefix | src/main.rs:133-144 | if the first n passes can run, so can every shorter prefix |
| Kepler.TickedFrame | src/main.rs:133-144 | after i passes, bodies from index i on are untouched, and each earlier body is as its own pass left it |
| Kepler.VisitedUntouched | src/main.rs:133-138 | pass i finds body i in its pre-tick state, and the tick's result for body i is what pass i made of it |
| Kepler.TickMovesBody | src/main.rs:133-139 | after a tick each body keeps its mass, has moved by its pre-tick velocity, has integrated its pre-tick forces, and holds n − 1 forces |
| Kepler.TickForces | src/main.rs:134-142 | body i's new forces are the pulls, at its new position, from the bodies before it (already moved) and then after it (not yet moved) |
| Kepler.TickForceFromEarlier | src/main.rs:134-142 | for k < i, body i's k-th force is the pull from body k at the position body k reached in this tick |
| Kepler.TickForceFromLater | src/main.rs:134-142 | for k ≥ i, body i's k-th force is the pull from body k + 1 at its pre-tick position |
| Kepler.Tick | src/main.rs:132-145 | the states after one `update`: `Kepler.TickMovesBody`, `Kepler.TickForces` and `Kepler.TickTotalForces` prove how each body moves and which forces it then holds |
| Kepler.TotalForces | src/main.rs:147-151 | `count_forces` on values adds up the force-list lengths; `Kepler.TotalForcesUniform` proves it is the number of bodies times m when every body holds m forces |
| Kepler.TotalForcesUniform | src/main.rs:147-151 | if every body holds m forces, `count_forces` is the number of bodies times m |
| Kepler.TickTotalForces | src/main.rs:132-151 | after a tick of n bodies, `count_forces` is n · (n − 1) |
| Kepler.Body.constructor | src/main.rs:91 | `new()`: position (0, 0), mass 0, velocity (0, 0), no forces |
| Kepler.Body.At | src/main.rs:92 | `at` sets the position and nothing else |
| Kepler.Body.Moving | src/main.rs:93 | `moving` sets the velocity and nothing else |
| Kepler.Body.WithMass | src/main.rs:94 | `with_mass` sets the mass and nothing else |
| Kepler.Body.Update | src/main.rs:96-103 | the new state is `Advance` of the old: moved by the old velocity, then the stored forces integrated |
| Kepler.Body.PullFrom | src/main.rs:105-110 | the pull this body feels from `other` is `Kepler.Pull` of the two states |
| Kepler.Body.AddPullFrom | src/main.rs:112-114 | appends the pull from `other`, computed before the push; nothing else changes |
| Kepler.Body.Step | src/main.rs:136-143 | the visited body is updated, its forces cleared, and then it holds exactly the pulls from the other bodies in visiting order; only its position, velocity and forces change |
| Kepler.Situation.States | src/main.rs:123-125 | one state per body, in order |
| Kepler.Situation.constructor | src/main.rs:128 | `new()` holds no bodies |
| Kepler.Situation.Add | src/main.rs:130 | the body is appended at the end; the bodies already there, and their states, are unchanged |
| Kepler.Situation.With | src/main.rs:129 | as `add`, and returns the situation itself |
| Kepler.Situation.Visit | src/main.rs:133-144 | one pass changes the states exactly as `Kepler.Step` does |
| Kepler.Situation.Update | src/main.rs:132-145 | the bodies and their order are unchanged; their states become `Tick` of the old states |
| Kepler.Situation.CountForces | src/main.rs:147-151 | returns the sum of the force-list lengths over all bodies |

## Left out

- The GTK, cairo and glib code is not modelled, because it is user interface and I/O. This covers painting, debug text, `build_ui`, `main`, the timers and the `Rc<RefCell<…>>` sharing (src/main.rs:154-260).
- The `chrono` clock text is not modelled, because it is a foreign call.
- IEEE-754 rounding, NaN and infinities are not modelled; scalars are reals. A division by zero in the source produces NaN or infinity. The model makes it a precondition instead:
  - `Physics.Integrate`, `Physics.Body.Update` and `Kepler.Body.Update` require a non-zero mass unless there are no forces.
  - `Physics.Attraction` and both `AddPullFrom` methods require a non-zero distance.
  - `Kepler.Situation.Update` requires `CanTick`, which demands both conditions of every pass.
- `sqrt` and `hypot` are parameters. Only the properties that need a true square root assume `IsSqrt`.
- Physics.Body.WithMass: `powf` is a parameter, so the model states the radius as `powf` applied to the source's argument and exponent, not as a number.
- `PartialEq for Body` is not modelled. The version in src/physics.rs:70-74 calls itself without end. The version in src/main.rs:117-121 compares addresses. The model pairs bodies by index, and `Kepler.Situation.Valid` keeps each body object in the situation once.
- Vector-to-vector equality is not modelled as an operation. It is checked by src/maths_tests.rs:17-35 and src/physics_tests.rs:11, but src/maths.rs:15 derives no `PartialEq` for `EuclideanVector`. Dafny's structural equality of the datatype plays that role.
- `Display` to four decimals (src/maths.rs:48-52) is not modelled, because it is cosmetic string formatting of floats.
- The `highlighted` flag is modelled only as a field: no code shown sets it after `new()`, and the physics never reads it.
- Compound assignments `c += v` and `u += v` act on copied values. The model writes them as functions (`Maths.Offset`, `Maths.Add`) whose result is assigned back.
- Physics.Body.AddPullFrom, Kepler.Body.AddPullFrom: both require `other != this`, which Rust's borrow rules already guarantee.
- Physics.PulledFromUpperRight, Physics.PulledFromUpperLeft: these generalise the tests in two ways:
  - They hold for every position of the other body in the quadrant the test uses, not only (10, 10) and (-10, 10).
  - They assume only that the root gives that position a positive distance from the origin. `Maths.DistancePositive` proves that of every true square root.
- Kepler.Situation.CountForces: returns an unbounded `nat`; `usize` overflow is not modelled.
- Kepler.Situation.Visit: it is the body of the loop in `Situation::update`, written as a method of its own. The source has no such function.
- Kepler.Body.Step: it is what that loop body does to the visited body (`update`, `clear`, then the inner `add_pull_from` loop), written as a `Body` method of its own; the source has no such function. The other bodies reach it as a sequence built by `Kepler.Others`, the same order `head.iter_mut().chain(tail)` visits them.
