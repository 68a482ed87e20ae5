# Pool simulator physics and table geometry in Dafny

This project models the physics and table layer of a small pool (billiards)
simulator. Everything is stated over Dafny `real`s:

- points and vectors in the plane, with each vector's cached magnitude and angle;
- distance, and the quadrant-by-quadrant angle classifier;
- ball–ball and ball–wall contact tests;
- the two-body elastic collision update;
- the per-frame ball updates, in the current and the earlier version;
- the table: its ball set, pockets, nine-ball and three-ball racks, and the
  removal of pocketed balls.

The square root and the arc tangent (in degrees) that the program takes from
numpy are passed in as a value `n: Numerics` of two functions. The predicate
`RealMath.Lawful(n)` states what the proofs assume of them:

- `sqrt(x)` is non-negative and squares to `x` for `x >= 0`;
- the arc tangent lies strictly between -90 and 90 and has the sign of its
  argument;
- the arc tangent of 1 is 45 and of -1 is -45.

The rack's `sqrt(3)` is `n.sqrt(3.0)`. Python's float `%` is `RealMath.PyMod`,
which floors.

Modules and files:

| file | module | models |
|---|---|---|
| coordinates.dfy | `Points` | `Coordinates`, plus the `+`, `-`, scaling and dot product that collision resolution applies to vectors |
| vector.dfy | `Vectors` | `Vector` with its cache, `get_magnitude`, `get_angle`, `set`, `==` and `!=` |
| utility.dfy | `Utility` | `get_distance`, `get_angle` |
| direction.dfy | `Directions` | `Direction`, `opposite` |
| collisions.dfy | `Collisions` | the ball–ball and ball–wall tests, and `resolve_ball_ball_collision` |
| balls.dfy | `Balls` | `PoolBall`, `apply_force`, `time_step` |
| table.dfy | `Tables` | `PoolTable`, `get_balls`, `get_pockets`, `rack_balls`, `pocket_balls` |
| legacy_vector.dfy | `LegacyVectors` | the earlier `Vector` |
| legacy_ball.dfy | `LegacyBalls` | the earlier `PoolBall` |
| realmath.dfy, wrappers.dfy | `RealMath`, `Wrappers` | the numeric assumptions, squares, Python's `%`, powers; `Option` |

Source and model differ in four places:

- `resolve_ball_ball_collision` uses `-`, scalar `*` and `dot_product` on `Vector` and `Coordinates`. src/physics/vector.py and src/physics/coordinates.py do not define these operators, so the model defines them componentwise as `Points.Coordinates.Minus`,
  `Scale` and `Dot`. The result vectors are built with the `Vector` constructor.
- `pocket_balls` reads `self.pocket_width` (src/pool/pool_table.py:156), which `PoolTable.__init__` never sets. As
  written, the lookup raises `AttributeError` whenever there is a ball and a pocket. The model takes the capture
  distance as a parameter.
- `pocket_balls` treats the collected balls as a set. The source appends a ball in reach of two pockets twice, and its
  second `del` of that ball would raise `KeyError`.
- `pocket_balls` prints a message that formats the undefined name `pocket` (src/pool/pool_table.py:158). As written,
  the first ball in reach of a pocket therefore raises `NameError` before it is collected, so no ball is ever removed.
  The model leaves the print out and removes every non-cue ball in reach, as the method's docstring describes.

## Model

| member | source | states |
|---|---|---|
| Points.Equals | src/physics/coordinates.py:13-14 | two points compare equal exactly when they are the same point (both components agree) |
| Points.NotEquals | src/physics/coordinates.py:16-17 | `!=` holds exactly when the points differ, and is the negation of `==` |
| Points.EqualsReflexive | src/physics/coordinates.py:13-14 | every point equals itself |
| Points.EqualsSymmetric | src/physics/coordinates.py:13-14 | `a == b` and `b == a` agree |
| Directions.Opposite | src/physics/direction.py:17-25 | the opposite is never the direction itself, and it stays on the same north–south or east–west axis |
| Directions.OppositeNorthSouth | src/physics/direction.py:17-23 | NORTH and SOUTH are each other's opposite |
| Directions.OppositeEastWest | src/physics/direction.py:20-25 | EAST and WEST are each other's opposite |
| Directions.OppositeInvolution | src/physics/direction.py:17-25 | turning round twice gives back the original direction |
| Vectors.Angle | src/physics/vector.py:33-62 | no angle exactly for the zero vector; 0, 90, 180, 270 on the axes without the arc tangent; the raw arc tangent in the first quadrant |
| Vectors.New | src/physics/vector.py:9-13 | components stored as given; cache consistent with them; no angle only for the zero vector; magnitude non-negative with square `x^2 + y^2`; angle in `[0, 360)` |
| Vectors.Set | src/physics/vector.py:15-22 | the new components are stored and the cache is re-established; the result is the freshly constructed vector |
| Vectors.Equals | src/physics/vector.py:67-68 | vectors compare equal exactly when their components agree, whatever their caches hold |
| Vectors.NotEquals | src/physics/vector.py:70-71 | `!=` holds exactly when some component differs |
| Vectors.CachedEqualsIsIdentity | src/physics/vector.py:67-68 | for vectors with current caches, `==` is equality of the whole value |
| Vectors.EqualsExamples | tests/physics/vector_test.py:23-33 | `(1, 1) == (1, 1)` and `(1, 1) != (1, 1.1)` |
| Vectors.Magnitude | src/physics/vector.py:24-30 | the magnitude is the non-negative number whose square is `x^2 + y^2` |
| Vectors.MagnitudeLaws | src/physics/vector.py:24-30 | the magnitude is non-negative, squares to `x^2 + y^2`, and is zero exactly for the zero vector |
| Vectors.MagnitudeExamples | tests/physics/vector_test.py:35-51 | `(3, 4)` has magnitude 5 and angle `atan(4/3)`; `(0, 0)` has magnitude 0 and no angle |
| Vectors.AngleQuadrants | src/physics/vector.py:52-62 | off the axes the angle lies in the open quadrant that the signs of `x` and `y` select |
| Vectors.AngleRange | src/physics/vector.py:38-62 | every angle produced lies in `[0, 360)` |
| Vectors.AngleExamples | tests/physics/vector_test.py:53-75 | axis angles 0, 90, 180, 270 and diagonal angles 45, 135, 225, 315 |
| Utility.Distance | src/physics/utility.py:9-18 | the distance is the non-negative number whose square is `dx^2 + dy^2` |
| Utility.DistanceLaws | src/physics/utility.py:9-18 | the distance is non-negative, squares to `dx^2 + dy^2`, is symmetric, is zero exactly for coinciding points, and by default is measured from the origin |
| Utility.DistanceCompare | src/physics/utility.py:18 | comparing a distance with a non-negative bound is comparing squares |
| Utility.Angle | src/physics/utility.py:20-45 | no angle exactly when the points coincide; exact axis angles for axis-aligned offsets |
| Utility.AngleIsVectorAngle | src/physics/utility.py:20-57 | the angle between two points is `Vector.get_angle` of their offset |
| Utility.AngleFromOriginAgrees | src/physics/utility.py:20-31 | measured from the default origin, it agrees with `Vector.get_angle(x, y)` for every `x`, `y` |
| Utility.AngleTranslationInvariant | src/physics/utility.py:30-31 | moving both points by the same offset leaves the angle unchanged |
| Utility.AngleQuadrants | src/physics/utility.py:47-57 | off the axes the angle lies in `[0, 360)` and in the quadrant of the signs of `a - b` |
| Collisions.BallBallSymmetric | src/physics/collisions.py:6-18 | contact detection does not depend on which ball comes first |
| Collisions.CheckBallBall | src/physics/collisions.py:6-18 | balls are in contact exactly when the radius sum is non-negative and the squared centre distance is at most its square (touching included), so a negative sum never collides |
| Collisions.BallBallExamplesX | tests/physics/collisions_test.py:30-47 | radius 0.5 balls 1.01 apart on the x-axis do not collide; 1.0 and 0.99 apart they do |
| Collisions.BallBallExamplesY | tests/physics/collisions_test.py:49-66 | radius 0.5 balls 2.01 apart on the y-axis do not collide; 1.0 and 0.99 apart they do |
| Collisions.CheckBallWall | src/physics/collisions.py:48-65 | the wall test holds exactly when the ball's edge reaches the boundary on some side, touching included |
| Collisions.BallWallExamples | tests/physics/collisions_test.py:72-122 | the centred ball touches no wall; every side and corner position of the test suite does |
| Collisions.ResolveBallBall | src/physics/collisions.py:21-46 | the new velocities are fresh vectors with current caches whose components are the elastic update |
| Collisions.ResolveBallBallConserves | src/physics/collisions.py:35-38 | on the vectors returned, total momentum (componentwise) and total kinetic energy equal their values before |
| Collisions.Resolve | src/physics/collisions.py:37-38 | each ball's velocity changes only along the line of centres: the change has no component across it. The size of each change, and conservation, are stated by `Collisions.ResolveAlongCentres` and `Collisions.ResolveConserves` |
| Collisions.Impulse | src/physics/collisions.py:37-38 | the impulse factor times the squared centre distance is the mass share times the projection of the relative velocity |
| Collisions.ResolveAlongCentres | src/physics/collisions.py:37-38 | each velocity changes only along the line of centres, by impulses balanced by mass whose sum reverses the relative velocity's projection |
| Collisions.ResolveConserves | src/physics/collisions.py:35-38 | the update conserves total momentum in `x` and `y` and total kinetic energy |
| Collisions.ResolveKeepsPerpendicular | src/physics/collisions.py:37-38 | each ball keeps its velocity component perpendicular to the line of centres, for any masses |
| Collisions.ResolveEqualMasses | src/physics/collisions.py:37-38 | with equal masses both balls move by the same projection `w` along the line of centres, in opposite senses |
| Collisions.EqualMassesSwapAlongCentres | src/physics/collisions.py:37-38 | with equal masses the velocity components along the line of centres are exchanged |
| Collisions.ResolveExampleStationary | tests/physics/collisions_test.py:129-138 | `(2, 0)` against a ball at rest gives `(0, 0)` and `(2, 0)` |
| Collisions.ResolveExampleHeadOn | tests/physics/collisions_test.py:141-150 | `(2, 0)` against `(-2, 0)` gives `(-2, 0)` and `(2, 0)` |
| Collisions.ResolveExampleHeadOnUneven | tests/physics/collisions_test.py:153-162 | `(2, 0)` against `(-1, 0)` gives `(-1, 0)` and `(2, 0)` |
| Collisions.ResolveExampleDiagonal | tests/physics/collisions_test.py:166-175 | `(2, 2)` against a ball at rest along the diagonal gives `(0, 0)` and `(2, 2)` |
| Collisions.ResolveExampleDiagonalHeadOn | tests/physics/collisions_test.py:178-187 | `(2, 2)` against `(-2, -2)` gives `(-2, -2)` and `(2, 2)` |
| Collisions.ResolveExampleGlancing | tests/physics/collisions_test.py:191-200 | `(1, 1)` from `(-1, 0)` against a ball at rest gives `(0, 1)` and `(1, 0)` |
| Balls.NewBall | src/pool/pool_ball.py:14-25 | kind, position, mass and radius stored; without a velocity the ball is at rest with a current cache (magnitude 0, no angle) |
| Balls.ApplyForce | src/pool/pool_ball.py:27-37 | mass times the change of velocity is the force, componentwise; position, kind, mass and radius unchanged; the cache is left as it was |
| Balls.TimeStep | src/pool/pool_ball.py:39-50 | the ball moves by its pre-step velocity, the velocity is scaled by 0.99, kind, mass and radius unchanged, the cache left as it was |
| Balls.ApplyForceRefreshed | src/pool/pool_ball.py:27-37 | the same components as `apply_force`, with a current cache |
| Balls.TimeStepRefreshed | src/pool/pool_ball.py:39-50 | the same position and velocity components as `time_step`, with a current cache |
| Balls.ApplyForceRefreshedIsNew | src/pool/pool_ball.py:27-37 | the refreshed `apply_force` compares equal to the plain one, and its velocity is the vector freshly constructed from the new components |
| Balls.TimeStepRefreshedIsNew | src/pool/pool_ball.py:39-50 | the refreshed `time_step` compares equal to the plain one, and its velocity is the vector freshly constructed from the damped components |
| Balls.ApplyForceLeavesCacheStale | src/pool/pool_ball.py:36-37 | a ball at rest pushed by `(10, 0)` has velocity `(1, 0)` but still caches "no angle" |
| Balls.TimeStepLeavesCacheStale | src/pool/pool_ball.py:49-50 | a ball moving at `(1, 0)` has velocity `(0.99, 0)` after a step but still caches magnitude 1 |
| Balls.StepsClosedForm | src/pool/pool_ball.py:39-50 | after `k` force-free frames the velocity is `0.99^k v0` and the displacement `(1 + 0.99 + ... + 0.99^(k-1)) v0` |
| LegacyVectors.Angle | pool/vector.py:46-74 | the angle is missing (the call raises) exactly for the zero vector; axis vectors get 0, 90, 180, 270 |
| LegacyVectors.AngleAgreesWithCurrent | pool/vector.py:46-74 | wherever the earlier `get_angle` returns, it returns what the current one does, and it returns exactly where the current one gives an angle |
| LegacyVectors.AngleQuadrants | pool/vector.py:64-74 | off the axes the angle lies in the quadrant of the signs of `x` and `y` |
| LegacyVectors.AngleExamples | test/vector_test.py:10-32 | axis angles 0, 90, 180, 270 and diagonal angles 45, 135, 225, 315 |
| LegacyVectors.New | pool/vector.py:23-27 | the constructor fails exactly for `(0, 0)`; otherwise it stores the components with a consistent cache |
| LegacyVectors.Set | pool/vector.py:29-36 | `set` refreshes magnitude and angle from the new components, failing only for `(0, 0)` |
| LegacyVectors.NewAgreesWithCurrent | pool/vector.py:23-27 | for a non-zero vector the earlier constructor builds the same components, magnitude and angle as the current one |
| LegacyVectors.ZeroVectorRaises | pool/vector.py:52-65 | `Vector(0, 0)` has no angle to compute, while the current vector answers magnitude 0 and no angle |
| LegacyBalls.ApplyForce | pool/pool_ball.py:21-31 | `MASS` (0.17) times the change of velocity is the force; position, name and radius unchanged |
| LegacyBalls.TimeStep | pool/pool_ball.py:33-40 | the position moves by the velocity; the velocity, name and radius are unchanged, with no damping |
| LegacyBalls.StepsClosedForm | pool/pool_ball.py:33-40 | after `k` frames the ball has moved by exactly `k` times its unchanged velocity |
| Tables.GetBalls | src/pool/pool_table.py:40-69 | every one of the ten kinds is present, each at the origin and at rest, with its own kind, mass 10 and radius 15 |
| Tables.GetPockets | src/pool/pool_table.py:71-85 | six pocket centres: the four corners and the two long-side midpoints, all on the table's boundary |
| Tables.RackSpots | src/pool/pool_table.py:87-141 | a rack places exactly CUE to THREE for three-ball and all ten kinds for nine-ball |
| Tables.SpotsChain | src/pool/pool_table.py:99-141 | cue and foot spots, and each further spot `(sqrt(3) r, +-r)` from the one it is placed behind |
| Tables.RackBalls | src/pool/pool_table.py:87-141 | racked balls move to their spots; no ball changes kind, mass, radius or velocity; unracked balls are untouched |
| Tables.RackSpotsPlaced | src/pool/pool_table.py:99-117 | the cue ball goes to `(L 2/8, W/2 + 20)` and the ONE ball to `(L 6/8, W/2)` |
| Tables.RackChain | src/pool/pool_table.py:103-123 | TWO and THREE sit `(sqrt(3) r, +r)` and `(sqrt(3) r, -r)` from ONE |
| Tables.RackChainNine | src/pool/pool_table.py:125-141 | in the nine-ball rack each further ball sits `(sqrt(3) r, +-r)` from its predecessor |
| Tables.BehindTouches | src/pool/pool_table.py:119-141 | centres `(sqrt(3) r, +-r)` apart are exactly `2 r` apart |
| Tables.RackNeighboursTouch | src/pool/pool_table.py:119-141 | every nine-ball rack ball touches the one it was placed behind: centres exactly `2 r` apart |
| Tables.RackCentreline | src/pool/pool_table.py:128-141 | NINE is ONE plus `(2 sqrt(3) r, 0)` and EIGHT is ONE plus `(4 sqrt(3) r, 0)`, both on `y = W/2` |
| Tables.ThreeBallMirror | src/pool/pool_table.py:103-112 | TWO and THREE are mirror images about ONE's row, and the three-ball rack moves no other ball |
| Tables.NewTable | src/pool/pool_table.py:19-32 | width is half the length; the balls are `get_balls` racked for nine-ball; pockets from `get_pockets`; pocket radius 3.25 cue-ball radii, i.e. 48.75 |
| Tables.PocketBalls | src/pool/pool_table.py:143-164 | a ball stays exactly when it is the cue ball or is not closer than the capture distance to any pocket; kept balls are unchanged and nothing else about the table changes |

## Left out

- src/main.py and src/pool/main.py: the window, event loop, drawing and colours. The wall-resolution function they call
  is not part of this model.
- pool/ball.py: a plain record with no behaviour.
- pool/vector.py's `Point`: a record of two coordinates that no modelled operation uses.
- LegacyVectors.Set: when `set(0, 0)` raises, the source has already assigned `x`, `y` and `mag`, so the vector is left
  half-updated. The model returns `None` and does not keep that partial state.
- `__str__` methods, including the stale `x_pos` and `y_pos` fields in pool/pool_ball.py.
- Floating-point rounding. All arithmetic is over the reals. The tests' almost-equal checks become exact equalities.
- The numpy square root and arc tangent: passed in as `Numerics` and constrained by `Lawful` instead of computed.
- The `BallType` and `GameType` enums: their modules are not part of this model. Small Dafny enums with the members
  used take their place.
- A `vel` supplied to `PoolBall.__init__` in src/pool/pool_ball.py: it is never stored, so only the path without one
  is modelled.
- The earlier `PoolBall.__init__`: the ball imports `Vector` from a `helper` module that is not part of this model.
  pool/vector.py's `Vector` stands in for it. If `helper.Vector` is that class, the default `vel=Vector(0, 0)` is the
  zero vector it cannot build (see Findings). The shared mutable default, which is heap aliasing, is left out too.
- The drawing-only table fields `rail_width`, `corner_pocket_width`, `side_pocket_width`, `corner_pocket_angle` and
  `side_pocket_angle`. All are set to 0 and never read by the operations modelled.
- Collisions.ResolveBallBall: requires distinct centres and a non-zero total mass. For coinciding centres the source
  divides by a numpy zero, which yields `inf` or `nan` velocities with a runtime warning. The model excludes that input.
  A zero mass sum is a plain Python division and raises `ZeroDivisionError`.
- Balls.ApplyForce: requires a non-zero mass, because the source divides by it.
- Tables.RackBalls: requires the racked kinds to be present, because the source looks each one up and would raise
  `KeyError`.

## Findings

| source | as written | input that shows it | evidently intended | confidence | as-written member | corrected member |
|---|---|---|---|---|---|---|
| src/pool/pool_ball.py:36-37 | `apply_force` adds to `vel.x` and `vel.y` directly, so the vector's cached `mag` and `ang` keep their old values | a ball of mass 10 at rest pushed by `(10, 0)`: velocity `(1, 0)`, cached angle still "none" | the cache refreshed from the new components, as `Vector.set` does | medium, not executed | Balls.ApplyForceLeavesCacheStale | Balls.ApplyForceRefreshed |
| src/pool/pool_ball.py:49-50 | `time_step` scales `vel.x` and `vel.y` directly and leaves `mag` as it was | a ball moving at `(1, 0)` with a current cache: after one step its velocity is `(0.99, 0)` but its cached magnitude is still 1 | the cache refreshed after damping | medium, not executed | Balls.TimeStepLeavesCacheStale | Balls.TimeStepRefreshed |
| pool/vector.py:52-65 | for `x == 0, y == 0` neither axis branch returns, so `get_angle` computes `y / x` and raises `ZeroDivisionError`. `Vector(0, 0)` therefore cannot be built. If the `helper.Vector` that pool/pool_ball.py imports is this class, its default argument at pool/pool_ball.py:13 fails the same way | `Vector(0, 0)` | the zero vector has no angle, as the later module's `get_angle` returns `None` | high, not executed | LegacyVectors.ZeroVectorRaises | Vectors.New |
