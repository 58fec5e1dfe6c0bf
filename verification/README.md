# Classical-mechanics teaching scripts, modelled in Dafny

This project models the exact algebra and bookkeeping inside six small
classical-mechanics simulation scripts. Each script is mostly drawing and
event-loop code around a numerical core, and the core is what is modelled.
All arithmetic is exact `real` arithmetic.

- `vectors.dfy` (module `Vectors`): 2-D and 3-D vectors, 3x3 matrices, the
  row-major flattening numpy's `reshape` uses, the cross product, and
  normalisation by an abstract norm. The norm stands for `np.linalg.norm`.
  `IsNorm2`/`IsNorm3` only ask it to be positive on non-zero vectors.
  `IsEuclidean2`/`IsEuclidean3` also ask that it be non-negative and square
  to the dot product.
- `rigid_body.dfy` (module `RigidBodyDynamics`): the rigid body of the
  falling-box demo. It covers:
  - the 19-slot state (position, row-major rotation, linear momentum, angular
    momentum, time);
  - the `star` operator;
  - the derivative `f` handed to the ODE solver;
  - the row-ordered `orthonormalize`;
  - the pose accessors;
  - the exact part of `get_angle_2d`;
  - the constructor, which fills the state buffer slot by slot.
- `polygon_collision.dfy` (module `PolygonCollision`): the separating-axis
  test for convex polygons. It covers:
  - `compute_edges`, with wrap-around;
  - `compute_axes`: quarter-turn normals, normalised, then run through the
    source's `% 1` duplicate filter;
  - `polygons_collide`, the strict overlap test along every kept axis;
  - a corrected filter, beside the source's own.
- `free_fall.dfy` (module `FreeFall`): the lab 1 `Simulation` class. It steps
  a falling ball by explicit Euler and keeps a time trace and a height trace.
  A ghost invariant ties both traces to the closed-form Euler trajectory. The
  module also has the screen mapping `sim_to_screen_y`.
- `ball_slanted_fall.dfy` (module `BallSlantedFall`): the ball dropped on a
  slanted floor. It covers:
  - the linear-interpolation floor height;
  - the inclusive hit test `collision_detection`;
  - the response in `Ball.update`, which negates the velocity's normal
    component and keeps its tangential component;
  - the floor line the script draws, and the line its normal belongs to.
- `circle_collision.dfy` (module `CircleCollision`): the inclusive
  circle-overlap test, and its restatement without a square root.
- `projectile.dfy` (module `Projectile`): the lab 2 projectile with linear
  drag. It covers:
  - the derivative `f`;
  - `sim_to_screen` and its inverse;
  - the `Simulation` bookkeeping around an opaque solver.

A few facts about the code shape the model:

- `RigidBody.__init__` hard-codes mass 1, identity inertia and zero
  velocities, and validates nothing
  (box_falling/2d-square-falling-from-the-sky.py:23-25).
- `orthonormalize` reads input row 2 into `r2` but never uses it
  (box_falling/2d-square-falling-from-the-sky.py:88). The model's
  precondition asks only that row 0 be non-zero and that rows 0 and 1 not be
  parallel.
- Lab 2's constructor sets `paused = False`, although its comment says
  "starting in paused mode" (lab2/2d-projectile-simulation.py:45).

## Model

| member | source | states |
|---|---|---|
| Vectors.Flatten | box_falling/2d-square-falling-from-the-sky.py:31 | a 3x3 matrix flattens to 9 numbers |
| Vectors.FlattenRowMajor | box_falling/2d-square-falling-from-the-sky.py:31 | entry (i, j) of the matrix lands in slot 3i + j of the flattening (row-major `reshape`) |
| Vectors.Reshape | box_falling/2d-square-falling-from-the-sky.py:107 | numpy's row-major `reshape([3,3])` of nine numbers; `ReshapeFlatten` and `FlattenReshape` make it the inverse of `Flatten` |
| Vectors.ReshapeFlatten | box_falling/2d-square-falling-from-the-sky.py:55-58 | reshaping a flattened matrix gives the matrix back |
| Vectors.FlattenReshape | box_falling/2d-square-falling-from-the-sky.py:55-58 | flattening a reshaped 9-vector gives the vector back |
| Vectors.Normalize3 | box_falling/2d-square-falling-from-the-sky.py:90-96 | `x / np.linalg.norm(x)` for a non-zero x; `NormalizeScales3` and `NormalizeUnit3` state its properties |
| Vectors.NormalizeScales3 | box_falling/2d-square-falling-from-the-sky.py:90 | dividing a non-zero vector by its norm scales it by a positive factor |
| Vectors.NormalizeUnit3 | box_falling/2d-square-falling-from-the-sky.py:90 | under the Euclidean norm a normalised vector has unit length |
| RigidBodyDynamics.Pack | box_falling/2d-square-falling-from-the-sky.py:29-33 | the packed state has exactly 19 slots |
| RigidBodyDynamics.Unpack | box_falling/2d-square-falling-from-the-sky.py:48-55 | reads position from slots 0-2, the row-major rotation from 3-11, the momenta from 12-14 and 15-17 and time from 18, the layout `f` slices; `UnpackPack` and `PackUnpack` below make it the inverse of `Pack` |
| RigidBodyDynamics.UnpackPack | box_falling/2d-square-falling-from-the-sky.py:29-33 | reading position, rotation, momenta and time back out of a packed state gives them unchanged |
| RigidBodyDynamics.PackUnpack | box_falling/2d-square-falling-from-the-sky.py:29-33 | every 19-slot vector is the packing of the parts read out of it |
| RigidBodyDynamics.Star | box_falling/2d-square-falling-from-the-sky.py:71-82 | star(v) has a zero diagonal and entry (i, j) is minus entry (j, i) |
| RigidBodyDynamics.StarIsCross | box_falling/2d-square-falling-from-the-sky.py:71-82 | star(v) times w is the cross product v x w |
| RigidBodyDynamics.StarSelf | box_falling/2d-square-falling-from-the-sky.py:71-82 | star(v) times v is the zero vector |
| RigidBodyDynamics.AngularVelocity | box_falling/2d-square-falling-from-the-sky.py:49 | the inverse inertia tensor applied to the angular momentum in slots 15-17; `RateRotatesColumns` and `RateZeroSpin` state what the derivative does with it |
| RigidBodyDynamics.Rate | box_falling/2d-square-falling-from-the-sky.py:44-69 | the derivative is a fresh 19-slot vector computed from its arguments alone |
| RigidBodyDynamics.RateFixedSlots | box_falling/2d-square-falling-from-the-sky.py:61-67 | slots 12..14 are the force, 15..17 the torque and 18 is 1, whatever the state |
| RigidBodyDynamics.RateIsVelocity | box_falling/2d-square-falling-from-the-sky.py:48-52 | slots 0..2 times the mass give back the linear momentum: they are momentum / mass |
| RigidBodyDynamics.RateRotatesColumns | box_falling/2d-square-falling-from-the-sky.py:49-58 | column j of the rotation-rate block is omega x (column j of R), with omega = IbodyInv L |
| RigidBodyDynamics.RateZeroSpin | box_falling/2d-square-falling-from-the-sky.py:49-58 | with zero angular momentum the whole rotation-rate block is zero |
| RigidBodyDynamics.RateIgnoresPositionAndTime | box_falling/2d-square-falling-from-the-sky.py:44-69 | two states that differ only in position and time have the same derivative |
| RigidBodyDynamics.IdentityIsRotation | box_falling/2d-square-falling-from-the-sky.py:31 | the initial rotation is a rotation: unit, perpendicular, right-handed rows |
| RigidBodyDynamics.RawRow2Nonzero | box_falling/2d-square-falling-from-the-sky.py:92-93 | the unnormalised new row 2 is non-zero, so it can be divided by its norm |
| RigidBodyDynamics.RawRow1Nonzero | box_falling/2d-square-falling-from-the-sky.py:95-96 | the unnormalised new row 1 is non-zero, so it can be divided by its norm |
| RigidBodyDynamics.OrthonormalizeRows | box_falling/2d-square-falling-from-the-sky.py:84-101 | row 0 is input row 0 times 1/norm(r0) > 0; row 2 is perpendicular to row 0 and to input row 1; row 1 is perpendicular to rows 0 and 2 |
| RigidBodyDynamics.Orthonormalize | box_falling/2d-square-falling-from-the-sky.py:84-101 | row 0 / norm(row 0), then row 2 = (new row 0 x row 1) / its norm, then row 1 = (new row 2 x new row 0) / its norm; requires r0 != 0 and r0 x r1 != 0, which make the first two divisors non-zero; the third divisor is non-zero by `RawRow1Nonzero`; its properties are the four lemmas that follow |
| RigidBodyDynamics.OrthonormalizeIsRotation | box_falling/2d-square-falling-from-the-sky.py:84-101 | with the Euclidean norm the result has unit, mutually perpendicular rows and row 2 = row 0 x row 1 |
| RigidBodyDynamics.OrthonormalizeFixesRotations | box_falling/2d-square-falling-from-the-sky.py:84-101 | a rotation matrix comes back unchanged |
| RigidBodyDynamics.OrthonormalizeIdempotent | box_falling/2d-square-falling-from-the-sky.py:84-101 | orthonormalising twice gives the same matrix as once |
| RigidBodyDynamics.Angle2dParts | box_falling/2d-square-falling-from-the-sky.py:109-113 | the cosine is R[0][0], and the axis is perpendicular to e1 and to R e1 |
| RigidBodyDynamics.Angle2d | box_falling/2d-square-falling-from-the-sky.py:109-113 | the pair (e1 . R e1, e1 x R e1) that `get_angle_2d` computes before `arccos`; its properties are the three lemmas that follow |
| RigidBodyDynamics.Angle2dSineCosine | box_falling/2d-square-falling-from-the-sky.py:109-113 | when R e1 is a unit vector, cos^2 + the axis's squared length is 1 |
| RigidBodyDynamics.Angle2dOfZRotation | box_falling/2d-square-falling-from-the-sky.py:109-113 | a turn about z with cosine c and sine s gives cosine c and axis (0, 0, s) |
| RigidBodyDynamics.RigidBody.constructor | box_falling/2d-square-falling-from-the-sky.py:22-37 | mass 1, identity inertia and inverse, zero velocities; the state buffer holds zero position, the identity in slots 3..11, mass times v, zero angular momentum and time 0 |
| RigidBodyDynamics.RigidBody.GetPos | box_falling/2d-square-falling-from-the-sky.py:103-104 | the position is slots 0..2 of the state |
| RigidBodyDynamics.RigidBody.GetRot | box_falling/2d-square-falling-from-the-sky.py:106-107 | the rotation flattens back to slots 3..11 of the state |
| PolygonCollision.Next | collision_detection/polygon_collision.py:22 | the next vertex index stays in range |
| PolygonCollision.NextIsMod | collision_detection/polygon_collision.py:22 | the next index is the source's (i + 1) % len(vs) |
| PolygonCollision.PrefixTelescopes | collision_detection/polygon_collision.py:21-22 | the first k edges add up to vertex k minus vertex 0 |
| PolygonCollision.EdgesSumToZero | collision_detection/polygon_collision.py:21-22 | one edge per vertex, and the edges add up to the zero vector |
| PolygonCollision.Edges | collision_detection/polygon_collision.py:19-22 | one edge per vertex (its contract); edge i is v[(i+1) mod n] - v[i] |
| PolygonCollision.EdgesWalk | collision_detection/polygon_collision.py:21-22 | adding edge i to vertex i gives the next vertex, the last edge leading back to vertex 0 |
| PolygonCollision.ConvexPolygon.ComputeEdges | collision_detection/polygon_collision.py:19-22 | appends edge i = v[(i+1) mod n] - v[i] for every vertex in order, changing nothing else |
| PolygonCollision.QuarterTurn | collision_detection/polygon_collision.py:28-32 | the product with R = [[0, -1], [1, 0]]: (-e.y, e.x); `QuarterTurnFacts` states that it is perpendicular, keeps the length and is zero only on zero |
| PolygonCollision.QuarterTurnFacts | collision_detection/polygon_collision.py:28-32 | the turned edge is perpendicular to the edge, keeps its length, and is zero only for a zero edge |
| PolygonCollision.CandidateAxisFacts | collision_detection/polygon_collision.py:28-33 | each candidate axis is perpendicular to its edge and has unit length |
| PolygonCollision.CandidateAxis | collision_detection/polygon_collision.py:32-33 | the quarter-turned edge divided by its norm is non-zero and perpendicular to the edge |
| PolygonCollision.Candidates | collision_detection/polygon_collision.py:30-33 | one candidate axis per edge |
| PolygonCollision.PyMod1 | collision_detection/polygon_collision.py:37 | Python's `d % 1` lies in [0, 1) |
| PolygonCollision.PyMod1Zero | collision_detection/polygon_collision.py:37 | `d % 1 == 0` holds exactly for whole numbers |
| PolygonCollision.ColinearUnits | collision_detection/polygon_collision.py:35-38 | for unit axes the filter fires exactly on equal, opposite or perpendicular axes |
| PolygonCollision.Colinear | collision_detection/polygon_collision.py:37 | the `dot(ax, a) % 1 == 0` test holds exactly when the dot product is a whole number |
| PolygonCollision.KeptAxesShape | collision_detection/polygon_collision.py:26-42 | no more axes are kept than there are edges, the first candidate is always kept, and every kept axis is a candidate |
| PolygonCollision.KeptAxesBy | collision_detection/polygon_collision.py:30-41 | the candidates in order, each appended unless the filter drops it against an axis already kept; never longer than the candidates |
| PolygonCollision.KeptAxes | collision_detection/polygon_collision.py:30-41 | the same with the filter as written; never longer than the candidates, and the first candidate is always kept first |
| PolygonCollision.KeptAxesDistinct | collision_detection/polygon_collision.py:35-41 | no kept axis is one the filter would drop against an axis kept before it |
| PolygonCollision.KeptAxesCover | collision_detection/polygon_collision.py:35-41 | every candidate is either kept or dropped because of a kept axis |
| PolygonCollision.ConvexPolygon.ComputeAxes | collision_detection/polygon_collision.py:24-42 | the loop with its inner `colinear` flag sets the axis list to the filtered candidates, changing nothing else |
| PolygonCollision.Axes | collision_detection/polygon_collision.py:12-17 | the axes a polygon built from its vertices ends up with: at least one and at most one per vertex for a non-empty polygon |
| PolygonCollision.ConvexPolygon.constructor | collision_detection/polygon_collision.py:12-17 | a new polygon holds its vertices, their edges, and the filtered axes |
| PolygonCollision.Projections | collision_detection/polygon_collision.py:60-61 | one projection per vertex |
| PolygonCollision.MaxOf | collision_detection/polygon_collision.py:60-62 | the last entry of the sorted projections: at least every projection, and one of them |
| PolygonCollision.MinOf | collision_detection/polygon_collision.py:60-62 | the first entry of the sorted projections: at most every projection, and one of them |
| PolygonCollision.CollideAlong | collision_detection/polygon_collision.py:59-65 | returns False exactly when some axis has max1 <= min2 or max2 <= min1, and True otherwise |
| PolygonCollision.PolygonsCollide | collision_detection/polygon_collision.py:51-65 | builds both polygons and returns the test along both axis lists stacked |
| PolygonCollision.MaxAtMostMin | collision_detection/polygon_collision.py:62 | max1 <= min2 holds exactly when every vertex of polygon 1 projects at or below every vertex of polygon 2 |
| PolygonCollision.SeparatesMeaning | collision_detection/polygon_collision.py:62-63 | an axis separates exactly when one polygon's projections lie wholly at or below the other's |
| PolygonCollision.Separates | collision_detection/polygon_collision.py:59-63 | defines the per-axis test: the axis separates unless each polygon's largest projection is strictly beyond the other's smallest; `SeparatesMeaning` states what it means |
| PolygonCollision.Collides | collision_detection/polygon_collision.py:57-65 | defines the loop's verdict: no axis in the list separates; `CollideAlong` is the loop proved against it |
| PolygonCollision.PolygonsCollideSpec | collision_detection/polygon_collision.py:51-65 | defines `polygons_collide`: `Collides` over the first polygon's axes followed by the second's; `PolygonsCollide` is proved to return it |
| PolygonCollision.CollideSymmetric | collision_detection/polygon_collision.py:57-63 | swapping the two polygons does not change the answer |
| PolygonCollision.TouchingIsNoCollision | collision_detection/polygon_collision.py:62 | projection intervals that only touch (max1 == min2) mean no collision |
| PolygonCollision.SeparatesNeg | collision_detection/polygon_collision.py:59-63 | negating an axis does not change whether it separates |
| PolygonCollision.FixedFilterLosesNothing | collision_detection/polygon_collision.py:35-41 | with unit candidates, dropping only parallel or anti-parallel axes leaves the test unchanged |
| PolygonCollision.CollideFixedUsesAllNormals | collision_detection/polygon_collision.py:51-65 | with the corrected filter the test is the separating-axis test along every edge normal of both polygons |
| PolygonCollision.UnitCandidates | collision_detection/polygon_collision.py:33 | under the Euclidean norm every candidate axis is a unit vector |
| PolygonCollision.UnitSquareEdges | collision_detection/polygon_collision.py:19-22 | a unit square's edges are right, up, left, down, all unit, and they turn to up, left, down, right |
| PolygonCollision.UnitSquareAxes | collision_detection/polygon_collision.py:28-33 | a unit square's candidate axes are up, left, down, right |
| PolygonCollision.SquareKeepsOneAxis | collision_detection/polygon_collision.py:35-41 | as written, a square's four normals filter down to the first one alone |
| PolygonCollision.UnitSquareKeepsUp | collision_detection/polygon_collision.py:24-42 | as written, a unit square contributes the single axis up |
| PolygonCollision.SquaresOverlapAlongUp | collision_detection/polygon_collision.py:60-62 | along the vertical, two unit squares on the x axis always overlap |
| PolygonCollision.SquaresSeparateAlongLeft | collision_detection/polygon_collision.py:60-62 | along the horizontal, a unit square starting at or beyond another's right side is separated from it |
| PolygonCollision.SideBySideSquaresReportedColliding | collision_detection/polygon_collision.py:51-65 | as written, two unit squares side by side are reported as colliding however far apart they are |
| PolygonCollision.SideBySideSquaresSeparatedFixed | collision_detection/polygon_collision.py:51-65 | with the corrected filter, unit squares that do not overlap horizontally are not colliding |
| PolygonCollision.SeparatedByCandidate | collision_detection/polygon_collision.py:30-33 | with the corrected filter, any separating edge normal of the first polygon means no collision |
| FreeFall.EulerClosedForm | lab1/lab1.py:60-63 | after n steps the velocity is vy0 + n dv and the height is y0 + n vy0 + n(n-1)/2 dv |
| FreeFall.Euler | lab1/lab1.py:60-63 | n repetitions of `step`'s update; its contract gives the velocity after n steps, vy0 + n dv |
| FreeFall.EulerCompose | lab1/lab1.py:60-63 | m steps followed by n steps are m + n steps |
| FreeFall.SimToScreenY | lab1/lab1.py:74-76 | the screen y and the height add up to the window height |
| FreeFall.SimToScreenYInvolution | lab1/lab1.py:74-76 | flipping twice gives the height back |
| FreeFall.SimToScreenYReverses | lab1/lab1.py:74-76 | a greater height maps to a smaller screen y, and conversely |
| FreeFall.SimToScreenYBelowWindow | lab1/lab1.py:74-76 | the ball is below the window's bottom edge exactly when its height is negative |
| FreeFall.Simulation.constructor | lab1/lab1.py:42-50 | starts at rest at height 0, mass 0, g = -9.8, dt = 0.033, time 0, paused, no traces yet |
| FreeFall.Simulation.Setup | lab1/lab1.py:52-58 | sets y, vy and mass, and restarts the traces as [cur_time * 1000] and [y], keeping the clock and the pause flag |
| FreeFall.Simulation.Step | lab1/lab1.py:60-66 | y += old vy (no dt), vy += g dt / mass, clock += dt, one entry appended to each trace; the traces keep equal length and end at the current time * 1000 and height |
| FreeFall.Simulation.Pause | lab1/lab1.py:68-69 | sets paused and changes nothing else |
| FreeFall.Simulation.Resume | lab1/lab1.py:71-72 | clears paused and changes nothing else |
| FreeFall.TraceClosedForm | lab1/lab1.py:57-66 | the k-th recorded height is y0 + k vy0 + k(k-1)/2 g dt / mass |
| BallSlantedFall.FloorHeight | ball_falling/ball_slanted_fall.py:63 | the point (x, height) lies on the line through the floor's two ends |
| BallSlantedFall.FloorHeightAtEnds | ball_falling/ball_slanted_fall.py:44-63 | the height is y0 at x0 and y1 at x1 |
| BallSlantedFall.CollisionDetection | ball_falling/ball_slanted_fall.py:52-68 | returns the floor height under x, and the flag is true exactly when y <= that height |
| BallSlantedFall.CollisionHeightIgnoresY | ball_falling/ball_slanted_fall.py:63-66 | the reported height depends on x only, and a ball resting on the floor counts as a hit |
| BallSlantedFall.CollisionMonotone | ball_falling/ball_slanted_fall.py:65 | lowering a ball that hits still hits |
| BallSlantedFall.FloorFrameOrthonormal | ball_falling/ball_slanted_fall.py:15-23 | the floor normal and tangent are unit vectors at right angles |
| BallSlantedFall.FloorNormal | ball_falling/ball_slanted_fall.py:15-22 | `rot(angle, (0, 1))` written with the angle's cosine c and sine s: (-s, c); its properties are the two frame lemmas that follow |
| BallSlantedFall.FloorTangent | ball_falling/ball_slanted_fall.py:15-23 | `rot(angle, -(1, 0))`: (-c, -s) |
| BallSlantedFall.FloorFrameSpans | ball_falling/ball_slanted_fall.py:15-23 | every velocity is its normal part plus its tangential part |
| BallSlantedFall.ReflectFacts | ball_falling/ball_slanted_fall.py:135-140 | the response negates the normal component, keeps the tangential one and the speed, and undoes itself |
| BallSlantedFall.Reflect | ball_falling/ball_slanted_fall.py:135-140 | the new velocity -(v . n) n + (v . t) t; `ReflectFacts` states what it keeps and flips |
| BallSlantedFall.ReflectLevelFloor | ball_falling/ball_slanted_fall.py:135-140 | on a level floor a vertical velocity is reversed |
| BallSlantedFall.SlantedFloorAsWritten | ball_falling/ball_slanted_fall.py:44-47 | the floor end points as written: x = -300 and 300 at heights x sin(angle); `AsWrittenNormalNotPerpendicular` shows this floor is not perpendicular to the normal |
| BallSlantedFall.AsWrittenNormalNotPerpendicular | ball_falling/ball_slanted_fall.py:21-47 | the drawn floor line meets the normal at a dot product of 600 s (c - 1), which is non-zero on any tilted floor |
| BallSlantedFall.SlantedFloorMatchesFrame | ball_falling/ball_slanted_fall.py:21-47 | a floor at heights x tan(angle) is perpendicular to the normal, parallel to the tangent, and passes through the origin |
| BallSlantedFall.Respond | ball_falling/ball_slanted_fall.py:131-146 | x and t are kept; without a hit nothing changes; with a hit y is snapped to the floor height |
| BallSlantedFall.RespondFacts | ball_falling/ball_slanted_fall.py:131-146 | after the response the ball is on or above the floor, and after a hit the normal velocity is negated and the tangential velocity and speed kept |
| BallSlantedFall.Ball.constructor | ball_falling/ball_slanted_fall.py:93-102 | starts at rest at (290, 100) with g = -9.8, dt = 0.01, mass 1 and friction 0.001 |
| BallSlantedFall.Ball.Update | ball_falling/ball_slanted_fall.py:124-157 | the new state is what the solver returns for time t + dt, started from the state after the collision response |
| CircleCollision.CollisionSymmetric | circle_collision_detection.py:28-34 | the test is symmetric in the two circles |
| CircleCollision.CheckCircleCollision | circle_collision_detection.py:28-34 | defines the test: the norm of the absolute centre offsets is at most the radius sum, so touching circles collide; `CollisionWithoutRoot` states it without the norm |
| CircleCollision.RootCompare | circle_collision_detection.py:29-31 | for a non-negative root n of sq, n <= r exactly when r >= 0 and sq <= r^2 |
| CircleCollision.CollisionWithoutRoot | circle_collision_detection.py:28-34 | the circles collide exactly when the radius sum is non-negative and dx^2 + dy^2 <= (r1 + r2)^2, so tangent circles collide |
| CircleCollision.ConcentricCollide | circle_collision_detection.py:28-34 | circles with the same centre and non-negative radii always collide |
| CircleCollision.OverlappingExample | circle_collision_detection.py:37-39 | (30, 50, r 20) and (50, 50, r 20) collide |
| CircleCollision.SeparateExample | circle_collision_detection.py:43-45 | (20, 50, r 15) and (70, 50, r 15) do not collide |
| Projectile.Derivative | lab2/2d-projectile-simulation.py:51-60 | dx = vx, dy = vy, mass dvx = -gam vx, and mass (dvy + grav) = -gam vy |
| Projectile.DerivativeWithoutDrag | lab2/2d-projectile-simulation.py:57-58 | with gam = 0, dvx = 0 and dvy = -grav |
| Projectile.DragOpposesMotion | lab2/2d-projectile-simulation.py:57 | with positive mass and non-negative drag, dvx never has the sign of vx |
| Projectile.SpeedChangeRate | lab2/2d-projectile-simulation.py:55-58 | mass (v . dv) = -gam speed^2 - mass grav vy: drag only ever slows the projectile down |
| Projectile.SimToScreenRoundTrip | lab2/2d-projectile-simulation.py:92-97 | screen-to-simulation undoes simulation-to-screen, and the other way round |
| Projectile.SimToScreen | lab2/2d-projectile-simulation.py:92-97 | both coordinates shifted by 20 and y flipped against the window height; `SimToScreenRoundTrip` gives its inverse |
| Projectile.SimToScreenInjective | lab2/2d-projectile-simulation.py:92-97 | distinct points map to distinct screen positions |
| Projectile.Simulation.constructor | lab2/2d-projectile-simulation.py:33-45 | starts at rest at the origin, mass 1, gamma 0.0001, gravity 9.8, dt 0.033, time 0, not paused, no traces yet |
| Projectile.Simulation.Setup | lab2/2d-projectile-simulation.py:62-70 | sets the velocity to speed (cos, sin) and starts each trace with the current x or y |
| Projectile.Simulation.Step | lab2/2d-projectile-simulation.py:72-84 | advances the clock by dt; takes the solver's state if it reports success and keeps the old one otherwise; appends one entry to each trace either way |
| Projectile.Simulation.Pause | lab2/2d-projectile-simulation.py:86-87 | sets paused and changes nothing else |
| Projectile.Simulation.Resume | lab2/2d-projectile-simulation.py:89-90 | clears paused and changes nothing else |

## Findings

| source | as written | input that shows it | evidently intended | confidence | as-written member | corrected member |
|---|---|---|---|---|---|---|
| collision_detection/polygon_collision.py:37 | an axis is dropped when `dot(ax, a) % 1` is close to 0 against a kept axis. That fires on perpendicular axes (dot 0) as well as parallel ones (dot ±1) | two unit squares with lower-left corners (0, 0) and (5, 0): each keeps only the axis (0, 1), and `polygons_collide` returns True although they are four units apart | drop only parallel or anti-parallel axes, so every edge direction is tested | high; not executed | PolygonCollision.SideBySideSquaresReportedColliding | PolygonCollision.SideBySideSquaresSeparatedFixed |
| ball_falling/ball_slanted_fall.py:44-47 | the floor's end points are at heights x sin(angle), while the floor normal is rot(angle, (0, 1)) | angle 10 degrees: the normal's dot product with the floor direction (600, 600 sin 10°) is 600 sin 10° (cos 10° - 1), about -1.58, not 0 | heights x tan(angle), so the drawn floor is perpendicular to the normal the response uses | medium; not executed | BallSlantedFall.AsWrittenNormalNotPerpendicular | BallSlantedFall.SlantedFloorMatchesFrame |

## Left out

- Rendering, input and plotting are not modelled: every pygame and matplotlib call, every `main`, the sprites, `plot_polygons`, `plot_circles`, `init`/`animate`, image loading and `print`.
- The scipy ODE solver (`ode`, `set_integrator('dop853')`, `set_initial_value`, `integrate`, `successful`) is foreign code. `Ball.Update` takes the solver as a function parameter. `Projectile.Simulation.Step` takes the success flag and the returned state as parameters. The rigid body's solver set-up is not modelled.
- `Ball.f`, the friction derivative of the slanted-fall ball, is handed only to the opaque solver, so it is not part of this model.
- Transcendental functions are not modelled: `np.arccos` and `np.degrees` in `get_angle_2d`, and `cos`/`sin` in `rot` and in the lab 2 `setup`. The cosine and sine are parameters instead. `Angle2d` returns the cosine, not the angle.
- `np.linalg.norm` is an abstract norm; `np.linalg.inv` of the identity inertia is taken to be the identity.
- Floating point is not modelled. Rounding, `np.isclose`'s tolerance (taken as exact equality), NaN and the Python int/float distinction are left out.
- RigidBodyDynamics.Orthonormalize: requires row 0 non-zero and rows 0 and 1 not parallel. The source divides by a zero norm there and produces NaN.
- PolygonCollision.ConvexPolygon.constructor: requires no zero edge, because the source would divide by a zero norm.
- PolygonCollision.PolygonsCollide: requires both polygons non-empty and without zero edges. For two empty polygons the source returns True; for one empty polygon it fails indexing an empty projection array.
- FreeFall.Simulation.Step: requires `Setup` to have run and the mass to be non-zero. Before `setup` the mass is 0, so the source raises ZeroDivisionError at lab1/lab1.py:62 and never reaches the trace lists. After `setup(..., 0)` it has already done `y += vy` when it raises. The model does not describe that partial update.
- Projectile.Simulation.Step: requires `Setup` to have run (`Valid() && IsSetUp()`). The source creates `trace_x` and `trace_y` only in `setup`, so a `step` before it raises AttributeError on the first `append`, after it has already advanced the clock and possibly the state. The model does not describe that partial update.
- BallSlantedFall.Ball.Update: the source re-seeds the solver only after a hit. Otherwise the solver continues from its own state, which the model takes to be the ball's fields copied back by the previous update.
- The falling-box render loop's angle sign flip and altitude threshold, and the reassignment of `rb.state` from the solver, are not modelled.
- `ConvexPolygon.print` is output only and is not modelled.
- lab3/orbits.py, lab4/double-mass-spring-system.py and the 2d_mass_spring scripts are not part of this model.
