# AABB collision core of physics.cpp

This project models, in Dafny, the collision core of a small 2D physics demo. The demo has a player box
that moves with the arrow or WASD keys and is stopped by two static wall boxes.

- `AABBvsAABB` is the overlap test between two axis-aligned boxes. It applies the separating-axis
  test on X and then on Y. On a hit it writes a normal and a penetration depth into a `Manifold`.
- The movement step in `main` moves the player along X. It tests the colliders in order and rolls the
  X coordinate back at the first overlap. It then does the same along Y, starting from the X-resolved
  position.
- The displacement of a frame is built from the four pressed directions, each worth 5 units.

Everything lives in module `Physics` (`physics.dfy`):

- `Vec2`, `AABB`, `Object` and `Manifold` are datatypes, because the C++ structs are copied by value.
- `float` becomes `real`.
- The manifold's pointers to A and B become the two objects themselves. The test never writes
  through them.
- `AABBvsAABB` is a function. It returns the verdict together with the manifold as it stands
  afterwards, and that manifold is the input unchanged on every `false` path.
- The player is a local struct that `main` updates in place. `ResolveMovement` updates a local copy
  step by step and returns it, which has the same effect.
- The two scans at physics.cpp:169-175 and physics.cpp:180-186 are the same `for`/`break` loop, so it
  is written once, as `ScanColliders`. It also returns where the scan stopped.
- Each `Manifold m = { &A, &obj }` in the loop leaves the normal at (0, 0) and the penetration at 0.
  `Collides` builds its manifold the same way.

The model keeps the program's behaviour where it differs from its comments. The test resolves along
the axis with the LARGER overlap, with ties going to Y. On X it reports the zero vector, not (1, 0),
when B is not to the left of A. Both discrepancies are logged under "Findings", next to a corrected
test.

## Model

| member | source | states |
|---|---|---|
| `Physics.Sub` | physics.cpp:15 | adding the subtrahend back to the difference gives the minuend |
| `Physics.Abs` | physics.cpp:53 | the absolute value used on the centre offset is non-negative and equals x or -x |
| `Physics.AABBvsAABB` | physics.cpp:36-94 | returns true exactly when both axis overlaps are positive. A and B are never written, and on false the manifold is unchanged. On true the penetration is the larger overlap (ties go to Y) and is positive. The normal is one of (-1,0), (0,0), (0,-1), (0,1): (-1,0) iff the X axis is chosen and n.x < 0, (0,0) iff X is chosen and n.x >= 0, (0,-1) iff Y is chosen and n.y < 0, and (0,1) otherwise |
| `Physics.SeparatedOnXIgnoresY` | physics.cpp:49-56 | when the X overlap is <= 0 the result is false with the manifold untouched, for any Y data |
| `Physics.NormalNeverPointsAway` | physics.cpp:71-85 | on a hit, the reported normal has a non-negative dot product with the offset from A to B |
| `Physics.HitIsSymmetric` | physics.cpp:43-66 | exchanging A and B gives the same verdict and, on a hit, the same penetration |
| `Physics.NormalNotAntisymmetricOnX` | physics.cpp:69-77 | on an X-axis hit with n.x != 0, the two orders report (-1,0) and (0,0), never opposite normals |
| `Physics.HitIffCentredRectanglesOverlap` | physics.cpp:48-66 | the test reports a hit iff the rectangles centred on the positions, with the half-extents, overlap as open intervals on both axes |
| `Physics.CentredBoxesHitIffWorldOverlap` | physics.cpp:118-120 | for boxes symmetric about their position, as all three in the program are, a hit iff the boxes placed at pos+min..pos+max overlap |
| `Physics.SideBySideScenario` | physics.cpp:36-94 | boxes of 100 at distance 90 on X: X overlap 10 and Y overlap 100, so the hit is reported along Y with normal (0,1) and penetration 100, the deeper overlap |
| `Physics.FarApartScenario` | physics.cpp:53-56 | boxes of 100 at distance 200 on X: no hit |
| `Physics.ZeroNormalCounterexample` | physics.cpp:72-76 | a concrete hit whose reported normal is the zero vector |
| `Physics.AABBvsAABBIntended` | physics.cpp:68-86 | corrected test: same verdict condition and untouched manifold on a miss; on a hit the penetration is the smaller overlap (ties go to Y), and the normal is (±1,0) when X is resolved and (0,±1) when Y is, its sign that of the offset from A to B on that axis (+ for zero) |
| `Physics.ZeroNormalInputIntended` | physics.cpp:68-86 | corrected test on A at (0,0), B at (10,50), boxes of 100: resolves along Y with normal (0,1) and penetration 50 |
| `Physics.SideBySideIntended` | physics.cpp:68-76 | corrected test on boxes of 100 at distance 90 on X: resolves along X with normal (1,0) and penetration 10 |
| `Physics.IntendedAgreesOnHit` | physics.cpp:56-66 | the corrected and the as-written test agree on every verdict |
| `Physics.IntendedNormalAntisymmetric` | physics.cpp:71-85 | corrected test: exchanging A and B negates the normal whenever the offset on the resolved axis is non-zero, and keeps the penetration |
| `Physics.KeyMovement` | physics.cpp:154-161 | each axis is 0 iff both or neither of its keys are pressed, -5 iff only up/left is pressed, and +5 iff only down/right is pressed |
| `Physics.ScanColliders` | physics.cpp:169-175 | scans in order and stops at the first collider that overlaps: nothing before the stop overlaps, the one at the stop does, and a stop is reported iff some collider overlaps |
| `Physics.ResolveMovement` | physics.cpp:164-186 | final x is x+dx unless that position overlaps a collider, else the old x. Final y is likewise computed from the X-resolved position. The box is unchanged, and a player that overlapped no collider still overlaps none |
| `Physics.SettleKeepsClearance` | physics.cpp:166-186 | one axis step ends at the tried position or the previous one, and it keeps "overlaps no collider" |
| `Physics.InitialClear` | physics.cpp:118-120 | the player's starting box at (300,250) overlaps neither wall, so the clearance that `ResolveMovement` keeps holds from the first frame |
| `Physics.SlideAlongWallScenario` | physics.cpp:164-186 | with the program's two walls, a diagonal move into the right wall is stopped on X and keeps its Y move |

## Left out

- Rendering and windowing: window creation, event handling, `toSF`, rectangle styling, drawing, `display`, the frame loop and the 60 fps limit. These are calls into the graphics library.
- Keyboard polling: the four pressed directions are parameters of `KeyMovement`, and the displacement is a parameter of `ResolveMovement`.
- The `walls` vector of shapes kept beside `colliders`: it is used only for drawing.
- Floating-point rounding: coordinates are reals, so no rounding or overflow is modelled.
- `Vec2::abs` (a square root) is not used by the collision code and is not modelled.
- The unqualified `abs(n.x)` at physics.cpp:53 and physics.cpp:63 is taken to be the floating absolute value. A compiler could resolve it to the integer `abs`, which truncates; that case is not modelled.
- The unused `originalPos` at physics.cpp:164 has no effect and is not modelled.
- `Dot` is modelled only for use in the lemmas about the normal. The program itself never calls it.
- The variant that removes a consumed pickup box belongs to another program of the repository. physics.cpp has no pickups, so it is not part of this model.

## Findings

| source | as written | input that shows it | evidently intended | confidence | as-written member | corrected member |
|---|---|---|---|---|---|---|
| physics.cpp:72-75 | on the X axis the normal is (0,0) whenever n.x >= 0 | A at (0,0), B at (10,50), both boxes -50..50: hit on X with normal (0,0) | on an X resolution with n.x >= 0, normal (1,0); on this input the corrected test resolves on Y, normal (0,1), penetration 50 (`ZeroNormalInputIntended`); `SideBySideIntended` shows (1,0) on an X resolution | high (not executed) | `Physics.ZeroNormalCounterexample` | `Physics.AABBvsAABBIntended` |
| physics.cpp:68-69 | the axis with the larger overlap is chosen, although the comment asks for the axis of least penetration | A at (0,0), B at (90,0), both boxes -50..50: X overlap 10, Y overlap 100, penetration 100 along Y | penetration 10 along X, the smaller overlap, with normal (1,0), as `SideBySideIntended` shows | medium (not executed) | `Physics.SideBySideScenario` | `Physics.AABBvsAABBIntended` |

Both corrections change only the normal and the penetration. `IntendedAgreesOnHit` proves that the
verdict is the same. The movement step reads only the verdict, so `ResolveMovement` behaves the same
under either test.
