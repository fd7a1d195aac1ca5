/**
 * The collision core of physics.cpp: a two-axis separating-axis overlap test
 * between axis-aligned boxes (AABBvsAABB) and the per-axis movement resolution
 * that moves the player box and rolls back an axis whose move lands in a wall.
 * The program's `float` coordinates are modelled as `real`.
 */
module Physics {

  /** A 2D vector (struct Vec2). */
  datatype Vec2 = Vec2(x: real, y: real)

  /** A box given by two corner offsets from the owning object's position (struct AABB). */
  datatype AABB = AABB(min: Vec2, max: Vec2)

  /** A collidable body: a position and its box (struct Object). */
  datatype Object = Object(pos: Vec2, aabb: AABB)

  /** The record a test reads its two bodies from and writes its answer to (struct Manifold). */
  datatype Manifold = Manifold(a: Object, b: Object, normal: Vec2, penetration: real)

  /** What AABBvsAABB returns, together with the manifold as it stands afterwards. */
  datatype Verdict = Verdict(hit: bool, manifold: Manifold)

  /** Vec2's default value, (0, 0). */
  const Zero: Vec2 := Vec2(0.0, 0.0)

  /** The per-frame speed of the player box. */
  const Speed: real := 5.0

  // ---------------------------------------------------------------------
  // Vector helpers
  // ---------------------------------------------------------------------

  /** Component-wise difference (Vec2::operator-). */
  function Sub(u: Vec2, v: Vec2): (r: Vec2)
    ensures Vec2(v.x + r.x, v.y + r.y) == u
  {
    Vec2(u.x - v.x, u.y - v.y)
  }

  /** Floating absolute value, as used on the components of the centre offset. */
  function Abs(x: real): (r: real)
    ensures r >= 0.0
    ensures r == x || r == -x
  {
    if x < 0.0 then -x else x
  }

  /** Dot product (Dot). */
  function Dot(u: Vec2, v: Vec2): (r: real)
  {
    u.x * v.x + u.y * v.y
  }

  // ---------------------------------------------------------------------
  // The overlap test
  // ---------------------------------------------------------------------

  /** Half the box's extent along X. */
  function HalfWidth(box: AABB): (r: real)
  {
    (box.max.x - box.min.x) / 2.0
  }

  /** Half the box's extent along Y. */
  function HalfHeight(box: AABB): (r: real)
  {
    (box.max.y - box.min.y) / 2.0
  }

  /** The overlap of the two boxes' projections on X: positive exactly when they overlap there. */
  function XOverlap(a: Object, b: Object): (r: real)
  {
    HalfWidth(a.aabb) + HalfWidth(b.aabb) - Abs(Sub(b.pos, a.pos).x)
  }

  /** The overlap of the two boxes' projections on Y. */
  function YOverlap(a: Object, b: Object): (r: real)
  {
    HalfHeight(a.aabb) + HalfHeight(b.aabb) - Abs(Sub(b.pos, a.pos).y)
  }

  /** The normals the test can report. */
  predicate IsReportedNormal(v: Vec2)
  {
    v == Vec2(-1.0, 0.0) || v == Zero || v == Vec2(0.0, -1.0) || v == Vec2(0.0, 1.0)
  }

  /**
   * AABBvsAABB: the separating-axis test on X, then on Y. On a hit it writes a
   * normal and the penetration into the manifold; otherwise the manifold is left
   * as it was. The axis with the LARGER overlap is reported (ties go to Y), and
   * on X a non-negative offset gives the zero normal, exactly as the program does.
   */
  function AABBvsAABB(m: Manifold): (r: Verdict)
    // the two bodies are read, never written
    ensures r.manifold.a == m.a && r.manifold.b == m.b
    // a hit exactly when the projections overlap on both axes
    ensures r.hit <==> XOverlap(m.a, m.b) > 0.0 && YOverlap(m.a, m.b) > 0.0
    // nothing is written on a miss
    ensures !r.hit ==> r.manifold == m
    // penetration is the larger overlap, ties going to Y, and is positive
    ensures r.hit ==> (r.manifold.penetration ==
      if XOverlap(m.a, m.b) > YOverlap(m.a, m.b) then XOverlap(m.a, m.b) else YOverlap(m.a, m.b))
    ensures r.hit ==> r.manifold.penetration > 0.0
    ensures r.hit ==> (r.manifold.penetration >= XOverlap(m.a, m.b) &&
                       r.manifold.penetration >= YOverlap(m.a, m.b))
    // which normal is reported
    ensures r.hit ==> IsReportedNormal(r.manifold.normal)
    ensures r.hit ==> (r.manifold.normal == Vec2(-1.0, 0.0) <==>
      XOverlap(m.a, m.b) > YOverlap(m.a, m.b) && Sub(m.b.pos, m.a.pos).x < 0.0)
    ensures r.hit ==> (r.manifold.normal == Zero <==>
      XOverlap(m.a, m.b) > YOverlap(m.a, m.b) && Sub(m.b.pos, m.a.pos).x >= 0.0)
    ensures r.hit ==> (r.manifold.normal == Vec2(0.0, -1.0) <==>
      XOverlap(m.a, m.b) <= YOverlap(m.a, m.b) && Sub(m.b.pos, m.a.pos).y < 0.0)
    ensures r.hit ==> (r.manifold.normal == Vec2(0.0, 1.0) <==>
      XOverlap(m.a, m.b) <= YOverlap(m.a, m.b) && Sub(m.b.pos, m.a.pos).y >= 0.0)
  {
    var n := Sub(m.b.pos, m.a.pos);
    var xOverlap := XOverlap(m.a, m.b);
    if xOverlap > 0.0 then
      var yOverlap := YOverlap(m.a, m.b);
      if yOverlap > 0.0 then
        if xOverlap > yOverlap then
          var normal := if n.x < 0.0 then Vec2(-1.0, 0.0) else Vec2(0.0, 0.0);
          Verdict(true, m.(normal := normal, penetration := xOverlap))
        else
          var normal := if n.y < 0.0 then Vec2(0.0, -1.0) else Vec2(0.0, 1.0);
          Verdict(true, m.(normal := normal, penetration := yOverlap))
      else
        Verdict(false, m)
    else
      Verdict(false, m)
  }

  /** Separation on X decides the test alone: the Y data is never looked at. */
  lemma SeparatedOnXIgnoresY(m: Manifold, m': Manifold)
    requires XOverlap(m.a, m.b) <= 0.0
    requires m'.a.pos.x == m.a.pos.x && m'.b.pos.x == m.b.pos.x
    requires m'.a.aabb.min.x == m.a.aabb.min.x && m'.a.aabb.max.x == m.a.aabb.max.x
    requires m'.b.aabb.min.x == m.b.aabb.min.x && m'.b.aabb.max.x == m.b.aabb.max.x
    ensures AABBvsAABB(m) == Verdict(false, m)
    ensures AABBvsAABB(m') == Verdict(false, m')
  {
  }

  /** The reported normal never points away from B: its dot product with the offset A->B is non-negative. */
  lemma NormalNeverPointsAway(m: Manifold)
    requires AABBvsAABB(m).hit
    ensures Dot(AABBvsAABB(m).manifold.normal, Sub(m.b.pos, m.a.pos)) >= 0.0
  {
  }

  /** The manifold with its two bodies exchanged. */
  function Swapped(m: Manifold): (s: Manifold)
  {
    m.(a := m.b, b := m.a)
  }

  /**
   * Exchanging A and B changes neither the verdict nor the penetration: both
   * depend only on the summed extents and the absolute centre offsets.
   */
  lemma HitIsSymmetric(m: Manifold)
    ensures AABBvsAABB(Swapped(m)).hit == AABBvsAABB(m).hit
    ensures AABBvsAABB(m).hit ==>
      AABBvsAABB(Swapped(m)).manifold.penetration == AABBvsAABB(m).manifold.penetration
  {
  }

  /**
   * The normal is NOT antisymmetric under exchange: on the X axis one order
   * reports (-1, 0) and the other the zero vector.
   */
  lemma NormalNotAntisymmetricOnX(m: Manifold)
    requires AABBvsAABB(m).hit
    requires XOverlap(m.a, m.b) > YOverlap(m.a, m.b)
    requires Sub(m.b.pos, m.a.pos).x != 0.0
    ensures {AABBvsAABB(m).manifold.normal, AABBvsAABB(Swapped(m)).manifold.normal}
         == {Vec2(-1.0, 0.0), Zero}
  {
  }

  /**
   * Reference geometry: each box is read as the rectangle centred on its
   * object's position, with half-extents HalfWidth and HalfHeight.
   */
  predicate CentredRectanglesOverlap(a: Object, b: Object)
  {
    a.pos.x - HalfWidth(a.aabb) < b.pos.x + HalfWidth(b.aabb) &&
    b.pos.x - HalfWidth(b.aabb) < a.pos.x + HalfWidth(a.aabb) &&
    a.pos.y - HalfHeight(a.aabb) < b.pos.y + HalfHeight(b.aabb) &&
    b.pos.y - HalfHeight(b.aabb) < a.pos.y + HalfHeight(a.aabb)
  }

  /** The test reports a hit exactly when the centred rectangles overlap (open intervals). */
  lemma HitIffCentredRectanglesOverlap(m: Manifold)
    ensures AABBvsAABB(m).hit <==> CentredRectanglesOverlap(m.a, m.b)
  {
  }

  /** A box whose corners are symmetric about the object's position. */
  predicate Centred(box: AABB)
  {
    box.min == Vec2(-box.max.x, -box.max.y)
  }

  /** The box in world coordinates: the corner offsets added to the position. */
  predicate WorldRectanglesOverlap(a: Object, b: Object)
  {
    a.pos.x + a.aabb.min.x < b.pos.x + b.aabb.max.x &&
    b.pos.x + b.aabb.min.x < a.pos.x + a.aabb.max.x &&
    a.pos.y + a.aabb.min.y < b.pos.y + b.aabb.max.y &&
    b.pos.y + b.aabb.min.y < a.pos.y + a.aabb.max.y
  }

  /**
   * For centred boxes, as every box in the program is, the test agrees with the
   * boxes placed in world coordinates.
   */
  lemma CentredBoxesHitIffWorldOverlap(m: Manifold)
    requires Centred(m.a.aabb) && Centred(m.b.aabb)
    ensures AABBvsAABB(m).hit <==> WorldRectanglesOverlap(m.a, m.b)
  {
  }

  /** A 100 by 100 box centred on its position, as every box of the program has. */
  const Box100: AABB := AABB(Vec2(-50.0, -50.0), Vec2(50.0, 50.0))

  /**
   * Boxes 90 apart on X: X overlap 10 and Y overlap 100, so the hit is reported
   * along Y with normal (0, 1) and penetration 100, the deeper of the two overlaps.
   */
  lemma SideBySideScenario()
    ensures var m := Manifold(Object(Zero, Box100), Object(Vec2(90.0, 0.0), Box100), Zero, 0.0);
      var r := AABBvsAABB(m);
      XOverlap(m.a, m.b) == 10.0 && YOverlap(m.a, m.b) == 100.0 &&
      r.hit && r.manifold.normal == Vec2(0.0, 1.0) && r.manifold.penetration == 100.0
  {
    var m := Manifold(Object(Zero, Box100), Object(Vec2(90.0, 0.0), Box100), Zero, 0.0);
    assert XOverlap(m.a, m.b) == 10.0;
    assert YOverlap(m.a, m.b) == 100.0;
  }

  /** Boxes 200 apart on X: no hit. */
  lemma FarApartScenario()
    ensures !AABBvsAABB(Manifold(Object(Zero, Box100), Object(Vec2(200.0, 0.0), Box100), Zero, 0.0)).hit
  {
  }

  // ---------------------------------------------------------------------
  // Findings: the corrected test
  // ---------------------------------------------------------------------

  /** The X branch reports the zero vector as its normal when B lies to the right of A. */
  lemma ZeroNormalCounterexample()
    ensures var r := AABBvsAABB(Manifold(Object(Zero, Box100), Object(Vec2(10.0, 50.0), Box100), Zero, 0.0));
      r.hit && r.manifold.normal == Zero
  {
  }

  function Min(x: real, y: real): (r: real)
  {
    if x < y then x else y
  }

  /** A unit vector along one axis. */
  predicate IsAxisUnit(v: Vec2)
  {
    v == Vec2(1.0, 0.0) || v == Vec2(-1.0, 0.0) || v == Vec2(0.0, 1.0) || v == Vec2(0.0, -1.0)
  }

  /**
   * The test as its comments describe it: resolve along the axis of least
   * penetration, with a unit normal pointing from A towards B.
   */
  function AABBvsAABBIntended(m: Manifold): (r: Verdict)
    ensures r.manifold.a == m.a && r.manifold.b == m.b
    ensures r.hit <==> XOverlap(m.a, m.b) > 0.0 && YOverlap(m.a, m.b) > 0.0
    ensures !r.hit ==> r.manifold == m
    ensures r.hit ==> r.manifold.penetration == Min(XOverlap(m.a, m.b), YOverlap(m.a, m.b))
    ensures r.hit ==> IsAxisUnit(r.manifold.normal)
    ensures r.hit ==> Dot(r.manifold.normal, Sub(m.b.pos, m.a.pos)) >= 0.0
    // the normal lies on the resolved axis and points from A towards B along it
    ensures r.hit && XOverlap(m.a, m.b) < YOverlap(m.a, m.b) ==>
      (r.manifold.normal == if Sub(m.b.pos, m.a.pos).x < 0.0 then Vec2(-1.0, 0.0) else Vec2(1.0, 0.0))
    ensures r.hit && XOverlap(m.a, m.b) >= YOverlap(m.a, m.b) ==>
      (r.manifold.normal == if Sub(m.b.pos, m.a.pos).y < 0.0 then Vec2(0.0, -1.0) else Vec2(0.0, 1.0))
  {
    var n := Sub(m.b.pos, m.a.pos);
    var xOverlap := XOverlap(m.a, m.b);
    if xOverlap > 0.0 then
      var yOverlap := YOverlap(m.a, m.b);
      if yOverlap > 0.0 then
        if xOverlap < yOverlap then
          var normal := if n.x < 0.0 then Vec2(-1.0, 0.0) else Vec2(1.0, 0.0);
          Verdict(true, m.(normal := normal, penetration := xOverlap))
        else
          var normal := if n.y < 0.0 then Vec2(0.0, -1.0) else Vec2(0.0, 1.0);
          Verdict(true, m.(normal := normal, penetration := yOverlap))
      else
        Verdict(false, m)
    else
      Verdict(false, m)
  }

  /**
   * The corrected test on the side-by-side boxes: it resolves along X, the axis
   * of least penetration, with normal (1, 0) and penetration 10.
   */
  lemma SideBySideIntended()
    ensures var r := AABBvsAABBIntended(Manifold(Object(Zero, Box100), Object(Vec2(90.0, 0.0), Box100), Zero, 0.0));
      r.hit && r.manifold.normal == Vec2(1.0, 0.0) && r.manifold.penetration == 10.0
  {
  }

  /**
   * The corrected test on the input of ZeroNormalCounterexample: X overlap 90
   * and Y overlap 50, so it resolves along Y with normal (0, 1) and penetration 50.
   */
  lemma ZeroNormalInputIntended()
    ensures var r := AABBvsAABBIntended(Manifold(Object(Zero, Box100), Object(Vec2(10.0, 50.0), Box100), Zero, 0.0));
      r.hit && r.manifold.normal == Vec2(0.0, 1.0) && r.manifold.penetration == 50.0
  {
    var m := Manifold(Object(Zero, Box100), Object(Vec2(10.0, 50.0), Box100), Zero, 0.0);
    assert XOverlap(m.a, m.b) == 90.0;
    assert YOverlap(m.a, m.b) == 50.0;
  }

  /** Both tests agree on whether the boxes collide, so movement resolution is the same under either. */
  lemma IntendedAgreesOnHit(m: Manifold)
    ensures AABBvsAABBIntended(m).hit == AABBvsAABB(m).hit
  {
  }

  /**
   * The corrected normal is antisymmetric: exchanging A and B negates it
   * whenever the offset along the resolved axis is non-zero, and the
   * penetration is unchanged.
   */
  lemma IntendedNormalAntisymmetric(m: Manifold)
    requires AABBvsAABBIntended(m).hit
    requires XOverlap(m.a, m.b) < YOverlap(m.a, m.b) ==> Sub(m.b.pos, m.a.pos).x != 0.0
    requires XOverlap(m.a, m.b) >= YOverlap(m.a, m.b) ==> Sub(m.b.pos, m.a.pos).y != 0.0
    ensures var r, s := AABBvsAABBIntended(m).manifold, AABBvsAABBIntended(Swapped(m)).manifold;
      s.penetration == r.penetration && s.normal == Vec2(-r.normal.x, -r.normal.y)
  {
  }

  // ---------------------------------------------------------------------
  // Movement
  // ---------------------------------------------------------------------

  /**
   * The displacement of one frame from the four pressed directions: each
   * pressed key adds Speed on its axis, up and left counting negatively.
   */
  function KeyMovement(up: bool, down: bool, left: bool, right: bool): (mv: Vec2)
    ensures mv.x == 0.0 <==> left == right
    ensures mv.x == -Speed <==> left && !right
    ensures mv.x == Speed <==> right && !left
    ensures mv.y == 0.0 <==> up == down
    ensures mv.y == -Speed <==> up && !down
    ensures mv.y == Speed <==> down && !up
  {
    var y0 := if up then 0.0 - Speed else 0.0;
    var y1 := if down then y0 + Speed else y0;
    var x0 := if left then 0.0 - Speed else 0.0;
    var x1 := if right then x0 + Speed else x0;
    Vec2(x1, y1)
  }

  /** The player's test against one collider, with a freshly initialised manifold. */
  predicate Collides(player: Object, collider: Object)
  {
    AABBvsAABB(Manifold(player, collider, Zero, 0.0)).hit
  }

  /** Whether any collider overlaps the player. */
  ghost predicate CollidesAny(player: Object, colliders: seq<Object>)
  {
    exists i :: 0 <= i < |colliders| && Collides(player, colliders[i])
  }

  /** The object moved to another X coordinate. */
  function AtX(o: Object, x: real): (r: Object)
  {
    o.(pos := o.pos.(x := x))
  }

  /** The object moved to another Y coordinate. */
  function AtY(o: Object, y: real): (r: Object)
  {
    o.(pos := o.pos.(y := y))
  }

  /**
   * The scan of one axis: test the colliders in order and stop at the first
   * that overlaps. `stop` is where the scan ended.
   */
  method ScanColliders(player: Object, colliders: seq<Object>) returns (hit: bool, stop: nat)
    ensures stop <= |colliders|
    ensures hit <==> stop < |colliders|
    ensures forall j :: 0 <= j < stop ==> !Collides(player, colliders[j])
    ensures hit ==> Collides(player, colliders[stop])
    ensures hit <==> CollidesAny(player, colliders)
  {
    hit, stop := false, 0;
    while stop < |colliders|
      invariant stop <= |colliders|
      invariant !hit
      invariant forall j :: 0 <= j < stop ==> !Collides(player, colliders[j])
    {
      if Collides(player, colliders[stop]) {
        hit := true;
        break;
      }
      stop := stop + 1;
    }
  }

  /** One axis of the resolution: keep the moved object unless it overlaps a collider. */
  ghost function Settle(before: Object, after: Object, colliders: seq<Object>): Object
  {
    if CollidesAny(after, colliders) then before else after
  }

  /**
   * The movement of one frame: move along X and roll back if that lands in a
   * collider, then do the same along Y from the X-resolved position. The
   * colliders are read only.
   */
  method ResolveMovement(player: Object, movement: Vec2, colliders: seq<Object>) returns (moved: Object)
    ensures moved.aabb == player.aabb
    ensures var triedX := AtX(player, player.pos.x + movement.x);
      moved.pos.x == if CollidesAny(triedX, colliders) then player.pos.x else triedX.pos.x
    ensures var triedY := AtY(AtX(player, moved.pos.x), player.pos.y + movement.y);
      moved.pos.y == if CollidesAny(triedY, colliders) then player.pos.y else triedY.pos.y
    ensures moved == Settle(Settle(player, AtX(player, player.pos.x + movement.x), colliders),
      AtY(Settle(player, AtX(player, player.pos.x + movement.x), colliders),
          player.pos.y + movement.y), colliders)
    ensures !CollidesAny(player, colliders) ==> !CollidesAny(moved, colliders)
  {
    moved := player;
    // X axis
    var originalX := moved.pos.x;
    moved := AtX(moved, moved.pos.x + movement.x);
    var hitX, _ := ScanColliders(moved, colliders);
    if hitX {
      moved := AtX(moved, originalX);
    }
    // Y axis
    var originalY := moved.pos.y;
    moved := AtY(moved, moved.pos.y + movement.y);
    var hitY, _ := ScanColliders(moved, colliders);
    if hitY {
      moved := AtY(moved, originalY);
    }
  }

  /** Either axis ends at the requested coordinate or at the previous one. */
  lemma SettleKeepsClearance(before: Object, after: Object, colliders: seq<Object>)
    requires !CollidesAny(before, colliders)
    ensures !CollidesAny(Settle(before, after, colliders), colliders)
    ensures Settle(before, after, colliders) in {before, after}
  {
  }

  /** The player's starting position in the program overlaps neither wall. */
  lemma InitialClear()
    ensures !CollidesAny(Object(Vec2(300.0, 250.0), Box100),
      [Object(Vec2(420.0, 270.0), Box100), Object(Vec2(220.0, 120.0), Box100)])
  {
  }

  /**
   * Sliding: a diagonal move into the wall on the right is stopped on X but
   * keeps its Y movement. The colliders are the two walls of the program; the
   * start (320, 270) is a position the player can reach, not its initial one.
   */
  lemma SlideAlongWallScenario()
    ensures var walls := [Object(Vec2(420.0, 270.0), Box100), Object(Vec2(220.0, 120.0), Box100)];
      var start := Object(Vec2(320.0, 270.0), Box100);
      var xTried := AtX(start, 325.0);
      !CollidesAny(start, walls) && CollidesAny(xTried, walls)
      && Settle(start, xTried, walls) == start
      && !CollidesAny(AtY(start, 275.0), walls)
      && Settle(start, AtY(start, 275.0), walls) == Object(Vec2(320.0, 275.0), Box100)
  {
    var walls := [Object(Vec2(420.0, 270.0), Box100), Object(Vec2(220.0, 120.0), Box100)];
    var start := Object(Vec2(320.0, 270.0), Box100);
    assert Collides(AtX(start, 325.0), walls[0]);
  }
}
