/*
  The ball dropped onto a slanted floor (ball_falling/ball_slanted_fall.py):
  the floor is the straight line through two end points, a hit is the ball
  at or below that line, and the response flips the velocity's component
  along the floor normal and keeps its component along the floor tangent.
  The floor angle enters only through its cosine and sine, which are
  parameters here.
*/
module BallSlantedFall {
  import opened Vectors

  /** The floor: the line through (x0, y0) and (x1, y1). */
  datatype Floor = Floor(x0: real, y0: real, x1: real, y1: real)

  /** Height of the floor at x, by linear interpolation between its ends. */
  function FloorHeight(f: Floor, x: real): (yc: real)
    requires f.x1 != f.x0
    ensures (yc - f.y0) * (f.x1 - f.x0) == (x - f.x0) * (f.y1 - f.y0)
  {
    f.y0 + (x - f.x0) * (f.y1 - f.y0) / (f.x1 - f.x0)
  }

  /** The interpolation meets the floor's two end points. */
  lemma FloorHeightAtEnds(f: Floor)
    requires f.x1 != f.x0
    ensures FloorHeight(f, f.x0) == f.y0 && FloorHeight(f, f.x1) == f.y1
  {
  }

  /** `collision_detection`: whether the ball at (x, y) is at or below the
      floor, and the floor's height under it. */
  function CollisionDetection(f: Floor, x: real, y: real): (res: (bool, real))
    requires f.x1 != f.x0
    ensures res.1 == FloorHeight(f, x)
    ensures res.0 <==> y <= res.1
  {
    var yc := FloorHeight(f, x);
    if y <= yc then (true, yc) else (false, yc)
  }

  /** The reported height depends on x alone; resting on the floor counts
      as a hit. */
  lemma CollisionHeightIgnoresY(f: Floor, x: real, y1: real, y2: real)
    requires f.x1 != f.x0
    ensures CollisionDetection(f, x, y1).1 == CollisionDetection(f, x, y2).1
    ensures CollisionDetection(f, x, FloorHeight(f, x)).0
  {
  }

  /** A ball above a hit point also hits when lowered: the hit region is
      everything on or under the floor line. */
  lemma CollisionMonotone(f: Floor, x: real, y: real, lower: real)
    requires f.x1 != f.x0 && lower <= y && CollisionDetection(f, x, y).0
    ensures CollisionDetection(f, x, lower).0
  {
  }

  // ------------------------------------------------- the floor's frame

  /** `rot(angle, [0, 1])` for an angle with the given cosine and sine. */
  function FloorNormal(c: real, s: real): Vec2
  {
    Vec2(-s, c)
  }

  /** `rot(angle, -[1, 0])`. */
  function FloorTangent(c: real, s: real): Vec2
  {
    Vec2(-c, -s)
  }

  /** The floor normal and tangent are unit vectors at right angles. */
  lemma FloorFrameOrthonormal(c: real, s: real)
    requires c * c + s * s == 1.0
    ensures Dot2(FloorNormal(c, s), FloorNormal(c, s)) == 1.0
    ensures Dot2(FloorTangent(c, s), FloorTangent(c, s)) == 1.0
    ensures Dot2(FloorNormal(c, s), FloorTangent(c, s)) == 0.0
  {
  }

  /** Every velocity is its normal part plus its tangential part. */
  lemma FloorFrameSpans(v: Vec2, c: real, s: real)
    requires c * c + s * s == 1.0
    ensures v == Add2(Scale2(Dot2(v, FloorNormal(c, s)), FloorNormal(c, s)),
                      Scale2(Dot2(v, FloorTangent(c, s)), FloorTangent(c, s)))
  {
    var a, b := Dot2(v, FloorNormal(c, s)), Dot2(v, FloorTangent(c, s));
    assert a * -s + b * -c == v.x * (s * s + c * c);
    assert a * c + b * -s == v.y * (c * c + s * s);
  }

  // ------------------------------------------------------ the response

  /** The collision response: negate the normal component, keep the
      tangential one. */
  function Reflect(v: Vec2, n: Vec2, t: Vec2): Vec2
  {
    Add2(Scale2(-Dot2(v, n), n), Scale2(Dot2(v, t), t))
  }

  /** Dot product of a combination a n + b t with w. */
  lemma DotCombination(a: real, n: Vec2, b: real, t: Vec2, w: Vec2)
    ensures Dot2(Add2(Scale2(a, n), Scale2(b, t)), w) == a * Dot2(n, w) + b * Dot2(t, w)
  {
  }

  /** In the floor's frame the reflected velocity has the opposite normal
      component, the same tangential component and the same speed; and
      reflecting twice gives the velocity back. */
  lemma ReflectFacts(v: Vec2, c: real, s: real)
    requires c * c + s * s == 1.0
    ensures Dot2(Reflect(v, FloorNormal(c, s), FloorTangent(c, s)), FloorNormal(c, s))
         == -Dot2(v, FloorNormal(c, s))
    ensures Dot2(Reflect(v, FloorNormal(c, s), FloorTangent(c, s)), FloorTangent(c, s))
         == Dot2(v, FloorTangent(c, s))
    ensures Dot2(Reflect(v, FloorNormal(c, s), FloorTangent(c, s)),
                 Reflect(v, FloorNormal(c, s), FloorTangent(c, s))) == Dot2(v, v)
    ensures Reflect(Reflect(v, FloorNormal(c, s), FloorTangent(c, s)),
                    FloorNormal(c, s), FloorTangent(c, s)) == v
  {
    var n, t := FloorNormal(c, s), FloorTangent(c, s);
    var a, b := Dot2(v, n), Dot2(v, t);
    var r := Reflect(v, n, t);
    FloorFrameOrthonormal(c, s);
    DotCombination(-a, n, b, t, n);
    DotCombination(-a, n, b, t, t);
    assert Dot2(r, n) == -a && Dot2(r, t) == b;
    DotCombination(-a, n, b, t, r);
    FloorFrameSpans(v, c, s);
    DotCombination(a, n, b, t, v);
    assert Dot2(v, v) == a * a + b * b;
    FloorFrameSpans(r, c, s);
    assert Reflect(r, n, t) == Add2(Scale2(a, n), Scale2(b, t));
  }

  /** A ball falling straight onto a level floor bounces straight back up
      at the same speed. */
  lemma ReflectLevelFloor(vy: real)
    ensures Reflect(Vec2(0.0, vy), FloorNormal(1.0, 0.0), FloorTangent(1.0, 0.0)) == Vec2(0.0, -vy)
  {
  }

  // ------------------------------------------------------ the floor line

  /** The floor as the script sets it: ends at x = -300 and x = 300, at
      heights x sin(angle). */
  function SlantedFloorAsWritten(s: real): Floor
  {
    Floor(-300.0, -300.0 * s, 300.0, 300.0 * s)
  }

  /** The floor line the normal `rot(angle, [0, 1])` belongs to: heights
      x tan(angle). */
  function SlantedFloor(c: real, s: real): Floor
    requires c != 0.0
  {
    Floor(-300.0, -300.0 * s / c, 300.0, 300.0 * s / c)
  }

  function FloorDirection(f: Floor): Vec2
  {
    Vec2(f.x1 - f.x0, f.y1 - f.y0)
  }

  /** As written, the floor line is not at right angles to the floor normal
      unless the floor is level: the normal's dot product with the line's
      direction is 600 s (c - 1). */
  lemma AsWrittenNormalNotPerpendicular(c: real, s: real)
    requires c * c + s * s == 1.0 && s != 0.0 && c != 1.0
    ensures Dot2(FloorNormal(c, s), FloorDirection(SlantedFloorAsWritten(s))) == 600.0 * s * (c - 1.0)
    ensures Dot2(FloorNormal(c, s), FloorDirection(SlantedFloorAsWritten(s))) != 0.0
  {
    var d := Dot2(FloorNormal(c, s), FloorDirection(SlantedFloorAsWritten(s)));
    assert d == 600.0 * s * (c - 1.0);
    if d == 0.0 {
      ZeroProduct(600.0 * s, c - 1.0);
      ZeroProduct(600.0, s);
    }
  }

  /** With heights x tan(angle) the floor line is at right angles to the
      normal, parallel to the tangent, and passes through the origin. */
  lemma SlantedFloorMatchesFrame(c: real, s: real)
    requires c * c + s * s == 1.0 && c != 0.0
    ensures Dot2(FloorNormal(c, s), FloorDirection(SlantedFloor(c, s))) == 0.0
    ensures FloorDirection(SlantedFloor(c, s)) == Scale2(-600.0 / c, FloorTangent(c, s))
    ensures FloorHeight(SlantedFloor(c, s), 0.0) == 0.0
  {
    var k := s / c;
    DivIsMul(s, c);
    assert k * c == s;
    DivIsMul(-600.0, c);
    assert FloorDirection(SlantedFloor(c, s)) == Vec2(600.0, 600.0 * k);
  }

  // ------------------------------------------------------------ the ball

  datatype BallState = BallState(x: real, y: real, vx: real, vy: real, t: real)

  /** Lines 131-146 of `Ball.update`: on a hit, reflect the velocity off the
      floor and put the ball on the floor; otherwise leave it as it is. */
  function Respond(b: BallState, f: Floor, c: real, s: real): (r: BallState)
    requires f.x1 != f.x0
    ensures r.x == b.x && r.t == b.t
    ensures !CollisionDetection(f, b.x, b.y).0 ==> r == b
    ensures CollisionDetection(f, b.x, b.y).0 ==> r.y == FloorHeight(f, b.x)
  {
    var (hit, yc) := CollisionDetection(f, b.x, b.y);
    if hit then
      var v := Reflect(Vec2(b.vx, b.vy), FloorNormal(c, s), FloorTangent(c, s));
      BallState(b.x, yc, v.x, v.y, b.t)
    else b
  }

  /** After the response the ball is on or above the floor, and a ball that
      hit moves with the normal component of its velocity negated and the
      tangential component and speed kept. */
  lemma RespondFacts(b: BallState, f: Floor, c: real, s: real)
    requires f.x1 != f.x0 && c * c + s * s == 1.0
    ensures Respond(b, f, c, s).y >= FloorHeight(f, b.x)
    ensures CollisionDetection(f, b.x, b.y).0 ==>
              var v, w := Vec2(b.vx, b.vy), Vec2(Respond(b, f, c, s).vx, Respond(b, f, c, s).vy);
              && Dot2(w, FloorNormal(c, s)) == -Dot2(v, FloorNormal(c, s))
              && Dot2(w, FloorTangent(c, s)) == Dot2(v, FloorTangent(c, s))
              && Dot2(w, w) == Dot2(v, v)
  {
    ReflectFacts(Vec2(b.vx, b.vy), c, s);
  }

  class Ball {
    var x: real
    var y: real
    var vx: real
    var vy: real
    var t: real
    const g: real
    const dt: real
    const mass: real
    const friction: real

    function State(): BallState
      reads this
    {
      BallState(x, y, vx, vy, t)
    }

    /** The ball starts at rest at (290, 100), with gravity -9.8, a 10 ms
        step, unit mass and friction 0.001. */
    constructor ()
      ensures State() == BallState(290.0, 100.0, 0.0, 0.0, 0.0)
      ensures g == -9.8 && dt == 0.01 && mass == 1.0 && friction == 0.001
    {
      x, y, vx, vy, t := 290.0, 100.0, 0.0, 0.0, 0.0;
      g, dt, mass, friction := -9.8, 0.01, 1.0, 0.001;
    }

    /** `Ball.update`: respond to a collision, then hand the state to the
        solver, asking for time t + dt, and copy back what it returns. */
    method Update(f: Floor, c: real, s: real, integrate: (BallState, real) -> BallState)
      requires f.x1 != f.x0
      modifies this
      ensures State() == integrate(Respond(old(State()), f, c, s), old(t) + dt)
    {
      var hit, yc := CollisionDetection(f, x, y).0, CollisionDetection(f, x, y).1;
      if hit {
        var v := Vec2(vx, vy);
        var vn := Scale2(-Dot2(v, FloorNormal(c, s)), FloorNormal(c, s));
        var vt := Scale2(Dot2(v, FloorTangent(c, s)), FloorTangent(c, s));
        v := Add2(vn, vt);
        vx, vy := v.x, v.y;
        y := yc;
      }
      var next := integrate(State(), t + dt);
      x, y, vx, vy, t := next.x, next.y, next.vx, next.vy, next.t;
    }
  }
}
