/*
  The circle overlap test (circle_collision_detection.py): two circles
  collide when the distance between their centres is at most the sum of
  their radii. The Euclidean length is an abstract `norm`; the lemmas below
  restate the test without a square root.
*/
module CircleCollision {
  import opened Vectors

  datatype Circle = Circle(x: real, y: real, radius: real)

  function Abs(r: real): (a: real)
    ensures a >= 0.0 && (a == r || a == -r)
  {
    if r < 0.0 then -r else r
  }

  /** The centre-to-centre offset, as absolute differences. */
  function Offset(c1: Circle, c2: Circle): Vec2
  {
    Vec2(Abs(c1.x - c2.x), Abs(c1.y - c2.y))
  }

  /** `check_circle_collision`: the distance between the centres is at most
      the sum of the radii, so circles that only touch collide. */
  predicate CheckCircleCollision(c1: Circle, c2: Circle, norm: Vec2 -> real)
  {
    norm(Offset(c1, c2)) <= c1.radius + c2.radius
  }

  /** The test does not depend on the order of the two circles. */
  lemma CollisionSymmetric(c1: Circle, c2: Circle, norm: Vec2 -> real)
    ensures CheckCircleCollision(c1, c2, norm) == CheckCircleCollision(c2, c1, norm)
  {
    assert Offset(c1, c2) == Offset(c2, c1);
  }

  /** Multiplying by a non-negative number keeps an order. */
  lemma MulMonotone(k: real, a: real, b: real)
    requires k >= 0.0 && a <= b
    ensures k * a <= k * b
  {
  }

  /** Multiplying by a positive number keeps a strict order. */
  lemma MulStrict(k: real, a: real, b: real)
    requires k > 0.0 && a < b
    ensures k * a < k * b
  {
  }

  /** For a non-negative root n of sq: n <= rs exactly when rs is
      non-negative and sq <= rs * rs. */
  lemma RootCompare(n: real, sq: real, rs: real)
    requires n >= 0.0 && n * n == sq
    ensures n <= rs <==> rs >= 0.0 && sq <= rs * rs
  {
    if n <= rs {
      MulMonotone(n, n, rs);
      MulMonotone(rs, n, rs);
    } else if rs >= 0.0 {
      calc {
        rs * rs;
      <= { MulMonotone(rs, rs, n); }
        rs * n;
      == n * rs;
      < { MulStrict(n, rs, n); }
        n * n;
      }
    }
  }

  /** An absolute difference squares to the difference squared. */
  lemma AbsSquare(r: real)
    ensures Abs(r) * Abs(r) == r * r
  {
  }

  /** With a non-negative radius sum, the test is the squared distance
      compared against the squared radius sum; with a negative one, it
      never holds. */
  lemma CollisionWithoutRoot(c1: Circle, c2: Circle, norm: Vec2 -> real)
    requires IsEuclidean2(norm)
    ensures var dx, dy, rs := c1.x - c2.x, c1.y - c2.y, c1.radius + c2.radius;
            CheckCircleCollision(c1, c2, norm) <==> rs >= 0.0 && dx * dx + dy * dy <= rs * rs
  {
    var o := Offset(c1, c2);
    var dx, dy := c1.x - c2.x, c1.y - c2.y;
    AbsSquare(dx);
    AbsSquare(dy);
    assert Dot2(o, o) == dx * dx + dy * dy;
    RootCompare(norm(o), Dot2(o, o), c1.radius + c2.radius);
  }

  /** Concentric circles with non-negative radii always collide. */
  lemma ConcentricCollide(c1: Circle, c2: Circle, norm: Vec2 -> real)
    requires IsEuclidean2(norm)
    requires c1.x == c2.x && c1.y == c2.y && c1.radius >= 0.0 && c2.radius >= 0.0
    ensures CheckCircleCollision(c1, c2, norm)
  {
    CollisionWithoutRoot(c1, c2, norm);
  }

  /** The script's first pair, twenty apart with radius twenty each,
      collides. */
  lemma OverlappingExample(c1: Circle, c2: Circle, norm: Vec2 -> real)
    requires IsEuclidean2(norm)
    requires c1 == Circle(30.0, 50.0, 20.0) && c2 == Circle(50.0, 50.0, 20.0)
    ensures CheckCircleCollision(c1, c2, norm)
  {
    CollisionWithoutRoot(c1, c2, norm);
  }

  /** The script's second pair, fifty apart with radius fifteen each, does
      not collide. */
  lemma SeparateExample(c1: Circle, c2: Circle, norm: Vec2 -> real)
    requires IsEuclidean2(norm)
    requires c1 == Circle(20.0, 50.0, 15.0) && c2 == Circle(70.0, 50.0, 15.0)
    ensures !CheckCircleCollision(c1, c2, norm)
  {
    CollisionWithoutRoot(c1, c2, norm);
  }
}
