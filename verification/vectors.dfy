/** Plain 2-D and 3-D vectors and 3x3 matrices over exact reals, with the
    products the simulations use (numpy's dot, cross and matmul) and the
    identities about them that the other modules rely on. */
module Vectors {

  datatype Vec2 = Vec2(x: real, y: real)
  datatype Vec3 = Vec3(x: real, y: real, z: real)

  /** A 3x3 matrix stored by rows. */
  datatype Mat3 = Mat3(r0: Vec3, r1: Vec3, r2: Vec3)

  const Zero2: Vec2 := Vec2(0.0, 0.0)
  const Zero3: Vec3 := Vec3(0.0, 0.0, 0.0)

  // ------------------------------------------------------ real arithmetic

  lemma SquareNonNegative(r: real)
    ensures r * r >= 0.0
  {
  }

  lemma ZeroProduct(u: real, v: real)
    requires u * v == 0.0
    ensures u == 0.0 || v == 0.0
  {
  }

  /** A non-negative number whose square is positive is positive. */
  lemma NonZeroRoot(n: real, sq: real)
    requires 0.0 <= n && n * n == sq && sq > 0.0
    ensures n > 0.0
  {
    if n == 0.0 {
    }
  }

  lemma SumSquaresZero(u: real, v: real)
    requires u * u + v * v == 0.0
    ensures u == 0.0 && v == 0.0
  {
    SquareNonNegative(u);
    SquareNonNegative(v);
    ZeroProduct(u, u);
    ZeroProduct(v, v);
  }

  lemma SumSquaresZero3(u: real, v: real, w: real)
    requires u * u + v * v + w * w == 0.0
    ensures u == 0.0 && v == 0.0 && w == 0.0
  {
    SquareNonNegative(u);
    SquareNonNegative(v);
    SquareNonNegative(w);
    ZeroProduct(u, u);
    ZeroProduct(v, v);
    ZeroProduct(w, w);
  }

  /** The only non-negative square root of 1 is 1. */
  lemma UnitRoot(n: real)
    requires 0.0 <= n && n * n == 1.0
    ensures n == 1.0
  {
    assert (n - 1.0) * (n + 1.0) == n * n - 1.0;
    ZeroProduct(n - 1.0, n + 1.0);
  }

  /** Dividing by d is multiplying by its reciprocal. */
  lemma DivIsMul(p: real, d: real)
    requires d != 0.0
    ensures p / d == (1.0 / d) * p && (1.0 / d) * d == 1.0
  {
  }

  // ---------------------------------------------------------------- 2-D

  function Add2(a: Vec2, b: Vec2): Vec2 { Vec2(a.x + b.x, a.y + b.y) }
  function Sub2(a: Vec2, b: Vec2): Vec2 { Vec2(a.x - b.x, a.y - b.y) }
  function Neg2(a: Vec2): Vec2 { Vec2(-a.x, -a.y) }
  function Scale2(k: real, a: Vec2): Vec2 { Vec2(k * a.x, k * a.y) }
  function Dot2(a: Vec2, b: Vec2): real { a.x * b.x + a.y * b.y }

  /** Component-wise division, numpy's `a / d` for a scalar d. */
  function DivBy2(a: Vec2, d: real): Vec2
    requires d != 0.0
  {
    Vec2(a.x / d, a.y / d)
  }

  /** A stand-in for np.linalg.norm: positive on every non-zero vector. */
  ghost predicate IsNorm2(norm: Vec2 -> real)
  {
    forall v :: v != Zero2 ==> norm(v) > 0.0
  }

  /** The Euclidean norm, characterised without square roots. */
  ghost predicate IsEuclidean2(norm: Vec2 -> real)
  {
    forall v :: 0.0 <= norm(v) && norm(v) * norm(v) == Dot2(v, v)
  }

  lemma SelfDot2Positive(v: Vec2)
    requires v != Zero2
    ensures Dot2(v, v) > 0.0
  {
    SquareNonNegative(v.x);
    SquareNonNegative(v.y);
    if Dot2(v, v) == 0.0 {
      SumSquaresZero(v.x, v.y);
    }
  }

  lemma EuclideanIsNorm2(norm: Vec2 -> real)
    requires IsEuclidean2(norm)
    ensures IsNorm2(norm)
  {
    forall v | v != Zero2 ensures norm(v) > 0.0 {
      SelfDot2Positive(v);
      NonZeroRoot(norm(v), Dot2(v, v));
    }
  }

  /** A Euclidean norm of a vector of squared length 1 is 1. */
  lemma EuclideanUnit2(norm: Vec2 -> real, v: Vec2)
    requires IsEuclidean2(norm)
    requires Dot2(v, v) == 1.0
    ensures norm(v) == 1.0
  {
    UnitRoot(norm(v));
  }

  lemma UnitScaled2(p: real, q: real, d: real, k: real)
    requires k * d == 1.0 && d * d == p * p + q * q
    ensures (k * p) * (k * p) + (k * q) * (k * q) == 1.0
  {
    assert (k * p) * (k * p) + (k * q) * (k * q) == (k * k) * (p * p + q * q);
    assert (k * k) * (d * d) == (k * d) * (k * d);
  }

  /** Dividing a non-zero vector by its Euclidean norm gives a unit vector. */
  lemma NormalizedIsUnit2(norm: Vec2 -> real, v: Vec2)
    requires IsEuclidean2(norm)
    requires v != Zero2
    ensures norm(v) > 0.0 && Dot2(DivBy2(v, norm(v)), DivBy2(v, norm(v))) == 1.0
  {
    EuclideanIsNorm2(norm);
    var n := norm(v);
    DivIsMul(v.x, n);
    DivIsMul(v.y, n);
    UnitScaled2(v.x, v.y, n, 1.0 / n);
  }

  /** Cauchy-Schwarz in the plane, through Lagrange's identity. */
  lemma CauchySchwarz2(a: Vec2, b: Vec2)
    ensures Dot2(a, b) * Dot2(a, b) <= Dot2(a, a) * Dot2(b, b)
  {
    var c := a.x * b.y - a.y * b.x;
    assert Dot2(a, a) * Dot2(b, b) - Dot2(a, b) * Dot2(a, b) == c * c;
    SquareNonNegative(c);
  }

  lemma SquaredDistance2(a: Vec2, b: Vec2)
    ensures Dot2(Sub2(a, b), Sub2(a, b)) == Dot2(a, a) - 2.0 * Dot2(a, b) + Dot2(b, b)
    ensures Dot2(Add2(a, b), Add2(a, b)) == Dot2(a, a) + 2.0 * Dot2(a, b) + Dot2(b, b)
  {
  }

  lemma UnitIsNonzero2(v: Vec2)
    requires Dot2(v, v) == 1.0
    ensures v != Zero2
  {
  }

  lemma DotNeg2(a: Vec2, b: Vec2)
    ensures Dot2(Neg2(a), b) == -Dot2(a, b)
  {
  }

  /** Two unit vectors of the plane whose dot product is 1 are equal. */
  lemma UnitDotOne2(a: Vec2, b: Vec2)
    requires Dot2(a, a) == 1.0 && Dot2(b, b) == 1.0
    requires Dot2(a, b) == 1.0
    ensures a == b
  {
    SquaredDistance2(a, b);
    SumSquaresZero(a.x - b.x, a.y - b.y);
  }

  lemma OppositeReal(p: real, q: real, r: real, t: real)
    requires p * p + q * q == 1.0 && r * r + t * t == 1.0 && p * r + q * t == -1.0
    ensures p == -r && q == -t
  {
    assert (p + r) * (p + r) + (q + t) * (q + t) == (p * p + q * q) + 2.0 * (p * r + q * t) + (r * r + t * t);
    SumSquaresZero(p + r, q + t);
  }

  /** Two unit vectors of the plane whose dot product is -1 are opposite. */
  lemma UnitDotMinusOne2(a: Vec2, b: Vec2)
    requires Dot2(a, a) == 1.0 && Dot2(b, b) == 1.0
    requires Dot2(a, b) == -1.0
    ensures a == Neg2(b)
  {
    OppositeReal(a.x, a.y, b.x, b.y);
  }

  // ---------------------------------------------------------------- 3-D

  function Sub3(a: Vec3, b: Vec3): Vec3 { Vec3(a.x - b.x, a.y - b.y, a.z - b.z) }
  function Scale3(k: real, a: Vec3): Vec3 { Vec3(k * a.x, k * a.y, k * a.z) }
  function Dot3(a: Vec3, b: Vec3): real { a.x * b.x + a.y * b.y + a.z * b.z }

  /** Component-wise division, numpy's `a / d` for a scalar d. */
  function DivBy3(a: Vec3, d: real): Vec3
    requires d != 0.0
  {
    Vec3(a.x / d, a.y / d, a.z / d)
  }

  /** np.cross for two 3-vectors. */
  function Cross(a: Vec3, b: Vec3): Vec3
  {
    Vec3(a.y * b.z - a.z * b.y, a.z * b.x - a.x * b.z, a.x * b.y - a.y * b.x)
  }

  /** Component i (0, 1 or 2) of a vector. */
  function At(v: Vec3, i: int): real
    requires 0 <= i < 3
  {
    if i == 0 then v.x else if i == 1 then v.y else v.z
  }

  function Row(m: Mat3, i: int): Vec3
    requires 0 <= i < 3
  {
    if i == 0 then m.r0 else if i == 1 then m.r1 else m.r2
  }

  function Col(m: Mat3, j: int): Vec3
    requires 0 <= j < 3
  {
    Vec3(At(m.r0, j), At(m.r1, j), At(m.r2, j))
  }

  /** The entry m[i][j]. */
  function Entry(m: Mat3, i: int, j: int): real
    requires 0 <= i < 3 && 0 <= j < 3
  {
    At(Row(m, i), j)
  }

  function Identity(): Mat3
  {
    Mat3(Vec3(1.0, 0.0, 0.0), Vec3(0.0, 1.0, 0.0), Vec3(0.0, 0.0, 1.0))
  }

  const ZeroMat: Mat3 := Mat3(Zero3, Zero3, Zero3)

  /** np.matmul of a matrix and a vector. */
  function MatVec(m: Mat3, v: Vec3): Vec3
  {
    Vec3(Dot3(m.r0, v), Dot3(m.r1, v), Dot3(m.r2, v))
  }

  /** One row of a product: the row vector r times the matrix b. */
  function RowTimes(r: Vec3, b: Mat3): Vec3
  {
    Vec3(Dot3(r, Col(b, 0)), Dot3(r, Col(b, 1)), Dot3(r, Col(b, 2)))
  }

  /** np.matmul of two matrices. */
  function MatMul(a: Mat3, b: Mat3): Mat3
  {
    Mat3(RowTimes(a.r0, b), RowTimes(a.r1, b), RowTimes(a.r2, b))
  }

  /** Row-major flattening, numpy's `reshape([1,9])` of a 3x3 array. */
  function Flatten(m: Mat3): (s: seq<real>)
    ensures |s| == 9
  {
    [m.r0.x, m.r0.y, m.r0.z, m.r1.x, m.r1.y, m.r1.z, m.r2.x, m.r2.y, m.r2.z]
  }

  /** Row-major reshaping of nine numbers, numpy's `reshape([3,3])`. */
  function Reshape(s: seq<real>): Mat3
    requires |s| == 9
  {
    Mat3(Vec3(s[0], s[1], s[2]), Vec3(s[3], s[4], s[5]), Vec3(s[6], s[7], s[8]))
  }

  /** Flattening puts entry (i, j) in slot 3i + j. */
  lemma FlattenRowMajor(m: Mat3, i: int, j: int)
    requires 0 <= i < 3 && 0 <= j < 3
    ensures Flatten(m)[3 * i + j] == Entry(m, i, j)
  {
  }

  lemma ReshapeFlatten(m: Mat3)
    ensures Reshape(Flatten(m)) == m
  {
  }

  lemma FlattenReshape(s: seq<real>)
    requires |s| == 9
    ensures Flatten(Reshape(s)) == s
  {
    assert Flatten(Reshape(s)) == [s[0], s[1], s[2], s[3], s[4], s[5], s[6], s[7], s[8]];
  }

  /** A stand-in for np.linalg.norm: positive on every non-zero vector. */
  ghost predicate IsNorm3(norm: Vec3 -> real)
  {
    forall v :: v != Zero3 ==> norm(v) > 0.0
  }

  /** The Euclidean norm, characterised without square roots. */
  ghost predicate IsEuclidean3(norm: Vec3 -> real)
  {
    forall v :: 0.0 <= norm(v) && norm(v) * norm(v) == Dot3(v, v)
  }

  lemma SelfDot3Positive(v: Vec3)
    requires v != Zero3
    ensures Dot3(v, v) > 0.0
  {
    SquareNonNegative(v.x);
    SquareNonNegative(v.y);
    SquareNonNegative(v.z);
    if Dot3(v, v) == 0.0 {
      SumSquaresZero3(v.x, v.y, v.z);
    }
  }

  lemma EuclideanIsNorm3(norm: Vec3 -> real)
    requires IsEuclidean3(norm)
    ensures IsNorm3(norm)
  {
    forall v | v != Zero3 ensures norm(v) > 0.0 {
      SelfDot3Positive(v);
      NonZeroRoot(norm(v), Dot3(v, v));
    }
  }

  /** A Euclidean norm of a vector of squared length 1 is 1. */
  lemma EuclideanUnit3(norm: Vec3 -> real, v: Vec3)
    requires IsEuclidean3(norm)
    requires Dot3(v, v) == 1.0
    ensures norm(v) == 1.0
  {
    UnitRoot(norm(v));
  }

  lemma DivByIsScale3(a: Vec3, d: real)
    requires d != 0.0
    ensures DivBy3(a, d) == Scale3(1.0 / d, a)
  {
    DivIsMul(a.x, d);
    DivIsMul(a.y, d);
    DivIsMul(a.z, d);
  }

  lemma DivByOne3(a: Vec3)
    ensures DivBy3(a, 1.0) == a
  {
  }

  lemma UnitScaled3(p: real, q: real, r: real, d: real, k: real)
    requires k * d == 1.0 && d * d == p * p + q * q + r * r
    ensures (k * p) * (k * p) + (k * q) * (k * q) + (k * r) * (k * r) == 1.0
  {
    assert (k * p) * (k * p) + (k * q) * (k * q) + (k * r) * (k * r) == (k * k) * (p * p + q * q + r * r);
    assert (k * k) * (d * d) == (k * d) * (k * d);
  }

  /** Dividing a non-zero vector by its Euclidean norm gives a unit vector. */
  lemma NormalizedIsUnit3(norm: Vec3 -> real, v: Vec3)
    requires IsEuclidean3(norm)
    requires v != Zero3
    ensures norm(v) > 0.0 && Dot3(DivBy3(v, norm(v)), DivBy3(v, norm(v))) == 1.0
  {
    EuclideanIsNorm3(norm);
    var n := norm(v);
    DivIsMul(v.x, n);
    DivIsMul(v.y, n);
    DivIsMul(v.z, n);
    UnitScaled3(v.x, v.y, v.z, n, 1.0 / n);
  }

  /** `v / np.linalg.norm(v)` for a non-zero v. */
  function Normalize3(v: Vec3, norm: Vec3 -> real): Vec3
    requires IsNorm3(norm) && v != Zero3
  {
    DivBy3(v, norm(v))
  }

  /** Normalising scales by a positive factor and keeps the vector non-zero. */
  lemma NormalizeScales3(v: Vec3, norm: Vec3 -> real)
    requires IsNorm3(norm) && v != Zero3
    ensures norm(v) > 0.0 && 1.0 / norm(v) > 0.0
    ensures Normalize3(v, norm) == Scale3(1.0 / norm(v), v) && Normalize3(v, norm) != Zero3
  {
    DivByIsScale3(v, norm(v));
    ScaleNonzero3(1.0 / norm(v), v);
  }

  /** Normalising keeps a vector perpendicular to whatever it was perpendicular to. */
  lemma NormalizePerpendicular3(v: Vec3, w: Vec3, norm: Vec3 -> real)
    requires IsNorm3(norm) && v != Zero3 && Dot3(v, w) == 0.0
    ensures Dot3(Normalize3(v, norm), w) == 0.0
  {
    NormalizeScales3(v, norm);
    DotScaleLeft(1.0 / norm(v), v, w);
  }

  /** With the Euclidean norm, normalising gives a unit vector. */
  lemma NormalizeUnit3(v: Vec3, norm: Vec3 -> real)
    requires IsEuclidean3(norm) && v != Zero3
    ensures IsNorm3(norm) && Dot3(Normalize3(v, norm), Normalize3(v, norm)) == 1.0
  {
    EuclideanIsNorm3(norm);
    NormalizedIsUnit3(norm, v);
  }

  lemma UnitIsNonzero3(v: Vec3)
    requires Dot3(v, v) == 1.0
    ensures v != Zero3
  {
  }

  /** With the Euclidean norm, a unit vector is its own normalisation. */
  lemma NormalizeFixesUnit3(v: Vec3, norm: Vec3 -> real)
    requires IsEuclidean3(norm) && Dot3(v, v) == 1.0
    ensures IsNorm3(norm) && v != Zero3 && Normalize3(v, norm) == v
  {
    EuclideanIsNorm3(norm);
    UnitIsNonzero3(v);
    EuclideanUnit3(norm, v);
    DivByOne3(v);
  }

  lemma DotCommutes3(a: Vec3, b: Vec3)
    ensures Dot3(a, b) == Dot3(b, a)
  {
  }

  lemma CrossAntiCommutes(a: Vec3, b: Vec3)
    ensures Cross(a, b) == Scale3(-1.0, Cross(b, a))
  {
  }

  lemma ScaleNonzero3(k: real, a: Vec3)
    requires k != 0.0 && a != Zero3
    ensures Scale3(k, a) != Zero3
  {
    if Scale3(k, a) == Zero3 {
      ZeroProduct(k, a.x);
      ZeroProduct(k, a.y);
      ZeroProduct(k, a.z);
    }
  }

  lemma CrossPerpendicular(a: Vec3, b: Vec3)
    ensures Dot3(Cross(a, b), a) == 0.0 && Dot3(Cross(a, b), b) == 0.0
  {
  }

  /** A common factor comes out of a difference of products. */
  lemma ScaledDifference(k: real, p: real, q: real, r: real, t: real)
    ensures (k * p) * q - (k * r) * t == k * (p * q - r * t)
  {
  }

  lemma CrossScaleLeft(k: real, a: Vec3, b: Vec3)
    ensures Cross(Scale3(k, a), b) == Scale3(k, Cross(a, b))
  {
    var lhs, rhs := Cross(Scale3(k, a), b), Scale3(k, Cross(a, b));
    ScaledDifference(k, a.y, b.z, a.z, b.y);
    ScaledDifference(k, a.z, b.x, a.x, b.z);
    ScaledDifference(k, a.x, b.y, a.y, b.x);
    assert lhs.x == rhs.x;
    assert lhs.y == rhs.y;
    assert lhs.z == rhs.z;
  }

  lemma DotScaleLeft(k: real, a: Vec3, b: Vec3)
    ensures Dot3(Scale3(k, a), b) == k * Dot3(a, b)
  {
  }

  lemma LagrangeReal(a1: real, a2: real, a3: real, b1: real, b2: real, b3: real)
    ensures (a2 * b3 - a3 * b2) * (a2 * b3 - a3 * b2) + (a3 * b1 - a1 * b3) * (a3 * b1 - a1 * b3)
            + (a1 * b2 - a2 * b1) * (a1 * b2 - a2 * b1)
         == (a1 * a1 + a2 * a2 + a3 * a3) * (b1 * b1 + b2 * b2 + b3 * b3)
            - (a1 * b1 + a2 * b2 + a3 * b3) * (a1 * b1 + a2 * b2 + a3 * b3)
  {
  }

  /** Lagrange's identity: |a x b|^2 = |a|^2 |b|^2 - (a . b)^2. */
  lemma Lagrange(a: Vec3, b: Vec3)
    ensures Dot3(Cross(a, b), Cross(a, b)) == Dot3(a, a) * Dot3(b, b) - Dot3(a, b) * Dot3(a, b)
  {
    LagrangeReal(a.x, a.y, a.z, b.x, b.y, b.z);
  }

  /** The cross product of two perpendicular non-zero vectors is non-zero. */
  lemma CrossOfPerpendicularNonzero(a: Vec3, b: Vec3)
    requires a != Zero3 && b != Zero3 && Dot3(a, b) == 0.0
    ensures Cross(a, b) != Zero3
  {
    Lagrange(a, b);
    SelfDot3Positive(a);
    SelfDot3Positive(b);
    var p, q := Dot3(a, a), Dot3(b, b);
    assert p * q > 0.0;
  }

  /** The cross product of two perpendicular unit vectors is a unit vector. */
  lemma CrossOfPerpendicularUnits(a: Vec3, b: Vec3)
    requires Dot3(a, a) == 1.0 && Dot3(b, b) == 1.0 && Dot3(a, b) == 0.0
    ensures Dot3(Cross(a, b), Cross(a, b)) == 1.0
  {
    Lagrange(a, b);
  }

  lemma TripleComponent(p: real, q: real, r: real, b1: real, b2: real, b3: real,
                        c1: real, c2: real, c3: real, pc: real, pb: real)
    requires pc == p * c1 + q * c2 + r * c3 && pb == p * b1 + q * b2 + r * b3
    ensures q * (b1 * c2 - b2 * c1) - r * (b3 * c1 - b1 * c3) == pc * b1 - pb * c1
  {
  }

  /** The vector triple product: a x (b x c) = (a . c) b - (a . b) c. */
  lemma DoubleCross(a: Vec3, b: Vec3, c: Vec3)
    ensures Cross(a, Cross(b, c)) == Sub3(Scale3(Dot3(a, c), b), Scale3(Dot3(a, b), c))
  {
    var ac, ab := Dot3(a, c), Dot3(a, b);
    TripleComponent(a.x, a.y, a.z, b.x, b.y, b.z, c.x, c.y, c.z, ac, ab);
    TripleComponent(a.y, a.z, a.x, b.y, b.z, b.x, c.y, c.z, c.x, ac, ab);
    TripleComponent(a.z, a.x, a.y, b.z, b.x, b.y, c.z, c.x, c.y, ac, ab);
  }
}
