/** The rigid body of the falling-box demo: its flat 19-slot state vector,
    the skew-symmetric "star" operator, the right-hand side of the equations
    of motion handed to the ODE solver, the row-wise re-orthonormalisation of
    a rotation matrix and the pose accessors. */
module RigidBodyDynamics {
  import opened Vectors

  /** Number of slots in the flat state vector. */
  const StateSize: nat := 19

  /** The three numbers starting at slot i, as a vector. */
  function Slice3(s: seq<real>, i: nat): Vec3
    requires i + 3 <= |s|
  {
    Vec3(s[i], s[i + 1], s[i + 2])
  }

  function Elems3(v: Vec3): (s: seq<real>)
    ensures |s| == 3
  {
    [v.x, v.y, v.z]
  }

  /** The state with its slots named: position 0..2, rotation 3..11 (row
      major), linear momentum 12..14, angular momentum 15..17, time 18. */
  datatype BodyState = BodyState(position: Vec3, rotation: Mat3, linearMomentum: Vec3,
                                 angularMomentum: Vec3, time: real)

  function Pack(b: BodyState): (s: seq<real>)
    ensures |s| == StateSize
  {
    Elems3(b.position) + Flatten(b.rotation) + Elems3(b.linearMomentum)
      + Elems3(b.angularMomentum) + [b.time]
  }

  function Unpack(s: seq<real>): BodyState
    requires |s| == StateSize
  {
    BodyState(Slice3(s, 0), Reshape(s[3..12]), Slice3(s, 12), Slice3(s, 15), s[18])
  }

  /** Reading back a packed state gives the same state. */
  lemma UnpackPack(b: BodyState)
    ensures Unpack(Pack(b)) == b
  {
    var s := Pack(b);
    assert s[3..12] == Flatten(b.rotation);
    ReshapeFlatten(b.rotation);
  }

  /** Every 19-slot vector is the packing of the state it encodes. */
  lemma PackUnpack(s: seq<real>)
    requires |s| == StateSize
    ensures Pack(Unpack(s)) == s
  {
    FlattenReshape(s[3..12]);
    assert Flatten(Reshape(s[3..12])) == s[3..12];
    assert s == s[0..3] + s[3..12] + s[12..15] + s[15..18] + [s[18]];
  }

  /** The state a new body starts in: at the origin, unrotated, at rest, at
      time 0. */
  function InitialState(mass: real, v: Vec3): BodyState
  {
    BodyState(Zero3, Identity(), Scale3(mass, v), Zero3, 0.0)
  }

  // -------------------------------------------------------------- star

  /** The skew-symmetric matrix of v, the `star` operator. */
  function Star(v: Vec3): (m: Mat3)
    ensures forall i :: 0 <= i < 3 ==> Entry(m, i, i) == 0.0
    ensures forall i, j :: 0 <= i < 3 && 0 <= j < 3 ==> Entry(m, i, j) == -Entry(m, j, i)
  {
    Mat3(Vec3(0.0, -v.z, v.y),
         Vec3(v.z, 0.0, -v.x),
         Vec3(-v.y, v.x, 0.0))
  }

  /** Multiplying by star(v) is taking the cross product with v. */
  lemma StarIsCross(v: Vec3, w: Vec3)
    ensures MatVec(Star(v), w) == Cross(v, w)
  {
  }

  /** star(v) sends v itself to zero. */
  lemma StarSelf(v: Vec3)
    ensures MatVec(Star(v), v) == Zero3
  {
    StarIsCross(v, v);
  }

  // ------------------------------------------------------- derivative

  /** The angular velocity the derivative uses: the inverse inertia tensor
      applied to the angular momentum. */
  function AngularVelocity(state: seq<real>, ibodyInv: Mat3): Vec3
    requires |state| == StateSize
  {
    MatVec(ibodyInv, Slice3(state, 15))
  }

  /** The right-hand side `f` of the equations of motion: velocity, the
      rotation rate star(omega) R, force, torque and a unit time rate. */
  function Rate(mass: real, state: seq<real>, force: Vec3, torque: Vec3, ibodyInv: Mat3): (rate: seq<real>)
    requires mass != 0.0 && |state| == StateSize
    ensures |rate| == StateSize
  {
    var v := DivBy3(Slice3(state, 12), mass);
    var r := Reshape(state[3..12]);
    var dRdt := MatMul(Star(AngularVelocity(state, ibodyInv)), r);
    Pack(BodyState(v, dRdt, force, torque, 1.0))
  }

  /** The momentum and time rates are the force, the torque and 1, whatever
      the state. */
  lemma RateFixedSlots(mass: real, state: seq<real>, force: Vec3, torque: Vec3, ibodyInv: Mat3)
    requires mass != 0.0 && |state| == StateSize
    ensures Slice3(Rate(mass, state, force, torque, ibodyInv), 12) == force
    ensures Slice3(Rate(mass, state, force, torque, ibodyInv), 15) == torque
    ensures Rate(mass, state, force, torque, ibodyInv)[18] == 1.0
  {
  }

  /** The position rate is the velocity: times the mass it gives back the
      linear momentum. */
  lemma RateIsVelocity(mass: real, state: seq<real>, force: Vec3, torque: Vec3, ibodyInv: Mat3)
    requires mass != 0.0 && |state| == StateSize
    ensures Scale3(mass, Slice3(Rate(mass, state, force, torque, ibodyInv), 0)) == Slice3(state, 12)
  {
    var p := Slice3(state, 12);
    DivIsMul(p.x, mass);
    DivIsMul(p.y, mass);
    DivIsMul(p.z, mass);
    var k := 1.0 / mass;
    assert mass * (k * p.x) == (mass * k) * p.x;
    assert mass * (k * p.y) == (mass * k) * p.y;
    assert mass * (k * p.z) == (mass * k) * p.z;
  }

  /** Column j of the rotation-rate block is omega x (column j of R): every
      body axis turns with the angular velocity. */
  lemma RateRotatesColumns(mass: real, state: seq<real>, force: Vec3, torque: Vec3, ibodyInv: Mat3, j: int)
    requires mass != 0.0 && |state| == StateSize && 0 <= j < 3
    ensures Col(Unpack(Rate(mass, state, force, torque, ibodyInv)).rotation, j)
         == Cross(AngularVelocity(state, ibodyInv), Col(Reshape(state[3..12]), j))
  {
    var omega := AngularVelocity(state, ibodyInv);
    var r := Reshape(state[3..12]);
    UnpackPack(BodyState(DivBy3(Slice3(state, 12), mass), MatMul(Star(omega), r), force, torque, 1.0));
    StarIsCross(omega, Col(r, j));
  }

  /** Without angular momentum the orientation does not change. */
  lemma RateZeroSpin(mass: real, state: seq<real>, force: Vec3, torque: Vec3, ibodyInv: Mat3)
    requires mass != 0.0 && |state| == StateSize
    requires Slice3(state, 15) == Zero3
    ensures Rate(mass, state, force, torque, ibodyInv)[3..12] == Flatten(ZeroMat)
  {
    var rate := Rate(mass, state, force, torque, ibodyInv);
    var omega := AngularVelocity(state, ibodyInv);
    assert omega == Zero3;
    assert Star(omega) == ZeroMat;
    assert MatMul(ZeroMat, Reshape(state[3..12])) == ZeroMat;
    assert rate[3..12] == Flatten(MatMul(Star(omega), Reshape(state[3..12])));
  }

  /** The derivative reads neither the position nor the time slots. */
  lemma RateIgnoresPositionAndTime(mass: real, s1: seq<real>, s2: seq<real>, force: Vec3, torque: Vec3, ibodyInv: Mat3)
    requires mass != 0.0 && |s1| == StateSize && |s2| == StateSize
    requires s1[3..18] == s2[3..18]
    ensures Rate(mass, s1, force, torque, ibodyInv) == Rate(mass, s2, force, torque, ibodyInv)
  {
    assert s1[3..12] == s1[3..18][0..9] == s2[3..18][0..9] == s2[3..12];
    assert Slice3(s1, 12) == Slice3(s2, 12) by {
      assert s1[12] == s1[3..18][9] && s2[12] == s2[3..18][9];
      assert s1[13] == s1[3..18][10] && s2[13] == s2[3..18][10];
      assert s1[14] == s1[3..18][11] && s2[14] == s2[3..18][11];
    }
    assert Slice3(s1, 15) == Slice3(s2, 15) by {
      assert s1[15] == s1[3..18][12] && s2[15] == s2[3..18][12];
      assert s1[16] == s1[3..18][13] && s2[16] == s2[3..18][13];
      assert s1[17] == s1[3..18][14] && s2[17] == s2[3..18][14];
    }
  }

  // --------------------------------------------------- orthonormalize

  /** Three mutually perpendicular unit rows forming a right-handed frame. */
  predicate IsRotation(m: Mat3)
  {
    Dot3(m.r0, m.r0) == 1.0 && Dot3(m.r1, m.r1) == 1.0 && Dot3(m.r2, m.r2) == 1.0
    && Dot3(m.r0, m.r1) == 0.0 && Dot3(m.r0, m.r2) == 0.0 && Dot3(m.r1, m.r2) == 0.0
    && m.r2 == Cross(m.r0, m.r1)
  }

  lemma IdentityIsRotation()
    ensures IsRotation(Identity())
  {
  }

  /** Which inputs `orthonormalize` can divide through: row 0 is non-zero and
      row 1 is not parallel to it. Row 2 of the input is never used. */
  predicate CanOrthonormalize(m: Mat3)
  {
    m.r0 != Zero3 && Cross(m.r0, m.r1) != Zero3
  }

  /** The raw new row 2, (r0 / |r0|) x r1, is non-zero. */
  lemma RawRow2Nonzero(m: Mat3, norm: Vec3 -> real)
    requires IsNorm3(norm) && CanOrthonormalize(m)
    ensures Cross(Normalize3(m.r0, norm), m.r1) != Zero3
  {
    NormalizeScales3(m.r0, norm);
    CrossScaleLeft(1.0 / norm(m.r0), m.r0, m.r1);
    ScaleNonzero3(1.0 / norm(m.r0), Cross(m.r0, m.r1));
  }

  /** The raw new row 1, r2new x r0new, is non-zero. */
  lemma RawRow1Nonzero(m: Mat3, norm: Vec3 -> real)
    requires IsNorm3(norm) && CanOrthonormalize(m)
    ensures Cross(Normalize3(m.r0, norm), m.r1) != Zero3
    ensures Cross(Normalize3(Cross(Normalize3(m.r0, norm), m.r1), norm), Normalize3(m.r0, norm)) != Zero3
  {
    RawRow2Nonzero(m, norm);
    var a := Normalize3(m.r0, norm);
    var c := Cross(a, m.r1);
    NormalizeScales3(m.r0, norm);
    NormalizeScales3(c, norm);
    CrossPerpendicular(a, m.r1);
    NormalizePerpendicular3(c, a, norm);
    CrossOfPerpendicularNonzero(Normalize3(c, norm), a);
  }

  /** `orthonormalize`: keep the direction of row 0, rebuild row 2 as
      r0 x r1 and row 1 as r2 x r0, dividing each by its norm. */
  function Orthonormalize(m: Mat3, norm: Vec3 -> real): Mat3
    requires IsNorm3(norm) && CanOrthonormalize(m)
  {
    var r0new := Normalize3(m.r0, norm);
    RawRow1Nonzero(m, norm);
    var r2new := Normalize3(Cross(r0new, m.r1), norm);
    var r1new := Normalize3(Cross(r2new, r0new), norm);
    Mat3(r0new, r1new, r2new)
  }

  /** Row 0 keeps its direction, and the rows are perpendicular as built:
      row 2 to row 0 and to the old row 1, row 1 to rows 0 and 2. */
  lemma OrthonormalizeRows(m: Mat3, norm: Vec3 -> real)
    requires IsNorm3(norm) && CanOrthonormalize(m)
    ensures norm(m.r0) > 0.0 && Orthonormalize(m, norm).r0 == Scale3(1.0 / norm(m.r0), m.r0)
    ensures Dot3(Orthonormalize(m, norm).r2, Orthonormalize(m, norm).r0) == 0.0
    ensures Dot3(Orthonormalize(m, norm).r2, m.r1) == 0.0
    ensures Dot3(Orthonormalize(m, norm).r1, Orthonormalize(m, norm).r0) == 0.0
    ensures Dot3(Orthonormalize(m, norm).r1, Orthonormalize(m, norm).r2) == 0.0
  {
    RawRow1Nonzero(m, norm);
    var a := Normalize3(m.r0, norm);
    var c := Cross(a, m.r1);
    var b := Normalize3(c, norm);
    var d := Cross(b, a);
    assert Orthonormalize(m, norm) == Mat3(a, Normalize3(d, norm), b);
    NormalizeScales3(m.r0, norm);
    CrossPerpendicular(a, m.r1);
    NormalizePerpendicular3(c, a, norm);
    NormalizePerpendicular3(c, m.r1, norm);
    CrossPerpendicular(b, a);
    NormalizePerpendicular3(d, a, norm);
    NormalizePerpendicular3(d, b, norm);
  }

  /** With the Euclidean norm the result is a rotation matrix. */
  lemma OrthonormalizeIsRotation(m: Mat3, norm: Vec3 -> real)
    requires IsEuclidean3(norm) && CanOrthonormalize(m)
    ensures IsNorm3(norm) && IsRotation(Orthonormalize(m, norm))
  {
    EuclideanIsNorm3(norm);
    OrthonormalizeRows(m, norm);
    RawRow1Nonzero(m, norm);
    var a := Normalize3(m.r0, norm);
    var b := Normalize3(Cross(a, m.r1), norm);
    var d := Cross(b, a);
    var o := Orthonormalize(m, norm);
    assert o == Mat3(a, Normalize3(d, norm), b);
    NormalizeUnit3(m.r0, norm);
    NormalizeUnit3(Cross(a, m.r1), norm);
    DotCommutes3(b, a);
    CrossOfPerpendicularUnits(b, a);
    NormalizeFixesUnit3(d, norm);
    assert o.r1 == d;
    DotCommutes3(o.r1, o.r0);
    DotCommutes3(o.r2, o.r0);
    // a x (b x a) = (a . a) b - (a . b) a = b
    DoubleCross(a, b, a);
    assert Cross(a, d) == Sub3(Scale3(1.0, b), Scale3(0.0, a));
  }

  /** A rotation matrix is left as it is. */
  lemma OrthonormalizeFixesRotations(m: Mat3, norm: Vec3 -> real)
    requires IsEuclidean3(norm) && IsRotation(m)
    ensures IsNorm3(norm) && CanOrthonormalize(m) && Orthonormalize(m, norm) == m
  {
    NormalizeFixesUnit3(m.r0, norm);
    NormalizeFixesUnit3(m.r1, norm);
    NormalizeFixesUnit3(m.r2, norm);
    // r2 x r0 = -(r0 x (r0 x r1)) = -((r0 . r1) r0 - (r0 . r0) r1) = r1
    CrossAntiCommutes(m.r2, m.r0);
    DoubleCross(m.r0, m.r0, m.r1);
    assert Cross(m.r0, m.r2) == Sub3(Scale3(0.0, m.r0), Scale3(1.0, m.r1));
    assert Cross(m.r2, m.r0) == m.r1;
  }

  /** Re-orthonormalising twice is the same as once. */
  lemma OrthonormalizeIdempotent(m: Mat3, norm: Vec3 -> real)
    requires IsEuclidean3(norm) && CanOrthonormalize(m)
    ensures IsNorm3(norm) && CanOrthonormalize(Orthonormalize(m, norm))
    ensures Orthonormalize(Orthonormalize(m, norm), norm) == Orthonormalize(m, norm)
  {
    OrthonormalizeIsRotation(m, norm);
    OrthonormalizeFixesRotations(Orthonormalize(m, norm), norm);
  }

  // ------------------------------------------------------- angle in 2-D

  const E1: Vec3 := Vec3(1.0, 0.0, 0.0)

  /** The exact part of `get_angle_2d`: the cosine of the turn of the body's
      x axis (the dot product of e1 with R e1) and the rotation axis
      e1 x R e1. The arccos and the conversion to degrees are not modelled. */
  function Angle2d(r: Mat3): (real, Vec3)
  {
    var v2 := MatVec(r, E1);
    (Dot3(E1, v2), Cross(E1, v2))
  }

  /** The cosine is the top-left entry and the axis is perpendicular both to
      e1 and to its image. */
  lemma Angle2dParts(r: Mat3)
    ensures Angle2d(r).0 == Entry(r, 0, 0)
    ensures Dot3(Angle2d(r).1, E1) == 0.0 && Dot3(Angle2d(r).1, MatVec(r, E1)) == 0.0
  {
    CrossPerpendicular(E1, MatVec(r, E1));
  }

  /** When R e1 is a unit vector, cos^2 + |axis|^2 = 1, the axis having the
      length of the sine. */
  lemma Angle2dSineCosine(r: Mat3)
    requires Dot3(Col(r, 0), Col(r, 0)) == 1.0
    ensures Angle2d(r).0 * Angle2d(r).0 + Dot3(Angle2d(r).1, Angle2d(r).1) == 1.0
  {
    var v2 := MatVec(r, E1);
    assert v2 == Col(r, 0);
    Lagrange(E1, v2);
  }

  /** A turn by an angle with cosine c and sine s about the z axis gives
      the cosine c and the axis (0, 0, s). */
  lemma Angle2dOfZRotation(c: real, s: real)
    ensures Angle2d(Mat3(Vec3(c, -s, 0.0), Vec3(s, c, 0.0), Vec3(0.0, 0.0, 1.0)))
         == (c, Vec3(0.0, 0.0, s))
  {
  }

  // -------------------------------------------------------- the body

  /** A rigid body with unit mass and identity inertia, constant force and
      torque, and its state kept in a 19-slot buffer. */
  class RigidBody {
    const mass: real
    const ibody: Mat3
    const ibodyInv: Mat3
    const v: Vec3
    const omega: Vec3
    const force: Vec3
    const torque: Vec3
    var state: array<real>

    predicate Valid()
      reads this
    {
      state.Length == StateSize
    }

    /** Builds the initial state slice by slice: zeros, then the identity
        rotation in slots 3..11, then mass times the velocity in 12..14. */
    constructor (force: Vec3, torque: Vec3)
      ensures Valid() && fresh(state)
      ensures mass == 1.0 && ibody == Identity() && ibodyInv == Identity()
      ensures this.force == force && this.torque == torque
      ensures Unpack(state[..]) == InitialState(mass, v) && v == Zero3 && omega == Zero3
    {
      mass := 1.0;
      ibody := Identity();
      ibodyInv := Identity();
      v := Zero3;
      omega := Zero3;
      this.force := force;
      this.torque := torque;
      var s := new real[StateSize](_ => 0.0);
      var rot := Flatten(Identity());
      for k := 0 to 9
        invariant forall i :: 0 <= i < 3 ==> s[i] == 0.0
        invariant forall i :: 3 <= i < 3 + k ==> s[i] == rot[i - 3]
        invariant forall i :: 3 + k <= i < StateSize ==> s[i] == 0.0
      {
        s[3 + k] := rot[k];
      }
      var p := Scale3(1.0, Zero3);
      s[12], s[13], s[14] := p.x, p.y, p.z;
      assert s[3..12] == rot;
      ReshapeFlatten(Identity());
      state := s;
    }

    /** `get_pos`: slots 0..2 of the state. */
    function GetPos(): (p: Vec3)
      reads this, state
      requires Valid()
      ensures p == Unpack(state[..]).position
    {
      Slice3(state[..], 0)
    }

    /** `get_rot`: slots 3..11 of the state reshaped row by row. */
    function GetRot(): (r: Mat3)
      reads this, state
      requires Valid()
      ensures Flatten(r) == state[3..12]
    {
      FlattenReshape(state[3..12]);
      Reshape(state[3..12])
    }
  }
}
