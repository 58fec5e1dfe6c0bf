/** The separating-axis test for two convex polygons: edges with
    wrap-around, quarter-turn normals filtered for duplicates, and a strict
    interval-overlap test along every kept axis. */
module PolygonCollision {
  import opened Vectors

  // ------------------------------------------------------------- edges

  /** The vertex after vertex i, wrapping round to vertex 0. */
  function Next(i: nat, n: nat): (j: nat)
    requires i < n
    ensures j < n
  {
    if i + 1 < n then i + 1 else 0
  }

  /** Next is the source's `(i + 1) % len(vs)`. */
  lemma NextIsMod(i: nat, n: nat)
    requires i < n
    ensures Next(i, n) == (i + 1) % n
  {
    if i + 1 < n {
      ModSmall(i + 1, n);
    } else {
      ModSelf(n);
    }
  }

  /** Edge i runs from vertex i to the next one, the last edge back to
      vertex 0. */
  function Edges(vs: seq<Vec2>): (es: seq<Vec2>)
    ensures |es| == |vs|
  {
    seq(|vs|, i requires 0 <= i < |vs| => Sub2(vs[Next(i, |vs|)], vs[i]))
  }

  /** Walking along edge i from vertex i reaches the next vertex. */
  lemma EdgesWalk(vs: seq<Vec2>, i: nat)
    requires i < |vs|
    ensures Add2(vs[i], Edges(vs)[i]) == vs[Next(i, |vs|)]
  {
  }

  /** Sum of a sequence of vectors, added from the front. */
  function Sum2(es: seq<Vec2>): Vec2
  {
    if |es| == 0 then Zero2 else Add2(Sum2(es[..|es| - 1]), es[|es| - 1])
  }

  lemma ModSmall(a: int, n: int)
    requires 0 <= a < n
    ensures a % n == a
  {
  }

  lemma ModSelf(n: int)
    requires n > 0
    ensures n % n == 0
  {
  }

  /** The first k edges add up to the jump from vertex 0 to vertex k. */
  lemma {:induction false} PrefixTelescopes(vs: seq<Vec2>, k: nat)
    requires k < |vs|
    ensures Sum2(Edges(vs)[..k]) == Sub2(vs[k], vs[0])
  {
    if k > 0 {
      PrefixTelescopes(vs, k - 1);
      assert Edges(vs)[..k][..k - 1] == Edges(vs)[..k - 1];
      assert Edges(vs)[k - 1] == Sub2(vs[k], vs[k - 1]);
    }
  }

  /** Going once round the polygon comes back to the start. */
  lemma EdgesSumToZero(vs: seq<Vec2>)
    ensures |Edges(vs)| == |vs| && Sum2(Edges(vs)) == Zero2
  {
    if |vs| > 0 {
      var n := |vs|;
      var es := Edges(vs);
      PrefixTelescopes(vs, n - 1);
      assert Edges(vs)[n - 1] == Sub2(vs[0], vs[n - 1]);
      assert Sum2(es) == Add2(Sum2(es[..n - 1]), es[n - 1]);
    }
  }

  /** No two consecutive vertices coincide, so no edge is zero and every
      edge can be normalised. */
  predicate NoZeroEdge(vs: seq<Vec2>)
  {
    AllNonZero(Edges(vs))
  }

  predicate AllNonZero(es: seq<Vec2>)
  {
    forall i :: 0 <= i < |es| ==> es[i] != Zero2
  }

  // -------------------------------------------------------------- axes

  /** The matrix [[0, -1], [1, 0]] applied to e: a quarter turn. */
  function QuarterTurn(e: Vec2): Vec2
  {
    Vec2(-e.y, e.x)
  }

  /** A quarter turn is perpendicular to what it turns, keeps its length,
      and sends exactly the zero vector to zero. */
  lemma QuarterTurnFacts(e: Vec2)
    ensures Dot2(QuarterTurn(e), e) == 0.0
    ensures Dot2(QuarterTurn(e), QuarterTurn(e)) == Dot2(e, e)
    ensures QuarterTurn(e) == Zero2 <==> e == Zero2
  {
  }

  /** The candidate axis of an edge: its quarter turn divided by its norm. */
  function CandidateAxis(e: Vec2, norm: Vec2 -> real): (c: Vec2)
    requires IsNorm2(norm) && e != Zero2
    ensures c != Zero2 && Dot2(c, e) == 0.0
  {
    var q := QuarterTurn(e);
    QuarterTurnFacts(e);
    DivIsMul(q.x, norm(q));
    DivIsMul(q.y, norm(q));
    assert Dot2(DivBy2(q, norm(q)), e) == (1.0 / norm(q)) * Dot2(q, e);
    assert (q.x / norm(q)) * norm(q) == q.x && (q.y / norm(q)) * norm(q) == q.y;
    DivBy2(q, norm(q))
  }

  /** Every candidate axis is perpendicular to its edge, and a unit vector
      under the Euclidean norm. */
  lemma CandidateAxisFacts(e: Vec2, norm: Vec2 -> real)
    requires IsEuclidean2(norm) && e != Zero2
    ensures IsNorm2(norm)
    ensures Dot2(CandidateAxis(e, norm), e) == 0.0
    ensures Dot2(CandidateAxis(e, norm), CandidateAxis(e, norm)) == 1.0
  {
    EuclideanIsNorm2(norm);
    QuarterTurnFacts(e);
    var q := QuarterTurn(e);
    NormalizedIsUnit2(norm, q);
    DivIsMul(q.x, norm(q));
    DivIsMul(q.y, norm(q));
    var k := 1.0 / norm(q);
    assert Dot2(CandidateAxis(e, norm), e) == k * Dot2(q, e);
  }

  function Candidates(es: seq<Vec2>, norm: Vec2 -> real): (cs: seq<Vec2>)
    requires IsNorm2(norm) && AllNonZero(es)
    ensures |cs| == |es|
  {
    seq(|es|, i requires 0 <= i < |es| => CandidateAxis(es[i], norm))
  }

  /** Python's `d % 1` for a float d: the distance above the floor of d. */
  function PyMod1(d: real): (r: real)
    ensures 0.0 <= r < 1.0
  {
    d - d.Floor as real
  }

  /** `d % 1 == 0` holds exactly for whole numbers. */
  lemma PyMod1Zero(d: real)
    ensures PyMod1(d) == 0.0 <==> d == d.Floor as real
  {
  }

  /** The source's "colinear" test, `dot(ax, a) % 1` close to 0, with the
      tolerance taken as exact. */
  predicate Colinear(ax: Vec2, a: Vec2)
    ensures Colinear(ax, a) <==> Dot2(ax, a) == Dot2(ax, a).Floor as real
  {
    PyMod1(Dot2(ax, a)) == 0.0
  }

  /** For unit vectors the test holds exactly when they are equal, opposite
      or perpendicular: perpendicular axes are dropped as well. */
  lemma ColinearUnits(ax: Vec2, a: Vec2)
    requires Dot2(ax, ax) == 1.0 && Dot2(a, a) == 1.0
    ensures Colinear(ax, a) <==> ax == a || ax == Neg2(a) || Dot2(ax, a) == 0.0
  {
    var d := Dot2(ax, a);
    if Colinear(ax, a) {
      CauchySchwarz2(ax, a);
      assert d * d <= 1.0 * 1.0;
      assert d == d.Floor as real;
      WholeInUnitRange(d);
      if d == 1.0 {
        UnitDotOne2(ax, a);
      } else if d == -1.0 {
        UnitDotMinusOne2(ax, a);
      } else {
        assert d == 0.0;
      }
    }
    if ax == a {
      assert d == Dot2(a, a) == 1.0;
      assert d.Floor == 1;
    } else if ax == Neg2(a) {
      assert d == -Dot2(a, a) == -1.0;
      assert d.Floor == -1;
    } else if d == 0.0 {
      assert d.Floor == 0;
    }
  }

  /** A whole number whose square is at most 1 is -1, 0 or 1. */
  lemma WholeInUnitRange(d: real)
    requires d == d.Floor as real && d * d <= 1.0
    ensures d == -1.0 || d == 0.0 || d == 1.0
  {
  }

  /** The duplicate filter as the source writes it, and as it is evidently
      meant (see Parallel below). */
  datatype AxisFilter = AsWritten | Fixed

  predicate Drops(drop: AxisFilter, ax: Vec2, a: Vec2)
  {
    match drop
    case AsWritten => Colinear(ax, a)
    case Fixed => Parallel(ax, a)
  }

  /** Does some axis already kept make the duplicate filter drop ax? */
  predicate DroppedBy(drop: AxisFilter, ax: Vec2, kept: seq<Vec2>)
  {
    exists j :: 0 <= j < |kept| && Drops(drop, ax, kept[j])
  }

  /** The loop of `compute_axes`: go through the candidates in order and
      append each one that the filter does not drop. */
  function KeptAxesBy(cands: seq<Vec2>, drop: AxisFilter): (kept: seq<Vec2>)
    ensures |kept| <= |cands|
  {
    if |cands| == 0 then []
    else
      var kept := KeptAxesBy(cands[..|cands| - 1], drop);
      var ax := cands[|cands| - 1];
      if DroppedBy(drop, ax, kept) then kept else kept + [ax]
  }

  /** The filter as the source writes it. */
  function KeptAxes(cands: seq<Vec2>): (kept: seq<Vec2>)
    ensures |kept| <= |cands|
    ensures |cands| > 0 ==> |kept| > 0 && kept[0] == cands[0]
  {
    KeptAxesShape(cands, AsWritten);
    KeptAxesBy(cands, AsWritten)
  }

  /** At most one axis per candidate, the first candidate always survives,
      and every kept axis is a candidate. */
  lemma {:induction false} KeptAxesShape(cands: seq<Vec2>, drop: AxisFilter)
    ensures |KeptAxesBy(cands, drop)| <= |cands|
    ensures |cands| > 0 ==> |KeptAxesBy(cands, drop)| > 0 && KeptAxesBy(cands, drop)[0] == cands[0]
    ensures forall a | a in KeptAxesBy(cands, drop) :: a in cands
  {
    if |cands| > 0 {
      var init := cands[..|cands| - 1];
      KeptAxesShape(init, drop);
      if |init| == 0 {
        assert KeptAxesBy(init, drop) == [];
      } else {
        assert init[0] == cands[0];
      }
      forall a | a in KeptAxesBy(init, drop) ensures a in cands {
        assert a in init;
      }
    }
  }

  /** No kept axis is dropped by the test against an axis kept before it. */
  lemma {:induction false} KeptAxesDistinct(cands: seq<Vec2>, drop: AxisFilter)
    ensures forall i, j :: 0 <= i < j < |KeptAxesBy(cands, drop)| ==>
              !Drops(drop, KeptAxesBy(cands, drop)[j], KeptAxesBy(cands, drop)[i])
  {
    if |cands| > 0 {
      KeptAxesDistinct(cands[..|cands| - 1], drop);
    }
  }

  /** Every candidate either is kept or is dropped by an axis that is kept. */
  lemma {:induction false} KeptAxesCover(cands: seq<Vec2>, drop: AxisFilter)
    ensures forall i :: 0 <= i < |cands| ==>
              cands[i] in KeptAxesBy(cands, drop) || DroppedBy(drop, cands[i], KeptAxesBy(cands, drop))
  {
    if |cands| > 0 {
      var init := cands[..|cands| - 1];
      KeptAxesCover(init, drop);
      var kept := KeptAxesBy(init, drop);
      forall i | 0 <= i < |cands|
        ensures cands[i] in KeptAxesBy(cands, drop) || DroppedBy(drop, cands[i], KeptAxesBy(cands, drop))
      {
        if i < |init| {
          assert cands[i] == init[i];
          if !(cands[i] in kept) {
            var j :| 0 <= j < |kept| && Drops(drop, cands[i], kept[j]);
            assert KeptAxesBy(cands, drop)[j] == kept[j];
          }
        }
      }
    }
  }

  // ------------------------------------------------------ the polygon

  /** A polygon with the edge list and the axis list built by its
      constructor. The norm stands for np.linalg.norm. */
  class ConvexPolygon {
    var vertices: seq<Vec2>
    var edges: seq<Vec2>
    var separatingAxes: seq<Vec2>

    constructor (vs: seq<Vec2>, norm: Vec2 -> real)
      requires IsNorm2(norm) && NoZeroEdge(vs)
      ensures vertices == vs && edges == Edges(vs)
      ensures separatingAxes == KeptAxes(Candidates(Edges(vs), norm))
    {
      vertices := vs;
      edges := [];
      separatingAxes := [];
      new;
      ComputeEdges();
      ComputeAxes(norm);
    }

    /** `compute_edges`: append one edge per vertex to the edge list. */
    method ComputeEdges()
      modifies this
      ensures vertices == old(vertices) && separatingAxes == old(separatingAxes)
      ensures edges == old(edges) + Edges(vertices)
    {
      var vs := vertices;
      ghost var start := edges;
      for i := 0 to |vs|
        invariant vertices == vs && separatingAxes == old(separatingAxes)
        invariant edges == start + Edges(vs)[..i]
      {
        NextIsMod(i, |vs|);
        edges := edges + [Sub2(vs[(i + 1) % |vs|], vs[i])];
        assert Edges(vs)[..i + 1] == Edges(vs)[..i] + [Edges(vs)[i]];
      }
      assert Edges(vs)[..|vs|] == Edges(vs);
    }

    /** `compute_axes`: turn, normalise and filter the edges' normals. */
    method ComputeAxes(norm: Vec2 -> real)
      requires IsNorm2(norm) && AllNonZero(edges)
      modifies this
      ensures vertices == old(vertices) && edges == old(edges)
      ensures separatingAxes == KeptAxes(Candidates(edges, norm))
    {
      var es := edges;
      ghost var cands := Candidates(es, norm);
      var axs: seq<Vec2> := [];
      for i := 0 to |es|
        invariant axs == KeptAxesBy(cands[..i], AsWritten)
      {
        var ax := CandidateAxis(es[i], norm);
        var colinear := false;
        for k := 0 to |axs|
          invariant colinear <==> DroppedBy(AsWritten, ax, axs[..k])
        {
          if Colinear(ax, axs[k]) {
            colinear := true;
          }
          assert axs[..k + 1][k] == axs[k];
          assert forall j :: 0 <= j < k ==> axs[..k + 1][j] == axs[..k][j];
        }
        assert axs[..|axs|] == axs;
        assert cands[..i + 1][..i] == cands[..i];
        if !colinear {
          axs := axs + [ax];
        }
      }
      assert cands[..|es|] == cands;
      separatingAxes := axs;
    }
  }

  /** The axes one polygon contributes to the test. */
  function Axes(vs: seq<Vec2>, norm: Vec2 -> real): (axes: seq<Vec2>)
    requires IsNorm2(norm) && NoZeroEdge(vs)
    ensures 0 < |axes| <= |vs| || |vs| == 0 == |axes|
  {
    KeptAxes(Candidates(Edges(vs), norm))
  }

  // --------------------------------------------------- overlap test

  function Projections(a: Vec2, vs: seq<Vec2>): (ps: seq<real>)
    ensures |ps| == |vs|
  {
    seq(|vs|, i requires 0 <= i < |vs| => Dot2(a, vs[i]))
  }

  /** The last entry of the sorted list: the largest number. */
  function MaxOf(s: seq<real>): (m: real)
    requires |s| > 0
    ensures forall i :: 0 <= i < |s| ==> s[i] <= m
    ensures exists i :: 0 <= i < |s| && s[i] == m
  {
    if |s| == 1 then s[0]
    else
      var rest := MaxOf(s[..|s| - 1]);
      assert forall i :: 0 <= i < |s| - 1 ==> s[..|s| - 1][i] == s[i];
      if s[|s| - 1] > rest then s[|s| - 1] else rest
  }

  /** The first entry of the sorted list: the smallest number. */
  function MinOf(s: seq<real>): (m: real)
    requires |s| > 0
    ensures forall i :: 0 <= i < |s| ==> m <= s[i]
    ensures exists i :: 0 <= i < |s| && s[i] == m
  {
    if |s| == 1 then s[0]
    else
      var rest := MinOf(s[..|s| - 1]);
      assert forall i :: 0 <= i < |s| - 1 ==> s[..|s| - 1][i] == s[i];
      if s[|s| - 1] < rest then s[|s| - 1] else rest
  }

  /** Axis a separates the polygons unless each one's projection reaches
      strictly past the start of the other's. */
  predicate Separates(a: Vec2, vs1: seq<Vec2>, vs2: seq<Vec2>)
    requires |vs1| > 0 && |vs2| > 0
  {
    var p1, p2 := Projections(a, vs1), Projections(a, vs2);
    !(MaxOf(p1) > MinOf(p2) && MaxOf(p2) > MinOf(p1))
  }

  /** Collision along a list of axes: no axis separates. */
  predicate Collides(vs1: seq<Vec2>, vs2: seq<Vec2>, axes: seq<Vec2>)
    requires |vs1| > 0 && |vs2| > 0
  {
    forall a | a in axes :: !Separates(a, vs1, vs2)
  }

  /** What `polygons_collide` decides: both polygons' axes, stacked. */
  predicate PolygonsCollideSpec(vs1: seq<Vec2>, vs2: seq<Vec2>, norm: Vec2 -> real)
    requires IsNorm2(norm) && |vs1| > 0 && |vs2| > 0 && NoZeroEdge(vs1) && NoZeroEdge(vs2)
  {
    Collides(vs1, vs2, Axes(vs1, norm) + Axes(vs2, norm))
  }

  /** `polygons_collide`: build both polygons, stack their axes and test
      along them. */
  method PolygonsCollide(poly1: seq<Vec2>, poly2: seq<Vec2>, norm: Vec2 -> real) returns (collide: bool)
    requires IsNorm2(norm) && |poly1| > 0 && |poly2| > 0 && NoZeroEdge(poly1) && NoZeroEdge(poly2)
    ensures collide == PolygonsCollideSpec(poly1, poly2, norm)
  {
    var p1 := new ConvexPolygon(poly1, norm);
    var p2 := new ConvexPolygon(poly2, norm);
    collide := CollideAlong(p1.vertices, p2.vertices, p1.separatingAxes + p2.separatingAxes);
  }

  /** The loop of `polygons_collide`: return False at the first axis along
      which the projections do not overlap, True when there is none. */
  method CollideAlong(vs1: seq<Vec2>, vs2: seq<Vec2>, axs: seq<Vec2>) returns (collide: bool)
    requires |vs1| > 0 && |vs2| > 0
    ensures collide == Collides(vs1, vs2, axs)
  {
    for k := 0 to |axs|
      invariant forall j :: 0 <= j < k ==> !Separates(axs[j], vs1, vs2)
    {
      var proj1 := Projections(axs[k], vs1);
      var proj2 := Projections(axs[k], vs2);
      if !(MaxOf(proj1) > MinOf(proj2) && MaxOf(proj2) > MinOf(proj1)) {
        assert Separates(axs[k], vs1, vs2);
        return false;
      }
    }
    return true;
  }

  // ----------------------------------------------------------- facts

  /** Every vertex of vs1 projects onto a at or below every vertex of vs2. */
  predicate Below(a: Vec2, vs1: seq<Vec2>, vs2: seq<Vec2>)
  {
    forall i, j :: 0 <= i < |vs1| && 0 <= j < |vs2| ==> Dot2(a, vs1[i]) <= Dot2(a, vs2[j])
  }

  /** The largest projection of vs1 is at most the smallest of vs2 exactly
      when vs1 lies wholly below vs2 along a. */
  lemma MaxAtMostMin(a: Vec2, vs1: seq<Vec2>, vs2: seq<Vec2>)
    requires |vs1| > 0 && |vs2| > 0
    ensures MaxOf(Projections(a, vs1)) <= MinOf(Projections(a, vs2)) <==> Below(a, vs1, vs2)
  {
    var p, q := Projections(a, vs1), Projections(a, vs2);
    if MaxOf(p) <= MinOf(q) {
      forall i, j | 0 <= i < |vs1| && 0 <= j < |vs2| ensures Dot2(a, vs1[i]) <= Dot2(a, vs2[j]) {
        assert p[i] == Dot2(a, vs1[i]) && q[j] == Dot2(a, vs2[j]);
      }
    } else {
      var i :| 0 <= i < |p| && p[i] == MaxOf(p);
      var j :| 0 <= j < |q| && q[j] == MinOf(q);
      assert p[i] == Dot2(a, vs1[i]) && q[j] == Dot2(a, vs2[j]);
    }
  }

  /** Along one axis: separation means one polygon's projection lies wholly
      at or below the other's. */
  lemma SeparatesMeaning(a: Vec2, vs1: seq<Vec2>, vs2: seq<Vec2>)
    requires |vs1| > 0 && |vs2| > 0
    ensures Separates(a, vs1, vs2) <==> Below(a, vs1, vs2) || Below(a, vs2, vs1)
  {
    MaxAtMostMin(a, vs1, vs2);
    MaxAtMostMin(a, vs2, vs1);
  }

  /** The answer does not depend on the order of the two polygons. */
  lemma CollideSymmetric(vs1: seq<Vec2>, vs2: seq<Vec2>, norm: Vec2 -> real)
    requires IsNorm2(norm) && |vs1| > 0 && |vs2| > 0 && NoZeroEdge(vs1) && NoZeroEdge(vs2)
    ensures PolygonsCollideSpec(vs1, vs2, norm) == PolygonsCollideSpec(vs2, vs1, norm)
  {
    var axes := Axes(vs1, norm) + Axes(vs2, norm);
    var swapped := Axes(vs2, norm) + Axes(vs1, norm);
    assert forall a :: a in axes <==> a in swapped;
    assert forall a :: Separates(a, vs1, vs2) == Separates(a, vs2, vs1);
  }

  /** Projections that only touch are not a collision: the comparisons are
      strict. */
  lemma TouchingIsNoCollision(vs1: seq<Vec2>, vs2: seq<Vec2>, axes: seq<Vec2>, k: nat)
    requires |vs1| > 0 && |vs2| > 0 && k < |axes|
    requires MaxOf(Projections(axes[k], vs1)) == MinOf(Projections(axes[k], vs2))
    ensures !Collides(vs1, vs2, axes)
  {
    assert Separates(axes[k], vs1, vs2);
  }

  /** Negating an axis does not change whether it separates. */
  lemma SeparatesNeg(a: Vec2, vs1: seq<Vec2>, vs2: seq<Vec2>)
    requires |vs1| > 0 && |vs2| > 0
    ensures Separates(Neg2(a), vs1, vs2) == Separates(a, vs1, vs2)
  {
    SeparatesMeaning(a, vs1, vs2);
    SeparatesMeaning(Neg2(a), vs1, vs2);
    forall v { DotNeg2(a, v); }
    assert Below(Neg2(a), vs1, vs2) <==> Below(a, vs2, vs1);
    assert Below(Neg2(a), vs2, vs1) <==> Below(a, vs1, vs2);
  }

  // ------------------------------------------------ the filter, fixed

  /** The test the filter evidently means: drop an axis only when it is
      parallel or anti-parallel to a kept one. */
  predicate Parallel(ax: Vec2, a: Vec2)
  {
    Dot2(ax, a) == 1.0 || Dot2(ax, a) == -1.0
  }

  function AxesFixed(vs: seq<Vec2>, norm: Vec2 -> real): seq<Vec2>
    requires IsNorm2(norm) && NoZeroEdge(vs)
  {
    KeptAxesBy(Candidates(Edges(vs), norm), Fixed)
  }

  predicate PolygonsCollideFixed(vs1: seq<Vec2>, vs2: seq<Vec2>, norm: Vec2 -> real)
    requires IsNorm2(norm) && |vs1| > 0 && |vs2| > 0 && NoZeroEdge(vs1) && NoZeroEdge(vs2)
  {
    Collides(vs1, vs2, AxesFixed(vs1, norm) + AxesFixed(vs2, norm))
  }

  /** With unit candidates, filtering parallel axes loses nothing: testing
      the kept axes is the same as testing every candidate. */
  lemma FixedFilterLosesNothing(cands: seq<Vec2>, vs1: seq<Vec2>, vs2: seq<Vec2>)
    requires |vs1| > 0 && |vs2| > 0
    requires AllUnit(cands)
    ensures Collides(vs1, vs2, KeptAxesBy(cands, Fixed)) == Collides(vs1, vs2, cands)
  {
    var kept := KeptAxesBy(cands, Fixed);
    KeptAxesShape(cands, Fixed);
    KeptAxesCover(cands, Fixed);
    if Collides(vs1, vs2, kept) {
      forall i | 0 <= i < |cands| ensures !Separates(cands[i], vs1, vs2) {
        var c := cands[i];
        if c !in kept {
          var j :| 0 <= j < |kept| && Drops(Fixed, c, kept[j]);
          assert kept[j] in cands;
          var i' :| 0 <= i' < |cands| && cands[i'] == kept[j];
          if Dot2(c, kept[j]) == 1.0 {
            UnitDotOne2(c, kept[j]);
          } else {
            UnitDotMinusOne2(c, kept[j]);
            SeparatesNeg(kept[j], vs1, vs2);
          }
        }
      }
    }
  }

  /** The fixed test is the separating-axis test on every edge normal of
      both polygons. */
  lemma CollideFixedUsesAllNormals(vs1: seq<Vec2>, vs2: seq<Vec2>, norm: Vec2 -> real)
    requires IsEuclidean2(norm) && |vs1| > 0 && |vs2| > 0 && NoZeroEdge(vs1) && NoZeroEdge(vs2)
    ensures IsNorm2(norm)
    ensures PolygonsCollideFixed(vs1, vs2, norm)
        == Collides(vs1, vs2, Candidates(Edges(vs1), norm) + Candidates(Edges(vs2), norm))
  {
    EuclideanIsNorm2(norm);
    var c1, c2 := Candidates(Edges(vs1), norm), Candidates(Edges(vs2), norm);
    UnitCandidates(Edges(vs1), norm);
    UnitCandidates(Edges(vs2), norm);
    FixedFilterLosesNothing(c1, vs1, vs2);
    FixedFilterLosesNothing(c2, vs1, vs2);
    var k1, k2 := KeptAxesBy(c1, Fixed), KeptAxesBy(c2, Fixed);
    assert forall a :: a in k1 + k2 <==> a in k1 || a in k2;
    assert forall a :: a in c1 + c2 <==> a in c1 || a in c2;
  }

  lemma UnitCandidates(es: seq<Vec2>, norm: Vec2 -> real)
    requires IsEuclidean2(norm) && AllNonZero(es)
    ensures IsNorm2(norm) && AllUnit(Candidates(es, norm))
  {
    EuclideanIsNorm2(norm);
    var cs := Candidates(es, norm);
    forall i | 0 <= i < |cs| ensures Dot2(cs[i], cs[i]) == 1.0 {
      CandidateAxisFacts(es[i], norm);
    }
  }

  predicate AllUnit(cs: seq<Vec2>)
  {
    forall i :: 0 <= i < |cs| ==> Dot2(cs[i], cs[i]) == 1.0
  }

  // ------------------------------------------------ the two squares

  /** A unit square, counter-clockwise, with its lower-left corner at (x, 0). */
  function UnitSquare(x: real): seq<Vec2>
  {
    [Vec2(x, 0.0), Vec2(x + 1.0, 0.0), Vec2(x + 1.0, 1.0), Vec2(x, 1.0)]
  }

  function QuarterTurns(es: seq<Vec2>): (qs: seq<Vec2>)
    ensures |qs| == |es|
  {
    seq(|es|, i requires 0 <= i < |es| => QuarterTurn(es[i]))
  }

  /** The edges of a unit square are unit vectors, and their quarter turns
      point up, left, down and right. */
  lemma UnitSquareEdges(x: real)
    ensures Edges(UnitSquare(x)) == [Vec2(1.0, 0.0), Vec2(0.0, 1.0), Vec2(-1.0, 0.0), Vec2(0.0, -1.0)]
    ensures AllUnit(Edges(UnitSquare(x)))
    ensures QuarterTurns(Edges(UnitSquare(x)))
         == [Vec2(0.0, 1.0), Vec2(-1.0, 0.0), Vec2(0.0, -1.0), Vec2(1.0, 0.0)]
  {
  }

  /** The candidate axis of a unit edge is its quarter turn. */
  lemma CandidateOfUnitEdge(e: Vec2, norm: Vec2 -> real)
    requires IsEuclidean2(norm) && Dot2(e, e) == 1.0
    ensures e != Zero2 && IsNorm2(norm) && CandidateAxis(e, norm) == QuarterTurn(e)
  {
    EuclideanIsNorm2(norm);
    UnitIsNonzero2(e);
    QuarterTurnFacts(e);
    EuclideanUnit2(norm, QuarterTurn(e));
  }

  lemma CandidatesOfUnitEdges(es: seq<Vec2>, norm: Vec2 -> real)
    requires IsEuclidean2(norm) && AllUnit(es)
    ensures IsNorm2(norm) && AllNonZero(es) && Candidates(es, norm) == QuarterTurns(es)
  {
    EuclideanIsNorm2(norm);
    forall i | 0 <= i < |es| ensures es[i] != Zero2 {
      UnitIsNonzero2(es[i]);
    }
    forall i | 0 <= i < |es| ensures Candidates(es, norm)[i] == QuarterTurns(es)[i] {
      CandidateOfUnitEdge(es[i], norm);
    }
  }

  /** A unit square's candidate axes: up, left, down, right. */
  lemma UnitSquareAxes(x: real, norm: Vec2 -> real)
    requires IsEuclidean2(norm)
    ensures IsNorm2(norm) && NoZeroEdge(UnitSquare(x))
    ensures Candidates(Edges(UnitSquare(x)), norm)
         == [Vec2(0.0, 1.0), Vec2(-1.0, 0.0), Vec2(0.0, -1.0), Vec2(1.0, 0.0)]
  {
    UnitSquareEdges(x);
    CandidatesOfUnitEdges(Edges(UnitSquare(x)), norm);
  }

  lemma KeptAxesSnoc(cands: seq<Vec2>, ax: Vec2, drop: AxisFilter)
    ensures KeptAxesBy(cands + [ax], drop)
         == if DroppedBy(drop, ax, KeptAxesBy(cands, drop)) then KeptAxesBy(cands, drop)
            else KeptAxesBy(cands, drop) + [ax]
  {
    assert (cands + [ax])[..|cands|] == cands;
  }

  /** Once the kept list is [u], a candidate that u drops leaves it so. */
  lemma KeptStaysSingle(cands: seq<Vec2>, u: Vec2, ax: Vec2)
    requires KeptAxes(cands) == [u] && Drops(AsWritten, ax, u)
    ensures KeptAxes(cands + [ax]) == [u]
  {
    KeptAxesSnoc(cands, ax, AsWritten);
    assert [u][0] == u;
  }

  /** As written, a square keeps only its first axis: the perpendicular
      ones are dropped with the opposite one. */
  lemma SquareKeepsOneAxis(u: Vec2)
    requires Dot2(u, u) == 1.0
    ensures KeptAxes([u, QuarterTurn(u), Neg2(u), Neg2(QuarterTurn(u))]) == [u]
  {
    var q := QuarterTurn(u);
    QuarterTurnFacts(u);
    DotNeg2(u, u);
    DotNeg2(q, u);
    KeptAxesSnoc([], u, AsWritten);
    assert [] + [u] == [u];
    KeptStaysSingle([u], u, q);
    assert [u] + [q] == [u, q];
    KeptStaysSingle([u, q], u, Neg2(u));
    assert [u, q] + [Neg2(u)] == [u, q, Neg2(u)];
    KeptStaysSingle([u, q, Neg2(u)], u, Neg2(q));
    assert [u, q, Neg2(u)] + [Neg2(q)] == [u, q, Neg2(u), Neg2(q)];
  }

  /** As written, of up, left, down and right only up is kept. */
  lemma UpLeftDownRightKeepsUp(up: Vec2, left: Vec2, down: Vec2, right: Vec2)
    requires up == Vec2(0.0, 1.0) && left == Vec2(-1.0, 0.0)
    requires down == Vec2(0.0, -1.0) && right == Vec2(1.0, 0.0)
    ensures KeptAxes([up, left, down, right]) == [up]
  {
    SquareKeepsOneAxis(up);
    assert QuarterTurn(up) == left && Neg2(up) == down && Neg2(left) == right;
  }

  /** As written, a unit square contributes only the axis up. */
  lemma UnitSquareKeepsUp(x: real, norm: Vec2 -> real)
    requires IsEuclidean2(norm)
    ensures IsNorm2(norm) && NoZeroEdge(UnitSquare(x))
    ensures Axes(UnitSquare(x), norm) == [Vec2(0.0, 1.0)]
  {
    UnitSquareAxes(x, norm);
    UpLeftDownRightKeepsUp(Vec2(0.0, 1.0), Vec2(-1.0, 0.0), Vec2(0.0, -1.0), Vec2(1.0, 0.0));
  }

  /** One pair of vertices out of order is enough to rule out Below. */
  lemma NotBelow(a: Vec2, vs1: seq<Vec2>, vs2: seq<Vec2>, i: nat, j: nat)
    requires i < |vs1| && j < |vs2| && Dot2(a, vs1[i]) > Dot2(a, vs2[j])
    ensures !Below(a, vs1, vs2)
  {
  }

  /** Along the vertical the projections of any two unit squares coincide. */
  lemma SquaresOverlapAlongUp(x: real, y: real)
    ensures !Separates(Vec2(0.0, 1.0), UnitSquare(x), UnitSquare(y))
  {
    var up := Vec2(0.0, 1.0);
    SeparatesMeaning(up, UnitSquare(x), UnitSquare(y));
    NotBelow(up, UnitSquare(x), UnitSquare(y), 2, 0);
    NotBelow(up, UnitSquare(y), UnitSquare(x), 2, 0);
  }

  /** Along the horizontal, a square starting at or beyond the right side
      of another lies wholly past it. */
  lemma SquaresSeparateAlongLeft(x: real, y: real)
    requires x + 1.0 <= y
    ensures Separates(Vec2(-1.0, 0.0), UnitSquare(x), UnitSquare(y))
  {
    var left := Vec2(-1.0, 0.0);
    var a, b := UnitSquare(x), UnitSquare(y);
    forall i, j | 0 <= i < |b| && 0 <= j < |a|
      ensures Dot2(left, b[i]) <= Dot2(left, a[j])
    {
      assert y <= b[i].x && a[j].x <= x + 1.0;
    }
    SeparatesMeaning(left, a, b);
  }

  /** Two one-axis lists naming the same non-separating axis mean collision. */
  lemma CollidesAlongOneAxis(vs1: seq<Vec2>, vs2: seq<Vec2>, ax1: seq<Vec2>, ax2: seq<Vec2>, a: Vec2)
    requires |vs1| > 0 && |vs2| > 0 && ax1 == [a] && ax2 == [a] && !Separates(a, vs1, vs2)
    ensures Collides(vs1, vs2, ax1 + ax2)
  {
    assert ax1 + ax2 == [a, a];
  }

  /** As written, two unit squares side by side, however far apart, are
      reported as colliding: the only axis tested is the vertical one. */
  lemma SideBySideSquaresReportedColliding(x: real, y: real, norm: Vec2 -> real)
    requires IsEuclidean2(norm)
    ensures IsNorm2(norm) && NoZeroEdge(UnitSquare(x)) && NoZeroEdge(UnitSquare(y))
    ensures PolygonsCollideSpec(UnitSquare(x), UnitSquare(y), norm)
  {
    UnitSquareKeepsUp(x, norm);
    UnitSquareKeepsUp(y, norm);
    SquaresOverlapAlongUp(x, y);
    CollidesAlongOneAxis(UnitSquare(x), UnitSquare(y), Axes(UnitSquare(x), norm),
                         Axes(UnitSquare(y), norm), Vec2(0.0, 1.0));
  }

  /** Some axis in the list separates: no collision. */
  lemma SeparatedAlong(vs1: seq<Vec2>, vs2: seq<Vec2>, axes: seq<Vec2>, k: nat)
    requires |vs1| > 0 && |vs2| > 0 && k < |axes| && Separates(axes[k], vs1, vs2)
    ensures !Collides(vs1, vs2, axes)
  {
  }

  /** With the fixed filter, squares that do not overlap horizontally are
      told apart along the horizontal axis. */
  lemma SideBySideSquaresSeparatedFixed(x: real, y: real, norm: Vec2 -> real)
    requires IsEuclidean2(norm) && x + 1.0 <= y
    ensures IsNorm2(norm) && NoZeroEdge(UnitSquare(x)) && NoZeroEdge(UnitSquare(y))
    ensures !PolygonsCollideFixed(UnitSquare(x), UnitSquare(y), norm)
  {
    UnitSquareAxes(x, norm);
    UnitSquareAxes(y, norm);
    SquaresSeparateAlongLeft(x, y);
    SeparatedByCandidate(UnitSquare(x), UnitSquare(y), norm, 1);
  }

  /** With the fixed filter, an edge normal of the first polygon that
      separates the two means no collision. */
  lemma SeparatedByCandidate(vs1: seq<Vec2>, vs2: seq<Vec2>, norm: Vec2 -> real, k: nat)
    requires IsEuclidean2(norm) && IsNorm2(norm)
    requires |vs1| > 0 && |vs2| > 0 && NoZeroEdge(vs1) && NoZeroEdge(vs2)
    requires k < |vs1| && Separates(Candidates(Edges(vs1), norm)[k], vs1, vs2)
    ensures !PolygonsCollideFixed(vs1, vs2, norm)
  {
    CollideFixedUsesAllNormals(vs1, vs2, norm);
    var all := Candidates(Edges(vs1), norm) + Candidates(Edges(vs2), norm);
    SeparatedAlong(vs1, vs2, all, k);
  }
}
