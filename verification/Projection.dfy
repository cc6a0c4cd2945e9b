/** Projection of a point onto a polyline (LaneletMap::projectOntoLaneCenterline). */
module Projection {
  import opened Base

  function Square(r: real): real { r * r }

  /** Squared planar distance; comparing squares orders points as comparing distances does. */
  function Dist2(a: Local, b: Local): (d: real)
    ensures d >= 0.0
  {
    SquareNonNegative(a.x - b.x);
    SquareNonNegative(a.y - b.y);
    Square(a.x - b.x) + Square(a.y - b.y)
  }

  lemma SquareNonNegative(r: real)
    ensures Square(r) >= 0.0
  {
  }

  /** The point at parameter t of segment p0-p1. Like the source, it keeps the height of p0. */
  function OnSegment(p0: Local, p1: Local, t: real): Local {
    Local(p0.x + t * (p1.x - p0.x), p0.y + t * (p1.y - p0.y), p0.z)
  }

  function Clamp(r: real): real {
    if r < 0.0 then 0.0 else if r > 1.0 then 1.0 else r
  }

  function Length2(p0: Local, p1: Local): real {
    Square(p1.x - p0.x) + Square(p1.y - p0.y)
  }

  function Dot(ex: real, ey: real, dx: real, dy: real): real {
    ex * dx + ey * dy
  }

  /** The parameter of the foot of the perpendicular, clamped to the segment. */
  function Foot(target: Local, p0: Local, p1: Local): real {
    var len2 := Length2(p0, p1);
    if len2 > 0.0 then
      Clamp(Dot(target.x - p0.x, target.y - p0.y, p1.x - p0.x, p1.y - p0.y) / len2)
    else 0.0
  }

  function Candidate(cl: seq<Local>, target: Local, i: nat): Local
    requires i + 1 < |cl|
  {
    OnSegment(cl[i], cl[i+1], Foot(target, cl[i], cl[i+1]))
  }

  /** The first best candidate among the first n segments. */
  function BestPoint(cl: seq<Local>, target: Local, n: nat): (best: Option<Local>)
    requires n == 0 || n < |cl|
    ensures best.Some? <==> n > 0
  {
    if n == 0 then None
    else
      var best := BestPoint(cl, target, n - 1);
      var p := Candidate(cl, target, n - 1);
      if best.None? || Dist2(target, p) < Dist2(target, best.value) then Some(p) else best
  }

  /** With fewer than two points the source returns an uninitialised point, here `garbage`. */
  function Project(cl: seq<Local>, target: Local, garbage: Local): Local {
    if |cl| < 2 then garbage else BestPoint(cl, target, |cl| - 1).value
  }

  method ProjectOntoCenterline(cl: seq<Local>, target: Local, garbage: Local) returns (point: Local)
    ensures point == Project(cl, target, garbage)
    ensures |cl| >= 2 ==> exists i, t :: OnPolyline(cl, i, t) && point == OnSegment(cl[i], cl[i+1], t)
    ensures forall i, t :: OnPolyline(cl, i, t) ==>
      Dist2(target, point) <= Dist2(target, OnSegment(cl[i], cl[i+1], t))
  {
    var best: Option<Local> := None;
    var i := 0;
    while i + 1 < |cl|
      invariant i == 0 || i < |cl|
      invariant best == BestPoint(cl, target, i)
    {
      var p0, p1 := cl[i], cl[i+1];
      var p := OnSegment(p0, p1, Foot(target, p0, p1));
      if best.None? || Dist2(target, p) < Dist2(target, best.value) {
        best := Some(p);
      }
      i := i + 1;
    }
    point := if best.Some? then best.value else garbage;
    if |cl| >= 2 {
      ProjectionIsOptimal(cl, target, garbage);
    }
  }

  ghost predicate OnPolyline(cl: seq<Local>, i: int, t: real) {
    0 <= i && i + 1 < |cl| && 0.0 <= t <= 1.0
  }

  /** p lies on the polyline, at the height of the point that its segment starts from. */
  ghost predicate OnLine(cl: seq<Local>, p: Local) {
    exists i, t :: OnPolyline(cl, i, t)
      && p == Local(cl[i].x + t * (cl[i+1].x - cl[i].x), cl[i].y + t * (cl[i+1].y - cl[i].y), cl[i].z)
  }

  /** p is a point of the polyline and no point of it is nearer to the target. */
  ghost predicate NearestOnLine(cl: seq<Local>, target: Local, p: Local) {
    && OnLine(cl, p)
    && forall i, t :: OnPolyline(cl, i, t) ==> Dist2(target, p) <= Dist2(target, OnSegment(cl[i], cl[i+1], t))
  }

  /** The projection lies on the polyline and no point of the polyline is closer to the target. */
  lemma ProjectionIsOptimal(cl: seq<Local>, target: Local, garbage: Local)
    requires |cl| >= 2
    ensures NearestOnLine(cl, target, Project(cl, target, garbage))
  {
    var k := BestPointIsFirstBest(cl, target, |cl| - 1);
    assert OnPolyline(cl, k, Foot(target, cl[k], cl[k+1]));
    forall i, t | OnPolyline(cl, i, t)
      ensures Dist2(target, Project(cl, target, garbage)) <= Dist2(target, OnSegment(cl[i], cl[i+1], t))
    {
      FootIsNearest(target, cl[i], cl[i+1], t);
      assert Dist2(target, Project(cl, target, garbage)) <= Dist2(target, Candidate(cl, target, i));
    }
  }

  /** The best point is one of the candidates, no candidate beats it, every earlier one is worse. */
  lemma {:induction false} BestPointIsFirstBest(cl: seq<Local>, target: Local, n: nat) returns (k: nat)
    requires 0 < n < |cl|
    ensures k < n && BestPoint(cl, target, n) == Some(Candidate(cl, target, k))
    ensures forall i :: 0 <= i < n ==>
      Dist2(target, Candidate(cl, target, k)) <= Dist2(target, Candidate(cl, target, i))
    ensures forall i :: 0 <= i < k ==> Dist2(target, Candidate(cl, target, k)) < Dist2(target, Candidate(cl, target, i))
  {
    if n == 1 {
      k := 0;
    } else {
      k := BestPointIsFirstBest(cl, target, n - 1);
      if Dist2(target, Candidate(cl, target, n - 1)) < Dist2(target, Candidate(cl, target, k)) {
        k := n - 1;
      }
    }
  }

  /** The clamped foot is at least as near as any other point of the segment, zero length included. */
  lemma FootIsNearest(target: Local, p0: Local, p1: Local, t: real)
    requires 0.0 <= t <= 1.0
    ensures Dist2(target, OnSegment(p0, p1, Foot(target, p0, p1))) <= Dist2(target, OnSegment(p0, p1, t))
  {
    var dx, dy := p1.x - p0.x, p1.y - p0.y;
    var ex, ey := target.x - p0.x, target.y - p0.y;
    var c, k, len2 := Dot(ex, ey, ex, ey), Dot(ex, ey, dx, dy), Length2(p0, p1);
    var f := Foot(target, p0, p1);
    DistanceIsQuadratic(target, p0, p1, f);
    DistanceIsQuadratic(target, p0, p1, t);
    if len2 > 0.0 {
      VertexIsLeast(c, k, len2, t);
    } else {
      assert len2 == 0.0 && k == 0.0 by {
        SumOfSquaresZero(dx, dy);
      }
      FlatIsConstant(c, f, t);
    }
  }

  /** The quadratic c - 2kt + lt^2 that gives the squared distance along a segment. */
  function Quadratic(c: real, k: real, l: real, t: real): real {
    c - 2.0 * (t * k) + t * t * l
  }

  lemma DistanceIsQuadratic(target: Local, p0: Local, p1: Local, t: real)
    ensures var (dx, dy, ex, ey) := (p1.x - p0.x, p1.y - p0.y, target.x - p0.x, target.y - p0.y);
      Dist2(target, OnSegment(p0, p1, t)) == Quadratic(Dot(ex, ey, ex, ey), Dot(ex, ey, dx, dy), Length2(p0, p1), t)
  {
    var dx, dy, ex, ey := p1.x - p0.x, p1.y - p0.y, target.x - p0.x, target.y - p0.y;
    var p := OnSegment(p0, p1, t);
    assert target.x - p.x == ex - t * dx;
    assert target.y - p.y == ey - t * dy;
    ExpandSquare(ex, dx, t);
    ExpandSquare(ey, dy, t);
    CollectTerms(ex, ey, dx, dy, t);
  }

  lemma ExpandSquare(e: real, d: real, t: real)
    ensures Square(e - t * d) == e * e - 2.0 * (t * (e * d)) + t * t * (d * d)
  {
  }

  lemma CollectTerms(ex: real, ey: real, dx: real, dy: real, t: real)
    ensures (ex * ex - 2.0 * (t * (ex * dx)) + t * t * (dx * dx))
          + (ey * ey - 2.0 * (t * (ey * dy)) + t * t * (dy * dy))
         == Quadratic(Dot(ex, ey, ex, ey), Dot(ex, ey, dx, dy), Square(dx) + Square(dy), t)
  {
  }

  /** On [0, 1] the quadratic is least at the clamped vertex. */
  lemma VertexIsLeast(c: real, k: real, l: real, t: real)
    requires l > 0.0 && 0.0 <= t <= 1.0
    ensures Quadratic(c, k, l, Clamp(k / l)) <= Quadratic(c, k, l, t)
  {
    var q := k / l;
    assert k == q * l;
    var f := Clamp(q);
    Difference(c, q, l, f, t);
    if q < 0.0 {
      Product(t, t - 2.0 * q);
      Product(l, t * (t - 2.0 * q));
    } else if q > 1.0 {
      Product(1.0 - t, 2.0 * q - t - 1.0);
      Product(l, (1.0 - t) * (2.0 * q - t - 1.0));
      assert (1.0 - t) * (2.0 * q - t - 1.0) == (t - f) * (t + f - 2.0 * q);
    } else {
      SquareNonNegative(t - f);
      Product(l, Square(t - f));
    }
  }

  lemma Difference(c: real, q: real, l: real, f: real, t: real)
    ensures Quadratic(c, q * l, l, t) - Quadratic(c, q * l, l, f) == l * ((t - f) * (t + f - 2.0 * q))
  {
  }

  lemma FlatIsConstant(c: real, f: real, t: real)
    ensures Quadratic(c, 0.0, 0.0, f) == Quadratic(c, 0.0, 0.0, t)
  {
  }

  lemma SumOfSquaresZero(a: real, b: real)
    requires Square(a) + Square(b) <= 0.0
    ensures a == 0.0 && b == 0.0
  {
    SquareNonNegative(a);
    SquareNonNegative(b);
    SquarePositive(a, Square(a));
    SquarePositive(b, Square(b));
  }

  lemma SquarePositive(r: real, q: real)
    requires q == r * r
    ensures r == 0.0 || q > 0.0
  {
    if r > 0.0 {
      StrictProduct(r, r, q);
    } else if r < 0.0 {
      StrictProduct(-r, -r, q);
    }
  }

  lemma StrictProduct(a: real, b: real, q: real)
    requires a > 0.0 && b > 0.0 && q == a * b
    ensures q > 0.0
  {
  }

  lemma Product(a: real, b: real)
    requires a >= 0.0 && b >= 0.0
    ensures a * b >= 0.0
  {
  }
}
