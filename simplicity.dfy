/** The base loop of the cross outline, with its repeated second point dropped, is a simple
    polygon when the arms are narrower than the central block: no two of its vertices
    coincide, non-adjacent edges never meet and adjacent edges meet only at their shared
    vertex.  The proof reads the outline on its grid of levels: the combinatorial facts are
    checked once on the integer level indices and carried over to the real coordinates by the
    strict ordering of the levels. */
module ContourSimplicity {
  import opened Geometry
  import opened CrossDecomposition
  import opened ContourTracer

  /** The point a fraction t of the way from a to b. */
  function Lerp(a: real, b: real, t: real): real { a + t * (b - a) }

  /** q lies on the closed segment from a to b, in the (x, y) plane. */
  ghost predicate OnSegment(q: Point3, a: Point3, b: Point3) {
    exists t: real :: 0.0 <= t <= 1.0 && q.x == Lerp(a.x, b.x, t) && q.y == Lerp(a.y, b.y, t)
  }

  /** q lies on edge i of the closed loop ps, from ps[i] to ps[(i + 1) mod n]. */
  ghost predicate OnEdge(ps: seq<Point3>, i: nat, q: Point3)
    requires i < |ps|
  {
    OnSegment(q, ps[i], ps[(i + 1) % |ps|])
  }

  /** Edges i and j of an n-edge loop follow each other. */
  predicate Adjacent(n: nat, i: nat, j: nat)
    requires n > 0
  {
    j == (i + 1) % n || i == (j + 1) % n
  }

  /** A simple closed polygon: at least three vertices, pairwise distinct; non-adjacent edges
      share no point; consecutive edges share only the vertex between them. */
  ghost predicate SimplePolygon(ps: seq<Point3>) {
    |ps| >= 3 &&
    (forall i, j :: 0 <= i < j < |ps| ==> ps[i].x != ps[j].x || ps[i].y != ps[j].y) &&
    (forall i, j, q :: 0 <= i < |ps| && 0 <= j < |ps| && i != j && !Adjacent(|ps|, i, j) ==>
       !(OnEdge(ps, i, q) && OnEdge(ps, j, q))) &&
    (forall i, j, q :: 0 <= i < |ps| && j == (i + 1) % |ps| && OnEdge(ps, i, q) && OnEdge(ps, j, q) ==>
       q.x == ps[j].x && q.y == ps[j].y)
  }

  /** The loop without its repeated point 2 (equal to point 1 in the cross outline). */
  function WithoutRepeat(ps: seq<Point3>): (r: seq<Point3>)
    requires |ps| >= 3
    ensures |r| == |ps| - 1
    ensures forall i :: 0 <= i < |r| ==> r[i] == ps[if i < 2 then i else i + 1]
  {
    ps[..2] + ps[3..]
  }

  lemma LerpBetween(a: real, b: real, t: real)
    requires 0.0 <= t <= 1.0
    ensures Min(a, b) <= Lerp(a, b, t) <= Max(a, b)
  {
    if a <= b {
      MulNonNegative(t, b - a);
      MulNonNegative(1.0 - t, b - a);
    } else {
      MulNonNegative(t, a - b);
      MulNonNegative(1.0 - t, a - b);
    }
  }

  lemma MulNonNegative(x: real, y: real)
    requires x >= 0.0 && y >= 0.0
    ensures x * y >= 0.0
  {
  }

  /** A point of a segment lies in the segment's bounding box. */
  lemma OnSegmentBounds(q: Point3, a: Point3, b: Point3)
    requires OnSegment(q, a, b)
    ensures Min(a.x, b.x) <= q.x <= Max(a.x, b.x)
    ensures Min(a.y, b.y) <= q.y <= Max(a.y, b.y)
  {
    var t :| 0.0 <= t <= 1.0 && q.x == Lerp(a.x, b.x, t) && q.y == Lerp(a.y, b.y, t);
    LerpBetween(a.x, b.x, t);
    LerpBetween(a.y, b.y, t);
  }

  function MinInt(a: int, b: int): int { if a <= b then a else b }

  // The outline without its repeated point, on the integer grid of level indices.

  /** Position in the 21-point loop of point i of the 20-point polygon. */
  function LoopIndex(i: int): int { if i < 2 then i else i + 1 }

  function TX(i: int): int { XIndex(LoopIndex(i)) }

  function TY(i: int): int { YIndex(LoopIndex(i)) }

  function Next(i: int): int { (i + 1) % 20 }

  /** Template edge i joins two grid neighbours: one unit along exactly one axis. */
  predicate UnitStep(i: int) {
    var dx, dy := TX(Next(i)) - TX(i), TY(Next(i)) - TY(i);
    (dy == 0 && (dx == 1 || dx == -1)) || (dx == 0 && (dy == 1 || dy == -1))
  }

  /** Template edge i is horizontal and edge i + 1 vertical, or the other way round. */
  predicate TemplateCorner(i: int) {
    (TY(i) == TY(Next(i)) && TX(Next(i)) == TX(Next(Next(i)))) ||
    (TX(i) == TX(Next(i)) && TY(Next(i)) == TY(Next(Next(i))))
  }

  /** The template vertex at grid point (x, y), or -1 if there is none: a left inverse of
      the template, so that its 20 vertices are pairwise distinct. */
  function VertexAt(x: int, y: int): int {
    if x == 0 && y == 2 then 0 else
    if x == 1 && y == 2 then 1 else
    if x == 1 && y == 1 then 2 else
    if x == 2 && y == 1 then 3 else
    if x == 2 && y == 0 then 4 else
    if x == 3 && y == 0 then 5 else
    if x == 3 && y == 1 then 6 else
    if x == 4 && y == 1 then 7 else
    if x == 4 && y == 2 then 8 else
    if x == 5 && y == 2 then 9 else
    if x == 5 && y == 3 then 10 else
    if x == 4 && y == 3 then 11 else
    if x == 4 && y == 4 then 12 else
    if x == 3 && y == 4 then 13 else
    if x == 3 && y == 5 then 14 else
    if x == 2 && y == 5 then 15 else
    if x == 2 && y == 4 then 16 else
    if x == 1 && y == 4 then 17 else
    if x == 1 && y == 3 then 18 else
    if x == 0 && y == 3 then 19 else
    -1
  }

  /** The checks on template vertex i. */
  predicate VertexOk(i: int) {
    VertexAt(TX(i), TY(i)) == i && UnitStep(i) && TemplateCorner(i)
  }

  /** The vertex checks for lo .. hi - 1, halving the range so that they unfold to a shallow
      tree. */
  predicate VerticesOk(lo: nat, hi: nat)
    decreases hi - lo
  {
    if hi <= lo then true
    else if hi - lo == 1 then VertexOk(lo)
    else VerticesOk(lo, (lo + hi) / 2) && VerticesOk((lo + hi) / 2, hi)
  }

  lemma TemplateChecks()
    ensures VerticesOk(0, 20)
  {
    assert VerticesOk(0, 5) by { Checks0To2(); Checks2To5(); }
    assert VerticesOk(5, 10) by { Checks5To7(); Checks7To10(); }
    assert VerticesOk(10, 15) by { Checks10To12(); Checks12To15(); }
    assert VerticesOk(15, 20) by { Checks15To17(); Checks17To20(); }
  }

  lemma Checks0To2() ensures VerticesOk(0, 2) {}

  lemma Checks2To5() ensures VerticesOk(2, 5) {}

  lemma Checks5To7() ensures VerticesOk(5, 7) {}

  lemma Checks7To10() ensures VerticesOk(7, 10) {}

  lemma Checks10To12() ensures VerticesOk(10, 12) {}

  lemma Checks12To15() ensures VerticesOk(12, 15) {}

  lemma Checks15To17() ensures VerticesOk(15, 17) {}

  lemma Checks17To20() ensures VerticesOk(17, 20) {}

  lemma {:induction false} VerticesOkSound(lo: nat, hi: nat)
    requires VerticesOk(lo, hi)
    ensures forall i :: lo <= i < hi ==> VertexOk(i)
    decreases hi - lo
  {
    if hi - lo > 1 {
      VerticesOkSound(lo, (lo + hi) / 2);
      VerticesOkSound((lo + hi) / 2, hi);
    }
  }

  /** Every template vertex is distinct from the others, every template edge is a unit step
      and consecutive template edges turn a corner. */
  lemma TemplateSound()
    ensures forall k, l :: 0 <= k < 20 && 0 <= l < 20 && SamePoint(k, l) ==> k == l
    ensures forall k :: 0 <= k < 20 ==> UnitStep(k)
    ensures forall k :: 0 <= k < 20 ==> TemplateCorner(k)
  {
    TemplateChecks();
    VerticesOkSound(0, 20);
    forall k | 0 <= k < 20
      ensures UnitStep(k) && TemplateCorner(k)
    {
      assert VertexOk(k);
    }
    forall k, l | 0 <= k < 20 && 0 <= l < 20 && SamePoint(k, l)
      ensures k == l
    {
      assert VertexOk(k) && VertexOk(l);
      SamePointSameVertex(k, l);
    }
  }

  lemma SamePointSameVertex(k: int, l: int)
    requires VertexAt(TX(k), TY(k)) == k && VertexAt(TX(l), TY(l)) == l && SamePoint(k, l)
    ensures k == l
  {
  }

  /** Template vertices k and l sit on the same grid point. */
  predicate SamePoint(k: int, l: int) {
    TX(k) == TX(l) && TY(k) == TY(l)
  }

  /** Two unit grid steps whose closed bounding boxes meet share an endpoint. */
  lemma UnitStepsMeet(i: int, j: int)
    requires UnitStep(i) && UnitStep(j)
    requires MinInt(TX(i), TX(Next(i))) <= MaxInt(TX(j), TX(Next(j)))
    requires MinInt(TX(j), TX(Next(j))) <= MaxInt(TX(i), TX(Next(i)))
    requires MinInt(TY(i), TY(Next(i))) <= MaxInt(TY(j), TY(Next(j)))
    requires MinInt(TY(j), TY(Next(j))) <= MaxInt(TY(i), TY(Next(i)))
    ensures SamePoint(i, j) || SamePoint(i, Next(j)) || SamePoint(Next(i), j) ||
            SamePoint(Next(i), Next(j))
  {
  }

  // From level indices to coordinates.

  predicate StrictlyIncreasing(xs: seq<real>) {
    forall a, b :: 0 <= a < b < |xs| ==> xs[a] < xs[b]
  }

  /** The levels are strictly ordered when the arms are narrower than the central block. */
  lemma LevelsIncreasing(cx: real, cy: real, c: Cross)
    requires ValidCross(c)
    ensures c.armWidth < c.centralWidth ==> StrictlyIncreasing(XLevels(cx, c))
    ensures c.armWidth < c.centralDepth ==> StrictlyIncreasing(YLevels(cy, c))
  {
  }

  lemma LevelOrder(xs: seq<real>, a: int, b: int)
    requires StrictlyIncreasing(xs) && 0 <= a < |xs| && 0 <= b < |xs|
    ensures a < b ==> xs[a] < xs[b]
    ensures xs[a] == xs[b] <==> a == b
    ensures Max(xs[a], xs[b]) == xs[MaxInt(a, b)] && Min(xs[a], xs[b]) == xs[MinInt(a, b)]
  {
  }

  /** The 20-point polygon of the outline, vertex by vertex on its levels. */
  lemma PolygonLevels(cx: real, cy: real, c: Cross)
    ensures var q := WithoutRepeat(ContourBase(cx, cy, c));
            |q| == 20 &&
            forall i :: 0 <= i < 20 ==> q[i] == Point3(XLevels(cx, c)[TX(i)], YLevels(cy, c)[TY(i)], 0.0)
  {
    var ps := ContourBase(cx, cy, c);
    var q := WithoutRepeat(ps);
    ContourLevels(cx, cy, c);
    forall i | 0 <= i < 20
      ensures q[i] == Point3(XLevels(cx, c)[TX(i)], YLevels(cy, c)[TY(i)], 0.0)
    {
      assert q[i] == ps[LoopIndex(i)];
    }
  }

  /** When the arms are narrower than the central block on both axes, the outline without its
      repeated point is a simple polygon. */
  lemma ContourSimple(cx: real, cy: real, c: Cross)
    requires ValidCross(c) && c.armWidth < c.centralWidth && c.armWidth < c.centralDepth
    ensures SimplePolygon(WithoutRepeat(ContourBase(cx, cy, c)))
  {
    var p := WithoutRepeat(ContourBase(cx, cy, c));
    var xs := XLevels(cx, c);
    var ys := YLevels(cy, c);
    PolygonLevels(cx, cy, c);
    LevelsIncreasing(cx, cy, c);
    TemplateSound();
    PolygonDistinct(p, xs, ys);
    PolygonApart(p, xs, ys);
    PolygonCorners(p, xs, ys);
  }

  /** A polygon laid out on the template over strictly increasing levels has distinct
      vertices. */
  lemma PolygonDistinct(p: seq<Point3>, xs: seq<real>, ys: seq<real>)
    requires |p| == 20 && |xs| == 6 && |ys| == 6
    requires StrictlyIncreasing(xs) && StrictlyIncreasing(ys)
    requires forall k :: 0 <= k < 20 ==> p[k] == Point3(xs[TX(k)], ys[TY(k)], 0.0)
    requires forall k, l :: 0 <= k < 20 && 0 <= l < 20 && SamePoint(k, l) ==> k == l
    ensures forall i, j :: 0 <= i < j < 20 ==> p[i].x != p[j].x || p[i].y != p[j].y
  {
    forall i, j | 0 <= i < j < 20
      ensures p[i].x != p[j].x || p[i].y != p[j].y
    {
      assert p[i] == Point3(xs[TX(i)], ys[TY(i)], 0.0);
      assert p[j] == Point3(xs[TX(j)], ys[TY(j)], 0.0);
      LevelOrder(xs, TX(i), TX(j));
      LevelOrder(ys, TY(i), TY(j));
    }
  }

  /** Non-adjacent edges of such a polygon share no point. */
  lemma PolygonApart(p: seq<Point3>, xs: seq<real>, ys: seq<real>)
    requires |p| == 20 && |xs| == 6 && |ys| == 6
    requires StrictlyIncreasing(xs) && StrictlyIncreasing(ys)
    requires forall k :: 0 <= k < 20 ==> p[k] == Point3(xs[TX(k)], ys[TY(k)], 0.0)
    requires forall k, l :: 0 <= k < 20 && 0 <= l < 20 && SamePoint(k, l) ==> k == l
    requires forall k :: 0 <= k < 20 ==> UnitStep(k)
    ensures forall i, j, q :: 0 <= i < 20 && 0 <= j < 20 && i != j && !Adjacent(20, i, j) ==>
              !(OnEdge(p, i, q) && OnEdge(p, j, q))
  {
    forall i, j, q | 0 <= i < 20 && 0 <= j < 20 && i != j && !Adjacent(20, i, j)
      ensures !(OnEdge(p, i, q) && OnEdge(p, j, q))
    {
      if OnEdge(p, i, q) && OnEdge(p, j, q) {
        MeetingEdges(p, xs, ys, i, j, q);
      }
    }
  }

  /** Consecutive edges of such a polygon share only the vertex between them. */
  lemma PolygonCorners(p: seq<Point3>, xs: seq<real>, ys: seq<real>)
    requires |p| == 20 && |xs| == 6 && |ys| == 6
    requires forall k :: 0 <= k < 20 ==> p[k] == Point3(xs[TX(k)], ys[TY(k)], 0.0)
    requires forall k :: 0 <= k < 20 ==> TemplateCorner(k)
    ensures forall i, j, q :: 0 <= i < 20 && j == (i + 1) % 20 && OnEdge(p, i, q) && OnEdge(p, j, q) ==>
              q.x == p[j].x && q.y == p[j].y
  {
    forall i, j, q | 0 <= i < 20 && j == (i + 1) % 20 && OnEdge(p, i, q) && OnEdge(p, j, q)
      ensures q.x == p[j].x && q.y == p[j].y
    {
      CornerEdges(p, xs, ys, i, q);
    }
  }

  /** Along one axis: if a coordinate lies between the levels a and b and also between the
      levels c and d, the index intervals [a, b] and [c, d] overlap. */
  lemma AxisOverlap(xs: seq<real>, a: int, b: int, c: int, d: int, v: real)
    requires StrictlyIncreasing(xs) && 0 <= a < |xs| && 0 <= b < |xs| && 0 <= c < |xs| && 0 <= d < |xs|
    requires Min(xs[a], xs[b]) <= v <= Max(xs[a], xs[b])
    requires Min(xs[c], xs[d]) <= v <= Max(xs[c], xs[d])
    ensures MinInt(a, b) <= MaxInt(c, d) && MinInt(c, d) <= MaxInt(a, b)
  {
    LevelOrder(xs, a, b);
    LevelOrder(xs, c, d);
    LevelOrder(xs, MaxInt(c, d), MinInt(a, b));
    LevelOrder(xs, MaxInt(a, b), MinInt(c, d));
  }

  /** Two polygon edges that share a point are the same edge or consecutive ones. */
  lemma MeetingEdges(p: seq<Point3>, xs: seq<real>, ys: seq<real>, i: nat, j: nat, q: Point3)
    requires |p| == 20 && |xs| == 6 && |ys| == 6
    requires StrictlyIncreasing(xs) && StrictlyIncreasing(ys)
    requires forall k :: 0 <= k < 20 ==> p[k] == Point3(xs[TX(k)], ys[TY(k)], 0.0)
    requires forall k, l :: 0 <= k < 20 && 0 <= l < 20 && SamePoint(k, l) ==> k == l
    requires UnitStep(i) && UnitStep(j)
    requires i < 20 && j < 20 && OnEdge(p, i, q) && OnEdge(p, j, q)
    ensures i == j || Adjacent(20, i, j)
  {
    var i1, j1 := Next(i), Next(j);
    assert p[i] == Point3(xs[TX(i)], ys[TY(i)], 0.0);
    assert p[i1] == Point3(xs[TX(i1)], ys[TY(i1)], 0.0);
    assert p[j] == Point3(xs[TX(j)], ys[TY(j)], 0.0);
    assert p[j1] == Point3(xs[TX(j1)], ys[TY(j1)], 0.0);
    OnSegmentBounds(q, p[i], p[i1]);
    OnSegmentBounds(q, p[j], p[j1]);
    AxisOverlap(xs, TX(i), TX(i1), TX(j), TX(j1), q.x);
    AxisOverlap(ys, TY(i), TY(i1), TY(j), TY(j1), q.y);
    UnitStepsMeet(i, j);
    if SamePoint(i, j) {
      assert i == j;
    } else if SamePoint(i, j1) {
      assert i == j1;
    } else if SamePoint(i1, j) {
      assert i1 == j;
    } else {
      assert i1 == j1;
      NextInjective(i, j);
    }
  }

  lemma NextInjective(i: int, j: int)
    requires 0 <= i < 20 && 0 <= j < 20 && Next(i) == Next(j)
    ensures i == j
  {
    if i == 19 || j == 19 {
      assert Next(19) == 0;
    }
  }

  lemma CornerEdges(p: seq<Point3>, xs: seq<real>, ys: seq<real>, i: nat, q: Point3)
    requires |p| == 20 && |xs| == 6 && |ys| == 6
    requires forall k :: 0 <= k < 20 ==> p[k] == Point3(xs[TX(k)], ys[TY(k)], 0.0)
    requires i < 20 && TemplateCorner(i)
    requires OnEdge(p, i, q) && OnEdge(p, Next(i), q)
    ensures q.x == p[Next(i)].x && q.y == p[Next(i)].y
  {
    var i1, i2 := Next(i), Next(Next(i));
    assert p[i] == Point3(xs[TX(i)], ys[TY(i)], 0.0);
    assert p[i1] == Point3(xs[TX(i1)], ys[TY(i1)], 0.0);
    assert p[i2] == Point3(xs[TX(i2)], ys[TY(i2)], 0.0);
    OnSegmentBounds(q, p[i], p[i1]);
    OnSegmentBounds(q, p[i1], p[i2]);
  }

  /** With arms exactly as wide as the central block, points 3 and 4 of the loop coincide,
      so the strict inequalities above cannot be relaxed. */
  lemma ContourDegenerateAtEquality(cx: real, cy: real, c: Cross)
    requires c.armWidth == c.centralWidth
    ensures ContourBase(cx, cy, c)[3] == ContourBase(cx, cy, c)[4]
  {
  }
}
