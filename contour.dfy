/** The contour tracer of the cross: the ordered outline of the footprint at z = 0 (21 points,
    the second one repeated), the same loop lifted to the height, and the wireframe made of
    the base loop, the top loop and one vertical edge per point. */
module ContourTracer {
  import opened Geometry
  import opened CrossDecomposition

  /** The base loop, given the centre (cx, cy) of the bounding box.  It starts at the lower
      outer corner of the left arm and walks the outline arm by arm: left arm bottom, bottom
      arm, right arm, top arm, back to the left arm.  Points 1 and 2 coincide. */
  function ContourBase(cx: real, cy: real, c: Cross): (ps: seq<Point3>)
    ensures |ps| == 21
  {
    var xStart := cx - c.centralWidth / 2.0 - c.armLength;
    var yStart := cy - c.armWidth / 2.0;
    [ Point3(xStart, yStart, 0.0),
      Point3(xStart + c.armLength, yStart, 0.0),
      Point3(cx - c.centralWidth / 2.0, yStart, 0.0),
      Point3(cx - c.centralWidth / 2.0, cy - c.centralDepth / 2.0, 0.0),
      Point3(cx - c.armWidth / 2.0, cy - c.centralDepth / 2.0, 0.0),
      Point3(cx - c.armWidth / 2.0, cy - c.centralDepth / 2.0 - c.armLength, 0.0),
      Point3(cx + c.armWidth / 2.0, cy - c.centralDepth / 2.0 - c.armLength, 0.0),
      Point3(cx + c.armWidth / 2.0, cy - c.centralDepth / 2.0, 0.0),
      Point3(cx + c.centralWidth / 2.0, cy - c.centralDepth / 2.0, 0.0),
      Point3(cx + c.centralWidth / 2.0, yStart, 0.0),
      Point3(cx + c.centralWidth / 2.0 + c.armLength, yStart, 0.0),
      Point3(cx + c.centralWidth / 2.0 + c.armLength, yStart + c.armWidth, 0.0),
      Point3(cx + c.centralWidth / 2.0, yStart + c.armWidth, 0.0),
      Point3(cx + c.centralWidth / 2.0, cy + c.centralDepth / 2.0, 0.0),
      Point3(cx + c.armWidth / 2.0, cy + c.centralDepth / 2.0, 0.0),
      Point3(cx + c.armWidth / 2.0, cy + c.centralDepth / 2.0 + c.armLength, 0.0),
      Point3(cx - c.armWidth / 2.0, cy + c.centralDepth / 2.0 + c.armLength, 0.0),
      Point3(cx - c.armWidth / 2.0, cy + c.centralDepth / 2.0, 0.0),
      Point3(cx - c.centralWidth / 2.0, cy + c.centralDepth / 2.0, 0.0),
      Point3(cx - c.centralWidth / 2.0, yStart + c.armWidth, 0.0),
      Point3(xStart, yStart + c.armWidth, 0.0) ]
  }

  /** The top loop: every base point lifted to the given height. */
  function ContourTop(base: seq<Point3>, height: real): (top: seq<Point3>)
    ensures |top| == |base|
    ensures forall i :: 0 <= i < |base| ==>
              top[i].x == base[i].x && top[i].y == base[i].y && top[i].z == height
  {
    seq(|base|, i requires 0 <= i < |base| => Point3(base[i].x, base[i].y, height))
  }

  /** The outline of a cross, with the centre computed from its total extents.  The filled
      cross and the outline-only plan trace the same point list around that centre; both start
      at the lower outer corner of the left arm, on the y axis. */
  function CrossOutline(c: Cross): (ps: seq<Point3>)
    ensures |ps| == 21
    ensures ps[0] == Point3(0.0, CentreY(c) - c.armWidth / 2.0, 0.0)
    ensures forall i :: 0 <= i < 21 ==> ps[i].z == 0.0
  {
    ContourBase(CentreX(c), CentreY(c), c)
  }

  /** Index pairs of the closed loop edges (i, (i + 1) mod n). */
  function LoopEdges(n: nat): seq<(nat, nat)> {
    seq(n, i requires 0 <= i < n => (i, (i + 1) % n))
  }

  /** The wireframe: the n base edges, then the n top edges, then the n vertical edges
      base[i] - top[i]. */
  function Wireframe(base: seq<Point3>, top: seq<Point3>): (w: seq<Segment>)
    requires |top| == |base|
    ensures |w| == 3 * |base|
  {
    var n := |base|;
    var e := LoopEdges(n);
    seq(n, i requires 0 <= i < n => Segment(base[e[i].0], base[e[i].1])) +
    seq(n, i requires 0 <= i < n => Segment(top[e[i].0], top[e[i].1])) +
    seq(n, i requires 0 <= i < n => Segment(base[i], top[i]))
  }

  /** The x coordinates the outline uses, left to right when the arms are narrower than the
      central block: the left end, the central block's left side, the vertical arms' sides,
      the central block's right side, the right end. */
  function XLevels(cx: real, c: Cross): seq<real> {
    [cx - c.centralWidth / 2.0 - c.armLength, cx - c.centralWidth / 2.0,
     cx - c.armWidth / 2.0, cx + c.armWidth / 2.0,
     cx + c.centralWidth / 2.0, cx + c.centralWidth / 2.0 + c.armLength]
  }

  /** The y coordinates of the outline, bottom to top, in the same pattern. */
  function YLevels(cy: real, c: Cross): seq<real> {
    [cy - c.centralDepth / 2.0 - c.armLength, cy - c.centralDepth / 2.0,
     cy - c.armWidth / 2.0, cy + c.armWidth / 2.0,
     cy + c.centralDepth / 2.0, cy + c.centralDepth / 2.0 + c.armLength]
  }

  /** Which x level point i of the base loop sits on. */
  function XIndex(i: int): (u: int)
    ensures 0 <= u < 6
  {
    if i == 0 || i == 20 then 0
    else if i == 1 || i == 2 || i == 3 || i == 18 || i == 19 then 1
    else if i == 4 || i == 5 || i == 16 || i == 17 then 2
    else if i == 6 || i == 7 || i == 14 || i == 15 then 3
    else if i == 8 || i == 9 || i == 12 || i == 13 then 4
    else 5
  }

  /** Which y level point i of the base loop sits on. */
  function YIndex(i: int): (u: int)
    ensures 0 <= u < 6
  {
    if i == 5 || i == 6 then 0
    else if i == 3 || i == 4 || i == 7 || i == 8 then 1
    else if i == 0 || i == 1 || i == 2 || i == 9 || i == 10 then 2
    else if i == 11 || i == 12 || i == 19 || i == 20 then 3
    else if i == 13 || i == 14 || i == 17 || i == 18 then 4
    else 5
  }

  /** Every base point lies on one x level and one y level, at z = 0. */
  lemma ContourLevels(cx: real, cy: real, c: Cross)
    ensures forall i :: 0 <= i < 21 ==>
              ContourBase(cx, cy, c)[i] ==
              Point3(XLevels(cx, c)[XIndex(i)], YLevels(cy, c)[YIndex(i)], 0.0)
  {
    var ps := ContourBase(cx, cy, c);
    var xs := XLevels(cx, c);
    var ys := YLevels(cy, c);
    forall i | 0 <= i < 21
      ensures ps[i] == Point3(xs[XIndex(i)], ys[YIndex(i)], 0.0)
    {
      if i < 7 {
        if i == 0 {} else if i == 1 {} else if i == 2 {} else if i == 3 {}
        else if i == 4 {} else if i == 5 {} else {}
      } else if i < 14 {
        if i == 7 {} else if i == 8 {} else if i == 9 {} else if i == 10 {}
        else if i == 11 {} else if i == 12 {} else {}
      } else {
        if i == 14 {} else if i == 15 {} else if i == 16 {} else if i == 17 {}
        else if i == 18 {} else if i == 19 {} else {}
      }
    }
  }

  /** Edge i of a closed loop, from point i to point (i + 1) mod n, is parallel to the x or
      the y axis. */
  predicate AxisParallelEdge(ps: seq<Point3>, i: nat)
    requires i < |ps|
  {
    ps[i].x == ps[(i + 1) % |ps|].x || ps[i].y == ps[(i + 1) % |ps|].y
  }

  /** The loop is closed by the edge from the last point back to the first, and every edge,
      including that closing one, is parallel to the x or the y axis. */
  lemma ContourAxisParallel(cx: real, cy: real, c: Cross)
    ensures var ps := ContourBase(cx, cy, c);
            forall i :: 0 <= i < 21 ==> AxisParallelEdge(ps, i)
  {
    var ps := ContourBase(cx, cy, c);
    ContourLevels(cx, cy, c);
    forall i | 0 <= i < 21
      ensures AxisParallelEdge(ps, i)
    {
      var j := (i + 1) % 21;
      assert XIndex(i) == XIndex(j) || YIndex(i) == YIndex(j);
      assert ps[i] == Point3(XLevels(cx, c)[XIndex(i)], YLevels(cy, c)[YIndex(i)], 0.0);
      assert ps[j] == Point3(XLevels(cx, c)[XIndex(j)], YLevels(cy, c)[YIndex(j)], 0.0);
    }
  }

  /** All base points are on the floor, points 1 and 2 coincide, and the loop starts at the
      lower outer corner of the left arm; for the centre of a cross that corner is
      (0, CentreY - armWidth / 2). */
  lemma ContourShape(cx: real, cy: real, c: Cross)
    ensures var ps := ContourBase(cx, cy, c);
            (forall i :: 0 <= i < 21 ==> ps[i].z == 0.0) &&
            ps[1] == ps[2] &&
            ps[0] == Point3(cx - c.centralWidth / 2.0 - c.armLength, cy - c.armWidth / 2.0, 0.0)
    ensures CrossOutline(c)[0] == Point3(0.0, CentreY(c) - c.armWidth / 2.0, 0.0)
  {
    ContourLevels(cx, cy, c);
  }

  /** The wireframe of a base loop and its lifted copy: 3n segments; segment i < n joins
      base[i] to base[(i + 1) mod n], segment n + i joins top[i] to top[(i + 1) mod n], and
      segment 2n + i is the vertical edge from base[i] up to top[i]. */
  lemma WireframeLayout(base: seq<Point3>, height: real, i: nat)
    requires i < |base|
    ensures var top := ContourTop(base, height);
            var w := Wireframe(base, top);
            var n := |base|;
            |w| == 3 * n &&
            w[i] == Segment(base[i], base[(i + 1) % n]) &&
            w[n + i] == Segment(top[i], top[(i + 1) % n]) &&
            w[2 * n + i] == Segment(base[i], top[i]) &&
            w[2 * n + i].to.x == w[2 * n + i].from.x && w[2 * n + i].to.y == w[2 * n + i].from.y &&
            w[2 * n + i].to.z == height
  {
  }

  /** The cross wireframe has 63 segments; the base and top segments are axis-parallel and
      stay at z = 0 and z = height; the vertical ones rise from z = 0 to z = height. */
  lemma CrossWireframe(cx: real, cy: real, c: Cross)
    ensures var base := ContourBase(cx, cy, c);
            var w := Wireframe(base, ContourTop(base, c.height));
            |w| == 63 &&
            (forall k :: 0 <= k < 42 ==>
               (w[k].from.x == w[k].to.x || w[k].from.y == w[k].to.y) &&
               w[k].from.z == w[k].to.z == (if k < 21 then 0.0 else c.height)) &&
            (forall k :: 42 <= k < 63 ==>
               w[k].from.x == w[k].to.x && w[k].from.y == w[k].to.y &&
               w[k].from.z == 0.0 && w[k].to.z == c.height)
  {
    var base := ContourBase(cx, cy, c);
    var top := ContourTop(base, c.height);
    var w := Wireframe(base, top);
    ContourAxisParallel(cx, cy, c);
    ContourShape(cx, cy, c);
    forall k | 0 <= k < 63
      ensures k < 42 ==> (w[k].from.x == w[k].to.x || w[k].from.y == w[k].to.y) &&
                         w[k].from.z == w[k].to.z == (if k < 21 then 0.0 else c.height)
      ensures 42 <= k ==> w[k].from.x == w[k].to.x && w[k].from.y == w[k].to.y &&
                          w[k].from.z == 0.0 && w[k].to.z == c.height
    {
      if k < 21 {
        WireframeLayout(base, c.height, k);
        assert AxisParallelEdge(base, k);
      } else if k < 42 {
        WireframeLayout(base, c.height, k - 21);
        assert AxisParallelEdge(base, k - 21);
      } else {
        WireframeLayout(base, c.height, k - 42);
      }
    }
  }

  /** Shoelace identity of the outline written over its levels: the 21 edge terms add up to
      twice the sum of the areas of the central block and the four arms measured on the
      levels. */
  lemma LevelShoelace(x0: real, x1: real, x2: real, x3: real, x4: real, x5: real,
                      y0: real, y1: real, y2: real, y3: real, y4: real, y5: real)
    ensures
      ((x0 * y2 - x1 * y2) +
       (x1 * y2 - x1 * y2) +
       (x1 * y1 - x1 * y2) +
       (x1 * y1 - x2 * y1) +
       (x2 * y0 - x2 * y1) +
       (x2 * y0 - x3 * y0) +
       (x3 * y1 - x3 * y0)) +
      ((x3 * y1 - x4 * y1) +
       (x4 * y2 - x4 * y1) +
       (x4 * y2 - x5 * y2) +
       (x5 * y3 - x5 * y2) +
       (x5 * y3 - x4 * y3) +
       (x4 * y4 - x4 * y3) +
       (x4 * y4 - x3 * y4)) +
      ((x3 * y5 - x3 * y4) +
       (x3 * y5 - x2 * y5) +
       (x2 * y4 - x2 * y5) +
       (x2 * y4 - x1 * y4) +
       (x1 * y3 - x1 * y4) +
       (x1 * y3 - x0 * y3) +
       (x0 * y2 - x0 * y3))
      == 2.0 * ((x4 - x1) * (y4 - y1) + (x1 - x0) * (y3 - y2) + (x5 - x4) * (y3 - y2) +
                (x3 - x2) * (y1 - y0) + (x3 - x2) * (y5 - y4))
  {
  }

  /** The shoelace sum of a 21-point loop, in three runs of seven edges. */
  lemma Shoelace21(ps: seq<Point3>)
    requires |ps| == 21
    ensures ShoelaceSum(ps, 21) ==
            EdgeRun(ps, 0) + EdgeRun(ps, 7) + EdgeRun(ps, 14)
  {
    assert ShoelaceSum(ps, 1) == ShoelaceSum(ps, 0) + Cross2(ps[0], ps[1]);
    assert ShoelaceSum(ps, 2) == ShoelaceSum(ps, 1) + Cross2(ps[1], ps[2]);
    assert ShoelaceSum(ps, 3) == ShoelaceSum(ps, 2) + Cross2(ps[2], ps[3]);
    assert ShoelaceSum(ps, 4) == ShoelaceSum(ps, 3) + Cross2(ps[3], ps[4]);
    assert ShoelaceSum(ps, 5) == ShoelaceSum(ps, 4) + Cross2(ps[4], ps[5]);
    assert ShoelaceSum(ps, 6) == ShoelaceSum(ps, 5) + Cross2(ps[5], ps[6]);
    assert ShoelaceSum(ps, 7) == ShoelaceSum(ps, 6) + Cross2(ps[6], ps[7]);
    assert ShoelaceSum(ps, 8) == ShoelaceSum(ps, 7) + Cross2(ps[7], ps[8]);
    assert ShoelaceSum(ps, 9) == ShoelaceSum(ps, 8) + Cross2(ps[8], ps[9]);
    assert ShoelaceSum(ps, 10) == ShoelaceSum(ps, 9) + Cross2(ps[9], ps[10]);
    assert ShoelaceSum(ps, 11) == ShoelaceSum(ps, 10) + Cross2(ps[10], ps[11]);
    assert ShoelaceSum(ps, 12) == ShoelaceSum(ps, 11) + Cross2(ps[11], ps[12]);
    assert ShoelaceSum(ps, 13) == ShoelaceSum(ps, 12) + Cross2(ps[12], ps[13]);
    assert ShoelaceSum(ps, 14) == ShoelaceSum(ps, 13) + Cross2(ps[13], ps[14]);
    assert ShoelaceSum(ps, 15) == ShoelaceSum(ps, 14) + Cross2(ps[14], ps[15]);
    assert ShoelaceSum(ps, 16) == ShoelaceSum(ps, 15) + Cross2(ps[15], ps[16]);
    assert ShoelaceSum(ps, 17) == ShoelaceSum(ps, 16) + Cross2(ps[16], ps[17]);
    assert ShoelaceSum(ps, 18) == ShoelaceSum(ps, 17) + Cross2(ps[17], ps[18]);
    assert ShoelaceSum(ps, 19) == ShoelaceSum(ps, 18) + Cross2(ps[18], ps[19]);
    assert ShoelaceSum(ps, 20) == ShoelaceSum(ps, 19) + Cross2(ps[19], ps[20]);
    assert ShoelaceSum(ps, 21) == ShoelaceSum(ps, 20) + Cross2(ps[20], ps[0]);
  }

  /** The shoelace terms of the seven edges starting at point k of a 21-point loop. */
  function EdgeRun(ps: seq<Point3>, k: nat): real
    requires |ps| == 21 && k <= 14
  {
    Cross2(ps[k], ps[k + 1]) + Cross2(ps[k + 1], ps[k + 2]) + Cross2(ps[k + 2], ps[k + 3]) +
    Cross2(ps[k + 3], ps[k + 4]) + Cross2(ps[k + 4], ps[k + 5]) + Cross2(ps[k + 5], ps[k + 6]) +
    Cross2(ps[k + 6], ps[(k + 7) % 21])
  }

  /** The shoelace term of the edge from point k to point k2 of a loop laid out on the
      outline's level pattern, with point k on levels (a, u) and point k2 on levels (b, v). */
  lemma LevelEdgeCross(ps: seq<Point3>, xs: seq<real>, ys: seq<real>,
                       k: nat, k2: nat, a: nat, b: nat, u: nat, v: nat)
    requires |ps| == 21 && |xs| == 6 && |ys| == 6 && k < 21 && k2 < 21
    requires forall i :: 0 <= i < 21 ==> ps[i] == Point3(xs[XIndex(i)], ys[YIndex(i)], 0.0)
    requires a == XIndex(k) && u == YIndex(k) && b == XIndex(k2) && v == YIndex(k2)
    ensures Cross2(ps[k], ps[k2]) == xs[a] * ys[v] - xs[b] * ys[u]
  {
    assert ps[k] == Point3(xs[a], ys[u], 0.0);
    assert ps[k2] == Point3(xs[b], ys[v], 0.0);
  }

  /** The seven edges starting at point 0 of a loop on the outline's level pattern. */
  lemma LevelRun0(ps: seq<Point3>, xs: seq<real>, ys: seq<real>)
    requires |ps| == 21 && |xs| == 6 && |ys| == 6
    requires forall i :: 0 <= i < 21 ==> ps[i] == Point3(xs[XIndex(i)], ys[YIndex(i)], 0.0)
    ensures EdgeRun(ps, 0) ==
            (xs[0] * ys[2] - xs[1] * ys[2]) +
            (xs[1] * ys[2] - xs[1] * ys[2]) +
            (xs[1] * ys[1] - xs[1] * ys[2]) +
            (xs[1] * ys[1] - xs[2] * ys[1]) +
            (xs[2] * ys[0] - xs[2] * ys[1]) +
            (xs[2] * ys[0] - xs[3] * ys[0]) +
            (xs[3] * ys[1] - xs[3] * ys[0])
  {
    LevelEdgeCross(ps, xs, ys, 0, 1, 0, 1, 2, 2);
    LevelEdgeCross(ps, xs, ys, 1, 2, 1, 1, 2, 2);
    LevelEdgeCross(ps, xs, ys, 2, 3, 1, 1, 2, 1);
    LevelEdgeCross(ps, xs, ys, 3, 4, 1, 2, 1, 1);
    LevelEdgeCross(ps, xs, ys, 4, 5, 2, 2, 1, 0);
    LevelEdgeCross(ps, xs, ys, 5, 6, 2, 3, 0, 0);
    LevelEdgeCross(ps, xs, ys, 6, 7, 3, 3, 0, 1);
  }

  /** The seven edges starting at point 7 of a loop on the outline's level pattern. */
  lemma LevelRun1(ps: seq<Point3>, xs: seq<real>, ys: seq<real>)
    requires |ps| == 21 && |xs| == 6 && |ys| == 6
    requires forall i :: 0 <= i < 21 ==> ps[i] == Point3(xs[XIndex(i)], ys[YIndex(i)], 0.0)
    ensures EdgeRun(ps, 7) ==
            (xs[3] * ys[1] - xs[4] * ys[1]) +
            (xs[4] * ys[2] - xs[4] * ys[1]) +
            (xs[4] * ys[2] - xs[5] * ys[2]) +
            (xs[5] * ys[3] - xs[5] * ys[2]) +
            (xs[5] * ys[3] - xs[4] * ys[3]) +
            (xs[4] * ys[4] - xs[4] * ys[3]) +
            (xs[4] * ys[4] - xs[3] * ys[4])
  {
    LevelEdgeCross(ps, xs, ys, 7, 8, 3, 4, 1, 1);
    LevelEdgeCross(ps, xs, ys, 8, 9, 4, 4, 1, 2);
    LevelEdgeCross(ps, xs, ys, 9, 10, 4, 5, 2, 2);
    LevelEdgeCross(ps, xs, ys, 10, 11, 5, 5, 2, 3);
    LevelEdgeCross(ps, xs, ys, 11, 12, 5, 4, 3, 3);
    LevelEdgeCross(ps, xs, ys, 12, 13, 4, 4, 3, 4);
    LevelEdgeCross(ps, xs, ys, 13, 14, 4, 3, 4, 4);
  }

  /** The seven edges starting at point 14 of a loop on the outline's level pattern. */
  lemma LevelRun2(ps: seq<Point3>, xs: seq<real>, ys: seq<real>)
    requires |ps| == 21 && |xs| == 6 && |ys| == 6
    requires forall i :: 0 <= i < 21 ==> ps[i] == Point3(xs[XIndex(i)], ys[YIndex(i)], 0.0)
    ensures EdgeRun(ps, 14) ==
            (xs[3] * ys[5] - xs[3] * ys[4]) +
            (xs[3] * ys[5] - xs[2] * ys[5]) +
            (xs[2] * ys[4] - xs[2] * ys[5]) +
            (xs[2] * ys[4] - xs[1] * ys[4]) +
            (xs[1] * ys[3] - xs[1] * ys[4]) +
            (xs[1] * ys[3] - xs[0] * ys[3]) +
            (xs[0] * ys[2] - xs[0] * ys[3])
  {
    LevelEdgeCross(ps, xs, ys, 14, 15, 3, 3, 4, 5);
    LevelEdgeCross(ps, xs, ys, 15, 16, 3, 2, 5, 5);
    LevelEdgeCross(ps, xs, ys, 16, 17, 2, 2, 5, 4);
    LevelEdgeCross(ps, xs, ys, 17, 18, 2, 1, 4, 4);
    LevelEdgeCross(ps, xs, ys, 18, 19, 1, 1, 4, 3);
    LevelEdgeCross(ps, xs, ys, 19, 20, 1, 0, 3, 3);
    LevelEdgeCross(ps, xs, ys, 20, 0, 0, 0, 3, 2);
  }

  /** The shoelace sum of any 21-point loop laid out on the outline's level pattern. */
  lemma LevelLoopShoelace(ps: seq<Point3>, xs: seq<real>, ys: seq<real>)
    requires |ps| == 21 && |xs| == 6 && |ys| == 6
    requires forall i :: 0 <= i < 21 ==> ps[i] == Point3(xs[XIndex(i)], ys[YIndex(i)], 0.0)
    ensures ShoelaceSum(ps, 21) ==
            2.0 * ((xs[4] - xs[1]) * (ys[4] - ys[1]) + (xs[1] - xs[0]) * (ys[3] - ys[2]) +
                   (xs[5] - xs[4]) * (ys[3] - ys[2]) + (xs[3] - xs[2]) * (ys[1] - ys[0]) +
                   (xs[3] - xs[2]) * (ys[5] - ys[4]))
  {
    Shoelace21(ps);
    LevelRun0(ps, xs, ys);
    LevelRun1(ps, xs, ys);
    LevelRun2(ps, xs, ys);
    LevelShoelace(xs[0], xs[1], xs[2], xs[3], xs[4], xs[5], ys[0], ys[1], ys[2], ys[3], ys[4], ys[5]);
  }

  /** The signed area of the base loop is the cross's floor area, lc * Lc + 4 * wb * lb; it
      is positive, so the loop turns counter-clockwise with x to the right and y up. */
  lemma ContourSignedArea(cx: real, cy: real, c: Cross)
    ensures SignedArea(ContourBase(cx, cy, c)) ==
            c.centralWidth * c.centralDepth + 4.0 * c.armWidth * c.armLength
    ensures ValidCross(c) ==> SignedArea(ContourBase(cx, cy, c)) > 0.0
  {
    var ps := ContourBase(cx, cy, c);
    var xs := XLevels(cx, c);
    var ys := YLevels(cy, c);
    ContourLevels(cx, cy, c);
    LevelLoopShoelace(ps, xs, ys);
    assert xs[4] - xs[1] == c.centralWidth && ys[4] - ys[1] == c.centralDepth;
    assert xs[1] - xs[0] == c.armLength && xs[5] - xs[4] == c.armLength;
    assert ys[3] - ys[2] == c.armWidth && xs[3] - xs[2] == c.armWidth;
    assert ys[1] - ys[0] == c.armLength && ys[5] - ys[4] == c.armLength;
    if ValidCross(c) {
      assert c.centralWidth * c.centralDepth > 0.0;
      assert c.armWidth * c.armLength > 0.0;
    }
  }
}
