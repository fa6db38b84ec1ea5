/** The hollow-wall view of the cross: every prism of the decomposition becomes four walls of a
    given thickness (an outer panel, an inner panel and the bottom and top rims joining them,
    per side), and the floor is tiled with the five base rectangles. */
module WallExtruder {
  import opened Geometry
  import opened CrossDecomposition

  /** The eight outer corners: the base rectangle counter-clockwise from (x, y) at z = 0,
      then the same four corners at z = height. */
  function OuterVertices(p: Prism): (e: seq<Point3>)
    ensures |e| == 8
  {
    [Point3(p.x, p.y, 0.0), Point3(p.x + p.width, p.y, 0.0),
     Point3(p.x + p.width, p.y + p.depth, 0.0), Point3(p.x, p.y + p.depth, 0.0),
     Point3(p.x, p.y, p.height), Point3(p.x + p.width, p.y, p.height),
     Point3(p.x + p.width, p.y + p.depth, p.height), Point3(p.x, p.y + p.depth, p.height)]
  }

  /** The eight inner corners, the outer ones moved inwards by the wall thickness t. */
  function InnerVertices(p: Prism, t: real): (v: seq<Point3>)
    ensures |v| == 8
  {
    [Point3(p.x + t, p.y + t, 0.0), Point3(p.x + p.width - t, p.y + t, 0.0),
     Point3(p.x + p.width - t, p.y + p.depth - t, 0.0), Point3(p.x + t, p.y + p.depth - t, 0.0),
     Point3(p.x + t, p.y + t, p.height), Point3(p.x + p.width - t, p.y + t, p.height),
     Point3(p.x + p.width - t, p.y + p.depth - t, p.height), Point3(p.x + t, p.y + p.depth - t, p.height)]
  }

  /** Direction in which corner k moves along x to reach the inside: +1 on the x side, -1 on
      the x + width side; likewise along y. */
  function InwardX(k: int): real { if k % 4 == 0 || k % 4 == 3 then 1.0 else -1.0 }

  function InwardY(k: int): real { if k % 4 <= 1 then 1.0 else -1.0 }

  /** Each inner corner is the matching outer corner moved by t inwards along x and along y,
      at the same height. */
  lemma InnerOffset(p: Prism, t: real)
    ensures forall k :: 0 <= k < 8 ==>
              InnerVertices(p, t)[k] ==
              Point3(OuterVertices(p)[k].x + InwardX(k) * t, OuterVertices(p)[k].y + InwardY(k) * t,
                     OuterVertices(p)[k].z)
  {
  }

  /** The inner rectangle has positive extents exactly when twice the thickness is below both
      extents of the prism. */
  lemma InnerNonDegenerate(p: Prism, t: real)
    ensures var v := InnerVertices(p, t);
            (v[1].x - v[0].x > 0.0 && v[3].y - v[0].y > 0.0) <==> 2.0 * t < Min(p.width, p.depth)
  {
  }

  /** The sixteen wall faces, four per side in the order front (y minimum), back (y maximum),
      left (x minimum), right (x maximum); per side: the outer panel, the inner panel, the
      bottom rim and the top rim. */
  function WallFaces(p: Prism, t: real): (faces: seq<Quad>)
    ensures |faces| == 16
  {
    var e := OuterVertices(p);
    var i := InnerVertices(p, t);
    [[e[0], e[1], e[5], e[4]], [i[1], i[0], i[4], i[5]], [e[0], i[0], i[1], e[1]], [e[4], e[5], i[5], i[4]],
     [e[2], e[3], e[7], e[6]], [i[3], i[2], i[6], i[7]], [e[2], e[3], i[3], i[2]], [e[6], i[6], i[7], e[7]],
     [e[0], e[4], e[7], e[3]], [i[0], i[3], i[7], i[4]], [e[0], e[3], i[3], i[0]], [e[4], i[4], i[7], e[7]],
     [e[1], e[2], e[6], e[5]], [i[2], i[1], i[5], i[6]], [e[1], i[1], i[2], e[2]], [e[5], e[6], i[6], i[5]]]
  }

  /** Builds the wall faces of one prism by sixteen appends. */
  method BuildWallFaces(x: real, y: real, width: real, depth: real, height: real, thickness: real)
    returns (faces: seq<Quad>)
    ensures faces == WallFaces(Prism(x, y, width, depth, height), thickness)
  {
    var p := Prism(x, y, width, depth, height);
    var e := OuterVertices(p);
    var i := InnerVertices(p, thickness);
    faces := [];
    // front
    faces := faces + [[e[0], e[1], e[5], e[4]]];
    faces := faces + [[i[1], i[0], i[4], i[5]]];
    faces := faces + [[e[0], i[0], i[1], e[1]]];
    faces := faces + [[e[4], e[5], i[5], i[4]]];
    // back
    faces := faces + [[e[2], e[3], e[7], e[6]]];
    faces := faces + [[i[3], i[2], i[6], i[7]]];
    faces := faces + [[e[2], e[3], i[3], i[2]]];
    faces := faces + [[e[6], i[6], i[7], e[7]]];
    // left
    faces := faces + [[e[0], e[4], e[7], e[3]]];
    faces := faces + [[i[0], i[3], i[7], i[4]]];
    faces := faces + [[e[0], e[3], i[3], i[0]]];
    faces := faces + [[e[4], i[4], i[7], e[7]]];
    // right
    faces := faces + [[e[1], e[2], e[6], e[5]]];
    faces := faces + [[i[2], i[1], i[5], i[6]]];
    faces := faces + [[e[1], i[1], i[2], e[2]]];
    faces := faces + [[e[5], e[6], i[6], i[5]]];
  }

  /** The two base corners spanned by side s: front (0, 1), back (2, 3), left (0, 3),
      right (1, 2); the top corners are the same plus 4. */
  function SideCornerA(s: int): int { if s == 0 then 0 else if s == 1 then 2 else if s == 2 then 0 else 1 }

  function SideCornerB(s: int): int { if s == 0 then 1 else if s == 1 then 3 else if s == 2 then 3 else 2 }

  /** v lies in the outer plane of side s (y = y, y = y + depth, x = x, x = x + width). */
  predicate OnOuterSide(v: Point3, p: Prism, s: int) {
    if s == 0 then v.y == p.y
    else if s == 1 then v.y == p.y + p.depth
    else if s == 2 then v.x == p.x
    else v.x == p.x + p.width
  }

  /** v lies in the inner plane of side s, the outer one moved inwards by t. */
  predicate OnInnerSide(v: Point3, p: Prism, t: real, s: int) {
    if s == 0 then v.y == p.y + t
    else if s == 1 then v.y == p.y + p.depth - t
    else if s == 2 then v.x == p.x + t
    else v.x == p.x + p.width - t
  }

  predicate OuterPanel(q: Quad, p: Prism, s: int) { forall v :: v in q ==> OnOuterSide(v, p, s) }

  predicate InnerPanel(q: Quad, p: Prism, t: real, s: int) { forall v :: v in q ==> OnInnerSide(v, p, t, s) }

  /** A rim of side s at height z: every corner at that height, in the outer or the inner plane. */
  predicate Rim(q: Quad, p: Prism, t: real, s: int, z: real) {
    forall v :: v in q ==> v.z == z && (OnOuterSide(v, p, s) || OnInnerSide(v, p, t, s))
  }

  function Corners(f: Quad): set<Point3> { set v | v in f }

  /** Which corners make up each face of side s: the outer panel joins the side's four outer
      corners, the inner panel its four inner corners, the bottom rim the side's outer and
      inner base corners, the top rim its outer and inner top corners. */
  lemma WallFacesCorners(p: Prism, t: real, s: int)
    requires 0 <= s < 4
    ensures var f, e, i, a, b := WallFaces(p, t), OuterVertices(p), InnerVertices(p, t),
                               SideCornerA(s), SideCornerB(s);
            |f[4 * s]| == |f[4 * s + 1]| == |f[4 * s + 2]| == |f[4 * s + 3]| == 4 &&
            Corners(f[4 * s]) == {e[a], e[b], e[a + 4], e[b + 4]} &&
            Corners(f[4 * s + 1]) == {i[a], i[b], i[a + 4], i[b + 4]} &&
            Corners(f[4 * s + 2]) == {e[a], e[b], i[a], i[b]} &&
            Corners(f[4 * s + 3]) == {e[a + 4], e[b + 4], i[a + 4], i[b + 4]}
  {
    if s == 0 {
      FrontCorners(p, t);
    } else if s == 1 {
      BackCorners(p, t);
    } else if s == 2 {
      LeftCorners(p, t);
    } else {
      RightCorners(p, t);
    }
  }

  lemma FrontCorners(p: Prism, t: real)
    ensures var f, e, i := WallFaces(p, t), OuterVertices(p), InnerVertices(p, t);
            |f[0]| == |f[1]| == |f[2]| == |f[3]| == 4 &&
            Corners(f[0]) == {e[0], e[1], e[4], e[5]} &&
            Corners(f[1]) == {i[0], i[1], i[4], i[5]} &&
            Corners(f[2]) == {e[0], e[1], i[0], i[1]} &&
            Corners(f[3]) == {e[4], e[5], i[4], i[5]}
  {
  }

  lemma BackCorners(p: Prism, t: real)
    ensures var f, e, i := WallFaces(p, t), OuterVertices(p), InnerVertices(p, t);
            |f[4]| == |f[5]| == |f[6]| == |f[7]| == 4 &&
            Corners(f[4]) == {e[2], e[3], e[6], e[7]} &&
            Corners(f[5]) == {i[2], i[3], i[6], i[7]} &&
            Corners(f[6]) == {e[2], e[3], i[2], i[3]} &&
            Corners(f[7]) == {e[6], e[7], i[6], i[7]}
  {
  }

  lemma LeftCorners(p: Prism, t: real)
    ensures var f, e, i := WallFaces(p, t), OuterVertices(p), InnerVertices(p, t);
            |f[8]| == |f[9]| == |f[10]| == |f[11]| == 4 &&
            Corners(f[8]) == {e[0], e[3], e[4], e[7]} &&
            Corners(f[9]) == {i[0], i[3], i[4], i[7]} &&
            Corners(f[10]) == {e[0], e[3], i[0], i[3]} &&
            Corners(f[11]) == {e[4], e[7], i[4], i[7]}
  {
  }

  lemma RightCorners(p: Prism, t: real)
    ensures var f, e, i := WallFaces(p, t), OuterVertices(p), InnerVertices(p, t);
            |f[12]| == |f[13]| == |f[14]| == |f[15]| == 4 &&
            Corners(f[12]) == {e[1], e[2], e[5], e[6]} &&
            Corners(f[13]) == {i[1], i[2], i[5], i[6]} &&
            Corners(f[14]) == {e[1], e[2], i[1], i[2]} &&
            Corners(f[15]) == {e[5], e[6], i[5], i[6]}
  {
  }

  /** Per side: the outer panel lies in the outer plane, the inner panel in the inner plane,
      the bottom rim at z = 0 and the top rim at z = height, both rims reaching from the outer
      plane to the inner one. */
  lemma WallFacesPlanes(p: Prism, t: real, s: int)
    requires 0 <= s < 4
    ensures var f := WallFaces(p, t);
            OuterPanel(f[4 * s], p, s) && InnerPanel(f[4 * s + 1], p, t, s) &&
            Rim(f[4 * s + 2], p, t, s, 0.0) && Rim(f[4 * s + 3], p, t, s, p.height)
  {
    if s == 0 {
      FrontPlanes(p, t);
    } else if s == 1 {
      BackPlanes(p, t);
    } else if s == 2 {
      LeftPlanes(p, t);
    } else {
      RightPlanes(p, t);
    }
  }

  lemma FrontPlanes(p: Prism, t: real)
    ensures var f := WallFaces(p, t);
            OuterPanel(f[0], p, 0) && InnerPanel(f[1], p, t, 0) &&
            Rim(f[2], p, t, 0, 0.0) && Rim(f[3], p, t, 0, p.height)
  {
    var f, e, i := WallFaces(p, t), OuterVertices(p), InnerVertices(p, t);
    assert f[0] == [e[0], e[1], e[5], e[4]] && f[1] == [i[1], i[0], i[4], i[5]];
    assert f[2] == [e[0], i[0], i[1], e[1]] && f[3] == [e[4], e[5], i[5], i[4]];
  }

  lemma BackPlanes(p: Prism, t: real)
    ensures var f := WallFaces(p, t);
            OuterPanel(f[4], p, 1) && InnerPanel(f[5], p, t, 1) &&
            Rim(f[6], p, t, 1, 0.0) && Rim(f[7], p, t, 1, p.height)
  {
    var f, e, i := WallFaces(p, t), OuterVertices(p), InnerVertices(p, t);
    assert f[4] == [e[2], e[3], e[7], e[6]] && f[5] == [i[3], i[2], i[6], i[7]];
    assert f[6] == [e[2], e[3], i[3], i[2]] && f[7] == [e[6], i[6], i[7], e[7]];
  }

  lemma LeftPlanes(p: Prism, t: real)
    ensures var f := WallFaces(p, t);
            OuterPanel(f[8], p, 2) && InnerPanel(f[9], p, t, 2) &&
            Rim(f[10], p, t, 2, 0.0) && Rim(f[11], p, t, 2, p.height)
  {
    var f, e, i := WallFaces(p, t), OuterVertices(p), InnerVertices(p, t);
    assert f[8] == [e[0], e[4], e[7], e[3]] && f[9] == [i[0], i[3], i[7], i[4]];
    assert f[10] == [e[0], e[3], i[3], i[0]] && f[11] == [e[4], i[4], i[7], e[7]];
  }

  lemma RightPlanes(p: Prism, t: real)
    ensures var f := WallFaces(p, t);
            OuterPanel(f[12], p, 3) && InnerPanel(f[13], p, t, 3) &&
            Rim(f[14], p, t, 3, 0.0) && Rim(f[15], p, t, 3, p.height)
  {
    var f, e, i := WallFaces(p, t), OuterVertices(p), InnerVertices(p, t);
    assert f[12] == [e[1], e[2], e[6], e[5]] && f[13] == [i[2], i[1], i[5], i[6]];
    assert f[14] == [e[1], i[1], i[2], e[2]] && f[15] == [e[5], e[6], i[6], i[5]];
  }

  /** The five floor tiles around the centre (cx, cy), in the order central, left, right, top,
      bottom. */
  function FloorQuads(cx: real, cy: real, c: Cross): (sols: seq<Quad>)
    ensures |sols| == 5
  {
    var lc, bc, wb, lb := c.centralWidth, c.centralDepth, c.armWidth, c.armLength;
    [[Point3(cx - lc / 2.0, cy - bc / 2.0, 0.0), Point3(cx + lc / 2.0, cy - bc / 2.0, 0.0),
      Point3(cx + lc / 2.0, cy + bc / 2.0, 0.0), Point3(cx - lc / 2.0, cy + bc / 2.0, 0.0)],
     [Point3(cx - lc / 2.0 - lb, cy - wb / 2.0, 0.0), Point3(cx - lc / 2.0, cy - wb / 2.0, 0.0),
      Point3(cx - lc / 2.0, cy + wb / 2.0, 0.0), Point3(cx - lc / 2.0 - lb, cy + wb / 2.0, 0.0)],
     [Point3(cx + lc / 2.0, cy - wb / 2.0, 0.0), Point3(cx + lc / 2.0 + lb, cy - wb / 2.0, 0.0),
      Point3(cx + lc / 2.0 + lb, cy + wb / 2.0, 0.0), Point3(cx + lc / 2.0, cy + wb / 2.0, 0.0)],
     [Point3(cx - wb / 2.0, cy + bc / 2.0, 0.0), Point3(cx + wb / 2.0, cy + bc / 2.0, 0.0),
      Point3(cx + wb / 2.0, cy + bc / 2.0 + lb, 0.0), Point3(cx - wb / 2.0, cy + bc / 2.0 + lb, 0.0)],
     [Point3(cx - wb / 2.0, cy - bc / 2.0 - lb, 0.0), Point3(cx + wb / 2.0, cy - bc / 2.0 - lb, 0.0),
      Point3(cx + wb / 2.0, cy - bc / 2.0, 0.0), Point3(cx - wb / 2.0, cy - bc / 2.0, 0.0)]]
  }

  /** Builds the floor tiles by appending the four arm tiles to the central one. */
  method BuildFloor(cx: real, cy: real, c: Cross) returns (sols: seq<Quad>)
    ensures sols == FloorQuads(cx, cy, c)
  {
    var lc, bc, wb, lb := c.centralWidth, c.centralDepth, c.armWidth, c.armLength;
    var central := [Point3(cx - lc / 2.0, cy - bc / 2.0, 0.0), Point3(cx + lc / 2.0, cy - bc / 2.0, 0.0),
                    Point3(cx + lc / 2.0, cy + bc / 2.0, 0.0), Point3(cx - lc / 2.0, cy + bc / 2.0, 0.0)];
    sols := [central];
    sols := sols + [[Point3(cx - lc / 2.0 - lb, cy - wb / 2.0, 0.0), Point3(cx - lc / 2.0, cy - wb / 2.0, 0.0),
                     Point3(cx - lc / 2.0, cy + wb / 2.0, 0.0), Point3(cx - lc / 2.0 - lb, cy + wb / 2.0, 0.0)]];
    sols := sols + [[Point3(cx + lc / 2.0, cy - wb / 2.0, 0.0), Point3(cx + lc / 2.0 + lb, cy - wb / 2.0, 0.0),
                     Point3(cx + lc / 2.0 + lb, cy + wb / 2.0, 0.0), Point3(cx + lc / 2.0, cy + wb / 2.0, 0.0)]];
    sols := sols + [[Point3(cx - wb / 2.0, cy + bc / 2.0, 0.0), Point3(cx + wb / 2.0, cy + bc / 2.0, 0.0),
                     Point3(cx + wb / 2.0, cy + bc / 2.0 + lb, 0.0), Point3(cx - wb / 2.0, cy + bc / 2.0 + lb, 0.0)]];
    sols := sols + [[Point3(cx - wb / 2.0, cy - bc / 2.0 - lb, 0.0), Point3(cx + wb / 2.0, cy - bc / 2.0 - lb, 0.0),
                     Point3(cx + wb / 2.0, cy - bc / 2.0, 0.0), Point3(cx - wb / 2.0, cy - bc / 2.0, 0.0)]];
  }

  /** Around the cross's own centre, the floor tiles are exactly the base rectangles of the
      five prisms of the decomposition, in the same order; all of them lie on z = 0. */
  lemma FloorMatchesParts(c: Cross)
    ensures var sols := FloorQuads(CentreX(c), CentreY(c), c);
            forall k :: 0 <= k < 5 ==> sols[k] == BaseRectangle(Parts(c)[k])
    ensures forall k, v :: 0 <= k < 5 && v in FloorQuads(CentreX(c), CentreY(c), c)[k] ==> v.z == 0.0
  {
    var sols := FloorQuads(CentreX(c), CentreY(c), c);
    var ps := Parts(c);
    assert sols[0] == BaseRectangle(ps[0]);
    assert sols[1] == BaseRectangle(ps[1]);
    assert sols[2] == BaseRectangle(ps[2]);
    assert sols[3] == BaseRectangle(ps[3]);
    assert sols[4] == BaseRectangle(ps[4]);
  }

  /** Wherever the centre is, the five tiles are counter-clockwise rectangles whose signed
      areas add up to the floor area lc * Lc + 4 * wb * lb. */
  lemma FloorArea(cx: real, cy: real, c: Cross)
    ensures var sols := FloorQuads(cx, cy, c);
            SignedArea(sols[0]) + SignedArea(sols[1]) + SignedArea(sols[2]) +
            SignedArea(sols[3]) + SignedArea(sols[4])
            == c.centralWidth * c.centralDepth + 4.0 * c.armWidth * c.armLength
  {
    var lc, bc, wb, lb := c.centralWidth, c.centralDepth, c.armWidth, c.armLength;
    TileArea(cx - lc / 2.0, cy - bc / 2.0, cx + lc / 2.0, cy + bc / 2.0, lc, bc);
    TileArea(cx - lc / 2.0 - lb, cy - wb / 2.0, cx - lc / 2.0, cy + wb / 2.0, lb, wb);
    TileArea(cx + lc / 2.0, cy - wb / 2.0, cx + lc / 2.0 + lb, cy + wb / 2.0, lb, wb);
    TileArea(cx - wb / 2.0, cy + bc / 2.0, cx + wb / 2.0, cy + bc / 2.0 + lb, wb, lb);
    TileArea(cx - wb / 2.0, cy - bc / 2.0 - lb, cx + wb / 2.0, cy - bc / 2.0, wb, lb);
  }

  /** The axis-parallel rectangle (x0, y0) - (x1, y1), listed counter-clockwise from its lower
      left corner, has signed area w * d when it is w wide and d deep. */
  lemma TileArea(x0: real, y0: real, x1: real, y1: real, w: real, d: real)
    requires x1 - x0 == w && y1 - y0 == d
    ensures SignedArea([Point3(x0, y0, 0.0), Point3(x1, y0, 0.0), Point3(x1, y1, 0.0),
                        Point3(x0, y1, 0.0)]) == w * d
  {
    BaseRectangleArea(Prism(x0, y0, w, d, 0.0));
    assert BaseRectangle(Prism(x0, y0, w, d, 0.0)) ==
           [Point3(x0, y0, 0.0), Point3(x1, y0, 0.0), Point3(x1, y1, 0.0), Point3(x0, y1, 0.0)];
  }

  /** The hollow-wall structure of a cross: the walls of the five prisms, computed around the
      centre of the bounding box, and the floor tiles. */
  method BuildCrossStructure(c: Cross, thickness: real) returns (walls: seq<seq<Quad>>, floor: seq<Quad>)
    ensures |walls| == 5
    ensures forall k :: 0 <= k < 5 ==> walls[k] == WallFaces(Parts(c)[k], thickness)
    ensures floor == FloorQuads(CentreX(c), CentreY(c), c)
  {
    var totalWidth := c.centralWidth + 2.0 * c.armLength;
    var totalDepth := c.centralDepth + 2.0 * c.armLength;
    var cx := totalWidth / 2.0;
    var cy := totalDepth / 2.0;
    assert cx == CentreX(c) && cy == CentreY(c);
    var faces := BuildWallFaces(cx - c.centralWidth / 2.0, cy - c.centralDepth / 2.0,
                                c.centralWidth, c.centralDepth, c.height, thickness);
    assert faces == WallFaces(Central(c), thickness);
    walls := [faces];
    faces := BuildWallFaces(cx - c.centralWidth / 2.0 - c.armLength, cy - c.armWidth / 2.0,
                            c.armLength, c.armWidth, c.height, thickness);
    assert faces == WallFaces(LeftArm(c), thickness);
    walls := walls + [faces];
    faces := BuildWallFaces(cx + c.centralWidth / 2.0, cy - c.armWidth / 2.0,
                            c.armLength, c.armWidth, c.height, thickness);
    assert faces == WallFaces(RightArm(c), thickness);
    walls := walls + [faces];
    faces := BuildWallFaces(cx - c.armWidth / 2.0, cy + c.centralDepth / 2.0,
                            c.armWidth, c.armLength, c.height, thickness);
    assert faces == WallFaces(TopArm(c), thickness);
    walls := walls + [faces];
    faces := BuildWallFaces(cx - c.armWidth / 2.0, cy - c.centralDepth / 2.0 - c.armLength,
                            c.armWidth, c.armLength, c.height, thickness);
    assert faces == WallFaces(BottomArm(c), thickness);
    walls := walls + [faces];
    floor := BuildFloor(cx, cy, c);
  }

  /** The floor tile of each prism is the base of that prism's outer walls. */
  lemma FloorUnderWalls(c: Cross)
    ensures forall k :: 0 <= k < 5 ==>
              FloorQuads(CentreX(c), CentreY(c), c)[k] == OuterVertices(Parts(c)[k])[..4]
  {
    FloorMatchesParts(c);
    forall k | 0 <= k < 5
      ensures FloorQuads(CentreX(c), CentreY(c), c)[k] == OuterVertices(Parts(c)[k])[..4]
    {
      assert OuterVertices(Parts(c)[k])[..4] == BaseRectangle(Parts(c)[k]);
    }
  }

  /** A cross together with the wall thickness of its hollow walls. */
  datatype Plan = Plan(cross: Cross, thickness: real)

  /** The walls of p have a real inside: a positive thickness that leaves an inner rectangle
      of positive extent along both axes. */
  predicate HollowWall(p: Prism, t: real) {
    t > 0.0 && InnerVertices(p, t)[1].x - InnerVertices(p, t)[0].x > 0.0 &&
    InnerVertices(p, t)[3].y - InnerVertices(p, t)[0].y > 0.0
  }

  /** The input check as the hollow-wall plan makes it: only the five dimensions of the cross
      must be positive; the wall thickness is taken as given. */
  function ValidatePlanAsWritten(c: Cross, t: real): (r: Result<Plan>)
    ensures r.Ok? <==> ValidCross(c)
    ensures r.Ok? ==> r.value == Plan(c, t)
    ensures r.Err? ==> r.error == InvalidDimension
  {
    if c.centralWidth <= 0.0 || c.centralDepth <= 0.0 || c.armWidth <= 0.0 || c.armLength <= 0.0 ||
       c.height <= 0.0
    then Err(InvalidDimension)
    else Ok(Plan(c, t))
  }

  /** A wall 1.5 thick on a cross whose arms are 2 wide passes the check as written, although
      the inner rectangle of the left arm then has depth 2 - 2 * 1.5 = -1. */
  lemma AsWrittenAcceptsThickWalls()
    ensures var c := Cross(4.0, 4.0, 2.0, 3.0, 5.0);
            ValidatePlanAsWritten(c, 1.5).Ok? && !HollowWall(LeftArm(c), 1.5) &&
            InnerVertices(LeftArm(c), 1.5)[3].y - InnerVertices(LeftArm(c), 1.5)[0].y == -1.0
  {
  }

  /** The smallest extent of any prism of the cross. */
  function MinExtent(c: Cross): real {
    Min(Min(c.centralWidth, c.centralDepth), Min(c.armWidth, c.armLength))
  }

  /** The check with the wall thickness included: the dimensions must be positive, and so must
      the thickness, which must also stay below half of every extent of every prism. */
  function ValidatePlan(c: Cross, t: real): (r: Result<Plan>)
    ensures r.Ok? ==> r.value == Plan(c, t)
    ensures r.Err? && r.error == InvalidDimension <==> !ValidCross(c)
    ensures r.Err? && r.error == InvalidWallThickness <==>
              ValidCross(c) && (t <= 0.0 || 2.0 * t >= MinExtent(c))
  {
    if c.centralWidth <= 0.0 || c.centralDepth <= 0.0 || c.armWidth <= 0.0 || c.armLength <= 0.0 ||
       c.height <= 0.0
    then Err(InvalidDimension)
    else if t <= 0.0 || 2.0 * t >= MinExtent(c) then Err(InvalidWallThickness)
    else Ok(Plan(c, t))
  }

  /** The corrected check accepts exactly the plans whose five prisms all have hollow walls,
      and it accepts nothing the check as written rejects. */
  lemma ValidatePlanSound(c: Cross, t: real)
    ensures ValidatePlan(c, t).Ok? <==>
              ValidCross(c) && forall k :: 0 <= k < 5 ==> HollowWall(Parts(c)[k], t)
    ensures ValidatePlan(c, t).Ok? ==> ValidatePlanAsWritten(c, t).Ok?
  {
    var ps := Parts(c);
    if ValidCross(c) && forall k :: 0 <= k < 5 ==> HollowWall(ps[k], t) {
      assert HollowWall(ps[0], t) && HollowWall(ps[1], t);
      assert ValidatePlan(c, t).Ok?;
    }
    if ValidatePlan(c, t).Ok? {
      forall k | 0 <= k < 5
        ensures HollowWall(ps[k], t)
      {
        InnerNonDegenerate(ps[k], t);
      }
    }
  }

  /** The walls and the floor of a whole plan. */
  datatype Structure = Structure(walls: seq<seq<Quad>>, floor: seq<Quad>)

  /** The plan as the program builds it: only the five dimensions are checked, and the walls
      are built with whatever thickness was given. */
  method CreatePlanAsWritten(c: Cross, t: real) returns (r: Result<Structure>)
    ensures r.Err? <==> !ValidCross(c)
    ensures r.Err? ==> r.error == InvalidDimension
    ensures r.Ok? ==> |r.value.walls| == 5 &&
                      (forall k :: 0 <= k < 5 ==> r.value.walls[k] == WallFaces(Parts(c)[k], t)) &&
                      r.value.floor == FloorQuads(CentreX(c), CentreY(c), c)
  {
    var checked := ValidatePlanAsWritten(c, t);
    if checked.Err? {
      return Err(checked.error);
    }
    var walls, floor := BuildCrossStructure(c, t);
    r := Ok(Structure(walls, floor));
  }

  /** The plan with the corrected check: refuses a thickness that leaves some prism without a
      hollow inside, and otherwise builds the same structure as the program. */
  method CreatePlan(c: Cross, t: real) returns (r: Result<Structure>)
    ensures r.Err? <==> ValidatePlan(c, t).Err?
    ensures r.Err? ==> r.error == ValidatePlan(c, t).error
    ensures r.Ok? ==> |r.value.walls| == 5 &&
                      (forall k :: 0 <= k < 5 ==> r.value.walls[k] == WallFaces(Parts(c)[k], t) &&
                                                  HollowWall(Parts(c)[k], t)) &&
                      r.value.floor == FloorQuads(CentreX(c), CentreY(c), c)
  {
    var checked := ValidatePlan(c, t);
    if checked.Err? {
      return Err(checked.error);
    }
    ValidatePlanSound(c, t);
    var walls, floor := BuildCrossStructure(c, t);
    r := Ok(Structure(walls, floor));
  }
}
