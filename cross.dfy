/** The plus/cross footprint: a central block and four arms, all expressed from the centre
    (TotalWidth / 2, TotalDepth / 2) of the bounding box, and the packing of the whole cross,
    which is the concatenation of the packings of its five prisms. */
module CrossDecomposition {
  import opened Geometry
  import opened Volumes
  import opened SpherePacker

  /** The five scalars of a cross: the central block is centralWidth (x) by centralDepth (y);
      every arm is armWidth across and armLength long; everything is height tall. */
  datatype Cross = Cross(centralWidth: real, centralDepth: real, armWidth: real,
                         armLength: real, height: real)

  /** The positivity check every cross scenario makes before computing geometry. */
  predicate ValidCross(c: Cross) {
    c.centralWidth > 0.0 && c.centralDepth > 0.0 && c.armWidth > 0.0 && c.armLength > 0.0 &&
    c.height > 0.0
  }

  function TotalWidth(c: Cross): real { c.centralWidth + 2.0 * c.armLength }

  function TotalDepth(c: Cross): real { c.centralDepth + 2.0 * c.armLength }

  function CentreX(c: Cross): real { TotalWidth(c) / 2.0 }

  function CentreY(c: Cross): real { TotalDepth(c) / 2.0 }

  function Central(c: Cross): Prism {
    Prism(CentreX(c) - c.centralWidth / 2.0, CentreY(c) - c.centralDepth / 2.0,
          c.centralWidth, c.centralDepth, c.height)
  }

  function LeftArm(c: Cross): Prism {
    Prism(CentreX(c) - c.centralWidth / 2.0 - c.armLength, CentreY(c) - c.armWidth / 2.0,
          c.armLength, c.armWidth, c.height)
  }

  function RightArm(c: Cross): Prism {
    Prism(CentreX(c) + c.centralWidth / 2.0, CentreY(c) - c.armWidth / 2.0,
          c.armLength, c.armWidth, c.height)
  }

  function TopArm(c: Cross): Prism {
    Prism(CentreX(c) - c.armWidth / 2.0, CentreY(c) + c.centralDepth / 2.0,
          c.armWidth, c.armLength, c.height)
  }

  function BottomArm(c: Cross): Prism {
    Prism(CentreX(c) - c.armWidth / 2.0, CentreY(c) - c.centralDepth / 2.0 - c.armLength,
          c.armWidth, c.armLength, c.height)
  }

  /** The decomposition, in the fixed order central, left, right, top, bottom. */
  function Parts(c: Cross): (ps: seq<Prism>)
    ensures |ps| == 5
  {
    [Central(c), LeftArm(c), RightArm(c), TopArm(c), BottomArm(c)]
  }

  /** The cross fills its bounding box [0, TotalWidth] x [0, TotalDepth]: the left arm starts at
      x = 0, the right arm ends at TotalWidth, the bottom arm starts at y = 0 and the top arm
      ends at TotalDepth.  Each arm is centred on the centre line it extends, touches the
      central block, and all five prisms share the height. */
  lemma PartsPlacement(c: Cross)
    ensures LeftArm(c).x == 0.0
    ensures RightArm(c).x + RightArm(c).width == TotalWidth(c)
    ensures BottomArm(c).y == 0.0
    ensures TopArm(c).y + TopArm(c).depth == TotalDepth(c)
    ensures Central(c).x == c.armLength && Central(c).y == c.armLength
    ensures LeftArm(c).x + LeftArm(c).width == Central(c).x
    ensures RightArm(c).x == Central(c).x + Central(c).width
    ensures BottomArm(c).y + BottomArm(c).depth == Central(c).y
    ensures TopArm(c).y == Central(c).y + Central(c).depth
    ensures LeftArm(c).y + LeftArm(c).depth / 2.0 == CentreY(c)
    ensures RightArm(c).y + RightArm(c).depth / 2.0 == CentreY(c)
    ensures TopArm(c).x + TopArm(c).width / 2.0 == CentreX(c)
    ensures BottomArm(c).x + BottomArm(c).width / 2.0 == CentreX(c)
    ensures forall p :: p in Parts(c) ==> p.height == c.height
  {
  }

  /** The five prisms' volumes add up to the analytic cross volume. */
  lemma PartsVolume(c: Cross)
    ensures PrismVolume(Parts(c)[0]) + PrismVolume(Parts(c)[1]) + PrismVolume(Parts(c)[2]) +
            PrismVolume(Parts(c)[3]) + PrismVolume(Parts(c)[4])
            == CrossVolume(c.centralWidth, c.centralDepth, c.armWidth, c.armLength, c.height)
  {
    var ps := Parts(c);
    assert PrismVolume(ps[1]) == c.armLength * c.armWidth * c.height;
    assert PrismVolume(ps[2]) == c.armLength * c.armWidth * c.height;
    assert PrismVolume(ps[3]) == c.armWidth * c.armLength * c.height;
    assert PrismVolume(ps[4]) == c.armWidth * c.armLength * c.height;
  }

  /** The open footprints of two prisms intersect (both span z in [0, height]). */
  predicate InteriorsOverlap(a: Prism, b: Prism) {
    a.x < b.x + b.width && b.x < a.x + a.width && a.y < b.y + b.depth && b.y < a.y + a.depth
  }

  /** The five prisms never overlap, except when the arms are wider than the central block in
      both directions: then each horizontal arm overlaps both vertical arms. */
  lemma PartsDisjointIff(c: Cross)
    requires ValidCross(c)
    ensures (forall i, j :: 0 <= i < j < 5 ==> !InteriorsOverlap(Parts(c)[i], Parts(c)[j])) <==>
            !(c.armWidth > c.centralWidth && c.armWidth > c.centralDepth)
  {
    var ps := Parts(c);
    if c.armWidth > c.centralWidth && c.armWidth > c.centralDepth {
      assert InteriorsOverlap(ps[1], ps[3]);
    } else {
      forall i, j | 0 <= i < j < 5
        ensures !InteriorsOverlap(ps[i], ps[j])
      {
      }
    }
  }

  /** The packing of the cross: the five packings concatenated in the order of Parts. */
  function CrossCentres(c: Cross, diameter: real): seq<Point3>
    requires diameter > 0.0
  {
    Centres(Central(c), diameter) + Centres(LeftArm(c), diameter) +
    Centres(RightArm(c), diameter) + Centres(TopArm(c), diameter) +
    Centres(BottomArm(c), diameter)
  }

  /** Number of spheres of one prism: the product of the three cell counts. */
  function PartCount(p: Prism, diameter: real): nat
    requires diameter > 0.0
  {
    CellCount(p.width, diameter) * (CellCount(p.depth, diameter) * CellCount(p.height, diameter))
  }

  /** The cross packing holds the five per-prism counts. */
  lemma CrossCount(c: Cross, diameter: real)
    requires diameter > 0.0
    ensures |CrossCentres(c, diameter)| ==
            PartCount(Central(c), diameter) + PartCount(LeftArm(c), diameter) +
            PartCount(RightArm(c), diameter) + PartCount(TopArm(c), diameter) +
            PartCount(BottomArm(c), diameter)
  {
    CentresLength(Central(c), diameter);
    CentresLength(LeftArm(c), diameter);
    CentresLength(RightArm(c), diameter);
    CentresLength(TopArm(c), diameter);
    CentresLength(BottomArm(c), diameter);
  }

  lemma {:induction false} ProjectionsConcat(a: seq<Point3>, b: seq<Point3>)
    ensures Xs(a + b) == Xs(a) + Xs(b)
    ensures Ys(a + b) == Ys(a) + Ys(b)
    ensures Zs(a + b) == Zs(a) + Zs(b)
  {
    assert |Xs(a + b)| == |Xs(a) + Xs(b)|;
    forall q | 0 <= q < |a + b|
      ensures Xs(a + b)[q] == (Xs(a) + Xs(b))[q]
      ensures Ys(a + b)[q] == (Ys(a) + Ys(b))[q]
      ensures Zs(a + b)[q] == (Zs(a) + Zs(b))[q]
    {
      if q < |a| {
      } else {
        assert (a + b)[q] == b[q - |a|];
      }
    }
  }

  /** Packs the five prisms of the cross and gathers the centres into three parallel lists:
      the centres of the central block, then of the left, right, top and bottom arms. */
  method PackCross(c: Cross, radius: real) returns (xs: seq<real>, ys: seq<real>, zs: seq<real>)
    requires radius > 0.0
    ensures Projected(xs, ys, zs, CrossCentres(c, 2.0 * radius))
  {
    xs, ys, zs := [], [], [];
    var cx := TotalWidth(c) / 2.0;
    var cy := TotalDepth(c) / 2.0;
    var diameter := 2.0 * radius;
    PartsAround(c, cx, cy);

    var part := PackRectangle(cx - c.centralWidth / 2.0, cy - c.centralDepth / 2.0,
                              c.centralWidth, c.centralDepth, c.height, diameter);
    xs, ys, zs := ExtendCoordinates(xs, ys, zs, part, PartsCentres(c, diameter, 0));
    PackedPart(c, diameter, 0, part);

    part := PackRectangle(cx - c.centralWidth / 2.0 - c.armLength, cy - c.armWidth / 2.0,
                          c.armLength, c.armWidth, c.height, diameter);
    xs, ys, zs := ExtendCoordinates(xs, ys, zs, part, PartsCentres(c, diameter, 1));
    PackedPart(c, diameter, 1, part);

    part := PackRectangle(cx + c.centralWidth / 2.0, cy - c.armWidth / 2.0,
                          c.armLength, c.armWidth, c.height, diameter);
    xs, ys, zs := ExtendCoordinates(xs, ys, zs, part, PartsCentres(c, diameter, 2));
    PackedPart(c, diameter, 2, part);

    part := PackRectangle(cx - c.armWidth / 2.0, cy + c.centralDepth / 2.0,
                          c.armWidth, c.armLength, c.height, diameter);
    xs, ys, zs := ExtendCoordinates(xs, ys, zs, part, PartsCentres(c, diameter, 3));
    PackedPart(c, diameter, 3, part);

    part := PackRectangle(cx - c.armWidth / 2.0, cy - c.centralDepth / 2.0 - c.armLength,
                          c.armWidth, c.armLength, c.height, diameter);
    xs, ys, zs := ExtendCoordinates(xs, ys, zs, part, PartsCentres(c, diameter, 4));
    PackedPart(c, diameter, 4, part);
    PartsCentresAll(c, diameter, radius);
  }

  /** The centres of the first n parts, in the order of Parts. */
  function PartsCentres(c: Cross, diameter: real, n: nat): seq<Point3>
    requires diameter > 0.0 && n <= 5
  {
    if n == 0 then [] else PartsCentres(c, diameter, n - 1) + Centres(Parts(c)[n - 1], diameter)
  }

  lemma PartsCentresAll(c: Cross, diameter: real, radius: real)
    requires diameter > 0.0 && diameter == 2.0 * radius
    ensures PartsCentres(c, diameter, 5) == CrossCentres(c, 2.0 * radius)
  {
    var ps := Parts(c);
    assert PartsCentres(c, diameter, 1) == Centres(ps[0], diameter);
    assert PartsCentres(c, diameter, 2) == PartsCentres(c, diameter, 1) + Centres(ps[1], diameter);
    assert PartsCentres(c, diameter, 3) == PartsCentres(c, diameter, 2) + Centres(ps[2], diameter);
    assert PartsCentres(c, diameter, 4) == PartsCentres(c, diameter, 3) + Centres(ps[3], diameter);
  }

  /** The five prisms, written from the centre (cx, cy) of the bounding box as the packer
      computes their corners. */
  lemma PartsAround(c: Cross, cx: real, cy: real)
    requires cx == TotalWidth(c) / 2.0 && cy == TotalDepth(c) / 2.0
    ensures Parts(c)[0] == Prism(cx - c.centralWidth / 2.0, cy - c.centralDepth / 2.0,
                                 c.centralWidth, c.centralDepth, c.height)
    ensures Parts(c)[1] == Prism(cx - c.centralWidth / 2.0 - c.armLength, cy - c.armWidth / 2.0,
                                 c.armLength, c.armWidth, c.height)
    ensures Parts(c)[2] == Prism(cx + c.centralWidth / 2.0, cy - c.armWidth / 2.0,
                                 c.armLength, c.armWidth, c.height)
    ensures Parts(c)[3] == Prism(cx - c.armWidth / 2.0, cy + c.centralDepth / 2.0,
                                 c.armWidth, c.armLength, c.height)
    ensures Parts(c)[4] == Prism(cx - c.armWidth / 2.0, cy - c.centralDepth / 2.0 - c.armLength,
                                 c.armWidth, c.armLength, c.height)
  {
  }

  /** The next part is the packing of part n. */
  lemma PackedPart(c: Cross, diameter: real, n: nat, part: seq<Point3>)
    requires diameter > 0.0 && n < 5
    requires part == Centres(Parts(c)[n], diameter)
    ensures PartsCentres(c, diameter, n) + part == PartsCentres(c, diameter, n + 1)
  {
  }

  /** Extends the three coordinate lists by those of the centres in part. */
  method ExtendCoordinates(xs: seq<real>, ys: seq<real>, zs: seq<real>, part: seq<Point3>,
                           ghost acc: seq<Point3>)
    returns (xs': seq<real>, ys': seq<real>, zs': seq<real>)
    requires Projected(xs, ys, zs, acc)
    ensures Projected(xs', ys', zs', acc + part)
  {
    ProjectionsConcat(acc, part);
    xs', ys', zs' := xs + Xs(part), ys + Ys(part), zs + Zs(part);
  }

  /** Every centre of the cross packing lies strictly inside one of the five prisms. */
  lemma CrossCentresInside(c: Cross, diameter: real)
    requires ValidCross(c) && diameter > 0.0
    ensures forall q :: q in CrossCentres(c, diameter) ==>
              exists p :: p in Parts(c) && StrictlyInside(q, p)
  {
    var ps := Parts(c);
    forall k | 0 <= k < 5
      ensures forall q :: q in Centres(ps[k], diameter) ==> StrictlyInside(q, ps[k])
    {
      CentresInside(ps[k], diameter);
    }
    forall q | q in CrossCentres(c, diameter)
      ensures exists p :: p in Parts(c) && StrictlyInside(q, p)
    {
      if q in Centres(ps[0], diameter) {
        assert StrictlyInside(q, ps[0]);
      } else if q in Centres(ps[1], diameter) {
        assert StrictlyInside(q, ps[1]);
      } else if q in Centres(ps[2], diameter) {
        assert StrictlyInside(q, ps[2]);
      } else if q in Centres(ps[3], diameter) {
        assert StrictlyInside(q, ps[3]);
      } else {
        assert StrictlyInside(q, ps[4]);
      }
    }
  }
}
