/** The two cross scenarios around the contour: the cross filled with spheres (input check,
    packing and statistics) and the outline-only plan (input check, centre, outline loops and
    wireframe). */
module CrossScenario {
  import opened Geometry
  import opened Volumes
  import opened SpherePacker
  import opened CrossDecomposition
  import opened ContourTracer

  datatype CrossInput = CrossInput(cross: Cross, radius: real)

  /** The filled cross refuses the input unless the five dimensions and the radius are all
      positive. */
  function ValidateCrossInput(i: CrossInput): (r: Result<CrossInput>)
    ensures r.Ok? <==> ValidCross(i.cross) && i.radius > 0.0
    ensures r.Ok? ==> r.value == i
    ensures r.Err? ==> r.error == InvalidDimension
  {
    var c := i.cross;
    if c.centralWidth <= 0.0 || c.centralDepth <= 0.0 || c.armWidth <= 0.0 || c.armLength <= 0.0 ||
       c.height <= 0.0 || i.radius <= 0.0
    then Err(InvalidDimension)
    else Ok(i)
  }

  /** Everything the filled-cross scenario computes. */
  datatype CrossReport = CrossReport(xs: seq<real>, ys: seq<real>, zs: seq<real>, stats: Stats)

  /** Validates, packs the five prisms and evaluates the statistics against the volume of
      the cross. */
  method RunCross(i: CrossInput, pi: real) returns (r: Result<CrossReport>)
    requires pi > 0.0
    ensures r.Err? <==> !(ValidCross(i.cross) && i.radius > 0.0)
    ensures r.Err? ==> r.error == InvalidDimension
    ensures r.Ok? ==>
              var c, all := i.cross, CrossCentres(i.cross, 2.0 * i.radius);
              Projected(r.value.xs, r.value.ys, r.value.zs, all) &&
              r.value.stats == MakeStats(|all|, pi, i.radius,
                                         CrossVolume(c.centralWidth, c.centralDepth, c.armWidth,
                                                     c.armLength, c.height))
  {
    var checked := ValidateCrossInput(i);
    if checked.Err? {
      return Err(checked.error);
    }
    var c := i.cross;
    var xs, ys, zs := PackCross(c, i.radius);
    var volume := CrossVolume(c.centralWidth, c.centralDepth, c.armWidth, c.armLength, c.height);
    r := Ok(CrossReport(xs, ys, zs, MakeStats(|xs|, pi, i.radius, volume)));
  }

  /** The volume the statistics divide by is the volume of the five prisms the spheres are
      packed into. */
  lemma StatsVolumeIsPartsVolume(c: Cross)
    ensures CrossVolume(c.centralWidth, c.centralDepth, c.armWidth, c.armLength, c.height) ==
            PrismVolume(Central(c)) + PrismVolume(LeftArm(c)) + PrismVolume(RightArm(c)) +
            PrismVolume(TopArm(c)) + PrismVolume(BottomArm(c))
  {
    PartsVolume(c);
  }

  /** The volume the statistics divide by is the area enclosed by the traced outline times the
      height: the filled solid is exactly the extruded outline. */
  lemma VolumeIsOutlineArea(c: Cross)
    ensures CrossVolume(c.centralWidth, c.centralDepth, c.armWidth, c.armLength, c.height) ==
            SignedArea(CrossOutline(c)) * c.height
  {
    ContourSignedArea(CentreX(c), CentreY(c), c);
    var a := c.centralWidth * c.centralDepth + 4.0 * c.armWidth * c.armLength;
    assert SignedArea(CrossOutline(c)) == a;
    assert a * c.height == c.centralWidth * c.centralDepth * c.height +
                           4.0 * (c.armLength * c.armWidth * c.height);
  }

  /** The outline-only plan refuses the input unless the five dimensions are positive. */
  function ValidateOutline(c: Cross): (r: Result<Cross>)
    ensures r.Ok? <==> ValidCross(c)
    ensures r.Ok? ==> r.value == c
    ensures r.Err? ==> r.error == InvalidDimension
  {
    if c.centralWidth <= 0.0 || c.centralDepth <= 0.0 || c.armWidth <= 0.0 || c.armLength <= 0.0 ||
       c.height <= 0.0
    then Err(InvalidDimension)
    else Ok(c)
  }

  /** The base loop, the lifted loop and the wireframe. */
  datatype Outline = Outline(base: seq<Point3>, top: seq<Point3>, wireframe: seq<Segment>)

  /** Validates, computes the centre of the bounding box and traces the outline around it. */
  function CreateOutline(c: Cross): (r: Result<Outline>)
    ensures r.Ok? <==> ValidCross(c)
    ensures r.Err? ==> r.error == InvalidDimension
    ensures r.Ok? ==>
              r.value.base == CrossOutline(c) && r.value.top == ContourTop(r.value.base, c.height) &&
              r.value.wireframe == Wireframe(r.value.base, r.value.top) &&
              |r.value.base| == |r.value.top| == 21 && |r.value.wireframe| == 63 &&
              r.value.base[0] == Point3(0.0, CentreY(c) - c.armWidth / 2.0, 0.0) &&
              SignedArea(r.value.base) == c.centralWidth * c.centralDepth + 4.0 * c.armWidth * c.armLength &&
              SignedArea(r.value.base) > 0.0
  {
    match ValidateOutline(c)
    case Err(e) => Err(e)
    case Ok(_) =>
      var base := ContourBase(TotalWidth(c) / 2.0, TotalDepth(c) / 2.0, c);
      var top := ContourTop(base, c.height);
      ContourShape(CentreX(c), CentreY(c), c);
      ContourSignedArea(CentreX(c), CentreY(c), c);
      Ok(Outline(base, top, Wireframe(base, top)))
  }
}
