/** The box scenario: a width x depth x height box at the origin filled with spheres of one
    radius, the two warnings it prints, its statistics and its twelve-edge outline. */
module BoxScenario {
  import opened Geometry
  import opened Volumes
  import opened SpherePacker
  import opened ContourTracer
  import opened WallExtruder

  datatype BoxInput = BoxInput(width: real, depth: real, height: real, radius: real)

  predicate ValidBox(b: BoxInput) {
    b.width > 0.0 && b.depth > 0.0 && b.height > 0.0 && b.radius > 0.0
  }

  /** Rejects the input when any of the four values is zero or negative. */
  function ValidateBox(b: BoxInput): (r: Result<BoxInput>)
    ensures r.Ok? <==> ValidBox(b)
    ensures r.Ok? ==> r.value == b
    ensures r.Err? ==> r.error == InvalidDimension
  {
    if b.width <= 0.0 || b.depth <= 0.0 || b.height <= 0.0 || b.radius <= 0.0
    then Err(InvalidDimension)
    else Ok(b)
  }

  function Container(b: BoxInput): Prism { Prism(0.0, 0.0, b.width, b.depth, b.height) }

  /** The first warning: the diameter exceeds the smallest extent. */
  predicate DiameterWarning(b: BoxInput) {
    b.radius * 2.0 > Min(Min(b.width, b.depth), b.height)
  }

  /** The two warnings always agree: the cells are narrower than a diameter exactly when the
      diameter exceeds the smallest extent. */
  lemma WarningsAgree(b: BoxInput)
    requires ValidBox(b)
    ensures DiameterWarning(b) <==> OverlapWarning(b.width, b.depth, b.height, 2.0 * b.radius)
  {
    OverlapWarningIff(b.width, b.depth, b.height, 2.0 * b.radius);
  }

  /** Everything the scenario computes from a valid input, the outline it draws included. */
  datatype BoxReport = BoxReport(xs: seq<real>, ys: seq<real>, zs: seq<real>,
                                 diameterWarning: bool, overlapWarning: bool, stats: Stats,
                                 outline: seq<Segment>)

  /** Validates, packs, evaluates both warnings and the statistics, and traces the outline. */
  method RunBox(b: BoxInput, pi: real) returns (r: Result<BoxReport>)
    requires pi > 0.0
    ensures r.Err? <==> !ValidBox(b)
    ensures r.Err? ==> r.error == InvalidDimension
    ensures r.Ok? ==>
              var all := Centres(Container(b), 2.0 * b.radius);
              Projected(r.value.xs, r.value.ys, r.value.zs, all) &&
              r.value.diameterWarning == DiameterWarning(b) &&
              r.value.overlapWarning == DiameterWarning(b) &&
              r.value.stats == MakeStats(|all|, pi, b.radius, BoxVolume(b.width, b.depth, b.height)) &&
              r.value.outline == BoxOutline(b)
  {
    var checked := ValidateBox(b);
    if checked.Err? {
      return Err(checked.error);
    }
    var diameter := 2.0 * b.radius;
    var xs, ys, zs := PackBox(b.width, b.depth, b.height, diameter);
    var overlap := b.width / (CellCount(b.width, diameter) as real) < diameter ||
                   b.depth / (CellCount(b.depth, diameter) as real) < diameter ||
                   b.height / (CellCount(b.height, diameter) as real) < diameter;
    WarningsAgree(b);
    var volume := BoxVolume(b.width, b.depth, b.height);
    r := Ok(BoxReport(xs, ys, zs, b.radius * 2.0 > Min(Min(b.width, b.depth), b.height), overlap,
                      MakeStats(|xs|, pi, b.radius, volume), BoxOutline(b)));
  }

  /** The eight corners of the box, bottom face counter-clockwise then top face. */
  function BoxVertices(b: BoxInput): (v: seq<Point3>)
    ensures |v| == 8
  {
    [Point3(0.0, 0.0, 0.0), Point3(b.width, 0.0, 0.0), Point3(b.width, b.depth, 0.0),
     Point3(0.0, b.depth, 0.0), Point3(0.0, 0.0, b.height), Point3(b.width, 0.0, b.height),
     Point3(b.width, b.depth, b.height), Point3(0.0, b.depth, b.height)]
  }

  /** The twelve edges as pairs of corner numbers: bottom loop, top loop, verticals. */
  function BoxEdges(): (e: seq<(nat, nat)>)
    ensures |e| == 12
    ensures forall k :: 0 <= k < 12 ==> e[k].0 < 8 && e[k].1 < 8
  {
    [(0, 1), (1, 2), (2, 3), (3, 0), (4, 5), (5, 6), (6, 7), (7, 4), (0, 4), (1, 5), (2, 6), (3, 7)]
  }

  function BoxOutline(b: BoxInput): (w: seq<Segment>)
    ensures |w| == 12
  {
    var v, e := BoxVertices(b), BoxEdges();
    seq(12, k requires 0 <= k < 12 => Segment(v[e[k].0], v[e[k].1]))
  }

  /** The corners are those of the outer walls of the same box, and the outline is the
      wireframe of its base rectangle extruded to full height: four base edges, four top
      edges, four verticals. */
  lemma BoxOutlineIsWireframe(b: BoxInput)
    ensures BoxVertices(b) == OuterVertices(Container(b))
    ensures var base := BaseRectangle(Container(b));
            BoxOutline(b) == Wireframe(base, ContourTop(base, b.height))
  {
    var base := BaseRectangle(Container(b));
    var w := Wireframe(base, ContourTop(base, b.height));
    var o := BoxOutline(b);
    forall k | 0 <= k < 12
      ensures o[k] == w[k]
    {
      if k < 4 {
        WireframeLayout(base, b.height, k);
      } else if k < 8 {
        WireframeLayout(base, b.height, k - 4);
      } else {
        WireframeLayout(base, b.height, k - 8);
      }
    }
  }

  /** Number of the edges e[i..] touching corner v. */
  function DegreeFrom(e: seq<(nat, nat)>, v: nat, i: nat): nat
    decreases |e| - i
  {
    if i >= |e| then 0
    else (if e[i].0 == v || e[i].1 == v then 1 else 0) + DegreeFrom(e, v, i + 1)
  }

  function Degree(e: seq<(nat, nat)>, v: nat): nat { DegreeFrom(e, v, 0) }

  /** Every corner of the outline meets exactly three edges. */
  lemma BoxDegrees()
    ensures forall v :: 0 <= v < 8 ==> Degree(BoxEdges(), v) == 3
  {
    BottomDegrees();
    TopDegrees();
    forall v | 0 <= v < 8
      ensures Degree(BoxEdges(), v) == 3
    {
      assert v == 0 || v == 1 || v == 2 || v == 3 || v == 4 || v == 5 || v == 6 || v == 7;
    }
  }

  lemma BottomDegrees()
    ensures Degree(BoxEdges(), 0) == 3 && Degree(BoxEdges(), 1) == 3
    ensures Degree(BoxEdges(), 2) == 3 && Degree(BoxEdges(), 3) == 3
  {
  }

  lemma TopDegrees()
    ensures Degree(BoxEdges(), 4) == 3 && Degree(BoxEdges(), 5) == 3
    ensures Degree(BoxEdges(), 6) == 3 && Degree(BoxEdges(), 7) == 3
  {
  }

  /** Every edge of the outline joins two corners that differ in exactly one coordinate. */
  lemma BoxEdgesAxisParallel(b: BoxInput)
    requires ValidBox(b)
    ensures forall k :: 0 <= k < 12 ==> OneAxis(BoxOutline(b)[k])
  {
  }

  /** The endpoints of s differ along exactly one axis. */
  predicate OneAxis(s: Segment) {
    var dx, dy, dz := s.from.x != s.to.x, s.from.y != s.to.y, s.from.z != s.to.z;
    (dx && !dy && !dz) || (!dx && dy && !dz) || (!dx && !dy && dz)
  }

  /** A 10 x 10 x 10 box with spheres of radius 1 holds 5 x 5 x 5 = 125 spheres, the first at
      (1, 1, 1) and the last at (9, 9, 9), in a box of volume 1000. */
  lemma CubeExample()
    ensures var all := Centres(Prism(0.0, 0.0, 10.0, 10.0, 10.0), 2.0);
            |all| == 125 && all[0] == Point3(1.0, 1.0, 1.0) && all[124] == Point3(9.0, 9.0, 9.0)
    ensures BoxVolume(10.0, 10.0, 10.0) == 1000.0
  {
    CubeFirst();
    CubeLast();
  }

  /** In that box the first centre is that of cell (0, 0, 0). */
  lemma CubeFirst()
    ensures var all := Centres(Prism(0.0, 0.0, 10.0, 10.0, 10.0), 2.0);
            |all| == 125 && all[0] == Point3(1.0, 1.0, 1.0)
  {
    var p := Prism(0.0, 0.0, 10.0, 10.0, 10.0);
    CubeGrid();
    assert Centres(p, 2.0) == Rows(p, Grid(5, 5, 5), 5);
    assert CellOffset(10.0, 5, 0) == 1.0;
    RowsAt(p, Grid(5, 5, 5), 5, 0, 0, 0);
    assert CellCentre(p, Grid(5, 5, 5), 0, 0, 0) == Point3(1.0, 1.0, 1.0);
  }

  /** In that box the last centre is that of cell (4, 4, 4). */
  lemma CubeLast()
    ensures var all := Centres(Prism(0.0, 0.0, 10.0, 10.0, 10.0), 2.0);
            |all| == 125 && all[124] == Point3(9.0, 9.0, 9.0)
  {
    var p := Prism(0.0, 0.0, 10.0, 10.0, 10.0);
    CubeGrid();
    assert Centres(p, 2.0) == Rows(p, Grid(5, 5, 5), 5);
    assert CellOffset(10.0, 5, 4) == 9.0;
    RowsAt(p, Grid(5, 5, 5), 5, 4, 4, 4);
    assert Position(Grid(5, 5, 5), 4, 4, 4) == 124;
    assert CellCentre(p, Grid(5, 5, 5), 4, 4, 4) == Point3(9.0, 9.0, 9.0);
  }

  lemma CubeGrid()
    ensures GridFor(Prism(0.0, 0.0, 10.0, 10.0, 10.0), 2.0) == Grid(5, 5, 5)
  {
    assert 10.0 / 2.0 == 5.0;
    assert Trunc(5.0) == 5;
  }
}
