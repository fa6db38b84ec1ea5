/** The grid sphere packer.  Each axis of a prism is cut into CellCount(extent, diameter)
    equal cells and one sphere centre is put at the centroid of every cell, enumerated with
    i (x) outermost, then j (y), then k (z). */
module SpherePacker {
  import opened Geometry

  /** Python's int() applied to a float: truncation toward zero. */
  function Trunc(x: real): (n: int)
    ensures 0.0 <= x ==> n as real <= x < n as real + 1.0
    ensures x < 0.0 ==> n as real - 1.0 < x <= n as real
  {
    if x >= 0.0 then x.Floor else -((-x).Floor)
  }

  /** max(1, int(extent / diameter)): the number of cells along one axis (at least one even
      when the extent is smaller than a diameter). */
  function CellCount(extent: real, diameter: real): (n: nat)
    requires diameter > 0.0
    ensures n >= 1
  {
    MaxInt(1, Trunc(extent / diameter))
  }

  /** When the extent holds at least one diameter, CellCount is the largest n such that n
      diameters fit in the extent; otherwise it is 1. */
  lemma CellCountFits(extent: real, diameter: real)
    requires diameter > 0.0
    ensures var n := CellCount(extent, diameter);
            extent >= diameter ==> (n as real) * diameter <= extent < (n as real + 1.0) * diameter
    ensures extent < diameter ==> CellCount(extent, diameter) == 1
  {
    var q := extent / diameter;
    var t := Trunc(q);
    if extent >= diameter {
      QuotientAtLeast(extent, diameter, 1.0);
      assert t >= 1 && MaxInt(1, t) == t;
      QuotientBelow(extent, diameter, t as real + 1.0);
      QuotientAtLeastInverse(extent, diameter, t as real);
    } else {
      QuotientBelowInverse(extent, diameter, 1.0);
    }
  }

  /** b <= extent / d when b * d <= extent. */
  lemma QuotientAtLeast(extent: real, d: real, b: real)
    requires d > 0.0 && b * d <= extent
    ensures b <= extent / d
  {
    var q := extent / d;
    assert q * d == extent;
    if q < b {
      MulStrict(q, b, d);
    }
  }

  /** a * d <= extent when a <= extent / d. */
  lemma QuotientAtLeastInverse(extent: real, d: real, a: real)
    requires d > 0.0 && a <= extent / d
    ensures a * d <= extent
  {
    var q := extent / d;
    assert q * d == extent;
    MulMonotone(a, q, d);
  }

  /** extent < b * d when extent / d < b. */
  lemma QuotientBelow(extent: real, d: real, b: real)
    requires d > 0.0 && extent / d < b
    ensures extent < b * d
  {
    var q := extent / d;
    assert q * d == extent;
    MulStrict(q, b, d);
  }

  /** extent / d < b when extent < b * d. */
  lemma QuotientBelowInverse(extent: real, d: real, b: real)
    requires d > 0.0 && extent < b * d
    ensures extent / d < b
  {
    var q := extent / d;
    assert q * d == extent;
    if q >= b {
      MulMonotone(b, q, d);
    }
  }

  lemma MulMonotone(a: real, b: real, c: real)
    requires a <= b && c > 0.0
    ensures a * c <= b * c
  {
  }

  lemma MulStrict(a: real, b: real, c: real)
    requires a < b && c > 0.0
    ensures a * c < b * c
  {
  }

  /** The per-axis cell sizes extent/n are at least one diameter when the extent is, and one
      more cell would make them smaller than a diameter: the count is maximal. */
  lemma CellCountMaximal(extent: real, diameter: real)
    requires diameter > 0.0 && extent >= diameter
    ensures extent / (CellCount(extent, diameter) as real) >= diameter
    ensures extent / (CellCount(extent, diameter) as real + 1.0) < diameter
  {
    CellCountFits(extent, diameter);
    var n := CellCount(extent, diameter) as real;
    QuotientAtLeast(extent, n, diameter);
    QuotientBelowInverse(extent, n + 1.0, diameter);
  }

  /** Number of cells along each axis. */
  datatype Grid = Grid(nx: nat, ny: nat, nz: nat)

  predicate ValidGrid(g: Grid) { g.nx >= 1 && g.ny >= 1 && g.nz >= 1 }

  function GridFor(p: Prism, diameter: real): (g: Grid)
    requires diameter > 0.0
    ensures ValidGrid(g)
  {
    Grid(CellCount(p.width, diameter), CellCount(p.depth, diameter), CellCount(p.height, diameter))
  }

  /** Offset, from the start of an axis, of the centroid of cell i when the extent is cut into
      n equal cells. */
  function CellOffset(extent: real, n: nat, i: int): real
    requires n >= 1
  {
    (i as real + 0.5) * (extent / n as real)
  }

  /** The centre of cell (i, j, k).  x and y start at the prism's corner; z always starts at 0. */
  function CellCentre(p: Prism, g: Grid, i: int, j: int, k: int): Point3
    requires ValidGrid(g)
  {
    Point3(p.x + CellOffset(p.width, g.nx, i), p.y + CellOffset(p.depth, g.ny, j),
           CellOffset(p.height, g.nz, k))
  }

  /** The centres of column (i, j), k = 0 .. nz-1. */
  function Column(p: Prism, g: Grid, i: int, j: int): seq<Point3>
    requires ValidGrid(g)
  {
    seq(g.nz, k => CellCentre(p, g, i, j, k))
  }

  /** The centres of the first m columns of slab i, in the order j = 0 .. m-1. */
  function Slab(p: Prism, g: Grid, i: int, m: nat): seq<Point3>
    requires ValidGrid(g)
  {
    if m == 0 then [] else Slab(p, g, i, m - 1) + Column(p, g, i, m - 1)
  }

  /** The centres of the first m slabs, i = 0 .. m-1. */
  function Rows(p: Prism, g: Grid, m: nat): seq<Point3>
    requires ValidGrid(g)
  {
    if m == 0 then [] else Rows(p, g, m - 1) + Slab(p, g, m - 1, g.ny)
  }

  /** The packing of a prism by spheres of the given diameter. */
  function Centres(p: Prism, diameter: real): seq<Point3>
    requires diameter > 0.0
  {
    var g := GridFor(p, diameter);
    Rows(p, g, g.nx)
  }

  /** List position of the centre of cell (i, j, k) in the i-outer, k-inner enumeration. */
  function Position(g: Grid, i: nat, j: nat, k: nat): nat {
    i * (g.ny * g.nz) + j * g.nz + k
  }

  lemma {:induction false} SlabAt(p: Prism, g: Grid, i: int, m: nat, j: nat, k: nat)
    requires ValidGrid(g) && j < m && k < g.nz
    ensures |Slab(p, g, i, m)| == m * g.nz
    ensures j * g.nz + k < m * g.nz
    ensures Slab(p, g, i, m)[j * g.nz + k] == CellCentre(p, g, i, j, k)
  {
    SlabLength(p, g, i, m - 1);
    if j < m - 1 {
      SlabAt(p, g, i, m - 1, j, k);
    } else {
      assert j * g.nz == (m - 1) * g.nz;
    }
  }

  lemma {:induction false} SlabLength(p: Prism, g: Grid, i: int, m: nat)
    requires ValidGrid(g)
    ensures |Slab(p, g, i, m)| == m * g.nz
  {
    if m > 0 {
      SlabLength(p, g, i, m - 1);
    }
  }

  lemma {:induction false} RowsLength(p: Prism, g: Grid, m: nat)
    requires ValidGrid(g)
    ensures |Rows(p, g, m)| == m * (g.ny * g.nz)
  {
    if m > 0 {
      RowsLength(p, g, m - 1);
      SlabLength(p, g, m - 1, g.ny);
    }
  }

  lemma {:induction false} RowsAt(p: Prism, g: Grid, m: nat, i: nat, j: nat, k: nat)
    requires ValidGrid(g) && i < m && j < g.ny && k < g.nz
    ensures |Rows(p, g, m)| == m * (g.ny * g.nz)
    ensures Position(g, i, j, k) < m * (g.ny * g.nz)
    ensures Rows(p, g, m)[Position(g, i, j, k)] == CellCentre(p, g, i, j, k)
  {
    RowsLength(p, g, m - 1);
    SlabAt(p, g, m - 1, g.ny, j, k);
    var s := g.ny * g.nz;
    if i < m - 1 {
      RowsAt(p, g, m - 1, i, j, k);
    } else {
      assert i * s == (m - 1) * s;
    }
  }

  /** The packing holds nx * ny * nz centres, and the centre at position
      i*ny*nz + j*nz + k is the centre of cell (i, j, k) (see CellCentreFormula). */
  lemma CentresAt(p: Prism, diameter: real, i: nat, j: nat, k: nat)
    requires diameter > 0.0
    requires i < GridFor(p, diameter).nx && j < GridFor(p, diameter).ny
    requires k < GridFor(p, diameter).nz
    ensures var g := GridFor(p, diameter);
            |Centres(p, diameter)| == g.nx * (g.ny * g.nz) &&
            Position(g, i, j, k) < |Centres(p, diameter)| &&
            Centres(p, diameter)[Position(g, i, j, k)] == CellCentre(p, g, i, j, k)
  {
    var g := GridFor(p, diameter);
    RowsAt(p, g, g.nx, i, j, k);
  }

  /** The centre of cell (i, j, k) of the grid nx x ny x nz over the prism with corner
      (x0, y0) is (x0 + (i + 0.5) * width / nx, y0 + (j + 0.5) * depth / ny,
      (k + 0.5) * height / nz). */
  lemma CellCentreFormula(x0: real, y0: real, width: real, depth: real, height: real,
                          nx: nat, ny: nat, nz: nat, i: nat, j: nat, k: nat)
    requires nx >= 1 && ny >= 1 && nz >= 1
    ensures CellCentre(Prism(x0, y0, width, depth, height), Grid(nx, ny, nz), i, j, k) ==
            Point3(x0 + (i as real + 0.5) * (width / nx as real),
                   y0 + (j as real + 0.5) * (depth / ny as real),
                   (k as real + 0.5) * (height / nz as real))
  {
  }

  lemma CentresLength(p: Prism, diameter: real)
    requires diameter > 0.0
    ensures var g := GridFor(p, diameter);
            |Centres(p, diameter)| == g.nx * (g.ny * g.nz) &&
            |Centres(p, diameter)| >= 1
  {
    var g := GridFor(p, diameter);
    RowsLength(p, g, g.nx);
    assert g.ny * g.nz >= 1;
  }

  /** One axis: a cell centroid lies strictly between the two faces. */
  lemma OffsetInside(extent: real, n: nat, i: nat)
    requires n >= 1 && i < n && extent > 0.0
    ensures 0.0 < CellOffset(extent, n, i) < extent
  {
    var cell := extent / n as real;
    assert cell > 0.0;
    MulStrict(i as real + 0.5, n as real, cell);
    assert (n as real) * cell == extent;
  }

  predicate StrictlyInside(c: Point3, p: Prism) {
    p.x < c.x < p.x + p.width && p.y < c.y < p.y + p.depth && 0.0 < c.z < p.height
  }

  lemma CellCentreInside(p: Prism, g: Grid, i: nat, j: nat, k: nat)
    requires ValidGrid(g) && PositiveExtents(p) && i < g.nx && j < g.ny && k < g.nz
    ensures StrictlyInside(CellCentre(p, g, i, j, k), p)
  {
    OffsetInside(p.width, g.nx, i);
    OffsetInside(p.depth, g.ny, j);
    OffsetInside(p.height, g.nz, k);
  }

  lemma {:induction false} RowsInside(p: Prism, g: Grid, m: nat)
    requires ValidGrid(g) && PositiveExtents(p) && m <= g.nx
    ensures forall c :: c in Rows(p, g, m) ==> StrictlyInside(c, p)
  {
    if m > 0 {
      RowsInside(p, g, m - 1);
      SlabInside(p, g, m - 1, g.ny);
    }
  }

  lemma {:induction false} SlabInside(p: Prism, g: Grid, i: nat, m: nat)
    requires ValidGrid(g) && PositiveExtents(p) && i < g.nx && m <= g.ny
    ensures forall c :: c in Slab(p, g, i, m) ==> StrictlyInside(c, p)
  {
    if m > 0 {
      SlabInside(p, g, i, m - 1);
      var j := m - 1;
      forall k | 0 <= k < g.nz
        ensures StrictlyInside(CellCentre(p, g, i, j, k), p)
      {
        CellCentreInside(p, g, i, j, k);
      }
    }
  }

  /** Every centre of the packing of a prism with positive extents lies strictly inside it. */
  lemma CentresInside(p: Prism, diameter: real)
    requires diameter > 0.0 && PositiveExtents(p)
    ensures forall c :: c in Centres(p, diameter) ==> StrictlyInside(c, p)
  {
    var g := GridFor(p, diameter);
    RowsInside(p, g, g.nx);
  }

  /** Spacing along one axis whose extent holds a diameter: neighbouring centroids are one
      cell apart, the cell is at least a diameter, and every centroid is at least a radius
      from both faces. */
  lemma AxisSpacing(extent: real, diameter: real, i: nat)
    requires diameter > 0.0 && extent >= diameter && i < CellCount(extent, diameter)
    ensures var n := CellCount(extent, diameter);
            CellOffset(extent, n, i + 1) - CellOffset(extent, n, i) == extent / n as real &&
            extent / n as real >= diameter &&
            CellOffset(extent, n, i) >= diameter / 2.0 &&
            extent - CellOffset(extent, n, i) >= diameter / 2.0
  {
    var n := CellCount(extent, diameter);
    CellCountMaximal(extent, diameter);
    var cell := extent / n as real;
    assert cell * (n as real) == extent;
    CellClearance(extent, cell, diameter, n, i);
  }

  /** A centroid (i + 1/2) cells from one face of an n-cell axis whose cells are at least
      one diameter wide is at least a radius from both faces. */
  lemma CellClearance(extent: real, cell: real, diameter: real, n: nat, i: nat)
    requires cell >= diameter > 0.0 && cell * (n as real) == extent && i < n
    ensures (i as real + 0.5) * cell >= diameter / 2.0
    ensures extent - (i as real + 0.5) * cell >= diameter / 2.0
  {
    MulMonotone(0.5, i as real + 0.5, cell);
    var rest := n as real - i as real - 0.5;
    assert extent - (i as real + 0.5) * cell == rest * cell;
    MulMonotone(0.5, rest, cell);
  }

  /** The centres enumerated before cell (i, j, k): slabs 0..i-1, columns 0..j-1 of slab i,
      and the first k centres of column (i, j). */
  function Prefix(p: Prism, g: Grid, i: nat, j: nat, k: nat): seq<Point3>
    requires ValidGrid(g) && k <= g.nz
  {
    Rows(p, g, i) + Slab(p, g, i, j) + Column(p, g, i, j)[..k]
  }

  lemma PrefixStep(p: Prism, g: Grid, i: nat, j: nat, k: nat)
    requires ValidGrid(g) && k < g.nz
    ensures Prefix(p, g, i, j, k + 1) == Prefix(p, g, i, j, k) + [CellCentre(p, g, i, j, k)]
  {
    var col := Column(p, g, i, j);
    assert col[..k + 1] == col[..k] + [CellCentre(p, g, i, j, k)];
  }

  lemma PrefixNextColumn(p: Prism, g: Grid, i: nat, j: nat)
    requires ValidGrid(g)
    ensures Prefix(p, g, i, j, g.nz) == Prefix(p, g, i, j + 1, 0)
  {
    var col := Column(p, g, i, j);
    assert col[..g.nz] == col;
    assert Column(p, g, i, j + 1)[..0] == [];
  }

  lemma PrefixNextSlab(p: Prism, g: Grid, i: nat)
    requires ValidGrid(g)
    ensures Prefix(p, g, i, g.ny, 0) == Prefix(p, g, i + 1, 0, 0)
  {
    assert Column(p, g, i, g.ny)[..0] == [];
    assert Column(p, g, i + 1, 0)[..0] == [];
  }

  lemma PrefixStart(p: Prism, g: Grid)
    requires ValidGrid(g)
    ensures Prefix(p, g, 0, 0, 0) == []
    ensures Prefix(p, g, g.nx, 0, 0) == Rows(p, g, g.nx)
  {
    assert Column(p, g, 0, 0)[..0] == [];
    assert Column(p, g, g.nx, 0)[..0] == [];
  }

  /** The packer of one rectangle of the cross (the x_start, y_start form). */
  method PackRectangle(xStart: real, yStart: real, width: real, depth: real, height: real,
                       diameter: real) returns (centres: seq<Point3>)
    requires diameter > 0.0
    ensures centres == Centres(Prism(xStart, yStart, width, depth, height), diameter)
  {
    var nx := CellCount(width, diameter);
    var ny := CellCount(depth, diameter);
    var nz := CellCount(height, diameter);
    ghost var p := Prism(xStart, yStart, width, depth, height);
    ghost var g := Grid(nx, ny, nz);
    PrefixStart(p, g);
    centres := [];
    for i := 0 to nx
      invariant centres == Prefix(p, g, i, 0, 0)
    {
      for j := 0 to ny
        invariant centres == Prefix(p, g, i, j, 0)
      {
        for k := 0 to nz
          invariant centres == Prefix(p, g, i, j, k)
        {
          var x := xStart + (i as real + 0.5) * (width / nx as real);
          var y := yStart + (j as real + 0.5) * (depth / ny as real);
          var z := (k as real + 0.5) * (height / nz as real);
          CellCentreFormula(xStart, yStart, width, depth, height, nx, ny, nz, i, j, k);
          PrefixStep(p, g, i, j, k);
          centres := centres + [Point3(x, y, z)];
        }
        PrefixNextColumn(p, g, i, j);
      }
      PrefixNextSlab(p, g, i);
    }
  }

  function Xs(s: seq<Point3>): seq<real> { seq(|s|, q requires 0 <= q < |s| => s[q].x) }
  function Ys(s: seq<Point3>): seq<real> { seq(|s|, q requires 0 <= q < |s| => s[q].y) }
  function Zs(s: seq<Point3>): seq<real> { seq(|s|, q requires 0 <= q < |s| => s[q].z) }

  /** The box packer, which keeps the three coordinates in three parallel lists and places
      the box at the origin. */
  method PackBox(width: real, depth: real, height: real, diameter: real)
    returns (xs: seq<real>, ys: seq<real>, zs: seq<real>)
    requires diameter > 0.0
    ensures Projected(xs, ys, zs, Centres(Prism(0.0, 0.0, width, depth, height), diameter))
  {
    var nx := CellCount(width, diameter);
    var ny := CellCount(depth, diameter);
    var nz := CellCount(height, diameter);
    ghost var p := Prism(0.0, 0.0, width, depth, height);
    ghost var g := Grid(nx, ny, nz);
    PrefixStart(p, g);
    xs, ys, zs := [], [], [];
    for i := 0 to nx
      invariant Projected(xs, ys, zs, Prefix(p, g, i, 0, 0))
    {
      for j := 0 to ny
        invariant Projected(xs, ys, zs, Prefix(p, g, i, j, 0))
      {
        for k := 0 to nz
          invariant Projected(xs, ys, zs, Prefix(p, g, i, j, k))
        {
          var x := (i as real + 0.5) * (width / nx as real);
          var y := (j as real + 0.5) * (depth / ny as real);
          var z := (k as real + 0.5) * (height / nz as real);
          CellCentreFormula(0.0, 0.0, width, depth, height, nx, ny, nz, i, j, k);
          ProjectedStep(p, g, i, j, k, xs, ys, zs, Point3(x, y, z));
          xs, ys, zs := xs + [x], ys + [y], zs + [z];
        }
        PrefixNextColumn(p, g, i, j);
      }
      PrefixNextSlab(p, g, i);
    }
  }

  /** xs, ys and zs are the three coordinate lists of the centres c. */
  predicate Projected(xs: seq<real>, ys: seq<real>, zs: seq<real>, c: seq<Point3>) {
    xs == Xs(c) && ys == Ys(c) && zs == Zs(c)
  }

  /** Appending the coordinates of the centre of cell (i, j, k) to the lists of the prefix
      before it gives the lists of the prefix after it. */
  lemma ProjectedStep(p: Prism, g: Grid, i: nat, j: nat, k: nat,
                      xs: seq<real>, ys: seq<real>, zs: seq<real>, c: Point3)
    requires ValidGrid(g) && k < g.nz
    requires Projected(xs, ys, zs, Prefix(p, g, i, j, k))
    requires c == CellCentre(p, g, i, j, k)
    ensures Projected(xs + [c.x], ys + [c.y], zs + [c.z], Prefix(p, g, i, j, k + 1))
  {
    PrefixStep(p, g, i, j, k);
    ProjectionsAppend(Prefix(p, g, i, j, k), c);
  }

  lemma ProjectionsAppend(s: seq<Point3>, c: Point3)
    ensures Xs(s + [c]) == Xs(s) + [c.x]
    ensures Ys(s + [c]) == Ys(s) + [c.y]
    ensures Zs(s + [c]) == Zs(s) + [c.z]
  {
  }

  /** The overlap warning of the box scenario: some cell is narrower than a diameter. */
  predicate OverlapWarning(width: real, depth: real, height: real, diameter: real)
    requires diameter > 0.0
  {
    width / (CellCount(width, diameter) as real) < diameter ||
    depth / (CellCount(depth, diameter) as real) < diameter ||
    height / (CellCount(height, diameter) as real) < diameter
  }

  /** One axis: its cell is narrower than a diameter exactly when the extent is. */
  lemma CellNarrowIff(extent: real, diameter: real)
    requires diameter > 0.0
    ensures extent / (CellCount(extent, diameter) as real) < diameter <==> extent < diameter
  {
    if extent >= diameter {
      CellCountMaximal(extent, diameter);
    } else {
      CellCountFits(extent, diameter);
    }
  }

  /** The overlap warning fires exactly when some extent is below one diameter. */
  lemma OverlapWarningIff(width: real, depth: real, height: real, diameter: real)
    requires diameter > 0.0
    ensures OverlapWarning(width, depth, height, diameter) <==>
            (width < diameter || depth < diameter || height < diameter)
  {
    CellNarrowIff(width, diameter);
    CellNarrowIff(depth, diameter);
    CellNarrowIff(height, diameter);
  }
}
