/** Values shared by every component: points, prisms, quadrilaterals, segments, and the
    error kinds the boundary of a scenario reports. */
module Geometry {

  /** A point of the 3D scene (x to the right, y in depth, z up). */
  datatype Point3 = Point3(x: real, y: real, z: real)

  /** An axis-aligned prism standing on the floor z = 0: its lower-left corner (x, y),
      its extent along x (width), along y (depth) and along z (height).  The source never
      offsets a prism in z. */
  datatype Prism = Prism(x: real, y: real, width: real, depth: real, height: real)

  /** A polygon handed to the renderer (a wall panel or a floor tile). */
  type Quad = seq<Point3>

  /** A straight line piece of a wireframe. */
  datatype Segment = Segment(from: Point3, to: Point3)

  /** Hard errors of a scenario: a non-positive required scalar, or a wall thickness that
      leaves no inner rectangle. */
  datatype Error = InvalidDimension | InvalidWallThickness

  datatype Result<T> = Ok(value: T) | Err(error: Error)

  function Min(a: real, b: real): real { if a <= b then a else b }

  function Max(a: real, b: real): real { if a <= b then b else a }

  function MaxInt(a: int, b: int): int { if a <= b then b else a }

  predicate PositiveExtents(p: Prism) {
    p.width > 0.0 && p.depth > 0.0 && p.height > 0.0
  }

  function PrismVolume(p: Prism): real { p.width * p.depth * p.height }

  /** The four corners of the prism's footprint at z = 0, counter-clockwise from (x, y). */
  function BaseRectangle(p: Prism): Quad {
    [Point3(p.x, p.y, 0.0), Point3(p.x + p.width, p.y, 0.0),
     Point3(p.x + p.width, p.y + p.depth, 0.0), Point3(p.x, p.y + p.depth, 0.0)]
  }

  /** Twice the signed area, by the shoelace formula, of a closed loop projected on z = 0:
      the sum of the cross products of the first k edges ps[i] -> ps[(i + 1) % |ps|]. */
  function ShoelaceSum(ps: seq<Point3>, k: nat): real
    requires k <= |ps|
  {
    if k == 0 then 0.0
    else ShoelaceSum(ps, k - 1) + Cross2(ps[k - 1], ps[k % |ps|])
  }

  function Cross2(p: Point3, q: Point3): real { p.x * q.y - q.x * p.y }

  /** Signed area of the loop's projection; positive when it turns counter-clockwise in a
      frame with x to the right and y up. */
  function SignedArea(ps: seq<Point3>): real {
    ShoelaceSum(ps, |ps|) / 2.0
  }

  lemma BaseRectangleArea(p: Prism)
    ensures SignedArea(BaseRectangle(p)) == p.width * p.depth
  {
    var q := BaseRectangle(p);
    assert ShoelaceSum(q, 1) == Cross2(q[0], q[1]);
    assert ShoelaceSum(q, 2) == Cross2(q[0], q[1]) + Cross2(q[1], q[2]);
    assert ShoelaceSum(q, 3) == ShoelaceSum(q, 2) + Cross2(q[2], q[3]);
    assert ShoelaceSum(q, 4) == ShoelaceSum(q, 3) + Cross2(q[3], q[0]);
  }
}
