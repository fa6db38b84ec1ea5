/** Analytic volumes and the fill rate reported after packing (the statistics blocks of the
    box and cross scenarios).  The value of pi is not modelled: it is a parameter, and only
    pi > 0 is used. */
module Volumes {
  import opened Geometry

  function BoxVolume(width: real, depth: real, height: real): (v: real)
    requires width > 0.0 && depth > 0.0 && height > 0.0
    ensures v > 0.0
    ensures v == PrismVolume(Prism(0.0, 0.0, width, depth, height))
  {
    width * depth * height
  }

  /** Volume of the cross: the central block plus four arms of armWidth x armLength. */
  function CrossVolume(centralWidth: real, centralDepth: real, armWidth: real,
                       armLength: real, height: real): (v: real)
    ensures (centralWidth > 0.0 && centralDepth > 0.0 && armWidth > 0.0 && armLength > 0.0 &&
             height > 0.0) ==> v > centralWidth * centralDepth * height
    ensures v == PrismVolume(Prism(0.0, 0.0, centralWidth, centralDepth, height))
                 + 4.0 * PrismVolume(Prism(0.0, 0.0, armLength, armWidth, height))
  {
    var central := centralWidth * centralDepth * height;
    var arms := 4.0 * (armLength * armWidth * height);
    central + arms
  }

  function Cube(r: real): real { r * r * r }

  /** (4/3) * pi * r^3. */
  function SphereVolume(pi: real, radius: real): (v: real)
    requires pi > 0.0
    ensures radius > 0.0 ==> v > 0.0
    ensures 3.0 * v == 4.0 * pi * Cube(radius)
  {
    (4.0 / 3.0) * pi * Cube(radius)
  }

  /** Percentage of the container volume taken by `count` spheres of the given radius. */
  function FillRate(count: nat, pi: real, radius: real, containerVolume: real): (rate: real)
    requires pi > 0.0 && containerVolume > 0.0
    ensures rate * containerVolume == (count as real) * SphereVolume(pi, radius) * 100.0
  {
    ((count as real) * SphereVolume(pi, radius) / containerVolume) * 100.0
  }

  /** The statistics block both packing scenarios report: container volume, volume of one
      sphere, volume of all spheres and fill rate in percent. */
  datatype Stats = Stats(containerVolume: real, sphereVolume: real, totalSphereVolume: real,
                         fillRate: real)

  function MakeStats(count: nat, pi: real, radius: real, containerVolume: real): (s: Stats)
    requires pi > 0.0 && containerVolume > 0.0
    ensures s.totalSphereVolume == (count as real) * s.sphereVolume
    ensures s.fillRate * s.containerVolume == s.totalSphereVolume * 100.0
    ensures 3.0 * s.sphereVolume == 4.0 * pi * Cube(radius)
  {
    Stats(containerVolume, SphereVolume(pi, radius), (count as real) * SphereVolume(pi, radius),
          FillRate(count, pi, radius, containerVolume))
  }

  /** For a fixed radius and container, more spheres give a strictly higher fill rate. */
  lemma FillRateStrictlyIncreasing(m: nat, n: nat, pi: real, radius: real, containerVolume: real)
    requires pi > 0.0 && radius > 0.0 && containerVolume > 0.0
    requires m < n
    ensures FillRate(m, pi, radius, containerVolume) < FillRate(n, pi, radius, containerVolume)
  {
    var s := SphereVolume(pi, radius);
    assert (m as real) * s < (n as real) * s;
    var a := FillRate(m, pi, radius, containerVolume);
    var b := FillRate(n, pi, radius, containerVolume);
    assert a * containerVolume < b * containerVolume;
  }

  /** Worked example of the cross statistics: 4 x 4 central block, 2 x 3 arms, height 5. */
  lemma CrossVolumeExample()
    ensures CrossVolume(4.0, 4.0, 2.0, 3.0, 5.0) == 200.0
  {
  }
}
