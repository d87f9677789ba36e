/** Cartesian positions and squared distances, accumulated coordinate by coordinate
    (x, then y, then z) as the source's `for j in range(3)` loops do. */
module Geometry {

  datatype Vec3 = Vec3(x: real, y: real, z: real)

  const Origin: Vec3 := Vec3(0.0, 0.0, 0.0)

  /** Coordinate c (0 = x, 1 = y, 2 = z). */
  function Component(v: Vec3, c: nat): real
    requires c < 3
  {
    if c == 0 then v.x else if c == 1 then v.y else v.z
  }

  function Sq(t: real): real { t * t }

  /** k v (a numpy vector times a scalar). */
  function ScaleVec(v: Vec3, k: real): Vec3 {
    Vec3(v.x * k, v.y * k, v.z * k)
  }

  /** Sum over the first c coordinates of (a_j - b_j)^2. */
  function PartialSqDist(a: Vec3, b: Vec3, c: nat): real
    requires c <= 3
  {
    if c == 0 then 0.0 else PartialSqDist(a, b, c - 1) + Sq(Component(a, c - 1) - Component(b, c - 1))
  }

  function SqDist(a: Vec3, b: Vec3): real {
    PartialSqDist(a, b, 3)
  }

  /** The squared distance is symmetric and non-negative. */
  lemma SqDistProperties(a: Vec3, b: Vec3)
    ensures SqDist(a, b) == SqDist(b, a)
    ensures SqDist(a, b) >= 0.0
  {
    var dx, dy, dz := a.x - b.x, a.y - b.y, a.z - b.z;
    assert PartialSqDist(a, b, 1) == Sq(dx);
    assert PartialSqDist(a, b, 2) == Sq(dx) + Sq(dy);
    assert SqDist(a, b) == Sq(dx) + Sq(dy) + Sq(dz);
    assert PartialSqDist(b, a, 1) == Sq(-dx);
    assert PartialSqDist(b, a, 2) == Sq(-dx) + Sq(-dy);
    assert SqDist(b, a) == Sq(-dx) + Sq(-dy) + Sq(-dz);
    assert Sq(dx) >= 0.0 && Sq(dy) >= 0.0 && Sq(dz) >= 0.0;
  }
}
