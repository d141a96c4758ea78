// Three-component vectors over the reals, standing in for Unity's Vector3.
module Vectors {

  datatype Vec3 = Vec3(x: real, y: real, z: real)

  const Zero := Vec3(0.0, 0.0, 0.0)

  function Add(a: Vec3, b: Vec3): Vec3 {
    Vec3(a.x + b.x, a.y + b.y, a.z + b.z)
  }

  function Sub(a: Vec3, b: Vec3): Vec3 {
    Vec3(a.x - b.x, a.y - b.y, a.z - b.z)
  }

  function Scale(k: real, v: Vec3): Vec3 {
    Vec3(k * v.x, k * v.y, k * v.z)
  }

  function Dot(a: Vec3, b: Vec3): real {
    a.x * b.x + a.y * b.y + a.z * b.z
  }

  /** A direction of length one; `Normalize` leaves such a vector unchanged. */
  predicate IsUnit(v: Vec3) {
    Dot(v, v) == 1.0
  }

  /** Moving a point that lies `a` along `v` from `base` by a further `b` along `v`
    * leaves it `a + b` along `v` from `base`. */
  lemma AddScaled(base: Vec3, a: real, b: real, v: Vec3, p: Vec3)
    requires p == Add(base, Scale(a, v))
    ensures Add(p, Scale(b, v)) == Add(base, Scale(a + b, v))
  {
    assert (a + b) * v.x == a * v.x + b * v.x;
    assert (a + b) * v.y == a * v.y + b * v.y;
    assert (a + b) * v.z == a * v.z + b * v.z;
  }

  /** The offset between two points of a line along a unit vector `u`, read back by the dot product. */
  lemma DotAlongUnit(base: Vec3, a: real, b: real, u: Vec3)
    requires IsUnit(u)
    ensures Dot(Sub(Add(base, Scale(a, u)), Add(base, Scale(b, u))), u) == a - b
  {
    var d := Sub(Add(base, Scale(a, u)), Add(base, Scale(b, u)));
    assert d == Scale(a - b, u) by {
      assert (a - b) * u.x == a * u.x - b * u.x;
      assert (a - b) * u.y == a * u.y - b * u.y;
      assert (a - b) * u.z == a * u.z - b * u.z;
    }
    assert Dot(Scale(a - b, u), u) == (a - b) * Dot(u, u);
  }

  /** Moving by zero along any vector stays put. */
  lemma AddZeroScale(base: Vec3, v: Vec3)
    ensures Add(base, Scale(0.0, v)) == base
  {
  }
}
