/**
  The real-valued vector support types. `Vector3` is the class of
  include/vector3.h; in C++ it is a value type (every assignment, argument and
  return copies it), so an in-place setter on a variable is the same as
  replacing the variable by the updated value, which is how the setters are
  written here. `Vector2` and `Vector4` are the texture-coordinate and
  homogeneous-point records the renderer passes around.
 */
module Vectors {

  datatype Vector3 = Vector3(x: real, y: real, z: real)

  datatype Vector2 = Vector2(x: real, y: real)

  /** A homogeneous point: the `xyz` part and `w`. */
  datatype Vector4 = Vector4(xyz: Vector3, w: real)

  const Zero := Vector3(0.0, 0.0, 0.0)
  const One := Vector3(1.0, 1.0, 1.0)

  /** `Vector3::set(x, y, z)`: overwrites all three components. */
  function Set(v: Vector3, x: real, y: real, z: real): (r: Vector3)
  {
    Vector3(x, y, z)
  }

  /** The one-argument setters `x(f)`, `y(f)`, `z(f)`. */
  function WithX(v: Vector3, f: real): Vector3 { v.(x := f) }
  function WithY(v: Vector3, f: real): Vector3 { v.(y := f) }
  function WithZ(v: Vector3, f: real): Vector3 { v.(z := f) }

  /** `set` stores exactly the given components, whatever the vector held. */
  lemma SetStores(v: Vector3, x: real, y: real, z: real)
    ensures Set(v, x, y, z).x == x && Set(v, x, y, z).y == y && Set(v, x, y, z).z == z
    ensures Set(v, x, y, z) == Set(Zero, x, y, z)
  {
  }

  /** Each one-argument setter changes its own component and no other. */
  lemma SettersAreLocal(v: Vector3, f: real)
    ensures WithX(v, f).x == f && WithX(v, f).y == v.y && WithX(v, f).z == v.z
    ensures WithY(v, f).y == f && WithY(v, f).x == v.x && WithY(v, f).z == v.z
    ensures WithZ(v, f).z == f && WithZ(v, f).x == v.x && WithZ(v, f).y == v.y
  {
  }

  function Dot(a: Vector3, b: Vector3): real
  {
    a.x * b.x + a.y * b.y + a.z * b.z
  }

  /** `v * f`. */
  function Scale(v: Vector3, f: real): Vector3
  {
    Vector3(v.x * f, v.y * f, v.z * f)
  }

  /** `a - b`. */
  function Sub(a: Vector3, b: Vector3): Vector3
  {
    Vector3(a.x - b.x, a.y - b.y, a.z - b.z)
  }

  /** `a + b` (used by the frustum construction). */
  function Add(a: Vector3, b: Vector3): Vector3
  {
    Vector3(a.x + b.x, a.y + b.y, a.z + b.z)
  }

  /** `v / f`, computed as `v * (1 / f)`; the source never divides by zero. */
  function Div(v: Vector3, f: real): (r: Vector3)
    requires f != 0.0
    ensures Scale(r, f) == v
  {
    Scale(v, 1.0 / f)
  }

  lemma DotSymmetric(a: Vector3, b: Vector3)
    ensures Dot(a, b) == Dot(b, a)
  {
  }

  lemma DotSelfNonNegative(v: Vector3)
    ensures Dot(v, v) >= 0.0
  {
    assert v.x * v.x >= 0.0 && v.y * v.y >= 0.0 && v.z * v.z >= 0.0;
  }

  /** The dot product is linear in its first argument. */
  lemma DotLinear(a: Vector3, b: Vector3, s: real, t: real, c: Vector3)
    ensures Dot(Add(Scale(a, s), Scale(b, t)), c) == s * Dot(a, c) + t * Dot(b, c)
  {
    calc {
      Dot(Add(Scale(a, s), Scale(b, t)), c);
      (a.x * s + b.x * t) * c.x + (a.y * s + b.y * t) * c.y + (a.z * s + b.z * t) * c.z;
      s * (a.x * c.x + a.y * c.y + a.z * c.z) + t * (b.x * c.x + b.y * c.y + b.z * c.z);
    }
  }

  lemma SubSelfIsZero(a: Vector3)
    ensures Sub(a, a) == Zero
  {
  }

  /** Subtraction undoes addition and scaling distributes over it. */
  lemma SubAddCancel(a: Vector3, b: Vector3)
    ensures Sub(Add(a, b), a) == b && Add(a, Sub(b, a)) == b
  {
  }

  lemma ScaleComponents(v: Vector3, f: real)
    ensures Scale(v, f).x == v.x * f && Scale(v, f).y == v.y * f && Scale(v, f).z == v.z * f
    ensures Scale(v, 1.0) == v && Scale(v, 0.0) == Zero
  {
  }

  lemma DivIsScaleByInverse(v: Vector3, f: real)
    requires f != 0.0
    ensures Div(v, f) == Scale(v, 1.0 / f)
    ensures Div(Scale(v, f), f) == v
  {
    var s := Scale(v, f);
    assert Div(s, f) == Vector3(v.x * f * (1.0 / f), v.y * f * (1.0 / f), v.z * f * (1.0 / f));
  }
}
