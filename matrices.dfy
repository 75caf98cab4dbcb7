/**
  The 4x4 matrix of src/matrix44.cpp. Storage is `float _data[16]` in
  column-major order: entry `4 * column + row`, so entries 12, 13 and 14
  hold the translation. The values are modelled over reals as `Mat`
  (a sequence of sixteen entries) with one function per operation, and the
  class `Matrix44` keeps the sixteen entries in an array that its methods
  update in place exactly as the source does.
 */
module Matrices {
  import opened Vectors

  type Mat = m: seq<real> | |m| == 16 witness Zero16()

  function Zero16(): seq<real>
  {
    seq(16, _ => 0.0)
  }

  /** A rotation quaternion (x, y, z, w), include/quaternion.h. */
  datatype Quaternion = Quaternion(x: real, y: real, z: real, w: real)

  /** `Quaternion::identity`. */
  const IdentityQuat := Quaternion(0.0, 0.0, 0.0, 1.0)

  /** `setIdentity`, also `Matrix44::identity`. */
  const IdentityMat: Mat := [1.0, 0.0, 0.0, 0.0,
                             0.0, 1.0, 0.0, 0.0,
                             0.0, 0.0, 1.0, 0.0,
                             0.0, 0.0, 0.0, 1.0]

  /** `setPosition`: overwrite the translation entries. */
  function WithPosition(m: Mat, p: Vector3): Mat
  {
    m[12 := p.x][13 := p.y][14 := p.z]
  }

  /** `scale`: multiply the first three columns, all four rows of each,
      by the scale factors. */
  function Scaled(m: Mat, s: Vector3): Mat
  {
    [m[0] * s.x, m[1] * s.x, m[2] * s.x, m[3] * s.x,
     m[4] * s.y, m[5] * s.y, m[6] * s.y, m[7] * s.y,
     m[8] * s.z, m[9] * s.z, m[10] * s.z, m[11] * s.z,
     m[12], m[13], m[14], m[15]]
  }

  /** `setRotation`: the rotation matrix of a quaternion; every entry is
      written. */
  function RotationMat(q: Quaternion): Mat
  {
    var x2, y2, z2 := q.x + q.x, q.y + q.y, q.z + q.z;
    var xx, xy, xz := q.x * x2, q.x * y2, q.x * z2;
    var yy, yz, zz := q.y * y2, q.y * z2, q.z * z2;
    var wx, wy, wz := q.w * x2, q.w * y2, q.w * z2;
    [1.0 - (yy + zz), xy + wz, xz - wy, 0.0,
     xy - wz, 1.0 - (xx + zz), yz + wx, 0.0,
     xz + wy, yz - wx, 1.0 - (xx + yy), 0.0,
     0.0, 0.0, 0.0, 1.0]
  }

  /** `compose(position, rotation, scale)`: rotation, then scale, then
      position. Every entry is overwritten, so the result does not depend on
      what the matrix held before. */
  function ComposeMat(p: Vector3, q: Quaternion, s: Vector3): Mat
  {
    WithPosition(Scaled(RotationMat(q), s), p)
  }

  /** `operator*(Matrix44)`: the product `a * b` of column-major matrices. */
  function Product(a: Mat, b: Mat): Mat
  {
    [a[0] * b[0] + a[4] * b[1] + a[8] * b[2] + a[12] * b[3],
     a[1] * b[0] + a[5] * b[1] + a[9] * b[2] + a[13] * b[3],
     a[2] * b[0] + a[6] * b[1] + a[10] * b[2] + a[14] * b[3],
     a[3] * b[0] + a[7] * b[1] + a[11] * b[2] + a[15] * b[3],
     a[0] * b[4] + a[4] * b[5] + a[8] * b[6] + a[12] * b[7],
     a[1] * b[4] + a[5] * b[5] + a[9] * b[6] + a[13] * b[7],
     a[2] * b[4] + a[6] * b[5] + a[10] * b[6] + a[14] * b[7],
     a[3] * b[4] + a[7] * b[5] + a[11] * b[6] + a[15] * b[7],
     a[0] * b[8] + a[4] * b[9] + a[8] * b[10] + a[12] * b[11],
     a[1] * b[8] + a[5] * b[9] + a[9] * b[10] + a[13] * b[11],
     a[2] * b[8] + a[6] * b[9] + a[10] * b[10] + a[14] * b[11],
     a[3] * b[8] + a[7] * b[9] + a[11] * b[10] + a[15] * b[11],
     a[0] * b[12] + a[4] * b[13] + a[8] * b[14] + a[12] * b[15],
     a[1] * b[12] + a[5] * b[13] + a[9] * b[14] + a[13] * b[15],
     a[2] * b[12] + a[6] * b[13] + a[10] * b[14] + a[14] * b[15],
     a[3] * b[12] + a[7] * b[13] + a[11] * b[14] + a[15] * b[15]]
  }

  /** The homogeneous coordinate that `operator*(Vector3)` divides by. */
  function PointW(m: Mat, v: Vector3): real
  {
    m[3] * v.x + m[7] * v.y + m[11] * v.z + m[15]
  }

  /** `operator*(Vector3)`: transform the point (x, y, z, 1) and divide by
      its w; the source divides unconditionally, so the model asks for a
      non-zero w. */
  function TransformPoint(m: Mat, v: Vector3): Vector3
    requires PointW(m, v) != 0.0
  {
    Div(Vector3(m[0] * v.x + m[4] * v.y + m[8] * v.z + m[12],
                m[1] * v.x + m[5] * v.y + m[9] * v.z + m[13],
                m[2] * v.x + m[6] * v.y + m[10] * v.z + m[14]),
        PointW(m, v))
  }

  /** The sixteen cofactor numerators that `getInverse` multiplies by
      1/det, in storage order. */
  function Adjugate(m: Mat): Mat
  {
    var n11, n21, n31, n41 := m[0], m[1], m[2], m[3];
    var n12, n22, n32, n42 := m[4], m[5], m[6], m[7];
    var n13, n23, n33, n43 := m[8], m[9], m[10], m[11];
    var n14, n24, n34, n44 := m[12], m[13], m[14], m[15];
    [
      n23 * n34 * n42 - n24 * n33 * n42 + n24 * n32 * n43 - n22 * n34 * n43 - n23 * n32 * n44 + n22 * n33 * n44,
      n24 * n33 * n41 - n23 * n34 * n41 - n24 * n31 * n43 + n21 * n34 * n43 + n23 * n31 * n44 - n21 * n33 * n44,
      n22 * n34 * n41 - n24 * n32 * n41 + n24 * n31 * n42 - n21 * n34 * n42 - n22 * n31 * n44 + n21 * n32 * n44,
      n23 * n32 * n41 - n22 * n33 * n41 - n23 * n31 * n42 + n21 * n33 * n42 + n22 * n31 * n43 - n21 * n32 * n43,
      n14 * n33 * n42 - n13 * n34 * n42 - n14 * n32 * n43 + n12 * n34 * n43 + n13 * n32 * n44 - n12 * n33 * n44,
      n13 * n34 * n41 - n14 * n33 * n41 + n14 * n31 * n43 - n11 * n34 * n43 - n13 * n31 * n44 + n11 * n33 * n44,
      n14 * n32 * n41 - n12 * n34 * n41 - n14 * n31 * n42 + n11 * n34 * n42 + n12 * n31 * n44 - n11 * n32 * n44,
      n12 * n33 * n41 - n13 * n32 * n41 + n13 * n31 * n42 - n11 * n33 * n42 - n12 * n31 * n43 + n11 * n32 * n43,
      n13 * n24 * n42 - n14 * n23 * n42 + n14 * n22 * n43 - n12 * n24 * n43 - n13 * n22 * n44 + n12 * n23 * n44,
      n14 * n23 * n41 - n13 * n24 * n41 - n14 * n21 * n43 + n11 * n24 * n43 + n13 * n21 * n44 - n11 * n23 * n44,
      n12 * n24 * n41 - n14 * n22 * n41 + n14 * n21 * n42 - n11 * n24 * n42 - n12 * n21 * n44 + n11 * n22 * n44,
      n13 * n22 * n41 - n12 * n23 * n41 - n13 * n21 * n42 + n11 * n23 * n42 + n12 * n21 * n43 - n11 * n22 * n43,
      n14 * n23 * n32 - n13 * n24 * n32 - n14 * n22 * n33 + n12 * n24 * n33 + n13 * n22 * n34 - n12 * n23 * n34,
      n13 * n24 * n31 - n14 * n23 * n31 + n14 * n21 * n33 - n11 * n24 * n33 - n13 * n21 * n34 + n11 * n23 * n34,
      n14 * n22 * n31 - n12 * n24 * n31 - n14 * n21 * n32 + n11 * n24 * n32 + n12 * n21 * n34 - n11 * n22 * n34,
      n12 * n23 * n31 - n13 * n22 * n31 + n13 * n21 * n32 - n11 * n23 * n32 - n12 * n21 * n33 + n11 * n22 * n33
    ]
  }

  /** The determinant as `getInverse` computes it:
      n11*t11 + n21*t12 + n31*t13 + n41*t14. */
  function Det(m: Mat): real
  {
    var t := Adjugate(m);
    m[0] * t[0] + m[1] * t[4] + m[2] * t[8] + m[3] * t[12]
  }

  /** The entries `getInverse` writes when the determinant is not zero. */
  function InverseEntries(m: Mat): Mat
    requires Det(m) != 0.0
  {
    var t, detInv := Adjugate(m), 1.0 / Det(m);
    seq(16, i requires 0 <= i < 16 => t[i] * detInv)
  }

  /** `makePerspective` with `f = 1 / tan(fov / 2)` supplied as a number
      (the tangent is not modelled). The source divides by the aspect ratio
      and by `zNear - zFar`. */
  function PerspectiveMat(f: real, aspect: real, zNear: real, zFar: real): Mat
    requires aspect != 0.0 && zNear != zFar
  {
    var invRange := 1.0 / (zNear - zFar);
    var a := (zFar + zNear) * invRange;
    var b := (zNear * zFar * 2.0) * invRange;
    [f / aspect, 0.0, 0.0, 0.0,
     0.0, f, 0.0, 0.0,
     0.0, 0.0, a, -1.0,
     0.0, 0.0, b, 0.0]
  }

  /** The identity has ones exactly on the diagonal (indices 0, 5, 10, 15). */
  lemma IdentityPattern(i: int)
    requires 0 <= i < 16
    ensures IdentityMat[i] == if i % 5 == 0 then 1.0 else 0.0
  {
  }

  /** `setPosition` writes indices 12, 13, 14 and leaves the other thirteen. */
  lemma WithPositionIsLocal(m: Mat, p: Vector3)
    ensures WithPosition(m, p)[12] == p.x && WithPosition(m, p)[13] == p.y && WithPosition(m, p)[14] == p.z
    ensures forall i :: 0 <= i < 12 || i == 15 ==> WithPosition(m, p)[i] == m[i]
  {
  }

  /** `scale` multiplies column 0 by x, column 1 by y, column 2 by z and
      leaves the translation column. */
  lemma ScaledByColumn(m: Mat, s: Vector3)
    ensures forall i :: 0 <= i < 4 ==> Scaled(m, s)[i] == m[i] * s.x
    ensures forall i :: 4 <= i < 8 ==> Scaled(m, s)[i] == m[i] * s.y
    ensures forall i :: 8 <= i < 12 ==> Scaled(m, s)[i] == m[i] * s.z
    ensures forall i :: 12 <= i < 16 ==> Scaled(m, s)[i] == m[i]
  {
    var r := Scaled(m, s);
    forall i | 0 <= i < 16
      ensures r[i] == (if i < 4 then m[i] * s.x else if i < 8 then m[i] * s.y else if i < 12 then m[i] * s.z else m[i])
    {
      if i < 4 {
        assert i == 0 || i == 1 || i == 2 || i == 3;
      } else if i < 8 {
        assert i == 4 || i == 5 || i == 6 || i == 7;
      } else if i < 12 {
        assert i == 8 || i == 9 || i == 10 || i == 11;
      } else {
        assert i == 12 || i == 13 || i == 14 || i == 15;
      }
    }
  }

  /** Whatever the quaternion, `setRotation` leaves an affine matrix with no
      translation; the identity quaternion gives the identity matrix. */
  lemma RotationIsLinearPart(q: Quaternion)
    ensures var r := RotationMat(q);
      r[3] == 0.0 && r[7] == 0.0 && r[11] == 0.0 &&
      r[12] == 0.0 && r[13] == 0.0 && r[14] == 0.0 && r[15] == 1.0
    ensures RotationMat(IdentityQuat) == IdentityMat
  {
  }

  /** After `compose`, index 15 is 1, indices 12-14 are the position, and
      the bottom row of the linear part is zero. */
  lemma ComposeIsAffine(p: Vector3, q: Quaternion, s: Vector3)
    ensures var c := ComposeMat(p, q, s);
      c[12] == p.x && c[13] == p.y && c[14] == p.z && c[15] == 1.0 &&
      c[3] == 0.0 && c[7] == 0.0 && c[11] == 0.0
  {
  }

  /** The translation matrix: the identity with position `p`. */
  function Translation(p: Vector3): Mat
  {
    WithPosition(IdentityMat, p)
  }

  /** `compose` with the identity rotation and unit scale is the pure
      translation. */
  lemma ComposeIdentityIsTranslation(p: Vector3)
    ensures ComposeMat(p, IdentityQuat, One) == Translation(p)
  {
    RotationIsLinearPart(IdentityQuat);
    assert Scaled(IdentityMat, One) == IdentityMat;
  }

  /** Multiplying by the identity on either side returns the other factor. */
  lemma ProductIdentity(m: Mat)
    ensures Product(IdentityMat, m) == m
    ensures Product(m, IdentityMat) == m
  {
  }

  /** Transformation by a product is transformation by each factor in turn,
      shown for the translations: composing translations adds them. */
  lemma TranslationsCompose(p: Vector3, q: Vector3)
    ensures Product(Translation(p), Translation(q)) == Translation(Add(p, q))
  {
  }

  /** The identity leaves a point where it is; a translation moves it. */
  lemma TransformPointByTranslation(p: Vector3, v: Vector3)
    ensures PointW(IdentityMat, v) == 1.0 && TransformPoint(IdentityMat, v) == v
    ensures PointW(Translation(p), v) == 1.0 && TransformPoint(Translation(p), v) == Add(v, p)
  {
  }

  /** The identity is its own inverse. */
  lemma InverseOfIdentity()
    ensures Det(IdentityMat) == 1.0
    ensures InverseEntries(IdentityMat) == IdentityMat
  {
    assert Adjugate(IdentityMat) == IdentityMat;
  }

  /** Inverting a translation by `p` gives the translation by `-p`, and the
      two multiply to the identity. */
  lemma InverseOfTranslation(p: Vector3)
    ensures Det(Translation(p)) == 1.0
    ensures InverseEntries(Translation(p)) == Translation(Scale(p, -1.0))
    ensures Product(Translation(p), InverseEntries(Translation(p))) == IdentityMat
  {
    assert Adjugate(Translation(p)) == Translation(Scale(p, -1.0));
  }

  /** `makePerspective` has the fixed zero pattern of a right-handed
      projection, -1 at index 11 and 0 at index 15. */
  lemma PerspectivePattern(f: real, aspect: real, zNear: real, zFar: real)
    requires aspect != 0.0 && zNear != zFar
    ensures var m := PerspectiveMat(f, aspect, zNear, zFar);
      m[11] == -1.0 && m[15] == 0.0 && m[5] == f && m[0] * aspect == f &&
      (forall i :: 0 <= i < 16 && i !in {0, 5, 10, 11, 14} ==> m[i] == 0.0)
  {
  }

  /** The projection sends the near plane (z = -zNear in view space) to
      depth -1 and the far plane (z = -zFar) to depth +1. */
  lemma PerspectiveDepthRange(f: real, aspect: real, zNear: real, zFar: real)
    requires aspect != 0.0 && zNear != zFar && zNear != 0.0 && zFar != 0.0
    ensures var m := PerspectiveMat(f, aspect, zNear, zFar);
      PointW(m, Vector3(0.0, 0.0, -zNear)) == zNear &&
      TransformPoint(m, Vector3(0.0, 0.0, -zNear)).z == -1.0 &&
      PointW(m, Vector3(0.0, 0.0, -zFar)) == zFar &&
      TransformPoint(m, Vector3(0.0, 0.0, -zFar)).z == 1.0
  {
    var m := PerspectiveMat(f, aspect, zNear, zFar);
    var d := zNear - zFar;
    var a, b := (zFar + zNear) / d, (zNear * zFar * 2.0) / d;
    assert m[10] == a && m[14] == b;
    assert a * -zNear + b == -zNear by {
      assert (zFar + zNear) * -zNear + zNear * zFar * 2.0 == -zNear * d;
    }
    assert a * -zFar + b == zFar by {
      assert (zFar + zNear) * -zFar + zNear * zFar * 2.0 == zFar * d;
    }
  }

  /** The object form: `_data` is a fixed array of sixteen floats. */
  class Matrix44 {
    const data: array<real>

    ghost predicate Valid()
    {
      data.Length == 16
    }

    /** The entries as a value. */
    ghost function Value(): Mat
      reads data
      requires Valid()
    {
      data[..]
    }

    /** `Matrix44 m;`: the entries are uninitialised in the source, so the
        model promises only the size. */
    constructor ()
      ensures Valid() && fresh(data)
    {
      data := new real[16];
    }

    method SetIdentity()
      requires Valid()
      modifies data
      ensures Value() == IdentityMat
    {
      forall i | 0 <= i < 16 {
        data[i] := if i % 5 == 0 then 1.0 else 0.0;
      }
      assert forall i | 0 <= i < 16 :: data[i] == IdentityMat[i] by {
        forall i | 0 <= i < 16 { IdentityPattern(i); }
      }
    }

    method SetPosition(p: Vector3)
      requires Valid()
      modifies data
      ensures Value() == WithPosition(old(Value()), p)
    {
      data[12] := p.x;
      data[13] := p.y;
      data[14] := p.z;
    }

    method Scale(s: Vector3)
      requires Valid()
      modifies data
      ensures Value() == Scaled(old(Value()), s)
    {
      var r := Scaled(data[..], s);
      forall i | 0 <= i < 12 {
        data[i] := r[i];
      }
    }

    /** Every entry is overwritten with the quaternion's rotation matrix. */
    method SetRotation(q: Quaternion)
      requires Valid()
      modifies data
      ensures Value() == RotationMat(q)
    {
      var r := RotationMat(q);
      forall i | 0 <= i < 16 {
        data[i] := r[i];
      }
    }

    method Compose(p: Vector3, q: Quaternion, s: Vector3)
      requires Valid()
      modifies data
      ensures Value() == ComposeMat(p, q, s)
    {
      SetRotation(q);
      Scale(s);
      SetPosition(p);
    }

    /** `operator*(Matrix44)`: a fresh matrix holding `this * other`. */
    method Times(other: Matrix44) returns (out: Matrix44)
      requires Valid() && other.Valid()
      ensures out.Valid() && fresh(out.data)
      ensures out.Value() == Product(Value(), other.Value())
    {
      var r := Product(data[..], other.data[..]);
      out := new Matrix44();
      forall i | 0 <= i < 16 {
        out.data[i] := r[i];
      }
    }

    /** `operator*(Vector3)`. */
    method TimesPoint(v: Vector3) returns (r: Vector3)
      requires Valid() && PointW(Value(), v) != 0.0
      ensures r == TransformPoint(Value(), v)
    {
      var x, y, z := v.x, v.y, v.z;
      var w := data[3] * x + data[7] * y + data[11] * z + data[15];
      r := Div(Vector3(data[0] * x + data[4] * y + data[8] * z + data[12],
                       data[1] * x + data[5] * y + data[9] * z + data[13],
                       data[2] * x + data[6] * y + data[10] * z + data[14]), w);
    }

    /** `getInverse(out)`: all entries are read before any is written, so
        `out` may be this matrix itself. On a zero determinant `out` is left
        as it was. */
    method GetInverse(out: Matrix44) returns (ok: bool)
      requires Valid() && out.Valid()
      modifies out.data
      ensures ok <==> Det(old(Value())) != 0.0
      ensures ok ==> out.Value() == InverseEntries(old(Value()))
      ensures !ok ==> out.Value() == old(out.Value())
    {
      var me := data[..];
      if Det(me) == 0.0 {
        return false;
      }
      var te := InverseEntries(me);
      forall i | 0 <= i < 16 {
        out.data[i] := te[i];
      }
      return true;
    }

    /** `makePerspective`: a fresh projection matrix. */
    static method MakePerspective(f: real, aspect: real, zNear: real, zFar: real) returns (out: Matrix44)
      requires aspect != 0.0 && zNear != zFar
      ensures out.Valid() && fresh(out.data)
      ensures out.Value() == PerspectiveMat(f, aspect, zNear, zFar)
    {
      var r := PerspectiveMat(f, aspect, zNear, zFar);
      out := new Matrix44();
      forall i | 0 <= i < 16 {
        out.data[i] := r[i];
      }
    }
  }
}
