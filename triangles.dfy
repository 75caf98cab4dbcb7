/**
  The inside test of the triangle rasteriser (`Triangle::getBarycentricCoords`
  and `Triangle::contains` in src/main.cpp). Only the three vertex positions
  take part, so the functions are stated over three points `a`, `b`, `c`.
  The coordinates are the 3D barycentric coordinates of the projection of
  `p` onto the plane of the triangle: `(v, w)` solve the 2x2 normal equations
  of `p - a` in the edge basis `b - a`, `c - a`, and `u = 1 - v - w`.
 */
module Triangles {
  import opened Numeric
  import opened Vectors

  /** The boolean result and the `out` vector after the call. */
  datatype Bary = Bary(found: bool, coords: Vector3)

  /** The Gram determinant `d00 * d11 - d01 * d01` of the two edges; it
      depends on the triangle only, not on the query point. */
  function BaryDet(a: Vector3, b: Vector3, c: Vector3): real
  {
    var v0, v1 := Sub(b, a), Sub(c, a);
    Gram(Dot(v0, v0), Dot(v0, v1), Dot(v1, v1))
  }

  /** The determinant of the symmetric matrix `[d00 d01; d01 d11]`. */
  function Gram(d00: real, d01: real, d11: real): real
  {
    d00 * d11 - d01 * d01
  }

  /** `(v, w)` solve the normal equations of `p - a` in the edge basis: the
      component of `p - a` in the plane equals `v * (b - a) + w * (c - a)`. */
  ghost predicate SolvesNormalEquations(a: Vector3, b: Vector3, c: Vector3, p: Vector3, v: real, w: real)
  {
    var v0, v1, v2 := Sub(b, a), Sub(c, a), Sub(p, a);
    Solves(Dot(v0, v0), Dot(v0, v1), Dot(v1, v1), Dot(v2, v0), Dot(v2, v1), v, w)
  }

  /** `(v, w)` solve `[d00 d01; d01 d11] (v, w) = (d20, d21)`. */
  ghost predicate Solves(d00: real, d01: real, d11: real, d20: real, d21: real, v: real, w: real)
  {
    d20 == v * d00 + w * d01 && d21 == v * d01 + w * d11
  }

  /** `getBarycentricCoords(p, out)`: fails exactly on a degenerate triangle
      and then leaves `out` as it was; otherwise the weights sum to one and
      solve the normal equations. */
  function GetBarycentricCoords(a: Vector3, b: Vector3, c: Vector3, p: Vector3, out: Vector3): (r: Bary)
    ensures r.found <==> BaryDet(a, b, c) != 0.0
    ensures !r.found ==> r.coords == out
    ensures r.found ==> r.coords.x + r.coords.y + r.coords.z == 1.0
    ensures r.found ==> SolvesNormalEquations(a, b, c, p, r.coords.y, r.coords.z)
  {
    var v0, v1, v2 := Sub(b, a), Sub(c, a), Sub(p, a);
    Solve(Dot(v0, v0), Dot(v0, v1), Dot(v1, v1), Dot(v2, v0), Dot(v2, v1), out)
  }

  /** The computation on the five dot products `d00, d01, d11, d20, d21`. */
  function Solve(d00: real, d01: real, d11: real, d20: real, d21: real, out: Vector3): (r: Bary)
    ensures r.found <==> Gram(d00, d01, d11) != 0.0
    ensures !r.found ==> r.coords == out
    ensures r.found ==> r.coords.x + r.coords.y + r.coords.z == 1.0
    ensures r.found ==> Solves(d00, d01, d11, d20, d21, r.coords.y, r.coords.z)
  {
    var det := d00 * d11 - d01 * d01;
    if det != 0.0 then
      var v := (d11 * d20 - d01 * d21) / det;
      var w := (d00 * d21 - d01 * d20) / det;
      var u := 1.0 - v - w;
      CramerSolves(d00, d01, d11, d20, d21);
      Bary(true, Set(out, u, v, w))
    else
      Bary(false, out)
  }

  /** Cramer's rule for the symmetric system `[d00 d01; d01 d11] (v, w) = (d20, d21)`. */
  lemma CramerSolves(d00: real, d01: real, d11: real, d20: real, d21: real)
    requires d00 * d11 - d01 * d01 != 0.0
    ensures var det := d00 * d11 - d01 * d01;
      var v, w := (d11 * d20 - d01 * d21) / det, (d00 * d21 - d01 * d20) / det;
      d20 == v * d00 + w * d01 && d21 == v * d01 + w * d11
  {
    var det := d00 * d11 - d01 * d01;
    var nv, nw := d11 * d20 - d01 * d21, d00 * d21 - d01 * d20;
    assert nv * d00 + nw * d01 == d20 * det;
    assert nv * d01 + nw * d11 == d21 * det;
    assert (nv / det) * d00 + (nw / det) * d01 == (nv * d00 + nw * d01) / det;
    assert (nv / det) * d01 + (nw / det) * d11 == (nv * d01 + nw * d11) / det;
  }

  /** The normal equations have at most one solution on a non-degenerate
      triangle. */
  lemma CramerUnique(d00: real, d01: real, d11: real, v: real, w: real, v': real, w': real)
    requires d00 * d11 - d01 * d01 != 0.0
    requires v * d00 + w * d01 == v' * d00 + w' * d01
    requires v * d01 + w * d11 == v' * d01 + w' * d11
    ensures v == v' && w == w'
  {
    var dv, dw := v - v', w - w';
    assert dv * d00 + dw * d01 == 0.0;
    assert dv * d01 + dw * d11 == 0.0;
    assert dv * (d00 * d11 - d01 * d01) == d11 * (dv * d00 + dw * d01) - d01 * (dv * d01 + dw * d11);
    assert dw * (d00 * d11 - d01 * d01) == d00 * (dv * d01 + dw * d11) - d01 * (dv * d00 + dw * d01);
  }

  /** Round trip: the point `a + v (b - a) + w (c - a)` of the triangle's
      plane gets back the coordinates `(1 - v - w, v, w)`. */
  lemma {:induction false} BarycentricOfAffinePoint(a: Vector3, b: Vector3, c: Vector3, v: real, w: real, out: Vector3)
    requires BaryDet(a, b, c) != 0.0
    ensures GetBarycentricCoords(a, b, c, Add(a, Add(Scale(Sub(b, a), v), Scale(Sub(c, a), w))), out)
         == Bary(true, Vector3(1.0 - v - w, v, w))
  {
    var v0, v1 := Sub(b, a), Sub(c, a);
    var p := Add(a, Add(Scale(v0, v), Scale(v1, w)));
    var v2 := Sub(p, a);
    assert v2 == Add(Scale(v0, v), Scale(v1, w));
    DotLinear(v0, v1, v, w, v0);
    DotLinear(v0, v1, v, w, v1);
    DotSymmetric(v0, v1);
    var r := GetBarycentricCoords(a, b, c, p, out);
    CramerUnique(Dot(v0, v0), Dot(v0, v1), Dot(v1, v1), r.coords.y, r.coords.z, v, w);
  }

  /** Each vertex has the coordinates of a unit weight on itself. */
  lemma VertexCoordinates(a: Vector3, b: Vector3, c: Vector3, out: Vector3)
    requires BaryDet(a, b, c) != 0.0
    ensures GetBarycentricCoords(a, b, c, a, out) == Bary(true, Vector3(1.0, 0.0, 0.0))
    ensures GetBarycentricCoords(a, b, c, b, out) == Bary(true, Vector3(0.0, 1.0, 0.0))
    ensures GetBarycentricCoords(a, b, c, c, out) == Bary(true, Vector3(0.0, 0.0, 1.0))
  {
    VertexA(a, b, c, out);
    VertexB(a, b, c, out);
    VertexC(a, b, c, out);
  }

  lemma VertexA(a: Vector3, b: Vector3, c: Vector3, out: Vector3)
    requires BaryDet(a, b, c) != 0.0
    ensures GetBarycentricCoords(a, b, c, a, out) == Bary(true, Vector3(1.0, 0.0, 0.0))
  {
    var p := Add(a, Add(Scale(Sub(b, a), 0.0), Scale(Sub(c, a), 0.0)));
    assert Scale(Sub(b, a), 0.0) == Zero && Scale(Sub(c, a), 0.0) == Zero;
    assert p == a;
    BarycentricOfAffinePoint(a, b, c, 0.0, 0.0, out);
  }

  lemma VertexB(a: Vector3, b: Vector3, c: Vector3, out: Vector3)
    requires BaryDet(a, b, c) != 0.0
    ensures GetBarycentricCoords(a, b, c, b, out) == Bary(true, Vector3(0.0, 1.0, 0.0))
  {
    var p := Add(a, Add(Scale(Sub(b, a), 1.0), Scale(Sub(c, a), 0.0)));
    assert Scale(Sub(b, a), 1.0) == Sub(b, a) && Scale(Sub(c, a), 0.0) == Zero;
    assert p == b;
    BarycentricOfAffinePoint(a, b, c, 1.0, 0.0, out);
  }

  lemma VertexC(a: Vector3, b: Vector3, c: Vector3, out: Vector3)
    requires BaryDet(a, b, c) != 0.0
    ensures GetBarycentricCoords(a, b, c, c, out) == Bary(true, Vector3(0.0, 0.0, 1.0))
  {
    var p := Add(a, Add(Scale(Sub(b, a), 0.0), Scale(Sub(c, a), 1.0)));
    assert Scale(Sub(b, a), 0.0) == Zero && Scale(Sub(c, a), 1.0) == Sub(c, a);
    assert p == c;
    BarycentricOfAffinePoint(a, b, c, 0.0, 1.0, out);
  }

  /** `contains(p, coords)`: true exactly when the coordinates exist and
      `v >= 0`, `w >= 0`, `v + w <= 1`. `coords` is written whenever the
      coordinates exist, even when the answer is false. */
  function Contains(a: Vector3, b: Vector3, c: Vector3, p: Vector3, coords: Vector3): (r: Bary)
    ensures var g := GetBarycentricCoords(a, b, c, p, coords);
      r.coords == g.coords &&
      (r.found <==> g.found && g.coords.y >= 0.0 && g.coords.z >= 0.0 && g.coords.y + g.coords.z <= 1.0)
    ensures r.found ==> IsConvexWeights(r.coords)
  {
    var g := GetBarycentricCoords(a, b, c, p, coords);
    if g.found then
      if g.coords.y < 0.0 then Bary(false, g.coords)
      else if g.coords.z < 0.0 then Bary(false, g.coords)
      else if g.coords.y + g.coords.z > 1.0 then Bary(false, g.coords)
      else Bary(true, g.coords)
    else
      Bary(false, g.coords)
  }

  /** Three non-negative weights summing to one. */
  predicate IsConvexWeights(k: Vector3)
  {
    k.x >= 0.0 && k.y >= 0.0 && k.z >= 0.0 && k.x + k.y + k.z == 1.0
  }

  /** Every point of the closed triangle is contained; together with
      `Contains`'s contract this makes the test exact on the triangle's plane. */
  lemma ContainsClosedTriangle(a: Vector3, b: Vector3, c: Vector3, v: real, w: real, out: Vector3)
    requires BaryDet(a, b, c) != 0.0
    requires v >= 0.0 && w >= 0.0 && v + w <= 1.0
    ensures Contains(a, b, c, Add(a, Add(Scale(Sub(b, a), v), Scale(Sub(c, a), w))), out)
         == Bary(true, Vector3(1.0 - v - w, v, w))
  {
    BarycentricOfAffinePoint(a, b, c, v, w, out);
  }

  function Min3(a: real, b: real, c: real): real { Min(a, Min(b, c)) }
  function Max3(a: real, b: real, c: real): real { Max(a, Max(b, c)) }

  /** The interpolation `k.x * za + k.y * zb + k.z * zc` used for depth. */
  function Interpolate(k: Vector3, za: real, zb: real, zc: real): real
  {
    k.x * za + k.y * zb + k.z * zc
  }

  /** A convex combination lies between the least and the greatest value. */
  lemma InterpolateBetween(k: Vector3, za: real, zb: real, zc: real)
    requires IsConvexWeights(k)
    ensures Min3(za, zb, zc) <= Interpolate(k, za, zb, zc) <= Max3(za, zb, zc)
  {
    var lo, hi := Min3(za, zb, zc), Max3(za, zb, zc);
    WeightedSumAbove(k.x, k.y, k.z, za, zb, zc, lo);
    WeightedSumBelow(k.x, k.y, k.z, za, zb, zc, hi);
  }

  lemma WeightedSumAbove(x: real, y: real, z: real, za: real, zb: real, zc: real, lo: real)
    requires x >= 0.0 && y >= 0.0 && z >= 0.0
    requires lo <= za && lo <= zb && lo <= zc
    ensures (x + y + z) * lo <= x * za + y * zb + z * zc
  {
    RealMulMono(za, lo, x);
    assert x * za >= x * lo;
    RealMulMono(zb, lo, y);
    assert y * zb >= y * lo;
    RealMulMono(zc, lo, z);
    assert z * zc >= z * lo;
    assert (x + y + z) * lo == x * lo + y * lo + z * lo;
  }

  lemma WeightedSumBelow(x: real, y: real, z: real, za: real, zb: real, zc: real, hi: real)
    requires x >= 0.0 && y >= 0.0 && z >= 0.0
    requires za <= hi && zb <= hi && zc <= hi
    ensures x * za + y * zb + z * zc <= (x + y + z) * hi
  {
    RealMulMono(hi, za, x);
    assert x * za <= x * hi;
    RealMulMono(hi, zb, y);
    assert y * zb <= y * hi;
    RealMulMono(hi, zc, z);
    assert z * zc <= z * hi;
    assert (x + y + z) * hi == x * hi + y * hi + z * hi;
  }

  /** Multiplication by a non-negative real is monotone. */
  lemma RealMulMono(a: real, b: real, c: real)
    requires a >= b && c >= 0.0
    ensures a * c >= b * c && c * a >= c * b
  {
    assert a * c - b * c == (a - b) * c;
  }

  /** A quotient `n / s` with `0 <= n <= s` and `s > 0` lies in [0, 1]. */
  lemma FractionInUnit(n: real, s: real)
    requires 0.0 <= n <= s && s > 0.0
    ensures 0.0 <= n / s <= 1.0
  {
    var q := n / s;
    assert q * s == n;
    if q > 1.0 {
      RealMulMono(q, 1.0, s);
      assert false;
    }
  }

  /** The perspective-correct interpolation `(sum k_i u_i / w_i) / (sum k_i / w_i)`
      is a weighted average of the `u_i`, so it stays in [0, 1] when they do
      and the depths `w_i` are positive. */
  lemma PerspectiveAverageInUnit(k: Vector3, ua: real, ub: real, uc: real, wa: real, wb: real, wc: real)
    requires IsConvexWeights(k)
    requires wa > 0.0 && wb > 0.0 && wc > 0.0
    requires 0.0 <= ua <= 1.0 && 0.0 <= ub <= 1.0 && 0.0 <= uc <= 1.0
    ensures Interpolate(k, 1.0 / wa, 1.0 / wb, 1.0 / wc) > 0.0
    ensures 0.0 <= Interpolate(k, ua / wa, ub / wb, uc / wc) / Interpolate(k, 1.0 / wa, 1.0 / wb, 1.0 / wc) <= 1.0
  {
    var pa, pb, pc := k.x * (1.0 / wa), k.y * (1.0 / wb), k.z * (1.0 / wc);
    PerspectiveWeights(k, ua, ub, uc, wa, wb, wc);
    var n, s := Interpolate(k, ua / wa, ub / wb, uc / wc), Interpolate(k, 1.0 / wa, 1.0 / wb, 1.0 / wc);
    assert n == pa * ua + pb * ub + pc * uc;
    assert s == pa + pb + pc;
    RatioInUnit(pa, pb, pc, ua, ub, uc);
  }

  /** The perspective weights `k_i / w_i`: non-negative, with a positive
      sum, and the weights of the `u_i` in the numerator. */
  lemma PerspectiveWeights(k: Vector3, ua: real, ub: real, uc: real, wa: real, wb: real, wc: real)
    requires IsConvexWeights(k)
    requires wa > 0.0 && wb > 0.0 && wc > 0.0
    ensures var pa, pb, pc := k.x * (1.0 / wa), k.y * (1.0 / wb), k.z * (1.0 / wc);
      pa >= 0.0 && pb >= 0.0 && pc >= 0.0 &&
      Interpolate(k, 1.0 / wa, 1.0 / wb, 1.0 / wc) == pa + pb + pc && pa + pb + pc > 0.0 &&
      Interpolate(k, ua / wa, ub / wb, uc / wc) == pa * ua + pb * ub + pc * uc
  {
    WeightedTerm(k.x, ua, wa);
    WeightedTerm(k.y, ub, wb);
    WeightedTerm(k.z, uc, wc);
    if k.x > 0.0 { WeightPositive(k.x, wa); }
    else if k.y > 0.0 { WeightPositive(k.y, wb); }
    else { WeightPositive(k.z, wc); }
  }

  /** A weighted average of values in [0, 1] lies in [0, 1]. */
  lemma RatioInUnit(pa: real, pb: real, pc: real, ua: real, ub: real, uc: real)
    requires pa >= 0.0 && pb >= 0.0 && pc >= 0.0 && pa + pb + pc > 0.0
    requires 0.0 <= ua <= 1.0 && 0.0 <= ub <= 1.0 && 0.0 <= uc <= 1.0
    ensures 0.0 <= (pa * ua + pb * ub + pc * uc) / (pa + pb + pc) <= 1.0
  {
    WeightedAverage(pa, pb, pc, ua, ub, uc);
    FractionInUnit(pa * ua + pb * ub + pc * uc, pa + pb + pc);
  }

  /** A weight `k >= 0` on `u / w` is the weight `k / w >= 0` on `u`. */
  lemma WeightedTerm(k: real, u: real, w: real)
    requires k >= 0.0 && w > 0.0
    ensures k * (1.0 / w) >= 0.0 && k * (u / w) == (k * (1.0 / w)) * u
  {
    var i := 1.0 / w;
    assert i > 0.0;
    RealMulMono(i, 0.0, k);
    assert u / w == u * i;
  }

  lemma WeightPositive(k: real, w: real)
    requires k > 0.0 && w > 0.0
    ensures k * (1.0 / w) > 0.0
  {
    var i := 1.0 / w;
    assert i > 0.0;
  }

  lemma WeightedAverage(pa: real, pb: real, pc: real, ua: real, ub: real, uc: real)
    requires pa >= 0.0 && pb >= 0.0 && pc >= 0.0
    requires 0.0 <= ua <= 1.0 && 0.0 <= ub <= 1.0 && 0.0 <= uc <= 1.0
    ensures 0.0 <= pa * ua + pb * ub + pc * uc <= pa + pb + pc
  {
    WeightedSumAbove(pa, pb, pc, ua, ub, uc, 0.0);
    WeightedSumBelow(pa, pb, pc, ua, ub, uc, 1.0);
  }
}
