/**
  `PerspectiveProjector::getFrustum` of src/perspective_projector.cpp: the
  half extents of the near and far rectangles from the vertical field of
  view and the aspect ratio, handed to the `Frustum` constructor. The
  tangent is a function parameter; the degree-to-radian factor is the
  constant of `zmath::radians` (include/zmath.h).
 */
module Projectors {
  import opened Vectors
  import opened Frustums

  /** The factor `zmath::radians` multiplies by. */
  const RadiansPerDegree: real := 0.017453288

  function Radians(degrees: real): real
  {
    degrees * RadiansPerDegree
  }

  /** The vertical field of view in degrees and the near and far distances. */
  datatype PerspectiveProjector = PerspectiveProjector(fov: real, znear: real, zfar: real)

  /** The six constructor arguments, in the constructor's order. */
  datatype FrustumArgs = FrustumArgs(nearW: real, nearH: real, farW: real, farH: real, near: real, far: real)

  /** The arguments `getFrustum` computes for aspect ratio `ratio`. */
  function FrustumExtents(p: PerspectiveProjector, ratio: real, tan: real -> real): FrustumArgs
  {
    var fovBy2 := Radians(p.fov) / 2.0;
    var hNear := tan(fovBy2) * p.znear;
    var wNear := hNear * ratio;
    var hFar := tan(fovBy2) * p.zfar;
    var wFar := hFar * ratio;
    FrustumArgs(wNear, hNear, wFar, hFar, p.znear, p.zfar)
  }

  /** Both rectangles have the aspect ratio `ratio`, both heights come from
      the same tangent so they grow in proportion to their distance, and
      the near and far distances are passed through unchanged. */
  lemma ExtentsProportional(p: PerspectiveProjector, ratio: real, tan: real -> real)
    ensures var e := FrustumExtents(p, ratio, tan);
      e.nearW == e.nearH * ratio && e.farW == e.farH * ratio &&
      e.farH * p.znear == e.nearH * p.zfar &&
      e.near == p.znear && e.far == p.zfar
  {
    var t := tan(Radians(p.fov) / 2.0);
    assert (t * p.zfar) * p.znear == (t * p.znear) * p.zfar;
  }

  /** The half height at distance `d` is `d` times the tangent of half the
      field of view, for both rectangles. */
  lemma ExtentsAtDistance(p: PerspectiveProjector, ratio: real, tan: real -> real)
    ensures var e := FrustumExtents(p, ratio, tan); var t := tan(Radians(p.fov) / 2.0);
      e.nearH == t * e.near && e.farH == t * e.far &&
      e.nearW == t * ratio * e.near && e.farW == t * ratio * e.far
  {
    var t := tan(Radians(p.fov) / 2.0);
    assert t * p.znear * ratio == t * ratio * p.znear;
    assert t * p.zfar * ratio == t * ratio * p.zfar;
  }

  /** `getFrustum(transform, ratio)`: the frustum at the camera's pose with
      the computed extents. */
  method GetFrustum(p: PerspectiveProjector, pose: Pose, ratio: real, tan: real -> real) returns (f: Frustum)
    ensures fresh(f) && f.Valid()
    ensures var e := FrustumExtents(p, ratio, tan);
      f.planes[..] == Planes(Corners(pose, e.nearW, e.nearH, e.farW, e.farH, e.near, e.far))
  {
    var fovBy2 := Radians(p.fov) / 2.0;
    var hNear := tan(fovBy2) * p.znear;
    var wNear := hNear * ratio;
    var hFar := tan(fovBy2) * p.zfar;
    var wFar := hFar * ratio;
    assert FrustumExtents(p, ratio, tan) == FrustumArgs(wNear, hNear, wFar, hFar, p.znear, p.zfar);
    f := new Frustum(pose, wNear, hNear, wFar, hFar, p.znear, p.zfar);
  }
}
