/**
  The view frustum of src/frustum.cpp: its eight corners built from the
  camera's world position and axes and the near and far rectangles, its six
  bounding planes, and `clip`, which asks the triangle-against-plane test of
  each plane in turn. The world position and axes come from the transform
  through a matrix decomposition that is not part of this model, so they are
  passed in as a `Pose`; the plane type and the triangle-against-plane test
  are not part of it either, so a plane is kept as the three points it is
  built from and the test is a function parameter.
 */
module Frustums {
  import opened Vectors

  /** The world position and the forward, up and right axes of the camera. */
  datatype Pose = Pose(position: Vector3, forward: Vector3, up: Vector3, right: Vector3)

  /** The axes are unit length and pairwise perpendicular. */
  ghost predicate Orthonormal(p: Pose)
  {
    Dot(p.forward, p.forward) == 1.0 && Dot(p.up, p.up) == 1.0 && Dot(p.right, p.right) == 1.0 &&
    Dot(p.up, p.forward) == 0.0 && Dot(p.right, p.forward) == 0.0 && Dot(p.up, p.right) == 0.0
  }

  /** The `Frustum::Corner` enumeration, in its order. */
  const FarTopLeft := 0
  const FarTopRight := 1
  const FarBottomLeft := 2
  const FarBottomRight := 3
  const NearTopLeft := 4
  const NearTopRight := 5
  const NearBottomLeft := 6
  const NearBottomRight := 7
  const CornerCount := 8

  /** The `Frustum::Plane` enumeration, in its order. */
  const Near := 0
  const Far := 1
  const Left := 2
  const Right := 3
  const Bottom := 4
  const Top := 5
  const PlaneCount := 6

  /** `zmath::Plane(a, b, c)`: the plane through three points. */
  datatype Plane = PlaneThrough(a: Vector3, b: Vector3, c: Vector3)

  /** The outcome of a clipping test. */
  datatype Status = Visible | Clipped | Hidden

  /** The centre of the rectangle `depth` units in front of the camera. */
  function Center(p: Pose, depth: real): Vector3
  {
    Add(p.position, Scale(p.forward, -depth))
  }

  /** The corner `up * h + right * w` away from the centre. */
  function CornerAt(center: Vector3, p: Pose, h: real, w: real): Vector3
  {
    Add(Add(center, Scale(p.up, h)), Scale(p.right, w))
  }

  /** The eight corners the constructor computes, indexed by `Corner`. */
  function Corners(p: Pose, nearW: real, nearH: real, farW: real, farH: real, near: real, far: real): (r: seq<Vector3>)
    ensures |r| == CornerCount
  {
    var fCenter := Center(p, far);
    var nCenter := Center(p, near);
    [CornerAt(fCenter, p, farH, -farW), CornerAt(fCenter, p, farH, farW),
     CornerAt(fCenter, p, -farH, -farW), CornerAt(fCenter, p, -farH, farW),
     CornerAt(nCenter, p, nearH, -nearW), CornerAt(nCenter, p, nearH, nearW),
     CornerAt(nCenter, p, -nearH, -nearW), CornerAt(nCenter, p, -nearH, nearW)]
  }

  /** The six planes, indexed by `Plane`, each through three corners. */
  function Planes(k: seq<Vector3>): (r: seq<Plane>)
    requires |k| == CornerCount
    ensures |r| == PlaneCount
  {
    [PlaneThrough(k[NearBottomLeft], k[NearTopLeft], k[NearTopRight]),
     PlaneThrough(k[FarBottomRight], k[FarTopRight], k[FarTopLeft]),
     PlaneThrough(k[FarBottomLeft], k[FarTopLeft], k[NearTopLeft]),
     PlaneThrough(k[NearBottomRight], k[NearTopRight], k[FarTopRight]),
     PlaneThrough(k[NearBottomRight], k[FarBottomRight], k[FarBottomLeft]),
     PlaneThrough(k[NearTopLeft], k[FarTopLeft], k[FarTopRight])]
  }

  /** Opposite corners of each rectangle average to its centre. */
  lemma DiagonalsMeetAtCenter(p: Pose, nearW: real, nearH: real, farW: real, farH: real, near: real, far: real)
    ensures var k := Corners(p, nearW, nearH, farW, farH, near, far);
      Add(k[FarTopLeft], k[FarBottomRight]) == Scale(Center(p, far), 2.0) &&
      Add(k[FarTopRight], k[FarBottomLeft]) == Scale(Center(p, far), 2.0) &&
      Add(k[NearTopLeft], k[NearBottomRight]) == Scale(Center(p, near), 2.0) &&
      Add(k[NearTopRight], k[NearBottomLeft]) == Scale(Center(p, near), 2.0)
  {
  }

  /** Each rectangle is `2 * w` along the right axis and `2 * h` along
      the up axis. */
  lemma EdgesAreFullExtents(p: Pose, nearW: real, nearH: real, farW: real, farH: real, near: real, far: real)
    ensures var k := Corners(p, nearW, nearH, farW, farH, near, far);
      Sub(k[FarTopRight], k[FarTopLeft]) == Scale(p.right, 2.0 * farW) &&
      Sub(k[FarTopLeft], k[FarBottomLeft]) == Scale(p.up, 2.0 * farH) &&
      Sub(k[NearTopRight], k[NearTopLeft]) == Scale(p.right, 2.0 * nearW) &&
      Sub(k[NearTopLeft], k[NearBottomLeft]) == Scale(p.up, 2.0 * nearH)
  {
    var fCenter, nCenter := Center(p, far), Center(p, near);
    AcrossIsRight(fCenter, p, farH, farW);
    AboveIsUp(fCenter, p, farH, -farW);
    AcrossIsRight(nCenter, p, nearH, nearW);
    AboveIsUp(nCenter, p, nearH, -nearW);
  }

  /** The corner at `w` less the one at `-w` is `2 * w` along the right axis. */
  lemma AcrossIsRight(center: Vector3, p: Pose, h: real, w: real)
    ensures Sub(CornerAt(center, p, h, w), CornerAt(center, p, h, -w)) == Scale(p.right, 2.0 * w)
  {
  }

  /** The corner at `h` less the one at `-h` is `2 * h` along the up axis. */
  lemma AboveIsUp(center: Vector3, p: Pose, h: real, w: real)
    ensures Sub(CornerAt(center, p, h, w), CornerAt(center, p, -h, w)) == Scale(p.up, 2.0 * h)
  {
  }

  /** The dot product is linear in a combination of three vectors. */
  lemma DotLinear3(a: Vector3, b: Vector3, c: Vector3, s: real, t: real, u: real, d: Vector3)
    ensures Dot(Add(Add(Scale(a, s), Scale(b, t)), Scale(c, u)), d) == s * Dot(a, d) + t * Dot(b, d) + u * Dot(c, d)
  {
    DotLinear(a, b, s, t, d);
    var ab := Add(Scale(a, s), Scale(b, t));
    DotLinear(ab, c, 1.0, u, d);
    assert Scale(ab, 1.0) == ab;
  }

  /** For an orthonormal pose a corner built `depth` units forward lies
      exactly `depth` units in front of the camera along its axis. */
  lemma CornerDepth(p: Pose, depth: real, h: real, w: real)
    requires Orthonormal(p)
    ensures Dot(Sub(CornerAt(Center(p, depth), p, h, w), p.position), p.forward) == -depth
  {
    var off := Add(Add(Scale(p.forward, -depth), Scale(p.up, h)), Scale(p.right, w));
    assert Sub(CornerAt(Center(p, depth), p, h, w), p.position) == off;
    DotLinear3(p.forward, p.up, p.right, -depth, h, w, p.forward);
  }

  /** How far in front of the camera a point lies. */
  function DepthOf(p: Pose, v: Vector3): real
  {
    -Dot(Sub(v, p.position), p.forward)
  }

  /** For an orthonormal pose all three points of the near plane lie at
      depth `near` and all three points of the far plane at depth `far`. */
  lemma NearAndFarPlanesAtDepth(p: Pose, nearW: real, nearH: real, farW: real, farH: real, near: real, far: real)
    requires Orthonormal(p)
    ensures var q := Planes(Corners(p, nearW, nearH, farW, farH, near, far));
      DepthOf(p, q[Near].a) == near && DepthOf(p, q[Near].b) == near && DepthOf(p, q[Near].c) == near &&
      DepthOf(p, q[Far].a) == far && DepthOf(p, q[Far].b) == far && DepthOf(p, q[Far].c) == far
  {
    var k := Corners(p, nearW, nearH, farW, farH, near, far);
    var q := Planes(k);
    var nc, fc := Center(p, near), Center(p, far);
    assert q[Near] == PlaneThrough(CornerAt(nc, p, -nearH, -nearW), CornerAt(nc, p, nearH, -nearW), CornerAt(nc, p, nearH, nearW));
    assert q[Far] == PlaneThrough(CornerAt(fc, p, -farH, farW), CornerAt(fc, p, farH, farW), CornerAt(fc, p, farH, -farW));
    CornerDepth(p, near, -nearH, -nearW);
    CornerDepth(p, near, nearH, -nearW);
    CornerDepth(p, near, nearH, nearW);
    CornerDepth(p, far, -farH, farW);
    CornerDepth(p, far, farH, farW);
    CornerDepth(p, far, farH, -farW);
  }

  /** What `clip` returns, and what `out` holds afterwards, when the planes
      from index `i` on are still to be asked: the first plane that does not
      report `Visible` decides. */
  function ClipFrom<T, C>(planes: seq<Plane>, i: nat, triangle: T,
                          trianglePlane: (T, Plane) -> (Status, seq<C>), out: seq<C>): (r: (Status, seq<C>))
    decreases |planes| - i
  {
    if i >= |planes| then (Visible, out)
    else
      var (status, clipped) := trianglePlane(triangle, planes[i]);
      if status == Hidden then (Hidden, out)
      else if status == Clipped then (Clipped, clipped)
      else ClipFrom(planes, i + 1, triangle, trianglePlane, out)
  }

  /** The first index from `i` on whose plane does not report `Visible`,
      or `|planes|` if there is none. */
  function FirstNotVisible<T, C>(planes: seq<Plane>, i: nat, triangle: T,
                                 trianglePlane: (T, Plane) -> (Status, seq<C>)): (n: nat)
    requires i <= |planes|
    ensures i <= n <= |planes|
    ensures forall j :: i <= j < n ==> trianglePlane(triangle, planes[j]).0 == Visible
    ensures n < |planes| ==> trianglePlane(triangle, planes[n]).0 != Visible
    decreases |planes| - i
  {
    if i == |planes| || trianglePlane(triangle, planes[i]).0 != Visible then i
    else FirstNotVisible(planes, i + 1, triangle, trianglePlane)
  }

  /** `clip` is decided by the first plane, in order, that does not report
      `Visible`: `Hidden` there gives `Hidden` with `out` untouched,
      `Clipped` there gives `Clipped` with `out` replaced by that plane's
      pieces, and if every plane reports `Visible` the result is `Visible`
      with `out` untouched. */
  lemma {:induction false} ClipDecidedByFirst<T, C>(planes: seq<Plane>, i: nat, triangle: T,
                                                   trianglePlane: (T, Plane) -> (Status, seq<C>), out: seq<C>)
    requires i <= |planes|
    ensures var n := FirstNotVisible(planes, i, triangle, trianglePlane);
      var r := ClipFrom(planes, i, triangle, trianglePlane, out);
      if n == |planes| then r == (Visible, out)
      else if trianglePlane(triangle, planes[n]).0 == Hidden then r == (Hidden, out)
      else r == (Clipped, trianglePlane(triangle, planes[n]).1)
    decreases |planes| - i
  {
    if i < |planes| && trianglePlane(triangle, planes[i]).0 == Visible {
      ClipDecidedByFirst(planes, i + 1, triangle, trianglePlane, out);
    }
  }

  /** `Visible` exactly when every plane reports `Visible`. */
  lemma VisibleIffAllVisible<T, C>(planes: seq<Plane>, triangle: T,
                                   trianglePlane: (T, Plane) -> (Status, seq<C>), out: seq<C>)
    ensures ClipFrom(planes, 0, triangle, trianglePlane, out).0 == Visible <==>
      forall j :: 0 <= j < |planes| ==> trianglePlane(triangle, planes[j]).0 == Visible
  {
    ClipDecidedByFirst(planes, 0, triangle, trianglePlane, out);
  }

  /** `Hidden` exactly when some plane reports `Hidden` and every earlier
      plane reported `Visible`. */
  lemma HiddenIffFirstHidden<T, C>(planes: seq<Plane>, triangle: T,
                                   trianglePlane: (T, Plane) -> (Status, seq<C>), out: seq<C>)
    ensures ClipFrom(planes, 0, triangle, trianglePlane, out).0 == Hidden <==>
      exists n :: 0 <= n < |planes| && trianglePlane(triangle, planes[n]).0 == Hidden &&
        forall j :: 0 <= j < n ==> trianglePlane(triangle, planes[j]).0 == Visible
  {
    ClipDecidedByFirst(planes, 0, triangle, trianglePlane, out);
    var n := FirstNotVisible(planes, 0, triangle, trianglePlane);
    if ClipFrom(planes, 0, triangle, trianglePlane, out).0 == Hidden {
      assert n < |planes| && trianglePlane(triangle, planes[n]).0 == Hidden;
    }
  }

  /** `Clipped` exactly when some plane reports `Clipped` and every earlier
      plane reported `Visible`; `out` then holds that plane's pieces, and in
      every other case `out` is untouched. */
  lemma ClippedIffFirstClipped<T, C>(planes: seq<Plane>, triangle: T,
                                     trianglePlane: (T, Plane) -> (Status, seq<C>), out: seq<C>)
    ensures var r := ClipFrom(planes, 0, triangle, trianglePlane, out);
      (r.0 == Clipped <==>
        exists n :: 0 <= n < |planes| && trianglePlane(triangle, planes[n]).0 == Clipped &&
          (forall j :: 0 <= j < n ==> trianglePlane(triangle, planes[j]).0 == Visible) &&
          r.1 == trianglePlane(triangle, planes[n]).1) &&
      (r.0 != Clipped ==> r.1 == out)
  {
    ClipDecidedByFirst(planes, 0, triangle, trianglePlane, out);
    var n := FirstNotVisible(planes, 0, triangle, trianglePlane);
    var r := ClipFrom(planes, 0, triangle, trianglePlane, out);
    if r.0 == Clipped {
      assert n < |planes| && trianglePlane(triangle, planes[n]).0 == Clipped;
    }
    forall n' | 0 <= n' < |planes| && trianglePlane(triangle, planes[n']).0 == Clipped &&
      (forall j :: 0 <= j < n' ==> trianglePlane(triangle, planes[j]).0 == Visible)
      ensures r.0 == Clipped
    {
      assert n' == n;
    }
  }

  class Frustum {
    /** `_planes`, indexed by `Plane`. */
    const planes: array<Plane>

    ghost predicate Valid()
      reads this
    {
      planes.Length == PlaneCount
    }

    /** Builds the corners from the pose and the rectangle sizes and
        stores the six planes through them. */
    constructor (p: Pose, nearW: real, nearH: real, farW: real, farH: real, near: real, far: real)
      ensures Valid()
      ensures planes[..] == Planes(Corners(p, nearW, nearH, farW, farH, near, far))
    {
      var corners := new Vector3[CornerCount];
      var fCenter := Add(p.position, Scale(p.forward, -far));
      corners[FarTopLeft] := Add(Add(fCenter, Scale(p.up, farH)), Scale(p.right, -farW));
      corners[FarTopRight] := Add(Add(fCenter, Scale(p.up, farH)), Scale(p.right, farW));
      corners[FarBottomLeft] := Add(Add(fCenter, Scale(p.up, -farH)), Scale(p.right, -farW));
      corners[FarBottomRight] := Add(Add(fCenter, Scale(p.up, -farH)), Scale(p.right, farW));
      var nCenter := Add(p.position, Scale(p.forward, -near));
      corners[NearTopLeft] := Add(Add(nCenter, Scale(p.up, nearH)), Scale(p.right, -nearW));
      corners[NearTopRight] := Add(Add(nCenter, Scale(p.up, nearH)), Scale(p.right, nearW));
      corners[NearBottomLeft] := Add(Add(nCenter, Scale(p.up, -nearH)), Scale(p.right, -nearW));
      corners[NearBottomRight] := Add(Add(nCenter, Scale(p.up, -nearH)), Scale(p.right, nearW));
      assert corners[..] == Corners(p, nearW, nearH, farW, farH, near, far);
      var q := new Plane[PlaneCount];
      q[Top] := PlaneThrough(corners[NearTopLeft], corners[FarTopLeft], corners[FarTopRight]);
      q[Bottom] := PlaneThrough(corners[NearBottomRight], corners[FarBottomRight], corners[FarBottomLeft]);
      q[Left] := PlaneThrough(corners[FarBottomLeft], corners[FarTopLeft], corners[NearTopLeft]);
      q[Right] := PlaneThrough(corners[NearBottomRight], corners[NearTopRight], corners[FarTopRight]);
      q[Near] := PlaneThrough(corners[NearBottomLeft], corners[NearTopLeft], corners[NearTopRight]);
      q[Far] := PlaneThrough(corners[FarBottomRight], corners[FarTopRight], corners[FarTopLeft]);
      planes := q;
    }

    /** `clip(triangle, out)`: asks the planes in the order Near, Far, Left,
        Right, Bottom, Top and returns at the first that does not report
        `Visible`; `out'` is `out` after the call. */
    method Clip<T, C>(triangle: T, trianglePlane: (T, Plane) -> (Status, seq<C>), out: seq<C>)
      returns (status: Status, out': seq<C>)
      requires Valid()
      ensures (status, out') == ClipFrom(planes[..], 0, triangle, trianglePlane, out)
    {
      out' := out;
      var i := 0;
      while i < PlaneCount
        invariant 0 <= i <= PlaneCount
        invariant ClipFrom(planes[..], 0, triangle, trianglePlane, out) ==
                  ClipFrom(planes[..], i, triangle, trianglePlane, out)
        invariant out' == out
      {
        var clipped: seq<C>;
        var r := trianglePlane(triangle, planes[i]);
        status, clipped := r.0, r.1;
        if status == Hidden {
          return Hidden, out';
        } else if status == Clipped {
          out' := clipped;
          return Clipped, out';
        }
        i := i + 1;
      }
      return Visible, out';
    }
  }
}
