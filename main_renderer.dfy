/**
  The early free-function renderer of src/main.cpp: the draw context (colour
  bytes, depth buffer, size), its allocation on resize, the per-frame clear,
  `drawPixel`, the Bresenham `drawLine`, the z-buffered and texture-mapped
  `drawTriangle`, and the `drawTriangle` overload that projects the vertices
  and rejects a triangle with a vertex outside the depth range. The texture
  globals `imageWidth`, `imageHeight`, `imageChannels` and `imageData` are
  passed as an `Image` value; the `project` lambda is a function parameter.
 */
module MainRenderer {
  import opened Numeric
  import opened Vectors
  import opened Colors
  import opened Triangles
  import opened Raster
  import Bresenham

  /** A screen position with the clip-space w it came from. */
  datatype ProjectedVector = ProjectedVector(v: Vector3, w: real)

  datatype Vertex = Vertex(position: ProjectedVector, uv: Vector2, color: ByteColor)

  datatype Triangle = Triangle(a: Vertex, b: Vertex, c: Vertex)

  /** The texture the triangle fill samples. */
  datatype Image = Image(width: int, height: int, channels: int, data: seq<byte>)

  predicate ValidImage(img: Image)
  {
    img.width > 0 && img.height > 0 && img.channels >= 3 &&
    |img.data| == img.width * img.height * img.channels
  }

  /** The three bytes of texel `(tx, ty)`, read from
      `ty * imageWidth * imageChannels + tx * imageChannels`. */
  function Texel(img: Image, tx: int, ty: int): ByteColor
    requires ValidImage(img) && 0 <= tx < img.width && 0 <= ty < img.height
  {
    GridOffsetInRange(tx, ty, img.width, img.height, img.channels);
    assert ty * img.width * img.channels == ty * (img.width * img.channels);
    var idx := ty * img.width * img.channels + tx * img.channels;
    ByteColor(img.data[idx], img.data[idx + 1], img.data[idx + 2])
  }

  ghost predicate IsTexel(img: Image, c: ByteColor)
    requires ValidImage(img)
  {
    exists tx, ty :: 0 <= tx < img.width && 0 <= ty < img.height && Texel(img, tx, ty) == c
  }

  /** `std::min((int)(t * n), n - 1)`: the texel column (or row) of a
      coordinate in [0, 1]; the coordinate 1 is clamped onto the last one. */
  function TexelCoord(t: real, n: int): (r: int)
    requires 0.0 <= t <= 1.0 && n > 0
    ensures 0 <= r < n
    ensures (r as real) <= t * (n as real)
    ensures t < 1.0 ==> t * (n as real) < (r + 1) as real
  {
    ClampedTrunc(CellPosition(t, n as real), n)
  }

  /** `t * m` for a fraction `t`: in [0, m], and below `m` unless `t` is 1. */
  function CellPosition(t: real, m: real): (x: real)
    requires 0.0 <= t <= 1.0 && m > 0.0
    ensures x == t * m
    ensures 0.0 <= x <= m && (t < 1.0 ==> x < m)
  {
    UnitScaled(t, m);
    t * m
  }

  /** `std::min((int)x, n - 1)` for `x` in [0, n]: the cell of [0, n)
      holding `x`, with `n` itself clamped onto the last cell. */
  function ClampedTrunc(x: real, n: int): (r: int)
    requires 0.0 <= x <= n as real && n > 0
    ensures 0 <= r < n && r as real <= x
    ensures x < n as real ==> x < (r + 1) as real
  {
    var c := Trunc(x);
    if c < n - 1 then c else n - 1
  }

  /** A fraction of a positive `m` lies in [0, m], below `m` unless the
      fraction is 1. */
  lemma UnitScaled(t: real, m: real)
    requires 0.0 <= t <= 1.0 && m > 0.0
    ensures 0.0 <= t * m <= m && (t < 1.0 ==> t * m < m)
  {
    RealMulMono(1.0, t, m);
    RealMulMono(t, 0.0, m);
    if t < 1.0 {
      assert m - t * m == (1.0 - t) * m;
    }
  }

  /** The texture coordinate of a sample: each vertex's `uv / w` and `1 / w`
      are interpolated and divided back, the perspective-correct mapping. */
  function PerspectiveUv(t: Triangle, k: Vector3): (r: Vector2)
    requires IsConvexWeights(k) && PositiveW(t) && UvInUnit(t)
    ensures 0.0 <= r.x <= 1.0 && 0.0 <= r.y <= 1.0
  {
    var a, b, c := t.a, t.b, t.c;
    var au, av, aw := a.uv.x / a.position.w, a.uv.y / a.position.w, 1.0 / a.position.w;
    var bu, bv, bw := b.uv.x / b.position.w, b.uv.y / b.position.w, 1.0 / b.position.w;
    var cu, cv, cw := c.uv.x / c.position.w, c.uv.y / c.position.w, 1.0 / c.position.w;
    var u' := Interpolate(k, au, bu, cu);
    var v' := Interpolate(k, av, bv, cv);
    var w := Interpolate(k, aw, bw, cw);
    PerspectiveAverageInUnit(k, a.uv.x, b.uv.x, c.uv.x, a.position.w, b.position.w, c.position.w);
    PerspectiveAverageInUnit(k, a.uv.y, b.uv.y, c.uv.y, a.position.w, b.position.w, c.position.w);
    Vector2(u' / w, v' / w)
  }

  /** The texel a sample with texture coordinate `uv` is coloured with. */
  function SampleTexture(img: Image, uv: Vector2): (c: ByteColor)
    requires ValidImage(img) && 0.0 <= uv.x <= 1.0 && 0.0 <= uv.y <= 1.0
    ensures IsTexel(img, c)
  {
    var tx := TexelCoord(uv.x, img.width);
    var ty := TexelCoord(uv.y, img.height);
    Texel(img, tx, ty)
  }

  /** Every vertex lies in front of the camera (w > 0). */
  predicate PositiveW(t: Triangle)
  {
    t.a.position.w > 0.0 && t.b.position.w > 0.0 && t.c.position.w > 0.0
  }

  /** Every vertex's texture coordinate lies in the unit square. */
  predicate UvInUnit(t: Triangle)
  {
    0.0 <= t.a.uv.x <= 1.0 && 0.0 <= t.a.uv.y <= 1.0 &&
    0.0 <= t.b.uv.x <= 1.0 && 0.0 <= t.b.uv.y <= 1.0 &&
    0.0 <= t.c.uv.x <= 1.0 && 0.0 <= t.c.uv.y <= 1.0
  }

  /** The bounding box `drawTriangle` scans. */
  function TriangleBox(t: Triangle, width: int, height: int): Box
  {
    ClampedBox(t.a.position.v, t.b.position.v, t.c.position.v, width, height)
  }

  function ZLow(t: Triangle): real
  {
    Min3(t.a.position.v.z, t.b.position.v.z, t.c.position.v.z)
  }

  function ZHigh(t: Triangle): real
  {
    Max3(t.a.position.v.z, t.b.position.v.z, t.c.position.v.z)
  }

  /** The global `drawContext`. */
  class Context {
    var pixels: array<byte>
    var zBuffer: array<real>
    var width: int
    var height: int
    var bytesPerPixel: int

    ghost predicate Valid()
      reads this
    {
      width >= 0 && height >= 0 && bytesPerPixel >= 3 &&
      pixels.Length == width * height * bytesPerPixel &&
      zBuffer.Length == width * height
    }

    /** `bytesPerPixel = 3` and the first allocation of both buffers. */
    constructor (width: int, height: int)
      requires width >= 0 && height >= 0
      ensures Valid() && this.width == width && this.height == height && bytesPerPixel == 3
      ensures fresh(pixels) && fresh(zBuffer)
    {
      this.width, this.height, bytesPerPixel := width, height, 3;
      pixels := new byte[width * height * 3];
      zBuffer := new real[width * height];
    }
  }

  /** `resizeCallback`: the new size and buffers of `width * height * bpp`
      bytes and `width * height` depths. */
  method Resize(ctx: Context, width: int, height: int)
    requires ctx.Valid() && width >= 0 && height >= 0
    modifies ctx
    ensures ctx.Valid()
    ensures ctx.width == width && ctx.height == height && ctx.bytesPerPixel == old(ctx.bytesPerPixel)
    ensures fresh(ctx.pixels) && fresh(ctx.zBuffer)
    ensures ctx.pixels.Length == width * height * ctx.bytesPerPixel
    ensures ctx.zBuffer.Length == width * height
  {
    ctx.width := width;
    ctx.height := height;
    ctx.pixels := new byte[width * height * ctx.bytesPerPixel];
    var zBufferSize := width * height;
    ctx.zBuffer := new real[zBufferSize];
  }

  /** The start of every frame: all colour bytes 0, all depths 1. */
  method ClearFrame(ctx: Context)
    requires ctx.Valid()
    modifies ctx.pixels, ctx.zBuffer
    ensures forall b :: 0 <= b < ctx.pixels.Length ==> ctx.pixels[b] == 0
    ensures forall k :: 0 <= k < ctx.zBuffer.Length ==> ctx.zBuffer[k] == 1.0
  {
    var pixelCount := ctx.width * ctx.height;
    var size := pixelCount * ctx.bytesPerPixel;
    forall b | 0 <= b < size {
      ctx.pixels[b] := 0;
    }
    var i := 0;
    while i < pixelCount
      invariant 0 <= i <= pixelCount
      invariant forall b :: 0 <= b < ctx.pixels.Length ==> ctx.pixels[b] == 0
      invariant forall k :: 0 <= k < i ==> ctx.zBuffer[k] == 1.0
    {
      ctx.zBuffer[i] := 1.0;
      i := i + 1;
    }
  }

  /** `drawPixel`: off screen nothing changes; on screen exactly the three
      bytes at `y * stride + x * bpp` take the colour. */
  method DrawPixel(ctx: Context, x: int, y: int, color: ByteColor)
    requires ctx.Valid()
    modifies ctx.pixels
    ensures ctx.pixels[..] == PutPixel(old(ctx.pixels[..]), ctx.width, ctx.height, ctx.bytesPerPixel, x, y, color)
  {
    if x < 0 || y < 0 || x >= ctx.width || y >= ctx.height {
      return;
    }
    GridOffsetInRange(x, y, ctx.width, ctx.height, ctx.bytesPerPixel);
    var stride := ctx.width * ctx.bytesPerPixel;
    var index := (y * stride) + x * ctx.bytesPerPixel;
    ctx.pixels[index + 0] := color.r;
    ctx.pixels[index + 1] := color.g;
    ctx.pixels[index + 2] := color.b;
  }

  /** `drawLine`: the endpoints are truncated to integers and the pixels of
      the Bresenham walk between them are drawn in order. */
  method DrawLine(ctx: Context, x0: real, y0: real, x1: real, y1: real, color: ByteColor)
    requires ctx.Valid()
    modifies ctx.pixels
    ensures ctx.pixels[..] == PlotAll(old(ctx.pixels[..]), ctx.width, ctx.height, ctx.bytesPerPixel,
      Bresenham.Points(Bresenham.Line(Trunc(x0), Trunc(y0), Trunc(x1), Trunc(y1))), color)
  {
    var ix1 := Trunc(x1);
    var iy1 := Trunc(y1);
    var ix0 := Trunc(x0);
    var iy0 := Trunc(y0);
    ghost var l := Bresenham.Line(ix0, iy0, ix1, iy1);
    var dx := Bresenham.Abs(ix1 - ix0);
    var sx := if ix0 < ix1 then 1 else -1;
    var dy := -(Bresenham.Abs(iy1 - iy0) as int);
    var sy := if iy0 < iy1 then 1 else -1;
    var err := dx + dy;
    ghost var cur := Bresenham.Initial(l);
    ghost var drawn: seq<(int, int)> := [];
    Bresenham.InitialReachable(l);
    ghost var start := ctx.pixels[..];
    assert dx == Bresenham.Dx(l) && dy == Bresenham.Dy(l) && sx == Bresenham.Sx(l) && sy == Bresenham.Sy(l);
    while true
      invariant ctx.Valid()
      invariant Bresenham.Reachable(l, cur) && cur.err == err
      invariant (ix0, iy0) == Bresenham.Here(l, cur)
      invariant Bresenham.Points(l) == drawn + Bresenham.Plotted(l, cur)
      invariant ctx.pixels[..] == PlotAll(start, ctx.width, ctx.height, ctx.bytesPerPixel, drawn, color)
      decreases (Bresenham.Dx(l) - cur.px) + (Bresenham.Dd(l) - cur.py)
    {
      DrawPixel(ctx, ix0, iy0, color);
      PlotAllSnoc(start, ctx.width, ctx.height, ctx.bytesPerPixel, drawn, (ix0, iy0), color);
      Bresenham.ExitTest(l, cur);
      if ix0 == ix1 && iy0 == iy1 {
        Bresenham.Completed(l, cur, drawn);
        drawn := drawn + [(ix0, iy0)];
        break;
      }
      ghost var x, y, e := ix0, iy0, err;
      var e2 := 2 * err;
      if e2 >= dy {
        err := err + dy;
        ix0 := ix0 + sx;
      }
      if e2 <= dx {
        err := err + dx;
        iy0 := iy0 + sy;
      }
      Bresenham.Advance(l, cur, drawn, x, y, e, ix0, iy0, err);
      drawn := drawn + [(x, y)];
      cur := Bresenham.Step(l, cur);
    }
  }

  /** `drawLine(context, a, b, color)`: the x and y of two points. */
  method DrawLineBetween(ctx: Context, a: Vector3, b: Vector3, color: ByteColor)
    requires ctx.Valid()
    modifies ctx.pixels
    ensures ctx.pixels[..] == PlotAll(old(ctx.pixels[..]), ctx.width, ctx.height, ctx.bytesPerPixel,
      Bresenham.Points(Bresenham.Line(Trunc(a.x), Trunc(a.y), Trunc(b.x), Trunc(b.y))), color)
  {
    DrawLine(ctx, a.x, a.y, b.x, b.y, color);
  }

  /** What a `drawTriangle` call has done so far, measured against the
      buffers `z0`, `pix0` it started from: depth and colour changed only at
      the `touched` pixels, which all overlap the scanned box, hold a depth
      between the vertices' least and greatest depth and no greater than
      before, and are coloured with a texel of the image. */
  ghost predicate Drawn(ctx: Context, t: Triangle, img: Image, z0: seq<real>, pix0: seq<byte>, touched: set<int>)
    reads ctx, ctx.pixels, ctx.zBuffer
    requires ctx.Valid() && ValidImage(img)
  {
    DrawnOn(ctx.zBuffer[..], ctx.pixels[..], ctx.width, ctx.height, ctx.bytesPerPixel, t, img, z0, pix0, touched)
  }

  /** `Drawn` for the buffer contents `z` and `pix`. */
  ghost predicate DrawnOn(z: seq<real>, pix: seq<byte>, width: int, height: int, bpp: int,
                          t: Triangle, img: Image, z0: seq<real>, pix0: seq<byte>, touched: set<int>)
    requires ValidColourBuffer(pix, width, height, bpp) && ValidImage(img)
  {
    DepthFrame(z0, z, touched, ZLow(t), ZHigh(t)) &&
    ColourFrame(pix0, pix, bpp, touched) &&
    TouchedInBox(touched, width, TriangleBox(t, width, height)) &&
    TouchedTexels(pix, width, height, bpp, img, touched)
  }

  /** Storing a depth in range, no greater than the old one, and drawing a
      texel at an on-screen pixel of the box keeps `DrawnOn`, with that
      pixel touched. */
  lemma StoreStep(z: seq<real>, pix: seq<byte>, width: int, height: int, bpp: int,
                  t: Triangle, img: Image, z0: seq<real>, pix0: seq<byte>, touched: set<int>,
                  x: int, y: int, newZ: real, color: ByteColor)
    requires ValidColourBuffer(pix, width, height, bpp) && ValidImage(img) && |z| == width * height
    requires DrawnOn(z, pix, width, height, bpp, t, img, z0, pix0, touched)
    requires OnScreen(x, y, width, height) && PixelInBox(TriangleBox(t, width, height), x, y)
    requires 0 <= y * width + x < |z|
    requires ZLow(t) <= newZ <= ZHigh(t) && newZ <= z[y * width + x]
    requires IsTexel(img, color)
    ensures DrawnOn(z[y * width + x := newZ], PutPixel(pix, width, height, bpp, x, y, color),
                    width, height, bpp, t, img, z0, pix0, touched + {y * width + x})
  {
    DepthFrameStep(z0, z, width, height, touched, ZLow(t), ZHigh(t), x, y, newZ);
    ColourFrameStep(pix0, pix, width, height, bpp, touched, x, y, color);
    PixelIndexDecodes(x, y, width, height);
    TexelStep(pix, width, height, bpp, img, touched, x, y, color);
  }

  /** Every touched pixel holds a texel of the image. */
  ghost predicate TouchedTexels(pix: seq<byte>, width: int, height: int, bpp: int, img: Image, touched: set<int>)
    requires ValidColourBuffer(pix, width, height, bpp) && ValidImage(img)
  {
    forall k :: k in touched ==>
      (0 <= k < width * height && (k + 1) * bpp <= |pix| &&
       IsTexel(img, PixelColour(pix, bpp, k)))
  }

  /** Drawing a texel keeps every touched pixel a texel. */
  lemma TexelStep(pix: seq<byte>, width: int, height: int, bpp: int, img: Image, touched: set<int>,
                  x: int, y: int, color: ByteColor)
    requires ValidColourBuffer(pix, width, height, bpp) && ValidImage(img)
    requires TouchedTexels(pix, width, height, bpp, img, touched)
    requires OnScreen(x, y, width, height) && IsTexel(img, color)
    ensures TouchedTexels(PutPixel(pix, width, height, bpp, x, y, color), width, height, bpp, img, touched + {y * width + x})
  {
    GridOffsetInRange(x, y, width, height, 1);
    var pix' := PutPixel(pix, width, height, bpp, x, y, color);
    forall k | k in touched + {y * width + x}
      ensures 0 <= k < width * height && (k + 1) * bpp <= |pix'|
      ensures IsTexel(img, PixelColour(pix', bpp, k))
    {
      PutPixelColours(pix, width, height, bpp, x, y, color, k);
    }
  }

  /** The body of the inner loop for the sample point `(j, i)`. */
  method DrawSample(ctx: Context, t: Triangle, img: Image, j: real, i: real, coords: Vector3,
                    ghost z0: seq<real>, ghost pix0: seq<byte>, ghost touched: set<int>)
    returns (coords': Vector3, ghost touched': set<int>)
    requires ctx.Valid() && ValidImage(img) && PositiveW(t) && UvInUnit(t)
    requires InBox(TriangleBox(t, ctx.width, ctx.height), j, i)
    requires Drawn(ctx, t, img, z0, pix0, touched)
    modifies ctx.pixels, ctx.zBuffer
    ensures Drawn(ctx, t, img, z0, pix0, touched')
  {
    var a, b, c := t.a.position.v, t.b.position.v, t.c.position.v;
    var r := Contains(a, b, c, Vector3(j, i, 0.0), coords);
    coords' := r.coords;
    touched' := touched;
    if !r.found {
      return;
    }
    var j' := Trunc(j);
    var i' := Trunc(i);
    if j' < 0 || i' < 0 || j' >= ctx.width || i' >= ctx.height {
      return;
    }
    var box := TriangleBox(t, ctx.width, ctx.height);
    SamplePixelInBox(box, j, i);
    GridOffsetInRange(j', i', ctx.width, ctx.height, 1);
    var index := (i' * ctx.width) + j';
    var newZ := Interpolate(coords', a.z, b.z, c.z);
    var oldZ := ctx.zBuffer[index];
    if newZ > oldZ {
      return;
    }
    InterpolateBetween(coords', a.z, b.z, c.z);
    touched' := StoreSample(ctx, t, img, j', i', coords', newZ, z0, pix0, touched);
  }

  /** The depth write and the texel draw of a sample that passed the depth
      test at on-screen pixel `(x, y)`. */
  method StoreSample(ctx: Context, t: Triangle, img: Image, x: int, y: int, coords: Vector3, newZ: real,
                     ghost z0: seq<real>, ghost pix0: seq<byte>, ghost touched: set<int>)
    returns (ghost touched': set<int>)
    requires ctx.Valid() && ValidImage(img) && PositiveW(t) && UvInUnit(t) && IsConvexWeights(coords)
    requires OnScreen(x, y, ctx.width, ctx.height)
    requires PixelInBox(TriangleBox(t, ctx.width, ctx.height), x, y)
    requires 0 <= y * ctx.width + x < ctx.zBuffer.Length
    requires ZLow(t) <= newZ <= ZHigh(t) && newZ <= ctx.zBuffer[y * ctx.width + x]
    requires Drawn(ctx, t, img, z0, pix0, touched)
    modifies ctx.pixels, ctx.zBuffer
    ensures Drawn(ctx, t, img, z0, pix0, touched')
  {
    var index := (y * ctx.width) + x;
    ghost var z, pix := ctx.zBuffer[..], ctx.pixels[..];
    ctx.zBuffer[index] := newZ;
    var uv := PerspectiveUv(t, coords);
    var color := SampleTexture(img, uv);
    DrawPixel(ctx, x, y, color);
    touched' := touched + {index};
    assert ctx.zBuffer[..] == z[index := newZ];
    StoreStep(z, pix, ctx.width, ctx.height, ctx.bytesPerPixel, t, img, z0, pix0, touched, x, y, newZ, color);
  }

  /** The inner loop over one row `i` of the box. */
  method DrawRow(ctx: Context, t: Triangle, img: Image, i: real, coords: Vector3,
                 ghost z0: seq<real>, ghost pix0: seq<byte>, ghost touched: set<int>)
    returns (coords': Vector3, ghost touched': set<int>)
    requires ctx.Valid() && ValidImage(img) && PositiveW(t) && UvInUnit(t)
    requires var box := TriangleBox(t, ctx.width, ctx.height); box.minY <= i < box.maxY
    requires Drawn(ctx, t, img, z0, pix0, touched)
    modifies ctx.pixels, ctx.zBuffer
    ensures Drawn(ctx, t, img, z0, pix0, touched')
  {
    var box := TriangleBox(t, ctx.width, ctx.height);
    coords', touched' := coords, touched;
    var j := box.minX;
    while j < box.maxX
      invariant box.minX <= j
      invariant Drawn(ctx, t, img, z0, pix0, touched')
      decreases (box.maxX - j).Floor
    {
      coords', touched' := DrawSample(ctx, t, img, j, i, coords', z0, pix0, touched');
      j := j + 1.0;
    }
  }

  /** `drawTriangle(context, triangle)`: scans the clamped bounding box row
      by row; a sample inside the triangle on screen whose interpolated depth
      is not greater than the stored one (ties overwrite) stores that depth
      and draws the perspective-correct texel. The ghost result is the set
      of pixel indices written. */
  method DrawTriangle(ctx: Context, t: Triangle, img: Image) returns (ghost touched: set<int>)
    requires ctx.Valid() && ValidImage(img) && PositiveW(t) && UvInUnit(t)
    modifies ctx.pixels, ctx.zBuffer
    ensures Drawn(ctx, t, img, old(ctx.zBuffer[..]), old(ctx.pixels[..]), touched)
    ensures forall k :: 0 <= k < ctx.zBuffer.Length ==> ctx.zBuffer[k] <= old(ctx.zBuffer[k])
  {
    ghost var z0, pix0 := ctx.zBuffer[..], ctx.pixels[..];
    var box := TriangleBox(t, ctx.width, ctx.height);
    var coords := Zero;
    touched := {};
    var i := box.minY;
    while i < box.maxY
      invariant box.minY <= i
      invariant Drawn(ctx, t, img, z0, pix0, touched)
      decreases (box.maxY - i).Floor
    {
      coords, touched := DrawRow(ctx, t, img, i, coords, z0, pix0, touched);
      i := i + 1.0;
    }
    DepthNeverIncreases(z0, ctx.zBuffer[..], touched, ZLow(t), ZHigh(t));
  }

  /** The screen triangle the projecting overload builds. */
  function ScreenTriangle(a: Vertex, b: Vertex, c: Vertex, project: Vector3 -> ProjectedVector): Triangle
  {
    Triangle(Vertex(project(a.position.v), a.uv, a.color),
             Vertex(project(b.position.v), b.uv, b.color),
             Vertex(project(c.position.v), c.uv, c.color))
  }

  /** `drawTriangle(context, a, b, c, project)`: projects the three
      positions; draws nothing at all if a projected depth is outside
      [-1, 1], and otherwise fills the screen triangle. */
  method DrawProjectedTriangle(ctx: Context, a: Vertex, b: Vertex, c: Vertex,
                               project: Vector3 -> ProjectedVector, img: Image)
    returns (ghost touched: set<int>)
    requires ctx.Valid() && ValidImage(img)
    requires var s := ScreenTriangle(a, b, c, project);
      !OutsideDepthRange(s.a.position.v.z, s.b.position.v.z, s.c.position.v.z) ==> PositiveW(s) && UvInUnit(s)
    modifies ctx.pixels, ctx.zBuffer
    ensures var s := ScreenTriangle(a, b, c, project);
      if OutsideDepthRange(s.a.position.v.z, s.b.position.v.z, s.c.position.v.z) then
        touched == {} && ctx.pixels[..] == old(ctx.pixels[..]) && ctx.zBuffer[..] == old(ctx.zBuffer[..])
      else
        Drawn(ctx, s, img, old(ctx.zBuffer[..]), old(ctx.pixels[..]), touched)
  {
    var screenTriangle := Triangle(
      Vertex(project(a.position.v), a.uv, a.color),
      Vertex(project(b.position.v), b.uv, b.color),
      Vertex(project(c.position.v), c.uv, c.color));
    if RealAbs(screenTriangle.a.position.v.z) > 1.0
      || RealAbs(screenTriangle.b.position.v.z) > 1.0
      || RealAbs(screenTriangle.c.position.v.z) > 1.0 {
      return {};
    }
    touched := DrawTriangle(ctx, screenTriangle, img);
  }
}
