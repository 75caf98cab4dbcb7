/**
  The `Canvas` class of src/canvas.cpp: a colour buffer of `bpp` bytes per
  pixel and a depth buffer that its owner provides (the constructor stores
  the size only), the white z-buffered triangle fill and the float-colour
  `drawPixel`, and `project`, which takes a model-space point through the
  model-view-projection matrix to screen coordinates.
 */
module CanvasRaster {
  import opened Numeric
  import opened Vectors
  import opened Colors
  import opened Triangles
  import opened Raster
  import opened Matrices
  import opened Vertices

  /** `mvp * worldPos` on a homogeneous point. The math library's product of
      a `Matrix44` and a `Vector4` is not part of this model; it is assumed
      to be this column-major product, the layout that
      `Matrix44::operator*(Vector3)` uses. */
  function MulVec4(m: Mat, p: Vector4): (r: Vector4)
  {
    var v := p.xyz;
    Vector4(Vector3(m[0] * v.x + m[4] * v.y + m[8] * v.z + m[12] * p.w,
                    m[1] * v.x + m[5] * v.y + m[9] * v.z + m[13] * p.w,
                    m[2] * v.x + m[6] * v.y + m[10] * v.z + m[14] * p.w),
            m[3] * v.x + m[7] * v.y + m[11] * v.z + m[15] * p.w)
  }

  /** Under that assumption, for a point (w = 1) the homogeneous product
      followed by the division is exactly `Matrix44::operator*(Vector3)`. */
  lemma MulVec4IsTransformPoint(m: Mat, v: Vector3)
    requires PointW(m, v) != 0.0
    ensures MulVec4(m, Vector4(v, 1.0)).w == PointW(m, v)
    ensures Div(MulVec4(m, Vector4(v, 1.0)).xyz, PointW(m, v)) == TransformPoint(m, v)
  {
    var h := MulVec4(m, Vector4(v, 1.0));
    assert h.w == m[3] * v.x + m[7] * v.y + m[11] * v.z + m[15];
    assert h.xyz == Vector3(m[0] * v.x + m[4] * v.y + m[8] * v.z + m[12],
                            m[1] * v.x + m[5] * v.y + m[9] * v.z + m[13],
                            m[2] * v.x + m[6] * v.y + m[10] * v.z + m[14]);
  }

  /** NDC x in [-1, 1] runs left to right over [0, width]; NDC y in
      [-1, 1] runs bottom to top, so it is flipped onto [height, 0]. */
  function NdcToScreen(n: Vector3, width: int, height: int): (r: Vector3)
  {
    Vector3((n.x + 1.0) / 2.0 * (width as real), (-n.y + 1.0) / 2.0 * (height as real), n.z)
  }

  /** The inverse of the viewport map, for a non-empty screen. */
  function ScreenToNdc(s: Vector3, width: int, height: int): Vector3
    requires width > 0 && height > 0
  {
    Vector3(s.x * (2.0 / (width as real)) - 1.0, -(s.y * (2.0 / (height as real)) - 1.0), s.z)
  }

  /** The corners of the NDC square land on the corners of the screen, and
      depth passes through. */
  lemma NdcToScreenCorners(width: int, height: int, z: real)
    ensures NdcToScreen(Vector3(-1.0, 1.0, z), width, height) == Vector3(0.0, 0.0, z)
    ensures NdcToScreen(Vector3(1.0, -1.0, z), width, height) == Vector3(width as real, height as real, z)
  {
  }

  /** The viewport map is invertible on a non-empty screen, both ways round. */
  lemma NdcToScreenRoundTrip(n: Vector3, s: Vector3, width: int, height: int)
    requires width > 0 && height > 0
    ensures ScreenToNdc(NdcToScreen(n, width, height), width, height) == n
    ensures NdcToScreen(ScreenToNdc(s, width, height), width, height) == s
  {
    ViewportAxis(n.x, s.x, width as real);
    ViewportAxis(-n.y, -s.y, height as real);
  }

  /** One axis of the viewport map, `t -> (t + 1) / 2 * size`, and its
      inverse `u -> u * (2 / size) - 1`. */
  lemma ViewportAxis(t: real, u: real, size: real)
    requires size > 0.0
    ensures ((t + 1.0) / 2.0 * size) * (2.0 / size) - 1.0 == t
    ensures (u * (2.0 / size) - 1.0 + 1.0) / 2.0 * size == u
  {
    var a := (t + 1.0) / 2.0;
    var inv := 1.0 / size;
    assert size * inv == 1.0;
    assert 2.0 / size == 2.0 * inv;
    assert (a * size) * (2.0 * inv) == 2.0 * a * (size * inv);
    assert u * (2.0 * inv) / 2.0 * size == u * (size * inv);
  }

  /** The viewport map keeps the order of x and reverses the order of y. */
  lemma NdcToScreenMonotone(n: Vector3, m: Vector3, width: int, height: int)
    requires width > 0 && height > 0
    ensures n.x <= m.x <==> NdcToScreen(n, width, height).x <= NdcToScreen(m, width, height).x
    ensures n.y <= m.y <==> NdcToScreen(m, width, height).y <= NdcToScreen(n, width, height).y
  {
    var W, H := width as real, height as real;
    var a, b := (n.x + 1.0) / 2.0, (m.x + 1.0) / 2.0;
    if a <= b { RealMulMono(b, a, W); } else { RealMulMono(a, b, W); }
    var c, d := (-n.y + 1.0) / 2.0, (-m.y + 1.0) / 2.0;
    if c <= d { RealMulMono(d, c, H); } else { RealMulMono(c, d, H); }
  }

  /** `project` divides by the clip-space w unconditionally; the model asks
      for a non-zero one. */
  predicate Projectable(p: Vector4, mvp: Mat)
  {
    MulVec4(mvp, p).w != 0.0
  }

  /** `Canvas::project` for a canvas of `width` by `height`. */
  function Project(p: Vector4, mvp: Mat, width: int, height: int): (r: Vector4)
    requires Projectable(p, mvp)
  {
    var ndc := MulVec4(mvp, p);
    var xyz := Div(ndc.xyz, ndc.w);
    Vector4(NdcToScreen(xyz, width, height), ndc.w)
  }

  /** `project` keeps the clip-space w, its depth is the clip depth over w,
      and mapping its screen position back gives the clip position over w. */
  lemma ProjectKeepsDepthAndW(p: Vector4, mvp: Mat, width: int, height: int)
    requires Projectable(p, mvp) && width > 0 && height > 0
    ensures var clip := MulVec4(mvp, p); var r := Project(p, mvp, width, height);
      r.w == clip.w && r.xyz.z * clip.w == clip.xyz.z &&
      Scale(ScreenToNdc(r.xyz, width, height), clip.w) == clip.xyz
  {
    var clip := MulVec4(mvp, p);
    var nd := Div(clip.xyz, clip.w);
    NdcToScreenRoundTrip(nd, Zero, width, height);
  }

  /** The channel conversion `(unsigned char)(c * 255.f)` is defined when
      the truncated product fits in a byte. */
  predicate ByteConvertible(c: real)
  {
    -1.0 < c * 255.0 < 256.0
  }

  predicate ColorConvertible(c: Color)
  {
    ByteConvertible(c.r) && ByteConvertible(c.g) && ByteConvertible(c.b)
  }

  /** `(unsigned char)(c * 255.f)`: the largest byte not above `c * 255`
      (a slightly negative product truncates to 0). */
  function ToByte(c: real): (b: byte)
    requires ByteConvertible(c)
    ensures (b as real) <= Max(c * 255.0, 0.0) < (b as real) + 1.0
  {
    Trunc(c * 255.0) as byte
  }

  /** The three colour channels as bytes; alpha is not stored. */
  function ToByteColor(c: Color): ByteColor
    requires ColorConvertible(c)
  {
    ByteColor(ToByte(c.r), ToByte(c.g), ToByte(c.b))
  }

  /** Every channel in [0, 1] converts, 0 to the byte 0 and 1 to 255; so
      `Color::white` is stored as (255, 255, 255). */
  lemma ToByteRange(c: real)
    requires 0.0 <= c <= 1.0
    ensures ByteConvertible(c)
    ensures c == 0.0 ==> ToByte(c) == 0
    ensures c == 1.0 ==> ToByte(c) == 255
  {
  }

  lemma WhiteIsFullBytes()
    ensures ColorConvertible(White) && ToByteColor(White) == ByteColor(255, 255, 255)
  {
    ToByteRange(1.0);
  }

  /** The conversion is monotone: a brighter channel never gives a smaller
      byte. */
  lemma ToByteMonotone(c: real, d: real)
    requires ByteConvertible(c) && ByteConvertible(d) && c <= d
    ensures ToByte(c) <= ToByte(d)
  {
    RealMulMono(d, c, 255.0);
  }

  /** Every touched pixel holds the colour `c`. */
  ghost predicate TouchedColoured(pix: seq<byte>, width: int, height: int, bpp: int, c: ByteColor, touched: set<int>)
    requires ValidColourBuffer(pix, width, height, bpp)
  {
    forall k :: k in touched ==>
      (0 <= k < width * height && (k + 1) * bpp <= |pix| && PixelColour(pix, bpp, k) == c)
  }

  /** Drawing `c` at a pixel keeps every touched pixel coloured `c`. */
  lemma ColouredStep(pix: seq<byte>, width: int, height: int, bpp: int, c: ByteColor, touched: set<int>,
                     x: int, y: int)
    requires ValidColourBuffer(pix, width, height, bpp)
    requires TouchedColoured(pix, width, height, bpp, c, touched)
    requires OnScreen(x, y, width, height)
    ensures TouchedColoured(PutPixel(pix, width, height, bpp, x, y, c), width, height, bpp, c, touched + {y * width + x})
  {
    GridOffsetInRange(x, y, width, height, 1);
    var pix' := PutPixel(pix, width, height, bpp, x, y, c);
    forall k | k in touched + {y * width + x}
      ensures 0 <= k < width * height && (k + 1) * bpp <= |pix'|
      ensures PixelColour(pix', bpp, k) == c
    {
      PutPixelColours(pix, width, height, bpp, x, y, c, k);
    }
  }

  class Canvas {
    const width: int
    const height: int
    const bpp: int
    /** `_pixels` and `_zbuffer`: raw pointers the constructor leaves unset. */
    var pixels: array?<byte>
    var zbuffer: array?<real>

    /** Both buffers exist and have the sizes the drawing code indexes. */
    ghost predicate Ready()
      reads this
    {
      pixels != null && zbuffer != null &&
      width >= 0 && height >= 0 && bpp >= 3 &&
      pixels.Length == width * height * bpp && zbuffer.Length == width * height
    }

    /** Stores the size only; no buffer is allocated. */
    constructor (width: int, height: int, bpp: int)
      ensures this.width == width && this.height == height && this.bpp == bpp
      ensures pixels == null && zbuffer == null
    {
      this.width, this.height, this.bpp := width, height, bpp;
      pixels, zbuffer := null, null;
    }

    /** `drawPixel`: off screen nothing changes (and the colour is never
        converted); on screen exactly the three bytes at
        `y * stride + x * bpp` take the converted colour. */
    method DrawPixel(x: int, y: int, color: Color)
      requires Ready()
      requires OnScreen(x, y, width, height) ==> ColorConvertible(color)
      modifies pixels
      ensures OnScreen(x, y, width, height) ==>
        pixels[..] == PutPixel(old(pixels[..]), width, height, bpp, x, y, ToByteColor(color))
      ensures !OnScreen(x, y, width, height) ==> pixels[..] == old(pixels[..])
    {
      if x < 0 || y < 0 || x >= width || y >= height {
        return;
      }
      GridOffsetInRange(x, y, width, height, bpp);
      var stride := width * bpp;
      var index := (y * stride) + x * bpp;
      pixels[index + 0] := ToByte(color.r);
      pixels[index + 1] := ToByte(color.g);
      pixels[index + 2] := ToByte(color.b);
    }

    /** What a `drawTriangle` fill has done so far against the buffers
        `z0`, `pix0` it started from, for the screen triangle `a`, `b`, `c`:
        depth and colour changed only at the `touched` pixels, which overlap
        the scanned box, hold a depth between the vertices' least and
        greatest depth and no greater than before, and are white. */
    ghost predicate Drawn(a: Vector3, b: Vector3, c: Vector3, z0: seq<real>, pix0: seq<byte>, touched: set<int>)
      reads this, pixels, zbuffer
      requires Ready()
    {
      DepthFrame(z0, zbuffer[..], touched, Min3(a.z, b.z, c.z), Max3(a.z, b.z, c.z)) &&
      ColourFrame(pix0, pixels[..], bpp, touched) &&
      TouchedInBox(touched, width, ClampedBox(a, b, c, width, height)) &&
      TouchedColoured(pixels[..], width, height, bpp, ByteColor(255, 255, 255), touched)
    }

    /** The body of the inner loop for the sample point `(j, i)`. */
    method DrawSample(a: Vector3, b: Vector3, c: Vector3, j: real, i: real, coords: Vector3,
                      ghost z0: seq<real>, ghost pix0: seq<byte>, ghost touched: set<int>)
      returns (coords': Vector3, ghost touched': set<int>)
      requires Ready()
      requires InBox(ClampedBox(a, b, c, width, height), j, i)
      requires Drawn(a, b, c, z0, pix0, touched)
      modifies pixels, zbuffer
      ensures Drawn(a, b, c, z0, pix0, touched')
    {
      var r := Contains(a, b, c, Vector3(j, i, 0.0), coords);
      coords' := r.coords;
      touched' := touched;
      if !r.found {
        return;
      }
      var j' := Trunc(j);
      var i' := Trunc(i);
      if j' < 0 || i' < 0 || j' >= width || i' >= height {
        return;
      }
      SamplePixelInBox(ClampedBox(a, b, c, width, height), j, i);
      GridOffsetInRange(j', i', width, height, 1);
      var index := (i' * width) + j';
      var newZ := Interpolate(coords', a.z, b.z, c.z);
      var oldZ := zbuffer[index];
      if newZ > oldZ {
        return;
      }
      InterpolateBetween(coords', a.z, b.z, c.z);
      touched' := StoreWhite(a, b, c, j', i', newZ, z0, pix0, touched);
    }

    /** The depth write and the white pixel of a sample that passed the
        depth test at on-screen pixel `(x, y)`. */
    method StoreWhite(a: Vector3, b: Vector3, c: Vector3, x: int, y: int, newZ: real,
                      ghost z0: seq<real>, ghost pix0: seq<byte>, ghost touched: set<int>)
      returns (ghost touched': set<int>)
      requires Ready()
      requires OnScreen(x, y, width, height)
      requires PixelInBox(ClampedBox(a, b, c, width, height), x, y)
      requires 0 <= y * width + x < zbuffer.Length
      requires Min3(a.z, b.z, c.z) <= newZ <= Max3(a.z, b.z, c.z) && newZ <= zbuffer[y * width + x]
      requires Drawn(a, b, c, z0, pix0, touched)
      modifies pixels, zbuffer
      ensures Drawn(a, b, c, z0, pix0, touched')
    {
      var index := (y * width) + x;
      ghost var pix := pixels[..];
      DepthFrameStep(z0, zbuffer[..], width, height, touched, Min3(a.z, b.z, c.z), Max3(a.z, b.z, c.z), x, y, newZ);
      zbuffer[index] := newZ;
      WhiteIsFullBytes();
      DrawPixel(x, y, White);
      touched' := touched + {index};
      ColourFrameStep(pix0, pix, width, height, bpp, touched, x, y, ByteColor(255, 255, 255));
      PixelIndexDecodes(x, y, width, height);
      ColouredStep(pix, width, height, bpp, ByteColor(255, 255, 255), touched, x, y);
    }

    /** The inner loop over one row `i` of the box. */
    method DrawRow(a: Vector3, b: Vector3, c: Vector3, i: real, coords: Vector3,
                   ghost z0: seq<real>, ghost pix0: seq<byte>, ghost touched: set<int>)
      returns (coords': Vector3, ghost touched': set<int>)
      requires Ready()
      requires var box := ClampedBox(a, b, c, width, height); box.minY <= i < box.maxY
      requires Drawn(a, b, c, z0, pix0, touched)
      modifies pixels, zbuffer
      ensures Drawn(a, b, c, z0, pix0, touched')
    {
      var box := ClampedBox(a, b, c, width, height);
      coords', touched' := coords, touched;
      var j := box.minX;
      while j < box.maxX
        invariant box.minX <= j
        invariant Drawn(a, b, c, z0, pix0, touched')
        decreases (box.maxX - j).Floor
      {
        coords', touched' := DrawSample(a, b, c, j, i, coords', z0, pix0, touched');
        j := j + 1.0;
      }
    }

    /** `drawTriangle(v1, v2, v3, mvp)`: projects the three positions and
        draws nothing at all if a projected depth lies outside [-1, 1];
        otherwise scans the clamped bounding box of the screen triangle, and
        a sample inside it on screen whose interpolated depth is not greater
        than the stored one (ties overwrite) stores that depth and draws a
        white pixel. The ghost result is the set of pixel indices written. */
    method DrawTriangle(v1: Vertex, v2: Vertex, v3: Vertex, mvp: Mat) returns (ghost touched: set<int>)
      requires Ready()
      requires Projectable(v1.position, mvp) && Projectable(v2.position, mvp) && Projectable(v3.position, mvp)
      modifies pixels, zbuffer
      ensures var a, b, c := Project(v1.position, mvp, width, height),
                             Project(v2.position, mvp, width, height),
                             Project(v3.position, mvp, width, height);
        if OutsideDepthRange(a.xyz.z, b.xyz.z, c.xyz.z) then
          touched == {} && pixels[..] == old(pixels[..]) && zbuffer[..] == old(zbuffer[..])
        else
          Drawn(a.xyz, b.xyz, c.xyz, old(zbuffer[..]), old(pixels[..]), touched)
      ensures forall k :: 0 <= k < zbuffer.Length ==> zbuffer[k] <= old(zbuffer[k])
    {
      var a := Project(v1.position, mvp, width, height);
      var b := Project(v2.position, mvp, width, height);
      var c := Project(v3.position, mvp, width, height);
      touched := {};
      if RealAbs(a.xyz.z) > 1.0 || RealAbs(b.xyz.z) > 1.0 || RealAbs(c.xyz.z) > 1.0 {
        return;
      }
      ghost var z0, pix0 := zbuffer[..], pixels[..];
      var box := ClampedBox(a.xyz, b.xyz, c.xyz, width, height);
      var coords := Zero;
      var i := box.minY;
      while i < box.maxY
        invariant box.minY <= i
        invariant Drawn(a.xyz, b.xyz, c.xyz, z0, pix0, touched)
        decreases (box.maxY - i).Floor
      {
        coords, touched := DrawRow(a.xyz, b.xyz, c.xyz, i, coords, z0, pix0, touched);
        i := i + 1.0;
      }
      DepthNeverIncreases(z0, zbuffer[..], touched, Min3(a.xyz.z, b.xyz.z, c.xyz.z), Max3(a.xyz.z, b.xyz.z, c.xyz.z));
    }
  }
}
