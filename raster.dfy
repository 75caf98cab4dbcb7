/**
  What the two triangle rasterisers (the free functions of src/main.cpp and
  the `Canvas` class of src/canvas.cpp) share: the colour buffer as a
  sequence of bytes with `bpp` bytes per pixel in row-major order, the pixel
  write at byte `y * (width * bpp) + x * bpp`, the clamped bounding box that
  the fill loops scan, and the frame conditions that say which parts of the
  colour and depth buffers a triangle may change.
 */
module Raster {
  import opened Numeric
  import opened Vectors
  import opened Colors
  import opened Triangles

  /** A colour buffer of `width * height` pixels of `bpp >= 3` bytes. */
  predicate ValidColourBuffer(pix: seq<byte>, width: int, height: int, bpp: int)
  {
    width >= 0 && height >= 0 && bpp >= 3 && |pix| == width * height * bpp
  }

  predicate OnScreen(x: int, y: int, width: int, height: int)
  {
    0 <= x < width && 0 <= y < height
  }

  /** The three bytes of pixel `k`. */
  function PixelColour(pix: seq<byte>, bpp: int, k: int): ByteColor
    requires 0 <= k && bpp >= 3 && (k + 1) * bpp <= |pix|
  {
    assert k * bpp + bpp == (k + 1) * bpp;
    ByteColor(pix[k * bpp], pix[k * bpp + 1], pix[k * bpp + 2])
  }

  function Channel(c: ByteColor, i: int): byte
  {
    if i == 0 then c.r else if i == 1 then c.g else c.b
  }

  /** `drawPixel(x, y, color)` on the buffer as a value: nothing happens off
      screen; on screen the three bytes from `y * stride + x * bpp` take the
      colour. */
  function PutPixel(pix: seq<byte>, width: int, height: int, bpp: int, x: int, y: int, c: ByteColor): (r: seq<byte>)
    requires ValidColourBuffer(pix, width, height, bpp)
    ensures |r| == |pix|
  {
    if x < 0 || y < 0 || x >= width || y >= height then pix
    else
      var stride := width * bpp;
      var index := y * stride + x * bpp;
      GridOffsetInRange(x, y, width, height, bpp);
      pix[index := c.r][index + 1 := c.g][index + 2 := c.b]
  }

  /** Byte by byte: `PutPixel` changes exactly the first three bytes of the
      pixel `(x, y)` when it is on screen, and no byte otherwise. */
  lemma PutPixelBytes(pix: seq<byte>, width: int, height: int, bpp: int, x: int, y: int, c: ByteColor, b: int)
    requires ValidColourBuffer(pix, width, height, bpp)
    requires 0 <= b < |pix|
    ensures PutPixel(pix, width, height, bpp, x, y, c)[b] ==
      if OnScreen(x, y, width, height) && b / bpp == y * width + x && b % bpp < 3
      then Channel(c, b % bpp) else pix[b]
  {
    if OnScreen(x, y, width, height) {
      var k := y * width + x;
      GridOffsetInRange(x, y, width, height, bpp);
      var index := k * bpp;
      assert y * (width * bpp) + x * bpp == index;
      var q, m := b / bpp, b % bpp;
      assert b == q * bpp + m;
      if q == k && m < 3 {
        assert b == index + m;
      } else {
        if index <= b < index + 3 {
          DivModUnique(k, b - index, bpp);
          assert false;
        }
      }
    }
  }

  /** After a pixel write, the written pixel has the new colour and every
      other pixel keeps its colour. */
  lemma PutPixelColours(pix: seq<byte>, width: int, height: int, bpp: int, x: int, y: int, c: ByteColor, k: int)
    requires ValidColourBuffer(pix, width, height, bpp)
    requires 0 <= k < width * height
    ensures (k + 1) * bpp <= |pix|
    ensures PixelColour(PutPixel(pix, width, height, bpp, x, y, c), bpp, k) ==
      if OnScreen(x, y, width, height) && k == y * width + x then c else PixelColour(pix, bpp, k)
  {
    var n := width * height;
    PixelByte(k, 0, bpp, n);
    PixelByte(k, 1, bpp, n);
    PixelByte(k, 2, bpp, n);
    var b := k * bpp;
    PutPixelBytes(pix, width, height, bpp, x, y, c, b);
    PutPixelBytes(pix, width, height, bpp, x, y, c, b + 1);
    PutPixelBytes(pix, width, height, bpp, x, y, c, b + 2);
  }

  /** Byte `i < 3` of pixel `k` lies in the buffer and decodes back to
      pixel `k`, channel `i`. */
  lemma PixelByte(k: int, i: int, bpp: int, n: int)
    requires 0 <= k < n && 0 <= i < 3 && bpp >= 3
    ensures (k + 1) * bpp <= n * bpp
    ensures 0 <= k * bpp + i < n * bpp
    ensures (k * bpp + i) / bpp == k && (k * bpp + i) % bpp == i
  {
    MulMono(n, k + 1, bpp);
    assert (k + 1) * bpp == k * bpp + bpp;
    MulMono(k, 0, bpp);
    DivModUnique(k, i, bpp);
  }

  /** A sequence of `drawPixel` calls in one colour, in order. */
  function PlotAll(pix: seq<byte>, width: int, height: int, bpp: int, pts: seq<(int, int)>, c: ByteColor): (r: seq<byte>)
    requires ValidColourBuffer(pix, width, height, bpp)
    ensures |r| == |pix|
    decreases |pts|
  {
    if pts == [] then pix
    else
      var last := pts[|pts| - 1];
      PutPixel(PlotAll(pix, width, height, bpp, pts[..|pts| - 1], c), width, height, bpp, last.0, last.1, c)
  }

  /** Some on-screen point of `pts` is pixel `k`. */
  ghost predicate Hits(pts: seq<(int, int)>, width: int, height: int, k: int)
  {
    exists i :: 0 <= i < |pts| && OnScreen(pts[i].0, pts[i].1, width, height) && pts[i].1 * width + pts[i].0 == k
  }

  /** Plotting one more point is one more `PutPixel`. */
  lemma PlotAllSnoc(pix: seq<byte>, width: int, height: int, bpp: int, pts: seq<(int, int)>, p: (int, int), c: ByteColor)
    requires ValidColourBuffer(pix, width, height, bpp)
    ensures PlotAll(pix, width, height, bpp, pts + [p], c) ==
      PutPixel(PlotAll(pix, width, height, bpp, pts, c), width, height, bpp, p.0, p.1, c)
  {
    assert (pts + [p])[..|pts|] == pts;
  }

  /** After plotting, a pixel has the colour exactly when some on-screen
      point landed on it, and keeps its old colour otherwise. */
  lemma {:induction false} PlotAllColours(pix: seq<byte>, width: int, height: int, bpp: int, pts: seq<(int, int)>, c: ByteColor, k: int)
    requires ValidColourBuffer(pix, width, height, bpp)
    requires 0 <= k < width * height
    ensures (k + 1) * bpp <= |pix|
    ensures PixelColour(PlotAll(pix, width, height, bpp, pts, c), bpp, k) ==
      if Hits(pts, width, height, k) then c else PixelColour(pix, bpp, k)
    decreases |pts|
  {
    PixelByte(k, 0, bpp, width * height);
    if pts != [] {
      var init, last := pts[..|pts| - 1], pts[|pts| - 1];
      PlotAllColours(pix, width, height, bpp, init, c, k);
      var before := PlotAll(pix, width, height, bpp, init, c);
      PutPixelColours(before, width, height, bpp, last.0, last.1, c, k);
      if OnScreen(last.0, last.1, width, height) && last.1 * width + last.0 == k {
        assert Hits(pts, width, height, k) by {
          assert pts[|pts| - 1] == last;
        }
      } else {
        if Hits(pts, width, height, k) {
          var i :| 0 <= i < |pts| && OnScreen(pts[i].0, pts[i].1, width, height) && pts[i].1 * width + pts[i].0 == k;
          assert i < |pts| - 1 && init[i] == pts[i];
          assert Hits(init, width, height, k);
        }
        if Hits(init, width, height, k) {
          var i :| 0 <= i < |init| && OnScreen(init[i].0, init[i].1, width, height) && init[i].1 * width + init[i].0 == k;
          assert pts[i] == init[i];
          assert Hits(pts, width, height, k);
        }
      }
    }
  }

  /** The rectangle a fill loop scans: `i` from `minY` while `i < maxY`,
      `j` from `minX` while `j < maxX`. */
  datatype Box = Box(minX: real, minY: real, maxX: real, maxY: real)

  predicate InBox(box: Box, x: real, y: real)
  {
    box.minX <= x < box.maxX && box.minY <= y < box.maxY
  }

  /** The vertices' bounding box clipped to the screen: the lower corner
      raised to 0 and the upper corner lowered to the screen size. */
  function ClampedBox(a: Vector3, b: Vector3, c: Vector3, width: int, height: int): (r: Box)
    ensures 0.0 <= r.minX && 0.0 <= r.minY
    ensures r.maxX <= width as real && r.maxY <= height as real
  {
    var minX := Min(a.x, Min(b.x, c.x));
    var minY := Min(a.y, Min(b.y, c.y));
    var maxX := Max(a.x, Max(b.x, c.x));
    var maxY := Max(a.y, Max(b.y, c.y));
    Box(Max(minX, 0.0), Max(minY, 0.0), Min(maxX, width as real), Min(maxY, height as real))
  }

  /** A point is scanned exactly when it is on the screen rectangle, at or
      right of some vertex, left of some vertex, at or below some vertex
      and above some vertex. */
  lemma ClampedBoxSpan(a: Vector3, b: Vector3, c: Vector3, width: int, height: int, x: real, y: real)
    ensures InBox(ClampedBox(a, b, c, width, height), x, y) <==>
      0.0 <= x < width as real && 0.0 <= y < height as real &&
      (a.x <= x || b.x <= x || c.x <= x) && (x < a.x || x < b.x || x < c.x) &&
      (a.y <= y || b.y <= y || c.y <= y) && (y < a.y || y < b.y || y < c.y)
  {
  }

  /** The pixel `(px, py)` overlaps the box. */
  predicate PixelInBox(box: Box, px: int, py: int)
  {
    box.minX < (px + 1) as real && (px as real) < box.maxX &&
    box.minY < (py + 1) as real && (py as real) < box.maxY
  }

  /** A scanned sample point falls in a pixel that overlaps the box. */
  lemma SamplePixelInBox(box: Box, j: real, i: real)
    requires InBox(box, j, i) && 0.0 <= box.minX && 0.0 <= box.minY
    ensures PixelInBox(box, Trunc(j), Trunc(i))
  {
  }

  /** Depth entries outside `touched` are unchanged; every touched entry is
      an in-range index whose depth did not increase and lies in [lo, hi]. */
  ghost predicate DepthFrame(z0: seq<real>, z: seq<real>, touched: set<int>, lo: real, hi: real)
  {
    |z| == |z0| &&
    (forall k :: 0 <= k < |z| && k !in touched ==> z[k] == z0[k]) &&
    (forall k :: k in touched ==> 0 <= k < |z| && lo <= z[k] <= hi && z[k] <= z0[k])
  }

  /** Only the first three bytes of touched pixels may differ. */
  ghost predicate ColourFrame(pix0: seq<byte>, pix: seq<byte>, bpp: int, touched: set<int>)
    requires bpp > 0
  {
    |pix| == |pix0| &&
    forall b :: 0 <= b < |pix| && !(b / bpp in touched && b % bpp < 3) ==> pix[b] == pix0[b]
  }

  /** Every touched pixel overlaps the box. */
  ghost predicate TouchedInBox(touched: set<int>, width: int, box: Box)
  {
    forall k :: k in touched ==> width > 0 && k >= 0 && PixelInBox(box, k % width, k / width)
  }

  /** No depth entry grows: the consequence of `DepthFrame` the renderer
      relies on. */
  lemma DepthNeverIncreases(z0: seq<real>, z: seq<real>, touched: set<int>, lo: real, hi: real)
    requires DepthFrame(z0, z, touched, lo, hi)
    ensures forall k :: 0 <= k < |z| ==> z[k] <= z0[k]
  {
  }

  /** The per-sample step on depth: writing `nz <= z[k]` at an on-screen
      entry `k` keeps the frame with `k` added to `touched`. */
  lemma DepthFrameStep(z0: seq<real>, z: seq<real>, width: int, height: int,
                       touched: set<int>, lo: real, hi: real, px: int, py: int, nz: real)
    requires |z| == width * height && DepthFrame(z0, z, touched, lo, hi)
    requires OnScreen(px, py, width, height)
    requires 0 <= py * width + px < |z|
    requires lo <= nz <= hi && nz <= z[py * width + px]
    ensures DepthFrame(z0, z[py * width + px := nz], touched + {py * width + px}, lo, hi)
  {
  }

  /** The per-sample step on colour: a pixel write keeps the frame with the
      pixel's index added to `touched`. */
  lemma ColourFrameStep(pix0: seq<byte>, pix: seq<byte>, width: int, height: int, bpp: int,
                        touched: set<int>, px: int, py: int, c: ByteColor)
    requires ValidColourBuffer(pix, width, height, bpp) && ColourFrame(pix0, pix, bpp, touched)
    requires OnScreen(px, py, width, height)
    ensures ColourFrame(pix0, PutPixel(pix, width, height, bpp, px, py, c), bpp, touched + {py * width + px})
  {
    var k := py * width + px;
    var pix' := PutPixel(pix, width, height, bpp, px, py, c);
    forall b | 0 <= b < |pix'| && !(b / bpp in touched + {k} && b % bpp < 3)
      ensures pix'[b] == pix0[b]
    {
      PutPixelBytes(pix, width, height, bpp, px, py, c, b);
    }
  }

  /** The index of pixel `(px, py)` decodes back to its column and row. */
  lemma PixelIndexDecodes(px: int, py: int, width: int, height: int)
    requires OnScreen(px, py, width, height)
    ensures (py * width + px) % width == px && (py * width + px) / width == py
  {
    DivModUnique(py, px, width);
  }
}
