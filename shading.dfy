/**
  `PhongMaterial::Shade` of src/phong_material.cpp: the colour of a vertex is
  the material's ambient colour, replaced by a texel of the diffuse texture
  when there is one, and overridden by green when the normal points towards
  the viewer. The texture is an abstract record of its size, its bytes per
  pixel and its bytes (loading it is not part of this model).
 */
module Shading {
  import opened Numeric
  import opened Vectors
  import opened Colors
  import opened Vertices

  datatype Texture = Texture(width: int, height: int, bpp: int, data: seq<byte>)

  /** A loaded image: `width * height` pixels of `bpp >= 3` bytes. */
  predicate ValidTexture(t: Texture)
  {
    t.width > 0 && t.height > 0 && t.bpp >= 3 && |t.data| == t.width * t.height * t.bpp
  }

  /** The ambient colour and the optional diffuse texture. */
  datatype PhongMaterial = PhongMaterial(ambient: Color, diffuse: Option<Texture>)

  /** `(int)(t * n) % n` with C++'s remainder: in (-n, n), and in [0, n)
      for a non-negative coordinate. */
  function TexelCoordinate(t: real, n: int): (c: int)
    requires n > 0
    ensures -n < c < n
    ensures t >= 0.0 ==> 0 <= c
  {
    RealMulNonNegative(t, n as real);
    CRem(Trunc(t * (n as real)), n)
  }

  lemma RealMulNonNegative(a: real, b: real)
    requires b >= 0.0
    ensures a >= 0.0 ==> a * b >= 0.0
  {
  }

  /** The byte offset `ty * width * bpp + tx * bpp` the texel is read from. */
  function TexelIndex(tex: Texture, uv: Vector2): int
    requires ValidTexture(tex)
  {
    var tx := TexelCoordinate(uv.x, tex.width);
    var ty := TexelCoordinate(uv.y, tex.height);
    ty * tex.width * tex.bpp + tx * tex.bpp
  }

  /** The three bytes from the texel offset lie inside the texture. The
      source reads them unchecked, so `Shade` asks for this. */
  predicate TexelReadable(tex: Texture, uv: Vector2)
  {
    ValidTexture(tex) && 0 <= TexelIndex(tex, uv) && TexelIndex(tex, uv) + 2 < |tex.data|
  }

  /** The bytes at `idx`, `idx + 1`, `idx + 2` over 255, opaque. */
  function TexelColor(tex: Texture, idx: int): (c: Color)
    requires 0 <= idx && idx + 2 < |tex.data|
    ensures InUnitRange(c) && c.a == 1.0
  {
    Color(tex.data[idx] as real / 255.0, tex.data[idx + 1] as real / 255.0, tex.data[idx + 2] as real / 255.0, 1.0)
  }

  /** `Shade(vertex, lights)`. */
  function Shade<L>(m: PhongMaterial, vertex: Vertex, lights: seq<L>): (c: Color)
    requires m.diffuse.Some? ==> TexelReadable(m.diffuse.value, vertex.uv)
    ensures vertex.normal.z > 0.5 ==> c == Green
    ensures vertex.normal.z <= 0.5 && m.diffuse.None? ==> c == m.ambient
    ensures vertex.normal.z <= 0.5 && m.diffuse.Some? ==> InUnitRange(c) && c.a == 1.0
  {
    var color :=
      if m.diffuse.Some? then
        var diffuse := m.diffuse.value;
        TexelColor(diffuse, TexelIndex(diffuse, vertex.uv))
      else m.ambient;
    if vertex.normal.z > 0.5 then Green else color
  }

  /** A non-negative texture coordinate is always readable: the texel
      column and row lie in the texture and the offset is that pixel's
      first byte. */
  lemma NonNegativeUvReadable(tex: Texture, uv: Vector2)
    requires ValidTexture(tex) && uv.x >= 0.0 && uv.y >= 0.0
    ensures TexelReadable(tex, uv)
    ensures var tx, ty := TexelCoordinate(uv.x, tex.width), TexelCoordinate(uv.y, tex.height);
      0 <= tx < tex.width && 0 <= ty < tex.height &&
      TexelIndex(tex, uv) == (ty * tex.width + tx) * tex.bpp
  {
    var tx, ty := TexelCoordinate(uv.x, tex.width), TexelCoordinate(uv.y, tex.height);
    assert TexelIndex(tex, uv) == ty * tex.width * tex.bpp + tx * tex.bpp;
    ByteOffsetLayout(tx, ty, tex.width, tex.height, tex.bpp);
  }

  /** The offset `y * width * bpp + x * bpp` of an in-range pixel is the
      first of its `bpp` bytes, all inside the buffer. */
  lemma ByteOffsetLayout(x: int, y: int, width: int, height: int, bpp: int)
    requires 0 <= x < width && 0 <= y < height && bpp >= 3
    ensures y * width * bpp + x * bpp == (y * width + x) * bpp
    ensures 0 <= (y * width + x) * bpp && (y * width + x) * bpp + 2 < width * height * bpp
  {
    GridOffsetInRange(x, y, width, height, bpp);
    assert y * width * bpp == y * (width * bpp);
  }

  /** With a texture, a non-negative texture coordinate and a normal that
      does not trigger the override, the colour is the texel at column
      `trunc(u * width) mod width` and row `trunc(v * height) mod height`
      (the wrapped coordinates). */
  lemma ShadeSamplesTexel<L>(m: PhongMaterial, vertex: Vertex, lights: seq<L>)
    requires m.diffuse.Some? && ValidTexture(m.diffuse.value)
    requires vertex.uv.x >= 0.0 && vertex.uv.y >= 0.0 && vertex.normal.z <= 0.5
    ensures TexelReadable(m.diffuse.value, vertex.uv)
    ensures var tex := m.diffuse.value;
      Shade(m, vertex, lights) ==
        TexelAt(tex, WrappedTexelCoordinate(vertex.uv.x, tex.width), WrappedTexelCoordinate(vertex.uv.y, tex.height))
  {
    var tex := m.diffuse.value;
    NonNegativeCoordinateWraps(vertex.uv.x, tex.width);
    NonNegativeCoordinateWraps(vertex.uv.y, tex.height);
    ShadeSamplesTexelAt(m, vertex, lights);
  }

  lemma ShadeSamplesTexelAt<L>(m: PhongMaterial, vertex: Vertex, lights: seq<L>)
    requires m.diffuse.Some? && ValidTexture(m.diffuse.value)
    requires vertex.uv.x >= 0.0 && vertex.uv.y >= 0.0 && vertex.normal.z <= 0.5
    ensures TexelReadable(m.diffuse.value, vertex.uv)
    ensures var tex := m.diffuse.value;
      var tx, ty := TexelCoordinate(vertex.uv.x, tex.width), TexelCoordinate(vertex.uv.y, tex.height);
      0 <= tx < tex.width && 0 <= ty < tex.height &&
      Shade(m, vertex, lights) == TexelAt(tex, tx, ty)
  {
    var tex := m.diffuse.value;
    NonNegativeUvReadable(tex, vertex.uv);
  }

  /** The colour of texel `(tx, ty)`, stored from byte `(ty * width + tx) * bpp`. */
  function TexelAt(tex: Texture, tx: int, ty: int): Color
    requires ValidTexture(tex) && 0 <= tx < tex.width && 0 <= ty < tex.height
  {
    GridOffsetInRange(tx, ty, tex.width, tex.height, tex.bpp);
    TexelColor(tex, (ty * tex.width + tx) * tex.bpp)
  }

  /** For a non-negative coordinate C++'s remainder is the mathematical one. */
  lemma NonNegativeCoordinateWraps(t: real, n: int)
    requires t >= 0.0 && n > 0
    ensures TexelCoordinate(t, n) == WrappedTexelCoordinate(t, n)
  {
    RealMulNonNegative(t, n as real);
  }

  /** The (unused) light list has no influence on the result. */
  lemma ShadeIgnoresLights<L, M>(m: PhongMaterial, vertex: Vertex, lights: seq<L>, others: seq<M>)
    requires m.diffuse.Some? ==> TexelReadable(m.diffuse.value, vertex.uv)
    ensures Shade(m, vertex, lights) == Shade(m, vertex, others)
  {
  }

  /** With a texture the ambient colour is replaced, not blended: any
      other ambient colour gives the same result. */
  lemma TextureReplacesAmbient<L>(m: PhongMaterial, vertex: Vertex, lights: seq<L>, ambient: Color)
    requires m.diffuse.Some? && TexelReadable(m.diffuse.value, vertex.uv)
    ensures Shade(m, vertex, lights) == Shade(m.(ambient := ambient), vertex, lights)
  {
  }

  /** A material whose ambient colour has channels in [0, 1] shades every
      vertex with channels in [0, 1]. */
  lemma ShadeInUnitRange<L>(m: PhongMaterial, vertex: Vertex, lights: seq<L>)
    requires m.diffuse.Some? ==> TexelReadable(m.diffuse.value, vertex.uv)
    requires InUnitRange(m.ambient)
    ensures InUnitRange(Shade(m, vertex, lights))
  {
  }

  /** As written, a negative coordinate gives a negative texel column:
      `u = -0.25` on a texture 4 texels wide gives column -1 rather than
      the wrapped column 3. */
  lemma NegativeUvColumn()
    ensures TexelCoordinate(-0.25, 4) == -1
  {
    assert -0.25 * 4.0 == -1.0;
  }

  /** ... so on a texture of 4 by 4 RGB texels the coordinate (-0.25, 0.5)
      reads the offset 21, the last texel of row 1, while the wrapped texel
      (3, 2) starts at offset 33; and at (-0.25, 0) the offset is -3, before
      the buffer. */
  lemma NegativeUvReadsWrongTexel(data: seq<byte>)
    requires |data| == 48
    ensures TexelIndex(Texture(4, 4, 3, data), Vector2(-0.25, 0.5)) == 21
    ensures (2 * 4 + WrappedTexelCoordinate(-0.25, 4)) * 3 == 33
    ensures TexelIndex(Texture(4, 4, 3, data), Vector2(-0.25, 0.0)) == -3
  {
    NegativeUvColumn();
    assert 0.5 * 4.0 == 2.0;
    assert -0.25 * 4.0 == -1.0;
  }

  /** The wrap the remainder is meant to perform: the truncated product
      reduced into [0, n) for every coordinate, negative ones included. */
  function WrappedTexelCoordinate(t: real, n: int): (c: int)
    requires n > 0
    ensures 0 <= c < n
    ensures Trunc(t * (n as real)) == (Trunc(t * (n as real)) / n) * n + c
  {
    var k := Trunc(t * (n as real));
    k % n
  }

  /** The byte offset of the wrapped texel. */
  function WrappedTexelIndex(tex: Texture, uv: Vector2): (idx: int)
    requires ValidTexture(tex)
    ensures 0 <= idx && idx + 2 < |tex.data|
  {
    var tx := WrappedTexelCoordinate(uv.x, tex.width);
    var ty := WrappedTexelCoordinate(uv.y, tex.height);
    GridOffsetInRange(tx, ty, tex.width, tex.height, tex.bpp);
    assert ty * tex.width * tex.bpp == ty * (tex.width * tex.bpp);
    ty * tex.width * tex.bpp + tx * tex.bpp
  }

  /** `Shade` with the wrapped texel: defined for every texture coordinate. */
  function ShadeWrapped<L>(m: PhongMaterial, vertex: Vertex, lights: seq<L>): (c: Color)
    requires m.diffuse.Some? ==> ValidTexture(m.diffuse.value)
    ensures vertex.normal.z > 0.5 ==> c == Green
    ensures vertex.normal.z <= 0.5 && m.diffuse.None? ==> c == m.ambient
    ensures vertex.normal.z <= 0.5 && m.diffuse.Some? ==> InUnitRange(c) && c.a == 1.0
  {
    var color :=
      if m.diffuse.Some? then
        var diffuse := m.diffuse.value;
        TexelColor(diffuse, WrappedTexelIndex(diffuse, vertex.uv))
      else m.ambient;
    if vertex.normal.z > 0.5 then Green else color
  }

  /** For non-negative texture coordinates the wrapped shading is exactly
      the shading as written. */
  lemma ShadeWrappedAgrees<L>(m: PhongMaterial, vertex: Vertex, lights: seq<L>)
    requires m.diffuse.Some? ==> ValidTexture(m.diffuse.value)
    requires vertex.uv.x >= 0.0 && vertex.uv.y >= 0.0
    ensures m.diffuse.Some? ==> TexelReadable(m.diffuse.value, vertex.uv)
    ensures m.diffuse.Some? ==> ShadeWrapped(m, vertex, lights) == Shade(m, vertex, lights)
  {
    if m.diffuse.Some? {
      var tex := m.diffuse.value;
      NonNegativeUvReadable(tex, vertex.uv);
      RealMulNonNegative(vertex.uv.x, tex.width as real);
      RealMulNonNegative(vertex.uv.y, tex.height as real);
      assert TexelIndex(tex, vertex.uv) == WrappedTexelIndex(tex, vertex.uv);
    }
  }
}
