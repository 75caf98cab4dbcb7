/**
  Machine-level number conventions of the renderer, written out over
  unbounded integers and reals: the 8-bit channel type, the C++ float-to-int
  cast (truncation toward zero), the C++ remainder operator (which takes the
  sign of the dividend) and the float `std::min`/`std::max` used for bounding
  boxes.
 */
module Numeric {

  /** An `unsigned char`. */
  newtype byte = x: int | 0 <= x < 256

  /** The C++ cast `(int)r`: drops the fractional part, rounding toward zero. */
  function Trunc(r: real): (t: int)
    ensures r >= 0.0 ==> 0 <= t && t as real <= r < t as real + 1.0
    ensures r < 0.0 ==> t <= 0 && t as real - 1.0 < r <= t as real
  {
    if r >= 0.0 then r.Floor else -((-r).Floor)
  }

  /** The C++ integer remainder `a % b` for a positive divisor:
      the result has the sign of `a`. */
  function CRem(a: int, b: int): (r: int)
    requires b > 0
    ensures a >= 0 ==> 0 <= r < b
    ensures a < 0 ==> -b < r <= 0
  {
    if a >= 0 then a % b else -((-a) % b)
  }

  /** `std::min` and `std::max` on floats. */
  function Min(a: real, b: real): real { if b < a then b else a }
  function Max(a: real, b: real): real { if a < b then b else a }

  /** `abs` on a float. */
  function RealAbs(r: real): (a: real)
    ensures a >= 0.0 && (a == r || a == -r)
  {
    if r < 0.0 then -r else r
  }

  /** The near/far rejection both rasterisers apply before filling: some
      projected depth lies outside [-1, 1]. */
  predicate OutsideDepthRange(za: real, zb: real, zc: real)
  {
    RealAbs(za) > 1.0 || RealAbs(zb) > 1.0 || RealAbs(zc) > 1.0
  }

  /** A value that may be absent: a null pointer or an unset member. */
  datatype Option<T> = None | Some(value: T)

  /** A value `q*d + r` with `0 <= r < d` has quotient `q` and remainder `r`:
      the fact that makes row-major buffer offsets decode uniquely. */
  lemma DivModUnique(q: int, r: int, d: int)
    requires d > 0 && 0 <= r < d
    ensures (q * d + r) / d == q && (q * d + r) % d == r
  {
    var n := q * d + r;
    var q', r' := n / d, n % d;
    assert n == q' * d + r' && 0 <= r' < d;
    assert (q' - q) * d == r - r';
    if q' > q {
      MulMono(q' - q, 1, d);
      assert false;
    } else if q' < q {
      MulMono(q - q', 1, d);
      assert false;
    }
  }

  /** Multiplication by a non-negative factor is monotone. */
  lemma MulMono(a: int, b: int, c: int)
    requires a >= b && c >= 0
    ensures a * c >= b * c
  {
    assert a * c - b * c == (a - b) * c;
  }

  /** The offset of cell `(col, row)` in a row-major grid of `width` cells of
      `size` units each lies inside the grid. */
  lemma GridOffsetInRange(col: int, row: int, width: int, height: int, size: int)
    requires 0 <= col < width && 0 <= row < height && size > 0
    ensures 0 <= row * width + col < width * height
    ensures 0 <= (row * width + col) * size
    ensures (row * width + col) * size + size <= width * height * size
    ensures row * (width * size) + col * size == (row * width + col) * size
  {
    MulMono(height - 1, row, width);
    assert row * width + col < (row + 1) * width <= height * width;
    MulMono(width * height, row * width + col + 1, size);
    assert (row * width + col) * size + size == (row * width + col + 1) * size;
    assert row * (width * size) == (row * width) * size;
    assert (row * width) * size + col * size == (row * width + col) * size;
    assert width * height * size == (width * height) * size;
  }
}
