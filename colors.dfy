/**
  The floating-point RGBA colour of src/color.h and its five named constants
  (src/color.cpp), plus the byte triple that the early renderer in
  src/main.cpp draws with.
 */
module Colors {
  import opened Numeric

  datatype Color = Color(r: real, g: real, b: real, a: real)

  const Black := Color(0.0, 0.0, 0.0, 1.0)
  const White := Color(1.0, 1.0, 1.0, 1.0)
  const Red := Color(1.0, 0.0, 0.0, 1.0)
  const Green := Color(0.0, 1.0, 0.0, 1.0)
  const Blue := Color(0.0, 0.0, 1.0, 1.0)

  /** The `struct Color { unsigned char r, g, b; }` of src/main.cpp. */
  datatype ByteColor = ByteColor(r: byte, g: byte, b: byte)

  /** Every channel, alpha included, lies in [0, 1]. */
  ghost predicate InUnitRange(c: Color)
  {
    0.0 <= c.r <= 1.0 && 0.0 <= c.g <= 1.0 && 0.0 <= c.b <= 1.0 && 0.0 <= c.a <= 1.0
  }
}
