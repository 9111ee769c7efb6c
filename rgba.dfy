/** Colours: four bytes (`rgba<uint8_t>`) and four reals (`rgba<float>`). */
module Rgba {
  /** An unsigned 8-bit channel value. */
  newtype byte = x: int | 0 <= x < 256

  datatype Rgba8 = Rgba8(r: byte, g: byte, b: byte, a: byte)

  datatype RgbaF = RgbaF(r: real, g: real, b: real, a: real)

  /** `rgba<uint8_t>(r, g, b)`: the three channels with a fully opaque alpha of 0xFF. */
  function Rgb8(r: byte, g: byte, b: byte): (c: Rgba8)
    ensures c.a == 0xFF
    ensures (c.r, c.g, c.b) == (r, g, b)
  {
    Rgba8(r, g, b, 0xFF)
  }

  /** `rgba<float>(r, g, b)`: the three channels with alpha 1. */
  function RgbF(r: real, g: real, b: real): (c: RgbaF)
    ensures c.a == 1.0
    ensures (c.r, c.g, c.b) == (r, g, b)
  {
    RgbaF(r, g, b, 1.0)
  }

  /** A byte as a fraction of 255. */
  function Unit(x: byte): (u: real)
    ensures 0.0 <= u <= 1.0
    ensures u == 0.0 <==> x == 0
    ensures u == 1.0 <==> x == 255
  {
    x as real / 255.0
  }

  /** `rgba<float>(r, g, b, a)` from four bytes: alpha becomes a / 255 and each colour channel
      is premultiplied by it, c / 255 * a / 255. */
  function FromBytes(r: byte, g: byte, b: byte, a: byte): (c: RgbaF)
    ensures 0.0 <= c.a <= 1.0
    ensures 0.0 <= c.r <= c.a && 0.0 <= c.g <= c.a && 0.0 <= c.b <= c.a
    ensures a == 0 ==> c == RgbaF(0.0, 0.0, 0.0, 0.0)
    ensures a == 255 ==> c == RgbaF(Unit(r), Unit(g), Unit(b), 1.0)
  {
    var alpha := Unit(a);
    RgbaF(Premultiply(Unit(r), alpha), Premultiply(Unit(g), alpha), Premultiply(Unit(b), alpha), alpha)
  }

  /** A channel fraction weighted by alpha. */
  function Premultiply(u: real, alpha: real): (p: real)
    requires 0.0 <= u <= 1.0 && 0.0 <= alpha <= 1.0
    ensures 0.0 <= p <= alpha
    ensures alpha == 0.0 ==> p == 0.0
    ensures alpha == 1.0 ==> p == u
    ensures alpha != 0.0 ==> p / alpha == u
  {
    PremultiplyBounds(u, alpha);
    u * alpha
  }

  lemma PremultiplyBounds(u: real, alpha: real)
    requires 0.0 <= u <= 1.0 && 0.0 <= alpha <= 1.0
    ensures 0.0 <= u * alpha <= alpha
    ensures alpha != 0.0 ==> u * alpha / alpha == u
  {
    assert (1.0 - u) * alpha >= 0.0;
    if alpha != 0.0 {
      assert u * alpha / alpha == u * (alpha / alpha);
    }
  }

  /** `explicit rgba<float>(const rgba<uint8_t>&)`: delegates to the four-byte constructor. */
  function FromRgba8(col: Rgba8): RgbaF
  {
    FromBytes(col.r, col.g, col.b, col.a)
  }

  /** An opaque byte colour converts to the float colour of its channel fractions with alpha 1,
      the same colour the three-real constructor builds. */
  lemma {:induction false} OpaqueConversion(r: byte, g: byte, b: byte)
    ensures FromRgba8(Rgb8(r, g, b)) == RgbF(Unit(r), Unit(g), Unit(b))
  {
  }

  /** Premultiplication loses nothing when alpha is nonzero: dividing a channel by alpha and
      scaling by 255 gives back the byte. */
  lemma {:induction false} PremultiplyInvertible(col: Rgba8)
    requires col.a != 0
    ensures FromRgba8(col).r / FromRgba8(col).a * 255.0 == col.r as real
    ensures FromRgba8(col).g / FromRgba8(col).a * 255.0 == col.g as real
    ensures FromRgba8(col).b / FromRgba8(col).a * 255.0 == col.b as real
    ensures FromRgba8(col).a * 255.0 == col.a as real
  {
    assert Unit(col.a) != 0.0;
  }
}
