/**
 * The raw texel formats read from the baked texture set and their decoders:
 * `R16Pixel` (the 16-bit height map, two bytes, little end first), `RGBPixel`
 * (normal and colour maps), `RGBAPixel` (contour map), and `Color32`, the
 * format the Perlin preview writes.
 */
module Pixels {
  import opened Maths

  type Byte = b: int | 0 <= b < 256

  datatype R16Pixel = R16Pixel(r1: Byte, r2: Byte)
  datatype RGBPixel = RGBPixel(r: Byte, g: Byte, b: Byte)
  datatype RGBAPixel = RGBAPixel(r: Byte, g: Byte, b: Byte, a: Byte)
  datatype Color32 = Color32(r: Byte, g: Byte, b: Byte, a: Byte)

  /** `R16Pixel.value`: the 16-bit reading `r1 + 256 * r2` scaled by 1/65536. */
  function R16Value(p: R16Pixel): (v: real)
    ensures 0.0 <= v <= 65535.0 / 65536.0
    ensures v * 65536.0 == (p.r1 + 256 * p.r2) as real
    ensures v == 0.0 <==> p.r1 == 0 && p.r2 == 0
  {
    (p.r1 as real + p.r2 as real * 256.0) / 65536.0
  }

  /** One byte channel read as `byte / 255`. */
  function Unit(b: Byte): (v: real)
    ensures 0.0 <= v <= 1.0
    ensures v == 0.0 <==> b == 0
    ensures v == 1.0 <==> b == 255
  {
    b as real / 255.0
  }

  /** `RGBPixel.rgb`. */
  function Rgb(p: RGBPixel): (c: Vec3)
    ensures 0.0 <= c.x <= 1.0 && 0.0 <= c.y <= 1.0 && 0.0 <= c.z <= 1.0
    ensures c.x * 255.0 == p.r as real && c.y * 255.0 == p.g as real && c.z * 255.0 == p.b as real
  {
    Vec3(Unit(p.r), Unit(p.g), Unit(p.b))
  }

  /** `RGBAPixel.rgba`. */
  function Rgba(p: RGBAPixel): (c: Vec4)
    ensures 0.0 <= c.x <= 1.0 && 0.0 <= c.y <= 1.0 && 0.0 <= c.z <= 1.0 && 0.0 <= c.w <= 1.0
    ensures c.x * 255.0 == p.r as real && c.y * 255.0 == p.g as real
    ensures c.z * 255.0 == p.b as real && c.w * 255.0 == p.a as real
  {
    Vec4(Unit(p.r), Unit(p.g), Unit(p.b), Unit(p.a))
  }

  /** A normal-map sample unpacked from [0, 1] to [-1, 1] per component: `(c - 0.5) * 2`. */
  function Unpack(packed: Vec3): (n: Vec3)
    ensures 0.0 <= packed.x <= 1.0 ==> -1.0 <= n.x <= 1.0
    ensures 0.0 <= packed.y <= 1.0 ==> -1.0 <= n.y <= 1.0
    ensures 0.0 <= packed.z <= 1.0 ==> -1.0 <= n.z <= 1.0
    ensures n.y > 0.0 <==> packed.y > 0.5
  {
    Vec3((packed.x - 0.5) * 2.0, (packed.y - 0.5) * 2.0, (packed.z - 0.5) * 2.0)
  }

  // Single channels, in the form the shared sampler takes them.
  function R16(p: R16Pixel): real { R16Value(p) }
  function RgbR(p: RGBPixel): real { Rgb(p).x }
  function RgbG(p: RGBPixel): real { Rgb(p).y }
  function RgbB(p: RGBPixel): real { Rgb(p).z }
  function RgbaR(p: RGBAPixel): real { Rgba(p).x }
  function RgbaG(p: RGBAPixel): real { Rgba(p).y }
  function RgbaB(p: RGBAPixel): real { Rgba(p).z }
  function RgbaA(p: RGBAPixel): real { Rgba(p).w }

  /** The height decoder loses nothing: distinct texels decode to distinct heights. */
  lemma R16Injective(p: R16Pixel, q: R16Pixel)
    requires R16Value(p) == R16Value(q)
    ensures p == q
  {
    var m, n := p.r1 + 256 * p.r2, q.r1 + 256 * q.r2;
    assert m == n;
    assert p.r2 == m / 256 && q.r2 == n / 256;
  }
}
