/**
 * The texture samplers that every texture-reading modifier carries a copy of
 * (`SampleTexture`, `SampleTextureBilinear`). A texture is a row-major
 * sequence of texels over a `resX` by `resY` grid that covers the set's
 * `bounds` centred on the origin; a local position (x, z) is mapped to
 * [0, 1] per axis, scaled to texel units, floored and clamped to the grid.
 * The bilinear weights are taken from the unclamped texel coordinate.
 */
module Raster {
  import opened Maths
  import opened Pixels

  /** Resolution and extent of a texture set, as every job copies them in. */
  datatype Grid = Grid(resX: int, resY: int, bounds: Vec3)

  /**
   * A texture that can be sampled on `g`: a non-empty grid, one texel per
   * cell, and an extent that can be divided by. `GetRawTextureData` hands
   * over the texels of a texture of the set's resolution.
   */
  predicate Fits<P>(g: Grid, tex: seq<P>)
  {
    g.resX >= 1 && g.resY >= 1 && |tex| == g.resX * g.resY && g.bounds.x != 0.0 && g.bounds.z != 0.0
  }

  /** One axis of `normalizedCoords`: the position measured from the low edge of the extent, in extents. */
  function Normalize(c: real, extent: real): real
    requires extent != 0.0
  {
    (c + extent * 0.5) / extent
  }

  /** `normalizedCoords.x * resolutionX`. */
  function TexelX(g: Grid, px: real): real
    requires g.bounds.x != 0.0
  {
    Normalize(px, g.bounds.x) * g.resX as real
  }

  /** `normalizedCoords.y * resolutionY`; the second coordinate is the local z. */
  function TexelY(g: Grid, pz: real): real
    requires g.bounds.z != 0.0
  {
    Normalize(pz, g.bounds.z) * g.resY as real
  }

  /** `math.clamp((int)math.floor(s), 0, res - 1)`: the cell holding texel coordinate `s`. */
  function Cell(s: real, res: int): (c: int)
    requires res >= 1
    ensures 0 <= c < res
    ensures 0.0 <= s < res as real ==> c == s.Floor
    ensures s < 0.0 ==> c == 0
    ensures res as real <= s ==> c == res - 1
  {
    ClampInt(s.Floor, 0, res - 1)
  }

  /** `math.clamp((int)math.ceil(s), 0, res - 1)`: the cell at or above `s`. */
  function CellUp(s: real, res: int): (c: int)
    requires res >= 1
    ensures 0 <= c < res
    ensures Cell(s, res) <= c <= Cell(s, res) + 1
  {
    ClampInt(Ceil(s), 0, res - 1)
  }

  /** `math.clamp(c + 1, 0, res - 1)`: the next cell, or `c` itself on the last row or column. */
  function Next(c: int, res: int): (n: int)
    requires 0 <= c < res
    ensures 0 <= n < res
    ensures c <= n <= c + 1
    ensures n == c <==> c == res - 1
  {
    ClampInt(c + 1, 0, res - 1)
  }

  /** `x + (y * resolutionX)`: the row-major index of cell (x, y), always inside the texture. */
  function Index(g: Grid, x: int, y: int): (i: nat)
    requires 0 <= x < g.resX && 0 <= y < g.resY
    ensures i < g.resX * g.resY
  {
    IndexBound(x, y, g.resX, g.resY);
    x + y * g.resX
  }

  lemma IndexBound(x: int, y: int, w: int, h: int)
    requires 0 <= x < w && 0 <= y < h
    ensures 0 <= x + y * w < w * h
  {
    MulLe(0, y, w);
    MulLe(y, h - 1, w);
    assert (h - 1) * w == w * h - w;
  }

  lemma MulLe(a: int, b: int, w: int)
    requires a <= b && 0 <= w
    ensures a * w <= b * w
  {
    assert b * w == a * w + (b - a) * w;
  }

  /** Distinct cells have distinct indices, so a texel is reached from one cell only. */
  lemma {:induction false} IndexInjective(g: Grid, x1: int, y1: int, x2: int, y2: int)
    requires 0 <= x1 < g.resX && 0 <= y1 < g.resY
    requires 0 <= x2 < g.resX && 0 <= y2 < g.resY
    requires Index(g, x1, y1) == Index(g, x2, y2)
    ensures x1 == x2 && y1 == y2
  {
    if y1 < y2 {
      RowOrder(g.resX, x1, y1, x2, y2);
    } else if y2 < y1 {
      RowOrder(g.resX, x2, y2, x1, y1);
    }
  }

  lemma RowOrder(w: int, x1: int, y1: int, x2: int, y2: int)
    requires 0 <= x1 < w && 0 <= x2 && 0 <= y1 < y2
    ensures x1 + y1 * w < x2 + y2 * w
  {
    MulLe(y1 + 1, y2, w);
    assert (y1 + 1) * w == y1 * w + w;
  }

  /** The cells and weights `SampleTextureBilinear` computes before it reads the texture. */
  datatype Footprint = Footprint(xMin: int, yMin: int, xMax: int, yMax: int, xLerp: real, yLerp: real)

  function BilinearFootprint(g: Grid, px: real, pz: real): (f: Footprint)
    requires g.resX >= 1 && g.resY >= 1 && g.bounds.x != 0.0 && g.bounds.z != 0.0
    ensures 0 <= f.xMin <= f.xMax <= f.xMin + 1 && f.xMax < g.resX
    ensures 0 <= f.yMin <= f.yMax <= f.yMin + 1 && f.yMax < g.resY
    ensures f.xMax == f.xMin <==> f.xMin == g.resX - 1
    ensures f.yMax == f.yMin <==> f.yMin == g.resY - 1
    ensures f.xLerp == TexelX(g, px) - f.xMin as real && f.yLerp == TexelY(g, pz) - f.yMin as real
  {
    var sx, sy := TexelX(g, px), TexelY(g, pz);
    var xMin, yMin := Cell(sx, g.resX), Cell(sy, g.resY);
    Footprint(xMin, yMin, Next(xMin, g.resX), Next(yMin, g.resY), sx - xMin as real, sy - yMin as real)
  }

  /** The four decoded corners of a footprint. */
  datatype Quad = Quad(minXminY: real, maxXminY: real, minXmaxY: real, maxXmaxY: real)

  function Corners<P>(g: Grid, tex: seq<P>, value: P -> real, f: Footprint): Quad
    requires Fits(g, tex)
    requires 0 <= f.xMin < g.resX && 0 <= f.xMax < g.resX && 0 <= f.yMin < g.resY && 0 <= f.yMax < g.resY
  {
    Quad(value(tex[Index(g, f.xMin, f.yMin)]), value(tex[Index(g, f.xMax, f.yMin)]),
         value(tex[Index(g, f.xMin, f.yMax)]), value(tex[Index(g, f.xMax, f.yMax)]))
  }

  function QuadMin(q: Quad): real
  {
    var a := if q.minXminY < q.maxXminY then q.minXminY else q.maxXminY;
    var b := if q.minXmaxY < q.maxXmaxY then q.minXmaxY else q.maxXmaxY;
    if a < b then a else b
  }

  function QuadMax(q: Quad): real
  {
    var a := if q.minXminY > q.maxXminY then q.minXminY else q.maxXminY;
    var b := if q.minXmaxY > q.maxXmaxY then q.minXmaxY else q.maxXmaxY;
    if a > b then a else b
  }

  /** `SampleTexture`: the decoded value of the one texel under the position. */
  function SampleNearest<P>(g: Grid, tex: seq<P>, value: P -> real, px: real, pz: real): (r: real)
    requires Fits(g, tex)
    ensures exists i :: 0 <= i < |tex| && r == value(tex[i])
  {
    var i := Index(g, Cell(TexelX(g, px), g.resX), Cell(TexelY(g, pz), g.resY));
    value(tex[i])
  }

  /**
   * `SampleTextureBilinear`: interpolate along y on both columns, then along x,
   * with the unclamped `math.lerp`.
   */
  function SampleBilinear<P>(g: Grid, tex: seq<P>, value: P -> real, px: real, pz: real): real
    requires Fits(g, tex)
  {
    var f := BilinearFootprint(g, px, pz);
    var q := Corners(g, tex, value, f);
    Lerp(Lerp(q.minXminY, q.minXmaxY, f.yLerp), Lerp(q.maxXminY, q.maxXmaxY, f.yLerp), f.xLerp)
  }

  /** The float3 sampler of the RGB textures: `math.lerp` on float3 works per component. */
  function SampleRgb(g: Grid, tex: seq<RGBPixel>, px: real, pz: real): Vec3
    requires Fits(g, tex)
  {
    Vec3(SampleBilinear(g, tex, RgbR, px, pz), SampleBilinear(g, tex, RgbG, px, pz), SampleBilinear(g, tex, RgbB, px, pz))
  }

  /** The float4 sampler of the contour texture. */
  function SampleRgba(g: Grid, tex: seq<RGBAPixel>, px: real, pz: real): Vec4
    requires Fits(g, tex)
  {
    Vec4(SampleBilinear(g, tex, RgbaR, px, pz), SampleBilinear(g, tex, RgbaG, px, pz),
         SampleBilinear(g, tex, RgbaB, px, pz), SampleBilinear(g, tex, RgbaA, px, pz))
  }

  /** The position lies at or beyond the low edge of the extent on both axes. */
  predicate NotBelow(g: Grid, px: real, pz: real)
    requires g.bounds.x != 0.0 && g.bounds.z != 0.0
  {
    0.0 <= Normalize(px, g.bounds.x) && 0.0 <= Normalize(pz, g.bounds.z)
  }

  /**
   * For a coordinate at or above the low edge, each weight lies in [0, 1), or
   * the two cells it weighs coincide (the coordinate is past the last cell).
   */
  lemma FootprintWeights(g: Grid, px: real, pz: real)
    requires g.resX >= 1 && g.resY >= 1 && g.bounds.x != 0.0 && g.bounds.z != 0.0
    requires NotBelow(g, px, pz)
    ensures var f := BilinearFootprint(g, px, pz);
      (0.0 <= f.xLerp < 1.0 || f.xMin == f.xMax) && (0.0 <= f.yLerp < 1.0 || f.yMin == f.yMax)
  {
    var f := BilinearFootprint(g, px, pz);
    var sx, sy := TexelX(g, px), TexelY(g, pz);
    assert 0.0 <= sx by { NonNegProduct(Normalize(px, g.bounds.x), g.resX as real); }
    assert 0.0 <= sy by { NonNegProduct(Normalize(pz, g.bounds.z), g.resY as real); }
    if sx >= g.resX as real {
      assert f.xMin == g.resX - 1;
    }
    if sy >= g.resY as real {
      assert f.yMin == g.resY - 1;
    }
  }

  lemma NonNegProduct(a: real, b: real)
    requires 0.0 <= a && 0.0 <= b
    ensures 0.0 <= a * b
  {
  }

  /** An interpolation whose weight is in [0, 1], or whose ends agree, stays inside any range holding both ends. */
  lemma LerpCollapsed(a: real, b: real, t: real, lo: real, hi: real)
    requires lo <= a <= hi && lo <= b <= hi
    requires 0.0 <= t <= 1.0 || a == b
    ensures lo <= Lerp(a, b, t) <= hi
  {
    if 0.0 <= t <= 1.0 {
      LerpWithin(a, b, t, lo, hi);
    } else {
      assert Lerp(a, b, t) == a;
    }
  }

  /**
   * Convexity of the bilinear sampler: at or above the low edge of the
   * extent, the sample lies between the smallest and largest of the four
   * corners it reads.
   */
  lemma BilinearWithin<P>(g: Grid, tex: seq<P>, value: P -> real, px: real, pz: real)
    requires Fits(g, tex)
    requires NotBelow(g, px, pz)
    ensures var q := Corners(g, tex, value, BilinearFootprint(g, px, pz));
      QuadMin(q) <= SampleBilinear(g, tex, value, px, pz) <= QuadMax(q)
  {
    var f := BilinearFootprint(g, px, pz);
    var q := Corners(g, tex, value, f);
    var lo, hi := QuadMin(q), QuadMax(q);
    FootprintWeights(g, px, pz);
    if f.yMin == f.yMax {
      assert q.minXminY == q.minXmaxY && q.maxXminY == q.maxXmaxY;
    }
    LerpCollapsed(q.minXminY, q.minXmaxY, f.yLerp, lo, hi);
    LerpCollapsed(q.maxXminY, q.maxXmaxY, f.yLerp, lo, hi);
    var minX, maxX := Lerp(q.minXminY, q.minXmaxY, f.yLerp), Lerp(q.maxXminY, q.maxXmaxY, f.yLerp);
    if f.xMin == f.xMax {
      assert q.minXminY == q.maxXminY && q.minXmaxY == q.maxXmaxY;
      assert minX == maxX;
    }
    LerpCollapsed(minX, maxX, f.xLerp, lo, hi);
  }

  /** Every texel decodes into [lo, hi]. */
  predicate DecodesWithin<P>(tex: seq<P>, value: P -> real, lo: real, hi: real)
  {
    forall i :: 0 <= i < |tex| ==> lo <= value(tex[i]) <= hi
  }

  /** Every height texel decodes into [0, 65535/65536]. */
  lemma HeightsInUnit(tex: seq<R16Pixel>)
    ensures DecodesWithin(tex, R16, 0.0, 65535.0 / 65536.0)
  {
    forall i | 0 <= i < |tex| ensures 0.0 <= R16(tex[i]) <= 65535.0 / 65536.0 {
      assert R16(tex[i]) == R16Value(tex[i]);
    }
  }

  /** A texture whose texels decode into [lo, hi] is sampled into [lo, hi], at or above the low edge. */
  lemma BilinearInRange<P>(g: Grid, tex: seq<P>, value: P -> real, px: real, pz: real, lo: real, hi: real)
    requires Fits(g, tex)
    requires NotBelow(g, px, pz)
    requires DecodesWithin(tex, value, lo, hi)
    ensures lo <= SampleBilinear(g, tex, value, px, pz) <= hi
  {
    var f := BilinearFootprint(g, px, pz);
    var q := Corners(g, tex, value, f);
    BilinearWithin(g, tex, value, px, pz);
    assert lo <= q.minXminY <= hi && lo <= q.maxXminY <= hi && lo <= q.minXmaxY <= hi && lo <= q.maxXmaxY <= hi;
  }

  /** At or above the low edge, every channel of an RGB sample lies in [0, 1]. */
  lemma SampleRgbInUnit(g: Grid, tex: seq<RGBPixel>, px: real, pz: real)
    requires Fits(g, tex)
    requires NotBelow(g, px, pz)
    ensures var c := SampleRgb(g, tex, px, pz);
      0.0 <= c.x <= 1.0 && 0.0 <= c.y <= 1.0 && 0.0 <= c.z <= 1.0
  {
    assert DecodesWithin(tex, RgbR, 0.0, 1.0) && DecodesWithin(tex, RgbG, 0.0, 1.0) && DecodesWithin(tex, RgbB, 0.0, 1.0);
    BilinearInRange(g, tex, RgbR, px, pz, 0.0, 1.0);
    BilinearInRange(g, tex, RgbG, px, pz, 0.0, 1.0);
    BilinearInRange(g, tex, RgbB, px, pz, 0.0, 1.0);
  }

  /** At or above the low edge, every channel of an RGBA sample lies in [0, 1]. */
  lemma SampleRgbaInUnit(g: Grid, tex: seq<RGBAPixel>, px: real, pz: real)
    requires Fits(g, tex)
    requires NotBelow(g, px, pz)
    ensures var c := SampleRgba(g, tex, px, pz);
      0.0 <= c.x <= 1.0 && 0.0 <= c.y <= 1.0 && 0.0 <= c.z <= 1.0 && 0.0 <= c.w <= 1.0
  {
    assert DecodesWithin(tex, RgbaR, 0.0, 1.0) && DecodesWithin(tex, RgbaG, 0.0, 1.0);
    assert DecodesWithin(tex, RgbaB, 0.0, 1.0) && DecodesWithin(tex, RgbaA, 0.0, 1.0);
    BilinearInRange(g, tex, RgbaR, px, pz, 0.0, 1.0);
    BilinearInRange(g, tex, RgbaG, px, pz, 0.0, 1.0);
    BilinearInRange(g, tex, RgbaB, px, pz, 0.0, 1.0);
    BilinearInRange(g, tex, RgbaA, px, pz, 0.0, 1.0);
  }

  /** A texture of one value is sampled as that value everywhere, below the extent included. */
  lemma BilinearConstant<P>(g: Grid, tex: seq<P>, value: P -> real, px: real, pz: real, v: real)
    requires Fits(g, tex)
    requires forall i :: 0 <= i < |tex| ==> value(tex[i]) == v
    ensures SampleBilinear(g, tex, value, px, pz) == v
  {
    var f := BilinearFootprint(g, px, pz);
    var q := Corners(g, tex, value, f);
    assert q == Quad(v, v, v, v);
  }

  /**
   * On a texel corner inside the grid (both texel coordinates whole numbers)
   * the weights are zero and the bilinear sampler reads the same texel as the
   * nearest-texel sampler.
   */
  lemma BilinearOnTexel<P>(g: Grid, tex: seq<P>, value: P -> real, px: real, pz: real)
    requires Fits(g, tex)
    requires 0.0 <= TexelX(g, px) < g.resX as real && TexelX(g, px) == TexelX(g, px).Floor as real
    requires 0.0 <= TexelY(g, pz) < g.resY as real && TexelY(g, pz) == TexelY(g, pz).Floor as real
    ensures SampleBilinear(g, tex, value, px, pz) == SampleNearest(g, tex, value, px, pz)
  {
    var f := BilinearFootprint(g, px, pz);
    assert f.xLerp == 0.0 && f.yLerp == 0.0;
  }

  /**
   * Below the low edge the weight is negative and the sampler extrapolates:
   * on a 2 by 1 texture reading 0 and 1/2, the position half an extent below
   * the edge samples -1/2, under both texels.
   */
  lemma BilinearExtrapolatesBelow()
    ensures var g := Grid(2, 1, Vec3(2.0, 1.0, 1.0));
      var tex := [R16Pixel(0, 0), R16Pixel(0, 128)];
      Fits(g, tex) && SampleBilinear(g, tex, R16, -2.0, 0.0) == -0.5 &&
      R16(tex[0]) == 0.0 && R16(tex[1]) == 0.5
  {
    var g := Grid(2, 1, Vec3(2.0, 1.0, 1.0));
    var tex := [R16Pixel(0, 0), R16Pixel(0, 128)];
    assert Normalize(-2.0, 2.0) == -0.5;
    assert TexelX(g, -2.0) == -1.0;
    assert Normalize(0.0, 1.0) == 0.5;
    assert TexelY(g, 0.0) == 0.5;
    assert (-1.0).Floor == -1;
    assert (0.5).Floor == 0;
    var f := BilinearFootprint(g, -2.0, 0.0);
    assert f == Footprint(0, 0, 1, 0, -1.0, 0.5);
  }
}
