/**
 * `PerlinSet`: three octaves of noise, each with a strength and a frequency.
 * `SampleSet` adds up `Mathf.PerlinNoise` octaves; `PerlinToTexture` renders
 * the set's Unity.Mathematics `noise.cnoise` octaves into a grey preview
 * texture. `PerlinClip` and `PerlinScale` read the same octaves per candidate.
 */
module PerlinSets {
  import opened Maths
  import opened Pixels
  import opened States
  import Raster

  /** The serialized strengths and frequencies. */
  datatype PerlinSet = PerlinSet(
    strengthOne: real, frequencyOne: real,
    strengthTwo: real, frequencyTwo: real,
    strengthThree: real, frequencyThree: real)

  const Defaults := PerlinSet(0.5, 0.01, 0.3, 0.1, 0.2, 1.0)

  /** One `Mathf.PerlinNoise` octave of `SampleSet`: the reading at the scaled coordinates times the strength. */
  function NoiseTerm(e: Engine, cx: real, cy: real, frequency: real, strength: real): real
  {
    e.perlinNoise(cx * frequency, cy * frequency) * strength
  }

  /** `SampleSet`: the three `Mathf.PerlinNoise` octaves, each scaled by its strength, added up. */
  function SampleSet(e: Engine, ps: PerlinSet, cx: real, cy: real): real
  {
    NoiseTerm(e, cx, cy, ps.frequencyOne, ps.strengthOne)
    + NoiseTerm(e, cx, cy, ps.frequencyTwo, ps.strengthTwo)
    + NoiseTerm(e, cx, cy, ps.frequencyThree, ps.strengthThree)
  }

  predicate NonNegativeStrengths(ps: PerlinSet)
  {
    0.0 <= ps.strengthOne && 0.0 <= ps.strengthTwo && 0.0 <= ps.strengthThree
  }

  function StrengthSum(ps: PerlinSet): real
  {
    ps.strengthOne + ps.strengthTwo + ps.strengthThree
  }

  /** `Mathf.PerlinNoise` reads inside [0, 1] at the octave's scaled coordinates. */
  predicate ReadingInUnit(e: Engine, cx: real, cy: real, frequency: real)
  {
    0.0 <= e.perlinNoise(cx * frequency, cy * frequency) <= 1.0
  }

  /** A reading in [0, 1] and a non-negative strength give a term in [0, strength]. */
  lemma NoiseTermBounds(e: Engine, cx: real, cy: real, frequency: real, strength: real)
    requires ReadingInUnit(e, cx, cy, frequency) && 0.0 <= strength
    ensures 0.0 <= NoiseTerm(e, cx, cy, frequency, strength) <= strength
  {
    var n := e.perlinNoise(cx * frequency, cy * frequency);
    MulBounds(strength, n);
    assert NoiseTerm(e, cx, cy, frequency, strength) == strength * n;
  }

  /** Noise readings in [0, 1] and non-negative strengths keep `SampleSet` inside [0, sum of strengths]. */
  lemma SampleSetBounds(e: Engine, ps: PerlinSet, cx: real, cy: real)
    requires NonNegativeStrengths(ps)
    requires ReadingInUnit(e, cx, cy, ps.frequencyOne)
    requires ReadingInUnit(e, cx, cy, ps.frequencyTwo)
    requires ReadingInUnit(e, cx, cy, ps.frequencyThree)
    ensures 0.0 <= SampleSet(e, ps, cx, cy) <= StrengthSum(ps)
  {
    NoiseTermBounds(e, cx, cy, ps.frequencyOne, ps.strengthOne);
    NoiseTermBounds(e, cx, cy, ps.frequencyTwo, ps.strengthTwo);
    NoiseTermBounds(e, cx, cy, ps.frequencyThree, ps.strengthThree);
  }

  /** One `math.unlerp(-1, 1, n) * strength` octave: the noise reading moved from [-1, 1] to [0, 1], scaled. */
  function Octave(n: real, strength: real): (o: real)
    ensures o == (n + 1.0) / 2.0 * strength
  {
    Unlerp(-1.0, 1.0, n) * strength
  }

  /** A reading in [-1, 1] gives an octave in [0, strength]. */
  lemma OctaveBounds(n: real, strength: real)
    requires -1.0 <= n <= 1.0 && 0.0 <= strength
    ensures 0.0 <= Octave(n, strength) <= strength
  {
    var u := (n + 1.0) / 2.0;
    assert Octave(n, strength) == u * strength;
    MulBounds(strength, u);
  }

  /** The three `cnoise` octaves at `base + p * frequency`, as the per-candidate jobs sample them. */
  function Octaves(e: Engine, ps: PerlinSet, base: Vec3, p: Vec3): real
  {
    Octave(e.cnoise(Add(base, Times(p, ps.frequencyOne))), ps.strengthOne)
    + Octave(e.cnoise(Add(base, Times(p, ps.frequencyTwo))), ps.strengthTwo)
    + Octave(e.cnoise(Add(base, Times(p, ps.frequencyThree))), ps.strengthThree)
  }

  /** `cnoise` readings in [-1, 1] everywhere. */
  ghost predicate NoiseInRange(e: Engine)
  {
    forall p :: -1.0 <= e.cnoise(p) <= 1.0
  }

  /** With readings in [-1, 1] and non-negative strengths the octaves add up to [0, sum of strengths]. */
  lemma OctavesBounds(e: Engine, ps: PerlinSet, base: Vec3, p: Vec3)
    requires NoiseInRange(e) && NonNegativeStrengths(ps)
    ensures 0.0 <= Octaves(e, ps, base, p) <= StrengthSum(ps)
  {
    OctaveBounds(e.cnoise(Add(base, Times(p, ps.frequencyOne))), ps.strengthOne);
    OctaveBounds(e.cnoise(Add(base, Times(p, ps.frequencyTwo))), ps.strengthTwo);
    OctaveBounds(e.cnoise(Add(base, Times(p, ps.frequencyThree))), ps.strengthThree);
  }

  /** With every strength zero the octaves vanish, whatever the noise. */
  lemma SilentOctaves(e: Engine, ps: PerlinSet, base: Vec3, p: Vec3)
    requires ps.strengthOne == 0.0 && ps.strengthTwo == 0.0 && ps.strengthThree == 0.0
    ensures Octaves(e, ps, base, p) == 0.0
  {
  }

  /** `PerlinToTexture`: the preview job. */
  datatype ToTextureJob = ToTextureJob(
    min: real, noise: PerlinSet, resolutionX: int, resolutionY: int,
    worldPosition: Vec3, worldRotation: Quat, worldScale: Vec3)

  /** The row-major index `x + resolutionX * y` the job writes. */
  function Flat(w: int, x: int, y: int): int
  {
    x + w * y
  }

  /**
   * Distinct texels of a `w`-wide image have distinct flat indices: the
   * sampler's row-order fact, for the `x + resolutionX * y` the job writes.
   */
  lemma {:induction false} FlatInjective(w: int, x1: int, y1: int, x2: int, y2: int)
    requires 0 <= x1 < w && 0 <= x2 < w && 0 <= y1 && 0 <= y2
    requires Flat(w, x1, y1) == Flat(w, x2, y2)
    ensures x1 == x2 && y1 == y2
  {
    if y1 < y2 {
      Raster.RowOrder(w, x1, y1, x2, y2);
    } else if y2 < y1 {
      Raster.RowOrder(w, x2, y2, x1, y1);
    }
  }

  /** Every index of a `w` by `h` image is the flat index of exactly the texel (k % w, k / w). */
  lemma FlatCovers(w: int, h: int, k: int)
    requires 0 < w && 0 <= h && 0 <= k < w * h
    ensures 0 <= k % w < w && 0 <= k / w < h && Flat(w, k % w, k / w) == k
  {
    var q, r := k / w, k % w;
    assert k == w * q + r;
  }

  /** A flat index of the image lies inside it. */
  lemma FlatInside(w: int, h: int, x: int, y: int)
    requires 0 <= x < w && 0 <= y < h
    ensures 0 <= Flat(w, x, y) < w * h
  {
    Raster.IndexBound(x, y, w, h);
  }

  /** Where texel (x, y) samples: the grid scaled, rotated and centred on the world position. */
  function SamplePosition(e: Engine, job: ToTextureJob, x: int, y: int): Vec3
  {
    var s := job.worldScale;
    var grid := e.rotate(job.worldRotation, Vec3(x as real * s.x, 0.0, y as real * s.z));
    var half := e.rotate(job.worldRotation, Vec3(job.resolutionX as real * -s.x * 0.5, 0.0, job.resolutionY as real * -s.z * 0.5));
    Add(Add(job.worldPosition, grid), Times(half, -1.0))
  }

  /** `min` plus the three octaves at the texel's sample position. */
  function Total(e: Engine, job: ToTextureJob, x: int, y: int): real
  {
    job.min + Octaves(e, job.noise, Zero3, SamplePosition(e, job, x, y))
  }

  /** `(byte)(int)(total * 255)`: truncation toward zero, then the low eight bits. */
  function GreyLevel(total: real): (b: Byte)
    ensures 0.0 <= total <= 1.0 ==> b == (total * 255.0).Floor
    ensures total == 1.0 ==> b == 255
  {
    Trunc(total * 255.0) % 256
  }

  /** The grey, opaque pixel the job writes for a total. */
  function GreyPixel(total: real): (c: Color32)
    ensures c.r == c.g == c.b == GreyLevel(total) && c.a == 255
  {
    var v := GreyLevel(total);
    Color32(v, v, v, 255)
  }

  /** With readings in [-1, 1], `min = 0` and non-negative strengths adding up to at most 1, no grey level wraps. */
  lemma GreyLevelExact(e: Engine, job: ToTextureJob, x: int, y: int)
    requires NoiseInRange(e) && NonNegativeStrengths(job.noise) && StrengthSum(job.noise) <= 1.0
    requires job.min == 0.0
    ensures GreyLevel(Total(e, job, x, y)) == (Total(e, job, x, y) * 255.0).Floor
  {
    OctavesBounds(e, job.noise, Zero3, SamplePosition(e, job, x, y));
  }

  /** A total just over 1 wraps to black: (byte)255.0000… is 255, but (byte)256 is 0. */
  lemma GreyLevelWraps()
    ensures GreyLevel(256.0 / 255.0) == 0
  {
    assert 256.0 / 255.0 * 255.0 == 256.0;
  }

  /** The pixel the job writes for texel (x, y). */
  function Texel(e: Engine, job: ToTextureJob, x: int, y: int): Color32
  {
    GreyPixel(Total(e, job, x, y))
  }

  /** Every texel of a `w` by `h` image has its flat index inside the image. */
  lemma AllFlatInside(w: int, h: int)
    ensures forall x, y :: 0 <= x < w && 0 <= y < h ==> 0 <= Flat(w, x, y) < w * h
  {
    forall x, y | 0 <= x < w && 0 <= y < h
      ensures 0 <= Flat(w, x, y) < w * h
    {
      FlatInside(w, h, x, y);
    }
  }

  /** The texels written before (x, y), column by column, all have indices other than that of (x, y). */
  lemma EarlierTexelsApart(w: int, h: int, x: int, y: int)
    requires 0 <= x < w && 0 <= y < h
    ensures forall x', y' :: 0 <= x' < x && 0 <= y' < h ==> Flat(w, x', y') != Flat(w, x, y)
    ensures forall y' :: 0 <= y' < y ==> Flat(w, x, y') != Flat(w, x, y)
  {
    forall x', y' | 0 <= x' < x && 0 <= y' < h
      ensures Flat(w, x', y') != Flat(w, x, y)
    {
      if Flat(w, x', y') == Flat(w, x, y) {
        FlatInjective(w, x', y', x, y);
      }
    }
    forall y' | 0 <= y' < y
      ensures Flat(w, x, y') != Flat(w, x, y)
    {
      if Flat(w, x, y') == Flat(w, x, y) {
        FlatInjective(w, x, y', x, y);
      }
    }
  }

  /**
   * `PerlinToTexture.Execute`: for every column x and every row y the texel
   * at `x + resolutionX * y` receives the grey pixel of that texel's total;
   * so every texel of the buffer is written, each from its own (x, y).
   */
  method PerlinToTexture(e: Engine, job: ToTextureJob, textureData: array<Color32>)
    requires 0 <= job.resolutionX && 0 <= job.resolutionY
    requires textureData.Length == job.resolutionX * job.resolutionY
    modifies textureData
    ensures forall x, y :: 0 <= x < job.resolutionX && 0 <= y < job.resolutionY ==>
      0 <= Flat(job.resolutionX, x, y) < textureData.Length &&
      textureData[Flat(job.resolutionX, x, y)] == Texel(e, job, x, y)
    ensures forall k :: 0 <= k < textureData.Length ==>
      textureData[k] == Texel(e, job, k % job.resolutionX, k / job.resolutionX)
  {
    var w, h := job.resolutionX, job.resolutionY;
    AllFlatInside(w, h);
    var x := 0;
    while x < w
      invariant 0 <= x <= w
      invariant forall x', y' :: 0 <= x' < x && 0 <= y' < h ==>
        textureData[Flat(w, x', y')] == Texel(e, job, x', y')
    {
      var y := 0;
      while y < h
        invariant 0 <= y <= h
        invariant forall x', y' :: 0 <= x' < x && 0 <= y' < h ==>
          textureData[Flat(w, x', y')] == Texel(e, job, x', y')
        invariant forall y' :: 0 <= y' < y ==>
          textureData[Flat(w, x, y')] == Texel(e, job, x, y')
      {
        var index := Flat(w, x, y);
        EarlierTexelsApart(w, h, x, y);
        textureData[index] := Texel(e, job, x, y);
        y := y + 1;
      }
      assert forall x', y' :: 0 <= x' < x + 1 && 0 <= y' < h ==>
        textureData[Flat(w, x', y')] == Texel(e, job, x', y') by {
        forall x', y' | 0 <= x' < x + 1 && 0 <= y' < h
          ensures textureData[Flat(w, x', y')] == Texel(e, job, x', y')
        {
          if x' == x {
            assert textureData[Flat(w, x, y')] == Texel(e, job, x, y');
          }
        }
      }
      x := x + 1;
    }
    forall k | 0 <= k < textureData.Length
      ensures textureData[k] == Texel(e, job, k % w, k / w)
    {
      FlatCovers(w, h, k);
    }
  }
}
