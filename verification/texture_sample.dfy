/**
 * `TextureSample`: up to three passes over the candidates, each switched on
 * by its own flag. The height pass drops a valid candidate that lies off the
 * baked area or on a steep edge, and otherwise sets its height from the
 * height map; the normal pass turns every candidate to the sampled normal;
 * the colour pass stores the sampled colour in `extra`.
 */
module TextureSample {
  import opened Maths
  import opened Pixels
  import opened Raster
  import opened States
  import opened Jobs

  /** The serialized flags; all off by default. */
  datatype Settings = Settings(sampleHeight: bool, sampleNormal: bool, sampleColor: bool)

  const Defaults := Settings(false, false, false)

  /** The height difference between neighbouring texels, in world units, beyond which a candidate is dropped. */
  const EdgeThreshold := 2.0

  // ---------------------------------------------------------------- height

  /** `HeightSampleJob`. */
  datatype HeightJob = HeightJob(grid: Grid, maxDistance: real, direction: SampleDirection, texture: seq<R16Pixel>)

  function MakeHeightJob(t: TextureSet): HeightJob
  {
    HeightJob(GridOf(t), t.maxDistance, t.direction, t.height)
  }

  /** The cells `SampleMask` reads: floored and ceiled texel coordinates, clamped to the grid. */
  function MaskFootprint(g: Grid, px: real, pz: real): (f: Footprint)
    requires g.resX >= 1 && g.resY >= 1 && g.bounds.x != 0.0 && g.bounds.z != 0.0
    ensures 0 <= f.xMin <= f.xMax <= f.xMin + 1 && f.xMax < g.resX
    ensures 0 <= f.yMin <= f.yMax <= f.yMin + 1 && f.yMax < g.resY
  {
    var sx, sy := TexelX(g, px), TexelY(g, pz);
    Footprint(Cell(sx, g.resX), Cell(sy, g.resY), CellUp(sx, g.resX), CellUp(sy, g.resY), 0.0, 0.0)
  }

  /**
   * `SampleMask`: the position is on the baked area when none of the texels
   * around it holds zero, the value a height map keeps where nothing was
   * hit. The texel the nearest sampler reads is one of them, and a map
   * without zeros passes everywhere.
   */
  function SampleMask(g: Grid, tex: seq<R16Pixel>, px: real, pz: real): (b: bool)
    requires Fits(g, tex)
    ensures b ==> SampleNearest(g, tex, R16, px, pz) != 0.0
    ensures (forall i :: 0 <= i < |tex| ==> R16(tex[i]) != 0.0) ==> b
  {
    var q := Corners(g, tex, R16, MaskFootprint(g, px, pz));
    q.minXminY != 0.0 && q.minXmaxY != 0.0 && q.maxXminY != 0.0 && q.maxXmaxY != 0.0
  }

  /** One edge of the footprint rises more than `threshold` over its length. */
  predicate Steep(a: real, b: real, maxDistance: real, threshold: real)
  {
    Abs(a - b) * maxDistance > threshold
  }

  /**
   * `SampleTextureBilinearClip`: some side of the bilinear footprint is
   * steep. The heights differ by less than one between texels, so a height
   * range no deeper than the threshold never clips.
   */
  function SampleClip(g: Grid, tex: seq<R16Pixel>, px: real, pz: real, maxDistance: real, threshold: real): (b: bool)
    requires Fits(g, tex)
    ensures 0.0 <= maxDistance <= threshold ==> !b
  {
    var q := Corners(g, tex, R16, BilinearFootprint(g, px, pz));
    var b := Steep(q.minXminY, q.minXmaxY, maxDistance, threshold) || Steep(q.maxXminY, q.maxXmaxY, maxDistance, threshold)
      || Steep(q.minXminY, q.maxXminY, maxDistance, threshold) || Steep(q.minXmaxY, q.maxXmaxY, maxDistance, threshold);
    if 0.0 <= maxDistance <= threshold then
      ShallowNotSteep(q.minXminY, q.minXmaxY, maxDistance, threshold);
      ShallowNotSteep(q.maxXminY, q.maxXmaxY, maxDistance, threshold);
      ShallowNotSteep(q.minXminY, q.maxXminY, maxDistance, threshold);
      ShallowNotSteep(q.minXmaxY, q.maxXmaxY, maxDistance, threshold);
      b
    else
      b
  }

  /** Two readings in [0, 1] are never steep apart over a height range no deeper than the threshold. */
  lemma ShallowNotSteep(a: real, b: real, maxDistance: real, threshold: real)
    requires 0.0 <= maxDistance <= threshold
    requires 0.0 <= a <= 1.0 && 0.0 <= b <= 1.0
    ensures !Steep(a, b, maxDistance, threshold)
  {
    var d := Abs(a - b);
    assert d <= 1.0;
    MulBounds(maxDistance, d);
    assert d * maxDistance <= threshold;
  }

  /** The depth below the top of the extent that a height reading stands for. */
  function Depth(job: HeightJob, v: real): real
  {
    match job.direction
    case Down => v * job.maxDistance
    case Up => (1.0 - v) * job.maxDistance
  }

  /** The new height: the top of the extent, `position.y + bounds.y / 2`, less the depth read at (x, z). */
  function Ground(job: HeightJob, p: Vec3): real
    requires Fits(job.grid, job.texture)
  {
    p.y + 0.5 * job.grid.bounds.y - Depth(job, SampleBilinear(job.grid, job.texture, R16, p.x, p.z))
  }

  /** What the height pass may change: clear `valid` and set the height. */
  predicate HeightStep(before: GenusState, after: GenusState)
  {
    after == before.(valid := after.valid, instance := before.instance.(position := before.instance.position.(y := after.instance.position.y)))
    && (after.valid ==> before.valid)
  }

  /**
   * `HeightSampleJob.Execute`: an invalid candidate is left alone. A valid
   * one is dropped when it is off the mask or on a steep edge, and otherwise
   * keeps its validity and is moved to the ground height.
   */
  function ExecuteHeight(job: HeightJob, s: GenusState): (r: GenusState)
    requires Fits(job.grid, job.texture)
    ensures HeightStep(s, r)
    ensures !s.valid ==> r == s
    ensures var p := s.instance.position;
            r.valid <==> s.valid && SampleMask(job.grid, job.texture, p.x, p.z)
                         && !SampleClip(job.grid, job.texture, p.x, p.z, job.maxDistance, EdgeThreshold)
    ensures s.valid && !r.valid ==> r == s.(valid := false)
    ensures r.valid ==> r.instance.position.y == Ground(job, s.instance.position)
  {
    var p := s.instance.position;
    if !s.valid then s
    else if !SampleMask(job.grid, job.texture, p.x, p.z) then s.(valid := false)
    else if SampleClip(job.grid, job.texture, p.x, p.z, job.maxDistance, EdgeThreshold) then s.(valid := false)
    else s.(instance := s.instance.(position := p.(y := Ground(job, p))))
  }

  /** At or above the low edge, with a non-negative height range, the ground lies within the range below the top. */
  lemma GroundWithinRange(job: HeightJob, p: Vec3)
    requires Fits(job.grid, job.texture)
    requires NotBelow(job.grid, p.x, p.z)
    requires 0.0 <= job.maxDistance
    ensures var top := p.y + 0.5 * job.grid.bounds.y;
            top - job.maxDistance <= Ground(job, p) <= top
  {
    var v := SampleBilinear(job.grid, job.texture, R16, p.x, p.z);
    HeightsInUnit(job.texture);
    BilinearInRange(job.grid, job.texture, R16, p.x, p.z, 0.0, 65535.0 / 65536.0);
    DepthWithinRange(job, v);
  }

  /** A reading in [0, 1] stands for a depth in [0, maxDistance], whichever way the map was baked. */
  lemma DepthWithinRange(job: HeightJob, v: real)
    requires 0.0 <= v <= 1.0 && 0.0 <= job.maxDistance
    ensures 0.0 <= Depth(job, v) <= job.maxDistance
  {
    var d, w := job.maxDistance, 1.0 - v;
    MulBounds(d, v);
    MulBounds(d, w);
  }

  /** A candidate over a texel holding zero is off the mask and is dropped. */
  lemma HoleDrops(job: HeightJob, s: GenusState)
    requires Fits(job.grid, job.texture)
    requires SampleNearest(job.grid, job.texture, R16, s.instance.position.x, s.instance.position.z) == 0.0
    ensures !ExecuteHeight(job, s).valid
  {
  }

  /**
   * On a flat, fully baked height map (every texel the same non-zero
   * reading `v`) a valid candidate stays valid and lands at the depth of `v`
   * below the top: `v` (looking down) or `1 - v` (looking up) times the
   * height range.
   */
  lemma FlatMapPlaces(job: HeightJob, s: GenusState, v: real)
    requires Fits(job.grid, job.texture)
    requires forall i :: 0 <= i < |job.texture| ==> R16(job.texture[i]) == v
    requires v != 0.0 && s.valid
    ensures ExecuteHeight(job, s).valid
    ensures ExecuteHeight(job, s).instance.position.y == s.instance.position.y + 0.5 * job.grid.bounds.y - Depth(job, v)
  {
    var g, tex, p := job.grid, job.texture, s.instance.position;
    assert Ground(job, p) == p.y + 0.5 * g.bounds.y - Depth(job, v) by {
      BilinearConstant(g, tex, R16, p.x, p.z, v);
    }
    assert !SampleClip(g, tex, p.x, p.z, job.maxDistance, EdgeThreshold) by {
      FlatMapNeverClips(g, tex, p.x, p.z, v, job.maxDistance, EdgeThreshold);
    }
    assert SampleMask(g, tex, p.x, p.z) by {
      FlatMapMasks(g, tex, p.x, p.z, v);
    }
  }

  /** A fully baked flat height map masks nothing out. */
  lemma FlatMapMasks(g: Grid, tex: seq<R16Pixel>, px: real, pz: real, v: real)
    requires Fits(g, tex)
    requires forall i :: 0 <= i < |tex| ==> R16(tex[i]) == v
    requires v != 0.0
    ensures SampleMask(g, tex, px, pz)
  {
    assert forall i :: 0 <= i < |tex| ==> R16(tex[i]) != 0.0;
  }

  /** A flat height map has no steep edges, whatever the height range. */
  lemma FlatMapNeverClips(g: Grid, tex: seq<R16Pixel>, px: real, pz: real, v: real, maxDistance: real, threshold: real)
    requires Fits(g, tex)
    requires forall i :: 0 <= i < |tex| ==> R16(tex[i]) == v
    requires 0.0 <= threshold
    ensures !SampleClip(g, tex, px, pz, maxDistance, threshold)
  {
    var q := Corners(g, tex, R16, BilinearFootprint(g, px, pz));
    assert q == Quad(v, v, v, v);
    assert Abs(v - v) == 0.0;
    assert !Steep(v, v, maxDistance, threshold);
  }

  // ---------------------------------------------------------------- normal

  /** `NormalSampleJob`. */
  datatype NormalJob = NormalJob(grid: Grid, texture: seq<RGBPixel>)

  /**
   * `NormalSampleJob.Execute`: every candidate, valid or not, is turned by
   * the rotation from up to the sampled normal, applied after its own
   * rotation; nothing else changes.
   */
  function ExecuteNormal(e: Engine, job: NormalJob, s: GenusState): (r: GenusState)
    requires Fits(job.grid, job.texture)
    ensures OnlyRotation(s, r)
    ensures r.instance.rotation == e.quatMul(
      e.fromToRotation(Upward, Unpack(SampleRgb(job.grid, job.texture, s.instance.position.x, s.instance.position.z))),
      s.instance.rotation)
  {
    var n := Unpack(SampleRgb(job.grid, job.texture, s.instance.position.x, s.instance.position.z));
    s.(instance := s.instance.(rotation := e.quatMul(e.fromToRotation(Upward, n), s.instance.rotation)))
  }

  /** The normal pass does not look at validity: a dropped candidate is turned just like a kept one. */
  lemma NormalIgnoresValidity(e: Engine, job: NormalJob, s: GenusState, valid: bool)
    requires Fits(job.grid, job.texture)
    ensures ExecuteNormal(e, job, s.(valid := valid)) == ExecuteNormal(e, job, s).(valid := valid)
  {
  }

  // ---------------------------------------------------------------- colour

  /** `ColorSampleJob`. */
  datatype ColorJob = ColorJob(grid: Grid, texture: seq<RGBPixel>)

  /**
   * `ColorSampleJob.Execute`: every candidate, valid or not, gets the sampled
   * colour in the first three components of `extra`; the fourth is kept.
   */
  function ExecuteColor(job: ColorJob, s: GenusState): (r: GenusState)
    requires Fits(job.grid, job.texture)
    ensures OnlyExtra(s, r)
    ensures r.instance.extra.w == s.instance.extra.w
    ensures var c := SampleRgb(job.grid, job.texture, s.instance.position.x, s.instance.position.z);
            r.instance.extra.x == c.x && r.instance.extra.y == c.y && r.instance.extra.z == c.z
  {
    var c := SampleRgb(job.grid, job.texture, s.instance.position.x, s.instance.position.z);
    s.(instance := s.instance.(extra := Vec4(c.x, c.y, c.z, s.instance.extra.w)))
  }

  /** Sampling the colour twice stores the same colour: the position it is read at does not move. */
  lemma ColorIdempotent(job: ColorJob, s: GenusState)
    requires Fits(job.grid, job.texture)
    ensures ExecuteColor(job, ExecuteColor(job, s)) == ExecuteColor(job, s)
  {
  }

  /** At or above the low edge the stored colour is a colour: every channel in [0, 1]. */
  lemma ColorInUnit(job: ColorJob, s: GenusState)
    requires Fits(job.grid, job.texture)
    requires NotBelow(job.grid, s.instance.position.x, s.instance.position.z)
    ensures var x := ExecuteColor(job, s).instance.extra;
            0.0 <= x.x <= 1.0 && 0.0 <= x.y <= 1.0 && 0.0 <= x.z <= 1.0
  {
    SampleRgbInUnit(job.grid, job.texture, s.instance.position.x, s.instance.position.z);
  }

  // ---------------------------------------------------------------- apply

  /** Each switched-on pass needs its texture at the set's resolution. */
  predicate Ready(settings: Settings, world: WorldState)
  {
    world.textureSet.Some? ==>
      var t := world.textureSet.value;
      (settings.sampleHeight ==> Fits(GridOf(t), t.height)) &&
      (settings.sampleNormal ==> Fits(GridOf(t), t.normal)) &&
      (settings.sampleColor ==> Fits(GridOf(t), t.color))
  }

  /** What the three passes together may change: clear `valid`, the height, the rotation and `extra`. */
  predicate SampleStep(before: GenusState, after: GenusState)
  {
    (after.valid ==> before.valid) && after.distribution == before.distribution &&
    after.instance.density == before.instance.density && after.instance.scale == before.instance.scale &&
    after.instance.position.x == before.instance.position.x && after.instance.position.z == before.instance.position.z
  }

  function HeightPass(settings: Settings, t: TextureSet, s: seq<GenusState>): (r: seq<GenusState>)
    requires settings.sampleHeight ==> Fits(GridOf(t), t.height)
    ensures Pairwise(s, r, HeightStep)
  {
    if settings.sampleHeight then
      var job := MakeHeightJob(t);
      ParallelFor(s, (i: nat, st: GenusState) => ExecuteHeight(job, st))
    else s
  }

  function NormalPass(e: Engine, settings: Settings, t: TextureSet, s: seq<GenusState>): (r: seq<GenusState>)
    requires settings.sampleNormal ==> Fits(GridOf(t), t.normal)
    ensures Pairwise(s, r, OnlyRotation)
  {
    if settings.sampleNormal then
      var job := NormalJob(GridOf(t), t.normal);
      ParallelFor(s, (i: nat, st: GenusState) => ExecuteNormal(e, job, st))
    else s
  }

  function ColorPass(settings: Settings, t: TextureSet, s: seq<GenusState>): (r: seq<GenusState>)
    requires settings.sampleColor ==> Fits(GridOf(t), t.color)
    ensures Pairwise(s, r, OnlyExtra)
  {
    if settings.sampleColor then
      var job := ColorJob(GridOf(t), t.color);
      ParallelFor(s, (i: nat, st: GenusState) => ExecuteColor(job, st))
    else s
  }

  /**
   * `Apply`: nothing without a texture set; otherwise the height pass, then
   * the normal pass, then the colour pass, each only when its flag is set.
   */
  function Applied(e: Engine, settings: Settings, world: WorldState, s: seq<GenusState>): (r: seq<GenusState>)
    requires Ready(settings, world)
    ensures Pairwise(s, r, SampleStep)
    ensures world.textureSet.None? || settings == Defaults ==> r == s
  {
    match world.textureSet
    case None => s
    case Some(t) =>
      var h := HeightPass(settings, t, s);
      var n := NormalPass(e, settings, t, h);
      var c := ColorPass(settings, t, n);
      assert forall i :: 0 <= i < |s| ==> HeightStep(s[i], h[i]) && OnlyRotation(h[i], n[i]) && OnlyExtra(n[i], c[i]);
      c
  }

  method Apply(e: Engine, settings: Settings, world: WorldState, states: array<GenusState>)
    requires Ready(settings, world)
    modifies states
    ensures states[..] == Applied(e, settings, world, old(states[..]))
  {
    if world.textureSet.Some? {
      var t := world.textureSet.value;
      if settings.sampleHeight {
        var job := MakeHeightJob(t);
        RunParallelFor(states, (i: nat, st: GenusState) => ExecuteHeight(job, st));
      }
      if settings.sampleNormal {
        var job := NormalJob(GridOf(t), t.normal);
        RunParallelFor(states, (i: nat, st: GenusState) => ExecuteNormal(e, job, st));
      }
      if settings.sampleColor {
        var job := ColorJob(GridOf(t), t.color);
        RunParallelFor(states, (i: nat, st: GenusState) => ExecuteColor(job, st));
      }
    }
  }
}
