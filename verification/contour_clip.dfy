/**
 * `ContourClip`: keeps the valid candidates whose sampled contour value has
 * all four channels inside their inclusive bands.
 */
module ContourClip {
  import opened Maths
  import opened Pixels
  import opened Raster
  import opened States
  import opened Jobs

  /** The serialized bands, each defaulting to [0, 1]. */
  datatype Settings = Settings(rMin: real, rMax: real, gMin: real, gMax: real, bMin: real, bMax: real, aMin: real, aMax: real)

  const Defaults := Settings(0.0, 1.0, 0.0, 1.0, 0.0, 1.0, 0.0, 1.0)

  /** `ContourClipJob`; it reads the contour map. */
  datatype Job = Job(bands: Settings, grid: Grid, texture: seq<RGBAPixel>)

  function MakeJob(settings: Settings, t: TextureSet): Job
  {
    Job(settings, GridOf(t), t.contour)
  }

  predicate InBands(b: Settings, c: Vec4)
  {
    b.rMin <= c.x <= b.rMax && b.gMin <= c.y <= b.gMax && b.bMin <= c.z <= b.bMax && b.aMin <= c.w <= b.aMax
  }

  /**
   * `ContourClipJob.Execute`: an invalid candidate is left alone; a valid one
   * stays valid exactly when all four channels are inside their bands.
   */
  function Execute(job: Job, s: GenusState): (r: GenusState)
    requires Fits(job.grid, job.texture)
    ensures FilterStep(s, r)
    ensures !s.valid ==> r == s
    ensures r.valid <==> s.valid && InBands(job.bands, SampleRgba(job.grid, job.texture, s.instance.position.x, s.instance.position.z))
  {
    if !s.valid then s
    else
      var v := SampleRgba(job.grid, job.texture, s.instance.position.x, s.instance.position.z);
      var b := job.bands;
      var rValid := v.x >= b.rMin && v.x <= b.rMax;
      var gValid := v.y >= b.gMin && v.y <= b.gMax;
      var bValid := v.z >= b.bMin && v.z <= b.bMax;
      var aValid := v.w >= b.aMin && v.w <= b.aMax;
      s.(valid := s.valid && rValid && gValid && bValid && aValid)
  }

  lemma ExecuteIdempotent(job: Job, s: GenusState)
    requires Fits(job.grid, job.texture)
    ensures Execute(job, Execute(job, s)) == Execute(job, s)
  {
  }

  /** The default bands keep every candidate at or above the low edge of the set. */
  lemma DefaultsKeep(t: TextureSet, s: GenusState)
    requires Fits(GridOf(t), t.contour)
    requires NotBelow(GridOf(t), s.instance.position.x, s.instance.position.z)
    ensures Execute(MakeJob(Defaults, t), s) == s
  {
    SampleRgbaInUnit(GridOf(t), t.contour, s.instance.position.x, s.instance.position.z);
  }

  predicate Ready(world: WorldState)
  {
    world.textureSet.Some? ==> Fits(GridOf(world.textureSet.value), world.textureSet.value.contour)
  }

  /** `Apply`: nothing without a texture set, otherwise one job over every candidate. */
  function Applied(settings: Settings, world: WorldState, s: seq<GenusState>): (r: seq<GenusState>)
    requires Ready(world)
    ensures Pairwise(s, r, FilterStep)
    ensures world.textureSet.None? ==> r == s
  {
    match world.textureSet
    case None => s
    case Some(t) =>
      var job := MakeJob(settings, t);
      ParallelFor(s, (i: nat, st: GenusState) => Execute(job, st))
  }

  method Apply(settings: Settings, world: WorldState, states: array<GenusState>)
    requires Ready(world)
    modifies states
    ensures states[..] == Applied(settings, world, old(states[..]))
  {
    if world.textureSet.Some? {
      var job := MakeJob(settings, world.textureSet.value);
      RunParallelFor(states, (i: nat, st: GenusState) => Execute(job, st));
    }
  }
}
