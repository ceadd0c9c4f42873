/**
 * `NormalClip`: keeps the valid candidates whose terrain normal, read from
 * the normal map, points up steeply enough.
 */
module NormalClip {
  import opened Maths
  import opened Pixels
  import opened Raster
  import opened States
  import opened Jobs

  /** The serialized threshold, defaulting to 0.5. */
  datatype Settings = Settings(normalClip: real)

  const Defaults := Settings(0.5)

  /** `NormalClipJob`. */
  datatype Job = Job(grid: Grid, normalClip: real, texture: seq<RGBPixel>)

  function MakeJob(settings: Settings, t: TextureSet): Job
  {
    Job(GridOf(t), settings.normalClip, t.normal)
  }

  /** How far the sampled normal points up: its dot product with the up vector. */
  function Upness(job: Job, position: Vec3): real
    requires Fits(job.grid, job.texture)
  {
    Dot(Unpack(SampleRgb(job.grid, job.texture, position.x, position.z)), Upward)
  }

  /**
   * `NormalClipJob.Execute`: an invalid candidate is left alone; a valid one
   * stays valid exactly when `2 * (green - 0.5)` exceeds the threshold, strictly.
   */
  function Execute(job: Job, s: GenusState): (r: GenusState)
    requires Fits(job.grid, job.texture)
    ensures FilterStep(s, r)
    ensures !s.valid ==> r == s
    ensures s.valid ==> (r.valid <==>
      2.0 * (SampleBilinear(job.grid, job.texture, RgbG, s.instance.position.x, s.instance.position.z) - 0.5) > job.normalClip)
  {
    if !s.valid then s
    else s.(valid := Upness(job, s.instance.position) > job.normalClip)
  }

  lemma ExecuteIdempotent(job: Job, s: GenusState)
    requires Fits(job.grid, job.texture)
    ensures Execute(job, Execute(job, s)) == Execute(job, s)
  {
  }

  /** A threshold below -1 keeps every candidate at or above the low edge of the set. */
  lemma LowThresholdKeeps(job: Job, s: GenusState)
    requires Fits(job.grid, job.texture)
    requires NotBelow(job.grid, s.instance.position.x, s.instance.position.z)
    requires job.normalClip < -1.0
    ensures Execute(job, s) == s
  {
    SampleRgbInUnit(job.grid, job.texture, s.instance.position.x, s.instance.position.z);
  }

  /** A threshold of 1 or more clears every candidate at or above the low edge of the set. */
  lemma HighThresholdClears(job: Job, s: GenusState)
    requires Fits(job.grid, job.texture)
    requires NotBelow(job.grid, s.instance.position.x, s.instance.position.z)
    requires 1.0 <= job.normalClip
    ensures !Execute(job, s).valid
  {
    SampleRgbInUnit(job.grid, job.texture, s.instance.position.x, s.instance.position.z);
  }

  predicate Ready(world: WorldState)
  {
    world.textureSet.Some? ==> Fits(GridOf(world.textureSet.value), world.textureSet.value.normal)
  }

  /** `Apply`: nothing without a texture set, otherwise one job over every candidate. */
  function Applied(settings: Settings, world: WorldState, s: seq<GenusState>): (r: seq<GenusState>)
    requires Ready(world)
    ensures Pairwise(s, r, FilterStep)
    ensures world.textureSet.None? ==> r == s
  {
    match world.textureSet
    case None => s
    case Some(t) =>
      var job := MakeJob(settings, t);
      ParallelFor(s, (i: nat, st: GenusState) => Execute(job, st))
  }

  method Apply(settings: Settings, world: WorldState, states: array<GenusState>)
    requires Ready(world)
    modifies states
    ensures states[..] == Applied(settings, world, old(states[..]))
  {
    if world.textureSet.Some? {
      var job := MakeJob(settings, world.textureSet.value);
      RunParallelFor(states, (i: nat, st: GenusState) => Execute(job, st));
    }
  }
}
