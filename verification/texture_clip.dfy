/**
 * `TextureClip`: invalidates every candidate whose sampled colour has a
 * channel outside its inclusive band. It visits invalid candidates too, but
 * never makes one valid.
 */
module TextureClip {
  import opened Maths
  import opened Pixels
  import opened Raster
  import opened States
  import opened Jobs

  /** The serialized bands, each defaulting to [0, 1]. */
  datatype Settings = Settings(rMin: real, rMax: real, gMin: real, gMax: real, bMin: real, bMax: real)

  const Defaults := Settings(0.0, 1.0, 0.0, 1.0, 0.0, 1.0)

  /** `TextureClipJob`; it reads the colour map. */
  datatype Job = Job(bands: Settings, grid: Grid, texture: seq<RGBPixel>)

  function MakeJob(settings: Settings, t: TextureSet): Job
  {
    Job(settings, GridOf(t), t.color)
  }

  predicate InBands(b: Settings, c: Vec3)
  {
    b.rMin <= c.x <= b.rMax && b.gMin <= c.y <= b.gMax && b.bMin <= c.z <= b.bMax
  }

  /**
   * `TextureClipJob.Execute`: each channel outside its band clears `valid`;
   * with every channel inside, the candidate keeps the validity it had.
   */
  function Execute(job: Job, s: GenusState): (r: GenusState)
    requires Fits(job.grid, job.texture)
    ensures FilterStep(s, r)
    ensures r.valid <==> s.valid && InBands(job.bands, SampleRgb(job.grid, job.texture, s.instance.position.x, s.instance.position.z))
  {
    var c := SampleRgb(job.grid, job.texture, s.instance.position.x, s.instance.position.z);
    var b := job.bands;
    var s1 := if c.x < b.rMin || c.x > b.rMax then s.(valid := false) else s;
    var s2 := if c.y < b.gMin || c.y > b.gMax then s1.(valid := false) else s1;
    if c.z < b.bMin || c.z > b.bMax then s2.(valid := false) else s2
  }

  lemma ExecuteIdempotent(job: Job, s: GenusState)
    requires Fits(job.grid, job.texture)
    ensures Execute(job, Execute(job, s)) == Execute(job, s)
  {
  }

  /** The default bands keep every candidate at or above the low edge of the set. */
  lemma DefaultsKeep(t: TextureSet, s: GenusState)
    requires Fits(GridOf(t), t.color)
    requires NotBelow(GridOf(t), s.instance.position.x, s.instance.position.z)
    ensures Execute(MakeJob(Defaults, t), s) == s
  {
    SampleRgbInUnit(GridOf(t), t.color, s.instance.position.x, s.instance.position.z);
  }

  predicate Ready(world: WorldState)
  {
    world.textureSet.Some? ==> Fits(GridOf(world.textureSet.value), world.textureSet.value.color)
  }

  /** `Apply`: nothing without a texture set, otherwise one job over every candidate. */
  function Applied(settings: Settings, world: WorldState, s: seq<GenusState>): (r: seq<GenusState>)
    requires Ready(world)
    ensures Pairwise(s, r, FilterStep)
    ensures world.textureSet.None? ==> r == s
  {
    match world.textureSet
    case None => s
    case Some(t) =>
      var job := MakeJob(settings, t);
      ParallelFor(s, (i: nat, st: GenusState) => Execute(job, st))
  }

  method Apply(settings: Settings, world: WorldState, states: array<GenusState>)
    requires Ready(world)
    modifies states
    ensures states[..] == Applied(settings, world, old(states[..]))
  {
    if world.textureSet.Some? {
      var job := MakeJob(settings, world.textureSet.value);
      RunParallelFor(states, (i: nat, st: GenusState) => Execute(job, st));
    }
  }
}
