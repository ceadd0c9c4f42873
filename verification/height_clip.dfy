/**
 * `HeightClip`: keeps the valid candidates whose sampled terrain height lies
 * inside an inclusive band. A height map baked looking down stores depth, so
 * the reading is `1 - sample` there.
 */
module HeightClip {
  import opened Maths
  import opened Pixels
  import opened Raster
  import opened States
  import opened Jobs

  /** The serialized band, defaulting to [0, 0.8]. */
  datatype Settings = Settings(min: real, max: real)

  const Defaults := Settings(0.0, 0.8)

  /** `HeightClipJob`. */
  datatype Job = Job(min: real, max: real, grid: Grid, direction: SampleDirection, texture: seq<R16Pixel>)

  /** The job initialiser of `Apply`. */
  function MakeJob(settings: Settings, t: TextureSet): Job
  {
    Job(settings.min, settings.max, GridOf(t), t.direction, t.height)
  }

  /** The height the band is compared with. */
  function Reading(job: Job, position: Vec3): real
    requires Fits(job.grid, job.texture)
  {
    var v := SampleBilinear(job.grid, job.texture, R16, position.x, position.z);
    match job.direction
    case Down => 1.0 - v
    case Up => v
  }

  /**
   * `HeightClipJob.Execute`: an invalid candidate is left alone; a valid one
   * stays valid exactly when its reading is inside the band, ends included.
   */
  function Execute(job: Job, s: GenusState): (r: GenusState)
    requires Fits(job.grid, job.texture)
    ensures FilterStep(s, r)
    ensures !s.valid ==> r == s
    ensures r.valid <==> s.valid && job.min <= Reading(job, s.instance.position) <= job.max
  {
    if !s.valid then s
    else
      var v := Reading(job, s.instance.position);
      s.(valid := s.valid && v >= job.min && v <= job.max)
  }

  /** Filtering is idempotent: the second pass samples the same place and agrees. */
  lemma ExecuteIdempotent(job: Job, s: GenusState)
    requires Fits(job.grid, job.texture)
    ensures Execute(job, Execute(job, s)) == Execute(job, s)
  {
  }

  /** A band [min, max] on a height map baked looking down keeps what [1 - max, 1 - min] keeps looking up. */
  lemma DirectionSymmetry(job: Job, s: GenusState)
    requires Fits(job.grid, job.texture)
    ensures Execute(job.(direction := Down), s) == Execute(job.(direction := Up, min := 1.0 - job.max, max := 1.0 - job.min), s)
  {
  }

  /** A band covering [0, 1] keeps every candidate at or above the low edge of the set. */
  lemma FullBandKeeps(job: Job, s: GenusState)
    requires Fits(job.grid, job.texture)
    requires NotBelow(job.grid, s.instance.position.x, s.instance.position.z)
    requires job.min <= 0.0 && 1.0 <= job.max
    ensures Execute(job, s) == s
  {
    HeightsInUnit(job.texture);
    BilinearInRange(job.grid, job.texture, R16, s.instance.position.x, s.instance.position.z, 0.0, 65535.0 / 65536.0);
  }

  /** The stage needs a height map of the set's resolution when a set is present. */
  predicate Ready(world: WorldState)
  {
    world.textureSet.Some? ==> Fits(GridOf(world.textureSet.value), world.textureSet.value.height)
  }

  /** `Apply`: nothing without a texture set, otherwise one job over every candidate. */
  function Applied(settings: Settings, world: WorldState, s: seq<GenusState>): (r: seq<GenusState>)
    requires Ready(world)
    ensures Pairwise(s, r, FilterStep)
    ensures world.textureSet.None? ==> r == s
  {
    match world.textureSet
    case None => s
    case Some(t) =>
      var job := MakeJob(settings, t);
      ParallelFor(s, (i: nat, st: GenusState) => Execute(job, st))
  }

  method Apply(settings: Settings, world: WorldState, states: array<GenusState>)
    requires Ready(world)
    modifies states
    ensures states[..] == Applied(settings, world, old(states[..]))
  {
    if world.textureSet.Some? {
      var job := MakeJob(settings, world.textureSet.value);
      RunParallelFor(states, (i: nat, st: GenusState) => Execute(job, st));
    }
  }
}
