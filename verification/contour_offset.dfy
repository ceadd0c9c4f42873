/**
 * `ContourOffset`: moves a valid candidate by an offset between `offsetMin`
 * and `offsetMax`, chosen by where the alpha channel of the sampled contour
 * value lies between `contourMin` and `contourMax`.
 */
module ContourOffset {
  import opened Maths
  import opened Pixels
  import opened Raster
  import opened States
  import opened Jobs

  /** The serialized settings; the offsets default to zero, the contour range to [0, 1]. */
  datatype Settings = Settings(contourMin: real, contourMax: real, offsetMin: Vec3, offsetMax: Vec3)

  const Defaults := Settings(0.0, 1.0, Zero3, Zero3)

  /** `ContourOffsetJob`; it reads the contour map. */
  datatype Job = Job(offsetMin: Vec3, offsetMax: Vec3, contourMin: real, contourMax: real, grid: Grid, texture: seq<RGBAPixel>)

  function MakeJob(settings: Settings, t: TextureSet): Job
  {
    Job(settings.offsetMin, settings.offsetMax, settings.contourMin, settings.contourMax, GridOf(t), t.contour)
  }

  /** The alpha channel of the contour map at a candidate's position. */
  function Reading(job: Job, position: Vec3): real
    requires Fits(job.grid, job.texture)
  {
    SampleRgba(job.grid, job.texture, position.x, position.z).w
  }

  /** The displacement for a reading: `Vector3.Lerp(offsetMin, offsetMax, InverseLerp(contourMin, contourMax, reading))`. */
  function Offset(job: Job, reading: real): (d: Vec3)
    ensures Between3(d, job.offsetMin, job.offsetMax)
    ensures job.contourMin < job.contourMax && reading <= job.contourMin ==> d == job.offsetMin
    ensures job.contourMin < job.contourMax && job.contourMax <= reading ==> d == job.offsetMax
  {
    var t := InverseLerp(job.contourMin, job.contourMax, reading);
    Lerp3Between(job.offsetMin, job.offsetMax, t);
    if job.contourMin < job.contourMax then
      InverseLerpSaturates(job.contourMin, job.contourMax, reading);
      Lerp3(job.offsetMin, job.offsetMax, t)
    else
      Lerp3(job.offsetMin, job.offsetMax, t)
  }

  /**
   * `ContourOffsetJob.Execute`: an invalid candidate is left alone; a valid
   * one is moved by the offset of the reading at its position, and nothing
   * else changes.
   */
  function Execute(job: Job, s: GenusState): (r: GenusState)
    requires Fits(job.grid, job.texture)
    ensures OnlyPosition(s, r)
    ensures !s.valid ==> r == s
    ensures s.valid ==> r.instance.position == Add(s.instance.position, Offset(job, Reading(job, s.instance.position)))
  {
    if !s.valid then s
    else
      var d := Offset(job, Reading(job, s.instance.position));
      s.(instance := s.instance.(position := Add(s.instance.position, d)))
  }

  /** A valid candidate moves, on every axis, by an amount between the two offsets. */
  lemma MovesWithinOffsets(job: Job, s: GenusState)
    requires Fits(job.grid, job.texture)
    requires s.valid
    ensures var p, q := s.instance.position, Execute(job, s).instance.position;
            Between3(Vec3(q.x - p.x, q.y - p.y, q.z - p.z), job.offsetMin, job.offsetMax)
  {
    var d := Offset(job, Reading(job, s.instance.position));
    var p, q := s.instance.position, Execute(job, s).instance.position;
    assert Vec3(q.x - p.x, q.y - p.y, q.z - p.z) == d;
  }

  /** Equal offsets make the reading irrelevant: every valid candidate is translated by `offsetMin`. */
  lemma FixedOffsetTranslates(job: Job, s: GenusState)
    requires Fits(job.grid, job.texture)
    requires job.offsetMin == job.offsetMax && s.valid
    ensures Execute(job, s).instance.position == Add(s.instance.position, job.offsetMin)
  {
  }

  /** The default settings (both offsets zero) leave every candidate where it is. */
  lemma DefaultsKeep(t: TextureSet, s: GenusState)
    requires Fits(GridOf(t), t.contour)
    ensures Execute(MakeJob(Defaults, t), s) == s
  {
  }

  predicate Ready(world: WorldState)
  {
    world.textureSet.Some? ==> Fits(GridOf(world.textureSet.value), world.textureSet.value.contour)
  }

  /** `Apply`: nothing without a texture set, otherwise one job over every candidate. */
  function Applied(settings: Settings, world: WorldState, s: seq<GenusState>): (r: seq<GenusState>)
    requires Ready(world)
    ensures Pairwise(s, r, OnlyPosition)
    ensures world.textureSet.None? ==> r == s
  {
    match world.textureSet
    case None => s
    case Some(t) =>
      var job := MakeJob(settings, t);
      ParallelFor(s, (i: nat, st: GenusState) => Execute(job, st))
  }

  method Apply(settings: Settings, world: WorldState, states: array<GenusState>)
    requires Ready(world)
    modifies states
    ensures states[..] == Applied(settings, world, old(states[..]))
  {
    if world.textureSet.Some? {
      var job := MakeJob(settings, world.textureSet.value);
      RunParallelFor(states, (i: nat, st: GenusState) => Execute(job, st));
    }
  }
}
