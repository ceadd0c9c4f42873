/**
 * `ContourScale`: multiplies a valid candidate's scale by a factor between
 * `scaleMin` and `scaleMax`, chosen by where one channel of the sampled
 * contour value lies between `contourMin` and `contourMax`.
 */
module ContourScale {
  import opened Maths
  import opened Pixels
  import opened Raster
  import opened States
  import opened Jobs

  datatype Channel = Red | Green | Blue | Alpha

  /** The serialized settings; the scale range defaults to one, the contour range to [0, 1]. */
  datatype Settings = Settings(contourMin: real, contourMax: real, channel: Channel, scaleMin: Vec3, scaleMax: Vec3)

  const Defaults := Settings(0.0, 1.0, Red, One3, One3)

  /** `ContourScaleJob`; it reads the contour map. */
  datatype Job = Job(scaleMin: Vec3, scaleMax: Vec3, channel: Channel, contourMin: real, contourMax: real,
                     grid: Grid, texture: seq<RGBAPixel>)

  /**
   * The job initialiser of `Apply` as written: it copies every setting but
   * `channel`, so the job keeps the enum's default, `Red`.
   */
  function MakeJobAsWritten(settings: Settings, t: TextureSet): (job: Job)
    ensures job.channel == Red
  {
    Job(settings.scaleMin, settings.scaleMax, Red, settings.contourMin, settings.contourMax, GridOf(t), t.contour)
  }

  /** The job initialiser with `channel` copied too; `Applied` and `Apply` below use this one. */
  function MakeJob(settings: Settings, t: TextureSet): (job: Job)
    ensures job.channel == settings.channel
    ensures job == MakeJobAsWritten(settings, t).(channel := settings.channel)
  {
    Job(settings.scaleMin, settings.scaleMax, settings.channel, settings.contourMin, settings.contourMax, GridOf(t), t.contour)
  }

  /** The `switch (channel)` of `Execute`. */
  function Pick(c: Vec4, channel: Channel): real
  {
    match channel
    case Red => c.x
    case Green => c.y
    case Blue => c.z
    case Alpha => c.w
  }

  /** The sampled channel at a candidate's position. */
  function Reading(job: Job, position: Vec3): real
    requires Fits(job.grid, job.texture)
  {
    Pick(SampleRgba(job.grid, job.texture, position.x, position.z), job.channel)
  }

  /** The scale factor for a reading: `Vector3.Lerp(scaleMin, scaleMax, InverseLerp(contourMin, contourMax, reading))`. */
  function Factor(job: Job, reading: real): (f: Vec3)
    ensures Between3(f, job.scaleMin, job.scaleMax)
    ensures job.contourMin < job.contourMax && reading <= job.contourMin ==> f == job.scaleMin
    ensures job.contourMin < job.contourMax && job.contourMax <= reading ==> f == job.scaleMax
  {
    var t := InverseLerp(job.contourMin, job.contourMax, reading);
    Lerp3Between(job.scaleMin, job.scaleMax, t);
    if job.contourMin < job.contourMax then
      InverseLerpSaturates(job.contourMin, job.contourMax, reading);
      Lerp3(job.scaleMin, job.scaleMax, t)
    else
      Lerp3(job.scaleMin, job.scaleMax, t)
  }

  /**
   * `ContourScaleJob.Execute`: an invalid candidate is left alone; a valid
   * one has its scale multiplied, component by component, by the factor of
   * its reading, and nothing else changes.
   */
  function Execute(job: Job, s: GenusState): (r: GenusState)
    requires Fits(job.grid, job.texture)
    ensures OnlyScale(s, r)
    ensures !s.valid ==> r == s
    ensures s.valid ==> r.instance.scale == Scale(s.instance.scale, Factor(job, Reading(job, s.instance.position)))
  {
    if !s.valid then s
    else
      var f := Factor(job, Reading(job, s.instance.position));
      s.(instance := s.instance.(scale := Scale(s.instance.scale, f)))
  }

  /** A larger reading never gives a smaller factor on an axis whose scale range increases. */
  lemma FactorMonotone(job: Job, reading1: real, reading2: real)
    requires job.contourMin < job.contourMax && reading1 <= reading2
    ensures job.scaleMin.x <= job.scaleMax.x ==> Factor(job, reading1).x <= Factor(job, reading2).x
    ensures job.scaleMin.y <= job.scaleMax.y ==> Factor(job, reading1).y <= Factor(job, reading2).y
    ensures job.scaleMin.z <= job.scaleMax.z ==> Factor(job, reading1).z <= Factor(job, reading2).z
  {
    var t1 := InverseLerp(job.contourMin, job.contourMax, reading1);
    var t2 := InverseLerp(job.contourMin, job.contourMax, reading2);
    InverseLerpMonotone(job.contourMin, job.contourMax, reading1, reading2);
    assert Clamp01(t1) == t1 && Clamp01(t2) == t2;
    if job.scaleMin.x <= job.scaleMax.x { LerpMonotone(job.scaleMin.x, job.scaleMax.x, t1, t2); }
    if job.scaleMin.y <= job.scaleMax.y { LerpMonotone(job.scaleMin.y, job.scaleMax.y, t1, t2); }
    if job.scaleMin.z <= job.scaleMax.z { LerpMonotone(job.scaleMin.z, job.scaleMax.z, t1, t2); }
  }

  /** Equal scale bounds make the reading irrelevant: every valid scale is multiplied by `scaleMin`. */
  lemma FixedRangeIgnoresReading(job: Job, s: GenusState)
    requires Fits(job.grid, job.texture)
    requires job.scaleMin == job.scaleMax && s.valid
    ensures Execute(job, s).instance.scale == Scale(s.instance.scale, job.scaleMin)
  {
  }

  /** The default settings (a scale range of one) leave every candidate as it is. */
  lemma DefaultsKeep(t: TextureSet, s: GenusState)
    requires Fits(GridOf(t), t.contour)
    ensures Execute(MakeJob(Defaults, t), s) == s
  {
  }

  /** As written, the job reads the red channel whatever channel is configured. */
  lemma AsWrittenReadsRed(settings: Settings, t: TextureSet, s: GenusState)
    requires Fits(GridOf(t), t.contour)
    ensures Execute(MakeJobAsWritten(settings, t), s) == Execute(MakeJob(settings.(channel := Red), t), s)
  {
  }

  /**
   * On a pure green contour map, with the green channel configured, a contour
   * range of [0, 1] and a scale range from zero to one, the corrected job
   * keeps a unit scale, but the job as written reads red (0) and scales the
   * candidate down to nothing.
   */
  lemma AsWrittenIgnoresChannel(t: TextureSet, s: GenusState)
    requires Fits(GridOf(t), t.contour)
    requires forall i :: 0 <= i < |t.contour| ==> t.contour[i] == RGBAPixel(0, 255, 0, 0)
    requires s.valid && s.instance.scale == One3
    ensures Execute(MakeJob(Settings(0.0, 1.0, Green, Zero3, One3), t), s).instance.scale == One3
    ensures Execute(MakeJobAsWritten(Settings(0.0, 1.0, Green, Zero3, One3), t), s).instance.scale == Zero3
  {
    var settings := Settings(0.0, 1.0, Green, Zero3, One3);
    var g, p := GridOf(t), s.instance.position;
    BilinearConstant(g, t.contour, RgbaR, p.x, p.z, 0.0);
    BilinearConstant(g, t.contour, RgbaG, p.x, p.z, 1.0);
    var fixed, written := MakeJob(settings, t), MakeJobAsWritten(settings, t);
    assert Reading(fixed, p) == 1.0 && Reading(written, p) == 0.0;
  }

  predicate Ready(world: WorldState)
  {
    world.textureSet.Some? ==> Fits(GridOf(world.textureSet.value), world.textureSet.value.contour)
  }

  /**
   * The pass `Apply` intends: nothing without a texture set, otherwise one
   * job over every candidate, reading the configured channel.
   */
  function Applied(settings: Settings, world: WorldState, s: seq<GenusState>): (r: seq<GenusState>)
    requires Ready(world)
    ensures Pairwise(s, r, OnlyScale)
    ensures world.textureSet.None? ==> r == s
  {
    match world.textureSet
    case None => s
    case Some(t) =>
      var job := MakeJob(settings, t);
      ParallelFor(s, (i: nat, st: GenusState) => Execute(job, st))
  }

  method Apply(settings: Settings, world: WorldState, states: array<GenusState>)
    requires Ready(world)
    modifies states
    ensures states[..] == Applied(settings, world, old(states[..]))
  {
    if world.textureSet.Some? {
      var job := MakeJob(settings, world.textureSet.value);
      RunParallelFor(states, (i: nat, st: GenusState) => Execute(job, st));
    }
  }

  /**
   * `Apply` as written: the same pass over the job that `MakeJobAsWritten`
   * builds, which reads red whatever channel is configured.
   */
  function AppliedAsWritten(settings: Settings, world: WorldState, s: seq<GenusState>): (r: seq<GenusState>)
    requires Ready(world)
    ensures Pairwise(s, r, OnlyScale)
    ensures world.textureSet.None? ==> r == s
  {
    match world.textureSet
    case None => s
    case Some(t) =>
      var job := MakeJobAsWritten(settings, t);
      ParallelFor(s, (i: nat, st: GenusState) => Execute(job, st))
  }

  /** As written, the pass is the intended pass configured for `Red`, and equal to it when `Red` is configured. */
  lemma {:induction false} AsWrittenPassReadsRed(settings: Settings, world: WorldState, s: seq<GenusState>)
    requires Ready(world)
    ensures AppliedAsWritten(settings, world, s) == Applied(settings.(channel := Red), world, s)
    ensures settings.channel == Red ==> AppliedAsWritten(settings, world, s) == Applied(settings, world, s)
  {
    if world.textureSet.Some? {
      var t := world.textureSet.value;
      assert MakeJobAsWritten(settings, t) == MakeJob(settings.(channel := Red), t);
    }
  }

  /** `Apply` as written, over the states array. */
  method ApplyAsWritten(settings: Settings, world: WorldState, states: array<GenusState>)
    requires Ready(world)
    modifies states
    ensures states[..] == AppliedAsWritten(settings, world, old(states[..]))
  {
    if world.textureSet.Some? {
      var job := MakeJobAsWritten(settings, world.textureSet.value);
      RunParallelFor(states, (i: nat, st: GenusState) => Execute(job, st));
    }
  }
}
