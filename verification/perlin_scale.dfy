/**
 * `PerlinScale`: multiplies every candidate's scale, valid or not, by
 * `min` plus the three noise octaves at its position, either uniformly or on
 * the height axis only. Without a `PerlinSet` the stage does nothing.
 */
module PerlinScale {
  import opened Maths
  import opened States
  import opened Jobs
  import opened PerlinSets

  /** `ScaleType`; the enum's default is `Uniform`. */
  datatype ScaleType = Uniform | Height

  /** The serialized settings: the scale type, the base factor (0.8) and the (possibly unset) noise set. */
  datatype Settings = Settings(scaleType: ScaleType, min: real, noise: Option<PerlinSet>)

  const Defaults := Settings(Uniform, 0.8, None)

  /** `PerlinScaleJob`. */
  datatype Job = Job(min: real, scaleType: ScaleType, noise: PerlinSet, position: Vec3)

  /** The factor of a candidate: `min` plus the octaves at its position, not clamped. */
  function Factor(e: Engine, job: Job, s: GenusState): real
  {
    job.min + Octaves(e, job.noise, job.position, s.instance.position)
  }

  /**
   * `PerlinScaleJob.Execute`: `Uniform` multiplies the whole scale by the
   * factor, `Height` only its y component; validity is neither read nor changed.
   */
  function Execute(e: Engine, job: Job, s: GenusState): (r: GenusState)
    ensures OnlyScale(s, r)
    ensures job.scaleType == Uniform ==> r.instance.scale == Times(s.instance.scale, Factor(e, job, s))
    ensures job.scaleType == Height ==> r.instance.scale == s.instance.scale.(y := s.instance.scale.y * Factor(e, job, s))
  {
    var total := Factor(e, job, s);
    match job.scaleType
    case Uniform => s.(instance := s.instance.(scale := Times(s.instance.scale, total)))
    case Height => s.(instance := s.instance.(scale := s.instance.scale.(y := s.instance.scale.y * total)))
  }

  /** With readings in [-1, 1] and non-negative strengths the factor lies in [min, min + sum of strengths]. */
  lemma FactorBounds(e: Engine, job: Job, s: GenusState)
    requires NoiseInRange(e) && NonNegativeStrengths(job.noise)
    ensures job.min <= Factor(e, job, s) <= job.min + StrengthSum(job.noise)
  {
    OctavesBounds(e, job.noise, job.position, s.instance.position);
  }

  /** A silent set (every strength zero) scales every candidate by `min` alone. */
  lemma SilentSetScalesByMin(e: Engine, job: Job, s: GenusState)
    requires job.noise.strengthOne == 0.0 && job.noise.strengthTwo == 0.0 && job.noise.strengthThree == 0.0
    ensures Factor(e, job, s) == job.min
  {
    SilentOctaves(e, job.noise, job.position, s.instance.position);
  }

  /** `Apply`: nothing without a set, otherwise one job over every candidate. */
  function Applied(e: Engine, settings: Settings, world: WorldState, s: seq<GenusState>): (r: seq<GenusState>)
    ensures Pairwise(s, r, OnlyScale)
    ensures settings.noise.None? ==> r == s
  {
    match settings.noise
    case None => s
    case Some(ps) =>
      var job := Job(settings.min, settings.scaleType, ps, world.position);
      ParallelFor(s, (i: nat, st: GenusState) => Execute(e, job, st))
  }

  method Apply(e: Engine, settings: Settings, world: WorldState, states: array<GenusState>)
    modifies states
    ensures states[..] == Applied(e, settings, world, old(states[..]))
  {
    if settings.noise.Some? {
      var job := Job(settings.min, settings.scaleType, settings.noise.value, world.position);
      RunParallelFor(states, (i: nat, st: GenusState) => Execute(e, job, st));
    }
  }
}
