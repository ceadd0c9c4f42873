/**
 * `PerlinClip`: keeps the valid candidates whose three-octave noise total,
 * clamped to [0, 1], lies inside an inclusive band. Without a `PerlinSet` the
 * stage does nothing.
 */
module PerlinClip {
  import opened Maths
  import opened States
  import opened Jobs
  import opened PerlinSets

  /** The serialized band, defaulting to [0, 0.8], and the (possibly unset) noise set. */
  datatype Settings = Settings(min: real, max: real, noise: Option<PerlinSet>)

  const Defaults := Settings(0.0, 0.8, None)

  /** `PerlinClipJob`: the band, the set's strengths and frequencies, and the world position. */
  datatype Job = Job(min: real, max: real, noise: PerlinSet, position: Vec3)

  /** The clamped total a candidate is judged by. */
  function Total(e: Engine, job: Job, s: GenusState): (t: real)
    ensures 0.0 <= t <= 1.0
    ensures t == Clamp01(Octaves(e, job.noise, job.position, s.instance.position))
  {
    Clamp01(Octaves(e, job.noise, job.position, s.instance.position))
  }

  /** `PerlinClipJob.Execute`: a candidate stays valid exactly when it was and its total is in the band. */
  function Execute(e: Engine, job: Job, s: GenusState): (r: GenusState)
    ensures FilterStep(s, r)
    ensures r.valid <==> s.valid && job.min <= Total(e, job, s) <= job.max
  {
    var total := Total(e, job, s);
    s.(valid := s.valid && total >= job.min && total <= job.max)
  }

  /** Filtering twice is filtering once. */
  lemma ExecuteIdempotent(e: Engine, job: Job, s: GenusState)
    ensures Execute(e, job, Execute(e, job, s)) == Execute(e, job, s)
  {
  }

  /** A band covering [0, 1] keeps every candidate, since the total is clamped. */
  lemma FullBandKeeps(e: Engine, job: Job, s: GenusState)
    requires job.min <= 0.0 && 1.0 <= job.max
    ensures Execute(e, job, s) == s
  {
  }

  /** With every strength zero the total is 0: the stage keeps all or nothing, by whether 0 is in the band. */
  lemma SilentSetDecides(e: Engine, job: Job, s: GenusState)
    requires job.noise.strengthOne == 0.0 && job.noise.strengthTwo == 0.0 && job.noise.strengthThree == 0.0
    ensures Execute(e, job, s).valid <==> s.valid && job.min <= 0.0 <= job.max
  {
    SilentOctaves(e, job.noise, job.position, s.instance.position);
  }

  /** `Apply`: nothing without a set, otherwise one job over every candidate. */
  function Applied(e: Engine, settings: Settings, world: WorldState, s: seq<GenusState>): (r: seq<GenusState>)
    ensures Pairwise(s, r, FilterStep)
    ensures settings.noise.None? ==> r == s
  {
    match settings.noise
    case None => s
    case Some(ps) =>
      var job := Job(settings.min, settings.max, ps, world.position);
      ParallelFor(s, (i: nat, st: GenusState) => Execute(e, job, st))
  }

  method Apply(e: Engine, settings: Settings, world: WorldState, states: array<GenusState>)
    modifies states
    ensures states[..] == Applied(e, settings, world, old(states[..]))
  {
    if settings.noise.Some? {
      var job := Job(settings.min, settings.max, settings.noise.value, world.position);
      RunParallelFor(states, (i: nat, st: GenusState) => Execute(e, job, st));
    }
  }
}
