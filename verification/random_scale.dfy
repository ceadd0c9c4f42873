/**
 * `RandomScale`: multiplies every candidate's scale, valid or not, by a
 * random factor in [min, max), drawn from a generator seeded with the
 * world's seed.
 */
module RandomScale {
  import opened Maths
  import opened States
  import opened Jobs

  /** The serialized range, defaulting to [0.5, 1.5). */
  datatype Settings = Settings(min: real, max: real)

  const Defaults := Settings(0.5, 1.5)

  /** `RandomScaleJob`: the range and the generator's seed, `(uint)world.seed`. */
  datatype Job = Job(min: real, max: real, seed: int)

  function MakeJob(settings: Settings, world: WorldState): (job: Job)
    ensures 0 <= job.seed < 0x1_0000_0000
  {
    Job(settings.min, settings.max, SeedOf(world.seed))
  }

  /** The factor of candidate `i`: its draw, `NextFloat(min, max)`. */
  function Factor(e: Engine, job: Job, i: nat): (f: real)
    ensures job.min < job.max ==> job.min <= f < job.max
    ensures job.min == job.max ==> f == job.min
  {
    NextFloat(e.draw(job.seed, i), job.min, job.max)
  }

  /** `RandomScaleJob.Execute`: the whole scale times the candidate's factor, and nothing else. */
  function Execute(e: Engine, job: Job, i: nat, s: GenusState): (r: GenusState)
    ensures OnlyScale(s, r)
    ensures r.instance.scale == Times(s.instance.scale, Factor(e, job, i))
  {
    s.(instance := s.instance.(scale := Times(s.instance.scale, Factor(e, job, i))))
  }

  /** With the default range every non-negative axis ends up between half and one and a half times what it was. */
  lemma DefaultsBounded(e: Engine, world: WorldState, i: nat, s: GenusState)
    requires s.instance.scale.x >= 0.0 && s.instance.scale.y >= 0.0 && s.instance.scale.z >= 0.0
    ensures var a, a' := s.instance.scale, Execute(e, MakeJob(Defaults, world), i, s).instance.scale;
            0.5 * a.x <= a'.x <= 1.5 * a.x && 0.5 * a.y <= a'.y <= 1.5 * a.y && 0.5 * a.z <= a'.z <= 1.5 * a.z
  {
    var f := Factor(e, MakeJob(Defaults, world), i);
    var a, a' := s.instance.scale, Execute(e, MakeJob(Defaults, world), i, s).instance.scale;
    assert a' == Times(a, f);
    MulMonotone(a.x, 0.5, f);
    MulMonotone(a.x, f, 1.5);
    assert 0.5 * a.x <= a'.x <= 1.5 * a.x;
    MulMonotone(a.y, 0.5, f);
    MulMonotone(a.y, f, 1.5);
    assert 0.5 * a.y <= a'.y <= 1.5 * a.y;
    MulMonotone(a.z, 0.5, f);
    MulMonotone(a.z, f, 1.5);
  }

  /** `Apply`: one job over every candidate, candidate `i` taking draw `i`. */
  function Applied(e: Engine, settings: Settings, world: WorldState, s: seq<GenusState>): (r: seq<GenusState>)
    ensures Pairwise(s, r, OnlyScale)
  {
    var job := MakeJob(settings, world);
    ParallelFor(s, (i: nat, st: GenusState) => Execute(e, job, i, st))
  }

  /** Seeds that agree modulo 2^32 are the same generator seed, so they give the same scales. */
  lemma SeedsAgreeModulo(e: Engine, settings: Settings, w1: WorldState, w2: WorldState, s: seq<GenusState>)
    requires w1.seed % 0x1_0000_0000 == w2.seed % 0x1_0000_0000
    ensures Applied(e, settings, w1, s) == Applied(e, settings, w2, s)
  {
    assert MakeJob(settings, w1) == MakeJob(settings, w2);
  }

  /** An empty range (`min == max`) scales every candidate by `min`, whatever the draws. */
  lemma FixedRangeIgnoresSeed(e: Engine, settings: Settings, world: WorldState, s: seq<GenusState>, i: int)
    requires settings.min == settings.max && 0 <= i < |s|
    ensures Applied(e, settings, world, s)[i].instance.scale == Times(s[i].instance.scale, settings.min)
  {
  }

  method Apply(e: Engine, settings: Settings, world: WorldState, states: array<GenusState>)
    modifies states
    ensures states[..] == Applied(e, settings, world, old(states[..]))
  {
    var job := MakeJob(settings, world);
    RunParallelFor(states, (i: nat, st: GenusState) => Execute(e, job, i, st));
  }
}
