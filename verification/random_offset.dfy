/**
 * `RandomOffset`: moves every candidate, valid or not, by a random
 * displacement in [-range, range) on each axis, drawn from a generator
 * seeded with the world's seed.
 */
module RandomOffset {
  import opened Maths
  import opened States
  import opened Jobs

  /** The serialized half-extent of the displacement, zero by default. */
  datatype Settings = Settings(range: Vec3)

  const Defaults := Settings(Zero3)

  /** `RandomOffsetJob`: the range and the generator's seed, `(uint)world.seed`. */
  datatype Job = Job(range: Vec3, seed: int)

  function MakeJob(settings: Settings, world: WorldState): (job: Job)
    ensures 0 <= job.seed < 0x1_0000_0000
  {
    Job(settings.range, SeedOf(world.seed))
  }

  /** `NextFloat3(-range, range)` for candidate `i`: three draws, x then y then z. */
  function Displacement(e: Engine, job: Job, i: nat): (d: Vec3)
    ensures 0.0 < job.range.x ==> -job.range.x <= d.x < job.range.x
    ensures 0.0 < job.range.y ==> -job.range.y <= d.y < job.range.y
    ensures 0.0 < job.range.z ==> -job.range.z <= d.z < job.range.z
    ensures job.range.x == 0.0 ==> d.x == 0.0
    ensures job.range.y == 0.0 ==> d.y == 0.0
    ensures job.range.z == 0.0 ==> d.z == 0.0
  {
    var r := job.range;
    Vec3(NextFloat(e.draw(job.seed, 3 * i), -r.x, r.x),
         NextFloat(e.draw(job.seed, 3 * i + 1), -r.y, r.y),
         NextFloat(e.draw(job.seed, 3 * i + 2), -r.z, r.z))
  }

  /** `RandomOffsetJob.Execute`: the position plus the candidate's displacement, and nothing else. */
  function Execute(e: Engine, job: Job, i: nat, s: GenusState): (r: GenusState)
    ensures OnlyPosition(s, r)
    ensures r.instance.position == Add(s.instance.position, Displacement(e, job, i))
  {
    s.(instance := s.instance.(position := Add(s.instance.position, Displacement(e, job, i))))
  }

  /** The default range (zero) leaves every candidate where it is. */
  lemma DefaultsKeep(e: Engine, world: WorldState, i: nat, s: GenusState)
    ensures Execute(e, MakeJob(Defaults, world), i, s) == s
  {
    var d := Displacement(e, MakeJob(Defaults, world), i);
    assert d == Zero3;
  }

  /** `Apply`: one job over every candidate, candidate `i` taking draws 3i, 3i + 1 and 3i + 2. */
  function Applied(e: Engine, settings: Settings, world: WorldState, s: seq<GenusState>): (r: seq<GenusState>)
    ensures Pairwise(s, r, OnlyPosition)
  {
    var job := MakeJob(settings, world);
    ParallelFor(s, (i: nat, st: GenusState) => Execute(e, job, i, st))
  }

  /** With a non-negative range every candidate stays within `range` of where it was on each axis. */
  lemma StaysInRange(e: Engine, settings: Settings, world: WorldState, s: seq<GenusState>, i: int)
    requires 0.0 <= settings.range.x && 0.0 <= settings.range.y && 0.0 <= settings.range.z
    requires 0 <= i < |s|
    ensures var p, q, r := s[i].instance.position, Applied(e, settings, world, s)[i].instance.position, settings.range;
            p.x - r.x <= q.x <= p.x + r.x && p.y - r.y <= q.y <= p.y + r.y && p.z - r.z <= q.z <= p.z + r.z
  {
    var d := Displacement(e, MakeJob(settings, world), i);
  }

  method Apply(e: Engine, settings: Settings, world: WorldState, states: array<GenusState>)
    modifies states
    ensures states[..] == Applied(e, settings, world, old(states[..]))
  {
    var job := MakeJob(settings, world);
    RunParallelFor(states, (i: nat, st: GenusState) => Execute(e, job, i, st));
  }
}
