/**
 * `Modifier`: the base every placement stage derives from. A modifier holds
 * its own settings and an `active` flag; `ApplyModifier` runs the stage over
 * the candidate states only while the flag is set.
 *
 * The eleven concrete stages are the cases of `Stage`, each carrying that
 * stage's serialized settings.
 */
module Modifiers {
  import opened States
  import HeightClip
  import NormalClip
  import TextureClip
  import ContourClip
  import PerlinClip
  import ContourScale
  import ContourOffset
  import PerlinScale
  import RandomScale
  import RandomOffset
  import TextureSample

  datatype Stage =
    | HeightClipStage(heightClip: HeightClip.Settings)
    | NormalClipStage(normalClip: NormalClip.Settings)
    | TextureClipStage(textureClip: TextureClip.Settings)
    | ContourClipStage(contourClip: ContourClip.Settings)
    | PerlinClipStage(perlinClip: PerlinClip.Settings)
    | ContourScaleStage(contourScale: ContourScale.Settings)
    | ContourOffsetStage(contourOffset: ContourOffset.Settings)
    | PerlinScaleStage(perlinScale: PerlinScale.Settings)
    | RandomScaleStage(randomScale: RandomScale.Settings)
    | RandomOffsetStage(randomOffset: RandomOffset.Settings)
    | TextureSampleStage(textureSample: TextureSample.Settings)

  /** The clip stages: they only ever clear `valid`. */
  predicate IsFilter(stage: Stage)
  {
    stage.HeightClipStage? || stage.NormalClipStage? || stage.TextureClipStage? ||
    stage.ContourClipStage? || stage.PerlinClipStage?
  }

  /** The textures a stage reads have the texture set's resolution. */
  predicate StageReady(stage: Stage, world: WorldState)
  {
    match stage
    case HeightClipStage(_) => HeightClip.Ready(world)
    case NormalClipStage(_) => NormalClip.Ready(world)
    case TextureClipStage(_) => TextureClip.Ready(world)
    case ContourClipStage(_) => ContourClip.Ready(world)
    case PerlinClipStage(_) => true
    case ContourScaleStage(_) => ContourScale.Ready(world)
    case ContourOffsetStage(_) => ContourOffset.Ready(world)
    case PerlinScaleStage(_) => true
    case RandomScaleStage(_) => true
    case RandomOffsetStage(_) => true
    case TextureSampleStage(settings) => TextureSample.Ready(settings, world)
  }

  /** What every stage keeps: a candidate is never revived and never changes distribution slot. */
  predicate Settled(before: GenusState, after: GenusState)
  {
    after.distribution == before.distribution && (after.valid ==> before.valid)
  }

  /** The `Apply` override of each stage. */
  function StageApplied(e: Engine, stage: Stage, world: WorldState, s: seq<GenusState>): (r: seq<GenusState>)
    requires StageReady(stage, world)
    ensures Pairwise(s, r, Settled)
    ensures IsFilter(stage) ==> Pairwise(s, r, FilterStep)
  {
    match stage
    case HeightClipStage(settings) => HeightClip.Applied(settings, world, s)
    case NormalClipStage(settings) => NormalClip.Applied(settings, world, s)
    case TextureClipStage(settings) => TextureClip.Applied(settings, world, s)
    case ContourClipStage(settings) => ContourClip.Applied(settings, world, s)
    case PerlinClipStage(settings) => PerlinClip.Applied(e, settings, world, s)
    case ContourScaleStage(settings) => ContourScale.Applied(settings, world, s)
    case ContourOffsetStage(settings) => ContourOffset.Applied(settings, world, s)
    case PerlinScaleStage(settings) => PerlinScale.Applied(e, settings, world, s)
    case RandomScaleStage(settings) => RandomScale.Applied(e, settings, world, s)
    case RandomOffsetStage(settings) => RandomOffset.Applied(e, settings, world, s)
    case TextureSampleStage(settings) => TextureSample.Applied(e, settings, world, s)
  }

  /** Runs a stage's `Apply` in place. */
  method ApplyStage(e: Engine, stage: Stage, world: WorldState, states: array<GenusState>)
    requires StageReady(stage, world)
    modifies states
    ensures states[..] == StageApplied(e, stage, world, old(states[..]))
  {
    match stage
    case HeightClipStage(settings) => HeightClip.Apply(settings, world, states);
    case NormalClipStage(settings) => NormalClip.Apply(settings, world, states);
    case TextureClipStage(settings) => TextureClip.Apply(settings, world, states);
    case ContourClipStage(settings) => ContourClip.Apply(settings, world, states);
    case PerlinClipStage(settings) => PerlinClip.Apply(e, settings, world, states);
    case ContourScaleStage(settings) => ContourScale.Apply(settings, world, states);
    case ContourOffsetStage(settings) => ContourOffset.Apply(settings, world, states);
    case PerlinScaleStage(settings) => PerlinScale.Apply(e, settings, world, states);
    case RandomScaleStage(settings) => RandomScale.Apply(e, settings, world, states);
    case RandomOffsetStage(settings) => RandomOffset.Apply(e, settings, world, states);
    case TextureSampleStage(settings) => TextureSample.Apply(e, settings, world, states);
  }

  /** The effect of `ApplyModifier`: the stage when active, nothing otherwise. */
  function Gated(e: Engine, active: bool, stage: Stage, world: WorldState, s: seq<GenusState>): (r: seq<GenusState>)
    requires StageReady(stage, world)
    ensures !active ==> r == s
    ensures active ==> r == StageApplied(e, stage, world, s)
    ensures Pairwise(s, r, Settled)
  {
    if active then StageApplied(e, stage, world, s) else s
  }

  class Modifier {
    var active: bool
    var stage: Stage

    /** A new modifier is active (`active = true` is the field's initialiser). */
    constructor(stage: Stage)
      ensures active && this.stage == stage
    {
      active := true;
      this.stage := stage;
    }

    /** `ApplyModifier`: forwards to the stage's `Apply` only when `active`. */
    method ApplyModifier(e: Engine, world: WorldState, states: array<GenusState>)
      requires StageReady(stage, world)
      modifies states
      ensures states[..] == Gated(e, active, stage, world, old(states[..]))
    {
      if active {
        ApplyStage(e, stage, world, states);
      }
    }
  }

  /** One link of a rule set's chain as the renderer sees it at run time. */
  datatype Link = Link(active: bool, stage: Stage)

  predicate ChainReady(chain: seq<Link>, world: WorldState)
  {
    forall i :: 0 <= i < |chain| ==> StageReady(chain[i].stage, world)
  }

  /** The states after every link of the chain, in order, has been given them through `ApplyModifier`. */
  function RunChain(e: Engine, chain: seq<Link>, world: WorldState, s: seq<GenusState>): (r: seq<GenusState>)
    requires ChainReady(chain, world)
    ensures Pairwise(s, r, Settled)
    decreases |chain|
  {
    if |chain| == 0 then s
    else
      var first := Gated(e, chain[0].active, chain[0].stage, world, s);
      var r := RunChain(e, chain[1..], world, first);
      assert forall i :: 0 <= i < |s| ==> Settled(s[i], first[i]) && Settled(first[i], r[i]);
      r
  }

  /** A chain whose links are all clip stages only ever clears `valid`. */
  lemma {:induction false} FilterChain(e: Engine, chain: seq<Link>, world: WorldState, s: seq<GenusState>)
    requires ChainReady(chain, world)
    requires forall i :: 0 <= i < |chain| ==> IsFilter(chain[i].stage)
    ensures Pairwise(s, RunChain(e, chain, world, s), FilterStep)
    decreases |chain|
  {
    if |chain| != 0 {
      var first := Gated(e, chain[0].active, chain[0].stage, world, s);
      FilterChain(e, chain[1..], world, first);
      var r := RunChain(e, chain[1..], world, first);
      assert forall i :: 0 <= i < |s| ==> FilterStep(s[i], first[i]) && FilterStep(first[i], r[i]);
    }
  }

  /** Switching a modifier off gives the same result as taking it out of the chain. */
  lemma {:induction false} InactiveIsRemoved(e: Engine, chain: seq<Link>, k: int, world: WorldState, s: seq<GenusState>)
    requires ChainReady(chain, world)
    requires 0 <= k < |chain| && !chain[k].active
    ensures ChainReady(chain[..k] + chain[k + 1..], world)
    ensures RunChain(e, chain, world, s) == RunChain(e, chain[..k] + chain[k + 1..], world, s)
    decreases k
  {
    var rest := chain[..k] + chain[k + 1..];
    assert forall i :: 0 <= i < |rest| ==> rest[i] == chain[if i < k then i else i + 1];
    if k == 0 {
      assert rest == chain[1..];
    } else {
      var first := Gated(e, chain[0].active, chain[0].stage, world, s);
      InactiveIsRemoved(e, chain[1..], k - 1, world, first);
      assert chain[1..][..k - 1] + chain[1..][k..] == rest[1..];
      assert rest[0] == chain[0];
    }
  }
}
