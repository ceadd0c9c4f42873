/**
 * The values the placement modifiers work on: one `GenusState` per candidate
 * instance, the `WorldState` every stage is given, the baked texture set,
 * and the engine services (noise, quaternions, random draws) that the
 * modifiers call but that are not part of this model.
 */
module States {
  import opened Maths
  import opened Pixels
  import opened Raster

  datatype Option<T> = None | Some(value: T)

  /** `GenusInstance`: one placed instance of a genus. */
  datatype GenusInstance = GenusInstance(density: real, position: Vec3, rotation: Quat, scale: Vec3, extra: Vec4)

  /** `GenusState`: a candidate instance, whether it is still valid, and its distribution slot. */
  datatype GenusState = GenusState(valid: bool, distribution: int, instance: GenusInstance)

  /** The `GenusState(instance)` constructor: a fresh candidate is valid and not yet distributed. */
  function NewGenusState(instance: GenusInstance): (s: GenusState)
    ensures s.valid && s.distribution == -1 && s.instance == instance
  {
    GenusState(true, -1, instance)
  }

  datatype SampleDirection = Down | Up

  /**
   * `TextureDataSet`: the baked textures with their shared resolution and
   * extent. `maxDistance` is the height range the height map spans and
   * `direction` whether it was baked looking down or up.
   */
  datatype TextureSet = TextureSet(
    height: seq<R16Pixel>, normal: seq<RGBPixel>, contour: seq<RGBAPixel>, color: seq<RGBPixel>,
    resolutionX: int, resolutionY: int, maxDistance: real, bounds: Vec3, direction: SampleDirection)

  function GridOf(t: TextureSet): Grid
  {
    Grid(t.resolutionX, t.resolutionY, t.bounds)
  }

  /** `WorldState`: the seed, world position and (possibly missing) texture set a rule set runs with. */
  datatype WorldState = WorldState(seed: int, position: Vec3, textureSet: Option<TextureSet>)

  /** A draw of `Unity.Mathematics.Random.NextFloat()`: a value in [0, 1). */
  type UnitDraw = r: real | 0.0 <= r < 1.0

  /** A draw stretched over a span `d`. */
  function Spread(u: UnitDraw, d: real): real
  {
    u * d
  }

  /** A draw in [0, 1) stretched over `d` lies in [0, d) for positive `d` and in (d, 0] for negative `d`. */
  lemma SpreadBounds(u: UnitDraw, d: real)
    ensures 0.0 < d ==> 0.0 <= Spread(u, d) < d
    ensures d == 0.0 ==> Spread(u, d) == 0.0
    ensures d < 0.0 ==> d < Spread(u, d) <= 0.0
  {
    if 0.0 < d {
      MulBounds(d, u);
      MulBelow(d, u);
    } else if d < 0.0 {
      var e := -d;
      MulBounds(e, u);
      MulBelow(e, u);
      assert u * d + u * e == u * (d + e);
    }
  }

  /** `Random.NextFloat(min, max)` from one draw `u`: `u * (max - min) + min`. */
  function NextFloat(u: UnitDraw, min: real, max: real): (f: real)
    ensures min < max ==> min <= f < max
    ensures min == max ==> f == min
    ensures max < min ==> max < f <= min
  {
    SpreadBounds(u, max - min);
    Spread(u, max - min) + min
  }

  /**
   * The engine services the modifiers call. `draw(seed, k)` is the k-th
   * `NextFloat()` of a generator created with `seed`; `spin(k)` is the
   * rotation the k-th `GenusInstance(position, scale)` constructor picks
   * with `UnityEngine.Random`.
   */
  datatype Engine = Engine(
    cnoise: Vec3 -> real,
    perlinNoise: (real, real) -> real,
    fromToRotation: (Vec3, Vec3) -> Quat,
    quatMul: (Quat, Quat) -> Quat,
    rotate: (Quat, Vec3) -> Vec3,
    draw: (int, nat) -> UnitDraw,
    spin: nat -> Quat)

  /** `(uint)seed`: the seed reinterpreted as an unsigned 32-bit value. */
  function SeedOf(seed: int): (u: int)
    ensures 0 <= u < 0x1_0000_0000
    ensures 0 <= seed < 0x1_0000_0000 ==> u == seed
  {
    seed % 0x1_0000_0000
  }

  /** What a band filter may do to a candidate: clear `valid`, and nothing else. */
  predicate FilterStep(before: GenusState, after: GenusState)
  {
    after.instance == before.instance && after.distribution == before.distribution && (after.valid ==> before.valid)
  }

  /** A candidate changed in `instance.scale` at most. */
  predicate OnlyScale(before: GenusState, after: GenusState)
  {
    after == before.(instance := before.instance.(scale := after.instance.scale))
  }

  /** A candidate changed in `instance.position` at most. */
  predicate OnlyPosition(before: GenusState, after: GenusState)
  {
    after == before.(instance := before.instance.(position := after.instance.position))
  }

  /** A candidate changed in `instance.rotation` at most. */
  predicate OnlyRotation(before: GenusState, after: GenusState)
  {
    after == before.(instance := before.instance.(rotation := after.instance.rotation))
  }

  /** A candidate changed in `instance.extra` at most. */
  predicate OnlyExtra(before: GenusState, after: GenusState)
  {
    after == before.(instance := before.instance.(extra := after.instance.extra))
  }

  /** The states of a whole pass, pairwise. */
  predicate Pairwise(before: seq<GenusState>, after: seq<GenusState>, step: (GenusState, GenusState) -> bool)
  {
    |after| == |before| && forall i :: 0 <= i < |before| ==> step(before[i], after[i])
  }
}
