# Expanse placement modifiers, in Dafny

Expanse places vegetation and props over a terrain area. A renderer creates
one candidate per placement point: a `GenusState` made of a `valid` flag, a
distribution slot and a `GenusInstance` (density, position, rotation, scale,
extra data). It then runs the candidates through the modifiers of its
`RuleSet`, in order. Each modifier schedules a parallel job over the shared
states array. The job reads one candidate, changes it and writes it back.

- **Band filters** only ever clear `valid`. These are `HeightClip`, `NormalClip`,
  `TextureClip`, `ContourClip` and `PerlinClip`.
- **Transform stages** change one part of the instance.
  - `ContourScale`, `PerlinScale` and `RandomScale` change the scale.
  - `ContourOffset` and `RandomOffset` change the position.
  - `TextureSample` drops candidates that are off the baked height map or on a
    steep edge. It then drops the survivors onto the ground, turns them to the
    terrain normal and stores the ground colour.

The texture stages read baked maps: R16 heights, RGB normals and colours, and
RGBA contours. They use clamped nearest and bilinear samplers.

Around the modifiers sit:

- the `RuleSet` array editing;
- the `ExpanseAnalyzer` registry of renderers and its diagnostic totals;
- the two baked-data stores, `FullDataSet` and `PosScaleDataSet`;
- the `PerlinSet` noise settings and their preview texture.

## How the model is laid out

| file | module | what it holds |
|---|---|---|
| `maths.dfy` | `Maths` | vectors over `real` and the scalar helpers (`lerp`, `InverseLerp`, `Clamp01`, `(int)` truncation) |
| `pixels.dfy` | `Pixels` | the pixel records and their decoders |
| `raster.dfy` | `Raster` | one shared texel-coordinate computation and the nearest and bilinear samplers, generic in the decoder |
| `states.dfy` | `States` | `GenusInstance`, `GenusState`, `WorldState` and the texture set; the foreign numerics (noise, `Mathf.PerlinNoise`, quaternions, random draws) as an `Engine` value; the "changes only X" step predicates |
| `jobs.dfy` | `Jobs` | a parallel job as one read-modify-write per index |
| one file per modifier | one module per modifier | `Settings` (the serialized fields), `Job` (the job struct), the pure `Execute`, the pass `Applied` over a sequence of states, and the imperative `Apply` over the states array, proved equal to `Applied` |
| `modifier.dfy` | `Modifiers` | the `Modifier` class with its `active` gate, and a rule-set chain of stages |
| `rule_set.dfy` | `RuleSets` | the `RuleSet` class over an `array?` of modifiers |
| `analyzer.dfy` | `Analysis` | the registry as a class with an optional list, and the 32-bit totals |
| `baked_data.dfy`, `full_data_set.dfy`, `pos_scale_data_set.dfy` | `BakedData`, `FullDataSets`, `PosScaleDataSets` | `GenusData` and the two stores |
| `perlin_set.dfy` | `PerlinSets` | `SampleSet`, the octave sum, and the `PerlinToTexture` loop over an array of `Color32` |

Three pieces of source semantics are written out explicitly:

- C# `int` addition in the analyzer's totals wraps modulo 2^32 (`Analysis.Int32`).
- `(uint)seed` is reduced modulo 2^32 (`States.SeedOf`).
- `(byte)(int)(total * 255)` truncates toward zero and keeps the low eight bits (`PerlinSets.GreyLevel`).

Random draws come from the generator seeded with `(uint)world.seed`. Candidate
`i` of `RandomScale` takes draw `i`. Candidate `i` of `RandomOffset` takes
draws `3i`, `3i + 1` and `3i + 2`. `PosScaleDataSet` loading takes the yaw of
the k-th `GenusInstance(position, scale)` call as `spin(k)`.

Each modifier's `Apply` is proved equal to its specification function
`Applied`. The properties of the stages are then proved about `Applied` and
`Execute`. The class methods (`RuleSet.Add`, `Analyzer.RegisterRenderer`,
`PosScaleDataSet.LoadData`, ...) state their whole new state in terms of the
old one. Lemmas next to them relate that state to the source's promises:
- removal restores the list;
- deregistering takes a renderer's counts out of the totals;
- writing then loading is meant to keep positions and scales. That holds for
  the corrected load; the load as written keeps no instance at all (see
  "## Findings").

## Model

| member | source | states |
|---|---|---|
| `Maths.Abs` | Packages/com.twobears.expanse/Runtime/Modifiers/TextureSample.cs:423-426 | `Mathf.Abs`: non-negative and equal to the value or its negation |
| `Maths.Clamp01` | Packages/com.twobears.expanse/Runtime/Modifiers/PerlinClip.cs:182 | `Mathf.Clamp01`: the result is in [0, 1] and values already in [0, 1] are unchanged |
| `Maths.InverseLerp` | Packages/com.twobears.expanse/Runtime/Modifiers/ContourScale.cs:234 | `Mathf.InverseLerp`: the weight is in [0, 1]; 0 at `a` and when `a == b`, 1 at `b` |
| `Maths.ClampInt` | Packages/com.twobears.expanse/Runtime/Modifiers/HeightClip.cs:225-228 | `math.clamp` on ints lands in [lo, hi] and leaves values inside it alone |
| `Maths.Ceil` | Packages/com.twobears.expanse/Runtime/Modifiers/TextureSample.cs:390-391 | `math.ceil` is the least integer at or above its argument |
| `Maths.Trunc` | Packages/com.twobears.expanse/Runtime/Modifiers/Perlin/PerlinSet.cs:116 | C#'s `(int)` cast truncates toward zero: floor for non-negative values, ceiling for negative ones |
| `Maths.LerpBetween` | Packages/com.twobears.expanse/Runtime/Modifiers/HeightClip.cs:238-241 | `math.lerp` with a weight in [0, 1] stays between its two end points |
| `Maths.LerpWithin` | Packages/com.twobears.expanse/Runtime/Modifiers/HeightClip.cs:238-241 | interpolating two values of a range with a weight in [0, 1] stays in that range |
| `Maths.Lerp3Between` | Packages/com.twobears.expanse/Runtime/Modifiers/ContourScale.cs:236 | `Vector3.Lerp` clamps its weight, so each component lies between the two end points for every weight |
| `Maths.InverseLerpMonotone` | Packages/com.twobears.expanse/Runtime/Modifiers/ContourScale.cs:234 | on an increasing range `InverseLerp` never decreases as the value grows |
| `Maths.InverseLerpSaturates` | Packages/com.twobears.expanse/Runtime/Modifiers/ContourScale.cs:234 | on an increasing range values at or below the low end give 0 and at or above the high end give 1 |
| `Maths.LerpMonotone` | Packages/com.twobears.expanse/Runtime/Modifiers/ContourScale.cs:236 | towards a larger end point the interpolation never decreases as the weight grows |
| `Pixels.R16Value` | Packages/com.twobears.expanse/Runtime/Modifiers/HeightClip.cs:163-170 | the 16-bit height decodes into [0, 65535/65536], is exactly `(r1 + 256 r2) / 65536`, and is 0 exactly for the all-zero texel |
| `Pixels.Unit` | Packages/com.twobears.expanse/Runtime/Modifiers/NormalClip.cs:151-154 | a byte channel reads into [0, 1], 0 exactly for byte 0 and 1 exactly for byte 255 |
| `Pixels.Rgb` | Packages/com.twobears.expanse/Runtime/Modifiers/NormalClip.cs:145-156 | `RGBPixel.rgb`: every channel in [0, 1] and equal to its byte over 255 |
| `Pixels.Rgba` | Packages/com.twobears.expanse/Runtime/Modifiers/ContourClip.cs:210-221 | `RGBAPixel.rgba`: every channel in [0, 1] and equal to its byte over 255 |
| `Pixels.Unpack` | Packages/com.twobears.expanse/Runtime/Modifiers/TextureSample.cs:473 | unpacking a normal maps [0, 1] onto [-1, 1]; the unpacked y is positive exactly when the packed y is above one half |
| `Pixels.R16Injective` | Packages/com.twobears.expanse/Runtime/Modifiers/HeightClip.cs:163-170 | the height decoder loses nothing: equal readings come from equal texels |
| `Raster.Cell` | Packages/com.twobears.expanse/Runtime/Modifiers/HeightClip.cs:225-226 | the floored, clamped cell is inside the grid; it is the floor of the texel coordinate inside the grid, 0 below it and the last cell above it |
| `Raster.CellUp` | Packages/com.twobears.expanse/Runtime/Modifiers/TextureSample.cs:390-391 | the ceiled, clamped cell is inside the grid and is the floored cell or the one after it |
| `Raster.Next` | Packages/com.twobears.expanse/Runtime/Modifiers/HeightClip.cs:227-228 | the neighbouring cell is inside the grid, one further on, and equal to the cell itself only on the last row or column |
| `Raster.Index` | Packages/com.twobears.expanse/Runtime/Modifiers/HeightClip.cs:233-236 | `x + y * resolutionX` of a cell in the grid is an index inside the texture |
| `Raster.IndexInjective` | Packages/com.twobears.expanse/Runtime/Modifiers/HeightClip.cs:233-236 | distinct cells read distinct texels |
| `Raster.BilinearFootprint` | Packages/com.twobears.expanse/Runtime/Modifiers/HeightClip.cs:223-231 | the four cells read by the bilinear sampler are inside the grid, at most one apart, collapsing only on the last row or column; the weights are the distances from the low cells |
| `Raster.SampleNearest` | Packages/com.twobears.expanse/Runtime/Modifiers/HeightClip.cs:212-220 | `SampleTexture` returns the decoded value of some texel of the texture |
| `Raster.FootprintWeights` | Packages/com.twobears.expanse/Runtime/Modifiers/HeightClip.cs:225-231 | at or above the low edge both interpolation weights are in [0, 1], or the two cells they blend coincide |
| `Raster.BilinearWithin` | Packages/com.twobears.expanse/Runtime/Modifiers/HeightClip.cs:221-242 | at or above the low edge the bilinear sample lies between the least and the greatest of the four corner values |
| `Raster.HeightsInUnit` | Packages/com.twobears.expanse/Runtime/Modifiers/HeightClip.cs:163-170 | every height texel decodes into [0, 65535/65536] |
| `Raster.BilinearInRange` | Packages/com.twobears.expanse/Runtime/Modifiers/HeightClip.cs:221-242 | at or above the low edge a texture whose texels decode into [lo, hi] is sampled into [lo, hi] |
| `Raster.SampleRgbInUnit` | Packages/com.twobears.expanse/Runtime/Modifiers/TextureClip.cs:251-271 | at or above the low edge every channel of a colour sample is in [0, 1] |
| `Raster.SampleRgbaInUnit` | Packages/com.twobears.expanse/Runtime/Modifiers/ContourClip.cs:273-293 | at or above the low edge every channel of a contour sample is in [0, 1] |
| `Raster.BilinearConstant` | Packages/com.twobears.expanse/Runtime/Modifiers/HeightClip.cs:221-242 | a texture of one value is sampled as that value everywhere, outside the extent included |
| `Raster.BilinearOnTexel` | Packages/com.twobears.expanse/Runtime/Modifiers/HeightClip.cs:212-242 | on a texel corner inside the grid the bilinear sampler agrees with the nearest sampler |
| `Raster.BilinearExtrapolatesBelow` | Packages/com.twobears.expanse/Runtime/Modifiers/HeightClip.cs:223-241 | below the low edge the weights go negative and the sampler extrapolates: a texture of 0 and 1/2 is sampled as -1/2 |
| `States.NewGenusState` | Packages/com.twobears.expanse/Runtime/Modifiers/Core/Modifier.cs:61-66 | a new candidate is valid, has distribution -1 and holds the given instance |
| `States.NextFloat` | Packages/com.twobears.expanse/Runtime/Modifiers/RandomScale.cs:120 | `Random.NextFloat(min, max)` lies in [min, max) for an increasing range, is `min` for an empty one and lies in (max, min] for a reversed one |
| `States.SeedOf` | Packages/com.twobears.expanse/Runtime/Modifiers/RandomScale.cs:36 | `(uint)seed` is in [0, 2^32) and is the seed itself for seeds already in that range |
| `Jobs.ParallelFor` | Packages/com.twobears.expanse/Runtime/Modifiers/HeightClip.cs:56-57 | a scheduled and completed parallel job has executed every index exactly once on that index's own state |
| `Jobs.RunParallelFor` | Packages/com.twobears.expanse/Runtime/Modifiers/HeightClip.cs:56-57 | running the job over the array leaves each element as `Execute` on its index made it |
| `HeightClip.Execute` | Packages/com.twobears.expanse/Runtime/Modifiers/HeightClip.cs:188-210 | only `valid` may change; an invalid candidate is left alone; a candidate stays valid exactly when it was and its reading (`1 - h` looking down, `h` looking up) is in [min, max] |
| `HeightClip.ExecuteIdempotent` | Packages/com.twobears.expanse/Runtime/Modifiers/HeightClip.cs:188-210 | clipping twice is clipping once |
| `HeightClip.DirectionSymmetry` | Packages/com.twobears.expanse/Runtime/Modifiers/HeightClip.cs:197-206 | a band [min, max] looking down keeps what [1 - max, 1 - min] keeps looking up |
| `HeightClip.FullBandKeeps` | Packages/com.twobears.expanse/Runtime/Modifiers/HeightClip.cs:197-206 | a band covering [0, 1] keeps every candidate at or above the low edge of the set |
| `HeightClip.Applied` | Packages/com.twobears.expanse/Runtime/Modifiers/HeightClip.cs:32-62 | the stage only clears `valid`, candidate by candidate, and changes nothing without a texture set |
| `HeightClip.Apply` | Packages/com.twobears.expanse/Runtime/Modifiers/HeightClip.cs:32-62 | the states array afterwards is the pass `Applied` of the states before |
| `NormalClip.Execute` | Packages/com.twobears.expanse/Runtime/Modifiers/NormalClip.cs:170-186 | only `valid` may change; an invalid candidate is left alone; a valid one stays valid exactly when the sampled normal's dot with up exceeds the threshold |
| `NormalClip.ExecuteIdempotent` | Packages/com.twobears.expanse/Runtime/Modifiers/NormalClip.cs:170-186 | clipping twice is clipping once |
| `NormalClip.LowThresholdKeeps` | Packages/com.twobears.expanse/Runtime/Modifiers/NormalClip.cs:183 | a threshold below -1 keeps every candidate at or above the low edge |
| `NormalClip.HighThresholdClears` | Packages/com.twobears.expanse/Runtime/Modifiers/NormalClip.cs:183 | a threshold of 1 or more drops every candidate at or above the low edge |
| `NormalClip.Applied` | Packages/com.twobears.expanse/Runtime/Modifiers/NormalClip.cs:31-59 | the stage only clears `valid` and changes nothing without a texture set |
| `NormalClip.Apply` | Packages/com.twobears.expanse/Runtime/Modifiers/NormalClip.cs:31-59 | the states array afterwards is the pass `Applied` of the states before |
| `TextureClip.Execute` | Packages/com.twobears.expanse/Runtime/Modifiers/TextureClip.cs:227-240 | only `valid` may change; a candidate stays valid exactly when it was and each sampled colour channel lies in its band |
| `TextureClip.ExecuteIdempotent` | Packages/com.twobears.expanse/Runtime/Modifiers/TextureClip.cs:227-240 | clipping twice is clipping once |
| `TextureClip.DefaultsKeep` | Packages/com.twobears.expanse/Runtime/Modifiers/TextureClip.cs:17-22 | the default bands [0, 1] keep every candidate at or above the low edge |
| `TextureClip.Applied` | Packages/com.twobears.expanse/Runtime/Modifiers/TextureClip.cs:36-69 | the stage only clears `valid` and changes nothing without a texture set |
| `TextureClip.Apply` | Packages/com.twobears.expanse/Runtime/Modifiers/TextureClip.cs:36-69 | the states array afterwards is the pass `Applied` of the states before |
| `ContourClip.Execute` | Packages/com.twobears.expanse/Runtime/Modifiers/ContourClip.cs:243-262 | only `valid` may change; an invalid candidate is left alone; a candidate stays valid exactly when it was and each contour channel lies in its band |
| `ContourClip.ExecuteIdempotent` | Packages/com.twobears.expanse/Runtime/Modifiers/ContourClip.cs:243-262 | clipping twice is clipping once |
| `ContourClip.DefaultsKeep` | Packages/com.twobears.expanse/Runtime/Modifiers/ContourClip.cs:17-24 | the default bands [0, 1] keep every candidate at or above the low edge |
| `ContourClip.Applied` | Packages/com.twobears.expanse/Runtime/Modifiers/ContourClip.cs:38-73 | the stage only clears `valid` and changes nothing without a texture set |
| `ContourClip.Apply` | Packages/com.twobears.expanse/Runtime/Modifiers/ContourClip.cs:38-73 | the states array afterwards is the pass `Applied` of the states before |
| `ContourScale.MakeJobAsWritten` | Packages/com.twobears.expanse/Runtime/Modifiers/ContourScale.cs:44-59 | the job as initialised in `Apply` always has the default channel, red, whatever is configured |
| `ContourScale.MakeJob` | Packages/com.twobears.expanse/Runtime/Modifiers/ContourScale.cs:44-59 | the corrected initialiser carries the configured channel and agrees with the written one on every other field |
| `ContourScale.Factor` | Packages/com.twobears.expanse/Runtime/Modifiers/ContourScale.cs:234-236 | the factor lies between `scaleMin` and `scaleMax` per axis; on an increasing contour range it is `scaleMin` at or below `contourMin` and `scaleMax` at or above `contourMax` |
| `ContourScale.Execute` | Packages/com.twobears.expanse/Runtime/Modifiers/ContourScale.cs:207-238 | only the scale may change; an invalid candidate is left alone; a valid one's scale is multiplied component-wise by the factor for the reading at its position |
| `ContourScale.FactorMonotone` | Packages/com.twobears.expanse/Runtime/Modifiers/ContourScale.cs:234-236 | on each axis whose scale range increases, a larger reading never gives a smaller factor |
| `ContourScale.FixedRangeIgnoresReading` | Packages/com.twobears.expanse/Runtime/Modifiers/ContourScale.cs:236 | equal scale bounds scale every valid candidate by `scaleMin`, whatever the map holds |
| `ContourScale.DefaultsKeep` | Packages/com.twobears.expanse/Runtime/Modifiers/ContourScale.cs:17-22 | the default settings leave every candidate unchanged |
| `ContourScale.AsWrittenReadsRed` | Packages/com.twobears.expanse/Runtime/Modifiers/ContourScale.cs:44-59 | as written the job behaves as if red were configured, whatever channel is |
| `ContourScale.AsWrittenIgnoresChannel` | Packages/com.twobears.expanse/Runtime/Modifiers/ContourScale.cs:44-59 | on a map that is pure green, configured for green, the corrected job keeps the scale at one and the written job shrinks it to zero |
| `ContourScale.Applied` | Packages/com.twobears.expanse/Runtime/Modifiers/ContourScale.cs:36-68 | the intended pass, with the configured channel: the stage only changes scales and changes nothing without a texture set |
| `ContourScale.AppliedAsWritten` | Packages/com.twobears.expanse/Runtime/Modifiers/ContourScale.cs:36-68 | the pass as written, over the job that reads red: it too only changes scales and changes nothing without a texture set |
| `ContourScale.AsWrittenPassReadsRed` | Packages/com.twobears.expanse/Runtime/Modifiers/ContourScale.cs:44-59 | the pass as written is the intended pass configured for red, and agrees with the intended pass whenever red is configured |
| `ContourScale.Apply` | Packages/com.twobears.expanse/Runtime/Modifiers/ContourScale.cs:36-68 | the states array afterwards is the intended pass `Applied` of the states before |
| `ContourScale.ApplyAsWritten` | Packages/com.twobears.expanse/Runtime/Modifiers/ContourScale.cs:36-68 | the states array afterwards is the pass as written, `AppliedAsWritten`, of the states before |
| `ContourOffset.Offset` | Packages/com.twobears.expanse/Runtime/Modifiers/ContourOffset.cs:213-214 | the displacement lies between the two offsets per axis; on an increasing contour range it is `offsetMin` at or below `contourMin` and `offsetMax` at or above `contourMax` |
| `ContourOffset.Execute` | Packages/com.twobears.expanse/Runtime/Modifiers/ContourOffset.cs:203-217 | only the position may change; an invalid candidate is left alone; a valid one moves by the displacement for the alpha reading at its position |
| `ContourOffset.MovesWithinOffsets` | Packages/com.twobears.expanse/Runtime/Modifiers/ContourOffset.cs:213-214 | a valid candidate moves on every axis by an amount between the two offsets |
| `ContourOffset.FixedOffsetTranslates` | Packages/com.twobears.expanse/Runtime/Modifiers/ContourOffset.cs:214 | equal offsets translate every valid candidate by `offsetMin`, whatever the map holds |
| `ContourOffset.DefaultsKeep` | Packages/com.twobears.expanse/Runtime/Modifiers/ContourOffset.cs:17-21 | the default settings (zero offsets) leave every candidate in place |
| `ContourOffset.Applied` | Packages/com.twobears.expanse/Runtime/Modifiers/ContourOffset.cs:35-67 | the stage only changes positions and changes nothing without a texture set |
| `ContourOffset.Apply` | Packages/com.twobears.expanse/Runtime/Modifiers/ContourOffset.cs:35-67 | the states array afterwards is the pass `Applied` of the states before |
| `PerlinClip.Total` | Packages/com.twobears.expanse/Runtime/Modifiers/PerlinClip.cs:175-182 | the value judged is the clamp of the three octaves and lies in [0, 1] |
| `PerlinClip.Execute` | Packages/com.twobears.expanse/Runtime/Modifiers/PerlinClip.cs:175-187 | only `valid` may change; a candidate stays valid exactly when it was and its clamped total is in [min, max] |
| `PerlinClip.ExecuteIdempotent` | Packages/com.twobears.expanse/Runtime/Modifiers/PerlinClip.cs:175-187 | clipping twice is clipping once |
| `PerlinClip.FullBandKeeps` | Packages/com.twobears.expanse/Runtime/Modifiers/PerlinClip.cs:182-184 | a band covering [0, 1] keeps every candidate, since the total is clamped |
| `PerlinClip.SilentSetDecides` | Packages/com.twobears.expanse/Runtime/Modifiers/PerlinClip.cs:176-184 | with every strength zero the stage keeps all or nothing, by whether 0 is in the band |
| `PerlinClip.Applied` | Packages/com.twobears.expanse/Runtime/Modifiers/PerlinClip.cs:31-57 | the stage only clears `valid` and changes nothing without a noise set |
| `PerlinClip.Apply` | Packages/com.twobears.expanse/Runtime/Modifiers/PerlinClip.cs:31-57 | the states array afterwards is the pass `Applied` of the states before |
| `PerlinScale.Execute` | Packages/com.twobears.expanse/Runtime/Modifiers/PerlinScale.cs:172-192 | only the scale may change; `Uniform` multiplies the whole scale by the factor and `Height` only its y component |
| `PerlinScale.FactorBounds` | Packages/com.twobears.expanse/Runtime/Modifiers/PerlinScale.cs:176-179 | with noise in [-1, 1] and non-negative strengths the factor lies in [min, min + sum of strengths] |
| `PerlinScale.SilentSetScalesByMin` | Packages/com.twobears.expanse/Runtime/Modifiers/PerlinScale.cs:176-179 | with every strength zero the factor is `min` alone |
| `PerlinScale.Applied` | Packages/com.twobears.expanse/Runtime/Modifiers/PerlinScale.cs:31-57 | the stage only changes scales and changes nothing without a noise set |
| `PerlinScale.Apply` | Packages/com.twobears.expanse/Runtime/Modifiers/PerlinScale.cs:31-57 | the states array afterwards is the pass `Applied` of the states before |
| `RandomScale.MakeJob` | Packages/com.twobears.expanse/Runtime/Modifiers/RandomScale.cs:32-38 | the generator is seeded with the seed reinterpreted as an unsigned 32-bit value |
| `RandomScale.Factor` | Packages/com.twobears.expanse/Runtime/Modifiers/RandomScale.cs:120 | a candidate's factor lies in [min, max) for an increasing range and is `min` for an empty one |
| `RandomScale.Execute` | Packages/com.twobears.expanse/Runtime/Modifiers/RandomScale.cs:117-122 | only the scale may change, and it is multiplied by the candidate's factor, valid or not |
| `RandomScale.DefaultsBounded` | Packages/com.twobears.expanse/Runtime/Modifiers/RandomScale.cs:16-17 | with the default range [0.5, 1.5) every non-negative scale axis ends between half and one and a half times what it was |
| `RandomScale.Applied` | Packages/com.twobears.expanse/Runtime/Modifiers/RandomScale.cs:29-43 | the stage only changes scales |
| `RandomScale.SeedsAgreeModulo` | Packages/com.twobears.expanse/Runtime/Modifiers/RandomScale.cs:36 | world seeds equal modulo 2^32 give the same scales |
| `RandomScale.FixedRangeIgnoresSeed` | Packages/com.twobears.expanse/Runtime/Modifiers/RandomScale.cs:120 | an empty range scales every candidate by `min`, whatever the draws |
| `RandomScale.Apply` | Packages/com.twobears.expanse/Runtime/Modifiers/RandomScale.cs:29-43 | the states array afterwards is the pass `Applied` of the states before |
| `RandomOffset.MakeJob` | Packages/com.twobears.expanse/Runtime/Modifiers/RandomOffset.cs:32-37 | the generator is seeded with the seed reinterpreted as an unsigned 32-bit value |
| `RandomOffset.Displacement` | Packages/com.twobears.expanse/Runtime/Modifiers/RandomOffset.cs:114 | on each axis with a positive range the displacement lies in [-range, range); with a zero range it is 0 |
| `RandomOffset.Execute` | Packages/com.twobears.expanse/Runtime/Modifiers/RandomOffset.cs:111-116 | only the position may change, and it moves by the candidate's displacement, valid or not |
| `RandomOffset.DefaultsKeep` | Packages/com.twobears.expanse/Runtime/Modifiers/RandomOffset.cs:17 | the default range (zero) leaves every candidate in place |
| `RandomOffset.Applied` | Packages/com.twobears.expanse/Runtime/Modifiers/RandomOffset.cs:29-42 | the stage only changes positions |
| `RandomOffset.StaysInRange` | Packages/com.twobears.expanse/Runtime/Modifiers/RandomOffset.cs:114 | with a non-negative range every candidate ends within `range` of where it was on each axis |
| `RandomOffset.Apply` | Packages/com.twobears.expanse/Runtime/Modifiers/RandomOffset.cs:29-42 | the states array afterwards is the pass `Applied` of the states before |
| `TextureSample.MaskFootprint` | Packages/com.twobears.expanse/Runtime/Modifiers/TextureSample.cs:388-391 | the four cells `SampleMask` reads are inside the grid and at most one apart |
| `TextureSample.SampleMask` | Packages/com.twobears.expanse/Runtime/Modifiers/TextureSample.cs:384-399 | a position passing the mask has a non-zero nearest texel, and a map without zero texels passes everywhere |
| `TextureSample.SampleClip` | Packages/com.twobears.expanse/Runtime/Modifiers/TextureSample.cs:409-429 | a height range no deeper than the threshold never clips |
| `TextureSample.ShallowNotSteep` | Packages/com.twobears.expanse/Runtime/Modifiers/TextureSample.cs:423-426 | two readings in [0, 1] are never steep apart when the height range is at most the threshold |
| `TextureSample.ExecuteHeight` | Packages/com.twobears.expanse/Runtime/Modifiers/TextureSample.cs:348-382 | only `valid` and the height may change; invalid candidates are left alone; a dropped one keeps its height; a kept one sits at the ground height read from the map |
| `TextureSample.GroundWithinRange` | Packages/com.twobears.expanse/Runtime/Modifiers/TextureSample.cs:365-375 | at or above the low edge the ground lies between the top of the extent and `maxDistance` below it |
| `TextureSample.DepthWithinRange` | Packages/com.twobears.expanse/Runtime/Modifiers/TextureSample.cs:367-374 | a reading in [0, 1] stands for a depth in [0, maxDistance], looking down or up |
| `TextureSample.HoleDrops` | Packages/com.twobears.expanse/Runtime/Modifiers/TextureSample.cs:357-378 | a candidate over a texel holding zero is dropped |
| `TextureSample.FlatMapPlaces` | Packages/com.twobears.expanse/Runtime/Modifiers/TextureSample.cs:348-382 | on a flat fully baked map a valid candidate stays valid and lands at the depth of the map's value below the top |
| `TextureSample.FlatMapMasks` | Packages/com.twobears.expanse/Runtime/Modifiers/TextureSample.cs:384-399 | a flat fully baked map masks nothing out |
| `TextureSample.FlatMapNeverClips` | Packages/com.twobears.expanse/Runtime/Modifiers/TextureSample.cs:409-429 | a flat map has no steep edges |
| `TextureSample.ExecuteNormal` | Packages/com.twobears.expanse/Runtime/Modifiers/TextureSample.cs:465-477 | only the rotation changes, to the turn from up to the unpacked normal applied after the candidate's own rotation |
| `TextureSample.NormalIgnoresValidity` | Packages/com.twobears.expanse/Runtime/Modifiers/TextureSample.cs:465-477 | the normal pass turns dropped candidates just like kept ones |
| `TextureSample.ExecuteColor` | Packages/com.twobears.expanse/Runtime/Modifiers/TextureSample.cs:523-533 | only `extra` changes: its first three components take the sampled colour and the fourth is kept |
| `TextureSample.ColorIdempotent` | Packages/com.twobears.expanse/Runtime/Modifiers/TextureSample.cs:523-533 | sampling the colour twice stores the same colour |
| `TextureSample.ColorInUnit` | Packages/com.twobears.expanse/Runtime/Modifiers/TextureSample.cs:523-533 | at or above the low edge every stored colour channel is in [0, 1] |
| `TextureSample.HeightPass` | Packages/com.twobears.expanse/Runtime/Modifiers/TextureSample.cs:43-68 | the height pass only clears `valid` and changes heights |
| `TextureSample.NormalPass` | Packages/com.twobears.expanse/Runtime/Modifiers/TextureSample.cs:70-93 | the normal pass only changes rotations |
| `TextureSample.ColorPass` | Packages/com.twobears.expanse/Runtime/Modifiers/TextureSample.cs:95-118 | the colour pass only changes `extra` |
| `TextureSample.Applied` | Packages/com.twobears.expanse/Runtime/Modifiers/TextureSample.cs:39-120 | the three passes together change only `valid`, heights, rotations and `extra`, and change nothing without a texture set or with every pass off |
| `TextureSample.Apply` | Packages/com.twobears.expanse/Runtime/Modifiers/TextureSample.cs:39-120 | the states array afterwards is the pass `Applied` of the states before |
| `PerlinSets.NoiseTermBounds` | Packages/com.twobears.expanse/Runtime/Modifiers/Perlin/PerlinSet.cs:28-36 | an octave reading in [0, 1] with a non-negative strength contributes a term in [0, strength] |
| `PerlinSets.SampleSetBounds` | Packages/com.twobears.expanse/Runtime/Modifiers/Perlin/PerlinSet.cs:28-36 | with readings in [0, 1] and non-negative strengths `SampleSet` lies in [0, sum of strengths] |
| `PerlinSets.Octave` | Packages/com.twobears.expanse/Runtime/Modifiers/PerlinScale.cs:176-179 | an octave is the noise reading moved from [-1, 1] to [0, 1] and scaled by its strength |
| `PerlinSets.OctaveBounds` | Packages/com.twobears.expanse/Runtime/Modifiers/PerlinScale.cs:176-179 | a reading in [-1, 1] gives an octave in [0, strength] |
| `PerlinSets.OctavesBounds` | Packages/com.twobears.expanse/Runtime/Modifiers/PerlinScale.cs:176-179 | with noise in [-1, 1] and non-negative strengths the three octaves add up to [0, sum of strengths] |
| `PerlinSets.SilentOctaves` | Packages/com.twobears.expanse/Runtime/Modifiers/PerlinScale.cs:176-179 | with every strength zero the octaves vanish |
| `PerlinSets.FlatInjective` | Packages/com.twobears.expanse/Runtime/Modifiers/Perlin/PerlinSet.cs:102 | distinct texels of the preview have distinct indices |
| `PerlinSets.FlatCovers` | Packages/com.twobears.expanse/Runtime/Modifiers/Perlin/PerlinSet.cs:97-102 | every index k of a `w`-wide preview buffer is the index of texel (k mod w, k div w), which lies inside the image |
| `PerlinSets.FlatInside` | Packages/com.twobears.expanse/Runtime/Modifiers/Perlin/PerlinSet.cs:102 | the index of a texel lies inside the buffer |
| `PerlinSets.GreyLevel` | Packages/com.twobears.expanse/Runtime/Modifiers/Perlin/PerlinSet.cs:116-119 | for totals in [0, 1] the grey level is the floor of `total * 255`, and 255 for a total of 1 |
| `PerlinSets.GreyPixel` | Packages/com.twobears.expanse/Runtime/Modifiers/Perlin/PerlinSet.cs:119 | the pixel is grey (equal red, green and blue at the grey level) and opaque |
| `PerlinSets.GreyLevelExact` | Packages/com.twobears.expanse/Runtime/Modifiers/Perlin/PerlinSet.cs:111-116 | with `min = 0`, noise in [-1, 1] and non-negative strengths adding up to at most 1, no grey level wraps |
| `PerlinSets.GreyLevelWraps` | Packages/com.twobears.expanse/Runtime/Modifiers/Perlin/PerlinSet.cs:116-119 | a total just above 1 wraps round to black |
| `PerlinSets.PerlinToTexture` | Packages/com.twobears.expanse/Runtime/Modifiers/Perlin/PerlinSet.cs:95-122 | every texel (x, y) of the buffer gets the grey pixel of its own total, so every index of the buffer is written |
| `Modifiers.StageApplied` | Packages/com.twobears.expanse/Runtime/Modifiers/Core/Modifier.cs:20-24 | running a stage never changes a distribution slot nor makes a dropped candidate valid again, and a filter stage only clears `valid` |
| `Modifiers.ApplyStage` | Packages/com.twobears.expanse/Runtime/Modifiers/Core/Modifier.cs:24 | the states array afterwards is the stage's pass of the states before |
| `Modifiers.Gated` | Packages/com.twobears.expanse/Runtime/Modifiers/Core/Modifier.cs:20-23 | an inactive modifier leaves the states unchanged and an active one runs its stage |
| `Modifiers.Modifier.constructor` | Packages/com.twobears.expanse/Runtime/Modifiers/Core/Modifier.cs:16 | a new modifier is active |
| `Modifiers.Modifier.ApplyModifier` | Packages/com.twobears.expanse/Runtime/Modifiers/Core/Modifier.cs:20-23 | the states array afterwards is the gated pass of the states before |
| `Modifiers.RunChain` | Packages/com.twobears.expanse/Runtime/Modifiers/Core/Modifier.cs:20-23 | calling `ApplyModifier` on the rule set's modifiers in order, as the area renderer does, never changes distribution slots nor revives a dropped candidate |
| `Modifiers.FilterChain` | Packages/com.twobears.expanse/Runtime/Modifiers/Core/Modifier.cs:20-23 | a chain of filter stages only clears `valid` |
| `Modifiers.InactiveIsRemoved` | Packages/com.twobears.expanse/Runtime/Modifiers/Core/Modifier.cs:20-23 | disabling a modifier of the chain is the same as removing it |
| `RuleSets.Without` | Packages/com.twobears.expanse/Runtime/Modifiers/Core/RuleSet.cs:35-39 | the copy is one shorter, holds the elements before `index` then those after it in order, and loses exactly the removed element (the first one for a negative index) |
| `RuleSets.AddThenRemove` | Packages/com.twobears.expanse/Runtime/Modifiers/Core/RuleSet.cs:13-41 | removing the modifier just added at the end gives back the original modifiers |
| `RuleSets.NegativeRemovesFirst` | Packages/com.twobears.expanse/Runtime/Modifiers/Core/RuleSet.cs:35-39 | removing by a negative index drops the first modifier |
| `RuleSets.RuleSet.constructor` | Packages/com.twobears.expanse/Runtime/Modifiers/Core/RuleSet.cs:10 | a new rule set has no array |
| `RuleSets.RuleSet.Add` | Packages/com.twobears.expanse/Runtime/Modifiers/Core/RuleSet.cs:13-27 | the modifiers afterwards are the old ones with the new one appended, in a fresh array |
| `RuleSets.RuleSet.RemoveAt` | Packages/com.twobears.expanse/Runtime/Modifiers/Core/RuleSet.cs:28-41 | an index below the length leaves the old modifiers without that one in a fresh array; any other index changes nothing |
| `RuleSets.RuleSet.InsertAt` | Packages/com.twobears.expanse/Runtime/Modifiers/Core/RuleSet.cs:42-45 | inserting leaves the modifiers unchanged |
| `Analysis.Renderer.constructor` | Packages/com.twobears.expanse/Runtime/Analysis/IAnalyzerInstance.cs:5-30 | a renderer reports the name, shadow mode, counts and times it was given |
| `Analysis.Int32` | Packages/com.twobears.expanse/Runtime/Analysis/ExpanseAnalyzer.cs:28-41 | a 32-bit wrapped value is in [-2^31, 2^31), equals the exact value when that fits, and differs from it by a multiple of 2^32 |
| `Analysis.Int32Add` | Packages/com.twobears.expanse/Runtime/Analysis/ExpanseAnalyzer.cs:28-41 | wrapping after every addition gives the wrap of the exact total |
| `Analysis.FirstIndex` | Packages/com.twobears.expanse/Runtime/Analysis/ExpanseAnalyzer.cs:24 | the index found holds the renderer and no earlier index does |
| `Analysis.RemoveFirst` | Packages/com.twobears.expanse/Runtime/Analysis/ExpanseAnalyzer.cs:24 | `List.Remove` drops the first occurrence, keeps the rest in order, and leaves a list without the renderer unchanged |
| `Analysis.RemoveFirstSums` | Packages/com.twobears.expanse/Runtime/Analysis/ExpanseAnalyzer.cs:20-41 | deregistering a renderer takes exactly its counts and times out of the totals |
| `Analysis.RegisterThenDeregister` | Packages/com.twobears.expanse/Runtime/Analysis/ExpanseAnalyzer.cs:14-25 | registering then deregistering restores the list for a new renderer; for one already registered the earlier entry goes and the new one stays at the end |
| `Analysis.Analyzer.constructor` | Packages/com.twobears.expanse/Runtime/Analysis/ExpanseAnalyzer.cs:11 | the registry starts with no list |
| `Analysis.Analyzer.RegisterRenderer` | Packages/com.twobears.expanse/Runtime/Analysis/ExpanseAnalyzer.cs:14-19 | null is ignored; otherwise the renderer is appended to the list, created if missing, duplicates included |
| `Analysis.Analyzer.DeregisterRenderer` | Packages/com.twobears.expanse/Runtime/Analysis/ExpanseAnalyzer.cs:20-25 | null and a missing list are ignored; otherwise the first occurrence is removed |
| `Analysis.Analyzer.Total` | Packages/com.twobears.expanse/Runtime/Analysis/ExpanseAnalyzer.cs:28-41 | the loop's total is the 32-bit wrap of the exact sum of the counter, and 0 without a list |
| `Analysis.Analyzer.VisibleInstances` | Packages/com.twobears.expanse/Runtime/Analysis/ExpanseAnalyzer.cs:28-41 | the wrapped sum of instance counts, 0 without a list |
| `Analysis.Analyzer.VisibleVerts` | Packages/com.twobears.expanse/Runtime/Analysis/ExpanseAnalyzer.cs:42-55 | the wrapped sum of vertex counts, 0 without a list |
| `Analysis.Analyzer.VisibleTris` | Packages/com.twobears.expanse/Runtime/Analysis/ExpanseAnalyzer.cs:56-69 | the wrapped sum of triangle counts, 0 without a list |
| `Analysis.Analyzer.VisibleTime` | Packages/com.twobears.expanse/Runtime/Analysis/ExpanseAnalyzer.cs:70-83 | the sum of preparation and draw times, 0 without a list |
| `Analysis.Analyzer.RendererCount` | Packages/com.twobears.expanse/Runtime/Analysis/ExpanseAnalyzer.cs:86-89 | the number of registered renderers, 0 without a list |
| `Analysis.Analyzer.GetInstance` | Packages/com.twobears.expanse/Runtime/Analysis/ExpanseAnalyzer.cs:94-97 | the renderer registered at that position |
| `BakedData.PlacedInstance` | Packages/com.twobears.expanse/Runtime/BakedData/PosScaleDataSet.cs:64 | the `GenusInstance(position, scale)` constructor: the instance has the given position, scale and yaw, density 1 and zero extra data |
| `FullDataSets.FullDataSet.constructor` | Packages/com.twobears.expanse/Runtime/BakedData/FullDataSet.cs:11 | a new asset holds an empty array |
| `FullDataSets.FullDataSet.LoadData` | Packages/com.twobears.expanse/Runtime/BakedData/FullDataSet.cs:13-16 | loading returns the stored array itself |
| `FullDataSets.FullDataSet.WriteData` | Packages/com.twobears.expanse/Runtime/BakedData/FullDataSet.cs:17-20 | writing stores the given array itself |
| `FullDataSets.WriteThenLoad` | Packages/com.twobears.expanse/Runtime/BakedData/FullDataSet.cs:13-20 | loading after a write returns the written array |
| `FullDataSets.WriteTwiceThenLoad` | Packages/com.twobears.expanse/Runtime/BakedData/FullDataSet.cs:17-20 | a second write replaces the first |
| `PosScaleDataSets.Stored` | Packages/com.twobears.expanse/Runtime/BakedData/PosScaleDataSet.cs:44-58 | the stored entry keeps genus, offset and bounds and, index for index, each instance's position and scale |
| `PosScaleDataSets.StoredForgets` | Packages/com.twobears.expanse/Runtime/BakedData/PosScaleDataSet.cs:44-58 | rotation, density and extra data are not stored: inputs differing only there store the same |
| `PosScaleDataSets.NewPosScaleData` | Packages/com.twobears.expanse/Runtime/BakedData/PosScaleDataSet.cs:44-58 | the constructor's fill loop builds exactly the stored entry |
| `PosScaleDataSets.Converted` | Packages/com.twobears.expanse/Runtime/BakedData/PosScaleDataSet.cs:60-67 | the rebuilt `GenusData` keeps genus, offset and bounds, has no overrides, and has one placed instance per stored position, each with its scale and the next yaw |
| `PosScaleDataSets.ConvertAsWritten` | Packages/com.twobears.expanse/Runtime/BakedData/PosScaleDataSet.cs:60-67 | as written the loop is bounded by the length of a new, empty list, so the rebuilt entry has no instances |
| `PosScaleDataSets.AsWrittenLosesInstances` | Packages/com.twobears.expanse/Runtime/BakedData/PosScaleDataSet.cs:62-64 | an entry with stored instances loads with none as written, where the corrected load keeps them all |
| `PosScaleDataSets.ConvertToGenus` | Packages/com.twobears.expanse/Runtime/BakedData/PosScaleDataSet.cs:60-67 | the corrected conversion loop builds exactly the converted entry |
| `PosScaleDataSets.RoundTrip` | Packages/com.twobears.expanse/Runtime/BakedData/PosScaleDataSet.cs:44-67 | storing then rebuilding keeps genus, offset, bounds and every instance's position and scale, in order |
| `PosScaleDataSets.Loaded` | Packages/com.twobears.expanse/Runtime/BakedData/PosScaleDataSet.cs:14-24 | the intended load: one rebuilt entry per stored one, in order, each drawing its yaws after those of the entries before it |
| `PosScaleDataSets.WriteLoadRoundTrip` | Packages/com.twobears.expanse/Runtime/BakedData/PosScaleDataSet.cs:14-32 | with the corrected conversion, writing a list of `GenusData` and loading it back gives, entry by entry, the same genus, offset, bounds, and positions and scales |
| `PosScaleDataSets.LoadedAsWritten` | Packages/com.twobears.expanse/Runtime/BakedData/PosScaleDataSet.cs:14-24 | the load as written: one entry per stored one, in order, keeping genus, offset and bounds, with no instances |
| `PosScaleDataSets.WriteLoadAsWrittenLoses` | Packages/com.twobears.expanse/Runtime/BakedData/PosScaleDataSet.cs:14-32 | as written, writing then loading keeps genus, offset and bounds but no instance, and agrees with the intended load exactly when no input had an instance |
| `PosScaleDataSets.ConvertAll` | Packages/com.twobears.expanse/Runtime/BakedData/PosScaleDataSet.cs:16-23 | the conversion loop, with the corrected conversion, returns a fresh array holding exactly the intended loaded entries: each stored entry converted in order, its yaws drawn after those of the entries before it |
| `PosScaleDataSets.PosScaleDataSet.constructor` | Packages/com.twobears.expanse/Runtime/BakedData/PosScaleDataSet.cs:12 | a new asset holds an empty, well-formed array |
| `PosScaleDataSets.PosScaleDataSet.WriteData` | Packages/com.twobears.expanse/Runtime/BakedData/PosScaleDataSet.cs:25-32 | the new array holds the stored form of each input, in order, and every entry has a scale per position |
| `PosScaleDataSets.PosScaleDataSet.LoadData` | Packages/com.twobears.expanse/Runtime/BakedData/PosScaleDataSet.cs:14-24 | the returned array is fresh and holds the intended loaded entries |
| `PosScaleDataSets.PosScaleDataSet.LoadDataAsWritten` | Packages/com.twobears.expanse/Runtime/BakedData/PosScaleDataSet.cs:14-24 | as written, the returned array is fresh and holds the entries of `LoadedAsWritten`, none with an instance |

## Left out

- Job-system plumbing is not modelled. This covers `ScheduleModifier` / `CompleteModifier` and job chaining through `JobHandle`, `IsCompleted` polling, `OnDisable` completion and `NativeArray` disposal. Each modifier is one sequential pass over the states array. `ScheduleModifier` builds the same jobs as `Apply`, without the null guards of `Apply`. It also skips the `active` gate, which only `ApplyModifier` and `ApplyModifierAsync` check. The scheduled path of `AreaRenderer` therefore runs inactive modifiers too. `Modifiers.Gated`, `Modifiers.RunChain` and `Modifiers.InactiveIsRemoved` describe the `ApplyModifier` path only.
- `ApplyAsync` and `Modifier.ApplyModifierAsync` are coroutines that schedule the same jobs as `Apply` and `ApplyModifier`, so `Modifiers.Modifier.ApplyModifier` stands for both. The dispose-before-complete order in `TextureSample.ApplyAsync` is a concurrency matter and is not modelled.
- Batching of parallel jobs is not modelled. Each batch of an `IJobParallelFor` gets its own copy of the `Random` struct, so in the source, draws repeat from batch to batch. The model takes one stream: candidate `i` takes draw `i` (or draws `3i` to `3i + 2` for offsets).
- Floating point is modelled by `real`, including `VisibleTime`'s `double` sum. Rounding is not modelled.
- `noise.cnoise`, `Mathf.PerlinNoise`, `Quaternion.FromToRotation`, quaternion products, rotation of vectors and the random generator are opaque functions in `States.Engine`. Their results are constrained only by the stated range assumptions.
- `GetRawTextureData` is engine glue. A texture is the sequence of its pixel records, with the set's resolution and bounds.
- Modifiers.Modifier.ApplyModifier, Modifiers.StageApplied, Modifiers.ApplyStage, Modifiers.Gated and the texture stages' `Applied` and `Apply` require every texture the stage reads to have `resolutionX * resolutionY` texels, a resolution of at least one and non-zero extents. A mismatched texture makes the source read out of range or divide by zero, which is not modelled.
- RuleSets.RuleSet.RemoveAt requires a non-null array, and no negative index on an empty array. The source throws in both cases.
- Analysis.Analyzer.GetInstance requires an existing list and an index inside it, where the source throws.
- PosScaleDataSets.Converted and PosScaleDataSets.ConvertToGenus require at least as many scales as positions. Every entry built by `WriteData` has equal lengths (`PosScaleDataSet.Valid`). Hand-edited serialized data that breaks this would throw in the source.
- RandomOffset.Displacement states bounds for positive and zero ranges only. For a negative range the draw lies in (range, -range], which is not stated.
- ContourScale.Applied and ContourScale.Apply run the corrected job from `ContourScale.MakeJob`, which reads the configured channel. The source's `Apply` reads red whatever is configured; that behaviour is `ContourScale.AppliedAsWritten` and `ContourScale.ApplyAsWritten`, and `Modifiers.StageApplied` uses the corrected pass.
- PosScaleDataSets.Loaded, PosScaleDataSets.WriteLoadRoundTrip, PosScaleDataSets.ConvertAll and PosScaleDataSets.PosScaleDataSet.LoadData use the corrected `ConvertToGenus`, which rebuilds every stored instance. The source's `LoadData` returns every entry with no instances; that behaviour is `PosScaleDataSets.LoadedAsWritten` and `PosScaleDataSets.PosScaleDataSet.LoadDataAsWritten`.
- `InstanceDataSet.SaveData` adds only asset-database persistence around `WriteData`.
- A null `data` array in the data sets is not modelled. The serialized array fields of `RuleSet`, `FullDataSet` and `PosScaleDataSet` have no initialiser, so C# leaves them null until Unity's serializer gives them an empty array. `RuleSet` starts from null because its editing methods guard against it. The data sets start from the empty array Unity serializes, because their methods have no null guard and would throw on null.
- The renderer counters (`InstanceCount`, `VertexCount`, ...) are fixed values of each `Analysis.Renderer`. The source reads live getters once per total.
- The `Renderers` getter of the analyzer is the `renderers` field of `Analysis.Analyzer`. The static registry is one `Analyzer` object.
- The editor `Draw` methods, `PerlinVisualizer`, `GlobalWind`, `PreviewCameraController` and all editor scripts are user-interface or rendering glue and are not modelled.
- The renderers, the instance pool and the placement engine are not part of this model. The only exceptions are the modifier loop of `AreaRenderer` (`Modifiers.RunChain`) and the `GenusInstance(position, scale)` constructor (`BakedData.PlacedInstance`).

## Findings

| source | as written | input that shows it | evidently intended | confidence | as-written member | corrected member |
|---|---|---|---|---|---|---|
| Packages/com.twobears.expanse/Runtime/Modifiers/ContourScale.cs:44-59 | the job initialisers of `Apply` (and of `ScheduleModifier`, 113-128) never set `channel`, so every job reads the red channel | a contour map that is pure green; settings with channel Green, contour range [0, 1] and scale range [0, 1]; a valid candidate of scale one. The written job shrinks it to zero. | the configured `channel` is copied into the job, which then keeps the scale at one | not executed | `ContourScale.AsWrittenIgnoresChannel` | `ContourScale.MakeJob` |
| Packages/com.twobears.expanse/Runtime/BakedData/PosScaleDataSet.cs:62-64 | `ConvertToGenus` loops while `i < instanceData.Length`, but the list was just created with capacity `positions.Length` and length 0, so no instance is rebuilt | any stored entry with one or more positions loads with an empty instance list | loop to `positions.Length`, rebuilding one instance per stored position | not executed | `PosScaleDataSets.AsWrittenLosesInstances` | `PosScaleDataSets.ConvertToGenus` |
