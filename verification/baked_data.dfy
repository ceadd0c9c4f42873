/**
 * Baked instance data: the `GenusData` records a renderer loads instead of
 * running placement, and the two stores that keep them in an asset.
 */
module BakedData {
  import opened Maths
  import opened States

  /** An asset reference (a genus or a material), identified by its asset id. */
  datatype Asset = Asset(id: nat)

  /**
   * `GenusData`: the instances of one genus, with optional material
   * overrides and the area's offset and bounds. The `NativeList` of
   * instances is modelled by its contents.
   */
  datatype GenusData = GenusData(genus: Asset, matOverride: Option<Asset>, billboardOverride: Option<Asset>,
                                 data: seq<GenusInstance>, offset: Vec3, bounds: Vec3)

  /**
   * The `GenusInstance(position, scale)` constructor: density 1, no extra
   * data, and a random yaw, here the rotation handed in.
   */
  function PlacedInstance(position: Vec3, scale: Vec3, rotation: Quat): (g: GenusInstance)
    ensures g.position == position && g.scale == scale && g.rotation == rotation
    ensures g.density == 1.0 && g.extra == Vec4(0.0, 0.0, 0.0, 0.0)
  {
    GenusInstance(1.0, position, rotation, scale, Vec4(0.0, 0.0, 0.0, 0.0))
  }
}
