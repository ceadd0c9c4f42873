/**
 * `PosScaleDataSet`: a compact store of baked instances that keeps, per
 * genus, only the positions and scales (plus the genus, offset and bounds).
 * Loading rebuilds `GenusInstance`s from them with the
 * `GenusInstance(position, scale)` constructor, which picks a fresh random
 * yaw for each: `spin(k)` is the rotation of the k-th such call.
 */
module PosScaleDataSets {
  import opened Maths
  import opened States
  import opened BakedData

  /** The serialized `PosScaleData` struct. */
  datatype PosScaleData = PosScaleData(genus: Asset, positions: seq<Vec3>, scales: seq<Vec3>, offset: Vec3, bounds: Vec3)

  /** What the `PosScaleData(input)` constructor keeps of a `GenusData`. */
  function Stored(input: GenusData): (p: PosScaleData)
    ensures p.genus == input.genus && p.offset == input.offset && p.bounds == input.bounds
    ensures |p.positions| == |input.data| && |p.scales| == |input.data|
    ensures forall i :: 0 <= i < |input.data| ==>
              p.positions[i] == input.data[i].position && p.scales[i] == input.data[i].scale
  {
    PosScaleData(input.genus,
                 seq(|input.data|, (i: int) requires 0 <= i < |input.data| => input.data[i].position),
                 seq(|input.data|, (i: int) requires 0 <= i < |input.data| => input.data[i].scale),
                 input.offset, input.bounds)
  }

  /** Rotation, density and `extra` are not stored: inputs that differ only there store the same. */
  lemma StoredForgets(a: GenusData, b: GenusData)
    requires a.genus == b.genus && a.offset == b.offset && a.bounds == b.bounds && |a.data| == |b.data|
    requires forall i :: 0 <= i < |a.data| ==>
               a.data[i].position == b.data[i].position && a.data[i].scale == b.data[i].scale
    ensures Stored(a) == Stored(b)
  {
    var p, q := Stored(a), Stored(b);
    assert p.positions == q.positions;
    assert p.scales == q.scales;
  }

  /** The `PosScaleData(input)` constructor: two arrays filled index by index. */
  method NewPosScaleData(input: GenusData) returns (p: PosScaleData)
    ensures p == Stored(input)
  {
    var positions := new Vec3[|input.data|];
    var scales := new Vec3[|input.data|];
    var i := 0;
    while i < |input.data|
      invariant 0 <= i <= |input.data|
      invariant forall k :: 0 <= k < i ==> positions[k] == input.data[k].position && scales[k] == input.data[k].scale
    {
      positions[i] := input.data[i].position;
      scales[i] := input.data[i].scale;
      i := i + 1;
    }
    p := PosScaleData(input.genus, positions[..], scales[..], input.offset, input.bounds);
  }

  // ---------------------------------------------------------------- loading

  /** The instances `ConvertToGenus` is meant to build, the k-th taking yaw `spin(first + k)`. */
  function Converted(p: PosScaleData, first: nat, spin: nat -> Quat): (g: GenusData)
    requires |p.positions| <= |p.scales|
    ensures g.genus == p.genus && g.offset == p.offset && g.bounds == p.bounds
    ensures g.matOverride.None? && g.billboardOverride.None?
    ensures |g.data| == |p.positions|
    ensures forall i :: 0 <= i < |p.positions| ==>
              g.data[i] == PlacedInstance(p.positions[i], p.scales[i], spin(first + i))
  {
    GenusData(p.genus, None, None,
              seq(|p.positions|, (i: int) requires 0 <= i < |p.positions| =>
                PlacedInstance(p.positions[i], p.scales[i], spin(first + i))),
              p.offset, p.bounds)
  }

  /** A `NativeList`: the capacity it was created with and the items added so far. */
  datatype NativeList<T> = NativeList(capacity: nat, items: seq<T>)

  /**
   * The fill loop of `ConvertToGenus` as written: it runs while `i` is below
   * the list's current length and adds one instance per turn. Reading past
   * the end of `positions` or `scales` would throw; that is `None`.
   */
  function FillAsWritten(p: PosScaleData, list: NativeList<GenusInstance>, i: nat, first: nat, spin: nat -> Quat)
    : (r: Option<NativeList<GenusInstance>>)
    requires i <= |p.positions| + 1
    decreases |p.positions| + 1 - i
  {
    if i < |list.items| then
      if i < |p.positions| && i < |p.scales| then
        var added := list.(items := list.items + [PlacedInstance(p.positions[i], p.scales[i], spin(first + i))]);
        FillAsWritten(p, added, i + 1, first, spin)
      else None
    else Some(list)
  }

  /**
   * `ConvertToGenus` as written: the list is created with capacity
   * `positions.Length` but length 0, so the loop bound is 0 and no instance
   * is added.
   */
  function ConvertAsWritten(p: PosScaleData, first: nat, spin: nat -> Quat): (g: Option<GenusData>)
    ensures g.Some? && g.value.data == []
    ensures g.value.genus == p.genus && g.value.offset == p.offset && g.value.bounds == p.bounds
  {
    var created := NativeList(|p.positions|, []);
    match FillAsWritten(p, created, 0, first, spin)
    case None => None
    case Some(list) => Some(GenusData(p.genus, None, None, list.items, p.offset, p.bounds))
  }

  /** As written, an entry with any stored instance loads with none, where the intended load keeps them all. */
  lemma AsWrittenLosesInstances(p: PosScaleData, first: nat, spin: nat -> Quat)
    requires |p.positions| <= |p.scales| && 0 < |p.positions|
    ensures |ConvertAsWritten(p, first, spin).value.data| == 0
    ensures |Converted(p, first, spin).data| == |p.positions| > 0
  {
  }

  /** `ConvertToGenus` with the loop bounded by `positions.Length`. */
  method ConvertToGenus(p: PosScaleData, first: nat, spin: nat -> Quat) returns (g: GenusData)
    requires |p.positions| <= |p.scales|
    ensures g == Converted(p, first, spin)
  {
    var instanceData := NativeList(|p.positions|, []);
    var i := 0;
    while i < |p.positions|
      invariant 0 <= i <= |p.positions|
      invariant |instanceData.items| == i
      invariant forall k :: 0 <= k < i ==>
                  instanceData.items[k] == PlacedInstance(p.positions[k], p.scales[k], spin(first + k))
    {
      instanceData := instanceData.(items := instanceData.items + [PlacedInstance(p.positions[i], p.scales[i], spin(first + i))]);
      i := i + 1;
    }
    g := GenusData(p.genus, None, None, instanceData.items, p.offset, p.bounds);
  }

  /** Storing then loading keeps genus, offset, bounds, and every instance's position and scale, in order. */
  lemma RoundTrip(input: GenusData, first: nat, spin: nat -> Quat)
    ensures var g := Converted(Stored(input), first, spin);
            g.genus == input.genus && g.offset == input.offset && g.bounds == input.bounds &&
            |g.data| == |input.data| &&
            forall i :: 0 <= i < |input.data| ==>
              g.data[i].position == input.data[i].position && g.data[i].scale == input.data[i].scale
  {
  }

  /** A stored entry has a scale for every position. */
  predicate WellFormed(p: PosScaleData)
  {
    |p.positions| == |p.scales|
  }

  /** The yaws drawn before entry `n`: one per instance of every earlier entry. */
  function Drawn(entries: seq<PosScaleData>, n: nat): nat
    requires n <= |entries|
  {
    if n == 0 then 0 else Drawn(entries, n - 1) + |entries[n - 1].positions|
  }

  /** What `LoadData` is meant to return for the stored entries: each converted, in order, drawing yaws in turn. */
  function Loaded(entries: seq<PosScaleData>, spin: nat -> Quat): (r: seq<GenusData>)
    requires forall k :: 0 <= k < |entries| ==> |entries[k].positions| <= |entries[k].scales|
    ensures |r| == |entries|
    ensures forall k {:trigger r[k]} :: 0 <= k < |entries| ==> r[k] == Converted(entries[k], Drawn(entries, k), spin)
  {
    seq(|entries|, (k: int) requires 0 <= k < |entries| => Converted(entries[k], Drawn(entries, k), spin))
  }

  /**
   * Writing a list of `GenusData` and loading it back gives one entry per
   * input, in order, with the same genus, offset, bounds, and positions and
   * scales index for index.
   */
  lemma WriteLoadRoundTrip(input: seq<GenusData>, spin: nat -> Quat)
    ensures var stored := seq(|input|, (i: int) requires 0 <= i < |input| => Stored(input[i]));
            var r := Loaded(stored, spin);
            |r| == |input| &&
            forall i :: 0 <= i < |input| ==>
              r[i].genus == input[i].genus && r[i].offset == input[i].offset && r[i].bounds == input[i].bounds &&
              |r[i].data| == |input[i].data| &&
              forall j :: 0 <= j < |input[i].data| ==>
                r[i].data[j].position == input[i].data[j].position && r[i].data[j].scale == input[i].data[j].scale
  {
    var stored := seq(|input|, (i: int) requires 0 <= i < |input| => Stored(input[i]));
    var r := Loaded(stored, spin);
    forall i | 0 <= i < |input|
      ensures r[i].genus == input[i].genus && r[i].offset == input[i].offset && r[i].bounds == input[i].bounds
      ensures |r[i].data| == |input[i].data|
      ensures forall j :: 0 <= j < |input[i].data| ==>
                r[i].data[j].position == input[i].data[j].position && r[i].data[j].scale == input[i].data[j].scale
    {
      RoundTrip(input[i], Drawn(stored, i), spin);
    }
  }

  /** The loop of `LoadData`: each entry converted in turn, the running count of instances giving the next yaw. */
  method ConvertAll(entries: seq<PosScaleData>, spin: nat -> Quat) returns (r: array<GenusData>)
    requires forall k :: 0 <= k < |entries| ==> |entries[k].positions| <= |entries[k].scales|
    ensures fresh(r) && r[..] == Loaded(entries, spin)
  {
    r := new GenusData[|entries|];
    var i := 0;
    var first := 0;
    while i < |entries|
      invariant 0 <= i <= |entries| == r.Length
      invariant first == Drawn(entries, i)
      invariant forall k {:trigger r[k]} :: 0 <= k < i ==> r[k] == Converted(entries[k], Drawn(entries, k), spin)
    {
      var g := ConvertToGenus(entries[i], first, spin);
      r[i] := g;
      first := first + |entries[i].positions|;
      i := i + 1;
    }
    assert forall k :: 0 <= k < |entries| ==> r[..][k] == r[k];
  }

  /**
   * What `LoadData` returns as written: each entry converted by
   * `ConvertAsWritten`, in order. No `GenusInstance` is built, so no yaw is
   * drawn and every entry starts at draw 0.
   */
  function LoadedAsWritten(entries: seq<PosScaleData>, spin: nat -> Quat): (r: seq<GenusData>)
    ensures |r| == |entries|
    ensures forall k {:trigger r[k]} :: 0 <= k < |entries| ==>
              r[k].data == [] && r[k].genus == entries[k].genus &&
              r[k].offset == entries[k].offset && r[k].bounds == entries[k].bounds
  {
    seq(|entries|, (k: int) requires 0 <= k < |entries| => ConvertAsWritten(entries[k], 0, spin).value)
  }

  /**
   * Writing a list of `GenusData` and loading it back as written keeps genus,
   * offset and bounds but no instance; it agrees with the intended load
   * exactly when no input had an instance to lose.
   */
  lemma {:induction false} WriteLoadAsWrittenLoses(input: seq<GenusData>, spin: nat -> Quat)
    ensures var stored := seq(|input|, (i: int) requires 0 <= i < |input| => Stored(input[i]));
            var r := LoadedAsWritten(stored, spin);
            |r| == |input| &&
            (forall i :: 0 <= i < |input| ==>
               r[i].data == [] && r[i].genus == input[i].genus && r[i].offset == input[i].offset && r[i].bounds == input[i].bounds) &&
            (r == Loaded(stored, spin) <==> forall i :: 0 <= i < |input| ==> input[i].data == [])
  {
    var stored := seq(|input|, (i: int) requires 0 <= i < |input| => Stored(input[i]));
    var r, loaded := LoadedAsWritten(stored, spin), Loaded(stored, spin);
    if r == loaded {
      forall i | 0 <= i < |input|
        ensures input[i].data == []
      {
        assert |loaded[i].data| == |stored[i].positions| == |input[i].data|;
        assert r[i].data == [];
      }
    }
    if forall i :: 0 <= i < |input| ==> input[i].data == [] {
      forall i | 0 <= i < |input|
        ensures r[i] == loaded[i]
      {
        assert |stored[i].positions| == 0;
        assert loaded[i] == Converted(stored[i], Drawn(stored, i), spin);
        assert loaded[i].data == [];
      }
    }
  }

  class PosScaleDataSet {
    var data: array<PosScaleData>

    /** Every stored entry was built by the constructor, so its arrays match in length. */
    predicate Valid()
      reads this, data
    {
      forall i :: 0 <= i < data.Length ==> WellFormed(data[i])
    }

    /**
     * The field has no initialiser, so C# leaves it null until Unity serializes
     * an empty array; the model starts from that empty array, since `LoadData`
     * reads `data.Length` without a null guard.
     */
    constructor()
      ensures Valid() && data.Length == 0
    {
      data := new PosScaleData[0];
    }

    /** `WriteData`: a fresh array with one stored entry per input, in order. */
    method WriteData(input: array<GenusData>)
      modifies this
      ensures Valid() && fresh(data)
      ensures data.Length == input.Length
      ensures forall i :: 0 <= i < input.Length ==> data[i] == Stored(input[i])
    {
      var stored := new PosScaleData[input.Length];
      var i := 0;
      while i < input.Length
        invariant 0 <= i <= input.Length
        invariant forall k :: 0 <= k < i ==> stored[k] == Stored(input[k])
      {
        stored[i] := NewPosScaleData(input[i]);
        i := i + 1;
      }
      data := stored;
    }

    /** `LoadData`: a fresh array with one converted entry per stored one, in order. */
    method LoadData(spin: nat -> Quat) returns (r: array<GenusData>)
      requires Valid()
      ensures fresh(r) && r[..] == Loaded(data[..], spin)
    {
      var entries := data[..];
      forall k | 0 <= k < |entries|
        ensures |entries[k].positions| <= |entries[k].scales|
      {
        assert WellFormed(data[k]);
      }
      r := ConvertAll(entries, spin);
    }

    /** `LoadData` as written: the same loop over the stored entries, each converted by `ConvertAsWritten`. */
    method LoadDataAsWritten(spin: nat -> Quat) returns (r: array<GenusData>)
      ensures fresh(r) && r[..] == LoadedAsWritten(data[..], spin)
    {
      r := new GenusData[data.Length];
      var i := 0;
      while i < data.Length
        invariant 0 <= i <= data.Length == r.Length
        invariant forall k {:trigger r[k]} :: 0 <= k < i ==> r[k] == ConvertAsWritten(data[k], 0, spin).value
      {
        r[i] := ConvertAsWritten(data[i], 0, spin).value;
        i := i + 1;
      }
      assert forall k :: 0 <= k < data.Length ==> r[..][k] == r[k];
    }
  }
}
