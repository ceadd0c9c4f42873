/**
 * `FullDataSet`: keeps the baked `GenusData` array exactly as it was
 * written. Writing stores the caller's array itself and loading hands that
 * same array back, so the two share it.
 */
module FullDataSets {
  import opened BakedData

  class FullDataSet {
    var data: array<GenusData>

    /**
     * The field has no initialiser, so C# leaves it null until Unity serializes
     * an empty array; the model starts from that empty array, since nothing
     * here guards against null.
     */
    constructor()
      ensures data.Length == 0
    {
      data := new GenusData[0];
    }

    /** `LoadData`: the stored array itself, with nothing changed. */
    method LoadData() returns (r: array<GenusData>)
      ensures r == data
    {
      r := data;
    }

    /** `WriteData`: the given array replaces whatever was stored. */
    method WriteData(d: array<GenusData>)
      modifies this
      ensures data == d
    {
      data := d;
    }
  }

  /** Writing then loading returns the written array, whatever was stored before. */
  method WriteThenLoad(store: FullDataSet, d: array<GenusData>) returns (r: array<GenusData>)
    modifies store
    ensures r == d && store.data == d
  {
    store.WriteData(d);
    r := store.LoadData();
  }

  /** A second write discards the first: loading gives the later array. */
  method WriteTwiceThenLoad(store: FullDataSet, d1: array<GenusData>, d2: array<GenusData>) returns (r: array<GenusData>)
    modifies store
    ensures r == d2
  {
    store.WriteData(d1);
    store.WriteData(d2);
    r := store.LoadData();
  }
}
