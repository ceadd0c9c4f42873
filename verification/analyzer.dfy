/**
 * `ExpanseAnalyzer`: the process-wide registry of renderers and the
 * diagnostic totals summed over it. The registry is a list created on the
 * first registration; the integer totals accumulate in a 32-bit `int`.
 */
module Analysis {
  import opened States

  /**
   * An `IAnalyzerInstance`: what a registered renderer reports. The getters
   * are read once per total, so the model takes their values as fixed.
   */
  class Renderer {
    const name: string
    const drawShadows: string
    const instanceCount: int
    const vertexCount: int
    const triangleCount: int
    const prepTime: real
    const drawTime: real

    constructor(name: string, drawShadows: string, instanceCount: int, vertexCount: int, triangleCount: int,
                prepTime: real, drawTime: real)
      ensures this.name == name && this.drawShadows == drawShadows
      ensures this.instanceCount == instanceCount && this.vertexCount == vertexCount && this.triangleCount == triangleCount
      ensures this.prepTime == prepTime && this.drawTime == drawTime
    {
      this.name := name;
      this.drawShadows := drawShadows;
      this.instanceCount := instanceCount;
      this.vertexCount := vertexCount;
      this.triangleCount := triangleCount;
      this.prepTime := prepTime;
      this.drawTime := drawTime;
    }
  }

  function InstanceCountOf(r: Renderer): int { r.instanceCount }
  function VertexCountOf(r: Renderer): int { r.vertexCount }
  function TriangleCountOf(r: Renderer): int { r.triangleCount }
  function TimeOf(r: Renderer): real { r.prepTime + r.drawTime }

  // ---------------------------------------------------------------- 32-bit totals

  const Modulus := 0x1_0000_0000
  const Half := 0x8000_0000

  /** Two's complement wrap-around of C#'s unchecked `int` addition. */
  function Int32(x: int): (r: int)
    ensures -Half <= r < Half
    ensures -Half <= x < Half ==> r == x
    ensures (r - x) % Modulus == 0
  {
    (x + Half) % Modulus - Half
  }

  /** Adding a multiple of the modulus does not change the remainder. */
  lemma ModShift(x: int, k: int)
    ensures (x + k * Modulus) % Modulus == x % Modulus
  {
    var q, m := x / Modulus, x % Modulus;
    assert x + k * Modulus == (q + k) * Modulus + m;
  }

  /** Wrapping each partial sum gives the wrapped total. */
  lemma Int32Add(a: int, b: int)
    ensures Int32(Int32(a) + b) == Int32(a + b)
  {
    var k := (a + Half) / Modulus;
    assert Int32(a) + b + Half == (a + b + Half) + (-k) * Modulus;
    ModShift(a + b + Half, -k);
  }

  // ---------------------------------------------------------------- sums

  /** The sum of a counter over the renderers, in registration order. */
  function Sum(rs: seq<Renderer>, count: Renderer -> int): int
  {
    if |rs| == 0 then 0 else Sum(rs[..|rs| - 1], count) + count(rs[|rs| - 1])
  }

  function TimeSum(rs: seq<Renderer>): real
  {
    if |rs| == 0 then 0.0 else TimeSum(rs[..|rs| - 1]) + TimeOf(rs[|rs| - 1])
  }

  lemma {:induction false} SumConcat(a: seq<Renderer>, b: seq<Renderer>, count: Renderer -> int)
    ensures Sum(a + b, count) == Sum(a, count) + Sum(b, count)
    decreases |b|
  {
    if |b| != 0 {
      assert (a + b)[..|a + b| - 1] == a + b[..|b| - 1];
      SumConcat(a, b[..|b| - 1], count);
    } else {
      assert a + b == a;
    }
  }

  lemma {:induction false} TimeSumConcat(a: seq<Renderer>, b: seq<Renderer>)
    ensures TimeSum(a + b) == TimeSum(a) + TimeSum(b)
    decreases |b|
  {
    if |b| != 0 {
      assert (a + b)[..|a + b| - 1] == a + b[..|b| - 1];
      TimeSumConcat(a, b[..|b| - 1]);
    } else {
      assert a + b == a;
    }
  }

  // ---------------------------------------------------------------- removal

  /** `List.IndexOf`: the position of the first occurrence of `x`. */
  function FirstIndex(s: seq<Renderer>, x: Renderer): (i: nat)
    requires x in s
    ensures i < |s| && s[i] == x && x !in s[..i]
  {
    if s[0] == x then 0
    else
      var i := FirstIndex(s[1..], x);
      assert s[..i + 1] == [s[0]] + s[1..][..i];
      i + 1
  }

  /** `List.Remove`: drops the first occurrence of `x`, if any, keeping the order of the rest. */
  function RemoveFirst(s: seq<Renderer>, x: Renderer): (r: seq<Renderer>)
    ensures x !in s ==> r == s
    ensures x in s ==> |r| == |s| - 1
    ensures x in s ==> forall k :: 0 <= k < |r| ==> r[k] == s[if k < FirstIndex(s, x) then k else k + 1]
    ensures multiset(r) == multiset(s) - multiset{x}
  {
    if x in s then
      var i := FirstIndex(s, x);
      assert s == s[..i] + [x] + s[i + 1..];
      s[..i] + s[i + 1..]
    else
      s
  }

  /** Deregistering a renderer takes its counts out of the totals. */
  lemma RemoveFirstSums(s: seq<Renderer>, x: Renderer, count: Renderer -> int)
    requires x in s
    ensures Sum(RemoveFirst(s, x), count) == Sum(s, count) - count(x)
    ensures TimeSum(RemoveFirst(s, x)) == TimeSum(s) - TimeOf(x)
  {
    var i := FirstIndex(s, x);
    assert RemoveFirst(s, x) == s[..i] + s[i + 1..];
    assert s == s[..i] + [x] + s[i + 1..];
    SumConcat(s[..i], s[i + 1..], count);
    SumConcat(s[..i] + [x], s[i + 1..], count);
    TimeSumConcat(s[..i], s[i + 1..]);
    TimeSumConcat(s[..i] + [x], s[i + 1..]);
    assert (s[..i] + [x])[..i] == s[..i];
  }

  /** Appending never moves the first occurrence of an element already present. */
  lemma FirstIndexAppend(s: seq<Renderer>, x: Renderer, y: Renderer)
    requires x in s
    ensures FirstIndex(s + [y], x) == FirstIndex(s, x)
  {
    var i, j := FirstIndex(s + [y], x), FirstIndex(s, x);
    assert forall k :: 0 <= k < j ==> s[..j][k] == s[k] != x;
    assert forall k :: 0 <= k < i ==> (s + [y])[..i][k] == (s + [y])[k] != x;
    assert (s + [y])[j] == x && (s + [y])[i] == x;
  }

  /**
   * Deregistering right after registering restores the list when the
   * renderer was not registered before; when it was, the earlier entry is
   * the one removed and the new one stays at the end.
   */
  lemma RegisterThenDeregister(s: seq<Renderer>, x: Renderer)
    ensures x !in s ==> RemoveFirst(s + [x], x) == s
    ensures x in s ==> RemoveFirst(s + [x], x) == RemoveFirst(s, x) + [x]
  {
    var i := FirstIndex(s + [x], x);
    if x !in s {
      assert (s + [x])[..i] == s;
    } else {
      FirstIndexAppend(s, x, x);
      assert (s + [x])[..i] == s[..i];
      assert (s + [x])[i + 1..] == s[i + 1..] + [x];
    }
  }

  // ---------------------------------------------------------------- registry

  class Analyzer {
    /** The static `renderers` list; `None` until the first registration. */
    var renderers: Option<seq<Renderer>>

    /** The registered renderers in order; none before the list exists. */
    function Registered(): seq<Renderer>
      reads this
    {
      if renderers.None? then [] else renderers.value
    }

    constructor()
      ensures renderers == None
    {
      renderers := None;
    }

    /** `RegisterRenderer`: ignores null; otherwise creates the list if needed and appends, duplicates included. */
    method RegisterRenderer(renderer: Renderer?)
      modifies this
      ensures renderer == null ==> renderers == old(renderers)
      ensures renderer != null ==> renderers == Some(old(Registered()) + [renderer])
    {
      if renderer == null {
        return;
      }
      if renderers.None? {
        renderers := Some([]);
      }
      renderers := Some(renderers.value + [renderer]);
    }

    /** `DeregisterRenderer`: ignores null and an unset list; otherwise removes the first occurrence. */
    method DeregisterRenderer(renderer: Renderer?)
      modifies this
      ensures renderer == null || old(renderers).None? ==> renderers == old(renderers)
      ensures renderer != null && old(renderers).Some? ==> renderers == Some(RemoveFirst(old(renderers).value, renderer))
    {
      if renderer == null {
        return;
      }
      if renderers.None? {
        return;
      }
      renderers := Some(RemoveFirst(renderers.value, renderer));
    }

    /** The loop shared by the three integer totals: `total += count(renderers[i])` with wrap-around. */
    method Total(count: Renderer -> int) returns (total: int)
      ensures total == Int32(Sum(Registered(), count))
      ensures renderers.None? ==> total == 0
    {
      if renderers.None? {
        return 0;
      }
      var rs := renderers.value;
      total := 0;
      var i := 0;
      while i < |rs|
        invariant 0 <= i <= |rs|
        invariant total == Int32(Sum(rs[..i], count))
      {
        assert rs[..i + 1][..i] == rs[..i];
        Int32Add(Sum(rs[..i], count), count(rs[i]));
        total := Int32(total + count(rs[i]));
        i := i + 1;
      }
      assert rs[..i] == rs;
    }

    /** `VisibleInstances`. */
    method VisibleInstances() returns (total: int)
      ensures total == Int32(Sum(Registered(), InstanceCountOf))
      ensures renderers.None? ==> total == 0
    {
      total := Total(InstanceCountOf);
    }

    /** `VisibleVerts`. */
    method VisibleVerts() returns (total: int)
      ensures total == Int32(Sum(Registered(), VertexCountOf))
      ensures renderers.None? ==> total == 0
    {
      total := Total(VertexCountOf);
    }

    /** `VisibleTris`. */
    method VisibleTris() returns (total: int)
      ensures total == Int32(Sum(Registered(), TriangleCountOf))
      ensures renderers.None? ==> total == 0
    {
      total := Total(TriangleCountOf);
    }

    /** `VisibleTime`: the sum of preparation and draw times. */
    method VisibleTime() returns (total: real)
      ensures total == TimeSum(Registered())
      ensures renderers.None? ==> total == 0.0
    {
      if renderers.None? {
        return 0.0;
      }
      var rs := renderers.value;
      total := 0.0;
      var i := 0;
      while i < |rs|
        invariant 0 <= i <= |rs|
        invariant total == TimeSum(rs[..i])
      {
        assert rs[..i + 1][..i] == rs[..i];
        total := total + (rs[i].prepTime + rs[i].drawTime);
        i := i + 1;
      }
      assert rs[..i] == rs;
    }

    /** `RendererCount`: the list's length, 0 when unset. */
    function RendererCount(): (n: nat)
      reads this
      ensures renderers.None? ==> n == 0
      ensures renderers.Some? ==> n == |renderers.value|
    {
      |Registered()|
    }

    /** `GetInstance`: the renderer registered `index`-th; the list must exist and hold that index. */
    function GetInstance(index: int): (r: Renderer)
      reads this
      requires renderers.Some? && 0 <= index < |renderers.value|
      ensures r in Registered()
      ensures r == Registered()[index]
    {
      renderers.value[index]
    }
  }
}
