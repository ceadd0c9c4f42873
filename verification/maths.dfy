/** Vector types and the scalar helpers of the engine's maths libraries, over `real`. */
module Maths {

  datatype Vec3 = Vec3(x: real, y: real, z: real)
  datatype Vec4 = Vec4(x: real, y: real, z: real, w: real)
  datatype Quat = Quat(x: real, y: real, z: real, w: real)

  const Zero3 := Vec3(0.0, 0.0, 0.0)
  const One3 := Vec3(1.0, 1.0, 1.0)
  const Upward := Vec3(0.0, 1.0, 0.0)

  /** `a + b`, component-wise. */
  function Add(a: Vec3, b: Vec3): Vec3
  {
    Vec3(a.x + b.x, a.y + b.y, a.z + b.z)
  }

  /** `a * k` for a scalar `k`. */
  function Times(a: Vec3, k: real): Vec3
  {
    Vec3(a.x * k, a.y * k, a.z * k)
  }

  /** `Vector3.Scale(a, b)`: the component-wise product. */
  function Scale(a: Vec3, b: Vec3): Vec3
  {
    Vec3(a.x * b.x, a.y * b.y, a.z * b.z)
  }

  /** `math.dot(a, b)`. */
  function Dot(a: Vec3, b: Vec3): real
  {
    a.x * b.x + a.y * b.y + a.z * b.z
  }

  /** `math.lerp(a, b, t)`: unclamped linear interpolation. */
  function Lerp(a: real, b: real, t: real): real
  {
    a + (b - a) * t
  }

  /** `Mathf.Abs(v)`. */
  function Abs(v: real): (r: real)
    ensures 0.0 <= r && (r == v || r == -v)
  {
    if v < 0.0 then -v else v
  }

  /** `Mathf.Clamp01(v)`. */
  function Clamp01(v: real): (r: real)
    ensures 0.0 <= r <= 1.0
    ensures 0.0 <= v <= 1.0 ==> r == v
  {
    if v < 0.0 then 0.0 else if v > 1.0 then 1.0 else v
  }

  /** `Mathf.InverseLerp(a, b, v)`: where `v` lies between `a` and `b`, clamped, and 0 when `a == b`. */
  function InverseLerp(a: real, b: real, v: real): (t: real)
    ensures 0.0 <= t <= 1.0
    ensures a == b ==> t == 0.0
    ensures a != b && v == a ==> t == 0.0
    ensures a != b && v == b ==> t == 1.0
  {
    if a != b then
      var q := (v - a) / (b - a);
      assert v == a ==> q == 0.0 by {
        if v == a { ZeroDiv(b - a); }
      }
      assert v == b ==> q == 1.0 by {
        if v == b { DivSelf(b - a); }
      }
      Clamp01(q)
    else 0.0
  }

  /** `math.unlerp(a, b, x)`: the unclamped inverse of `Lerp`. */
  function Unlerp(a: real, b: real, x: real): real
    requires a != b
  {
    (x - a) / (b - a)
  }

  /** `Vector3.Lerp(a, b, t)`: the weight is clamped to [0, 1] first. */
  function Lerp3(a: Vec3, b: Vec3, t: real): Vec3
  {
    var u := Clamp01(t);
    Vec3(Lerp(a.x, b.x, u), Lerp(a.y, b.y, u), Lerp(a.z, b.z, u))
  }

  /** `v` lies between `a` and `b`, whichever of the two is larger. */
  predicate Between(v: real, a: real, b: real)
  {
    (a <= v <= b) || (b <= v <= a)
  }

  /** Component-wise `Between`. */
  predicate Between3(v: Vec3, a: Vec3, b: Vec3)
  {
    Between(v.x, a.x, b.x) && Between(v.y, a.y, b.y) && Between(v.z, a.z, b.z)
  }

  /** `math.clamp(v, lo, hi)` on integers: `max(lo, min(hi, v))`. */
  function ClampInt(v: int, lo: int, hi: int): (r: int)
    requires lo <= hi
    ensures lo <= r <= hi
    ensures lo <= v <= hi ==> r == v
  {
    if v < lo then lo else if v > hi then hi else v
  }

  /** `math.ceil` on reals. */
  function Ceil(r: real): (c: int)
    ensures r <= c as real < r + 1.0
  {
    -((-r).Floor)
  }

  /** The C# conversion `(int)r`: truncation toward zero. */
  function Trunc(r: real): (i: int)
    ensures 0.0 <= r ==> i == r.Floor
    ensures r < 0.0 ==> i == Ceil(r)
  {
    if r < 0.0 then Ceil(r) else r.Floor
  }

  /** A weight in [0, 1] keeps an interpolation between its end points. */
  lemma LerpBetween(a: real, b: real, t: real)
    requires 0.0 <= t <= 1.0
    ensures Between(Lerp(a, b, t), a, b)
  {
    var d := b - a;
    assert Lerp(a, b, t) == a + d * t;
    if 0.0 <= d {
      MulBounds(d, t);
    } else {
      MulBounds(-d, t);
      assert (-d) * t == -(d * t);
    }
  }

  /** Interpolating between two values inside [lo, hi] with a weight in [0, 1] stays inside [lo, hi]. */
  lemma LerpWithin(a: real, b: real, t: real, lo: real, hi: real)
    requires lo <= a <= hi && lo <= b <= hi
    requires 0.0 <= t <= 1.0
    ensures lo <= Lerp(a, b, t) <= hi
  {
    LerpBetween(a, b, t);
  }

  lemma ZeroDiv(d: real)
    requires d != 0.0
    ensures 0.0 / d == 0.0
  {
  }

  lemma DivSelf(d: real)
    requires d != 0.0
    ensures d / d == 1.0
  {
  }

  lemma MulBounds(d: real, t: real)
    requires 0.0 <= d && 0.0 <= t <= 1.0
    ensures 0.0 <= d * t <= d
  {
  }

  /** `Vector3.Lerp` yields, per component, a point between its two end points, whatever the weight. */
  lemma Lerp3Between(a: Vec3, b: Vec3, t: real)
    ensures Between3(Lerp3(a, b, t), a, b)
  {
    var u := Clamp01(t);
    LerpBetween(a.x, b.x, u);
    LerpBetween(a.y, b.y, u);
    LerpBetween(a.z, b.z, u);
  }

  /** Dividing by a positive number keeps order. */
  lemma DivMonotone(x: real, y: real, d: real)
    requires 0.0 < d && x <= y
    ensures x / d <= y / d
  {
    assert y / d - x / d == (y - x) / d;
  }

  /** `InverseLerp` on an increasing range never decreases as the value grows. */
  lemma InverseLerpMonotone(a: real, b: real, v1: real, v2: real)
    requires a < b && v1 <= v2
    ensures InverseLerp(a, b, v1) <= InverseLerp(a, b, v2)
  {
    DivMonotone(v1 - a, v2 - a, b - a);
  }

  /** On an increasing range a value at or below `a` maps to 0 and one at or above `b` to 1. */
  lemma InverseLerpSaturates(a: real, b: real, v: real)
    requires a < b
    ensures v <= a ==> InverseLerp(a, b, v) == 0.0
    ensures b <= v ==> InverseLerp(a, b, v) == 1.0
  {
    if v <= a {
      DivMonotone(v - a, 0.0, b - a);
      ZeroDiv(b - a);
    }
    if b <= v {
      DivMonotone(b - a, v - a, b - a);
      DivSelf(b - a);
    }
  }

  /** `Lerp` towards a larger end point never decreases as the weight grows. */
  lemma LerpMonotone(a: real, b: real, t1: real, t2: real)
    requires a <= b && t1 <= t2
    ensures Lerp(a, b, t1) <= Lerp(a, b, t2)
  {
    assert Lerp(a, b, t2) - Lerp(a, b, t1) == (b - a) * (t2 - t1);
  }

  /** A weight below one shrinks a positive number strictly. */
  lemma MulBelow(d: real, t: real)
    requires 0.0 < d && 0.0 <= t < 1.0
    ensures d * t < d
  {
    assert d - d * t == d * (1.0 - t);
  }

  /** Multiplying by a non-negative number keeps order. */
  lemma MulMonotone(x: real, a: real, b: real)
    requires 0.0 <= x && a <= b
    ensures x * a <= x * b
  {
    assert x * b - x * a == x * (b - a);
  }
}
