/**
 * Vectors, axis-aligned boxes and the per-axis overlap test of src/game.js.
 * Scalars are mathematical reals: every operation here is built from
 * `+ - * min max <`, so nothing is lost to rounding in the model.
 */
module Geometry {

  datatype Vec3 = Vec3(x: real, y: real, z: real)

  const Zero := Vec3(0.0, 0.0, 0.0)

  function Add(a: Vec3, b: Vec3): Vec3 { Vec3(a.x + b.x, a.y + b.y, a.z + b.z) }

  function Sub(a: Vec3, b: Vec3): Vec3 { Vec3(a.x - b.x, a.y - b.y, a.z - b.z) }

  function Scale(a: Vec3, s: real): Vec3 { Vec3(a.x * s, a.y * s, a.z * s) }

  function LengthSq(a: Vec3): real { a.x * a.x + a.y * a.y + a.z * a.z }

  /** Squared Euclidean distance; the game compares `distanceTo` against radii. */
  function DistSq(a: Vec3, b: Vec3): real { LengthSq(Sub(a, b)) }

  /** `Vector3.lerp(target, f)`: a + (target - a) * f. */
  function Lerp(a: Vec3, target: Vec3, f: real): Vec3 { Add(a, Scale(Sub(target, a), f)) }

  function MinReal(a: real, b: real): real { if a <= b then a else b }

  function MaxReal(a: real, b: real): real { if a >= b then a else b }

  /** `clamp(x, a, b) = Math.max(a, Math.min(b, x))`. */
  function Clamp(x: real, lo: real, hi: real): (r: real)
    ensures lo <= hi ==> lo <= r <= hi
    ensures lo <= x <= hi ==> r == x
    ensures x < lo ==> r == lo
    ensures lo <= hi && hi < x ==> r == hi
    ensures hi < lo ==> r == lo
  {
    MaxReal(lo, MinReal(hi, x))
  }

  datatype Axis = X | Y | Z

  function Get(v: Vec3, a: Axis): real
  {
    match a
    case X => v.x
    case Y => v.y
    case Z => v.z
  }

  /** `v` with its component on axis `a` replaced by `r`. */
  function With(v: Vec3, a: Axis, r: real): (w: Vec3)
    ensures Get(w, a) == r
    ensures forall b :: b != a ==> Get(w, b) == Get(v, b)
  {
    match a
    case X => v.(x := r)
    case Y => v.(y := r)
    case Z => v.(z := r)
  }

  /** The `AABB` class: a centre and a half extent per axis. */
  datatype Box = Box(c: Vec3, h: Vec3) {
    function Min(): Vec3 { Sub(c, h) }
    function Max(): Vec3 { Add(c, h) }
  }

  /** The record returned by `aabbOverlap`: one depth per axis and the hit flag. */
  datatype Overlap = Overlap(ox: real, oy: real, oz: real, hit: bool)

  function Depth(o: Overlap, a: Axis): real
  {
    match a
    case X => o.ox
    case Y => o.oy
    case Z => o.oz
  }

  /** Overlap length of the intervals [lo1, hi1] and [lo2, hi2]. */
  function Span(lo1: real, hi1: real, lo2: real, hi2: real): (d: real)
    ensures d <= hi1 - lo1 && d <= hi2 - lo2
    ensures d > 0.0 <==> lo1 < hi2 && lo2 < hi1 && lo1 < hi1 && lo2 < hi2
  {
    MinReal(hi1, hi2) - MaxReal(lo1, lo2)
  }

  /** The two non-empty open intervals (lo1, hi1) and (lo2, hi2) share a point. */
  predicate Meet(lo1: real, hi1: real, lo2: real, hi2: real)
  {
    lo1 < hi2 && lo2 < hi1 && lo1 < hi1 && lo2 < hi2
  }

  function AabbOverlap(aMin: Vec3, aMax: Vec3, bMin: Vec3, bMax: Vec3): (o: Overlap)
    ensures o.hit <==> o.ox > 0.0 && o.oy > 0.0 && o.oz > 0.0
    ensures o.hit <==> forall a :: Meet(Get(aMin, a), Get(aMax, a), Get(bMin, a), Get(bMax, a))
    ensures forall a :: Depth(o, a) <= Get(aMax, a) - Get(aMin, a) && Depth(o, a) <= Get(bMax, a) - Get(bMin, a)
  {
    var ox := Span(aMin.x, aMax.x, bMin.x, bMax.x);
    var oy := Span(aMin.y, aMax.y, bMin.y, bMax.y);
    var oz := Span(aMin.z, aMax.z, bMin.z, bMax.z);
    MeetOnEveryAxis(aMin, aMax, bMin, bMax);
    Overlap(ox, oy, oz, ox > 0.0 && oy > 0.0 && oz > 0.0)
  }

  /** The three per-axis tests together are the test for every axis. */
  lemma MeetOnEveryAxis(aMin: Vec3, aMax: Vec3, bMin: Vec3, bMax: Vec3)
    ensures (forall a :: Meet(Get(aMin, a), Get(aMax, a), Get(bMin, a), Get(bMax, a)))
        <==> Meet(aMin.x, aMax.x, bMin.x, bMax.x) && Meet(aMin.y, aMax.y, bMin.y, bMax.y) && Meet(aMin.z, aMax.z, bMin.z, bMax.z)
  {
    if Meet(aMin.x, aMax.x, bMin.x, bMax.x) && Meet(aMin.y, aMax.y, bMin.y, bMax.y) && Meet(aMin.z, aMax.z, bMin.z, bMax.z) {
      forall a ensures Meet(Get(aMin, a), Get(aMax, a), Get(bMin, a), Get(bMax, a)) {
        match a
        case X =>
        case Y =>
        case Z =>
      }
    } else {
      assert !Meet(Get(aMin, X), Get(aMax, X), Get(bMin, X), Get(bMax, X))
          || !Meet(Get(aMin, Y), Get(aMax, Y), Get(bMin, Y), Get(bMax, Y))
          || !Meet(Get(aMin, Z), Get(aMax, Z), Get(bMin, Z), Get(bMax, Z));
    }
  }

  /** Overlap of two boxes, as the game calls it: `aabbOverlap(a.min, a.max, b.min, b.max)`. */
  function BoxOverlap(a: Box, b: Box): Overlap
  {
    AabbOverlap(a.Min(), a.Max(), b.Min(), b.Max())
  }

  /** The hit flag, and every depth, do not depend on the order of the two boxes. */
  lemma OverlapSymmetric(a: Box, b: Box)
    ensures BoxOverlap(a, b) == BoxOverlap(b, a)
  {
  }

  /**
   * The separating axis chosen by the resolver's if-chain: x when its depth is
   * no larger than both others, else z when no larger than both others, else y.
   */
  function ChooseAxis(ox: real, oy: real, oz: real): (a: Axis)
    ensures a == X <==> ox <= oy && ox <= oz
    ensures a == Z <==> oz < ox && oz <= oy
    ensures a == Y <==> oy < ox && oy < oz
    ensures Depth(Overlap(ox, oy, oz, true), a) == MinReal(ox, MinReal(oy, oz))
  {
    if ox <= oy && ox <= oz then X
    else if oz <= ox && oz <= oy then Z
    else Y
  }
}
