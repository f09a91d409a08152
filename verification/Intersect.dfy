/** The ray/box slab test of `intersect`, over the reals.

    Components of the direction below 1e-8 count as zero, so the test is exact for the
    direction with those components removed; for a direction without such components it
    is exact as it stands. */
module Intersect {
  import opened Wrappers

  datatype Vec = Vec(x: real, y: real, z: real) {
    function Along(axis: nat): real
      requires axis < 3
    {
      if axis == 0 then x else if axis == 1 then y else z
    }
  }

  const REACH := 6.0
  const EPSILON := 0.00000001

  function Abs(r: real): real {
    if r < 0.0 then -r else r
  }

  /** The direction the test sees. */
  function Snapped(d: Vec): Vec {
    Vec(Snap(d.x), Snap(d.y), Snap(d.z))
  }

  function Snap(r: real): real {
    if Abs(r) < EPSILON then 0.0 else r
  }

  predicate IsBox(min: Vec, max: Vec) {
    min.x <= max.x && min.y <= max.y && min.z <= max.z
  }

  /** After `t` the ray is between the two planes of an axis. */
  predicate Between(o: real, d: real, lo: real, hi: real, t: real) {
    lo <= o + t * d <= hi
  }

  predicate InSlab(origin: Vec, d: Vec, min: Vec, max: Vec, t: real, axis: nat)
    requires axis < 3
  {
    Between(origin.Along(axis), d.Along(axis), min.Along(axis), max.Along(axis), t)
  }

  /** After `t` the ray is between the planes of the first `n` axes. */
  predicate InSlabs(origin: Vec, d: Vec, min: Vec, max: Vec, t: real, n: nat)
    requires n <= 3
  {
    n == 0 || (InSlabs(origin, d, min, max, t, n - 1) && InSlab(origin, d, min, max, t, n - 1))
  }

  /** After `t` the ray is in the box. */
  predicate InBox(origin: Vec, d: Vec, min: Vec, max: Vec, t: real) {
    InSlabs(origin, d, min, max, t, 3)
  }

  lemma InBoxIsAllAxes(origin: Vec, d: Vec, min: Vec, max: Vec, t: real)
    ensures InBox(origin, d, min, max, t) <==>
              && min.x <= origin.x + t * d.x <= max.x
              && min.y <= origin.y + t * d.y <= max.y
              && min.z <= origin.z + t * d.z <= max.z
  {
    assert InSlabs(origin, d, min, max, t, 1) <==> InSlab(origin, d, min, max, t, 0);
    assert InSlabs(origin, d, min, max, t, 2) <==>
             InSlabs(origin, d, min, max, t, 1) && InSlab(origin, d, min, max, t, 1);
  }

  lemma {:induction false} FewerSlabs(origin: Vec, d: Vec, min: Vec, max: Vec, t: real, m: nat, n: nat)
    requires m <= n <= 3
    ensures InSlabs(origin, d, min, max, t, n) ==> InSlabs(origin, d, min, max, t, m)
  {
    if m < n {
      FewerSlabs(origin, d, min, max, t, m, n - 1);
    }
  }

  /** Within reach, [near, far] is the time the ray spends between the first `n` planes. */
  ghost predicate Narrowed(origin: Vec, d: Vec, min: Vec, max: Vec, n: nat, near: real, far: real)
    requires n <= 3
  {
    forall t :: 0.0 <= t <= REACH ==> (InSlabs(origin, d, min, max, t, n) <==> near <= t <= far)
  }

  lemma StartNarrowing(origin: Vec, d: Vec, min: Vec, max: Vec)
    ensures Narrowed(origin, d, min, max, 0, 0.0, REACH)
  {
  }

  lemma DoneNarrowing(origin: Vec, d: Vec, min: Vec, max: Vec, near: real, far: real)
    requires Narrowed(origin, d, min, max, 3, near, far) && 0.0 <= near <= far <= REACH
    ensures InBox(origin, d, min, max, near)
    ensures forall t :: 0.0 <= t < near ==> !InBox(origin, d, min, max, t)
  {
  }

  lemma NarrowFurtherAt(origin: Vec, d: Vec, min: Vec, max: Vec, n: nat, m: nat, near0: real, far0: real,
                        near: real, far: real, stop: bool, t: real)
    requires m == n + 1 <= 3 && near0 <= near && far <= far0 && 0.0 <= t <= REACH
    requires Narrowed(origin, d, min, max, n, near0, far0)
    requires near0 <= t <= far0 ==> (InSlab(origin, d, min, max, t, n) <==> !stop && near <= t <= far)
    ensures InSlabs(origin, d, min, max, t, m) <==> !stop && near <= t <= far
  {
    hide InSlab;
    assert InSlabs(origin, d, min, max, t, n) <==> near0 <= t <= far0;
  }

  lemma NarrowFurther(origin: Vec, d: Vec, min: Vec, max: Vec, n: nat, m: nat, near0: real, far0: real,
                      near: real, far: real, stop: bool)
    requires m == n + 1 <= 3 && near0 <= near && far <= far0
    requires Narrowed(origin, d, min, max, n, near0, far0)
    requires forall t :: near0 <= t <= far0 ==> (InSlab(origin, d, min, max, t, n) <==> !stop && near <= t <= far)
    ensures !stop ==> Narrowed(origin, d, min, max, m, near, far)
    ensures stop ==> forall t :: 0.0 <= t <= REACH ==> !InBox(origin, d, min, max, t)
  {
    hide InSlab, InSlabs;
    forall t | 0.0 <= t <= REACH
      ensures InSlabs(origin, d, min, max, t, m) <==> !stop && near <= t <= far
    {
      NarrowFurtherAt(origin, d, min, max, n, m, near0, far0, near, far, stop, t);
    }
    forall t | stop && 0.0 <= t <= REACH ensures !InBox(origin, d, min, max, t) {
      FewerSlabs(origin, d, min, max, t, m, 3);
    }
  }

  /** A hit, and the Bedrock number of the face entered. */
  datatype Hit = Hit(distance: real, face: nat)

  /** Faces 4 and 5 bound x, 0 and 1 bound y, 2 and 3 bound z; even ones face down. */
  function LowFace(axis: nat): nat
    requires axis < 3
  {
    if axis == 0 then 4 else if axis == 1 then 0 else 2
  }

  /** `hit` lies on the plane of its face, and the ray passes that plane inwards. */
  predicate EntersThrough(origin: Vec, d: Vec, min: Vec, max: Vec, hit: Hit, axis: nat)
    requires axis < 3
  {
    var at := origin.Along(axis) + hit.distance * d.Along(axis);
    || (hit.face == LowFace(axis) && d.Along(axis) > 0.0 && at == min.Along(axis))
    || (hit.face == LowFace(axis) + 1 && d.Along(axis) < 0.0 && at == max.Along(axis))
  }

  lemma ScaleLe(a: real, b: real, d: real)
    ensures d > 0.0 ==> (a <= b <==> a * d <= b * d)
    ensures d < 0.0 ==> (a <= b <==> b * d <= a * d)
  {
    Distribute(b, a, d);
    PositiveProduct(b - a, d);
    PositiveProduct(a - b, d);
  }

  lemma Distribute(b: real, a: real, d: real)
    ensures (b - a) * d == b * d - a * d
  {
  }

  lemma PositiveProduct(a: real, d: real)
    ensures a > 0.0 && d > 0.0 ==> a * d > 0.0
    ensures a > 0.0 && d < 0.0 ==> a * d < 0.0
  {
  }

  lemma Quotient(a: real, d: real)
    requires d != 0.0
    ensures a / d * d == a
  {
  }

  /** Dividing by the direction turns a slab into an interval of times. */
  lemma SlabIsInterval(o: real, d: real, lo: real, hi: real, t: real, a: real, b: real)
    requires d != 0.0 && lo <= hi && a == (lo - o) / d && b == (hi - o) / d
    ensures d > 0.0 ==> a <= b && (Between(o, d, lo, hi, t) <==> a <= t <= b)
    ensures d < 0.0 ==> b <= a && (Between(o, d, lo, hi, t) <==> b <= t <= a)
  {
    Quotient(lo - o, d);
    Quotient(hi - o, d);
    OrderAfterScaling(a, b, t, d, lo - o, hi - o, t * d);
  }

  lemma OrderAfterScaling(a: real, b: real, t: real, d: real, ad: real, bd: real, td: real)
    requires d != 0.0 && ad == a * d && bd == b * d && td == t * d && ad <= bd
    ensures d > 0.0 ==> a <= b && (ad <= td <= bd <==> a <= t <= b)
    ensures d < 0.0 ==> b <= a && (ad <= td <= bd <==> b <= t <= a)
  {
    ScaleLe(a, b, d);
    ScaleLe(b, a, d);
    ScaleLe(a, t, d);
    ScaleLe(t, a, d);
    ScaleLe(b, t, d);
    ScaleLe(t, b, d);
  }

  /** The interval of times between the two planes. */
  lemma SlabInterval(o: real, d: real, lo: real, hi: real, enter: real, exit: real)
    requires d != 0.0 && lo <= hi
    requires var a, b := (lo - o) / d, (hi - o) / d; enter == (if a < b then a else b) && exit == if a < b then b else a
    ensures forall t :: Between(o, d, lo, hi, t) <==> enter <= t <= exit
    ensures o + enter * d == if d > 0.0 then lo else hi
  {
    hide Between;
    var a, b := (lo - o) / d, (hi - o) / d;
    forall t ensures Between(o, d, lo, hi, t) <==> enter <= t <= exit {
      SlabIsInterval(o, d, lo, hi, t, a, b);
    }
    SlabIsInterval(o, d, lo, hi, 0.0, a, b);
    Quotient(lo - o, d);
    Quotient(hi - o, d);
  }

  lemma StillBetween(o: real, lo: real, hi: real)
    ensures forall t :: Between(o, 0.0, lo, hi, t) <==> lo <= o <= hi
  {
  }

  /** `intersect`: null exactly when the ray misses the box within reach, and otherwise
      the first time it is inside, with the face it comes through. */
  method IntersectRay(origin: Vec, direction: Vec, min: Vec, max: Vec) returns (r: Option<Hit>)
    ensures IsBox(min, max) ==>
              (r.None? <==> forall t :: 0.0 <= t <= REACH ==> !InBox(origin, Snapped(direction), min, max, t))
    ensures IsBox(min, max) && r.Some? ==>
              && 0.0 <= r.value.distance <= REACH
              && InBox(origin, Snapped(direction), min, max, r.value.distance)
              && forall t :: 0.0 <= t < r.value.distance ==> !InBox(origin, Snapped(direction), min, max, t)
    ensures IsBox(min, max) && r.Some? && r.value.distance > 0.0 ==>
              exists axis :: 0 <= axis < 3 && EntersThrough(origin, Snapped(direction), min, max, r.value, axis)
  {
    hide Snapped, InSlab, EntersThrough, Narrowed, InSlabs;
    assert IsBox(min, max) ==> Narrowed(origin, Snapped(direction), min, max, 0, 0.0, REACH) by {
      StartNarrowing(origin, Snapped(direction), min, max);
    }
    var near, far, face := 0.0, REACH, 0;
    ghost var d := Snapped(direction);
    for i: nat := 0 to 3
      invariant 0.0 <= near <= far <= REACH
      invariant IsBox(min, max) ==> Narrowed(origin, d, min, max, i, near, far)
      invariant IsBox(min, max) && near > 0.0 ==>
                  exists axis :: 0 <= axis < i && EntersThrough(origin, d, min, max, Hit(near, face), axis)
    {
      var stop: bool;
      ghost var near0, far0 := near, far;
      near, far, face, stop := Slab(origin, direction, min, max, i, near, far, face);
      if IsBox(min, max) {
        NarrowFurther(origin, d, min, max, i, i + 1, near0, far0, near, far, stop);
      }
      if stop {
        return None;
      }
    }
    if IsBox(min, max) {
      DoneNarrowing(origin, d, min, max, near, far);
    }
    return if far >= 0.0 then Some(Hit(near, face)) else None;
  }

  lemma OneAxis(origin: Vec, direction: Vec, min: Vec, max: Vec, axis: nat)
    requires axis < 3
    ensures IsBox(min, max) ==> min.Along(axis) <= max.Along(axis)
    ensures forall t :: InSlab(origin, Snapped(direction), min, max, t, axis) <==>
              Between(origin.Along(axis), Snap(direction.Along(axis)), min.Along(axis), max.Along(axis), t)
  {
    hide Between;
  }

  lemma EnteredHere(origin: Vec, direction: Vec, min: Vec, max: Vec, hit: Hit, axis: nat)
    requires axis < 3
    ensures (
      var d := direction.Along(axis);
      && Abs(d) >= EPSILON
      && hit.face == (if d > 0.0 then LowFace(axis) else LowFace(axis) + 1)
      && origin.Along(axis) + hit.distance * d == (if d > 0.0 then min.Along(axis) else max.Along(axis))
      ==> EntersThrough(origin, Snapped(direction), min, max, hit, axis)
    )
  {
  }

  /** One turn of the loop: `stop` stands for its `return null`. */
  method Slab(origin: Vec, direction: Vec, min: Vec, max: Vec, axis: nat, near0: real, far0: real, face0: nat)
      returns (near: real, far: real, face: nat, stop: bool)
    requires axis < 3 && 0.0 <= near0 <= far0 <= REACH
    ensures near0 <= near && far <= far0 && (stop || near <= far)
    ensures IsBox(min, max) ==> forall t :: near0 <= t <= far0 ==>
              (InSlab(origin, Snapped(direction), min, max, t, axis) <==> !stop && near <= t <= far)
    ensures near == near0 ==> face == face0
    ensures IsBox(min, max) && !stop && near > near0 ==>
              EntersThrough(origin, Snapped(direction), min, max, Hit(near, face), axis)
  {
    hide Between, InSlab, EntersThrough, Snapped, IsBox, Vec.Along;
    near, far, face := near0, far0, face0;
    var o, d, lo, hi := origin.Along(axis), direction.Along(axis), min.Along(axis), max.Along(axis);
    OneAxis(origin, direction, min, max, axis);
    if Abs(d) < EPSILON {
      stop := o < lo || o > hi;
      StillBetween(o, lo, hi);
      return;
    }
    var a, b := (lo - o) / d, (hi - o) / d;
    var enter, exit := if a < b then a else b, if a < b then b else a;
    if lo <= hi {
      SlabInterval(o, d, lo, hi, enter, exit);
    }
    if enter > near {
      near := enter;
      face := if d > 0.0 then LowFace(axis) else LowFace(axis) + 1;
      EnteredHere(origin, direction, min, max, Hit(near, face), axis);
    }
    if exit < far {
      far := exit;
    }
    stop := near > far;
  }

  // ---------------------------------------------------------------- tiny components

  predicate IsTiny(r: real) {
    r != 0.0 && Abs(r) < EPSILON
  }

  predicate HasTinyComponent(d: Vec) {
    IsTiny(d.x) || IsTiny(d.y) || IsTiny(d.z)
  }

  /** A ray in direction `d` is in the box at the end of its reach, and the test sees it miss. */
  ghost predicate TestMisses(origin: Vec, d: Vec, min: Vec, max: Vec) {
    && IsBox(min, max)
    && InBox(origin, d, min, max, REACH)
    && forall t :: 0.0 <= t <= REACH ==> !InBox(origin, Snapped(d), min, max, t)
  }

  function Lower(a: real, b: real): real {
    if a < b then a else b
  }

  function Upper(a: real, b: real): real {
    if a < b then b else a
  }

  /** The box between half the way and the whole way of the ray from the origin. */
  function FarHalf(d: Vec): (box: (Vec, Vec))
    ensures IsBox(box.0, box.1)
  {
    (Vec(Lower(3.0 * d.x, 6.0 * d.x), Lower(3.0 * d.y, 6.0 * d.y), Lower(3.0 * d.z, 6.0 * d.z)),
     Vec(Upper(3.0 * d.x, 6.0 * d.x), Upper(3.0 * d.y, 6.0 * d.y), Upper(3.0 * d.z, 6.0 * d.z)))
  }

  lemma TinyIsMissed(d: Vec)
    requires HasTinyComponent(d)
    ensures TestMisses(Vec(0.0, 0.0, 0.0), d, FarHalf(d).0, FarHalf(d).1)
  {
    hide InBox;
    var origin, box := Vec(0.0, 0.0, 0.0), FarHalf(d);
    InBoxIsAllAxes(origin, d, box.0, box.1, REACH);
    forall t | 0.0 <= t <= REACH ensures !InBox(origin, Snapped(d), box.0, box.1, t) {
      InBoxIsAllAxes(origin, Snapped(d), box.0, box.1, t);
    }
  }

  /** The test is exact for every ray and box of a direction exactly when the direction has no
      component that is tiny but not zero. */
  lemma InexactIffTiny(d: Vec)
    ensures (exists origin, min, max :: TestMisses(origin, d, min, max)) <==> HasTinyComponent(d)
    ensures !HasTinyComponent(d) ==> forall origin, min, max, t ::
              InBox(origin, Snapped(d), min, max, t) <==> InBox(origin, d, min, max, t)
  {
    hide InBox, IsBox;
    if HasTinyComponent(d) {
      TinyIsMissed(d);
    } else {
      assert Snapped(d) == d;
      assert 0.0 <= REACH <= REACH;
    }
  }
}
