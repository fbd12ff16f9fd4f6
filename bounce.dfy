/** The horizontal drift of a Rectangle or Bunny: constant speed along x,
    reflected when x is past ±60, a fixed spin about z, and the random
    starting placement. */
module Bounce {

  /** The part of a sprite's transform that `update` reads and writes, and
      the entity's own `delta` (its signed x speed). */
  datatype Motion = Motion(x: real, y: real, rotationZ: real, delta: real)

  /** The reflection threshold on x. */
  const Bound: real := 60.0
  /** The starting speed `delta = 0.20`. */
  const Speed: real := 0.2
  /** The spin added to `rotation.z` on every update. */
  const Spin: real := 0.01

  /** One `update()`: two independent flip tests on the pre-move x, then the
      spin, then the move by the (possibly flipped) delta. */
  function BounceStep(m: Motion): (r: Motion)
    // the two strict tests cannot both fire, so delta flips at most once
    ensures r.delta == (if m.x > Bound || m.x < -Bound then -m.delta else m.delta)
    ensures r.delta == m.delta || r.delta == -m.delta
    ensures r.x == m.x + r.delta
    ensures r.y == m.y && r.rotationZ == m.rotationZ + Spin
  {
    var d1 := if m.x > Bound then m.delta * -1.0 else m.delta;
    var d2 := if m.x < -Bound then d1 * -1.0 else d1;
    Motion(m.x + d2, m.y, m.rotationZ + Spin, d2)
  }

  /** `k` successive updates. */
  function Bounces(m: Motion, k: nat): Motion
  {
    if k == 0 then m else BounceStep(Bounces(m, k - 1))
  }

  /** The truncating remainder of JavaScript's `%` on numbers: the result has
      the sign of the dividend. */
  function JsRem(a: real, m: real): (r: real)
    requires m > 0.0
    // a - r is a whole multiple of m ...
    ensures ((a - r) / m).Floor as real == (a - r) / m
    // ... and r lies on the dividend's side of zero, less than m from it
    ensures a >= 0.0 ==> 0.0 <= r < m
    ensures a < 0.0 ==> -m < r <= 0.0
  {
    var q := a / m;
    var t := if q >= 0.0 then q.Floor else -((-q).Floor);
    TruncRemBounds(a, m, t as real);
    WholeMultiple(a, m, t);
    a - m * t as real
  }

  /** Taking `t` whole `m`s off `a` leaves `a` minus a whole multiple of `m`. */
  lemma WholeMultiple(a: real, m: real, t: int)
    requires m > 0.0
    ensures ((a - (a - m * t as real)) / m).Floor as real == (a - (a - m * t as real)) / m
  {
    var x := a - (a - m * t as real);
    assert x == m * t as real;
    assert x / m == t as real;
  }

  /** The contract of `JsRem` pins the remainder down: any `r` that differs
      from `a` by a whole multiple of `m` and lies on the dividend's side of
      zero, less than `m` from it, is `JsRem(a, m)`. */
  lemma JsRemUnique(a: real, m: real, r: real)
    requires m > 0.0
    requires ((a - r) / m).Floor as real == (a - r) / m
    requires a >= 0.0 ==> 0.0 <= r < m
    requires a < 0.0 ==> -m < r <= 0.0
    ensures r == JsRem(a, m)
  {
    var r0 := JsRem(a, m);
    var q := ((a - r) / m).Floor;
    var q0 := ((a - r0) / m).Floor;
    MulBack(a - r, m);
    MulBack(a - r0, m);
    assert r - r0 == m * (q0 - q) as real;
    NoSmallMultiple(m, r - r0, q0 - q);
  }

  /** The only whole multiple of `m` strictly between `-m` and `m` is zero. */
  lemma NoSmallMultiple(m: real, x: real, d: int)
    requires m > 0.0 && -m < x < m && x == m * d as real
    ensures d == 0
  {
    if d >= 1 {
      AtLeastOneWhole(m, d as real);
    }
  }

  lemma MulBack(x: real, m: real)
    requires m > 0.0
    ensures m * (x / m) == x
  {
  }

  lemma AtLeastOneWhole(m: real, y: real)
    requires m > 0.0 && 1.0 <= y
    ensures m <= m * y
  {
    assert m * y - m == m * (y - 1.0);
  }

  /** JavaScript's `%` keeps the dividend's sign: -7 % 5 is -2, where a
      Euclidean remainder would give 3. */
  lemma JsRemExamples()
    ensures JsRem(-7.0, 5.0) == -2.0
    ensures JsRem(7.0, 5.0) == 2.0
    ensures JsRem(4.5, 5.0) == 4.5
  {
    JsRemUnique(-7.0, 5.0, -2.0);
    JsRemUnique(7.0, 5.0, 2.0);
    JsRemUnique(4.5, 5.0, 4.5);
  }

  /** Subtracting `m` times the truncated quotient leaves less than one `m`,
      on the side of zero the dividend is on. */
  lemma TruncRemBounds(a: real, m: real, t: real)
    requires m > 0.0
    requires a / m >= 0.0 ==> t <= a / m < t + 1.0
    requires a / m < 0.0 ==> t - 1.0 < a / m <= t
    ensures a >= 0.0 ==> 0.0 <= a - m * t < m
    ensures a < 0.0 ==> -m < a - m * t <= 0.0
  {
    if a / m >= 0.0 {
      QuotientAtLeast(a, m, 0.0);
      QuotientAtLeast(a, m, t);
      QuotientBelow(a, m, t + 1.0);
    } else {
      QuotientBelow(a, m, 0.0);
      QuotientAbove(a, m, t - 1.0);
      QuotientAtMost(a, m, t);
    }
  }

  /** `a / m < y` scales to `a < m * y`. */
  lemma QuotientBelow(a: real, m: real, y: real)
    requires m > 0.0 && a / m < y
    ensures a < m * y
  {
    var q := a / m;
    var d := y - q;
    assert m * d > 0.0;
    assert m * y == m * q + m * d;
    assert m * q == a;
  }

  /** `a / m > y` scales to `a > m * y`. */
  lemma QuotientAbove(a: real, m: real, y: real)
    requires m > 0.0 && a / m > y
    ensures a > m * y
  {
    var q := a / m;
    var d := q - y;
    assert m * d > 0.0;
    assert m * q == m * y + m * d;
    assert m * q == a;
  }

  /** `a / m >= y` scales to `a >= m * y`. */
  lemma QuotientAtLeast(a: real, m: real, y: real)
    requires m > 0.0 && a / m >= y
    ensures a >= m * y
  {
    var q := a / m;
    var d := q - y;
    assert m * d >= 0.0;
    assert m * q == m * y + m * d;
    assert m * q == a;
  }

  /** `a / m <= y` scales to `a <= m * y`. */
  lemma QuotientAtMost(a: real, m: real, y: real)
    requires m > 0.0 && a / m <= y
    ensures a <= m * y
  {
    var q := a / m;
    var d := y - q;
    assert m * d >= 0.0;
    assert m * y == m * q + m * d;
    assert m * q == a;
  }

  /** The placement done by both constructors: `y` from the first random
      draw and `x` from the second, each `random * 1000 % width - width/2`,
      with rotation 0 and the initial `delta`. */
  function Placement(randomY: real, randomX: real): (m: Motion)
    requires 0.0 <= randomY && 0.0 <= randomX
    ensures -30.0 <= m.y < 30.0 && -Bound <= m.x < Bound
    ensures m.delta == Speed && m.rotationZ == 0.0
  {
    Motion(JsRem(randomX * 1000.0, 120.0) - 60.0, JsRem(randomY * 1000.0, 60.0) - 30.0, 0.0, Speed)
  }

  /** The bounds invariant: x stays within one step of the bounds, the speed
      keeps its magnitude, and past a bound the entity is still heading out
      (so the next update turns it round). */
  predicate InBounds(m: Motion)
  {
    && (m.delta == Speed || m.delta == -Speed)
    && -Bound - Speed <= m.x <= Bound + Speed
    && (m.x > Bound ==> m.delta > 0.0)
    && (m.x < -Bound ==> m.delta < 0.0)
  }

  /** Every placement satisfies the bounds invariant. */
  lemma PlacementInBounds(randomY: real, randomX: real)
    requires 0.0 <= randomY && 0.0 <= randomX
    ensures InBounds(Placement(randomY, randomX))
  {
  }

  /** One update keeps the bounds invariant. */
  lemma BounceStepKeepsBounds(m: Motion)
    requires InBounds(m)
    ensures InBounds(BounceStep(m))
  {
  }

  /** Any number of updates keeps the bounds invariant, so a placed entity
      never leaves [-60.2, 60.2]. */
  lemma {:induction false} BouncesKeepBounds(m: Motion, k: nat)
    requires InBounds(m)
    ensures InBounds(Bounces(m, k))
    ensures -60.2 <= Bounces(m, k).x <= 60.2
  {
    if k > 0 {
      BouncesKeepBounds(m, k - 1);
      BounceStepKeepsBounds(Bounces(m, k - 1));
    }
  }

  /** Updates change neither y nor the speed's magnitude and turn the sprite
      by one spin each. */
  lemma {:induction false} BouncesKeepLane(m: Motion, k: nat)
    ensures Bounces(m, k).y == m.y
    ensures Bounces(m, k).delta == m.delta || Bounces(m, k).delta == -m.delta
    ensures Bounces(m, k).rotationZ == m.rotationZ + k as real * Spin
  {
    if k > 0 {
      BouncesKeepLane(m, k - 1);
    }
  }

  /** Two sample reflections: 61 heading out at 0.2 comes back to 60.8, and
      -61 heading out at -0.2 comes back to -60.8. */
  lemma ReflectionExamples(y: real, rotationZ: real)
    ensures BounceStep(Motion(61.0, y, rotationZ, 0.2)) == Motion(60.8, y, rotationZ + Spin, -0.2)
    ensures BounceStep(Motion(-61.0, y, rotationZ, -0.2)) == Motion(-60.8, y, rotationZ + Spin, 0.2)
  {
  }
}
