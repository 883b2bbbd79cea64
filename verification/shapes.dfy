/** The procedural shape generators. Each returns a flat buffer of
    `3 * count` reals, point `i` occupying indices `3i`, `3i+1`, `3i+2`.
    Randomness is an explicit sequence of samples in [0,1), consumed in the
    order the generator draws them; transcendental functions are supplied
    as a `Trig` record. */
module Shapes {
  import opened Types

  /** Number of particles in every buffer. */
  const ParticleCount: nat := 30000

  /** Every sample lies in [0,1), as `Math.random()` promises. */
  predicate UnitSamples(rnd: seq<real>) {
    forall i :: 0 <= i < |rnd| ==> 0.0 <= rnd[i] < 1.0
  }

  /** A random offset of the given span centred on zero: `(r - 0.5) * span`. */
  function Centered(r: real, span: real): (d: real)
    requires span > 0.0
    ensures 0.0 <= r < 1.0 ==> -span / 2.0 <= d < span / 2.0
  {
    (r - 0.5) * span
  }

  /** The component of a point along axis 0 (x), 1 (y) or 2 (z). */
  function Component(p: Point3, axis: nat): real
    requires axis < 3
  {
    if axis == 0 then p.x else if axis == 1 then p.y else p.z
  }

  // ---- Noise (the Idle shape) ----

  /** Three samples per point, each scaled to the cube of side 15. */
  function NoisePoints(count: nat, rnd: seq<real>): (pts: seq<real>)
    requires |rnd| >= 3 * count
    ensures |pts| == 3 * count
    ensures UnitSamples(rnd) ==> forall k :: 0 <= k < |pts| ==> -7.5 <= pts[k] < 7.5
  {
    seq(3 * count, k requires 0 <= k < 3 * count => Centered(rnd[k], 15.0))
  }

  // ---- Sphere (the ThumbsUp shape) ----

  /** The transcendental functions the sphere and heart generators call. */
  datatype Trig = Trig(sin: real -> real, cos: real -> real, acos: real -> real,
                       sqrt: real -> real, pi: real)

  /** sin²a + cos²a = 1 for every a. */
  ghost predicate Pythagorean(t: Trig) {
    forall a :: t.sin(a) * t.sin(a) + t.cos(a) * t.cos(a) == 1.0
  }

  /** acos is a right inverse of cos on [-1, 1]. */
  ghost predicate CosInvertsAcos(t: Trig) {
    forall a :: -1.0 <= a <= 1.0 ==> t.cos(t.acos(a)) == a
  }

  /** The argument passed to acos for point `i`: always inside acos's domain. */
  function SphereAcosArg(i: nat, count: nat): (a: real)
    requires i < count
    ensures -1.0 <= a < 1.0
  {
    -1.0 + (2 * i) as real / count as real
  }

  /** The spiral ("Fibonacci") placement of point `i` on the sphere. */
  function SpherePoint(i: nat, count: nat, radius: real, t: Trig): Point3
    requires i < count
  {
    var phi := t.acos(SphereAcosArg(i, count));
    var theta := t.sqrt(count as real * t.pi) * phi;
    Point3(radius * t.cos(theta) * t.sin(phi),
           radius * t.sin(theta) * t.sin(phi),
           radius * t.cos(phi))
  }

  function SpherePoints(count: nat, radius: real, t: Trig): (pts: seq<real>)
    ensures |pts| == 3 * count
    ensures forall k :: 0 <= k < |pts| ==> pts[k] == Component(SpherePoint(k / 3, count, radius, t), k % 3)
  {
    seq(3 * count, k requires 0 <= k < 3 * count => Component(SpherePoint(k / 3, count, radius, t), k % 3))
  }

  /** The squared distance of `(x, y, z)` from the origin. */
  function SquaredNorm(x: real, y: real, z: real): real {
    x * x + y * y + z * z
  }

  /** Every sphere point is at distance `radius` from the origin, given only
      the Pythagorean identity of the supplied sin and cos. */
  lemma SphereOnRadius(count: nat, radius: real, t: Trig, i: nat)
    requires Pythagorean(t)
    requires i < count
    ensures var p := SpherePoint(i, count, radius, t);
            SquaredNorm(p.x, p.y, p.z) == radius * radius
  {
    var phi := t.acos(SphereAcosArg(i, count));
    var theta := t.sqrt(count as real * t.pi) * phi;
    var sp, cp, st, ct := t.sin(phi), t.cos(phi), t.sin(theta), t.cos(theta);
    assert sp * sp + cp * cp == 1.0;
    assert st * st + ct * ct == 1.0;
    var r2 := radius * radius;
    calc {
      (radius * ct * sp) * (radius * ct * sp) + (radius * st * sp) * (radius * st * sp) + (radius * cp) * (radius * cp);
      r2 * (sp * sp) * (ct * ct + st * st) + r2 * (cp * cp);
      r2 * (sp * sp) + r2 * (cp * cp);
      r2 * (sp * sp + cp * cp);
      r2;
    }
  }

  /** Point `i` of the sphere sits at height `radius * (-1 + 2i/count)`. */
  lemma SphereHeight(count: nat, radius: real, t: Trig, i: nat)
    requires CosInvertsAcos(t)
    requires i < count
    ensures SpherePoint(i, count, radius, t).z == radius * SphereAcosArg(i, count)
  {
    assert t.cos(t.acos(SphereAcosArg(i, count))) == SphereAcosArg(i, count);
  }

  /** The heights of the sphere points are evenly spaced, so they strictly
      increase with the index for a positive radius. */
  lemma SphereHeightsEvenlySpaced(count: nat, radius: real, t: Trig, i: nat, j: nat)
    requires CosInvertsAcos(t)
    requires i < j < count
    ensures radius > 0.0 ==> SpherePoint(i, count, radius, t).z < SpherePoint(j, count, radius, t).z
  {
    var ai, aj := SphereAcosArg(i, count), SphereAcosArg(j, count);
    SphereHeight(count, radius, t, i);
    SphereHeight(count, radius, t, j);
    assert (2 * i) as real < (2 * j) as real;
    assert ai < aj by {
      assert (2 * i) as real / count as real < (2 * j) as real / count as real;
    }
    if radius > 0.0 {
      assert radius * ai < radius * aj;
    }
  }

  /** `SphereOnRadius`, stated on the generated buffer. */
  lemma SphereBufferOnRadius(count: nat, radius: real, t: Trig, i: nat)
    requires Pythagorean(t) && i < count
    ensures var pts := SpherePoints(count, radius, t);
            SquaredNorm(pts[3 * i], pts[3 * i + 1], pts[3 * i + 2]) == radius * radius
  {
    var pts := SpherePoints(count, radius, t);
    var p := SpherePoint(i, count, radius, t);
    SphereOnRadius(count, radius, t, i);
    assert (3 * i) / 3 == i && (3 * i + 1) / 3 == i && (3 * i + 2) / 3 == i;
    assert pts[3 * i] == p.x && pts[3 * i + 1] == p.y && pts[3 * i + 2] == p.z;
    assert SquaredNorm(p.x, p.y, p.z) == radius * radius;
  }

  // ---- Heart (the Victory shape) ----

  const HeartScale: real := 0.25

  /** The scaled heart outline's x for `s = sin t`: `16 sin³t * 0.25`. */
  function HeartX(s: real): (x: real)
    ensures -1.0 <= s <= 1.0 ==> -4.0 <= x <= 4.0
  {
    assert -1.0 <= s <= 1.0 ==> -1.0 <= s * s * s <= 1.0 by {
      if -1.0 <= s <= 1.0 {
        CubeBound(s);
      }
    }
    16.0 * (s * s * s) * HeartScale
  }

  /** The scaled heart outline's y from `cos t`, `cos 2t`, `cos 3t`, `cos 4t`. */
  function HeartY(c1: real, c2: real, c3: real, c4: real): (y: real)
    ensures -1.0 <= c1 <= 1.0 && -1.0 <= c2 <= 1.0 && -1.0 <= c3 <= 1.0 && -1.0 <= c4 <= 1.0 ==>
              -5.25 <= y <= 5.25
  {
    (13.0 * c1 - 5.0 * c2 - 2.0 * c3 - c4) * HeartScale
  }

  /** The curve parameter drawn for a heart point: `r * 2π`. */
  function HeartAngle(r: real, t: Trig): real {
    r * t.pi * 2.0
  }

  /** Two samples per point: the curve parameter `t = r * 2π` and the depth. */
  function HeartPoint(r0: real, r1: real, t: Trig): Point3 {
    var u := HeartAngle(r0, t);
    Point3(HeartX(t.sin(u)),
           HeartY(t.cos(u), t.cos(2.0 * u), t.cos(3.0 * u), t.cos(4.0 * u)),
           HeartDepth(r1))
  }

  /** The depth `(r - 0.5) * 4 * 0.25` of a heart point. */
  function HeartDepth(r: real): (z: real)
    ensures 0.0 <= r < 1.0 ==> -0.5 <= z < 0.5
  {
    (r - 0.5) * 4.0 * HeartScale
  }

  function HeartPoints(count: nat, rnd: seq<real>, t: Trig): (pts: seq<real>)
    requires |rnd| >= 2 * count
    ensures |pts| == 3 * count
    ensures UnitSamples(rnd) ==> forall i :: 0 <= i < count ==> -0.5 <= pts[3 * i + 2] < 0.5
    ensures forall k :: 0 <= k < |pts| ==>
              pts[k] == Component(HeartPoint(rnd[2 * (k / 3)], rnd[2 * (k / 3) + 1], t), k % 3)
  {
    seq(3 * count, k requires 0 <= k < 3 * count =>
      Component(HeartPoint(rnd[2 * (k / 3)], rnd[2 * (k / 3) + 1], t), k % 3))
  }

  lemma UnitCircleBound(s: real, c: real)
    requires s * s + c * c == 1.0
    ensures -1.0 <= s <= 1.0
  {
    assert c * c >= 0.0;
  }

  lemma CubeBound(s: real)
    requires -1.0 <= s <= 1.0
    ensures -1.0 <= s * s * s <= 1.0
  {
    var q := s * s;
    assert 0.0 <= q <= 1.0 by {
      if s >= 0.0 { assert s * s <= 1.0 * s; } else { assert s * s <= -1.0 * s; }
    }
    if s >= 0.0 {
      assert q * s <= q * 1.0;
    } else {
      assert q * s >= q * -1.0;
    }
  }

  /** sin and cos never leave [-1, 1]. */
  ghost predicate UnitRange(t: Trig) {
    forall a :: -1.0 <= t.sin(a) <= 1.0 && -1.0 <= t.cos(a) <= 1.0
  }

  lemma PythagoreanUnitRange(t: Trig)
    requires Pythagorean(t)
    ensures UnitRange(t)
  {
    forall a
      ensures -1.0 <= t.sin(a) <= 1.0 && -1.0 <= t.cos(a) <= 1.0
    {
      assert t.sin(a) * t.sin(a) + t.cos(a) * t.cos(a) == 1.0;
      UnitCircleBound(t.sin(a), t.cos(a));
      UnitCircleBound(t.cos(a), t.sin(a));
    }
  }

  /** sin and cos at the four multiples of `u` the outline evaluates lie in [-1, 1]. */
  predicate OutlineTrigBounded(t: Trig, u: real) {
    && -1.0 <= t.sin(u) <= 1.0
    && -1.0 <= t.cos(u) <= 1.0 && -1.0 <= t.cos(2.0 * u) <= 1.0
    && -1.0 <= t.cos(3.0 * u) <= 1.0 && -1.0 <= t.cos(4.0 * u) <= 1.0
  }

  lemma OutlineInBox(t: Trig, u: real)
    requires OutlineTrigBounded(t, u)
    ensures -4.0 <= HeartX(t.sin(u)) <= 4.0
    ensures -5.25 <= HeartY(t.cos(u), t.cos(2.0 * u), t.cos(3.0 * u), t.cos(4.0 * u)) <= 5.25
  {
  }

  /** With sin and cos inside [-1, 1] (as for any genuine sin/cos pair, by
      `PythagoreanUnitRange`) the heart outline stays inside the box
      |x| <= 16 * 0.25, |y| <= (13+5+2+1) * 0.25. */
  lemma HeartInsideBox(r0: real, r1: real, t: Trig)
    requires UnitRange(t)
    ensures var p := HeartPoint(r0, r1, t);
            -4.0 <= p.x <= 4.0 && -5.25 <= p.y <= 5.25
  {
    var u := HeartAngle(r0, t);
    assert OutlineTrigBounded(t, u);
    OutlineInBox(t, u);
  }

  /** The box of `HeartInsideBox`, stated on the generated buffer. */
  lemma HeartBufferInsideBox(count: nat, rnd: seq<real>, t: Trig)
    requires |rnd| >= 2 * count && UnitRange(t)
    ensures var pts := HeartPoints(count, rnd, t);
            forall i :: 0 <= i < count ==>
              -4.0 <= pts[3 * i] <= 4.0 && -5.25 <= pts[3 * i + 1] <= 5.25
  {
    var pts := HeartPoints(count, rnd, t);
    forall i | 0 <= i < count
      ensures -4.0 <= pts[3 * i] <= 4.0 && -5.25 <= pts[3 * i + 1] <= 5.25
    {
      HeartInsideBox(rnd[2 * i], rnd[2 * i + 1], t);
      assert (3 * i) / 3 == i && (3 * i + 1) / 3 == i;
    }
  }

  // ---- Fist (a small cluster around a moving centre) ----

  /** Three samples per point, each a jitter of span 0.5 around the centre. */
  function FistPoints(count: nat, center: Point3, rnd: seq<real>): (pts: seq<real>)
    requires |rnd| >= 3 * count
    ensures |pts| == 3 * count
    ensures UnitSamples(rnd) ==> forall k :: 0 <= k < |pts| ==>
              Component(center, k % 3) - 0.25 <= pts[k] < Component(center, k % 3) + 0.25
  {
    seq(3 * count, k requires 0 <= k < 3 * count => Component(center, k % 3) + Centered(rnd[k], 0.5))
  }
}
