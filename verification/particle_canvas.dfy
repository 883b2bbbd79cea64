/** The morph engine behind the particle canvas. It keeps a base buffer, a
    target buffer, a progress scalar and the gesture it last retargeted to,
    and draws each particle at `mix(base, target, progress)`. On every hand
    update it may retarget: it freezes the currently displayed positions into
    the base, installs the new target and restarts progress at 0. */
module ParticleCanvas {
  import opened Types
  import opened Outcome
  import opened Shapes
  import opened TextShape

  /** Length of every position buffer: three reals per particle. */
  const BufferLength: nat := 3 * ParticleCount

  /** The precomputed buffer of each static shape (the fist entry is the
      cluster at the origin; live fists are generated per update). */
  datatype ShapeTable = ShapeTable(noise: seq<real>, sphere: seq<real>, heart: seq<real>,
                                   text: seq<real>, fist: seq<real>)

  /** The fixed gesture to shape mapping. */
  function ShapeFor(table: ShapeTable, g: Gesture): seq<real> {
    match g
    case Idle => table.noise
    case ThumbsUp => table.sphere
    case Victory => table.heart
    case ILoveYou => table.text
    case Fist => table.fist
  }

  predicate WellSized(table: ShapeTable) {
    forall g :: |ShapeFor(table, g)| == BufferLength
  }

  /** Everything the shape table is built from: random samples for each
      generator, the transcendental functions, and the rasterised caption
      (`None` when the canvas has no 2D context). */
  datatype ShapeSources = ShapeSources(
    noiseRnd: seq<real>, trig: Trig, heartRnd: seq<real>,
    caption: Option<seq<Byte>>, textRnd: seq<real>, fistRnd: seq<real>)

  predicate SourcesSuffice(src: ShapeSources) {
    && |src.noiseRnd| >= 3 * ParticleCount
    && |src.heartRnd| >= 2 * ParticleCount
    && |src.textRnd| >= 3 * ParticleCount
    && |src.fistRnd| >= 3 * ParticleCount
    && (src.caption.Some? ==> |src.caption.value| == BitmapSize)
  }

  /** Building the table: the sphere has radius 4, the fist sits at the
      origin, and the text generator is the only one that can fault. */
  function BuildShapes(src: ShapeSources): (res: Result<ShapeTable, TextFault>)
    requires SourcesSuffice(src)
    ensures res.Failure? <==> src.caption.Some? && |LitPositions(src.caption.value)| == 0
    ensures res.Success? ==> WellSized(res.value)
    ensures res.Success? ==>
              && ShapeFor(res.value, Idle) == NoisePoints(ParticleCount, src.noiseRnd)
              && ShapeFor(res.value, ThumbsUp) == SpherePoints(ParticleCount, 4.0, src.trig)
              && ShapeFor(res.value, Victory) == HeartPoints(ParticleCount, src.heartRnd, src.trig)
              && ShapeFor(res.value, ILoveYou) == TextPoints(ParticleCount, src.caption, src.textRnd).value
              && ShapeFor(res.value, Fist) == FistPoints(ParticleCount, Point3(0.0, 0.0, 0.0), src.fistRnd)
  {
    match TextPoints(ParticleCount, src.caption, src.textRnd)
    case Failure(e) => Failure(e)
    case Success(text) =>
      Success(ShapeTable(
        NoisePoints(ParticleCount, src.noiseRnd),
        SpherePoints(ParticleCount, 4.0, src.trig),
        HeartPoints(ParticleCount, src.heartRnd, src.trig),
        text,
        FistPoints(ParticleCount, Point3(0.0, 0.0, 0.0), src.fistRnd)))
  }

  // With genuine samples and trigonometry every built shape has its
  // generator's geometry; one lemma per shape.

  /** The built noise fills the cube of side 15 centred on the origin. */
  lemma BuiltNoiseInCube(src: ShapeSources)
    requires SourcesSuffice(src) && BuildShapes(src).Success?
    requires UnitSamples(src.noiseRnd)
    ensures var table := BuildShapes(src).value;
            forall k :: 0 <= k < BufferLength ==> -7.5 <= table.noise[k] < 7.5
  {
    var table := BuildShapes(src).value;
    assert table.noise == NoisePoints(ParticleCount, src.noiseRnd) == ShapeFor(table, Idle);
  }

  /** Every point of the built sphere lies at radius 4. */
  lemma BuiltSphereOnRadius(src: ShapeSources)
    requires SourcesSuffice(src) && BuildShapes(src).Success?
    requires Pythagorean(src.trig)
    ensures var table := BuildShapes(src).value;
            forall i :: 0 <= i < ParticleCount ==>
              SquaredNorm(table.sphere[3 * i], table.sphere[3 * i + 1], table.sphere[3 * i + 2]) == 16.0
  {
    var table := BuildShapes(src).value;
    assert table.sphere == SpherePoints(ParticleCount, 4.0, src.trig) == ShapeFor(table, ThumbsUp);
    forall i | 0 <= i < ParticleCount
      ensures SquaredNorm(table.sphere[3 * i], table.sphere[3 * i + 1], table.sphere[3 * i + 2]) == 16.0
    {
      SphereBufferOnRadius(ParticleCount, 4.0, src.trig, i);
    }
  }

  /** The built heart stays in its outline box, with depth in [-0.5, 0.5). */
  lemma BuiltHeartInBox(src: ShapeSources)
    requires SourcesSuffice(src) && BuildShapes(src).Success?
    requires UnitSamples(src.heartRnd) && Pythagorean(src.trig)
    ensures var table := BuildShapes(src).value;
            forall i :: 0 <= i < ParticleCount ==>
              && -4.0 <= table.heart[3 * i] <= 4.0
              && -5.25 <= table.heart[3 * i + 1] <= 5.25
              && -0.5 <= table.heart[3 * i + 2] < 0.5
  {
    var table := BuildShapes(src).value;
    assert table.heart == HeartPoints(ParticleCount, src.heartRnd, src.trig) == ShapeFor(table, Victory);
    PythagoreanUnitRange(src.trig);
    HeartBufferInsideBox(ParticleCount, src.heartRnd, src.trig);
  }

  /** The built fist cluster sits within 0.25 of the origin. */
  lemma BuiltFistAtOrigin(src: ShapeSources)
    requires SourcesSuffice(src) && BuildShapes(src).Success?
    requires UnitSamples(src.fistRnd)
    ensures var table := BuildShapes(src).value;
            forall k :: 0 <= k < BufferLength ==> -0.25 <= table.fist[k] < 0.25
  {
    var table := BuildShapes(src).value;
    assert table.fist == FistPoints(ParticleCount, Point3(0.0, 0.0, 0.0), src.fistRnd) == ShapeFor(table, Fist);
    forall k | 0 <= k < BufferLength
      ensures -0.25 <= table.fist[k] < 0.25
    {
      assert Component(Point3(0.0, 0.0, 0.0), k % 3) == 0.0;
    }
  }

  /** `mix(a, b, t)`, which is also `lerp(a, b, t)`: at 0 the start, at 1
      the end. */
  function Lerp(a: real, b: real, t: real): (r: real)
    ensures t == 0.0 ==> r == a
    ensures t == 1.0 ==> r == b
  {
    (1.0 - t) * a + t * b
  }

  /** For a progress in [0,1] a particle is drawn on the segment between
      its base and target positions, never outside it. */
  lemma LerpWithin(a: real, b: real, t: real)
    requires 0.0 <= t <= 1.0
    ensures Between(Lerp(a, b, t), a, b)
  {
    if b <= a {
      LerpDownward(a, b, t);
    }
    if a <= b {
      LerpDownward(b, a, 1.0 - t);
      LerpReversed(a, b, t);
    }
  }

  /** Going from `a` to `b` by `t` is going from `b` to `a` by `1 - t`. */
  lemma LerpReversed(a: real, b: real, t: real)
    ensures Lerp(a, b, t) == Lerp(b, a, 1.0 - t)
  {
  }

  lemma LerpDownward(a: real, b: real, t: real)
    requires 0.0 <= t <= 1.0 && b <= a
    ensures b <= Lerp(a, b, t) <= a
  {
    LerpAsOffset(a, b, t);
    FractionOf(1.0 - t, a - b);
  }

  lemma LerpAsOffset(a: real, b: real, t: real)
    ensures Lerp(a, b, t) == b + (1.0 - t) * (a - b)
  {
  }

  /** A fraction of a non-negative distance stays within that distance. */
  lemma FractionOf(f: real, d: real)
    requires 0.0 <= f <= 1.0 && d >= 0.0
    ensures 0.0 <= f * d <= d
  {
    assert f * d + (1.0 - f) * d == d;
    assert (1.0 - f) * d >= 0.0;
  }

  datatype MorphState = MorphState(base: seq<real>, target: seq<real>, progress: real,
                                   prevGesture: Gesture)

  /** Both buffers have the full length and progress lies in [0,1]. */
  predicate Valid(s: MorphState) {
    |s.base| == BufferLength && |s.target| == BufferLength && 0.0 <= s.progress <= 1.0
  }

  /** `x` lies on the segment from `a` to `b`, whichever end is larger. */
  predicate Between(x: real, a: real, b: real) {
    (a <= b ==> a <= x <= b) && (b <= a ==> b <= x <= a)
  }

  /** The positions the vertex shader draws (before its decorative wobble).
      While progress lies in [0,1] every coordinate is on the segment from
      its base to its target value. */
  function Display(s: MorphState): (pos: seq<real>)
    requires |s.base| == |s.target|
    ensures |pos| == |s.base|
    ensures s.progress == 0.0 ==> pos == s.base
    ensures s.progress == 1.0 ==> pos == s.target
    ensures 0.0 <= s.progress <= 1.0 ==>
              forall i :: 0 <= i < |pos| ==> Between(pos[i], s.base[i], s.target[i])
  {
    var pos := seq(|s.base|, i requires 0 <= i < |s.base| => Lerp(s.base[i], s.target[i], s.progress));
    assert 0.0 <= s.progress <= 1.0 ==>
             forall i :: 0 <= i < |pos| ==> Between(pos[i], s.base[i], s.target[i]) by {
      if 0.0 <= s.progress <= 1.0 {
        forall i | 0 <= i < |pos|
          ensures Between(pos[i], s.base[i], s.target[i])
        {
          LerpWithin(s.base[i], s.target[i], s.progress);
        }
      }
    }
    pos
  }

  /** At start-up both buffers hold the noise shape, progress is 0 and the
      last gesture is Idle. */
  function Initial(table: ShapeTable): (s: MorphState)
    requires WellSized(table)
    ensures Valid(s)
    ensures s.prevGesture == Idle && s.progress == 0.0
    ensures s.base == s.target == ShapeFor(table, Idle)
    ensures Display(s) == ShapeFor(table, Idle)
  {
    assert |ShapeFor(table, Idle)| == BufferLength;
    MorphState(table.noise, table.noise, 0.0, Idle)
  }

  /** Normalised hand position (origin top-left) to scene space, mirrored in x. */
  function FistCenter(hand: Point3): (c: Point3)
    ensures c.z == 0.0
    ensures 0.0 <= hand.x <= 1.0 ==> -15.0 <= c.x <= 15.0
    ensures 0.0 <= hand.y <= 1.0 ==> -10.0 <= c.y <= 10.0
  {
    Point3((hand.x - 0.5) * -30.0, (0.5 - hand.y) * 20.0, 0.0)
  }

  lemma FistCenterExamples()
    ensures FistCenter(Point3(0.5, 0.5, 0.0)) == Point3(0.0, 0.0, 0.0)
    ensures FistCenter(Point3(0.0, 0.0, 0.0)) == Point3(15.0, 10.0, 0.0)
  {
  }

  /** Moving the hand right moves the cluster left (mirror image), moving it
      down moves the cluster down; the hand's depth is ignored. */
  lemma FistCenterMirrors(a: Point3, b: Point3)
    ensures a.x < b.x ==> FistCenter(a).x > FistCenter(b).x
    ensures a.y < b.y ==> FistCenter(a).y > FistCenter(b).y
    ensures a.x == b.x && a.y == b.y ==> FistCenter(a) == FistCenter(b)
  {
  }

  /** A new transition starts when the gesture changed, and on every update
      while the hand is a fist (its target follows the hand). */
  predicate Retargets(prev: Gesture, g: Gesture) {
    prev != g || g == Fist
  }

  /** The update can read the palm position whenever it needs it. */
  predicate HandReadable(hand: ParticleState) {
    hand.gesture == Fist ==> hand.handPos.Some?
  }

  /** The shape the particles head for: a fresh cluster at the mapped palm
      position for a fist, the precomputed buffer otherwise. */
  function TargetFor(table: ShapeTable, hand: ParticleState, fistRnd: seq<real>): (t: seq<real>)
    requires WellSized(table) && HandReadable(hand) && |fistRnd| >= 3 * ParticleCount
    ensures |t| == BufferLength
    ensures hand.gesture != Fist ==> t == ShapeFor(table, hand.gesture)
    ensures hand.gesture == Fist && UnitSamples(fistRnd) ==>
              var c := FistCenter(hand.handPos.value);
              forall k :: 0 <= k < |t| ==> Component(c, k % 3) - 0.25 <= t[k] < Component(c, k % 3) + 0.25
  {
    if hand.gesture == Fist then
      FistPoints(ParticleCount, FistCenter(hand.handPos.value), fistRnd)
    else
      ShapeFor(table, hand.gesture)
  }

  /** The morph effect, run once per hand update. The displayed positions
      are the same before and after: a retarget restarts from exactly where
      the particles are drawn, so an interrupted transition never jumps. */
  function OnHandState(s: MorphState, table: ShapeTable, hand: ParticleState, fistRnd: seq<real>): (r: MorphState)
    requires Valid(s) && WellSized(table) && HandReadable(hand) && |fistRnd| >= 3 * ParticleCount
    ensures Valid(r)
    ensures Display(r) == Display(s)
    ensures Retargets(s.prevGesture, hand.gesture) ==>
              && r.target == TargetFor(table, hand, fistRnd)
              && r.progress == 0.0
              && r.prevGesture == hand.gesture
    ensures !Retargets(s.prevGesture, hand.gesture) ==> r == s
  {
    if Retargets(s.prevGesture, hand.gesture) then
      MorphState(Display(s), TargetFor(table, hand, fistRnd), 0.0, hand.gesture)
    else
      s
  }

  /** The eased ramp of progress towards 1 is driven from outside; each frame
      it supplies the current value. Only progress moves, and at 1 the
      particles sit on the target. */
  function Animate(s: MorphState, progress: real): (r: MorphState)
    requires Valid(s) && 0.0 <= progress <= 1.0
    ensures Valid(r)
    ensures r.progress == progress
    ensures r.base == s.base && r.target == s.target && r.prevGesture == s.prevGesture
    ensures progress == 1.0 ==> Display(r) == s.target
  {
    s.(progress := progress)
  }

  /** After a retarget and a completed ramp the particles sit exactly on the
      new target shape; for a static gesture that is the gesture's shape. */
  lemma RetargetThenSettle(s: MorphState, table: ShapeTable, hand: ParticleState, fistRnd: seq<real>)
    requires Valid(s) && WellSized(table) && HandReadable(hand) && |fistRnd| >= 3 * ParticleCount
    requires Retargets(s.prevGesture, hand.gesture) && hand.gesture != Fist
    ensures Display(Animate(OnHandState(s, table, hand, fistRnd), 1.0)) == ShapeFor(table, hand.gesture)
  {
  }
}
