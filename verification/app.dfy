/** The application shell: the hand-state reducer fed by the tracker, the
    gesture caption, and the whole pipeline from tracker frames to the
    particle buffers. */
module App {
  import opened Types
  import opened Outcome
  import opened GestureService
  import opened Shapes
  import opened TextShape
  import opened ParticleCanvas

  /** The landmark used as the palm centre (base of the middle finger). */
  const PalmIndex: nat := 9

  /** Before any detection: Idle, palm in the middle of the frame. */
  const InitialParticleState: ParticleState :=
    ParticleState(Idle, Some(Point3(0.5, 0.5, 0.0)))

  /** The reducer behind `handleHandUpdate`. A detection replaces both the
      gesture and the palm position; losing the hand resets the gesture to
      Idle and keeps the last palm position. */
  function HandleHandUpdate(prev: ParticleState, data: Option<HandData>): (next: ParticleState)
    ensures data.None? ==> next.gesture == Idle && next.handPos == prev.handPos
    ensures data.Some? ==> next.gesture == data.value.gesture
    ensures data.Some? ==> (next.handPos.Some? <==> |data.value.landmarks| > PalmIndex)
    ensures data.Some? && next.handPos.Some? ==> next.handPos.value == data.value.landmarks[PalmIndex]
  {
    match data
    case Some(d) =>
      ParticleState(d.gesture,
                    if |d.landmarks| > PalmIndex then Some(d.landmarks[PalmIndex]) else None)
    case None => prev.(gesture := Idle)
  }

  /** A detection does not depend on what came before it. */
  lemma DetectionForgetsPrevious(a: ParticleState, b: ParticleState, d: HandData)
    ensures HandleHandUpdate(a, Some(d)) == HandleHandUpdate(b, Some(d))
  {
  }

  /** Losing the hand repeatedly is the same as losing it once. */
  lemma LosingHandIdempotent(s: ParticleState)
    ensures HandleHandUpdate(HandleHandUpdate(s, None), None) == HandleHandUpdate(s, None)
  {
  }

  /** The caption shown for the active gesture: capital letters and spaces,
      never empty. */
  function GestureLabel(g: Gesture): (caption: string)
    ensures |caption| > 0
    ensures forall i :: 0 <= i < |caption| ==> caption[i] == ' ' || 'A' <= caption[i] <= 'Z'
  {
    match g
    case ILoveYou => "I LOVE YOU"
    case Victory => "LOVE HEART"
    case ThumbsUp => "CELESTIAL SPHERE"
    case Fist => "GRAVITY WELL"
    case Idle => "CELESTIAL DUST"
  }

  /** Every gesture has its own caption, so the caption identifies the gesture. */
  lemma LabelsDistinct(g: Gesture, h: Gesture)
    requires g != h
    ensures GestureLabel(g) != GestureLabel(h)
  {
  }

  /** What the tracker reports for one camera frame: the first hand's
      landmarks, classified, or nothing when no hand was found. */
  function Observe(frame: Option<seq<Landmark>>): (data: Option<HandData>)
    ensures data.None? <==> frame.None?
    ensures data.Some? ==> data.value.landmarks == frame.value
    ensures data.Some? ==> data.value.gesture == Recognize(frame.value)
    ensures data.Some? && data.value.gesture != Idle ==> |data.value.landmarks| >= LandmarkCount
  {
    match frame
    case None => None
    case Some(lms) => Some(HandData(lms, Recognize(lms)))
  }

  /** Start-up: the shape table is built and the application starts on it.
      It fails only through the text generator's empty-pixel fault. */
  function Launch(src: ShapeSources): (res: Result<AppState, TextFault>)
    requires SourcesSuffice(src)
    ensures res.Failure? <==> BuildShapes(src).Failure?
    ensures res.Success? ==> Coherent(res.value)
    ensures res.Success? ==> res.value == InitialApp(BuildShapes(src).value)
  {
    match BuildShapes(src)
    case Failure(e) => Failure(e)
    case Success(table) => Success(InitialApp(table))
  }

  /** After a successful start-up the particles are drawn on the noise
      generator's output, inside the cube of side 15, and the hand is Idle. */
  lemma LaunchShowsNoise(src: ShapeSources)
    requires SourcesSuffice(src) && UnitSamples(src.noiseRnd)
    requires Launch(src).Success?
    ensures var a := Launch(src).value;
            && a.hand.gesture == Idle
            && Display(a.morph) == NoisePoints(ParticleCount, src.noiseRnd)
            && forall k :: 0 <= k < |Display(a.morph)| ==> -7.5 <= Display(a.morph)[k] < 7.5
  {
    var table := BuildShapes(src).value;
    assert ShapeFor(table, Idle) == NoisePoints(ParticleCount, src.noiseRnd);
    BuiltNoiseInCube(src);
  }

  /** The two things that happen to the running system: the tracker reports
      a frame (with the samples the fist generator would draw), or the
      animation ramp publishes a new progress value. */
  datatype Event =
    | Detection(frame: Option<seq<Landmark>>, fistRnd: seq<real>)
    | Frame(progress: real)

  predicate EventOk(e: Event) {
    match e
    case Detection(_, fistRnd) => |fistRnd| >= 3 * ParticleCount
    case Frame(p) => 0.0 <= p <= 1.0
  }

  datatype AppState = AppState(hand: ParticleState, morph: MorphState)

  /** The invariant of the running system: the morph buffers are well formed
      and the palm position is known whenever the gesture is a fist. */
  predicate Coherent(a: AppState) {
    Valid(a.morph) && HandReadable(a.hand)
  }

  function InitialApp(table: ShapeTable): (a: AppState)
    requires WellSized(table)
    ensures Coherent(a)
    ensures a.hand.gesture == Idle && a.hand.handPos == Some(Point3(0.5, 0.5, 0.0))
    ensures Display(a.morph) == ShapeFor(table, Idle)
  {
    AppState(InitialParticleState, Initial(table))
  }

  /** One event: a detection runs the reducer and then the morph effect on the
      new hand state; a frame moves the progress only. */
  function Step(table: ShapeTable, a: AppState, e: Event): (r: AppState)
    requires WellSized(table) && Coherent(a) && EventOk(e)
    ensures Coherent(r)
    ensures e.Detection? ==> r.hand == HandleHandUpdate(a.hand, Observe(e.frame))
    ensures e.Detection? ==> r.morph == OnHandState(a.morph, table, r.hand, e.fistRnd)
    ensures e.Detection? ==> Display(r.morph) == Display(a.morph)
    ensures e.Frame? ==> r.hand == a.hand && r.morph == a.morph.(progress := e.progress)
  {
    match e
    case Detection(frame, fistRnd) =>
      var hand := HandleHandUpdate(a.hand, Observe(frame));
      AppState(hand, OnHandState(a.morph, table, hand, fistRnd))
    case Frame(p) =>
      AppState(a.hand, Animate(a.morph, p))
  }

  /** A detection hands the classifier's gesture (Idle when no hand is seen)
      to the morph engine. When the retarget rule fires, the transition
      restarts from the drawn positions towards that gesture's target;
      otherwise the morph state is untouched. */
  lemma DetectionDrivesMorph(table: ShapeTable, a: AppState, frame: Option<seq<Landmark>>, fistRnd: seq<real>)
    requires WellSized(table) && Coherent(a) && |fistRnd| >= 3 * ParticleCount
    ensures var r := Step(table, a, Detection(frame, fistRnd));
            var g := if frame.Some? then Recognize(frame.value) else Idle;
            && r.hand.gesture == g
            && (Retargets(a.morph.prevGesture, g) ==>
                  r.morph == MorphState(Display(a.morph), TargetFor(table, r.hand, fistRnd), 0.0, g))
            && (!Retargets(a.morph.prevGesture, g) ==> r.morph == a.morph)
  {
  }

  predicate AllOk(events: seq<Event>) {
    forall i :: 0 <= i < |events| ==> EventOk(events[i])
  }

  /** A whole run: the system stays coherent however the tracker and the
      animation ramp interleave. */
  function Run(table: ShapeTable, a: AppState, events: seq<Event>): (r: AppState)
    requires WellSized(table) && Coherent(a) && AllOk(events)
    ensures Coherent(r)
    decreases |events|
  {
    if |events| == 0 then a
    else Run(table, Step(table, a, events[0]), events[1..])
  }

  /** Without animation frames nothing on screen moves, however many
      gestures come and go: every retarget starts from the drawn positions. */
  lemma {:induction false} DetectionsNeverMoveParticles(table: ShapeTable, a: AppState, events: seq<Event>)
    requires WellSized(table) && Coherent(a) && AllOk(events)
    requires forall i :: 0 <= i < |events| ==> events[i].Detection?
    ensures Display(Run(table, a, events).morph) == Display(a.morph)
    decreases |events|
  {
    if |events| > 0 {
      var next := Step(table, a, events[0]);
      assert AllOk(events[1..]) by {
        forall i | 0 <= i < |events| - 1
          ensures EventOk(events[1..][i])
        {
          assert events[1..][i] == events[i + 1];
        }
      }
      DetectionsNeverMoveParticles(table, next, events[1..]);
    }
  }

  /** A detected fist always starts a new transition towards a cluster at
      the mapped palm position, even when the previous gesture was a fist. */
  lemma FistAlwaysRetargets(table: ShapeTable, a: AppState, lms: seq<Landmark>, fistRnd: seq<real>)
    requires WellSized(table) && Coherent(a) && |fistRnd| >= 3 * ParticleCount
    requires Recognize(lms) == Fist
    ensures var r := Step(table, a, Detection(Some(lms), fistRnd));
            && r.morph.progress == 0.0
            && r.morph.prevGesture == Fist
            && r.morph.target == FistPoints(ParticleCount, FistCenter(lms[PalmIndex]), fistRnd)
  {
  }

  /** A Victory sign seen when the last retarget was to Idle starts a
      transition to the heart, from progress 0. */
  lemma VictoryFromIdleMorphsToHeart(table: ShapeTable, a: AppState, lms: seq<Landmark>, fistRnd: seq<real>)
    requires WellSized(table) && Coherent(a) && |fistRnd| >= 3 * ParticleCount
    requires a.morph.prevGesture == Idle && Recognize(lms) == Victory
    ensures var r := Step(table, a, Detection(Some(lms), fistRnd));
            && r.morph.target == table.heart
            && r.morph.progress == 0.0
            && r.morph.prevGesture == Victory
  {
  }

  /** Losing the hand while any other shape is the target starts a
      transition back to the noise cloud; losing it again changes nothing. */
  lemma LosingHandReturnsToNoise(table: ShapeTable, a: AppState, fistRnd: seq<real>)
    requires WellSized(table) && Coherent(a) && |fistRnd| >= 3 * ParticleCount
    requires a.morph.prevGesture != Idle
    ensures var r := Step(table, a, Detection(None, fistRnd));
            && r.morph.target == ShapeFor(table, Idle)
            && r.morph.progress == 0.0
            && Step(table, r, Detection(None, fistRnd)) == r
  {
  }
}
