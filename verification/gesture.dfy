/** The gesture classifier: 21 hand landmarks to one gesture category, by
    four "finger raised" comparisons, a thumb-spread test and an ordered
    list of rules of which the first that matches wins. */
module GestureService {
  import opened Types

  /** A complete hand observation has this many landmarks. */
  const LandmarkCount: nat := 21

  /** The thumb counts as extended only when its horizontal distance to the
      base of the index finger is strictly greater than this. */
  const ThumbSpread: real := 0.12

  // Anatomical landmark indices (wrist 0, thumb 1-4, index 5-8, middle 9-12,
  // ring 13-16, pinky 17-20).
  const ThumbIp: nat := 3
  const ThumbTip: nat := 4
  const IndexMcp: nat := 5
  const IndexPip: nat := 6
  const IndexTip: nat := 8
  const MiddlePip: nat := 10
  const MiddleTip: nat := 12
  const RingPip: nat := 14
  const RingTip: nat := 16
  const PinkyPip: nat := 18
  const PinkyTip: nat := 20

  function Abs(r: real): (a: real)
    ensures a >= 0.0 && (a == r || a == -r)
  {
    if r < 0.0 then -r else r
  }

  /** A finger is raised when its tip is higher on screen (smaller y) than
      the joint below it. */
  predicate IsRaised(lms: seq<Landmark>, tip: nat, base: nat)
    requires tip < |lms| && base < |lms|
  {
    lms[tip].y < lms[base].y
  }

  /** The six boolean observations the rules are written in. */
  datatype HandPose = HandPose(
    indexUp: bool, middleUp: bool, ringUp: bool, pinkyUp: bool,
    thumbExtended: bool, thumbTipAboveIp: bool)

  function ReadPose(lms: seq<Landmark>): HandPose
    requires |lms| >= LandmarkCount
  {
    HandPose(
      IsRaised(lms, IndexTip, IndexPip),
      IsRaised(lms, MiddleTip, MiddlePip),
      IsRaised(lms, RingTip, RingPip),
      IsRaised(lms, PinkyTip, PinkyPip),
      Abs(lms[ThumbTip].x - lms[IndexMcp].x) > ThumbSpread,
      lms[ThumbTip].y < lms[ThumbIp].y)
  }

  predicate NoFingerRaised(p: HandPose) {
    !p.indexUp && !p.middleUp && !p.ringUp && !p.pinkyUp
  }

  /** The condition under which each rule fires, independently of the order
      in which the rules are tried. `Idle` has no rule: it is what is left. */
  predicate Matches(g: Gesture, p: HandPose) {
    match g
    case Fist => NoFingerRaised(p) && !p.thumbExtended
    case ThumbsUp => p.thumbExtended && NoFingerRaised(p) && p.thumbTipAboveIp
    case Victory => p.indexUp && p.middleUp && !p.ringUp && !p.pinkyUp
    case ILoveYou => p.indexUp && p.pinkyUp && p.thumbExtended && !p.middleUp && !p.ringUp
    case Idle => false
  }

  /** The rule list in the order the classifier tries it. A failed vertical
      check in the ThumbsUp rule does not return: it falls through to the
      rules below. The result is the one rule that matches, or Idle. */
  function Classify(p: HandPose): (g: Gesture)
    ensures g != Idle ==> Matches(g, p)
    ensures forall h :: Matches(h, p) ==> g == h
  {
    if NoFingerRaised(p) && !p.thumbExtended then Fist
    else if p.thumbExtended && NoFingerRaised(p) && p.thumbTipAboveIp then ThumbsUp
    else if p.indexUp && p.middleUp && !p.ringUp && !p.pinkyUp then Victory
    else if p.indexUp && p.pinkyUp && p.thumbExtended && !p.middleUp && !p.ringUp then ILoveYou
    else Idle
  }

  /** The classifier on a raw landmark list. */
  function Recognize(lms: seq<Landmark>): (g: Gesture)
    ensures |lms| < LandmarkCount ==> g == Idle
    ensures |lms| >= LandmarkCount ==> g != Idle ==> Matches(g, ReadPose(lms))
    ensures |lms| >= LandmarkCount ==> forall h :: Matches(h, ReadPose(lms)) ==> g == h
  {
    if |lms| < LandmarkCount then Idle else Classify(ReadPose(lms))
  }

  /** No two rules can fire for the same pose. */
  lemma RulesExclusive(p: HandPose, g: Gesture, h: Gesture)
    requires Matches(g, p) && Matches(h, p)
    ensures g == h
  {
  }

  /** The first rule of `order` that matches, or Idle when none does. */
  function FirstMatch(order: seq<Gesture>, p: HandPose): Gesture {
    if |order| == 0 then Idle
    else if Matches(order[0], p) then order[0]
    else FirstMatch(order[1..], p)
  }

  lemma {:induction false} FirstMatchFindsTheMatch(order: seq<Gesture>, p: HandPose)
    requires forall h :: Matches(h, p) ==> h in order
    ensures FirstMatch(order, p) == Classify(p)
    decreases |order|
  {
    if |order| == 0 {
    } else if Matches(order[0], p) {
    } else {
      assert forall h :: Matches(h, p) ==> h in order[1..] by {
        forall h | Matches(h, p)
          ensures h in order[1..]
        {
          assert h in order && h != order[0];
        }
      }
      FirstMatchFindsTheMatch(order[1..], p);
    }
  }

  /** Since the rules are mutually exclusive, trying them in any order that
      lists all four gives the classifier's answer: the source order is a
      tie-break that never has a tie to break. */
  lemma RuleOrderIrrelevant(order: seq<Gesture>, p: HandPose)
    requires Fist in order && ThumbsUp in order && Victory in order && ILoveYou in order
    ensures FirstMatch(order, p) == Classify(p)
  {
    FirstMatchFindsTheMatch(order, p);
  }

  /** The order the source writes the rules in is one such order. */
  lemma SourceOrderIsFirstMatch(p: HandPose)
    ensures Classify(p) == FirstMatch([Fist, ThumbsUp, Victory, ILoveYou], p)
  {
    RuleOrderIrrelevant([Fist, ThumbsUp, Victory, ILoveYou], p);
  }

  // ---- The classifier's behaviour stated on raw landmarks ----

  predicate AllFingersDown(lms: seq<Landmark>)
    requires |lms| >= LandmarkCount
  {
    && lms[IndexTip].y >= lms[IndexPip].y
    && lms[MiddleTip].y >= lms[MiddlePip].y
    && lms[RingTip].y >= lms[RingPip].y
    && lms[PinkyTip].y >= lms[PinkyPip].y
  }

  /** An incomplete observation is Idle. */
  lemma ShortObservationIsIdle(lms: seq<Landmark>)
    requires |lms| < LandmarkCount
    ensures Recognize(lms) == Idle
  {
  }

  /** All four fingers down and the thumb tucked in is a fist, whatever the
      other coordinates are. */
  lemma FingersDownThumbInIsFist(lms: seq<Landmark>)
    requires |lms| >= LandmarkCount
    requires AllFingersDown(lms)
    requires Abs(lms[ThumbTip].x - lms[IndexMcp].x) <= ThumbSpread
    ensures Recognize(lms) == Fist
  {
  }

  /** The thumb threshold is strict: a spread of exactly 0.12 is not an
      extended thumb, so with the fingers down the hand is still a fist. */
  lemma ThumbSpreadIsStrict(lms: seq<Landmark>)
    requires |lms| >= LandmarkCount
    requires Abs(lms[ThumbTip].x - lms[IndexMcp].x) == ThumbSpread
    ensures !ReadPose(lms).thumbExtended
    ensures AllFingersDown(lms) ==> Recognize(lms) == Fist
  {
  }

  lemma ThumbUpAboveIpIsThumbsUp(lms: seq<Landmark>)
    requires |lms| >= LandmarkCount
    requires AllFingersDown(lms)
    requires Abs(lms[ThumbTip].x - lms[IndexMcp].x) > ThumbSpread
    requires lms[ThumbTip].y < lms[ThumbIp].y
    ensures Recognize(lms) == ThumbsUp
  {
  }

  /** A sideways thumb (extended but not above its IP joint) with the fingers
      down matches no rule: it falls through to Idle, not to Fist. */
  lemma SidewaysThumbFallsThroughToIdle(lms: seq<Landmark>)
    requires |lms| >= LandmarkCount
    requires AllFingersDown(lms)
    requires Abs(lms[ThumbTip].x - lms[IndexMcp].x) > ThumbSpread
    requires lms[ThumbTip].y >= lms[ThumbIp].y
    ensures Recognize(lms) == Idle
  {
  }

  /** Index and middle up, ring and pinky down is Victory whatever the thumb does. */
  lemma TwoFingersIsVictory(lms: seq<Landmark>)
    requires |lms| >= LandmarkCount
    requires lms[IndexTip].y < lms[IndexPip].y && lms[MiddleTip].y < lms[MiddlePip].y
    requires lms[RingTip].y >= lms[RingPip].y && lms[PinkyTip].y >= lms[PinkyPip].y
    ensures Recognize(lms) == Victory
  {
  }

  lemma RockOnIsILoveYou(lms: seq<Landmark>)
    requires |lms| >= LandmarkCount
    requires lms[IndexTip].y < lms[IndexPip].y && lms[PinkyTip].y < lms[PinkyPip].y
    requires lms[MiddleTip].y >= lms[MiddlePip].y && lms[RingTip].y >= lms[RingPip].y
    requires Abs(lms[ThumbTip].x - lms[IndexMcp].x) > ThumbSpread
    ensures Recognize(lms) == ILoveYou
  {
  }

  /** Only a complete observation can yield a gesture other than Idle. */
  lemma GestureNeedsFullHand(lms: seq<Landmark>)
    requires Recognize(lms) != Idle
    ensures |lms| >= LandmarkCount
  {
  }
}
