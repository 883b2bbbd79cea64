/** The shared vocabulary of the application: gesture categories, 3D points
    and the records that flow from the hand tracker to the particle canvas. */
module Types {
  import opened Outcome

  /** The closed set of gesture categories; `Idle` is both the initial value
      and the fallback for missing or ambiguous input. */
  datatype Gesture = Idle | ILoveYou | Victory | ThumbsUp | Fist

  /** A point in 3D; hand landmarks use normalised image coordinates
      (x and y in [0,1], origin top-left), scene points use world units. */
  datatype Point3 = Point3(x: real, y: real, z: real)

  /** One tracked hand joint. */
  type Landmark = Point3

  /** One detection result: the joints of the hand and their classification. */
  datatype HandData = HandData(landmarks: seq<Landmark>, gesture: Gesture)

  /** What the application hands to the particle canvas. The palm position is
      `None` when it was read from a landmark list too short to hold it
      (the modelled code then stores `undefined`). */
  datatype ParticleState = ParticleState(gesture: Gesture, handPos: Option<Point3>)
}
