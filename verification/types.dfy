/** The shared vocabulary: the three choreography modes and the pose event that the
    hand tracker hands to the interaction controller. */
module Types {
  import opened Geometry

  /** The interaction mode; FOLDED is the initial one. */
  datatype TreeState = Folded | Scattered | Zoomed

  datatype Option<T> = None | Some(value: T)

  /** Number of keypoints the landmark estimator reports for one hand. */
  const LANDMARK_COUNT: nat := 21

  /** One hand's keypoints in normalised image coordinates (z is relative depth). */
  type Landmarks = s: seq<Vec3> | |s| == LANDMARK_COUNT
    witness seq(LANDMARK_COUNT, _ => Vec3(0.0, 0.0, 0.0))

  /** One pose event: the gesture flags, the smoothed position and the raw keypoints. */
  datatype HandData = HandData(
    isFist: bool,
    isOpen: bool,
    isPinching: bool,
    position: Vec3,
    rawLandmarks: Landmarks)
}
