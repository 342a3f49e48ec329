/** The hand tracker's per-frame logic: the exponential smoother over the middle-finger
    base keypoint, the finger-extension count and the gesture flags derived from it, the
    pinch test, and the 40 ms throttle on camera frames (components/HandTracker.tsx). */
module HandTracker {
  import opened Geometry
  import opened Types

  /** Fraction of the remaining error the smoother removes per processed frame. */
  const SMOOTHING: real := 0.2
  /** Fraction of the error the smoother keeps: 1 - SMOOTHING. */
  const RETAINED: real := 0.8
  /** Minimum time between two processed camera frames, in milliseconds. */
  const FRAME_INTERVAL: real := 40.0

  const WRIST: nat := 0
  const THUMB_TIP: nat := 4
  const INDEX_TIP: nat := 8
  /** The keypoint the smoother follows (middle-finger base). */
  const TRACKED: nat := 9
  const FINGERS: nat := 4

  /** A finger counts as extended when its tip is more than 1.3 times as far from the wrist
      as its base knuckle; compared on squares, 1.3^2. */
  const EXTENSION_RATIO_SQ: real := 1.69
  /** Thumb tip and index tip closer than 0.06 make a pinch; compared on squares, 0.06^2. */
  const PINCH_DIST_SQ: real := 0.0036

  /** Tip keypoint of finger f (index, middle, ring, pinky): 8, 12, 16, 20. */
  function FingerTip(f: nat): (k: nat)
    requires f < FINGERS
    ensures k < LANDMARK_COUNT
  {
    if f == 0 then 8 else if f == 1 then 12 else if f == 2 then 16 else 20
  }

  /** Base knuckle keypoint of finger f: 5, 9, 13, 17. */
  function FingerBase(f: nat): (k: nat)
    requires f < FINGERS
    ensures k < LANDMARK_COUNT
  {
    if f == 0 then 5 else if f == 1 then 9 else if f == 2 then 13 else 17
  }

  // ----- Smoother -------------------------------------------------------------------

  /** Where the smoother starts before any frame has been processed. */
  const INITIAL_SMOOTHED: Vec3 := Vec3(0.5, 0.5, 0.0)

  /** One smoother step: `acc += (raw - acc) * 0.2` on each axis. */
  function SmoothStep(acc: Vec3, raw: Vec3): (r: Vec3)
    // the remaining error shrinks by exactly the factor 0.8 on every axis
    ensures raw.x - r.x == (raw.x - acc.x) * RETAINED
    ensures raw.y - r.y == (raw.y - acc.y) * RETAINED
    ensures raw.z - r.z == (raw.z - acc.z) * RETAINED
    // the new value lies between the old one and the raw sample
    ensures Between(acc.x, r.x, raw.x) && Between(acc.y, r.y, raw.y) && Between(acc.z, r.z, raw.z)
    // a sample equal to the accumulator is a fixed point
    ensures raw == acc ==> r == acc
  {
    LerpVecFacts(acc, raw, SMOOTHING);
    LerpFacts(acc.x, raw.x, SMOOTHING);
    LerpFacts(acc.y, raw.y, SMOOTHING);
    LerpFacts(acc.z, raw.z, SMOOTHING);
    LerpVec(acc, raw, SMOOTHING)
  }

  /** The accumulator after n processed frames that all carry the same raw sample. */
  function SmoothedAfter(acc: Vec3, raw: Vec3, n: nat): Vec3
  {
    if n == 0 then acc else SmoothStep(SmoothedAfter(acc, raw, n - 1), raw)
  }

  /** Constant input decays the error geometrically: after n frames it is 0.8^n times
      the initial error, on every axis. */
  lemma {:induction false} SmoothingDecay(acc: Vec3, raw: Vec3, n: nat)
    ensures raw.x - SmoothedAfter(acc, raw, n).x == Mul(Pow(RETAINED, n), raw.x - acc.x)
    ensures raw.y - SmoothedAfter(acc, raw, n).y == Mul(Pow(RETAINED, n), raw.y - acc.y)
    ensures raw.z - SmoothedAfter(acc, raw, n).z == Mul(Pow(RETAINED, n), raw.z - acc.z)
  {
    if n > 0 {
      SmoothingDecay(acc, raw, n - 1);
      var p := Pow(RETAINED, n - 1);
      DecayStep(p, raw.x - acc.x);
      DecayStep(p, raw.y - acc.y);
      DecayStep(p, raw.z - acc.z);
    }
  }

  /** One more frame multiplies the factor of the initial error by 0.8. */
  lemma DecayStep(p: real, e: real)
    ensures Mul(p, e) * RETAINED == Mul(RETAINED * p, e)
  {
  }

  /** Feeding the accumulator's own value keeps it where it is, however many frames. */
  lemma {:induction false} SmoothingFixedPoint(acc: Vec3, n: nat)
    ensures SmoothedAfter(acc, acc, n) == acc
  {
    if n > 0 {
      SmoothingFixedPoint(acc, n - 1);
    }
  }

  // ----- Gesture classification -----------------------------------------------------

  /** Finger f is extended: its tip is farther than 1.3 times its base from the wrist,
      measured in the image plane (z is ignored). */
  predicate IsExtended(lm: Landmarks, f: nat)
    requires f < FINGERS
  {
    var wrist := Planar(lm[WRIST]);
    PlanarDistSq(Planar(lm[FingerTip(f)]), wrist)
      > EXTENSION_RATIO_SQ * PlanarDistSq(Planar(lm[FingerBase(f)]), wrist)
  }

  /** How many of the first n fingers are extended, counted in the loop's order. */
  function ExtendedCount(lm: Landmarks, n: nat): (r: nat)
    requires n <= FINGERS
    ensures r <= n
  {
    if n == 0 then 0
    else ExtendedCount(lm, n - 1) + (if IsExtended(lm, n - 1) then 1 else 0)
  }

  /** The count is 0 exactly when no finger is extended and n exactly when all are. */
  lemma {:induction false} ExtendedCountExtremes(lm: Landmarks, n: nat)
    requires n <= FINGERS
    ensures ExtendedCount(lm, n) == 0 <==> forall f :: 0 <= f < n ==> !IsExtended(lm, f)
    ensures ExtendedCount(lm, n) == n <==> forall f :: 0 <= f < n ==> IsExtended(lm, f)
  {
    if n > 0 {
      ExtendedCountExtremes(lm, n - 1);
    }
  }

  /** The set of extended fingers among the first n. */
  function ExtendedFingers(lm: Landmarks, n: nat): set<nat>
    requires n <= FINGERS
  {
    set f: nat | f < n && IsExtended(lm, f)
  }

  /** The count is the number of extended fingers. */
  lemma {:induction false} ExtendedCountIsCardinality(lm: Landmarks, n: nat)
    requires n <= FINGERS
    ensures ExtendedCount(lm, n) == |ExtendedFingers(lm, n)|
  {
    if n == 0 {
      assert ExtendedFingers(lm, 0) == {};
    } else {
      ExtendedCountIsCardinality(lm, n - 1);
      ExtendedFingersStep(lm, n);
      ExtendedFingersBelow(lm, n - 1);
      AddOne(ExtendedFingers(lm, n - 1), n - 1, IsExtended(lm, n - 1));
    }
  }

  lemma ExtendedFingersBelow(lm: Landmarks, n: nat)
    requires n <= FINGERS
    ensures n !in ExtendedFingers(lm, n)
  {
  }

  /** Adding an element that is not yet there grows a finite set by one. */
  lemma AddOne(s: set<nat>, x: nat, add: bool)
    requires x !in s
    ensures |s + (if add then {x} else {})| == |s| + (if add then 1 else 0)
  {
  }

  /** Looking at one more finger adds it to the set exactly when it is extended. */
  lemma ExtendedFingersStep(lm: Landmarks, n: nat)
    requires 0 < n <= FINGERS
    ensures ExtendedFingers(lm, n)
      == ExtendedFingers(lm, n - 1) + (if IsExtended(lm, n - 1) then {n - 1} else {})
  {
  }

  /** The counting loop of the results callback. */
  method CountExtendedFingers(lm: Landmarks) returns (extended: nat)
    ensures extended == ExtendedCount(lm, FINGERS)
    ensures extended <= FINGERS
  {
    extended := 0;
    for i := 0 to FINGERS
      invariant extended == ExtendedCount(lm, i)
    {
      var tip := Planar(lm[FingerTip(i)]);
      var base := Planar(lm[FingerBase(i)]);
      var wrist := Planar(lm[WRIST]);
      if PlanarDistSq(tip, wrist) > EXTENSION_RATIO_SQ * PlanarDistSq(base, wrist) {
        extended := extended + 1;
      }
    }
  }

  /** Thumb tip and index tip are within 0.06 of each other in the image plane. */
  predicate IsPinch(lm: Landmarks)
  {
    PlanarDistSq(Planar(lm[INDEX_TIP]), Planar(lm[THUMB_TIP])) < PINCH_DIST_SQ
  }

  /** The pose event built from one hand's keypoints and the smoothed position. */
  function Classify(lm: Landmarks, position: Vec3): (r: HandData)
    ensures r.isFist <==> forall f :: 0 <= f < FINGERS ==> !IsExtended(lm, f)
    ensures r.isOpen <==> forall f :: 0 <= f < FINGERS ==> IsExtended(lm, f)
    ensures !(r.isFist && r.isOpen)
    // the pinch flag looks at keypoints 4 and 8 only, whatever the finger count
    ensures r.isPinching <==> PlanarDistSq(Planar(lm[INDEX_TIP]), Planar(lm[THUMB_TIP])) < PINCH_DIST_SQ
    ensures r.position == position && r.rawLandmarks == lm
  {
    var extended := ExtendedCount(lm, FINGERS);
    ExtendedCountExtremes(lm, FINGERS);
    HandData(extended <= 0, extended >= FINGERS, IsPinch(lm), position, lm)
  }

  /** The pinch test is independent of the finger count: a hand whose keypoints all
      coincide is a fist and is pinching ... */
  lemma FistCanPinch(lm: Landmarks, position: Vec3)
    requires forall k :: 0 <= k < LANDMARK_COUNT ==> lm[k] == lm[WRIST]
    ensures Classify(lm, position).isFist
    ensures Classify(lm, position).isPinching
  {
    var wrist := Planar(lm[WRIST]);
    assert PlanarDistSq(wrist, wrist) == 0.0;
    forall f | 0 <= f < FINGERS ensures !IsExtended(lm, f) {
      var tip, base := FingerTip(f), FingerBase(f);
      assert lm[tip] == lm[WRIST] && lm[base] == lm[WRIST];
    }
    assert lm[INDEX_TIP] == lm[WRIST] && lm[THUMB_TIP] == lm[WRIST];
  }

  /** ... and so can an open hand: every tip five times as far from the wrist as its base,
      with the thumb tip on the index tip. */
  lemma OpenCanPinch(lm: Landmarks, position: Vec3)
    requires Planar(lm[WRIST]) == Point2(0.0, 0.0)
    requires forall f :: 0 <= f < FINGERS ==>
      Planar(lm[FingerTip(f)]) == Point2(0.5, 0.0) && Planar(lm[FingerBase(f)]) == Point2(0.1, 0.0)
    requires Planar(lm[THUMB_TIP]) == Point2(0.5, 0.0)
    ensures Classify(lm, position).isOpen
    ensures Classify(lm, position).isPinching
  {
    forall f | 0 <= f < FINGERS ensures IsExtended(lm, f) {
      var tip, base, wrist := Planar(lm[FingerTip(f)]), Planar(lm[FingerBase(f)]), Planar(lm[WRIST]);
      assert tip == Point2(0.5, 0.0) && base == Point2(0.1, 0.0) && wrist == Point2(0.0, 0.0);
      StretchedDistances();
      assert PlanarDistSq(tip, wrist) == 25.0 * PlanarDistSq(base, wrist);
      StretchedFinger(lm, f);
    }
    assert INDEX_TIP == FingerTip(0);
    assert PlanarDistSq(Planar(lm[INDEX_TIP]), Planar(lm[THUMB_TIP])) == 0.0;
  }

  /** A finger whose tip is five times as far from the wrist as its base is extended, as
      long as the base is not on the wrist (a finger folded onto the wrist is not). */
  lemma StretchedFinger(lm: Landmarks, f: nat)
    requires f < FINGERS
    requires Planar(lm[FingerBase(f)]) != Planar(lm[WRIST])
    requires PlanarDistSq(Planar(lm[FingerTip(f)]), Planar(lm[WRIST]))
      == 25.0 * PlanarDistSq(Planar(lm[FingerBase(f)]), Planar(lm[WRIST]))
    ensures IsExtended(lm, f)
  {
  }

  lemma StretchedDistances()
    ensures PlanarDistSq(Point2(0.5, 0.0), Point2(0.0, 0.0)) == 0.25
    ensures PlanarDistSq(Point2(0.1, 0.0), Point2(0.0, 0.0)) == 0.01
  {
    assert Sq(0.5) == 0.25 && Sq(0.1) == 0.01 && Sq(0.0) == 0.0;
  }

  // ----- The tracker ----------------------------------------------------------------

  /** Consecutive entries are at least one frame interval apart. */
  ghost predicate Spaced(times: seq<real>)
  {
    forall k :: 0 < k < |times| ==> times[k] - times[k - 1] >= FRAME_INTERVAL
  }

  /** Spacing between neighbours adds up: entries i <= j are (j - i) intervals apart. */
  lemma {:induction false} SpacedPairwise(times: seq<real>, i: nat, j: nat)
    requires Spaced(times)
    requires i <= j < |times|
    ensures times[j] - times[i] >= FRAME_INTERVAL * (j - i) as real
  {
    if i < j {
      SpacedPairwise(times, i, j - 1);
      assert times[j] - times[j - 1] >= FRAME_INTERVAL;
    }
  }

  /** The tracker's mutable state: the smoothed position and the frame throttle. */
  class Tracker {
    var smoothPos: Vec3
    var lastFrameTime: real
    /** Every value lastFrameTime has held: its initial 0, then each processed frame's time. */
    ghost var frameTimes: seq<real>

    ghost predicate Valid()
      reads this
    {
      |frameTimes| > 0 && frameTimes[|frameTimes| - 1] == lastFrameTime && Spaced(frameTimes)
    }

    constructor ()
      ensures Valid()
      ensures smoothPos == INITIAL_SMOOTHED && lastFrameTime == 0.0 && frameTimes == [0.0]
    {
      smoothPos := INITIAL_SMOOTHED;
      lastFrameTime := 0.0;
      frameTimes := [0.0];
    }

    /** The camera's frame callback: a frame goes to the estimator only when at least
        40 ms have passed since the last frame that did. */
    method OnFrame(now: real) returns (process: bool)
      requires Valid()
      modifies this`lastFrameTime, this`frameTimes
      ensures Valid()
      ensures process <==> now - old(lastFrameTime) >= FRAME_INTERVAL
      ensures lastFrameTime == if process then now else old(lastFrameTime)
      ensures frameTimes == if process then old(frameTimes) + [now] else old(frameTimes)
    {
      if now - lastFrameTime < FRAME_INTERVAL {
        return false;
      }
      lastFrameTime := now;
      frameTimes := frameTimes + [now];
      process := true;
    }

    /** The estimator's results callback: with no hand it returns without an event and
        leaves the smoother alone; otherwise it smooths keypoint 9 of the first hand,
        classifies the hand and returns the event. */
    method OnResults(hands: seq<Landmarks>) returns (event: Option<HandData>)
      modifies this`smoothPos
      ensures hands == [] ==> event == None && smoothPos == old(smoothPos)
      ensures hands != [] ==> smoothPos == SmoothStep(old(smoothPos), hands[0][TRACKED])
      ensures hands != [] ==> event == Some(Classify(hands[0], smoothPos))
    {
      if |hands| == 0 {
        return None;
      }
      var landmarks := hands[0];
      var raw := landmarks[TRACKED];
      smoothPos := smoothPos.(x := smoothPos.x + (raw.x - smoothPos.x) * SMOOTHING);
      smoothPos := smoothPos.(y := smoothPos.y + (raw.y - smoothPos.y) * SMOOTHING);
      smoothPos := smoothPos.(z := smoothPos.z + (raw.z - smoothPos.z) * SMOOTHING);

      var extended := CountExtendedFingers(landmarks);
      var isFist := extended <= 0;
      var isOpen := extended >= FINGERS;
      var isPinching :=
        PlanarDistSq(Planar(landmarks[INDEX_TIP]), Planar(landmarks[THUMB_TIP])) < PINCH_DIST_SQ;
      event := Some(HandData(isFist, isOpen, isPinching, smoothPos, landmarks));
    }
  }

  /** Processed frames are pairwise at least 40 ms apart. */
  lemma ProcessedFramesApart(t: Tracker, i: nat, j: nat)
    requires t.Valid()
    requires i < j < |t.frameTimes|
    ensures t.frameTimes[j] - t.frameTimes[i] >= FRAME_INTERVAL
  {
    SpacedPairwise(t.frameTimes, i, j);
  }
}
