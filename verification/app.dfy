/** The interaction controller of App.tsx: the throttle on pose events, the gesture
    priority that picks the mode, the hover mapper of SCATTERED mode and the
    pinch-and-drag carousel of ZOOMED mode with its drag session. */
module App {
  import opened Geometry
  import opened Types

  /** An event moves the hand "significantly" beyond 0.005; compared on squares. */
  const MOVE_THRESHOLD_SQ: real := 0.000025
  /** A drag wider than this steps the carousel by one photo. */
  const DRAG_STEP: real := 0.18
  /** The number of slots the hover mapper and the carousel use while there are no photos. */
  const PLACEHOLDER_TOTAL: nat := 8

  /** The state the controller keeps between events: the mode, the active and hovered
      photo indices (-1 = none hovered), the last event, the last emitted position and
      the drag session (anchor and flag). */
  datatype ControllerState = ControllerState(
    gameState: TreeState,
    activePhotoIdx: int,
    hoverIdx: int,
    handData: Option<HandData>,
    lastHandPos: Point2,
    pinchStartX: Option<real>,
    isPinching: bool)

  const INITIAL: ControllerState :=
    ControllerState(Folded, 0, -1, None, Point2(0.0, 0.0), None, false)

  /** What every reachable state satisfies: the session flag is set exactly when an anchor
      is recorded, the active index is never negative and the hover index is -1 or a slot. */
  predicate SessionInvariant(s: ControllerState)
  {
    (s.isPinching <==> s.pinchStartX.Some?) && s.activePhotoIdx >= 0 && s.hoverIdx >= -1
  }

  /** The number of slots: the photo count, or the placeholder count when there are none. */
  function Total(photoCount: nat): (t: nat)
    ensures t >= 1
    ensures photoCount > 0 ==> t == photoCount
    ensures photoCount == 0 ==> t == PLACEHOLDER_TOTAL
  {
    if photoCount > 0 then photoCount else PLACEHOLDER_TOTAL
  }

  /** The candidate mode, by the fixed priority fist > pinch > open hand > no change. */
  function CandidateMode(data: HandData, current: TreeState): (m: TreeState)
    ensures m == Folded <==> data.isFist || (!data.isPinching && !data.isOpen && current == Folded)
    ensures m == Zoomed <==> !data.isFist && (data.isPinching || (!data.isOpen && current == Zoomed))
    ensures m == Scattered <==> !data.isFist && !data.isPinching && (data.isOpen || current == Scattered)
  {
    if data.isFist then Folded
    else if data.isPinching then Zoomed
    else if data.isOpen then Scattered
    else current
  }

  /** An event takes effect when the hand moved more than 0.005 in the image plane since
      the last event that did, or when it changes the mode. */
  predicate Emits(s: ControllerState, data: HandData)
  {
    PlanarDistSq(Planar(data.position), s.lastHandPos) > MOVE_THRESHOLD_SQ
      || CandidateMode(data, s.gameState) != s.gameState
  }

  function Min(a: int, b: int): int { if a < b then a else b }
  function Max(a: int, b: int): int { if a < b then b else a }

  /** The hovered slot for hand position x: mirrored, scaled to the slot count and clamped. */
  function HoverIndex(x: real, photoCount: nat): (r: int)
    ensures 0 <= r < Total(photoCount)
    // inside the frame the slot is the one under the mirrored position, no clamping needed
    ensures 0.0 < x <= 1.0 ==> r as real <= Mirrored(x, photoCount) < r as real + 1.0
  {
    var total := Total(photoCount);
    var idx := Mirrored(x, photoCount).Floor;
    MirroredInFrame(x, photoCount);
    Max(0, Min(idx, total - 1))
  }

  /** The mirrored hand position scaled to the slot count: `(1 - x) * total`. */
  function Mirrored(x: real, photoCount: nat): real
  {
    (1.0 - x) * Total(photoCount) as real
  }

  lemma MirroredInFrame(x: real, photoCount: nat)
    ensures 0.0 < x <= 1.0 ==> 0.0 <= Mirrored(x, photoCount) < Total(photoCount) as real
  {
    var t := Total(photoCount) as real;
    if 0.0 < x <= 1.0 {
      assert (1.0 - x) * t < 1.0 * t;
    }
  }

  /** Moving the hand to the right never raises the hovered slot. */
  lemma HoverMonotone(x1: real, x2: real, photoCount: nat)
    requires x1 <= x2
    ensures HoverIndex(x2, photoCount) <= HoverIndex(x1, photoCount)
  {
    MirroredMonotone(x1, x2, photoCount);
    FloorMonotone(Mirrored(x2, photoCount), Mirrored(x1, photoCount));
  }

  lemma MirroredMonotone(x1: real, x2: real, photoCount: nat)
    requires x1 <= x2
    ensures Mirrored(x2, photoCount) <= Mirrored(x1, photoCount)
  {
    var t := Total(photoCount) as real;
    assert (1.0 - x1) * t - (1.0 - x2) * t == (x2 - x1) * t;
  }

  lemma FloorMonotone(a: real, b: real)
    requires a <= b
    ensures a.Floor <= b.Floor
  {
  }

  /** JavaScript's `%` on integers: the remainder takes the sign of the dividend. */
  function JsRem(a: int, n: int): (r: int)
    requires n > 0
    ensures a >= 0 ==> r == a % n
  {
    if a >= 0 then a % n else -((-a) % n)
  }

  /** One carousel step over `total` slots, forward when the drag went right and backward
      otherwise: `(prev + 1) % total` or `(prev - 1 + total) % total`. */
  function CarouselStep(prev: int, deltaX: real, photoCount: nat): (r: int)
    ensures 0 <= prev ==> 0 <= r < Total(photoCount)
    // from any non-negative index, stale ones included, the step is one slot along the ring
    ensures 0 <= prev ==> r == (prev + (if deltaX > 0.0 then 1 else -1)) % Total(photoCount)
    // from a slot in range the step wraps around the ring
    ensures 0 <= prev < Total(photoCount) && deltaX > 0.0 ==>
      r == if prev == Total(photoCount) - 1 then 0 else prev + 1
    ensures 0 <= prev < Total(photoCount) && deltaX <= 0.0 ==>
      r == if prev == 0 then Total(photoCount) - 1 else prev - 1
  {
    var total := Total(photoCount);
    var dividend := if deltaX > 0.0 then prev + 1 else prev - 1 + total;
    if 0 <= prev then
      OneSlotAlong(prev, total, deltaX > 0.0);
      JsRem(dividend, total)
    else
      JsRem(dividend, total)
  }

  /** Both dividends of the step are non-negative from a non-negative index, so JavaScript's
      `%` is the Euclidean one and the step is one slot along the ring. */
  lemma OneSlotAlong(prev: int, total: int, forward: bool)
    requires 0 <= prev && total > 0
    ensures var r := JsRem(if forward then prev + 1 else prev - 1 + total, total);
      0 <= r < total
      && r == (prev + (if forward then 1 else -1)) % total
      && (prev < total && forward ==> r == if prev == total - 1 then 0 else prev + 1)
      && (prev < total && !forward ==> r == if prev == 0 then total - 1 else prev - 1)
  {
    if forward {
      if prev < total {
        RingSucc(prev, total);
      }
    } else {
      ModShift(prev - 1, total);
      if prev < total {
        RingPred(prev, total);
      }
    }
  }

  /** An index chosen on the placeholder ring of 8 and left stale by an upload of 3 photos
      still steps one slot along the new ring: 7 goes to 2 forward and to 0 backward. */
  lemma StaleIndexSteps()
    ensures CarouselStep(7, 0.2, 3) == 2
    ensures CarouselStep(7, -0.2, 3) == 0
  {
  }

  lemma RingSucc(prev: int, total: int)
    requires 0 <= prev < total
    ensures (prev + 1) % total == if prev == total - 1 then 0 else prev + 1
  {
    if prev == total - 1 {
      ModWrap(prev + 1, total);
    } else {
      ModSmall(prev + 1, total);
    }
  }

  lemma RingPred(prev: int, total: int)
    requires 0 <= prev < total
    ensures (prev - 1 + total) % total == if prev == 0 then total - 1 else prev - 1
  {
    if prev == 0 {
      ModSmall(total - 1, total);
    } else {
      ModWrap(prev - 1 + total, total);
    }
  }

  /** Adding one whole turn does not change the remainder. */
  lemma ModShift(a: int, n: int)
    requires n > 0
    ensures (a + n) % n == a % n
  {
    ModUnique(a + n, n, a / n + 1, a % n);
  }

  /** The quotient-remainder decomposition with a remainder in [0, n) is unique. */
  lemma ModUnique(a: int, n: int, q: int, r: int)
    requires n > 0 && 0 <= r < n && a == q * n + r
    ensures a % n == r
  {
    var q0, r0 := a / n, a % n;
    var d := q - q0;
    assert d * n == q * n - q0 * n;
    assert d * n == r0 - r;
    if d > 0 {
      AtLeastOneTurn(d, n);
    } else if d < 0 {
      AtLeastOneTurn(-d, n);
    }
  }

  lemma AtLeastOneTurn(k: int, n: int)
    requires k >= 1 && n > 0
    ensures k * n >= n
  {
    assert k * n == (k - 1) * n + n;
    assert (k - 1) * n >= 0;
  }

  lemma ModSmall(a: int, n: int)
    requires 0 <= a < n
    ensures a % n == a
  {
  }

  lemma ModWrap(a: int, n: int)
    requires n <= a < 2 * n
    ensures a % n == a - n
  {
  }

  /** The drag-session part of one emitted event that is pinching in ZOOMED mode: the first
      such event anchors the drag and carries the hovered photo over; later ones step the
      carousel each time the drag passes 0.18 and re-anchor it. */
  function PinchUpdate(s: ControllerState, photoCount: nat, x: real): ControllerState
  {
    if !s.isPinching then
      s.(pinchStartX := Some(x), isPinching := true,
         activePhotoIdx := if s.hoverIdx != -1 then s.hoverIdx else s.activePhotoIdx)
    else if s.pinchStartX.Some? then
      var deltaX := x - s.pinchStartX.value;
      if Abs(deltaX) > DRAG_STEP then
        s.(activePhotoIdx := CarouselStep(s.activePhotoIdx, deltaX, photoCount), pinchStartX := Some(x))
      else s
    else s
  }

  /** The controller's response to one pose event. */
  function HandUpdate(s: ControllerState, photoCount: nat, data: HandData): (r: ControllerState)
    // throttle: an event that neither moved nor changed the mode changes nothing at all
    ensures !Emits(s, data) ==> r == s
    ensures Emits(s, data) ==>
      r.lastHandPos == Planar(data.position) && r.handData == Some(data)
      && r.gameState == CandidateMode(data, s.gameState)
    // hover: only an emitted SCATTERED event moves the hovered slot, and into range
    ensures r.hoverIdx != s.hoverIdx ==> Emits(s, data) && r.gameState == Scattered
    ensures Emits(s, data) && r.gameState == Scattered ==> r.hoverIdx == HoverIndex(data.position.x, photoCount)
    // every emitted event that is not a pinch in ZOOMED mode ends the drag session
    ensures Emits(s, data) && !(data.isPinching && r.gameState == Zoomed) ==>
      !r.isPinching && r.pinchStartX == None
    // session start: anchor at x, no step, the hovered photo (if any) becomes active
    ensures Emits(s, data) && data.isPinching && r.gameState == Zoomed && !s.isPinching ==>
      r.isPinching && r.pinchStartX == Some(data.position.x)
      && r.activePhotoIdx == (if s.hoverIdx != -1 then s.hoverIdx else s.activePhotoIdx)
    // carousel: within a session a drag past 0.18 steps once and re-anchors, else nothing moves
    ensures Emits(s, data) && data.isPinching && r.gameState == Zoomed && s.pinchStartX.Some? && s.isPinching ==>
      var deltaX := data.position.x - s.pinchStartX.value;
      if Abs(deltaX) > DRAG_STEP then
        r.activePhotoIdx == CarouselStep(s.activePhotoIdx, deltaX, photoCount)
        && r.pinchStartX == Some(data.position.x)
      else
        r.activePhotoIdx == s.activePhotoIdx && r.pinchStartX == s.pinchStartX
    // the active photo changes only while pinching in ZOOMED mode
    ensures r.activePhotoIdx != s.activePhotoIdx ==>
      Emits(s, data) && data.isPinching && r.gameState == Zoomed
    ensures SessionInvariant(s) ==> SessionInvariant(r)
  {
    if !Emits(s, data) then s
    else
      var newState := CandidateMode(data, s.gameState);
      var hover := if newState == Scattered then HoverIndex(data.position.x, photoCount) else s.hoverIdx;
      var s1 := s.(lastHandPos := Planar(data.position), handData := Some(data),
                   gameState := newState, hoverIdx := hover);
      if data.isPinching && newState == Zoomed then PinchUpdate(s1, photoCount, data.position.x)
      else s1.(isPinching := false, pinchStartX := None)
  }

  /** Delivering the same event twice is the same as delivering it once: the repeat neither
      moves the hand nor changes the mode, so the throttle drops it. */
  lemma RepeatedEventIgnored(s: ControllerState, photoCount: nat, data: HandData)
    ensures HandUpdate(HandUpdate(s, photoCount, data), photoCount, data) == HandUpdate(s, photoCount, data)
  {
    var r := HandUpdate(s, photoCount, data);
    if Emits(s, data) {
      assert CandidateMode(data, r.gameState) == r.gameState;
      assert !Emits(r, data);
    }
  }

  /** The controller: the photo list and the state App.tsx keeps in React state cells and refs. */
  class Controller {
    var photos: seq<string>
    var gameState: TreeState
    var activePhotoIdx: int
    var hoverIdx: int
    var handData: Option<HandData>
    var lastHandPos: Point2
    var pinchStartX: Option<real>
    var isPinching: bool

    function State(): ControllerState
      reads this
    {
      ControllerState(gameState, activePhotoIdx, hoverIdx, handData, lastHandPos, pinchStartX, isPinching)
    }

    ghost predicate Valid()
      reads this
    {
      SessionInvariant(State())
    }

    constructor ()
      ensures Valid() && photos == [] && State() == INITIAL
    {
      photos := [];
      gameState := Folded;
      activePhotoIdx := 0;
      hoverIdx := -1;
      handData := None;
      lastHandPos := Point2(0.0, 0.0);
      pinchStartX := None;
      isPinching := false;
    }

    /** Uploaded photos are appended; the indices are left as they are. */
    method AddPhotos(urls: seq<string>)
      requires Valid()
      modifies this`photos
      ensures Valid()
      ensures photos == old(photos) + urls
    {
      photos := photos + urls;
    }

    /** The hand-update callback, one field update at a time. */
    method OnHandUpdate(data: HandData)
      requires Valid()
      modifies this
      ensures Valid()
      ensures photos == old(photos)
      ensures State() == HandUpdate(old(State()), |photos|, data)
    {
      var hasMovedSignificantly := PlanarDistSq(Planar(data.position), lastHandPos) > MOVE_THRESHOLD_SQ;
      var newState := CandidateMode(data, gameState);
      var stateChanged := newState != gameState;

      if hasMovedSignificantly || stateChanged {
        lastHandPos := Point2(data.position.x, data.position.y);
        handData := Some(data);
        if stateChanged {
          gameState := newState;
        }

        if newState == Scattered {
          var clampedIdx := HoverIndex(data.position.x, |photos|);
          if clampedIdx != hoverIdx {
            hoverIdx := clampedIdx;
          }
        }

        if data.isPinching && newState == Zoomed {
          if !isPinching {
            pinchStartX := Some(data.position.x);
            isPinching := true;
            if hoverIdx != -1 {
              activePhotoIdx := hoverIdx;
            }
          } else if pinchStartX.Some? {
            var deltaX := data.position.x - pinchStartX.value;
            if Abs(deltaX) > DRAG_STEP {
              activePhotoIdx := CarouselStep(activePhotoIdx, deltaX, |photos|);
              pinchStartX := Some(data.position.x);
            }
          }
        } else {
          isPinching := false;
          pinchStartX := None;
        }
      }
    }
  }

  /** A pinching, non-fist event at (x, 0.5). */
  function PinchAt(x: real, lm: Landmarks): HandData
  {
    HandData(false, false, true, Vec3(x, 0.5, 0.0), lm)
  }

  /** With five photos and a drag session anchored at 0.5 with photo 0 active, drags of
      +0.20, +0.20, -0.20 and -0.40 from the running anchor step the active photo
      0 -> 1 -> 2 -> 1 -> 0: one step per crossing, whatever the drag's length. */
  lemma CarouselWalk(lm: Landmarks)
    ensures
      var s0 := ControllerState(Zoomed, 0, -1, None, Point2(0.5, 0.5), Some(0.5), true);
      var s1 := HandUpdate(s0, 5, PinchAt(0.7, lm));
      var s2 := HandUpdate(s1, 5, PinchAt(0.9, lm));
      var s3 := HandUpdate(s2, 5, PinchAt(0.7, lm));
      var s4 := HandUpdate(s3, 5, PinchAt(0.3, lm));
      s1.activePhotoIdx == 1 && s2.activePhotoIdx == 2 && s3.activePhotoIdx == 1 && s4.activePhotoIdx == 0
  {
    var s0 := ControllerState(Zoomed, 0, -1, None, Point2(0.5, 0.5), Some(0.5), true);
    assert Sq(0.2) == 0.04 && Sq(0.4) == 0.16 && Sq(0.0) == 0.0;
    var s1 := HandUpdate(s0, 5, PinchAt(0.7, lm));
    assert s1.activePhotoIdx == 1 && s1.pinchStartX == Some(0.7) && s1.lastHandPos == Point2(0.7, 0.5);
    var s2 := HandUpdate(s1, 5, PinchAt(0.9, lm));
    assert s2.activePhotoIdx == 2 && s2.pinchStartX == Some(0.9) && s2.lastHandPos == Point2(0.9, 0.5);
    var s3 := HandUpdate(s2, 5, PinchAt(0.7, lm));
    assert s3.activePhotoIdx == 1 && s3.pinchStartX == Some(0.7) && s3.lastHandPos == Point2(0.7, 0.5);
    var s4 := HandUpdate(s3, 5, PinchAt(0.3, lm));
    assert s4.activePhotoIdx == 0;
  }
}
