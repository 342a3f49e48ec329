# Gesture-to-choreography engine of the hand-controlled Christmas tree

A verified Dafny model of the logic core of an interactive installation. A camera watches one
hand, and the hand's gestures steer a tree of 500 ornaments and a ring of photographs through
three modes: FOLDED, SCATTERED and ZOOMED.

The core has three layers.

- **Hand signal derivation** (`hand_tracker.dfy`, module `HandTracker`).
  - An exponential smoother follows keypoint 9 with factor 0.2, starting from (0.5, 0.5, 0).
  - A loop counts the extended fingers. A finger is extended when its tip is more than 1.3
    times as far from the wrist as its base knuckle, measured in x/y.
  - `isFist` means no finger is extended and `isOpen` means all four are.
  - A pinch is the thumb tip and index tip within 0.06 of each other.
  - A camera frame is processed only when 40 ms have passed since the last processed frame.
  - `class Tracker` holds the smoothed position and the throttle timestamp, updated in place.
- **Interaction controller** (`app.dfy`, module `App`).
  - `class Controller` has one field per React state cell and ref that the hand update uses. `OnHandUpdate` updates
    them one at a time, as the callback does.
  - The pure function `HandUpdate` specifies `OnHandUpdate`, and every property of the
    controller is proved about that function:
    - the emit throttle: more than 0.005 of movement, or a change of mode;
    - the mode priority: fist, then pinch, then open hand;
    - the mirrored and clamped hover index;
    - the pinch-and-drag carousel with its drag session.
- **Choreography** (`particles.dfy` and `photo_cloud.dfy`).
  - The particle layout loop builds the formation position, scatter position and scale of
    each ornament.
  - `class ParticleField` owns the current ornament positions (an `array`) and the five
    instanced meshes' slots (an `array2`). Its `Frame` method moves every ornament toward the
    target of the current mode and snaps it when close. It deals the ornaments round-robin
    into the meshes and steers the topper.
  - `photo_cloud.dfy` models the cloud's per-photo props, including the signed ring offset
    from the active photo.
  - It also models each photo's spiral and scatter layout and the target table per mode.
  - `class PhotoItem` eases a photo's position, scale and opacities in place on every frame.
    When an upload changes its index or the ring size, it is laid out again and keeps its
    animated state.

`geometry.dfy` holds the shared points, interpolation and squared distances. `types.dfy`
holds the mode, the pose event and the 21-keypoint landmark record.

Numbers are exact `real`s, so IEEE-754 rounding is not modelled. Every `Math.hypot` threshold
is compared on squares: 0.005² = 0.000025, 0.06² = 0.0036 and 1.3² = 1.69. This is equivalent
because both sides are non-negative. JavaScript's `%`, whose result takes the sign of the
dividend, is written out as `App.JsRem`.

Two behaviours of the code are kept as written:

- **No clamping on append.** Photos appended by an upload leave `activePhotoIdx` and
  `hoverIdx` as they are. They are not clamped into the new range.
  - An index chosen against the placeholder ring of 8 can therefore point past a shorter
    photo list.
  - In that case no photo is locked (`PhotoCloud.StaleActiveLocksNothing`).
- **Ring offset keeps both endpoints.** The ring offset is wrapped into the closed interval
  [-total/2, total/2], not a half-open one. With an even total, half a turn comes out as
  +total/2 when counted forward and as -total/2 when counted backward
  (`PhotoCloud.RingOffsetExamples`).

## Model

| member | source | states |
|---|---|---|
| Geometry.LerpFacts | components/PhotoCloud.tsx:77 | One interpolation step leaves exactly (1 - t) of the gap to the target. With t in [0, 1] the result lies between the start and the target. A start on the target stays there. A fraction below 1 never lands on the target from elsewhere. |
| Geometry.LerpVecFacts | components/Particles.tsx:90 | Vector3.lerp by a fraction in [0, 1] moves every coordinate toward the target without overshooting and never increases the squared distance. A point on its target stays there. A fraction below 1 never lands on the target from elsewhere. |
| Geometry.LerpCloser | components/Particles.tsx:90 | On one axis, a step by a fraction in [0, 1] never increases the squared gap to the target. |
| Geometry.PlanarDistSq | App.tsx:32 | The square of the x/y distance is non-negative and is zero exactly when the two points coincide. |
| Geometry.DistSq | components/Particles.tsx:91 | The squared spatial distance is non-negative and is zero exactly when the points coincide. |
| Geometry.Spread | components/Particles.tsx:57-59 | A draw u in [0, 1) spread as (u - 0.5) * width lies in [-width/2, width/2). |
| HandTracker.FingerTip | components/HandTracker.tsx:78 | The tip keypoint of each of the four fingers is a valid keypoint index. |
| HandTracker.FingerBase | components/HandTracker.tsx:79 | The base keypoint of each of the four fingers is a valid keypoint index. |
| HandTracker.SmoothStep | components/HandTracker.tsx:72-74 | One smoother step multiplies the remaining error by exactly 0.8 on every axis. The new value lies between the old accumulator and the raw sample. A sample equal to the accumulator leaves it unchanged. |
| HandTracker.SmoothingDecay | components/HandTracker.tsx:72-74 | After n frames with the same raw sample, the error on each axis is 0.8^n times the initial error. |
| HandTracker.SmoothingFixedPoint | components/HandTracker.tsx:72-74 | Feeding the accumulator's own value any number of times leaves it unchanged. |
| HandTracker.ExtendedCount | components/HandTracker.tsx:81-88 | The count over n fingers is at most n. |
| HandTracker.ExtendedCountExtremes | components/HandTracker.tsx:81-92 | The count is 0 exactly when no finger is extended and n exactly when all of them are. |
| HandTracker.ExtendedCountIsCardinality | components/HandTracker.tsx:81-88 | The count equals the number of fingers whose tip is more than 1.3 times as far from the wrist (in x/y) as their base. |
| HandTracker.CountExtendedFingers | components/HandTracker.tsx:81-88 | The counting loop returns that count, which is in [0, 4]. |
| HandTracker.Classify | components/HandTracker.tsx:90-92 | isFist holds iff no finger is extended and isOpen iff all four are, so never both. isPinching holds iff keypoints 8 and 4 are within 0.06 in x/y. The event carries the smoothed position and the keypoints. |
| HandTracker.FistCanPinch | components/HandTracker.tsx:90-92 | A hand whose keypoints all coincide is classified as both a fist and a pinch, so the pinch test does not depend on the finger count. |
| HandTracker.OpenCanPinch | components/HandTracker.tsx:90-92 | A hand with the wrist at the origin, every fingertip at (0.5, 0) and every finger base at (0.1, 0) in x/y, and the thumb tip on the index tip, is both open and pinching. |
| HandTracker.StretchedFinger | components/HandTracker.tsx:83-87 | A finger whose tip is five times as far from the wrist as its base (in x/y) is extended, provided the base is not on the wrist. |
| HandTracker.SpacedPairwise | components/HandTracker.tsx:110-112 | In a timestamp sequence whose neighbours are at least 40 apart, entries i <= j are at least 40 * (j - i) apart. |
| HandTracker.Tracker.constructor | components/HandTracker.tsx:13-21 | The smoother starts at (0.5, 0.5, 0) and the throttle timestamp at 0. |
| HandTracker.Tracker.OnFrame | components/HandTracker.tsx:110-112 | A frame is processed iff at least 40 ms have passed since the last processed frame. Only then is the timestamp moved to the frame's time and added to the history of processed times. |
| HandTracker.Tracker.OnResults | components/HandTracker.tsx:62-103 | With no hand it returns no event and leaves the smoothed position alone. Otherwise it takes one smoother step toward keypoint 9 of the first hand and returns that hand's classification at the new smoothed position. |
| HandTracker.ProcessedFramesApart | components/HandTracker.tsx:110-112 | Any two processed frames are at least 40 ms apart. |
| App.Total | App.tsx:53 | The ring has at least one slot: the photo count, or the placeholder 8 when there are no photos. |
| App.CandidateMode | App.tsx:36-41 | A fist yields FOLDED whatever the other flags. Otherwise a pinch yields ZOOMED, otherwise an open hand yields SCATTERED, and with no flag the mode is kept. Each mode is characterised in both directions. |
| App.HoverIndex | App.tsx:52-56 | The hover index is always a slot in [0, total). For x in (0, 1] it is the slot under the mirrored position: index <= (1 - x) * total < index + 1. |
| App.HoverMonotone | App.tsx:54-55 | Moving the hand to the right never raises the hovered slot. |
| App.JsRem | App.tsx:69 | JavaScript's integer remainder agrees with Euclidean `%` on non-negative dividends. |
| App.CarouselStep | App.tsx:68-69 | From any non-negative index, stale ones past the end included, the step lands one slot along the ring: (prev + 1) mod total when the drag went right and (prev - 1) mod total otherwise, in [0, total). From a slot in range, forward wraps from the last slot to 0 and backward from 0 to the last slot. |
| App.StaleIndexSteps | App.tsx:68-69 | With 3 photos, the index 7 left over from the placeholder ring of 8 steps to 2 forward and to 0 backward. |
| App.HandUpdate | App.tsx:30-78 | See the list below the table. |
| App.RepeatedEventIgnored | App.tsx:32-45 | Delivering the same event twice has the same effect as delivering it once. |
| App.CarouselWalk | App.tsx:65-71 | With 5 photos and a session anchored at 0.5, the hand positions 0.7, 0.9, 0.7, 0.3 step the active photo 0 -> 1 -> 2 -> 1 -> 0. A drag of 0.40 steps only once. |
| App.Controller.constructor | App.tsx:11-20 | The controller starts with no photos, in FOLDED, with active photo 0, nothing hovered and no drag session. |
| App.Controller.AddPhotos | App.tsx:22-28 | Uploaded photos are appended and the indices are left as they are. The session invariant is kept. |
| App.Controller.OnHandUpdate | App.tsx:30-78 | Updating the fields one at a time, as the callback does, yields exactly `HandUpdate` of the old state. The photos are untouched and the session invariant is kept. |
| Particles.HeightFraction | components/Particles.tsx:30 | The height parameter i / 500 of every ornament lies in [0, 1). |
| Particles.Shaped | components/Particles.tsx:37 | The shaped parameter t² lies in [0, 1). |
| Particles.FormationY | components/Particles.tsx:39 | Every formation height lies in [-4.5, 4.5). |
| Particles.BaseRadius | components/Particles.tsx:41 | Every cone radius before jitter lies in (0.1, 2.9]. |
| Particles.FormationRises | components/Particles.tsx:37-41 | A later ornament sits strictly higher, with a strictly smaller cone radius before jitter. |
| Particles.JitteredRadius | components/Particles.tsx:41-47 | The radius an ornament is placed at is its cone radius plus a jitter of size below 0.25, so it lies in (-0.15, 3.15). |
| Particles.JitterCanReverse | components/Particles.tsx:41-47 | The jitter can reverse the cone's order: ornament 101 can stand farther from the axis than ornament 100. |
| Particles.PlacedAtJitteredRadius | components/Particles.tsx:46-53 | Given the cosine and sine of one bearing, an ornament's horizontal distance from the axis is exactly its jittered radius. |
| Particles.ParticleAt | components/Particles.tsx:30-71 | The formation height is `FormationY`. The ornament stands on its bearing at `JitteredRadius`, so it is at most 3.15 from the axis in x and z. The scatter position lies in the 45 x 35 x 25 box centred on the origin. The base scale lies in [0.09, 0.16). |
| Particles.BuildParticleData | components/Particles.tsx:24-74 | The layout loop yields 500 records, record i being the layout of ornament i from its draws. |
| Particles.Target | components/Particles.tsx:87 | An ornament heads for its formation position in FOLDED and for its scatter position in every other mode. |
| Particles.Rate | components/Particles.tsx:83 | The lerp fraction is a proper fraction, and it is 0.08 exactly in FOLDED and 0.04 in every other mode. |
| Particles.ParticleStep | components/Particles.tsx:90-91 | After a step the ornament is either exactly on the target or at the lerped point at least 0.01 from it. An ornament on its target stays. A proper fraction never moves an ornament away from its target, per axis or in distance. An ornament whose lerped point is still far away is not snapped. |
| Particles.SlotOf | components/Particles.tsx:95 | Ornament i goes to mesh i % 5 and slot floor(i / 5), with slot * 5 + mesh = i. The mesh is in [0, 5) and, for i < 500, the slot is below each mesh's capacity of 100. |
| Particles.SlotsPartition | components/Particles.tsx:114-115 | Distinct ornaments go to distinct (mesh, slot) pairs. |
| Particles.EverySlotDealt | components/Particles.tsx:150 | Every slot of every mesh receives exactly one ornament, namely ornament slot * 5 + mesh. |
| Particles.FinalScale | components/Particles.tsx:97-101 | The glow-dust class (mesh 3) is shrunk to 0.45 of its base scale and the candy canes (mesh 4) enlarged to 1.1. Every other class keeps its base scale. |
| Particles.Pulse | components/Particles.tsx:106 | For a sine in [-1, 1] the pulse factor lies in [0.8, 1.2]. |
| Particles.InstanceScale | components/Particles.tsx:103-111 | In FOLDED a slot's scale is the class scale. Otherwise it pulses within 0.8 to 1.2 times the class scale. |
| Particles.TopperTarget | components/Particles.tsx:121-123 | The topper heads for (0, 4.9, 0) exactly in FOLDED and for (0, 60, 0) otherwise. |
| Particles.TopperScale | components/Particles.tsx:126 | The topper's scale is 0.75 exactly in FOLDED and 0.001 otherwise. |
| Particles.ParticleField.constructor | components/Particles.tsx:24-77 | The layout is built from the draws and every ornament starts at its formation position. |
| Particles.ParticleField.Frame | components/Particles.tsx:79-128 | Every ornament takes one `ParticleStep` toward its mode's target at its mode's rate. Every one of the 5 x 100 mesh slots is rewritten from the ornament dealt to it, at that ornament's new position and instance scale. The topper lerps toward its target at 0.1 and takes its mode's scale. The topper shares no state with the ornaments, so `Frame` eases it before the ornament loop; the outcome is the same as after it. |
| Particles.ParticleField.MoveOrnaments | components/Particles.tsx:85-115 | The ornament loop alone: every ornament takes one `ParticleStep`, and every mesh slot is rewritten from the ornament dealt to it. |
| PhotoCloud.RingOffset | components/PhotoCloud.tsx:146-149 | The offset always differs from i - active by 0 or one whole turn, and the locked photo's offset is 0. For indices in range it lies in [-total/2, total/2]. It is congruent to i - active modulo total, so it is the shorter way round the ring. A raw difference within half a turn either way, ties included, is kept unchanged. |
| PhotoCloud.RingOffsetExamples | components/PhotoCloud.tsx:146-149 | With six photos and photo 1 active, photo 5 has offset -2. Half a turn is +3 forward and -3 backward. |
| PhotoCloud.Cloud | components/PhotoCloud.tsx:140-166 | One props record per photo, in order. An empty list yields none. Photo i is hovered iff i is the hover index and locked iff i is the active index, and carries its ring offset. |
| PhotoCloud.LockAndHoverUnique | components/PhotoCloud.tsx:158-159 | At most one photo is locked and at most one hovered. The locked one has offset 0. When the active index is in range, that photo is locked. |
| PhotoCloud.StaleActiveLocksNothing | components/PhotoCloud.tsx:159 | An active index at or past the end of the list locks no photo. |
| PhotoCloud.SpiralY | components/PhotoCloud.tsx:24-26 | Every photo's spiral height lies in [-3, 3). Its normalised height is index / total. |
| PhotoCloud.SpiralRises | components/PhotoCloud.tsx:25 | A later photo sits strictly higher on the spiral. |
| PhotoCloud.SpiralSinksOnGrowth | components/PhotoCloud.tsx:24 | When the ring grows, the first photo keeps its spiral height and every later photo moves strictly lower. |
| PhotoCloud.PhotoLayout | components/PhotoCloud.tsx:23-39 | The spiral point has height `SpiralY` and lies within 2.65 of the axis in x and z. The scatter point lies in the 20 x 18 x 12 box centred on the origin. |
| PhotoCloud.TargetFor | components/PhotoCloud.tsx:57-74 | See the list below the table. |
| PhotoCloud.PhotoStepEases | components/PhotoCloud.tsx:76-104 | See the list below the table. |
| PhotoCloud.PhotoItem.constructor | components/PhotoCloud.tsx:18-39 | A photo's layout is computed from its index, the total and its draws. It starts at the origin at unit scale, fully opaque and visible. |
| PhotoCloud.PhotoItem.Relayout | components/PhotoCloud.tsx:22-39 | An item rendered again with a new index or ring size gets the layout of its new index and size from fresh draws; with both unchanged the memoised layout is kept. Its position, scale and opacities carry over unchanged, so it eases toward the new layout from where it was. |
| PhotoCloud.PhotoItem.Frame | components/PhotoCloud.tsx:54-105 | Picking the target and easing the fields in place yields exactly `PhotoStep` of the old state toward `TargetFor` of the frame's inputs. |
| PhotoCloud.PhotoItem.EaseToward | components/PhotoCloud.tsx:76-104 | Easing position, scale and both opacities in place, and setting each visibility from its new opacity, yields exactly `PhotoStep` of the old state toward the given target. |

`App.HandUpdate` states the following:

- An event that neither moves the hand more than 0.005 in x/y nor changes the mode changes
  nothing.
- Otherwise the event:
  - records its x/y and the event itself;
  - sets the mode to the candidate mode.
- The hover index changes only on an emitted SCATTERED event, and then becomes
  `HoverIndex`.
- An emitted event that is not a pinch in ZOOMED clears the drag session.
- The first pinch of a session anchors it at x without stepping. It makes the hovered photo,
  if there is one, the active photo.
- Within a session, a drag beyond 0.18 steps the carousel once and re-anchors it. A smaller
  drag changes nothing.
- The active photo changes only while pinching in ZOOMED.
- The session invariant is preserved: the drag flag is set iff an anchor is recorded, the
  active index is non-negative and the hover index is at least -1.

`PhotoCloud.TargetFor` is the target table:

- FOLDED: the spiral point, scale 0.3, opacity 1.
- SCATTERED: the scatter point, scale 2.8 if hovered and 1.4 otherwise, opacity 1.
- ZOOMED, the locked photo: the origin, scale 5.2, opacity 1.
- ZOOMED, any other photo: (15 · offset, 35, -25), scale 0.001, opacity 0.

It also states that only the photos sent away in ZOOMED fade out, and that every target scale
is positive.

`PhotoCloud.PhotoStepEases` states the following about one frame of easing, `PhotoStep`:

- Position, x/y scale and both opacities each move toward their target without overshooting.
  The position never gains distance.
- The z scale is 1.
- Each material is visible iff its opacity is above 0.01.
- Nothing reaches its target in one frame from elsewhere: photos never snap.
- A photo at rest on its target stays exactly there.

## Left out

- MediaPipe and camera plumbing (components/HandTracker.tsx:23-60, 105-135) are foreign,
  asynchronous I/O and are not part of this model. This covers loading the scripts,
  constructing `Hands` and `Camera`, `send` with its swallowed exception, and teardown. The
  estimator's output is the `hands` parameter of `Tracker.OnResults`, and `performance.now()`
  is the `now` parameter of `Tracker.OnFrame`.
- The `isMounted` and null-ref guards (components/HandTracker.tsx:63, 108;
  components/Particles.tsx:81, 120; components/PhotoCloud.tsx:55, 86, 101) are not modelled.
  The model assumes a mounted component whose meshes and materials exist.
- The `atan2` wrist-roll angle (components/HandTracker.tsx:93) is transcendental, and nothing
  in the core reads it. The pose event therefore has no rotation field.
- Randomness and trigonometry in the layouts are parameters:
  - the `Math.random()` draws (in [0, 1));
  - `cos` and `sin` of the bearing (in [-1, 1]);
  - the photo radius term `(1 - normalizedY) ^ 1.4` (in [0, 1]);
  - the sine of the particle pulse.

  The golden angle and the helix angle are therefore not computed.
- Rotation is rendering state and is not modelled:
  - the particles' base rotation and their per-frame spin driven by `delta`
    (components/Particles.tsx:62-66, 103-105, 109);
  - the topper's spin (components/Particles.tsx:127);
  - the photos' quaternion slerp and `lookAt` billboarding (components/PhotoCloud.tsx:80-84).
- Matrix composition (`updateMatrix`) and texture filter and anisotropy settings
  (components/PhotoCloud.tsx:41-52, 91-98) are rendering and are not modelled. An instance
  slot is modelled as the position and scale written into it.
- components/Experience.tsx is not part of this model. It holds camera tweens and group
  transforms over an animation library.
- The instructions overlay (`showInstructions`, App.tsx:16 and 123) is presentation only. The
  hand update never reads it, so the controller has no field for it.
- The upload UI and `URL.createObjectURL` are not part of this model. `Controller.AddPhotos`
  takes the new URLs directly.
- React's deferred state commits are not modelled: the setters are sequential field updates,
  and each event sees the state left by the previous one. Within one event this is exact,
  because the hover write (SCATTERED only) and the read of `hoverIdx` in the pinch branch
  (ZOOMED only) never happen in the same event. Across events it assumes that React commits
  the previous event's updates, re-renders, and refreshes the tracker's callback ref
  (components/HandTracker.tsx:15-18) before the next result arrives. The callback reads
  `gameState`, `hoverIdx` and `photos.length` from the last committed render (App.tsx:78),
  so two results delivered before a commit would both see the older state.
- HandTracker.SmoothingDecay: states the exact geometric decay 0.8^n of the error. It does
  not derive a number of frames after which the error is below a given epsilon.
- IEEE-754 rounding is not modelled. With exact reals, the photo easing never reaches its
  target, whereas doubles eventually round onto it.
