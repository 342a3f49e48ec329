/** The photo ring of PhotoCloud.tsx: each photo's signed ring offset from the active photo,
    its spiral and scatter layout, the per-mode target table and the per-frame easing of
    its position, scale and the opacity and visibility of its image and border. */
module PhotoCloud {
  import opened Geometry
  import opened Types

  /** The height of the photo spiral. */
  const SPIRAL_HEIGHT: real := 6.0
  const POSITION_RATE: real := 0.1
  const SCALE_RATE: real := 0.12
  const OPACITY_RATE: real := 0.15
  /** A material is drawn only while its opacity is above this. */
  const VISIBLE_ABOVE: real := 0.01

  /** The signed ring offset of photo i from the active photo: the raw difference, moved by
      one turn of the ring when it lies beyond half a turn either way. A difference of
      exactly half a turn is kept as it is, so both endpoints occur. */
  function RingOffset(i: int, active: int, total: nat): (r: int)
    requires total > 0
    ensures r == i - active || r == i - active - total || r == i - active + total
    ensures i == active ==> r == 0
    // within half a turn either way, ends included, hence the nearer way round the ring
    ensures 0 <= i < total && 0 <= active < total ==> -(total as int) <= 2 * r <= total
    ensures 0 <= i < total && 0 <= active < total ==> (r - (i - active)) % total == 0
    // a raw difference of at most half a turn either way, ties included, is kept as it is
    ensures -(total as int) <= 2 * (i - active) <= total ==> r == i - active
  {
    var offset := i - active;
    HalfTurn(offset, total);
    var offset1 := if offset as real > total as real / 2.0 then offset - total else offset;
    HalfTurn(offset1, total);
    var r := if offset1 as real < -(total as real) / 2.0 then offset1 + total else offset1;
    WholeTurns(r - (i - active), total);
    r
  }

  /** Comparing with half the ring in reals is comparing twice the offset in integers. */
  lemma HalfTurn(o: int, total: nat)
    ensures (o as real > total as real / 2.0) <==> 2 * o > total
    ensures (o as real < -(total as real) / 2.0) <==> 2 * o < -(total as int)
  {
  }

  lemma WholeTurns(d: int, total: nat)
    requires total > 0 && (d == 0 || d == total || d == -(total as int))
    ensures d % total == 0
  {
  }

  /** With six photos and photo 1 active, photo 5 sits two places before it, not four after;
      half a turn is reported as +3 going forward and as -3 going backward. */
  lemma RingOffsetExamples()
    ensures RingOffset(5, 1, 6) == -2
    ensures RingOffset(3, 0, 6) == 3
    ensures RingOffset(0, 3, 6) == -3
  {
  }

  /** What the cloud hands to one photo. */
  datatype PhotoProps = PhotoProps(
    url: string,
    index: nat,
    total: nat,
    isHovered: bool,
    isLocked: bool,
    offsetIndex: int)

  /** The props of every photo, in list order; an empty list renders nothing. */
  function Cloud(photos: seq<string>, activePhotoIdx: int, hoverIdx: int): (r: seq<PhotoProps>)
    ensures |r| == |photos|
    ensures forall i :: 0 <= i < |r| ==>
      r[i].url == photos[i] && r[i].index == i && r[i].total == |photos|
      && (r[i].isHovered <==> i == hoverIdx)
      && (r[i].isLocked <==> i == activePhotoIdx)
      && r[i].offsetIndex == RingOffset(i, activePhotoIdx, |photos|)
  {
    if |photos| == 0 then []
    else
      seq(|photos|, i requires 0 <= i < |photos| =>
        PhotoProps(photos[i], i, |photos|, i == hoverIdx, i == activePhotoIdx,
                   RingOffset(i, activePhotoIdx, |photos|)))
  }

  /** At most one photo is locked and at most one is hovered; the locked one has offset 0;
      when the active index is a valid slot exactly that photo is locked. */
  lemma LockAndHoverUnique(photos: seq<string>, activePhotoIdx: int, hoverIdx: int)
    ensures var r := Cloud(photos, activePhotoIdx, hoverIdx);
      (forall i, j :: 0 <= i < |r| && 0 <= j < |r| && r[i].isLocked && r[j].isLocked ==> i == j)
      && (forall i, j :: 0 <= i < |r| && 0 <= j < |r| && r[i].isHovered && r[j].isHovered ==> i == j)
      && (forall i :: 0 <= i < |r| && r[i].isLocked ==> r[i].offsetIndex == 0)
      && (0 <= activePhotoIdx < |photos| ==> r[activePhotoIdx].isLocked)
  {
  }

  /** An active index left over from a longer placeholder ring locks no photo at all. */
  lemma StaleActiveLocksNothing(photos: seq<string>, activePhotoIdx: int, hoverIdx: int)
    requires activePhotoIdx >= |photos|
    ensures forall p :: p in Cloud(photos, activePhotoIdx, hoverIdx) ==> !p.isLocked
  {
    var r := Cloud(photos, activePhotoIdx, hoverIdx);
    forall p | p in r
      ensures !p.isLocked
    {
      var i :| 0 <= i < |r| && r[i] == p;
    }
  }

  /** The transcendental and random inputs of one photo's layout: the three scatter draws
      (Math.random() values), the cosine and sine of its bearing on the helix, and the value
      of `(1 - normalizedY) ^ 1.4`. */
  datatype PhotoDraw = PhotoDraw(scatter: Vec3, cosAngle: real, sinAngle: real, radiusPow: real)

  predicate ValidPhotoDraw(d: PhotoDraw)
  {
    UnitDraws(d.scatter) && -1.0 <= d.cosAngle <= 1.0 && -1.0 <= d.sinAngle <= 1.0
    && 0.0 <= d.radiusPow <= 1.0
  }

  /** A photo's two resting places. */
  datatype PhotoPositions = PhotoPositions(tree: Vec3, scatter: Vec3)

  /** The height of photo `index` of `total` on the spiral, `-3 + (index / total) * 6`. */
  function SpiralY(index: nat, total: nat): (y: real)
    requires index < total
    ensures -SPIRAL_HEIGHT / 2.0 <= y < SPIRAL_HEIGHT / 2.0
    // the height, normalised to [0, 1), is the photo's place in the list
    ensures (y + SPIRAL_HEIGHT / 2.0) / SPIRAL_HEIGHT == index as real / total as real
  {
    var f := index as real / total as real;
    FractionBelowOne(index, total);
    -(SPIRAL_HEIGHT / 2.0) + f * SPIRAL_HEIGHT
  }

  lemma FractionBelowOne(index: nat, total: nat)
    requires index < total
    ensures 0.0 <= index as real / total as real < 1.0
  {
    var f := index as real / total as real;
    assert f * total as real == index as real;
  }

  /** Later photos sit strictly higher on the spiral. */
  lemma SpiralRises(i: nat, j: nat, total: nat)
    requires i < j < total
    ensures SpiralY(i, total) < SpiralY(j, total)
  {
    var t := total as real;
    var fi, fj := i as real / t, j as real / t;
    assert fi * t == i as real && fj * t == j as real;
    assert (fj - fi) * t == j as real - i as real;
  }

  /** When photos are appended, every photo but the first slides down the spiral, and the
      first stays at the bottom. */
  lemma {:induction false} SpiralSinksOnGrowth(index: nat, total: nat, newTotal: nat)
    requires index < total < newTotal
    ensures index == 0 ==> SpiralY(index, newTotal) == SpiralY(index, total)
    ensures index > 0 ==> SpiralY(index, newTotal) < SpiralY(index, total)
  {
    var t, n := total as real, newTotal as real;
    var fo, fn := index as real / t, index as real / n;
    assert fo * t == index as real && fn * n == index as real;
    if index > 0 {
      assert fn * n == fo * t;
      assert fn * (n - t) == (fo - fn) * t;
      MulPositive(fn, n - t);
      assert Mul(fn, n - t) == fn * (n - t);
      assert (fo - fn) * t > 0.0;
    }
  }

  /** The layout of one photo: a point on the helix, whose radius
      `radiusPow * 2.3 + 0.35` stays within [0.35, 2.65], and a point in the 20 x 18 x 12
      scatter box. */
  function PhotoLayout(index: nat, total: nat, d: PhotoDraw): (p: PhotoPositions)
    requires index < total && ValidPhotoDraw(d)
    ensures p.tree.y == SpiralY(index, total)
    ensures Abs(p.tree.x) <= 2.65 && Abs(p.tree.z) <= 2.65
    ensures -10.0 <= p.scatter.x < 10.0
    ensures -9.0 <= p.scatter.y < 9.0
    ensures -6.0 <= p.scatter.z < 6.0
  {
    var radius := d.radiusPow * 2.3 + 0.35;
    BoundedProduct(d.cosAngle, radius, 2.65);
    BoundedProduct(d.sinAngle, radius, 2.65);
    PhotoPositions(
      Vec3(d.cosAngle * radius, SpiralY(index, total), d.sinAngle * radius),
      Vec3(Spread(d.scatter.x, 20.0), Spread(d.scatter.y, 18.0), Spread(d.scatter.z, 12.0)))
  }

  /** What a photo eases toward in one frame. */
  datatype PhotoTarget = PhotoTarget(position: Vec3, scale: real, opacity: real)

  /** The target table: the spiral when folded, the scatter point (large when hovered) when
      scattered, and when zoomed the origin for the locked photo or a far-off point to the
      side given by its ring offset for every other one. */
  function TargetFor(mode: TreeState, positions: PhotoPositions, isHovered: bool, isLocked: bool,
                     offsetIndex: int): (t: PhotoTarget)
    ensures mode == Folded ==> t == PhotoTarget(positions.tree, 0.3, 1.0)
    ensures mode == Scattered ==>
      t == PhotoTarget(positions.scatter, if isHovered then 2.8 else 1.4, 1.0)
    ensures mode == Zoomed && isLocked ==> t == PhotoTarget(Vec3(0.0, 0.0, 0.0), 5.2, 1.0)
    ensures mode == Zoomed && !isLocked ==>
      t == PhotoTarget(Vec3(offsetIndex as real * 15.0, 35.0, -25.0), 0.001, 0.0)
    // only the photos sent away in ZOOMED mode fade out; every target scale is positive
    ensures t.opacity == 0.0 <==> mode == Zoomed && !isLocked
    ensures t.opacity == 0.0 || t.opacity == 1.0
    ensures t.scale > 0.0
  {
    if mode == Scattered then
      PhotoTarget(positions.scatter, if isHovered then 2.8 else 1.4, 1.0)
    else if mode == Zoomed then
      if isLocked then PhotoTarget(Vec3(0.0, 0.0, 0.0), 5.2, 1.0)
      else PhotoTarget(Vec3(offsetIndex as real * 15.0, 35.0, -25.0), 0.001, 0.0)
    else
      PhotoTarget(positions.tree, 0.3, 1.0)
  }

  /** The animated state of one photo: its group's position and scale, and each material's
      opacity and visibility. */
  datatype PhotoVisual = PhotoVisual(
    position: Vec3,
    scale: Vec3,
    imageOpacity: real,
    imageVisible: bool,
    borderOpacity: real,
    borderVisible: bool)

  /** A photo resting exactly on its target: nothing left to ease. */
  predicate AtRest(v: PhotoVisual, t: PhotoTarget)
  {
    v.position == t.position && v.scale == Vec3(t.scale, t.scale, 1.0)
    && v.imageOpacity == t.opacity && v.borderOpacity == t.opacity
    && v.imageVisible == (t.opacity > VISIBLE_ABOVE) && v.borderVisible == (t.opacity > VISIBLE_ABOVE)
  }

  /** One frame of easing: position by 0.1, the x/y scale by 0.12 from the current x scale
      (z scale is 1), each opacity by 0.15, each material visible iff its opacity is above
      0.01. */
  function PhotoStep(v: PhotoVisual, t: PhotoTarget): PhotoVisual
  {
    var s := Lerp(v.scale.x, t.scale, SCALE_RATE);
    var imageOpacity := Lerp(v.imageOpacity, t.opacity, OPACITY_RATE);
    var borderOpacity := Lerp(v.borderOpacity, t.opacity, OPACITY_RATE);
    PhotoVisual(LerpVec(v.position, t.position, POSITION_RATE), Vec3(s, s, 1.0),
                imageOpacity, imageOpacity > VISIBLE_ABOVE,
                borderOpacity, borderOpacity > VISIBLE_ABOVE)
  }

  /** What one frame of easing does to a photo. */
  lemma PhotoStepEases(v: PhotoVisual, t: PhotoTarget)
    ensures var r := PhotoStep(v, t);
      // every quantity moves toward its target and never overshoots
      DistSq(r.position, t.position) <= DistSq(v.position, t.position)
      && r.scale.x == r.scale.y && r.scale.z == 1.0 && Between(v.scale.x, r.scale.x, t.scale)
      && Between(v.imageOpacity, r.imageOpacity, t.opacity)
      && Between(v.borderOpacity, r.borderOpacity, t.opacity)
      && (r.imageVisible <==> r.imageOpacity > VISIBLE_ABOVE)
      && (r.borderVisible <==> r.borderOpacity > VISIBLE_ABOVE)
      // nothing teleports: a quantity not yet on its target is still off it after the frame
      && (v.position != t.position ==> r.position != t.position)
      && (v.scale.x != t.scale ==> r.scale.x != t.scale)
      && (v.imageOpacity != t.opacity ==> r.imageOpacity != t.opacity)
      && (v.borderOpacity != t.opacity ==> r.borderOpacity != t.opacity)
      // a photo at rest stays exactly where it is
      && (AtRest(v, t) ==> r == v)
  {
    LerpVecFacts(v.position, t.position, POSITION_RATE);
    LerpFacts(v.scale.x, t.scale, SCALE_RATE);
    LerpFacts(v.imageOpacity, t.opacity, OPACITY_RATE);
    LerpFacts(v.borderOpacity, t.opacity, OPACITY_RATE);
  }

  /** One photo of the ring: its fixed layout and its animated state. */
  class PhotoItem {
    const url: string
    var index: nat
    var total: nat
    var positions: PhotoPositions
    var position: Vec3
    var scale: Vec3
    var imageOpacity: real
    var imageVisible: bool
    var borderOpacity: real
    var borderVisible: bool

    function Visual(): PhotoVisual
      reads this
    {
      PhotoVisual(position, scale, imageOpacity, imageVisible, borderOpacity, borderVisible)
    }

    /** A new photo starts at the origin, at unit scale, fully opaque and visible. */
    constructor (url: string, index: nat, total: nat, draw: PhotoDraw)
      requires index < total && ValidPhotoDraw(draw)
      ensures this.url == url && this.index == index && this.total == total
      ensures positions == PhotoLayout(index, total, draw)
      ensures Visual() == PhotoVisual(Vec3(0.0, 0.0, 0.0), Vec3(1.0, 1.0, 1.0), 1.0, true, 1.0, true)
    {
      this.url := url;
      this.index := index;
      this.total := total;
      positions := PhotoLayout(index, total, draw);
      position := Vec3(0.0, 0.0, 0.0);
      scale := Vec3(1.0, 1.0, 1.0);
      imageOpacity := 1.0;
      imageVisible := true;
      borderOpacity := 1.0;
      borderVisible := true;
    }

    /** The item is rendered again under the same key with new props. Its layout is
        memoised on its index and the ring size: when either changes, a new spiral point and
        new scatter draws replace the old ones, and the photo then eases toward them from
        wherever it is; otherwise the memoised layout is kept. */
    method Relayout(newIndex: nat, newTotal: nat, draw: PhotoDraw)
      requires newIndex < newTotal && ValidPhotoDraw(draw)
      modifies this`index, this`total, this`positions
      ensures index == newIndex && total == newTotal
      ensures (old(index), old(total)) != (newIndex, newTotal) ==>
        positions == PhotoLayout(newIndex, newTotal, draw)
      ensures (old(index), old(total)) == (newIndex, newTotal) ==> positions == old(positions)
      // the animated state carries over: nothing jumps
      ensures Visual() == old(Visual())
    {
      if index != newIndex || total != newTotal {
        positions := PhotoLayout(newIndex, newTotal, draw);
      }
      index, total := newIndex, newTotal;
    }

    /** One animation frame: pick the target from the table, then ease toward it. */
    method Frame(mode: TreeState, isHovered: bool, isLocked: bool, offsetIndex: int)
      modifies this`position, this`scale, this`imageOpacity, this`imageVisible
      modifies this`borderOpacity, this`borderVisible
      ensures Visual() == PhotoStep(old(Visual()), TargetFor(mode, positions, isHovered, isLocked, offsetIndex))
    {
      var target := TargetFor(mode, positions, isHovered, isLocked, offsetIndex);
      EaseToward(target);
    }

    /** Ease the position, the x/y scale and both opacities toward the target in place, and
        show each material only while its opacity is above the threshold. */
    method EaseToward(target: PhotoTarget)
      modifies this`position, this`scale, this`imageOpacity, this`imageVisible
      modifies this`borderOpacity, this`borderVisible
      ensures Visual() == PhotoStep(old(Visual()), target)
    {
      position := LerpVec(position, target.position, POSITION_RATE);
      var s := Lerp(scale.x, target.scale, SCALE_RATE);
      scale := Vec3(s, s, 1.0);

      imageOpacity := Lerp(imageOpacity, target.opacity, OPACITY_RATE);
      imageVisible := imageOpacity > VISIBLE_ABOVE;

      borderOpacity := Lerp(borderOpacity, target.opacity, OPACITY_RATE);
      borderVisible := borderOpacity > VISIBLE_ABOVE;
    }
  }
}
