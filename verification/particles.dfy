/** The particle tree of Particles.tsx: the one-off layout of 500 ornaments (a formation
    position on a cone, a scatter position in a box and a base scale), and the per-frame
    choreography that moves every ornament toward the target of the current mode, snaps
    it when close, writes it into one of five instanced meshes and steers the topper. */
module Particles {
  import opened Geometry
  import opened Types

  /** The number of ornaments. */
  const COUNT: nat := 500
  /** The number of instanced meshes the ornaments are dealt into, round-robin. */
  const MESHES: nat := 5
  /** The instance capacity of each mesh, `floor(COUNT / 5)`. */
  const CAPACITY: nat := COUNT / MESHES
  const TREE_HEIGHT: real := 9.0
  /** An ornament closer than 0.01 to its target (compared on squares) is snapped onto it. */
  const SNAP_DIST_SQ: real := 0.0001
  const FOLDED_RATE: real := 0.08
  const LOOSE_RATE: real := 0.04
  const TOPPER_RATE: real := 0.1
  /** The topper sits just above the tree when folded and flies far above it otherwise. */
  const TOPPER_HOME: Vec3 := Vec3(0.0, 4.9, 0.0)
  const TOPPER_AWAY: Vec3 := Vec3(0.0, 60.0, 0.0)
  const TOPPER_SCALE_FOLDED: real := 0.75
  const TOPPER_SCALE_AWAY: real := 0.001

  /** The random and trigonometric inputs of one ornament's layout: the radius jitter, the
      three scatter draws and the scale draw (each a Math.random() value), and the cosine and
      sine of the ornament's jittered golden-angle bearing. */
  datatype ParticleDraw = ParticleDraw(
    radiusNoise: real,
    scatter: Vec3,
    scaleDraw: real,
    cosAngle: real,
    sinAngle: real)

  /** Draws as Math.random(), Math.cos and Math.sin produce them. */
  predicate ValidDraw(d: ParticleDraw)
  {
    UnitDraw(d.radiusNoise) && UnitDraws(d.scatter) && UnitDraw(d.scaleDraw)
    && -1.0 <= d.cosAngle <= 1.0 && -1.0 <= d.sinAngle <= 1.0
  }

  /** One ornament's layout. */
  datatype ParticleDatum = ParticleDatum(treePos: Vec3, scatterPos: Vec3, scale: real)

  /** The height fraction of ornament i, `i / COUNT`. */
  function HeightFraction(i: nat): (t: real)
    requires i < COUNT
    ensures 0.0 <= t < 1.0
  {
    i as real / COUNT as real
  }

  /** The height fraction squared, which packs ornaments toward the bottom of the tree. */
  function Shaped(i: nat): (s: real)
    requires i < COUNT
    ensures 0.0 <= s < 1.0
  {
    var t := HeightFraction(i);
    FractionOfNonNegative(t, t);
    Mul(t, t)
  }

  /** The formation height of ornament i, `(t^2 - 0.5) * 9`. */
  function FormationY(i: nat): (y: real)
    requires i < COUNT
    ensures -TREE_HEIGHT / 2.0 <= y < TREE_HEIGHT / 2.0
  {
    (Shaped(i) - 0.5) * TREE_HEIGHT
  }

  /** The cone radius at ornament i before jitter, `(1 - t^2) * 2.8 + 0.1`. */
  function BaseRadius(i: nat): (r: real)
    requires i < COUNT
    ensures 0.1 < r <= 2.9
  {
    (1.0 - Shaped(i)) * 2.8 + 0.1
  }

  /** The radius an ornament is actually placed at: the cone radius plus a jitter drawn from
      [-0.25, 0.25). The jitter is below 0.25 in size, so the radius stays in (-0.15, 3.15). */
  function JitteredRadius(i: nat, noise: real): (r: real)
    requires i < COUNT && UnitDraw(noise)
    ensures BaseRadius(i) - 0.25 <= r < BaseRadius(i) + 0.25
    ensures -0.15 < r < 3.15
  {
    BaseRadius(i) + Spread(noise, 0.5)
  }

  /** Later ornaments sit strictly higher on the tree and have a strictly smaller cone radius
      before jitter. The jitter spans 0.5, far more than neighbouring cone radii differ, so
      the ornaments themselves are not ordered by distance from the axis
      (`JitterCanReverse`). */
  lemma FormationRises(i: nat, j: nat)
    requires i < j < COUNT
    ensures FormationY(i) < FormationY(j)
    ensures BaseRadius(i) > BaseRadius(j)
  {
    var ti, tj := HeightFraction(i), HeightFraction(j);
    assert ti < tj;
    SquareIncreasing(ti, tj);
  }

  lemma SquareIncreasing(a: real, b: real)
    requires 0.0 <= a < b
    ensures Mul(a, a) < Mul(b, b)
  {
    assert Mul(b, b) - Mul(a, a) == Mul(b - a, b + a);
    MulPositive(b - a, b + a);
  }

  /** The layout of ornament i from its draws (the block of the layout loop). */
  function ParticleAt(i: nat, d: ParticleDraw): (p: ParticleDatum)
    requires i < COUNT && ValidDraw(d)
    ensures p.treePos.y == FormationY(i)
    // the ornament stands on its bearing at the jittered radius, so it strays no more than
    // 3.15 from the axis in x and z
    ensures p.treePos.x == d.cosAngle * JitteredRadius(i, d.radiusNoise)
    ensures p.treePos.z == d.sinAngle * JitteredRadius(i, d.radiusNoise)
    ensures Abs(p.treePos.x) <= 3.15 && Abs(p.treePos.z) <= 3.15
    // the scatter box is 45 x 35 x 25, centred on the origin
    ensures -22.5 <= p.scatterPos.x < 22.5
    ensures -17.5 <= p.scatterPos.y < 17.5
    ensures -12.5 <= p.scatterPos.z < 12.5
    ensures 0.09 <= p.scale < 0.16
  {
    var r := JitteredRadius(i, d.radiusNoise);
    BoundedProduct(d.cosAngle, r, 3.15);
    BoundedProduct(d.sinAngle, r, 3.15);
    ScaleInRange(d.scaleDraw);
    ParticleDatum(
      Vec3(d.cosAngle * r, FormationY(i), d.sinAngle * r),
      Vec3(Spread(d.scatter.x, 45.0), Spread(d.scatter.y, 35.0), Spread(d.scatter.z, 25.0)),
      0.09 + d.scaleDraw * 0.07)
  }

  /** With the cosine and sine of one bearing, the ornament's horizontal distance from the
      axis is exactly its jittered radius. */
  lemma PlacedAtJitteredRadius(i: nat, d: ParticleDraw)
    requires i < COUNT && ValidDraw(d)
    requires Sq(d.cosAngle) + Sq(d.sinAngle) == 1.0
    ensures var p := ParticleAt(i, d).treePos;
      Sq(p.x) + Sq(p.z) == Sq(JitteredRadius(i, d.radiusNoise))
  {
    var r := JitteredRadius(i, d.radiusNoise);
    var c, s := d.cosAngle, d.sinAngle;
    SqIsProduct(c);
    SqIsProduct(s);
    SqIsProduct(r);
    SqIsProduct(c * r);
    SqIsProduct(s * r);
    assert (c * r) * (c * r) == (c * c) * (r * r);
    assert (s * r) * (s * r) == (s * s) * (r * r);
    assert (c * c) * (r * r) + (s * s) * (r * r) == (c * c + s * s) * (r * r);
  }

  /** Two neighbouring ornaments whose jitter draws pull them apart: the later one stands
      farther from the axis. */
  lemma JitterCanReverse()
    ensures JitteredRadius(101, 0.99) > JitteredRadius(100, 0.0)
  {
    assert HeightFraction(100) == 0.2 && HeightFraction(101) == 0.202;
    assert Shaped(100) == 0.04 && Shaped(101) == 0.040804;
  }

  lemma ScaleInRange(u: real)
    requires UnitDraw(u)
    ensures 0.09 <= 0.09 + u * 0.07 < 0.16
  {
  }

  /** Builds the layout of all ornaments, one per loop turn. */
  method BuildParticleData(draws: seq<ParticleDraw>) returns (data: seq<ParticleDatum>)
    requires |draws| == COUNT
    requires forall i :: 0 <= i < COUNT ==> ValidDraw(draws[i])
    ensures |data| == COUNT
    ensures forall i :: 0 <= i < COUNT ==> data[i] == ParticleAt(i, draws[i])
  {
    data := [];
    for i := 0 to COUNT
      invariant |data| == i
      invariant forall j :: 0 <= j < i ==> data[j] == ParticleAt(j, draws[j])
    {
      data := data + [ParticleAt(i, draws[i])];
    }
  }

  /** Where an ornament heads in a mode: its formation position when folded, its scatter
      position in every other mode. */
  function Target(d: ParticleDatum, mode: TreeState): (t: Vec3)
    ensures t == d.treePos || t == d.scatterPos
    ensures mode == Folded ==> t == d.treePos
    ensures mode != Folded ==> t == d.scatterPos
  {
    if mode == Folded then d.treePos else d.scatterPos
  }

  /** The per-frame interpolation fraction: brisk when folding, gentle otherwise. */
  function Rate(mode: TreeState): (r: real)
    ensures 0.0 < r < 1.0
    ensures mode == Folded <==> r == FOLDED_RATE
    ensures mode != Folded ==> r == LOOSE_RATE
  {
    if mode == Folded then FOLDED_RATE else LOOSE_RATE
  }

  /** One frame of one ornament: interpolate toward the target, then snap onto it when the
      remaining squared distance is below 0.0001. */
  function ParticleStep(p: Vec3, target: Vec3, rate: real): (r: Vec3)
    // the only positions reachable are the target itself or a lerp that stays far enough
    ensures r == target || (r == LerpVec(p, target, rate) && DistSq(r, target) >= SNAP_DIST_SQ)
    // an ornament on its target stays there
    ensures p == target ==> r == target
    // a proper fraction never moves an ornament away from its target, per axis or overall
    ensures 0.0 <= rate <= 1.0 ==>
      Between(p.x, r.x, target.x) && Between(p.y, r.y, target.y) && Between(p.z, r.z, target.z)
      && DistSq(r, target) <= DistSq(p, target)
    // with a proper fraction an ornament far from its target never snaps in one frame
    ensures 0.0 <= rate < 1.0 && p != target && DistSq(LerpVec(p, target, rate), target) >= SNAP_DIST_SQ
      ==> r != target
  {
    var q := LerpVec(p, target, rate);
    LerpVecFacts(p, target, rate);
    if DistSq(q, target) < SNAP_DIST_SQ then target else q
  }

  /** The instanced mesh of ornament i and its slot in that mesh. */
  function SlotOf(i: nat): (slot: (nat, nat))
    ensures slot.1 * MESHES + slot.0 == i
    ensures slot.0 < MESHES
    ensures i < COUNT ==> slot.1 < CAPACITY
  {
    (i % MESHES, i / MESHES)
  }

  /** The round-robin deal is a bijection between ornaments and mesh slots. */
  lemma SlotsPartition(i: nat, j: nat)
    ensures SlotOf(i) == SlotOf(j) <==> i == j
  {
  }

  lemma EverySlotDealt(m: nat, k: nat)
    requires m < MESHES && k < CAPACITY
    ensures k * MESHES + m < COUNT && SlotOf(k * MESHES + m) == (m, k)
  {
    var slot := SlotOf(k * MESHES + m);
    assert slot.1 * MESHES + slot.0 == k * MESHES + m;
  }

  /** The per-class size: the glow dust (mesh 3) is shrunk to 0.45 and the candy canes
      (mesh 4) are enlarged to 1.1; the other classes keep their base scale. */
  function FinalScale(meshIndex: nat, base: real): (s: real)
    ensures meshIndex != 3 && meshIndex != 4 ==> s == base
    ensures base > 0.0 && meshIndex == 3 ==> 0.0 < s < base
    ensures base > 0.0 && meshIndex == 4 ==> s > base
    ensures meshIndex == 3 ==> s == base * 0.45
    ensures meshIndex == 4 ==> s == base * 1.1
  {
    var s0 := base;
    var s1 := if meshIndex == 3 then s0 * 0.45 else s0;
    if meshIndex == 4 then s1 * 1.1 else s1
  }

  /** The pulse factor of one ornament, `1 + sine * 0.2`. */
  function Pulse(sine: real): (p: real)
    ensures -1.0 <= sine <= 1.0 ==> 0.8 <= p <= 1.2
  {
    1.0 + sine * 0.2
  }

  /** The scale written into an ornament's slot: the class scale when folded, pulsing by up
      to a fifth either way (sine is the value of the pulse's sine) otherwise. */
  function InstanceScale(mode: TreeState, meshIndex: nat, base: real, sine: real): (s: real)
    ensures mode == Folded ==> s == FinalScale(meshIndex, base)
    ensures mode != Folded && -1.0 <= sine <= 1.0 && base > 0.0 ==>
      0.8 * FinalScale(meshIndex, base) <= s <= 1.2 * FinalScale(meshIndex, base)
  {
    var f := FinalScale(meshIndex, base);
    if mode == Folded then f
    else
      PulseBounds(f, Pulse(sine));
      Mul(f, Pulse(sine))
  }

  lemma PulseBounds(f: real, p: real)
    ensures f > 0.0 && 0.8 <= p <= 1.2 ==> 0.8 * f <= Mul(f, p) <= 1.2 * f
  {
    if f > 0.0 && 0.8 <= p <= 1.2 {
      assert Mul(f, p) - 0.8 * f == Mul(f, p - 0.8);
      MulNonNegative(f, p - 0.8);
      assert 1.2 * f - Mul(f, p) == Mul(f, 1.2 - p);
      MulNonNegative(f, 1.2 - p);
    }
  }

  /** The topper's target position in a mode. */
  function TopperTarget(mode: TreeState): (t: Vec3)
    ensures mode == Folded <==> t == TOPPER_HOME
    ensures mode != Folded ==> t == TOPPER_AWAY
  {
    if mode == Folded then TOPPER_HOME else TOPPER_AWAY
  }

  /** The topper's scale in a mode. */
  function TopperScale(mode: TreeState): (s: real)
    ensures mode == Folded <==> s == TOPPER_SCALE_FOLDED
    ensures mode != Folded ==> s == TOPPER_SCALE_AWAY
  {
    if mode == Folded then TOPPER_SCALE_FOLDED else TOPPER_SCALE_AWAY
  }

  /** The transform written into one instance slot (rotation is not modelled). */
  datatype InstanceSlot = InstanceSlot(position: Vec3, scale: real)

  /** The live particle field: the layout, the current ornament positions, the five
      instanced meshes' slots and the topper. */
  class ParticleField {
    const data: seq<ParticleDatum>
    const current: array<Vec3>
    /** meshes[m, k] is slot k of instanced mesh m. */
    const meshes: array2<InstanceSlot>
    var topperPos: Vec3
    var topperScale: real

    ghost predicate Valid()
    {
      |data| == COUNT && current.Length == COUNT
      && meshes.Length0 == MESHES && meshes.Length1 == CAPACITY
    }

    /** Lays the ornaments out and starts each at its formation position; every slot and the
        topper start at the origin with scale 1. */
    constructor (draws: seq<ParticleDraw>)
      requires |draws| == COUNT
      requires forall i :: 0 <= i < COUNT ==> ValidDraw(draws[i])
      ensures Valid()
      ensures forall i :: 0 <= i < COUNT ==> data[i] == ParticleAt(i, draws[i])
      ensures forall i :: 0 <= i < COUNT ==> current[i] == data[i].treePos
      ensures fresh(current) && fresh(meshes)
      ensures topperPos == Vec3(0.0, 0.0, 0.0) && topperScale == 1.0
    {
      var layout := BuildParticleData(draws);
      data := layout;
      current := new Vec3[COUNT](i requires 0 <= i < COUNT => layout[i].treePos);
      meshes := new InstanceSlot[MESHES, CAPACITY]((m, k) => InstanceSlot(Vec3(0.0, 0.0, 0.0), 1.0));
      topperPos := Vec3(0.0, 0.0, 0.0);
      topperScale := 1.0;
    }

    /** What slot i's transform is after a frame in `mode`, once ornament i has moved. */
    ghost function SlotAfter(i: nat, mode: TreeState, sines: seq<real>): InstanceSlot
      requires Valid() && i < COUNT && |sines| == COUNT
      reads current
    {
      InstanceSlot(current[i], InstanceScale(mode, SlotOf(i).0, data[i].scale, sines[i]))
    }

    /** One animation frame in `mode`; sines[i] is the sine that drives ornament i's pulse. */
    method Frame(mode: TreeState, sines: seq<real>)
      requires Valid() && |sines| == COUNT
      modifies current, meshes, this`topperPos, this`topperScale
      ensures Valid()
      ensures forall i :: 0 <= i < COUNT ==>
        current[i] == ParticleStep(old(current[i]), Target(data[i], mode), Rate(mode))
      // every slot of every mesh is rewritten, from the ornament dealt to it
      ensures forall m, k :: 0 <= m < MESHES && 0 <= k < CAPACITY ==>
        meshes[m, k] == SlotAfter(k * MESHES + m, mode, sines)
      ensures topperPos == LerpVec(old(topperPos), TopperTarget(mode), TOPPER_RATE)
      ensures topperScale == TopperScale(mode)
    {
      // The topper shares no state with the ornaments and their meshes, so easing it
      // before the ornament loop rather than after it changes nothing.
      topperPos := LerpVec(topperPos, TopperTarget(mode), TOPPER_RATE);
      topperScale := TopperScale(mode);
      MoveOrnaments(mode, sines);
    }

    /** The ornament loop of a frame: step every ornament toward its target and write its
        transform into the slot it was dealt. */
    method MoveOrnaments(mode: TreeState, sines: seq<real>)
      requires Valid() && |sines| == COUNT
      modifies current, meshes
      ensures forall i :: 0 <= i < COUNT ==>
        current[i] == ParticleStep(old(current[i]), Target(data[i], mode), Rate(mode))
      ensures forall m, k :: 0 <= m < MESHES && 0 <= k < CAPACITY ==>
        meshes[m, k] == SlotAfter(k * MESHES + m, mode, sines)
    {
      var lerpSpeed := Rate(mode);
      for i := 0 to COUNT
        invariant forall j :: 0 <= j < i ==>
          current[j] == ParticleStep(old(current[j]), Target(data[j], mode), lerpSpeed)
        invariant forall j :: i <= j < COUNT ==> current[j] == old(current[j])
        invariant forall j :: 0 <= j < i ==> meshes[SlotOf(j).0, SlotOf(j).1] == SlotAfter(j, mode, sines)
      {
        var d := data[i];
        var target := Target(d, mode);
        var p := LerpVec(current[i], target, lerpSpeed);
        if DistSq(p, target) < SNAP_DIST_SQ {
          p := target;
        }
        current[i] := p;

        var slot := SlotOf(i);
        var meshIndex := slot.0;
        var scale := InstanceScale(mode, meshIndex, d.scale, sines[i]);
        var instanceIndex := slot.1;
        meshes[meshIndex, instanceIndex] := InstanceSlot(p, scale);
      }
      forall m, k | 0 <= m < MESHES && 0 <= k < CAPACITY
        ensures meshes[m, k] == SlotAfter(k * MESHES + m, mode, sines)
      {
        EverySlotDealt(m, k);
        var j := k * MESHES + m;
        assert meshes[SlotOf(j).0, SlotOf(j).1] == SlotAfter(j, mode, sines);
      }
    }
  }
}
