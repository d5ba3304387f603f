/**
 * The transition engine of components/InstancedParticles.tsx: a progress scalar
 * that approaches 0 (tree) or 1 (explosion) frame by frame, three instance
 * buffers rewritten in place by interpolating every particle between its rest
 * placement and its explosion target, and the group's accumulated Y rotation.
 *
 * Instance matrices are modelled as (position, rotation, scale) records.
 */
module Particles {
  import opened Types
  import LayoutMath

  const LeafCount: nat := 5000
  const DecoCount: nat := 800
  const RibbonCount: nat := 1200
  const TotalCount: nat := LeafCount + DecoCount + RibbonCount

  /** Rate of the exponential approach, per second. */
  const TransitionSpeed: real := 2.0
  /** Within this distance of the target a frame leaves progress and buffers alone. */
  const SettleEpsilon: real := 0.001
  /** Within this distance of the target progress snaps onto it. */
  const SnapEpsilon: real := 0.005
  /** Constant slow spin of the group, radians per second. */
  const AmbientRate: real := 0.1

  /** One instance's transform as handed to the renderer. */
  datatype Transform = Transform(position: Vec3, rotation: Vec3, scale: real)

  /** The transform a fresh instance buffer holds. */
  const Identity: Transform := Transform(Vec3(0.0, 0.0, 0.0), Vec3(0.0, 0.0, 0.0), 1.0)

  function RestTransform(data: ParticleData): Transform
  {
    Transform(data.position, data.rotation, data.scale)
  }

  // ------------------------------------------------------------ progress

  /** Target progress: 1 for EXPLODE, 0 for TREE. */
  function TargetProgress(mode: AppState): (t: real)
    ensures t == 1.0 <==> mode == Explode
    ensures t == 0.0 <==> mode == Tree
  {
    assert mode.Tree? || mode.Explode?;
    if mode == Explode then 1.0 else 0.0
  }

  /** A frame rewrites progress and buffers only while progress is farther than SettleEpsilon from the target. */
  predicate Moving(progress: real, target: real)
  {
    Abs(progress - target) > SettleEpsilon
  }

  /** The progress update of one frame. */
  function StepProgress(progress: real, target: real, delta: real): real
  {
    if Moving(progress, target) then
      var next := progress + (target - progress) * TransitionSpeed * delta;
      if Abs(target - next) < SnapEpsilon then target else next
    else progress
  }

  lemma MulNonNegative(x: real, y: real)
    requires 0.0 <= x && 0.0 <= y
    ensures 0.0 <= x * y
  {
  }

  /** An unsnapped step multiplies the signed gap to the target by 1 - 2 * delta. */
  lemma StepGap(progress: real, target: real, delta: real)
    ensures (progress + (target - progress) * TransitionSpeed * delta) - target
            == (progress - target) * (1.0 - TransitionSpeed * delta)
  {
  }

  /** Scaling a gap g by c in [0, 1] keeps its sign and does not enlarge it. */
  lemma ShrunkGap(g: real, c: real)
    requires 0.0 <= c <= 1.0
    ensures 0.0 <= g ==> 0.0 <= g * c <= g
    ensures g <= 0.0 ==> g <= g * c <= 0.0
    ensures Abs(g * c) == Abs(g) * c
  {
    if 0.0 <= g {
      MulNonNegative(g, c);
      MulNonNegative(g, 1.0 - c);
      assert g - g * c == g * (1.0 - c);
    } else {
      MulNonNegative(-g, c);
      MulNonNegative(-g, 1.0 - c);
      assert g * c == -((-g) * c);
      assert (-g) - (-g) * c == (-g) * (1.0 - c);
    }
  }

  /**
   * With 0 < 2 * delta <= 1 a frame moves progress toward the target without
   * passing it; a settled frame leaves it where it is.
   */
  lemma StepStaysBetween(progress: real, target: real, delta: real)
    requires 0.0 < TransitionSpeed * delta <= 1.0
    ensures progress <= target ==> progress <= StepProgress(progress, target, delta) <= target
    ensures target <= progress ==> target <= StepProgress(progress, target, delta) <= progress
    ensures !Moving(progress, target) ==> StepProgress(progress, target, delta) == progress
  {
    if Moving(progress, target) {
      var next := progress + (target - progress) * TransitionSpeed * delta;
      var g, c := progress - target, 1.0 - TransitionSpeed * delta;
      StepGap(progress, target, delta);
      ShrunkGap(g, c);
      assert next == target + g * c;
    }
  }

  /** From the unit interval toward an end of it, progress stays in the unit interval. */
  lemma StepInUnitInterval(progress: real, mode: AppState, delta: real)
    requires 0.0 < TransitionSpeed * delta <= 1.0
    requires 0.0 <= progress <= 1.0
    ensures 0.0 <= StepProgress(progress, TargetProgress(mode), delta) <= 1.0
  {
    StepStaysBetween(progress, TargetProgress(mode), delta);
  }

  /** A moving frame ends exactly on the target or still at least SnapEpsilon away from it. */
  lemma StepSnapsOrStaysFar(progress: real, target: real, delta: real)
    requires Moving(progress, target)
    ensures var r := StepProgress(progress, target, delta);
            r == target || Abs(r - target) >= SnapEpsilon
  {
  }

  /** With 2 * delta = 1 a moving frame lands exactly on the target. */
  lemma StepLandsWhenHalfSecond(progress: real, target: real, delta: real)
    requires TransitionSpeed * delta == 1.0
    requires Moving(progress, target)
    ensures StepProgress(progress, target, delta) == target
  {
    StepGap(progress, target, delta);
  }

  /** Progress after n frames at a fixed delta. */
  function Iterate(progress: real, target: real, delta: real, n: nat): real
    decreases n
  {
    if n == 0 then progress else Iterate(StepProgress(progress, target, delta), target, delta, n - 1)
  }

  /**
   * Nothing clamps progress: at delta = 1 second a frame from 0 toward 1 lands on 2,
   * and from there frames alternate between 0 and 2 without end.
   */
  lemma {:induction false} LongFramesOscillate(n: nat)
    ensures Iterate(0.0, 1.0, 1.0, 2 * n) == 0.0
    ensures Iterate(0.0, 1.0, 1.0, 2 * n + 1) == 2.0
    decreases n
  {
    assert StepProgress(0.0, 1.0, 1.0) == 2.0;
    assert StepProgress(2.0, 1.0, 1.0) == 0.0;
    if n > 0 {
      LongFramesOscillate(n - 1);
      assert Iterate(0.0, 1.0, 1.0, 2 * n) == Iterate(2.0, 1.0, 1.0, 2 * n - 1);
      assert Iterate(2.0, 1.0, 1.0, 2 * n - 1) == Iterate(0.0, 1.0, 1.0, 2 * (n - 1));
      assert Iterate(0.0, 1.0, 1.0, 2 * n + 1) == Iterate(2.0, 1.0, 1.0, 2 * n);
      assert Iterate(2.0, 1.0, 1.0, 2 * n) == Iterate(0.0, 1.0, 1.0, 2 * (n - 1) + 1);
    }
  }

  /** A settled progress stays put frame after frame. */
  lemma {:induction false} SettledStaysPut(progress: real, target: real, delta: real, n: nat)
    requires !Moving(progress, target)
    ensures Iterate(progress, target, delta, n) == progress
    decreases n
  {
    if n > 0 {
      SettledStaysPut(progress, target, delta, n - 1);
    }
  }

  /** An unsnapped moving frame closes the gap by at least 2 * delta * SettleEpsilon. */
  lemma StepShrinksGap(progress: real, target: real, delta: real)
    requires 0.0 < TransitionSpeed * delta <= 1.0
    requires Moving(progress, target)
    ensures var r := StepProgress(progress, target, delta);
            r == target
            || Abs(r - target) <= Abs(progress - target) - TransitionSpeed * delta * SettleEpsilon
  {
    var k := TransitionSpeed * delta;
    var gap := Abs(progress - target);
    StepGap(progress, target, delta);
    ShrunkGap(progress - target, 1.0 - k);
    assert gap * (1.0 - k) == gap - gap * k;
    MulNonNegative(gap - SettleEpsilon, k);
    assert (gap - SettleEpsilon) * k == gap * k - SettleEpsilon * k;
  }

  /**
   * Convergence: with 0 < 2 * delta <= 1, every frame that does not snap closes the
   * gap by at least 2 * delta * SettleEpsilon, so after n frames with
   * n * 2 * delta * SettleEpsilon >= |progress - target| a progress that was moving
   * sits exactly on the target; one that was already settled is unchanged.
   */
  lemma {:induction false} ProgressConverges(progress: real, target: real, delta: real, n: nat)
    requires 0.0 < TransitionSpeed * delta <= 1.0
    requires Abs(progress - target) <= n as real * (TransitionSpeed * delta * SettleEpsilon)
    ensures Moving(progress, target) ==> Iterate(progress, target, delta, n) == target
    ensures !Moving(progress, target) ==> Iterate(progress, target, delta, n) == progress
    decreases n
  {
    if !Moving(progress, target) {
      SettledStaysPut(progress, target, delta, n);
    } else {
      var e := TransitionSpeed * delta * SettleEpsilon;
      assert n > 0 by {
        MulNonNegative(TransitionSpeed * delta, SettleEpsilon);
      }
      var next := StepProgress(progress, target, delta);
      assert Iterate(progress, target, delta, n) == Iterate(next, target, delta, n - 1);
      StepShrinksGap(progress, target, delta);
      if next == target {
        SettledStaysPut(target, target, delta, n - 1);
      } else {
        assert n as real * e - e == (n - 1) as real * e;
        StepSnapsOrStaysFar(progress, target, delta);
        ProgressConverges(next, target, delta, n - 1);
      }
    }
  }

  // ------------------------------------------------------------ geometry

  /** THREE.MathUtils.lerp: (1 - t) * a + t * b. */
  function Lerp(a: real, b: real, t: real): (r: real)
    ensures t == 0.0 ==> r == a
    ensures t == 1.0 ==> r == b
  {
    (1.0 - t) * a + t * b
  }

  /** For t in [0, 1] the interpolant lies between the two ends. */
  lemma LerpBetween(a: real, b: real, t: real)
    requires 0.0 <= t <= 1.0
    ensures a <= b ==> a <= Lerp(a, b, t) <= b
    ensures b <= a ==> b <= Lerp(a, b, t) <= a
  {
    assert (1.0 - t) * a + t * b == a + (b - a) * t;
    assert (1.0 - t) * a + t * b == b - (b - a) * (1.0 - t);
    if a <= b {
      MulNonNegative(b - a, t);
      MulNonNegative(b - a, 1.0 - t);
    } else {
      MulNonNegative(a - b, t);
      MulNonNegative(a - b, 1.0 - t);
      assert (b - a) * t == -((a - b) * t);
      assert (b - a) * (1.0 - t) == -((a - b) * (1.0 - t));
    }
  }

  function LerpVec(a: Vec3, b: Vec3, t: real): Vec3
  {
    Vec3(Lerp(a.x, b.x, t), Lerp(a.y, b.y, t), Lerp(a.z, b.z, t))
  }

  /** Class-specific rotation added at progress p: leaves 2p on x and y, decorations 5p on y, ribbon p on x. */
  function RotationOffset(kind: ParticleType, p: real): (r: Vec3)
    ensures p == 0.0 ==> r == Vec3(0.0, 0.0, 0.0)
    ensures r.z == 0.0
  {
    match kind
    case Leaf => Vec3(p * 2.0, p * 2.0, 0.0)
    case Decoration => Vec3(0.0, p * 5.0, 0.0)
    case Ribbon => Vec3(p, 0.0, 0.0)
  }

  /** The transform of one instance of buffer `kind` at progress p. */
  function InstanceTransform(kind: ParticleType, data: ParticleData, target: Vec3, p: real): (t: Transform)
    ensures t.scale == data.scale
    ensures p == 0.0 ==> t == RestTransform(data)
    ensures p == 1.0 ==> t.position == target
  {
    var offset := RotationOffset(kind, p);
    Transform(
      LerpVec(data.position, target, p),
      Vec3(data.rotation.x + offset.x, data.rotation.y + offset.y, data.rotation.z + offset.z),
      data.scale)
  }

  // ------------------------------------------------------- global index

  /** Number of instances in buffer `kind`. */
  function CountOf(kind: ParticleType): nat
  {
    match kind
    case Leaf => LeafCount
    case Decoration => DecoCount
    case Ribbon => RibbonCount
  }

  /** Value of the shared globalIndex when the loop over buffer `kind` starts. */
  function Base(kind: ParticleType): nat
  {
    match kind
    case Leaf => 0
    case Decoration => LeafCount
    case Ribbon => LeafCount + DecoCount
  }

  /** The buffer and slot that read explosion target g. */
  function SlotOf(g: nat): (slot: (ParticleType, nat))
    requires g < TotalCount
    ensures slot.1 < CountOf(slot.0) && Base(slot.0) + slot.1 == g
  {
    if g < LeafCount then (Leaf, g)
    else if g < LeafCount + DecoCount then (Decoration, g - LeafCount)
    else (Ribbon, g - LeafCount - DecoCount)
  }

  /**
   * The global index is a bijection from (buffer, slot) onto [0, 7000): every slot
   * reads a target below TotalCount, and SlotOf inverts it, so no two slots share a
   * target and every target is read.
   */
  lemma GlobalIndexBijection(kind: ParticleType, i: nat)
    requires i < CountOf(kind)
    ensures Base(kind) + i < TotalCount
    ensures SlotOf(Base(kind) + i) == (kind, i)
  {
  }

  /** The data slice of buffer `kind` inside allData = leaves ++ decorations ++ ribbon. */
  function Pick(kind: ParticleType, leaves: seq<ParticleData>, decos: seq<ParticleData>, ribbon: seq<ParticleData>): seq<ParticleData>
  {
    match kind
    case Leaf => leaves
    case Decoration => decos
    case Ribbon => ribbon
  }

  /** Slot i of buffer `kind` and entry Base(kind) + i of allData are the same particle. */
  lemma AllDataOrder(kind: ParticleType, i: nat, leaves: seq<ParticleData>, decos: seq<ParticleData>, ribbon: seq<ParticleData>)
    requires |leaves| == LeafCount && |decos| == DecoCount && |ribbon| == RibbonCount
    requires i < CountOf(kind)
    ensures (leaves + decos + ribbon)[Base(kind) + i] == Pick(kind, leaves, decos, ribbon)[i]
  {
  }

  /** Buffer `kind` holds, slot by slot, the transform of its particle at progress p. */
  ghost predicate Holds(kind: ParticleType, buffer: seq<Transform>, data: seq<ParticleData>, targets: seq<Vec3>, p: real)
    requires |buffer| == |data| == CountOf(kind) && |targets| == TotalCount
  {
    forall k :: 0 <= k < |buffer| ==> buffer[k] == InstanceTransform(kind, data[k], targets[Base(kind) + k], p)
  }

  /** Every slot of the buffer holds the rest transform of its particle. */
  ghost predicate AtRest(buffer: seq<Transform>, data: seq<ParticleData>)
    requires |buffer| == |data|
  {
    forall k :: 0 <= k < |buffer| ==> buffer[k] == RestTransform(data[k])
  }

  /** A buffer drawn at progress 0 holds every rest transform. */
  lemma DrawnAtZeroIsRest(kind: ParticleType, buffer: seq<Transform>, data: seq<ParticleData>, targets: seq<Vec3>)
    requires |buffer| == |data| == CountOf(kind) && |targets| == TotalCount
    requires Holds(kind, buffer, data, targets, 0.0)
    ensures AtRest(buffer, data)
  {
  }

  /** A buffer drawn at progress 1 puts every instance on its own explosion target, with its scale kept. */
  lemma DrawnAtOneIsExploded(kind: ParticleType, buffer: seq<Transform>, data: seq<ParticleData>, targets: seq<Vec3>)
    requires |buffer| == |data| == CountOf(kind) && |targets| == TotalCount
    requires Holds(kind, buffer, data, targets, 1.0)
    ensures forall k :: 0 <= k < |buffer| ==>
      buffer[k].position == targets[Base(kind) + k] && buffer[k].scale == data[k].scale
  {
  }

  // ------------------------------------------------------------ component

  /** The component: rest data, explosion targets, the three instance buffers, progress and group rotation. */
  class InstancedParticles {
    const leavesData: seq<ParticleData>
    const decoData: seq<ParticleData>
    const ribbonData: seq<ParticleData>
    const explosionTargets: seq<Vec3>
    const leaves: array<Transform>
    const decos: array<Transform>
    const ribbon: array<Transform>
    var progress: real
    var groupRotationY: real

    ghost predicate Valid()
    {
      && |leavesData| == LeafCount && |decoData| == DecoCount && |ribbonData| == RibbonCount
      && |explosionTargets| == TotalCount
      && leaves.Length == LeafCount && decos.Length == DecoCount && ribbon.Length == RibbonCount
    }

    /** The three buffers hold the layout at progress p. */
    ghost predicate Drawn(p: real)
      requires Valid()
      reads leaves, decos, ribbon
    {
      && Holds(Leaf, leaves[..], leavesData, explosionTargets, p)
      && Holds(Decoration, decos[..], decoData, explosionTargets, p)
      && Holds(Ribbon, ribbon[..], ribbonData, explosionTargets, p)
    }

    /**
     * Mounting: the three layouts and the explosion target of every index of
     * allData are computed once, the buffers are allocated, and the initial draw
     * runs updateMatrices at progress 0.
     */
    constructor (
      sin: real -> real, cos: real -> real, acos: real -> real, sqrt: real -> real,
      random: seq<real>)
      requires LayoutMath.IsRandomStream(random)
      requires 4 * LeafCount + 5 * DecoCount <= |random|
      ensures Valid()
      ensures fresh(leaves) && fresh(decos) && fresh(ribbon)
      ensures progress == 0.0 && groupRotationY == 0.0
      ensures forall i :: 0 <= i < LeafCount ==>
        leavesData[i] == LayoutMath.TreeParticle(i, LeafCount, sin, cos, random[..4 * LeafCount])
      ensures forall i :: 0 <= i < DecoCount ==>
        decoData[i] == LayoutMath.DecorationParticle(i, sin, cos, random[4 * LeafCount..])
      ensures forall i :: 0 <= i < RibbonCount ==> ribbonData[i] == LayoutMath.RibbonParticle(i, RibbonCount, sin, cos)
      ensures forall g :: 0 <= g < TotalCount ==>
        explosionTargets[g] == LayoutMath.ExplosionTarget(g, TotalCount, sin, cos, acos, sqrt)
      ensures AtRest(leaves[..], leavesData) && AtRest(decos[..], decoData) && AtRest(ribbon[..], ribbonData)
    {
      var leafRandom := random[..4 * LeafCount];
      var decoRandom := random[4 * LeafCount..];
      var l := LayoutMath.GenerateTreeParticles(LeafCount, sin, cos, leafRandom);
      var d := LayoutMath.GenerateDecorations(DecoCount, sin, cos, decoRandom);
      var r := LayoutMath.GenerateRibbon(RibbonCount, sin, cos);
      var allData := l + d + r;
      leavesData, decoData, ribbonData := l, d, r;
      explosionTargets := seq(|allData|, i requires 0 <= i < |allData| =>
        LayoutMath.ExplosionTarget(i, |allData|, sin, cos, acos, sqrt));
      leaves := new Transform[LeafCount](_ => Identity);
      decos := new Transform[DecoCount](_ => Identity);
      ribbon := new Transform[RibbonCount](_ => Identity);
      progress := 0.0;
      groupRotationY := 0.0;
      new;
      UpdateMatrices();
      DrawnAtZeroIsRest(Leaf, leaves[..], leavesData, explosionTargets);
      DrawnAtZeroIsRest(Decoration, decos[..], decoData, explosionTargets);
      DrawnAtZeroIsRest(Ribbon, ribbon[..], ribbonData, explosionTargets);
    }

    /**
     * updateMatrices: three loops sharing one running globalIndex rewrite every
     * slot of the three buffers with the transform at the current progress.
     */
    method UpdateMatrices()
      requires Valid()
      modifies leaves, decos, ribbon
      ensures Drawn(progress)
    {
      var p := progress;
      var globalIndex := 0;

      for i := 0 to LeafCount
        invariant globalIndex == Base(Leaf) + i
        invariant forall k :: 0 <= k < i ==>
          leaves[k] == InstanceTransform(Leaf, leavesData[k], explosionTargets[Base(Leaf) + k], p)
      {
        var data := leavesData[i];
        var explodePos := explosionTargets[globalIndex];
        globalIndex := globalIndex + 1;
        var x := Lerp(data.position.x, explodePos.x, p);
        var y := Lerp(data.position.y, explodePos.y, p);
        var z := Lerp(data.position.z, explodePos.z, p);
        leaves[i] := Transform(
          Vec3(x, y, z),
          Vec3(data.rotation.x + p * 2.0, data.rotation.y + p * 2.0, data.rotation.z),
          data.scale);
      }
      assert Holds(Leaf, leaves[..], leavesData, explosionTargets, p);
      ghost var leavesDone := leaves[..];

      for i := 0 to DecoCount
        invariant globalIndex == Base(Decoration) + i
        invariant leaves[..] == leavesDone
        invariant forall k :: 0 <= k < i ==>
          decos[k] == InstanceTransform(Decoration, decoData[k], explosionTargets[Base(Decoration) + k], p)
      {
        var data := decoData[i];
        var explodePos := explosionTargets[globalIndex];
        globalIndex := globalIndex + 1;
        var x := Lerp(data.position.x, explodePos.x, p);
        var y := Lerp(data.position.y, explodePos.y, p);
        var z := Lerp(data.position.z, explodePos.z, p);
        decos[i] := Transform(
          Vec3(x, y, z),
          Vec3(data.rotation.x, data.rotation.y + p * 5.0, data.rotation.z),
          data.scale);
      }
      assert Holds(Decoration, decos[..], decoData, explosionTargets, p);
      ghost var decosDone := decos[..];

      for i := 0 to RibbonCount
        invariant globalIndex == Base(Ribbon) + i
        invariant leaves[..] == leavesDone && decos[..] == decosDone
        invariant forall k :: 0 <= k < i ==>
          ribbon[k] == InstanceTransform(Ribbon, ribbonData[k], explosionTargets[Base(Ribbon) + k], p)
      {
        var data := ribbonData[i];
        var explodePos := explosionTargets[globalIndex];
        globalIndex := globalIndex + 1;
        var x := Lerp(data.position.x, explodePos.x, p);
        var y := Lerp(data.position.y, explodePos.y, p);
        var z := Lerp(data.position.z, explodePos.z, p);
        ribbon[i] := Transform(
          Vec3(x, y, z),
          Vec3(data.rotation.x + p, data.rotation.y, data.rotation.z),
          data.scale);
      }
      assert Holds(Ribbon, ribbon[..], ribbonData, explosionTargets, p);
    }

    /** The first frame callback: only the group spin matters; its damped factor is never used. */
    method AmbientFrame(rotationSpeed: real, delta: real)
      modifies this
      ensures groupRotationY == old(groupRotationY) + delta * AmbientRate + rotationSpeed * delta
      ensures progress == old(progress)
    {
      groupRotationY := groupRotationY + delta * AmbientRate + rotationSpeed * delta;
    }

    /** The second frame callback: the progress step, the buffer rewrite when moving, and the group spin. */
    method TransitionFrame(appState: AppState, rotationSpeed: real, delta: real)
      requires Valid()
      modifies this, leaves, decos, ribbon
      ensures progress == StepProgress(old(progress), TargetProgress(appState), delta)
      ensures groupRotationY == old(groupRotationY) + (AmbientRate + rotationSpeed) * delta
      ensures Moving(old(progress), TargetProgress(appState)) ==> Drawn(progress)
      ensures !Moving(old(progress), TargetProgress(appState)) ==>
                unchanged(leaves) && unchanged(decos) && unchanged(ribbon)
      ensures 0.0 < TransitionSpeed * delta <= 1.0 && 0.0 <= old(progress) <= 1.0 ==> 0.0 <= progress <= 1.0
    {
      var target := if appState == Explode then 1.0 else 0.0;
      assert target == TargetProgress(appState);
      if Abs(progress - target) > SettleEpsilon {
        progress := StepProgress(progress, target, delta);
        UpdateMatrices();
      }
      groupRotationY := groupRotationY + (AmbientRate + rotationSpeed) * delta;
      if 0.0 < TransitionSpeed * delta <= 1.0 && 0.0 <= old(progress) <= 1.0 {
        StepInUnitInterval(old(progress), appState, delta);
      }
    }

    /**
     * One rendered frame: both callbacks, in registration order. The group turns by
     * twice (AmbientRate + rotationSpeed) * delta whatever the progress does.
     */
    method Frame(appState: AppState, rotationSpeed: real, delta: real)
      requires Valid()
      modifies this, leaves, decos, ribbon
      ensures progress == StepProgress(old(progress), TargetProgress(appState), delta)
      ensures groupRotationY == old(groupRotationY) + 2.0 * (AmbientRate + rotationSpeed) * delta
      ensures Moving(old(progress), TargetProgress(appState)) ==> Drawn(progress)
      ensures !Moving(old(progress), TargetProgress(appState)) ==>
                unchanged(leaves) && unchanged(decos) && unchanged(ribbon)
      ensures 0.0 < TransitionSpeed * delta <= 1.0 && 0.0 <= old(progress) <= 1.0 ==> 0.0 <= progress <= 1.0
    {
      AmbientFrame(rotationSpeed, delta);
      TransitionFrame(appState, rotationSpeed, delta);
    }
  }
}
