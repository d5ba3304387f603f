/**
 * Layout generators for the tree (utils/math.ts): the index-seeded noise
 * source, the three particle classes built by counted loops, and the
 * spherical explosion target of every particle index.
 *
 * Math.sin, Math.cos, Math.acos and Math.sqrt are parameters of type
 * real -> real; the only facts relied on about them are the ones a lemma
 * states in its requires. Math.random is a stream of draws in [0, 1),
 * consumed in the order the source evaluates its calls.
 */
module LayoutMath {
  import opened Types

  /** Math.PI as a real. */
  const PI: real := 3.141592653589793

  const TreeHeight: real := 18.0
  const TreeRadius: real := 7.0
  /** Angular step of the foliage spiral, in radians per particle. */
  const LeafSpiralStep: real := 2.5
  const DecorationRadiusBase: real := 7.5
  const RibbonHeight: real := 19.0
  const RibbonRadiusBase: real := 8.0
  const RibbonLoops: real := 3.5
  const ExplosionInnerRadius: real := 15.0
  const ExplosionShellDepth: real := 20.0

  /** Draws of Math.random, each in [0, 1). */
  ghost predicate IsRandomStream(draws: seq<real>)
  {
    forall k :: 0 <= k < |draws| ==> 0.0 <= draws[k] < 1.0
  }

  /** The sine and cosine passed in satisfy sin^2 + cos^2 = 1 everywhere. */
  ghost predicate Pythagorean(sin: real -> real, cos: real -> real)
  {
    forall a :: sin(a) * sin(a) + cos(a) * cos(a) == 1.0
  }

  /** Number of iterations of `for (let i = 0; i < count; i++)`. */
  function Len(count: int): nat
  {
    if count < 0 then 0 else count
  }

  /** x - Math.floor(x): the fractional part of x. */
  function Frac(x: real): (r: real)
    ensures 0.0 <= r < 1.0
    ensures (x - r).Floor as real == x - r
  {
    x - x.Floor as real
  }

  /** seedRandom: a value in [0, 1) determined by i alone. */
  function SeedRandom(sin: real -> real, i: int): (r: real)
    ensures 0.0 <= r < 1.0
  {
    Frac(sin(i as real) * 10000.0)
  }

  // ---------------------------------------------------------------- foliage

  /** Height of leaf i on the cone before noise: -9 + 18 * i / count. */
  function LeafBaseHeight(i: int, count: int): (y: real)
    requires 0 <= i < count
    ensures -TreeHeight / 2.0 <= y < TreeHeight / 2.0
  {
    assert i as real / count as real < 1.0;
    -TreeHeight / 2.0 + TreeHeight * (i as real / count as real)
  }

  /** Radius of the cone at leaf i before noise: 7 * (1 - i / count). */
  function LeafBaseRadius(i: int, count: int): (radius: real)
    requires 0 <= i < count
    ensures 0.0 < radius <= TreeRadius
  {
    assert i as real / count as real < 1.0;
    TreeRadius * (1.0 - i as real / count as real)
  }

  /** Radial jitter of leaf i. */
  function RadiusNoise(sin: real -> real, i: int): (n: real)
    ensures -0.75 <= n < 0.75
  {
    (SeedRandom(sin, i) - 0.5) * 1.5
  }

  /** Vertical jitter of leaf i. */
  function HeightNoise(sin: real -> real, i: int): (n: real)
    ensures -0.75 <= n < 0.75
  {
    (SeedRandom(sin, i + 100) - 0.5) * 1.5
  }

  /** Angular jitter of leaf i. */
  function AngleNoise(sin: real -> real, i: int): (n: real)
    ensures -0.25 <= n < 0.25
  {
    (SeedRandom(sin, i + 200) - 0.5) * 0.5
  }

  /** Where generateTreeParticles puts leaf i: on the noisy cone, independent of Math.random. */
  function LeafPosition(i: int, count: int, sin: real -> real, cos: real -> real): Vec3
    requires 0 <= i < count
  {
    var r := LeafBaseRadius(i, count) + RadiusNoise(sin, i);
    var angle := i as real * LeafSpiralStep + AngleNoise(sin, i);
    Vec3(r * cos(angle), LeafBaseHeight(i, count) + HeightNoise(sin, i), r * sin(angle))
  }

  /**
   * The record generateTreeParticles pushes for index i; leaf i reads draws
   * 4i .. 4i + 3 of the random stream.
   */
  function TreeParticle(i: int, count: int, sin: real -> real, cos: real -> real, random: seq<real>): (p: ParticleData)
    requires 0 <= i < count
    requires 4 * i + 4 <= |random| && IsRandomStream(random)
    ensures p.kind == Leaf
    ensures 0.5 <= p.scale < 1.0
    ensures 0.0 <= p.rotation.x < PI && 0.0 <= p.rotation.y < PI && 0.0 <= p.rotation.z < PI
    ensures LeafBaseHeight(i, count) - 0.75 <= p.position.y < LeafBaseHeight(i, count) + 0.75
  {
    ParticleData(
      LeafPosition(i, count, sin, cos),
      Vec3(random[4 * i] * PI, random[4 * i + 1] * PI, random[4 * i + 2] * PI),
      0.5 + random[4 * i + 3] * 0.5,
      Leaf)
  }

  /** Along the foliage, height strictly rises and the cone radius strictly shrinks with the index. */
  lemma LeafTaper(i: int, j: int, count: int)
    requires 0 <= i < j < count
    ensures LeafBaseHeight(i, count) < LeafBaseHeight(j, count)
    ensures LeafBaseRadius(i, count) > LeafBaseRadius(j, count)
  {
    assert i as real / count as real < j as real / count as real;
  }

  /** Each leaf lies at horizontal distance |radius + noise| from the trunk axis. */
  lemma LeafOnNoisyCone(i: int, count: int, sin: real -> real, cos: real -> real)
    requires 0 <= i < count
    requires Pythagorean(sin, cos)
    ensures var v := LeafPosition(i, count, sin, cos);
            var r := LeafBaseRadius(i, count) + RadiusNoise(sin, i);
            v.x * v.x + v.z * v.z == r * r
  {
    var r := LeafBaseRadius(i, count) + RadiusNoise(sin, i);
    var angle := i as real * LeafSpiralStep + AngleNoise(sin, i);
    OnCircle(r, sin, cos, angle);
  }

  /** (r cos a)^2 + (r sin a)^2 = r^2 for a sine and cosine satisfying the Pythagorean identity. */
  lemma OnCircle(r: real, sin: real -> real, cos: real -> real, a: real)
    requires Pythagorean(sin, cos)
    ensures (r * cos(a)) * (r * cos(a)) + (r * sin(a)) * (r * sin(a)) == r * r
  {
    var c, s := cos(a), sin(a);
    assert s * s + c * c == 1.0;
    calc {
      (r * c) * (r * c) + (r * s) * (r * s);
      r * r * (c * c + s * s);
      r * r;
    }
  }

  method GenerateTreeParticles(count: int, sin: real -> real, cos: real -> real, random: seq<real>)
    returns (particles: seq<ParticleData>)
    requires IsRandomStream(random) && 4 * Len(count) <= |random|
    ensures |particles| == Len(count)
    ensures forall i :: 0 <= i < |particles| ==>
      particles[i] == TreeParticle(i, count, sin, cos, random)
  {
    particles := [];
    var i := 0;
    while i < count
      invariant 0 <= i <= Len(count)
      invariant |particles| == i
      invariant forall k :: 0 <= k < i ==>
        particles[k] == TreeParticle(k, count, sin, cos, random)
    {
      var y := LeafBaseHeight(i, count);
      var radius := LeafBaseRadius(i, count);
      var theta := i as real * LeafSpiralStep;
      var rNoise := RadiusNoise(sin, i);
      var yNoise := HeightNoise(sin, i);
      var thetaNoise := AngleNoise(sin, i);
      var x := (radius + rNoise) * cos(theta + thetaNoise);
      var z := (radius + rNoise) * sin(theta + thetaNoise);
      var rotation := Vec3(random[4 * i] * PI, random[4 * i + 1] * PI, random[4 * i + 2] * PI);
      var scale := 0.5 + random[4 * i + 3] * 0.5;
      var particle := ParticleData(Vec3(x, y + yNoise, z), rotation, scale, Leaf);
      assert particle == TreeParticle(i, count, sin, cos, random);
      particles := particles + [particle];
      i := i + 1;
    }
  }

  // ------------------------------------------------------------ decorations

  /** Fraction of the tree's height at which y lies. */
  function DecorationLevel(y: real): real
  {
    (y + TreeHeight / 2.0) / TreeHeight
  }

  /** Cone radius of a decoration at height y: 7.5 * (1 - level). */
  function DecorationRadius(y: real): (radius: real)
    requires -TreeHeight / 2.0 <= y < TreeHeight / 2.0
    ensures 0.0 < radius <= DecorationRadiusBase
  {
    DecorationRadiusBase * (1.0 - DecorationLevel(y))
  }

  /** The higher a decoration sits, the closer it is to the trunk. */
  lemma DecorationTaper(y1: real, y2: real)
    requires -TreeHeight / 2.0 <= y1 < y2 < TreeHeight / 2.0
    ensures DecorationRadius(y1) > DecorationRadius(y2)
  {
  }

  /** Where a decoration goes, given its height draw u and its angle draw w. */
  function DecorationPosition(u: real, w: real, sin: real -> real, cos: real -> real): (v: Vec3)
    requires 0.0 <= u < 1.0
    ensures -TreeHeight / 2.0 <= v.y < TreeHeight / 2.0
    ensures 0.0 <= DecorationLevel(v.y) < 1.0
  {
    var y := -TreeHeight / 2.0 + TreeHeight * u;
    var radius := DecorationRadius(y);
    var theta := w * PI * 2.0;
    Vec3(radius * cos(theta), y, radius * sin(theta))
  }

  /** The record generateDecorations pushes for index i; it reads draws 5i .. 5i + 4 of the random stream. */
  function DecorationParticle(i: nat, sin: real -> real, cos: real -> real, random: seq<real>): (p: ParticleData)
    requires 5 * i + 5 <= |random| && IsRandomStream(random)
    ensures p.kind == Decoration
    ensures 0.8 <= p.scale < 1.2
    ensures 0.0 <= p.rotation.x < PI && 0.0 <= p.rotation.y < PI && p.rotation.z == 0.0
    ensures -TreeHeight / 2.0 <= p.position.y < TreeHeight / 2.0
  {
    ParticleData(
      DecorationPosition(random[5 * i], random[5 * i + 1], sin, cos),
      Vec3(random[5 * i + 2] * PI, random[5 * i + 3] * PI, 0.0),
      0.8 + random[5 * i + 4] * 0.4,
      Decoration)
  }

  /** A decoration lies on the cone: its horizontal distance is the radius at its own height. */
  lemma DecorationOnCone(u: real, w: real, sin: real -> real, cos: real -> real)
    requires 0.0 <= u < 1.0
    requires Pythagorean(sin, cos)
    ensures var v := DecorationPosition(u, w, sin, cos);
            var r := DecorationRadius(v.y);
            v.x * v.x + v.z * v.z == r * r
  {
    var y := -TreeHeight / 2.0 + TreeHeight * u;
    OnCircle(DecorationRadius(y), sin, cos, w * PI * 2.0);
  }

  method GenerateDecorations(count: int, sin: real -> real, cos: real -> real, random: seq<real>)
    returns (particles: seq<ParticleData>)
    requires IsRandomStream(random) && 5 * Len(count) <= |random|
    ensures |particles| == Len(count)
    ensures forall i :: 0 <= i < |particles| ==>
      particles[i] == DecorationParticle(i, sin, cos, random)
  {
    particles := [];
    var i := 0;
    while i < count
      invariant 0 <= i <= Len(count)
      invariant |particles| == i
      invariant forall k :: 0 <= k < i ==>
        particles[k] == DecorationParticle(k, sin, cos, random)
    {
      var y := -TreeHeight / 2.0 + TreeHeight * random[5 * i];
      var radius := DecorationRadius(y);
      var theta := random[5 * i + 1] * PI * 2.0;
      var x := radius * cos(theta);
      var z := radius * sin(theta);
      var rotation := Vec3(random[5 * i + 2] * PI, random[5 * i + 3] * PI, 0.0);
      var scale := 0.8 + random[5 * i + 4] * 0.4;
      var particle := ParticleData(Vec3(x, y, z), rotation, scale, Decoration);
      assert particle == DecorationParticle(i, sin, cos, random);
      particles := particles + [particle];
      i := i + 1;
    }
  }

  // ----------------------------------------------------------------- ribbon

  /** Fraction of the ribbon covered at index i: i / count. */
  function RibbonProgress(i: int, count: int): (t: real)
    requires 0 <= i < count
    ensures 0.0 <= t < 1.0
  {
    i as real / count as real
  }

  /** Radius of the ribbon spiral at index i: 8 * (1 - i / count). */
  function RibbonRadius(i: int, count: int): (radius: real)
    requires 0 <= i < count
    ensures 0.0 < radius <= RibbonRadiusBase
  {
    RibbonRadiusBase * (1.0 - RibbonProgress(i, count))
  }

  /** The record generateRibbon pushes for index i; it uses no random draw. */
  function RibbonParticle(i: int, count: int, sin: real -> real, cos: real -> real): (p: ParticleData)
    requires 0 <= i < count
    ensures p.kind == Ribbon && p.scale == 0.3
    ensures p.rotation.y == 0.0 && p.rotation.z == 0.0
    ensures 0.0 <= p.rotation.x < 2.0 * PI
    ensures -RibbonHeight / 2.0 <= p.position.y < RibbonHeight / 2.0
  {
    var t := RibbonProgress(i, count);
    var y := -RibbonHeight / 2.0 + RibbonHeight * t;
    var radius := RibbonRadius(i, count);
    var theta := t * PI * 2.0 * RibbonLoops;
    ParticleData(
      Vec3(radius * cos(theta), y, radius * sin(theta)),
      Vec3(t * PI * 2.0, 0.0, 0.0),
      0.3,
      Ribbon)
  }

  /** Along the ribbon, height and the x rotation strictly rise and the radius strictly shrinks. */
  lemma RibbonAscends(i: int, j: int, count: int, sin: real -> real, cos: real -> real)
    requires 0 <= i < j < count
    ensures RibbonParticle(i, count, sin, cos).position.y < RibbonParticle(j, count, sin, cos).position.y
    ensures RibbonParticle(i, count, sin, cos).rotation.x < RibbonParticle(j, count, sin, cos).rotation.x
    ensures RibbonRadius(i, count) > RibbonRadius(j, count)
  {
    assert RibbonProgress(i, count) < RibbonProgress(j, count);
  }

  /** Each ribbon piece lies on the spiral's circle of radius RibbonRadius at its height. */
  lemma RibbonOnSpiral(i: int, count: int, sin: real -> real, cos: real -> real)
    requires 0 <= i < count
    requires Pythagorean(sin, cos)
    ensures var p := RibbonParticle(i, count, sin, cos);
            var r := RibbonRadius(i, count);
            p.position.x * p.position.x + p.position.z * p.position.z == r * r
  {
    OnCircle(RibbonRadius(i, count), sin, cos, RibbonProgress(i, count) * PI * 2.0 * RibbonLoops);
  }

  method GenerateRibbon(count: int, sin: real -> real, cos: real -> real)
    returns (particles: seq<ParticleData>)
    ensures |particles| == Len(count)
    ensures forall i :: 0 <= i < |particles| ==> particles[i] == RibbonParticle(i, count, sin, cos)
  {
    particles := [];
    var i := 0;
    while i < count
      invariant 0 <= i <= Len(count)
      invariant |particles| == i
      invariant forall k :: 0 <= k < i ==> particles[k] == RibbonParticle(k, count, sin, cos)
    {
      var progress := RibbonProgress(i, count);
      var y := -RibbonHeight / 2.0 + RibbonHeight * progress;
      var radius := RibbonRadius(i, count);
      var theta := progress * PI * 2.0 * RibbonLoops;
      var x := radius * cos(theta);
      var z := radius * sin(theta);
      var particle := ParticleData(Vec3(x, y, z), Vec3(progress * PI * 2.0, 0.0, 0.0), 0.3, Ribbon);
      assert particle == RibbonParticle(i, count, sin, cos);
      particles := particles + [particle];
      i := i + 1;
    }
  }

  // -------------------------------------------------------------- explosion

  /** Radius of the explosion shell for a particle index: 15 + seedRandom(index) * 20. */
  function ExplosionRadius(sin: real -> real, index: int): (r: real)
    ensures ExplosionInnerRadius <= r < ExplosionInnerRadius + ExplosionShellDepth
  {
    ExplosionInnerRadius + SeedRandom(sin, index) * ExplosionShellDepth
  }

  /** Polar angle of the sphere distribution: acos(-1 + 2 * index / count). */
  function ExplosionPolar(index: int, count: int, acos: real -> real): real
    requires 0 <= index < count
  {
    acos(-1.0 + (2.0 * index as real) / count as real)
  }

  /** Azimuth of the sphere distribution: sqrt(count * PI) * phi. */
  function ExplosionAzimuth(count: int, phi: real, sqrt: real -> real): real
  {
    sqrt(count as real * PI) * phi
  }

  /** getExplosionTarget: a point of the sphere distribution at radius ExplosionRadius(index). */
  function ExplosionTarget(
    index: int, count: int,
    sin: real -> real, cos: real -> real, acos: real -> real, sqrt: real -> real): Vec3
    requires 0 <= index < count
  {
    var phi := ExplosionPolar(index, count, acos);
    var theta := ExplosionAzimuth(count, phi, sqrt);
    var r := ExplosionRadius(sin, index);
    Vec3(r * cos(theta) * sin(phi), r * sin(theta) * sin(phi), r * cos(phi))
  }

  /** Every explosion target lies on the sphere of radius ExplosionRadius(index), so at distance in [15, 35). */
  lemma ExplosionTargetOnShell(
    index: int, count: int,
    sin: real -> real, cos: real -> real, acos: real -> real, sqrt: real -> real)
    requires 0 <= index < count
    requires Pythagorean(sin, cos)
    ensures var v := ExplosionTarget(index, count, sin, cos, acos, sqrt);
            var r := ExplosionRadius(sin, index);
            v.x * v.x + v.y * v.y + v.z * v.z == r * r
  {
    var phi := ExplosionPolar(index, count, acos);
    var theta := ExplosionAzimuth(count, phi, sqrt);
    var r := ExplosionRadius(sin, index);
    assert sin(theta) * sin(theta) + cos(theta) * cos(theta) == 1.0;
    assert sin(phi) * sin(phi) + cos(phi) * cos(phi) == 1.0;
    OnSphere(r, cos(theta), sin(theta), cos(phi), sin(phi));
  }

  /** Spherical coordinates with unit (cos, sin) pairs give a point at distance r. */
  lemma OnSphere(r: real, ct: real, st: real, cp: real, sp: real)
    requires st * st + ct * ct == 1.0 && sp * sp + cp * cp == 1.0
    ensures (r * ct * sp) * (r * ct * sp) + (r * st * sp) * (r * st * sp) + (r * cp) * (r * cp) == r * r
  {
    var rs := r * sp;
    calc {
      (r * ct * sp) * (r * ct * sp) + (r * st * sp) * (r * st * sp) + (r * cp) * (r * cp);
      rs * rs * (ct * ct + st * st) + r * r * (cp * cp);
      rs * rs + r * r * (cp * cp);
      r * r * (sp * sp + cp * cp);
      r * r;
    }
  }
}
