/**
 * The App component driving the particle component: the mode and rotation speed
 * App holds are the props InstancedParticles reads on every rendered frame.
 */
module Scene {
  import opened Types
  import opened Interaction
  import opened Particles

  /** Every instance of every buffer sits on its explosion target, with its rest scale. */
  ghost predicate Exploded(scene: InstancedParticles)
    requires scene.Valid()
    reads scene.leaves, scene.decos, scene.ribbon
  {
    && (forall k :: 0 <= k < LeafCount ==>
          scene.leaves[k].position == scene.explosionTargets[Base(Leaf) + k]
          && scene.leaves[k].scale == scene.leavesData[k].scale)
    && (forall k :: 0 <= k < DecoCount ==>
          scene.decos[k].position == scene.explosionTargets[Base(Decoration) + k]
          && scene.decos[k].scale == scene.decoData[k].scale)
    && (forall k :: 0 <= k < RibbonCount ==>
          scene.ribbon[k].position == scene.explosionTargets[Base(Ribbon) + k]
          && scene.ribbon[k].scale == scene.ribbonData[k].scale)
  }

  /** Every instance of every buffer is back at its stored rest transform. */
  ghost predicate Assembled(scene: InstancedParticles)
    requires scene.Valid()
    reads scene.leaves, scene.decos, scene.ribbon
  {
    && AtRest(scene.leaves[..], scene.leavesData)
    && AtRest(scene.decos[..], scene.decoData)
    && AtRest(scene.ribbon[..], scene.ribbonData)
  }

  /** Three frames of half a second each under the app's current mode and speed. */
  method RenderThreeHalfSecondFrames(app: App, scene: InstancedParticles)
    requires scene.Valid()
    modifies scene, scene.leaves, scene.decos, scene.ribbon
    ensures Moving(old(scene.progress), TargetProgress(app.appState)) ==>
              scene.progress == TargetProgress(app.appState) && scene.Drawn(scene.progress)
    ensures !Moving(old(scene.progress), TargetProgress(app.appState)) ==>
              scene.progress == old(scene.progress)
              && unchanged(scene.leaves) && unchanged(scene.decos) && unchanged(scene.ribbon)
  {
    var target := TargetProgress(app.appState);
    if Moving(scene.progress, target) {
      StepLandsWhenHalfSecond(scene.progress, target, 0.5);
    }
    scene.Frame(app.appState, app.rotationSpeed, 0.5);
    assert !Moving(scene.progress, target);
    ghost var settled := scene.progress;
    scene.Frame(app.appState, app.rotationSpeed, 0.5);
    scene.Frame(app.appState, app.rotationSpeed, 0.5);
    assert scene.progress == settled;
  }

  /** From the assembled tree at rest, a click and three half-second frames put every particle on its explosion target. */
  method ClickAndExplode(app: App, scene: InstancedParticles)
    requires scene.Valid()
    requires app.appState == Tree && scene.progress == 0.0
    modifies app, scene, scene.leaves, scene.decos, scene.ribbon
    ensures app.appState == Explode && scene.progress == 1.0
    ensures Exploded(scene)
  {
    app.ToggleState();
    RenderThreeHalfSecondFrames(app, scene);
    DrawnAtOneIsExploded(Leaf, scene.leaves[..], scene.leavesData, scene.explosionTargets);
    DrawnAtOneIsExploded(Decoration, scene.decos[..], scene.decoData, scene.explosionTargets);
    DrawnAtOneIsExploded(Ribbon, scene.ribbon[..], scene.ribbonData, scene.explosionTargets);
  }

  /** From the exploded tree, a click and three half-second frames put every particle back on its rest transform. */
  method ClickAndReassemble(app: App, scene: InstancedParticles)
    requires scene.Valid()
    requires app.appState == Explode && scene.progress == 1.0
    modifies app, scene, scene.leaves, scene.decos, scene.ribbon
    ensures app.appState == Tree && scene.progress == 0.0
    ensures Assembled(scene)
  {
    app.ToggleState();
    RenderThreeHalfSecondFrames(app, scene);
    DrawnAtZeroIsRest(Leaf, scene.leaves[..], scene.leavesData, scene.explosionTargets);
    DrawnAtZeroIsRest(Decoration, scene.decos[..], scene.decoData, scene.explosionTargets);
    DrawnAtZeroIsRest(Ribbon, scene.ribbon[..], scene.ribbonData, scene.explosionTargets);
  }

  /** The two clicks in a row: progress returns to exactly 0 and every buffer to its rest layout. */
  method ClickExplodeAndReassemble(app: App, scene: InstancedParticles)
    requires scene.Valid()
    requires app.appState == Tree && scene.progress == 0.0
    modifies app, scene, scene.leaves, scene.decos, scene.ribbon
    ensures app.appState == Tree && scene.progress == 0.0
    ensures Assembled(scene)
  {
    ClickAndExplode(app, scene);
    ClickAndReassemble(app, scene);
  }
}
