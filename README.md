# cyberpink-christmas-dream, modelled in Dafny

A particle Christmas tree that flies apart ("explode") and reassembles ("tree").
A canvas click or a hand gesture picks the mode. A progress scalar, advanced
once per rendered frame, interpolates 7000 instanced particles between their
rest placement on the tree and a target on an explosion sphere. The group of
particles spins slowly all the time, and an open palm steers it: a palm right
of centre spins it faster, a palm left of centre slower or backwards.

The model covers four parts of the program, one Dafny module each, plus a
shared module of record shapes:

- `Types` (`types.ts`): the mode, the gesture classes, the particle record and
  the gesture sample.
- `LayoutMath` (`utils/math.ts`):
  - `seedRandom`;
  - the three layout generators, as methods with loops proved against one
    function per particle record;
  - `getExplosionTarget`.
- `MediapipeService` (`services/mediapipeService.ts`): the duplicate-frame
  guard of `processVideoFrame`, and `analyzeGesture` (palm centre, mean
  fingertip distance, threshold classification, rotation signal).
- `Interaction` (`App.tsx`): the mode machine as a class `App` with the fields
  `appState`, `rotationSpeed` and `lastGesture`. Its two handlers are the click
  toggle and the gesture handler. Each is specified by a function on an
  `InteractionState` value, and the lemmas are about those functions.
- `Particles` (`components/InstancedParticles.tsx`): the transition engine as a
  class `InstancedParticles`.
  - The rest data and explosion targets are immutable fields.
  - The three instance buffers are arrays of `Transform` records that
    `UpdateMatrices` rewrites in place, with one running global index across the
    three loops.
  - `progress` and the group's Y rotation are fields that the two frame
    callbacks update.
- `Scene`: App's mode and speed fed into the particle component. It states the
  end-to-end walk: a click and three half-second frames put every particle on
  its explosion target, and a second click and three more frames put every
  particle back on its rest transform.

Math.sin, Math.cos, Math.acos and Math.sqrt are parameters of type
`real -> real`. A lemma that needs a fact about them says so in its requires:
`Pythagorean(sin, cos)` (sin² + cos² = 1) or `NonNegativeRoot(sqrt)`.
Math.random is a sequence of draws in [0, 1), consumed in the order the source
calls it: four per leaf and five per decoration. Leaves are generated before
decorations. All quantities are unbounded reals. three.js `lerp` is
`(1 - t) * a + t * b`, as three.js defines it.

Two behaviours of the code are worth knowing before reading the contracts:

- Nothing clamps progress. It stays in [0, 1] while a frame's `2 * delta` is
  at most 1 (`Particles.StepInUnitInterval`), and at `delta = 1` second it
  swings between 0 and 2 forever (`Particles.LongFramesOscillate`).
- A first hand with fewer than 21 landmarks makes the code read `.x` of
  `undefined` and throw a TypeError. The model returns `MissingLandmark` for it.

## Model

| member | source | states |
|---|---|---|
| LayoutMath.Frac | cyberpink-christmas-dream/utils/math.ts:7 | x - floor(x) lies in [0, 1) and differs from x by an integer |
| LayoutMath.SeedRandom | cyberpink-christmas-dream/utils/math.ts:5-8 | seedRandom(i) lies in [0, 1) |
| LayoutMath.LeafBaseHeight | cyberpink-christmas-dream/utils/math.ts:17 | base height of leaf i lies in [-9, 9) |
| LayoutMath.LeafBaseRadius | cyberpink-christmas-dream/utils/math.ts:18 | base cone radius of leaf i lies in (0, 7] |
| LayoutMath.RadiusNoise | cyberpink-christmas-dream/utils/math.ts:22 | radial noise lies in [-0.75, 0.75) |
| LayoutMath.HeightNoise | cyberpink-christmas-dream/utils/math.ts:23 | vertical noise lies in [-0.75, 0.75) |
| LayoutMath.AngleNoise | cyberpink-christmas-dream/utils/math.ts:24 | angular noise lies in [-0.25, 0.25) |
| LayoutMath.TreeParticle | cyberpink-christmas-dream/utils/math.ts:15-34 | a leaf record: type leaf, scale in [0.5, 1), each rotation in [0, PI), height within 0.75 of the cone height |
| LayoutMath.LeafPosition | cyberpink-christmas-dream/utils/math.ts:17-27 | where leaf i sits; no contract of its own, its properties are LeafOnNoisyCone and the height bound of TreeParticle |
| LayoutMath.LeafTaper | cyberpink-christmas-dream/utils/math.ts:17-18 | along the foliage, height strictly rises and cone radius strictly shrinks with the index |
| LayoutMath.LeafOnNoisyCone | cyberpink-christmas-dream/utils/math.ts:22-27 | each leaf lies at horizontal distance abs(radius + rNoise) from the trunk axis: x² + z² = (radius + rNoise)² |
| LayoutMath.GenerateTreeParticles | cyberpink-christmas-dream/utils/math.ts:10-37 | exactly count records (none for count <= 0); record i is the leaf record for index i and draws 4i..4i+3 |
| LayoutMath.DecorationRadius | cyberpink-christmas-dream/utils/math.ts:46-47 | for a height in [-9, 9) the decoration radius lies in (0, 7.5] |
| LayoutMath.DecorationTaper | cyberpink-christmas-dream/utils/math.ts:46-47 | a higher decoration sits strictly closer to the trunk |
| LayoutMath.DecorationPosition | cyberpink-christmas-dream/utils/math.ts:45-53 | a height draw in [0, 1) puts the decoration at a height in [-9, 9), at a level in [0, 1) |
| LayoutMath.DecorationParticle | cyberpink-christmas-dream/utils/math.ts:44-60 | a decoration record: type decoration, scale in [0.8, 1.2), z rotation 0, height in [-9, 9), level in [0, 1) |
| LayoutMath.DecorationOnCone | cyberpink-christmas-dream/utils/math.ts:45-53 | a decoration lies on the circle whose radius is the cone radius at its own height |
| LayoutMath.GenerateDecorations | cyberpink-christmas-dream/utils/math.ts:39-63 | exactly count records; record i is the decoration record built from draws 5i..5i+4 |
| LayoutMath.RibbonProgress | cyberpink-christmas-dream/utils/math.ts:72 | i / count lies in [0, 1) |
| LayoutMath.RibbonRadius | cyberpink-christmas-dream/utils/math.ts:74 | the spiral radius lies in (0, 8] |
| LayoutMath.RibbonParticle | cyberpink-christmas-dream/utils/math.ts:71-85 | a ribbon record: type ribbon, scale 0.3, rotation (progress * 2PI, 0, 0) with x in [0, 2PI), height in [-9.5, 9.5) |
| LayoutMath.RibbonAscends | cyberpink-christmas-dream/utils/math.ts:72-82 | along the ribbon, height and x rotation strictly rise and radius strictly shrinks |
| LayoutMath.RibbonOnSpiral | cyberpink-christmas-dream/utils/math.ts:72-78 | each ribbon piece lies on the circle of the spiral radius at its index |
| LayoutMath.GenerateRibbon | cyberpink-christmas-dream/utils/math.ts:65-88 | exactly count records, record i is the ribbon record of index i (no randomness) |
| LayoutMath.ExplosionRadius | cyberpink-christmas-dream/utils/math.ts:94 | the explosion radius 15 + seedRandom(index) * 20 lies in [15, 35) |
| LayoutMath.ExplosionTarget | cyberpink-christmas-dream/utils/math.ts:90-101 | the point getExplosionTarget returns; no contract of its own, its properties are ExplosionRadius and ExplosionTargetOnShell |
| LayoutMath.ExplosionTargetOnShell | cyberpink-christmas-dream/utils/math.ts:90-100 | every explosion target lies on the sphere of that radius |
| MediapipeService.ProcessVideoFrame | cyberpink-christmas-dream/services/mediapipeService.ts:23-32 | no frame exactly when the landmarker is not loaded or the video time equals the last processed time; otherwise the new time |
| MediapipeService.FrameProcessedOnce | cyberpink-christmas-dream/services/mediapipeService.ts:26-29 | once the returned time is recorded as the last time, the same frame is not processed again |
| MediapipeService.Distance | cyberpink-christmas-dream/services/mediapipeService.ts:57-59 | a fingertip-to-wrist distance is non-negative |
| MediapipeService.TipDistanceTotal | cyberpink-christmas-dream/services/mediapipeService.ts:52-60 | the forEach total of the fingertip distances is non-negative |
| MediapipeService.AverageTipDistance | cyberpink-christmas-dream/services/mediapipeService.ts:62 | avgDist is non-negative |
| MediapipeService.Classify | cyberpink-christmas-dream/services/mediapipeService.ts:69-75 | FIST iff avgDist < 0.25, OPEN_PALM iff avgDist > 0.35, NONE iff avgDist in [0.25, 0.35]: exactly one class applies |
| MediapipeService.PalmCenter | cyberpink-christmas-dream/services/mediapipeService.ts:42-49 | the mean of landmarks 0, 5, 9, 13, 17 lies in the unit square when they do |
| MediapipeService.RotationDelta | cyberpink-christmas-dream/services/mediapipeService.ts:83 | (x - 0.5) * 5 is zero exactly at the centre, has the sign of the offset, and lies in [-2.5, 2.5] for x in [0, 1] |
| MediapipeService.AnalyzeGesture | cyberpink-christmas-dream/services/mediapipeService.ts:34-91 | missing or empty landmarks give the no-hand sample; a short first hand fails; a complete first hand gives a detected hand whose gesture is the class of its average fingertip distance, whose position is its palm centre, and whose rotationDelta is that centre's offset signal |
| MediapipeService.AnalyzedHandInRange | cyberpink-christmas-dream/services/mediapipeService.ts:41-90 | for a complete hand with palm landmarks in the image: gesture is the class of a non-negative avgDist, position in the unit square, rotationDelta in [-2.5, 2.5] |
| Interaction.Toggle | cyberpink-christmas-dream/App.tsx:11-13 | the click always changes the mode |
| Interaction.ToggleTwice | cyberpink-christmas-dream/App.tsx:11-13 | toggling twice restores the mode |
| Interaction.ModeWrite | cyberpink-christmas-dream/App.tsx:27-37 | a detected FIST writes TREE iff the handler's mode is EXPLODE, a detected OPEN_PALM writes EXPLODE iff it is TREE; never a redundant write |
| Interaction.HandleWithView | cyberpink-christmas-dream/App.tsx:15-42 | no hand: speed 0, mode and lastGesture kept; hand: speed rotationDelta * 0.5 for OPEN_PALM else 0; lastGesture changes exactly with a mode write |
| Interaction.OnGesture | cyberpink-christmas-dream/App.tsx:15-42 | the handler reading the current mode; no contract of its own, its properties are GestureOutcomes and RepeatedSampleIsIdle |
| Interaction.GestureOutcomes | cyberpink-christmas-dream/App.tsx:27-37 | after a detected FIST the mode is TREE, after OPEN_PALM it is EXPLODE; NONE or no hand keeps mode and lastGesture; lastGesture changes only with the mode |
| Interaction.RepeatedSampleIsIdle | cyberpink-christmas-dream/App.tsx:25-37 | a repeated identical sample changes nothing and asks for no mode write |
| Interaction.StaleViewIgnoresFist | cyberpink-christmas-dream/components/GestureOverlay.tsx:50-72 | with the handler of the first render, a FIST after an explosion leaves the tree exploded |
| Interaction.StaleHandlerNeverAssembles | cyberpink-christmas-dream/components/GestureOverlay.tsx:21-72 | the first-render handler never moves the mode to TREE |
| Interaction.App.constructor | cyberpink-christmas-dream/App.tsx:7-9 | initial state: TREE, speed 0, lastGesture NONE |
| Interaction.App.ToggleState | cyberpink-christmas-dream/App.tsx:11-13 | the mode flips, speed and lastGesture unchanged |
| Interaction.App.HandleGestureUpdate | cyberpink-christmas-dream/App.tsx:15-42 | the new state is the gesture handler applied to the old state with the current mode |
| Particles.TargetProgress | cyberpink-christmas-dream/components/InstancedParticles.tsx:72 | target 1 iff EXPLODE, 0 iff TREE |
| Particles.StepProgress | cyberpink-christmas-dream/components/InstancedParticles.tsx:77-80 | the progress step of one frame; no contract of its own, its properties are StepStaysBetween, StepInUnitInterval, StepSnapsOrStaysFar, StepLandsWhenHalfSecond, StepShrinksGap, SettledStaysPut, ProgressConverges and LongFramesOscillate |
| Particles.StepStaysBetween | cyberpink-christmas-dream/components/InstancedParticles.tsx:77-80 | with 0 < 2 delta <= 1 a step lands between the old progress and the target; a settled progress is kept |
| Particles.StepInUnitInterval | cyberpink-christmas-dream/components/InstancedParticles.tsx:70-80 | with 0 < 2 delta <= 1 a progress in [0, 1] stays in [0, 1] |
| Particles.StepSnapsOrStaysFar | cyberpink-christmas-dream/components/InstancedParticles.tsx:80 | a moving step ends on the target or at least 0.005 away from it |
| Particles.StepLandsWhenHalfSecond | cyberpink-christmas-dream/components/InstancedParticles.tsx:77-80 | with 2 delta = 1 a moving step lands exactly on the target |
| Particles.LongFramesOscillate | cyberpink-christmas-dream/components/InstancedParticles.tsx:77-80 | at delta = 1 progress from 0 toward 1 alternates 0, 2, 0, 2, ... forever |
| Particles.SettledStaysPut | cyberpink-christmas-dream/components/InstancedParticles.tsx:77 | a settled progress is unchanged by any number of frames |
| Particles.StepShrinksGap | cyberpink-christmas-dream/components/InstancedParticles.tsx:77-80 | a moving step that does not snap closes the gap by at least 2 delta * 0.001 |
| Particles.ProgressConverges | cyberpink-christmas-dream/components/InstancedParticles.tsx:70-80 | with 0 < 2 delta <= 1, a moving progress sits exactly on the target after n frames once n * 2 delta * 0.001 covers the gap |
| Particles.Lerp | cyberpink-christmas-dream/components/InstancedParticles.tsx:106-108 | lerp at t = 0 is the rest value and at t = 1 the target |
| Particles.LerpBetween | cyberpink-christmas-dream/components/InstancedParticles.tsx:106-108 | for t in [0, 1] lerp lies between its two ends |
| Particles.RotationOffset | cyberpink-christmas-dream/components/InstancedParticles.tsx:111-115 | the class rotation added at progress p (leaves 2p on x and y, decorations 5p on y at :135, ribbon p on x at :155): none at p = 0 and never on z |
| Particles.InstanceTransform | cyberpink-christmas-dream/components/InstancedParticles.tsx:106-116 | scale is the stored scale; at p = 0 the rest transform; at p = 1 the position is the explosion target |
| Particles.SlotOf | cyberpink-christmas-dream/components/InstancedParticles.tsx:94-162 | every global index in [0, 7000) is read by one slot of one buffer |
| Particles.GlobalIndexBijection | cyberpink-christmas-dream/components/InstancedParticles.tsx:94-162 | slot i of each buffer reads global index Base + i < 7000, and SlotOf inverts it: each explosion target is used exactly once |
| Particles.AllDataOrder | cyberpink-christmas-dream/components/InstancedParticles.tsx:25 | slot i of a buffer and entry Base + i of allData are the same particle |
| Particles.DrawnAtZeroIsRest | cyberpink-christmas-dream/components/InstancedParticles.tsx:164-167 | a buffer drawn at progress 0 holds the rest transform in every slot |
| Particles.DrawnAtOneIsExploded | cyberpink-christmas-dream/components/InstancedParticles.tsx:94-162 | a buffer drawn at progress 1 puts every instance on its own explosion target with its scale |
| Particles.InstancedParticles.constructor | cyberpink-christmas-dream/components/InstancedParticles.tsx:17-37 | leaf i and decoration i are the generator records of their random draws, the ribbon records, 7000 explosion targets for allData, progress 0, and after the initial draw every buffer at rest |
| Particles.InstancedParticles.UpdateMatrices | cyberpink-christmas-dream/components/InstancedParticles.tsx:94-162 | every slot of the three buffers holds its transform at the current progress |
| Particles.InstancedParticles.AmbientFrame | cyberpink-christmas-dream/components/InstancedParticles.tsx:40-44 | rotation grows by delta * 0.1 + rotationSpeed * delta; progress is untouched |
| Particles.InstancedParticles.TransitionFrame | cyberpink-christmas-dream/components/InstancedParticles.tsx:69-91 | progress takes one step; buffers redrawn when moving and untouched when settled; rotation grows by (0.1 + speed) delta; range kept for 2 delta <= 1 |
| Particles.InstancedParticles.Frame | cyberpink-christmas-dream/components/InstancedParticles.tsx:40-91 | one rendered frame: the progress step, and the group rotation grows by 2 (0.1 + speed) delta |
| Scene.RenderThreeHalfSecondFrames | cyberpink-christmas-dream/components/InstancedParticles.tsx:69-91 | three half-second frames put a moving progress exactly on the target with the buffers drawn there |
| Scene.ClickAndExplode | cyberpink-christmas-dream/components/Experience.tsx:44 | from rest, a click plus three half-second frames gives progress 1 and every instance on its explosion target with its scale |
| Scene.ClickAndReassemble | cyberpink-christmas-dream/components/Experience.tsx:44 | from the explosion, a click plus three half-second frames gives progress exactly 0 and every slot of every buffer back on its rest transform |
| Scene.ClickExplodeAndReassemble | cyberpink-christmas-dream/components/Experience.tsx:44 | two clicks, each followed by three half-second frames, end in TREE at progress 0 with every buffer on its rest transform |

## Findings

| source | as written | input that shows it | evidently intended | confidence | as-written member | corrected member |
|---|---|---|---|---|---|---|
| cyberpink-christmas-dream/components/GestureOverlay.tsx:50-72 | The predict loop starts once and keeps calling the gesture handler of the first render. That handler's `appState` is TREE, so its FIST branch never fires. | Click (or open palm) to explode, then show a detected FIST: the tree stays exploded. | A FIST reassembles an exploded tree, as the handler's own guard intends. | high, not executed | Interaction.StaleViewIgnoresFist | Interaction.App.HandleGestureUpdate |

## Left out

- Rendering is not modelled. This covers meshes, materials, lights, post-processing, the 4x4 instance matrices, `dummy.updateMatrix`, `setMatrixAt` and `needsUpdate`. A buffer slot holds the (position, rotation, scale) record that would be turned into a matrix.
- The mesh and group refs are taken as always mounted. With a null ref the source skips that buffer's loop and its global-index increments, and the model has no such case.
- The `lerpFactor` computed by `THREE.MathUtils.damp` in the first frame callback is discarded by the source, so it is not modelled.
- The Star component, the camera, the overlay cursor and `initializeMediaPipe` are not modelled: they are plumbing and load the model over the network. `detectForVideo` is a call into the landmark detector and is not modelled either.
- `ProcessVideoFrame` keeps only the guard. The detection result it carries is the input of `AnalyzeGesture`.
- Floating-point rounding is not modelled; every quantity is an unbounded real.
- Math.sin, cos, acos and sqrt are uninterpreted parameters. The lemmas rely only on the Pythagorean identity and a non-negative root, so nothing is proved about the direction of a point on its circle.
- The optional `color` field of a particle record and each landmark's z coordinate are never read by the core, so they are left out.
- A missing landmark list and an undefined one are both `None`.
- The rest data and explosion targets are `const` fields. The source also never writes them, but the model does not capture JavaScript aliasing of those arrays.
- `AnalyzeGesture`: a first hand with fewer than 21 landmarks gives `MissingLandmark`; the TypeError the code throws there, and whatever its caller does with it, is not modelled further.
- `LayoutMath.ExplosionTarget` carries no contract of its own. Its property is the on-shell lemma, because acos and sqrt are uninterpreted.
