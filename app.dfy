/**
 * The interaction state machine of App.tsx: the display mode, the gesture-driven
 * rotation speed and the last gesture that switched the mode, updated by a click
 * toggle and by each gesture sample.
 */
module Interaction {
  import opened Types

  /** rotationSpeed = rotationDelta * Sensitivity while the palm is open. */
  const Sensitivity: real := 0.5

  datatype InteractionState = InteractionState(mode: AppState, rotationSpeed: real, lastGesture: Gesture)

  /** Mode TREE, speed 0, last gesture 'NONE'. */
  const Initial: InteractionState := InteractionState(Tree, 0.0, NoGesture)

  /** The click toggle: the other mode. */
  function Toggle(mode: AppState): (r: AppState)
    ensures r != mode
  {
    if mode == Tree then Explode else Tree
  }

  /** Toggling twice restores the mode. */
  lemma ToggleTwice(mode: AppState)
    ensures Toggle(Toggle(mode)) == mode
  {
  }

  /**
   * The setAppState call a gesture sample triggers, if any, when the handler sees
   * the mode `view`: FIST asks for TREE and OPEN_PALM for EXPLODE, each only when
   * `view` is not already that mode.
   */
  function ModeWrite(view: AppState, data: GestureData): (w: Option<AppState>)
    ensures w.Some? ==> w.value != view
    ensures w == Some(Tree) <==> data.isHandDetected && data.gesture == Fist && view == Explode
    ensures w == Some(Explode) <==> data.isHandDetected && data.gesture == OpenPalm && view == Tree
  {
    assert view.Tree? || view.Explode?;
    if !data.isHandDetected then None
    else if data.gesture == Fist && view != Tree then Some(Tree)
    else if data.gesture == OpenPalm && view != Explode then Some(Explode)
    else None
  }

  /**
   * handleGestureUpdate applied to state s by a handler whose closure sees the
   * mode `view`. The speed is recomputed from every sample; a mode write, when
   * one fires, also records the gesture that caused it.
   */
  function HandleWithView(view: AppState, s: InteractionState, data: GestureData): (r: InteractionState)
    ensures !data.isHandDetected ==> r == s.(rotationSpeed := 0.0)
    ensures data.isHandDetected && data.gesture == OpenPalm ==> r.rotationSpeed == data.rotationDelta * Sensitivity
    ensures data.isHandDetected && data.gesture != OpenPalm ==> r.rotationSpeed == 0.0
    ensures ModeWrite(view, data).None? ==> r.mode == s.mode && r.lastGesture == s.lastGesture
    ensures ModeWrite(view, data).Some? ==>
              r.mode == ModeWrite(view, data).value && r.lastGesture == data.gesture
  {
    var speed := if data.isHandDetected && data.gesture == OpenPalm then data.rotationDelta * Sensitivity else 0.0;
    match ModeWrite(view, data)
    case None => s.(rotationSpeed := speed)
    case Some(m) => InteractionState(m, speed, data.gesture)
  }

  /** The handler reading the current mode. */
  function OnGesture(s: InteractionState, data: GestureData): InteractionState
  {
    HandleWithView(s.mode, s, data)
  }

  /**
   * The promises of the gesture handler: after a detected FIST the mode is TREE,
   * after a detected OPEN_PALM it is EXPLODE, a NONE gesture or a missing hand
   * never changes the mode or the last gesture, and lastGesture changes only
   * together with the mode.
   */
  lemma GestureOutcomes(s: InteractionState, data: GestureData)
    ensures data.isHandDetected && data.gesture == Fist ==> OnGesture(s, data).mode == Tree
    ensures data.isHandDetected && data.gesture == OpenPalm ==> OnGesture(s, data).mode == Explode
    ensures data.gesture == NoGesture || !data.isHandDetected ==>
              OnGesture(s, data).mode == s.mode && OnGesture(s, data).lastGesture == s.lastGesture
    ensures OnGesture(s, data).lastGesture != s.lastGesture ==> OnGesture(s, data).mode != s.mode
    ensures OnGesture(s, data).mode != s.mode ==> OnGesture(s, data).lastGesture == data.gesture
  {
  }

  /**
   * A repeated identical sample changes nothing more and asks for no mode write:
   * the debounce that prevents flicker.
   */
  lemma RepeatedSampleIsIdle(s: InteractionState, data: GestureData)
    ensures OnGesture(OnGesture(s, data), data) == OnGesture(s, data)
    ensures ModeWrite(OnGesture(s, data).mode, data).None?
  {
  }

  /**
   * As wired, the gesture loop keeps calling the handler of the first render,
   * whose closure sees the mode TREE for good. From an exploded tree a detected
   * FIST then leaves the tree exploded, where the current-mode handler assembles it.
   */
  lemma StaleViewIgnoresFist()
    ensures var s := InteractionState(Explode, 0.0, OpenPalm);
            var fist := GestureData(true, Fist, Point2(0.5, 0.5), 0.0);
            && HandleWithView(Initial.mode, s, fist).mode == Explode
            && OnGesture(s, fist).mode == Tree
  {
  }

  /** The first-render handler never moves the mode to TREE: after an explosion the tree stays exploded. */
  lemma StaleHandlerNeverAssembles(s: InteractionState, data: GestureData)
    ensures HandleWithView(Initial.mode, s, data).mode == Tree ==> s.mode == Tree
    ensures s.mode == Explode ==> HandleWithView(Initial.mode, s, data).mode == Explode
  {
  }

  /** The App component's state and its two event handlers. */
  class App {
    var appState: AppState
    var rotationSpeed: real
    var lastGesture: Gesture

    function State(): InteractionState
      reads this
    {
      InteractionState(appState, rotationSpeed, lastGesture)
    }

    constructor ()
      ensures State() == Initial
    {
      appState := Tree;
      rotationSpeed := 0.0;
      lastGesture := NoGesture;
    }

    /** The canvas click. */
    method ToggleState()
      modifies this
      ensures appState == Toggle(old(appState))
      ensures rotationSpeed == old(rotationSpeed) && lastGesture == old(lastGesture)
    {
      appState := if appState == Tree then Explode else Tree;
    }

    /** One gesture sample, handled against the current mode. */
    method HandleGestureUpdate(data: GestureData)
      modifies this
      ensures State() == OnGesture(old(State()), data)
    {
      if data.isHandDetected {
        if data.gesture == OpenPalm {
          rotationSpeed := data.rotationDelta * Sensitivity;
        } else {
          rotationSpeed := 0.0;
        }
        if data.gesture == Fist && appState != Tree {
          appState := Tree;
          lastGesture := Fist;
        } else if data.gesture == OpenPalm && appState != Explode {
          appState := Explode;
          lastGesture := OpenPalm;
        }
      } else {
        rotationSpeed := 0.0;
      }
    }
  }
}
