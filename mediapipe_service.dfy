/**
 * The hand-gesture service (services/mediapipeService.ts): the duplicate-frame
 * guard in front of the landmark detector, and the classifier that turns the
 * landmarks of the first detected hand into a gesture sample.
 *
 * Math.sqrt is a parameter; the only fact relied on about it, where one is
 * needed, is that it is non-negative on non-negative arguments.
 */
module MediapipeService {
  import opened Types

  /** A normalised image-space hand landmark (the z coordinate is never read). */
  datatype Landmark = Landmark(x: real, y: real)

  /** Result of analyzeGesture: a sample, or the TypeError thrown when a hand has fewer than 21 landmarks. */
  datatype Analysis = Analyzed(data: GestureData) | MissingLandmark

  const LandmarksPerHand: nat := 21
  const Wrist: nat := 0
  /** Thumb, index, middle, ring and pinky tips. */
  const FingerTips: seq<nat> := [4, 8, 12, 16, 20]
  const FistThreshold: real := 0.25
  const OpenPalmThreshold: real := 0.35
  const RotationGain: real := 5.0

  /** The sample for "no hand": centred, no gesture, no rotation. */
  const NoHand: GestureData := GestureData(false, NoGesture, Point2(0.5, 0.5), 0.0)

  ghost predicate NonNegativeRoot(sqrt: real -> real)
  {
    forall v :: 0.0 <= v ==> 0.0 <= sqrt(v)
  }

  predicate InUnitSquare(x: real, y: real)
  {
    0.0 <= x <= 1.0 && 0.0 <= y <= 1.0
  }

  /**
   * processVideoFrame, reduced to its guard: the time of the frame to analyse,
   * or None when the detector is not loaded or the video has not advanced.
   */
  function ProcessVideoFrame(landmarkerLoaded: bool, currentTime: real, lastVideoTime: real): (r: Option<real>)
    ensures r.None? <==> !landmarkerLoaded || currentTime == lastVideoTime
    ensures r.Some? ==> r.value == currentTime && r.value != lastVideoTime
  {
    if !landmarkerLoaded then None
    else if currentTime != lastVideoTime then Some(currentTime)
    else None
  }

  /** Once a frame has been processed and its time recorded, the same frame is never processed again. */
  lemma FrameProcessedOnce(landmarkerLoaded: bool, currentTime: real, lastVideoTime: real)
    requires ProcessVideoFrame(landmarkerLoaded, currentTime, lastVideoTime).Some?
    ensures ProcessVideoFrame(landmarkerLoaded, currentTime,
              ProcessVideoFrame(landmarkerLoaded, currentTime, lastVideoTime).value).None?
  {
  }

  /** Euclidean distance in the image plane. */
  function Distance(a: Landmark, b: Landmark, sqrt: real -> real): (d: real)
    ensures NonNegativeRoot(sqrt) ==> 0.0 <= d
  {
    var dx := a.x - b.x;
    var dy := a.y - b.y;
    assert 0.0 <= dx * dx && 0.0 <= dy * dy;
    sqrt(dx * dx + dy * dy)
  }

  /** The forEach accumulation of totalDist over the given tip indices, in order. */
  function TipDistanceTotal(hand: seq<Landmark>, tips: seq<nat>, sqrt: real -> real): (total: real)
    requires Wrist < |hand|
    requires forall k :: 0 <= k < |tips| ==> tips[k] < |hand|
    ensures NonNegativeRoot(sqrt) ==> 0.0 <= total
    decreases |tips|
  {
    if tips == [] then 0.0
    else
      var prefix := TipDistanceTotal(hand, tips[..|tips| - 1], sqrt);
      prefix + Distance(hand[tips[|tips| - 1]], hand[Wrist], sqrt)
  }

  /** avgDist: the mean fingertip-to-wrist distance. */
  function AverageTipDistance(hand: seq<Landmark>, sqrt: real -> real): (avg: real)
    requires LandmarksPerHand <= |hand|
    ensures NonNegativeRoot(sqrt) ==> 0.0 <= avg
  {
    TipDistanceTotal(hand, FingerTips, sqrt) / 5.0
  }

  /** The threshold classifier on avgDist. */
  function Classify(avgDist: real): (g: Gesture)
    ensures g == Fist <==> avgDist < FistThreshold
    ensures g == OpenPalm <==> avgDist > OpenPalmThreshold
    ensures g == NoGesture <==> FistThreshold <= avgDist <= OpenPalmThreshold
  {
    if avgDist < FistThreshold then Fist
    else if avgDist > OpenPalmThreshold then OpenPalm
    else NoGesture
  }

  /** Palm centre: the mean of the wrist and the four finger bases (landmarks 0, 5, 9, 13, 17). */
  function PalmCenter(hand: seq<Landmark>): (c: Point2)
    requires LandmarksPerHand <= |hand|
    ensures InUnitSquare(hand[0].x, hand[0].y) && InUnitSquare(hand[5].x, hand[5].y)
            && InUnitSquare(hand[9].x, hand[9].y) && InUnitSquare(hand[13].x, hand[13].y)
            && InUnitSquare(hand[17].x, hand[17].y)
            ==> InUnitSquare(c.x, c.y)
  {
    Point2(
      (hand[0].x + hand[5].x + hand[9].x + hand[13].x + hand[17].x) / 5.0,
      (hand[0].y + hand[5].y + hand[9].y + hand[13].y + hand[17].y) / 5.0)
  }

  /** Horizontal offset of the palm from the image centre, scaled into a rotation signal. */
  function RotationDelta(palmCenterX: real): (r: real)
    ensures palmCenterX == 0.5 <==> r == 0.0
    ensures r > 0.0 <==> palmCenterX > 0.5
    ensures r < 0.0 <==> palmCenterX < 0.5
    ensures 0.0 <= palmCenterX <= 1.0 ==> -2.5 <= r <= 2.5
  {
    (palmCenterX - 0.5) * RotationGain
  }

  /** analyzeGesture over the hands reported for one frame (None: the landmark list is missing). */
  function AnalyzeGesture(landmarks: Option<seq<seq<Landmark>>>, sqrt: real -> real): (r: Analysis)
    ensures landmarks.None? || landmarks.value == [] ==> r == Analyzed(NoHand)
    ensures landmarks.Some? && landmarks.value != [] ==>
              (r.MissingLandmark? <==> |landmarks.value[0]| < LandmarksPerHand)
    ensures landmarks.Some? && landmarks.value != [] && r.Analyzed? ==> r.data.isHandDetected
    ensures r.Analyzed? && !r.data.isHandDetected ==> r.data == NoHand
    ensures r.Analyzed? && r.data.isHandDetected ==>
              r.data.rotationDelta == (r.data.handPosition.x - 0.5) * RotationGain
    ensures landmarks.Some? && landmarks.value != [] && LandmarksPerHand <= |landmarks.value[0]| ==>
              var hand := landmarks.value[0];
              r == Analyzed(GestureData(true, Classify(AverageTipDistance(hand, sqrt)), PalmCenter(hand),
                                        RotationDelta(PalmCenter(hand).x)))
  {
    if landmarks.None? || |landmarks.value| == 0 then Analyzed(NoHand)
    else
      var hand := landmarks.value[0];
      if |hand| < LandmarksPerHand then MissingLandmark
      else
        var center := PalmCenter(hand);
        var avgDist := AverageTipDistance(hand, sqrt);
        Analyzed(GestureData(true, Classify(avgDist), center, RotationDelta(center.x)))
  }

  /**
   * For a complete first hand: the gesture is the class of a non-negative average
   * distance, and a hand whose palm landmarks lie in the image yields a position in
   * the unit square and a rotation signal in [-2.5, 2.5].
   */
  lemma AnalyzedHandInRange(landmarks: seq<seq<Landmark>>, sqrt: real -> real)
    requires landmarks != [] && LandmarksPerHand <= |landmarks[0]|
    requires NonNegativeRoot(sqrt)
    requires var h := landmarks[0];
             InUnitSquare(h[0].x, h[0].y) && InUnitSquare(h[5].x, h[5].y)
             && InUnitSquare(h[9].x, h[9].y) && InUnitSquare(h[13].x, h[13].y)
             && InUnitSquare(h[17].x, h[17].y)
    ensures var r := AnalyzeGesture(Some(landmarks), sqrt);
            && r.Analyzed?
            && 0.0 <= AverageTipDistance(landmarks[0], sqrt)
            && r.data.gesture == Classify(AverageTipDistance(landmarks[0], sqrt))
            && InUnitSquare(r.data.handPosition.x, r.data.handPosition.y)
            && -2.5 <= r.data.rotationDelta <= 2.5
  {
  }
}
