/**
 * Shared shapes of the application: the display mode, the gesture classes, the
 * particle record produced by the layout generators and the gesture sample
 * produced by the hand classifier.
 */
module Types {

  datatype Option<+T> = None | Some(value: T)

  /** Display mode of the tree: assembled or flown apart. */
  datatype AppState = Tree | Explode

  /** Gesture classes reported by the hand classifier ('NONE', 'FIST', 'OPEN_PALM'). */
  datatype Gesture = NoGesture | Fist | OpenPalm

  /** Class tag a layout generator stamps on each particle ('leaf', 'decoration', 'ribbon'). */
  datatype ParticleType = Leaf | Decoration | Ribbon

  datatype Vec3 = Vec3(x: real, y: real, z: real)

  datatype Point2 = Point2(x: real, y: real)

  /** A particle's rest placement: position, Euler rotation, uniform scale and class tag. */
  datatype ParticleData = ParticleData(position: Vec3, rotation: Vec3, scale: real, kind: ParticleType)

  /** One classified gesture sample; handPosition is in normalised image coordinates. */
  datatype GestureData = GestureData(
    isHandDetected: bool,
    gesture: Gesture,
    handPosition: Point2,
    rotationDelta: real)

  /** Math.abs over the reals. */
  function Abs(x: real): real
  {
    if x < 0.0 then -x else x
  }
}
