/** The parts of the engine's transform types that the map code touches.
    Every rotation the map places is a turn about the vertical (+Y) axis, so
    a rotation is kept as a whole number of degrees of yaw. */
module Spatial {

  datatype Vec3 = Vec3(x: real, y: real, z: real)

  const Zero: Vec3 := Vec3(0.0, 0.0, 0.0)
  const One: Vec3 := Vec3(1.0, 1.0, 1.0)

  /** A turn of `degrees` about the vertical axis; equal turns are kept in [0, 360). */
  datatype Rotation = Yaw(degrees: int)

  const Identity: Rotation := Yaw(0)

  /** Apply `first`, then `second`. */
  function Compose(first: Rotation, second: Rotation): (r: Rotation)
    ensures 0 <= r.degrees < 360
  {
    Yaw((first.degrees + second.degrees) % 360)
  }

  datatype Transform = Transform(translation: Vec3, rotation: Rotation, scale: Vec3)

  /** `Transform::default()`: no translation, no rotation, unit scale. */
  const DefaultTransform: Transform := Transform(Zero, Identity, One)

  /** `Transform::from_translation` (and the same for `GlobalTransform`). */
  function FromTranslation(t: Vec3): (r: Transform)
    ensures r.translation == t
    ensures r.rotation == DefaultTransform.rotation && r.scale == DefaultTransform.scale
  {
    DefaultTransform.(translation := t)
  }
}
