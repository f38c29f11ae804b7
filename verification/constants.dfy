/**
  The program's numeric constants, kept together as the program declares
  them: the drawing surface, the frame rate, and the angular quantities that
  drive acceleration and damping.
 */
module Constants {

  /** Side of the square view box, in drawing units. */
  const ViewBoxSize: real := 600.0

  /** Frames per second; angular velocities are divided by it once per frame. */
  const FrameRate: real := 200.0

  /** One degree in radians, to ten significant digits. */
  const OneDegreeInRadian: real := 0.01745329255

  /** The initial angular velocity about each axis. */
  const TenDegreeInRadian: real := OneDegreeInRadian * 10.0

  /** The velocity change of one acceleration impulse, before the multiplier. */
  const AccelerateBy: real := OneDegreeInRadian * 50.0

  /** The factor every velocity component is multiplied by once per frame. */
  const DampenPercent: real := 1.0 - 0.9 / FrameRate
}
