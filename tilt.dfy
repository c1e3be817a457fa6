/** The tilt and velocity arithmetic of one maze tick, on exact reals.

    The C code computes in 32-bit floats; here every quantity is a `real`, so the
    constants are exact (0.95 rather than the nearest float) and no rounding happens.
    What the integer part of the game sees of all this is the truncated velocity and
    the sharp-tilt flag, and both are characterised below. */
module Tilt {

  /** A raw accelerometer sample: the sensor delivers signed 16-bit readings. */
  newtype Int16 = x: int | -0x8000 <= x < 0x8000

  /** Full-scale reading for 1 g at the sensor's +-2 g range. */
  const Sensitivity: real := 16384.0
  const PlayerSpeed: real := 2.0
  const PlayerDamping: real := 0.95
  const MaxPlayerVelocity: real := 5.4
  /** Both tilt components beyond this magnitude abort the game. */
  const SharpThreshold: real := 0.8

  function Abs(v: real): (r: real)
    ensures r >= 0.0 && (r == v || r == -v)
  {
    if v < 0.0 then -v else v
  }

  /** Arduino's `constrain(amt, low, high)`. */
  function Constrain(v: real, low: real, high: real): (r: real)
    requires low <= high
    ensures low <= r <= high
    ensures low <= v <= high ==> r == v
    ensures v < low ==> r == low
    ensures v > high ==> r == high
  {
    if v < low then low else if v > high then high else v
  }

  /** One raw sample scaled to g and limited to [-1, 1]. */
  function Normalize(raw: Int16): (t: real)
    ensures -1.0 <= t <= 1.0
    ensures -Sensitivity <= raw as real <= Sensitivity ==> t * Sensitivity == raw as real
    ensures raw as real > Sensitivity ==> t == 1.0
    ensures raw as real < -Sensitivity ==> t == -1.0
  {
    Constrain(raw as real / Sensitivity, -1.0, 1.0)
  }

  /** The horizontal tilt on the display comes from the sensor's y axis. */
  function AccelX(ay: Int16): (t: real)
    ensures -1.0 <= t <= 1.0
    ensures -Sensitivity <= ay as real <= Sensitivity ==> t * Sensitivity == ay as real
    ensures ay as real > Sensitivity ==> t == 1.0
    ensures ay as real < -Sensitivity ==> t == -1.0
  {
    Normalize(ay)
  }

  /** The vertical tilt on the display is the sensor's x axis, inverted. */
  function AccelY(ax: Int16): (t: real)
    ensures -1.0 <= t <= 1.0
    ensures -Sensitivity <= ax as real <= Sensitivity ==> t * Sensitivity == -(ax as real)
    ensures ax as real > Sensitivity ==> t == -1.0
    ensures ax as real < -Sensitivity ==> t == 1.0
  {
    -Normalize(ax)
  }

  /** Damp the old velocity, add the tilt, and limit the result to the maximum speed. */
  function NextVelocity(v: real, accel: real): (r: real)
    ensures -MaxPlayerVelocity <= r <= MaxPlayerVelocity
    ensures Abs(v * PlayerDamping + accel * PlayerSpeed) <= MaxPlayerVelocity ==>
              r == v * PlayerDamping + accel * PlayerSpeed
    ensures v * PlayerDamping + accel * PlayerSpeed > MaxPlayerVelocity ==> r == MaxPlayerVelocity
    ensures v * PlayerDamping + accel * PlayerSpeed < -MaxPlayerVelocity ==> r == -MaxPlayerVelocity
  {
    Constrain(v * PlayerDamping + accel * PlayerSpeed, -MaxPlayerVelocity, MaxPlayerVelocity)
  }

  /** The C conversion `(int)v`: the integer part, rounding toward zero. */
  function Truncate(v: real): (n: int)
    ensures Abs(n as real) <= Abs(v) < Abs(n as real) + 1.0
    ensures v >= 0.0 ==> n >= 0
    ensures v <= 0.0 ==> n <= 0
  {
    if v >= 0.0 then v.Floor else -((-v).Floor)
  }

  /** The abort gesture: both tilt components beyond the threshold, in either direction. */
  predicate SharpTilt(accelX: real, accelY: real)
    ensures SharpTilt(accelX, accelY) <==>
              (accelX < -SharpThreshold || SharpThreshold < accelX) &&
              (accelY < -SharpThreshold || SharpThreshold < accelY)
  {
    Abs(accelX) > SharpThreshold && Abs(accelY) > SharpThreshold
  }

  /** Whatever the previous velocity and the tilt, the displacement a tick proposes
      on one axis lies in [-5, 5]: the clamp at 5.4 comes before the truncation. */
  lemma DisplacementBound(v: real, accel: real)
    ensures -5 <= Truncate(NextVelocity(v, accel)) <= 5
  {
    var r := NextVelocity(v, accel);
    var n := Truncate(r);
    assert Abs(n as real) <= 5.4;
  }

  /** The bound 5 is reached: a velocity at its limit moves the player 5 pixels. */
  lemma DisplacementBoundTight()
    ensures Truncate(NextVelocity(MaxPlayerVelocity, 1.0)) == 5
    ensures Truncate(NextVelocity(-MaxPlayerVelocity, -1.0)) == -5
  {
    assert NextVelocity(MaxPlayerVelocity, 1.0) == MaxPlayerVelocity;
    assert NextVelocity(-MaxPlayerVelocity, -1.0) == -MaxPlayerVelocity;
  }

  /** Clamping to [-1, 1] does not change which side of 0.8 a reading falls on. */
  lemma NormalizeBeyondThreshold(raw: Int16)
    ensures Abs(Normalize(raw)) > SharpThreshold <==> Abs(raw as real) > SharpThreshold * Sensitivity
  {
    var u := raw as real / Sensitivity;
    assert raw as real == u * Sensitivity;
  }

  /** In terms of the raw samples, the abort gesture fires exactly when both readings
      exceed 0.8 g, that is, have magnitude at least 13108. */
  lemma SharpTiltOnRawSamples(ax: Int16, ay: Int16)
    ensures SharpTilt(AccelX(ay), AccelY(ax)) <==>
              (ax as int <= -13108 || ax as int >= 13108) && (ay as int <= -13108 || ay as int >= 13108)
  {
    NormalizeBeyondThreshold(ax);
    NormalizeBeyondThreshold(ay);
    assert Abs(AccelY(ax)) == Abs(Normalize(ax));
  }
}
