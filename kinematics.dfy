/** The Euler step of class Car in pyTailgating.py. */
module Kinematics {
  import opened Numerics
  import opened Config

  /** `max(0, min(v, MAX_SPEED))`. */
  function ClampSpeed(v: real): (r: real)
    ensures 0.0 <= r <= MAX_SPEED
    ensures 0.0 <= v <= MAX_SPEED ==> r == v
    ensures v < 0.0 ==> r == 0.0
    ensures v > MAX_SPEED ==> r == MAX_SPEED
  {
    Max(0.0, Min(v, MAX_SPEED))
  }

  /** The speed after one Euler step: the old speed plus accel * dt, clamped. */
  function NextSpeed(v: real, accel: real, dt: real): (r: real)
    ensures 0.0 <= r <= MAX_SPEED
  {
    ClampSpeed(v + accel * dt)
  }

  class Car {
    var x: real
    var speed: real

    /** A car starts at rest. */
    constructor (x: real)
      ensures this.x == x && speed == 0.0
    {
      this.x := x;
      speed := 0.0;
    }

    method Update(accel: real, dt: real)
      modifies this
      ensures speed == NextSpeed(old(speed), accel, dt)
      ensures 0.0 <= speed <= MAX_SPEED
      ensures x == old(x) + speed * dt
    {
      speed := NextSpeed(speed, accel, dt);
      x := x + speed * dt;
    }
  }
}
