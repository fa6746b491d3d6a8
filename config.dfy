/** The configuration block of pyTailgating.py: fixed constants, and the
    constants derived linearly from the aggressiveness level `profile`. */
module Config {
  import opened Numerics
  import opened Pid

  const FPS: nat := 60
  const MAX_SPEED: real := 350.0
  const MAX_ACCEL: real := 100.0
  const MAX_BRAKE: real := -300.0
  const MAX_JERK: real := 1000.0
  const REACTION_TIME: real := 0.5
  const DEADBAND: real := 6.0
  const STANDSTILL_DISTANCE: real := 25.0
  const TTC_GAIN: real := 600.0
  /** Below this commanded acceleration the follower shows brake lights. */
  const BRAKING_THRESHOLD: real := -25.0

  /** Length of the reaction-delay queue: `int(REACTION_TIME * FPS)`. */
  const MAX_LEN: nat := Trunc(REACTION_TIME * FPS as real)

  /** The aggressiveness level the program runs with ("well ok..."). */
  const PROFILE: real := 0.6

  /** Everything that depends on the aggressiveness level. */
  datatype Tuning = Tuning(
    targetDistance: real,
    timeHeadway: real,
    desiredTtc: real,
    minTtc: real,
    accelGains: PidGains,
    brakeGains: PidGains)

  /** The bounds every level in [0, 1] keeps. */
  predicate Sane(t: Tuning)
  {
    t.targetDistance > STANDSTILL_DISTANCE && t.timeHeadway > 0.0 &&
    0.0 < t.minTtc < t.desiredTtc &&
    t.accelGains.kp > 0.0 && t.accelGains.ki >= 0.0 && t.accelGains.kd >= 0.0 &&
    t.brakeGains.kp > 0.0 && t.brakeGains.ki >= 0.0 && t.brakeGains.kd >= 0.0
  }

  function TuningFor(profile: real): (t: Tuning)
    ensures 0.0 <= profile <= 1.0 ==> Sane(t)
    ensures 0.0 <= profile <= 1.0 ==> 145.0 <= t.targetDistance <= 150.0
    ensures 0.0 <= profile <= 1.0 ==> 0.5 <= t.minTtc && t.desiredTtc <= 2.6
  {
    Tuning(
      150.0 - 5.0 * profile,
      1.8 - profile,
      2.6 - profile,
      1.5 - profile,
      PidGains(0.6 + profile * 0.02, 0.0, 0.2),
      PidGains(1.2 + profile * 0.02, 0.0, 0.6))
  }

  const SELECTED: Tuning := TuningFor(PROFILE)

  /** A more aggressive level follows closer and tolerates shorter TTCs. */
  lemma MoreAggressiveFollowsCloser(p: real, q: real)
    requires p <= q
    ensures TuningFor(q).targetDistance <= TuningFor(p).targetDistance
    ensures TuningFor(q).timeHeadway <= TuningFor(p).timeHeadway
    ensures TuningFor(q).desiredTtc <= TuningFor(p).desiredTtc
    ensures TuningFor(q).minTtc <= TuningFor(p).minTtc
  {
  }

  lemma MaxLenIsThirty()
    ensures MAX_LEN == 30
  {
  }

  lemma SelectedIsSane()
    ensures Sane(SELECTED)
    ensures SELECTED.targetDistance == 147.0 && SELECTED.desiredTtc == 2.0 && SELECTED.minTtc == 0.9
  {
  }
}
