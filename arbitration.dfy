/** The per-tick decision of pyTailgating.py: minimum following distance,
    time to contact, distance error and the mode chain that picks the
    pre-limit acceleration and resets or advances the two PIDs. */
module Arbitration {
  import opened Numerics
  import opened Pid
  import opened Config
  import opened Perception

  /** Time to contact; `float("inf")` when the gap is not closing. */
  datatype Ttc = Finite(seconds: real) | Infinite

  /** `ttc < bound`, where infinity is below no bound. */
  predicate Below(ttc: Ttc, bound: real): (b: bool)
    ensures ttc == Infinite ==> !b
    ensures ttc.Finite? ==> (b <==> ttc.seconds < bound)
  {
    ttc.Finite? && ttc.seconds < bound
  }

  /** A TTC below a bound is below every larger bound, so below MIN_TTC
      implies below DESIRED_TTC whenever MIN_TTC < DESIRED_TTC. */
  lemma BelowMonotone(ttc: Ttc, lo: real, hi: real)
    requires lo <= hi
    ensures Below(ttc, lo) ==> Below(ttc, hi)
  {
  }

  function TimeToContact(distance: real, relSpeed: real): (ttc: Ttc)
    ensures ttc == Infinite <==> relSpeed <= 0.0
    ensures ttc.Finite? ==> ttc.seconds * relSpeed == distance
    ensures ttc.Finite? && distance >= 0.0 ==> ttc.seconds >= 0.0
  {
    if relSpeed > 0.0 then Finite(distance / relSpeed) else Infinite
  }

  /** Standstill gap plus the speed-proportional headway. */
  function MinFollowDistance(t: Tuning, speed: real): (d: real)
    ensures speed >= 0.0 && t.timeHeadway >= 0.0 ==> d >= STANDSTILL_DISTANCE
  {
    STANDSTILL_DISTANCE + speed * t.timeHeadway
  }

  /** The gap measured against the larger of the target and the minimum gap. */
  function DistanceError(t: Tuning, distance: real, minFollow: real): (e: real)
    ensures e <= distance - t.targetDistance && e <= distance - minFollow
    ensures e == distance - t.targetDistance || e == distance - minFollow
  {
    distance - Max(t.targetDistance, minFollow)
  }

  /** `abs(distance_error) < DEADBAND`. */
  predicate InDeadband(e: real): (b: bool)
    ensures b <==> -DEADBAND < e < DEADBAND
  {
    Abs(e) < DEADBAND
  }

  /** The pre-limit acceleration and the two PID states after one tick. */
  datatype Decision = Decision(desired: real, accel: PidState, brake: PidState)

  /** The deadband `if` followed by the too-close / TTC / cruise chain,
      in source order: the deadband resets both PIDs, and the chain that
      follows always overwrites its zero. */
  function Decide(t: Tuning, p: Sample, speed: real, accel: PidState, brake: PidState, dt: real): (d: Decision)
    ensures p.distance < MinFollowDistance(t, speed) ==>
              d.desired == MAX_BRAKE && d.accel == IDLE &&
              d.brake == (if InDeadband(DistanceError(t, p.distance, MinFollowDistance(t, speed))) then IDLE else brake)
    ensures !(p.distance < MinFollowDistance(t, speed)) && Below(TimeToContact(p.distance, p.relSpeed), t.desiredTtc) ==>
              d.accel == IDLE && d.desired >= MAX_BRAKE &&
              (Below(TimeToContact(p.distance, p.relSpeed), t.minTtc) ==> d.desired == MAX_BRAKE)
    ensures !(p.distance < MinFollowDistance(t, speed)) && !Below(TimeToContact(p.distance, p.relSpeed), t.desiredTtc) ==>
              d.brake == IDLE && d.desired <= MAX_ACCEL
  {
    var minFollow := MinFollowDistance(t, speed);
    var ttc := TimeToContact(p.distance, p.relSpeed);
    var err := DistanceError(t, p.distance, minFollow);
    var accel1 := if InDeadband(err) then IDLE else accel;
    var brake1 := if InDeadband(err) then IDLE else brake;
    if p.distance < minFollow then
      Decision(MAX_BRAKE, IDLE, brake1)
    else if Below(ttc, t.desiredTtc) then
      if Below(ttc, t.minTtc) then
        Decision(MAX_BRAKE, IDLE, brake1)
      else
        var trim := Respond(t.brakeGains, brake1, err, dt);
        Decision(Max(-TTC_GAIN * (t.desiredTtc - ttc.seconds) + trim.output, MAX_BRAKE), IDLE, trim.state)
    else
      var cruise := Respond(t.accelGains, accel1, err, dt);
      Decision(Min(cruise.output, MAX_ACCEL), cruise.state, IDLE)
  }

  /** Inside the deadband the PID states that come in play no part: the
      tick decides as if both PIDs had just been reset. */
  lemma DeadbandOnlyResets(t: Tuning, p: Sample, speed: real, accel: PidState, brake: PidState, dt: real)
    requires InDeadband(DistanceError(t, p.distance, MinFollowDistance(t, speed)))
    ensures Decide(t, p, speed, accel, brake, dt) == Decide(t, p, speed, IDLE, IDLE, dt)
  {
  }

  /** The deadband's zero never reaches the output: on a cruise tick inside
      the deadband with a nonzero error, the freshly reset accel PID still
      commands an acceleration of the error's sign. */
  lemma DeadbandStillCorrects(t: Tuning, p: Sample, speed: real, accel: PidState, brake: PidState, dt: real)
    requires Sane(t) && dt > 0.0
    requires InDeadband(DistanceError(t, p.distance, MinFollowDistance(t, speed)))
    requires !(p.distance < MinFollowDistance(t, speed))
    requires !Below(TimeToContact(p.distance, p.relSpeed), t.desiredTtc)
    ensures var e := DistanceError(t, p.distance, MinFollowDistance(t, speed));
            var r := Decide(t, p, speed, accel, brake, dt).desired;
            (e > 0.0 ==> r > 0.0) && (e < 0.0 ==> r < 0.0) && (e == 0.0 ==> r == 0.0)
  {
    var e := DistanceError(t, p.distance, MinFollowDistance(t, speed));
    var g := t.accelGains;
    RespondAfterReset(g, e, dt);
    var out := Respond(g, IDLE, e, dt).output;
    SignOfFirstUpdate(g, e, dt);
    assert Decide(t, p, speed, accel, brake, dt).desired == Min(out, MAX_ACCEL);
  }

  /** Off the cruise branch the deadband gives no such guarantee: a TTC
      tick with a small positive error inside the deadband still brakes. */
  lemma DeadbandSignCanFlipOnTtcTick()
    ensures var p := Sample(150.0, 100.0);
            var e := DistanceError(SELECTED, p.distance, MinFollowDistance(SELECTED, 100.0));
            e == 3.0 && InDeadband(e) &&
            !(p.distance < MinFollowDistance(SELECTED, 100.0)) &&
            Below(TimeToContact(p.distance, p.relSpeed), SELECTED.desiredTtc) &&
            Decide(SELECTED, p, 100.0, IDLE, IDLE, 1.0 / 60.0).desired < 0.0
  {
  }

  /** The TTC branch has no ceiling: a follower at full speed, 600 units
      behind a stopped lead, asks for far more than MAX_ACCEL before the
      jerk limiter. */
  lemma TtcBranchHasNoCeiling()
    ensures var p := Sample(600.0, 350.0);
            !(p.distance < MinFollowDistance(SELECTED, 350.0)) &&
            Below(TimeToContact(p.distance, p.relSpeed), SELECTED.desiredTtc) &&
            Decide(SELECTED, p, 350.0, IDLE, IDLE, 1.0 / 60.0).desired > MAX_ACCEL
  {
  }

  /** The cruise branch has no floor: 30 units behind a lead moving at the
      follower's speed, the freshly reset accel PID asks for harder braking
      than MAX_BRAKE before the jerk limiter. */
  lemma CruiseBranchHasNoFloor()
    ensures var p := Sample(30.0, 0.0);
            !(p.distance < MinFollowDistance(SELECTED, 0.0)) &&
            !Below(TimeToContact(p.distance, p.relSpeed), SELECTED.desiredTtc) &&
            Decide(SELECTED, p, 0.0, IDLE, IDLE, 1.0 / 60.0).desired < MAX_BRAKE
  {
  }
}
