/** The controller state created in `main` of pyTailgating.py and the
    per-tick block that perceives, decides, limits and moves the follower. */
module Controller {
  import opened Numerics
  import opened Pid
  import opened Config
  import opened Kinematics
  import opened Perception
  import opened Arbitration
  import opened RateLimit

  class FollowingController {
    const tuning: Tuning
    const pidAccel: PIDController
    const pidBrake: PIDController
    var buffer: seq<Sample>
    var lastAccel: real
    /** Every true sample pushed so far, oldest first. */
    ghost var history: seq<Sample>

    ghost predicate Valid()
      reads this
    {
      pidAccel != pidBrake &&
      pidAccel.Gains() == tuning.accelGains &&
      pidBrake.Gains() == tuning.brakeGains &&
      buffer == Window(history, MAX_LEN)
    }

    /** Two fresh PIDs with the tuning's gains, an empty queue, no previous command. */
    constructor (tuning: Tuning)
      ensures Valid()
      ensures this.tuning == tuning && fresh(pidAccel) && fresh(pidBrake)
      ensures pidAccel.State() == IDLE && pidBrake.State() == IDLE
      ensures buffer == [] && history == [] && lastAccel == 0.0
    {
      this.tuning := tuning;
      pidAccel := new PIDController(tuning.accelGains.kp, tuning.accelGains.ki, tuning.accelGains.kd);
      pidBrake := new PIDController(tuning.brakeGains.kp, tuning.brakeGains.ki, tuning.brakeGains.kd);
      buffer := [];
      lastAccel := 0.0;
      history := [];
    }

    /** Lines 162-168: push the true sample, trim the head, read the head. */
    method Perceive(sample: Sample) returns (perceived: Sample)
      requires Valid()
      modifies this`buffer, this`history
      ensures Valid()
      ensures buffer == Admit(old(buffer), sample, MAX_LEN)
      ensures history == old(history) + [sample]
      ensures 1 <= |buffer| <= MAX_LEN
      ensures perceived == buffer[0]
    {
      MaxLenIsThirty();
      AdmitWindow(history, sample, MAX_LEN);
      buffer := buffer + [sample];
      if |buffer| > MAX_LEN {
        buffer := buffer[1..];
      }
      history := history + [sample];
      WindowShape(history, MAX_LEN);
      perceived := buffer[0];
    }

    /** Lines 170-209: the deadband `if` and the too-close / TTC / cruise chain. */
    method Arbitrate(perceived: Sample, speed: real, dt: real) returns (desired: real)
      requires Valid()
      modifies pidAccel, pidBrake
      ensures Valid()
      ensures var d := Decide(tuning, perceived, speed, old(pidAccel.State()), old(pidBrake.State()), dt);
              desired == d.desired && pidAccel.State() == d.accel && pidBrake.State() == d.brake
    {
      var distance := perceived.distance;
      var relSpeed := perceived.relSpeed;
      var minFollow := MinFollowDistance(tuning, speed);
      var ttc := TimeToContact(distance, relSpeed);
      desired := 0.0;
      var err := DistanceError(tuning, distance, minFollow);

      if InDeadband(err) {
        pidAccel.Reset();
        pidBrake.Reset();
        desired := 0.0;
      }

      if distance < minFollow {
        pidAccel.Reset();
        desired := MAX_BRAKE;
      } else if Below(ttc, tuning.desiredTtc) {
        pidAccel.Reset();
        if Below(ttc, tuning.minTtc) {
          desired := MAX_BRAKE;
        } else {
          var ttcError := tuning.desiredTtc - ttc.seconds;
          desired := -TTC_GAIN * ttcError;
          var trim := pidBrake.Update(err, dt);
          desired := desired + trim;
          desired := Max(desired, MAX_BRAKE);
        }
      } else {
        pidBrake.Reset();
        desired := pidAccel.Update(err, dt);
        desired := Min(desired, MAX_ACCEL);
      }
    }

    /** One tick (lines 159-217), given the lead car's position and speed
        after its own update. */
    method Step(dt: real, leadX: real, leadSpeed: real, follower: Car) returns (cmd: real, braking: bool)
      requires Valid()
      modifies this, pidAccel, pidBrake, follower
      ensures Valid()
      ensures history == old(history) + [Sample(leadX - old(follower.x), old(follower.speed) - leadSpeed)]
      ensures 1 <= |buffer| <= MAX_LEN
      ensures var d := Decide(tuning, buffer[0], old(follower.speed), old(pidAccel.State()), old(pidBrake.State()), dt);
              pidAccel.State() == d.accel && pidBrake.State() == d.brake &&
              cmd == JerkLimit(old(lastAccel), d.desired, MAX_JERK * dt)
      ensures dt >= 0.0 ==> Abs(cmd - old(lastAccel)) <= MAX_JERK * dt
      ensures lastAccel == cmd
      ensures braking == (cmd < BRAKING_THRESHOLD)
      ensures follower.speed == NextSpeed(old(follower.speed), cmd, dt)
      ensures 0.0 <= follower.speed <= MAX_SPEED
      ensures follower.x == old(follower.x) + follower.speed * dt
    {
      var perceived := Perceive(Sample(leadX - follower.x, follower.speed - leadSpeed));
      var desired := Arbitrate(perceived, follower.speed, dt);

      desired := JerkLimit(lastAccel, desired, MAX_JERK * dt);
      lastAccel := desired;

      follower.Update(desired, dt);
      cmd := desired;
      braking := desired < BRAKING_THRESHOLD;
    }
  }

  /** Which of the lead car's keys are held: W (accelerate) and S (brake). */
  datatype Keys = Keys(w: bool, s: bool)

  /** W wins over S; with neither held the lead coasts. */
  function LeadAccel(k: Keys): (a: real)
    ensures MAX_BRAKE <= a <= MAX_ACCEL
    ensures a == MAX_ACCEL <==> k.w
    ensures a == MAX_BRAKE <==> !k.w && k.s
    ensures a == 0.0 <==> !k.w && !k.s
  {
    if k.w then MAX_ACCEL else if k.s then MAX_BRAKE else 0.0
  }

  /** One frame of the main loop: its time step and the keys held for the lead car. */
  datatype Frame = Frame(dt: real, keys: Keys)

  /** One pass of the main loop, without drawing or re-centering: the
      lead moves by its keys (line 154), then the follower ticks. */
  method Tick(ctl: FollowingController, lead: Car, follower: Car, frame: Frame) returns (cmd: real, braking: bool)
    requires ctl.Valid() && lead != follower
    modifies ctl, ctl.pidAccel, ctl.pidBrake, lead, follower
    ensures ctl.Valid()
    ensures lead.speed == NextSpeed(old(lead.speed), LeadAccel(frame.keys), frame.dt)
    ensures lead.x == old(lead.x) + lead.speed * frame.dt
    ensures ctl.history == old(ctl.history) + [Sample(lead.x - old(follower.x), old(follower.speed) - lead.speed)]
    ensures 1 <= |ctl.buffer| <= MAX_LEN
    ensures var d := Decide(ctl.tuning, ctl.buffer[0], old(follower.speed),
                            old(ctl.pidAccel.State()), old(ctl.pidBrake.State()), frame.dt);
            ctl.pidAccel.State() == d.accel && ctl.pidBrake.State() == d.brake &&
            cmd == JerkLimit(old(ctl.lastAccel), d.desired, MAX_JERK * frame.dt)
    ensures frame.dt >= 0.0 ==> Abs(cmd - old(ctl.lastAccel)) <= MAX_JERK * frame.dt
    ensures ctl.lastAccel == cmd
    ensures braking == (cmd < BRAKING_THRESHOLD)
    ensures follower.speed == NextSpeed(old(follower.speed), cmd, frame.dt)
    ensures follower.x == old(follower.x) + follower.speed * frame.dt
    ensures 0.0 <= lead.speed <= MAX_SPEED && 0.0 <= follower.speed <= MAX_SPEED
  {
    ghost var accel0, brake0 := ctl.pidAccel.State(), ctl.pidBrake.State();
    ghost var x0, speed0 := follower.x, follower.speed;
    lead.Update(LeadAccel(frame.keys), frame.dt);
    assert ctl.pidAccel.State() == accel0 && ctl.pidBrake.State() == brake0;
    assert follower.x == x0 && follower.speed == speed0;
    ghost var leadX, leadSpeed := lead.x, lead.speed;
    cmd, braking := ctl.Step(frame.dt, lead.x, lead.speed, follower);
    assert lead.x == leadX && lead.speed == leadSpeed;
    assert follower.speed == NextSpeed(speed0, cmd, frame.dt);
    assert follower.x == x0 + follower.speed * frame.dt;
  }

  /** The simulation loop of `main` without drawing or re-centering: both
      cars start at rest TARGET_DISTANCE apart (lines 127-128), and every
      frame is one Tick. `commands[k]` is tick k's commanded acceleration
      and `priors[k]` the one it was limited against (0 before the first). */
  method Run(tuning: Tuning, frames: seq<Frame>)
    returns (lead: Car, follower: Car, ctl: FollowingController, ghost commands: seq<real>, ghost priors: seq<real>)
    ensures ctl.Valid() && ctl.tuning == tuning
    ensures |commands| == |priors| == |frames| == |ctl.history|
    ensures frames != [] ==> priors[0] == 0.0
    ensures forall k :: 0 < k < |frames| ==> priors[k] == commands[k - 1]
    ensures forall k :: 0 <= k < |frames| && frames[k].dt >= 0.0 ==>
              Abs(commands[k] - priors[k]) <= MAX_JERK * frames[k].dt
    ensures frames != [] ==> ctl.lastAccel == commands[|frames| - 1] && 1 <= |ctl.buffer| <= MAX_LEN
    ensures 0.0 <= lead.speed <= MAX_SPEED && 0.0 <= follower.speed <= MAX_SPEED
  {
    lead := new Car(500.0);
    follower := new Car(500.0 - tuning.targetDistance);
    ctl := new FollowingController(tuning);
    commands, priors := [], [];
    var i := 0;
    while i < |frames|
      invariant 0 <= i <= |frames|
      invariant lead != follower
      invariant ctl.Valid() && ctl.tuning == tuning
      invariant fresh(ctl.pidAccel) && fresh(ctl.pidBrake)
      invariant |commands| == |priors| == i == |ctl.history|
      invariant i > 0 ==> priors[0] == 0.0
      invariant forall k :: 0 < k < i ==> priors[k] == commands[k - 1]
      invariant forall k :: 0 <= k < i && frames[k].dt >= 0.0 ==>
                  Abs(commands[k] - priors[k]) <= MAX_JERK * frames[k].dt
      invariant ctl.lastAccel == if i == 0 then 0.0 else commands[i - 1]
      invariant i > 0 ==> 1 <= |ctl.buffer| <= MAX_LEN
      invariant 0.0 <= lead.speed <= MAX_SPEED && 0.0 <= follower.speed <= MAX_SPEED
    {
      priors := priors + [ctl.lastAccel];
      var cmd, braking := Tick(ctl, lead, follower, frames[i]);
      commands := commands + [cmd];
      i := i + 1;
    }
  }
}
