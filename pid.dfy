/** The PID regulator of pyTailgating.py (class PIDController). */
module Pid {

  datatype PidGains = PidGains(kp: real, ki: real, kd: real)

  /** The two fields a PIDController updates in place. */
  datatype PidState = PidState(integral: real, prevError: real)

  /** The state right after construction or `reset`. */
  const IDLE: PidState := PidState(0.0, 0.0)

  /** What one call of `update` leaves behind and returns. */
  datatype Response = Response(state: PidState, output: real)

  /** The derivative term, guarded against a non-positive time step. */
  function Derivative(error: real, prevError: real, dt: real): (d: real)
    ensures dt <= 0.0 ==> d == 0.0
    ensures dt > 0.0 ==> d * dt == error - prevError
  {
    if dt > 0.0 then (error - prevError) / dt else 0.0
  }

  /** One `update(error, dt)` on the state `s`, as a value: the new state
      depends on the error and step alone, and a non-positive step drops
      the derivative term. */
  function Respond(g: PidGains, s: PidState, error: real, dt: real): (r: Response)
    ensures r.state == PidState(s.integral + error * dt, error)
    ensures dt <= 0.0 ==> r.output == g.kp * error + g.ki * r.state.integral
    ensures dt > 0.0 ==> (r.output - g.kp * error - g.ki * r.state.integral) * dt == g.kd * (error - s.prevError)
  {
    var integral := s.integral + error * dt;
    Response(PidState(integral, error),
             g.kp * error + g.ki * integral + g.kd * Derivative(error, s.prevError, dt))
  }

  /** The first update after a reset: the integral holds one term, the
      derivative is the whole error over the step. */
  lemma RespondAfterReset(g: PidGains, error: real, dt: real)
    requires dt > 0.0
    ensures Respond(g, IDLE, error, dt).state == PidState(error * dt, error)
    ensures Respond(g, IDLE, error, dt).output
            == g.kp * error + g.ki * (error * dt) + g.kd * (error / dt)
  {
  }

  /** With non-negative gains and kp > 0, the first update after a reset
      has the sign of the error. */
  lemma SignOfFirstUpdate(g: PidGains, e: real, dt: real)
    requires g.kp > 0.0 && g.ki >= 0.0 && g.kd >= 0.0 && dt > 0.0
    ensures e > 0.0 ==> Respond(g, IDLE, e, dt).output > 0.0
    ensures e < 0.0 ==> Respond(g, IDLE, e, dt).output < 0.0
    ensures e == 0.0 ==> Respond(g, IDLE, e, dt).output == 0.0
  {
    RespondAfterReset(g, e, dt);
  }

  /** One (error, dt) pair fed to `update`. */
  datatype Reading = Reading(error: real, dt: real)

  /** The state after a run of updates with no reset in between. */
  function Replay(g: PidGains, s: PidState, rs: seq<Reading>): PidState
    decreases |rs|
  {
    if rs == [] then s
    else Replay(g, Respond(g, s, rs[0].error, rs[0].dt).state, rs[1..])
  }

  /** The sum of error * dt over a run. */
  function ErrorArea(rs: seq<Reading>): real
    decreases |rs|
  {
    if rs == [] then 0.0 else ErrorArea(rs[..|rs| - 1]) + rs[|rs| - 1].error * rs[|rs| - 1].dt
  }

  lemma {:induction false} ErrorAreaFront(rs: seq<Reading>)
    requires rs != []
    ensures ErrorArea(rs) == rs[0].error * rs[0].dt + ErrorArea(rs[1..])
    decreases |rs|
  {
    if |rs| > 1 {
      ErrorAreaFront(rs[..|rs| - 1]);
      assert rs[..|rs| - 1][1..] == rs[1..][..|rs[1..]| - 1];
    } else {
      assert rs[1..] == [];
    }
  }

  /** There is no anti-windup: the integral is the initial one plus the
      whole area under the error, and prev_error is the last error seen. */
  lemma {:induction false} ReplayIntegral(g: PidGains, s: PidState, rs: seq<Reading>)
    ensures Replay(g, s, rs).integral == s.integral + ErrorArea(rs)
    ensures rs != [] ==> Replay(g, s, rs).prevError == rs[|rs| - 1].error
    ensures rs == [] ==> Replay(g, s, rs) == s
    decreases |rs|
  {
    if rs != [] {
      var s1 := Respond(g, s, rs[0].error, rs[0].dt).state;
      ReplayIntegral(g, s1, rs[1..]);
      ErrorAreaFront(rs);
      if |rs| > 1 {
        assert rs[1..][|rs[1..]| - 1] == rs[|rs| - 1];
      }
    }
  }

  class PIDController {
    const kp: real
    const ki: real
    const kd: real
    var integral: real
    var prevError: real

    constructor (kp: real, ki: real, kd: real)
      ensures this.kp == kp && this.ki == ki && this.kd == kd
      ensures integral == 0.0 && prevError == 0.0
    {
      this.kp := kp;
      this.ki := ki;
      this.kd := kd;
      integral := 0.0;
      prevError := 0.0;
    }

    function Gains(): PidGains
    {
      PidGains(kp, ki, kd)
    }

    function State(): PidState
      reads this
    {
      PidState(integral, prevError)
    }

    method Update(error: real, dt: real) returns (output: real)
      modifies this
      ensures integral == old(integral) + error * dt
      ensures prevError == error
      ensures output == Respond(Gains(), old(State()), error, dt).output
    {
      integral := integral + error * dt;
      var derivative := Derivative(error, prevError, dt);
      prevError := error;
      output := kp * error + ki * integral + kd * derivative;
    }

    /** Zeroes the state whatever it was, so resetting twice is resetting once. */
    method Reset()
      modifies this
      ensures integral == 0.0 && prevError == 0.0
    {
      integral := 0.0;
      prevError := 0.0;
    }
  }

  /** Two resets in a row leave the state one reset leaves. */
  method ResetTwice(p: PIDController)
    modifies p
    ensures p.State() == IDLE
  {
    p.Reset();
    ghost var once := p.State();
    p.Reset();
    assert p.State() == once;
  }
}
