# pyTailgating: the vehicle-following controller, in Dafny

pyTailgating is a small simulation. A follower car tracks a lead car. Once
per frame it computes an acceleration command from a delayed perception of
the gap and the closing speed. This project models that controller and
proves what it guarantees:

- **PIDController** (`pid.dfy`, module `Pid`): a class with fixed gains and
  two mutable fields, `integral` and `prevError`. `Update` is proved
  against the value function `Respond`, which `Decide` also uses for both
  PIDs. `Reset` states the zeroed state directly. Lemmas cover the first
  update after a reset and the missing anti-windup: the integral is the
  whole area under the error.
- **Reaction-delay queue** (`perception.dfy`, module `Perception`): a FIFO
  of `(distance, relSpeed)` samples. It takes one append per tick, then at
  most one head removal once it holds more than `MAX_LEN` = `int(0.5 * 60)`
  = 30 samples. `Window(history, n)` is the queue a history of pushes
  leaves behind. The lemmas show that:
  - append-then-trim keeps the queue equal to that window;
  - the head is safe to read once anything has been pushed;
  - the head is the first sample ever pushed until 30 pushes have happened;
  - after that, it is the sample pushed 29 ticks before the newest.
- **Mode arbitration** (`arbitration.dfy`, module `Arbitration`): time to
  contact, where `Infinite` stands for `float("inf")`; the minimum following
  distance; the distance error. `Decide` runs the deadband `if`, then the
  separate too-close / TTC / cruise chain, exactly in source order. Every
  branch of that chain assigns the acceleration, so the deadband's zero
  never reaches the output. `DeadbandOnlyResets` shows that the deadband
  only resets both PIDs. `DeadbandStillCorrects` shows that on a cruise
  tick inside the deadband a nonzero error still commands an acceleration
  of its sign. On a TTC tick the sign can flip, and
  `DeadbandSignCanFlipOnTtcTick` gives a concrete case. Two more concrete
  lemmas show that the TTC branch has no ceiling and the cruise branch has
  no floor.
- **Jerk limiter** (`rate_limit.dfy`, module `RateLimit`): the clamp of the
  request to `[last - MAX_JERK*dt, last + MAX_JERK*dt]`. It is the point of
  that band nearest to the request.
- **Car** (`kinematics.dfy`, module `Kinematics`): one Euler step, with the
  speed clamped to `[0, MAX_SPEED]`.
- **FollowingController** (`controller.dfy`, module `Controller`): the
  state `main` creates (two PIDs, the queue, `lastAccel`). `Step` is the
  per-tick block. It is split into `Perceive` (queue) and `Arbitrate`
  (mode chain), then applies the jerk limit and moves the follower. `Step`
  is proved equal to `Decide` followed by `JerkLimit`. `Tick` first moves
  the lead car by the keys held (W wins over S), then runs `Step`. `Run`
  is the main loop over a finite sequence of frames. It proves that both
  speeds stay within `[0, MAX_SPEED]` and that consecutive commands differ
  by at most `MAX_JERK * dt`, starting from 0.
- **Configuration** (`config.dfy`, module `Config`): the constants of the
  program. The profile-dependent ones sit in a `Tuning` record.
  `TuningFor(profile)` builds it with the program's linear formulas, and
  `SELECTED = TuningFor(0.6)`.

Arithmetic is over `real`. The time step `dt` and the lead car's keys are
inputs; in the program they come from the frame clock and the keyboard.

Points of the code worth knowing:

- The queue length is `int(0.5 * 60)`, a truncation. Rounding would also
  give 30.
- Once the queue is full, the head is the sample pushed `MAX_LEN - 1` ticks
  before the current one.
- After a reset, the first update's integral term is `ki * error * dt`. It
  is zero only because `ki` is 0 in both configured PIDs.
- Non-positive `dt` is accepted. Only the derivative guard handles it.

## Model

| member | source | states |
|---|---|---|
| Numerics.Min | pyTailgating.py:209 | Python's `min` on two reals: a lower bound of both arguments that equals one of them |
| Numerics.Max | pyTailgating.py:181 | Python's `max` on two reals: an upper bound of both arguments that equals one of them |
| Numerics.Abs | pyTailgating.py:183 | Python's `abs`: non-negative, and equal to the argument or its negation |
| Numerics.Trunc | pyTailgating.py:164 | `int(x)` truncates toward zero: for x >= 0 the result is the largest integer not above x, for x < 0 the smallest not below it |
| Config.TuningFor | pyTailgating.py:30-48 | built from lines 30-48 and the PID gains of lines 130-131; every aggressiveness level in [0, 1] gives a sane tuning: target gap in [145, 150] above the standstill gap, positive headway, 0.5 <= MIN_TTC < DESIRED_TTC <= 2.6, positive kp, non-negative ki and kd |
| Config.MoreAggressiveFollowsCloser | pyTailgating.py:32-47 | a higher level never lengthens the target gap, the headway, DESIRED_TTC or MIN_TTC |
| Config.MaxLenIsThirty | pyTailgating.py:164 | the queue length `int(REACTION_TIME * FPS)` is 30 |
| Config.SelectedIsSane | pyTailgating.py:30-47 | the running profile 0.6 gives target 147, DESIRED_TTC 2.0, MIN_TTC 0.9, and a sane tuning |
| Pid.Derivative | pyTailgating.py:68 | the derivative is 0 when dt <= 0, and otherwise times dt gives the change in error, so no division by zero happens |
| Pid.Respond | pyTailgating.py:66-74 | one update as a value: the new integral is the old one plus error*dt and the new prev_error is the error; with dt <= 0 the output is kp*e + ki*integral', and otherwise the output minus those two terms, times dt, is kd times the change in error |
| Pid.RespondAfterReset | pyTailgating.py:66-78 | from the reset state with dt > 0 the integral becomes error*dt, prev_error becomes error, and the output is kp*e + ki*e*dt + kd*e/dt |
| Pid.SignOfFirstUpdate | pyTailgating.py:66-74 | with kp > 0, ki, kd >= 0 and dt > 0 the first update after a reset has the sign of the error |
| Pid.ReplayIntegral | pyTailgating.py:66-69 | over any run of updates without a reset, the integral is the initial one plus the sum of error*dt (no anti-windup), and prev_error is the last error |
| Pid.PIDController.constructor | pyTailgating.py:59-64 | the gains are the given ones and integral and prev_error start at 0 |
| Pid.PIDController.Update | pyTailgating.py:66-74 | integral grows by error*dt, prev_error becomes error, and the output is the one `Respond` gives from the old state |
| Pid.PIDController.Reset | pyTailgating.py:76-78 | integral and prev_error become 0 whatever they were |
| Pid.ResetTwice | pyTailgating.py:76-78 | a second reset leaves exactly the state the first one left |
| Kinematics.ClampSpeed | pyTailgating.py:89 | the result lies in [0, MAX_SPEED], equals the input inside that range, and is 0 or MAX_SPEED below or above it |
| Kinematics.NextSpeed | pyTailgating.py:88-89 | the speed after one Euler step, the old speed plus accel*dt clamped, lies in [0, MAX_SPEED] |
| Kinematics.Car.constructor | pyTailgating.py:81-85 | a car starts at the given position at rest |
| Kinematics.Car.Update | pyTailgating.py:87-90 | the new speed is `NextSpeed` of the old speed, the acceleration and dt, so it lies in [0, MAX_SPEED]; the position advances by the new speed times dt |
| Perception.Admit | pyTailgating.py:162-166 | append-then-trim ends with the new sample, removes at most the head, keeps everything iff the queue was shorter than the limit, and leaves 1 to max_len samples when it held at most max_len |
| Perception.Window | pyTailgating.py:162-166 | the queue left by a history holds min(pushes, n) samples |
| Perception.WindowIsSuffix | pyTailgating.py:162-166 | that queue is the whole history until n pushes, and its last n samples from then on |
| Perception.WindowShape | pyTailgating.py:162-168 | once anything was pushed the queue holds 1 to n samples, in push order, as the newest part of the history |
| Perception.AdmitWindow | pyTailgating.py:162-166 | one append-then-trim on the window of a history gives the window of the history extended by the new sample |
| Perception.PushAllIsWindow | pyTailgating.py:162-166 | a run of ticks' pushes leaves exactly the window of the whole history |
| Perception.WindowHead | pyTailgating.py:168 | the head is the first sample ever pushed until n pushes, and afterwards the one pushed n - 1 ticks before the newest |
| Arbitration.Below | pyTailgating.py:192-195 | the comparison `ttc < bound`: infinity is below no bound, and a finite TTC is below the bound iff its seconds are |
| Arbitration.BelowMonotone | pyTailgating.py:192-195 | a TTC below a bound is below every larger bound, so the MIN_TTC test can only hold where the DESIRED_TTC test does |
| Arbitration.TimeToContact | pyTailgating.py:174-177 | TTC is infinite iff rel_speed <= 0; otherwise it times rel_speed gives the distance, and it is non-negative for a non-negative gap |
| Arbitration.MinFollowDistance | pyTailgating.py:172 | at non-negative speed and headway the minimum gap is at least the standstill distance |
| Arbitration.DistanceError | pyTailgating.py:181 | the error is the gap minus the larger of the target and the minimum gap |
| Arbitration.InDeadband | pyTailgating.py:183 | the test `abs(distance_error) < DEADBAND` holds iff the error lies strictly between -DEADBAND and DEADBAND |
| Arbitration.Decide | pyTailgating.py:179-209 | too close gives exactly MAX_BRAKE and a reset accel PID, even inside the deadband; the TTC branch resets the accel PID, gives exactly MAX_BRAKE below MIN_TTC and never less than MAX_BRAKE; cruise resets the brake PID and never exceeds MAX_ACCEL |
| Arbitration.DeadbandOnlyResets | pyTailgating.py:183-209 | inside the deadband the tick decides exactly as if both PIDs had just been reset |
| Arbitration.DeadbandStillCorrects | pyTailgating.py:183-209 | on a cruise tick inside the deadband the pre-limit acceleration has the sign of the distance error, so the deadband's zero is always overwritten |
| Arbitration.DeadbandSignCanFlipOnTtcTick | pyTailgating.py:183-204 | on tuning 0.6, a follower at 100 that is 150 behind and closing at 100 has error +3, inside the deadband, yet the TTC branch asks for a negative acceleration |
| Arbitration.TtcBranchHasNoCeiling | pyTailgating.py:192-204 | on tuning 0.6, a follower at 350 that is 600 behind a stopped lead takes the TTC branch and asks for more than MAX_ACCEL |
| Arbitration.CruiseBranchHasNoFloor | pyTailgating.py:206-209 | on tuning 0.6 a follower 30 behind a lead at equal speed cruises and asks for less than MAX_BRAKE |
| RateLimit.JerkLimit | pyTailgating.py:211-212 | for dt >= 0 the command is within MAX_JERK*dt of the last one, equals the request inside the band, and sits on the band's nearer edge outside it |
| RateLimit.JerkLimitIsNearest | pyTailgating.py:211-212 | no point of the band is closer to the request than the limited command |
| Controller.FollowingController.constructor | pyTailgating.py:130-136 | two distinct fresh PIDs with the tuning's gains in the reset state, an empty queue, and a last command of 0 |
| Controller.FollowingController.Perceive | pyTailgating.py:162-168 | the queue becomes the append-then-trim of the true sample and stays the window of the pushed history; the perceived sample is its head, which exists |
| Controller.FollowingController.Arbitrate | pyTailgating.py:170-209 | the pre-limit acceleration and both PID states after the deadband and mode chain are those `Decide` gives |
| Controller.FollowingController.Step | pyTailgating.py:159-217 | one tick pushes the true sample and limits `Decide`'s result with `JerkLimit`, staying within MAX_JERK*dt of the last command; it stores the command, sets braking iff the command is below -25, and moves the follower by the clamped Euler step |
| Controller.LeadAccel | pyTailgating.py:148-152 | the lead's acceleration is MAX_ACCEL iff W is held, MAX_BRAKE iff S is held without W, and 0 iff neither is held |
| Controller.Tick | pyTailgating.py:154-217 | the lead takes its Euler step under its keys' acceleration; then, on the lead's new position and speed, the true sample is pushed, both PID states and the command are `Decide` followed by `JerkLimit`, the command moves by at most MAX_JERK*dt and is stored, braking is set iff it is below -25, and the follower takes its Euler step; both speeds stay in [0, MAX_SPEED] |
| Controller.Run | pyTailgating.py:127-217 | from both cars at rest TARGET_DISTANCE apart, over any frames, both speeds stay within [0, MAX_SPEED]; each command is within MAX_JERK*dt of the previous one, starting from 0; the queue holds 1 to 30 samples |

## Left out

- All pygame code (window, clock, event polling, keyboard, road lines,
  `Car.draw`, HUD text, lines 92-125 and 140-156 except 148-154, and
  228-253) is I/O and presentation. The frame's `dt` and the held keys are
  inputs to `Tick` and `Run`.
- The camera re-centering (lines 222-226) is presentation only. It shifts
  both cars by the same amount, leaves the gap unchanged, and is not
  modelled. `Run` keeps world coordinates instead.
- The `lead_braking` flag (line 156) and the cars' `y` and `color` only
  feed the drawing.
- The `PROFILES` name table (lines 15-28) is a lookup of constants and is
  not modelled. `TuningFor` covers every level in [0, 1], and `PROFILE` =
  0.6 is the level the program runs.
- Floating point: the model computes over `real`, so rounding is not
  modelled, and `float("inf")` is the `Infinite` case of `Ttc`.
- `Run` covers a finite sequence of frames. The program's loop runs until
  the window is closed.
- Long-run behaviour is not proved: that the gap settles within the
  deadband of its target, or that the follower stops before the gap
  closes. These are claims about numerical trajectories over many ticks.
