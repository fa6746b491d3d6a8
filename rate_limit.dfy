/** The jerk limiter of pyTailgating.py: the commanded acceleration moves
    at most MAX_JERK * dt away from the previous tick's command. */
module RateLimit {
  import opened Numerics

  /** `max(last - maxDelta, min(last + maxDelta, desired))`. */
  function JerkLimit(last: real, desired: real, maxDelta: real): (cmd: real)
    ensures maxDelta >= 0.0 ==> Abs(cmd - last) <= maxDelta
    ensures last - maxDelta <= desired <= last + maxDelta ==> cmd == desired
    ensures maxDelta >= 0.0 && desired > last + maxDelta ==> cmd == last + maxDelta
    ensures desired < last - maxDelta ==> cmd == last - maxDelta
  {
    Max(last - maxDelta, Min(last + maxDelta, desired))
  }

  /** The limited command is the point of the band nearest to the request. */
  lemma JerkLimitIsNearest(last: real, desired: real, maxDelta: real, y: real)
    requires last - maxDelta <= y <= last + maxDelta
    ensures Abs(JerkLimit(last, desired, maxDelta) - desired) <= Abs(y - desired)
  {
  }
}
