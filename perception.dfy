/** The reaction-delay queue of pyTailgating.py: a deque of perceived
    samples, appended to every tick and trimmed at the head. */
module Perception {

  /** One perceived (distance, rel_speed) pair; rel_speed is follower minus lead. */
  datatype Sample = Sample(distance: real, relSpeed: real)

  /** `append(s)`, then one `popleft()` if the queue is longer than `maxLen`. */
  function Admit(buffer: seq<Sample>, s: Sample, maxLen: int): (r: seq<Sample>)
    ensures 1 <= maxLen && |buffer| <= maxLen ==> 1 <= |r| <= maxLen && r[|r| - 1] == s
    ensures r == buffer + [s] || r == (buffer + [s])[1..]
    ensures r == buffer + [s] <==> |buffer| < maxLen
  {
    var appended := buffer + [s];
    if |appended| > maxLen then appended[1..] else appended
  }

  /** The queue a history of pushes leaves behind: its last `n` samples,
      or all of them while there are fewer than `n`. */
  function Window(history: seq<Sample>, n: nat): (w: seq<Sample>)
    ensures |w| == if |history| <= n then |history| else n
    decreases |history|
  {
    if |history| <= n then history else Window(history[1..], n)
  }

  /** The window is the suffix of the history of length min(|history|, n). */
  lemma {:induction false} WindowIsSuffix(history: seq<Sample>, n: nat)
    ensures |history| <= n ==> Window(history, n) == history
    ensures |history| >= n ==> Window(history, n) == history[|history| - n..]
    decreases |history|
  {
    if |history| > n {
      WindowIsSuffix(history[1..], n);
      assert history[1..][|history| - 1 - n..] == history[|history| - n..];
    }
  }

  /** The queue holds between 1 and `n` samples once anything was pushed,
      and keeps them in the order they were pushed. */
  lemma WindowShape(history: seq<Sample>, n: nat)
    requires 1 <= n && history != []
    ensures 1 <= |Window(history, n)| <= n
    ensures forall i :: 0 <= i < |Window(history, n)| ==>
              Window(history, n)[i] == history[|history| - |Window(history, n)| + i]
  {
    WindowIsSuffix(history, n);
  }

  /** One more append-then-trim turns the queue of a history into the
      queue of that history extended by the new sample. */
  lemma AdmitWindow(history: seq<Sample>, s: Sample, n: nat)
    requires 1 <= n
    ensures Admit(Window(history, n), s, n) == Window(history + [s], n)
  {
    var h := history + [s];
    WindowIsSuffix(history, n);
    WindowIsSuffix(h, n);
    if |history| >= n {
      assert Window(history, n) + [s] == h[|h| - n - 1..];
      assert h[|h| - n - 1..][1..] == h[|h| - n..];
    }
  }

  /** The queue after pushing `xs` one per tick. */
  function PushAll(buffer: seq<Sample>, xs: seq<Sample>, maxLen: int): seq<Sample>
    decreases |xs|
  {
    if xs == [] then buffer else PushAll(Admit(buffer, xs[0], maxLen), xs[1..], maxLen)
  }

  /** From the queue of any history, a run of pushes leaves exactly the
      window of that history extended by the run. */
  lemma {:induction false} PushAllIsWindow(history: seq<Sample>, xs: seq<Sample>, n: nat)
    requires 1 <= n
    ensures PushAll(Window(history, n), xs, n) == Window(history + xs, n)
    decreases |xs|
  {
    if xs != [] {
      AdmitWindow(history, xs[0], n);
      PushAllIsWindow(history + [xs[0]], xs[1..], n);
      assert history + [xs[0]] + xs[1..] == history + xs;
    } else {
      assert history + xs == history;
    }
  }

  /** The perceived sample is the head of the queue. Until `n` samples
      have been pushed it is the very first one; from then on it is the
      one pushed `n - 1` ticks before the newest. */
  lemma {:induction false} WindowHead(history: seq<Sample>, n: nat)
    requires 1 <= n && history != []
    ensures |history| <= n ==> Window(history, n)[0] == history[0]
    ensures |history| >= n ==> Window(history, n)[0] == history[|history| - 1 - (n - 1)]
  {
    WindowIsSuffix(history, n);
  }
}
