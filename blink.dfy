/** The blink scheduler: one timestamp, reset to the current time whenever
    more than BlinkS seconds have passed since it was last set. */
module Blink {
  import opened Config

  /** A blink is due when more than BlinkS seconds separate `now` from the last blink. */
  predicate Fires(lastBlink: real, now: real) {
    now - lastBlink > BlinkS
  }

  /** Consecutive entries lie more than BlinkS seconds apart. */
  predicate Spaced(ts: seq<real>) {
    forall i :: 1 <= i < |ts| ==> ts[i] - ts[i - 1] > BlinkS
  }

  /** The values `last_blink` takes over a run that starts at `start` and
      polls the clock at the times `nows`: the start time, followed by each
      polled time at which a blink fired. */
  function Resets(start: real, nows: seq<real>): (ts: seq<real>)
    ensures |ts| >= 1 && ts[0] == start
    ensures |ts| <= |nows| + 1
    ensures Spaced(ts)
    decreases |nows|
  {
    if nows == [] then [start]
    else
      var before := Resets(start, nows[..|nows| - 1]);
      var now := nows[|nows| - 1];
      if Fires(before[|before| - 1], now) then before + [now] else before
  }

  /** The value of `last_blink` after polling at the times `nows`. */
  function LastBlink(start: real, nows: seq<real>): real {
    var ts := Resets(start, nows);
    ts[|ts| - 1]
  }

  /** One poll: a blink fires iff it is due, and then `last_blink` becomes
      `now`; otherwise `last_blink` is unchanged. Either way the poll leaves
      no blink overdue. */
  lemma PollStep(start: real, nows: seq<real>, now: real)
    ensures var last := LastBlink(start, nows);
      && (Fires(last, now) ==> Resets(start, nows + [now]) == Resets(start, nows) + [now])
      && (!Fires(last, now) ==> Resets(start, nows + [now]) == Resets(start, nows))
      && LastBlink(start, nows + [now]) == (if Fires(last, now) then now else last)
      && now - LastBlink(start, nows + [now]) <= BlinkS
  {
  }

  /** Every blink time recorded is one of the polled times. */
  lemma {:induction false} ResetsArePolls(start: real, nows: seq<real>, k: nat)
    requires 1 <= k < |Resets(start, nows)|
    ensures Resets(start, nows)[k] in nows
    decreases |nows|
  {
    var before := Resets(start, nows[..|nows| - 1]);
    if k < |before| {
      ResetsArePolls(start, nows[..|nows| - 1], k);
    }
  }

  /** In a spaced sequence any two entries, not only consecutive ones, are
      more than BlinkS apart: two blinks never fall within one period. */
  lemma {:induction false} SpacedPairwise(ts: seq<real>, i: nat, j: nat)
    requires Spaced(ts)
    requires i < j < |ts|
    ensures ts[j] - ts[i] > BlinkS
    decreases j - i
  {
    if i + 1 < j {
      SpacedPairwise(ts, i, j - 1);
    }
  }

  /** Blinks of one run are more than BlinkS apart from each other and from
      the start, whatever the polled times. */
  lemma BlinksApart(start: real, nows: seq<real>, i: nat, j: nat)
    requires i < j < |Resets(start, nows)|
    ensures Resets(start, nows)[j] - Resets(start, nows)[i] > BlinkS
  {
    SpacedPairwise(Resets(start, nows), i, j);
  }

  /** The worked run: starting at 0, a poll at 4.1 blinks, one at 7.9 does
      not, one at 8.3 does. */
  lemma ExampleRun()
    ensures Resets(0.0, [4.1, 7.9, 8.3]) == [0.0, 4.1, 8.3]
  {
  }
}
