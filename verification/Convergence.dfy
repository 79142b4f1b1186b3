/** Slewing terminates in runs of the element: a pending mapping is taken over after a bounded number
    of frames, whatever else is done to the element between them. */
module Convergence {
  import opened Arithmetic
  import opened TimeMapping
  import opened Slewing
  import opened VideoSource
  import opened VideoElement
  import opened SegmentTimes
  import Walks

  // ------------------------------------------------------------------- the mapping

  /** The pending mapping will be reached in j more steps after the frame at time t. */
  ghost predicate Reachable(t: TimeState, x: nat, rate: Rate, j: nat) {
    && SlopesWithin40th(t.current, t.next) && Unclamped(t.next, x)
    && Gap(t, x) < SNAP_LIMIT && Gap(t, x) <= MaxDiff(rate) + j * Closing(rate)
  }

  /** The mapping that is pending, or the current one if none is. */
  function Goal(t: TimeState): Mapping { if t.pending then t.next else t.current }

  /** Nothing is pending, or it will be reached with the j-th frame after the one at time x. */
  ghost predicate Settling(t: TimeState, x: nat, rate: Rate, j: int, goal: Mapping) {
    t.Shape() && t.filled && Goal(t) == goal && (t.pending ==> j >= 0 && Reachable(t, x, rate, j))
  }

  /** Sampling without a new regression leaves the mapping alone. */
  lemma SamplingKeepsMapping(t: TimeState, capture: nat, x: nat, rate: Rate)
    requires t.Shape() && t.filled
    ensures
      var t' := Sampled(t, capture, x, rate, None);
      && t'.Shape() && t'.filled && t'.current == t.current && t'.next == t.next && t'.pending == t.pending
  {}

  lemma WithinOneStep(t: TimeState, x: nat, rate: Rate)
    requires t.pending && Gap(t, x) <= MaxDiff(rate)
    ensures !Slewed(t, x, false, MaxDiff(rate)).pending
  {}

  /** A gap of more than a step that shrinks by c, or to a step, is one of j - 1 such steps away. */
  lemma OneStepFewer(gap: int, gap': int, step: int, c: int, j: int)
    requires c > 0 && j >= 0 && step < gap <= step + j * c && gap' <= Max(gap - c, step)
    ensures j >= 1 && gap' <= step + (j - 1) * c
  {
    assert j == 0 ==> j * c == 0;
    assert j * c == (j - 1) * c + c;
    if j > 0 {
      MulMonotone(0, j - 1, c);
    }
  }

  lemma BeyondOneStep(t: TimeState, x: nat, y: nat, rate: Rate, j: nat)
    requires t.pending && Reachable(t, x, rate, j) && Gap(t, x) > MaxDiff(rate)
    requires Closing(rate) > 0 && x <= y <= x + FrameDuration(rate) + 1
    ensures j >= 1 && Reachable(Slewed(t, x, false, MaxDiff(rate)), y, rate, j - 1)
  {
    GapShrinks(t, x, y, rate);
    OneStepFewer(Gap(t, x), Gap(Slewed(t, x, false, MaxDiff(rate)), y), MaxDiff(rate), Closing(rate), j);
  }

  lemma SlewingKeepsShape(t: TimeState, x: nat, maxDiff: nat)
    requires t.Shape() && t.filled
    ensures
      var t' := Slewed(t, x, false, maxDiff);
      t'.Shape() && t'.filled && (t'.pending ==> t.pending)
  {}

  lemma SlewGetsCloser(t: TimeState, x: nat, y: nat, rate: Rate, j: int, goal: Mapping)
    requires Settling(t, x, rate, j, goal) && Closing(rate) > 0 && x <= y <= x + FrameDuration(rate) + 1
    ensures Settling(Slewed(t, x, false, MaxDiff(rate)), y, rate, j - 1, goal)
  {
    TakesOverPending(t, x, false, MaxDiff(rate));
    SlewingKeepsShape(t, x, MaxDiff(rate));
    if t.pending && Gap(t, x) <= MaxDiff(rate) {
      WithinOneStep(t, x, rate);
    } else if t.pending {
      BeyondOneStep(t, x, y, rate, j);
    }
  }

  lemma UpdateGetsCloser(t: TimeState, capture: nat, x: nat, y: nat, rate: Rate, j: int, goal: Mapping)
    requires Settling(t, x, rate, j, goal) && Closing(rate) > 0 && x <= y <= x + FrameDuration(rate) + 1
    ensures Settling(Updated(t, capture, x, false, rate, None), y, rate, j - 1, goal)
  {
    SamplingKeepsMapping(t, capture, x, rate);
    var t' := Sampled(t, capture, x, rate, None);
    assert t'.pending ==> Reachable(t', x, rate, j);
    SlewGetsCloser(t', x, y, rate, j, goal);
  }

  // ------------------------------------------------------------------- the element

  /** The stream time of the next frame number in the segment under way. */
  function NextStream(m: Moment): nat
    requires Tracking(m)
  {
    StreamTime(m.s.timing.discontTime.value, m.s.timing.discontFrame, m.sys.feed.lastNumber + 1, m.s.cfg.rate)
  }

  /** A signal segment is under way. */
  predicate Tracking(m: Moment) {
    && m.s.core.signal == Available && m.s.timing.discontTime.Some?
    && m.s.timing.discontFrame <= m.sys.feed.lastNumber + 1 && m.sys.feed.lastNumber >= -1
  }

  /** A possible call that does not disturb the segment: a frame is the next one and is taken, the
      device dropped none before it, and the regression finds nothing new. */
  predicate Undisturbed(m: Moment, call: Call) {
    && CanCall(m, call) && !call.StartStreamsCall?
    && (call.FrameCall? ==>
          && HasSignal(call.c) && call.c.buff.value.frameNumber == m.sys.feed.lastNumber + 1
          && !call.c.buff.value.droppedChanged && call.c.regression.None? && Judged(m.s, call.c).1.Taken?)
  }

  /** Frames come at most a frame duration and a nanosecond apart. */
  lemma NextFrameSoon(t0: nat, n0: nat, n: nat, rate: Rate)
    requires n0 <= n
    ensures
      var x, y := StreamTime(t0, n0, n, rate), StreamTime(t0, n0, n + 1, rate);
      x <= y <= x + FrameDuration(rate) + 1
  {
    ScaleSum(n - n0, 1, rate.d * SECOND, rate.n);
    Commute(SECOND, rate.d);
  }

  /** The segment goes on with the next frame. */
  predicate Continued(m: Moment, m': Moment, capture: nat)
    requires Tracking(m)
  {
    var t, t' := m.s.timing, m'.s.timing;
    && t'.time == Updated(t.time, capture, NextStream(m), false, m.s.cfg.rate, None)
    && t'.discontTime == t.discontTime && t'.discontFrame == t.discontFrame
    && m'.s.cfg == m.s.cfg && m'.s.core.signal == Available
    && m'.sys.feed.lastNumber == m.sys.feed.lastNumber + 1
  }

  lemma TakenUpdates(m: Moment, c: Capture)
    requires Tracking(m) && Undisturbed(m, FrameCall(c))
    ensures
      var t, t' := m.s.timing, Judged(m.s, c).0;
      && t'.time == Updated(t.time, c.time, NextStream(m), false, m.s.cfg.rate, None)
      && t'.discontTime == t.discontTime && t'.discontFrame == t.discontFrame
  {}

  lemma TakenContinues(m: Moment, c: Capture)
    requires Tracking(m) && Undisturbed(m, FrameCall(c))
    ensures Continued(m, Next(m, FrameCall(c)), c.time)
  {
    TakenUpdates(m, c);
    FrameMoment(m, c);
  }

  lemma FrameGetsCloser(m: Moment, m': Moment, capture: nat, j: int, goal: Mapping)
    requires Tracking(m) && Continued(m, m', capture) && Closing(m.s.cfg.rate) > 0
    requires Settling(m.s.timing.time, NextStream(m), m.s.cfg.rate, j, goal)
    ensures Tracking(m') && Settling(m'.s.timing.time, NextStream(m'), m.s.cfg.rate, j - 1, goal)
  {
    var t, rate := m.s.timing, m.s.cfg.rate;
    NextFrameSoon(t.discontTime.value, t.discontFrame, m.sys.feed.lastNumber + 1, rate);
    UpdateGetsCloser(t.time, capture, NextStream(m), NextStream(m'), rate, j, goal);
  }

  /** The frames in a run. */
  function FrameCount(calls: seq<Call>): nat
    decreases |calls|
  {
    if calls == [] then 0
    else FrameCount(calls[..|calls| - 1]) + if calls[|calls| - 1].FrameCall? then 1 else 0
  }

  ghost predicate OnCourse(m: Moment, rate: Rate, j: int, goal: Mapping) {
    Tracking(m) && m.s.cfg.rate == rate && Settling(m.s.timing.time, NextStream(m), rate, j, goal)
  }

  lemma GetsCloser(m: Moment, call: Call, m': Moment, rate: Rate, j: int, goal: Mapping) returns (j': int)
    requires OnCourse(m, rate, j, goal) && Undisturbed(m, call) && m' == Next(m, call) && Closing(rate) > 0
    ensures j' == (if call.FrameCall? then j - 1 else j) && OnCourse(m', rate, j', goal)
  {
    if call.FrameCall? {
      j' := j - 1;
      TakenContinues(m, call.c);
      FrameGetsCloser(m, m', call.c.time, j, goal);
    } else {
      j' := j;
      OtherMoment(m, call);
    }
  }

  lemma {:induction false} StaysOnCourse(m: Moment, calls: seq<Call>, rate: Rate, j: int, goal: Mapping)
    returns (m': Moment, j': int)
    requires OnCourse(m, rate, j, goal) && Closing(rate) > 0 && Walks.Possible(Undisturbed, Next, m, calls)
    ensures m' == Walks.After(Next, m, calls) && j' == j - FrameCount(calls) && OnCourse(m', rate, j', goal)
    decreases |calls|
  {
    if calls == [] {
      m', j' := m, j;
    } else {
      var call, before := calls[|calls| - 1], m;
      before, j' := StaysOnCourse(m, calls[..|calls| - 1], rate, j, goal);
      m' := Next(before, call);
      j' := GetsCloser(before, call, m', rate, j', goal);
    }
  }

  /** From any moment of a signal segment in which a mapping is pending that is less than 50 ms away and
      whose slope differs by at most 1/40: however other calls fall between the frames, it has been
      taken over once the frames that follow are more than the gap, less one step, divided by what a
      step is sure to close, and is the current mapping then. */
  lemma PendingIsTakenOver(m: Moment, calls: seq<Call>, j: nat)
    requires Tracking(m) && Closing(m.s.cfg.rate) > 0 && m.s.timing.time.filled
    requires m.s.timing.time.pending ==> Reachable(m.s.timing.time, NextStream(m), m.s.cfg.rate, j)
    requires Walks.Possible(Undisturbed, Next, m, calls) && FrameCount(calls) > j
    ensures
      var t := Walks.After(Next, m, calls).s.timing.time;
      !t.pending && t.current == Goal(m.s.timing.time)
  {
    var m', j' := StaysOnCourse(m, calls, m.s.cfg.rate, j, Goal(m.s.timing.time));
  }
}
