/** The timestamps that the element gives to the frames of one signal segment increase, in every run
    and whatever else is done to the element between the frames. */
module SegmentTimes {
  import opened Arithmetic
  import opened TimeMapping
  import opened Slewing
  import opened VideoSource
  import opened VideoElement

  // ------------------------------------------------------------------- stretches of frames

  predicate HasSignal(c: Capture) { c.buff.Some? && c.buff.value.haveSignal }

  /** A new signal segment starts with this frame. */
  predicate NewSegment(s: Element) { s.core.signal != Available || s.timing.discontTime.None? }

  /** The nominal time of the frame in the segment that it belongs to. */
  function StreamOf(s: Element, c: Capture): nat
    requires HasSignal(c)
  {
    var t := SegmentStarted(s.timing, s.core.signal, c.time, c.buff.value.frameNumber);
    StreamTime(t.discontTime.value, t.discontFrame, c.buff.value.frameNumber, s.cfg.rate)
  }

  /** The frame does not continue what went before: it starts a segment, it is the first sample after
      a start, or the mapping jumps on it. */
  predicate Breaks(s: Element, c: Capture)
    requires HasSignal(c)
  {
    var st := StreamOf(s, c);
    || NewSegment(s)
    || Anchors(s.timing.time)
    || Jumps(Sampled(s.timing.time, c.time, st, s.cfg.rate, c.regression), st,
             c.buff.value.droppedChanged, MaxDiff(s.cfg.rate))
  }

  /** What a call does to the timestamps given since the last break. */
  function Given(times: seq<nat>, s: Element, call: Call): seq<nat> {
    match call
    case FrameCall(c) =>
      if !HasSignal(c) then []
      else
        var o := Judged(s, c).1;
        if o.Taken? then (if Breaks(s, c) then [] else times) + [o.captureTime]
        else if NewSegment(s) then []
        else times
    case StartStreamsCall => []
    case _ => times
  }

  /** The timestamps of the frames taken in the stretch under way. */
  function Stretch(s: Element, calls: seq<Call>): seq<nat>
    decreases |calls|
  {
    if calls == [] then []
    else Given(Stretch(s, calls[..|calls| - 1]), AfterCalls(s, calls[..|calls| - 1]), calls[|calls| - 1])
  }

  predicate Increasing(times: seq<nat>) { forall i, j :: 0 <= i < j < |times| ==> Follows(times[i], times[j]) }

  lemma OneMoreTime(times: seq<nat>, t: nat)
    requires Increasing(times) && (times != [] ==> Follows(times[|times| - 1], t))
    ensures Increasing(times + [t])
  {}

  // ------------------------------------------------------------------- one frame

  predicate FastRegression(call: Call) {
    call.FrameCall? && call.c.regression.Some? ==> FastEnough(call.c.regression.value)
  }

  lemma SamplingStaysSteady(t: TimeState, capture: nat, stream: nat, rate: Rate, regression: Option<Mapping>)
    requires Steady(t) && (regression.Some? ==> FastEnough(regression.value))
    ensures Steady(Sampled(t, capture, stream, rate, regression))
  {}

  lemma SlewingStaysSteady(t: TimeState, stream: nat, discont: bool, maxDiff: nat)
    requires Steady(t)
    ensures Steady(Slewed(t, stream, discont, maxDiff))
  {}

  lemma RestartIsSteady(t: TimeState)
    requires t.Shape()
    ensures Steady(Restarted(t))
  {}

  /** The mapping stays fast enough over any frame. */
  lemma FrameStaysSteady(s: Element, c: Capture)
    requires Steady(s.timing.time) && FastRegression(FrameCall(c))
    ensures Steady(Judged(s, c).0.time)
  {
    if HasSignal(c) {
      var st, t := StreamOf(s, c), s.timing.time;
      SamplingStaysSteady(t, c.time, st, s.cfg.rate, c.regression);
      SlewingStaysSteady(Sampled(t, c.time, st, s.cfg.rate, c.regression), st,
                         c.buff.value.droppedChanged, MaxDiff(s.cfg.rate));
    }
  }

  /** The timestamp that frame n of the segment under way should have: its stream time if that is what
      the element gives out, and else what the mapping makes of it. */
  function TimeOf(t: Timing, cfg: Config, n: nat): nat
    requires t.discontTime.Some?
  {
    var st := StreamTime(t.discontTime.value, t.discontFrame, n, cfg.rate);
    if cfg.outputStreamTime then st else Adjust(t.time.current, st)
  }

  lemma TakenTime(s: Element, c: Capture)
    requires HasSignal(c) && Judged(s, c).1.Taken?
    ensures
      var (t', o) := Judged(s, c);
      t'.discontTime.Some? && o.captureTime == TimeOf(t', s.cfg, c.buff.value.frameNumber)
  {}

  lemma SegmentKept(s: Element, c: Capture)
    requires HasSignal(c) && !NewSegment(s)
    ensures
      var t' := Judged(s, c).0;
      && t'.discontTime == s.timing.discontTime && t'.discontFrame == s.timing.discontFrame
      && (!Judged(s, c).1.Taken? ==> t'.time == s.timing.time)
  {}

  lemma SegmentOpened(s: Element, c: Capture)
    requires HasSignal(c) && NewSegment(s)
    ensures Judged(s, c).0.discontTime.Some? && Judged(s, c).0.discontFrame == c.buff.value.frameNumber
  {}

  /** A frame that continues the stretch gets a timestamp after what the mapping gave an earlier frame
      n of the segment. */
  lemma NextTimeFollows(s: Element, n: nat, c: Capture)
    requires HasSignal(c) && !Breaks(s, c) && Judged(s, c).1.Taken?
    requires s.timing.discontFrame <= n < c.buff.value.frameNumber
    requires Steady(s.timing.time) && FastRegression(FrameCall(c)) && MaxDiff(s.cfg.rate) >= 2
    ensures Follows(TimeOf(s.timing, s.cfg, n), Judged(s, c).1.captureTime)
  {
    var t, rate := s.timing, s.cfg.rate;
    var x := StreamTime(t.discontTime.value, t.discontFrame, n, rate);
    StreamTimeExact(t.discontTime.value, t.discontFrame, n, c.buff.value.frameNumber, rate);
    if s.cfg.outputStreamTime {
      FramesLast(rate);
    } else {
      var f := Slewing.Frame(StreamOf(s, c), c.time, c.buff.value.droppedChanged, c.regression);
      NextTimestampLater(t.time, x, f, rate);
    }
  }

  lemma FramesLast(rate: Rate)
    requires MaxDiff(rate) >= 1
    ensures rate.n <= rate.d * SECOND
  {
    ScaleAtLeast(SECOND / 20, rate.d, rate.n, 1);
    MulMonotone(SECOND / 20, SECOND, rate.d);
    Commute(SECOND, rate.d);
  }

  // ------------------------------------------------------------------- runs

  /** The last timestamp given is what the mapping gives to some frame of the segment under way. */
  ghost predicate LastIs(t: Timing, cfg: Config, upto: int, time: nat) {
    && t.discontTime.Some?
    && exists n: nat :: t.discontFrame <= n <= upto && time == TimeOf(t, cfg, n)
  }

  ghost predicate Underway(m: Moment, times: seq<nat>) {
    && Steady(m.s.timing.time) && Increasing(times)
    && (m.s.timing.discontTime.Some? ==> m.s.timing.discontFrame <= m.sys.feed.lastNumber)
    && (times != [] ==>
          m.s.core.signal == Available && LastIs(m.s.timing, m.s.cfg, m.sys.feed.lastNumber, times[|times| - 1]))
  }

  lemma FrameMoment(m: Moment, c: Capture)
    requires HasSignal(c) && CanCall(m, FrameCall(c))
    ensures
      var m' := Next(m, FrameCall(c));
      && m.sys.feed.lastNumber < c.buff.value.frameNumber == m'.sys.feed.lastNumber
      && m'.s.cfg == m.s.cfg && m'.s.timing == Judged(m.s, c).0 && m'.s.core.signal == Available
  {}

  lemma BlankMoment(m: Moment, c: Capture)
    requires !HasSignal(c) && CanCall(m, FrameCall(c))
    ensures Next(m, FrameCall(c)).sys.feed.lastNumber >= m.sys.feed.lastNumber
    ensures Next(m, FrameCall(c)).s.timing == m.s.timing && Next(m, FrameCall(c)).s.cfg == m.s.cfg
  {}

  lemma StartMoment(m: Moment)
    ensures Next(m, StartStreamsCall).s.timing.time == Restarted(m.s.timing.time)
    ensures Next(m, StartStreamsCall).s.timing.discontTime.None?
    ensures Next(m, StartStreamsCall).s.cfg == m.s.cfg
  {}

  lemma OtherMoment(m: Moment, call: Call)
    requires !call.FrameCall? && !call.StartStreamsCall?
    ensures
      var m' := Next(m, call);
      && m'.s.timing == m.s.timing && m'.s.cfg == m.s.cfg && m'.s.core.signal == m.s.core.signal
      && m'.sys.feed.lastNumber == m.sys.feed.lastNumber
  {}

  /** A taken frame ends the stretch or makes it longer. */
  lemma TakenGoesOn(m: Moment, c: Capture, times: seq<nat>)
    requires Underway(m, times) && HasSignal(c) && Judged(m.s, c).1.Taken? && MaxDiff(m.s.cfg.rate) >= 2
    requires c.buff.value.frameNumber > m.sys.feed.lastNumber && FastRegression(FrameCall(c))
    ensures Increasing(Given(times, m.s, FrameCall(c)))
    ensures
      var times' := Given(times, m.s, FrameCall(c));
      times' != [] && LastIs(Judged(m.s, c).0, m.s.cfg, c.buff.value.frameNumber, times'[|times'| - 1])
  {
    var s, time := m.s, Judged(m.s, c).1.captureTime;
    TakenTime(s, c);
    if NewSegment(s) {
      SegmentOpened(s, c);
    } else {
      SegmentKept(s, c);
      if times != [] && !Breaks(s, c) {
        var n: nat :| && s.timing.discontFrame <= n <= m.sys.feed.lastNumber
                      && times[|times| - 1] == TimeOf(s.timing, s.cfg, n);
        NextTimeFollows(s, n, c);
        OneMoreTime(times, time);
      }
    }
  }

  lemma SkippedGoesOn(m: Moment, c: Capture, times: seq<nat>)
    requires Underway(m, times) && HasSignal(c) && !Judged(m.s, c).1.Taken?
    requires c.buff.value.frameNumber > m.sys.feed.lastNumber
    ensures
      var times' := Given(times, m.s, FrameCall(c));
      && Increasing(times')
      && (times' != [] ==> LastIs(Judged(m.s, c).0, m.s.cfg, c.buff.value.frameNumber, times'[|times'| - 1]))
  {
    if !NewSegment(m.s) && times != [] {
      SegmentKept(m.s, c);
      var n: nat :| && m.s.timing.discontFrame <= n <= m.sys.feed.lastNumber
                    && times[|times| - 1] == TimeOf(m.s.timing, m.s.cfg, n);
      assert TimeOf(Judged(m.s, c).0, m.s.cfg, n) == times[|times| - 1];
    }
  }

  lemma FrameGoesOn(m: Moment, c: Capture, times: seq<nat>)
    requires Underway(m, times) && CanCall(m, FrameCall(c))
    requires FastRegression(FrameCall(c)) && MaxDiff(m.s.cfg.rate) >= 2
    requires HasSignal(c)
    ensures Underway(Next(m, FrameCall(c)), Given(times, m.s, FrameCall(c)))
  {
    FrameMoment(m, c);
    FrameStaysSteady(m.s, c);
    if NewSegment(m.s) {
      SegmentOpened(m.s, c);
    } else {
      SegmentKept(m.s, c);
    }
    if Judged(m.s, c).1.Taken? {
      TakenGoesOn(m, c, times);
    } else {
      SkippedGoesOn(m, c, times);
    }
  }

  lemma GoesOn(m: Moment, call: Call, times: seq<nat>)
    requires Underway(m, times) && CanCall(m, call) && FastRegression(call) && MaxDiff(m.s.cfg.rate) >= 2
    ensures Underway(Next(m, call), Given(times, m.s, call)) && Next(m, call).s.cfg == m.s.cfg
  {
    if call.FrameCall? {
      if HasSignal(call.c) {
        FrameMoment(m, call.c);
        FrameGoesOn(m, call.c, times);
      } else {
        BlankMoment(m, call.c);
      }
    } else if call.StartStreamsCall? {
      StartMoment(m);
      RestartIsSteady(m.s.timing.time);
    } else {
      OtherMoment(m, call);
    }
  }

  /** A freshly started element, its mapping included. */
  predicate JustStarted(s: Element) { Fresh(s) && s.timing.time == Restarted(s.timing.time) }

  lemma {:induction false} StretchIsUnderway(s: Element, calls: seq<Call>)
    requires JustStarted(s) && Feasible(s, calls) && MaxDiff(s.cfg.rate) >= 2
    requires forall call :: call in calls ==> FastRegression(call)
    ensures Underway(Now(s, calls), Stretch(s, calls)) && Now(s, calls).s.cfg == s.cfg
    decreases |calls|
  {
    if calls == [] {
      RestartIsSteady(s.timing.time);
    } else {
      var front := calls[..|calls| - 1];
      assert forall call :: call in front ==> call in calls;
      StretchIsUnderway(s, front);
      GoesOn(Now(s, front), calls[|calls| - 1], Stretch(s, front));
    }
  }

  /** In every run of a started element, whatever is called between the frames and whatever the
      regression returns as long as it runs at a tenth of real time: within a signal segment, as long
      as the mapping does not jump, the frames taken get timestamps that never decrease, and strictly
      increase once they are positive. */
  lemma SegmentTimesIncrease(s: Element, calls: seq<Call>)
    requires JustStarted(s) && Feasible(s, calls) && MaxDiff(s.cfg.rate) >= 2
    requires forall call :: call in calls ==> FastRegression(call)
    ensures Increasing(Stretch(s, calls))
  {
    StretchIsUnderway(s, calls);
  }
}
