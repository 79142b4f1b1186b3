/** Which times and marks the frames of a run are given, in terms of nothing but the calls of the run:
    the capture times and numbers of its frames, losses, and new starts. */
module FrameTimes {
  import opened Arithmetic
  import opened TimeMapping
  import Slewing
  import Window = SampleWindow
  import opened VideoSource
  import opened VideoElement
  import opened SegmentTimes
  import Runs = VideoRuns

  // ------------------------------------------------------------------- what the calls say

  predicate ShowsSignal(call: Call) { call.FrameCall? && HasSignal(call.c) }

  /** The last callback since the streams were started had a frame with signal. */
  predicate HadSignal(calls: seq<Call>)
    decreases |calls|
  {
    calls != [] &&
      var call := calls[|calls| - 1];
      if call.FrameCall? then HasSignal(call.c) else !call.StartStreamsCall? && HadSignal(calls[..|calls| - 1])
  }

  datatype Opening = Opening(time: nat, number: nat)

  /** The frame that begun the latest signal segment since the streams were started: one with signal
      that follows none. */
  function OpenedBy(calls: seq<Call>): Option<Opening>
    decreases |calls|
  {
    if calls == [] then None
    else
      var front, call := calls[..|calls| - 1], calls[|calls| - 1];
      if call.StartStreamsCall? then None
      else if ShowsSignal(call) && !HadSignal(front) then Some(Opening(call.c.time, call.c.buff.value.frameNumber))
      else OpenedBy(front)
  }

  /** The capture time of the first frame with signal since the streams were started. */
  function FirstCapture(calls: seq<Call>): Option<nat>
    decreases |calls|
  {
    if calls == [] then None
    else
      var front, call := calls[..|calls| - 1], calls[|calls| - 1];
      if call.StartStreamsCall? then None
      else if ShowsSignal(call) && FirstCapture(front).None? then Some(call.c.time)
      else FirstCapture(front)
  }

  /** A frame has been taken since the streams were started. */
  predicate AnyTaken(s: Element, calls: seq<Call>)
    decreases |calls|
  {
    calls != [] &&
      var front, call := calls[..|calls| - 1], calls[|calls| - 1];
      && !call.StartStreamsCall?
      && (AnyTaken(s, front) || (call.FrameCall? && Judged(AfterCalls(s, front), call.c).1.Taken?))
  }

  // ------------------------------------------------------------------- the state agrees with them

  /** The state of the element agrees with what the calls say. */
  predicate Told(m: Moment, had: bool, begun: Option<Opening>, first: Option<nat>) {
    var t := m.s.timing;
    && (m.s.core.signal == Available <==> had)
    && (had ==> begun.Some?) && (begun.Some? <==> t.discontTime.Some?) && (first.Some? <==> begun.Some?)
    && (begun.Some? ==>
          && t.discontTime.value == begun.value.time && t.discontFrame == begun.value.number
          && t.discontFrame <= m.sys.feed.lastNumber)
    && t.firstTime == first
  }

  /** A frame at its own segment's start, in stream time. */
  lemma StreamAtOpening(time: nat, n: nat, rate: Rate)
    ensures StreamTime(time, n, n, rate) == time
  {
    ScaleAtLeast(0, rate.d * SECOND, rate.n, 1);
  }

  lemma SignalTells(s: Element, c: Capture)
    requires HasSignal(c) && (s.timing.discontTime.None? <==> s.timing.firstTime.None?)
    ensures
      var t' := Judged(s, c).0;
      && t'.discontTime == (if NewSegment(s) then Some(c.time) else s.timing.discontTime)
      && t'.discontFrame == (if NewSegment(s) then c.buff.value.frameNumber else s.timing.discontFrame)
      && t'.firstTime == (if s.timing.firstTime.None? then Some(c.time) else s.timing.firstTime)
  {
    StreamAtOpening(c.time, c.buff.value.frameNumber, s.cfg.rate);
  }

  lemma BlankSignal(m: Moment, c: Capture)
    requires !HasSignal(c) && CanCall(m, FrameCall(c))
    ensures Next(m, FrameCall(c)).s.core.signal == Lost
  {}

  lemma StartSignal(m: Moment)
    ensures
      var m' := Next(m, StartStreamsCall);
      m'.s.core.signal == Unknown && m'.s.timing.discontTime.None? && m'.s.timing.firstTime.None?
  {}

  lemma ToldOnce(m: Moment, call: Call, had: bool, begun: Option<Opening>, first: Option<nat>)
    requires Told(m, had, begun, first) && CanCall(m, call)
    ensures
      var m' := Next(m, call);
      if call.StartStreamsCall? then Told(m', false, None, None)
      else if !call.FrameCall? then Told(m', had, begun, first)
      else if !HasSignal(call.c) then Told(m', false, begun, first)
      else
        Told(m', true, if had then begun else Some(Opening(call.c.time, call.c.buff.value.frameNumber)),
             if first.None? then Some(call.c.time) else first)
  {
    if call.StartStreamsCall? {
      StartSignal(m);
    } else if !call.FrameCall? {
      OtherMoment(m, call);
    } else if !HasSignal(call.c) {
      BlankMoment(m, call.c);
      BlankSignal(m, call.c);
    } else {
      FrameMoment(m, call.c);
      SignalTells(m.s, call.c);
    }
  }

  /** Over every run: signal is available exactly if the last callback since the last start had signal,
      segments start with the first frame with signal after none, at its number and its capture time,
      and the initial skip is measured from the capture time of the first frame since the start. */
  lemma {:induction false} StateToldByCalls(s: Element, calls: seq<Call>)
    requires Fresh(s) && Feasible(s, calls)
    ensures Told(Now(s, calls), HadSignal(calls), OpenedBy(calls), FirstCapture(calls))
    decreases |calls|
  {
    if calls == [] {
    } else {
      var front := calls[..|calls| - 1];
      StateToldByCalls(s, front);
      ToldOnce(Now(s, front), calls[|calls| - 1], HadSignal(front), OpenedBy(front), FirstCapture(front));
    }
  }

  // ------------------------------------------------------------------- the times of a frame

  /** x is the time of frame n of a segment opened by a frame, to within 1 ns of the exact quotient. */
  predicate ExactTime(x: nat, open: Opening, n: nat, rate: Rate) {
    open.number <= n && (x - open.time) * rate.n <= (n - open.number) * (rate.d * SECOND) < (x - open.time + 1) * rate.n
  }

  /** How far x is after first, as an unsigned difference. */
  function After(x: nat, first: nat): nat { if x >= first then x - first else (x - first) % TWO64 }

  /** What is right for a frame: its stream time x is exact, it is skipped if and only if it comes less
      than the skip time after the first frame, and if it is taken it is given x, and as timestamp x
      or what the mapping, as it is after this frame, makes of x. */
  predicate TimesRight(cfg: Config, t': Timing, o: Outcome, c: Capture, open: Opening, first: nat, x: nat)
    requires HasSignal(c)
  {
    && ExactTime(x, open, c.buff.value.frameNumber, cfg.rate)
    && (o.Skipped? || o.Taken?) && o.buff == c.buff.value
    && (o.Skipped? <==> cfg.skipFirstTime > 0 && After(x, first) < cfg.skipFirstTime)
    && (o.Taken? ==>
          o.streamTime == x && o.captureTime == if cfg.outputStreamTime then x else Adjust(t'.time.current, x))
  }

  lemma TimesOfFrame(s: Element, c: Capture, open: Opening, first: nat)
    requires HasSignal(c) && open.number <= c.buff.value.frameNumber
    requires if NewSegment(s) then open == Opening(c.time, c.buff.value.frameNumber)
             else s.timing.discontTime == Some(open.time) && s.timing.discontFrame == open.number
    requires if s.timing.firstTime.None? then NewSegment(s) && first == c.time else s.timing.firstTime == Some(first)
    ensures TimesRight(s.cfg, Judged(s, c).0, Judged(s, c).1, c, open, first, StreamOf(s, c))
  {
    var n, rate := c.buff.value.frameNumber, s.cfg.rate;
    StreamAtOpening(c.time, n, rate);
    ScaleBounds(n - open.number, rate.d * SECOND, rate.n);
  }

  function OpeningWith(had: bool, begun: Option<Opening>, c: Capture): Opening
    requires HasSignal(c)
  {
    if had && begun.Some? then begun.value else Opening(c.time, c.buff.value.frameNumber)
  }

  lemma TimesWhenTold(m: Moment, c: Capture, had: bool, begun: Option<Opening>, first: Option<nat>)
    requires Told(m, had, begun, first) && CanCall(m, FrameCall(c)) && HasSignal(c)
    ensures
      TimesRight(m.s.cfg, Judged(m.s, c).0, Judged(m.s, c).1, c, OpeningWith(had, begun, c),
                 if first.Some? then first.value else c.time, StreamOf(m.s, c))
  {
    NumberAhead(m, c);
    TimesOfFrame(m.s, c, OpeningWith(had, begun, c), if first.Some? then first.value else c.time);
  }

  lemma FrameAdds(front: seq<Call>, c: Capture)
    requires HasSignal(c) && (HadSignal(front) ==> OpenedBy(front).Some?)
    ensures
      var calls := front + [FrameCall(c)];
      && OpenedBy(calls) == Some(OpeningWith(HadSignal(front), OpenedBy(front), c))
      && FirstCapture(calls) == Some(if FirstCapture(front).Some? then FirstCapture(front).value else c.time)
  {
    var calls := front + [FrameCall(c)];
    assert calls[..|calls| - 1] == front;
  }

  /** The times of every frame with signal of every run. */
  lemma TimesInRuns(s: Element, front: seq<Call>, c: Capture) returns (x: nat)
    requires Fresh(s) && Feasible(s, front) && CanCall(Now(s, front), FrameCall(c)) && HasSignal(c)
    ensures
      var before, calls := AfterCalls(s, front), front + [FrameCall(c)];
      && OpenedBy(calls).Some? && FirstCapture(calls).Some?
      && TimesRight(s.cfg, Judged(before, c).0, Judged(before, c).1, c, OpenedBy(calls).value,
                    FirstCapture(calls).value, x)
  {
    RunRefines(s, front);
    StateToldByCalls(s, front);
    FrameAdds(front, c);
    TimesWhenTold(Now(s, front), c, HadSignal(front), OpenedBy(front), FirstCapture(front));
    x := StreamOf(AfterCalls(s, front), c);
  }

  lemma NumberAhead(m: Moment, c: Capture)
    requires HasSignal(c) && CanCall(m, FrameCall(c))
    ensures c.buff.value.frameNumber > m.sys.feed.lastNumber
  {}

  // ------------------------------------------------------------------- the mapping in runs

  /** The pairs recorded since the streams were started: stream and capture times of taken frames. */
  function Recorded(s: Element, calls: seq<Call>): seq<Window.Pair>
    decreases |calls|
  {
    if calls == [] then []
    else
      var front, call := calls[..|calls| - 1], calls[|calls| - 1];
      var before := AfterCalls(s, front);
      if call.StartStreamsCall? then []
      else if call.FrameCall? && Judged(before, call.c).1.Taken? then
        Window.WithSample(before.timing.time, Recorded(s, front), call.c.time, Judged(before, call.c).1.streamTime)
      else Recorded(s, front)
  }

  lemma TakenUpdatesMapping(s: Element, c: Capture)
    requires HasSignal(c) && Judged(s, c).1.Taken?
    ensures Judged(s, c).0.time
         == Updated(s.timing.time, c.time, Judged(s, c).1.streamTime, c.buff.value.droppedChanged, s.cfg.rate,
                    c.regression)
  {}

  lemma UntakenKeepsMapping(s: Element, c: Capture)
    requires !Judged(s, c).1.Taken?
    ensures Judged(s, c).0.time == s.timing.time
  {}

  lemma RecordedOnce(m: Moment, call: Call, recorded: seq<Window.Pair>)
    requires Window.Remembers(m.s.timing.time, recorded, m.s.cfg.rate) && CanCall(m, call)
    ensures
      var m' := Next(m, call);
      && m'.s.cfg == m.s.cfg
      && Window.Remembers(m'.s.timing.time,
           if call.StartStreamsCall? then []
           else if call.FrameCall? && Judged(m.s, call.c).1.Taken? then
             Window.WithSample(m.s.timing.time, recorded, call.c.time, Judged(m.s, call.c).1.streamTime)
           else recorded, m.s.cfg.rate)
  {
    if call.StartStreamsCall? {
      StartMoment(m);
      Window.StartForgets(m.s.timing.time, m.s.cfg.rate);
    } else if !call.FrameCall? {
      OtherMoment(m, call);
    } else if !HasSignal(call.c) {
      BlankMoment(m, call.c);
    } else {
      FrameMoment(m, call.c);
      if Judged(m.s, call.c).1.Taken? {
        var o, b := Judged(m.s, call.c).1, call.c.buff.value;
        TakenUpdatesMapping(m.s, call.c);
        Window.UpdateRecords(m.s.timing.time, recorded, call.c.time, o.streamTime, b.droppedChanged, m.s.cfg.rate,
                             call.c.regression);
      } else {
        UntakenKeepsMapping(m.s, call.c);
      }
    }
  }

  /** Over every run of a started element the window holds the latest 64 of the pairs that the frames
      taken since the last start have recorded. */
  lemma {:induction false} WindowInRuns(s: Element, calls: seq<Call>)
    requires JustStarted(s) && Feasible(s, calls)
    ensures Now(s, calls).s.cfg == s.cfg
    ensures Window.Remembers(AfterCalls(s, calls).timing.time, Recorded(s, calls), s.cfg.rate)
    decreases |calls|
  {
    if calls == [] {
      Window.StartForgets(s.timing.time, s.cfg.rate);
    } else {
      WindowInRuns(s, calls[..|calls| - 1]);
      RecordedOnce(Now(s, calls[..|calls| - 1]), calls[|calls| - 1], Recorded(s, calls[..|calls| - 1]));
    }
  }

  lemma {:induction false} RecordedIffTaken(s: Element, calls: seq<Call>)
    requires JustStarted(s) && Feasible(s, calls)
    ensures Recorded(s, calls) == [] <==> !AnyTaken(s, calls)
    decreases |calls|
  {
    if calls == [] {
    } else {
      RecordedIffTaken(s, calls[..|calls| - 1]);
      WindowInRuns(s, calls[..|calls| - 1]);
    }
  }

  /** The first frame taken after a start gets its capture time as timestamp, and only that one makes the
      mapping start afresh: over every run. */
  lemma FirstTakenIsAnchor(s: Element, front: seq<Call>, c: Capture)
    requires JustStarted(s) && Feasible(s, front) && CanCall(Now(s, front), FrameCall(c)) && HasSignal(c)
    requires Judged(AfterCalls(s, front), c).1.Taken?
    ensures
      var before := AfterCalls(s, front);
      var (t', o) := Judged(before, c);
      && (Anchors(before.timing.time) <==> !AnyTaken(s, front))
      && (!AnyTaken(s, front) ==>
            && t'.time.current == Mapping(o.streamTime, c.time, 1, 1) && !t'.time.pending
            && (!s.cfg.outputStreamTime ==> o.captureTime == c.time))
  {
    var before := AfterCalls(s, front);
    var o := Judged(before, c).1;
    RunRefines(s, front);
    WindowInRuns(s, front);
    RecordedIffTaken(s, front);
    TakenUpdatesMapping(before, c);
    Window.AnchoredExactlyOnce(before.timing.time, Recorded(s, front), c.time, o.streamTime,
                               c.buff.value.droppedChanged, s.cfg.rate, c.regression);
    var x := TimesInRuns(s, front, c);
  }

  /** Of any taken frame: the regression is used if the frame is recorded into a full window; the mapping
      that is then pending stays pending if and only if there is no discontinuity and it is more than a
      step and less than 50 ms away; else it is the current one after this frame. */
  lemma TakenFrameMoves(s: Element, c: Capture)
    requires HasSignal(c) && Judged(s, c).1.Taken?
    ensures
      var x, rate := Judged(s, c).1.streamTime, s.cfg.rate;
      var sampled, after := Sampled(s.timing.time, c.time, x, rate, c.regression), Judged(s, c).0.time;
      var gap := Distance(Adjust(sampled.next, x), Adjust(sampled.current, x));
      && (after.pending <==> sampled.pending && !c.buff.value.droppedChanged && MaxDiff(rate) < gap < 50_000_000)
      && (sampled.pending && !after.pending ==> after.current == sampled.next)
      && (!sampled.pending ==> after.current == sampled.current)
  {
    var x, rate := Judged(s, c).1.streamTime, s.cfg.rate;
    var sampled := Sampled(s.timing.time, c.time, x, rate, c.regression);
    TakenUpdatesMapping(s, c);
    Slewing.StaysPendingIff(sampled, x, MaxDiff(rate));
    Slewing.DiscontTakesOver(sampled, x, MaxDiff(rate));
    Slewing.TakesOverPending(sampled, x, c.buff.value.droppedChanged, MaxDiff(rate));
  }

  // ------------------------------------------------------------------- what is queued

  /** The entry queued for a taken frame carries its times, and is marked as the first of its segment
      exactly if the callback before, since the last start, had no signal. */
  predicate EntryRight(e: RealEntry, o: Outcome, had: bool)
    requires o.Taken?
  {
    && e.captureTime == o.captureTime && e.streamTime == o.streamTime && (e.firstBuffer <==> !had)
    && e.buff.value.(droppedChanged := o.buff.droppedChanged) == o.buff && e.change == NoChange
  }

  lemma AppendedRight(sys: Runs.System, o: Outcome)
    requires Runs.Accepts(sys.core, o)
    ensures
      var sys' := Runs.Step(sys, Runs.Callback(o));
      && |sys'.accepted| == |sys.accepted| + 1
      && EntryRight(sys'.accepted[|sys.accepted|], o, sys.core.signal == Available)
  {}

  /** Over every run: what is queued for a frame. A first frame that is skipped leaves the first one
      taken after it unmarked. */
  lemma QueuedInRuns(s: Element, front: seq<Call>, c: Capture)
    requires Fresh(s) && Feasible(s, front) && CanCall(Now(s, front), FrameCall(c)) && HasSignal(c)
    requires Judged(AfterCalls(s, front), c).1.Taken? && !AfterCalls(s, front).core.q.flushing
    ensures
      var o, sys, sys' := Judged(AfterCalls(s, front), c).1, History(s, front), History(s, front + [FrameCall(c)]);
      |sys'.accepted| == |sys.accepted| + 1 && EntryRight(sys'.accepted[|sys.accepted|], o, HadSignal(front))
  {
    var calls := front + [FrameCall(c)];
    assert calls[..|calls| - 1] == front;
    RunRefines(s, front);
    StateToldByCalls(s, front);
    AppendedRight(History(s, front), Judged(AfterCalls(s, front), c).1);
  }
}
