/** Runs of the whole video element, its time half included. Every such run is a run of the
    signal and queue half, so everything proved there holds here. */
module VideoElement {
  import opened Arithmetic
  import opened TimeMapping
  import opened BufferOwnership
  import Walks
  import opened VideoSource
  import Runs = VideoRuns
  import Knowledge = SignalKnowledge

  // ------------------------------------------------------------------- runs

  /** What the worker, the streaming side and the application do to the element. */
  datatype Call =
    | AcquireCall(id: nat)
    | FrameCall(c: Capture)
    | RefuseCall
    | DequeueCall
    | DeliverCall(e: RealEntry)
    | UnlockCall
    | UnlockStopCall
    | UnrefCall(id: nat)
    | StartStreamsCall

  type Element = s: VideoState | s.Shape()
    witness VideoState(Config(10, 0, false, Rate(25, 1)),
                       Timing(None, 0, None,
                              TimeState(seq(4 * WINDOW, _ => 0), 0, false, 1, 0, IDENTITY, IDENTITY, false)),
                       Runs.FRESH)

  function Called(s: Element, call: Call): (s': Element)
    ensures s'.cfg == s.cfg
  {
    match call
    case FrameCall(c) => FrameGot(s, c)
    case DequeueCall => s.(core := s.core.(q := Dequeued(s.core.q).0))
    case DeliverCall(e) => s.(core := s.core.(q := Released(s.core.q, e.buff.value.id)))
    case UnlockCall => s.(core := s.core.(q := Unlocked(s.core.q)))
    case UnlockStopCall => s.(core := s.core.(q := UnlockStopped(s.core.q)))
    case StartStreamsCall => StreamsStarted(s)
    case _ => s
  }

  /** A call as the signal and queue half sees it. */
  function Abstract(s: Element, call: Call): Runs.Event {
    match call
    case AcquireCall(id) => Runs.Acquire(id)
    case FrameCall(c) => Runs.Callback(Judged(s, c).1)
    case RefuseCall => Runs.Refuse
    case DequeueCall => Runs.Dequeue
    case DeliverCall(e) => Runs.Deliver(e)
    case UnlockCall => Runs.Unlock
    case UnlockStopCall => Runs.UnlockStop
    case UnrefCall(id) => Runs.Unref(id)
    case StartStreamsCall => Runs.StartStreams
  }

  /** The element, and the history of its signal and queue half. */
  datatype Moment = Moment(s: Element, sys: Runs.System)

  function Next(m: Moment, call: Call): Moment { Moment(Called(m.s, call), Runs.Step(m.sys, Abstract(m.s, call))) }

  predicate CanCall(m: Moment, call: Call) { Runs.Feasible(m.sys, Abstract(m.s, call)) }

  function AtStart(s: Element): Moment { Moment(s, Runs.Started(s.cfg.queueSize)) }

  /** Where a run of calls leads, and whether it is possible. */
  function Now(s: Element, calls: seq<Call>): Moment { Walks.After(Next, AtStart(s), calls) }

  predicate Feasible(s: Element, calls: seq<Call>) { Walks.Possible(CanCall, Next, AtStart(s), calls) }

  function AfterCalls(s: Element, calls: seq<Call>): Element { Now(s, calls).s }

  function History(s: Element, calls: seq<Call>): Runs.System { Now(s, calls).sys }

  /** A started element. */
  predicate Fresh(s: Element) { s.timing.discontTime.None? && s.timing.firstTime.None? && s.core == Runs.FRESH }

  /** The run of the signal and queue half that goes with a run of the element. */
  function Trace(s: Element, calls: seq<Call>): seq<Runs.Event>
    decreases |calls|
  {
    if calls == [] then []
    else
      var front := calls[..|calls| - 1];
      Trace(s, front) + [Abstract(AfterCalls(s, front), calls[|calls| - 1])]
  }

  /** Every run of the element is a run of its signal and queue half. */
  lemma {:induction false} RunRefines(s: Element, calls: seq<Call>)
    requires s.core == Runs.FRESH
    ensures AfterCalls(s, calls).core == History(s, calls).core && AfterCalls(s, calls).cfg == s.cfg
    ensures History(s, calls) == Runs.Exec(Runs.Started(s.cfg.queueSize), Trace(s, calls))
    ensures Feasible(s, calls) <==> Runs.FeasibleRun(Runs.Started(s.cfg.queueSize), Trace(s, calls))
    ensures |Trace(s, calls)| == |calls|
    decreases |calls|
  {
    if calls == [] {
    } else {
      var front, call := calls[..|calls| - 1], calls[|calls| - 1];
      RunRefines(s, front);
      TraceGrows(s, front, call);
      StepRefines(Now(s, front), call);
      assert calls == front + [call];
    }
  }

  lemma {:induction false} TraceGrows(s: Element, front: seq<Call>, call: Call)
    ensures
      var trace := Trace(s, front + [call]);
      && |trace| == |Trace(s, front)| + 1
      && trace[..|trace| - 1] == Trace(s, front)
      && trace[|trace| - 1] == Abstract(AfterCalls(s, front), call)
  {
    assert (front + [call])[..|front + [call]| - 1] == front;
  }

  lemma StepRefines(m: Moment, call: Call)
    requires m.s.core == m.sys.core && m.sys.size == m.s.cfg.queueSize
    ensures Next(m, call).s.core == Next(m, call).sys.core
  {}

  /** Safety of every run from a start: the queue holds the most recent accepted frames, every
      buffer has one owner, the drop counters are exact, and the next QoS message is right exactly
      when not too many drops have been reported. */
  lemma {:induction false} RunsAreSafe(s: Element, calls: seq<Call>, id: nat)
    requires Fresh(s) && Feasible(s, calls)
    ensures
      var sys := History(s, calls);
      && sys.core == AfterCalls(s, calls).core
      && Runs.MostRecent(sys) && OneOwner(Runs.OwnersOf(sys), id) && Runs.DropsExact(sys) && Runs.QosExact(sys)
  {
    RunRefines(s, calls);
    Runs.QueueIsMostRecent(s.cfg.queueSize, Trace(s, calls));
    Runs.EachReferenceReleasedOnce(s.cfg.queueSize, Trace(s, calls), id);
    Runs.DropCountersExact(s.cfg.queueSize, Trace(s, calls));
    Runs.QosRightIff(s.cfg.queueSize, Trace(s, calls));
  }

  // ------------------------------------------------------------------- concrete runs

  type Path = Walks.Walk<Moment, Call>

  /** A possible run from the start. */
  ghost predicate Walked(s: Element, p: Path) { Walks.Valid(CanCall, Next, p) && Walks.Start(p) == AtStart(s) }

  lemma WalkOn(s: Element, p: Path, call: Call) returns (p': Path)
    requires Walked(s, p) && CanCall(Walks.End(p), call)
    ensures Walked(s, p') && p'.steps == p.steps + [call] && Walks.End(p') == Next(Walks.End(p), call)
  {
    p' := Walks.Onward(CanCall, Next, p, call);
  }

  lemma WalkLeads(s: Element, p: Path)
    requires Walked(s, p)
    ensures Feasible(s, p.steps) && Now(s, p.steps) == Walks.End(p)
  {
    Walks.Leads(CanCall, Next, p);
  }

  function FrameAt(n: nat, time: nat): Capture { Capture(Some(VideoBuff(n, n, true, n + 1, 0, false)), time, None) }

  const SIGNAL_LOST: Call := FrameCall(Capture(None, 0, None))

  /** The worker takes a buffer from the pool and hands it over. */
  function Shown(m: Moment, c: Capture): Moment
    requires c.buff.Some?
  {
    Next(Next(m, AcquireCall(c.buff.value.id)), FrameCall(c))
  }

  function ShowCalls(c: Capture): seq<Call>
    requires c.buff.Some?
  {
    [AcquireCall(c.buff.value.id)] + [FrameCall(c)]
  }

  /** The frame can come next. */
  predicate CanShow(sys: Runs.System, b: VideoBuff) {
    && sys.feed.worker.None? && b.id !in Holders(Runs.OwnersOf(sys))
    && b.frameNumber > sys.feed.lastNumber && b.framesProcessed > sys.feed.lastProcessed
    && b.framesProcessed + b.framesDropped == b.frameNumber + 1
  }

  lemma ShowFeasible(m: Moment, c: Capture)
    requires c.buff.Some? && CanShow(m.sys, c.buff.value)
    ensures CanCall(m, AcquireCall(c.buff.value.id))
    ensures CanCall(Next(m, AcquireCall(c.buff.value.id)), FrameCall(c))
  {}

  /** What showing a frame does, part by part. */
  lemma ShownParts(m: Moment, c: Capture)
    requires c.buff.Some?
    ensures
      var m', o := Shown(m, c), Judged(m.s, c).1;
      && !o.NoFrame? && o.buff == c.buff.value
      && m'.s.cfg == m.s.cfg && m'.s.timing == Judged(m.s, c).0 && m'.s.core == Reacted(m.s.core, m.s.cfg.queueSize, o)
      && m'.sys.size == m.sys.size && m'.sys.core == Reacted(m.sys.core, m.sys.size, o)
      && m'.sys.feed == Runs.Feed(None, o.buff.frameNumber, o.buff.framesProcessed)
      && m'.sys.held == m.sys.held && m'.sys.downstream == m.sys.downstream && m'.sys.base == m.sys.base
  {}

  lemma WalkShow(s: Element, p: Path, c: Capture) returns (p': Path)
    requires Walked(s, p) && c.buff.Some? && CanShow(Walks.End(p).sys, c.buff.value)
    ensures Walked(s, p') && p'.steps == p.steps + ShowCalls(c) && Walks.End(p') == Shown(Walks.End(p), c)
  {
    ShowFeasible(Walks.End(p), c);
    p' := WalkOn(s, p, AcquireCall(c.buff.value.id));
    p' := WalkOn(s, p', FrameCall(c));
  }

  /** A frame that opens a new segment at time t, first in the run or at least the skip time
      after the first frame's time 0. */
  lemma OpeningFrame(s: VideoState, n: nat, t: nat)
    requires s.Shape() && s.core.signal != Available
    requires (s.timing.firstTime.None? && t == 0) || s.timing.firstTime == Some(0)
    ensures
      var (timing, o) := Judged(s, FrameAt(n, t));
      && timing.firstTime == Some(0) && timing.discontTime == Some(t) && timing.discontFrame == n
      && (if t < s.cfg.skipFirstTime then o == Skipped(FrameAt(n, t).buff.value)
          else o.Taken? && o.buff == FrameAt(n, t).buff.value)
  {
    ScaleAtLeast(0, s.cfg.rate.d * SECOND, s.cfg.rate.n, 1);
    assert StreamTime(t, n, n, s.cfg.rate) == t;
  }

  // ------------------------------------------------------------------- signal knowledge

  predicate NoFlush(calls: seq<Call>) { forall c :: c in calls ==> !c.UnlockCall? && !c.UnlockStopCall? }

  predicate OneStart(calls: seq<Call>) { forall c :: c in calls ==> !c.StartStreamsCall? }

  lemma AbstractKinds(s: Element, call: Call)
    ensures
      var ev := Abstract(s, call);
      && (ev.Unlock? <==> call.UnlockCall?) && (ev.UnlockStop? <==> call.UnlockStopCall?)
      && (ev.StartStreams? <==> call.StartStreamsCall?)
  {}

  lemma {:induction false} TraceNoFlush(s: Element, calls: seq<Call>)
    requires NoFlush(calls)
    ensures Knowledge.NoFlush(Trace(s, calls))
    decreases |calls|
  {
    if calls == [] {
    } else {
      TraceNoFlush(s, calls[..|calls| - 1]);
      AbstractKinds(AfterCalls(s, calls[..|calls| - 1]), calls[|calls| - 1]);
    }
  }

  predicate Quiet(calls: seq<Call>) { NoFlush(calls) && OneStart(calls) }

  lemma ShowingIsQuiet(calls: seq<Call>, c: Capture)
    requires Quiet(calls) && c.buff.Some?
    ensures Quiet(calls + ShowCalls(c))
  {
    assert forall call :: call in ShowCalls(c) ==> call.AcquireCall? || call.FrameCall?;
  }

  /** After one frame, with nothing taken from the queue. */
  ghost predicate OnceSeen(m: Moment, signal: SignalState) {
    var q, sys := m.s.core.q, m.sys;
    && m.s.core == sys.core && m.s.core.signal == signal
    && m.s.timing.firstTime == Some(0) && !q.flushing && q.notified == []
    && sys.feed == Runs.Feed(None, 0, 1) && sys.held.None? && sys.downstream == multiset{}
    && forall id :: id in Ids(Reals(q.frames)) ==> id == 0
  }

  lemma SuffixOfOne(front: seq<nat>, back: seq<nat>, x: nat)
    requires front + back == [x]
    ensures forall y :: y in back ==> y == x
  {
    assert forall i :: 0 <= i < |back| ==> back[i] == (front + back)[|front| + i];
  }

  lemma OnlyOwnId(k: Core, size: nat, o: Outcome)
    requires size > 0 && k == Runs.FRESH && !o.NoFrame?
    ensures forall id :: id in Ids(Reals(Reacted(k, size, o).q.frames)) ==> id == o.buff.id
  {
    Runs.CallbackEffect(k, size, o);
    assert Ids(Reals(k.q.frames)) == [];
    if Runs.Accepts(k, o) {
      SuffixOfOne(Ids(Runs.DroppedBy(k, size, o)), Ids(Reals(Reacted(k, size, o).q.frames)), o.buff.id);
    }
  }

  lemma FirstFrameShown(m: Moment)
    requires Fresh(m.s) && m.sys == Runs.Started(m.s.cfg.queueSize)
    ensures CanShow(m.sys, FrameAt(0, 0).buff.value) && OnceSeen(Shown(m, FrameAt(0, 0)), Available)
  {
    var o := Judged(m.s, FrameAt(0, 0)).1;
    OpeningFrame(m.s, 0, 0);
    OnlyOwnId(m.s.core, m.s.cfg.queueSize, o);
    Runs.CallbackEffect(m.s.core, m.s.cfg.queueSize, o);
  }

  lemma FirstFrameSeen(s: Element) returns (p: Path)
    requires Fresh(s)
    ensures Walked(s, p) && Quiet(p.steps) && OnceSeen(Walks.End(p), Available)
    ensures Walks.End(p).s.cfg == s.cfg && Walks.End(p).sys.size == s.cfg.queueSize
  {
    var m := AtStart(s);
    FirstFrameShown(m);
    p := WalkShow(s, Walks.Walk([], [m]), FrameAt(0, 0));
  }

  lemma LossSeen(m: Moment)
    requires OnceSeen(m, Available)
    ensures CanCall(m, SIGNAL_LOST) && OnceSeen(Next(m, SIGNAL_LOST), Lost)
  {
    Runs.CallbackEffect(m.s.core, m.sys.size, NoFrame);
  }

  lemma RecoveryForgotten(m: Moment)
    requires OnceSeen(m, Lost) && m.sys.size == m.s.cfg.queueSize == 1
    ensures
      var c := FrameAt(1, m.s.cfg.skipFirstTime);
      CanShow(m.sys, c.buff.value) && !Knowledge.Knows(FrameGot(m.s, c).core)
  {
    var c := FrameAt(1, m.s.cfg.skipFirstTime);
    OpeningFrame(m.s, 1, m.s.cfg.skipFirstTime);
    var o := Judged(m.s, c).1;
    Runs.CallbackEffect(m.s.core, 1, o);
    Knowledge.SizeOneForgets(m.s.core, o);
    assert 1 !in Ids(Reals(m.s.core.q.frames));
  }

  lemma LossSeenAfter(s: Element, p: Path) returns (p': Path)
    requires Walked(s, p) && OnceSeen(Walks.End(p), Available)
    ensures Walked(s, p') && OnceSeen(Walks.End(p'), Lost) && p'.steps == p.steps + [SIGNAL_LOST]
    ensures Walks.End(p').s.cfg == Walks.End(p).s.cfg && Walks.End(p').sys.size == Walks.End(p).sys.size
  {
    LossSeen(Walks.End(p));
    p' := WalkOn(s, p, SIGNAL_LOST);
  }

  lemma RecoveryForgottenAfter(s: Element, p: Path) returns (p': Path)
    requires Walked(s, p) && OnceSeen(Walks.End(p), Lost) && Walks.End(p).sys.size == Walks.End(p).s.cfg.queueSize == 1
    ensures p'.steps == p.steps + ShowCalls(FrameAt(1, Walks.End(p).s.cfg.skipFirstTime))
    ensures Walked(s, p') && !Knowledge.Knows(Walks.End(p').s.core)
  {
    RecoveryForgotten(Walks.End(p));
    p' := WalkShow(s, p, FrameAt(1, Walks.End(p).s.cfg.skipFirstTime));
  }

  /** With a queue of one, the application is told nothing of the signal after a frame, a loss and
      another frame. */
  lemma RelapseForgotten(s: Element) returns (p: Path)
    requires Fresh(s) && s.cfg.queueSize == 1
    ensures Walked(s, p) && Quiet(p.steps) && !Knowledge.Knows(Walks.End(p).s.core)
  {
    p := FirstFrameSeen(s);
    p := LossSeenAfter(s, p);
    p := RecoveryForgottenAfter(s, p);
  }

  /** Without flushing, signal knowledge survives any amount of dropping in every run, with any
      number of new starts, exactly when the queue size is at least two. */
  lemma KnowledgeSurvivesIff(s: Element)
    requires Fresh(s)
    ensures
      (forall calls :: Feasible(s, calls) && NoFlush(calls) ==> Knowledge.Knows(AfterCalls(s, calls).core))
      <==> s.cfg.queueSize >= 2
  {
    if s.cfg.queueSize >= 2 {
      forall calls | Feasible(s, calls) && NoFlush(calls)
        ensures Knowledge.Knows(AfterCalls(s, calls).core)
      {
        RunRefines(s, calls);
        TraceNoFlush(s, calls);
        Knowledge.KnowledgeHolds(s.cfg.queueSize, Trace(s, calls));
      }
    } else {
      var p := RelapseForgotten(s);
      WalkLeads(s, p);
      assert !Knowledge.Knows(AfterCalls(s, p.steps).core);
    }
  }

  /** Every end of a flush in the run comes when the changes notified agree with the signal. */
  ghost predicate AllHarmless(s: Element, calls: seq<Call>)
    decreases |calls|
  {
    calls != [] ==>
      var front := calls[..|calls| - 1];
      && AllHarmless(s, front)
      && Knowledge.Harmless(AfterCalls(s, front).core, Abstract(AfterCalls(s, front), calls[|calls| - 1]))
  }

  ghost predicate KnowsThroughout(s: Element, calls: seq<Call>)
    decreases |calls|
  {
    && Knowledge.KnowsOrFlushing(AfterCalls(s, calls).core)
    && (calls != [] ==> KnowsThroughout(s, calls[..|calls| - 1]))
  }

  /** Over every run of the element, with flushes and new starts: for a queue of two or more,
      knowledge survives throughout if and only if each flush is harmless. */
  lemma {:induction false} KnowsThroughoutIff(s: Element, calls: seq<Call>)
    requires Fresh(s) && s.cfg.queueSize >= 2
    ensures KnowsThroughout(s, calls) <==> AllHarmless(s, calls)
    decreases |calls|
  {
    RunRefines(s, calls);
    if calls == [] {
      assert Knowledge.Knows(Runs.FRESH);
    } else {
      var front, call := calls[..|calls| - 1], calls[|calls| - 1];
      KnowsThroughoutIff(s, front);
      RunRefines(s, front);
      StepRefines(Now(s, front), call);
      if KnowsThroughout(s, front) {
        Knowledge.HarmlessIff(History(s, front), Abstract(AfterCalls(s, front), call));
      }
    }
  }

  /** A flush right after the first frame discards the queued signal change for good, whatever the
      queue size: the state says available and the application has been told nothing. */
  lemma FlushForgets(s: Element) returns (p: Path)
    requires Fresh(s)
    ensures Walked(s, p) && OneStart(p.steps)
    ensures
      var k := Walks.End(p).s.core;
      k.signal == Available && !k.q.flushing && Knowledge.Story(k.q) == [] && !Knowledge.Knows(k)
  {
    p := FirstFrameSeen(s);
    p := WalkOn(s, p, UnlockCall);
    Knowledge.FlushKeepsKnowledgeIff(Walks.End(p).s.core.q, Available);
    p := WalkOn(s, p, UnlockStopCall);
  }

  // ------------------------------------------------------------------- stream time

  /** Stream time never drifts: it stays within 1 ns of the exact rational time of the frame,
      strictly increases with the frame number, and by at least a frame duration. */
  lemma StreamTimeExact(t0: nat, n0: nat, n: nat, m: nat, rate: Rate)
    requires n0 <= n < m
    ensures
      var x, y := StreamTime(t0, n0, n, rate), StreamTime(t0, n0, m, rate);
      && (x - t0) * rate.n <= (n - n0) * (rate.d * SECOND) < (x - t0 + 1) * rate.n
      && y >= x + FrameDuration(rate)
      && (rate.n <= rate.d * SECOND ==> x < y)
  {
    var p := rate.d * SECOND;
    ScaleBounds(n - n0, p, rate.n);
    ScaleSum(n - n0, m - n, p, rate.n);
    ScaleMonotone(1, m - n, p, rate.n);
    Commute(SECOND, rate.d);
    if rate.n <= p {
      ScaleStrict(n - n0, m - n0, p, rate.n);
    }
  }

  // ------------------------------------------------------------------- capture time

  /** The capture time handed to the callback, in running time. Wall-clock times are in
      microseconds, the buffer's stamp in tenths of that, pipeline times in nanoseconds. */
  function CaptureTime(nowSystem: nat, stamp: Option<nat>, nowPipeline: nat, baseTime: nat): nat {
    var captured := if stamp.Some? then stamp.value / 10 else nowSystem;
    var delay := if nowSystem >= captured && nowSystem - captured < 1_000_000 then nowSystem - captured else 0;
    var pipeline := if nowPipeline > delay then nowPipeline - delay else 0;
    if pipeline > baseTime then pipeline - baseTime else 0
  }

  /** The running time at which a frame captured delay microseconds ago was captured. */
  function TrueCaptureTime(delay: nat, nowPipeline: nat, baseTime: nat): int { nowPipeline - 1_000 * delay - baseTime }

  /** The delay is measured in microseconds and subtracted from nanoseconds. The result is the
      true capture time exactly when there is no delay; otherwise it is late by 999 ns for each
      microsecond, so by less than a millisecond. */
  lemma CaptureTimeOffByUnits(nowSystem: nat, stamp: nat, nowPipeline: nat, baseTime: nat)
    requires stamp / 10 <= nowSystem < stamp / 10 + 1_000_000
    requires nowPipeline > baseTime + nowSystem - stamp / 10
    ensures
      var delay := nowSystem - stamp / 10;
      var t := CaptureTime(nowSystem, Some(stamp), nowPipeline, baseTime);
      var exact := TrueCaptureTime(delay, nowPipeline, baseTime);
      && t - exact == 999 * delay
      && (t == exact <==> delay == 0)
  {}
}
