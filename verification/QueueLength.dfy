/** How long the video queue can get. While initial frames are skipped nothing trims the queue, and
    each time the signal comes and goes leaves two placeholders; how many frames are skipped depends
    on the clock by which capture times are taken. Each new start makes the element forget that it
    has queued a loss, so it may queue another. */
module QueueLength {
  import opened Arithmetic
  import opened TimeMapping
  import opened VideoSource
  import opened VideoElement
  import Walks
  import Runs = VideoRuns

  // ------------------------------------------------------------------- clocks

  /** The frame is not captured before the time that the segment under way gives to its number:
      the clock does not fall behind the frame numbers. */
  predicate CapturedOnTime(s: Element, call: Call) {
    call.FrameCall? && call.c.buff.Some? && call.c.buff.value.haveSignal && s.timing.discontTime.Some? ==>
      var n := call.c.buff.value.frameNumber;
      call.c.time >= StreamTime(s.timing.discontTime.value, s.timing.discontFrame, n, s.cfg.rate)
  }

  /** A possible call, on any clock or on one that keeps up. */
  predicate Allowed(onTime: bool, m: Moment, call: Call) { CanCall(m, call) && (onTime ==> CapturedOnTime(m.s, call)) }

  function Rule(onTime: bool): (Moment, Call) -> bool { (m, call) => Allowed(onTime, m, call) }

  predicate OnClock(onTime: bool, s: Element, calls: seq<Call>) {
    Walks.Possible(Rule(onTime), Next, AtStart(s), calls)
  }

  /** How often the streams are started again. */
  function Starts(calls: seq<Call>): nat
    decreases |calls|
  {
    if calls == [] then 0 else Starts(calls[..|calls| - 1]) + OneIf(calls[|calls| - 1].StartStreamsCall?)
  }

  lemma StartsAppend(calls: seq<Call>, call: Call)
    ensures Starts(calls + [call]) == Starts(calls) + OneIf(call.StartStreamsCall?)
  {
    assert (calls + [call])[..|calls + [call]| - 1] == calls;
  }

  function OneIf(b: bool): nat { if b then 1 else 0 }

  /** How many frames can be skipped at the start: the skip time in frames, rounded up. */
  function MostSkipped(cfg: Config): nat
    requires FrameDuration(cfg.rate) > 0
  {
    (cfg.skipFirstTime + FrameDuration(cfg.rate) - 1) / FrameDuration(cfg.rate)
  }

  lemma RoundedUp(a: nat, d: nat, k: nat)
    requires d > 0
    ensures k < (a + d - 1) / d <==> k * d < a
  {
    ScaleAtLeast(a + d - 1, 1, d, k + 1);
    assert (k + 1) * d == k * d + d;
  }

  // ------------------------------------------------------------------- the queue stays short

  /** After skipped frames were skipped: the last frame's stream time is that many frames after the
      first one, and once a frame was taken the skip time is over for good. */
  ghost predicate Paced(t: Timing, cfg: Config, last: int, skipped: nat, taken: bool)
    requires FrameDuration(cfg.rate) > 0
  {
    if t.firstTime.None? then t.discontTime.None? && skipped == 0 && !taken
    else
      && t.discontTime.Some? && t.discontFrame <= last && skipped <= MostSkipped(cfg)
      && Behind(StreamTime(t.discontTime.value, t.discontFrame, last, cfg.rate) - t.firstTime.value,
                cfg, skipped, taken)
  }

  /** How long after the first frame the last one is. */
  predicate Behind(elapsed: int, cfg: Config, skipped: nat, taken: bool) {
    && elapsed >= 0
    && (if taken then elapsed >= cfg.skipFirstTime
        else skipped >= 1 && elapsed >= (skipped - 1) * FrameDuration(cfg.rate))
  }

  /** The stream time of the next frame with signal is at least a frame after the last one's. */
  lemma NextStream(s: Element, c: Capture, last: nat)
    requires FrameDuration(s.cfg.rate) > 0 && s.timing.discontTime.Some? && s.timing.discontFrame <= last
    requires c.buff.Some? && c.buff.value.haveSignal && c.buff.value.frameNumber > last
    requires CapturedOnTime(s, FrameCall(c))
    ensures
      var t, n := s.timing, c.buff.value.frameNumber;
      var t' := SegmentStarted(t, s.core.signal, c.time, n);
      && t'.discontFrame <= n && t'.firstTime == t.firstTime
      && StreamTime(t'.discontTime.value, t'.discontFrame, n, s.cfg.rate)
         >= StreamTime(t.discontTime.value, t.discontFrame, last, s.cfg.rate) + FrameDuration(s.cfg.rate)
  {
    var t, n, rate := s.timing, c.buff.value.frameNumber, s.cfg.rate;
    StreamTimeExact(t.discontTime.value, t.discontFrame, last, n, rate);
    ScaleAtLeast(0, rate.d * SECOND, rate.n, 1);
  }

  predicate WasSkipped(s: Element, call: Call) { Runs.IsSkip(Abstract(s, call)) }

  predicate WasTaken(s: Element, call: Call) { Runs.IsTaken(Abstract(s, call)) }

  lemma BehindGrows(elapsed: int, elapsed': int, cfg: Config, skipped: nat, taken: bool)
    requires FrameDuration(cfg.rate) > 0 && Behind(elapsed, cfg, skipped, taken) && skipped <= MostSkipped(cfg)
    requires elapsed' >= elapsed + FrameDuration(cfg.rate)
    ensures
      if 0 <= elapsed' < cfg.skipFirstTime then
        !taken && skipped + 1 <= MostSkipped(cfg) && Behind(elapsed', cfg, skipped + 1, false)
      else Behind(elapsed', cfg, skipped, true)
  {
    var D := FrameDuration(cfg.rate);
    assert !taken ==> skipped * D == (skipped - 1) * D + D;
    RoundedUp(cfg.skipFirstTime, D, skipped);
  }

  /** A frame with signal, seen by the time half of the callback. */
  lemma FrameKeepsPace(s: Element, c: Capture, last: int, skipped: nat, taken: bool)
    requires FrameDuration(s.cfg.rate) > 0 && Paced(s.timing, s.cfg, last, skipped, taken)
    requires c.buff.Some? && c.buff.value.haveSignal && c.buff.value.frameNumber > last
    requires CapturedOnTime(s, FrameCall(c))
    ensures
      var (t', o) := Judged(s, c);
      && (o.Skipped? || o.Taken?) && (o.Skipped? ==> !taken)
      && Paced(t', s.cfg, c.buff.value.frameNumber, skipped + OneIf(o.Skipped?), taken || o.Taken?)
  {
    var t, n, rate := s.timing, c.buff.value.frameNumber, s.cfg.rate;
    var t' := SegmentStarted(t, s.core.signal, c.time, n);
    var stream := StreamTime(t'.discontTime.value, t'.discontFrame, n, rate);
    if t.firstTime.Some? {
      NextStream(s, c, last);
      var before := StreamTime(t.discontTime.value, t.discontFrame, last, rate);
      BehindGrows(before - t.firstTime.value, stream - t.firstTime.value, s.cfg, skipped, taken);
    } else {
      RoundedUp(s.cfg.skipFirstTime, FrameDuration(rate), 0);
      assert Behind(0, s.cfg, 1, false);
    }
  }

  /** Frame numbers may go on without signal. */
  lemma NumbersKeepPace(t: Timing, cfg: Config, last: int, last': int, skipped: nat, taken: bool)
    requires FrameDuration(cfg.rate) > 0 && Paced(t, cfg, last, skipped, taken) && last <= last'
    ensures Paced(t, cfg, last', skipped, taken)
  {
    if t.firstTime.Some? && last < last' {
      StreamTimeExact(t.discontTime.value, t.discontFrame, last, last', cfg.rate);
    }
  }

  predicate ShowsSignal(call: Call) { call.FrameCall? && call.c.buff.Some? && call.c.buff.value.haveSignal }

  lemma FrameParts(m: Moment, c: Capture)
    requires ShowsSignal(FrameCall(c)) && CanCall(m, FrameCall(c))
    ensures
      var m', call := Next(m, FrameCall(c)), FrameCall(c);
      && m.sys.feed.lastNumber < c.buff.value.frameNumber == m'.sys.feed.lastNumber
      && m'.s.cfg == m.s.cfg && m'.s.timing == Judged(m.s, c).0
      && (WasSkipped(m.s, call) <==> Judged(m.s, c).1.Skipped?) && (WasTaken(m.s, call) <==> Judged(m.s, c).1.Taken?)
  {}

  lemma BlankParts(m: Moment, c: Capture)
    requires !ShowsSignal(FrameCall(c)) && CanCall(m, FrameCall(c))
    ensures
      var m', call := Next(m, FrameCall(c)), FrameCall(c);
      && m.sys.feed.lastNumber <= m'.sys.feed.lastNumber && m'.s.cfg == m.s.cfg && m'.s.timing == m.s.timing
      && !WasSkipped(m.s, call) && !WasTaken(m.s, call)
  {}

  lemma OtherParts(m: Moment, call: Call)
    requires !call.FrameCall? && !call.StartStreamsCall?
    ensures
      var m' := Next(m, call);
      && m'.sys.feed.lastNumber == m.sys.feed.lastNumber && m'.s.cfg == m.s.cfg && m'.s.timing == m.s.timing
      && !WasSkipped(m.s, call) && !WasTaken(m.s, call)
  {}

  /** On any clock nothing is skipped when no skip time is set. */
  lemma NothingSkipped(s: Element, call: Call)
    requires s.cfg.skipFirstTime == 0
    ensures !WasSkipped(s, call)
  {}

  // ------------------------------------------------------------------- frames skipped in a run

  /** How often the streams were started again, how many frames were skipped in all and since the last
      start, and whether one was taken since then. */
  datatype Tally = Tally(starts: nat, inAll: nat, since: nat, taken: bool)

  function Counted(t: Tally, s: Element, call: Call): Tally {
    if call.StartStreamsCall? then Tally(t.starts + 1, t.inAll, 0, false)
    else
      var one := OneIf(WasSkipped(s, call));
      Tally(t.starts, t.inAll + one, t.since + one, t.taken || WasTaken(s, call))
  }

  function TallyOf(s: Element, calls: seq<Call>): Tally
    decreases |calls|
  {
    if calls == [] then Tally(0, 0, 0, false)
    else Counted(TallyOf(s, calls[..|calls| - 1]), AfterCalls(s, calls[..|calls| - 1]), calls[|calls| - 1])
  }

  ghost predicate InPace(m: Moment, skipped: nat, taken: bool) {
    FrameDuration(m.s.cfg.rate) > 0 && Paced(m.s.timing, m.s.cfg, m.sys.feed.lastNumber, skipped, taken)
  }

  lemma PaceKept(m: Moment, call: Call, skipped: nat, taken: bool)
    requires InPace(m, skipped, taken) && Allowed(true, m, call) && !call.StartStreamsCall?
    ensures WasSkipped(m.s, call) ==> !taken
    ensures InPace(Next(m, call), skipped + OneIf(WasSkipped(m.s, call)), taken || WasTaken(m.s, call))
  {
    if ShowsSignal(call) {
      FrameParts(m, call.c);
      FrameKeepsPace(m.s, call.c, m.sys.feed.lastNumber, skipped, taken);
    } else {
      if call.FrameCall? {
        BlankParts(m, call.c);
      } else {
        OtherParts(m, call);
      }
      NumbersKeepPace(m.s.timing, m.s.cfg, m.sys.feed.lastNumber, Next(m, call).sys.feed.lastNumber, skipped, taken);
    }
  }

  lemma StartResetsPace(m: Moment)
    requires FrameDuration(m.s.cfg.rate) > 0
    ensures InPace(Next(m, StartStreamsCall), 0, false) && !WasSkipped(m.s, StartStreamsCall)
  {}

  lemma ConfigKept(m: Moment, call: Call)
    ensures Next(m, call).s.cfg == m.s.cfg
  {}

  /** No more than most were skipped since the last start, and as many at most for each start before. */
  predicate WithinMost(t: Tally, most: nat) { t.since <= most && t.inAll <= t.starts * most + t.since }

  ghost predicate PacedBy(m: Moment, t: Tally) { InPace(m, t.since, t.taken) && WithinMost(t, MostSkipped(m.s.cfg)) }

  lemma StartKeepsWithin(t: Tally, most: nat)
    requires WithinMost(t, most)
    ensures WithinMost(Tally(t.starts + 1, t.inAll, 0, false), most)
  {
    assert (t.starts + 1) * most == t.starts * most + most;
  }

  lemma PaceOnce(m: Moment, call: Call, t: Tally)
    requires PacedBy(m, t) && Allowed(true, m, call)
    ensures PacedBy(Next(m, call), Counted(t, m.s, call)) && Next(m, call).s.cfg == m.s.cfg
  {
    ConfigKept(m, call);
    if call.StartStreamsCall? {
      StartResetsPace(m);
      StartKeepsWithin(t, MostSkipped(m.s.cfg));
    } else {
      PaceKept(m, call, t.since, t.taken);
      SkippedAtMost(Next(m, call), Counted(t, m.s, call).since, Counted(t, m.s, call).taken);
    }
  }

  /** On a clock that keeps up with the frame numbers, over every run: since each start no more
      frames are skipped than fit into the skip time, and all of them before the first that is not;
      so in all at most that many for each start. */
  lemma {:induction false} KeepsPace(s: Element, calls: seq<Call>)
    requires Fresh(s) && OnClock(true, s, calls) && FrameDuration(s.cfg.rate) > 0
    ensures PacedBy(Now(s, calls), TallyOf(s, calls)) && Now(s, calls).s.cfg == s.cfg
    decreases |calls|
  {
    if calls == [] {
      PaceAtStart(s);
    } else {
      KeepsPace(s, calls[..|calls| - 1]);
      PaceOnce(Now(s, calls[..|calls| - 1]), calls[|calls| - 1], TallyOf(s, calls[..|calls| - 1]));
    }
  }

  lemma PaceAtStart(s: Element)
    requires Fresh(s) && FrameDuration(s.cfg.rate) > 0
    ensures PacedBy(AtStart(s), Tally(0, 0, 0, false))
  {
    assert 0 * MostSkipped(s.cfg) == 0;
  }

  lemma SkippedAtMost(m: Moment, skipped: nat, taken: bool)
    requires InPace(m, skipped, taken)
    ensures skipped <= MostSkipped(m.s.cfg)
  {}

  // ------------------------------------------------------------------- the queue stays short

  ghost predicate RoomyBy(m: Moment, t: Tally) {
    && m.s.core == m.sys.core && m.sys.size == m.s.cfg.queueSize
    && Runs.Roomy(m.sys.core, m.sys.size, t.inAll, t.starts)
  }

  lemma RoomyOnce(m: Moment, call: Call, t: Tally)
    requires RoomyBy(m, t)
    ensures RoomyBy(Next(m, call), Counted(t, m.s, call)) && Next(m, call).s.cfg == m.s.cfg
  {
    StepRefines(m, call);
    AbstractKinds(m.s, call);
    ConfigKept(m, call);
    Runs.RoomyKept(m.sys, Abstract(m.s, call), t.inAll, t.starts);
  }

  /** In every run, on any clock: at most two entries over the size for each skipped frame, one for
      each new start, and one for the loss under way. */
  lemma {:induction false} LengthInAllRuns(s: Element, calls: seq<Call>)
    requires Fresh(s)
    ensures RoomyBy(Now(s, calls), TallyOf(s, calls)) && Now(s, calls).s.cfg == s.cfg
    decreases |calls|
  {
    if calls == [] {
    } else {
      LengthInAllRuns(s, calls[..|calls| - 1]);
      RoomyOnce(Now(s, calls[..|calls| - 1]), calls[|calls| - 1], TallyOf(s, calls[..|calls| - 1]));
    }
  }

  lemma CountedNone(t: Tally, s: Element, call: Call)
    requires s.cfg.skipFirstTime == 0 && t.inAll == 0
    ensures Counted(t, s, call).inAll == 0
  {
    NothingSkipped(s, call);
  }

  lemma {:induction false} NoneSkipped(s: Element, calls: seq<Call>)
    requires s.cfg.skipFirstTime == 0
    ensures Now(s, calls).s.cfg == s.cfg && TallyOf(s, calls).inAll == 0
    decreases |calls|
  {
    if calls == [] {
    } else {
      var front := calls[..|calls| - 1];
      NoneSkipped(s, front);
      ConfigKept(Now(s, front), calls[|calls| - 1]);
      CountedNone(TallyOf(s, front), AfterCalls(s, front), calls[|calls| - 1]);
    }
  }

  /** The queue exceeds its size, or twice the frames skipped so far, by at most one entry. */
  ghost predicate Short(m: Moment, t: Tally) {
    && m.s.core == m.sys.core && m.sys.size == m.s.cfg.queueSize
    && Runs.Bounded(m.sys.core, m.sys.size, t.since, t.taken)
  }

  lemma StaysShort(m: Moment, call: Call, t: Tally)
    requires Short(m, t) && PacedBy(m, t) && Allowed(true, m, call) && !call.StartStreamsCall?
    ensures Short(Next(m, call), Counted(t, m.s, call))
  {
    PaceKept(m, call, t.since, t.taken);
    StepRefines(m, call);
    AbstractKinds(m.s, call);
    ConfigKept(m, call);
    Runs.LengthKept(m.sys, Abstract(m.s, call), t.since, t.taken);
  }

  lemma {:induction false} ShortFromOneStart(s: Element, calls: seq<Call>)
    requires Fresh(s) && OnClock(true, s, calls) && FrameDuration(s.cfg.rate) > 0 && TallyOf(s, calls).starts == 0
    ensures Short(Now(s, calls), TallyOf(s, calls))
    decreases |calls|
  {
    if calls == [] {
    } else {
      var front := calls[..|calls| - 1];
      ShortFromOneStart(s, front);
      KeepsPace(s, front);
      StaysShort(Now(s, front), calls[|calls| - 1], TallyOf(s, front));
    }
  }

  lemma {:induction false} TallyCountsStarts(s: Element, calls: seq<Call>)
    ensures TallyOf(s, calls).starts == Starts(calls)
    decreases |calls|
  {
    if calls == [] {
    } else {
      TallyCountsStarts(s, calls[..|calls| - 1]);
    }
  }

  // ------------------------------------------------------------------- the signal flickers

  /** After a loss, and n times a skipped frame and another loss. The frames are step apart. */
  ghost predicate Flickered(m: Moment, n: nat, step: nat) {
    var q, timing, sys := m.s.core.q, m.s.timing, m.sys;
    && m.s.core == sys.core && sys.size == m.s.cfg.queueSize
    && |q.frames| == 2 * n + 1 && Reals(q.frames) == [] && !q.flushing && m.s.core.signal == Lost
    && sys.feed == Runs.Feed(None, n - 1, n) && sys.held.None? && sys.downstream == multiset{}
    && (if n == 0 then timing.firstTime.None? && timing.discontTime.None?
        else timing.firstTime == Some(0) && timing.discontTime == Some((n - 1) * step) && timing.discontFrame == n - 1)
  }

  lemma LossFlickers(m: Moment, step: nat)
    requires Fresh(m.s) && m == AtStart(m.s)
    ensures Allowed(true, m, SIGNAL_LOST) && Flickered(Next(m, SIGNAL_LOST), 0, step)
  {
    Runs.LossNotedKeepsReals(m.s.core);
  }

  /** Between the frame and the loss. */
  ghost predicate Lit(m: Moment, n: nat, step: nat) {
    var q, timing, sys := m.s.core.q, m.s.timing, m.sys;
    && m.s.core == sys.core && sys.size == m.s.cfg.queueSize
    && |q.frames| == 2 * n && Reals(q.frames) == [] && !q.flushing && m.s.core.signal == Available
    && sys.feed == Runs.Feed(None, n - 1, n) && sys.held.None? && sys.downstream == multiset{}
    && n > 0 && timing.firstTime == Some(0)
    && timing.discontTime == Some((n - 1) * step) && timing.discontFrame == n - 1
  }

  lemma FrameSkipped(m: Moment, n: nat, step: nat)
    requires Flickered(m, n, step) && n * step < m.s.cfg.skipFirstTime
    ensures Lit(Shown(m, FrameAt(n, n * step)), n + 1, step)
  {
    OpeningFrame(m.s, n, n * step);
    ShownParts(m, FrameAt(n, n * step));
    Runs.SignalNotedKeepsReals(m.s.core);
  }

  lemma LossFollows(m: Moment, n: nat, step: nat)
    requires Lit(m, n, step)
    ensures Allowed(true, m, SIGNAL_LOST) && Flickered(Next(m, SIGNAL_LOST), n, step)
  {
    Runs.LossNotedKeepsReals(m.s.core);
  }

  /** Frames a frame duration apart are captured on time. */
  lemma FrameOnTime(m: Moment, n: nat, step: nat)
    requires Flickered(m, n, step) && step == FrameDuration(m.s.cfg.rate)
    ensures CapturedOnTime(m.s, FrameCall(FrameAt(n, n * step)))
  {
    if n > 0 {
      var rate := m.s.cfg.rate;
      Commute(SECOND, rate.d);
      assert StreamTime((n - 1) * step, n - 1, n, rate) == (n - 1) * step + Scale(1, rate.d * SECOND, rate.n);
      assert n * step == (n - 1) * step + step;
    }
  }

  /** A walk on the clock, with so many new starts. */
  ghost predicate Ruled(onTime: bool, s: Element, p: Path, starts: nat) {
    && Walks.Valid(Rule(onTime), Next, p) && Walks.Start(p) == AtStart(s)
    && Walks.End(p).s.cfg == s.cfg && Starts(p.steps) == starts
  }

  lemma RuledOn(onTime: bool, s: Element, p: Path, starts: nat, call: Call) returns (p': Path)
    requires Ruled(onTime, s, p, starts) && Allowed(onTime, Walks.End(p), call)
    ensures Ruled(onTime, s, p', starts + OneIf(call.StartStreamsCall?)) && Walks.End(p') == Next(Walks.End(p), call)
  {
    StartsAppend(p.steps, call);
    ConfigKept(Walks.End(p), call);
    p' := Walks.Onward(Rule(onTime), Next, p, call);
  }

  /** Shows a frame. */
  lemma RuledShow(onTime: bool, s: Element, p: Path, starts: nat, c: Capture) returns (p': Path)
    requires Ruled(onTime, s, p, starts) && c.buff.Some? && CanShow(Walks.End(p).sys, c.buff.value)
    requires onTime ==> CapturedOnTime(Walks.End(p).s, FrameCall(c))
    ensures Ruled(onTime, s, p', starts) && Walks.End(p') == Shown(Walks.End(p), c)
  {
    ShowFeasible(Walks.End(p), c);
    p' := RuledOn(onTime, s, p, starts, AcquireCall(c.buff.value.id));
    p' := RuledOn(onTime, s, p', starts, FrameCall(c));
  }

  ghost predicate FlickerRun(onTime: bool, s: Element, p: Path, n: nat, step: nat) {
    Ruled(onTime, s, p, 0) && Flickered(Walks.End(p), n, step)
  }

  lemma FrameShown(onTime: bool, s: Element, p: Path, n: nat, step: nat) returns (p': Path)
    requires FlickerRun(onTime, s, p, n, step) && n * step < s.cfg.skipFirstTime
    requires onTime ==> step == FrameDuration(s.cfg.rate)
    ensures Ruled(onTime, s, p', 0) && Lit(Walks.End(p'), n + 1, step)
  {
    var m, c := Walks.End(p), FrameAt(n, n * step);
    if onTime {
      FrameOnTime(m, n, step);
    }
    p' := RuledShow(onTime, s, p, 0, c);
    FrameSkipped(m, n, step);
  }

  lemma LossShown(onTime: bool, s: Element, p: Path, n: nat, step: nat) returns (p': Path)
    requires Ruled(onTime, s, p, 0) && Lit(Walks.End(p), n, step)
    ensures FlickerRun(onTime, s, p', n, step)
  {
    LossFollows(Walks.End(p), n, step);
    p' := RuledOn(onTime, s, p, 0, SIGNAL_LOST);
  }

  lemma FlickerOnce(onTime: bool, s: Element, p: Path, n: nat, step: nat) returns (p': Path)
    requires FlickerRun(onTime, s, p, n, step) && n * step < s.cfg.skipFirstTime
    requires onTime ==> step == FrameDuration(s.cfg.rate)
    ensures FlickerRun(onTime, s, p', n + 1, step)
  {
    p' := FrameShown(onTime, s, p, n, step);
    p' := LossShown(onTime, s, p', n + 1, step);
  }

  /** Each of n frames within the skip time, with a loss after each, leaves two placeholders. */
  lemma {:induction false} FlickerFills(onTime: bool, s: Element, n: nat, step: nat) returns (p: Path)
    requires Fresh(s) && (n > 0 ==> (n - 1) * step < s.cfg.skipFirstTime)
    requires onTime ==> step == FrameDuration(s.cfg.rate)
    ensures FlickerRun(onTime, s, p, n, step)
  {
    if n == 0 {
      LossFlickers(AtStart(s), step);
      p := RuledOn(onTime, s, Walks.Walk([], [AtStart(s)]), 0, SIGNAL_LOST);
    } else {
      assert n > 1 ==> (n - 2) * step <= (n - 1) * step;
      p := FlickerFills(onTime, s, n - 1, step);
      p := FlickerOnce(onTime, s, p, n - 1, step);
    }
  }

  // ------------------------------------------------------------------- starting again and again

  lemma StartKeepsQueue(m: Moment)
    ensures CanCall(m, StartStreamsCall) && CapturedOnTime(m.s, StartStreamsCall)
    ensures Next(m, StartStreamsCall).s.core == Core(Unknown, m.s.core.q)
  {}

  ghost predicate Overfull(onTime: bool, s: Element, p: Path, starts: nat) {
    Ruled(onTime, s, p, starts) && !Runs.LengthBounded(Walks.End(p).s.core, s.cfg.queueSize)
  }

  /** A new start leaves an overfull queue overfull. */
  lemma StartOverfull(onTime: bool, s: Element, p: Path, starts: nat) returns (p': Path)
    requires Overfull(onTime, s, p, starts)
    ensures Overfull(onTime, s, p', starts + 1)
  {
    StartKeepsQueue(Walks.End(p));
    p' := RuledOn(onTime, s, p, starts, StartStreamsCall);
  }

  lemma {:induction false} StartsOverfull(onTime: bool, s: Element, p: Path, starts: nat, n: nat) returns (p': Path)
    requires Overfull(onTime, s, p, starts)
    ensures Overfull(onTime, s, p', starts + n)
    decreases n
  {
    if n == 0 {
      p' := p;
    } else {
      p' := StartOverfull(onTime, s, p, starts);
      p' := StartsOverfull(onTime, s, p', starts + 1, n - 1);
    }
  }

  /** The queue after a first frame and i others, none of them skipped: as long as it is not full each
      accepted frame has made it longer. */
  ghost predicate Filling(m: Moment, i: nat) {
    var q, t, sys := m.s.core.q, m.s.timing, m.sys;
    && m.s.core == sys.core && sys.size == m.s.cfg.queueSize && m.s.core.signal == Available && !q.flushing
    && Min(m.s.cfg.queueSize, i) <= |q.frames| <= m.s.cfg.queueSize
    && t.firstTime == Some(0) && t.discontTime == Some(0) && t.discontFrame == 0
    && sys.feed == Runs.Feed(None, NumberOf(m.s.cfg, i), i + 1) && sys.held.None? && sys.downstream == multiset{}
    && forall id :: id in Ids(Reals(q.frames)) ==> id <= i
  }

  /** Frames after the first are numbered so high that they lie beyond the skip time. */
  function NumberOf(cfg: Config, i: nat): nat { if i == 0 then 0 else cfg.skipFirstTime + i }

  function Late(cfg: Config, i: nat): Capture {
    var n := NumberOf(cfg, i);
    Capture(Some(VideoBuff(i, n, true, i + 1, n - i, false)), StreamTime(0, 0, n, cfg.rate), None)
  }

  /** A frame after the first is taken: every frame lasts a nanosecond or more, or nothing is to be
      skipped. */
  lemma LateIsTaken(s: Element, i: nat) returns (o: Outcome)
    requires i > 0 && s.core.signal == Available
    requires s.timing.firstTime == Some(0) && s.timing.discontTime == Some(0) && s.timing.discontFrame == 0
    requires s.cfg.skipFirstTime == 0 || FrameDuration(s.cfg.rate) > 0
    ensures o == Judged(s, Late(s.cfg, i)).1 && o.Taken?
    ensures Judged(s, Late(s.cfg, i)).0.(time := s.timing.time) == s.timing
  {
    var n, rate := NumberOf(s.cfg, i), s.cfg.rate;
    o := Judged(s, Late(s.cfg, i)).1;
    if s.cfg.skipFirstTime > 0 {
      Commute(SECOND, rate.d);
      LongFrames(n, rate);
    }
  }

  /** Frame n is at least n nanoseconds after frame 0. */
  lemma LongFrames(n: nat, rate: Rate)
    requires FrameDuration(rate) > 0
    ensures StreamTime(0, 0, n, rate) >= n
  {
    ScaleAtLeast(SECOND, rate.d, rate.n, 1);
    Commute(SECOND, rate.d);
    MulMonotone(rate.n, rate.d * SECOND, n);
    Commute(n, rate.d * SECOND);
    Commute(n, rate.n);
    ScaleAtLeast(n, rate.d * SECOND, rate.n, n);
  }

  lemma NextIsQueued(k: Core, size: nat, o: Outcome)
    requires size > 0 && o.Taken? && k.signal == Available && !k.q.flushing
    requires |k.q.frames| <= size
    ensures
      var k' := Reacted(k, size, o);
      && k'.signal == Available && !k'.q.flushing
      && |k'.q.frames| == Min(size, |k.q.frames| + 1)
      && (forall id :: id in Ids(Reals(k'.q.frames)) ==> id in Ids(Reals(k.q.frames)) || id == o.buff.id)
  {
    Runs.EnqueuedIds(k.q, size, EntryOf(o, Available));
  }

  lemma NextFills(m: Moment, i: nat)
    requires Filling(m, i) && (m.s.cfg.skipFirstTime == 0 || FrameDuration(m.s.cfg.rate) > 0)
    ensures Filling(Shown(m, Late(m.s.cfg, i + 1)), i + 1)
  {
    var c := Late(m.s.cfg, i + 1);
    var o := LateIsTaken(m.s, i + 1);
    ShownParts(m, c);
    NextIsQueued(m.s.core, m.sys.size, o);
  }

  lemma NextCanFill(m: Moment, i: nat)
    requires Filling(m, i)
    ensures CanShow(m.sys, Late(m.s.cfg, i + 1).buff.value) && CapturedOnTime(m.s, FrameCall(Late(m.s.cfg, i + 1)))
  {
    assert i + 1 !in Ids(Reals(m.s.core.q.frames));
  }

  lemma FirstFills(m: Moment)
    requires Fresh(m.s) && m == AtStart(m.s)
    ensures CanShow(m.sys, FrameAt(0, 0).buff.value) && CapturedOnTime(m.s, FrameCall(FrameAt(0, 0)))
    ensures Filling(Shown(m, FrameAt(0, 0)), 0)
  {
    FirstFrameShown(m);
    OpeningFrame(m.s, 0, 0);
    ShownParts(m, FrameAt(0, 0));
    FirstIsShort(m.s.cfg.queueSize, Judged(m.s, FrameAt(0, 0)).1);
  }

  lemma FirstIsShort(size: nat, o: Outcome)
    requires size > 0 && (o.Skipped? || o.Taken?)
    ensures
      var k := Reacted(Runs.FRESH, size, o);
      |k.q.frames| <= size && k.signal == Available && !k.q.flushing
  {}

  lemma FillsFirst(s: Element) returns (p: Path)
    requires Fresh(s)
    ensures Ruled(true, s, p, 0) && Filling(Walks.End(p), 0)
  {
    FirstFills(AtStart(s));
    p := RuledShow(true, s, Walks.Walk([], [AtStart(s)]), 0, FrameAt(0, 0));
  }

  lemma FillsOnce(s: Element, p: Path, i: nat) returns (p': Path)
    requires Ruled(true, s, p, 0) && Filling(Walks.End(p), i)
    requires s.cfg.skipFirstTime == 0 || FrameDuration(s.cfg.rate) > 0
    ensures Ruled(true, s, p', 0) && Filling(Walks.End(p'), i + 1)
  {
    NextCanFill(Walks.End(p), i);
    NextFills(Walks.End(p), i);
    p' := RuledShow(true, s, p, 0, Late(s.cfg, i + 1));
  }

  lemma {:induction false} Fills(s: Element, i: nat) returns (p: Path)
    requires Fresh(s) && (s.cfg.skipFirstTime == 0 || FrameDuration(s.cfg.rate) > 0)
    ensures Ruled(true, s, p, 0) && Filling(Walks.End(p), i)
  {
    if i == 0 {
      p := FillsFirst(s);
    } else {
      p := Fills(s, i - 1);
      p := FillsOnce(s, p, i - 1);
    }
  }

  /** A full queue, and k placeholders of losses in it; the last loss under way. */
  predicate LostAgain(m: Moment, k: nat) {
    && m.s.core.signal == Lost && !m.s.core.q.flushing && m.sys.feed.worker.None?
    && |m.s.core.q.frames| == m.s.cfg.queueSize + k
  }

  lemma LossIsQueued(m: Moment, length: nat)
    requires m.s.core.signal != Lost && !m.s.core.q.flushing && m.sys.feed.worker.None?
    requires |m.s.core.q.frames| == m.s.cfg.queueSize + length
    ensures Allowed(true, m, SIGNAL_LOST) && LostAgain(Next(m, SIGNAL_LOST), length + 1)
  {}

  lemma StartForgetsLoss(m: Moment, length: nat)
    requires LostAgain(m, length)
    ensures
      var m' := Next(m, StartStreamsCall);
      && Allowed(true, m, StartStreamsCall) && m'.s.core.signal == Unknown && !m'.s.core.q.flushing
      && m'.sys.feed.worker.None? && |m'.s.core.q.frames| == m'.s.cfg.queueSize + length
  {}

  lemma LoseAgain(s: Element, p: Path, n: nat) returns (p': Path)
    requires Ruled(true, s, p, n) && LostAgain(Walks.End(p), n + 1)
    ensures Ruled(true, s, p', n + 1) && LostAgain(Walks.End(p'), n + 2)
  {
    StartForgetsLoss(Walks.End(p), n + 1);
    p' := RuledOn(true, s, p, n, StartStreamsCall);
    LossIsQueued(Walks.End(p'), n + 1);
    p' := RuledOn(true, s, p', n + 1, SIGNAL_LOST);
  }

  /** The run with n new starts, and nothing skipped that would count, in which the queue exceeds its
      size by one entry for each of them and one more: it fills up, the signal is lost, and after each
      start it is lost again. */
  lemma {:induction false} StartsAttain(s: Element, n: nat) returns (p: Path)
    requires Fresh(s) && (s.cfg.skipFirstTime == 0 || FrameDuration(s.cfg.rate) > 0)
    ensures Ruled(true, s, p, n) && LostAgain(Walks.End(p), n + 1)
  {
    if n == 0 {
      p := Fills(s, s.cfg.queueSize);
      LossIsQueued(Walks.End(p), 0);
      p := RuledOn(true, s, p, 0, SIGNAL_LOST);
    } else {
      p := StartsAttain(s, n - 1);
      p := LoseAgain(s, p, n - 1);
    }
  }

  lemma OnTimeIsAnyClock(s: Element, p: Path, starts: nat)
    requires Ruled(true, s, p, starts)
    ensures Ruled(false, s, p, starts)
  {
    forall i {:trigger p.steps[i]} | 0 <= i < |p.steps|
      ensures Rule(false)(p.states[i], p.steps[i])
    {
      assert Rule(true)(p.states[i], p.steps[i]);
    }
  }

  /** A run with n new starts that overfills the queue. */
  lemma Overfills(onTime: bool, s: Element, n: nat, k: nat, step: nat) returns (calls: seq<Call>)
    requires Fresh(s) && 2 * k > s.cfg.queueSize && (k - 1) * step < s.cfg.skipFirstTime
    requires onTime ==> step == FrameDuration(s.cfg.rate)
    ensures OnClock(onTime, s, calls) && Starts(calls) == n
    ensures !Runs.LengthBounded(AfterCalls(s, calls).core, s.cfg.queueSize)
  {
    var p := FlickerFills(onTime, s, k, step);
    p := StartsOverfull(onTime, s, p, 0, n);
    Walks.Leads(Rule(onTime), Next, p);
    calls := p.steps;
  }

  lemma StartsOverfill(onTime: bool, s: Element, n: nat) returns (calls: seq<Call>)
    requires Fresh(s) && n > 0 && (s.cfg.skipFirstTime == 0 || FrameDuration(s.cfg.rate) > 0)
    ensures OnClock(onTime, s, calls) && Starts(calls) == n
    ensures !Runs.LengthBounded(AfterCalls(s, calls).core, s.cfg.queueSize)
  {
    var p := StartsAttain(s, n);
    OnTimeIsAnyClock(s, p, n);
    Walks.Leads(Rule(onTime), Next, p);
    calls := p.steps;
  }

  // ------------------------------------------------------------------- theorems

  /** The queue exceeds its size by at most one entry in every run of the kind. */
  ghost predicate AllBounded(onTime: bool, s: Element, n: nat) {
    forall calls :: OnClock(onTime, s, calls) && Starts(calls) == n ==>
      Runs.LengthBounded(AfterCalls(s, calls).core, s.cfg.queueSize)
  }

  /** On any clock, even one that stands still as capture times do before the base time: all runs with
      n new starts stay within one entry over the size exactly when no skip time is set and there is no
      new start. */
  lemma LengthBoundedIff(s: Element, n: nat)
    requires Fresh(s)
    ensures AllBounded(false, s, n) <==> s.cfg.skipFirstTime == 0 && n == 0
  {
    if s.cfg.skipFirstTime > 0 {
      assert s.cfg.queueSize * 0 == 0;
      var calls := Overfills(false, s, n, s.cfg.queueSize + 1, 0);
    } else if n > 0 {
      var calls := StartsOverfill(false, s, n);
    } else {
      forall calls | OnClock(false, s, calls) && Starts(calls) == 0
        ensures Runs.LengthBounded(AfterCalls(s, calls).core, s.cfg.queueSize)
      {
        NoneSkipped(s, calls);
        LengthInAllRuns(s, calls);
        TallyCountsStarts(s, calls);
      }
    }
  }

  /** On a clock that keeps up with the frame numbers: exactly when there is no new start and the queue
      has room for two placeholders for each frame that fits into the skip time. */
  lemma LengthBoundedOnTimeIff(s: Element, n: nat)
    requires Fresh(s) && FrameDuration(s.cfg.rate) > 0
    ensures AllBounded(true, s, n) <==> 2 * MostSkipped(s.cfg) <= s.cfg.queueSize && n == 0
  {
    var k := MostSkipped(s.cfg);
    if 2 * k > s.cfg.queueSize {
      RoundedUp(s.cfg.skipFirstTime, FrameDuration(s.cfg.rate), k - 1);
      var calls := Overfills(true, s, n, k, FrameDuration(s.cfg.rate));
    } else if n > 0 {
      var calls := StartsOverfill(true, s, n);
    } else {
      forall calls | OnClock(true, s, calls) && Starts(calls) == 0
        ensures Runs.LengthBounded(AfterCalls(s, calls).core, s.cfg.queueSize)
      {
        TallyCountsStarts(s, calls);
        KeepsPace(s, calls);
        ShortFromOneStart(s, calls);
      }
    }
  }

  /** Room for the skipped frames of each start, one entry for each new start, and one more. */
  predicate LengthWithin(m: Moment, starts: nat)
    requires FrameDuration(m.s.cfg.rate) > 0
  {
    |m.s.core.q.frames| <= m.s.cfg.queueSize + 2 * ((starts + 1) * MostSkipped(m.s.cfg)) + starts + Runs.Slack(m.s.core)
  }

  lemma PacedLength(m: Moment, t: Tally)
    requires PacedBy(m, t) && RoomyBy(m, t)
    ensures LengthWithin(m, t.starts)
  {
    assert (t.starts + 1) * MostSkipped(m.s.cfg) == t.starts * MostSkipped(m.s.cfg) + MostSkipped(m.s.cfg);
  }

  /** In every run on such a clock, with any number of starts. */
  lemma LengthOnTime(s: Element, calls: seq<Call>)
    requires Fresh(s) && OnClock(true, s, calls) && FrameDuration(s.cfg.rate) > 0
    ensures Now(s, calls).s.cfg == s.cfg && LengthWithin(Now(s, calls), Starts(calls))
  {
    KeepsPace(s, calls);
    LengthInAllRuns(s, calls);
    TallyCountsStarts(s, calls);
    PacedLength(Now(s, calls), TallyOf(s, calls));
  }
}
