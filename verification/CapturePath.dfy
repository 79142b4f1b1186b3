/** The capture worker feeding the video and the audio element: what the runs of the elements take
    for granted of the worker, the worker does. */
module CapturePath {
  import opened Arithmetic
  import opened TimeMapping
  import opened BufferOwnership
  import opened CaptureWorker
  import Video = VideoSource
  import opened VideoElement
  import Walks
  import Runs = VideoRuns
  import Audio = AudioSource
  import AudioRuns

  // ------------------------------------------------------------------- video

  /** A turn of the worker loop with the buffer that the pool would give it, and what the callback
      adds; or a call of another thread. A turn is one step. */
  datatype Tick = WorkerTurn(st: Status, id: nat, time: nat, regression: Option<Mapping>) | Other(call: Call)

  function BuffOf(id: nat, f: Frame): Video.VideoBuff {
    Video.VideoBuff(id, f.frameNumber, f.haveSignal, f.framesProcessed, f.framesDropped, f.droppedChanged)
  }

  /** What the tick does to the element. */
  function CallsFor(w: Counters, tick: Tick): seq<Call> {
    match tick
    case Other(call) => [call]
    case WorkerTurn(st, id, time, regression) =>
      match Turn(w, st).1
      case Deliver(f, video, _) =>
        [AcquireCall(id)]
        + [if video == Taken then FrameCall(Video.Capture(Some(BuffOf(id, f)), time, regression)) else RefuseCall]
      case ReportNone => if st.videoTakes then [FrameCall(Video.Capture(None, time, regression))] else []
      case _ => []
  }

  /** When the streams are started again, a new worker counts from 0. */
  function WorkerAfter(w: Counters, tick: Tick): Counters {
    match tick
    case WorkerTurn(st, _, _, _) => Turn(w, st).0
    case Other(call) => if call.StartStreamsCall? then INITIAL else w
  }

  function WorkerAt(ticks: seq<Tick>): Counters
    decreases |ticks|
  {
    if ticks == [] then INITIAL else WorkerAfter(WorkerAt(ticks[..|ticks| - 1]), ticks[|ticks| - 1])
  }

  function Calls(ticks: seq<Tick>): seq<Call>
    decreases |ticks|
  {
    if ticks == [] then []
    else Calls(ticks[..|ticks| - 1]) + CallsFor(WorkerAt(ticks[..|ticks| - 1]), ticks[|ticks| - 1])
  }

  /** What the others guarantee: the pool hands out only buffers that nobody holds, and the other
      threads take what there is; none of them feeds the element. */
  predicate Fair(m: Moment, tick: Tick) {
    match tick
    case WorkerTurn(_, id, _, _) => id !in Holders(Runs.OwnersOf(m.sys))
    case Other(call) => CanCall(m, call) && !call.AcquireCall? && !call.FrameCall? && !call.RefuseCall?
  }

  ghost predicate FairRun(s: Element, ticks: seq<Tick>)
    decreases |ticks|
  {
    ticks != [] ==>
      var front := ticks[..|ticks| - 1];
      FairRun(s, front) && Fair(Now(s, Calls(front)), ticks[|ticks| - 1])
  }

  /** The worker holds nothing between turns, and its next frame will have a higher number. */
  predicate Fed(m: Moment, w: Counters) {
    && m.sys.feed.worker.None?
    && m.sys.feed.lastNumber < w.processed + w.dropped && m.sys.feed.lastProcessed <= w.processed
  }

  /** What a frame handed over, or kept back, does to the feed. */
  lemma DeliveryFeeds(m: Moment, w: Counters, tick: Tick, f: Frame)
    requires Fed(m, w) && Fair(m, tick) && tick.WorkerTurn?
    requires Turn(w, tick.st).1.Deliver? && f == Turn(w, tick.st).1.frame
    ensures
      var acquired := Next(m, AcquireCall(tick.id));
      var capture := FrameCall(Video.Capture(Some(BuffOf(tick.id, f)), tick.time, tick.regression));
      && CanCall(m, AcquireCall(tick.id)) && CanCall(acquired, capture) && CanCall(acquired, RefuseCall)
      && Fed(Next(acquired, capture), Turn(w, tick.st).0) && Fed(Next(acquired, RefuseCall), Turn(w, tick.st).0)
  {}

  lemma NoFrameFeeds(m: Moment, w: Counters, c: Video.Capture)
    requires Fed(m, w) && c.buff.None?
    ensures CanCall(m, FrameCall(c)) && Fed(Next(m, FrameCall(c)), w)
  {}

  lemma PollKeepsFed(m: Moment, w: Counters, reading: uint32)
    requires Fed(m, w)
    ensures Fed(m, Polled(w, reading))
  {}

  lemma OtherFeeds(m: Moment, w: Counters, call: Call)
    requires Fed(m, w) && Fair(m, Other(call))
    ensures Fed(Next(m, call), WorkerAfter(w, Other(call)))
  {}

  lemma TurnWalks(s: Element, p: Path, w: Counters, tick: Tick) returns (p': Path)
    requires Walked(s, p) && Fed(Walks.End(p), w) && Fair(Walks.End(p), tick) && tick.WorkerTurn?
    ensures Walked(s, p') && p'.steps == p.steps + CallsFor(w, tick) && Fed(Walks.End(p'), WorkerAfter(w, tick))
  {
    var (w', action) := Turn(w, tick.st);
    p' := p;
    match action {
      case Deliver(f, video, _) =>
        DeliveryFeeds(Walks.End(p), w, tick, f);
        p' := WalkOn(s, p, AcquireCall(tick.id));
        p' := WalkOn(s, p', CallsFor(w, tick)[1]);
        assert p'.steps == p.steps + CallsFor(w, tick);
      case ReportNone =>
        PollKeepsFed(Walks.End(p), w, tick.st.framesDropped);
        if tick.st.videoTakes {
          NoFrameFeeds(Walks.End(p), w', Video.Capture(None, tick.time, tick.regression));
          p' := WalkOn(s, p, CallsFor(w, tick)[0]);
        }
      case _ =>
        PollKeepsFed(Walks.End(p), w, tick.st.framesDropped);
    }
  }

  lemma TickWalks(s: Element, p: Path, w: Counters, tick: Tick) returns (p': Path)
    requires Walked(s, p) && Fed(Walks.End(p), w) && Fair(Walks.End(p), tick)
    ensures Walked(s, p') && p'.steps == p.steps + CallsFor(w, tick) && Fed(Walks.End(p'), WorkerAfter(w, tick))
  {
    if tick.WorkerTurn? {
      p' := TurnWalks(s, p, w, tick);
    } else {
      OtherFeeds(Walks.End(p), w, tick.call);
      p' := WalkOn(s, p, tick.call);
    }
  }

  lemma {:induction false} WorkerWalks(s: Element, ticks: seq<Tick>) returns (p: Path)
    requires FairRun(s, ticks)
    ensures Walked(s, p) && p.steps == Calls(ticks) && Fed(Walks.End(p), WorkerAt(ticks))
    decreases |ticks|
  {
    if ticks == [] {
      p := Walks.Walk([], [AtStart(s)]);
    } else {
      p := WorkerWalks(s, ticks[..|ticks| - 1]);
      WalkLeads(s, p);
      p := TickWalks(s, p, WorkerAt(ticks[..|ticks| - 1]), ticks[|ticks| - 1]);
    }
  }

  /** Whatever the device reports and however the calls of other threads fall between the turns: what
      the worker makes of it is a run of the element, so all that is proved of those runs holds. */
  lemma WorkerFeedsElement(s: Element, ticks: seq<Tick>, id: nat)
    requires Fresh(s) && FairRun(s, ticks)
    ensures Feasible(s, Calls(ticks))
    ensures
      var sys := History(s, Calls(ticks));
      Runs.MostRecent(sys) && OneOwner(Runs.OwnersOf(sys), id) && Runs.DropsExact(sys) && Runs.QosExact(sys)
  {
    var p := WorkerWalks(s, ticks);
    WalkLeads(s, p);
    RunsAreSafe(s, Calls(ticks), id);
  }

  /** The signal that the video source shows after a turn: of the right format exactly if that is what the
      worker found in the frame it handed over; lost if it told that there is none; else as before. */
  lemma TurnShowsSignal(s: Element, p: Path, w: Counters, tick: Tick) returns (p': Path)
    requires Walked(s, p) && Fed(Walks.End(p), w) && Fair(Walks.End(p), tick) && tick.WorkerTurn? && tick.st.videoTakes
    ensures Walked(s, p') && p'.steps == p.steps + CallsFor(w, tick)
    ensures
      var signal, st := Walks.End(p').s.core.signal, tick.st;
      if st.running && st.bufferLevel > 1 then signal == (if st.formatMatches then Video.Available else Video.Lost)
      else signal == Walks.End(p).s.core.signal || (signal == Video.Lost && !st.lastFrame)
  {
    p' := TurnWalks(s, p, w, tick);
    var (w', action) := Turn(w, tick.st);
    if action.Deliver? {
      p' := HandedOverWalks(s, p, w, tick, action.frame);
    } else if action.ReportNone? {
      NothingShown(Walks.End(p), Video.Capture(None, tick.time, tick.regression));
      PollKeepsFed(Walks.End(p), w, tick.st.framesDropped);
      NoFrameFeeds(Walks.End(p), w', Video.Capture(None, tick.time, tick.regression));
      p' := WalkOn(s, p, CallsFor(w, tick)[0]);
    } else {
      p' := p;
    }
  }

  /** What the video source makes of a frame that it is shown. */
  lemma FrameShowsSignal(m: Moment, id: nat, f: Frame, time: nat, regression: Option<Mapping>)
    ensures
      var c := Video.Capture(Some(BuffOf(id, f)), time, regression);
      Next(m, FrameCall(c)).s.core.signal == if f.haveSignal then Video.Available else Video.Lost
  {}

  lemma NothingShown(m: Moment, c: Video.Capture)
    requires c.buff.None?
    ensures Next(m, FrameCall(c)).s.core.signal == Video.Lost
  {}

  lemma HandedOverWalks(s: Element, p: Path, w: Counters, tick: Tick, f: Frame) returns (p': Path)
    requires Walked(s, p) && Fed(Walks.End(p), w) && Fair(Walks.End(p), tick) && tick.WorkerTurn? && tick.st.videoTakes
    requires Turn(w, tick.st).1.Deliver? && f == Turn(w, tick.st).1.frame
    ensures Walked(s, p') && p'.steps == p.steps + CallsFor(w, tick)
    ensures Walks.End(p').s.core.signal == if tick.st.formatMatches then Video.Available else Video.Lost
  {
    DeliveryFeeds(Walks.End(p), w, tick, f);
    p' := WalkOn(s, p, AcquireCall(tick.id));
    FrameShowsSignal(Walks.End(p'), tick.id, f, tick.time, tick.regression);
    p' := WalkOn(s, p', CallsFor(w, tick)[1]);
    assert p'.steps == p.steps + CallsFor(w, tick);
  }

  /** After any run, and a turn whose ready frame is taken: the signal is available if the frame had the
      right format and lost if it had not. */
  lemma {:induction false} ReadyFrameShowsSignal(s: Element, ticks: seq<Tick>, tick: Tick)
    requires Fresh(s) && FairRun(s, ticks + [tick]) && tick.WorkerTurn? && tick.st.videoTakes
    requires tick.st.running && tick.st.bufferLevel > 1
    ensures
      AfterCalls(s, Calls(ticks + [tick])).core.signal
      == if tick.st.formatMatches then Video.Available else Video.Lost
  {
    var all := ticks + [tick];
    assert all[..|all| - 1] == ticks;
    var p := WorkerWalks(s, ticks);
    WalkLeads(s, p);
    p := TurnShowsSignal(s, p, WorkerAt(ticks), tick);
    WalkLeads(s, p);
  }

  // ------------------------------------------------------------------- audio

  /** A turn of the worker loop, with what the transfer and the audio callback add; or a call of
      another thread. */
  datatype AudioTick =
    | AudioTurn(st: Status, id: nat, dataSize: nat, times: Audio.Verdict)
    | AudioOther(ev: AudioRuns.Event)

  function AudioBuffOf(id: nat, dataSize: nat, f: Frame): Audio.AudioBuff {
    Audio.AudioBuff(id, f.audioFrameNumber, f.haveSignal, dataSize,
                    f.framesProcessed, f.framesDropped, f.droppedChanged)
  }

  function EventsFor(w: Counters, tick: AudioTick): seq<AudioRuns.Event> {
    match tick
    case AudioOther(ev) => [ev]
    case AudioTurn(st, id, dataSize, times) =>
      match Turn(w, st).1
      case Deliver(f, _, audio) =>
        [AudioRuns.Acquire(id)]
        + [if audio == Taken then AudioRuns.Callback(Some(AudioBuffOf(id, dataSize, f)), times) else AudioRuns.Refuse]
      case ReportNone => if st.audioTakes then [AudioRuns.Callback(None, times)] else []
      case _ => []
  }

  function AudioWorkerAfter(w: Counters, tick: AudioTick): Counters {
    match tick
    case AudioTurn(st, _, _, _) => Turn(w, st).0
    case AudioOther(ev) => if ev.NewWorker? then INITIAL else w
  }

  function AudioWorkerAt(ticks: seq<AudioTick>): Counters
    decreases |ticks|
  {
    if ticks == [] then INITIAL else AudioWorkerAfter(AudioWorkerAt(ticks[..|ticks| - 1]), ticks[|ticks| - 1])
  }

  function Events(ticks: seq<AudioTick>): seq<AudioRuns.Event>
    decreases |ticks|
  {
    if ticks == [] then []
    else Events(ticks[..|ticks| - 1]) + EventsFor(AudioWorkerAt(ticks[..|ticks| - 1]), ticks[|ticks| - 1])
  }

  predicate AudioFair(sys: AudioRuns.System, tick: AudioTick) {
    match tick
    case AudioTurn(_, id, _, _) => id !in Holders(AudioRuns.OwnersOf(sys))
    case AudioOther(ev) => AudioRuns.Feasible(sys, ev) && !ev.Acquire? && !ev.Callback? && !ev.Refuse?
  }

  ghost predicate AudioFairRun(cfg: Audio.Config, ticks: seq<AudioTick>)
    decreases |ticks|
  {
    ticks != [] ==>
      var front := ticks[..|ticks| - 1];
      AudioFairRun(cfg, front) && AudioFair(AudioRuns.Exec(cfg, Events(front)), ticks[|ticks| - 1])
  }

  predicate AudioFed(sys: AudioRuns.System, w: Counters) {
    sys.feed.worker.None? && sys.feed.lastProcessed <= w.processed
  }

  /** The run so far is possible and leads to sys. */
  ghost predicate AudioReaches(cfg: Audio.Config, events: seq<AudioRuns.Event>, sys: AudioRuns.System) {
    AudioRuns.FeasibleRun(cfg, events) && AudioRuns.Exec(cfg, events) == sys
  }

  lemma AudioGoesOn(cfg: Audio.Config, events: seq<AudioRuns.Event>, sys: AudioRuns.System, ev: AudioRuns.Event)
    requires AudioReaches(cfg, events, sys) && AudioRuns.Feasible(sys, ev)
    ensures AudioReaches(cfg, events + [ev], AudioRuns.Step(sys, cfg, ev))
  {
    assert (events + [ev])[..|events + [ev]| - 1] == events;
  }

  lemma AudioDeliveryFeeds(sys: AudioRuns.System, cfg: Audio.Config, w: Counters, tick: AudioTick)
    requires AudioFed(sys, w) && AudioFair(sys, tick) && tick.AudioTurn? && Turn(w, tick.st).1.Deliver?
    ensures
      var events := EventsFor(w, tick);
      var acquired := AudioRuns.Step(sys, cfg, events[0]);
      && |events| == 2 && AudioRuns.Feasible(sys, events[0]) && AudioRuns.Feasible(acquired, events[1])
      && AudioFed(AudioRuns.Step(acquired, cfg, events[1]), Turn(w, tick.st).0)
  {}

  lemma AudioTurnReaches(cfg: Audio.Config, events: seq<AudioRuns.Event>, sys: AudioRuns.System, w: Counters,
                         tick: AudioTick)
    returns (sys': AudioRuns.System)
    requires AudioReaches(cfg, events, sys) && AudioFed(sys, w) && AudioFair(sys, tick) && tick.AudioTurn?
    ensures AudioReaches(cfg, events + EventsFor(w, tick), sys') && AudioFed(sys', AudioWorkerAfter(w, tick))
  {
    var more := EventsFor(w, tick);
    if Turn(w, tick.st).1.Deliver? {
      AudioDeliveryFeeds(sys, cfg, w, tick);
      AudioGoesOn(cfg, events, sys, more[0]);
      sys' := AudioRuns.Step(sys, cfg, more[0]);
      AudioGoesOn(cfg, events + [more[0]], sys', more[1]);
      sys' := AudioRuns.Step(sys', cfg, more[1]);
      assert events + [more[0]] + [more[1]] == events + more;
    } else if more != [] {
      AudioGoesOn(cfg, events, sys, more[0]);
      sys' := AudioRuns.Step(sys, cfg, more[0]);
    } else {
      sys' := sys;
      assert events + more == events;
    }
  }

  lemma AudioOtherFeeds(sys: AudioRuns.System, cfg: Audio.Config, w: Counters, ev: AudioRuns.Event)
    requires AudioFed(sys, w) && AudioFair(sys, AudioOther(ev))
    ensures AudioFed(AudioRuns.Step(sys, cfg, ev), AudioWorkerAfter(w, AudioOther(ev)))
  {}

  lemma {:induction false} WorkerReachesAudio(cfg: Audio.Config, ticks: seq<AudioTick>) returns (sys: AudioRuns.System)
    requires AudioFairRun(cfg, ticks)
    ensures AudioReaches(cfg, Events(ticks), sys) && AudioFed(sys, AudioWorkerAt(ticks))
    decreases |ticks|
  {
    if ticks == [] {
      sys := AudioRuns.FRESH;
    } else {
      var front, tick := ticks[..|ticks| - 1], ticks[|ticks| - 1];
      var before := WorkerReachesAudio(cfg, front);
      if tick.AudioTurn? {
        sys := AudioTurnReaches(cfg, Events(front), before, AudioWorkerAt(front), tick);
      } else {
        AudioOtherFeeds(before, cfg, AudioWorkerAt(front), tick.ev);
        AudioGoesOn(cfg, Events(front), before, tick.ev);
        sys := AudioRuns.Step(before, cfg, tick.ev);
      }
    }
  }

  /** The same for audio: what the worker makes of any readings is a run of the audio element. */
  lemma WorkerFeedsAudio(cfg: Audio.Config, ticks: seq<AudioTick>, id: nat)
    requires AudioFairRun(cfg, ticks)
    ensures AudioRuns.FeasibleRun(cfg, Events(ticks))
    ensures
      var sys := AudioRuns.Exec(cfg, Events(ticks));
      AudioRuns.MostRecent(sys, cfg) && OneOwner(AudioRuns.OwnersOf(sys), id) && AudioRuns.QosExact(sys)
  {
    var sys := WorkerReachesAudio(cfg, ticks);
    AudioRuns.QueueIsMostRecent(cfg, Events(ticks));
    AudioRuns.EachReferenceReleasedOnce(cfg, Events(ticks), id);
    AudioRuns.QosRightIff(cfg, Events(ticks));
  }

  lemma PacketShowsSignal(sys: AudioRuns.System, cfg: Audio.Config, w: Counters, tick: AudioTick)
    requires tick.AudioTurn? && tick.st.audioTakes && tick.st.running && tick.st.bufferLevel > 1
    ensures
      var events := EventsFor(w, tick);
      |events| == 2 && (AudioRuns.Step(sys, cfg, events[1]).q.hadSignal <==> tick.st.formatMatches)
  {}

  /** After any run, and a turn whose ready frame is taken, the audio source too has signal exactly if the
      frame had the right format. */
  lemma {:induction false} ReadyPacketShowsSignal(cfg: Audio.Config, ticks: seq<AudioTick>, tick: AudioTick)
    requires AudioFairRun(cfg, ticks + [tick]) && tick.AudioTurn? && tick.st.audioTakes
    requires tick.st.running && tick.st.bufferLevel > 1
    ensures AudioRuns.Exec(cfg, Events(ticks + [tick])).q.hadSignal <==> tick.st.formatMatches
  {
    var all, w := ticks + [tick], AudioWorkerAt(ticks);
    assert all[..|all| - 1] == ticks;
    var sys := WorkerReachesAudio(cfg, ticks);
    var sys' := AudioTurnShows(cfg, Events(ticks), sys, w, tick);
  }

  lemma {:induction false} AudioTurnShows(cfg: Audio.Config, events: seq<AudioRuns.Event>, sys: AudioRuns.System,
                                          w: Counters, tick: AudioTick)
    returns (sys': AudioRuns.System)
    requires AudioReaches(cfg, events, sys) && AudioFed(sys, w) && AudioFair(sys, tick)
    requires tick.AudioTurn? && tick.st.audioTakes && tick.st.running && tick.st.bufferLevel > 1
    ensures AudioReaches(cfg, events + EventsFor(w, tick), sys') && (sys'.q.hadSignal <==> tick.st.formatMatches)
  {
    var more := EventsFor(w, tick);
    AudioDeliveryFeeds(sys, cfg, w, tick);
    AudioGoesOn(cfg, events, sys, more[0]);
    var acquired := AudioRuns.Step(sys, cfg, more[0]);
    AudioGoesOn(cfg, events + [more[0]], acquired, more[1]);
    PacketShowsSignal(acquired, cfg, w, tick);
    sys' := AudioRuns.Step(acquired, cfg, more[1]);
    assert events + [more[0]] + [more[1]] == events + more;
  }
}
