/** The video source: the capture callback, the drop-oldest queue and the streaming side.

    Each callback and each call from the streaming side is one atomic step, except that create
    is two: Dequeue, which holds the queue lock, and Deliver, which runs after the lock is given
    up. Calls that leave the element (buffers released, messages posted) are kept as logs. */
module VideoSource {
  import opened Arithmetic
  import opened TimeMapping
  import opened DropAccounting

  datatype SignalChange = NoChange | GotSignal | RecoveredSignal | LostSignal

  datatype SignalState = Unknown | Lost | Available

  datatype VideoBuff = VideoBuff(
    id: nat, frameNumber: nat, haveSignal: bool,
    framesProcessed: nat, framesDropped: nat, droppedChanged: bool)

  /** A queue entry: a captured frame, or a placeholder without buffer that only carries a
      signal change. */
  datatype Entry = Entry(change: SignalChange, buff: Option<VideoBuff>, captureTime: nat, streamTime: nat,
                         firstBuffer: bool)

  type RealEntry = e: Entry | e.buff.Some?
    witness Entry(NoChange, Some(VideoBuff(0, 0, true, 1, 0, false)), 0, 0, false)

  datatype RawConfig = Config(queueSize: nat, skipFirstTime: nat, outputStreamTime: bool, rate: Rate)
  type Config = c: RawConfig | c.queueSize > 0 witness Config(10, 0, false, Rate(25, 1))

  /** One invocation of the capture callback: the buffer (None when the worker saw no frame),
      the capture time in running time, and what the regression would return. */
  datatype Capture = Capture(buff: Option<VideoBuff>, time: nat, regression: Option<Mapping>)

  /** The statistics of a QoS message: frames processed and frames dropped. */
  datatype Qos = Qos(processed: nat, dropped: nat)

  datatype DequeueResult = Flushing | Waiting | Frame(entry: RealEntry)

  /** What create hands downstream, and the QoS message it posts. */
  datatype Output = Output(entry: RealEntry, discont: bool, qos: Option<Qos>)

  /** The part of the element that the queue lock protects, and the logs of outgoing calls. */
  datatype Queue = Queue(
    frames: seq<Entry>, flushing: bool, skips: Skips,
    released: seq<nat>, notified: seq<SignalChange>, reports: seq<Report>)

  /** The signal state and the queue: what decides the fate of frames. */
  datatype Core = Core(signal: SignalState, q: Queue)

  /** What decides the times of frames; only the capture thread uses it. */
  datatype Timing = Timing(discontTime: Option<nat>, discontFrame: nat, firstTime: Option<nat>, time: TimeState)

  datatype VideoState = VideoState(cfg: Config, timing: Timing, core: Core)
  {
    predicate Shape() { timing.time.Shape() }
  }

  /** How the callback judges one invocation: no buffer, a buffer without signal, a frame of the
      initial stretch that is to be skipped, or a frame to enqueue with these times. */
  datatype Outcome =
    | NoFrame
    | NoSignal(buff: VideoBuff)
    | Skipped(buff: VideoBuff)
    | Taken(buff: VideoBuff, captureTime: nat, streamTime: nat)

  // ------------------------------------------------------------------- queue contents

  function Placeholder(change: SignalChange): Entry { Entry(change, None, 0, 0, false) }

  /** The entries that hold a buffer, in order. */
  function Reals(d: seq<Entry>): seq<RealEntry> {
    if d == [] then []
    else
      var e := d[|d| - 1];
      Reals(d[..|d| - 1]) + (if e.buff.Some? then [e] else [])
  }

  function Ids(d: seq<RealEntry>): seq<nat> { seq(|d|, i requires 0 <= i < |d| => d[i].buff.value.id) }

  function CaptureTimes(d: seq<RealEntry>): seq<nat> { seq(|d|, i requires 0 <= i < |d| => d[i].captureTime) }

  /** The signal changes carried by a stretch of the queue, in order. */
  function Changes(d: seq<Entry>): seq<SignalChange> {
    if d == [] then []
    else
      var e := d[|d| - 1];
      Changes(d[..|d| - 1]) + (if e.change != NoChange then [e.change] else [])
  }

  /** The change to remember from dropped entries: a recovery if there was one, else a first
      signal. A loss is forgotten. */
  function Rescued(d: seq<Entry>): SignalChange {
    if exists e :: e in d && e.change == RecoveredSignal then RecoveredSignal
    else if exists e :: e in d && e.change == GotSignal then GotSignal
    else NoChange
  }

  function WithHeadChange(d: seq<Entry>, change: SignalChange): seq<Entry> {
    if change != NoChange && d != [] then [d[0].(change := change)] + d[1..] else d
  }

  // ------------------------------------------------------------------- queue operations

  /** Appends a placeholder, unless the element is flushing. */
  function Announced(q: Queue, change: SignalChange): Queue {
    if q.flushing then q else q.(frames := q.frames + [Placeholder(change)])
  }

  function Released(q: Queue, id: nat): Queue { q.(released := q.released + [id]) }

  /** A frame that ends a burst of drops is marked as following a discontinuity. */
  function Marked(e: RealEntry, endsBurst: bool): RealEntry {
    if endsBurst then e.(buff := Some(e.buff.value.(droppedChanged := true))) else e
  }

  /** The locked section of the callback: drop the oldest entries, settle the counters, rescue
      a dropped signal change, append the new frame. */
  function Enqueued(q: Queue, size: nat, e: RealEntry): Queue
    requires size > 0
  {
    var n := Overflow(|q.frames|, size);
    var dropped, kept := q.frames[..n], q.frames[n..];
    var times := CaptureTimes(Reals(dropped));
    q.(frames := WithHeadChange(kept, Rescued(dropped)) + [Marked(e, EndsBurst(q.skips, times))],
       skips := Counted(q.skips, times),
       reports := q.reports + Posted(q.skips, times),
       released := q.released + Ids(Reals(dropped)))
  }

  function Notified(log: seq<SignalChange>, change: SignalChange): seq<SignalChange> {
    if change == NoChange then log else log + [change]
  }

  function QosOf(b: VideoBuff, skips: Skips): Option<Qos> {
    if b.droppedChanged then
      Some(Qos(Sub64(b.framesProcessed, skips.overall), b.framesDropped + skips.overall))
    else
      None
  }

  /** The locked part of gst_aja_video_src_create: pops entries until one holds a frame. Where
      the source would block, the result is Waiting. */
  function Dequeued(q: Queue): (Queue, DequeueResult)
    decreases |q.frames|
  {
    if q.flushing then (q, Flushing)
    else if q.frames == [] then (q, Waiting)
    else
      var f := q.frames[0];
      var q1 := q.(frames := q.frames[1..], notified := Notified(q.notified, f.change));
      if f.buff.None? then Dequeued(q1) else (q1, Frame(f))
  }

  /** What create makes of the frame it holds, reading the drop counter at that moment. */
  function OutputOf(e: RealEntry, skips: Skips): Output {
    Output(e, e.firstBuffer || e.buff.value.droppedChanged, QosOf(e.buff.value, skips))
  }

  function Drained(q: Queue): Queue { q.(frames := [], released := q.released + Ids(Reals(q.frames))) }

  // ------------------------------------------------------------------- capture callback

  /** Nominal time of a frame: frames since the segment started, at the nominal rate. */
  function StreamTime(discontTime: nat, discontFrame: nat, frameNumber: nat, rate: Rate): nat {
    discontTime + Scale(Sub64(frameNumber, discontFrame), rate.d * SECOND, rate.n)
  }

  predicate SkipsAtStart(cfg: Config, streamTime: nat, firstTime: nat) {
    cfg.skipFirstTime > 0 && Sub64(streamTime, firstTime) < cfg.skipFirstTime
  }

  function Timestamp(cfg: Config, current: Mapping, streamTime: nat): nat {
    if cfg.outputStreamTime then streamTime else Adjust(current, streamTime)
  }

  /** Signal found again, or first frame after a start: a new signal segment begins here. */
  function SegmentStarted(t: Timing, signal: SignalState, time: nat, frameNumber: nat): (t': Timing)
    ensures t'.discontTime.Some? && t'.time == t.time
  {
    if signal == Available && t.discontTime.Some? then t
    else t.(discontTime := Some(time), discontFrame := frameNumber)
  }

  /** Times a frame of the current segment, or skips it. */
  function FrameTimed(t: Timing, cfg: Config, b: VideoBuff, time: nat, regression: Option<Mapping>):
    (r: (Timing, Outcome))
    requires t.time.Shape() && t.discontTime.Some?
    ensures r.0.time.Shape()
  {
    var st := StreamTime(t.discontTime.value, t.discontFrame, b.frameNumber, cfg.rate);
    var t1 := t.(firstTime := if t.firstTime.None? then Some(st) else t.firstTime);
    if SkipsAtStart(cfg, st, t1.firstTime.value) then
      (t1, Skipped(b))
    else
      var t2 := t1.(time := Updated(t1.time, time, st, b.droppedChanged, cfg.rate, regression));
      (t2, Taken(b, Timestamp(cfg, t2.time.current, st), st))
  }

  /** The time half of the callback. */
  function Judged(s: VideoState, c: Capture): (r: (Timing, Outcome))
    requires s.Shape()
    ensures r.0.time.Shape()
  {
    if c.buff.None? then (s.timing, NoFrame)
    else if !c.buff.value.haveSignal then (s.timing, NoSignal(c.buff.value))
    else
      var b := c.buff.value;
      FrameTimed(SegmentStarted(s.timing, s.core.signal, c.time, b.frameNumber), s.cfg, b, c.time, c.regression)
  }

  function LossNoted(k: Core): Core {
    if k.signal == Lost then k else Core(Lost, Announced(k.q, LostSignal))
  }

  function SignalNoted(k: Core): Core {
    if k.signal == Available then k
    else Core(Available, Announced(k.q, if k.signal == Lost then RecoveredSignal else GotSignal))
  }

  /** The entry for a frame, which is the first of its segment unless there was signal before. */
  function EntryOf(o: Outcome, signal: SignalState): RealEntry
    requires o.Taken?
  {
    Entry(NoChange, Some(o.buff), o.captureTime, o.streamTime, signal != Available)
  }

  /** The signal and queue half of the callback. */
  function Reacted(k: Core, size: nat, o: Outcome): Core
    requires size > 0
  {
    match o
    case NoFrame => LossNoted(k)
    case NoSignal(b) => LossNoted(k.(q := Released(k.q, b.id)))
    case Skipped(b) => var k1 := SignalNoted(k); k1.(q := Released(k1.q, b.id))
    case Taken(b, captureTime, streamTime) =>
      var k1 := SignalNoted(k);
      if k.q.flushing then k1.(q := Released(k1.q, b.id))
      else k1.(q := Enqueued(k1.q, size, EntryOf(o, k.signal)))
  }

  /** gst_aja_video_src_got_frame. */
  function FrameGot(s: VideoState, c: Capture): (s': VideoState)
    requires s.Shape()
    ensures s'.Shape() && s'.cfg == s.cfg
  {
    var (timing, o) := Judged(s, c);
    VideoState(s.cfg, timing, Reacted(s.core, s.cfg.queueSize, o))
  }

  // ------------------------------------------------------------------- state changes

  function Unlocked(q: Queue): Queue { q.(flushing := true) }

  function UnlockStopped(q: Queue): Queue { Drained(q).(flushing := false) }

  function Stopped(k: Core): Core { Core(Unknown, Drained(k.q)) }

  function StreamsStarted(s: VideoState): VideoState {
    VideoState(s.cfg, Timing(None, 0, None, Restarted(s.timing.time)), s.core.(signal := Unknown))
  }

  function CountersCleared(q: Queue): Queue { q.(skips := NO_SKIPS) }

  // ------------------------------------------------------------------- small facts

  lemma RealsAppend(a: seq<Entry>, b: seq<Entry>)
    ensures Reals(a + b) == Reals(a) + Reals(b)
    decreases |b|
  {
    if b == [] {
      assert a + b == a;
    } else {
      assert (a + b)[..|a + b| - 1] == a + b[..|b| - 1];
      RealsAppend(a, b[..|b| - 1]);
    }
  }

  lemma RealsOne(e: Entry)
    ensures Reals([e]) == if e.buff.Some? then [e] else []
  {
    assert [e][..0] == [];
  }

  lemma ChangesAppend(a: seq<Entry>, b: seq<Entry>)
    ensures Changes(a + b) == Changes(a) + Changes(b)
    decreases |b|
  {
    if b == [] {
      assert a + b == a;
    } else {
      assert (a + b)[..|a + b| - 1] == a + b[..|b| - 1];
      ChangesAppend(a, b[..|b| - 1]);
    }
  }

  lemma ChangesOne(e: Entry)
    ensures Changes([e]) == if e.change != NoChange then [e.change] else []
  {
    assert [e][..0] == [];
  }

  lemma IdsAppend(a: seq<RealEntry>, b: seq<RealEntry>)
    ensures Ids(a + b) == Ids(a) + Ids(b)
    ensures CaptureTimes(a + b) == CaptureTimes(a) + CaptureTimes(b)
  {}

  lemma PrefixExtends(d: seq<Entry>, n: nat)
    requires n < |d|
    ensures Reals(d[..n + 1]) == Reals(d[..n]) + (if d[n].buff.Some? then [d[n]] else [])
  {
    assert d[..n + 1] == d[..n] + [d[n]];
    RealsAppend(d[..n], [d[n]]);
    RealsOne(d[n]);
  }

  /** The queue after the drop loop has removed n entries, its counters not yet settled. */
  function Dropping(q: Queue, n: nat): Queue
    requires n <= |q.frames|
  {
    var dropped := Reals(q.frames[..n]);
    q.(frames := q.frames[n..], released := q.released + Ids(dropped), skips := Burst(q.skips, CaptureTimes(dropped)))
  }

  lemma DroppingStep(q: Queue, n: nat)
    requires n < |q.frames|
    ensures
      var f, p, p' := q.frames[n], Dropping(q, n), Dropping(q, n + 1);
      var skipped := |Reals(q.frames[..n])|;
      && |Reals(q.frames[..n + 1])| == skipped + (if f.buff.Some? then 1 else 0)
      && p'.frames == p.frames[1..]
      && p'.released == p.released + (if f.buff.Some? then [f.buff.value.id] else [])
      && p'.skips ==
           (if f.buff.None? then p.skips
            else (if skipped == 0 && p.skips.last == 0 then p.skips.(from := Some(f.captureTime)) else p.skips)
                   .(to := Some(f.captureTime)))
  {
    PrefixExtends(q.frames, n);
    CountsOneMore(q, Reals(q.frames[..n]), q.frames[n]);
  }

  lemma CountsOneMore(q: Queue, before: seq<RealEntry>, f: Entry)
    ensures
      var all := before + (if f.buff.Some? then [f] else []);
      && Ids(all) == Ids(before) + (if f.buff.Some? then [f.buff.value.id] else [])
      && Burst(q.skips, CaptureTimes(all)) ==
           var b := Burst(q.skips, CaptureTimes(before));
           if f.buff.None? then b
           else (if before == [] && b.last == 0 then b.(from := Some(f.captureTime)) else b).(to := Some(f.captureTime))
  {
    BurstExtends(q.skips, CaptureTimes(before), f.captureTime);
    if f.buff.Some? {
      assert Ids(before + [f]) == Ids(before) + [f.buff.value.id];
      assert CaptureTimes(before + [f]) == CaptureTimes(before) + [f.captureTime];
    } else {
      assert before + [] == before;
    }
  }

  lemma RescuedExtends(d: seq<Entry>, f: Entry)
    ensures Rescued(d + [f]) ==
      if (f.change == GotSignal && Rescued(d) != RecoveredSignal) || f.change == RecoveredSignal then f.change
      else Rescued(d)
  {
    assert f in d + [f];
    assert forall e :: e in d + [f] <==> e in d || e == f;
  }

  // ------------------------------------------------------------------- the element

  class Source {
    const cfg: Config
    const mapper: TimeMapper
    var signal: SignalState
    var discontTime: Option<nat>
    var discontFrame: nat
    var firstTime: Option<nat>
    var frames: seq<Entry>
    var flushing: bool
    var skips: Skips
    ghost var released: seq<nat>
    ghost var notified: seq<SignalChange>
    ghost var reports: seq<Report>

    ghost predicate Valid()
      reads this, mapper
    {
      mapper.Valid()
    }

    ghost function View(): (s: VideoState)
      reads this, mapper, mapper.times
      ensures Valid() ==> s.Shape()
    {
      VideoState(cfg, TimingView(), CoreView())
    }

    ghost function TimingView(): Timing
      reads this, mapper, mapper.times
    {
      Timing(discontTime, discontFrame, firstTime, mapper.View())
    }

    ghost function CoreView(): Core
      reads this
    {
      Core(signal, QueueView())
    }

    ghost function QueueView(): Queue
      reads this
    {
      Queue(frames, flushing, skips, released, notified, reports)
    }

    constructor (cfg: Config)
      ensures Valid() && this.cfg == cfg && fresh(mapper) && fresh(mapper.times)
      ensures signal == Unknown && discontTime.None? && firstTime.None? && frames == [] && !flushing
      ensures skips == NO_SKIPS && released == [] && notified == [] && reports == []
    {
      this.cfg := cfg;
      mapper := new TimeMapper();
      signal, discontTime, discontFrame, firstTime := Unknown, None, 0, None;
      frames, flushing, skips := [], false, NO_SKIPS;
      released, notified, reports := [], [], [];
    }

    /** aja_capture_video_frame_clear, with the input open. */
    method Clear(e: Entry)
      modifies this`released
      ensures released == old(released) + if e.buff.Some? then [e.buff.value.id] else []
    {
      if e.buff.Some? {
        released := released + [e.buff.value.id];
      }
    }

    method NoteLoss()
      modifies this`signal, this`frames
      ensures CoreView() == LossNoted(old(CoreView()))
    {
      if signal != Lost {
        signal := Lost;
        if !flushing {
          frames := frames + [Placeholder(LostSignal)];
        }
      }
    }

    method StartSegment(time: nat, frameNumber: nat)
      requires Valid()
      modifies this`signal, this`frames, this`discontTime, this`discontFrame
      ensures Valid() && CoreView() == SignalNoted(old(CoreView()))
      ensures TimingView() == SegmentStarted(old(TimingView()), old(signal), time, frameNumber)
    {
      if signal != Available || discontTime.None? {
        var previous := signal;
        if signal != Available {
          signal := Available;
          if !flushing {
            frames := frames + [Placeholder(if previous == Lost then RecoveredSignal else GotSignal)];
          }
        }
        discontTime := Some(time);
        discontFrame := frameNumber;
      }
    }

    /** One turn of the drop loop: pops the oldest entry, remembers a signal change to rescue,
        and moves the ends of the current burst. q0 is the queue n turns ago. */
    method PopOldest(change: SignalChange, skipped: nat, ghost q0: Queue, ghost n: nat)
      returns (change': SignalChange, skipped': nat)
      requires n < |q0.frames| && QueueView() == Dropping(q0, n)
      requires change == Rescued(q0.frames[..n]) && skipped == |Reals(q0.frames[..n])|
      modifies this`frames, this`skips, this`released
      ensures QueueView() == Dropping(q0, n + 1)
      ensures change' == Rescued(q0.frames[..n + 1]) && skipped' == |Reals(q0.frames[..n + 1])|
    {
      DroppingStep(q0, n);
      RescuedExtends(q0.frames[..n], q0.frames[n]);
      assert q0.frames[..n + 1] == q0.frames[..n] + [q0.frames[n]];
      var f := frames[0];
      frames := frames[1..];
      change', skipped' := change, skipped;
      if (f.change == GotSignal && change != RecoveredSignal) || f.change == RecoveredSignal {
        change' := f.change;
      }
      if f.buff.Some? {
        if skipped == 0 && skips.last == 0 {
          skips := skips.(from := Some(f.captureTime));
        }
        skipped' := skipped + 1;
        skips := skips.(to := Some(f.captureTime));
      }
      Clear(f);
    }

    method DropOldest() returns (change: SignalChange, skipped: nat)
      modifies this`frames, this`skips, this`released
      ensures
        var n := Overflow(|old(frames)|, cfg.queueSize);
        && QueueView() == Dropping(old(QueueView()), n)
        && change == Rescued(old(frames)[..n])
        && skipped == |Reals(old(frames)[..n])|
    {
      change, skipped := NoChange, 0;
      ghost var q0, n := QueueView(), 0;
      assert QueueView() == Dropping(q0, 0);
      while |frames| >= cfg.queueSize
        invariant n <= Overflow(|q0.frames|, cfg.queueSize) <= |q0.frames|
        invariant QueueView() == Dropping(q0, n)
        invariant change == Rescued(q0.frames[..n])
        invariant skipped == |Reals(q0.frames[..n])|
        decreases |frames|
      {
        change, skipped := PopOldest(change, skipped, q0, n);
        n := n + 1;
      }
    }

    /** Closes a burst of drops, or adds to the one under way. */
    method SettleCounters(skipped: nat, ghost times: seq<nat>, ghost was: Skips) returns (skippedBefore: bool)
      requires skipped == |times| && skips == Burst(was, times)
      modifies this`skips, this`reports
      ensures skips == Counted(was, times) && reports == old(reports) + Posted(was, times)
      ensures skippedBefore == EndsBurst(was, times)
    {
      skippedBefore := false;
      if skipped == 0 && skips.last > 0 {
        reports := reports + [Report(skips.last, skips.from, skips.to)];
        skips := skips.(overall := skips.overall + skips.last, last := 0);
        skippedBefore := true;
      }
      skips := skips.(last := skips.last + skipped);
    }

    method Enqueue(entry: RealEntry)
      modifies this`frames, this`skips, this`released, this`reports
      ensures QueueView() == Enqueued(old(QueueView()), cfg.queueSize, entry)
    {
      ghost var n := Overflow(|frames|, cfg.queueSize);
      ghost var times := CaptureTimes(Reals(frames[..n]));
      ghost var was := skips;
      var change, skipped := DropOldest();
      var skippedBefore := SettleCounters(skipped, times, was);
      if change != NoChange && frames != [] {
        frames := [frames[0].(change := change)] + frames[1..];
      }
      var e: Entry := entry;
      if skippedBefore {
        e := e.(buff := Some(e.buff.value.(droppedChanged := true)));
      }
      frames := frames + [e];
    }

    method TimeFrame(b: VideoBuff, time: nat, regression: Option<Mapping>) returns (o: Outcome)
      requires Valid() && discontTime.Some?
      modifies this`firstTime, mapper, mapper.times
      ensures Valid() && (TimingView(), o) == FrameTimed(old(TimingView()), cfg, b, time, regression)
    {
      var st := StreamTime(discontTime.value, discontFrame, b.frameNumber, cfg.rate);
      if firstTime.None? {
        firstTime := Some(st);
      }
      if SkipsAtStart(cfg, st, firstTime.value) {
        return Skipped(b);
      }
      mapper.Update(time, st, b.droppedChanged, cfg.rate, regression);
      return Taken(b, Timestamp(cfg, mapper.current, st), st);
    }

    /** gst_aja_video_src_got_frame. */
    method GotFrame(c: Capture)
      requires Valid()
      modifies this, mapper, mapper.times
      ensures Valid() && View() == FrameGot(old(View()), c)
    {
      var buff := c.buff;
      if buff.Some? && !buff.value.haveSignal {
        released := released + [buff.value.id];
        buff := None;
      }
      if buff.None? {
        NoteLoss();
        return;
      }
      var b := buff.value;
      var hadSignal := signal == Available;
      StartSegment(c.time, b.frameNumber);
      var o := TimeFrame(b, c.time, c.regression);
      if o.Skipped? || flushing {
        released := released + [b.id];
      } else {
        Enqueue(Entry(NoChange, Some(b), o.captureTime, o.streamTime, !hadSignal));
      }
    }

    /** gst_aja_video_src_create up to the point where it gives up the queue lock. */
    method Dequeue() returns (r: DequeueResult)
      modifies this`frames, this`notified
      ensures (QueueView(), r) == Dequeued(old(QueueView()))
    {
      while true
        invariant Dequeued(QueueView()) == Dequeued(old(QueueView()))
        decreases |frames|
      {
        if flushing {
          return Flushing;
        }
        if frames == [] {
          return Waiting;
        }
        var f := frames[0];
        frames := frames[1..];
        if f.change != NoChange {
          notified := notified + [f.change];
        }
        if f.buff.Some? {
          return Frame(f);
        }
      }
    }

    /** The rest of gst_aja_video_src_create: passes the frame on and clears the entry. */
    method Deliver(e: RealEntry) returns (out: Output)
      modifies this`released
      ensures out == OutputOf(e, skips)
      ensures QueueView() == Released(old(QueueView()), e.buff.value.id)
    {
      var b := e.buff.value;
      var qos := None;
      if b.droppedChanged {
        qos := Some(Qos(Sub64(b.framesProcessed, skips.overall), b.framesDropped + skips.overall));
      }
      Clear(e);
      return Output(e, e.firstBuffer || b.droppedChanged, qos);
    }

    method Drain()
      modifies this`frames, this`released
      ensures QueueView() == Drained(old(QueueView()))
    {
      ghost var n := 0;
      ghost var was := frames;
      while frames != []
        invariant 0 <= n <= |was| && frames == was[n..]
        invariant released == old(released) + Ids(Reals(was[..n]))
        decreases |frames|
      {
        var f := frames[0];
        PrefixExtends(was, n);
        CountsOneMore(QueueView(), Reals(was[..n]), f);
        frames := frames[1..];
        Clear(f);
        n := n + 1;
      }
      assert was[..n] == was;
    }

    method Unlock()
      modifies this`flushing
      ensures QueueView() == Unlocked(old(QueueView()))
    {
      flushing := true;
    }

    method UnlockStop()
      modifies this`flushing, this`frames, this`released
      ensures QueueView() == UnlockStopped(old(QueueView()))
    {
      flushing := false;
      Drain();
    }

    method Stop()
      modifies this`signal, this`frames, this`released
      ensures CoreView() == Stopped(old(CoreView()))
    {
      Drain();
      signal := Unknown;
    }

    method StartStreams()
      requires Valid()
      modifies this, mapper
      ensures Valid() && View() == StreamsStarted(old(View()))
    {
      signal, discontTime, discontFrame, firstTime := Unknown, None, 0, None;
      mapper.Restart();
    }

    method ClearCounters()
      modifies this`skips
      ensures QueueView() == CountersCleared(old(QueueView()))
    {
      skips := NO_SKIPS;
    }
  }
}
