/** The audio source: the capture callback, which takes its times from the video source, its
    drop-oldest queue, and the streaming side, which counts samples and detects drift. As in the
    video source, create is two steps: Dequeue under the queue lock, and Deliver after it. */
module AudioSource {
  import opened Arithmetic
  import opened DropAccounting
  import Video = VideoSource

  const TIME_NONE: nat := TWO64 - 1

  datatype AudioBuff = AudioBuff(
    id: nat, frameNumber: nat, haveSignal: bool, dataSize: nat,
    framesProcessed: nat, framesDropped: nat, droppedChanged: bool)

  datatype Packet = Packet(buff: AudioBuff, captureTime: nat, streamTime: nat, firstBuffer: bool)

  /** rate is in samples per second and frameSize in bytes per sample of all channels. */
  datatype RawConfig = Config(queueSize: nat, threshold: nat, wait: nat, rate: nat, frameSize: nat)
  type Config = c: RawConfig | c.queueSize > 0 && c.rate > 0 && c.frameSize > 0
    witness Config(10, 40_000_000, 1_000_000_000, 48_000, 8)

  datatype Queue = Queue(
    packets: seq<Packet>, hadSignal: bool, flushing: bool, skips: Skips, released: seq<nat>, reports: seq<Report>)

  /** The sample counter and the drift timer of the streaming side. */
  datatype Pace = Pace(nextOffset: Option<nat>, discontTime: Option<nat>)

  datatype Stamp = Stamp(timestamp: nat, duration: nat, discont: bool)

  datatype Qos = Qos(processed: nat, dropped: nat)

  datatype DequeueResult = Flushing | Waiting | Got(packet: Packet)

  /** What create hands downstream, and the QoS message it posts. */
  datatype Output = Output(packet: Packet, stamp: Stamp, qos: Option<Qos>)

  // ------------------------------------------------------------------- queue

  function Ids(d: seq<Packet>): seq<nat> { seq(|d|, i requires 0 <= i < |d| => d[i].buff.id) }

  function CaptureTimes(d: seq<Packet>): seq<nat> { seq(|d|, i requires 0 <= i < |d| => d[i].captureTime) }

  function Released(q: Queue, id: nat): Queue { q.(released := q.released + [id]) }

  function Marked(p: Packet, endsBurst: bool): Packet {
    if endsBurst then p.(buff := p.buff.(droppedChanged := true)) else p
  }

  function Enqueued(q: Queue, size: nat, p: Packet): Queue
    requires size > 0
  {
    var n := Overflow(|q.packets|, size);
    var times := CaptureTimes(q.packets[..n]);
    q.(packets := q.packets[n..] + [Marked(p, EndsBurst(q.skips, times))],
       skips := Counted(q.skips, times),
       reports := q.reports + Posted(q.skips, times),
       released := q.released + Ids(q.packets[..n]))
  }

  function Drained(q: Queue): Queue { q.(packets := [], released := q.released + Ids(q.packets)) }

  // ------------------------------------------------------------------- capture callback

  /** The video source has seen a frame with signal since it was started. */
  predicate SeenByVideo(v: Video.VideoState) { v.timing.firstTime.Some? && v.timing.discontTime.Some? }

  function StreamTime(v: Video.VideoState, frameNumber: nat): nat
    requires SeenByVideo(v)
  {
    Video.StreamTime(v.timing.discontTime.value, v.timing.discontFrame, frameNumber, v.cfg.rate)
  }

  datatype Verdict = Skip | Times(timestamp: nat, streamTime: nat)

  /** The times of a packet, taken from the video source of the same input if there is one, or
      the decision to skip it. */
  function Judged(video: Option<Video.VideoState>, frameNumber: nat): Verdict
    requires video.Some? ==> SeenByVideo(video.value)
  {
    if video.None? then Times(TIME_NONE, TIME_NONE)
    else
      var v := video.value;
      var st := StreamTime(v, frameNumber);
      if Video.SkipsAtStart(v.cfg, st, v.timing.firstTime.value) then Skip
      else Times(Video.Timestamp(v.cfg, v.timing.time.current, st), st)
  }

  predicate HasSignal(buff: Option<AudioBuff>) { buff.Some? && buff.value.haveSignal }

  /** The packet that the callback would enqueue for this buffer. */
  function PacketOf(q: Queue, b: AudioBuff, times: Verdict): Packet
    requires times.Times?
  {
    Packet(b, times.timestamp, times.streamTime, !q.hadSignal)
  }

  /** What the callback does with a buffer, given the times of its packet or the decision to skip it. */
  function Reacted(q: Queue, cfg: Config, buff: Option<AudioBuff>, times: Verdict): Queue {
    if buff.None? then q.(hadSignal := false)
    else if !buff.value.haveSignal then Released(q.(hadSignal := false), buff.value.id)
    else if times.Skip? || q.flushing then Released(q.(hadSignal := true), buff.value.id)
    else Enqueued(q.(hadSignal := true), cfg.queueSize, PacketOf(q, buff.value, times))
  }

  /** gst_aja_audio_src_got_packet. The source asserts that the video source has been passed the
      frame first. */
  function PacketGot(q: Queue, cfg: Config, video: Option<Video.VideoState>, buff: Option<AudioBuff>): Queue
    requires HasSignal(buff) && video.Some? ==> SeenByVideo(video.value)
  {
    Reacted(q, cfg, buff, if HasSignal(buff) then Judged(video, buff.value.frameNumber) else Skip)
  }

  /** The packet is within the initial skip of the video source. On that path the callback returns
      without giving up the reference to the video source that it has taken. */
  predicate LeaksReference(video: Option<Video.VideoState>, buff: Option<AudioBuff>)
    requires HasSignal(buff) && video.Some? ==> SeenByVideo(video.value)
  {
    HasSignal(buff) && video.Some? && Judged(video, buff.value.frameNumber).Skip?
  }

  // ------------------------------------------------------------------- streaming side

  function StartOffset(cfg: Config, capture: nat): nat { Scale(capture, cfg.rate, SECOND) }

  function OffsetTime(cfg: Config, offset: nat): nat { Scale(offset, SECOND, cfg.rate) }

  /** The capture time rounded down to a whole sample. */
  function StartTime(cfg: Config, capture: nat): nat { OffsetTime(cfg, StartOffset(cfg, capture)) }

  /** The buffer is at least the alignment threshold away from the counted position. */
  predicate Outlier(cfg: Config, next: nat, capture: nat) {
    && cfg.threshold > 0 && cfg.threshold != TIME_NONE
    && Distance(StartOffset(cfg, capture), next) >= Scale(cfg.threshold, cfg.rate, SECOND)
  }

  /** Drift detection: whether to resynchronise, and the timer afterwards. */
  function Drift(cfg: Config, next: nat, timer: Option<nat>, capture: nat): (bool, Option<nat>) {
    if !Outlier(cfg, next, capture) then (false, None)
    else if cfg.wait == 0 then (true, timer)
    else if timer.None? then (false, Some(StartTime(cfg, capture)))
    else if Sub64(StartTime(cfg, capture), timer.value) >= cfg.wait then (true, None)
    else (false, timer)
  }

  /** The timestamp part of gst_aja_audio_src_create. forced is set for the first buffer with
      signal and for a buffer after a drop. */
  function Paced(cfg: Config, p: Pace, capture: nat, samples: nat, forced: bool): (Pace, Stamp) {
    var end := StartOffset(cfg, capture) + samples;
    var duration := Sub64(OffsetTime(cfg, end), StartTime(cfg, capture));
    var (discont, timer) :=
      if p.nextOffset.None? || forced then (true, p.discontTime)
      else Drift(cfg, p.nextOffset.value, p.discontTime, capture);
    if discont then
      (Pace(Some(end), None), Stamp(capture, duration, true))
    else if cfg.threshold == 0 then
      (Pace(p.nextOffset, timer), Stamp(capture, duration, false))
    else
      var next' := p.nextOffset.value + samples;
      var ts := OffsetTime(cfg, p.nextOffset.value);
      (Pace(Some(next'), timer), Stamp(ts, Sub64(OffsetTime(cfg, next'), ts), false))
  }

  function QosOf(b: AudioBuff, skips: Skips): Option<Qos> {
    if b.droppedChanged then
      Some(Qos(Sub64(b.framesProcessed, skips.overall), b.framesDropped + skips.overall))
    else
      None
  }

  /** The locked part of gst_aja_audio_src_create. Where the source would block, the result is
      Waiting. */
  function Dequeued(q: Queue): (Queue, DequeueResult) {
    if q.flushing then (q, Flushing)
    else if q.packets == [] then (q, Waiting)
    else (q.(packets := q.packets[1..]), Got(q.packets[0]))
  }

  /** How the packet that create holds is stamped. */
  function PacedBy(cfg: Config, pace: Pace, p: Packet): (Pace, Stamp) {
    Paced(cfg, pace, p.captureTime, p.buff.dataSize / cfg.frameSize, p.firstBuffer || p.buff.droppedChanged)
  }

  // ------------------------------------------------------------------- the element

  class Source {
    const cfg: Config
    var packets: seq<Packet>
    var hadSignal: bool
    var flushing: bool
    var skips: Skips
    var nextOffset: Option<nat>
    var discontTime: Option<nat>
    ghost var released: seq<nat>
    ghost var reports: seq<Report>
    /** References to the video source that the callback took and has not given up. */
    ghost var videoRefs: nat

    ghost function QueueView(): Queue
      reads this
    {
      Queue(packets, hadSignal, flushing, skips, released, reports)
    }

    ghost function PaceView(): Pace
      reads this
    {
      Pace(nextOffset, discontTime)
    }

    constructor (cfg: Config)
      ensures this.cfg == cfg && videoRefs == 0
      ensures QueueView() == Queue([], false, false, NO_SKIPS, [], []) && PaceView() == Pace(Some(0), Some(0))
    {
      this.cfg := cfg;
      packets, hadSignal, flushing, skips := [], false, false, NO_SKIPS;
      nextOffset, discontTime := Some(0), Some(0);
      released, reports, videoRefs := [], [], 0;
    }

    method DropOldest() returns (skipped: nat)
      modifies this`packets, this`skips, this`released
      ensures
        var n := Overflow(|old(packets)|, cfg.queueSize);
        && skipped == n
        && packets == old(packets)[n..]
        && released == old(released) + Ids(old(packets)[..n])
        && skips == Burst(old(skips), CaptureTimes(old(packets)[..n]))
    {
      ghost var was, skips0 := packets, skips;
      skipped := 0;
      while |packets| >= cfg.queueSize
        invariant skipped <= Overflow(|was|, cfg.queueSize) <= |was|
        invariant packets == was[skipped..]
        invariant released == old(released) + Ids(was[..skipped])
        invariant skips == Burst(skips0, CaptureTimes(was[..skipped]))
        decreases |packets|
      {
        var f := packets[0];
        BurstExtends(skips0, CaptureTimes(was[..skipped]), f.captureTime);
        assert CaptureTimes(was[..skipped + 1]) == CaptureTimes(was[..skipped]) + [f.captureTime];
        assert Ids(was[..skipped + 1]) == Ids(was[..skipped]) + [f.buff.id];
        packets := packets[1..];
        if skipped == 0 && skips.last == 0 {
          skips := skips.(from := Some(f.captureTime));
        }
        skipped := skipped + 1;
        skips := skips.(to := Some(f.captureTime));
        released := released + [f.buff.id];
      }
    }

    method Enqueue(packet: Packet)
      modifies this`packets, this`skips, this`released, this`reports
      ensures QueueView() == Enqueued(old(QueueView()), cfg.queueSize, packet)
    {
      ghost var times := CaptureTimes(packets[..Overflow(|packets|, cfg.queueSize)]);
      var skipped := DropOldest();
      assert skipped == |times|;
      var skippedBefore := false;
      if skipped == 0 && skips.last > 0 {
        reports := reports + [Report(skips.last, skips.from, skips.to)];
        skips := skips.(overall := skips.overall + skips.last, last := 0);
        skippedBefore := true;
      }
      skips := skips.(last := skips.last + skipped);
      var p := packet;
      if skippedBefore {
        p := p.(buff := p.buff.(droppedChanged := true));
      }
      packets := packets + [p];
    }

    /** gst_aja_audio_src_got_packet. */
    method GotPacket(video: Option<Video.VideoState>, buff: Option<AudioBuff>)
      requires HasSignal(buff) && video.Some? ==> SeenByVideo(video.value)
      modifies this`packets, this`hadSignal, this`skips, this`released, this`reports, this`videoRefs
      ensures QueueView() == PacketGot(old(QueueView()), cfg, video, buff)
      ensures videoRefs == old(videoRefs) + if LeaksReference(video, buff) then 1 else 0
    {
      if buff.None? || !buff.value.haveSignal {
        hadSignal := false;
        if buff.Some? {
          released := released + [buff.value.id];
        }
        return;
      }
      var b := buff.value;
      var st, ts := TIME_NONE, TIME_NONE;
      if video.Some? {
        videoRefs := videoRefs + 1;
        st := StreamTime(video.value, b.frameNumber);
        if Video.SkipsAtStart(video.value.cfg, st, video.value.timing.firstTime.value) {
          hadSignal := true;
          released := released + [b.id];
          return;
        }
        ts := Video.Timestamp(video.value.cfg, video.value.timing.time.current, st);
        videoRefs := videoRefs - 1;
      }
      var had := hadSignal;
      hadSignal := true;
      if !flushing {
        Enqueue(Packet(b, ts, st, !had));
      } else {
        released := released + [b.id];
      }
    }

    /** The timestamp part of gst_aja_audio_src_create. */
    method Timestamp(capture: nat, samples: nat, forced: bool) returns (stamp: Stamp)
      modifies this`nextOffset, this`discontTime
      ensures (PaceView(), stamp) == Paced(cfg, old(PaceView()), capture, samples, forced)
    {
      var timestamp, discont := capture, forced;
      var startOffset := Scale(capture, cfg.rate, SECOND);
      var startTime := Scale(startOffset, SECOND, cfg.rate);
      var endOffset := startOffset + samples;
      var endTime := Scale(endOffset, SECOND, cfg.rate);
      var duration := Sub64(endTime, startTime);
      if nextOffset.None? {
        discont := true;
      } else if !discont {
        var diff := if startOffset <= nextOffset.value then nextOffset.value - startOffset
                    else startOffset - nextOffset.value;
        var maxDiff := Scale(cfg.threshold, cfg.rate, SECOND);
        if cfg.threshold > 0 && cfg.threshold != TIME_NONE && diff >= maxDiff {
          if cfg.wait > 0 {
            if discontTime.None? {
              discontTime := Some(startTime);
            } else if Sub64(startTime, discontTime.value) >= cfg.wait {
              discont := true;
              discontTime := None;
            }
          } else {
            discont := true;
          }
        } else if discontTime.Some? {
          discontTime := None;
        }
      }
      if discont {
        nextOffset := Some(endOffset);
        discontTime := None;
      } else if cfg.threshold != 0 {
        timestamp := Scale(nextOffset.value, SECOND, cfg.rate);
        nextOffset := Some(nextOffset.value + samples);
        duration := Sub64(Scale(nextOffset.value, SECOND, cfg.rate), timestamp);
      }
      return Stamp(timestamp, duration, discont);
    }

    /** gst_aja_audio_src_create up to the point where it gives up the queue lock. */
    method Dequeue() returns (r: DequeueResult)
      modifies this`packets
      ensures (QueueView(), r) == Dequeued(old(QueueView()))
    {
      if flushing {
        return Flushing;
      }
      if packets == [] {
        return Waiting;
      }
      r := Got(packets[0]);
      packets := packets[1..];
    }

    /** The rest of gst_aja_audio_src_create: passes the packet on and clears it. */
    method Deliver(p: Packet) returns (out: Output)
      modifies this`released, this`nextOffset, this`discontTime
      ensures QueueView() == Released(old(QueueView()), p.buff.id)
      ensures (PaceView(), out.stamp) == PacedBy(cfg, old(PaceView()), p)
      ensures out.packet == p && out.qos == QosOf(p.buff, skips)
    {
      var samples := p.buff.dataSize / cfg.frameSize;
      var qos := None;
      if p.buff.droppedChanged {
        qos := Some(Qos(Sub64(p.buff.framesProcessed, skips.overall), p.buff.framesDropped + skips.overall));
      }
      released := released + [p.buff.id];
      var stamp := Timestamp(p.captureTime, samples, p.firstBuffer || p.buff.droppedChanged);
      return Output(p, stamp, qos);
    }

    method Drain()
      modifies this`packets, this`released
      ensures QueueView() == Drained(old(QueueView()))
    {
      ghost var n, was := 0, packets;
      while packets != []
        invariant 0 <= n <= |was| && packets == was[n..]
        invariant released == old(released) + Ids(was[..n])
        decreases |packets|
      {
        assert Ids(was[..n + 1]) == Ids(was[..n]) + [packets[0].buff.id];
        released := released + [packets[0].buff.id];
        packets := packets[1..];
        n := n + 1;
      }
      assert was[..n] == was;
    }

    /** What going to PAUSED resets: the sample counter starts afresh, the drift timer stays. */
    method Activate()
      modifies this`hadSignal, this`flushing, this`nextOffset
      ensures QueueView() == old(QueueView()).(hadSignal := false, flushing := false)
      ensures PaceView() == Pace(None, old(discontTime))
    {
      hadSignal, flushing, nextOffset := false, false, None;
    }

    method ClearCounters()
      modifies this`skips
      ensures QueueView() == old(QueueView()).(skips := NO_SKIPS)
    {
      skips := NO_SKIPS;
    }

    method Unlock()
      modifies this`flushing
      ensures QueueView() == old(QueueView()).(flushing := true)
    {
      flushing := true;
    }

    method UnlockStop()
      modifies this`flushing, this`packets, this`released
      ensures QueueView() == Drained(old(QueueView())).(flushing := false)
    {
      flushing := false;
      Drain();
    }

    method Stop()
      modifies this`packets, this`released, this`hadSignal
      ensures QueueView() == Drained(old(QueueView())).(hadSignal := false)
    {
      Drain();
      hadSignal := false;
    }
  }
}
