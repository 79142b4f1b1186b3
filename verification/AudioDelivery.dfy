/** What the audio source delivers in a run: the stamps of its packets, told by their own capture times,
    sizes and flags. */
module AudioDelivery {
  import opened Arithmetic
  import opened AudioSource
  import opened AudioTiming
  import AudioRuns

  // ------------------------------------------------------------------- runs with the pace carried along

  datatype Delivered = Delivered(packet: Packet, stamp: Stamp)

  /** The run so far: the queue and its history, the pace of the streaming side, and what was delivered. */
  datatype Play = Play(sys: AudioRuns.System, pace: Pace, out: seq<Delivered>)

  function Step(play: Play, cfg: Config, ev: AudioRuns.Event): Play {
    var sys' := AudioRuns.Step(play.sys, cfg, ev);
    if ev.Deliver? then
      var (pace', stamp) := PacedBy(cfg, play.pace, ev.p);
      Play(sys', pace', play.out + [Delivered(ev.p, stamp)])
    else play.(sys := sys')
  }

  /** A run of an element that has been activated, with the pace it had then. */
  function Exec(cfg: Config, pace: Pace, events: seq<AudioRuns.Event>): Play
    decreases |events|
  {
    if events == [] then Play(AudioRuns.FRESH, pace, [])
    else Step(Exec(cfg, pace, events[..|events| - 1]), cfg, events[|events| - 1])
  }

  /** The run of the queue goes on as it does without the pace. */
  lemma {:induction false} SameQueue(cfg: Config, pace: Pace, events: seq<AudioRuns.Event>)
    ensures Exec(cfg, pace, events).sys == AudioRuns.Exec(cfg, events)
    decreases |events|
  {
    if events == [] {
    } else {
      SameQueue(cfg, pace, events[..|events| - 1]);
    }
  }

  // ------------------------------------------------------------------- what a packet holds

  /** The whole samples, of all channels, in a packet. */
  function SamplesIn(cfg: Config, p: Packet): nat { p.buff.dataSize / cfg.frameSize }

  lemma SamplesExact(cfg: Config, p: Packet)
    ensures SamplesIn(cfg, p) * cfg.frameSize <= p.buff.dataSize < (SamplesIn(cfg, p) + 1) * cfg.frameSize
  {
    FloorBounds(p.buff.dataSize, cfg.frameSize);
  }

  /** The packet is the first with signal, or frames were dropped before it. */
  predicate Flagged(p: Packet) { p.firstBuffer || p.buff.droppedChanged }

  function InputOf(cfg: Config, p: Packet): Input { Input(p.captureTime, SamplesIn(cfg, p), Flagged(p)) }

  function Inputs(cfg: Config, out: seq<Delivered>): seq<Input> {
    seq(|out|, i requires 0 <= i < |out| => InputOf(cfg, out[i].packet))
  }

  // ------------------------------------------------------------------- the stamps

  lemma {:induction false} PaceOfPrefix(cfg: Config, p: Pace, run: seq<Input>, next: Input, i: nat)
    requires i <= |run|
    ensures PaceAt(cfg, p, run + [next], i) == PaceAt(cfg, p, run, i)
  {
    if i == 0 {
    } else {
      PaceOfPrefix(cfg, p, run, next, i - 1);
      assert (run + [next])[i - 1] == run[i - 1];
    }
  }

  /** The delivered packets' stamps are those of their inputs. */
  ghost predicate Stamped(cfg: Config, pace: Pace, out: seq<Delivered>) {
    forall i :: 0 <= i < |out| ==> out[i].stamp == StampAt(cfg, pace, Inputs(cfg, out), i)
  }

  ghost predicate StampsAre(cfg: Config, pace: Pace, now: Pace, out: seq<Delivered>) {
    now == PaceAt(cfg, pace, Inputs(cfg, out), |out|) && Stamped(cfg, pace, out)
  }

  lemma {:induction false} StampOfPrefix(cfg: Config, p: Pace, run: seq<Input>, next: Input, i: nat)
    requires i < |run|
    ensures StampAt(cfg, p, run + [next], i) == StampAt(cfg, p, run, i)
  {
    PaceOfPrefix(cfg, p, run, next, i);
    assert (run + [next])[i] == run[i];
  }

  lemma {:induction false} NextStamp(cfg: Config, p: Pace, run: seq<Input>, next: Input)
    ensures
      var (pace', stamp) := Paced(cfg, PaceAt(cfg, p, run, |run|), next.capture, next.samples, next.forced);
      && PaceAt(cfg, p, run + [next], |run| + 1) == pace'
      && StampAt(cfg, p, run + [next], |run|) == stamp
  {
    PaceOfPrefix(cfg, p, run, next, |run|);
    assert (run + [next])[|run|] == next;
  }

  lemma {:induction false} DeliveryPaced(cfg: Config, play: Play, p: Packet)
    ensures
      var play', i := Step(play, cfg, AudioRuns.Deliver(p)), InputOf(cfg, p);
      var (pace', stamp) := Paced(cfg, play.pace, i.capture, i.samples, i.forced);
      && play'.pace == pace' && play'.out == play.out + [Delivered(p, stamp)]
      && Inputs(cfg, play'.out) == Inputs(cfg, play.out) + [i]
  {}

  lemma {:induction false} OldStamps(cfg: Config, pace: Pace, out: seq<Delivered>, next: Input)
    requires Stamped(cfg, pace, out)
    ensures forall i :: 0 <= i < |out| ==> out[i].stamp == StampAt(cfg, pace, Inputs(cfg, out) + [next], i)
  {
    forall i | 0 <= i < |out| ensures out[i].stamp == StampAt(cfg, pace, Inputs(cfg, out) + [next], i) {
      StampOfPrefix(cfg, pace, Inputs(cfg, out), next, i);
    }
  }

  lemma {:induction false} InputsGrow(cfg: Config, out: seq<Delivered>, d: Delivered)
    ensures Inputs(cfg, out + [d]) == Inputs(cfg, out) + [InputOf(cfg, d.packet)]
  {}

  lemma {:induction false} AllStamps(cfg: Config, pace: Pace, out: seq<Delivered>, run: seq<Input>, d: Delivered)
    requires run == Inputs(cfg, out + [d])
    requires forall i :: 0 <= i < |out| ==> out[i].stamp == StampAt(cfg, pace, run, i)
    requires d.stamp == StampAt(cfg, pace, run, |out|)
    ensures Stamped(cfg, pace, out + [d])
  {}

  lemma {:induction false} OneMoreStamp(cfg: Config, pace: Pace, now: Pace, out: seq<Delivered>, p: Packet, now': Pace,
                                        stamp: Stamp)
    requires StampsAre(cfg, pace, now, out)
    requires
      var i := InputOf(cfg, p);
      (now', stamp) == Paced(cfg, now, i.capture, i.samples, i.forced)
    ensures StampsAre(cfg, pace, now', out + [Delivered(p, stamp)])
  {
    var before, next, d := Inputs(cfg, out), InputOf(cfg, p), Delivered(p, stamp);
    InputsGrow(cfg, out, d);
    NextStamp(cfg, pace, before, next);
    OldStamps(cfg, pace, out, next);
    AllStamps(cfg, pace, out, before + [next], d);
  }

  /** The stamps of the packets that a run delivers are those of their own capture times, samples and
      flags. */
  lemma {:induction false} StampsInRuns(cfg: Config, pace: Pace, events: seq<AudioRuns.Event>)
    ensures StampsAre(cfg, pace, Exec(cfg, pace, events).pace, Exec(cfg, pace, events).out)
    decreases |events|
  {
    if events == [] {
    } else {
      var front, ev := events[..|events| - 1], events[|events| - 1];
      StampsInRuns(cfg, pace, front);
      StampsOnce(cfg, pace, Exec(cfg, pace, front), ev);
    }
  }

  lemma {:induction false} StampsOnce(cfg: Config, pace: Pace, play: Play, ev: AudioRuns.Event)
    requires StampsAre(cfg, pace, play.pace, play.out)
    ensures StampsAre(cfg, pace, Step(play, cfg, ev).pace, Step(play, cfg, ev).out)
  {
    if ev.Deliver? {
      var play' := Step(play, cfg, ev);
      DeliveryPaced(cfg, play, ev.p);
      OneMoreStamp(cfg, pace, play.pace, play.out, ev.p, play'.pace, play'.out[|play.out|].stamp);
    }
  }

  // ------------------------------------------------------------------- what is delivered

  /** None of these packets was resynchronised. */
  predicate NoneResynced(out: seq<Delivered>, from: nat, upto: nat)
    requires from <= upto <= |out|
  {
    forall k :: from <= k < upto ==> !out[k].stamp.discont
  }

  /** The samples of the packets from, ..., upto - 1. */
  function Total(cfg: Config, out: seq<Delivered>, from: nat, upto: nat): nat
    requires from <= upto <= |out|
    decreases upto
  {
    if from == upto then 0 else Total(cfg, out, from, upto - 1) + SamplesIn(cfg, out[upto - 1].packet)
  }

  lemma {:induction false} TotalIs(cfg: Config, out: seq<Delivered>, from: nat, upto: nat)
    requires from <= upto <= |out|
    ensures Total(cfg, out, from, upto) == Samples(Inputs(cfg, out), from, upto)
    decreases upto
  {
    if from == upto {
    } else {
      TotalIs(cfg, out, from, upto - 1);
    }
  }

  /** The stamp is the time of the samples before it, and lasts to the time of those up to its end. */
  predicate Counted(cfg: Config, stamp: Stamp, before: nat, samples: nat) {
    && stamp.timestamp == OffsetTime(cfg, before)
    && stamp.timestamp + stamp.duration == OffsetTime(cfg, before + samples)
  }

  lemma {:induction false} InputsCount(cfg: Config, pace: Pace, run: seq<Input>, r: nat, k: nat)
    requires r < k < |run| && cfg.threshold != 0
    requires StampAt(cfg, pace, run, r).discont && Counting(cfg, pace, run, r + 1, k + 1)
    ensures
      Counted(cfg, StampAt(cfg, pace, run, k), StartOffset(cfg, run[r].capture) + Samples(run, r, k), run[k].samples)
  {
    TimestampsCountSamples(cfg, pace, run, r, k);
  }

  lemma {:induction false} DeliveredCounting(cfg: Config, pace: Pace, out: seq<Delivered>, from: nat, upto: nat)
    requires from <= upto <= |out| && Stamped(cfg, pace, out) && NoneResynced(out, from, upto)
    ensures Counting(cfg, pace, Inputs(cfg, out), from, upto)
  {
    forall k | from <= k < upto ensures !StampAt(cfg, pace, Inputs(cfg, out), k).discont {
      assert out[k].stamp == StampAt(cfg, pace, Inputs(cfg, out), k);
    }
  }

  /** Packet k counts on from packet r. */
  predicate CountsFrom(cfg: Config, out: seq<Delivered>, r: nat, k: nat)
    requires r < k < |out|
  {
    Counted(cfg, out[k].stamp, StartOffset(cfg, out[r].packet.captureTime) + Total(cfg, out, r, k),
            SamplesIn(cfg, out[k].packet))
  }

  lemma {:induction false} CountsSamples(cfg: Config, pace: Pace, out: seq<Delivered>, r: nat, k: nat)
    requires cfg.threshold != 0 && r < k < |out| && Stamped(cfg, pace, out)
    requires out[r].stamp.discont && NoneResynced(out, r + 1, k + 1)
    ensures CountsFrom(cfg, out, r, k)
  {
    DeliveredCounting(cfg, pace, out, r + 1, k + 1);
    InputsCount(cfg, pace, Inputs(cfg, out), r, k);
    TotalIs(cfg, out, r, k);
  }

  /** Whatever the capture times of the packets after a resynchronised one: packet k gets exactly the time
      of the samples delivered up to it, counted from the start of that one, and lasts to the time of those
      up to its end. */
  lemma {:induction false} DeliveredCountSamples(cfg: Config, pace: Pace, events: seq<AudioRuns.Event>, r: nat, k: nat)
    requires cfg.threshold != 0 && r < k < |Exec(cfg, pace, events).out|
    requires Exec(cfg, pace, events).out[r].stamp.discont && NoneResynced(Exec(cfg, pace, events).out, r + 1, k + 1)
    ensures CountsFrom(cfg, Exec(cfg, pace, events).out, r, k)
  {
    var out := Exec(cfg, pace, events).out;
    StampsInRuns(cfg, pace, events);
    CountsSamples(cfg, pace, out, r, k);
  }

  /** The packet keeps its capture time, and the next begins at or before its end by less than a sample
      period and a nanosecond. */
  predicate SeamRight(cfg: Config, stamp: Stamp, capture: nat, next: nat) {
    && stamp.timestamp == capture && next <= stamp.timestamp + stamp.duration
    && (stamp.timestamp + stamp.duration - next - 1) * cfg.rate < SECOND
  }

  lemma {:induction false} SeamOfInputs(cfg: Config, pace: Pace, run: seq<Input>, r: nat)
    requires r + 1 < |run| && cfg.threshold != 0
    requires StampAt(cfg, pace, run, r).discont && !StampAt(cfg, pace, run, r + 1).discont
    ensures SeamRight(cfg, StampAt(cfg, pace, run, r), run[r].capture, StampAt(cfg, pace, run, r + 1).timestamp)
  {
    SeamAfterResync(cfg, pace, run, r);
  }

  /** A resynchronised packet keeps its capture time, and the seam to the next one, if that is counted, is
      off by less than a sample period and a nanosecond, never negative. */
  lemma {:induction false} DeliveredSeam(cfg: Config, pace: Pace, events: seq<AudioRuns.Event>, r: nat)
    requires cfg.threshold != 0 && r + 1 < |Exec(cfg, pace, events).out|
    requires Exec(cfg, pace, events).out[r].stamp.discont && !Exec(cfg, pace, events).out[r + 1].stamp.discont
    ensures
      var out := Exec(cfg, pace, events).out;
      SeamRight(cfg, out[r].stamp, out[r].packet.captureTime, out[r + 1].stamp.timestamp)
  {
    StampsInRuns(cfg, pace, events);
    SeamOfDelivered(cfg, pace, Exec(cfg, pace, events).out, r);
  }

  lemma {:induction false} SeamOfDelivered(cfg: Config, pace: Pace, out: seq<Delivered>, r: nat)
    requires cfg.threshold != 0 && r + 1 < |out| && Stamped(cfg, pace, out)
    requires out[r].stamp.discont && !out[r + 1].stamp.discont
    ensures SeamRight(cfg, out[r].stamp, out[r].packet.captureTime, out[r + 1].stamp.timestamp)
  {
    SeamOfInputs(cfg, pace, Inputs(cfg, out), r);
  }

  /** A first or flagged packet is always resynchronised, and so is the first one delivered after an
      activation. */
  lemma {:induction false} FlaggedIsResynced(cfg: Config, pace: Pace, events: seq<AudioRuns.Event>, k: nat)
    requires k < |Exec(cfg, pace, events).out|
    requires
      var out := Exec(cfg, pace, events).out;
      out[k].packet.firstBuffer || out[k].packet.buff.droppedChanged || (k == 0 && pace.nextOffset.None?)
    ensures
      var out := Exec(cfg, pace, events).out;
      out[k].stamp.discont && out[k].stamp.timestamp == out[k].packet.captureTime
  {
    var inputs := Inputs(cfg, Exec(cfg, pace, events).out);
    StampsInRuns(cfg, pace, events);
    ForcedResyncs(cfg, PaceAt(cfg, pace, inputs, k), inputs[k].capture, inputs[k].samples, inputs[k].forced);
  }

  // ------------------------------------------------------------------- hysteresis

  /** The packet starts early or late by the tolerance or more, against the count of those before it. */
  predicate OffCount(cfg: Config, pace: Pace, run: seq<Input>, k: nat)
    requires k < |run|
  {
    var next, start := PaceAt(cfg, pace, run, k).nextOffset, StartOffset(cfg, run[k].capture);
    next.Some? && (start + Tolerance(cfg) <= next.value || next.value + Tolerance(cfg) <= start)
  }

  /** Packets whose capture times do not go back. */
  predicate InOrder(out: seq<Delivered>) {
    forall j, k :: 0 <= j <= k < |out| ==> out[j].packet.captureTime <= out[k].packet.captureTime
  }

  /** Since packet j, at least discont-wait before packet i, all were off the count, unflagged, and let
      through. */
  ghost predicate OffSince(cfg: Config, pace: Pace, out: seq<Delivered>, j: nat, i: nat)
    requires j < i < |out|
  {
    && StartTime(cfg, out[i].packet.captureTime) >= StartTime(cfg, out[j].packet.captureTime) + cfg.wait
    && (forall k :: j <= k < i ==>
          OffCount(cfg, pace, Inputs(cfg, out), k) && !Flagged(out[k].packet) && !out[k].stamp.discont)
  }

  /** With capture times that do not go back, a packet that is neither first nor flagged is resynchronised
      only after an unbroken stretch of packets, each early or late by the tolerance or more and let
      through, that began at least discont-wait before it. */
  lemma {:induction false} DeliveredResyncOnlyAfterWait(cfg: Config, pace: Pace, events: seq<AudioRuns.Event>, i: nat)
    requires TimerClear(pace) && cfg.wait > 0
    requires i < |Exec(cfg, pace, events).out| && InOrder(Exec(cfg, pace, events).out)
    requires
      var out := Exec(cfg, pace, events).out;
      && out[i].stamp.discont && !Flagged(out[i].packet)
      && PaceAt(cfg, pace, Inputs(cfg, out), i).nextOffset.Some?
    ensures
      var out := Exec(cfg, pace, events).out;
      OffCount(cfg, pace, Inputs(cfg, out), i) && exists j: nat :: j < i && OffSince(cfg, pace, out, j, i)
  {
    var out := Exec(cfg, pace, events).out;
    StampsInRuns(cfg, pace, events);
    var j := WaitedBefore(cfg, pace, out, i);
  }

  lemma {:induction false} StartsInOrder(cfg: Config, out: seq<Delivered>)
    requires InOrder(out)
    ensures Monotone(cfg, Inputs(cfg, out))
  {
    forall j, k | 0 <= j <= k < |out|
      ensures StartTime(cfg, out[j].packet.captureTime) <= StartTime(cfg, out[k].packet.captureTime)
    {
      ScaleMonotone(out[j].packet.captureTime, out[k].packet.captureTime, cfg.rate, SECOND);
      ScaleMonotone(StartOffset(cfg, out[j].packet.captureTime), StartOffset(cfg, out[k].packet.captureTime),
                    SECOND, cfg.rate);
    }
  }

  lemma {:induction false} ToleratedIsOff(cfg: Config, pace: Pace, run: seq<Input>, k: nat)
    requires k < |run| && Tolerated(cfg, pace, run, k)
    ensures OffCount(cfg, pace, run, k) && !run[k].forced && !StampAt(cfg, pace, run, k).discont
  {
    OutlierIff(cfg, PaceAt(cfg, pace, run, k).nextOffset.value, run[k].capture);
  }

  lemma {:induction false} WaitOfInputs(cfg: Config, pace: Pace, run: seq<Input>, i: nat) returns (j: nat)
    requires TimerClear(pace) && cfg.wait > 0 && i < |run| && Monotone(cfg, run)
    requires StampAt(cfg, pace, run, i).discont && !run[i].forced && PaceAt(cfg, pace, run, i).nextOffset.Some?
    ensures OffCount(cfg, pace, run, i)
    ensures j < i && StartTime(cfg, run[i].capture) >= StartTime(cfg, run[j].capture) + cfg.wait
    ensures forall k :: j <= k < i ==> Tolerated(cfg, pace, run, k)
  {
    ResyncOnlyAfterWait(cfg, pace, run, i);
    OutlierIff(cfg, PaceAt(cfg, pace, run, i).nextOffset.value, run[i].capture);
    j :| && 0 <= j < i
         && StartTime(cfg, run[i].capture) >= StartTime(cfg, run[j].capture) + cfg.wait
         && (forall k :: j <= k < i ==> Tolerated(cfg, pace, run, k));
  }

  lemma {:induction false} WaitedBefore(cfg: Config, pace: Pace, out: seq<Delivered>, i: nat) returns (j: nat)
    requires TimerClear(pace) && cfg.wait > 0 && i < |out| && InOrder(out) && Stamped(cfg, pace, out)
    requires out[i].stamp.discont && !Flagged(out[i].packet) && PaceAt(cfg, pace, Inputs(cfg, out), i).nextOffset.Some?
    ensures OffCount(cfg, pace, Inputs(cfg, out), i) && j < i && OffSince(cfg, pace, out, j, i)
  {
    var run := Inputs(cfg, out);
    StartsInOrder(cfg, out);
    j := WaitOfInputs(cfg, pace, run, i);
    forall k | j <= k < i ensures OffCount(cfg, pace, run, k) && !Flagged(out[k].packet) && !out[k].stamp.discont {
      ToleratedIsOff(cfg, pace, run, k);
    }
  }

  /** The packet keeps its capture time and lasts from its start, rounded to a sample, to its end. */
  predicate OwnTime(cfg: Config, stamp: Stamp, capture: nat, samples: nat) {
    var start := StartOffset(cfg, capture);
    stamp.timestamp == capture && OffsetTime(cfg, start) + stamp.duration == OffsetTime(cfg, start + samples)
  }

  lemma {:induction false} OwnTimeOfInput(cfg: Config, pace: Pace, run: seq<Input>, k: nat)
    requires k < |run| && (cfg.threshold == 0 || StampAt(cfg, pace, run, k).discont)
    ensures OwnTime(cfg, StampAt(cfg, pace, run, k), run[k].capture, run[k].samples)
  {
    OwnTimes(cfg, PaceAt(cfg, pace, run, k), run[k].capture, run[k].samples, run[k].forced);
  }

  /** A resynchronised packet, and with a threshold of 0, where nothing is counted, every packet. */
  lemma {:induction false} KeepsOwnTime(cfg: Config, pace: Pace, events: seq<AudioRuns.Event>, k: nat)
    requires k < |Exec(cfg, pace, events).out|
    requires cfg.threshold == 0 || Exec(cfg, pace, events).out[k].stamp.discont
    ensures
      var d := Exec(cfg, pace, events).out[k];
      OwnTime(cfg, d.stamp, d.packet.captureTime, SamplesIn(cfg, d.packet))
  {
    StampsInRuns(cfg, pace, events);
    OwnTimeOfInput(cfg, pace, Inputs(cfg, Exec(cfg, pace, events).out), k);
  }

  // ------------------------------------------------------------------- what is queued

  /** The last callback had signal. */
  predicate HadSignal(events: seq<AudioRuns.Event>)
    decreases |events|
  {
    events != [] &&
      var ev := events[|events| - 1];
      if ev.Callback? then HasSignal(ev.buff) else HadSignal(events[..|events| - 1])
  }

  lemma {:induction false} SignalTold(cfg: Config, events: seq<AudioRuns.Event>)
    ensures AudioRuns.Exec(cfg, events).q.hadSignal <==> HadSignal(events)
    decreases |events|
  {
    if events == [] {
    } else {
      SignalTold(cfg, events[..|events| - 1]);
      SignalToldOnce(AudioRuns.Exec(cfg, events[..|events| - 1]), cfg, events[|events| - 1]);
    }
  }

  lemma {:induction false} SignalToldOnce(sys: AudioRuns.System, cfg: Config, ev: AudioRuns.Event)
    ensures AudioRuns.Step(sys, cfg, ev).q.hadSignal == if ev.Callback? then HasSignal(ev.buff) else sys.q.hadSignal
  {}

  /** Over every run, the packet queued for a buffer carries the times it was given, and is marked as the
      first exactly if the callback before had no signal. */
  lemma {:induction false} QueuedInRuns(cfg: Config, front: seq<AudioRuns.Event>, buff: AudioBuff, times: Verdict)
    requires buff.haveSignal && times.Times? && !AudioRuns.Exec(cfg, front).q.flushing
    ensures
      var sys, sys' := AudioRuns.Exec(cfg, front), AudioRuns.Exec(cfg, front + [AudioRuns.Callback(Some(buff), times)]);
      && |sys'.accepted| == |sys.accepted| + 1
      && var p := sys'.accepted[|sys.accepted|];
         && p.captureTime == times.timestamp && p.streamTime == times.streamTime
         && (p.firstBuffer <==> !HadSignal(front)) && p.buff.(droppedChanged := buff.droppedChanged) == buff
  {
    var events := front + [AudioRuns.Callback(Some(buff), times)];
    assert events[..|events| - 1] == front;
    SignalTold(cfg, front);
  }
}
