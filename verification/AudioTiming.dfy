/** What the sample counter and the drift detector guarantee over runs of buffers. */
module AudioTiming {
  import opened Arithmetic
  import opened AudioSource

  datatype Input = Input(capture: nat, samples: nat, forced: bool)

  /** The state before the i-th buffer of a run, and the stamp the i-th buffer gets. */
  function PaceAt(cfg: Config, p: Pace, run: seq<Input>, i: nat): Pace
    requires i <= |run|
  {
    if i == 0 then p
    else Paced(cfg, PaceAt(cfg, p, run, i - 1), run[i - 1].capture, run[i - 1].samples, run[i - 1].forced).0
  }

  function StampAt(cfg: Config, p: Pace, run: seq<Input>, i: nat): Stamp
    requires i < |run|
  {
    Paced(cfg, PaceAt(cfg, p, run, i), run[i].capture, run[i].samples, run[i].forced).1
  }

  function Samples(run: seq<Input>, from: nat, upto: nat): nat
    requires from <= upto <= |run|
    decreases upto
  {
    if from == upto then 0 else Samples(run, from, upto - 1) + run[upto - 1].samples
  }

  /** Buffers from, ..., upto - 1 were not resynchronised. */
  ghost predicate Counting(cfg: Config, p: Pace, run: seq<Input>, from: nat, upto: nat)
    requires from <= upto <= |run|
  {
    forall k :: from <= k < upto ==> !StampAt(cfg, p, run, k).discont
  }

  /** Offsets count whole samples, and times are whole nanoseconds, both rounded down. */
  lemma OffsetsExact(cfg: Config, t: nat, n: nat)
    ensures StartOffset(cfg, t) * SECOND <= t * cfg.rate < (StartOffset(cfg, t) + 1) * SECOND
    ensures OffsetTime(cfg, n) * cfg.rate <= n * SECOND < (OffsetTime(cfg, n) + 1) * cfg.rate
  {
    ScaleBounds(t, cfg.rate, SECOND);
    ScaleBounds(n, SECOND, cfg.rate);
  }

  // ------------------------------------------------------------------- counting

  lemma {:induction false} OffsetCounts(cfg: Config, p: Pace, run: seq<Input>, from: nat, k: nat, next: nat)
    requires from <= k <= |run| && cfg.threshold != 0 && Counting(cfg, p, run, from, k)
    requires PaceAt(cfg, p, run, from).nextOffset == Some(next)
    ensures PaceAt(cfg, p, run, k).nextOffset == Some(next + Samples(run, from, k))
    decreases k
  {
    if k == from {
    } else {
      OffsetCounts(cfg, p, run, from, k - 1, next);
      assert !StampAt(cfg, p, run, k - 1).discont;
    }
  }

  /** Timestamps after a resynchronisation at buffer r count samples and nothing else: whatever
      the capture times are, buffer k gets exactly floor(samples so far * 10^9 / rate), and its
      timestamp plus its duration is exactly where the next buffer has to start. */
  lemma TimestampsCountSamples(cfg: Config, p: Pace, run: seq<Input>, r: nat, k: nat)
    requires r < k < |run| && cfg.threshold != 0
    requires StampAt(cfg, p, run, r).discont && Counting(cfg, p, run, r + 1, k + 1)
    ensures
      var total := StartOffset(cfg, run[r].capture) + Samples(run, r, k);
      var stamp := StampAt(cfg, p, run, k);
      && stamp.timestamp == OffsetTime(cfg, total)
      && stamp.timestamp + stamp.duration == OffsetTime(cfg, total + run[k].samples)
      && (k + 1 < |run| && !StampAt(cfg, p, run, k + 1).discont ==>
            StampAt(cfg, p, run, k + 1).timestamp == stamp.timestamp + stamp.duration)
  {
    var end := StartOffset(cfg, run[r].capture) + run[r].samples;
    assert PaceAt(cfg, p, run, r + 1).nextOffset == Some(end);
    assert Counting(cfg, p, run, r + 1, k);
    OffsetCounts(cfg, p, run, r + 1, k, end);
    SamplesFrom(run, r, k);
    var total := StartOffset(cfg, run[r].capture) + Samples(run, r, k);
    assert PaceAt(cfg, p, run, k).nextOffset == Some(total);
    assert !StampAt(cfg, p, run, k).discont;
    ScaleMonotone(total, total + run[k].samples, SECOND, cfg.rate);
    assert PaceAt(cfg, p, run, k + 1).nextOffset == Some(total + run[k].samples);
  }

  lemma {:induction false} SamplesFrom(run: seq<Input>, from: nat, upto: nat)
    requires from < upto <= |run|
    ensures Samples(run, from, upto) == run[from].samples + Samples(run, from + 1, upto)
    decreases upto
  {
    if upto == from + 1 {
      assert Samples(run, from, from) == 0;
    } else {
      SamplesFrom(run, from, upto - 1);
    }
  }

  /** A resynchronised buffer keeps its capture time, and the seam to the following counted
      buffer is off by less than one sample period and a nanosecond, never negative. */
  lemma SeamAfterResync(cfg: Config, p: Pace, run: seq<Input>, r: nat)
    requires r + 1 < |run| && cfg.threshold != 0
    requires StampAt(cfg, p, run, r).discont && !StampAt(cfg, p, run, r + 1).discont
    ensures
      var stamp, next := StampAt(cfg, p, run, r), StampAt(cfg, p, run, r + 1).timestamp;
      && stamp.timestamp == run[r].capture
      && next <= stamp.timestamp + stamp.duration
      && (stamp.timestamp + stamp.duration - next - 1) * cfg.rate < SECOND
  {
    var start := StartOffset(cfg, run[r].capture);
    RoundingLoss(cfg, run[r].capture);
    ScaleMonotone(start, start + run[r].samples, SECOND, cfg.rate);
    assert PaceAt(cfg, p, run, r + 1).nextOffset == Some(start + run[r].samples);
  }

  /** Rounding a time down to a whole sample loses less than a sample period and a nanosecond. */
  lemma RoundingLoss(cfg: Config, t: nat)
    ensures StartTime(cfg, t) <= t && (t - StartTime(cfg, t) - 1) * cfg.rate < SECOND
  {
    var n := StartOffset(cfg, t);
    var s := OffsetTime(cfg, n);
    ScaleBounds(t, cfg.rate, SECOND);
    ScaleBounds(n, SECOND, cfg.rate);
    assert (s + 1) * cfg.rate > n * SECOND > t * cfg.rate - SECOND;
    assert (t - s - 1) * cfg.rate == t * cfg.rate - (s + 1) * cfg.rate;
    if s > t {
      MulMonotone(t + 1, s, cfg.rate);
    }
  }

  // ------------------------------------------------------------------- hysteresis

  /** How far, in samples, a buffer must be early or late to be an outlier; with a threshold of 0, or of
      none at all, no buffer is one. */
  function Tolerance(cfg: Config): nat { Scale(cfg.threshold, cfg.rate, SECOND) }

  /** An outlier starts early or late by the tolerance or more. */
  lemma OutlierIff(cfg: Config, next: nat, capture: nat)
    ensures
      var start := StartOffset(cfg, capture);
      Outlier(cfg, next, capture) <==>
        && cfg.threshold > 0 && cfg.threshold != TWO64 - 1
        && (start + Tolerance(cfg) <= next || next + Tolerance(cfg) <= start)
  {}

  /** When exactly an unforced buffer is resynchronised: it is early or late by the tolerance or more, and
      discont-wait is 0 or has passed, as an unsigned difference, since the timer was set. */
  lemma ResyncIff(cfg: Config, p: Pace, capture: nat, samples: nat)
    requires p.nextOffset.Some?
    ensures
      var t, start, next := StartTime(cfg, capture), StartOffset(cfg, capture), p.nextOffset.value;
      Paced(cfg, p, capture, samples, false).1.discont <==>
        && cfg.threshold > 0 && cfg.threshold != TWO64 - 1
        && (start + Tolerance(cfg) <= next || next + Tolerance(cfg) <= start)
        && (cfg.wait == 0 || (p.discontTime.Some? && Sub64(t, p.discontTime.value) >= cfg.wait))
  {
    OutlierIff(cfg, p.nextOffset.value, capture);
  }

  /** A buffer with the first signal, after a drop, or first of all is always resynchronised: it keeps its
      capture time, and the count goes on from its end. */
  lemma ForcedResyncs(cfg: Config, p: Pace, capture: nat, samples: nat, forced: bool)
    requires forced || p.nextOffset.None?
    ensures
      var (p', stamp) := Paced(cfg, p, capture, samples, forced);
      && stamp.discont && stamp.timestamp == capture
      && p'.nextOffset == Some(StartOffset(cfg, capture) + samples) && p'.discontTime.None?
  {}

  /** A resynchronised buffer, and with a threshold of 0 every buffer, keeps its capture time and lasts
      from its own start, rounded to a sample, to its own end. */
  lemma OwnTimes(cfg: Config, p: Pace, capture: nat, samples: nat, forced: bool)
    requires Paced(cfg, p, capture, samples, forced).1.discont || cfg.threshold == 0
    ensures
      var (stamp, start) := (Paced(cfg, p, capture, samples, forced).1, StartOffset(cfg, capture));
      stamp.timestamp == capture && OffsetTime(cfg, start) + stamp.duration == OffsetTime(cfg, start + samples)
    ensures
      var (p', stamp) := Paced(cfg, p, capture, samples, forced);
      p'.nextOffset == if stamp.discont then Some(StartOffset(cfg, capture) + samples) else p.nextOffset
  {
    var start := StartOffset(cfg, capture);
    ScaleMonotone(start, start + samples, SECOND, cfg.rate);
  }

  /** If the timer is clear after a buffer that was not resynchronised, the buffer was on track. */
  lemma ClearTimerMeansOnTrack(cfg: Config, p: Pace, capture: nat, samples: nat)
    requires p.nextOffset.Some? && !Paced(cfg, p, capture, samples, false).1.discont
    ensures Paced(cfg, p, capture, samples, false).0.discontTime.None? <==> !Outlier(cfg, p.nextOffset.value, capture)
  {}

  /** Buffer k of the run is an outlier that was let through. */
  ghost predicate Tolerated(cfg: Config, p: Pace, run: seq<Input>, k: nat)
    requires k < |run|
  {
    var before := PaceAt(cfg, p, run, k);
    && before.nextOffset.Some? && !run[k].forced
    && Outlier(cfg, before.nextOffset.value, run[k].capture)
    && !StampAt(cfg, p, run, k).discont
  }

  /** The drift timer, when set, holds the start time of the first of an unbroken stretch of
      tolerated outliers that reaches up to now. */
  ghost predicate TimerMeans(cfg: Config, p: Pace, run: seq<Input>, i: nat)
    requires i <= |run|
  {
    var timer := PaceAt(cfg, p, run, i).discontTime;
    timer.Some? ==>
      exists j :: (
        && 0 <= j < i
        && timer == Some(StartTime(cfg, run[j].capture))
        && (forall k :: j <= k < i ==> Tolerated(cfg, p, run, k)))
  }

  /** The source has not delivered anything yet, or its drift timer is clear. */
  predicate TimerClear(p: Pace) { p.nextOffset.None? || p.discontTime.None? }

  lemma {:induction false} TimerHolds(cfg: Config, p: Pace, run: seq<Input>, i: nat)
    requires i <= |run| && TimerClear(p) && cfg.wait > 0
    ensures PaceAt(cfg, p, run, i).nextOffset.Some? ==> TimerMeans(cfg, p, run, i)
  {
    if i == 0 {
    } else {
      TimerHolds(cfg, p, run, i - 1);
      var before, after := PaceAt(cfg, p, run, i - 1), PaceAt(cfg, p, run, i);
      if after.discontTime.Some? {
        assert Tolerated(cfg, p, run, i - 1);
        if before.discontTime.None? {
          assert after.discontTime == Some(StartTime(cfg, run[i - 1].capture));
        }
      }
    }
  }

  /** Start times never go back. */
  ghost predicate Monotone(cfg: Config, run: seq<Input>) {
    forall j, k :: 0 <= j <= k < |run| ==> StartTime(cfg, run[j].capture) <= StartTime(cfg, run[k].capture)
  }

  /** Hysteresis: with start times that do not go back, an unforced resynchronisation comes only
      after an unbroken stretch of outliers lasting at least discont-wait. */
  lemma ResyncOnlyAfterWait(cfg: Config, p: Pace, run: seq<Input>, i: nat)
    requires i < |run| && TimerClear(p) && cfg.wait > 0 && Monotone(cfg, run)
    requires !run[i].forced && PaceAt(cfg, p, run, i).nextOffset.Some? && StampAt(cfg, p, run, i).discont
    ensures Outlier(cfg, PaceAt(cfg, p, run, i).nextOffset.value, run[i].capture)
    ensures exists j :: (
      && 0 <= j < i
      && StartTime(cfg, run[i].capture) >= StartTime(cfg, run[j].capture) + cfg.wait
      && (forall k :: j <= k < i ==> Tolerated(cfg, p, run, k)))
  {
    TimerHolds(cfg, p, run, i);
    OutlierIff(cfg, PaceAt(cfg, p, run, i).nextOffset.value, run[i].capture);
    ResyncIff(cfg, PaceAt(cfg, p, run, i), run[i].capture, run[i].samples);
  }

  /** The monotonicity is needed: the elapsed time is an unsigned difference, so an outlier that
      starts before the timer resynchronises at once, for any wait up to the wrapped difference. */
  lemma EarlierStartResyncsAtOnce(cfg: Config, p: Pace, capture: nat, samples: nat)
    requires p.nextOffset.Some? && p.discontTime.Some? && Outlier(cfg, p.nextOffset.value, capture)
    requires StartTime(cfg, capture) < p.discontTime.value < TWO64
    requires cfg.wait <= TWO64 - (p.discontTime.value - StartTime(cfg, capture))
    ensures Paced(cfg, p, capture, samples, false).1.discont
  {
    OutlierIff(cfg, p.nextOffset.value, capture);
    ResyncIff(cfg, p, capture, samples);
  }
}
