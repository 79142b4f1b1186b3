/** The sampling window refines "the last 64 recorded pairs". */
module SampleWindow {
  import opened Arithmetic
  import opened TimeMapping

  datatype Pair = Pair(stream: nat, capture: nat)

  function Pow2(k: nat): nat { if k == 0 then 1 else 2 * Pow2(k - 1) }

  /** The pairs of the latest 64 samples sit in the slots given by their index modulo 64. */
  ghost predicate Holds(times: seq<nat>, samples: seq<Pair>)
    requires |times| == 4 * WINDOW
  {
    forall i {:trigger samples[i]} :: |samples| - WINDOW <= i < |samples| && 0 <= i ==>
      times[2 * (i % WINDOW)] == samples[i].stream && times[2 * (i % WINDOW) + 1] == samples[i].capture
  }

  /** s is the state after recording exactly these pairs since the last start. */
  ghost predicate Remembers(s: TimeState, samples: seq<Pair>, rate: Rate) {
    && s.Shape()
    && s.fill == |samples| % WINDOW
    && s.filled == (|samples| >= WINDOW)
    && s.skip == Min(Pow2(|samples| / WINDOW), 4 * FramesPerSecond(rate))
    && s.skipCount < s.skip
    && (samples == [] ==> s.skipCount == 0)
    && Holds(s.times, samples)
  }

  function WithSample(s: TimeState, samples: seq<Pair>, capture: nat, stream: nat): seq<Pair> {
    if s.skipCount == 0 then samples + [Pair(stream, capture)] else samples
  }

  lemma Pow2Positive(k: nat)
    ensures Pow2(k) >= 1
  {}

  lemma FpsPositive(rate: Rate)
    ensures FramesPerSecond(rate) >= 1
  {
    ScaleAtLeast(rate.n + rate.d - 1, 1, rate.d, 1);
  }

  lemma StartForgets(s: TimeState, rate: Rate)
    requires s.Shape()
    ensures Remembers(Restarted(s), [], rate)
    ensures Restarted(s).pending == s.pending && Restarted(s).times == s.times
  {
    FpsPositive(rate);
  }

  lemma RecordingUpdate(s: TimeState, samples: seq<Pair>, capture: nat, stream: nat, discont: bool, rate: Rate,
                        regression: Option<Mapping>)
    requires Remembers(s, samples, rate) && s.skipCount == 0
    ensures
      var s' := Updated(s, capture, stream, discont, rate, regression);
      Remembers(s', samples + [Pair(stream, capture)], rate) && s'.times[2 * WINDOW..] == s.times[2 * WINDOW..]
  {
    var n := |samples|;
    FpsPositive(rate);
    Pow2Positive(n / WINDOW);
    StoreKeepsLatest(s.times, samples, Pair(stream, capture));
    NextSlot(n, s.fill);
    SkipDoubles(n / WINDOW, FramesPerSecond(rate));
  }

  lemma NextSlot(n: nat, fill: nat)
    requires fill == n % WINDOW
    ensures (n + 1) % WINDOW == (if fill + 1 == WINDOW then 0 else fill + 1)
    ensures (n + 1) / WINDOW == n / WINDOW + (if fill + 1 == WINDOW then 1 else 0)
  {}

  /** Every update records its pair when the skip counter is at 0 and otherwise records
      nothing. The window keeps the latest 64 pairs, the skip after k fills is min(2^k, 4 fps),
      and the second half of the array is never written. */
  lemma UpdateRecords(s: TimeState, samples: seq<Pair>, capture: nat, stream: nat, discont: bool, rate: Rate,
                      regression: Option<Mapping>)
    requires Remembers(s, samples, rate)
    ensures
      var s' := Updated(s, capture, stream, discont, rate, regression);
      && Remembers(s', WithSample(s, samples, capture, stream), rate)
      && s'.times[2 * WINDOW..] == s.times[2 * WINDOW..]
  {
    if s.skipCount == 0 {
      RecordingUpdate(s, samples, capture, stream, discont, rate, regression);
    }
  }

  lemma SkipDoubles(k: nat, fps: nat)
    requires fps >= 1
    ensures WidenedSkip(Min(Pow2(k), 4 * fps), fps) == Min(Pow2(k + 1), 4 * fps)
    ensures Pow2(k + 1) >= 2
  {
    Pow2Positive(k);
  }

  lemma StoreKeepsLatest(times: seq<nat>, samples: seq<Pair>, p: Pair)
    requires |times| == 4 * WINDOW && Holds(times, samples)
    ensures
      var slot := |samples| % WINDOW;
      var times' := times[2 * slot := p.stream][2 * slot + 1 := p.capture];
      Holds(times', samples + [p]) && times'[2 * WINDOW..] == times[2 * WINDOW..]
  {
    var n, samples' := |samples|, samples + [p];
    var slot := n % WINDOW;
    var times' := times[2 * slot := p.stream][2 * slot + 1 := p.capture];
    forall i {:trigger samples'[i]} | n + 1 - WINDOW <= i < n + 1 && 0 <= i
      ensures times'[2 * (i % WINDOW)] == samples'[i].stream
      ensures times'[2 * (i % WINDOW) + 1] == samples'[i].capture
    {
      if i < n {
        assert samples'[i] == samples[i];
        assert i % WINDOW != slot;
      }
    }
  }

  lemma SlotOf(n: nat, i: nat)
    requires n >= WINDOW
    ensures (n - WINDOW + i) % WINDOW == (n % WINDOW + i) % WINDOW
  {}

  /** Once filled, the window is a rotation of the latest 64 pairs. */
  lemma WindowIsARotation(s: TimeState, samples: seq<Pair>, rate: Rate, i: nat)
    requires Remembers(s, samples, rate) && s.filled && i < WINDOW
    ensures
      var slot := (s.fill + i) % WINDOW;
      Pair(s.times[2 * slot], s.times[2 * slot + 1]) == samples[|samples| - WINDOW + i]
  {
    var k := |samples| - WINDOW + i;
    SlotOf(|samples|, i);
    var sample := samples[k];
    assert s.times[2 * (k % WINDOW)] == sample.stream && s.times[2 * (k % WINDOW) + 1] == sample.capture;
  }

  /** The initial mapping is anchored by the first recorded pair of a start and by no other;
      after it, the mapping maps that pair onto itself. */
  lemma AnchoredExactlyOnce(s: TimeState, samples: seq<Pair>, capture: nat, stream: nat, discont: bool, rate: Rate,
                            regression: Option<Mapping>)
    requires Remembers(s, samples, rate)
    ensures Anchors(s) <==> samples == []
    ensures
      var s' := Updated(s, capture, stream, discont, rate, regression);
      && (Anchors(s) ==>
            s'.current == Mapping(stream, capture, 1, 1) && !s'.pending && Adjust(s'.current, stream) == capture)
      && (!Anchors(s) ==> Sampled(s, capture, stream, rate, regression).current == s.current)
  {
    ScaleAtLeast(0, 1, 1, 1);
    assert |samples| / WINDOW == 0 ==> Pow2(|samples| / WINDOW) == 1;
  }

  /** What the regression returns becomes the pending mapping exactly when the update records a pair
      and the window is full with it; otherwise what was pending stays so, except that anchoring drops
      it. */
  lemma RegressionUsedIff(s: TimeState, samples: seq<Pair>, capture: nat, stream: nat, rate: Rate,
                          regression: Option<Mapping>)
    requires Remembers(s, samples, rate)
    ensures
      var s1 := Sampled(s, capture, stream, rate, regression);
      var full := |WithSample(s, samples, capture, stream)| >= WINDOW;
      if s.skipCount == 0 && full && regression.Some? then s1.pending && s1.next == regression.value
      else s1.next == s.next && (s1.pending <==> s.pending && samples != [])
  {
    assert |samples| / WINDOW == 0 ==> Pow2(|samples| / WINDOW) == 1;
  }

  /** Frames per second are rounded up. */
  lemma FpsIsCeiling(rate: Rate)
    ensures (FramesPerSecond(rate) - 1) * rate.d < rate.n <= FramesPerSecond(rate) * rate.d
  {
    FloorBounds(rate.n + rate.d - 1, rate.d);
    var f := FramesPerSecond(rate);
    assert (f + 1) * rate.d == f * rate.d + rate.d && (f - 1) * rate.d == f * rate.d - rate.d;
  }

  // ------------------------------------------------------------------- runs of updates

  datatype Measured = Measured(capture: nat, stream: nat, discont: bool, regression: Option<Mapping>)

  /** The state after a start and these updates, and the pairs recorded on the way. */
  function After(s: TimeState, updates: seq<Measured>, rate: Rate): (s': TimeState)
    requires s.Shape()
    ensures s'.Shape()
    decreases |updates|
  {
    if updates == [] then Restarted(s)
    else
      var u := updates[|updates| - 1];
      Updated(After(s, updates[..|updates| - 1], rate), u.capture, u.stream, u.discont, rate, u.regression)
  }

  function RecordedPairs(s: TimeState, updates: seq<Measured>, rate: Rate): seq<Pair>
    requires s.Shape()
    decreases |updates|
  {
    if updates == [] then []
    else
      var front, u := updates[..|updates| - 1], updates[|updates| - 1];
      WithSample(After(s, front, rate), RecordedPairs(s, front, rate), u.capture, u.stream)
  }

  /** After a start and any updates the window holds the latest 64 of the pairs recorded since, the
      skip counter stays below the skip, which after k fills is min(2^k, 4 fps), and the second half of
      the array is as it was. */
  lemma {:induction false} WindowHoldsLatest(s: TimeState, updates: seq<Measured>, rate: Rate)
    requires s.Shape()
    ensures Remembers(After(s, updates, rate), RecordedPairs(s, updates, rate), rate)
    ensures After(s, updates, rate).times[2 * WINDOW..] == s.times[2 * WINDOW..]
    decreases |updates|
  {
    if updates == [] {
      StartForgets(s, rate);
    } else {
      var front, u := updates[..|updates| - 1], updates[|updates| - 1];
      WindowHoldsLatest(s, front, rate);
      UpdateRecords(After(s, front, rate), RecordedPairs(s, front, rate),
                    u.capture, u.stream, u.discont, rate, u.regression);
    }
  }

  /** The first update after a start records its pair, so something has been recorded from then on. */
  lemma {:induction false} FirstIsRecorded(s: TimeState, updates: seq<Measured>, rate: Rate)
    requires s.Shape()
    ensures RecordedPairs(s, updates, rate) == [] <==> updates == []
    decreases |updates|
  {
    if updates == [] {
    } else {
      var front := updates[..|updates| - 1];
      FirstIsRecorded(s, front, rate);
      WindowHoldsLatest(s, front, rate);
    }
  }

  /** Of all updates after a start exactly the first anchors the mapping: it maps its own pair onto
      itself, and no later one replaces the mapping by a measured pair. */
  lemma FirstUpdateAnchors(s: TimeState, updates: seq<Measured>, rate: Rate, i: nat)
    requires s.Shape() && i < |updates|
    ensures Anchors(After(s, updates[..i], rate)) <==> i == 0
    ensures
      var before, u := After(s, updates[..i], rate), updates[i];
      if i == 0 then
        var after := After(s, updates[..1], rate);
        after.current == Mapping(u.stream, u.capture, 1, 1) && !after.pending
      else Sampled(before, u.capture, u.stream, rate, u.regression).current == before.current
  {
    var u, front := updates[i], updates[..i];
    WindowHoldsLatest(s, front, rate);
    FirstIsRecorded(s, front, rate);
    AnchoredExactlyOnce(After(s, front, rate), RecordedPairs(s, front, rate),
                        u.capture, u.stream, u.discont, rate, u.regression);
    if i == 0 {
      assert updates[..1] == [u] && [u][..0] == front;
    }
  }
}
