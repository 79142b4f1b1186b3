/** What the slewing mapping guarantees: bounded movement, timestamps that do not go back,
    and convergence to a pending mapping. */
module Slewing {
  import opened Arithmetic
  import opened TimeMapping
  import Window = SampleWindow

  // ---------------------------------------------------------------- one mapping

  /** The clamp at 0 is not in effect at time t. */
  predicate Unclamped(m: Mapping, t: nat) { t >= m.xbase || m.b >= Scale(m.xbase - t, m.num, m.den) }

  /** A mapping gives its base at its base point, and from there on goes up, or down, by the exact
      rational distance to within 1 ns, but never below 0. */
  lemma AdjustExact(m: Mapping, t: nat)
    ensures
      if t >= m.xbase then
        (Adjust(m, t) - m.b) * m.den <= (t - m.xbase) * m.num < (Adjust(m, t) - m.b + 1) * m.den
      else
        exists down: nat ::
          && down * m.den <= (m.xbase - t) * m.num < (down + 1) * m.den
          && Adjust(m, t) == Max(0, m.b - down)
  {
    if t >= m.xbase {
      ScaleBounds(t - m.xbase, m.num, m.den);
    } else {
      ScaleBounds(m.xbase - t, m.num, m.den);
      var down := Scale(m.xbase - t, m.num, m.den);
      assert Adjust(m, t) == Max(0, m.b - down);
    }
  }

  /** Over a span of stream time a mapping advances by the scaled span, give or take 1 ns,
      except that it may stay at the clamp. */
  lemma AdjustAdvance(m: Mapping, t: nat, u: nat)
    requires t <= u
    ensures Adjust(m, t) <= Adjust(m, u) <= Adjust(m, t) + Scale(u - t, m.num, m.den) + 1
    ensures Unclamped(m, t) ==> Unclamped(m, u) && Adjust(m, u) + 1 >= Adjust(m, t) + Scale(u - t, m.num, m.den)
    ensures t == m.xbase ==> Adjust(m, u) == Adjust(m, t) + Scale(u - t, m.num, m.den)
  {
    if m.xbase <= t {
      ScaleSum(t - m.xbase, u - t, m.num, m.den);
      ScaleAtLeast(0, m.num, m.den, 1);
    } else if m.xbase <= u {
      ScaleSum(m.xbase - t, u - m.xbase, m.num, m.den);
    } else {
      ScaleSum(m.xbase - u, u - t, m.num, m.den);
    }
  }

  // ---------------------------------------------------------------- one update

  /** The update abandons slewing and takes the pending mapping over a visible gap. */
  predicate Jumps(s: TimeState, stream: nat, discont: bool, maxDiff: nat) {
    var diff := Distance(Adjust(s.next, stream), Adjust(s.current, stream));
    s.pending && diff > maxDiff && (discont || diff >= SNAP_LIMIT)
  }

  /** One update moves the mapping, at the current stream time, straight towards the pending
      mapping: by the whole gap or by maxDiff, whichever is less, and by more than maxDiff
      exactly when it jumps. */
  lemma SlewMovesAtMostMaxDiff(s: TimeState, stream: nat, discont: bool, maxDiff: nat)
    ensures
      var before, goal := Adjust(s.current, stream), Adjust(s.next, stream);
      var after := Adjust(Slewed(s, stream, discont, maxDiff).current, stream);
      && (!s.pending ==> after == before)
      && (s.pending && Jumps(s, stream, discont, maxDiff) ==> after == goal)
      && (s.pending && !Jumps(s, stream, discont, maxDiff) ==>
            && Distance(after, before) == Min(Distance(goal, before), maxDiff)
            && Distance(goal, after) == Distance(goal, before) - Distance(after, before))
      && (Distance(after, before) > maxDiff <==> Jumps(s, stream, discont, maxDiff))
  {
    var s' := Slewed(s, stream, discont, maxDiff);
    ScaleAtLeast(0, s'.current.num, s'.current.den, 1);
  }

  /** A pending mapping that an update takes over becomes the current one, for all times to come; until
      then the current mapping keeps its slope and the pending one stays what it is. */
  lemma TakesOverPending(s: TimeState, stream: nat, discont: bool, maxDiff: nat)
    ensures
      var s' := Slewed(s, stream, discont, maxDiff);
      && s'.next == s.next
      && (!s.pending ==> !s'.pending && s'.current == s.current)
      && (s.pending && !s'.pending ==> s'.current == s.next && forall u :: Adjust(s'.current, u) == Adjust(s.next, u))
      && (s'.pending ==> s'.current.num == s.current.num && s'.current.den == s.current.den)
  {}

  /** A discontinuity takes the pending mapping over at once. */
  lemma DiscontTakesOver(s: TimeState, stream: nat, maxDiff: nat)
    ensures
      var s' := Slewed(s, stream, true, maxDiff);
      !s'.pending && s'.current == if s.pending then s.next else s.current
  {}

  /** Without one, the mapping jumps over a gap of 50 ms or more, goes all the way over a gap of a step
      or less, and else moves by a step and leaves the pending mapping pending. */
  lemma StaysPendingIff(s: TimeState, stream: nat, maxDiff: nat)
    ensures
      var gap := Distance(Adjust(s.next, stream), Adjust(s.current, stream));
      Slewed(s, stream, false, maxDiff).pending <==> s.pending && maxDiff < gap < 50_000_000
  {}

  /** When one frame's timestamp stays at or after an earlier one: an update that does not jump
      keeps it exactly when the old mapping has advanced at least as far as the mapping is pulled
      back; a jump keeps it exactly when the pending mapping is already there. */
  lemma TimestampKeptIff(s: TimeState, earlier: nat, stream: nat, discont: bool, maxDiff: nat)
    requires s.pending
    ensures
      var before, goal := Adjust(s.current, stream), Adjust(s.next, stream);
      var after := Adjust(Slewed(s, stream, discont, maxDiff).current, stream);
      after >= earlier <==>
        if Jumps(s, stream, discont, maxDiff) then goal >= earlier
        else if goal >= before then before + Min(goal - before, maxDiff) >= earlier
        else before >= earlier + Min(before - goal, maxDiff)
  {
    SlewMovesAtMostMaxDiff(s, stream, discont, maxDiff);
  }

  lemma MaxDiffIsATwentieth(rate: Rate)
    ensures 20 * MaxDiff(rate) <= FrameDuration(rate) < 20 * (MaxDiff(rate) + 1)
  {
    TwentyTimes(rate, MaxDiff(rate));
    TwentyTimes(rate, MaxDiff(rate) + 1);
  }

  lemma TwentyTimes(rate: Rate, q: nat)
    ensures 20 * q <= FrameDuration(rate) <==> q <= MaxDiff(rate)
  {
    ScaleAtLeast(SECOND / 20, rate.d, rate.n, q);
    ScaleAtLeast(SECOND, rate.d, rate.n, 20 * q);
    Reassociate(20, q, rate.n);
  }

  // ---------------------------------------------------------------- runs of frames

  datatype Frame = Frame(stream: nat, capture: nat, discont: bool, regression: Option<Mapping>)

  function Step(s: TimeState, f: Frame, rate: Rate): (s': TimeState)
    requires s.Shape()
    ensures s'.Shape()
  {
    Updated(s, f.capture, f.stream, f.discont, rate, f.regression)
  }

  /** The timestamps a run of frames is given. */
  function Timestamps(s: TimeState, frames: seq<Frame>, rate: Rate): seq<nat>
    requires s.Shape()
    decreases |frames|
  {
    if frames == [] then []
    else
      var s' := Step(s, frames[0], rate);
      [Adjust(s'.current, frames[0].stream)] + Timestamps(s', frames[1..], rate)
  }

  /** A mapping that runs at a tenth of real time or faster. */
  predicate FastEnough(m: Mapping) { 10 * m.num >= m.den }

  ghost predicate Steady(s: TimeState) { s.Shape() && FastEnough(s.current) && (s.pending ==> FastEnough(s.next)) }

  /** The frame continues a segment: at least one frame after time t, no first sample, no jump. */
  ghost predicate Continues(s: TimeState, t: nat, f: Frame, rate: Rate)
    requires s.Shape()
  {
    && f.stream >= t + FrameDuration(rate)
    && !Anchors(s)
    && !Jumps(Sampled(s, f.capture, f.stream, rate, f.regression), f.stream, f.discont, MaxDiff(rate))
    && (f.regression.Some? ==> FastEnough(f.regression.value))
  }

  ghost predicate Segment(s: TimeState, t: nat, frames: seq<Frame>, rate: Rate)
    requires s.Shape()
    decreases |frames|
  {
    frames != [] ==>
      Continues(s, t, frames[0], rate) && Segment(Step(s, frames[0], rate), frames[0].stream, frames[1..], rate)
  }

  predicate Follows(a: nat, b: nat) { a < b || a == 0 }

  /** The timestamp of the next frame of a segment is later than the previous one. */
  lemma NextTimestampLater(s: TimeState, t: nat, f: Frame, rate: Rate)
    requires Steady(s) && Continues(s, t, f, rate) && MaxDiff(rate) >= 2
    ensures Steady(Step(s, f, rate))
    ensures Follows(Adjust(s.current, t), Adjust(Step(s, f, rate).current, f.stream))
  {
    var m := MaxDiff(rate);
    var s1 := Sampled(s, f.capture, f.stream, rate, f.regression);
    assert s1.current == s.current;
    SlewMovesAtMostMaxDiff(s1, f.stream, f.discont, m);
    AdjustAdvance(s.current, t, f.stream);
    MaxDiffIsATwentieth(rate);
    TenthSpeedAdvance(s.current, f.stream - t, 2 * m);
  }

  lemma TenthSpeedAdvance(m: Mapping, span: nat, q: nat)
    requires FastEnough(m) && span >= 10 * q
    ensures Scale(span, m.num, m.den) >= q
  {
    MulMonotone(10 * q, span, m.num);
    MulMonotone(m.den, 10 * m.num, q);
    assert 10 * q * m.num == 10 * m.num * q;
    ScaleAtLeast(span, m.num, m.den, q);
  }

  lemma {:induction false} TimestampsAbove(s: TimeState, t: nat, frames: seq<Frame>, rate: Rate)
    requires Steady(s) && Segment(s, t, frames, rate) && MaxDiff(rate) >= 2
    ensures forall ts :: ts in Timestamps(s, frames, rate) ==> Follows(Adjust(s.current, t), ts)
    decreases |frames|
  {
    if frames == [] {
    } else {
      NextTimestampLater(s, t, frames[0], rate);
      TimestampsAbove(Step(s, frames[0], rate), frames[0].stream, frames[1..], rate);
    }
  }

  /** Within one segment timestamps never decrease, and strictly increase once they are
      positive, whatever the regression returns as long as it runs at a tenth of real time. */
  lemma {:induction false} TimestampsIncrease(s: TimeState, t: nat, frames: seq<Frame>, rate: Rate)
    requires Steady(s) && Segment(s, t, frames, rate) && MaxDiff(rate) >= 2
    ensures |Timestamps(s, frames, rate)| == |frames|
    ensures forall i, j :: 0 <= i < j < |frames| ==>
      Follows(Timestamps(s, frames, rate)[i], Timestamps(s, frames, rate)[j])
    decreases |frames|
  {
    if frames == [] {
    } else {
      var s' := Step(s, frames[0], rate);
      NextTimestampLater(s, t, frames[0], rate);
      TimestampsAbove(s', frames[0].stream, frames[1..], rate);
      TimestampsIncrease(s', frames[0].stream, frames[1..], rate);
    }
  }

  // ---------------------------------------------------------------- a mapping that is too slow

  const FIFTY: Rate := Rate(50, 1)

  /** Frames at 50 per second. The 64th fills the window and the regression returns a mapping that
      stands still at 2 s, which is taken over because of a discontinuity; with the 65th it returns one
      that stands still 40 ms earlier. */
  function SlowRun(n: nat): seq<Window.Measured> {
    seq(n, i requires 0 <= i < n =>
      Window.Measured(0, i * 20 * MSECOND, i == 63,
                      if i == 63 then Some(Mapping(0, 2 * SECOND, 0, 1))
                      else if i == 64 then Some(Mapping(0, 2 * SECOND - 40 * MSECOND, 0, 1))
                      else None))
  }

  lemma SlowRunGrows(n: nat)
    ensures SlowRun(n + 1)[..n] == SlowRun(n)
  {}

  /** The first 63 updates after a start only fill the window. */
  lemma {:induction false} FirstFill(s: TimeState, n: nat)
    requires s.Shape() && n <= 63
    ensures
      var t := Window.After(s, SlowRun(n), FIFTY);
      t.fill == n && !t.filled && t.skip == 1 && t.skipCount == 0
  {
    if n == 0 {
    } else {
      FirstFill(s, n - 1);
      SlowRunGrows(n - 1);
    }
  }

  lemma StandsStill(s: TimeState)
    requires s.Shape()
    ensures
      var t := Window.After(s, SlowRun(64), FIFTY);
      t.filled && t.skipCount == 0 && !t.pending && t.current == Mapping(0, 2 * SECOND, 0, 1)
  {
    FirstFill(s, 63);
    SlowRunGrows(63);
  }

  /** The slope condition is needed: after a start, and 64 updates, a mapping that stands still is
      pulled back below the timestamp already given out. */
  lemma SlowMappingGoesBack(s: TimeState)
    requires s.Shape()
    ensures
      var run := SlowRun(65);
      var before, after := Window.After(s, run[..64], FIFTY), Window.After(s, run, FIFTY);
      && !FastEnough(before.current)
      && run[64].stream == run[63].stream + FrameDuration(FIFTY) && !run[64].discont
      && Adjust(before.current, run[63].stream) == 2 * SECOND
      && Adjust(after.current, run[64].stream) == 2 * SECOND - MaxDiff(FIFTY)
      && MaxDiff(FIFTY) > 0
  {
    StandsStill(s);
    SlowRunGrows(64);
  }

  // ---------------------------------------------------------------- convergence

  ghost predicate SlopesWithin40th(a: Mapping, b: Mapping) {
    40 * Distance(a.num * b.den, b.num * a.den) <= a.den * b.den
  }

  /** The state after a run of frames on which the regression produces nothing new. */
  function SlewAll(s: TimeState, frames: seq<Frame>, rate: Rate): TimeState
    requires s.Shape()
    decreases |frames|
  {
    if frames == [] then s else SlewAll(Step(s, frames[0], rate), frames[1..], rate)
  }

  /** Consecutive frames, one frame apart (up to rounding), without discontinuity or new mapping. */
  predicate Consecutive(t: nat, frames: seq<Frame>, rate: Rate)
    decreases |frames|
  {
    frames != [] ==>
      && t <= frames[0].stream <= t + FrameDuration(rate) + 1
      && !frames[0].discont && frames[0].regression.None?
      && Consecutive(frames[0].stream, frames[1..], rate)
  }

  ghost function Gap(s: TimeState, t: nat): nat { Distance(Adjust(s.next, t), Adjust(s.current, t)) }

  /** The least the gap closes on a frame. */
  function Closing(rate: Rate): int { MaxDiff(rate) / 2 - 3 }

  /** After one slewing step the remaining gap, seen one frame later, is smaller by at least
      Closing, or is already within reach of a single step. */
  lemma GapShrinks(s: TimeState, t: nat, u: nat, rate: Rate)
    requires s.pending && Closing(rate) > 0
    requires SlopesWithin40th(s.current, s.next) && Unclamped(s.next, t)
    requires t <= u <= t + FrameDuration(rate) + 1
    requires MaxDiff(rate) < Gap(s, t) < SNAP_LIMIT
    ensures
      var s' := Slewed(s, t, false, MaxDiff(rate));
      && s'.pending && s'.next == s.next && SlopesWithin40th(s'.current, s'.next)
      && Gap(s', t) == Gap(s, t) - MaxDiff(rate)
      && Unclamped(s'.next, u)
      && Gap(s', u) <= Max(Gap(s, t) - Closing(rate), MaxDiff(rate))
  {
    var m := MaxDiff(rate);
    var s' := Slewed(s, t, false, m);
    SlewMovesAtMostMaxDiff(s, t, false, m);
    AdjustAdvance(s'.current, t, u);
    AdjustAdvance(s'.next, t, u);
    MaxDiffIsATwentieth(rate);
    ScaleCloseFractions(u - t, s'.current.num, s'.current.den, s'.next.num, s'.next.den, 40);
  }

  lemma SettledStaysSettled(s: TimeState, t: nat, frames: seq<Frame>, rate: Rate)
    requires s.Shape() && s.filled && !s.pending && Consecutive(t, frames, rate)
    ensures !SlewAll(s, frames, rate).pending && SlewAll(s, frames, rate).current == s.current
    decreases |frames|
  {
    if frames == [] {
    } else {
      SettledStaysSettled(Step(s, frames[0], rate), frames[0].stream, frames[1..], rate);
    }
  }

  /** Slewing terminates. A pending mapping less than 50 ms away, whose slope differs by at
      most 1/40, is taken over within gap / Closing frames: it is the current mapping then. */
  lemma {:induction false} SlewingConverges(s: TimeState, frames: seq<Frame>, rate: Rate)
    requires s.Shape() && s.filled && s.pending && frames != [] && Closing(rate) > 0
    requires Consecutive(frames[0].stream, frames, rate)
    requires SlopesWithin40th(s.current, s.next) && Unclamped(s.next, frames[0].stream)
    requires Gap(s, frames[0].stream) < SNAP_LIMIT
    requires Gap(s, frames[0].stream) <= MaxDiff(rate) + (|frames| - 1) * Closing(rate)
    ensures !SlewAll(s, frames, rate).pending && SlewAll(s, frames, rate).current == s.next
    decreases |frames|
  {
    var t, rest, c := frames[0].stream, frames[1..], Closing(rate);
    assert |frames| == 1 ==> (|frames| - 1) * c == 0;
    var s' := Step(s, frames[0], rate);
    var s1 := Sampled(s, frames[0].capture, t, rate, None);
    assert s1.(times := s.times, fill := s.fill, skip := s.skip, skipCount := s.skipCount) == s;
    TakesOverPending(s1, t, false, MaxDiff(rate));
    if Gap(s, t) <= MaxDiff(rate) {
      assert !s'.pending;
      SettledStaysSettled(s', t, rest, rate);
    } else {
      var u := rest[0].stream;
      GapShrinks(s1, t, u, rate);
      OneFewer(|rest|, c);
      SlewingConverges(s', rest, rate);
    }
  }

  lemma OneFewer(n: nat, c: nat)
    requires n > 0
    ensures n * c == (n - 1) * c + c && (n - 1) * c >= 0
  {}

  /** The same bound with the numbers of the source: at 60 frames per second any gap below
      50 ms is gone after at most 121 frames, about two seconds. */
  lemma ConvergesWithinTwoSeconds(s: TimeState, frames: seq<Frame>)
    requires s.Shape() && s.filled && s.pending && |frames| >= 121
    requires Consecutive(frames[0].stream, frames, Rate(60, 1))
    requires SlopesWithin40th(s.current, s.next) && Unclamped(s.next, frames[0].stream)
    requires Gap(s, frames[0].stream) < SNAP_LIMIT
    ensures !SlewAll(s, frames, Rate(60, 1)).pending && SlewAll(s, frames, Rate(60, 1)).current == s.next
  {
    var rate: Rate := Rate(60, 1);
    assert Closing(rate) == 416_663;
    MulMonotone(120, |frames| - 1, Closing(rate));
    SlewingConverges(s, frames, rate);
  }
}
