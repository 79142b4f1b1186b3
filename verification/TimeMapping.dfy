/** The mapping from stream time to pipeline time kept by the video source: a window of
    measured pairs, a regression over that window, and a mapping that follows the
    regression in small steps. */
module TimeMapping {
  import opened Arithmetic

  const WINDOW: nat := 64
  const SNAP_LIMIT: nat := 50 * MSECOND

  datatype RawMapping = Mapping(xbase: nat, b: nat, num: nat, den: nat)
  type Mapping = m: RawMapping | m.den > 0 witness Mapping(0, 0, 1, 1)

  const IDENTITY: Mapping := Mapping(0, 0, 1, 1)

  datatype RawRate = Rate(n: nat, d: nat)
  type Rate = r: RawRate | r.n > 0 && r.d > 0 witness Rate(25, 1)

  /** gst_clock_adjust_with_calibration, clamped at 0 below the base point. */
  function Adjust(m: Mapping, t: nat): nat {
    if t >= m.xbase then
      m.b + Scale(t - m.xbase, m.num, m.den)
    else
      var back := Scale(m.xbase - t, m.num, m.den);
      if m.b > back then m.b - back else 0
  }

  /** Frames per second, rounded up. */
  function FramesPerSecond(rate: Rate): nat { (rate.n + rate.d - 1) / rate.d }

  function FrameDuration(rate: Rate): nat { Scale(SECOND, rate.d, rate.n) }

  /** A twentieth of a frame: the most the mapping may move on one frame. */
  function MaxDiff(rate: Rate): nat { Scale(SECOND / 20, rate.d, rate.n) }

  datatype TimeState = TimeState(
    times: seq<nat>, fill: nat, filled: bool, skip: nat, skipCount: nat,
    current: Mapping, next: Mapping, pending: bool)
  {
    predicate Shape() { |times| == 4 * WINDOW && fill < WINDOW }
  }

  function Bumped(count: nat, skip: nat): nat { if count + 1 >= skip then 0 else count + 1 }

  function WidenedSkip(skip: nat, fps: nat): nat {
    var doubled := if skip < 4 * fps then skip * 2 else skip;
    if doubled >= 4 * fps then 4 * fps else doubled
  }

  /** Stores one measured pair and, when the window is full, starts the next fill. */
  function Recorded(s: TimeState, capture: nat, stream: nat, rate: Rate): TimeState
    requires s.Shape()
  {
    var s1 := s.(times := s.times[2 * s.fill := stream][2 * s.fill + 1 := capture],
                 fill := s.fill + 1,
                 skipCount := Bumped(s.skipCount, s.skip));
    if s1.fill >= WINDOW then
      s1.(skip := WidenedSkip(s.skip, FramesPerSecond(rate)), fill := 0, filled := true)
    else
      s1
  }

  /** The very first pair after a start is taken as the mapping. */
  predicate Anchors(s: TimeState) { s.skipCount == 0 && !s.filled && s.fill == 0 }

  /** The sampling half of an update. regression is what the least-squares fit over the
      window returned, or None when it failed. */
  function Sampled(s: TimeState, capture: nat, stream: nat, rate: Rate, regression: Option<Mapping>): TimeState
    requires s.Shape()
  {
    if s.skipCount != 0 then
      s.(skipCount := Bumped(s.skipCount, s.skip))
    else
      var s1 := Recorded(s, capture, stream, rate);
      var s2 := if !s1.filled && s1.fill == 1 then
                  s1.(current := Mapping(stream, capture, 1, 1), pending := false)
                else s1;
      if s2.filled && regression.Some? then s2.(next := regression.value, pending := true) else s2
  }

  /** The slewing half of an update: move the mapping towards the pending one. */
  function Slewed(s: TimeState, stream: nat, discont: bool, maxDiff: nat): TimeState {
    var expected, target := Adjust(s.current, stream), Adjust(s.next, stream);
    var diff := Distance(target, expected);
    if !s.pending then s
    else if !discont && diff > maxDiff && diff < SNAP_LIMIT then
      s.(current := s.current.(b := if target > expected then expected + maxDiff else expected - maxDiff,
                               xbase := stream))
    else
      s.(current := s.next, pending := false)
  }

  function Updated(s: TimeState, capture: nat, stream: nat, discont: bool, rate: Rate,
                   regression: Option<Mapping>): (s': TimeState)
    requires s.Shape()
    ensures s'.Shape()
  {
    Slewed(Sampled(s, capture, stream, rate, regression), stream, discont, MaxDiff(rate))
  }

  /** What start_streams resets; the pending flag and the array contents are left alone. */
  function Restarted(s: TimeState): TimeState {
    s.(fill := 0, filled := false, skip := 1, skipCount := 0, current := IDENTITY, next := IDENTITY)
  }

  class TimeMapper {
    const times: array<nat>
    var fill: nat
    var filled: bool
    var skip: nat
    var skipCount: nat
    var current: Mapping
    var next: Mapping
    var pending: bool

    ghost predicate Valid()
      reads this
    {
      times.Length == 4 * WINDOW && fill < WINDOW
    }

    ghost function View(): (s: TimeState)
      reads this, times
      ensures Valid() ==> s.Shape()
    {
      TimeState(times[..], fill, filled, skip, skipCount, current, next, pending)
    }

    constructor ()
      ensures Valid() && fresh(times)
      ensures fill == 0 && !filled && skip == 1 && skipCount == 0 && !pending
      ensures current == next == IDENTITY
    {
      times := new nat[4 * WINDOW](_ => 0);
      fill, filled, skip, skipCount := 0, false, 1, 0;
      current, next, pending := IDENTITY, IDENTITY, false;
    }

    method Restart()
      requires Valid()
      modifies this
      ensures Valid() && View() == Restarted(old(View()))
    {
      fill, filled, skip, skipCount := 0, false, 1, 0;
      current, next := IDENTITY, IDENTITY;
    }

    method BumpSkipCount()
      modifies this`skipCount
      ensures skipCount == Bumped(old(skipCount), skip)
    {
      skipCount := skipCount + 1;
      if skipCount >= skip {
        skipCount := 0;
      }
    }

    method Sample(capture: nat, stream: nat, rate: Rate, regression: Option<Mapping>)
      requires Valid()
      modifies this, times
      ensures Valid() && View() == Sampled(old(View()), capture, stream, rate, regression)
    {
      if skipCount == 0 {
        times[2 * fill], times[2 * fill + 1] := stream, capture;
        fill := fill + 1;
        BumpSkipCount();
        if fill >= WINDOW {
          var fps := FramesPerSecond(rate);
          if skip < 4 * fps {
            skip := skip * 2;
          }
          if skip >= 4 * fps {
            skip := 4 * fps;
          }
          fill, filled := 0, true;
        }
        if !filled && fill == 1 {
          current := Mapping(stream, capture, 1, 1);
          pending := false;
        }
        if filled && regression.Some? {
          next, pending := regression.value, true;
        }
      } else {
        BumpSkipCount();
      }
    }

    /** gst_aja_video_src_update_time_mapping. */
    method Update(capture: nat, stream: nat, discont: bool, rate: Rate, regression: Option<Mapping>)
      requires Valid()
      modifies this, times
      ensures Valid() && View() == Updated(old(View()), capture, stream, discont, rate, regression)
    {
      Sample(capture, stream, rate, regression);
      if pending {
        var expected, target := Adjust(current, stream), Adjust(next, stream);
        var diff := if target > expected then target - expected else expected - target;
        var maxDiff := MaxDiff(rate);
        if !discont && diff > maxDiff && diff < SNAP_LIMIT {
          if target > expected {
            current := current.(b := expected + maxDiff, xbase := stream);
          } else {
            current := current.(b := expected - maxDiff, xbase := stream);
          }
        } else {
          current := next;
          pending := false;
        }
      }
    }
  }
}
