/** The clock built on the device's audio sample counter. */
module HardwareClock {
  import opened Arithmetic

  const COUNTER_RATE: nat := 48_000

  /** GetHardwareClock: the 32-bit sample counter in nanoseconds. */
  function HardwareTime(counter: nat): nat { counter * SECOND / COUNTER_RATE }

  /** The time of a counter value is exact to within a nanosecond; 48000 samples are a second. */
  lemma HardwareTimeExact(counter: nat, seconds: nat)
    ensures HardwareTime(counter) * 48_000 <= counter * 1_000_000_000 < (HardwareTime(counter) + 1) * 48_000
    ensures HardwareTime(48_000 * seconds) == seconds * 1_000_000_000
  {
    FloorBounds(counter * SECOND, COUNTER_RATE);
  }

  datatype ClockState = ClockState(startTime: Option<nat>, offset: int, lastTime: nat, restart: bool)

  /** One successful reading of the hardware: the new state and the time before the epoch is
      added. Times are unsigned, so subtracting too large an offset wraps around. */
  function Read(c: ClockState, hardware: nat): (ClockState, nat) {
    var start := if c.startTime.Some? then c.startTime.value else hardware;
    var elapsed := if hardware > start then hardware - start else 0;
    var offset := if c.restart then elapsed - c.lastTime else c.offset;
    var shifted := (Max(c.lastTime, elapsed) - offset) % TWO64;
    var result := Max(c.lastTime, shifted);
    (ClockState(Some(start), offset, result, false), result)
  }

  class Clock {
    var started: bool
    var startTime: Option<nat>
    var offset: int
    var lastTime: nat
    var restart: bool
    var epoch: nat

    ghost function View(): ClockState
      reads this
    {
      ClockState(startTime, offset, lastTime, restart)
    }

    constructor ()
      ensures !started && epoch == 0 && View() == ClockState(None, 0, 0, false)
    {
      started, startTime, offset, lastTime, restart, epoch := false, None, 0, 0, false, 0;
    }

    /** gst_aja_clock_get_internal_time. counter is the hardware counter, or None when it cannot
        be read. */
    method GetInternalTime(counter: Option<nat>) returns (time: nat)
      modifies this`startTime, this`offset, this`lastTime, this`restart
      ensures
        if started && counter.Some? then
          (View(), time) == (Read(old(View()), HardwareTime(counter.value)).0,
                             Read(old(View()), HardwareTime(counter.value)).1 + epoch)
        else View() == old(View()) && time == lastTime + epoch
    {
      var last, off := lastTime, offset;
      var result: nat := last;
      if started {
        if counter.Some? {
          var hardware := HardwareTime(counter.value);
          result := hardware;
          if startTime.None? {
            startTime := Some(result);
          }
          if result > startTime.value {
            result := result - startTime.value;
          } else {
            result := 0;
          }
          if restart {
            offset := result - last;
            off := offset;
            restart := false;
          }
          result := Max(last, result);
          result := (result - off) % TWO64;
          result := Max(last, result);
        }
        lastTime := result;
      }
      time := result + epoch;
    }
  }

  // ------------------------------------------------------------------- runs

  /** A reading of the hardware clock, a call while the clock is stopped or the counter cannot be
      read, or a request to restart. */
  datatype Event = Reading(hardware: nat) | NoReading | Restart

  function Step(c: ClockState, ev: Event): ClockState {
    match ev
    case Reading(hardware) => Read(c, hardware).0
    case NoReading => c
    case Restart => c.(restart := true)
  }

  function At(c: ClockState, run: seq<Event>, i: nat): ClockState
    requires i <= |run|
  {
    if i == 0 then c else Step(At(c, run, i - 1), run[i - 1])
  }

  /** Reported time never decreases, whatever the hardware does. */
  lemma {:induction false} TimeNeverDecreases(c: ClockState, run: seq<Event>, i: nat, j: nat)
    requires i <= j <= |run|
    ensures At(c, run, i).lastTime <= At(c, run, j).lastTime
    decreases j
  {
    if i == j {
    } else {
      TimeNeverDecreases(c, run, i, j - 1);
    }
  }

  function Elapsed(c: ClockState, hardware: nat): nat {
    if c.startTime.Some? && hardware > c.startTime.value then hardware - c.startTime.value else 0
  }

  /** In any state whatever, the first reading after a restart continues from the last reported time
      exactly when the hardware has come at least that far; otherwise it jumps ahead by what is
      missing. */
  lemma RestartContinuesIff(c: ClockState, hardware: nat)
    requires c.restart && 2 * c.lastTime < TWO64 && Elapsed(c, hardware) < TWO64
    ensures
      var (c', time) := Read(c, hardware);
      && (time == c.lastTime <==> Elapsed(c, hardware) >= c.lastTime)
      && (Elapsed(c, hardware) < c.lastTime ==> time - c.lastTime == c.lastTime - Elapsed(c, hardware))
  {
    var shifted := Max(c.lastTime, Elapsed(c, hardware)) - (Elapsed(c, hardware) - c.lastTime);
    assert shifted % TWO64 == shifted;
  }

  // ------------------------------------------------------------------- hardware that does not go back

  /** Reported time is what the hardware has done since the start, less what restarts have skipped.
      hardware is the last reading; a restart may be pending. */
  ghost predicate InStep(c: ClockState, hardware: nat) {
    && c.startTime.Some? && c.startTime.value <= hardware < TWO64
    && 0 <= c.offset
    && c.lastTime == hardware - c.startTime.value - c.offset
  }

  lemma RestartGetsInStep(c: ClockState, hardware: nat)
    requires c.restart && Elapsed(c, hardware) >= c.lastTime && hardware < TWO64
    requires c.startTime.Some? ==> c.startTime.value <= hardware
    ensures InStep(Read(c, hardware).0, hardware)
  {
    assert c.lastTime % TWO64 == c.lastTime;
  }

  /** A clock that was never read. */
  predicate Unread(c: ClockState) { c.startTime.None? && c.offset == 0 && c.lastTime == 0 }

  lemma FirstReadingGetsInStep(c: ClockState, now: nat)
    requires Unread(c) && now < TWO64
    ensures InStep(Read(c, now).0, now) && Read(c, now).1 == Read(c, now).0.lastTime == 0 && !Read(c, now).0.restart
  {}

  /** Once in step, a reading adds exactly what the hardware has advanced, or repeats the last time
      if a restart was pending. The hardware is then always far enough, and nothing wraps. */
  lemma StaysInStep(c: ClockState, hardware: nat, now: nat)
    requires InStep(c, hardware) && hardware <= now < TWO64
    ensures
      var (c', time) := Read(c, now);
      && Elapsed(c, now) >= c.lastTime && !c'.restart
      && InStep(c', now) && time == c'.lastTime
      && c'.lastTime == c.lastTime + (if c.restart then 0 else now - hardware)
  {
    var elapsed := now - c.startTime.value;
    assert Max(c.lastTime, elapsed) == elapsed;
    assert c.lastTime % TWO64 == c.lastTime;
    assert (elapsed - c.offset) % TWO64 == elapsed - c.offset;
  }

  /** The last reading before event i, if there was one. */
  function LastReading(run: seq<Event>, i: nat): Option<nat>
    requires i <= |run|
  {
    if i == 0 then None
    else if run[i - 1].Reading? then Some(run[i - 1].hardware)
    else LastReading(run, i - 1)
  }

  /** The hardware does not go back and stays within 64 bits. */
  ghost predicate Nondecreasing(run: seq<Event>) {
    forall i :: 0 <= i < |run| && run[i].Reading? ==>
      run[i].hardware < TWO64 && (LastReading(run, i).Some? ==> LastReading(run, i).value <= run[i].hardware)
  }

  /** A restart was requested before event i, and no reading has come since. */
  function RestartPending(run: seq<Event>, i: nat): bool
    requires i <= |run|
  {
    i > 0 && (run[i - 1].Restart? || (run[i - 1].NoReading? && RestartPending(run, i - 1)))
  }

  /** What a run ought to report: from 0 at the first reading, time goes on with the hardware, except
      that what passes between a restart and the next reading, and before, since the last one, does
      not count. */
  function RunningTime(run: seq<Event>, i: nat): int
    requires i <= |run|
  {
    if i == 0 then 0
    else
      var before := RunningTime(run, i - 1);
      if !run[i - 1].Reading? || LastReading(run, i - 1).None? || RestartPending(run, i - 1) then before
      else before + run[i - 1].hardware - LastReading(run, i - 1).value
  }

  ghost predicate KeepsTime(c: ClockState, run: seq<Event>, i: nat)
    requires i <= |run|
  {
    && (if LastReading(run, i).Some? then InStep(c, LastReading(run, i).value) else Unread(c))
    && c.lastTime == RunningTime(run, i) && (c.restart <==> RestartPending(run, i))
  }

  lemma KeepsTimeOnce(c: ClockState, run: seq<Event>, i: nat)
    requires i < |run| && Nondecreasing(run) && KeepsTime(c, run, i)
    ensures KeepsTime(Step(c, run[i]), run, i + 1)
  {
    if run[i].Reading? {
      if LastReading(run, i).Some? {
        StaysInStep(c, LastReading(run, i).value, run[i].hardware);
      } else {
        FirstReadingGetsInStep(c, run[i].hardware);
      }
    }
  }

  const NEW: ClockState := ClockState(None, 0, 0, false)

  /** Over every run of readings, restarts and stops of a new clock, as long as the hardware does not
      go back: reported time is exactly the running time. It continues from the last time across
      every restart, advances exactly with the hardware in between, and never wraps. */
  lemma {:induction false} RunsKeepTime(run: seq<Event>, i: nat)
    requires i <= |run| && Nondecreasing(run)
    ensures KeepsTime(At(NEW, run, i), run, i)
  {
    if i == 0 {
    } else {
      RunsKeepTime(run, i - 1);
      KeepsTimeOnce(At(NEW, run, i - 1), run, i - 1);
    }
  }

  // ------------------------------------------------------------------- hardware that does go back

  /** When exactly one reading wraps around: when the offset exceeds both the last time and the
      elapsed hardware time. */
  lemma ReadingWrapsIff(c: ClockState, hardware: nat)
    requires !c.restart && 0 <= c.offset < TWO64 && c.lastTime < TWO64 && Elapsed(c, hardware) < TWO64
    ensures
      var exact := Max(c.lastTime, Elapsed(c, hardware)) - c.offset;
      Read(c, hardware).1 == Max(c.lastTime, exact) <==> exact >= 0 || TWO64 + exact <= c.lastTime
  {}

  /** The sample counter has 32 bits and wraps after a day. At the first reading after that, a clock
      that was in step leaps to the end of the 64-bit range exactly when restarts have skipped more
      than the time it last reported and more than the counter shows; otherwise it stands still. */
  lemma CounterWrapLeapsIff(c: ClockState, before: nat, after: nat)
    requires after < before < TWO32
    requires InStep(c, HardwareTime(before)) && !c.restart
    ensures
      var shown := Max(c.lastTime, Elapsed(c, HardwareTime(after)));
      Read(c, HardwareTime(after)).1 == if c.offset > shown then TWO64 + shown - c.offset else c.lastTime
    ensures
      Read(c, HardwareTime(after)).1 > c.lastTime
      <==> c.offset > Max(c.lastTime, Elapsed(c, HardwareTime(after)))
  {
    var shown := Max(c.lastTime, Elapsed(c, HardwareTime(after)));
    CounterRange(before);
    ScaleStrict(after, before, SECOND, COUNTER_RATE);
    assert c.offset > shown ==> (shown - c.offset) % TWO64 == TWO64 + shown - c.offset;
    assert c.offset <= shown ==> (shown - c.offset) % TWO64 == shown - c.offset;
  }

  lemma CounterRange(counter: nat)
    requires counter < TWO32
    ensures HardwareTime(counter) < TWO64 / 4
  {}

  /** Such a run: the clock is read once, restarted just before the counter wraps, and read again
      before and after that. */
  lemma CounterWrapLeaps()
    ensures
      var run := [Reading(HardwareTime(0)), Restart, Reading(HardwareTime(TWO32 - 1)), Reading(HardwareTime(0))];
      && InStep(At(NEW, run, 3), HardwareTime(TWO32 - 1)) && At(NEW, run, 3).lastTime == 0
      && At(NEW, run, 4).lastTime == TWO64 - HardwareTime(TWO32 - 1)
  {
    var run := [Reading(HardwareTime(0)), Restart, Reading(HardwareTime(TWO32 - 1)), Reading(HardwareTime(0))];
    var c := ClockState(Some(0), 0, 0, false);
    assert At(NEW, run, 1) == c;
    assert At(NEW, run, 2) == c.(restart := true);
    assert At(NEW, run, 3) == ClockState(Some(0), HardwareTime(TWO32 - 1), 0, false);
    CounterWrapLeapsIff(At(NEW, run, 3), TWO32 - 1, 0);
  }
}
