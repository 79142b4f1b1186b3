/** The capture worker: how it numbers frames from the device's counters, what becomes of the
    buffers it takes, and when it reports that there is no frame. How its threads are started and
    stopped is the subject of module Shutdown. */
module CaptureWorker {
  import opened Arithmetic

  type uint32 = x: nat | x < TWO32

  const PATIENCE: nat := 32

  /** What one turn of the worker loop reads: whether a frame is ready, the 32-bit counter of
      dropped frames, whether the input has the expected format, and whether Quit has asked for the
      last frame; and whether each callback is there and takes its buffer. */
  datatype Status = Status(
    running: bool, bufferLevel: nat, framesDropped: uint32, formatMatches: bool, lastFrame: bool,
    videoTakes: bool, audioTakes: bool)

  datatype Frame = Frame(
    frameNumber: nat, audioFrameNumber: uint32, framesProcessed: nat, framesDropped: nat,
    droppedChanged: bool, haveSignal: bool)

  /** What became of a buffer taken from a pool: the callback has it, or the worker released it. */
  datatype Handover = Taken | GivenBack

  /** What one turn of the loop does: take a buffer of each kind and hand a frame to both callbacks,
      tell both that there is no frame, wait for the next interrupt, or end the loop. */
  datatype Action = Deliver(frame: Frame, video: Handover, audio: Handover) | ReportNone | AwaitInterrupt | Finish

  datatype Counters = Counters(
    processed: nat, dropped: nat, lastDropped: uint32, droppedNow: bool, withoutFrame: nat)

  const INITIAL: Counters := Counters(0, 0, 0, false, 0)

  /** Extends the device's 32-bit counter. */
  function Polled(w: Counters, reading: uint32): Counters {
    if w.lastDropped == reading then w
    else
      w.(dropped := w.dropped + (if w.lastDropped > reading then TWO32 - 1 - w.lastDropped + reading
                                 else reading - w.lastDropped),
         lastDropped := reading, droppedNow := true)
  }

  predicate FrameReady(st: Status) { st.running && st.bufferLevel > 1 }

  function HandedOver(taken: bool): Handover { if taken then Taken else GivenBack }

  function Turn(w: Counters, st: Status): (Counters, Action) {
    var w1 := Polled(w, st.framesDropped);
    if FrameReady(st) then
      var number := w1.processed + w1.dropped;
      (w1.(processed := w1.processed + 1, droppedNow := false, withoutFrame := 0),
       Deliver(Frame(number, number % TWO32, w1.processed + 1, w1.dropped, w1.droppedNow, st.formatMatches),
               HandedOver(st.videoTakes), HandedOver(st.audioTakes)))
    else if st.lastFrame then (w1, Finish)
    else if st.formatMatches && w1.withoutFrame < PATIENCE then
      (w1.(withoutFrame := w1.withoutFrame + 1), AwaitInterrupt)
    else
      (w1, ReportNone)
  }

  /** The counters before turn i, and what turn i does. */
  function At(run: seq<Status>, i: nat): Counters
    requires i <= |run|
  {
    if i == 0 then INITIAL else Turn(At(run, i - 1), run[i - 1]).0
  }

  function ActionAt(run: seq<Status>, i: nat): Action
    requires i < |run|
  {
    Turn(At(run, i), run[i]).1
  }

  /** The body of ACInputWorker's loop, on the readings of all turns that its test lets it enter. It
      does what the readings ask for, and ends early exactly when a turn without a frame finds that the
      last one was asked for. */
  method ACInputWorker(run: seq<Status>) returns (actions: seq<Action>)
    ensures |actions| <= |run|
    ensures forall i :: 0 <= i < |actions| ==> actions[i] == ActionAt(run, i)
    ensures forall i :: 0 <= i < |actions| - 1 ==> !actions[i].Finish?
    ensures |actions| < |run| ==> actions != [] && actions[|actions| - 1].Finish?
  {
    var processed: nat, dropped: nat, lastDropped: uint32, droppedNow, withoutFrame: nat := 0, 0, 0, false, 0;
    actions := [];
    for i := 0 to |run|
      invariant At(run, i) == Counters(processed, dropped, lastDropped, droppedNow, withoutFrame)
      invariant |actions| == i && forall j :: 0 <= j < i ==> actions[j] == ActionAt(run, j) && !actions[j].Finish?
    {
      var st := run[i];
      if lastDropped != st.framesDropped {
        if lastDropped > st.framesDropped {
          dropped := dropped + (TWO32 - 1 - lastDropped) + st.framesDropped;
        } else {
          dropped := dropped + st.framesDropped - lastDropped;
        }
        lastDropped := st.framesDropped;
        droppedNow := true;
      }
      if st.running && st.bufferLevel > 1 {
        withoutFrame := 0;
        var number := processed + dropped;
        var frame := Frame(number, number % TWO32, processed + 1, dropped, droppedNow, st.formatMatches);
        droppedNow := false;
        processed := processed + 1;
        var video := if st.videoTakes then Taken else GivenBack;
        var audio := if st.audioTakes then Taken else GivenBack;
        actions := actions + [Deliver(frame, video, audio)];
      } else if st.lastFrame {
        actions := actions + [Finish];
        return;
      } else if st.formatMatches && withoutFrame < PATIENCE {
        withoutFrame := withoutFrame + 1;
        actions := actions + [AwaitInterrupt];
      } else {
        actions := actions + [ReportNone];
      }
    }
  }

  // ------------------------------------------------------------------- the drop counter

  /** The readings of a run are the low 32 bits of a counter that never goes back and moves by
      less than 2^32 between turns. totals[i] is its value at turn i. */
  ghost predicate Samples(run: seq<Status>, totals: seq<nat>) {
    && |totals| == |run|
    && (forall i :: 0 <= i < |run| ==> run[i].framesDropped == totals[i] % TWO32)
    && (|run| > 0 ==> totals[0] < TWO32)
    && (forall i :: 0 < i < |run| ==> totals[i - 1] <= totals[i] < totals[i - 1] + TWO32)
  }

  /** How often a reading was below the one before. */
  function Wraps(run: seq<Status>, i: nat): nat
    requires i <= |run|
  {
    if i < 2 then 0
    else Wraps(run, i - 1) + (if run[i - 1].framesDropped < run[i - 2].framesDropped then 1 else 0)
  }

  /** The extended counter falls behind the true one by exactly one for each wrap. */
  lemma {:induction false} CounterShortByWraps(run: seq<Status>, totals: seq<nat>, i: nat)
    requires Samples(run, totals) && 0 < i <= |run|
    ensures At(run, i).dropped + Wraps(run, i) == totals[i - 1]
    ensures At(run, i).lastDropped == run[i - 1].framesDropped
  {
    var w := At(run, i - 1);
    if i == 1 {
      assert totals[0] % TWO32 == totals[0];
    } else {
      CounterShortByWraps(run, totals, i - 1);
      var a, b := totals[i - 2], totals[i - 1];
      assert a <= b < a + TWO32;
      WrapDistance(a, b);
    }
  }

  lemma WrapDistance(a: nat, b: nat)
    requires a <= b < a + TWO32
    ensures b - a == if b % TWO32 < a % TWO32 then TWO32 - a % TWO32 + b % TWO32 else b % TWO32 - a % TWO32
  {}

  // ------------------------------------------------------------------- frame numbers

  lemma {:induction false} CountersGrow(run: seq<Status>, i: nat, j: nat)
    requires i <= j <= |run|
    ensures At(run, i).dropped <= At(run, j).dropped && At(run, i).processed <= At(run, j).processed
    decreases j
  {
    if i == j {
    } else {
      CountersGrow(run, i, j - 1);
    }
  }

  ghost predicate NoFrameBetween(run: seq<Status>, i: nat, j: nat)
    requires i < j <= |run|
  {
    forall k :: i < k < j ==> !ActionAt(run, k).Deliver?
  }

  /** No reading of turns i + 1 to j differs from the one before it. */
  ghost predicate Quiet(run: seq<Status>, i: nat, j: nat)
    requires i < j < |run|
  {
    forall k :: i < k <= j ==> run[k].framesDropped == run[k - 1].framesDropped
  }

  /** Between two deliveries nothing is processed, and droppedNow remembers whether a reading
      changed. */
  lemma {:induction false} SinceDelivery(run: seq<Status>, i: nat, j: nat)
    requires i < j <= |run| && ActionAt(run, i).Deliver? && NoFrameBetween(run, i, j)
    ensures At(run, j).processed == At(run, i).processed + 1
    ensures At(run, j).lastDropped == run[j - 1].framesDropped
    ensures At(run, j).droppedNow <==> exists k :: i < k < j && run[k].framesDropped != run[k - 1].framesDropped
    decreases j
  {
    if i + 1 == j {
    } else {
      SinceDelivery(run, i, j - 1);
      assert !ActionAt(run, j - 1).Deliver?;
    }
  }

  /** From one delivered frame to the next, the frame number goes up by one plus the drops newly
      counted, the frame is flagged exactly when a reading changed, and the number is always the
      frames processed plus the frames dropped before it. */
  lemma NextFrameNumber(run: seq<Status>, i: nat, j: nat)
    requires i < j < |run| && ActionAt(run, i).Deliver? && ActionAt(run, j).Deliver? && NoFrameBetween(run, i, j)
    ensures
      var a, b := ActionAt(run, i).frame, ActionAt(run, j).frame;
      && b.frameNumber == a.frameNumber + 1 + (b.framesDropped - a.framesDropped) > a.frameNumber
      && b.framesProcessed == a.framesProcessed + 1
      && b.frameNumber + 1 == b.framesProcessed + b.framesDropped
      && (b.droppedChanged <==> !Quiet(run, i, j))
  {
    SinceDelivery(run, i, j);
    CountersGrow(run, i + 1, j);
    assert At(run, i + 1).dropped == ActionAt(run, i).frame.framesDropped;
  }

  /** Any two delivered frames are numbered in order, as the video source relies on. */
  lemma {:induction false} FramesNumberedInOrder(run: seq<Status>, i: nat, j: nat)
    requires i < j < |run| && ActionAt(run, i).Deliver? && ActionAt(run, j).Deliver?
    ensures
      var a, b := ActionAt(run, i).frame, ActionAt(run, j).frame;
      a.frameNumber < b.frameNumber && a.framesProcessed < b.framesProcessed
  {
    CountersGrow(run, i + 1, j);
    assert At(run, i + 1).processed == At(run, i).processed + 1;
    assert At(run, i + 1).dropped == ActionAt(run, i).frame.framesDropped;
  }

  // ------------------------------------------------------------------- what is delivered

  /** The frames delivered before turn i. */
  function Deliveries(run: seq<Status>, i: nat): nat
    requires i <= |run|
  {
    if i == 0 then 0 else Deliveries(run, i - 1) + if ActionAt(run, i - 1).Deliver? then 1 else 0
  }

  lemma {:induction false} ProcessedIsDelivered(run: seq<Status>, i: nat)
    requires i <= |run|
    ensures At(run, i).processed == Deliveries(run, i)
  {
    if i == 0 {
    } else {
      ProcessedIsDelivered(run, i - 1);
    }
  }

  /** A turn delivers a frame exactly when one is ready, and ends the loop exactly when none is and the
      last was asked for. */
  lemma DeliversIff(run: seq<Status>, i: nat)
    requires i < |run|
    ensures ActionAt(run, i).Deliver? <==> run[i].running && run[i].bufferLevel > 1
    ensures ActionAt(run, i).Finish? <==> !(run[i].running && run[i].bufferLevel > 1) && run[i].lastFrame
  {}

  lemma FrameOfTurn(w: Counters, st: Status)
    requires Turn(w, st).1.Deliver?
    ensures
      var a, dropped := Turn(w, st).1, Turn(w, st).0.dropped;
      && (a.frame.haveSignal <==> st.formatMatches)
      && a.frame.audioFrameNumber == a.frame.frameNumber % TWO32
      && (a.video == Taken <==> st.videoTakes) && (a.audio == Taken <==> st.audioTakes)
      && a.frame.framesProcessed == w.processed + 1 && a.frame.framesDropped == dropped
      && a.frame.frameNumber == w.processed + dropped
  {}

  /** Of every delivered frame of every run: it has signal exactly if the format was right, its audio half
      has the low 32 bits of its number, each buffer is with the callback exactly if that takes it and else
      the worker has released it; it counts the frames delivered before it and itself, and the drops
      counted so far, which are short of the true number by one for each wrap. */
  lemma {:induction false} DeliveredFrame(run: seq<Status>, totals: seq<nat>, i: nat)
    requires i < |run| && ActionAt(run, i).Deliver? && Samples(run, totals)
    ensures
      var a, st := ActionAt(run, i), run[i];
      && (a.frame.haveSignal <==> st.formatMatches)
      && a.frame.audioFrameNumber == a.frame.frameNumber % TWO32
      && (a.video == Taken <==> st.videoTakes) && (a.audio == Taken <==> st.audioTakes)
      && a.frame.framesProcessed == Deliveries(run, i) + 1
      && a.frame.framesDropped + Wraps(run, i + 1) == totals[i]
      && a.frame.frameNumber == a.frame.framesDropped + Deliveries(run, i)
  {
    FrameOfTurn(At(run, i), run[i]);
    ProcessedIsDelivered(run, i);
    CounterShortByWraps(run, totals, i + 1);
  }

  // ------------------------------------------------------------------- loss reports

  /** The turns since the last delivery, up to i, that waited for an interrupt. */
  function Waits(run: seq<Status>, i: nat): nat
    requires i <= |run|
  {
    if i == 0 || ActionAt(run, i - 1).Deliver? then 0
    else Waits(run, i - 1) + (if ActionAt(run, i - 1).AwaitInterrupt? then 1 else 0)
  }

  lemma {:induction false} WithoutFrameCountsWaits(run: seq<Status>, i: nat)
    requires i <= |run|
    ensures At(run, i).withoutFrame == Waits(run, i) <= 32
  {
    if i == 0 {
    } else {
      WithoutFrameCountsWaits(run, i - 1);
    }
  }

  /** The callbacks are told that there is no frame exactly when none is ready, the last was not
      asked for, and either the format is wrong or 32 turns have been waited through since the last
      frame. */
  lemma LossReportedIff(run: seq<Status>, i: nat)
    requires i < |run|
    ensures ActionAt(run, i).ReportNone? <==>
      !FrameReady(run[i]) && !run[i].lastFrame && (!run[i].formatMatches || Waits(run, i) == 32)
  {
    WithoutFrameCountsWaits(run, i);
  }
}
