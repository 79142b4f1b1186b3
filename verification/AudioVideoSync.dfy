/** Audio and video packets of the same frame get the same times. The worker passes every frame
    to the video source first and then to the audio source, which reads the times of the video
    source's current segment. Between the two callbacks other threads may use the video source, and
    may even start the streams anew. */
module AudioVideoSync {
  import opened Arithmetic
  import opened TimeMapping
  import Video = VideoSource
  import Audio = AudioSource
  import Element = VideoElement
  import Walks

  /** Segments start at a frame already seen. The worker's numbers go up, so this holds in every
      run for every next frame. */
  predicate SegmentBehind(s: Video.VideoState, frameNumber: nat) {
    s.timing.discontTime.Some? ==> s.timing.discontFrame <= frameNumber
  }

  /** What the video source decided about a frame, in the audio source's terms. */
  function AsVerdict(o: Video.Outcome): Audio.Verdict
    requires o.Skipped? || o.Taken?
  {
    if o.Skipped? then Audio.Skip else Audio.Times(o.captureTime, o.streamTime)
  }

  lemma VideoDecides(s: Element.Element, c: Video.Capture)
    requires c.buff.Some? && c.buff.value.haveSignal
    ensures
      var v, o, n := Video.FrameGot(s, c), Video.Judged(s, c).1, c.buff.value.frameNumber;
      && Audio.SeenByVideo(v) && v.timing.discontFrame <= Max(s.timing.discontFrame, n)
      && (o.Skipped? || o.Taken?)
      && AsVerdict(o) == Audio.Judged(Some(v), n)
      && (SegmentBehind(s, n) ==> v.timing.discontFrame <= n)
  {}

  /** Two frame numbers 64 bits wide give the same stream time only if they are equal. */
  lemma StreamTimeInjective(t0: nat, n0: nat, n: nat, m: nat, rate: Rate)
    requires n0 <= n < TWO64 && m < n && rate.n <= rate.d * SECOND
    ensures Video.StreamTime(t0, n0, m, rate) != Video.StreamTime(t0, n0, n, rate)
  {
    if n0 <= m {
      ScaleStrict(m - n0, n - n0, rate.d * SECOND, rate.n);
    } else {
      var wrapped := Sub64(m, n0);
      assert wrapped == TWO64 + m - n0;
      ScaleStrict(n - n0, wrapped, rate.d * SECOND, rate.n);
    }
  }

  /** The times of a packet, told by the video source's segment: its stream time x is exact to within 1 ns;
      it is skipped exactly if that is less than the skip time after the first frame, as an unsigned
      difference; else its timestamp is x, or what the mapping of the video source makes of x. Without a
      video source it gets none. */
  lemma AudioTimes(v: Video.VideoState, n: nat) returns (x: nat)
    requires Audio.SeenByVideo(v) && v.timing.discontFrame <= n
    ensures
      var t, rate, j := v.timing, v.cfg.rate, Audio.Judged(Some(v), n);
      && (x - t.discontTime.value) * rate.n <= (n - t.discontFrame) * (rate.d * 1_000_000_000)
      && (n - t.discontFrame) * (rate.d * 1_000_000_000) < (x - t.discontTime.value + 1) * rate.n
      && (j.Skip? <==>
            var first := t.firstTime.value;
            v.cfg.skipFirstTime > 0 && (if x >= first then x - first else (x - first) % TWO64) < v.cfg.skipFirstTime)
      && (j.Times? ==>
            j.streamTime == x && j.timestamp == if v.cfg.outputStreamTime then x else Adjust(t.time.current, x))
    ensures Audio.Judged(None, n) == Audio.Times(TWO64 - 1, TWO64 - 1)
  {
    x := Audio.StreamTime(v, n);
    ScaleBounds(n - v.timing.discontFrame, v.cfg.rate.d * SECOND, v.cfg.rate.n);
  }

  // ------------------------------------------------------------------- between the two callbacks

  /** The video source after other threads have made these calls. */
  function Meanwhile(s: Element.Element, calls: seq<Element.Call>): Element.Element {
    Walks.After(Element.Called, s, calls)
  }

  /** The worker itself does not call the video source before it has called audio. */
  predicate OtherThreads(calls: seq<Element.Call>) { forall call :: call in calls ==> !call.FrameCall? }

  lemma OthersKeepTimes(s: Element.Element, call: Element.Call)
    requires !call.FrameCall? && !call.StartStreamsCall?
    ensures Element.Called(s, call).timing == s.timing
  {}

  lemma {:induction false} TimesKept(s: Element.Element, calls: seq<Element.Call>)
    requires OtherThreads(calls) && Element.OneStart(calls)
    ensures Meanwhile(s, calls).timing == s.timing && Meanwhile(s, calls).cfg == s.cfg
    decreases |calls|
  {
    if calls == [] {
    } else {
      TimesKept(s, calls[..|calls| - 1]);
      OthersKeepTimes(Meanwhile(s, calls[..|calls| - 1]), calls[|calls| - 1]);
    }
  }

  lemma {:induction false} TimesForgotten(s: Element.Element, calls: seq<Element.Call>)
    requires OtherThreads(calls) && !Element.OneStart(calls)
    ensures Meanwhile(s, calls).timing.firstTime.None?
    decreases |calls|
  {
    var front, call := calls[..|calls| - 1], calls[|calls| - 1];
    assert calls == front + [call];
    if call.StartStreamsCall? {
      assert Element.Called(Meanwhile(s, front), call) == Video.StreamsStarted(Meanwhile(s, front));
    } else {
      TimesForgotten(s, front);
      OthersKeepTimes(Meanwhile(s, front), call);
    }
  }

  /** As long as the video source has the times it gave to the frame. */
  lemma NumberDecides(s: Element.Element, c: Video.Capture, v: Video.VideoState)
    requires c.buff.Some? && c.buff.value.haveSignal
    requires c.buff.value.frameNumber < TWO64 && SegmentBehind(s, c.buff.value.frameNumber)
    requires s.cfg.rate.n <= s.cfg.rate.d * SECOND
    requires v.timing == Video.FrameGot(s, c).timing && v.cfg == s.cfg
    ensures
      var n := c.buff.value.frameNumber;
      && Audio.SeenByVideo(v)
      && (Audio.StreamTime(v, n % TWO32) == Audio.StreamTime(v, n) <==> n < TWO32)
      && (n < TWO32 ==> Audio.Judged(Some(v), n % TWO32) == AsVerdict(Video.Judged(s, c).1))
  {
    var w, n := Video.FrameGot(s, c), c.buff.value.frameNumber;
    VideoDecides(s, c);
    SameTimes(w, v, n % TWO32);
    SameTimes(w, v, n);
    if n >= TWO32 {
      StreamTimeInjective(w.timing.discontTime.value, w.timing.discontFrame, n, n % TWO32, w.cfg.rate);
    }
  }

  /** When the audio source comes to look at the video source, its assertion that the video source
      has seen the frame holds exactly if the streams were not started in between. Then audio, whose
      frame number has only 32 bits, takes the same stream time as video exactly when the frame
      number fits, and with it the same decision to skip and the same timestamp. */
  lemma AudioAgreesIff(s: Element.Element, c: Video.Capture, between: seq<Element.Call>)
    requires c.buff.Some? && c.buff.value.haveSignal && OtherThreads(between)
    requires c.buff.value.frameNumber < TWO64 && SegmentBehind(s, c.buff.value.frameNumber)
    requires s.cfg.rate.n <= s.cfg.rate.d * SECOND
    ensures
      var v, n := Meanwhile(Video.FrameGot(s, c), between), c.buff.value.frameNumber;
      && (Audio.SeenByVideo(v) <==> Element.OneStart(between))
      && (Audio.SeenByVideo(v) ==>
            && (Audio.StreamTime(v, n % TWO32) == Audio.StreamTime(v, n) <==> n < TWO32)
            && (n < TWO32 ==> Audio.Judged(Some(v), n % TWO32) == AsVerdict(Video.Judged(s, c).1)))
  {
    var w := Video.FrameGot(s, c);
    if Element.OneStart(between) {
      TimesKept(w, between);
      NumberDecides(s, c, Meanwhile(w, between));
    } else {
      TimesForgotten(w, between);
    }
  }

  lemma SameTimes(w: Video.VideoState, v: Video.VideoState, n: nat)
    requires v.timing == w.timing && v.cfg == w.cfg && Audio.SeenByVideo(w)
    ensures Audio.SeenByVideo(v) && Audio.StreamTime(v, n) == Audio.StreamTime(w, n)
    ensures Audio.Judged(Some(v), n) == Audio.Judged(Some(w), n)
  {}

  // ------------------------------------------------------------------- runs

  /** The current segment started at a frame already seen. */
  predicate StartSeen(m: Element.Moment) {
    m.s.timing.discontTime.Some? ==> m.s.timing.discontFrame <= m.sys.feed.lastNumber
  }

  lemma StartSeenOnFrame(m: Element.Moment, c: Video.Capture)
    requires StartSeen(m) && Element.CanCall(m, Element.FrameCall(c))
    ensures StartSeen(Element.Next(m, Element.FrameCall(c)))
  {
    if c.buff.Some? && c.buff.value.haveSignal {
      VideoDecides(m.s, c);
    }
  }

  lemma StartSeenElse(m: Element.Moment, call: Element.Call)
    requires StartSeen(m) && !call.FrameCall?
    ensures StartSeen(Element.Next(m, call))
  {}

  /** In every run of the video element the current segment started at a frame already seen. */
  lemma {:induction false} SegmentBehindInRuns(s: Element.Element, calls: seq<Element.Call>)
    requires Element.Fresh(s) && Element.Feasible(s, calls)
    ensures StartSeen(Element.Now(s, calls))
    decreases |calls|
  {
    if calls == [] {
    } else {
      var front, call := calls[..|calls| - 1], calls[|calls| - 1];
      SegmentBehindInRuns(s, front);
      if call.FrameCall? {
        StartSeenOnFrame(Element.Now(s, front), call.c);
      } else {
        StartSeenElse(Element.Now(s, front), call);
      }
    }
  }

  /** So audio agrees with video on every frame of every run, up to 2^32 frames, if and only if the
      streams are not started between the two callbacks. */
  lemma AudioAgreesInRuns(s: Element.Element, calls: seq<Element.Call>, c: Video.Capture, between: seq<Element.Call>)
    requires Element.Fresh(s) && Element.Feasible(s, calls)
    requires Element.CanCall(Element.Now(s, calls), Element.FrameCall(c))
    requires c.buff.Some? && c.buff.value.haveSignal && c.buff.value.frameNumber < TWO32 && OtherThreads(between)
    requires s.cfg.rate.n <= s.cfg.rate.d * SECOND
    ensures
      var before := Element.AfterCalls(s, calls);
      var v := Meanwhile(Video.FrameGot(before, c), between);
      if Element.OneStart(between) then
        && Audio.SeenByVideo(v)
        && Audio.Judged(Some(v), c.buff.value.frameNumber % TWO32) == AsVerdict(Video.Judged(before, c).1)
      else !Audio.SeenByVideo(v)
  {
    Element.RunRefines(s, calls);
    SegmentBehindInRuns(s, calls);
    NumberAhead(Element.Now(s, calls), c);
    AudioAgreesIff(Element.AfterCalls(s, calls), c, between);
  }

  lemma NumberAhead(m: Element.Moment, c: Video.Capture)
    requires StartSeen(m) && Element.CanCall(m, Element.FrameCall(c)) && c.buff.Some?
    ensures SegmentBehind(m.s, c.buff.value.frameNumber)
  {}

  lemma StartForgets(m: Element.Moment)
    ensures !Audio.SeenByVideo(Element.Next(m, Element.StartStreamsCall).s)
  {}

  lemma OneFrame(s: Element.Element) returns (p: Element.Path)
    requires Element.Fresh(s)
    ensures Element.Walked(s, p) && |p.steps| == 2 && p.steps[1] == Element.FrameCall(Element.FrameAt(0, 0))
  {
    var m := Element.AtStart(s);
    Element.FirstFrameShown(m);
    p := Element.WalkShow(s, Walks.Walk([], [m]), Element.FrameAt(0, 0));
  }

  /** The run in which the assertion fails: a frame is passed to the video source, the streams are
      started again, and then the frame's audio is passed to the audio source. */
  lemma AssertionFails(s: Element.Element) returns (p: Element.Path, c: Video.Capture)
    requires Element.Fresh(s)
    ensures Element.Walked(s, p) && |p.steps| == 3
    ensures p.steps[1] == Element.FrameCall(c) && c.buff.Some? && c.buff.value.haveSignal
    ensures p.steps[2] == Element.StartStreamsCall && !Audio.SeenByVideo(Walks.End(p).s)
  {
    c := Element.FrameAt(0, 0);
    p := OneFrame(s);
    StartForgets(Walks.End(p));
    p := Element.WalkOn(s, p, Element.StartStreamsCall);
  }
}
