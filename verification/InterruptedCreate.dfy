/** create reads skipped_overall after it has given up the queue lock. A run in which frames that
    arrive in between make the statistics of its QoS message wrap around. */
module InterruptedCreate {
  import opened Arithmetic
  import opened DropAccounting
  import opened VideoSource
  import opened VideoElement
  import Walks
  import Runs = VideoRuns

  /** Frame n of the run. The device dropped one frame before the first, which says so. */
  function Numbered(n: nat): VideoBuff { VideoBuff(n, n, true, n, 1, n == 1) }

  function Captured(n: nat): Capture { Capture(Some(Numbered(n)), 0, None) }

  // ------------------------------------------------------------------- the queue, of size two

  predicate PlainFrame(e: Entry) { e.buff.Some? && e.change == NoChange }

  /** The queue has room. */
  lemma Fits(q: Queue, e: RealEntry)
    requires |q.frames| < 2 && q.skips.last == 0
    ensures Enqueued(q, 2, e).frames == q.frames + [e] && Enqueued(q, 2, e).skips == q.skips
  {}

  lemma DropsOne(q: Queue, e: RealEntry)
    requires |q.frames| == 2 && PlainFrame(q.frames[0])
    ensures
      var q' := Enqueued(q, 2, e);
      q'.frames == [q.frames[1], e] && q'.skips.last == q.skips.last + 1 && q'.skips.overall == q.skips.overall
  {
    assert q.frames[..1] == [q.frames[0]];
    RealsOne(q.frames[0]);
  }

  lemma RealsTwoAndALoss(a: RealEntry, b: RealEntry)
    ensures Reals([a, b, Placeholder(LostSignal)]) == [a, b]
  {
    var lost := Placeholder(LostSignal);
    assert [a, b, lost] == [a] + ([b] + [lost]);
    RealsAppend([a], [b] + [lost]);
    RealsAppend([b], [lost]);
    RealsOne(a);
    RealsOne(b);
    RealsOne(lost);
  }

  /** Two frames and a loss are dropped to make room behind the placeholder of the recovery. */
  lemma DropsThree(q: Queue, a: RealEntry, b: RealEntry, e: RealEntry)
    requires q.frames == [a, b, Placeholder(LostSignal), Placeholder(RecoveredSignal)]
    requires PlainFrame(a) && PlainFrame(b)
    ensures
      var q' := Enqueued(q, 2, e);
      && q'.frames == [Placeholder(RecoveredSignal), e]
      && q'.skips.last == q.skips.last + 2 && q'.skips.overall == q.skips.overall
  {
    assert q.frames[..3] == [a, b, Placeholder(LostSignal)];
    RealsTwoAndALoss(a, b);
  }

  /** Only a placeholder is dropped, so the burst of drops is over. */
  lemma EndsTheBurst(q: Queue, e: RealEntry)
    requires |q.frames| == 2 && q.frames[0].buff.None? && q.skips.last > 0
    ensures Enqueued(q, 2, e).skips.overall == q.skips.overall + q.skips.last
  {
    assert q.frames[..1] == [q.frames[0]];
    RealsOne(q.frames[0]);
    assert CaptureTimes([]) == [];
  }

  // ------------------------------------------------------------------- the run

  ghost predicate IdsBetween(q: Queue, low: nat, high: nat) {
    forall id :: id in Ids(Reals(q.frames)) ==> low <= id <= high
  }

  /** create holds the first frame, and frames up to n have been shown. */
  ghost predicate Holding(m: Moment, n: nat) {
    && m.s.core == m.sys.core && m.s.cfg.queueSize == m.sys.size == 2 && m.s.cfg.skipFirstTime == 0
    && !m.s.core.q.flushing && IdsBetween(m.s.core.q, 2, n)
    && m.sys.held.Some? && m.sys.held.value.overall == 0 && m.sys.held.value.entry.buff == Some(Numbered(1))
    && m.sys.feed == Runs.Feed(None, n, n) && m.sys.downstream == multiset{} && n >= 1
  }

  /** A frame is shown and taken with outcome o: what that does to all but the times. */
  predicate ShownAs(m: Moment, m': Moment, n: nat, o: Outcome) {
    && o.Taken? && o.buff == Numbered(n)
    && m'.s.cfg == m.s.cfg && m'.s.core == Reacted(m.s.core, m.s.cfg.queueSize, o)
    && m'.sys.size == m.sys.size && m'.sys.core == Reacted(m.sys.core, m.sys.size, o)
    && m'.sys.feed == Runs.Feed(None, n, n)
    && m'.sys.held == m.sys.held && m'.sys.downstream == m.sys.downstream
  }

  lemma ShownIsTaken(m: Moment, n: nat) returns (o: Outcome)
    requires m.s.cfg.skipFirstTime == 0
    ensures ShownAs(m, Shown(m, Captured(n)), n, o)
  {
    o := Judged(m.s, Captured(n)).1;
    ShownParts(m, Captured(n));
  }

  lemma WalkShown(s: Element, p: Path, n: nat) returns (p': Path, o: Outcome)
    requires Walked(s, p) && Quiet(p.steps) && CanShow(Walks.End(p).sys, Numbered(n))
    requires Walks.End(p).s.cfg.skipFirstTime == 0
    ensures Walked(s, p') && Quiet(p'.steps) && ShownAs(Walks.End(p), Walks.End(p'), n, o)
  {
    o := ShownIsTaken(Walks.End(p), n);
    ShowingIsQuiet(p.steps, Captured(n));
    p' := WalkShow(s, p, Captured(n));
  }

  lemma IdsStayBetween(q: Queue, e: RealEntry, low: nat, n: nat)
    requires IdsBetween(q, low, n) && e.buff.value.id == n + 1 && low <= n + 1
    ensures IdsBetween(Enqueued(q, 2, e), low, n + 1)
  {
    Runs.EnqueuedIds(q, 2, e);
  }

  lemma NextCanArrive(m: Moment, n: nat)
    requires Holding(m, n)
    ensures CanShow(m.sys, Numbered(n + 1))
  {
    assert n + 1 !in Ids(Reals(m.s.core.q.frames));
    assert m.sys.held.value.entry.buff.value.id == 1;
  }

  ghost predicate Arrived(m: Moment, m': Moment, n: nat, e: RealEntry) {
    Holding(m', n + 1) && m'.s.core == Core(Available, Enqueued(SignalNoted(m.s.core).q, 2, e))
  }

  /** The next frame arrives while create is held up. */
  lemma NextArrives(m: Moment, m': Moment, n: nat, o: Outcome) returns (e: RealEntry)
    requires Holding(m, n) && ShownAs(m, m', n + 1, o)
    ensures PlainFrame(e) && Arrived(m, m', n, e)
  {
    e := EntryOf(o, m.s.core.signal);
    Runs.SignalNotedKeepsReals(m.s.core);
    IdsStayBetween(SignalNoted(m.s.core).q, e, 2, n);
    assert Reacted(m.s.core, 2, o) == Core(Available, Enqueued(SignalNoted(m.s.core).q, 2, e));
  }

  lemma LossArrives(m: Moment, n: nat)
    requires Holding(m, n)
    ensures CanCall(m, SIGNAL_LOST) && Holding(Next(m, SIGNAL_LOST), n)
    ensures Next(m, SIGNAL_LOST).s.core == LossNoted(m.s.core)
  {
    Runs.LossNotedKeepsReals(m.s.core);
  }

  /** What the run needs to know of the queue. */
  predicate Stage(m: Moment, signal: SignalState, frames: seq<Entry>, last: nat, overall: nat) {
    m.s.core.signal == signal && m.s.core.q.frames == frames
    && m.s.core.q.skips.last == last && m.s.core.q.skips.overall == overall
  }

  /** The first frame is queued. */
  ghost predicate Opened(m: Moment, e: RealEntry) {
    && m.s.core == m.sys.core && m.s.cfg.queueSize == m.sys.size == 2 && m.s.cfg.skipFirstTime == 0
    && m.s.core == Core(Available, Runs.FRESH.q.(frames := [Placeholder(GotSignal), e]))
    && e.buff == Some(Numbered(1)) && e.change == NoChange && m.sys.held.None?
    && m.sys.feed == Runs.Feed(None, 1, 1) && m.sys.downstream == multiset{}
  }

  lemma FirstOpens(m: Moment, m': Moment, o: Outcome)
    requires Fresh(m.s) && m == AtStart(m.s) && m.s.cfg.skipFirstTime == 0 && m.s.cfg.queueSize == 2
    requires ShownAs(m, m', 1, o)
    ensures Opened(m', EntryOf(o, Unknown))
  {
    FirstQueued(o);
  }

  lemma FirstDequeued(m: Moment, e: RealEntry)
    requires Opened(m, e)
    ensures CanCall(m, DequeueCall) && Holding(Next(m, DequeueCall), 1)
    ensures Stage(Next(m, DequeueCall), Available, [], 0, 0)
  {
    var q := m.s.core.q;
    assert q.frames[1..] == [e] && [e][1..] == [];
    assert Notified([], GotSignal) == [GotSignal];
    var q1 := q.(frames := [e], notified := [GotSignal]);
    assert Dequeued(q) == Dequeued(q1);
    assert Dequeued(q1) == (Runs.FRESH.q.(notified := [GotSignal]), Frame(e));
  }

  /** The first frame waits behind the placeholder of its signal. */
  lemma FirstQueued(o: Outcome)
    requires o.Taken?
    ensures
      var k := Reacted(Runs.FRESH, 2, o);
      k == Core(Available, Runs.FRESH.q.(frames := [Placeholder(GotSignal), EntryOf(o, Unknown)]))
  {
    Fits(SignalNoted(Runs.FRESH).q, EntryOf(o, Unknown));
  }

  lemma CreateHolds(s: Element) returns (p: Path)
    requires Fresh(s) && s.cfg.skipFirstTime == 0 && s.cfg.queueSize == 2
    ensures Walked(s, p) && Quiet(p.steps) && Holding(Walks.End(p), 1) && Stage(Walks.End(p), Available, [], 0, 0)
  {
    var m := AtStart(s);
    var o: Outcome;
    p, o := WalkShown(s, Walks.Walk([], [m]), 1);
    FirstOpens(m, Walks.End(p), o);
    FirstDequeued(Walks.End(p), EntryOf(o, Unknown));
    p := WalkOn(s, p, DequeueCall);
  }

  lemma Arrives(s: Element, p: Path, n: nat) returns (p': Path, e: RealEntry)
    requires Walked(s, p) && Quiet(p.steps) && Holding(Walks.End(p), n)
    ensures Walked(s, p') && Quiet(p'.steps) && PlainFrame(e) && Arrived(Walks.End(p), Walks.End(p'), n, e)
  {
    NextCanArrive(Walks.End(p), n);
    var o: Outcome;
    p', o := WalkShown(s, p, n + 1);
    e := NextArrives(Walks.End(p), Walks.End(p'), n, o);
  }

  lemma ThreeArrive(s: Element, p: Path) returns (p': Path, a: RealEntry, b: RealEntry)
    requires Walked(s, p) && Quiet(p.steps) && Holding(Walks.End(p), 1) && Stage(Walks.End(p), Available, [], 0, 0)
    ensures Walked(s, p') && Quiet(p'.steps) && Holding(Walks.End(p'), 4) && PlainFrame(a) && PlainFrame(b)
    ensures Stage(Walks.End(p'), Available, [a, b], 1, 0)
  {
    var e: RealEntry;
    p', e := Arrives(s, p, 1);
    Fits(Walks.End(p).s.core.q, e);
    var q2 := Walks.End(p').s.core.q;
    p', a := Arrives(s, p', 2);
    Fits(q2, a);
    var q3 := Walks.End(p').s.core.q;
    p', b := Arrives(s, p', 3);
    DropsOne(q3, b);
  }

  lemma LossAndRecovery(s: Element, p: Path, a: RealEntry, b: RealEntry) returns (p': Path, e: RealEntry)
    requires Walked(s, p) && Quiet(p.steps) && Holding(Walks.End(p), 4) && PlainFrame(a) && PlainFrame(b)
    requires Stage(Walks.End(p), Available, [a, b], 1, 0)
    ensures Walked(s, p') && Quiet(p'.steps) && Holding(Walks.End(p'), 5)
    ensures Stage(Walks.End(p'), Available, [Placeholder(RecoveredSignal), e], 3, 0)
  {
    LossArrives(Walks.End(p), 4);
    p' := WalkOn(s, p, SIGNAL_LOST);
    var k := Walks.End(p').s.core;
    assert k.q.frames == [a, b, Placeholder(LostSignal)];
    p', e := Arrives(s, p', 4);
    DropsThree(SignalNoted(k).q, a, b, e);
  }

  /** The message that create posts when it goes on after three drops have been reported. */
  lemma Miscounts(e: RealEntry, skips: Skips)
    requires e.buff == Some(Numbered(1)) && skips.overall == 3
    ensures OutputOf(e, skips).qos == Some(Qos(TWO64 - 2, 4))
    ensures !Runs.StatisticsRight(e.buff.value, 3, OutputOf(e, skips).qos.value)
  {}

  /** create takes the first frame, the only one processed so far, and is held up. Three frames
      arrive, then the signal is lost and two more arrive: three frames are dropped and reported.
      When create goes on its message says that 2^64 - 2 frames were processed. */
  lemma InterruptedCreateMiscounts(s: Element) returns (p: Path, held: RealEntry)
    requires Fresh(s) && s.cfg.skipFirstTime == 0 && s.cfg.queueSize == 2
    ensures Walked(s, p) && Quiet(p.steps)
    ensures Walks.End(p).sys.held == Some(Runs.Held(held, 0)) && held.buff.value.framesProcessed == 1
    ensures
      var skips := Walks.End(p).s.core.q.skips;
      && OutputOf(held, skips).qos == Some(Qos(TWO64 - 2, 4))
      && !Runs.StatisticsRight(held.buff.value, 3, OutputOf(held, skips).qos.value)
  {
    p := CreateHolds(s);
    var a, b: RealEntry;
    p, a, b := ThreeArrive(s, p);
    p, a := LossAndRecovery(s, p, a, b);
    var q := Walks.End(p).s.core.q;
    p, b := Arrives(s, p, 5);
    EndsTheBurst(q, b);
    held := Walks.End(p).sys.held.value.entry;
    Miscounts(held, Walks.End(p).s.core.q.skips);
  }
}
