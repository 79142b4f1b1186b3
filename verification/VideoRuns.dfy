/** Safety of the video source over whole runs: what happens to every frame and every buffer,
    what the counters mean, and what survives when frames are dropped. */
module VideoRuns {
  import opened Arithmetic
  import opened DropAccounting
  import opened BufferOwnership
  import opened VideoSource

  // ------------------------------------------------------------------- events and history

  /** The worker takes a buffer from the pool; it hands it to the callback with whatever times the
      frame was given, or keeps it because the callback is not there or refuses, and gives it
      back; the two halves of create; flushing; a buffer given up downstream; streams started
      anew, with a worker that numbers from 0. */
  datatype Event =
    | Acquire(id: nat)
    | Callback(o: Outcome)
    | Refuse
    | Dequeue
    | Deliver(e: RealEntry)
    | Unlock
    | UnlockStop
    | Unref(id: nat)
    | StartStreams

  datatype Fate = Consumed | Dropped | Flushed

  datatype Gone = Gone(entry: RealEntry, fate: Fate)

  /** What the worker holds, and the numbers of the last frame it handed over. */
  datatype Feed = Feed(worker: Option<nat>, lastNumber: int, lastProcessed: nat)

  /** The frame that create has taken and not yet passed on, and skipped_overall when it did. */
  datatype Held = Held(entry: RealEntry, overall: nat)

  /** The element together with the history of a run: the entries appended to the queue, how many
      of them came before the streams were last started, what became of those that left it, and
      who holds which buffer. returned are the buffers the worker gave back itself. */
  datatype RawSystem = System(
    size: nat, core: Core, feed: Feed, held: Option<Held>, accepted: seq<RealEntry>, base: nat, gone: seq<Gone>,
    acquired: multiset<nat>, returned: multiset<nat>, downstream: multiset<nat>)
  type System = s: RawSystem | s.size > 0
    witness System(1, Core(Unknown, Queue([], false, NO_SKIPS, [], [], [])), Feed(None, -1, 0), None, [], 0, [],
                   multiset{}, multiset{}, multiset{})

  const FRESH: Core := Core(Unknown, Queue([], false, NO_SKIPS, [], [], []))

  const IDLE: Feed := Feed(None, -1, 0)

  /** A started element: no signal seen yet, empty queue, counters cleared. */
  function Started(size: nat): System
    requires size > 0
  {
    System(size, FRESH, IDLE, None, [], 0, [], multiset{}, multiset{}, multiset{})
  }

  predicate Accepts(k: Core, o: Outcome) { o.Taken? && !k.q.flushing }

  /** The frames that one callback drops. */
  function DroppedBy(k: Core, size: nat, o: Outcome): seq<RealEntry>
    requires size > 0
  {
    if !Accepts(k, o) then []
    else
      var frames := SignalNoted(k).q.frames;
      Reals(frames[..Overflow(|frames|, size)])
  }

  /** The entry that it appends. */
  function Appended(k: Core, size: nat, o: Outcome): RealEntry
    requires size > 0 && Accepts(k, o)
  {
    Marked(EntryOf(o, k.signal), EndsBurst(k.q.skips, CaptureTimes(DroppedBy(k, size, o))))
  }

  function WithFate(d: seq<RealEntry>, fate: Fate): seq<Gone> { seq(|d|, i requires 0 <= i < |d| => Gone(d[i], fate)) }

  /** The callback, and the numbers of the frame it was given. */
  function CalledBack(sys: System, o: Outcome): (sys': System)
    ensures sys'.size == sys.size
  {
    var k := sys.core;
    var feed := if o.NoFrame? then sys.feed else Feed(None, o.buff.frameNumber, o.buff.framesProcessed);
    sys.(core := Reacted(k, sys.size, o),
         feed := feed,
         gone := sys.gone + WithFate(DroppedBy(k, sys.size, o), Dropped),
         accepted := sys.accepted + if Accepts(k, o) then [Appended(k, sys.size, o)] else [])
  }

  function Step(sys: System, ev: Event): (sys': System)
    ensures sys'.size == sys.size
  {
    var k := sys.core;
    match ev
    case Acquire(id) =>
      sys.(feed := sys.feed.(worker := Some(id)), acquired := sys.acquired + multiset{id})
    case Callback(o) => CalledBack(sys, o)
    case Refuse =>
      sys.(feed := sys.feed.(worker := None), returned := sys.returned + One(sys.feed.worker))
    case Dequeue =>
      var (q', r) := Dequeued(k.q);
      var sys1 := sys.(core := k.(q := q'));
      if r.Frame? then
        sys1.(gone := sys.gone + [Gone(r.entry, Consumed)], held := Some(Held(r.entry, k.q.skips.overall)))
      else sys1
    case Deliver(e) =>
      var id := e.buff.value.id;
      sys.(core := k.(q := Released(k.q, id)), held := None, downstream := sys.downstream + multiset{id})
    case Unlock => sys.(core := k.(q := Unlocked(k.q)))
    case UnlockStop =>
      sys.(core := k.(q := UnlockStopped(k.q)), gone := sys.gone + WithFate(Reals(k.q.frames), Flushed))
    case Unref(id) => sys.(downstream := sys.downstream - multiset{id})
    case StartStreams =>
      sys.(core := k.(signal := Unknown), feed := sys.feed.(lastNumber := -1, lastProcessed := 0),
           base := |sys.accepted|)
  }

  function Exec(sys: System, events: seq<Event>): (sys': System)
    ensures sys'.size == sys.size
    decreases |events|
  {
    if events == [] then sys else Step(Exec(sys, events[..|events| - 1]), events[|events| - 1])
  }

  function HeldId(sys: System): Option<nat> {
    if sys.held.Some? then Some(sys.held.value.entry.buff.value.id) else None
  }

  /** Who holds the buffers. */
  function OwnersOf(sys: System): Owners {
    Owners(sys.acquired, Given(sys.core.q.released, sys.returned),
           One(sys.feed.worker), multiset(Ids(Reals(sys.core.q.frames))), One(HeldId(sys)), sys.downstream)
  }

  /** The worker hands over the buffer it holds, or tells that there is none. Its frame numbers and
      processed counts go up, and every frame up to this one was either processed or dropped. */
  predicate InOrder(feed: Feed, o: Outcome) {
    if o.NoFrame? then feed.worker.None?
    else
      && feed.worker == Some(o.buff.id)
      && o.buff.frameNumber > feed.lastNumber
      && o.buff.framesProcessed > feed.lastProcessed
      && o.buff.framesProcessed + o.buff.framesDropped == o.buff.frameNumber + 1
  }

  /** The pool hands out only buffers that nobody holds; worker and create do one thing at a time. */
  predicate Feasible(sys: System, ev: Event) {
    match ev
    case Acquire(id) => sys.feed.worker.None? && id !in Holders(OwnersOf(sys))
    case Callback(o) => InOrder(sys.feed, o)
    case Refuse => sys.feed.worker.Some?
    case Dequeue => sys.held.None?
    case Deliver(e) => sys.held.Some? && sys.held.value.entry == e
    case Unref(id) => id in sys.downstream
    case _ => true
  }

  ghost predicate FeasibleRun(sys: System, events: seq<Event>)
    decreases |events|
  {
    events != [] ==>
      FeasibleRun(sys, events[..|events| - 1]) && Feasible(Exec(sys, events[..|events| - 1]), events[|events| - 1])
  }

  /** The streams are started once, before the run. */
  predicate OneStart(events: seq<Event>) { forall ev :: ev in events ==> !ev.StartStreams? }

  // ------------------------------------------------------------------- effect of each operation

  function Plain(e: RealEntry): RealEntry { e.(change := NoChange) }

  function Plains(d: seq<RealEntry>): seq<RealEntry> { seq(|d|, i requires 0 <= i < |d| => Plain(d[i])) }

  function Entries(g: seq<Gone>): seq<RealEntry> { seq(|g|, i requires 0 <= i < |g| => g[i].entry) }

  lemma PlainsAppend(a: seq<RealEntry>, b: seq<RealEntry>)
    ensures Plains(a + b) == Plains(a) + Plains(b)
  {}

  lemma HeadChangeKeepsReals(d: seq<Entry>, change: SignalChange)
    ensures Plains(Reals(WithHeadChange(d, change))) == Plains(Reals(d))
    ensures Ids(Reals(WithHeadChange(d, change))) == Ids(Reals(d))
  {
    if d != [] && change != NoChange {
      RealsSplit(d);
      RealsSplit(WithHeadChange(d, change));
      SameButChange(d[0], d[0].(change := change), Reals(d[1..]));
    }
  }

  lemma RealsSplit(d: seq<Entry>)
    requires d != []
    ensures Reals(d) == (if d[0].buff.Some? then [d[0]] else []) + Reals(d[1..])
  {
    assert d == [d[0]] + d[1..];
    RealsAppend([d[0]], d[1..]);
    RealsOne(d[0]);
  }

  lemma SameButChange(a: Entry, b: Entry, rest: seq<RealEntry>)
    requires a.(change := NoChange) == b.(change := NoChange)
    ensures
      var x, y := (if a.buff.Some? then [a] else []) + rest, (if b.buff.Some? then [b] else []) + rest;
      Plains(x) == Plains(y) && Ids(x) == Ids(y)
  {}

  lemma AnnouncedKeepsReals(q: Queue, change: SignalChange)
    ensures Reals(Announced(q, change).frames) == Reals(q.frames)
  {
    RealsAppend(q.frames, [Placeholder(change)]);
    RealsOne(Placeholder(change));
    assert Reals(q.frames) + [] == Reals(q.frames);
  }

  /** Splitting a queue, changing the head of the second part and appending one frame. */
  lemma SpliceReals(dropped: seq<Entry>, kept: seq<Entry>, change: SignalChange, last: RealEntry)
    ensures
      var after := Reals(WithHeadChange(kept, change) + [last]);
      && Plains(Reals(dropped + kept)) + [Plain(last)] == Plains(Reals(dropped)) + Plains(after)
      && Ids(Reals(dropped + kept)) + [last.buff.value.id] == Ids(Reals(dropped)) + Ids(after)
  {
    var head := WithHeadChange(kept, change);
    RealsAppend(dropped, kept);
    RealsAppend(head, [last]);
    RealsOne(last);
    HeadChangeKeepsReals(kept, change);
    Regroup(Reals(dropped), Reals(kept), Reals(head), last);
  }

  lemma Regroup(dropped: seq<RealEntry>, kept: seq<RealEntry>, head: seq<RealEntry>, last: RealEntry)
    requires Plains(kept) == Plains(head) && Ids(kept) == Ids(head)
    ensures Plains(dropped + kept) + [Plain(last)] == Plains(dropped) + Plains(head + [last])
    ensures Ids(dropped + kept) + [last.buff.value.id] == Ids(dropped) + Ids(head + [last])
  {
    PlainsAppend(dropped, kept);
    PlainsAppend(head, [last]);
    IdsAppend(dropped, kept);
    IdsAppend(head, [last]);
  }

  /** Appending one frame to the queue: the real entries afterwards are those that were not
      dropped, then the new one. */
  lemma EnqueuedReals(q: Queue, size: nat, e: RealEntry)
    requires size > 0
    ensures
      var q', n := Enqueued(q, size, e), Overflow(|q.frames|, size);
      var dropped := Reals(q.frames[..n]);
      var last := Marked(e, EndsBurst(q.skips, CaptureTimes(dropped)));
      && Plains(Reals(q.frames)) + [Plain(last)] == Plains(dropped) + Plains(Reals(q'.frames))
      && Ids(Reals(q.frames)) + [e.buff.value.id] == Ids(dropped) + Ids(Reals(q'.frames))
  {
    var n := Overflow(|q.frames|, size);
    var dropped, kept := q.frames[..n], q.frames[n..];
    assert q.frames == dropped + kept;
    SpliceReals(dropped, kept, Rescued(dropped), Marked(e, EndsBurst(q.skips, CaptureTimes(Reals(dropped)))));
  }

  /** Enqueueing brings no buffer into the queue but its own. */
  lemma EnqueuedIds(q: Queue, size: nat, e: RealEntry)
    requires size > 0
    ensures forall id :: id in Ids(Reals(Enqueued(q, size, e).frames)) ==>
                           id in Ids(Reals(q.frames)) || id == e.buff.value.id
  {
    EnqueuedReals(q, size, e);
    SuffixOf(Ids(Reals(q.frames)), e.buff.value.id, Ids(Reals(q.frames[..Overflow(|q.frames|, size)])),
             Ids(Reals(Enqueued(q, size, e).frames)));
  }

  lemma SuffixOf(before: seq<nat>, last: nat, front: seq<nat>, back: seq<nat>)
    requires before + [last] == front + back
    ensures forall id :: id in back ==> id in before || id == last
  {
    assert forall i :: 0 <= i < |back| ==> back[i] == (before + [last])[|front| + i];
  }

  /** One create call takes the placeholders before the first frame, then that frame. No signal
      change is lost on the way: what was notified and what is queued, together, stay the same. */
  lemma {:induction false} DequeuedTakesFirst(q: Queue)
    ensures
      var (q', r) := Dequeued(q);
      && q' == q.(frames := q'.frames, notified := q'.notified)
      && q'.notified + Changes(q'.frames) == q.notified + Changes(q.frames)
      && |q'.frames| <= |q.frames|
      && (r.Flushing? <==> q.flushing) && (r.Flushing? ==> q' == q)
      && (r.Waiting? ==> q'.frames == [] && Reals(q.frames) == [])
      && (r.Frame? ==> Reals(q.frames) == [r.entry] + Reals(q'.frames))
    decreases |q.frames|
  {
    if q.flushing || q.frames == [] {
    } else {
      var f := q.frames[0];
      var q1 := q.(frames := q.frames[1..], notified := Notified(q.notified, f.change));
      HeadTaken(q, f, q1.frames);
      if f.buff.None? {
        DequeuedTakesFirst(q1);
      }
    }
  }

  lemma HeadTaken(q: Queue, f: Entry, rest: seq<Entry>)
    requires q.frames == [f] + rest
    ensures Reals(q.frames) == (if f.buff.Some? then [f] + Reals(rest) else Reals(rest))
    ensures Notified(q.notified, f.change) + Changes(rest) == q.notified + Changes(q.frames)
  {
    RealsAppend([f], rest);
    RealsOne(f);
    ChangesAppend([f], rest);
    ChangesOne(f);
    assert [] + Reals(rest) == Reals(rest);
  }

  lemma SignalNotedKeepsReals(k: Core)
    ensures
      var k1 := SignalNoted(k);
      && k1.signal == Available && k1.q == k.q.(frames := k1.q.frames)
      && Reals(k1.q.frames) == Reals(k.q.frames)
  {
    AnnouncedKeepsReals(k.q, if k.signal == Lost then RecoveredSignal else GotSignal);
  }

  lemma LossNotedKeepsReals(k: Core)
    ensures
      var k1 := LossNoted(k);
      && k1.q == k.q.(frames := k1.q.frames)
      && Reals(k1.q.frames) == Reals(k.q.frames)
  {
    AnnouncedKeepsReals(k.q, LostSignal);
  }

  // ------------------------------------------------------------------- invariants of every run

  /** Every accepted frame is, in order, gone or still queued: the queue holds the most recent
      accepted frames. */
  ghost predicate Ledger(sys: System) {
    sys.accepted == Plains(Entries(sys.gone)) + Plains(Reals(sys.core.q.frames))
  }

  function DropTimes(g: seq<Gone>): seq<nat> {
    if g == [] then []
    else
      var last := g[|g| - 1];
      DropTimes(g[..|g| - 1]) + (if last.fate == Dropped then [last.entry.captureTime] else [])
  }

  /** The drop counters and the posted warnings account for exactly the dropped frames. */
  ghost predicate DropsCounted(sys: System) {
    Accounts(sys.core.q.skips, sys.core.q.reports, DropTimes(sys.gone))
  }

  /** Numbers and counts of the frames accepted since the streams were started. */
  ghost predicate Numbered(sys: System) {
    && sys.base <= |sys.accepted| <= sys.base + sys.feed.lastProcessed
    && (forall i :: 0 <= i < |sys.accepted| ==>
          var b := sys.accepted[i].buff.value;
          b.framesProcessed + b.framesDropped == b.frameNumber + 1)
    && (forall i :: sys.base <= i < |sys.accepted| ==>
          var b := sys.accepted[i].buff.value;
          b.frameNumber <= sys.feed.lastNumber && i - sys.base < b.framesProcessed <= sys.feed.lastProcessed)
    && (forall i, j :: sys.base <= i < j < |sys.accepted| ==>
          sys.accepted[i].buff.value.frameNumber < sys.accepted[j].buff.value.frameNumber)
  }

  /** What create knew when it took the frame it holds. */
  ghost predicate HeldRight(sys: System) {
    sys.held.Some? ==>
      var b, overall := sys.held.value.entry.buff.value, sys.held.value.overall;
      && sys.gone != []
      && b.framesProcessed + b.framesDropped == b.frameNumber + 1
      && overall <= sys.core.q.skips.overall
      && (sys.base == 0 ==> overall < b.framesProcessed)
  }

  ghost predicate Inv(sys: System) {
    Ledger(sys) && Sound(OwnersOf(sys)) && DropsCounted(sys) && Numbered(sys) && HeldRight(sys)
  }

  lemma EntriesAppend(a: seq<Gone>, b: seq<Gone>)
    ensures Entries(a + b) == Entries(a) + Entries(b)
  {}

  lemma EntriesWithFate(d: seq<RealEntry>, fate: Fate)
    ensures Entries(WithFate(d, fate)) == d
  {}

  lemma DropTimesAppend(a: seq<Gone>, b: seq<Gone>)
    ensures DropTimes(a + b) == DropTimes(a) + DropTimes(b)
    decreases |b|
  {
    if b == [] {
      assert a + b == a;
    } else {
      assert (a + b)[..|a + b| - 1] == a + b[..|b| - 1];
      DropTimesAppend(a, b[..|b| - 1]);
    }
  }

  lemma {:induction false} DropTimesWithFate(d: seq<RealEntry>, fate: Fate)
    ensures DropTimes(WithFate(d, fate)) == if fate == Dropped then CaptureTimes(d) else []
    decreases |d|
  {
    if d == [] {
    } else {
      var front := d[..|d| - 1];
      var g := WithFate(d, fate);
      assert g[..|g| - 1] == WithFate(front, fate);
      DropTimesWithFate(front, fate);
      assert fate == Dropped ==> CaptureTimes(d) == CaptureTimes(front) + [d[|d| - 1].captureTime];
    }
  }

  /** The callback keeps its buffer out of the queue: it is released, and no frame is touched. */
  ghost predicate Refused(q: Queue, q': Queue, o: Outcome) {
    && q'.flushing == q.flushing && q'.notified == q.notified
    && q'.skips == q.skips && q'.reports == q.reports
    && Reals(q'.frames) == Reals(q.frames)
    && q'.released == q.released + (if o.NoFrame? then [] else [o.buff.id])
  }

  /** The callback appends an entry for its buffer to the queue, after dropping the given frames. */
  ghost predicate Admitted(q: Queue, q': Queue, o: Outcome, dropped: seq<RealEntry>, last: RealEntry) {
    && q'.flushing == q.flushing && q'.notified == q.notified
    && q'.skips == Counted(q.skips, CaptureTimes(dropped))
    && q'.reports == q.reports + Posted(q.skips, CaptureTimes(dropped))
    && q'.released == q.released + Ids(dropped)
    && o.Taken? && last.buff.value.(droppedChanged := o.buff.droppedChanged) == o.buff
    && last.change == NoChange && last.captureTime == o.captureTime && last.streamTime == o.streamTime
    && Plains(Reals(q.frames)) + [last] == Plains(dropped) + Plains(Reals(q'.frames))
    && Ids(Reals(q.frames)) + [o.buff.id] == Ids(dropped) + Ids(Reals(q'.frames))
  }

  lemma RefusedEffect(k: Core, size: nat, o: Outcome)
    requires size > 0 && !Accepts(k, o)
    ensures Refused(k.q, Reacted(k, size, o).q, o)
  {
    if o.NoFrame? {
      LossNotedKeepsReals(k);
    } else if o.NoSignal? {
      LossNotedKeepsReals(k.(q := Released(k.q, o.buff.id)));
    } else {
      SignalNotedKeepsReals(k);
      assert Reacted(k, size, o).q == Released(SignalNoted(k).q, o.buff.id);
    }
  }

  lemma AdmittedEffect(k: Core, size: nat, o: Outcome)
    requires size > 0 && Accepts(k, o)
    ensures Admitted(k.q, Reacted(k, size, o).q, o, DroppedBy(k, size, o), Appended(k, size, o))
  {
    SignalNotedKeepsReals(k);
    EnqueuedReals(SignalNoted(k).q, size, EntryOf(o, k.signal));
  }

  lemma CallbackEffect(k: Core, size: nat, o: Outcome)
    requires size > 0
    ensures
      if Accepts(k, o) then Admitted(k.q, Reacted(k, size, o).q, o, DroppedBy(k, size, o), Appended(k, size, o))
      else Refused(k.q, Reacted(k, size, o).q, o)
  {
    if Accepts(k, o) {
      AdmittedEffect(k, size, o);
    } else {
      RefusedEffect(k, size, o);
    }
  }

  /** Frames leave the front of the queue with some fate and others join at its end. */
  lemma LedgerMoves(gone: seq<Gone>, before: seq<RealEntry>, left: seq<RealEntry>, fate: Fate,
                    joined: seq<RealEntry>, after: seq<RealEntry>)
    requires Plains(before) + joined == Plains(left) + Plains(after)
    ensures Plains(Entries(gone)) + Plains(before) + joined
         == Plains(Entries(gone + WithFate(left, fate))) + Plains(after)
  {
    EntriesAppend(gone, WithFate(left, fate));
    EntriesWithFate(left, fate);
    PlainsAppend(Entries(gone), left);
    var p := Plains(Entries(gone));
    assert p + Plains(before) + joined == p + (Plains(before) + joined);
    assert p + Plains(left) + Plains(after) == p + (Plains(left) + Plains(after));
  }

  lemma LedgerKept(sys: System, ev: Event)
    requires Ledger(sys)
    ensures Ledger(Step(sys, ev))
  {
    var before, after := Reals(sys.core.q.frames), Reals(Step(sys, ev).core.q.frames);
    match ev
    case Callback(o) =>
      CallbackEffect(sys.core, sys.size, o);
      var dropped := DroppedBy(sys.core, sys.size, o);
      if Accepts(sys.core, o) {
        LedgerMoves(sys.gone, before, dropped, Dropped, [Appended(sys.core, sys.size, o)], after);
      } else {
        assert sys.gone + WithFate(dropped, Dropped) == sys.gone;
      }
    case Dequeue =>
      DequeuedTakesFirst(sys.core.q);
      var r := Dequeued(sys.core.q).1;
      if r.Frame? {
        PlainsAppend([r.entry], after);
        assert WithFate([r.entry], Consumed) == [Gone(r.entry, Consumed)];
        assert Plains(before) + [] == Plains([r.entry]) + Plains(after);
        LedgerMoves(sys.gone, before, [r.entry], Consumed, [], after);
        assert Ledger(sys);
      }
    case UnlockStop =>
      assert after == [];
      assert Plains(before) + [] == Plains(before) + Plains(after);
      LedgerMoves(sys.gone, before, before, Flushed, [], after);
    case _ =>
  }

  /** How an event moves buffers. */
  function MoveOf(sys: System, ev: Event): Move {
    match ev
    case Acquire(id) => Acquired(id)
    case Callback(o) =>
      if o.NoFrame? then Stay
      else if Accepts(sys.core, o) then Queued(multiset(Ids(DroppedBy(sys.core, sys.size, o))))
      else GivenBack
    case Refuse => GivenBack
    case Dequeue =>
      var r := Dequeued(sys.core.q).1;
      if r.Frame? then Picked(r.entry.buff.value.id) else Stay
    case Deliver(_) => PassedOn
    case UnlockStop => Emptied
    case Unref(id) => Unreffed(id)
    case _ => Stay
  }

  /** Where the buffers are, as far as it depends on the core. */
  function Placed(o: Owners, q: Queue, returned: multiset<nat>): Owners {
    o.(released := Given(q.released, returned), queued := multiset(Ids(Reals(q.frames))))
  }

  lemma AcceptedMoves(o: Owners, q: Queue, q': Queue, returned: multiset<nat>, id: nat, left: seq<nat>)
    requires o == Placed(o, q, returned) && o.worker == multiset{id}
    requires Ids(Reals(q.frames)) + [id] == left + Ids(Reals(q'.frames)) && q'.released == q.released + left
    ensures Possible(o, Queued(multiset(left)))
    ensures Placed(o.(worker := multiset{}), q', returned) == Moved(o, Queued(multiset(left)))
  {
    QueueMoves(Ids(Reals(q.frames)), id, left, Ids(Reals(q'.frames)));
    GivenMore(q.released, returned, left);
  }

  lemma RefusedMoves(o: Owners, q: Queue, q': Queue, returned: multiset<nat>, id: nat)
    requires o == Placed(o, q, returned) && o.worker == multiset{id}
    requires Reals(q'.frames) == Reals(q.frames) && q'.released == q.released + [id]
    ensures Placed(o.(worker := multiset{}), q', returned) == Moved(o, GivenBack)
  {
    GivenOneMore(q.released, returned, id);
  }

  lemma AcceptMoves(sys: System, o: Outcome)
    requires InOrder(sys.feed, o) && Accepts(sys.core, o)
    ensures MovesBy(OwnersOf(sys), OwnersOf(Step(sys, Callback(o))), MoveOf(sys, Callback(o)))
  {
    var q, q' := sys.core.q, Reacted(sys.core, sys.size, o).q;
    AdmittedEffect(sys.core, sys.size, o);
    AcceptedMoves(OwnersOf(sys), q, q', sys.returned, o.buff.id, Ids(DroppedBy(sys.core, sys.size, o)));
  }

  lemma RefusalMoves(sys: System, o: Outcome)
    requires InOrder(sys.feed, o) && !Accepts(sys.core, o) && !o.NoFrame?
    ensures MovesBy(OwnersOf(sys), OwnersOf(Step(sys, Callback(o))), GivenBack)
  {
    var q, q' := sys.core.q, Reacted(sys.core, sys.size, o).q;
    RefusedEffect(sys.core, sys.size, o);
    RefusedMoves(OwnersOf(sys), q, q', sys.returned, o.buff.id);
  }

  lemma NoFrameMoves(sys: System)
    ensures MovesBy(OwnersOf(sys), OwnersOf(Step(sys, Callback(NoFrame))), Stay)
  {
    RefusedEffect(sys.core, sys.size, NoFrame);
  }

  lemma DequeueMoves(sys: System)
    requires sys.held.None? && Dequeued(sys.core.q).1.Frame?
    ensures MovesBy(OwnersOf(sys), OwnersOf(Step(sys, Dequeue)), MoveOf(sys, Dequeue))
  {
    var (q', r) := Dequeued(sys.core.q);
    var o, after := OwnersOf(sys), Ids(Reals(q'.frames));
    DequeuedTakesFirst(sys.core.q);
    IdsAppend([r.entry], Reals(q'.frames));
    HeadPicked(o, Ids(Reals(sys.core.q.frames)), r.entry.buff.value.id, after);
    assert OwnersOf(Step(sys, Dequeue)) == o.(queued := multiset(after), create := multiset{r.entry.buff.value.id});
  }

  lemma NothingDequeued(sys: System)
    requires !Dequeued(sys.core.q).1.Frame?
    ensures MovesBy(OwnersOf(sys), OwnersOf(Step(sys, Dequeue)), Stay)
  {
    DequeuedTakesFirst(sys.core.q);
  }

  lemma DeliverMoves(sys: System, e: RealEntry)
    requires Feasible(sys, Deliver(e))
    ensures MovesBy(OwnersOf(sys), OwnersOf(Step(sys, Deliver(e))), PassedOn)
  {
    GivenOneMore(sys.core.q.released, sys.returned, e.buff.value.id);
  }

  lemma FlushMoves(sys: System)
    ensures MovesBy(OwnersOf(sys), OwnersOf(Step(sys, UnlockStop)), Emptied)
  {
    GivenMore(sys.core.q.released, sys.returned, Ids(Reals(sys.core.q.frames)));
    assert Reals([]) == [];
  }

  lemma AcquireMoves(sys: System, id: nat)
    requires Feasible(sys, Acquire(id))
    ensures MovesBy(OwnersOf(sys), OwnersOf(Step(sys, Acquire(id))), Acquired(id))
  {}

  lemma RefuseMoves(sys: System)
    ensures MovesBy(OwnersOf(sys), OwnersOf(Step(sys, Refuse)), GivenBack)
  {}

  lemma UnrefMoves(sys: System, id: nat)
    ensures MovesBy(OwnersOf(sys), OwnersOf(Step(sys, Unref(id))), Unreffed(id))
  {}

  lemma NothingMoves(sys: System, ev: Event)
    requires ev.Unlock? || ev.StartStreams?
    ensures MovesBy(OwnersOf(sys), OwnersOf(Step(sys, ev)), Stay)
  {}

  /** Every event moves buffers in one of the ways that keep them owned. */
  lemma EventMoves(sys: System, ev: Event)
    requires Feasible(sys, ev)
    ensures MovesBy(OwnersOf(sys), OwnersOf(Step(sys, ev)), MoveOf(sys, ev))
  {
    match ev
    case Acquire(id) => AcquireMoves(sys, id);
    case Callback(o) =>
      if Accepts(sys.core, o) {
        AcceptMoves(sys, o);
      } else if o.NoFrame? {
        NoFrameMoves(sys);
      } else {
        RefusalMoves(sys, o);
      }
    case Refuse => RefuseMoves(sys);
    case Dequeue =>
      if Dequeued(sys.core.q).1.Frame? {
        DequeueMoves(sys);
      } else {
        NothingDequeued(sys);
      }
    case Deliver(e) => DeliverMoves(sys, e);
    case UnlockStop => FlushMoves(sys);
    case Unref(id) => UnrefMoves(sys, id);
    case _ => NothingMoves(sys, ev);
  }

  lemma CountersKept(sys: System, ev: Event)
    requires DropsCounted(sys)
    ensures DropsCounted(Step(sys, ev))
  {
    var q := sys.core.q;
    match ev
    case Callback(o) =>
      CallbackEffect(sys.core, sys.size, o);
      var d := DroppedBy(sys.core, sys.size, o);
      DropTimesAppend(sys.gone, WithFate(d, Dropped));
      DropTimesWithFate(d, Dropped);
      CountedKeepsAccounts(q.skips, q.reports, DropTimes(sys.gone), CaptureTimes(d));
      assert DropTimes(sys.gone) + [] == DropTimes(sys.gone);
    case Dequeue =>
      DequeuedTakesFirst(q);
      var r := Dequeued(q).1;
      if r.Frame? {
        DropTimesAppend(sys.gone, [Gone(r.entry, Consumed)]);
        DropTimesWithFate([r.entry], Consumed);
        assert WithFate([r.entry], Consumed) == [Gone(r.entry, Consumed)];
        assert DropTimes(sys.gone) + [] == DropTimes(sys.gone);
      }
    case UnlockStop =>
      DropTimesAppend(sys.gone, WithFate(Reals(q.frames), Flushed));
      DropTimesWithFate(Reals(q.frames), Flushed);
      assert DropTimes(sys.gone) + [] == DropTimes(sys.gone);
    case _ =>
  }

  /** What one event adds to the accepted frames. */
  lemma AcceptedGrows(sys: System, ev: Event)
    ensures
      var sys' := Step(sys, ev);
      if ev.Callback? && Accepts(sys.core, ev.o) then
        && |sys'.accepted| == |sys.accepted| + 1
        && sys'.accepted[..|sys.accepted|] == sys.accepted
        && var b := sys'.accepted[|sys.accepted|].buff.value;
           b.(droppedChanged := ev.o.buff.droppedChanged) == ev.o.buff
      else sys'.accepted == sys.accepted
  {
    if ev.Callback? && Accepts(sys.core, ev.o) {
      CallbackEffect(sys.core, sys.size, ev.o);
    }
  }

  lemma NumbersKept(sys: System, ev: Event)
    requires Numbered(sys) && Feasible(sys, ev)
    ensures Numbered(Step(sys, ev))
  {
    AcceptedGrows(sys, ev);
  }

  /** The drops reported so far never become fewer. */
  lemma OverallGrows(sys: System, ev: Event)
    ensures sys.core.q.skips.overall <= Step(sys, ev).core.q.skips.overall
  {
    match ev
    case Callback(o) => CallbackEffect(sys.core, sys.size, o);
    case Dequeue => DequeuedTakesFirst(sys.core.q);
    case _ =>
  }

  lemma DropTimesBound(g: seq<Gone>)
    ensures |DropTimes(g)| <= |g|
  {}

  /** A frame about to be taken: it was accepted after the others that have gone, so fewer drops
      than its processed count have been reported. */
  lemma NextFrameRight(sys: System, e: RealEntry)
    requires Ledger(sys) && Numbered(sys) && DropsCounted(sys)
    requires Reals(sys.core.q.frames) != [] && Reals(sys.core.q.frames)[0] == e
    ensures e.buff.value.framesProcessed + e.buff.value.framesDropped == e.buff.value.frameNumber + 1
    ensures sys.base == 0 ==> sys.core.q.skips.overall < e.buff.value.framesProcessed
  {
    DropTimesBound(sys.gone);
    assert Plains(Reals(sys.core.q.frames))[0] == Plain(e);
    assert sys.accepted[|sys.gone|] == Plain(e);
  }

  lemma HeldKeptByDequeue(sys: System)
    requires Ledger(sys) && Numbered(sys) && DropsCounted(sys) && HeldRight(sys)
    ensures HeldRight(Step(sys, Dequeue))
  {
    var r := Dequeued(sys.core.q).1;
    DequeuedTakesFirst(sys.core.q);
    if r.Frame? {
      NextFrameRight(sys, r.entry);
    }
  }

  lemma HeldKept(sys: System, ev: Event)
    requires Ledger(sys) && Numbered(sys) && DropsCounted(sys) && HeldRight(sys)
    ensures HeldRight(Step(sys, ev))
  {
    if ev.Dequeue? {
      HeldKeptByDequeue(sys);
    } else {
      OverallGrows(sys, ev);
    }
  }

  lemma {:induction false} InvHolds(size: nat, events: seq<Event>)
    requires size > 0 && FeasibleRun(Started(size), events)
    ensures Inv(Exec(Started(size), events))
    decreases |events|
  {
    if events == [] {
    } else {
      var before, ev := Exec(Started(size), events[..|events| - 1]), events[|events| - 1];
      InvHolds(size, events[..|events| - 1]);
      LedgerKept(before, ev);
      EventMoves(before, ev);
      MoveKeepsSound(OwnersOf(before), OwnersOf(Step(before, ev)), MoveOf(before, ev));
      CountersKept(before, ev);
      NumbersKept(before, ev);
      HeldKept(before, ev);
    }
  }

  // ------------------------------------------------------------------- theorems

  /** The drop-oldest queue holds exactly the most recent accepted frames; the frames that left
      it did so in the order they were accepted; and the frames of one start have strictly
      increasing frame numbers. */
  ghost predicate MostRecent(sys: System) {
    && |sys.gone| <= |sys.accepted|
    && Plains(Reals(sys.core.q.frames)) == sys.accepted[|sys.gone|..]
    && (forall i :: 0 <= i < |sys.gone| ==> Plain(sys.gone[i].entry) == sys.accepted[i])
    && (forall i, j :: sys.base <= i < j < |sys.gone| ==>
          sys.gone[i].entry.buff.value.frameNumber < sys.gone[j].entry.buff.value.frameNumber)
  }

  lemma InvMeansMostRecent(sys: System)
    requires Ledger(sys) && Numbered(sys)
    ensures MostRecent(sys)
  {
    var g := Plains(Entries(sys.gone));
    assert sys.accepted[|g|..] == Plains(Reals(sys.core.q.frames));
    forall i | 0 <= i < |sys.gone| ensures Plain(sys.gone[i].entry) == sys.accepted[i] {
      assert g[i] == sys.accepted[i];
    }
  }

  lemma QueueIsMostRecent(size: nat, events: seq<Event>)
    requires size > 0 && FeasibleRun(Started(size), events)
    ensures MostRecent(Exec(Started(size), events))
  {
    InvHolds(size, events);
    InvMeansMostRecent(Exec(Started(size), events));
  }

  /** In every run each buffer has one owner, and each capture reference is given back once. */
  lemma EachReferenceReleasedOnce(size: nat, events: seq<Event>, id: nat)
    requires size > 0 && FeasibleRun(Started(size), events)
    ensures OneOwner(OwnersOf(Exec(Started(size), events)), id)
  {
    InvHolds(size, events);
    SoundMeansOneOwner(OwnersOf(Exec(Started(size), events)), id);
  }

  /** Drop accounting: the counters add up to the frames dropped, the posted warnings to
      skipped_overall, and skip_from and skip_to are the ends of the burst under way. */
  ghost predicate DropsExact(sys: System) {
    var drops, sk := DropTimes(sys.gone), sys.core.q.skips;
    && |drops| == sk.overall + sk.last
    && ReportedTotal(sys.core.q.reports) == sk.overall
    && (sk.last > 0 ==> sk.from == Some(drops[sk.overall]) && sk.to == Some(drops[|drops| - 1]))
  }

  lemma DropCountersExact(size: nat, events: seq<Event>)
    requires size > 0 && FeasibleRun(Started(size), events)
    ensures DropsExact(Exec(Started(size), events))
  {
    InvHolds(size, events);
    InvMeansDropsExact(Exec(Started(size), events));
  }

  lemma InvMeansDropsExact(sys: System)
    requires DropsCounted(sys)
    ensures DropsExact(sys)
  {
    CoverCounts(sys.core.q.reports, DropTimes(sys.gone)[..sys.core.q.skips.overall]);
  }

  // ------------------------------------------------------------------- statistics

  /** The statistics posted with a frame: processed is the frames processed less the drops reported so
      far, dropped is those dropped before and these, and together they are the number of frames up to and
      including this one. */
  predicate StatisticsRight(b: VideoBuff, reported: nat, qos: Qos) {
    && qos.processed + reported == b.framesProcessed && qos.dropped == b.framesDropped + reported
    && qos.processed + qos.dropped == b.frameNumber + 1
  }

  /** When create passes on the frame it holds: it is passed on as it was queued, as a discontinuity exactly
      if it was the first with signal or is marked, and a message is due exactly for a marked frame.
      reported is what the drop warnings have added up to since create took it. */
  ghost predicate QosExact(sys: System) {
    sys.held.Some? ==>
      var b, earlier := sys.held.value.entry.buff.value, sys.held.value.overall;
      var inAll := ReportedTotal(sys.core.q.reports);
      var reported := inAll - earlier;
      var out := OutputOf(sys.held.value.entry, sys.core.q.skips);
      var qos := out.qos;
      && out.entry == sys.held.value.entry && (out.discont <==> out.entry.firstBuffer || b.droppedChanged)
      && (qos.Some? <==> b.droppedChanged) && 0 <= reported
      && (sys.base == 0 ==> earlier < b.framesProcessed)
      && (b.droppedChanged ==>
            && (StatisticsRight(b, inAll, qos.value) <==> earlier + reported <= b.framesProcessed)
            && (sys.base == 0 && reported == 0 ==> StatisticsRight(b, inAll, qos.value)))
  }

  lemma InvMeansQosExact(sys: System)
    requires HeldRight(sys) && DropsCounted(sys)
    ensures QosExact(sys)
  {
    InvMeansDropsExact(sys);
  }

  /** In every run, the statistics of the next message are right if and only if the drops reported
      when create took the frame and those reported since do not exceed the frames processed. The
      former alone never do, unless the streams were started again after frames had been queued. */
  lemma QosRightIff(size: nat, events: seq<Event>)
    requires size > 0 && FeasibleRun(Started(size), events)
    ensures QosExact(Exec(Started(size), events))
  {
    InvHolds(size, events);
    InvMeansQosExact(Exec(Started(size), events));
  }

  /** Create holds a frame that it took from the queue. */
  lemma HeldStaysConsumed(sys: System, ev: Event)
    requires sys.held.Some? ==> Gone(sys.held.value.entry, Consumed) in sys.gone
    ensures
      var sys' := Step(sys, ev);
      sys'.held.Some? ==> Gone(sys'.held.value.entry, Consumed) in sys'.gone
  {}

  lemma {:induction false} HeldIsConsumed(size: nat, events: seq<Event>)
    requires size > 0
    ensures
      var sys := Exec(Started(size), events);
      sys.held.Some? ==> Gone(sys.held.value.entry, Consumed) in sys.gone
    decreases |events|
  {
    if events == [] {
    } else {
      HeldIsConsumed(size, events[..|events| - 1]);
      HeldStaysConsumed(Exec(Started(size), events[..|events| - 1]), events[|events| - 1]);
    }
  }

  /** Over every run: what create passes on is a frame that was accepted, with the buffer and the times
      that it was queued with. */
  lemma PassedOnAsQueued(size: nat, events: seq<Event>)
    requires size > 0 && FeasibleRun(Started(size), events)
    requires Exec(Started(size), events).held.Some?
    ensures
      var sys := Exec(Started(size), events);
      var out := OutputOf(sys.held.value.entry, sys.core.q.skips);
      exists i: nat ::
        i < |sys.gone| <= |sys.accepted| && sys.gone[i].fate == Consumed && Plain(out.entry) == sys.accepted[i]
  {
    HeldIsConsumed(size, events);
    QueueIsMostRecent(size, events);
    var sys := Exec(Started(size), events);
    var i: nat :| i < |sys.gone| && sys.gone[i] == Gone(sys.held.value.entry, Consumed);
    assert Plain(sys.gone[i].entry) == sys.accepted[i];
  }

  lemma BaseKept(sys: System, ev: Event)
    requires !ev.StartStreams?
    ensures Step(sys, ev).base == sys.base
  {}

  lemma {:induction false} OneStartKeepsBase(size: nat, events: seq<Event>)
    requires size > 0 && OneStart(events)
    ensures Exec(Started(size), events).base == 0
    decreases |events|
  {
    if events == [] {
    } else {
      OneStartKeepsBase(size, events[..|events| - 1]);
      BaseKept(Exec(Started(size), events[..|events| - 1]), events[|events| - 1]);
    }
  }

  /** So in a run from one start the statistics are right whenever no burst of drops was reported
      while create held the frame. */
  lemma QosAddsUp(size: nat, events: seq<Event>)
    requires size > 0 && FeasibleRun(Started(size), events) && OneStart(events)
    requires
      var sys := Exec(Started(size), events);
      && sys.held.Some? && sys.held.value.entry.buff.value.droppedChanged
      && sys.core.q.skips.overall == sys.held.value.overall
    ensures
      var sys := Exec(Started(size), events);
      var b, qos := sys.held.value.entry.buff.value, OutputOf(sys.held.value.entry, sys.core.q.skips).qos;
      qos.Some? && StatisticsRight(b, sys.core.q.skips.overall, qos.value)
  {
    QosRightIff(size, events);
    OneStartKeepsBase(size, events);
    DropCountersExact(size, events);
  }

  // ------------------------------------------------------------------- where gaps are flagged

  /** The entry that arrived next after the first n frames of the queue; e arrived last. */
  function ArrivedAfter(frames: seq<Entry>, n: nat, e: RealEntry): RealEntry {
    if n < |Reals(frames)| then Reals(frames)[n] else e
  }

  /** When enqueueing a frame drops others, the next frame delivered is the one that arrived right
      after the gap, and it carries the flags it arrived with: the gap itself adds none. */
  lemma GapNotFlagged(q: Queue, size: nat, e: RealEntry)
    requires size > 0 && !q.flushing
    ensures
      var q' := Enqueued(q, size, e);
      var dropped, r := Reals(q.frames[..Overflow(|q.frames|, size)]), Dequeued(q').1;
      dropped != [] ==>
        && r.Frame?
        && var arrived := ArrivedAfter(q.frames, |dropped|, e);
        && Plain(r.entry) == Plain(arrived)
        && (OutputOf(r.entry, q'.skips).discont <==> arrived.firstBuffer || arrived.buff.value.droppedChanged)
  {
    var q' := Enqueued(q, size, e);
    var dropped := Reals(q.frames[..Overflow(|q.frames|, size)]);
    EnqueuedReals(q, size, e);
    DequeuedTakesFirst(q');
    RealsPrefix(q.frames, Overflow(|q.frames|, size));
    if dropped != [] {
      FirstAfter(Reals(q.frames), e, dropped, Reals(q'.frames));
    }
  }

  lemma FirstAfter(before: seq<RealEntry>, e: RealEntry, dropped: seq<RealEntry>, after: seq<RealEntry>)
    requires Plains(before) + [Plain(e)] == Plains(dropped) + Plains(after) && |dropped| <= |before|
    ensures after != [] && Plain(after[0]) == Plain(if |dropped| < |before| then before[|dropped|] else e)
  {
    var all := Plains(before) + [Plain(e)];
    assert |all| == |before| + 1;
    assert all[|dropped|] == Plains(after)[0];
  }

  lemma RealsPrefix(d: seq<Entry>, n: nat)
    requires n <= |d|
    ensures |Reals(d[..n])| <= |Reals(d)|
  {
    assert d == d[..n] + d[n..];
    RealsAppend(d[..n], d[n..]);
  }

  /** Nothing was dropped since the last accepted frame, and none is accepted. */
  predicate Between(sys: System, ev: Event) { ev.Callback? ==> !Accepts(sys.core, ev.o) }

  ghost predicate NoneAccepted(sys: System, events: seq<Event>)
    decreases |events|
  {
    events != [] ==>
      NoneAccepted(sys, events[..|events| - 1]) && Between(Exec(sys, events[..|events| - 1]), events[|events| - 1])
  }

  lemma {:induction false} SkipsUntouched(sys: System, events: seq<Event>)
    requires NoneAccepted(sys, events)
    ensures Exec(sys, events).core.q.skips == sys.core.q.skips
    decreases |events|
  {
    if events == [] {
    } else {
      var before, ev := Exec(sys, events[..|events| - 1]), events[|events| - 1];
      SkipsUntouched(sys, events[..|events| - 1]);
      match ev
      case Callback(o) => CallbackEffect(before.core, sys.size, o);
      case Dequeue => DequeuedTakesFirst(before.core.q);
      case _ =>
    }
  }

  /** The flag for a gap goes to the first frame whose arrival drops nothing: of two frames
      accepted one after the other, whatever happens in between, the second is flagged beyond its
      own flag exactly when the first drove frames out and the second does not. */
  lemma BurstEndFlagged(sys: System, o1: Outcome, between: seq<Event>, o2: Outcome)
    requires Accepts(sys.core, o1) && NoneAccepted(Step(sys, Callback(o1)), between)
    requires Accepts(Exec(Step(sys, Callback(o1)), between).core, o2)
    ensures
      var k := Exec(Step(sys, Callback(o1)), between).core;
      Appended(k, sys.size, o2).buff.value.droppedChanged <==>
        || o2.buff.droppedChanged
        || (DroppedBy(sys.core, sys.size, o1) != [] && DroppedBy(k, sys.size, o2) == [])
  {
    CallbackEffect(sys.core, sys.size, o1);
    SkipsUntouched(Step(sys, Callback(o1)), between);
  }

  // ------------------------------------------------------------------- queue length

  /** One entry more while the signal is lost, for its placeholder, or while flushing. */
  function Slack(k: Core): nat { if k.signal == Lost || k.q.flushing then 1 else 0 }

  predicate LengthBounded(k: Core, size: nat) { |k.q.frames| <= size + Slack(k) }

  predicate IsSkip(ev: Event) { ev.Callback? && ev.o.Skipped? }

  predicate IsTaken(ev: Event) { ev.Callback? && ev.o.Taken? }

  /** The frames skipped in a run. */
  function SkipCount(events: seq<Event>): nat
    decreases |events|
  {
    if events == [] then 0
    else SkipCount(events[..|events| - 1]) + if IsSkip(events[|events| - 1]) then 1 else 0
  }

  predicate AnyTaken(events: seq<Event>) { exists ev :: ev in events && IsTaken(ev) }

  /** Frames are skipped only before the first one that is not. */
  ghost predicate SkipsFirst(events: seq<Event>)
    decreases |events|
  {
    events != [] ==>
      && SkipsFirst(events[..|events| - 1])
      && (IsSkip(events[|events| - 1]) ==> !AnyTaken(events[..|events| - 1]))
  }

  /** Each skipped frame can leave two placeholders, for the signal and for its loss. */
  predicate Bounded(k: Core, size: nat, skipped: nat, taken: bool) {
    |k.q.frames| <= (if taken then Max(size, 2 * skipped) else 2 * skipped) + Slack(k)
  }

  lemma LengthKeptByCallback(k: Core, size: nat, o: Outcome, skipped: nat, taken: bool)
    requires size > 0 && Bounded(k, size, skipped, taken) && (o.Skipped? ==> !taken)
    ensures Bounded(Reacted(k, size, o), size, skipped + (if o.Skipped? then 1 else 0), taken || o.Taken?)
  {}

  lemma LengthKept(sys: System, ev: Event, skipped: nat, taken: bool)
    requires Bounded(sys.core, sys.size, skipped, taken)
    requires !ev.StartStreams? && (IsSkip(ev) ==> !taken)
    ensures Bounded(Step(sys, ev).core, sys.size, skipped + (if IsSkip(ev) then 1 else 0), taken || IsTaken(ev))
  {
    match ev
    case Callback(o) => LengthKeptByCallback(sys.core, sys.size, o, skipped, taken);
    case Dequeue => DequeuedTakesFirst(sys.core.q);
    case _ =>
  }

  /** A run from one start that skips only initial frames: the queue exceeds its size, or twice
      the number of frames skipped, by at most one entry. */
  lemma {:induction false} LengthFromOneStart(size: nat, events: seq<Event>)
    requires size > 0 && OneStart(events) && SkipsFirst(events)
    ensures Bounded(Exec(Started(size), events).core, size, SkipCount(events), AnyTaken(events))
    decreases |events|
  {
    if events == [] {
    } else {
      var front, ev := events[..|events| - 1], events[|events| - 1];
      assert events == front + [ev];
      LengthFromOneStart(size, front);
      LengthKept(Exec(Started(size), front), ev, SkipCount(front), AnyTaken(front));
      assert AnyTaken(events) <==> AnyTaken(front) || IsTaken(ev);
    }
  }

  function StartCount(events: seq<Event>): nat
    decreases |events|
  {
    if events == [] then 0
    else StartCount(events[..|events| - 1]) + if events[|events| - 1].StartStreams? then 1 else 0
  }

  /** One entry for each start, which lets a loss be queued again, and two for each skipped frame. */
  predicate Roomy(k: Core, size: nat, skipped: nat, starts: nat) {
    |k.q.frames| <= size + 2 * skipped + starts + Slack(k)
  }

  lemma RoomyAfterCallback(k: Core, size: nat, o: Outcome, skipped: nat, starts: nat)
    requires size > 0 && Roomy(k, size, skipped, starts)
    ensures Roomy(Reacted(k, size, o), size, skipped + (if o.Skipped? then 1 else 0), starts)
  {}

  lemma RoomyKept(sys: System, ev: Event, skipped: nat, starts: nat)
    requires Roomy(sys.core, sys.size, skipped, starts)
    ensures Roomy(Step(sys, ev).core, sys.size, skipped + (if IsSkip(ev) then 1 else 0),
                  starts + (if ev.StartStreams? then 1 else 0))
  {
    match ev
    case Callback(o) => RoomyAfterCallback(sys.core, sys.size, o, skipped, starts);
    case Dequeue => DequeuedTakesFirst(sys.core.q);
    case _ =>
  }

  /** Every run whatever: the queue exceeds its size by at most two entries for each skipped frame,
      one for each new start, and one for the loss under way. */
  lemma {:induction false} LengthHolds(size: nat, events: seq<Event>)
    requires size > 0
    ensures Roomy(Exec(Started(size), events).core, size, SkipCount(events), StartCount(events))
    decreases |events|
  {
    if events == [] {
    } else {
      var front, ev := events[..|events| - 1], events[|events| - 1];
      LengthHolds(size, front);
      RoomyKept(Exec(Started(size), front), ev, SkipCount(front), StartCount(front));
    }
  }

  /** However long the queue had become, the next accepted frame trims it to its size. */
  lemma AcceptanceTrims(k: Core, size: nat, o: Outcome)
    requires size > 0 && Accepts(k, o)
    ensures |Reacted(k, size, o).q.frames| <= size
  {}

  // ------------------------------------------------------------------- flushing

  /** The run is between an unlock and the end of the flush. */
  predicate InFlush(events: seq<Event>)
    decreases |events|
  {
    events != []
    && (events[|events| - 1].Unlock?
        || (!events[|events| - 1].UnlockStop? && InFlush(events[..|events| - 1])))
  }

  lemma FlushingAfter(sys: System, ev: Event)
    ensures Step(sys, ev).core.q.flushing <==> ev.Unlock? || (!ev.UnlockStop? && sys.core.q.flushing)
  {
    match ev
    case Callback(o) => CallbackEffect(sys.core, sys.size, o);
    case Dequeue => DequeuedTakesFirst(sys.core.q);
    case _ =>
  }

  lemma {:induction false} FlushingIffUnlocked(size: nat, events: seq<Event>)
    requires size > 0
    ensures Exec(Started(size), events).core.q.flushing <==> InFlush(events)
    decreases |events|
  {
    if events == [] {
    } else {
      FlushingIffUnlocked(size, events[..|events| - 1]);
      FlushingAfter(Exec(Started(size), events[..|events| - 1]), events[|events| - 1]);
    }
  }

  /** Create takes a frame only outside a flush, and never waits within one; within a flush the callback
      queues nothing and releases at once every buffer it is given. Over every run. */
  lemma FlushHoldsOff(size: nat, events: seq<Event>, o: Outcome)
    requires size > 0
    ensures
      var k := Exec(Started(size), events).core;
      && (InFlush(events) <==> Dequeued(k.q).1 == Flushing)
      && (InFlush(events) ==> Dequeued(k.q).0 == k.q)
      && (InFlush(events) ==>
            var q' := Reacted(k, size, o).q;
            && q'.frames == k.q.frames && q'.notified == k.q.notified && q'.skips == k.q.skips
            && q'.released == k.q.released + (if o.NoFrame? then [] else [o.buff.id]))
  {
    FlushingIffUnlocked(size, events);
    DequeuedTakesFirst(Exec(Started(size), events).core.q);
  }

  // ------------------------------------------------------------------- stop and reopening

  /** Stopping leaves the element as the end of a flush and a new start would, but for the flag that
      create waits on; so what holds over runs with flushes and starts holds over stops. */
  lemma StopIsFlushAndStart(sys: System)
    ensures
      var k := Stopped(sys.core);
      Step(Step(sys, UnlockStop), StartStreams).core == k.(q := k.q.(flushing := false))
    ensures
      var q, q' := sys.core.q, Stopped(sys.core).q;
      && Stopped(sys.core).signal == Unknown && q'.frames == []
      && q'.released == q.released + Ids(Reals(q.frames))
      && q'.notified == q.notified && q'.skips == q.skips && q'.flushing == q.flushing
  {}

  /** An element that was stopped, opened again and set to PAUSED is as fresh as a new one: nothing of
      its past is left but the record of it, whatever was queued or counted before. */
  lemma ReopenedIsFresh(k: Core)
    ensures
      var q := CountersCleared(Stopped(k).q).(flushing := false);
      Core(Stopped(k).signal, q)
        == FRESH.(q := FRESH.q.(released := k.q.released + Ids(Reals(k.q.frames)),
                                notified := k.q.notified, reports := k.q.reports))
  {}
}
