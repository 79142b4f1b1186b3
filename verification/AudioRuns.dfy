/** Safety of the audio source over whole runs: what happens to every packet and every buffer, and
    what the counters and the statistics mean. */
module AudioRuns {
  import opened Arithmetic
  import opened DropAccounting
  import opened BufferOwnership
  import opened AudioSource

  // ------------------------------------------------------------------- events and history

  /** As for the video source; the callback is given whatever times the packet was given. */
  datatype Event =
    | Acquire(id: nat)
    | Callback(buff: Option<AudioBuff>, times: Verdict)
    | Refuse
    | Dequeue
    | Deliver(p: Packet)
    | Unlock
    | UnlockStop
    | Unref(id: nat)
    | NewWorker

  /** What the worker holds, and the processed count of the last packet it handed over. */
  datatype Feed = Feed(worker: Option<nat>, lastProcessed: nat)

  /** The packet that create has taken and not yet passed on, and skipped_overall when it did. */
  datatype Held = Held(packet: Packet, overall: nat)

  /** The element with the history of a run: the packets appended, how many of them came before the
      worker was last started, those that left the queue, the capture times of those that were
      dropped, and who holds which buffer. */
  datatype System = System(
    q: Queue, feed: Feed, held: Option<Held>, accepted: seq<Packet>, base: nat, left: seq<Packet>, drops: seq<nat>,
    acquired: multiset<nat>, returned: multiset<nat>, downstream: multiset<nat>)

  const FRESH: System :=
    System(Queue([], false, false, NO_SKIPS, [], []), Feed(None, 0), None, [], 0, [], [],
           multiset{}, multiset{}, multiset{})

  predicate Accepts(q: Queue, buff: Option<AudioBuff>, times: Verdict) {
    HasSignal(buff) && times.Times? && !q.flushing
  }

  /** The packets that one callback drops, and the packet that it appends. */
  function DroppedBy(q: Queue, cfg: Config): seq<Packet> { q.packets[..Overflow(|q.packets|, cfg.queueSize)] }

  function Appended(q: Queue, cfg: Config, buff: AudioBuff, times: Verdict): Packet
    requires times.Times?
  {
    Marked(PacketOf(q, buff, times), EndsBurst(q.skips, CaptureTimes(DroppedBy(q, cfg))))
  }

  function CalledBack(sys: System, cfg: Config, buff: Option<AudioBuff>, times: Verdict): System {
    var q := sys.q;
    var sys1 := sys.(q := Reacted(q, cfg, buff, times),
                     feed := if buff.None? then sys.feed else Feed(None, buff.value.framesProcessed));
    if Accepts(q, buff, times) then
      sys1.(accepted := sys.accepted + [Appended(q, cfg, buff.value, times)],
            left := sys.left + DroppedBy(q, cfg), drops := sys.drops + CaptureTimes(DroppedBy(q, cfg)))
    else sys1
  }

  function Step(sys: System, cfg: Config, ev: Event): System {
    var q := sys.q;
    match ev
    case Acquire(id) => sys.(feed := sys.feed.(worker := Some(id)), acquired := sys.acquired + multiset{id})
    case Callback(buff, times) => CalledBack(sys, cfg, buff, times)
    case Refuse => sys.(feed := sys.feed.(worker := None), returned := sys.returned + One(sys.feed.worker))
    case Dequeue =>
      var (q', r) := Dequeued(q);
      if r.Got? then sys.(q := q', left := sys.left + [r.packet], held := Some(Held(r.packet, q.skips.overall)))
      else sys.(q := q')
    case Deliver(p) =>
      sys.(q := Released(q, p.buff.id), held := None, downstream := sys.downstream + multiset{p.buff.id})
    case Unlock => sys.(q := q.(flushing := true))
    case UnlockStop => sys.(q := Drained(q).(flushing := false), left := sys.left + q.packets)
    case Unref(id) => sys.(downstream := sys.downstream - multiset{id})
    case NewWorker => sys.(feed := sys.feed.(lastProcessed := 0), base := |sys.accepted|)
  }

  function Exec(cfg: Config, events: seq<Event>): System
    decreases |events|
  {
    if events == [] then FRESH else Step(Exec(cfg, events[..|events| - 1]), cfg, events[|events| - 1])
  }

  // ------------------------------------------------------------------- ownership

  function HeldId(sys: System): Option<nat> {
    if sys.held.Some? then Some(sys.held.value.packet.buff.id) else None
  }

  function OwnersOf(sys: System): Owners {
    Owners(sys.acquired, Given(sys.q.released, sys.returned),
           One(sys.feed.worker), multiset(Ids(sys.q.packets)), One(HeldId(sys)), sys.downstream)
  }

  predicate InOrder(feed: Feed, buff: Option<AudioBuff>) {
    if buff.None? then feed.worker.None?
    else feed.worker == Some(buff.value.id) && buff.value.framesProcessed > feed.lastProcessed
  }

  predicate Feasible(sys: System, ev: Event) {
    match ev
    case Acquire(id) => sys.feed.worker.None? && id !in Holders(OwnersOf(sys))
    case Callback(buff, _) => InOrder(sys.feed, buff)
    case Refuse => sys.feed.worker.Some?
    case Dequeue => sys.held.None?
    case Deliver(p) => sys.held.Some? && sys.held.value.packet == p
    case Unref(id) => id in sys.downstream
    case _ => true
  }

  ghost predicate FeasibleRun(cfg: Config, events: seq<Event>)
    decreases |events|
  {
    events != [] ==>
      && FeasibleRun(cfg, events[..|events| - 1])
      && Feasible(Exec(cfg, events[..|events| - 1]), events[|events| - 1])
  }

  lemma IdsAppend(a: seq<Packet>, b: seq<Packet>)
    ensures Ids(a + b) == Ids(a) + Ids(b)
  {}

  lemma SplitAndAppend(packets: seq<Packet>, n: nat, last: Packet)
    requires n <= |packets|
    ensures packets + [last] == packets[..n] + (packets[n..] + [last])
    ensures Ids(packets) + [last.buff.id] == Ids(packets[..n]) + Ids(packets[n..] + [last])
  {
    assert packets + [last] == packets[..n] + (packets[n..] + [last]);
    IdsAppend(packets, [last]);
    IdsAppend(packets[..n], packets[n..] + [last]);
    assert Ids([last]) == [last.buff.id];
  }

  /** Appending a packet: what was queued and the new packet are, in order, what was dropped and
      what is queued now. */
  lemma EnqueuedMoves(q: Queue, cfg: Config, buff: AudioBuff, times: Verdict)
    requires times.Times?
    ensures
      var q', dropped := Enqueued(q.(hadSignal := true), cfg.queueSize, PacketOf(q, buff, times)), DroppedBy(q, cfg);
      && q.packets + [Appended(q, cfg, buff, times)] == dropped + q'.packets
      && Ids(q.packets) + [buff.id] == Ids(dropped) + Ids(q'.packets)
      && |q'.packets| <= cfg.queueSize
  {
    SplitAndAppend(q.packets, Overflow(|q.packets|, cfg.queueSize), Appended(q, cfg, buff, times));
  }

  function MoveOf(sys: System, cfg: Config, ev: Event): Move {
    match ev
    case Acquire(id) => Acquired(id)
    case Callback(buff, times) =>
      if buff.None? then Stay
      else if Accepts(sys.q, buff, times) then Queued(multiset(Ids(DroppedBy(sys.q, cfg))))
      else GivenBack
    case Refuse => GivenBack
    case Dequeue => if Dequeued(sys.q).1.Got? then Picked(sys.q.packets[0].buff.id) else Stay
    case Deliver(_) => PassedOn
    case UnlockStop => Emptied
    case Unref(id) => Unreffed(id)
    case _ => Stay
  }

  lemma AcceptMoves(sys: System, cfg: Config, buff: Option<AudioBuff>, times: Verdict)
    requires InOrder(sys.feed, buff) && Accepts(sys.q, buff, times)
    ensures MovesBy(OwnersOf(sys), OwnersOf(CalledBack(sys, cfg, buff, times)),
                    Queued(multiset(Ids(DroppedBy(sys.q, cfg)))))
  {
    var q, q' := sys.q, Reacted(sys.q, cfg, buff, times);
    EnqueuedMoves(q, cfg, buff.value, times);
    QueueMoves(Ids(q.packets), buff.value.id, Ids(DroppedBy(q, cfg)), Ids(q'.packets));
    GivenMore(q.released, sys.returned, Ids(DroppedBy(q, cfg)));
  }

  lemma RefusalMoves(sys: System, cfg: Config, buff: AudioBuff, times: Verdict)
    requires InOrder(sys.feed, Some(buff)) && !Accepts(sys.q, Some(buff), times)
    ensures MovesBy(OwnersOf(sys), OwnersOf(CalledBack(sys, cfg, Some(buff), times)), GivenBack)
  {
    GivenOneMore(sys.q.released, sys.returned, buff.id);
    assert CalledBack(sys, cfg, Some(buff), times).q.packets == sys.q.packets;
  }

  lemma NoBufferMoves(sys: System, cfg: Config, times: Verdict)
    ensures MovesBy(OwnersOf(sys), OwnersOf(CalledBack(sys, cfg, None, times)), Stay)
  {}

  lemma DequeueMoves(sys: System, cfg: Config)
    requires sys.held.None? && Dequeued(sys.q).1.Got?
    ensures MovesBy(OwnersOf(sys), OwnersOf(Step(sys, cfg, Dequeue)), MoveOf(sys, cfg, Dequeue))
  {
    var o, packets := OwnersOf(sys), sys.q.packets;
    assert packets == [packets[0]] + packets[1..];
    IdsAppend([packets[0]], packets[1..]);
    HeadPicked(o, Ids(packets), packets[0].buff.id, Ids(packets[1..]));
    assert OwnersOf(Step(sys, cfg, Dequeue))
        == o.(queued := multiset(Ids(packets[1..])), create := multiset{packets[0].buff.id});
  }

  lemma DeliverMoves(sys: System, cfg: Config, p: Packet)
    requires Feasible(sys, Deliver(p))
    ensures MovesBy(OwnersOf(sys), OwnersOf(Step(sys, cfg, Deliver(p))), PassedOn)
  {
    GivenOneMore(sys.q.released, sys.returned, p.buff.id);
  }

  lemma FlushMoves(sys: System, cfg: Config)
    ensures MovesBy(OwnersOf(sys), OwnersOf(Step(sys, cfg, UnlockStop)), Emptied)
  {
    GivenMore(sys.q.released, sys.returned, Ids(sys.q.packets));
  }

  lemma AcquireMoves(sys: System, cfg: Config, id: nat)
    requires Feasible(sys, Acquire(id))
    ensures MovesBy(OwnersOf(sys), OwnersOf(Step(sys, cfg, Acquire(id))), Acquired(id))
  {}

  lemma RefuseMoves(sys: System, cfg: Config)
    ensures MovesBy(OwnersOf(sys), OwnersOf(Step(sys, cfg, Refuse)), GivenBack)
  {}

  lemma UnrefMoves(sys: System, cfg: Config, id: nat)
    ensures MovesBy(OwnersOf(sys), OwnersOf(Step(sys, cfg, Unref(id))), Unreffed(id))
  {}

  lemma NothingMoves(sys: System, cfg: Config, ev: Event)
    requires ev.Unlock? || ev.NewWorker? || (ev.Dequeue? && !Dequeued(sys.q).1.Got?)
    ensures MovesBy(OwnersOf(sys), OwnersOf(Step(sys, cfg, ev)), Stay)
  {}

  /** Every event moves buffers in one of the ways that keep them owned. */
  lemma EventMoves(sys: System, cfg: Config, ev: Event)
    requires Feasible(sys, ev)
    ensures MovesBy(OwnersOf(sys), OwnersOf(Step(sys, cfg, ev)), MoveOf(sys, cfg, ev))
  {
    match ev
    case Acquire(id) => AcquireMoves(sys, cfg, id);
    case Callback(buff, times) =>
      if Accepts(sys.q, buff, times) {
        AcceptMoves(sys, cfg, buff, times);
      } else if buff.Some? {
        RefusalMoves(sys, cfg, buff.value, times);
      } else {
        NoBufferMoves(sys, cfg, times);
      }
    case Refuse => RefuseMoves(sys, cfg);
    case Dequeue =>
      if Dequeued(sys.q).1.Got? {
        DequeueMoves(sys, cfg);
      } else {
        NothingMoves(sys, cfg, ev);
      }
    case Deliver(p) => DeliverMoves(sys, cfg, p);
    case UnlockStop => FlushMoves(sys, cfg);
    case Unref(id) => UnrefMoves(sys, cfg, id);
    case _ => NothingMoves(sys, cfg, ev);
  }

  // ------------------------------------------------------------------- the queue and the counters

  /** The queue holds the most recent accepted packets in order and never more than its size, and
      the counters account for exactly the dropped packets. */
  ghost predicate QueueRight(sys: System, cfg: Config) {
    && sys.accepted == sys.left + sys.q.packets
    && |sys.q.packets| <= cfg.queueSize
    && |sys.drops| <= |sys.left|
    && Accounts(sys.q.skips, sys.q.reports, sys.drops)
  }

  lemma LeftMoves(left: seq<Packet>, before: seq<Packet>, joined: seq<Packet>, dropped: seq<Packet>, after: seq<Packet>)
    requires before + joined == dropped + after
    ensures left + before + joined == (left + dropped) + after
  {
    assert left + before + joined == left + (before + joined);
    assert (left + dropped) + after == left + (dropped + after);
  }

  lemma QueueKeptOnAccept(sys: System, cfg: Config, buff: Option<AudioBuff>, times: Verdict)
    requires QueueRight(sys, cfg) && Accepts(sys.q, buff, times)
    ensures QueueRight(CalledBack(sys, cfg, buff, times), cfg)
  {
    var q, q' := sys.q, Reacted(sys.q, cfg, buff, times);
    EnqueuedMoves(q, cfg, buff.value, times);
    LeftMoves(sys.left, q.packets, [Appended(q, cfg, buff.value, times)], DroppedBy(q, cfg), q'.packets);
    CountedKeepsAccounts(q.skips, q.reports, sys.drops, CaptureTimes(DroppedBy(q, cfg)));
  }

  lemma QueueKeptOnDequeue(sys: System, cfg: Config)
    requires QueueRight(sys, cfg) && Dequeued(sys.q).1.Got?
    ensures QueueRight(Step(sys, cfg, Dequeue), cfg)
  {
    var packets := sys.q.packets;
    assert packets + [] == [packets[0]] + packets[1..];
    LeftMoves(sys.left, packets, [], [packets[0]], packets[1..]);
    assert sys.left + packets + [] == sys.left + packets;
  }

  lemma QueueKept(sys: System, cfg: Config, ev: Event)
    requires QueueRight(sys, cfg)
    ensures QueueRight(Step(sys, cfg, ev), cfg)
  {
    if ev.Callback? && Accepts(sys.q, ev.buff, ev.times) {
      QueueKeptOnAccept(sys, cfg, ev.buff, ev.times);
    } else if ev.Dequeue? && Dequeued(sys.q).1.Got? {
      QueueKeptOnDequeue(sys, cfg);
    }
  }

  // ------------------------------------------------------------------- statistics

  /** Processed counts of the packets accepted since the worker was started, and what create knew
      when it took the packet it holds. */
  ghost predicate CountsRight(sys: System) {
    && sys.base <= |sys.accepted| <= sys.base + sys.feed.lastProcessed
    && (forall i :: sys.base <= i < |sys.accepted| ==>
          i - sys.base < sys.accepted[i].buff.framesProcessed <= sys.feed.lastProcessed)
    && (sys.held.Some? ==>
          && sys.left != [] && sys.held.value.overall <= sys.q.skips.overall
          && (sys.base == 0 ==> sys.held.value.overall < sys.held.value.packet.buff.framesProcessed))
  }

  lemma CountsKeptOnDequeue(sys: System, cfg: Config)
    requires QueueRight(sys, cfg) && CountsRight(sys) && Dequeued(sys.q).1.Got?
    ensures CountsRight(Step(sys, cfg, Dequeue))
  {
    assert sys.accepted[|sys.left|] == sys.q.packets[0];
  }

  lemma CountsKeptOnCallback(sys: System, cfg: Config, buff: Option<AudioBuff>, times: Verdict)
    requires CountsRight(sys) && InOrder(sys.feed, buff)
    ensures CountsRight(CalledBack(sys, cfg, buff, times))
  {}

  lemma CountsKept(sys: System, cfg: Config, ev: Event)
    requires QueueRight(sys, cfg) && CountsRight(sys) && Feasible(sys, ev)
    ensures CountsRight(Step(sys, cfg, ev))
  {
    if ev.Callback? {
      CountsKeptOnCallback(sys, cfg, ev.buff, ev.times);
    } else if ev.Dequeue? && Dequeued(sys.q).1.Got? {
      CountsKeptOnDequeue(sys, cfg);
    }
  }

  ghost predicate Inv(sys: System, cfg: Config) {
    QueueRight(sys, cfg) && Sound(OwnersOf(sys)) && CountsRight(sys)
  }

  lemma InvKept(sys: System, cfg: Config, ev: Event)
    requires Inv(sys, cfg) && Feasible(sys, ev)
    ensures Inv(Step(sys, cfg, ev), cfg)
  {
    QueueKept(sys, cfg, ev);
    EventMoves(sys, cfg, ev);
    MoveKeepsSound(OwnersOf(sys), OwnersOf(Step(sys, cfg, ev)), MoveOf(sys, cfg, ev));
    CountsKept(sys, cfg, ev);
  }

  lemma NobodyAtStart()
    ensures OwnersOf(FRESH) == NOBODY
  {
    assert Ids([]) == [];
  }

  lemma QueueRightAtStart(cfg: Config)
    ensures QueueRight(FRESH, cfg)
  {}

  lemma OwnedAtStart()
    ensures Sound(OwnersOf(FRESH)) && CountsRight(FRESH)
  {
    NobodyAtStart();
    SoundAtFirst();
  }

  lemma {:induction false} InvHolds(cfg: Config, events: seq<Event>)
    requires FeasibleRun(cfg, events)
    ensures Inv(Exec(cfg, events), cfg)
    decreases |events|
  {
    if events == [] {
      QueueRightAtStart(cfg);
      OwnedAtStart();
    } else {
      InvHolds(cfg, events[..|events| - 1]);
      InvKept(Exec(cfg, events[..|events| - 1]), cfg, events[|events| - 1]);
    }
  }

  // ------------------------------------------------------------------- theorems

  /** The queue holds the latest accepted packets and never more than its size, those that left did
      so in order, the counters and warnings add up to the packets dropped, and skip_from and skip_to
      are the ends of the burst under way. */
  ghost predicate MostRecent(sys: System, cfg: Config) {
    && |sys.left| <= |sys.accepted| && |sys.q.packets| <= cfg.queueSize
    && sys.q.packets == sys.accepted[|sys.left|..] && sys.left == sys.accepted[..|sys.left|]
    && |sys.drops| == sys.q.skips.overall + sys.q.skips.last
    && ReportedTotal(sys.q.reports) == sys.q.skips.overall
    && (sys.q.skips.last > 0 ==>
          && sys.q.skips.from == Some(sys.drops[sys.q.skips.overall])
          && sys.q.skips.to == Some(sys.drops[|sys.drops| - 1]))
  }

  lemma QueueRightMeansMostRecent(sys: System, cfg: Config)
    requires QueueRight(sys, cfg)
    ensures MostRecent(sys, cfg)
  {
    CoverCounts(sys.q.reports, sys.drops[..sys.q.skips.overall]);
  }

  lemma QueueIsMostRecent(cfg: Config, events: seq<Event>)
    requires FeasibleRun(cfg, events)
    ensures MostRecent(Exec(cfg, events), cfg)
  {
    InvHolds(cfg, events);
    QueueRightMeansMostRecent(Exec(cfg, events), cfg);
  }

  /** In every run each buffer has one owner, and each capture reference is given back once. */
  lemma EachReferenceReleasedOnce(cfg: Config, events: seq<Event>, id: nat)
    requires FeasibleRun(cfg, events)
    ensures OneOwner(OwnersOf(Exec(cfg, events)), id)
  {
    InvHolds(cfg, events);
    SoundMeansOneOwner(OwnersOf(Exec(cfg, events)), id);
  }

  /** Processed is the frames processed less the drops reported so far, and dropped is those dropped before
      and these. */
  predicate StatisticsRight(b: AudioBuff, reported: nat, qos: Qos) {
    qos.processed + reported == b.framesProcessed && qos.dropped == b.framesDropped + reported
  }

  /** When create passes on the packet it holds: a message is due exactly for a packet after a drop.
      reported is what the drop warnings have added up to since it took the packet. */
  ghost predicate QosExact(sys: System) {
    sys.held.Some? ==>
      var b, earlier := sys.held.value.packet.buff, sys.held.value.overall;
      var inAll := ReportedTotal(sys.q.reports);
      var reported, qos := inAll - earlier, QosOf(b, sys.q.skips);
      && (qos.Some? <==> b.droppedChanged) && 0 <= reported
      && (sys.base == 0 ==> earlier < b.framesProcessed)
      && (b.droppedChanged ==>
            && (StatisticsRight(b, inAll, qos.value) <==> earlier + reported <= b.framesProcessed)
            && (sys.base == 0 && reported == 0 ==> StatisticsRight(b, inAll, qos.value)))
  }

  lemma InvMeansQosExact(sys: System, cfg: Config)
    requires MostRecent(sys, cfg) && CountsRight(sys)
    ensures QosExact(sys)
  {}

  /** In every run, the statistics of the next message are right if and only if the drops reported
      when create took the packet and those reported since do not exceed the frames processed; the
      former alone never do, unless the worker was started again after packets had been queued. */
  lemma QosRightIff(cfg: Config, events: seq<Event>)
    requires FeasibleRun(cfg, events)
    ensures QosExact(Exec(cfg, events))
  {
    InvHolds(cfg, events);
    QueueIsMostRecent(cfg, events);
    InvMeansQosExact(Exec(cfg, events), cfg);
  }

  // ------------------------------------------------------------------- flushing

  /** The run is between an unlock and the end of the flush. */
  predicate InFlush(events: seq<Event>)
    decreases |events|
  {
    events != []
    && (events[|events| - 1].Unlock?
        || (!events[|events| - 1].UnlockStop? && InFlush(events[..|events| - 1])))
  }

  lemma FlushingAfter(sys: System, cfg: Config, ev: Event)
    ensures Step(sys, cfg, ev).q.flushing <==> ev.Unlock? || (!ev.UnlockStop? && sys.q.flushing)
  {}

  lemma {:induction false} FlushingIffUnlocked(cfg: Config, events: seq<Event>)
    ensures Exec(cfg, events).q.flushing <==> InFlush(events)
    decreases |events|
  {
    if events == [] {
    } else {
      FlushingIffUnlocked(cfg, events[..|events| - 1]);
      FlushingAfter(Exec(cfg, events[..|events| - 1]), cfg, events[|events| - 1]);
    }
  }

  /** Create takes a packet only outside a flush, and never waits within one; within a flush the callback
      queues nothing and releases at once every buffer it is given. Over every run. */
  lemma FlushHoldsOff(cfg: Config, events: seq<Event>, buff: Option<AudioBuff>, times: Verdict)
    ensures
      var q := Exec(cfg, events).q;
      && (InFlush(events) <==> Dequeued(q).1 == Flushing)
      && (InFlush(events) ==> Dequeued(q).0 == q)
      && (InFlush(events) ==>
            var q' := Reacted(q, cfg, buff, times);
            && q'.packets == q.packets && q'.skips == q.skips
            && q'.released == q.released + (if buff.None? then [] else [buff.value.id]))
  {
    FlushingIffUnlocked(cfg, events);
  }

  // ------------------------------------------------------------------- where gaps are flagged

  /** No packet is accepted from this point of a run on. */
  ghost predicate NoneAccepted(cfg: Config, events: seq<Event>, more: seq<Event>)
    decreases |more|
  {
    more != [] ==>
      var ev, q := more[|more| - 1], Exec(cfg, events + more[..|more| - 1]).q;
      && NoneAccepted(cfg, events, more[..|more| - 1])
      && (ev.Callback? ==> !Accepts(q, ev.buff, ev.times))
  }

  lemma ExecExtends(cfg: Config, events: seq<Event>, more: seq<Event>)
    requires more != []
    ensures Exec(cfg, events + more) == Step(Exec(cfg, events + more[..|more| - 1]), cfg, more[|more| - 1])
  {
    assert (events + more)[..|events + more| - 1] == events + more[..|more| - 1];
  }

  lemma QuietKeepsSkips(sys: System, cfg: Config, ev: Event)
    requires ev.Callback? ==> !Accepts(sys.q, ev.buff, ev.times)
    ensures Step(sys, cfg, ev).q.skips == sys.q.skips
  {}

  lemma {:induction false} SkipsUntouched(cfg: Config, events: seq<Event>, more: seq<Event>)
    requires NoneAccepted(cfg, events, more)
    ensures Exec(cfg, events + more).q.skips == Exec(cfg, events).q.skips
    decreases |more|
  {
    if more == [] {
      assert events + more == events;
    } else {
      SkipsUntouched(cfg, events, more[..|more| - 1]);
      ExecExtends(cfg, events, more);
      QuietKeepsSkips(Exec(cfg, events + more[..|more| - 1]), cfg, more[|more| - 1]);
    }
  }

  /** The packet that an accepting callback puts at the end of the queue. */
  lemma AcceptAppends(sys: System, cfg: Config, buff: Option<AudioBuff>, times: Verdict)
    requires Accepts(sys.q, buff, times)
    ensures
      var q := CalledBack(sys, cfg, buff, times).q;
      && q.packets != [] && q.packets[|q.packets| - 1] == Appended(sys.q, cfg, buff.value, times)
      && q.skips == Counted(sys.q.skips, CaptureTimes(DroppedBy(sys.q, cfg)))
  {}

  /** The packet that this callback queues, after sys1 accepted one and no other came in between, is
      marked beyond its own flag exactly when the first drove packets out and it does not. */
  ghost predicate MarkedRight(sys1: System, sys2: System, cfg: Config, buff: AudioBuff, times: Verdict) {
    var packets := CalledBack(sys2, cfg, Some(buff), times).q.packets;
    && packets != []
    && packets[|packets| - 1].buff == buff.(droppedChanged :=
         buff.droppedChanged || (|sys1.q.packets| >= cfg.queueSize && |sys2.q.packets| < cfg.queueSize))
  }

  lemma NextIsMarkedRight(sys1: System, sys2: System, cfg: Config, first: Option<AudioBuff>, firstTimes: Verdict,
                          buff: AudioBuff, times: Verdict)
    requires Accepts(sys1.q, first, firstTimes) && Accepts(sys2.q, Some(buff), times)
    requires sys2.q.skips == CalledBack(sys1, cfg, first, firstTimes).q.skips
    ensures MarkedRight(sys1, sys2, cfg, buff, times)
  {
    AcceptAppends(sys1, cfg, first, firstTimes);
    AcceptAppends(sys2, cfg, Some(buff), times);
  }

  /** The flag for a gap goes to the first packet whose arrival drops nothing: of two packets accepted
      one after the other in any run, the second is queued with the flag it came with, and with that of
      a drop beyond this exactly when the first drove packets out and the second does not. */
  lemma BurstEndFlagged(cfg: Config, before: seq<Event>, c1: Event, between: seq<Event>, c2: Event)
    requires c1.Callback? && Accepts(Exec(cfg, before).q, c1.buff, c1.times)
    requires NoneAccepted(cfg, before + [c1], between)
    requires c2.Callback? && Accepts(Exec(cfg, before + [c1] + between).q, c2.buff, c2.times)
    ensures MarkedRight(Exec(cfg, before), Exec(cfg, before + [c1] + between), cfg, c2.buff.value, c2.times)
  {
    ExecExtends(cfg, before, [c1]);
    assert before + [c1][..0] == before;
    SkipsUntouched(cfg, before + [c1], between);
    NextIsMarkedRight(Exec(cfg, before), Exec(cfg, before + [c1] + between), cfg, c1.buff, c1.times,
                      c2.buff.value, c2.times);
  }
}
