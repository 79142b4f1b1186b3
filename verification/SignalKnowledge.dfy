/** What the application knows about the signal: which changes it has been told, which are still
    queued, and when dropping or flushing makes it miss one. */
module SignalKnowledge {
  import opened DropAccounting
  import opened VideoSource
  import opened VideoRuns

  /** The signal changes a run has told the application or will tell it from the queue. */
  function Story(q: Queue): seq<SignalChange> { q.notified + Changes(q.frames) }

  /** The last change told is a first or a recovered signal. */
  predicate Heard(story: seq<SignalChange>) {
    story != [] && (story[|story| - 1] == GotSignal || story[|story| - 1] == RecoveredSignal)
  }

  /** The last change told agrees with the signal state. As long as that is unknown, after a start
      and until the next callback, there is nothing to agree with. */
  predicate Agrees(signal: SignalState, story: seq<SignalChange>) {
    match signal
    case Unknown => true
    case Lost => story != [] && story[|story| - 1] == LostSignal
    case Available => Heard(story)
  }

  predicate Knows(k: Core) { Agrees(k.signal, Story(k.q)) }

  predicate NoFlush(events: seq<Event>) { forall ev :: ev in events ==> !ev.Unlock? && !ev.UnlockStop? }

  lemma {:induction false} ChangesSubset(d: seq<Entry>)
    ensures forall c :: c in Changes(d) ==> c != NoChange && exists e :: e in d && e.change == c
  {
    if d == [] {
    } else {
      var front := d[..|d| - 1];
      ChangesSubset(front);
      forall c | c in Changes(d) ensures c != NoChange && exists e :: e in d && e.change == c {
        if c in Changes(front) {
          var e :| e in front && e.change == c;
          assert e in d;
        } else {
          assert d[|d| - 1] in d;
        }
      }
    }
  }

  /** When nothing is rescued, only losses were dropped. */
  lemma NothingRescued(d: seq<Entry>)
    ensures Rescued(d) == NoChange ==> forall c :: c in Changes(d) ==> c == LostSignal
  {
    ChangesSubset(d);
  }

  lemma ChangesSplit(d: seq<Entry>)
    requires d != []
    ensures Changes(d) == Own(d[0].change) + Changes(d[1..])
  {
    assert d == [d[0]] + d[1..];
    ChangesAppend([d[0]], d[1..]);
    ChangesOne(d[0]);
  }

  function Own(change: SignalChange): seq<SignalChange> { if change != NoChange then [change] else [] }

  /** The last change of told + (dropped + (head + rest)), and of told + (head' + rest) after the
      head was overwritten with the rescued change. */
  lemma OverwriteKeepsHeard(told: seq<SignalChange>, dropped: seq<SignalChange>, head: SignalChange,
                            rest: seq<SignalChange>, rescued: SignalChange)
    requires Heard(told + (dropped + (Own(head) + rest)))
    requires rescued == NoChange || rescued == GotSignal || rescued == RecoveredSignal
    requires rescued == NoChange ==> forall c :: c in dropped ==> c == LostSignal
    ensures Heard(told + (Own(if rescued != NoChange then rescued else head) + rest))
  {
    var after := told + (Own(if rescued != NoChange then rescued else head) + rest);
    var before := told + (dropped + (Own(head) + rest));
    assert dropped != [] ==> dropped[|dropped| - 1] in dropped;
    if rest != [] {
      assert after[|after| - 1] == rest[|rest| - 1] == before[|before| - 1];
    } else if rescued != NoChange {
      assert after[|after| - 1] == rescued;
    } else if head != NoChange {
      assert after[|after| - 1] == head == before[|before| - 1];
    } else {
      assert Own(head) + rest == [];
      assert before == told + dropped && after == told;
    }
  }

  /** Dropping the front of the queue and rescuing its change into the head keeps the last
      change told a got or a recovery, as long as something is left in the queue. */
  lemma RescueKeepsHeard(told: seq<SignalChange>, dropped: seq<Entry>, kept: seq<Entry>)
    requires kept != [] && Heard(told + (Changes(dropped) + Changes(kept)))
    ensures Heard(told + Changes(WithHeadChange(kept, Rescued(dropped))))
  {
    ChangesSplit(kept);
    ChangesSplit(WithHeadChange(kept, Rescued(dropped)));
    NothingRescued(dropped);
    OverwriteKeepsHeard(told, Changes(dropped), kept[0].change, Changes(kept[1..]), Rescued(dropped));
  }

  lemma AnnouncedTells(q: Queue, change: SignalChange)
    requires !q.flushing && change != NoChange
    ensures Story(Announced(q, change)) == Story(q) + [change]
  {
    ChangesAppend(q.frames, [Placeholder(change)]);
    ChangesOne(Placeholder(change));
  }

  lemma SilentAppend(d: seq<Entry>, last: Entry)
    requires last.change == NoChange
    ensures Changes(d + [last]) == Changes(d)
  {
    ChangesAppend(d, [last]);
    ChangesOne(last);
  }

  lemma SpliceKeepsHeard(told: seq<SignalChange>, dropped: seq<Entry>, kept: seq<Entry>, last: Entry)
    requires kept != [] && last.change == NoChange && Heard(told + Changes(dropped + kept))
    ensures Heard(told + Changes(WithHeadChange(kept, Rescued(dropped)) + [last]))
  {
    ChangesAppend(dropped, kept);
    RescueKeepsHeard(told, dropped, kept);
    SilentAppend(WithHeadChange(kept, Rescued(dropped)), last);
  }

  lemma EnqueuedKeepsHeard(q: Queue, size: nat, e: RealEntry)
    requires size >= 2 && e.change == NoChange && Heard(Story(q))
    ensures Heard(Story(Enqueued(q, size, e)))
  {
    var n := Overflow(|q.frames|, size);
    var dropped, kept := q.frames[..n], q.frames[n..];
    var last := Marked(e, EndsBurst(q.skips, CaptureTimes(Reals(dropped))));
    if q.frames == [] {
      SilentAppend([], last);
      assert WithHeadChange(kept, Rescued(dropped)) == [];
    } else {
      assert q.frames == dropped + kept;
      SpliceKeepsHeard(q.notified, dropped, kept, last);
    }
  }

  lemma LossKeepsKnowledge(k: Core)
    requires Knows(k) && !k.q.flushing
    ensures Knows(LossNoted(k))
  {
    AnnouncedTells(k.q, LostSignal);
  }

  lemma SignalKeepsKnowledge(k: Core)
    requires Knows(k) && !k.q.flushing
    ensures Heard(Story(SignalNoted(k).q)) && !SignalNoted(k).q.flushing
  {
    AnnouncedTells(k.q, if k.signal == Lost then RecoveredSignal else GotSignal);
  }

  lemma TakenKeepsKnowledge(k: Core, size: nat, o: Outcome)
    requires Knows(k) && Accepts(k, o) && size >= 2
    ensures Knows(Reacted(k, size, o)) && !Reacted(k, size, o).q.flushing
  {
    SignalKeepsKnowledge(k);
    var e := EntryOf(o, k.signal);
    EnqueuedKeepsHeard(SignalNoted(k).q, size, e);
    assert Reacted(k, size, o) == Core(Available, Enqueued(SignalNoted(k).q, size, e));
  }

  lemma RefusedKeepsKnowledge(k: Core, size: nat, o: Outcome)
    requires Knows(k) && !k.q.flushing && !o.Taken? && size > 0
    ensures Knows(Reacted(k, size, o)) && !Reacted(k, size, o).q.flushing
  {
    match o
    case NoFrame => LossKeepsKnowledge(k);
    case NoSignal(b) => LossKeepsKnowledge(k.(q := Released(k.q, b.id)));
    case Skipped(b) => SignalKeepsKnowledge(k);
  }

  lemma KnowledgeKept(sys: System, ev: Event)
    requires Knows(sys.core) && !sys.core.q.flushing && sys.size >= 2
    requires !ev.Unlock? && !ev.UnlockStop?
    ensures Knows(Step(sys, ev).core) && !Step(sys, ev).core.q.flushing
  {
    match ev
    case Callback(o) =>
      if o.Taken? {
        TakenKeepsKnowledge(sys.core, sys.size, o);
      } else {
        RefusedKeepsKnowledge(sys.core, sys.size, o);
      }
    case Dequeue => DequeuedTakesFirst(sys.core.q);
    case _ =>
  }

  /** In every run without a flush, however often the streams are started again and whatever is
      dropped: the last change told or queued agrees with the signal. */
  lemma {:induction false} KnowledgeHolds(size: nat, events: seq<Event>)
    requires NoFlush(events) && size >= 2
    ensures
      var k := Exec(Started(size), events).core;
      Knows(k) && !k.q.flushing
    decreases |events|
  {
    if events == [] {
    } else {
      KnowledgeHolds(size, events[..|events| - 1]);
      KnowledgeKept(Exec(Started(size), events[..|events| - 1]), events[|events| - 1]);
    }
  }

  /** A new start makes the signal unknown without telling anyone: until the next callback the
      application goes on believing what it was told last. */
  lemma StartTellsNothing(sys: System)
    ensures
      var k := Step(sys, StartStreams).core;
      k.signal == Unknown && Story(k.q) == Story(sys.core.q) && Knows(k)
  {}

  predicate Untold(k: Core) { k.signal == Unknown ==> Story(k.q) == [] }

  lemma CallbackEndsUnknown(k: Core, size: nat, o: Outcome)
    requires size > 0
    ensures Reacted(k, size, o).signal != Unknown
  {}

  lemma UntoldKept(sys: System, ev: Event)
    requires Untold(sys.core) && !ev.StartStreams?
    ensures Untold(Step(sys, ev).core)
  {
    match ev
    case Callback(o) => CallbackEndsUnknown(sys.core, sys.size, o);
    case Dequeue => DequeuedTakesFirst(sys.core.q);
    case UnlockStop => assert Changes([]) == [];
    case _ =>
  }

  /** In a run from one start the signal is unknown only as long as nothing has been told. */
  lemma {:induction false} UnknownMeansUntold(size: nat, events: seq<Event>)
    requires size > 0 && OneStart(events)
    ensures Untold(Exec(Started(size), events).core)
    decreases |events|
  {
    if events == [] {
      assert Changes([]) == [];
    } else {
      UnknownMeansUntold(size, events[..|events| - 1]);
      UntoldKept(Exec(Started(size), events[..|events| - 1]), events[|events| - 1]);
    }
  }

  // ------------------------------------------------------------------- which changes are told

  /** While the element is not flushing, a callback tells a loss exactly if the signal was not lost
      already, a recovery exactly if it was, and a first signal exactly if it was unknown. */
  lemma ChangesTold(k: Core)
    requires !k.q.flushing
    ensures
      && Story(LossNoted(k).q) == Story(k.q) + (if k.signal == Lost then [] else [LostSignal])
      && LossNoted(k).signal == Lost
      && SignalNoted(k).signal == Available
      && Story(SignalNoted(k).q) == Story(k.q) +
           if k.signal == Lost then [RecoveredSignal] else if k.signal == Unknown then [GotSignal] else []
  {
    AnnouncedTells(k.q, LostSignal);
    AnnouncedTells(k.q, if k.signal == Lost then RecoveredSignal else GotSignal);
    assert Story(k.q) + [] == Story(k.q);
  }

  lemma InChanges(d: seq<Entry>, c: SignalChange)
    requires c != NoChange
    ensures c in Changes(d) <==> exists e :: e in d && e.change == c
  {
    ChangesSubset(d);
    if exists e :: e in d && e.change == c {
      var i :| 0 <= i < |d| && d[i].change == c;
      assert d == d[..i] + ([d[i]] + d[i + 1..]);
      ChangesAppend(d[..i], [d[i]] + d[i + 1..]);
      ChangesAppend([d[i]], d[i + 1..]);
      ChangesOne(d[i]);
    }
  }

  /** When entries are dropped, the oldest one that stays tells a recovery if there was one among the
      changes dropped, else a first signal if there was one, and else what it told before; the other
      entries tell what they told. */
  lemma DroppedChangesTold(q: Queue, size: nat, e: RealEntry)
    requires size > 0 && e.change == NoChange && |q.frames| > Overflow(|q.frames|, size)
    ensures
      var n := Overflow(|q.frames|, size);
      var dropped, kept, after := Changes(q.frames[..n]), q.frames[n..], Enqueued(q, size, e).frames;
      && |after| == |kept| + 1 && after[|kept|].change == NoChange
      && after[0].change == (if RecoveredSignal in dropped then RecoveredSignal
                             else if GotSignal in dropped then GotSignal
                             else kept[0].change)
      && (forall i :: 0 < i < |kept| ==> after[i] == kept[i])
  {
    InChanges(q.frames[..Overflow(|q.frames|, size)], RecoveredSignal);
    InChanges(q.frames[..Overflow(|q.frames|, size)], GotSignal);
  }

  // ------------------------------------------------------------------- flushing

  /** Ending a flush costs nothing: all changes of the signal have been notified. */
  predicate Harmless(k: Core, ev: Event) { ev.UnlockStop? ==> Agrees(k.signal, k.q.notified) }

  /** The end of a flush keeps knowledge exactly when the last change notified agrees with the
      signal; what was still queued counts for nothing. */
  lemma FlushKeepsKnowledgeIff(q: Queue, signal: SignalState)
    ensures Knows(Core(signal, UnlockStopped(q))) <==> Agrees(signal, q.notified)
  {
    assert Changes([]) == [];
    assert q.notified + [] == q.notified;
  }

  /** Knowledge that is kept up while the element is not flushing. */
  predicate KnowsOrFlushing(k: Core) { k.q.flushing || Knows(k) }

  lemma HarmlessIff(sys: System, ev: Event)
    requires KnowsOrFlushing(sys.core) && sys.size >= 2
    ensures KnowsOrFlushing(Step(sys, ev).core) <==> Harmless(sys.core, ev)
  {
    match ev
    case UnlockStop => FlushKeepsKnowledgeIff(sys.core.q, sys.core.signal);
    case Unlock =>
    case _ =>
      if sys.core.q.flushing {
        FlushingStays(sys, ev);
      } else {
        KnowledgeKept(sys, ev);
      }
  }

  lemma FlushingStays(sys: System, ev: Event)
    requires sys.core.q.flushing && !ev.UnlockStop?
    ensures Step(sys, ev).core.q.flushing
  {
    match ev
    case Callback(o) => CallbackEffect(sys.core, sys.size, o);
    case Dequeue => DequeuedTakesFirst(sys.core.q);
    case _ =>
  }

  /** The element knows after every event of the run. */
  ghost predicate KnowsThroughout(sys: System, events: seq<Event>)
    decreases |events|
  {
    KnowsOrFlushing(Exec(sys, events).core) && (events != [] ==> KnowsThroughout(sys, events[..|events| - 1]))
  }

  /** Every end of a flush in the run is harmless. */
  ghost predicate AllHarmless(sys: System, events: seq<Event>)
    decreases |events|
  {
    events != [] ==>
      && AllHarmless(sys, events[..|events| - 1])
      && Harmless(Exec(sys, events[..|events| - 1]).core, events[|events| - 1])
  }

  /** For a queue of two or more, over every run with flushes and new starts: whenever the element
      is not flushing the last change told or queued agrees with the signal, if and only if each
      flush ended with the changes notified in agreement with it. */
  lemma {:induction false} KnowsThroughoutIff(size: nat, events: seq<Event>)
    requires size >= 2
    ensures KnowsThroughout(Started(size), events) <==> AllHarmless(Started(size), events)
    decreases |events|
  {
    if events == [] {
      assert Knows(FRESH);
    } else {
      var front := events[..|events| - 1];
      KnowsThroughoutIff(size, front);
      if KnowsThroughout(Started(size), front) {
        HarmlessIff(Exec(Started(size), front), events[|events| - 1]);
      }
    }
  }

  /** A queue of size one has no entry left to write a rescued change into. */
  lemma SizeOneForgets(k: Core, o: Outcome)
    requires Accepts(k, o)
    ensures Changes(Reacted(k, 1, o).q.frames) == []
  {
    var frames := Reacted(k, 1, o).q.frames;
    assert |frames| == 1;
    ChangesOne(frames[0]);
  }
}
