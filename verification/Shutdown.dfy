/** The Run / Quit / worker protocol as a state machine. A step reaches from one read of a field
    that the other side writes, or one attempt to take the input lock, to the next, so every
    interleaving of the controlling thread and the workers is a run. */
module Shutdown {
  import opened Arithmetic

  // ------------------------------------------------------------------- states

  /** Where a worker stands: at the loop test, before reading the last-frame flag for its video
      buffer, before reading it again for its audio buffer, before the video callback, before the
      audio callback tests whether audio is enabled, before it takes the input lock, or in the
      branch without a frame. */
  datatype Pc =
    | AtTop
    | Capturing
    | VideoRead(videoLast: bool)
    | BothRead(videoLast: bool, audioLast: bool)
    | AtAudio(audioLast: bool)
    | AtLock(audioLast: bool)
    | Idle

  /** Where the controlling thread stands inside Quit. */
  datatype Control = Outside | Waiting | Flagging | Joining | Freeing

  /** The flags that Quit and the worker share. turns counts how often a worker has entered the
      loop since the last frame was requested; nothing depends on it. */
  datatype Flags = Flags(
    lastFrame: bool, videoOut: bool, audioOut: bool, globalQuit: bool, started: bool, turns: nat)

  /** workers are the live capture threads; thread is the one that mACInputThread refers to.
      lockHeld: Quit runs under the input lock. */
  datatype State = State(
    flags: Flags, pools: bool, thread: Option<nat>, workers: map<nat, Pc>, nextId: nat,
    control: Control, lockHeld: bool, audioEnabled: bool)

  const CLEARED: Flags := Flags(false, false, false, false, false, 0)

  const INITIAL: State := State(CLEARED, false, None, map[], 0, Outside, false, true)

  /** The audio callback returns early without signal, so before it takes the lock. */
  datatype WorkerStep =
    | Enter(frameReady: bool)
    | ReadVideo
    | ReadAudio
    | VideoCallback
    | AudioTest(haveSignal: bool)
    | AudioLock
    | IdleTurn

  datatype Step =
    | Run
    | QuitBegin(underLock: bool)
    | QuitSeen
    | QuitTimeout
    | QuitFlag
    | QuitJoin
    | QuitFree
    | AudioStart
    | AudioStop
    | Work(id: nat, w: WorkerStep)

  // ------------------------------------------------------------------- steps

  predicate WorkerEnabled(s: State, pc: Pc, w: WorkerStep) {
    match w
    case Enter(_) => pc.AtTop?
    case ReadVideo => pc.Capturing?
    case ReadAudio => pc.VideoRead?
    case VideoCallback => pc.BothRead?
    case AudioTest(_) => pc.AtAudio?
    case AudioLock => pc.AtLock? && !s.lockHeld
    case IdleTurn => pc.Idle?
  }

  predicate Enabled(s: State, st: Step) {
    match st
    case Run => s.control == Outside
    case QuitBegin(_) => s.control == Outside
    case QuitSeen => s.control == Waiting && s.flags.videoOut && s.flags.audioOut
    case QuitTimeout => s.control == Waiting
    case QuitFlag => s.control == Flagging
    case QuitJoin => s.control == Joining && (s.thread.Some? ==> s.thread.value !in s.workers)
    case QuitFree => s.control == Freeing
    // Starting and stopping audio take the input lock.
    case AudioStart => !s.audioEnabled && !s.lockHeld
    case AudioStop => s.audioEnabled && !s.lockHeld
    case Work(id, w) => id in s.workers && WorkerEnabled(s, s.workers[id], w)
  }

  /** What a step does to the flags and to the worker, which may end. */
  function Effect(f: Flags, audioEnabled: bool, pc: Pc, w: WorkerStep): (Flags, Option<Pc>) {
    match w
    case Enter(frameReady) =>
      if f.globalQuit then (f, None)
      else (f.(turns := if f.lastFrame then f.turns + 1 else f.turns), Some(if frameReady then Capturing else Idle))
    case ReadVideo => (f, Some(VideoRead(f.lastFrame)))
    case ReadAudio => (f, Some(BothRead(pc.VideoRead? && pc.videoLast, f.lastFrame)))
    case VideoCallback =>
      (f.(videoOut := f.videoOut || (pc.BothRead? && pc.videoLast)), Some(AtAudio(pc.BothRead? && pc.audioLast)))
    case AudioTest(haveSignal) =>
      var last := pc.AtAudio? && pc.audioLast;
      if audioEnabled && haveSignal then (f, Some(AtLock(last))) else AudioDone(f, last)
    case AudioLock => AudioDone(f, pc.AtLock? && pc.audioLast)
    case IdleTurn =>
      if f.lastFrame then (f.(videoOut := true, audioOut := true), None) else (f, Some(AtTop))
  }

  function AudioDone(f: Flags, last: bool): (Flags, Option<Pc>) { (f.(audioOut := f.audioOut || last), Some(AtTop)) }

  function Worked(s: State, id: nat, w: WorkerStep): State
    requires id in s.workers && WorkerEnabled(s, s.workers[id], w)
  {
    var (f, pc) := Effect(s.flags, s.audioEnabled, s.workers[id], w);
    s.(flags := f, workers := if pc.Some? then s.workers[id := pc.value] else s.workers - {id})
  }

  function Next(s: State, st: Step): State
    requires Enabled(s, st)
  {
    match st
    case Run =>
      s.(flags := CLEARED.(started := true), pools := true, thread := Some(s.nextId),
         workers := s.workers[s.nextId := AtTop], nextId := s.nextId + 1)
    case QuitBegin(underLock) =>
      if !s.flags.lastFrame && !s.flags.globalQuit then
        s.(flags := s.flags.(lastFrame := true, turns := 0), control := Waiting, lockHeld := underLock)
      else
        s.(control := Flagging, lockHeld := underLock)
    case QuitSeen => s.(control := Flagging)
    case QuitTimeout => s.(control := Flagging)
    case QuitFlag => s.(flags := s.flags.(globalQuit := true, started := false), control := Joining)
    case QuitJoin => s.(thread := None, control := Freeing)
    case QuitFree => s.(pools := false, control := Outside, lockHeld := false)
    case AudioStart => s.(audioEnabled := true)
    case AudioStop => s.(audioEnabled := false)
    case Work(id, w) => Worked(s, id, w)
  }

  // ------------------------------------------------------------------- runs

  /** The state after a run, or None if one of its steps was not possible. */
  function After(s: State, run: seq<Step>): Option<State>
    decreases |run|
  {
    if run == [] then Some(s)
    else
      var before := After(s, run[..|run| - 1]);
      if before.Some? && Enabled(before.value, run[|run| - 1]) then Some(Next(before.value, run[|run| - 1])) else None
  }

  lemma Extend(s0: State, run: seq<Step>, s: State, st: Step)
    requires After(s0, run) == Some(s) && Enabled(s, st)
    ensures After(s0, run + [st]) == Some(Next(s, st))
    ensures GuardedRun(s0, run) && Guarded(s, st) ==> GuardedRun(s0, run + [st])
  {
    assert (run + [st])[..|run + [st]| - 1] == run;
  }

  /** Run is called only when no worker is alive. */
  predicate Guarded(s: State, st: Step) { st.Run? ==> s.workers == map[] }

  ghost predicate GuardedRun(s: State, run: seq<Step>)
    decreases |run|
  {
    run != [] ==>
      var before := After(s, run[..|run| - 1]);
      GuardedRun(s, run[..|run| - 1]) && (before.Some? ==> Guarded(before.value, run[|run| - 1]))
  }

  // ------------------------------------------------------------------- ownership of workers and pools

  /** Every live worker is the one Quit would wait for. */
  predicate Tracked(s: State) { forall id :: id in s.workers ==> s.thread == Some(id) }

  /** After a whole turn since the request, a worker has seen the request in both reads, and the
      flags that its progress implies are set. */
  predicate PcAgrees(f: Flags, pc: Pc) {
    f.lastFrame && f.turns >= 1 ==>
      match pc
      case AtTop => f.videoOut && f.audioOut
      case VideoRead(v) => v
      case BothRead(v, a) => v && a
      case AtAudio(a) => a && f.videoOut
      case AtLock(a) => a && f.videoOut
      case _ => true
  }

  predicate TurnsAgree(s: State) { forall id :: id in s.workers ==> PcAgrees(s.flags, s.workers[id]) }

  /** Who is alive, and what exists for them. */
  predicate Housed(s: State) {
    && Tracked(s)
    && (forall id :: id in s.workers ==> id < s.nextId)
    && (s.workers != map[] ==> s.pools)
    && (s.control.Freeing? ==> s.workers == map[] && s.thread.None?)
    && (s.control.Joining? || s.control.Freeing? ==> s.flags.globalQuit && !s.flags.started)
    && (s.lockHeld ==> !s.control.Outside?)
    && (s.control.Outside? && (s.flags.globalQuit || s.flags.lastFrame) ==> s.flags.globalQuit && s.workers == map[])
    && (s.control.Waiting? ==> s.flags.lastFrame)
  }

  predicate Inv(s: State) { Housed(s) && TurnsAgree(s) }

  lemma HousedKeptByWorker(s: State, id: nat, w: WorkerStep)
    requires Housed(s) && Enabled(s, Work(id, w))
    ensures Housed(Worked(s, id, w))
  {}

  lemma HousedKept(s: State, st: Step)
    requires Housed(s) && Enabled(s, st) && Guarded(s, st)
    ensures Housed(Next(s, st))
  {
    if st.Work? {
      HousedKeptByWorker(s, st.id, st.w);
    }
  }

  lemma EffectAgrees(s: State, pc: Pc, w: WorkerStep)
    requires WorkerEnabled(s, pc, w) && PcAgrees(s.flags, pc)
    ensures
      var (f', pc') := Effect(s.flags, s.audioEnabled, pc, w);
      && f'.globalQuit == s.flags.globalQuit && f'.started == s.flags.started
      && (pc'.Some? ==> PcAgrees(f', pc'.value))
  {}

  lemma TurnsKept(s: State, st: Step)
    requires Housed(s) && TurnsAgree(s) && Enabled(s, st) && Guarded(s, st)
    ensures TurnsAgree(Next(s, st))
  {
    if st.Work? {
      EffectAgrees(s, s.workers[st.id], st.w);
      assert forall other :: other in s.workers ==> other == st.id;
    }
  }

  lemma InvKept(s: State, st: Step)
    requires Inv(s) && Enabled(s, st) && Guarded(s, st)
    ensures Inv(Next(s, st))
  {
    HousedKept(s, st);
    TurnsKept(s, st);
  }

  /** As long as Run is called only without a live worker, in every reachable state the pools
      exist whenever a worker is alive, and Quit knows that worker. */
  lemma {:induction false} InvHolds(run: seq<Step>)
    requires GuardedRun(INITIAL, run) && After(INITIAL, run).Some?
    ensures Inv(After(INITIAL, run).value)
    decreases |run|
  {
    if run == [] {
    } else {
      InvHolds(run[..|run| - 1]);
      InvKept(After(INITIAL, run[..|run| - 1]).value, run[|run| - 1]);
    }
  }

  /** Everything is stopped. */
  predicate Stopped(s: State) {
    && s.workers == map[] && !s.pools && s.thread.None? && s.flags.globalQuit && !s.flags.started
    && s.control == Outside && !s.lockHeld
  }

  /** When Quit returns, no worker, no pool and no thread is left, and so no further callback. */
  lemma QuitLeavesNothing(run: seq<Step>)
    requires GuardedRun(INITIAL, run) && After(INITIAL, run).Some?
    requires run != [] && run[|run| - 1] == QuitFree
    ensures
      var s := After(INITIAL, run).value;
      Stopped(s) && forall id, w :: !Enabled(s, Work(id, w))
  {
    InvHolds(run[..|run| - 1]);
  }

  /** After any run that ends with the return of Quit, calling Quit again leads back to the very same
      state. */
  lemma {:induction false} SecondQuitChangesNothing(run: seq<Step>, underLock: bool)
    requires GuardedRun(INITIAL, run) && After(INITIAL, run).Some?
    requires run != [] && run[|run| - 1] == QuitFree
    ensures After(INITIAL, run + [QuitBegin(underLock)] + [QuitFlag] + [QuitJoin] + [QuitFree]) == After(INITIAL, run)
  {
    var s := After(INITIAL, run).value;
    QuitLeavesNothing(run);
    var s1 := s.(control := Flagging, lockHeld := underLock);
    var r1 := run + [QuitBegin(underLock)];
    Extend(INITIAL, run, s, QuitBegin(underLock));
    Extend(INITIAL, r1, s1, QuitFlag);
    Extend(INITIAL, r1 + [QuitFlag], s1.(control := Joining), QuitJoin);
    Extend(INITIAL, r1 + [QuitFlag] + [QuitJoin], s1.(control := Freeing), QuitFree);
  }

  // ------------------------------------------------------------------- Run with a live worker

  /** start_streams does not check whether a worker is alive. Run keeps every worker known to
      Quit exactly when there was none. */
  lemma RunTracksIff(s: State)
    requires Inv(s) && Enabled(s, Run)
    ensures Tracked(Next(s, Run)) <==> s.workers == map[]
  {
    var s' := Next(s, Run);
    if s.workers != map[] {
      var id :| id in s.workers;
      assert id in s'.workers && id < s.nextId;
    }
  }

  /** Run twice, then Quit: Quit joins the second worker and frees the pools under the first. */
  lemma OrphanOutlivesQuit()
    ensures
      var run := [] + [Run] + [Run] + [QuitBegin(false)] + [QuitTimeout] + [QuitFlag] + [Work(1, Enter(true))]
                    + [QuitJoin] + [QuitFree];
      var s := After(INITIAL, run);
      s.Some? && s.value.control == Outside && 0 in s.value.workers && !s.value.pools
  {
    var s2 := Next(Next(INITIAL, Run), Run);
    var asked := s2.flags.(lastFrame := true);
    var s5 := s2.(flags := asked.(globalQuit := true, started := false), control := Joining);
    var r2 := [] + [Run] + [Run];
    var r5 := r2 + [QuitBegin(false)] + [QuitTimeout] + [QuitFlag];
    Extend(INITIAL, [], INITIAL, Run);
    Extend(INITIAL, [] + [Run], Next(INITIAL, Run), Run);
    Extend(INITIAL, r2, s2, QuitBegin(false));
    Extend(INITIAL, r2 + [QuitBegin(false)], s2.(flags := asked, control := Waiting), QuitTimeout);
    Extend(INITIAL, r2 + [QuitBegin(false)] + [QuitTimeout], s2.(flags := asked, control := Flagging), QuitFlag);
    Extend(INITIAL, r5, s5, Work(1, Enter(true)));
    var s6 := Next(s5, Work(1, Enter(true)));
    Extend(INITIAL, r5 + [Work(1, Enter(true))], s6, QuitJoin);
    Extend(INITIAL, r5 + [Work(1, Enter(true))] + [QuitJoin], Next(s6, QuitJoin), QuitFree);
  }

  // ------------------------------------------------------------------- the last-frame flags

  /** The worker that is at the loop test after one whole turn since the request has set both
      flags: with the turn under way at the request, that is at most two turns. */
  lemma FlagsSetWithinTwoTurns(run: seq<Step>, id: nat)
    requires GuardedRun(INITIAL, run) && After(INITIAL, run).Some?
    ensures
      var s := After(INITIAL, run).value;
      s.flags.lastFrame && s.flags.turns >= 1 && id in s.workers && s.workers[id].AtTop? ==>
        s.flags.videoOut && s.flags.audioOut
  {
    InvHolds(run);
    assert TurnsAgree(After(INITIAL, run).value);
  }

  // ------------------------------------------------------------------- progress

  /** Worker steps left until the thread ends, once globalQuit is set. */
  function Rank(pc: Pc): nat {
    match pc
    case AtTop => 1
    case AtLock(_) => 2
    case Idle => 2
    case AtAudio(_) => 3
    case BothRead(_, _) => 4
    case VideoRead(_) => 5
    case Capturing => 6
  }

  /** Once globalQuit is set, every step of a worker brings it closer to its end, so at most six
      steps are left. */
  lemma WorkerEndsSoon(s: State, pc: Pc, w: WorkerStep)
    requires s.flags.globalQuit && WorkerEnabled(s, pc, w)
    ensures
      var (f', pc') := Effect(s.flags, s.audioEnabled, pc, w);
      f'.globalQuit && Rank(pc) <= 6 && (pc'.Some? ==> Rank(pc'.value) < Rank(pc))
  {}

  /** The step by which a worker with signal goes on to the audio callback, and there to the lock. */
  function StepToLock(pc: Pc): WorkerStep {
    match pc
    case AtTop => Enter(true)
    case Capturing => ReadVideo
    case VideoRead(_) => ReadAudio
    case BothRead(_, _) => VideoCallback
    case AtAudio(_) => AudioTest(true)
    case AtLock(_) => AudioLock
    case Idle => IdleTurn
  }

  /** A step of the Quit under way or of a worker. Starting and stopping audio are up to others, who
      need not do either. */
  predicate OfQuit(st: Step) { !st.Run? && !st.QuitBegin? && !st.AudioStart? && !st.AudioStop? }

  /** Quit has begun and neither it nor the worker can make a step: shutdown hangs. */
  ghost predicate Stuck(s: State) { !s.control.Outside? && forall st :: OfQuit(st) ==> !Enabled(s, st) }

  /** The worker that Quit waits for is about to take the input lock. */
  predicate WaitsForLock(s: State) {
    s.thread.Some? && s.thread.value in s.workers && s.workers[s.thread.value].AtLock?
  }

  /** Quit and the worker wait for each other. */
  predicate Deadlocked(s: State) { s.control.Joining? && s.lockHeld && WaitsForLock(s) }

  /** A step that brings Quit closer to its return, unless it is deadlocked. */
  function Forward(s: State): Step
    requires !s.control.Outside?
  {
    match s.control
    case Waiting => QuitTimeout
    case Flagging => QuitFlag
    case Freeing => QuitFree
    case _ =>
      if s.thread.Some? && s.thread.value in s.workers then
        Work(s.thread.value, StepToLock(s.workers[s.thread.value]))
      else QuitJoin
  }

  lemma ForwardEnabled(s: State)
    requires !s.control.Outside? && !Deadlocked(s)
    ensures OfQuit(Forward(s)) && Enabled(s, Forward(s))
  {}

  /** Quit hangs in exactly these states: called under the input lock, it waits for a worker that
      waits for the lock. Whether audio is still enabled makes no difference then, and nobody else can
      make a step either. */
  lemma StuckIff(s: State)
    requires Inv(s)
    ensures Stuck(s) <==> Deadlocked(s)
    ensures Stuck(s) ==> forall st :: !Enabled(s, st)
  {
    if Deadlocked(s) {
      assert forall id :: id in s.workers ==> id == s.thread.value;
    } else if !s.control.Outside? {
      ForwardEnabled(s);
    }
  }

  // ------------------------------------------------------------------- which Quit can hang

  /** The worker can still come to wait for the lock: it does already, or audio is enabled and it is
      not in the branch without a frame, where it ends once the last frame is requested. */
  predicate CanCallAudio(s: State, pc: Pc) { pc.AtLock? || (s.audioEnabled && !pc.Idle?) }

  predicate CanComeToLock(s: State) {
    s.thread.Some? && s.thread.value in s.workers && CanCallAudio(s, s.workers[s.thread.value])
  }

  /** This Quit does not hold the lock, or no worker can come to wait for it. */
  predicate Safe(s: State) {
    s.lockHeld ==> forall id :: id in s.workers ==> s.flags.lastFrame && !CanCallAudio(s, s.workers[id])
  }

  lemma SafeKept(s: State, st: Step)
    requires Inv(s) && Safe(s) && Enabled(s, st) && !st.QuitBegin? && !st.Run?
    ensures Safe(Next(s, st))
  {}

  /** The run stays within one call of Quit: nothing is started, no other Quit begins. */
  predicate WithinQuit(run: seq<Step>) { forall st :: st in run ==> !st.QuitBegin? && !st.Run? }

  lemma {:induction false} SafeHolds(s: State, run: seq<Step>)
    requires Inv(s) && Safe(s) && WithinQuit(run) && After(s, run).Some?
    ensures Inv(After(s, run).value) && Safe(After(s, run).value)
    decreases |run|
  {
    if run == [] {
    } else {
      var front, st := run[..|run| - 1], run[|run| - 1];
      SafeHolds(s, front);
      assert st in run;
      InvKept(After(s, front).value, st);
      SafeKept(After(s, front).value, st);
    }
  }

  function DistanceToLock(pc: Pc): nat {
    match pc
    case AtLock(_) => 0
    case AtAudio(_) => 1
    case BothRead(_, _) => 2
    case VideoRead(_) => 3
    case Capturing => 4
    case AtTop => 5
    case Idle => 6
  }

  /** While Quit waits for the last frame, the worker goes on until it waits for the lock. */
  lemma {:induction false} GoesToLock(s0: State, run: seq<Step>, s: State, id: nat) returns (run': seq<Step>, s': State)
    requires After(s0, run) == Some(s) && WithinQuit(run)
    requires s.control.Waiting? && s.lockHeld && !s.flags.globalQuit && s.thread == Some(id)
    requires id in s.workers && CanCallAudio(s, s.workers[id])
    ensures After(s0, run') == Some(s') && WithinQuit(run')
    ensures s'.control.Waiting? && s'.lockHeld && s'.thread == Some(id) && id in s'.workers && s'.workers[id].AtLock?
    decreases DistanceToLock(s.workers[id])
  {
    if s.workers[id].AtLock? {
      run', s' := run, s;
    } else {
      var st := Work(id, StepToLock(s.workers[id]));
      Extend(s0, run, s, st);
      run', s' := GoesToLock(s0, run + [st], Next(s, st), id);
    }
  }

  lemma {:induction false} HangsIfItCanComeToLock(s: State, begun: State)
    requires Inv(s) && s.control.Outside? && begun == Next(s, QuitBegin(true)) && CanComeToLock(s)
    ensures exists run :: WithinQuit(run) && After(begun, run).Some? && Deadlocked(After(begun, run).value)
  {
    var run, s1 := GoesToLock(begun, [], begun, s.thread.value);
    Extend(begun, run, s1, QuitTimeout);
    var s2 := Next(s1, QuitTimeout);
    Extend(begun, run + [QuitTimeout], s2, QuitFlag);
    assert Deadlocked(Next(s2, QuitFlag));
    assert WithinQuit(run + [QuitTimeout] + [QuitFlag]);
  }

  /** Quit, called under the input lock, can hang exactly when the worker can still come to wait for
      that lock: audio is enabled, or the worker passed the test before it was disabled. */
  lemma {:induction false} QuitUnderLockCanHangIff(s: State)
    requires Inv(s) && s.control.Outside?
    ensures
      (exists run :: WithinQuit(run) && After(Next(s, QuitBegin(true)), run).Some?
                     && Stuck(After(Next(s, QuitBegin(true)), run).value))
      <==> CanComeToLock(s)
  {
    var begun := Next(s, QuitBegin(true));
    InvKept(s, QuitBegin(true));
    if CanComeToLock(s) {
      HangsIfItCanComeToLock(s, begun);
      var run :| WithinQuit(run) && After(begun, run).Some? && Deadlocked(After(begun, run).value);
      RunWithinQuitKeepsInv(begun, run);
      StuckIff(After(begun, run).value);
    } else {
      assert Safe(begun);
      forall run | WithinQuit(run) && After(begun, run).Some?
        ensures !Stuck(After(begun, run).value)
      {
        SafeHolds(begun, run);
        StuckIff(After(begun, run).value);
      }
    }
  }

  lemma {:induction false} RunWithinQuitKeepsInv(s: State, run: seq<Step>)
    requires Inv(s) && WithinQuit(run) && After(s, run).Some?
    ensures Inv(After(s, run).value)
    decreases |run|
  {
    if run == [] {
    } else {
      var front, st := run[..|run| - 1], run[|run| - 1];
      RunWithinQuitKeepsInv(s, front);
      assert st in run;
      InvKept(After(s, front).value, st);
    }
  }

  // ------------------------------------------------------------------- how soon Quit returns

  /** Steps of Quit and its worker left until Quit returns, if the worker is not waited for before. */
  function Left(s: State): nat {
    match s.control
    case Outside => 0
    case Freeing => 1
    case Joining => 2 + if s.thread.Some? && s.thread.value in s.workers then Rank(s.workers[s.thread.value]) else 0
    case Flagging => 9
    case Waiting => 10
  }

  lemma ForwardLowers(s: State)
    requires Inv(s) && !s.control.Outside? && !Deadlocked(s)
    ensures Enabled(s, Forward(s)) && Left(Next(s, Forward(s))) < Left(s)
  {
    ForwardEnabled(s);
    if s.control.Joining? && s.thread.Some? && s.thread.value in s.workers {
      var pc := s.workers[s.thread.value];
      WorkerEndsSoon(s, pc, StepToLock(pc));
    }
  }

  /** Once Quit has set globalQuit, every step of it or of its worker brings it closer to its return,
      and what others do does not take it further away. */
  lemma EveryStepLowers(s: State, st: Step)
    requires Inv(s) && (s.control.Joining? || s.control.Freeing?) && Enabled(s, st)
    ensures Left(s) <= 8
    ensures if OfQuit(st) then Left(Next(s, st)) < Left(s) else Left(Next(s, st)) == Left(s)
    ensures Next(s, st).control.Joining? || Next(s, st).control.Freeing? || Next(s, st).control.Outside?
  {
    if st.Work? {
      WorkerEndsSoon(s, s.workers[st.id], st.w);
    }
  }

  function StepsOfQuit(run: seq<Step>): nat
    decreases |run|
  {
    if run == [] then 0 else StepsOfQuit(run[..|run| - 1]) + if OfQuit(run[|run| - 1]) then 1 else 0
  }

  /** Quit has returned, or is past setting globalQuit. */
  predicate Closing(s: State) { s.control.Joining? || s.control.Freeing? || Stopped(s) }

  lemma ClosingKept(s: State, st: Step)
    requires Inv(s) && Closing(s) && Enabled(s, st) && !st.Run? && !st.QuitBegin?
    ensures Closing(Next(s, st))
    ensures Left(Next(s, st)) + (if OfQuit(st) then 1 else 0) <= Left(s) <= 8
  {
    if !s.control.Outside? {
      EveryStepLowers(s, st);
    }
  }

  /** However the steps fall: from then on Quit and its worker make at most eight steps in all, and as
      long as Quit has not returned one of them can make a step, unless they are deadlocked. */
  lemma {:induction false} ReturnsWithinEightSteps(s: State, run: seq<Step>)
    requires Inv(s) && Closing(s) && WithinQuit(run) && After(s, run).Some?
    ensures
      var s' := After(s, run).value;
      && Inv(s') && Closing(s') && StepsOfQuit(run) + Left(s') <= Left(s) <= 8
      && (s'.control.Outside? || Deadlocked(s') || Enabled(s', Forward(s')))
    decreases |run|
  {
    if run == [] {
      if !s.control.Outside? {
        LeftAtMost(s);
      }
    } else {
      var front, st := run[..|run| - 1], run[|run| - 1];
      ReturnsWithinEightSteps(s, front);
      assert st in run;
      InvKept(After(s, front).value, st);
      ClosingKept(After(s, front).value, st);
    }
    if !After(s, run).value.control.Outside? && !Deadlocked(After(s, run).value) {
      ForwardEnabled(After(s, run).value);
    }
  }

  lemma LeftAtMost(s: State)
    requires Closing(s)
    ensures Left(s) <= 8
  {}

  /** From a state in which the worker cannot come to wait for a lock that Quit holds, the steps of
      Quit and its worker alone lead to its return. */
  lemma {:induction false} Finishes(s0: State, run: seq<Step>, s: State) returns (run': seq<Step>, s': State)
    requires After(s0, run) == Some(s) && WithinQuit(run) && Inv(s) && Safe(s)
    ensures run <= run' && WithinQuit(run') && After(s0, run') == Some(s') && s'.control.Outside?
    decreases Left(s)
  {
    if s.control.Outside? {
      run', s' := run, s;
    } else {
      var st := Forward(s);
      ForwardLowers(s);
      InvKept(s, st);
      SafeKept(s, st);
      Extend(s0, run, s, st);
      run', s' := Finishes(s0, run + [st], Next(s, st));
    }
  }

  /** Quit can return, however far it and the worker have come. */
  ghost predicate CanStillReturn(begun: State, run: seq<Step>) {
    exists run' ::
      run <= run' && WithinQuit(run') && After(begun, run').Some? && After(begun, run').value.control.Outside?
  }

  lemma {:induction false} StuckForGood(begun: State, run: seq<Step>, run': seq<Step>)
    requires After(begun, run).Some? && Inv(After(begun, run).value) && Deadlocked(After(begun, run).value)
    requires run <= run' && After(begun, run').Some?
    ensures run' == run
    decreases |run'|
  {
    if |run| < |run'| {
      var front := run'[..|run'| - 1];
      StuckForGood(begun, run, front);
      StuckIff(After(begun, run).value);
    }
  }

  /** Exactly when Quit, whether called under the lock or not, can still return from every point it may
      come to: when it does not hold the lock, or its worker can not come to wait for it. */
  lemma {:induction false} QuitReturnsIff(s: State, underLock: bool)
    requires Inv(s) && s.control.Outside?
    ensures
      var begun := Next(s, QuitBegin(underLock));
      (forall run :: WithinQuit(run) && After(begun, run).Some? ==> CanStillReturn(begun, run))
      <==> !(underLock && CanComeToLock(s))
  {
    var begun := Next(s, QuitBegin(underLock));
    InvKept(s, QuitBegin(underLock));
    if underLock && CanComeToLock(s) {
      HangsIfItCanComeToLock(s, begun);
      var run :| WithinQuit(run) && After(begun, run).Some? && Deadlocked(After(begun, run).value);
      RunWithinQuitKeepsInv(begun, run);
      CannotReturn(begun, run);
    } else {
      assert Safe(begun);
      forall run | WithinQuit(run) && After(begun, run).Some?
        ensures CanStillReturn(begun, run)
      {
        SafeHolds(begun, run);
        var run', s' := Finishes(begun, run, After(begun, run).value);
      }
    }
  }

  lemma {:induction false} CannotReturn(begun: State, run: seq<Step>)
    requires After(begun, run).Some? && Inv(After(begun, run).value) && Deadlocked(After(begun, run).value)
    ensures !CanStillReturn(begun, run)
  {
    forall run' | run <= run' && After(begun, run').Some?
      ensures !After(begun, run').value.control.Outside?
    {
      StuckForGood(begun, run, run');
    }
  }

  /** A Quit that is called without the lock, as when its caller gives it up first, returns: it never
      comes to a point where neither it nor its worker can make a step; its wait for the last frame
      ends by its time limit at the latest; and after that at most eight steps are left. */
  lemma {:induction false} QuitWithoutLockReturns(s: State, run: seq<Step>)
    requires Inv(s) && s.control.Outside? && WithinQuit(run)
    requires After(Next(s, QuitBegin(false)), run).Some?
    ensures
      var begun := Next(s, QuitBegin(false));
      var s' := After(begun, run).value;
      && Inv(s') && !s'.lockHeld && !Stuck(s') && CanStillReturn(begun, run)
      && (s'.control.Waiting? ==> Enabled(s', QuitTimeout)) && (s'.control.Flagging? ==> Enabled(s', QuitFlag))
      && (s'.control.Outside? ==> Stopped(s')) && (Closing(s') ==> Left(s') <= 8)
  {
    var begun := Next(s, QuitBegin(false));
    InvKept(s, QuitBegin(false));
    SafeHolds(begun, run);
    StaysUnlocked(begun, run);
    var s' := After(begun, run).value;
    StuckIff(s');
    var run', end := Finishes(begun, run, s');
    if Closing(s') {
      LeftAtMost(s');
    }
  }

  /** Within a Quit nobody takes the lock for it, and outside of it everything is stopped. */
  lemma {:induction false} StaysUnlocked(s: State, run: seq<Step>)
    requires Inv(s) && !s.lockHeld && !s.control.Outside? && WithinQuit(run) && After(s, run).Some?
    ensures !After(s, run).value.lockHeld
    ensures After(s, run).value.control.Outside? ==> Stopped(After(s, run).value)
    decreases |run|
  {
    if run == [] {
    } else {
      var front, st := run[..|run| - 1], run[|run| - 1];
      StaysUnlocked(s, front);
      RunWithinQuitKeepsInv(s, front);
      assert st in run;
    }
  }

  // ------------------------------------------------------------------- runs that hang

  lemma OneWorker(pc: Pc, pc': Pc)
    ensures map[0 := pc][0 := pc'] == map[0 := pc']
  {}

  /** The first worker is about to call audio with a buffer. */
  lemma FirstWorkerAtAudio() returns (run: seq<Step>, s: State)
    ensures run == [] + [Run] + [Work(0, Enter(true))] + [Work(0, ReadVideo)] + [Work(0, ReadAudio)]
                   + [Work(0, VideoCallback)]
    ensures GuardedRun(INITIAL, run) && After(INITIAL, run) == Some(s)
    ensures s == Next(INITIAL, Run).(workers := map[0 := AtAudio(false)])
  {
    var s1 := Next(INITIAL, Run);
    var r1 := [] + [Run];
    var r2 := r1 + [Work(0, Enter(true))];
    var r3 := r2 + [Work(0, ReadVideo)];
    var r4 := r3 + [Work(0, ReadAudio)];
    assert s1.workers == map[0 := AtTop];
    OneWorker(AtTop, Capturing);
    OneWorker(Capturing, VideoRead(false));
    OneWorker(VideoRead(false), BothRead(false, false));
    OneWorker(BothRead(false, false), AtAudio(false));
    Extend(INITIAL, [], INITIAL, Run);
    Extend(INITIAL, r1, s1, Work(0, Enter(true)));
    Extend(INITIAL, r2, s1.(workers := map[0 := Capturing]), Work(0, ReadVideo));
    Extend(INITIAL, r3, s1.(workers := map[0 := VideoRead(false)]), Work(0, ReadAudio));
    Extend(INITIAL, r4, s1.(workers := map[0 := BothRead(false, false)]), Work(0, VideoCallback));
    run := r4 + [Work(0, VideoCallback)];
    s := s1.(workers := map[0 := AtAudio(false)]);
  }

  /** From a worker that waits for the lock, with audio enabled or not, to the state that hangs. */
  lemma {:induction false} HangsFrom(run: seq<Step>, s: State) returns (s': State)
    requires GuardedRun(INITIAL, run) && After(INITIAL, run) == Some(s)
    requires s.control == Outside && !s.flags.lastFrame && !s.flags.globalQuit && WaitsForLock(s)
    ensures
      var more := run + [QuitBegin(true)] + [QuitTimeout] + [QuitFlag];
      GuardedRun(INITIAL, more) && After(INITIAL, more) == Some(s') && Stuck(s') && s'.audioEnabled == s.audioEnabled
  {
    var r1 := run + [QuitBegin(true)];
    var r2 := r1 + [QuitTimeout];
    Extend(INITIAL, run, s, QuitBegin(true));
    var s1 := Next(s, QuitBegin(true));
    Extend(INITIAL, r1, s1, QuitTimeout);
    var s2 := Next(s1, QuitTimeout);
    Extend(INITIAL, r2, s2, QuitFlag);
    s' := Next(s2, QuitFlag);
    InvHolds(r2 + [QuitFlag]);
    StuckIff(s');
  }

  /** Stopping video before audio hangs. */
  lemma StopUnderLockHangs() returns (run: seq<Step>, s: State)
    ensures GuardedRun(INITIAL, run) && After(INITIAL, run) == Some(s) && Stuck(s) && s.audioEnabled
  {
    run, s := FirstWorkerAtAudio();
    Extend(INITIAL, run, s, Work(0, AudioTest(true)));
    run, s := run + [Work(0, AudioTest(true))], Next(s, Work(0, AudioTest(true)));
    var s' := HangsFrom(run, s);
    run, s := run + [QuitBegin(true)] + [QuitTimeout] + [QuitFlag], s';
  }

  /** Stopping audio first is not enough: the worker may have passed the test whether audio is
      enabled just before audio is stopped, and takes the lock only after that. */
  lemma AudioStoppedFirstHangs() returns (run: seq<Step>, s: State)
    ensures GuardedRun(INITIAL, run) && After(INITIAL, run) == Some(s) && Stuck(s) && !s.audioEnabled
    ensures exists i :: 0 <= i < |run| && run[i] == AudioStop && forall j :: 0 <= j < i ==> !run[j].QuitBegin?
  {
    run, s := FirstWorkerAtAudio();
    Extend(INITIAL, run, s, Work(0, AudioTest(true)));
    run, s := run + [Work(0, AudioTest(true))], Next(s, Work(0, AudioTest(true)));
    Extend(INITIAL, run, s, AudioStop);
    run, s := run + [AudioStop], Next(s, AudioStop);
    assert run[6] == AudioStop;
    var s' := HangsFrom(run, s);
    run, s := run + [QuitBegin(true)] + [QuitTimeout] + [QuitFlag], s';
    assert run[6] == AudioStop;
  }
}
