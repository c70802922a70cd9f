/** What `start()` does at each of its waits: when it goes on, when it comes up,
    and when it gives up and drains. */
module StartOrder {
  import opened Wrappers
  import opened Lifecycle
  import opened LifecycleInvariant
  import opened LifecycleProgress
  import opened LifecycleRuns
  import opened DrainOrder

  /** The server is up: its listener serves and is in the ledger under the lock. */
  predicate Up(s: Server) {
    && s.state.Running? && s.start.Idle? && s.drain.NoDrain? && s.lock && s.sock.Serving? && s.listenerSlot
    && Listener in s.ledger && StartToken !in s.ledger
  }

  /** `start()` waits for a bind that is on its way and in the ledger. */
  predicate Binding(s: Server) {
    && s.state.Starting? && s.start.AwaitBind? && s.past.backendUp && s.lock
    && IsPending(s, BindTask) && BindTask in s.ledger && s.ledger[BindTask] == Work(BindKind, false, false, None)
  }

  /** The bind is left to its own cleanup. */
  predicate Orphaned(s: Server) { BindTask in s.ledger && s.ledger[BindTask].closesOrphan && s.ledger[BindTask].stuck }

  /** Only the place where `start()` waits differs. */
  predicate WaitsAgain(s: Server, t: Server) { t == s.(start := AwaitBindAgain) }

  /** Where a start that gives up begins its drain. */
  function GivesUpTo(s: Server, listens: bool, closes: bool): Phase {
    if s.tasks != map[] then Sessions
    else if listens then ListenersClose
    else if closes then BackendsClose
    else Ended
  }

  /** What each step of `start()` must come to. */
  ghost predicate Goes(s: Server, a: Action, t: Server) {
    match a
    case StartCall => t.state.Starting? && t.start.Acquiring? && StartToken in t.ledger
    case LockTaken => t.state.Starting? && t.start.AwaitBackend? && t.lock
    case LockRefused(_) => At(t, GivesUpTo(s, false, false))
    case BackendFailed(_) => At(t, GivesUpTo(s, false, false))
    case BackendStarted => if s.state.Starting? then Binding(t) else At(t, GivesUpTo(s, false, true))
    case StartResumed(_) =>
      if s.start.AwaitBind? && Bound(s) && s.state.Starting? then Up(t) else At(t, GivesUpTo(s, Bound(s), true))
    case StartCancelled(_) =>
      if IsDone(s, BindTask) then At(t, GivesUpTo(s, Bound(s), true))
      else if s.start.AwaitBind? then WaitsAgain(s, t)
      else At(t, GivesUpTo(s, false, true)) && Orphaned(t)
    case _ => true
  }

  // ---------------------------------------------------------------- giving up

  /** The same work, but for entries that are no sessions. */
  ghost predicate SameTasks(s: Server, r: Server) {
    && r.futs == s.futs && r.tasks == s.tasks
    && forall id {:trigger Task(id)} ::
         (Task(id) in r.ledger <==> Task(id) in s.ledger)
         && (Task(id) in s.ledger ==> r.ledger[Task(id)] == s.ledger[Task(id)])
  }

  lemma UnwindAt(s: Server, r: Server, closes: bool, idle: bool)
    requires Inv(s) && SameTasks(s, r)
    ensures At(Unwind(r, closes, idle), GivesUpTo(s, r.listenerSlot, closes))
  {
    hide Inv, DrainBegin, At;
    LiveInRun(s);
    var u := SetUnwinding(r, closes);
    assert LiveSessions(u) == LiveSessions(s);
    DrainBegins(u, idle);
  }

  lemma EarlyUnwindAt(s: Server, closes: bool, idle: bool)
    requires Inv(s) && StartGoesOn(s)
    ensures At(Unwind(s, closes, idle), GivesUpTo(s, false, closes))
  {
    hide Unwind, At, GivesUpTo, Futures, ListenerCovered, Binds, ThreadsCovered, ClosesOnce, LockCoversWork;
    UnwindAt(s, s, closes, idle);
  }

  lemma BackendUpSame(s: Server)
    ensures SameTasks(s, BackendUp(s)) && BackendUp(s).listenerSlot == s.listenerSlot
  {
  }

  lemma AdoptIfBoundSame(s: Server, seen: Option<nat>)
    ensures var r := AdoptIfBound(s, seen);
            SameTasks(s, r) && r.listenerSlot == (s.listenerSlot || Bound(s))
  {
  }

  lemma OrphanSame(s: Server)
    requires !IsDone(s, BindTask)
    ensures var r := Track(s, BindTask, BindKind, true, true, None);
            SameTasks(s, r) && r.listenerSlot == s.listenerSlot && Orphaned(r)
  {
  }

  lemma StartHasNoSlot(s: Server)
    requires Inv(s) && StartGoesOn(s)
    ensures !s.listenerSlot
  {
    hide Futures;
  }

  lemma AdoptedUnwindAt(s: Server, seen: Option<nat>)
    requires Inv(s) && StartGoesOn(s)
    ensures At(Unwind(AdoptIfBound(s, seen), true, false), GivesUpTo(s, Bound(s), true))
  {
    hide Inv, Unwind, AdoptIfBound, At, GivesUpTo, SameTasks;
    StartHasNoSlot(s);
    AdoptIfBoundSame(s, seen);
    UnwindAt(s, AdoptIfBound(s, seen), true, false);
  }

  lemma OrphanUnwindAt(s: Server)
    requires Inv(s) && StartGoesOn(s) && !IsDone(s, BindTask)
    ensures var t := Unwind(Track(s, BindTask, BindKind, true, true, None), true, false);
            At(t, GivesUpTo(s, false, true)) && Orphaned(t)
  {
    hide Inv, Unwind, Track, At, GivesUpTo, SameTasks, Orphaned;
    StartHasNoSlot(s);
    OrphanSame(s);
    var r := Track(s, BindTask, BindKind, true, true, None);
    UnwindAt(s, r, true, false);
    UnwindKeepsOrphan(r);
  }

  /** A drain that has a backend to close leaves the other entries alone at first. */
  lemma UnwindKeepsOrphan(s: Server)
    requires Orphaned(s) && !s.listenerSlot
    ensures Orphaned(Unwind(s, true, false))
  {
    hide LiveSessions, Orphaned, EnsureBackendClose;
    var e := EnterDrain(SetUnwinding(s, true));
    EnteredKeepsOrphan(s);
    CloseKeepsOrphan(e);
    SetDrainKeepsOrphan(e, WaitSessions(LiveSessions(e)));
    SetDrainKeepsOrphan(EnsureBackendClose(e, true, false), WaitBackendClose);
  }

  lemma EnteredKeepsOrphan(s: Server)
    requires Orphaned(s)
    ensures Orphaned(EnterDrain(SetUnwinding(s, true)))
  {
  }

  lemma CloseKeepsOrphan(s: Server)
    requires Orphaned(s)
    ensures Orphaned(EnsureBackendClose(s, true, false))
  {
  }

  lemma SetDrainKeepsOrphan(s: Server, pc: DrainPc)
    requires Orphaned(s)
    ensures Orphaned(SetDrain(s, pc))
  {
  }

  // ---------------------------------------------------------------- going on

  lemma BindBegunIs(s: Server)
    requires s.state.Starting? && s.lock
    ensures Binding(BindBegun(s))
  {
  }

  lemma BackendReturnedGoes(s: Server)
    requires Inv(s) && Enabled(s, BackendStarted)
    ensures Goes(s, BackendStarted, BackendReturned(s))
  {
    hide Inv, Unwind, At, GivesUpTo, BindBegun, Binding, SameTasks, BackendUp;
    AwaitsUnderTheLock(s);
    if s.state.Starting? { BindBegunIs(s); }
    else {
      BackendUpSame(s);
      UnwindAt(s, BackendUp(s), true, false);
    }
  }

  lemma AwaitsUnderTheLock(s: Server)
    requires Inv(s) && (s.start.AwaitBackend? || AwaitsBind(s))
    ensures s.lock && !s.listenerSlot && StartGoesOn(s)
  {
    hide Futures;
  }

  lemma SucceededIsUp(s: Server, seen: Option<nat>)
    requires s.state.Starting? && s.lock && s.sock.Serving? && s.drain.NoDrain?
    ensures Up(StartSucceeded(s, seen))
  {
    hide Record;
    RecordOnly(Register(s.(listenerSlot := true), Listener, ListenerKind), seen);
  }

  lemma RecordOnly(s: Server, seen: Option<nat>)
    ensures Record(s, seen) == s.(boundInode := Record(s, seen).boundInode)
  {
  }

  lemma BoundServes(s: Server)
    requires Inv(s) && AwaitsBind(s) && Bound(s)
    ensures s.sock.Serving? && s.lock && s.drain.NoDrain?
  {
    hide Futures;
  }

  lemma BindReturnedGoes(s: Server, seen: Option<nat>)
    requires Inv(s) && Enabled(s, StartResumed(seen))
    ensures Goes(s, StartResumed(seen), BindReturned(s, seen))
  {
    hide Inv, Unwind, At, GivesUpTo, StartSucceeded, AdoptIfBound, Up, Bound;
    AwaitsUnderTheLock(s);
    if s.start.AwaitBind? && Bound(s) && s.state.Starting? {
      BoundServes(s);
      SucceededIsUp(s, seen);
    } else {
      AdoptedUnwindAt(s, seen);
    }
  }

  lemma BindCancelledGoes(s: Server, seen: Option<nat>)
    requires Inv(s) && Enabled(s, StartCancelled(seen))
    ensures Goes(s, StartCancelled(seen), BindCancelled(s, seen))
  {
    hide Inv, Unwind, At, GivesUpTo, AdoptIfBound, Track, Bound, Orphaned;
    AwaitsUnderTheLock(s);
    if IsDone(s, BindTask) { AdoptedUnwindAt(s, seen); }
    else if !s.start.AwaitBind? { OrphanUnwindAt(s); }
  }

  lemma StartEnteredGoes(s: Server)
    requires s.state.New?
    ensures Goes(s, StartCall, StartEntered(s))
  {
  }

  lemma StartStepGoes(s: Server, a: Action)
    requires Inv(s) && Enabled(s, a) && (a.StartCall? || StartSteps(a))
    ensures Goes(s, a, Do(s, a))
  {
    hide Inv, Goes, Unwind, BackendReturned, BindReturned, BindCancelled, StartEntered;
    match a
    case StartCall => StartEnteredGoes(s);
    case LockTaken => LockTakenGoes(s);
    case LockRefused(_) => EarlyGoes(s, a);
    case BackendFailed(_) => EarlyGoes(s, a);
    case BackendStarted => BackendReturnedGoes(s);
    case StartResumed(seen) => BindReturnedGoes(s, seen);
    case StartCancelled(seen) => BindCancelledGoes(s, seen);
  }

  lemma LockTakenGoes(s: Server)
    requires Inv(s) && Enabled(s, LockTaken)
    ensures Goes(s, LockTaken, LockAcquired(s))
  {
    hide Futures;
  }

  lemma EarlyGoes(s: Server, a: Action)
    requires Inv(s) && Enabled(s, a) && (a.LockRefused? || a.BackendFailed?)
    ensures Goes(s, a, Unwind(s, false, a.idle))
  {
    hide Inv, Unwind, At, GivesUpTo;
    EarlyUnwindAt(s, false, a.idle);
  }

  /** Over every run, each step of `start()` does exactly this. It comes up when its
      bind returned a listener, nothing was cancelled and no shutdown came; it
      leaves a bind to its own cleanup only on a second cancel; otherwise it gives
      up, and its drain waits for what there is. */
  lemma StartGoesInOrder(ss: seq<Server>, as_: seq<Action>, k: nat)
    requires Run(ss, as_) && k < |as_|
    ensures Goes(ss[k], as_[k], ss[k + 1])
  {
    hide Inv, Do, Enabled, Goes;
    RunInv(ss, as_, k);
    if as_[k].StartCall? || StartSteps(as_[k]) { StartStepGoes(ss[k], as_[k]); }
    else { OtherStepGoes(ss[k], as_[k], ss[k + 1]); }
  }

  lemma OtherStepGoes(s: Server, a: Action, t: Server)
    requires !a.StartCall? && !StartSteps(a)
    ensures Goes(s, a, t)
  {
  }

  // ---------------------------------------------------------------- who comes up

  lemma PhaseIsDown(t: Server, phase: Phase)
    requires Inv(t) && At(t, phase)
    ensures !t.state.Running? && !t.start.AwaitBindAgain?
  {
    hide Futures;
  }

  /** The places after a step that is none of `start()`. */
  lemma OtherPlaces(s: Server, a: Action)
    requires Inv(s) && Enabled(s, a) && !a.StartCall? && !StartSteps(a)
    ensures var t := Do(s, a);
            && (t.state.Running? ==> s.state.Running?)
            && (t.start.AwaitBindAgain? ==> s.start.AwaitBindAgain?)
  {
    hide Inv, Do, Enabled, At, NextPhase, FirstPhase;
    StepInv(s, a);
    if a.ShutdownCall? || a.ShutdownCallerCancelled? || a.DrainSkipped? { CallPlaces(s, a); }
    else if a.DrainStarted? || a.DrainResumed? || a.DrainCancelled? { DrainPlaces(s, a); }
    else { QuietStepPlaces(s, a); }
  }

  lemma CallPlaces(s: Server, a: Action)
    requires Enabled(s, a) && (a.ShutdownCall? || a.ShutdownCallerCancelled? || a.DrainSkipped?)
    ensures var t := Do(s, a);
            t.start == s.start && (t.state.Running? ==> s.state.Running?)
  {
    hide CancelSessions, Shutdown;
    CancelSessionsFrame(s);
    ShutdownStart(s);
  }

  /** No part of `shutdown()` moves `start()` or brings the server up. */
  predicate StaysDown(s: Server, t: Server) { t.start == s.start && (t.state.Running? ==> s.state.Running?) }

  lemma ShutdownStart(s: Server)
    ensures StaysDown(s, Shutdown(s))
  {
    hide Transition, ScheduleDrain;
    var r := ShutdownRequested(s);
    TransitionStart(r, Stopped);
    TransitionStart(r, Stopping);
    ScheduledStart(r);
  }

  lemma TransitionStart(s: Server, to: State)
    requires !to.Running?
    ensures StaysDown(s, Transition(s, to))
  {
    hide Allowed;
  }

  lemma ScheduledStart(s: Server)
    ensures StaysDown(s, ScheduleDrain(s))
  {
    hide Transition;
    TransitionStart(s, Stopping);
  }

  lemma DrainPlaces(s: Server, a: Action)
    requires Inv(s) && Enabled(s, a) && (a.DrainStarted? || a.DrainResumed? || a.DrainCancelled?) && Inv(Do(s, a))
    ensures !Do(s, a).state.Running? && !Do(s, a).start.AwaitBindAgain?
  {
    hide Inv, At, NextPhase, FirstPhase, Begun, DrainResume, DrainFinish, DrainBegin;
    if a.DrainStarted? {
      StopDrainBegins(s);
      BegunAt(s, Do(s, a));
      PhaseIsDown(Do(s, a), FirstPhase(s));
    } else if a.DrainResumed? {
      ResumeAt(s, a.idle);
      PhaseIsDown(Do(s, a), NextPhase(s));
    } else {
      EndsDrained(s, a.idle);
      PhaseIsDown(Do(s, a), Ended);
    }
  }

  lemma BegunAt(s: Server, t: Server)
    requires Begun(s, t)
    ensures At(t, FirstPhase(s))
  {
  }

  /** Only a bind that returned its listener to an uncancelled start, with no
      shutdown asked for, brings the server up. */
  lemma OnlyStartComesUp(ss: seq<Server>, as_: seq<Action>, k: nat)
    requires Run(ss, as_) && k < |as_|
    ensures !ss[k].state.Running? && ss[k + 1].state.Running? <==>
              as_[k].StartResumed? && ss[k].start.AwaitBind? && Bound(ss[k]) && ss[k].state.Starting?
  {
    hide Inv, Do, Enabled, Goes, Bound;
    RunInv(ss, as_, k);
    RunInv(ss, as_, k + 1);
    if as_[k].StartCall? || StartSteps(as_[k]) {
      StartStepGoes(ss[k], as_[k]);
      GoesToState(ss[k], as_[k], ss[k + 1]);
    } else {
      OtherPlaces(ss[k], as_[k]);
    }
  }

  lemma GoesToState(s: Server, a: Action, t: Server)
    requires Goes(s, a, t) && Inv(t) && (a.StartCall? || StartSteps(a))
    ensures t.state.Running? && !s.state.Running? ==>
              a.StartResumed? && s.start.AwaitBind? && Bound(s) && s.state.Starting?
    ensures a.StartResumed? && s.start.AwaitBind? && Bound(s) && s.state.Starting? ==> t.state.Running?
    ensures t.start.AwaitBindAgain? ==> a.StartCancelled? && s.start.AwaitBind?
  {
    hide Inv, At, Bound, IsDone, GivesUpTo;
    match a
    case StartCall =>
    case LockTaken =>
    case LockRefused(_) => PhaseIsDown(t, GivesUpTo(s, false, false));
    case BackendFailed(_) => PhaseIsDown(t, GivesUpTo(s, false, false));
    case BackendStarted => if !s.state.Starting? { PhaseIsDown(t, GivesUpTo(s, false, true)); }
    case StartResumed(_) =>
      if !(s.start.AwaitBind? && Bound(s) && s.state.Starting?) { PhaseIsDown(t, GivesUpTo(s, Bound(s), true)); }
    case StartCancelled(_) =>
      if IsDone(s, BindTask) { PhaseIsDown(t, GivesUpTo(s, Bound(s), true)); }
      else if !s.start.AwaitBind? { PhaseIsDown(t, GivesUpTo(s, false, true)); }
  }

  /** A start that waits for its bind again was cancelled in that wait: with
      `StartGoesInOrder`, a bind is left to its own cleanup by two cancels. */
  lemma {:induction false} WhoWaitsAgain(ss: seq<Server>, as_: seq<Action>, k: nat) returns (j: nat)
    requires Run(ss, as_) && k < |ss| && ss[k].start.AwaitBindAgain?
    ensures j < k && as_[j].StartCancelled? && ss[j].start.AwaitBind? && WaitsAgain(ss[j], ss[j + 1])
    ensures forall m :: j < m <= k ==> ss[m].start.AwaitBindAgain?
    decreases k
  {
    hide Inv, Do, Enabled, Goes, IsDone;
    RunInv(ss, as_, k - 1);
    RunInv(ss, as_, k);
    var s, a := ss[k - 1], as_[k - 1];
    if a.StartCall? || StartSteps(a) {
      StartStepGoes(s, a);
      GoesToState(s, a, ss[k]);
      WaitsAgainHere(s, a, ss[k]);
      j := k - 1;
    } else {
      OtherPlaces(s, a);
      j := WhoWaitsAgain(ss, as_, k - 1);
    }
  }

  lemma WaitsAgainHere(s: Server, a: Action, t: Server)
    requires Goes(s, a, t) && Inv(t) && a.StartCancelled? && s.start.AwaitBind? && t.start.AwaitBindAgain?
    ensures WaitsAgain(s, t)
  {
    hide Inv, At;
    if IsDone(s, BindTask) { PhaseIsDown(t, GivesUpTo(s, Bound(s), true)); }
  }

  // ---------------------------------------------------------------- a start can succeed

  /** From any state in which a server is new, the regular steps bring it up. */
  lemma StartCanSucceed(s: Server, seen: Option<nat>) returns (ss: seq<Server>, as_: seq<Action>)
    requires Inv(s) && s.state.New?
    ensures as_ == [StartCall, LockTaken, BackendStarted, SocketBound, BindFinished(true, seen), StartResumed(seen)]
    ensures Steps(ss, as_) && ss[0] == s && Up(ss[6])
  {
    hide Inv, Do, Up, Goes;
    NewCanStart(s);
    var s1 := Do(s, StartCall);
    StepInv(s, StartCall);
    CalledCanLock(s);
    var s2 := Do(s1, LockTaken);
    StepInv(s1, LockTaken);
    LockedCanStart(s1);
    var s3 := Do(s2, BackendStarted);
    StepInv(s2, BackendStarted);
    StartedBinds(s2);
    var s4 := Do(s3, SocketBound);
    StepInv(s3, SocketBound);
    BoundFinishes(s3, seen);
    var s5 := Do(s4, BindFinished(true, seen));
    StepInv(s4, BindFinished(true, seen));
    FinishedResumes(s4, seen);
    var s6 := Do(s5, StartResumed(seen));
    StartStepGoes(s5, StartResumed(seen));
    ResumedIsUp(s5, seen);
    ss := [s, s1, s2, s3, s4, s5, s6];
    as_ := [StartCall, LockTaken, BackendStarted, SocketBound, BindFinished(true, seen), StartResumed(seen)];
  }

  lemma NewCanStart(s: Server)
    requires Inv(s) && s.state.New?
    ensures Enabled(s, StartCall)
  {
    hide Futures;
  }

  lemma CalledCanLock(s: Server)
    requires Inv(s) && Enabled(s, StartCall)
    ensures Enabled(Do(s, StartCall), LockTaken)
  {
    hide Inv;
  }

  lemma LockedCanStart(s: Server)
    requires Inv(s) && Enabled(s, LockTaken)
    ensures Enabled(Do(s, LockTaken), BackendStarted) && Do(s, LockTaken).state.Starting?
  {
    hide Futures;
  }

  lemma StartedBinds(s: Server)
    requires Inv(s) && Enabled(s, BackendStarted) && s.state.Starting?
    ensures var t := Do(s, BackendStarted);
            Enabled(t, SocketBound) && t.start.AwaitBind? && t.state.Starting?
  {
    hide Futures;
  }

  lemma BoundFinishes(s: Server, seen: Option<nat>)
    requires Enabled(s, SocketBound) && s.start.AwaitBind? && s.state.Starting?
    ensures var t := Do(s, SocketBound);
            Enabled(t, BindFinished(true, seen)) && t.start.AwaitBind? && t.state.Starting?
  {
  }

  lemma FinishedResumes(s: Server, seen: Option<nat>)
    requires Enabled(s, BindFinished(true, seen)) && s.start.AwaitBind? && s.state.Starting?
    ensures var t := Do(s, BindFinished(true, seen));
            Enabled(t, StartResumed(seen)) && t.start.AwaitBind? && t.state.Starting? && Bound(t)
  {
  }

  lemma ResumedIsUp(s: Server, seen: Option<nat>)
    requires Enabled(s, StartResumed(seen)) && s.start.AwaitBind? && s.state.Starting? && Bound(s)
    requires Goes(s, StartResumed(seen), Do(s, StartResumed(seen)))
    ensures Up(Do(s, StartResumed(seen)))
  {
    hide Do, Up;
  }
}
