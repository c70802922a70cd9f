/** What a start and a drain do, in order: who is waited for, who is cancelled, and
    when the backend's close is begun. */
module DrainOrder {
  import opened Wrappers
  import opened Lifecycle
  import opened LifecycleInvariant
  import opened LockSteps
  import opened LifecycleProgress
  import opened LifecycleRuns

  // ---------------------------------------------------------------- the order of the waits

  /** The drain's waits: for the sessions, for the cancelled ones, for the
      listener's close, for the backend's close; `Ended` is its end. */
  datatype Phase = Sessions | Cancelled | ListenersClose | BackendsClose | Ended

  /** Which wait comes after the sessions: each one that there is something for. */
  function AfterTheSessions(s: Server): Phase {
    if s.listenerSlot then ListenersClose else AfterTheListener(s)
  }

  function AfterTheListener(s: Server): Phase { if s.drainCloses then BackendsClose else Ended }

  predicate At(s: Server, phase: Phase) {
    match phase
    case Sessions => s.drain.WaitSessions?
    case Cancelled => s.drain.WaitCancelled?
    case ListenersClose => s.drain.WaitCloser?
    case BackendsClose => s.drain.WaitBackendClose? && s.closeSlot
    case Ended => s.drain.NoDrain? && s.past.drained
  }

  lemma EndsDrained(s: Server, idle: bool)
    ensures At(DrainFinish(s, idle), Ended)
  {
    hide DrainEnded, KeepLock, StartFinally, Finish;
    DrainEndedAt(s, idle);
    LeavesPlaces(DrainEnded(s, idle));
    LifecycleInvariant.FinishPlaces(DrainEnded(s, idle), StopTask, true);
  }

  lemma DrainEndedAt(s: Server, idle: bool)
    ensures At(DrainEnded(s, idle), Ended)
  {
    hide KeepLock, EndWork, SetDrain;
    KeepLockEases(s, idle);
    SetDrainAt(KeepLock(s, idle));
    EndWorkPlaces(SetDrain(KeepLock(s, idle), NoDrain), DrainToken);
  }

  lemma SetDrainAt(s: Server)
    ensures var t := SetDrain(s, NoDrain); t.drain.NoDrain? && t.past == s.past
  {
  }

  lemma EnteredPlaces(s: Server, go: bool, legal: bool, to: State)
    ensures var t := Entered(s, go, legal, to);
            t.drain == s.drain && t.past.drained == s.past.drained
  {
  }

  lemma StartLeftPlaces(s: Server)
    ensures var t := StartLeft(s);
            t.drain == s.drain && t.past.drained == s.past.drained
  {
  }

  lemma LeavesPlaces(s: Server)
    ensures var t := StartFinally(s);
            t.drain == s.drain && t.past.drained == s.past.drained
  {
    hide Entered, Allowed, StartMoves, StartOutcome, StartLeft;
    StartLeftPlaces(s);
    var l := StartLeft(s);
    EnteredPlaces(l, StartMoves(l), StartMoves(l) && Allowed(l, StartOutcome(l)), StartOutcome(l));
  }

  lemma AfterCloserAt(s: Server, idle: bool)
    ensures At(AfterCloser(s, idle), AfterTheListener(s))
  {
    hide DrainFinish;
    EndsDrained(s, idle);
  }

  lemma AfterSessionsAt(s: Server, idle: bool)
    ensures At(AfterSessions(s, idle), AfterTheSessions(s))
  {
    hide AfterCloser;
    AfterCloserAt(s, idle);
  }

  lemma LingerKeeps(s: Server, k: Key, kind: Kind)
    ensures var t := Linger(s, k, kind); t.drainCloses == s.drainCloses && t.listenerSlot == s.listenerSlot
  {
    hide Tracked;
  }

  /** The phase after a wait that returned. */
  ghost function NextPhase(s: Server): Phase {
    match s.drain
    case WaitSessions(pending) =>
      if exists id :: id in pending && !IsDone(s, Task(id)) then Cancelled else AfterTheSessions(s)
    case WaitCancelled => AfterTheSessions(s)
    case WaitCloser => AfterTheListener(s)
    case _ => Ended
  }

  lemma TimeoutAt(s: Server, idle: bool)
    requires s.drain.WaitSessions?
    ensures At(DrainResume(s, idle), NextPhase(s))
  {
    hide AfterSessions, CancelTasks, At, AfterTheSessions;
    var still := StillRunning(s, s.drain.pending);
    if id :| id in still {
      assert id in s.drain.pending && !IsDone(s, Task(id));
      CancelledAt(CancelTasks(s, still));
    } else {
      assert still == {};
      forall id | id in s.drain.pending
        ensures IsDone(s, Task(id))
      {
        assert id !in still;
      }
      AfterSessionsAt(s, idle);
    }
  }

  lemma CancelledAt(s: Server)
    ensures At(SetDrain(s, WaitCancelled), Cancelled)
  {
  }

  lemma ResumeAt(s: Server, idle: bool)
    requires DrainWaits(s)
    ensures At(DrainResume(s, idle), NextPhase(s))
  {
    hide AfterSessions, AfterCloser, DrainFinish, Linger, At;
    match s.drain
    case WaitSessions(_) => TimeoutAt(s, idle);
    case WaitCancelled => AfterSessionsAt(s, idle);
    case WaitCloser =>
      LingerKeeps(s, Closer, ListenerCloseKind);
      AfterCloserAt(Linger(s, Closer, ListenerCloseKind), idle);
    case WaitBackendClose => EndsDrained(Linger(s, CloseTask, CloseKind), idle);
  }

  /** Each return of a wait leads to the next phase there is something for; nothing
      is skipped and nothing comes twice. */
  lemma DrainGoesInOrder(ss: seq<Server>, as_: seq<Action>, k: nat)
    requires Run(ss, as_) && k < |as_| && as_[k].DrainResumed?
    ensures At(ss[k + 1], NextPhase(ss[k]))
  {
    hide DrainResume, At, NextPhase, Inv;
    ResumeAt(ss[k], as_[k].idle);
  }

  // ---------------------------------------------------------------- how a drain begins

  /** The first phase: every session there is, is waited for. */
  function FirstPhase(s: Server): Phase {
    if s.tasks != map[] then Sessions else AfterTheSessions(s)
  }

  /** The listener's close is begun: it is in the ledger, the listener no longer is. */
  predicate ListenerGoes(t: Server) {
    t.sock.Closing? && IsPending(t, Closer) && Closer in t.ledger && Listener !in t.ledger
  }

  lemma CloseListenerKeeps(s: Server)
    ensures var t := CloseListener(s);
            && t.tasks == s.tasks && t.listenerSlot == s.listenerSlot && t.drainCloses == s.drainCloses
            && t.shutdownEvent == s.shutdownEvent && (s.listenerSlot ==> ListenerGoes(t))
  {
    BeginListenerCloseIs(s, false);
    hide BeginListenerClose;
  }

  lemma EnterDrainKeeps(s: Server)
    ensures var t := EnterDrain(s);
            && t.tasks == s.tasks && t.listenerSlot == s.listenerSlot && t.drainCloses == s.drainCloses
            && LiveSessions(t) == LiveSessions(s) && t.shutdownEvent
  {
  }

  lemma AllAreLive(s: Server)
    requires Futures(s)
    ensures forall id :: id in LiveSessions(s) <==> id in s.tasks
  {
    SessionsListed(s);
    forall id | id in LiveSessions(s)
      ensures id in s.tasks
    {
      assert Owed(s, Task(id));
    }
  }

  /** Where a drain begins: the listener's close is begun, the first wait is for
      exactly the sessions there are. */
  ghost predicate Begun(s: Server, t: Server) {
    && At(t, FirstPhase(s))
    && (t.drain.WaitSessions? ==> forall id :: id in t.drain.pending <==> id in s.tasks)
  }

  lemma DrainFirstBegins(s: Server, idle: bool)
    requires forall id :: id in LiveSessions(s) <==> id in s.tasks
    ensures Begun(s, DrainFirst(s, idle))
  {
    hide AfterSessions, CloseListener, LiveSessions;
    CloseListenerKeeps(s);
    AfterSessionsAt(CloseListener(s), idle);
    assert LiveSessions(s) != {} <==> s.tasks != map[] by {
      if id :| id in LiveSessions(s) { assert id in s.tasks; }
      if id :| id in s.tasks { assert id in LiveSessions(s); }
    }
  }

  lemma DrainBegins(s: Server, idle: bool)
    requires forall id :: id in LiveSessions(s) <==> id in s.tasks
    ensures Begun(s, DrainBegin(s, idle))
  {
    hide EnterDrain, DrainFirst, LiveSessions, At;
    EnterDrainKeeps(s);
    DrainFirstBegins(EnterDrain(s), idle);
  }

  /** This step begins a drain: the one waits, or is over at once. */
  predicate Begins(s: Server, t: Server) {
    !DrainWaits(s) && (DrainWaits(t) || (t.past.drained && !s.past.drained))
  }

  /** The first wait is for exactly the sessions there are; without any there is none. */
  ghost predicate Lists(s: Server, t: Server) {
    if s.tasks == map[] then !t.drain.WaitSessions?
    else t.drain.WaitSessions? && forall id :: id in t.drain.pending <==> id in s.tasks
  }

  lemma BegunLists(u: Server, t: Server, s: Server)
    requires Begun(u, t) && s.tasks == u.tasks
    ensures Lists(s, t)
  {
  }

  /** Every drain begins with a wait for exactly the sessions there are: the stop
      task's, and that of a start that failed. */
  lemma DrainListsEverySession(ss: seq<Server>, as_: seq<Action>, k: nat)
    requires Run(ss, as_) && k < |as_| && Begins(ss[k], ss[k + 1])
    ensures Lists(ss[k], ss[k + 1])
  {
    hide Inv, Do, Enabled, Begins, Lists;
    RunInv(ss, as_, k);
    StepBegins(ss[k], as_[k]);
  }

  lemma StepBegins(s: Server, a: Action)
    requires Inv(s) && Enabled(s, a) && Begins(s, Do(s, a))
    ensures Lists(s, Do(s, a))
  {
    hide Inv, Do, Enabled, Begun, Lists;
    DrainStepsWait(s, a);
    if a.DrainStarted? {
      StopDrainBegins(s);
      BegunLists(s, Do(s, a), s);
    }
    else if a.LockTaken? || a.StartCall? || a.DrainSkipped? { PlainStepBegins(s, a); }
    else if StartSteps(a) { StartStepBegins(s, a); }
    else if a.ShutdownCall? || a.ShutdownCallerCancelled? { CallBegins(s, a); }
    else { QuietStepPlaces(s, a); }
  }

  lemma DrainStepsWait(s: Server, a: Action)
    requires Enabled(s, a)
    ensures a.DrainResumed? || a.DrainCancelled? ==> DrainWaits(s)
  {
  }

  lemma StopDrainBegins(s: Server)
    requires Inv(s) && Enabled(s, DrainStarted)
    ensures Begun(s, Do(s, DrainStarted))
  {
    hide DrainBegin, Begun, LiveSessions, Inv;
    LiveInRun(s);
    DrainBegins(s, false);
  }

  lemma PlainStepBegins(s: Server, a: Action)
    requires Enabled(s, a) && (a.LockTaken? || a.StartCall? || a.DrainSkipped?)
    ensures !Begins(s, Do(s, a))
  {
  }

  lemma CallBegins(s: Server, a: Action)
    requires Enabled(s, a) && (a.ShutdownCall? || a.ShutdownCallerCancelled?)
    ensures !Begins(s, Do(s, a))
  {
    hide CancelSessions, Shutdown;
    CancelSessionsFrame(s);
    ShutdownBegins(s);
  }

  lemma ShutdownBegins(s: Server)
    ensures !Begins(s, Shutdown(s)) && (DrainWaits(s) && Inv(s) ==> Shutdown(s).drain == s.drain)
  {
    hide Transition, ScheduleDrain;
    TransitionPlaces(ShutdownRequested(s), Stopped);
    TransitionPlaces(ShutdownRequested(s), Stopping);
    ScheduledPlaces(ShutdownRequested(s));
    if Inv(s) && !s.state.Starting? && !s.state.Stopping? { RestHasNoDrain(s); }
    hide Inv;
  }

  lemma ScheduledPlaces(s: Server)
    ensures var t := ScheduleDrain(s);
            t.drain.Scheduled? && t.past.drained == s.past.drained
  {
    hide TransitionIf;
    TransitionPlaces(s, Stopping);
  }

  /** A start that unwinds lists the sessions there are. */
  lemma UnwindBegins(s: Server, r: Server, backendStarted: bool, idle: bool)
    requires Inv(s) && r.futs == s.futs && r.tasks == s.tasks
    requires forall id {:trigger Task(id)} ::
               (Task(id) in r.ledger <==> Task(id) in s.ledger)
               && (Task(id) in s.ledger ==> r.ledger[Task(id)] == s.ledger[Task(id)])
    ensures Lists(s, Unwind(r, backendStarted, idle))
  {
    hide Inv, DrainBegin, Begun, Lists;
    LiveInRun(s);
    var u := SetUnwinding(r, backendStarted);
    assert LiveSessions(u) == LiveSessions(s);
    DrainBegins(u, idle);
    BegunLists(u, DrainBegin(u, idle), s);
  }

  lemma StartStepBegins(s: Server, a: Action)
    requires Inv(s) && Enabled(s, a) && StartSteps(a) && !a.LockTaken? && Begins(s, Do(s, a))
    ensures Lists(s, Do(s, a))
  {
    hide Inv, Unwind, Lists, AdoptIfBound, BackendUp, BindBegun, StartSucceeded, Track, AwaitAgain;
    match a
    case LockRefused(idle) => UnwindBegins(s, s, false, idle);
    case BackendStarted =>
      BackendUpTasks(s);
      BindBegunBegins(s);
      UnwindBegins(s, BackendUp(s), true, false);
    case BackendFailed(idle) => UnwindBegins(s, s, false, idle);
    case StartResumed(seen) =>
      AdoptedTasks(s, seen);
      StartSucceededBegins(s, seen);
      UnwindBegins(s, AdoptIfBound(s, seen), true, false);
    case StartCancelled(seen) =>
      AdoptedTasks(s, seen);
      OrphanTasks(s);
      AwaitAgainBegins(s);
      UnwindBegins(s, AdoptIfBound(s, seen), true, false);
      UnwindBegins(s, Track(s, BindTask, BindKind, true, true, None), true, false);
  }

  lemma BackendUpTasks(s: Server)
    ensures BackendUp(s).futs == s.futs && BackendUp(s).tasks == s.tasks && BackendUp(s).ledger == s.ledger
  {
  }

  lemma BindBegunBegins(s: Server)
    ensures !Begins(s, BindBegun(s))
  {
  }

  lemma StartSucceededBegins(s: Server, seen: Option<nat>)
    ensures !Begins(s, StartSucceeded(s, seen))
  {
  }

  lemma AwaitAgainBegins(s: Server)
    ensures !Begins(s, AwaitAgain(s))
  {
  }

  lemma AdoptedTasks(s: Server, seen: Option<nat>)
    ensures var r := AdoptIfBound(s, seen);
            && r.futs == s.futs && r.tasks == s.tasks
            && (forall id {:trigger Task(id)} ::
                  (Task(id) in r.ledger <==> Task(id) in s.ledger)
                  && (Task(id) in s.ledger ==> r.ledger[Task(id)] == s.ledger[Task(id)]))
  {
  }

  lemma OrphanTasks(s: Server)
    ensures var r := Track(s, BindTask, BindKind, true, true, None);
            && r.futs == s.futs && r.tasks == s.tasks
            && (forall id {:trigger Task(id)} ::
                  (Task(id) in r.ledger <==> Task(id) in s.ledger)
                  && (Task(id) in s.ledger ==> r.ledger[Task(id)] == s.ledger[Task(id)]))
  {
  }

  lemma LiveInRun(s: Server)
    requires Inv(s)
    ensures forall id :: id in LiveSessions(s) <==> id in s.tasks
  {
    hide Control, Futures, LiveSessions;
    AllAreLive(s);
  }

  lemma StopDrainCloses(s: Server, idle: bool)
    requires s.listenerSlot
    ensures var t := DrainBegin(s, idle);
            t.shutdownEvent && ListenerGoes(t)
  {
    hide EnterDrain, CloseListener, LiveSessions, ListenerGoes, SetDrain;
    EnterDrainKeeps(s);
    var e := EnterDrain(s);
    CloseListenerKeeps(e);
    SetDrainOnly(CloseListener(e), WaitSessions(LiveSessions(e)));
    SetDrainOnly(CloseListener(e), WaitCloser);
  }

  lemma SetDrainOnly(s: Server, pc: DrainPc)
    ensures var t := SetDrain(s, pc);
            t.shutdownEvent == s.shutdownEvent && (ListenerGoes(s) ==> ListenerGoes(t))
  {
  }

  lemma ScheduledHasListener(s: Server)
    requires Inv(s) && s.drain.Scheduled?
    ensures s.listenerSlot
  {
    hide Futures;
  }

  /** The stop task's first step tells every session, begins the listener's close
      and goes to the first phase. */
  lemma DrainBeginsInOrder(ss: seq<Server>, as_: seq<Action>, k: nat)
    requires Run(ss, as_) && k < |as_| && as_[k].DrainStarted?
    ensures At(ss[k + 1], FirstPhase(ss[k])) && ss[k + 1].shutdownEvent && ListenerGoes(ss[k + 1])
  {
    hide Inv, DrainBegin, At, FirstPhase;
    RunInv(ss, as_, k);
    StopDrainBegins(ss[k]);
    ScheduledHasListener(ss[k]);
    StopDrainCloses(ss[k], false);
  }

  // ---------------------------------------------------------------- the forced cancel

  lemma TimeoutCancels(s: Server, idle: bool)
    requires s.drain.WaitSessions? && exists id :: id in s.drain.pending && !IsDone(s, Task(id))
    ensures var t := DrainResume(s, idle);
            && t.drain.WaitCancelled? && t.futs == s.futs && t.ledger == s.ledger
            && (forall id :: id in t.tasks <==> id in s.tasks)
            && (forall id :: id in s.tasks ==>
                  (t.tasks[id].cancelled <==> s.tasks[id].cancelled || (id in s.drain.pending && !IsDone(s, Task(id)))))
  {
    var still := StillRunning(s, s.drain.pending);
    var id :| id in s.drain.pending && !IsDone(s, Task(id));
    assert id in still;
    hide AfterSessions;
  }

  /** When the drain's bound passed, the sessions that it listed and that are not
      done, and no others, are asked to cancel, and waited for once more. */
  lemma TimeoutCancelsExactly(ss: seq<Server>, as_: seq<Action>, k: nat)
    requires Run(ss, as_) && k < |as_| && as_[k].DrainResumed? && ss[k].drain.WaitSessions?
    requires exists id :: id in ss[k].drain.pending && !IsDone(ss[k], Task(id))
    ensures ss[k + 1].drain.WaitCancelled?
    ensures forall id :: id in ss[k + 1].tasks <==> id in ss[k].tasks
    ensures forall id :: id in ss[k].tasks ==>
              (ss[k + 1].tasks[id].cancelled <==>
                 ss[k].tasks[id].cancelled || (id in ss[k].drain.pending && !IsDone(ss[k], Task(id))))
  {
    hide DrainResume, Inv;
    TimeoutCancels(ss[k], as_[k].idle);
  }

  /** Cancelling the first caller of `shutdown()` cancels every session at once. */
  lemma CallerCancelHurries(ss: seq<Server>, as_: seq<Action>, k: nat)
    requires Run(ss, as_) && k < |as_| && as_[k].ShutdownCallerCancelled?
    ensures AllCancelled(ss[k + 1]) && OnlyMarks(ss[k], ss[k + 1])
  {
    hide Inv, CancelSessions, AllCancelled, OnlyMarks;
    RunInv(ss, as_, k);
    CancelSessionsInv(ss[k]);
  }

  // ---------------------------------------------------------------- nobody is left behind

  /** Task `id` is over, or was asked to cancel. */
  ghost predicate Heeded(t: Server, id: nat) {
    IsDone(t, Task(id)) || (id in t.tasks && t.tasks[id].cancelled)
  }

  /** Each of `ids` is over, or was asked to cancel, or the drain waits for it. */
  ghost predicate Pursued(t: Server, ids: set<nat>) {
    forall id :: id in ids ==>
      Heeded(t, id) || (t.drain.WaitSessions? && id in t.drain.pending && id in t.tasks)
  }

  lemma FollowsStep(s: Server, a: Action)
    requires Inv(s) && Enabled(s, a)
    ensures Follows(s, Do(s, a))
  {
    hide Inv, Enabled, Do, Follows, Kept;
    if Odd(a) { OddStepFollows(s, a); }
    else {
      StepKept(s, a);
      KeptFollows(s, Do(s, a));
    }
  }

  lemma KeptFollows(s: Server, t: Server)
    requires Kept(s, t)
    ensures Follows(s, t)
  {
  }

  lemma OddStepFollows(s: Server, a: Action)
    requires Enabled(s, a) && Odd(a)
    ensures Follows(s, Do(s, a))
  {
  }

  lemma HeededFollows(s: Server, t: Server, id: nat)
    requires Follows(s, t) && Heeded(s, id)
    ensures Heeded(t, id)
  {
  }

  lemma LeftOrDone(s: Server, t: Server, id: nat)
    requires Follows(s, t) && id in s.tasks
    ensures IsDone(t, Task(id)) || id in t.tasks
  {
  }

  /** A step other than a return or a cancel of the drain's wait leaves that wait. */
  lemma WaitStays(s: Server, a: Action)
    requires Inv(s) && Enabled(s, a) && DrainWaits(s) && !a.DrainResumed? && !a.DrainCancelled?
    ensures Do(s, a).drain == s.drain
  {
    hide Inv, Do, Enabled;
    NoOtherOwner(s, a);
    if a.ShutdownCall? || a.ShutdownCallerCancelled? { CallKeepsWait(s, a); }
    else { QuietStepPlaces(s, a); }
  }

  lemma NoOtherOwner(s: Server, a: Action)
    requires Inv(s) && Enabled(s, a) && DrainWaits(s)
    ensures !a.StartCall? && !StartSteps(a) && !a.DrainStarted? && !a.DrainSkipped?
  {
    hide Futures;
  }

  lemma CallKeepsWait(s: Server, a: Action)
    requires Inv(s) && Enabled(s, a) && DrainWaits(s) && (a.ShutdownCall? || a.ShutdownCallerCancelled?)
    ensures Do(s, a).drain == s.drain
  {
    hide Inv, CancelSessions, Shutdown;
    CancelSessionsFrame(s);
    ShutdownBegins(s);
  }

  lemma CutShortCancels(s: Server, idle: bool)
    requires Futures(s)
    ensures AllCancelled(DrainFinish(s, idle))
  {
    hide Futures, CancelSessions, EnsureBackendClose, HandOverThreads, StartFinally, EndWork, OnlyMarks;
    CancelSessionsMarks(s);
    var c := CancelSessions(s);
    EnsureBackendCloseFrame(c, s.drainCloses, true);
    HandOverTasks(EnsureBackendClose(c, s.drainCloses, true), idle);
    EndWorkTasks(SetDrain(KeepLock(s, idle), NoDrain), DrainToken);
    StartFinallyTasks(DrainEnded(s, idle));
  }

  lemma HandOverTasks(s: Server, idle: bool)
    ensures HandOverThreads(s, idle).tasks == s.tasks
  {
  }

  lemma EndWorkTasks(s: Server, k: Key)
    ensures EndWork(s, k).tasks == s.tasks
  {
  }

  lemma StartFinallyTasks(s: Server)
    ensures StartFinally(s).tasks == s.tasks
  {
  }

  lemma StepPursues(s: Server, a: Action, ids: set<nat>)
    requires Inv(s) && Enabled(s, a) && Pursued(s, ids)
    ensures Pursued(Do(s, a), ids)
  {
    hide Inv, Do, Enabled, Heeded, Follows;
    var t := Do(s, a);
    FollowsStep(s, a);
    forall id | id in ids
      ensures Heeded(t, id) || (t.drain.WaitSessions? && id in t.drain.pending && id in t.tasks)
    {
      if Heeded(s, id) { HeededFollows(s, t, id); } else { AwaitedIsPursued(s, a, id); }
    }
  }

  lemma AwaitedIsPursued(s: Server, a: Action, id: nat)
    requires Inv(s) && Enabled(s, a) && s.drain.WaitSessions? && id in s.drain.pending && id in s.tasks
    ensures var t := Do(s, a);
            Heeded(t, id) || (t.drain.WaitSessions? && id in t.drain.pending && id in t.tasks)
  {
    hide Inv, Do, Enabled, Follows, AllCancelled;
    FollowsStep(s, a);
    LeftOrDone(s, Do(s, a), id);
    if a.DrainResumed? { ResumeHeeds(s, a.idle, id); }
    else if a.DrainCancelled? { CutShortHeeds(s, a.idle, id); }
    else { WaitStays(s, a); }
  }

  lemma CutShortHeeds(s: Server, idle: bool, id: nat)
    requires Inv(s) && Enabled(s, DrainCancelled(idle))
    requires var t := Do(s, DrainCancelled(idle)); IsDone(t, Task(id)) || id in t.tasks
    ensures Heeded(Do(s, DrainCancelled(idle)), id)
  {
    hide Control, Futures, DrainFinish;
    CutShortCancels(s, idle);
  }

  lemma ResumeHeeds(s: Server, idle: bool, id: nat)
    requires Inv(s) && Enabled(s, DrainResumed(idle)) && s.drain.WaitSessions? && id in s.drain.pending && id in s.tasks
    ensures Heeded(Do(s, DrainResumed(idle)), id)
  {
    if IsDone(s, Task(id)) {
      hide Inv, DrainResume, Follows;
      FollowsStep(s, DrainResumed(idle));
      HeededFollows(s, Do(s, DrainResumed(idle)), id);
    } else {
      hide Inv, DrainResume;
      TimeoutCancels(s, idle);
    }
  }

  /** No session outlives a drain unasked: from the step that begins a drain on,
      each session that there was is over, or was asked to cancel, or the drain
      still waits for it. */
  lemma {:induction false} NobodyLeftBehind(ss: seq<Server>, as_: seq<Action>, j: nat, k: nat)
    requires Run(ss, as_) && j < k < |ss| && Begins(ss[j], ss[j + 1])
    ensures Pursued(ss[k], ss[j].tasks.Keys)
    decreases k
  {
    hide Inv, Do, Enabled, Begins, Pursued, Lists;
    RunInv(ss, as_, k - 1);
    if j < k - 1 {
      NobodyLeftBehind(ss, as_, j, k - 1);
      StepPursues(ss[k - 1], as_[k - 1], ss[j].tasks.Keys);
    } else {
      DrainListsEverySession(ss, as_, j);
      FollowsStep(ss[j], as_[j]);
      ListedIsPursued(ss[j], ss[k]);
    }
  }

  lemma ListedIsPursued(s: Server, t: Server)
    requires Lists(s, t) && Follows(s, t)
    ensures Pursued(t, s.tasks.Keys)
  {
  }

  /** So once the drain waits for cancelled sessions, for the listener or for the
      backend, and ever after, each of them is over or was asked to cancel. */
  lemma AfterTheWaitAllAreHeeded(ss: seq<Server>, as_: seq<Action>, j: nat, k: nat, id: nat)
    requires Run(ss, as_) && j < k < |ss| && Begins(ss[j], ss[j + 1]) && id in ss[j].tasks
    requires !ss[k].drain.WaitSessions?
    ensures Heeded(ss[k], id)
  {
    hide Inv, Do, Enabled, Begins;
    NobodyLeftBehind(ss, as_, j, k);
  }

  // ---------------------------------------------------------------- what is left is told as stuck

  predicate Leftover(k: Key) { k.Task? || k.CloseTask? || k.IdleFuture? }

  /** Every session, backend close and decode hand-over still going on is marked. */
  ghost predicate Marked(s: Server) {
    forall k :: k in s.ledger && Leftover(k) && IsPending(s, k) ==> s.ledger[k].stuck
  }

  /** The sessions are. */
  ghost predicate SessionsMarked(s: Server) {
    forall id {:trigger Task(id)} :: Task(id) in s.ledger && IsPending(s, Task(id)) ==> s.ledger[Task(id)].stuck
  }

  lemma CancelMarksSessions(s: Server)
    requires Futures(s)
    ensures SessionsMarked(CancelSessions(s)) && CancelSessions(s).futs == s.futs
  {
    hide Control;
    forall id {:trigger Task(id)} | Task(id) in s.ledger && IsPending(s, Task(id))
      ensures id in LiveSessions(s)
    {
      assert Owed(s, Task(id));
      assert !IsDone(s, Task(id));
    }
  }

  lemma CloseMarked(s: Server, due: bool)
    requires SessionsMarked(s) && (CloseTask in s.ledger ==> s.closeSlot)
    requires s.closeSlot ==> CloseTask in s.ledger || IsDone(s, CloseTask)
    ensures var t := EnsureBackendClose(s, due, true);
            && SessionsMarked(t)
            && (CloseTask in t.ledger && IsPending(t, CloseTask) ==> t.ledger[CloseTask].stuck)
  {
  }

  lemma HandOverMarked(s: Server, idle: bool)
    requires SessionsMarked(s) && (CloseTask in s.ledger && IsPending(s, CloseTask) ==> s.ledger[CloseTask].stuck)
    requires IdleFuture !in s.ledger
    ensures Marked(HandOverThreads(s, idle))
  {
  }

  lemma MarkedStays(s: Server, t: Server)
    requires Marked(s) && forall k :: k in t.ledger && Leftover(k) ==> k in s.ledger && t.ledger[k] == s.ledger[k]
    requires forall k :: k in t.futs && Leftover(k) ==> k in s.futs && t.futs[k] == s.futs[k]
    ensures Marked(t)
  {
  }

  lemma BeforeKeepLock(s: Server)
    requires Inv(s) && DrainWaits(s)
    ensures IdleFuture !in s.ledger && (CloseTask in s.ledger ==> s.closeSlot)
    ensures s.closeSlot ==> CloseTask in s.ledger || IsDone(s, CloseTask)
  {
  }

  lemma EnsureKeepsIdle(s: Server, due: bool)
    ensures IdleFuture in EnsureBackendClose(s, due, true).ledger ==> IdleFuture in s.ledger
  {
  }

  lemma KeepLockMarked(s: Server, idle: bool)
    requires Inv(s) && DrainWaits(s)
    ensures Marked(KeepLock(s, idle))
  {
    hide Control, Futures, CancelSessions, EnsureBackendClose, HandOverThreads, Marked, SessionsMarked, OnlyMarks;
    BeforeKeepLock(s);
    CancelMarksSessions(s);
    CancelSessionsMarks(s);
    var c := CancelSessions(s);
    CancelKeepsClose(s, c);
    CloseMarked(c, s.drainCloses);
    EnsureKeepsIdle(c, s.drainCloses);
    HandOverMarked(EnsureBackendClose(c, s.drainCloses, true), idle);
  }

  lemma CancelKeepsClose(s: Server, t: Server)
    requires OnlyMarks(s, t)
    ensures t.futs == s.futs && t.closeSlot == s.closeSlot && t.drainCloses == s.drainCloses
    ensures forall k :: k in t.ledger <==> k in s.ledger
  {
  }

  lemma EndWorkMarked(s: Server, k: Key)
    requires Marked(s)
    ensures Marked(EndWork(s, k))
  {
  }

  lemma SetDrainMarked(s: Server, pc: DrainPc)
    requires Marked(s)
    ensures Marked(SetDrain(s, pc))
  {
  }

  lemma StartFinallyMarked(s: Server)
    requires Marked(s)
    ensures Marked(StartFinally(s))
  {
  }

  lemma FinishMarked(s: Server)
    requires Marked(s)
    ensures Marked(Finish(s, StopTask, true))
  {
  }

  lemma DrainFinishMarked(s: Server, idle: bool)
    requires Inv(s) && DrainWaits(s)
    ensures Marked(DrainFinish(s, idle))
  {
    hide Inv, KeepLock, EndWork, StartFinally, Finish, Marked, SetDrain;
    KeepLockMarked(s, idle);
    SetDrainMarked(KeepLock(s, idle), NoDrain);
    EndWorkMarked(SetDrain(KeepLock(s, idle), NoDrain), DrainToken);
    StartFinallyMarked(DrainEnded(s, idle));
    FinishMarked(DrainEnded(s, idle));
  }

  /** A drain that ended in this step marked what it leaves behind. */
  ghost predicate Tells(s: Server, t: Server) { t.past.drained && !s.past.drained ==> Marked(t) }

  lemma NotDrainedYet(s: Server)
    requires Inv(s) && DrainWaits(s)
    ensures !s.past.drained
  {
    hide Control, Futures;
  }

  lemma CloseBackendTells(s: Server)
    ensures CloseBackend(s).past.drained == s.past.drained
  {
  }

  lemma AfterCloserTells(s: Server, idle: bool)
    requires Inv(s) && DrainWaits(s)
    ensures Tells(s, AfterCloser(s, idle))
  {
    hide Inv, CloseBackend, DrainFinish, Marked;
    CloseBackendTells(s);
    DrainFinishMarked(s, idle);
  }

  lemma AfterSessionsTells(s: Server, idle: bool)
    requires Inv(s) && DrainWaits(s)
    ensures Tells(s, AfterSessions(s, idle))
  {
    hide Inv, AfterCloser, Marked;
    AfterCloserTells(s, idle);
  }

  lemma ResumeTells(s: Server, idle: bool)
    requires Inv(s) && Enabled(s, DrainResumed(idle))
    ensures Tells(s, DrainResume(s, idle))
  {
    hide Inv, AfterSessions, AfterCloser, DrainFinish, CancelTasks, StillRunning, Linger, Marked;
    DrainUnderWay(s);
    AfterSessionsTells(s, idle);
    match s.drain
    case WaitSessions(pending) => CancelTasksPlaces(s, StillRunning(s, pending));
    case WaitCancelled =>
    case WaitCloser =>
      LingerInv(s, Closer, ListenerCloseKind);
      LingerPlaces(s, Closer, ListenerCloseKind);
      AfterCloserTells(Linger(s, Closer, ListenerCloseKind), idle);
    case WaitBackendClose =>
      LingerInv(s, CloseTask, CloseKind);
      LingerPlaces(s, CloseTask, CloseKind);
      DrainFinishMarked(Linger(s, CloseTask, CloseKind), idle);
  }

  lemma LingerPlaces(s: Server, k: Key, kind: Kind)
    ensures SamePlaces(s, Linger(s, k, kind))
  {
    hide Tracked;
  }

  /** Whether a drain runs to its end or is cut short, it tells every session,
      backend close and decode hand-over that it leaves behind as stuck. */
  lemma DrainMarksLeftovers(ss: seq<Server>, as_: seq<Action>, k: nat)
    requires Run(ss, as_) && k < |as_| && (as_[k].DrainResumed? || as_[k].DrainCancelled?)
    ensures Tells(ss[k], ss[k + 1])
  {
    hide Inv, Marked, DrainFinish, DrainResume;
    RunInv(ss, as_, k);
    if as_[k].DrainResumed? { ResumeTells(ss[k], as_[k].idle); } else { DrainFinishMarked(ss[k], as_[k].idle); }
  }

  /** The listener's close is told as stuck. */
  predicate CloserMarked(s: Server) { Closer in s.ledger && s.ledger[Closer].stuck }

  lemma LingerMarksCloser(s: Server)
    requires !IsDone(s, Closer)
    ensures CloserMarked(Linger(s, Closer, ListenerCloseKind))
  {
  }

  lemma EnsureKeepsCloser(s: Server, due: bool, stuck: bool)
    requires CloserMarked(s)
    ensures CloserMarked(EnsureBackendClose(s, due, stuck))
  {
  }

  lemma CancelKeepsCloser(s: Server)
    requires CloserMarked(s)
    ensures CloserMarked(CancelSessions(s))
  {
    hide LiveSessions;
  }

  lemma HandOverKeepsCloser(s: Server, idle: bool)
    requires CloserMarked(s)
    ensures CloserMarked(HandOverThreads(s, idle))
  {
  }

  lemma SetDrainKeepsCloser(s: Server, pc: DrainPc)
    requires CloserMarked(s)
    ensures CloserMarked(SetDrain(s, pc))
  {
  }

  lemma EndWorkKeepsCloser(s: Server)
    requires CloserMarked(s)
    ensures CloserMarked(EndWork(s, DrainToken))
  {
  }

  lemma StartFinallyKeepsCloser(s: Server)
    requires CloserMarked(s)
    ensures CloserMarked(StartFinally(s))
  {
  }

  lemma FinishKeepsCloser(s: Server)
    requires CloserMarked(s)
    ensures CloserMarked(Finish(s, StopTask, true))
  {
  }

  lemma DrainFinishKeepsCloser(s: Server, idle: bool)
    requires CloserMarked(s)
    ensures CloserMarked(DrainFinish(s, idle))
  {
    hide CloserMarked, CancelSessions, EnsureBackendClose, HandOverThreads, SetDrain, EndWork, StartFinally, Finish;
    CancelKeepsCloser(s);
    CancelSessionsFrame(s);
    EnsureKeepsCloser(CancelSessions(s), s.drainCloses, true);
    HandOverKeepsCloser(EnsureBackendClose(CancelSessions(s), s.drainCloses, true), idle);
    SetDrainKeepsCloser(KeepLock(s, idle), NoDrain);
    EndWorkKeepsCloser(SetDrain(KeepLock(s, idle), NoDrain));
    StartFinallyKeepsCloser(DrainEnded(s, idle));
    FinishKeepsCloser(DrainEnded(s, idle));
  }

  /** The wait for the listener's close that ended first tells that close as stuck. */
  lemma UnfinishedCloseIsTold(ss: seq<Server>, as_: seq<Action>, k: nat)
    requires Run(ss, as_) && k < |as_| && as_[k].DrainResumed?
    requires ss[k].drain.WaitCloser? && !IsDone(ss[k], Closer)
    ensures CloserMarked(ss[k + 1])
  {
    hide Inv, CloserMarked, DrainFinish, EnsureBackendClose, SetDrain, Linger;
    var t := Linger(ss[k], Closer, ListenerCloseKind);
    LingerMarksCloser(ss[k]);
    EnsureKeepsCloser(t, true, false);
    SetDrainKeepsCloser(EnsureBackendClose(t, true, false), WaitBackendClose);
    DrainFinishKeepsCloser(t, as_[k].idle);
  }
}
