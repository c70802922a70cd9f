/** What each segment of one server does to its lock and to its socket. */
module LockSteps {
  import opened Wrappers
  import opened Lifecycle
  import opened LifecycleInvariant

  /** No socket of this attempt exists or is on record. */
  predicate Unbound(s: Server) { s.sock.NoSock? && !s.listenerSlot && s.boundInode == None }

  /** The listener's close has begun. */
  predicate CloseBegun(sock: Sock) { sock.Closing? || sock.Closed? }

  /** A socket of this attempt exists, or is on record, and its close has not begun. */
  predicate Open(s: Server) { !Unbound(s) && !CloseBegun(s.sock) }

  /** Single-use from here on. */
  predicate Down(state: State) { state.Stopping? || state.Stopped? }

  /** A session or decode task only finishes, and a cancel of it is not undone. */
  ghost predicate Follows(s: Server, t: Server) {
    && (forall id {:trigger Task(id)} :: IsDone(s, Task(id)) ==> IsDone(t, Task(id)))
    && (forall id :: id in s.tasks ==>
          IsDone(t, Task(id)) || (id in t.tasks && (s.tasks[id].cancelled ==> t.tasks[id].cancelled)))
  }

  /** How a segment may change the tasks, the lock, the socket and the state: it takes no
      lock, gives one up only by ending in a state that holds none, binds
      nothing, and brings nothing up again. */
  ghost predicate Kept(s: Server, t: Server) {
    && Follows(s, t)
    && (t.lock ==> s.lock)
    && (s.lock ==> t.lock || Frees(t.state))
    && (Frees(s.state) ==> Frees(t.state))
    && (Unbound(s) ==> Unbound(t))
    && (t.sock.NoSock? ==> s.sock.NoSock?)
    && (t.sock.Closed? ==> s.sock.Closed?)
    && (CloseBegun(s.sock) ==> CloseBegun(t.sock) && (t.boundInode == s.boundInode || t.boundInode == None))
    && (Down(s.state) ==> Down(t.state))
    && (s.shutdownRequested ==> t.shutdownRequested)
  }

  lemma EndWorkKept(s: Server, k: Key)
    ensures Kept(s, EndWork(s, k))
  {
  }

  lemma StartFinallyKept(s: Server)
    ensures Kept(s, StartFinally(s))
  {
  }

  lemma KeepLockKept(s: Server, idle: bool)
    ensures Kept(s, KeepLock(s, idle))
  {
    hide Kept, CancelSessions, EnsureBackendClose, HandOverThreads;
    var c := CancelSessions(s);
    CancelSessionsKept(s);
    CancelSessionsFrame(s);
    EnsureBackendCloseKept(c, s.drainCloses, true);
    KeptTrans(s, c, EnsureBackendClose(c, s.drainCloses, true));
    EnsureBackendCloseFrame(c, s.drainCloses, true);
    HandOverThreadsKept(EnsureBackendClose(c, s.drainCloses, true), idle);
    KeptTrans(s, EnsureBackendClose(c, s.drainCloses, true), KeepLock(s, idle));
  }

  lemma EnsureBackendCloseKept(s: Server, due: bool, stuck: bool)
    ensures Kept(s, EnsureBackendClose(s, due, stuck))
  {
    hide Tracked;
  }

  lemma HandOverThreadsKept(s: Server, idle: bool)
    ensures Kept(s, HandOverThreads(s, idle))
  {
  }

  lemma KeptTrans(s: Server, t: Server, u: Server)
    requires Kept(s, t) && Kept(t, u)
    ensures Kept(s, u)
  {
  }

  lemma SetDrainKept(s: Server, pc: DrainPc)
    ensures Kept(s, SetDrain(s, pc))
  {
  }

  lemma FinishKept(s: Server, k: Key, ok: bool)
    ensures Kept(s, Finish(s, k, ok))
  {
  }

  lemma DrainEndedKept(s: Server, idle: bool)
    ensures Kept(s, DrainEnded(s, idle))
  {
    hide Kept, KeepLock, EndWork, SetDrain;
    var h := KeepLock(s, idle);
    KeepLockKept(s, idle);
    SetDrainKept(h, NoDrain);
    KeptTrans(s, h, SetDrain(h, NoDrain));
    EndWorkKept(SetDrain(h, NoDrain), DrainToken);
    KeptTrans(s, SetDrain(h, NoDrain), DrainEnded(s, idle));
  }

  lemma DrainFinishKept(s: Server, idle: bool)
    ensures Kept(s, DrainFinish(s, idle))
  {
    hide Kept, DrainEnded, StartFinally, Finish;
    DrainEndedKept(s, idle);
    StartFinallyKept(DrainEnded(s, idle));
    FinishKept(DrainEnded(s, idle), StopTask, true);
    KeptTrans(s, DrainEnded(s, idle), DrainFinish(s, idle));
  }

  lemma CloseBackendKept(s: Server)
    ensures Kept(s, CloseBackend(s))
  {
  }

  lemma AfterCloserKept(s: Server, idle: bool)
    ensures Kept(s, AfterCloser(s, idle))
  {
    hide Kept, DrainFinish, CloseBackend;
    if s.drainCloses { CloseBackendKept(s); } else { DrainFinishKept(s, idle); }
  }

  lemma AfterSessionsKept(s: Server, idle: bool)
    ensures Kept(s, AfterSessions(s, idle))
  {
    hide Kept, AfterCloser, SetDrain;
    if s.listenerSlot { SetDrainKept(s, WaitCloser); } else { AfterCloserKept(s, idle); }
  }

  lemma BeginListenerCloseKept(s: Server, stuck: bool)
    requires !Unbound(s)
    ensures Kept(s, BeginListenerClose(s, stuck))
  {
    hide BeginListenerClose;
    BeginListenerCloseIs(s, stuck);
  }

  lemma KeptRefl(s: Server)
    ensures Kept(s, s)
  {
  }

  lemma DrainFirstKept(s: Server, idle: bool)
    ensures Kept(s, DrainFirst(s, idle))
  {
    hide Kept, AfterSessions, LiveSessions, BeginListenerClose, SetDrain;
    KeptRefl(s);
    if s.listenerSlot { BeginListenerCloseKept(s, false); }
    var t := CloseListener(s);
    SetDrainKept(t, WaitSessions(LiveSessions(s)));
    AfterSessionsKept(t, idle);
    KeptTrans(s, t, DrainFirst(s, idle));
  }

  lemma LingerKept(s: Server, k: Key, kind: Kind)
    ensures Kept(s, Linger(s, k, kind))
  {
    hide Tracked;
  }

  lemma CancelTasksKept(s: Server, ids: set<nat>)
    ensures Kept(s, CancelTasks(s, ids)) && Kept(s, SetDrain(CancelTasks(s, ids), WaitCancelled))
  {
    CancelTasksFollows(s, ids);
    hide Cancel, Follows;
    CancelledKept(s, ids);
    hide Kept, CancelTasks;
    var t := CancelTasks(s, ids);
    SetDrainKept(t, WaitCancelled);
    KeptTrans(s, t, SetDrain(t, WaitCancelled));
  }

  lemma CancelledKept(s: Server, ids: set<nat>)
    requires Follows(s, CancelTasks(s, ids))
    ensures Kept(s, CancelTasks(s, ids))
  {
    hide Cancel, Follows;
  }

  lemma CancelTasksFollows(s: Server, ids: set<nat>)
    ensures Follows(s, CancelTasks(s, ids))
  {
    var tasks := Cancel(s.tasks, ids);
    forall id | id in s.tasks
      ensures id in tasks && (s.tasks[id].cancelled ==> tasks[id].cancelled)
    {
    }
    hide Cancel;
  }

  lemma TimeoutKept(s: Server, still: set<nat>, idle: bool)
    ensures Kept(s, AfterDrainTimeout(s, still, idle))
  {
    hide AfterSessions, CancelTasks, Kept;
    if still == {} { AfterSessionsKept(s, idle); } else { CancelTasksKept(s, still); }
  }

  lemma DrainResumeKept(s: Server, idle: bool)
    ensures Kept(s, DrainResume(s, idle))
  {
    hide Kept, AfterSessions, AfterCloser, DrainFinish, Linger, StillRunning, AfterDrainTimeout;
    match s.drain
    case WaitSessions(pending) => TimeoutKept(s, StillRunning(s, pending), idle);
    case WaitCancelled => AfterSessionsKept(s, idle);
    case WaitCloser =>
      LingerKept(s, Closer, ListenerCloseKind);
      AfterCloserKept(Linger(s, Closer, ListenerCloseKind), idle);
      KeptTrans(s, Linger(s, Closer, ListenerCloseKind), DrainResume(s, idle));
    case WaitBackendClose =>
      LingerKept(s, CloseTask, CloseKind);
      DrainFinishKept(Linger(s, CloseTask, CloseKind), idle);
      KeptTrans(s, Linger(s, CloseTask, CloseKind), DrainResume(s, idle));
    case _ => KeptRefl(s);
  }

  lemma EnterDrainKept(s: Server)
    ensures Kept(s, EnterDrain(s))
  {
  }

  lemma SetUnwindingKept(s: Server, backendStarted: bool)
    ensures Kept(s, SetUnwinding(s, backendStarted))
  {
  }

  lemma DrainBeginKept(s: Server, idle: bool)
    ensures Kept(s, DrainBegin(s, idle))
  {
    hide Kept, DrainFirst, EnterDrain;
    EnterDrainKept(s);
    DrainFirstKept(EnterDrain(s), idle);
    KeptTrans(s, EnterDrain(s), DrainBegin(s, idle));
  }

  lemma UnwindKept(s: Server, backendStarted: bool, idle: bool)
    ensures Kept(s, Unwind(s, backendStarted, idle))
  {
    hide Kept, DrainBegin, SetUnwinding;
    SetUnwindingKept(s, backendStarted);
    DrainBeginKept(SetUnwinding(s, backendStarted), idle);
    KeptTrans(s, SetUnwinding(s, backendStarted), Unwind(s, backendStarted, idle));
  }

  lemma RecordKept(s: Server, seen: Option<nat>)
    requires seen.Some? ==> Open(s)
    ensures Kept(s, Record(s, seen))
  {
  }

  lemma RecordBound(s: Server, seen: Option<nat>)
    ensures Unbound(Record(s, seen)) ==> Unbound(s)
  {
  }

  lemma RetireKept(s: Server, k: Key, ok: bool, fails: bool, seen: Option<nat>)
    requires k in s.ledger && s.ledger[k].closesOrphan && ok ==> Open(s)
    ensures Kept(s, Retire(s, k, ok, fails, seen))
  {
    hide Kept, EndWork, BeginListenerClose, Record, FailClosed;
    EndWorkKept(s, k);
    if k in s.ledger && s.ledger[k].closesOrphan && ok {
      FailClosedKept(s, k);
      RecordKept(s, seen);
      RecordBound(s, seen);
      BeginListenerCloseKept(Record(s, seen), true);
      var t := BeginListenerClose(Record(s, seen), true);
      KeptTrans(s, Record(s, seen), t);
      EndWorkKept(t, k);
      KeptTrans(s, t, EndWork(t, k));
    }
  }

  lemma FailClosedKept(s: Server, k: Key)
    requires k in s.ledger
    ensures Kept(s, FailClosed(s, k))
  {
  }

  lemma BoundHasSocket(s: Server)
    requires Inv(s)
    ensures (AwaitsBind(s) && Bound(s)) || (IsPending(s, BindTask) && !s.sock.NoSock?) ==> Open(s)
    ensures forall k :: k in s.ledger && s.ledger[k].closesOrphan && IsDone(s, k) && s.futs[k].ok ==> Open(s)
  {
  }

  lemma AdoptListenerKept(s: Server, seen: Option<nat>)
    requires Open(s)
    ensures Kept(s, AdoptListener(s, seen))
  {
  }

  lemma AdoptIfBoundKept(s: Server, seen: Option<nat>)
    requires Bound(s) ==> Open(s)
    ensures Kept(s, AdoptIfBound(s, seen))
  {
    hide Kept, Unbound, AdoptListener;
    KeptRefl(s);
    if Bound(s) { AdoptListenerKept(s, seen); }
  }

  lemma AdoptedUnwindKept(s: Server, seen: Option<nat>)
    requires Bound(s) ==> Open(s)
    ensures Kept(s, Unwind(AdoptIfBound(s, seen), true, false))
  {
    hide Kept, Unwind, AdoptIfBound;
    AdoptIfBoundKept(s, seen);
    UnwindKept(AdoptIfBound(s, seen), true, false);
    KeptTrans(s, AdoptIfBound(s, seen), Unwind(AdoptIfBound(s, seen), true, false));
  }

  lemma StartLeftKept(s: Server)
    ensures Kept(s, StartLeft(s))
  {
  }

  lemma StartSucceededKept(s: Server, seen: Option<nat>)
    requires Open(s) && s.state.Starting?
    ensures Kept(s, StartSucceeded(s, seen))
  {
    hide Kept, Unbound, AdoptListener, TransitionIf, StartLeft;
    AdoptListenerState(s, seen);
    var t := AdoptListener(s, seen);
    AdoptListenerKept(s, seen);
    TransitionKept(t, Running);
    KeptTrans(s, t, Transition(t, Running));
    StartLeftKept(Transition(t, Running));
    KeptTrans(s, Transition(t, Running), StartSucceeded(s, seen));
  }

  lemma AdoptListenerState(s: Server, seen: Option<nat>)
    ensures AdoptListener(s, seen).state == s.state
  {
  }

  lemma BindReturnedKept(s: Server, seen: Option<nat>)
    requires Bound(s) ==> Open(s)
    ensures Kept(s, BindReturned(s, seen))
  {
    hide Kept, Unwind, StartSucceeded, AdoptIfBound;
    AdoptedUnwindKept(s, seen);
    if Bound(s) && s.state.Starting? { StartSucceededKept(s, seen); }
  }

  lemma AwaitAgainKept(s: Server)
    ensures Kept(s, AwaitAgain(s))
  {
  }

  lemma TrackKept(s: Server, k: Key, kind: Kind, stuck: bool, closesOrphan: bool, name: Option<string>)
    ensures Kept(s, Track(s, k, kind, stuck, closesOrphan, name))
  {
    hide Tracked;
  }

  lemma TrackNewKept(s: Server, k: Key, kind: Kind, stuck: bool, name: Option<string>)
    requires !IsDone(s, k)
    ensures Kept(s, TrackNew(s, k, kind, stuck, name))
  {
  }

  lemma BindCancelledKept(s: Server, seen: Option<nat>)
    requires Bound(s) ==> Open(s)
    ensures Kept(s, BindCancelled(s, seen))
  {
    hide Kept, Unwind, AdoptIfBound, Track, AwaitAgain;
    AwaitAgainKept(s);
    TrackKept(s, BindTask, BindKind, true, true, None);
    AdoptedUnwindKept(s, seen);
    var t := Track(s, BindTask, BindKind, true, true, None);
    UnwindKept(t, true, false);
    KeptTrans(s, t, Unwind(t, true, false));
  }

  lemma BackendUpKept(s: Server)
    ensures Kept(s, BackendUp(s))
  {
  }

  lemma BindBegunKept(s: Server)
    ensures Kept(s, BindBegun(s))
  {
  }

  lemma BackendReturnedKept(s: Server)
    ensures Kept(s, BackendReturned(s))
  {
    hide Kept, Unwind, BindBegun, BackendUp;
    BackendUpKept(s);
    BindBegunKept(s);
    UnwindKept(BackendUp(s), true, false);
    KeptTrans(s, BackendUp(s), Unwind(BackendUp(s), true, false));
  }

  lemma ShutdownRequestedKept(s: Server)
    ensures Kept(s, ShutdownRequested(s)) && ShutdownRequested(s).state == s.state
  {
  }

  lemma TransitionKept(s: Server, to: State)
    requires (Frees(s.state) ==> Frees(to)) && (Down(s.state) ==> Down(to))
    ensures Kept(s, Transition(s, to))
  {
  }

  lemma ScheduleDrainKept(s: Server)
    requires s.state.Running?
    ensures Kept(s, ScheduleDrain(s))
  {
  }

  lemma ShutdownKept(s: Server)
    ensures Kept(s, Shutdown(s))
  {
    hide Kept, Transition, ScheduleDrain, ShutdownRequested;
    ShutdownRequestedKept(s);
    var r := ShutdownRequested(s);
    match s.state
    case New =>
      TransitionKept(r, Stopped);
      KeptTrans(s, r, Transition(r, Stopped));
    case Starting =>
      TransitionKept(r, Stopping);
      KeptTrans(s, r, Transition(r, Stopping));
    case Running =>
      ScheduleDrainKept(r);
      KeptTrans(s, r, ScheduleDrain(r));
    case _ =>
  }

  lemma CancelSessionsKept(s: Server)
    ensures Kept(s, CancelSessions(s))
  {
    hide CancelSessions, LiveSessions, Kept, Cancel;
    CancelSessionsIs(s);
    CancelTasksKept(s, LiveSessions(s));
    MarkedKept(CancelTasks(s, LiveSessions(s)), CancelSessions(s).ledger);
    KeptTrans(s, CancelTasks(s, LiveSessions(s)), CancelSessions(s));
  }

  lemma CancelSessionsIs(s: Server)
    ensures CancelSessions(s) == SetLedger(CancelTasks(s, LiveSessions(s)), CancelSessions(s).ledger)
  {
    hide LiveSessions, Cancel;
  }

  lemma MarkedKept(s: Server, ledger: map<Key, Work>)
    ensures Kept(s, SetLedger(s, ledger))
  {
  }

  lemma AdoptWorkKept(s: Server, id: nat, abandoned: bool, name: string)
    ensures Kept(s, AdoptWork(s, id, abandoned, name))
  {
    hide Kept, Track, TrackNew;
    TrackKept(s, Adopted(id), AdoptedKind, abandoned, false, Some(name));
    if Adopted(id) !in s.futs { TrackNewKept(s, Adopted(id), AdoptedKind, abandoned, Some(name)); }
  }

  lemma CompletedKept(s: Server, k: Key, ok: bool)
    requires !k.Closer?
    ensures Kept(s, Complete(s, k, ok))
  {
    hide Kept, Finish;
    FinishKept(s, k, ok);
  }

  lemma NewTaskKept(s: Server, id: nat, handler: bool)
    requires Task(id) !in s.futs && id !in s.tasks
    ensures Kept(s, NewTask(s, id, handler))
  {
  }

  lemma NoteLateKept(s: Server)
    ensures Kept(s, NoteLate(s))
  {
  }

  lemma SawIdleKept(s: Server)
    ensures Kept(s, SawIdle(s))
  {
  }

  lemma TaskFinishedKept(s: Server, id: nat)
    ensures Kept(s, Finish(TaskGone(s, id), Task(id), true))
  {
  }

  lemma SetThreadsKept(s: Server, threads: set<nat>)
    ensures Kept(s, SetThreads(s, threads))
  {
  }

  lemma BindFinishedKept(s: Server, ok: bool, seen: Option<nat>)
    requires ok ==> Open(s)
    ensures Kept(s, Finish(Record(s, if ok then seen else None), BindTask, ok))
  {
    hide Kept, Finish, Record, Unbound;
    var r := Record(s, if ok then seen else None);
    RecordKept(s, if ok then seen else None);
    FinishKept(r, BindTask, ok);
    KeptTrans(s, r, Finish(r, BindTask, ok));
  }

  lemma SmallStepKept(s: Server, a: Action)
    requires Enabled(s, a)
    requires a.ShutdownCallerCancelled? || a.DrainSkipped? || a.Adopt? || a.IdleObserved?
    ensures Kept(s, Do(s, a))
  {
    hide Enabled, Kept, CancelSessions, Finish, SetDrain, AdoptWork, SawIdle;
    match a
    case ShutdownCallerCancelled => CancelSessionsKept(s);
    case DrainSkipped =>
      SetDrainKept(s, NoDrain);
      FinishKept(SetDrain(s, NoDrain), StopTask, false);
      KeptTrans(s, SetDrain(s, NoDrain), Finish(SetDrain(s, NoDrain), StopTask, false));
    case Adopt(id, abandoned, name) => AdoptWorkKept(s, id, abandoned, name);
    case IdleObserved => SawIdleKept(s);
  }

  lemma SessionStepKept(s: Server, a: Action)
    requires Inv(s) && Enabled(s, a)
    requires a.HandlerStarted? || a.DecodeStarted? || a.TaskCancelled? || a.TaskFinished?
    ensures Kept(s, Do(s, a))
  {
    hide Inv, Enabled, Kept, Finish, NoteLate, NewTask, CancelTasks, TaskGone;
    NewTasksOnly(s, a);
    match a
    case HandlerStarted(id) =>
      NoteLateKept(s);
      NoteLateTasks(s);
      NewTaskKept(NoteLate(s), id, true);
      KeptTrans(s, NoteLate(s), NewTask(NoteLate(s), id, true));
    case DecodeStarted(_, id) => NewTaskKept(s, id, false);
    case TaskCancelled(id) => CancelTasksKept(s, {id});
    case TaskFinished(id) => TaskFinishedKept(s, id);
  }

  lemma NoteLateTasks(s: Server)
    ensures NoteLate(s).tasks == s.tasks && NoteLate(s).futs == s.futs
  {
  }

  lemma ThreadStepKept(s: Server, a: Action)
    requires Enabled(s, a) && (a.ThreadMarked? || a.StepMarked? || a.ThreadEnded?)
    ensures Kept(s, Do(s, a))
  {
    hide Enabled, Kept, NoteLate, SetThreads;
    match a
    case ThreadMarked(id) => SetThreadsKept(s, s.past.threads + {id});
    case StepMarked(_, id) =>
      NoteLateKept(s);
      SetThreadsKept(NoteLate(s), s.past.threads + {id});
      KeptTrans(s, NoteLate(s), SetThreads(NoteLate(s), s.past.threads + {id}));
    case ThreadEnded(id) => SetThreadsKept(s, s.past.threads - {id});
  }

  lemma TaskStepKept(s: Server, a: Action)
    requires Inv(s) && Enabled(s, a) && TaskSteps(a)
    ensures Kept(s, Do(s, a))
  {
    hide Inv, Enabled, Kept, Do;
    if a.ThreadMarked? || a.StepMarked? || a.ThreadEnded? { ThreadStepKept(s, a); } else { SessionStepKept(s, a); }
  }

  /** A number without a future is no task's. */
  lemma NewTasksOnly(s: Server, a: Action)
    requires Inv(s) && Enabled(s, a)
    ensures a.HandlerStarted? || a.DecodeStarted? ==> a.id !in s.tasks && Task(a.id) !in s.futs
  {
    hide Control;
    if a.HandlerStarted? || a.DecodeStarted? { assert Owed(s, Task(a.id)); }
  }

  lemma StartStepKept(s: Server, a: Action)
    requires Inv(s) && Enabled(s, a)
    requires a.LockRefused? || a.BackendStarted? || a.BackendFailed? || a.StartResumed? || a.StartCancelled?
             || a.BindFinished?
    ensures Kept(s, Do(s, a))
  {
    hide Inv, Kept, Unwind, BackendReturned, BindReturned, BindCancelled, Finish, Record;
    BoundHasSocket(s);
    match a
    case LockRefused(idle) => UnwindKept(s, false, idle);
    case BackendStarted => BackendReturnedKept(s);
    case BackendFailed(idle) => UnwindKept(s, false, idle);
    case StartResumed(seen) => BindReturnedKept(s, seen);
    case StartCancelled(seen) => BindCancelledKept(s, seen);
    case BindFinished(ok, seen) => BindFinishedKept(s, ok, seen);
  }

  lemma StopStepKept(s: Server, a: Action)
    requires Inv(s) && Enabled(s, a)
    requires a.ShutdownCall? || a.DrainStarted? || a.DrainResumed? || a.DrainCancelled?
    ensures Kept(s, Do(s, a))
  {
    hide Inv, Kept, Shutdown, DrainBegin, DrainResume, DrainFinish;
    match a
    case ShutdownCall => ShutdownKept(s);
    case DrainStarted => DrainBeginKept(s, false);
    case DrainResumed(idle) => DrainResumeKept(s, idle);
    case DrainCancelled(idle) => DrainFinishKept(s, idle);
  }

  lemma FutureStepKept(s: Server, a: Action)
    requires Inv(s) && Enabled(s, a)
    requires a.CallbackRan? || (a.Completed? && !a.k.Closer?)
    ensures Kept(s, Do(s, a))
  {
    hide Inv, Kept, Retire, Unbound, Complete, CallbackTaken;
    if a.CallbackRan? { CallbackKept(s, a.k, a.fails, a.seen); } else { CompletedKept(s, a.k, a.ok); }
  }

  /** The steps that do more to the lock or to the socket than a segment may. */
  predicate Odd(a: Action) { a.StartCall? || a.LockTaken? || a.SocketBound? || (a.Completed? && a.k.Closer?) }

  /** Only StartCall leaves a state without the lock, only LockTaken takes it,
      only SocketBound binds, and only the close itself ends a listener. */
  lemma StepKept(s: Server, a: Action)
    requires Inv(s) && Enabled(s, a) && !Odd(a)
    ensures Kept(s, Do(s, a))
  {
    hide Inv, Kept, Do, Enabled;
    match a
    case LockRefused(_) => StartStepKept(s, a);
    case BackendStarted => StartStepKept(s, a);
    case BackendFailed(_) => StartStepKept(s, a);
    case StartResumed(_) => StartStepKept(s, a);
    case StartCancelled(_) => StartStepKept(s, a);
    case BindFinished(_, _) => StartStepKept(s, a);
    case ShutdownCall => StopStepKept(s, a);
    case DrainStarted => StopStepKept(s, a);
    case DrainResumed(_) => StopStepKept(s, a);
    case DrainCancelled(_) => StopStepKept(s, a);
    case CallbackRan(_, _, _) => FutureStepKept(s, a);
    case Completed(_, _) => FutureStepKept(s, a);
    case _ => if TaskSteps(a) { TaskStepKept(s, a); } else { SmallStepKept(s, a); }
  }

  lemma CallbackTakenKept(s: Server, k: Key)
    requires IsDone(s, k)
    ensures Kept(s, CallbackTaken(s, k)) && (Open(s) ==> Open(CallbackTaken(s, k)))
  {
  }

  lemma CallbackKept(s: Server, k: Key, fails: bool, seen: Option<nat>)
    requires Inv(s) && IsDone(s, k)
    ensures Kept(s, Retire(CallbackTaken(s, k), k, s.futs[k].ok, fails, seen))
  {
    hide Inv, Kept, Retire, CallbackTaken, Open;
    BoundHasSocket(s);
    CallbackTakenIs(s, k);
    CallbackTakenKept(s, k);
    RetireKept(CallbackTaken(s, k), k, s.futs[k].ok, fails, seen);
    KeptTrans(s, CallbackTaken(s, k), Retire(CallbackTaken(s, k), k, s.futs[k].ok, fails, seen));
  }
}
