/** A server and its guarded backend together: the decode threads that the
    lifecycle counts are the ones that the guard marks. */
module DecodeThreads {
  import opened Wrappers
  import opened Lifecycle
  import opened LifecycleInvariant
  import G = DecodeGuard

  // ---------------------------------------------------------------- the hand-over misses nothing

  /** The hook's answer fits: a pending future exactly when a thread is in flight. */
  predicate Sees(s: Server, idle: bool) { idle <==> s.past.threads != {} }

  predicate Quiet(s: Server, t: Server) {
    && t.past.missed == s.past.missed && t.past.threads == s.past.threads && t.past.late == s.past.late
    && t.drainCloses == s.drainCloses
  }

  lemma EndWorkQuiet(s: Server, k: Key)
    ensures Quiet(s, EndWork(s, k))
  {
  }

  lemma SetDrainQuiet(s: Server, pc: DrainPc)
    ensures Quiet(s, SetDrain(s, pc))
  {
  }

  lemma TrackQuiet(s: Server, k: Key, kind: Kind, stuck: bool, closesOrphan: bool, name: Option<string>)
    ensures Quiet(s, Track(s, k, kind, stuck, closesOrphan, name))
  {
    hide Tracked;
  }

  lemma CancelSessionsQuiet(s: Server)
    ensures Quiet(s, CancelSessions(s))
  {
    hide CancelSessions;
    CancelSessionsFrame(s);
  }

  lemma EnsureBackendCloseQuiet(s: Server, due: bool, stuck: bool)
    ensures Quiet(s, EnsureBackendClose(s, due, stuck))
  {
    hide Tracked;
  }

  lemma HandOverQuiet(s: Server, idle: bool)
    requires Sees(s, idle)
    ensures Quiet(s, HandOverThreads(s, idle))
  {
  }

  lemma KeepLockQuiet(s: Server, idle: bool)
    requires Sees(s, idle)
    ensures Quiet(s, KeepLock(s, idle))
  {
    hide CancelSessions, EnsureBackendClose, HandOverThreads;
    CancelSessionsQuiet(s);
    EnsureBackendCloseQuiet(CancelSessions(s), s.drainCloses, true);
    HandOverQuiet(EnsureBackendClose(CancelSessions(s), s.drainCloses, true), idle);
  }

  lemma StartFinallyQuiet(s: Server)
    ensures Quiet(s, StartFinally(s))
  {
  }

  lemma FinishQuiet(s: Server, k: Key, ok: bool)
    ensures Quiet(s, Finish(s, k, ok))
  {
  }

  lemma DrainFinishQuiet(s: Server, idle: bool)
    requires Sees(s, idle)
    ensures Quiet(s, DrainFinish(s, idle))
  {
    hide KeepLock, EndWork, SetDrain, StartFinally, Finish;
    KeepLockQuiet(s, idle);
    SetDrainQuiet(KeepLock(s, idle), NoDrain);
    EndWorkQuiet(SetDrain(KeepLock(s, idle), NoDrain), DrainToken);
    StartFinallyQuiet(DrainEnded(s, idle));
    FinishQuiet(DrainEnded(s, idle), StopTask, true);
  }

  /** With a backend close to wait for, the drain does not end in this step. */
  lemma AfterCloserQuiet(s: Server, idle: bool)
    requires s.drainCloses || Sees(s, idle)
    ensures Quiet(s, AfterCloser(s, idle))
  {
    hide DrainFinish, SetDrain, EnsureBackendClose;
    if s.drainCloses {
      EnsureBackendCloseQuiet(s, true, false);
      SetDrainQuiet(EnsureBackendClose(s, true, false), WaitBackendClose);
    } else {
      DrainFinishQuiet(s, idle);
    }
  }

  lemma AfterSessionsQuiet(s: Server, idle: bool)
    requires s.drainCloses || Sees(s, idle)
    ensures Quiet(s, AfterSessions(s, idle))
  {
    hide AfterCloser, SetDrain;
    if s.listenerSlot { SetDrainQuiet(s, WaitCloser); } else { AfterCloserQuiet(s, idle); }
  }

  lemma ListenerCloseQuiet(s: Server, stuck: bool)
    ensures Quiet(s, BeginListenerClose(s, stuck))
  {
    hide BeginListenerClose;
    BeginListenerCloseIs(s, stuck);
  }

  lemma DrainFirstQuiet(s: Server, idle: bool)
    requires s.drainCloses || Sees(s, idle)
    ensures Quiet(s, DrainFirst(s, idle))
  {
    hide BeginListenerClose, AfterSessions, SetDrain, LiveSessions;
    ListenerCloseQuiet(s, false);
    SetDrainQuiet(CloseListener(s), WaitSessions(LiveSessions(s)));
    AfterSessionsQuiet(CloseListener(s), idle);
  }

  lemma EnterDrainQuiet(s: Server)
    ensures Quiet(s, EnterDrain(s))
  {
  }

  lemma DrainBeginQuiet(s: Server, idle: bool)
    requires s.drainCloses || Sees(s, idle)
    ensures Quiet(s, DrainBegin(s, idle))
  {
    hide EnterDrain, DrainFirst;
    EnterDrainQuiet(s);
    DrainFirstQuiet(EnterDrain(s), idle);
  }

  /** The same threads, and no thread newly missed or late. */
  predicate Calm(s: Server, t: Server) {
    t.past.missed == s.past.missed && t.past.threads == s.past.threads && t.past.late == s.past.late
  }

  lemma SetUnwindingCalm(s: Server, backendStarted: bool)
    ensures Calm(s, SetUnwinding(s, backendStarted)) && SetUnwinding(s, backendStarted).drainCloses == backendStarted
  {
  }

  lemma UnwindCalm(s: Server, backendStarted: bool, idle: bool)
    requires backendStarted || Sees(s, idle)
    ensures Calm(s, Unwind(s, backendStarted, idle))
  {
    hide SetUnwinding, DrainBegin;
    SetUnwindingCalm(s, backendStarted);
    DrainBeginQuiet(SetUnwinding(s, backendStarted), idle);
  }

  lemma CancelTasksQuiet(s: Server, ids: set<nat>)
    ensures Quiet(s, CancelTasks(s, ids))
  {
    hide Cancel;
  }

  lemma DrainResumeQuiet(s: Server, idle: bool)
    requires Sees(s, idle)
    ensures Quiet(s, DrainResume(s, idle))
  {
    hide AfterSessions, AfterCloser, DrainFinish, Track, StillRunning, CancelTasks, SetDrain;
    match s.drain
    case WaitSessions(pending) =>
      CancelTasksQuiet(s, StillRunning(s, pending));
      SetDrainQuiet(CancelTasks(s, StillRunning(s, pending)), WaitCancelled);
      AfterSessionsQuiet(s, idle);
    case WaitCancelled => AfterSessionsQuiet(s, idle);
    case WaitCloser =>
      TrackQuiet(s, Closer, ListenerCloseKind, true, false, None);
      AfterCloserQuiet(Linger(s, Closer, ListenerCloseKind), idle);
    case WaitBackendClose =>
      TrackQuiet(s, CloseTask, CloseKind, true, false, None);
      DrainFinishQuiet(Linger(s, CloseTask, CloseKind), idle);
    case _ =>
  }

  lemma AdoptListenerCalm(s: Server, seen: Option<nat>)
    ensures Calm(s, AdoptListener(s, seen))
  {
  }

  lemma AdoptedUnwindCalm(s: Server, seen: Option<nat>)
    ensures Calm(s, Unwind(AdoptIfBound(s, seen), true, false))
  {
    hide AdoptListener, Unwind;
    AdoptListenerCalm(s, seen);
    UnwindCalm(AdoptIfBound(s, seen), true, false);
  }

  lemma BindReturnedCalm(s: Server, seen: Option<nat>)
    ensures Calm(s, BindReturned(s, seen))
  {
    hide Unwind, StartSucceeded, AdoptIfBound;
    StartSucceededCalm(s, seen);
    AdoptedUnwindCalm(s, seen);
  }

  lemma StartSucceededCalm(s: Server, seen: Option<nat>)
    ensures Calm(s, StartSucceeded(s, seen))
  {
  }

  lemma AwaitAgainCalm(s: Server)
    ensures Calm(s, AwaitAgain(s))
  {
  }

  lemma BindCancelledCalm(s: Server, seen: Option<nat>)
    ensures Calm(s, BindCancelled(s, seen))
  {
    hide Unwind, AdoptIfBound, AwaitAgain, Track;
    AdoptedUnwindCalm(s, seen);
    AwaitAgainCalm(s);
    TrackQuiet(s, BindTask, BindKind, true, true, None);
    UnwindCalm(Track(s, BindTask, BindKind, true, true, None), true, false);
  }

  lemma BackendUpCalm(s: Server)
    ensures Calm(s, BackendUp(s))
  {
  }

  lemma AwaitingBindCalm(s: Server)
    ensures Calm(s, BackendUp(s).(start := AwaitBind))
  {
  }

  lemma BindBegunCalm(s: Server)
    ensures Calm(s, BindBegun(s))
  {
    hide Calm, TrackNew, BackendUp;
    AwaitingBindCalm(s);
    var t := BackendUp(s).(start := AwaitBind);
    TrackNewCalm(t, BindTask, BindKind, false, None);
    CalmTrans(s, t, BindBegun(s));
  }

  lemma BackendReturnedCalm(s: Server)
    ensures Calm(s, BackendReturned(s))
  {
    hide Unwind, BindBegun, BackendUp;
    BackendUpCalm(s);
    BindBegunCalm(s);
    UnwindCalm(BackendUp(s), true, false);
  }

  lemma ShutdownCalm(s: Server)
    ensures Calm(s, Shutdown(s))
  {
    hide TransitionIf, ScheduleDrain;
    TransitionCalm(ShutdownRequested(s), Stopped);
    TransitionCalm(ShutdownRequested(s), Stopping);
    ScheduleDrainCalm(ShutdownRequested(s));
  }

  lemma TransitionCalm(s: Server, to: State)
    ensures Calm(s, Transition(s, to))
  {
  }

  lemma ScheduleDrainCalm(s: Server)
    ensures Calm(s, ScheduleDrain(s))
  {
  }

  lemma CloseOrphanCalm(s: Server, ok: bool, seen: Option<nat>)
    ensures Calm(s, CloseOrphan(s, ok, seen))
  {
    hide BeginListenerClose;
    ListenerCloseQuiet(Record(s, seen), true);
  }

  lemma FailClosedCalm(s: Server, k: Key)
    requires k in s.ledger
    ensures Calm(s, FailClosed(s, k))
  {
  }

  lemma RetireCalm(s: Server, k: Key, ok: bool, fails: bool, seen: Option<nat>)
    ensures Calm(s, Retire(s, k, ok, fails, seen))
  {
    hide EndWork, CloseOrphan, FailClosed;
    EndWorkQuiet(s, k);
    CloseOrphanCalm(s, ok, seen);
    EndWorkQuiet(CloseOrphan(s, ok, seen), k);
    if k in s.ledger { FailClosedCalm(s, k); }
  }

  lemma CallbackTakenCalm(s: Server, k: Key)
    requires IsDone(s, k)
    ensures Calm(s, CallbackTaken(s, k))
  {
  }

  /** The hook's answer in a step (the other steps do not end a drain). */
  function Answer(a: Action): Option<bool> {
    match a
    case LockRefused(idle) => Some(idle)
    case BackendFailed(idle) => Some(idle)
    case DrainResumed(idle) => Some(idle)
    case DrainCancelled(idle) => Some(idle)
    case _ => None
  }

  predicate Answers(s: Server, a: Action) { Answer(a).Some? ==> Sees(s, Answer(a).value) }

  lemma StartStepCalm(s: Server, a: Action)
    requires Enabled(s, a) && Answers(s, a)
    requires a.StartCall? || a.LockTaken? || a.LockRefused? || a.BackendStarted? || a.BackendFailed?
          || a.StartResumed? || a.StartCancelled?
    ensures Calm(s, Do(s, a))
  {
    hide StartEntered, LockAcquired, Unwind, BackendReturned, BindReturned, BindCancelled, Calm;
    match a
    case StartCall => StartEnteredCalm(s);
    case LockTaken => LockAcquiredCalm(s);
    case LockRefused(idle) => UnwindCalm(s, false, idle);
    case BackendStarted => BackendReturnedCalm(s);
    case BackendFailed(idle) => UnwindCalm(s, false, idle);
    case StartResumed(seen) => BindReturnedCalm(s, seen);
    case StartCancelled(seen) => BindCancelledCalm(s, seen);
  }

  lemma StartEnteredCalm(s: Server)
    ensures Calm(s, StartEntered(s))
  {
  }

  lemma LockAcquiredCalm(s: Server)
    ensures Calm(s, LockAcquired(s))
  {
  }

  lemma StopStepCalm(s: Server, a: Action)
    requires Enabled(s, a) && Answers(s, a) && (s.drain.Scheduled? ==> s.drainCloses)
    requires a.ShutdownCall? || a.ShutdownCallerCancelled? || a.DrainStarted? || a.DrainSkipped?
          || a.DrainResumed? || a.DrainCancelled?
    ensures Calm(s, Do(s, a))
  {
    hide Shutdown, CancelSessions, DrainBegin, Finish, SetDrain, DrainResume, DrainFinish;
    match a
    case ShutdownCall => ShutdownCalm(s);
    case ShutdownCallerCancelled => CancelSessionsQuiet(s);
    case DrainStarted => DrainBeginQuiet(s, false);
    case DrainSkipped =>
      SetDrainQuiet(s, NoDrain);
      FinishQuiet(SetDrain(s, NoDrain), StopTask, false);
    case DrainResumed(idle) => DrainResumeQuiet(s, idle);
    case DrainCancelled(idle) => DrainFinishQuiet(s, idle);
  }

  lemma AdoptWorkCalm(s: Server, id: nat, abandoned: bool, name: string)
    ensures Calm(s, AdoptWork(s, id, abandoned, name))
  {
    hide Track, TrackNew;
    TrackQuiet(s, Adopted(id), AdoptedKind, abandoned, false, Some(name));
    TrackNewCalm(s, Adopted(id), AdoptedKind, abandoned, Some(name));
  }

  lemma TrackNewCalm(s: Server, k: Key, kind: Kind, stuck: bool, name: Option<string>)
    ensures Calm(s, TrackNew(s, k, kind, stuck, name))
  {
  }

  lemma SetSockCalm(s: Server, sock: Sock)
    ensures Calm(s, SetSock(s, sock))
  {
  }

  lemma RecordCalm(s: Server, seen: Option<nat>)
    ensures Calm(s, Record(s, seen))
  {
  }

  lemma SawIdleCalm(s: Server)
    ensures Calm(s, SawIdle(s))
  {
  }

  lemma TaskGoneCalm(s: Server, id: nat)
    ensures Calm(s, TaskGone(s, id))
  {
  }

  lemma FutureStepCalm(s: Server, a: Action)
    requires Enabled(s, a)
    requires a.SocketBound? || a.BindFinished? || a.Completed? || a.IdleObserved? || a.TaskCancelled? || a.TaskFinished?
    ensures Calm(s, Do(s, a))
  {
    hide Enabled, Calm, CancelTasks, SetSock, Record, SawIdle, TaskGone, Finish, Complete;
    match a
    case SocketBound => SetSockCalm(s, Serving);
    case BindFinished(ok, seen) =>
      RecordCalm(s, if ok then seen else None);
      FinishCalm(Record(s, if ok then seen else None), BindTask, ok);
      CalmTrans(s, Record(s, if ok then seen else None), Do(s, a));
    case Completed(k, ok) => CompleteCalm(s, k, ok);
    case IdleObserved => SawIdleCalm(s);
    case TaskCancelled(id) => CancelTasksCalm(s, {id});
    case TaskFinished(id) =>
      TaskGoneCalm(s, id);
      FinishCalm(TaskGone(s, id), Task(id), true);
      CalmTrans(s, TaskGone(s, id), Do(s, a));
  }

  lemma CalmTrans(s: Server, t: Server, u: Server)
    requires Calm(s, t) && Calm(t, u)
    ensures Calm(s, u)
  {
  }

  lemma FinishCalm(s: Server, k: Key, ok: bool)
    ensures Calm(s, Finish(s, k, ok))
  {
  }

  lemma CancelTasksCalm(s: Server, ids: set<nat>)
    ensures Calm(s, CancelTasks(s, ids))
  {
    hide Cancel;
  }

  lemma CompleteCalm(s: Server, k: Key, ok: bool)
    ensures Calm(s, Complete(s, k, ok))
  {
    hide SetSock, Finish;
    SetSockCalm(s, Closed);
    FinishQuiet(SetSock(s, Closed), k, ok);
    FinishQuiet(s, k, ok);
  }

  lemma WorkStepCalm(s: Server, a: Action)
    requires Enabled(s, a)
    requires a.Adopt? || a.CallbackRan? || a.DecodeStarted?
    ensures Calm(s, Do(s, a))
  {
    hide Retire, AdoptWork, CallbackTaken, NewTask;
    if a.DecodeStarted? { NewTaskCalm(s, a.id, false); }
    if a.CallbackRan? {
      CallbackTakenCalm(s, a.k);
      RetireCalm(CallbackTaken(s, a.k), a.k, s.futs[a.k].ok, a.fails, a.seen);
    } else if a.Adopt? {
      AdoptWorkCalm(s, a.id, a.abandoned, a.name);
    }
  }

  lemma ScheduledCloses(s: Server)
    requires Inv(s)
    ensures s.drain.Scheduled? ==> s.drainCloses
  {
  }

  /** The steps that move the decode threads or take in a session. */
  predicate Stirs(a: Action) { a.HandlerStarted? || a.ThreadMarked? || a.StepMarked? || a.ThreadEnded? }

  lemma StepCalm(s: Server, a: Action)
    requires Inv(s) && Enabled(s, a) && Answers(s, a) && !Stirs(a)
    ensures Calm(s, Do(s, a))
  {
    hide Inv, Do, Enabled, Answers, Calm;
    ScheduledCloses(s);
    if a.ShutdownCall? || a.ShutdownCallerCancelled? || a.DrainStarted? || a.DrainSkipped? || a.DrainResumed?
       || a.DrainCancelled? { StopStepCalm(s, a); }
    else if a.SocketBound? || a.BindFinished? || a.Completed? || a.IdleObserved?
         || a.TaskCancelled? || a.TaskFinished? {
      FutureStepCalm(s, a);
    } else if a.Adopt? || a.CallbackRan? || a.DecodeStarted? { WorkStepCalm(s, a); }
    else { StartStepCalm(s, a); }
  }

  /** A session that arrives, or a decode that an adopted step marks. */
  predicate Newcomer(a: Action) { a.HandlerStarted? || a.StepMarked? }

  function ThreadsAfter(s: Server, a: Action): set<nat> {
    match a
    case ThreadMarked(id) => s.past.threads + {id}
    case StepMarked(_, id) => s.past.threads + {id}
    case ThreadEnded(id) => s.past.threads - {id}
    case _ => s.past.threads
  }

  /** A hook that answers truly misses no thread, and `late` records exactly the
      newcomers after a drain. */
  predicate Follows(s: Server, a: Action, t: Server) {
    && t.past.missed == s.past.missed && t.past.threads == ThreadsAfter(s, a)
    && t.past.late == (s.past.late || (Newcomer(a) && s.past.drained))
  }

  lemma StirsFollow(s: Server, a: Action)
    requires Enabled(s, a) && Stirs(a)
    ensures Follows(s, a, Do(s, a))
  {
    hide Enabled, Follows, NoteLate, SetThreads, NewTask;
    match a
    case HandlerStarted(id) => HandlerFollows(s, id);
    case ThreadMarked(id) => ThreadsFollow(s, a);
    case StepMarked(step, id) => StepMarkFollows(s, step, id);
    case ThreadEnded(id) => ThreadsFollow(s, a);
  }

  lemma HandlerFollows(s: Server, id: nat)
    ensures Follows(s, HandlerStarted(id), NewTask(NoteLate(s), id, true))
  {
    hide NewTask, NoteLate;
    NoteLateThreads(s);
    NewTaskCalm(NoteLate(s), id, true);
  }

  lemma StepMarkFollows(s: Server, step: nat, id: nat)
    ensures Follows(s, StepMarked(step, id), SetThreads(NoteLate(s), s.past.threads + {id}))
  {
    hide SetThreads, NoteLate;
    NoteLateThreads(s);
    SetThreadsOnly(NoteLate(s), s.past.threads + {id});
  }

  lemma ThreadsFollow(s: Server, a: Action)
    requires !Newcomer(a)
    ensures Follows(s, a, SetThreads(s, ThreadsAfter(s, a)))
  {
    hide SetThreads;
    SetThreadsOnly(s, ThreadsAfter(s, a));
  }

  lemma NoteLateThreads(s: Server)
    ensures var t := NoteLate(s);
            t.past.threads == s.past.threads && t.past.missed == s.past.missed
            && t.past.late == (s.past.late || s.past.drained)
  {
  }

  lemma SetThreadsOnly(s: Server, threads: set<nat>)
    ensures var t := SetThreads(s, threads);
            t.past.threads == threads && t.past.missed == s.past.missed
            && t.past.late == s.past.late
  {
  }

  lemma NewTaskCalm(s: Server, id: nat, handler: bool)
    ensures Calm(s, NewTask(s, id, handler))
  {
  }

  lemma StepFollows(s: Server, a: Action)
    requires Inv(s) && Enabled(s, a) && Answers(s, a)
    ensures Follows(s, a, Do(s, a))
  {
    hide Inv, Enabled, Do, Answers;
    if Stirs(a) { StirsFollow(s, a); } else { StepCalm(s, a); }
  }

  // ---------------------------------------------------------------- server and backend together

  datatype Joint = Joint(server: Server, guard: G.Backend)

  /** Whose `end()` it is that runs a stream's decode: a session's decode task
      (with the stream's own number), or a step that was adopted, such as the
      readiness step that warms the backend up. */
  datatype Owner = DecodeTask | AdoptedStep(step: nat)

  /** `ServerStep` covers every action but the four below; `Granted` and
      `Ended` move both sides; `GuardStep` covers the rest of the guard. */
  datatype Event =
    | ServerStep(a: Action)
    | Granted(i: nat, starts: bool, owner: Owner)
    | Ended(i: nat)
    | GuardStep(e: G.Event)

  function MarkOf(i: nat, owner: Owner): Action {
    match owner
    case DecodeTask => ThreadMarked(i)
    case AdoptedStep(step) => StepMarked(step, i)
  }

  /** The owner of the stream's `end()` runs (so no cancel was delivered to it)
      when its decode is marked. */
  predicate Possible(j: Joint, e: Event) {
    match e
    case ServerStep(a) =>
      && Enabled(j.server, a) && !a.ThreadMarked? && !a.StepMarked? && !a.ThreadEnded?
      && (a.IdleObserved? ==> j.guard.count == 0)
      && (Answer(a).Some? ==> (Answer(a).value <==> j.guard.count != 0))
    case Granted(i, starts, owner) =>
      && G.Possible(j.guard, G.LoopLockGranted(i, starts))
      && (G.Marks(j.guard, G.LoopLockGranted(i, starts)) ==> Enabled(j.server, MarkOf(i, owner)))
    case Ended(i) => G.Possible(j.guard, G.ThreadEnds(i)) && Enabled(j.server, ThreadEnded(i))
    case GuardStep(e) => G.Possible(j.guard, e) && !e.LoopLockGranted? && !e.ThreadEnds?
  }

  function Next(j: Joint, e: Event): Joint
    requires Possible(j, e)
  {
    match e
    case ServerStep(a) => j.(server := Do(j.server, a))
    case Granted(i, starts, owner) =>
      var guard := G.Next(j.guard, G.LoopLockGranted(i, starts));
      Joint(if G.Marks(j.guard, G.LoopLockGranted(i, starts)) then Do(j.server, MarkOf(i, owner)) else j.server, guard)
    case Ended(i) => Joint(Do(j.server, ThreadEnded(i)), G.Next(j.guard, G.ThreadEnds(i)))
    case GuardStep(e) => j.(guard := G.Next(j.guard, e))
  }

  ghost predicate JointInv(j: Joint) {
    Inv(j.server) && G.Inv(j.guard) && j.server.past.threads == G.Marked(j.guard) && !j.server.past.missed
  }

  lemma CountIsThreads(j: Joint)
    requires JointInv(j)
    ensures j.guard.count == |j.server.past.threads| && (j.guard.count != 0 <==> j.server.past.threads != {})
  {
    hide Inv, G.Linked, G.Marked;
  }

  lemma ServerStepJoint(j: Joint, a: Action)
    requires JointInv(j) && Possible(j, ServerStep(a))
    ensures JointInv(Next(j, ServerStep(a)))
  {
    hide Inv, Do, Enabled, G.Inv, G.Marked;
    CountIsThreads(j);
    StepInv(j.server, a);
    StepFollows(j.server, a);
  }

  lemma GrantedJoint(j: Joint, i: nat, starts: bool, owner: Owner)
    requires JointInv(j) && Possible(j, Granted(i, starts, owner))
    ensures JointInv(Next(j, Granted(i, starts, owner)))
  {
    hide Inv, Do, Enabled, G.Linked, G.Marked, G.Marks, G.Next, G.Possible;
    var e := G.LoopLockGranted(i, starts);
    G.NextInv(j.guard, e);
    G.MarkedAfter(j.guard, e);
    if G.Marks(j.guard, e) {
      StepInv(j.server, MarkOf(i, owner));
      StepFollows(j.server, MarkOf(i, owner));
      MarksNumber(j.guard, e);
    }
  }

  lemma MarksNumber(b: G.Backend, e: G.Event)
    requires G.Marks(b, e)
    ensures e.LoopLockGranted?
  {
  }

  lemma EndedJoint(j: Joint, i: nat)
    requires JointInv(j) && Possible(j, Ended(i))
    ensures JointInv(Next(j, Ended(i)))
  {
    hide Inv, Do, Enabled, G.Linked, G.Marked, G.Next, G.Possible;
    var e := G.ThreadEnds(i);
    G.NextInv(j.guard, e);
    G.MarkedAfter(j.guard, e);
    StepInv(j.server, ThreadEnded(i));
    StepFollows(j.server, ThreadEnded(i));
  }

  lemma GuardJoint(j: Joint, e: G.Event)
    requires JointInv(j) && Possible(j, GuardStep(e))
    ensures JointInv(Next(j, GuardStep(e)))
  {
    hide Inv, G.Linked, G.Marked, G.Next, G.Possible;
    G.NextInv(j.guard, e);
    G.MarkedAfter(j.guard, e);
  }

  lemma NextJoint(j: Joint, e: Event)
    requires JointInv(j) && Possible(j, e)
    ensures JointInv(Next(j, e))
  {
    hide JointInv, Possible, Next;
    match e
    case ServerStep(a) => ServerStepJoint(j, a);
    case Granted(i, starts, owner) => GrantedJoint(j, i, starts, owner);
    case Ended(i) => EndedJoint(j, i);
    case GuardStep(e) => GuardJoint(j, e);
  }

  ghost predicate Run(js: seq<Joint>, es: seq<Event>) {
    && |js| == |es| + 1 && js[0] == Joint(Initial, G.Fresh)
    && forall k :: 0 <= k < |es| ==> Possible(js[k], es[k]) && js[k + 1] == Next(js[k], es[k])
  }

  lemma {:induction false} RunInv(js: seq<Joint>, es: seq<Event>, k: nat)
    requires Run(js, es) && k < |js|
    ensures JointInv(js[k])
  {
    if k == 0 {
      InitialInv();
      assert G.Marked(G.Fresh) == {};
      hide Inv;
    } else {
      hide JointInv, Possible, Next;
      RunInv(js, es, k - 1);
      NextJoint(js[k - 1], es[k - 1]);
    }
  }

  /** After the drain of its attempt ended, a session is accepted or an adopted
      step marks a decode. */
  ghost predicate LateArrival(j: Joint, e: Event) {
    && j.server.past.drained
    && match e
       case ServerStep(a) => a.HandlerStarted?
       case Granted(i, starts, owner) => owner.AdoptedStep? && G.Marks(j.guard, G.LoopLockGranted(i, starts))
       case _ => false
  }

  lemma LateStep(j: Joint, e: Event)
    requires JointInv(j) && Possible(j, e)
    ensures Next(j, e).server.past.late <==> j.server.past.late || LateArrival(j, e)
  {
    hide Inv, Do, Enabled, G.Inv, G.Marked, G.Marks, G.Next, G.Possible;
    match e
    case ServerStep(a) =>
      CountIsThreads(j);
      StepFollows(j.server, a);
    case Granted(i, starts, owner) =>
      if G.Marks(j.guard, G.LoopLockGranted(i, starts)) { StepFollows(j.server, MarkOf(i, owner)); }
    case Ended(i) => StepFollows(j.server, ThreadEnded(i));
    case GuardStep(_) =>
  }

  lemma {:induction false} NotLate(js: seq<Joint>, es: seq<Event>, k: nat)
    requires Run(js, es) && k < |js|
    requires forall m :: 0 <= m < k ==> !LateArrival(js[m], es[m])
    ensures !js[k].server.past.late
  {
    hide JointInv, Possible, Next, LateArrival;
    if k > 0 {
      RunInv(js, es, k - 1);
      NotLate(js, es, k - 1);
      LateStep(js[k - 1], es[k - 1]);
    }
  }

  /** A decode thread never outlives its server's lock: while the backend's
      counter is not zero, the server holds the lock, through client cancels,
      drains, swallowed cancels and the `idle()` hand-over, whoever started the
      decode: as long as, after its attempt's drain had ended, no session was
      accepted and no adopted step marked a decode. */
  lemma ThreadsKeepTheLock(js: seq<Joint>, es: seq<Event>, k: nat)
    requires Run(js, es) && k < |js| && js[k].guard.count != 0
    requires forall m :: 0 <= m < k ==> !LateArrival(js[m], es[m])
    ensures js[k].server.lock
  {
    hide Inv, Possible, Next, LateArrival;
    NotLate(js, es, k);
    RunInv(js, es, k);
    CountIsThreads(js[k]);
    ThreadHoldsLock(js[k].server);
  }

  /** What is marked while the server is RUNNING is never late. */
  lemma RunningIsNotLate(j: Joint, e: Event)
    requires JointInv(j) && j.server.state.Running?
    ensures !LateArrival(j, e)
  {
    hide G.Inv, G.Marked, G.Marks;
  }

  lemma ThreadHoldsLock(s: Server)
    requires Inv(s) && s.past.threads != {} && !s.past.late && !s.past.missed
    ensures s.lock
  {
  }

  /** The one way to such a session: the listener of a bind that its `start()`
      gave up on, between the drain and that bind's own cleanup, or a listener
      whose close has begun but not finished. */
  lemma LateSessionsComeFromOrphans(s: Server, a: Action)
    requires Inv(s) && Enabled(s, a) && a.HandlerStarted? && s.past.drained
    ensures s.sock.Closing? || (BindTask in s.ledger && (s.ledger[BindTask].closesOrphan || FailedClosed(s)))
  {
  }
}
