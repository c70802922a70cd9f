/** One server's lifecycle: the state machine, the live-work ledger and every
    code segment between two awaits, as pure functions on one value.

    `Server` holds the fields of the source's `TranscriptionServer` together
    with what its event loop and its libraries know (which futures are done,
    which callbacks are queued, what the listening socket does, which session
    tasks and decode threads exist). An `Action` is one atomic step: a segment
    of the server's own code, or a step of its environment.

    The class in LiveWork.dfy updates the same fields in place and
    is proved against these functions. */
module Lifecycle {
  import opened Wrappers

  datatype State = New | Starting | Running | Stopping | Stopped

  /** The transition table. */
  predicate Legal(from: State, to: State) {
    match from
    case New => to.Starting? || to.Stopped?
    case Starting => to.Running? || to.New? || to.Stopping?
    case Running => to.Stopping?
    case Stopping => to.Stopped?
    case Stopped => false
  }

  /** Entering one of these states releases the lock. */
  predicate Frees(state: State) { state.New? || state.Stopped? }

  predicate Adoptable(state: State) { state.Starting? || state.Running? || state.Stopping? }

  datatype Kind = ListenerKind | SessionKind | StepKind | CloseKind
                | BindKind | ListenerCloseKind | AdoptedKind | ThreadKind

  /** What a ledger entry is about. `StartToken`, `DrainToken` and `Listener`
      are plain keys; the others are futures. */
  datatype Key = StartToken | DrainToken | Listener
               | StopTask | BindTask | Closer | CloseTask | IdleFuture
               | Task(id: nat) | Adopted(id: nat)

  /** A ledger entry. `closesOrphan` is the one cleanup the source attaches
      (`then`): close the listener of a bind its start gave up on. */
  datatype Work = Work(kind: Kind, stuck: bool, closesOrphan: bool, name: Option<string>)

  /** A future as the event loop sees it; `queued`: its `_retire` callback has
      not run yet. */
  datatype Fut = Pending | Done(ok: bool, queued: bool)

  /** Where `start()` waits. */
  datatype StartPc = Idle | Acquiring | AwaitBackend | AwaitBind | AwaitBindAgain | Unwinding

  /** Where the drain waits (a failed start's own, or the stop task's). */
  datatype DrainPc = NoDrain | Scheduled
                   | WaitSessions(pending: set<nat>) | WaitCancelled | WaitCloser | WaitBackendClose

  /** The listening socket of this attempt. */
  datatype Sock = NoSock | Serving | Closing | Closed

  /** A session handler or decode task that has not finished. */
  datatype TaskInfo = TaskInfo(handler: bool, cancelled: bool)

  /** The decode threads in flight, what the hook's waiter saw, and the history. */
  datatype Past = Past(
    threads: set<nat>,
    idleSeen: bool,
    raised: bool,      // a RuntimeError left `_transition`
    backendUp: bool,   // `backend.start()` returned in this attempt
    closes: nat,       // `backend.close()` calls in this attempt
    drained: bool,     // this attempt's drain ran to its end
    late: bool,        // a session was accepted, or an adopted step marked a decode,
                       // after its attempt's drain ended
    missed: bool)      // a drain's hand-over did not see a decode thread

  const NoPast := Past({}, false, false, false, 0, false, false, false)

  datatype Server = Server(
    // the server's own fields
    state: State,
    lock: bool,
    unlocked: bool,
    shutdownRequested: bool,
    ledger: map<Key, Work>,
    listenerSlot: bool,
    boundInode: Option<nat>,
    closeSlot: bool,
    stopSlot: bool,
    shutdownEvent: bool,
    // where its coroutines wait
    start: StartPc,
    drain: DrainPc,
    drainCloses: bool,
    // its environment
    futs: map<Key, Fut>,
    sock: Sock,
    tasks: map<nat, TaskInfo>,
    // decode threads and history
    past: Past)

  const Initial := Server(New, false, true, false, map[], false, None, false, false, false,
                          Idle, NoDrain, false, map[], NoSock, map[], NoPast)

  // ---------------------------------------------------------------- ledger

  predicate IsDone(s: Server, k: Key) { k in s.futs && s.futs[k].Done? }

  predicate IsPending(s: Server, k: Key) { k in s.futs && s.futs[k].Pending? }

  /** The listener bind finished and bound a socket. */
  predicate Bound(s: Server) { IsDone(s, BindTask) && s.futs[BindTask].ok }

  predicate Allowed(s: Server, to: State) { Legal(s.state, to) && (Frees(to) ==> s.ledger == map[]) }

  /** `_transition`, when `go`: the only place the lock is released. An illegal
      or refused transition raises: nothing but the history changes. Entering
      NEW also clears every slot of the attempt (`_reset_attempt`). */
  function TransitionIf(s: Server, go: bool, to: State): Server { Entered(s, go, go && Allowed(s, to), to) }

  function Entered(s: Server, go: bool, legal: bool, to: State): Server {
    var resets := legal && to.New?;
    s.(past := s.past.(raised := s.past.raised || (go && !legal)),
       state := if legal then to else s.state,
       lock := s.lock && !(legal && Frees(to)),
       unlocked := if legal then Frees(to) else s.unlocked,
       listenerSlot := s.listenerSlot && !resets,
       boundInode := if resets then None else s.boundInode,
       closeSlot := s.closeSlot && !resets,
       stopSlot := s.stopSlot && !resets,
       shutdownEvent := s.shutdownEvent && !resets)
  }

  function Transition(s: Server, to: State): Server { TransitionIf(s, true, to) }

  /** STOPPING becomes STOPPED as soon as no live work remains. */
  function Settle(s: Server): Server { TransitionIf(s, s.state.Stopping? && s.ledger == map[], Stopped) }

  function Without(s: Server, k: Key): Server { s.(ledger := s.ledger - {k}) }

  function EndWork(s: Server, k: Key): Server { Settle(Without(s, k)) }

  /** `_hand_off(None, k, kind)` for a plain key, a new object each time. */
  function Register(s: Server, k: Key, kind: Kind): Server {
    s.(ledger := s.ledger[k := Work(kind, false, false, None)])
  }

  /** A future is created and tracked in the same step. */
  function TrackNew(s: Server, k: Key, kind: Kind, stuck: bool, name: Option<string>): Server {
    s.(futs := s.futs[k := Pending], ledger := s.ledger[k := Work(kind, stuck, false, name)])
  }

  /** The ledger after `_track` of a future that may be in it already, or done. */
  function Tracked(s: Server, k: Key, kind: Kind, stuck: bool, closesOrphan: bool, name: Option<string>)
      : map<Key, Work> {
    if IsDone(s, k) then s.ledger
    else
      var w := if k in s.ledger then s.ledger[k] else Work(kind, false, false, name);
      s.ledger[k := w.(stuck := w.stuck || stuck, closesOrphan := w.closesOrphan || closesOrphan)]
  }

  function Track(s: Server, k: Key, kind: Kind, stuck: bool, closesOrphan: bool, name: Option<string>): Server {
    s.(ledger := Tracked(s, k, kind, stuck, closesOrphan, name))
  }

  function Linger(s: Server, k: Key, kind: Kind): Server { Track(s, k, kind, true, false, None) }

  /** `_begin_listener_close`: the successor (the close) enters the ledger
      before the predecessor (the bound listener) leaves it. */
  function BeginListenerClose(s: Server, stuck: bool): Server {
    EndWork(TrackNew(SetSock(s, Closing), Closer, ListenerCloseKind, stuck, None), Listener)
  }

  function SetSock(s: Server, sock: Sock): Server { s.(sock := sock) }

  function Record(s: Server, seen: Option<nat>): Server {
    s.(boundInode := if seen.Some? then seen else s.boundInode)
  }

  /** `_close_orphan_listener`, as the bind's own cleanup. */
  function CloseOrphan(s: Server, ok: bool, seen: Option<nat>): Server {
    if ok then BeginListenerClose(Record(s, seen), true) else s
  }

  /** A cleanup that raised: its entry stays. */
  function FailClosed(s: Server, k: Key): Server
    requires k in s.ledger
  {
    s.(ledger := s.ledger[k := s.ledger[k].(stuck := true, closesOrphan := false)])
  }

  /** `_retire`: run the cleanup, and only then drop the entry. A cleanup that
      raises (`fails`) keeps the entry for good. */
  function Retire(s: Server, k: Key, ok: bool, fails: bool, seen: Option<nat>): Server {
    if k in s.ledger && s.ledger[k].closesOrphan then
      if ok && fails then FailClosed(s, k)
      else EndWork(CloseOrphan(s, ok, seen), k)
    else EndWork(s, k)
  }

  function SetLedger(s: Server, ledger: map<Key, Work>): Server { s.(ledger := ledger) }

  /** `_track(fut, kind, then=...)` of a future that is already done: the
      cleanup runs now, through `_retire`. The server itself never does that. */
  function TrackFinished(s: Server, k: Key, kind: Kind, fails: bool, seen: Option<nat>): Server
    requires IsDone(s, k)
  {
    var w := if k in s.ledger then s.ledger[k] else Work(kind, false, false, None);
    Retire(SetLedger(s, s.ledger[k := w.(closesOrphan := true)]), k, s.futs[k].ok, fails, seen)
  }

  /** A completed future: its callback is queued when the ledger tracks it. */
  function Finish(s: Server, k: Key, ok: bool): Server {
    s.(futs := s.futs[k := Done(ok, k in s.ledger)])
  }

  // ---------------------------------------------------------------- sessions

  /** `_sessions`: the session and decode tasks in the ledger that are not done. */
  function LiveSessions(s: Server): set<nat> {
    set k | k in s.ledger && k.Task? && s.ledger[k].kind.SessionKind? && !IsDone(s, k) :: k.id
  }

  function Cancel(tasks: map<nat, TaskInfo>, ids: set<nat>): map<nat, TaskInfo> {
    map id | id in tasks :: if id in ids then tasks[id].(cancelled := true) else tasks[id]
  }

  function CancelTasks(s: Server, ids: set<nat>): Server { s.(tasks := Cancel(s.tasks, ids)) }

  /** `_cancel_sessions`: cancel every live session and mark it stuck. */
  function CancelSessions(s: Server): Server {
    var live := LiveSessions(s);
    s.(tasks := Cancel(s.tasks, live),
       ledger := map k | k in s.ledger ::
                   if k.Task? && k.id in live then s.ledger[k].(stuck := true) else s.ledger[k])
  }

  // ---------------------------------------------------------------- drain

  /** The backend's `close()` is begun when it is due and was not begun yet,
      and marked when it was (`stuck`). */
  function EnsureBackendClose(s: Server, due: bool, stuck: bool): Server {
    var begins := due && !s.closeSlot;
    s.(closeSlot := s.closeSlot || begins,
       past := if begins then s.past.(closes := s.past.closes + 1) else s.past,
       futs := if begins then s.futs[CloseTask := Pending] else s.futs,
       ledger := if begins then s.ledger[CloseTask := Work(CloseKind, stuck, false, None)]
                 else if s.closeSlot && stuck then Tracked(s, CloseTask, CloseKind, true, false, None)
                 else s.ledger)
  }

  /** The `idle()` hook: `idle` when it returned a future that is not done. */
  function HandOverThreads(s: Server, idle: bool): Server {
    s.(futs := if idle then s.futs[IdleFuture := Pending] else s.futs,
       ledger := if idle then s.ledger[IdleFuture := Work(ThreadKind, true, false, None)] else s.ledger,
       past := s.past.(drained := true, idleSeen := s.past.idleSeen && !idle,
                       missed := s.past.missed || (!idle && s.past.threads != {})))
  }

  /** `_keep_lock_for_leftover_work`: a drain cut short before the backend's
      `close()` still starts it. */
  function KeepLock(s: Server, idle: bool): Server {
    HandOverThreads(EnsureBackendClose(CancelSessions(s), s.drainCloses, true), idle)
  }

  function StartLeft(s: Server): Server { s.(start := Idle, ledger := s.ledger - {StartToken}) }

  /** Whether and where `start()` moves when it ends without RUNNING. */
  predicate StartMoves(s: Server) { s.state.Starting? || (s.state.Stopping? && s.ledger == map[]) }

  function StartOutcome(s: Server): State {
    if !s.state.Starting? then Stopped else if s.ledger != map[] then Stopping else New
  }

  /** The `finally` of `start()`. */
  function StartFinally(s: Server): Server {
    TransitionIf(StartLeft(s), StartMoves(StartLeft(s)), StartOutcome(StartLeft(s)))
  }

  /** The `finally` of `_drain`, and what its owner does next in that step. */
  function DrainFinish(s: Server, idle: bool): Server {
    if s.start.Unwinding? then StartFinally(DrainEnded(s, idle)) else Finish(DrainEnded(s, idle), StopTask, true)
  }

  function DrainEnded(s: Server, idle: bool): Server {
    EndWork(SetDrain(KeepLock(s, idle), NoDrain), DrainToken)
  }

  /** `_close_backend` up to its wait. */
  function CloseBackend(s: Server): Server { SetDrain(EnsureBackendClose(s, true, false), WaitBackendClose) }

  function AfterCloser(s: Server, idle: bool): Server {
    if s.drainCloses then CloseBackend(s) else DrainFinish(s, idle)
  }

  function SetDrain(s: Server, pc: DrainPc): Server { s.(drain := pc) }

  function AfterSessions(s: Server, idle: bool): Server {
    if s.listenerSlot then SetDrain(s, WaitCloser) else AfterCloser(s, idle)
  }

  function EnterDrain(s: Server): Server {
    Register(s.(shutdownEvent := true, drain := WaitSessions({})), DrainToken, StepKind)
  }

  /** `_close_listener`. */
  function CloseListener(s: Server): Server {
    if s.listenerSlot then BeginListenerClose(s, false) else s
  }

  /** `_drain_and_close` up to its first wait. */
  function DrainFirst(s: Server, idle: bool): Server {
    if LiveSessions(s) != {} then SetDrain(CloseListener(s), WaitSessions(LiveSessions(s)))
    else AfterSessions(CloseListener(s), idle)
  }

  /** `_drain` up to its first wait. */
  function DrainBegin(s: Server, idle: bool): Server { DrainFirst(EnterDrain(s), idle) }

  function SetUnwinding(s: Server, backendStarted: bool): Server {
    s.(start := Unwinding, drainCloses := backendStarted)
  }

  /** `_unwind_failed_start`. */
  function Unwind(s: Server, backendStarted: bool, idle: bool): Server {
    DrainBegin(SetUnwinding(s, backendStarted), idle)
  }

  function StillRunning(s: Server, pending: set<nat>): set<nat> {
    set id | id in pending && !IsDone(s, Task(id))
  }

  /** The sessions still running when the drain's bound passed are cancelled. */
  function AfterDrainTimeout(s: Server, still: set<nat>, idle: bool): Server {
    if still != {} then SetDrain(CancelTasks(s, still), WaitCancelled) else AfterSessions(s, idle)
  }

  /** One wait of the drain returned: everything it waited for is done, or its
      bound passed. */
  function DrainResume(s: Server, idle: bool): Server {
    match s.drain
    case WaitSessions(pending) => AfterDrainTimeout(s, StillRunning(s, pending), idle)
    case WaitCancelled => AfterSessions(s, idle)
    case WaitCloser => AfterCloser(Linger(s, Closer, ListenerCloseKind), idle)
    case WaitBackendClose => DrainFinish(Linger(s, CloseTask, CloseKind), idle)
    case _ => s
  }

  // ---------------------------------------------------------------- steps

  datatype Action =
    // start()
    | StartCall
    | LockTaken
    | LockRefused(idle: bool)
    | BackendStarted
    | BackendFailed(idle: bool)
    | SocketBound
    | BindFinished(ok: bool, seen: Option<nat>)
    | StartResumed(seen: Option<nat>)
    | StartCancelled(seen: Option<nat>)
    // shutdown() and the drain
    | ShutdownCall
    | ShutdownCallerCancelled
    | DrainStarted
    | DrainSkipped
    | DrainResumed(idle: bool)
    | DrainCancelled(idle: bool)
    // adopted work, futures and their callbacks
    | Adopt(id: nat, abandoned: bool, name: string)
    | Completed(k: Key, ok: bool)
    | IdleObserved
    | CallbackRan(k: Key, fails: bool, seen: Option<nat>)
    // sessions and decode threads
    | HandlerStarted(id: nat)
    | DecodeStarted(parent: nat, id: nat)
    | TaskCancelled(id: nat)
    | TaskFinished(id: nat)
    | ThreadMarked(id: nat)               // by a decode task
    | StepMarked(step: nat, id: nat)      // by an adopted step
    | ThreadEnded(id: nat)

  /** The steps of sessions, decodes and their threads. */
  predicate TaskSteps(a: Action) {
    || a.HandlerStarted? || a.DecodeStarted? || a.TaskCancelled? || a.TaskFinished?
    || a.ThreadMarked? || a.StepMarked? || a.ThreadEnded?
  }

  predicate AwaitsBind(s: Server) { s.start.AwaitBind? || s.start.AwaitBindAgain? }

  predicate DrainWaits(s: Server) {
    s.drain.WaitSessions? || s.drain.WaitCancelled? || s.drain.WaitCloser? || s.drain.WaitBackendClose?
  }

  /** When a step can happen. While `start()` retries the lock it blocks its
      own loop, so nothing else of this server moves. Nothing moves inside a
      segment either: the drain in `WaitSessions({})` is only passed through. */
  predicate Enabled(s: Server, a: Action) {
    && s.drain != WaitSessions({})
    && (s.start.Acquiring? ==> a.LockTaken? || a.LockRefused? || a.ThreadEnded?)
    && match a
       case StartCall => s.state.New?
       case LockTaken => s.start.Acquiring?
       case LockRefused(_) => s.start.Acquiring?
       case BackendStarted => s.start.AwaitBackend?
       case BackendFailed(_) => s.start.AwaitBackend?
       case SocketBound => IsPending(s, BindTask) && s.sock.NoSock?
       case BindFinished(ok, _) => IsPending(s, BindTask) && (ok <==> s.sock.Serving?)
       case StartResumed(_) => AwaitsBind(s) && IsDone(s, BindTask)
       case StartCancelled(_) => AwaitsBind(s)
       case ShutdownCall => true
       case ShutdownCallerCancelled => s.stopSlot && !IsDone(s, StopTask)
       case DrainStarted => s.drain.Scheduled?
       case DrainSkipped => s.drain.Scheduled?
       case DrainResumed(_) => DrainWaits(s)
       case DrainCancelled(_) => DrainWaits(s)
       case Adopt(id, _, _) => Adoptable(s.state) && !IsDone(s, Adopted(id))
       case Completed(k, _) =>
         && (k.Closer? || k.CloseTask? || k.IdleFuture? || k.Adopted?)
         && IsPending(s, k)
         && (k.IdleFuture? ==> s.past.idleSeen)
       case IdleObserved => IsPending(s, IdleFuture) && !s.past.idleSeen && s.past.threads == {}
       case CallbackRan(k, _, _) => IsDone(s, k) && s.futs[k].queued
       case HandlerStarted(id) => (s.sock.Serving? || s.sock.Closing?) && Task(id) !in s.futs
       case DecodeStarted(parent, id) =>
         && parent in s.tasks && s.tasks[parent].handler && !s.tasks[parent].cancelled
         && Task(id) !in s.futs
       case TaskCancelled(id) => id in s.tasks
       case TaskFinished(id) => id in s.tasks
       case ThreadMarked(id) =>
         id in s.tasks && !s.tasks[id].handler && !s.tasks[id].cancelled && id !in s.past.threads
       case StepMarked(step, id) => IsPending(s, Adopted(step)) && id !in s.past.threads
       case ThreadEnded(id) => id in s.past.threads
  }

  function NewTask(s: Server, id: nat, handler: bool): Server {
    TrackNew(s.(tasks := s.tasks[id := TaskInfo(handler, false)]), Task(id), SessionKind, false, None)
  }

  /** `_adopt_listener`. */
  function AdoptListener(s: Server, seen: Option<nat>): Server {
    Record(Register(s.(listenerSlot := true), Listener, ListenerKind), seen)
  }

  function AdoptIfBound(s: Server, seen: Option<nat>): Server {
    if Bound(s) then AdoptListener(s, seen) else s
  }

  function StartEntered(s: Server): Server {
    NewAttempt(Register(Transition(s, Starting), StartToken, StepKind))
  }

  /** What the environment and the history of a new attempt begin with. */
  function NewAttempt(s: Server): Server { HistoryBegun(FutsKept(WorldBegun(PlacesBegun(s)))) }

  function PlacesBegun(s: Server): Server { s.(start := Acquiring, drain := NoDrain) }

  function WorldBegun(s: Server): Server { s.(sock := NoSock, past := s.past.(idleSeen := false)) }

  function FutsKept(s: Server): Server {
    s.(futs := map k | k in s.futs && (k.Task? || k.Adopted?) :: s.futs[k])
  }

  function HistoryBegun(s: Server): Server {
    s.(past := s.past.(backendUp := false, closes := 0, drained := false))
  }

  function BindBegun(s: Server): Server {
    TrackNew(BackendUp(s).(start := AwaitBind), BindTask, BindKind, false, None)
  }

  function BackendUp(s: Server): Server { s.(past := s.past.(backendUp := true)) }

  /** `backend.start()` returned: bind, unless `shutdown()` ran meanwhile. */
  function BackendReturned(s: Server): Server {
    if s.state.Starting? then BindBegun(s) else Unwind(BackendUp(s), true, false)
  }

  function StartSucceeded(s: Server, seen: Option<nat>): Server {
    var s1 := AdoptListener(s, seen);
    StartLeft(Transition(s1, Running))
  }

  /** `_bind` returned (or raised) and `start()` goes on. */
  function BindReturned(s: Server, seen: Option<nat>): Server {
    if s.start.AwaitBind? && Bound(s) && s.state.Starting? then StartSucceeded(s, seen)
    else Unwind(AdoptIfBound(s, seen), true, false)
  }

  function AwaitAgain(s: Server): Server { s.(start := AwaitBindAgain) }

  /** A cancel reaches `_bind`: wait for the bind; on a second cancel leave it
      to its own cleanup. */
  function BindCancelled(s: Server, seen: Option<nat>): Server {
    if IsDone(s, BindTask) then Unwind(AdoptIfBound(s, seen), true, false)
    else if s.start.AwaitBind? then AwaitAgain(s)
    else Unwind(Track(s, BindTask, BindKind, true, true, None), true, false)
  }

  function ScheduleDrain(s: Server): Server {
    TrackNew(DrainPlanned(Transition(s, Stopping)), StopTask, StepKind, false, None)
  }

  function DrainPlanned(s: Server): Server { s.(stopSlot := true, drain := Scheduled, drainCloses := true) }

  function ShutdownRequested(s: Server): Server { s.(shutdownRequested := true) }

  function Shutdown(s: Server): Server {
    match s.state
    case New => Transition(ShutdownRequested(s), Stopped)
    case Starting => Transition(ShutdownRequested(s), Stopping)
    case Running => ScheduleDrain(ShutdownRequested(s))
    case Stopping => ShutdownRequested(s)
    case Stopped => ShutdownRequested(s)
  }

  function CallbackTaken(s: Server, k: Key): Server
    requires IsDone(s, k)
  {
    s.(futs := s.futs[k := s.futs[k].(queued := false)])
  }

  function LockAcquired(s: Server): Server { s.(lock := true, start := AwaitBackend) }

  function Complete(s: Server, k: Key, ok: bool): Server {
    if k.Closer? then Finish(SetSock(s, Closed), k, ok) else Finish(s, k, ok)
  }

  function SawIdle(s: Server): Server { s.(past := s.past.(idleSeen := true)) }

  function NoteLate(s: Server): Server { s.(past := s.past.(late := s.past.late || s.past.drained)) }

  function TaskGone(s: Server, id: nat): Server { s.(tasks := s.tasks - {id}) }

  function SetThreads(s: Server, threads: set<nat>): Server { s.(past := s.past.(threads := threads)) }

  /** `adopt` of a future that is not done. */
  function AdoptWork(s: Server, id: nat, abandoned: bool, name: string): Server {
    if Adopted(id) in s.futs then Track(s, Adopted(id), AdoptedKind, abandoned, false, Some(name))
    else TrackNew(s, Adopted(id), AdoptedKind, abandoned, Some(name))
  }

  function Do(s: Server, a: Action): Server
    requires Enabled(s, a)
  {
    match a
    case StartCall => StartEntered(s)
    case LockTaken => LockAcquired(s)
    case LockRefused(idle) => Unwind(s, false, idle)
    case BackendStarted => BackendReturned(s)
    case BackendFailed(idle) => Unwind(s, false, idle)
    case SocketBound => SetSock(s, Serving)
    case BindFinished(ok, seen) => Finish(Record(s, if ok then seen else None), BindTask, ok)
    case StartResumed(seen) => BindReturned(s, seen)
    case StartCancelled(seen) => BindCancelled(s, seen)
    case ShutdownCall => Shutdown(s)
    case ShutdownCallerCancelled => CancelSessions(s)
    case DrainStarted => DrainBegin(s, false)
    case DrainSkipped => Finish(SetDrain(s, NoDrain), StopTask, false)
    case DrainResumed(idle) => DrainResume(s, idle)
    case DrainCancelled(idle) => DrainFinish(s, idle)
    case Adopt(id, abandoned, name) => AdoptWork(s, id, abandoned, name)
    case Completed(k, ok) => Complete(s, k, ok)
    case IdleObserved => SawIdle(s)
    case CallbackRan(k, fails, seen) => Retire(CallbackTaken(s, k), k, s.futs[k].ok, fails, seen)
    case HandlerStarted(id) => NewTask(NoteLate(s), id, true)
    case DecodeStarted(_, id) => NewTask(s, id, false)
    case TaskCancelled(id) => CancelTasks(s, {id})
    case TaskFinished(id) => Finish(TaskGone(s, id), Task(id), true)
    case ThreadMarked(id) => SetThreads(s, s.past.threads + {id})
    case StepMarked(_, id) => SetThreads(NoteLate(s), s.past.threads + {id})
    case ThreadEnded(id) => SetThreads(s, s.past.threads - {id})
  }
}
