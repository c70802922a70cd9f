/** `TranscriptionServer`: the fields it updates in place and every segment of its
    methods between two awaits. Each is proved against its function in
    Lifecycle.dfy, and `Segment` puts them together: run as a step of a server
    that satisfies the invariant, the class does exactly what that step says and
    satisfies it again, so what holds over every run holds of the class. */
module LiveWork {
  import opened Wrappers
  import opened Lifecycle
  import opened LifecycleInvariant
  import opened LiveCounts
  import opened LiveWorkParts

  /** The steps that are segments of the server's own code. The others are its
      environment's. */
  predicate OwnSegment(a: Action) {
    || a.StartCall? || a.LockTaken? || a.LockRefused? || a.BackendStarted? || a.BackendFailed?
    || a.BindFinished? || a.StartResumed? || a.StartCancelled?
    || a.ShutdownCall? || a.ShutdownCallerCancelled? || a.DrainStarted? || a.DrainResumed? || a.DrainCancelled?
    || a.Adopt? || a.CallbackRan?
  }

  /** What `adopt` answers: it took the task (or had nothing to record), the
      ValueError for a blank label, the RuntimeError for the state. */
  datatype Adoption = Taken | BlankLabel | Refused

  /** ASCII white space. */
  const WhiteSpace := {' ', '\t', '\n', '\r', '\U{0B}', '\U{0C}'}

  predicate Blank(name: string) { forall i :: 0 <= i < |name| ==> name[i] in WhiteSpace }

  /** How a call of `start()` begins; `SingleUse` tells whether a shutdown was
      the cause. */
  datatype StartCall = AlreadyRunning | InProgress | SingleUse(afterShutdown: bool) | Enters

  class TranscriptionServer {
    var state: State
    var lockFd: bool
    var unlocked: bool
    var shutdownRequested: bool
    var liveWork: map<Key, Work>
    var server: bool
    var boundSocketId: Option<nat>
    var closeTask: bool
    var stopTask: bool
    var shutdownEvent: bool
    // what its loop and its libraries know
    var start: StartPc
    var drain: DrainPc
    var drainCloses: bool
    var futs: map<Key, Fut>
    var sock: Sock
    var tasks: map<nat, TaskInfo>
    ghost var past: Past

    ghost function View(): Lifecycle.Server
      reads this
    {
      Lifecycle.Server(state, lockFd, unlocked, shutdownRequested, liveWork, server, boundSocketId, closeTask, stopTask,
                       shutdownEvent, start, drain, drainCloses, futs, sock, tasks, past)
    }

    constructor ()
      ensures View() == Initial
    {
      state, lockFd, unlocked, shutdownRequested := New, false, true, false;
      liveWork, server, boundSocketId, closeTask, stopTask := map[], false, None, false, false;
      shutdownEvent, start, drain, drainCloses := false, Idle, NoDrain, false;
      futs, sock, tasks := map[], NoSock, map[];
      past := NoPast;
    }

    /** `_live_reasons`: one line for each kind and label in the ledger, with
        exact counts; no line exactly when the ledger is empty. */
    method LiveReasons() returns (counts: map<ReasonKey, Reason>)
      ensures CountsFit(liveWork, liveWork.Keys, counts)
      ensures counts == map[] <==> liveWork == map[]
    {
      counts := map[];
      var rest := liveWork.Keys;
      ghost var seen: set<Key> := {};
      while rest != {}
        invariant rest + seen == liveWork.Keys && rest !! seen
        invariant CountsFit(liveWork, seen, counts)
        decreases rest
      {
        var k :| k in rest;
        var w := liveWork[k];
        var old_ := if (w.kind, w.name) in counts then counts[(w.kind, w.name)] else Reason(0, 0);
        ghost var before := counts;
        counts := counts[(w.kind, w.name) := Reason(old_.entries + 1, old_.stuck + if w.stuck then 1 else 0)];
        Counted(liveWork, seen, k, before, counts);
        rest, seen := rest - {k}, seen + {k};
      }
      assert seen == liveWork.Keys;
      EmptyCounts(liveWork, counts);
    }

    /** `_reset_attempt`: entering NEW clears every slot of the attempt. */
    method ResetAttempt()
      modifies this`server, this`boundSocketId, this`closeTask, this`stopTask, this`shutdownEvent
      ensures View() == TasksCleared(ListenerCleared(old(View())))
    {
      hide TasksCleared, ListenerCleared;
      ClearListener();
      ClearTasks();
    }

    method ClearListener()
      modifies this`server, this`boundSocketId
      ensures View() == ListenerCleared(old(View()))
    {
      server, boundSocketId := false, None;
    }

    method ClearTasks()
      modifies this`closeTask, this`stopTask, this`shutdownEvent
      ensures View() == TasksCleared(old(View()))
    {
      closeTask, stopTask, shutdownEvent := false, false, false;
    }

    /** The RuntimeError of `_transition`. */
    ghost method Refuse(to: State)
      modifies this`past
      ensures View() == Entered(old(View()), true, false, to)
    {
      past := past.(raised := true);
    }

    /** The new state, and `_release_lock`. */
    method ReleaseLock(to: State)
      modifies this`state, this`lockFd
      ensures View() == Freed(old(View()), to)
    {
      state := to;
      lockFd := false;
    }

    method SetUnlocked()
      modifies this`unlocked
      ensures View() == Unlocked(old(View()))
    {
      unlocked := true;
    }

    /** The second half of `_transition`. */
    method Enter(to: State)
      modifies this
      ensures View() == Entered(old(View()), true, true, to)
    {
      hide Entered, EnteredOther, Freed, ListenerCleared, TasksCleared, Unlocked;
      EnteredIs(View(), to);
      if to.New? || to.Stopped? {
        ReleaseLock(to);
        if to.New? { ResetAttempt(); }
        SetUnlocked();
      } else {
        EnterOther(to);
      }
    }

    method EnterOther(to: State)
      modifies this
      ensures View() == EnteredOther(old(View()), to)
    {
      state := to;
      unlocked := false;
    }

    /** `_transition`; `raises`: the RuntimeError. */
    method Transition(to: State) returns (raises: bool)
      modifies this
      ensures View() == Lifecycle.Transition(old(View()), to) && liveWork == old(liveWork)
      ensures raises <==> !Allowed(old(View()), to)
    {
      hide Entered;
      raises := !LegalMove(state, to);
      if !raises && (to.New? || to.Stopped?) {
        var live := LiveReasons();
        raises := live != map[];
      }
      if raises { Refuse(to); } else { Enter(to); }
      EnteredKeepsWork(old(View()), !raises, to);
    }

    /** `_settle`. */
    method Settle()
      modifies this
      ensures View() == Lifecycle.Settle(old(View()))
    {
      if state.Stopping? {
        var live := LiveReasons();
        if live == map[] { var _ := Transition(Stopped); }
      }
    }

    /** `_end_work`. */
    method EndWork(k: Key)
      modifies this
      ensures View() == Lifecycle.EndWork(old(View()), k)
    {
      liveWork := liveWork - {k};
      Settle();
    }

    /** `_track` of a future that is not done: one entry, its kind and label
        fixed by the first caller; marks and the cleanup only ever added. */
    method TrackOpen(k: Key, kind: Kind, stuck: bool, closesOrphan: bool, name: Option<string>)
      requires !IsDone(View(), k)
      modifies this`liveWork
      ensures View() == Lifecycle.Track(old(View()), k, kind, stuck, closesOrphan, name)
    {
      hide Lifecycle.Track, Tracked, WorkedOn, NewEntry;
      var entry := EntryFor(k, kind, stuck, closesOrphan, name);
      TrackIs(View(), k, kind, stuck, closesOrphan, name);
      liveWork := liveWork[k := entry];
      ViewIs(old(View()), tasks, liveWork);
    }

    /** The entry that `_track` leaves for `k`. */
    method EntryFor(k: Key, kind: Kind, stuck: bool, closesOrphan: bool, name: Option<string>) returns (entry: Work)
      ensures entry == NewEntry(liveWork, k, kind, stuck, closesOrphan, name)
    {
      entry := if k in liveWork then liveWork[k] else Work(kind, false, false, name);
      if closesOrphan { entry := entry.(closesOrphan := true); }
      if stuck && !entry.stuck { entry := entry.(stuck := true); }
    }

    /** Only the tasks and the ledger differ from `v`. */
    lemma ViewIs(v: Lifecycle.Server, tasks1: map<nat, TaskInfo>, ledger1: map<Key, Work>)
      requires tasks == tasks1 && liveWork == ledger1
      requires state == v.state && lockFd == v.lock && unlocked == v.unlocked
               && shutdownRequested == v.shutdownRequested
      requires server == v.listenerSlot && boundSocketId == v.boundInode && closeTask == v.closeSlot
               && stopTask == v.stopSlot
      requires shutdownEvent == v.shutdownEvent && start == v.start && drain == v.drain && drainCloses == v.drainCloses
      requires futs == v.futs && sock == v.sock && past == v.past
      ensures View() == WorkedOn(v, tasks1, ledger1)
    {
    }

    /** `_track`: a done future adds no work, but a cleanup given for one runs now. */
    method Track(k: Key, kind: Kind, stuck: bool, cleanup: bool, name: Option<string>, fails: bool, seen: Option<nat>)
      requires cleanup && IsDone(View(), k) ==> Closer !in liveWork && k != Closer
      modifies this
      ensures View() == if cleanup && IsDone(old(View()), k) then TrackFinished(old(View()), k, kind, fails, seen)
                        else Lifecycle.Track(old(View()), k, kind, stuck, cleanup, name)
    {
      hide Lifecycle.Retire, Lifecycle.Track;
      DoneTracksNothing(View(), k, kind, stuck, name);
      if k in futs && futs[k].Done? {
        if cleanup { TrackDone(k, kind, fails, seen); }
      } else {
        TrackOpen(k, kind, stuck, cleanup, name);
      }
    }

    method TrackDone(k: Key, kind: Kind, fails: bool, seen: Option<nat>)
      requires IsDone(View(), k) && Closer !in liveWork && k != Closer
      modifies this
      ensures View() == TrackFinished(old(View()), k, kind, fails, seen)
    {
      hide Lifecycle.Retire;
      ghost var v := View();
      var entry := if k in liveWork then liveWork[k] else Work(kind, false, false, None);
      PutEntry(k, entry.(closesOrphan := true));
      Retire(k, futs[k].ok, fails, seen);
    }

    method PutEntry(k: Key, entry: Work)
      modifies this`liveWork
      ensures View() == SetLedger(old(View()), old(liveWork)[k := entry])
    {
      liveWork := liveWork[k := entry];
    }

    /** `_track` of a future with nothing to do when it ends. */
    method TrackPlain(k: Key, kind: Kind, stuck: bool, name: Option<string>)
      modifies this`liveWork
      ensures View() == Lifecycle.Track(old(View()), k, kind, stuck, false, name)
    {
      if k in futs && futs[k].Done? { return; }
      TrackOpen(k, kind, stuck, false, name);
    }

    /** A future is created and tracked. */
    method CreateTracked(k: Key, kind: Kind, stuck: bool, name: Option<string>)
      requires k !in liveWork
      modifies this`futs, this`liveWork
      ensures View() == TrackNew(old(View()), k, kind, stuck, name)
    {
      futs := futs[k := Pending];
      TrackPlain(k, kind, stuck, name);
    }

    /** `_linger`. */
    method Linger(k: Key, kind: Kind)
      modifies this`liveWork
      ensures View() == Lifecycle.Linger(old(View()), k, kind)
    {
      TrackPlain(k, kind, true, None);
    }

    /** `_begin_work` and `_adopt_listener`'s registration: a plain key. */
    method Register(k: Key, kind: Kind)
      modifies this`liveWork
      ensures View() == Lifecycle.Register(old(View()), k, kind)
    {
      liveWork := liveWork[k := Work(kind, false, false, None)];
    }

    /** `adopt`: an error records nothing, and a done future adds no live work. */
    method Adopt(id: nat, abandoned: bool, name: string) returns (answer: Adoption)
      requires Adopted(id) in futs
      modifies this`liveWork
      ensures answer.BlankLabel? <==> Blank(name)
      ensures answer.Refused? <==> !Blank(name) && !Adoptable(old(state))
      ensures View() == if answer.Taken? && !IsDone(old(View()), Adopted(id))
                        then AdoptWork(old(View()), id, abandoned, name)
                        else old(View())
    {
      if Blank(name) { return BlankLabel; }
      if !(state.Starting? || state.Running? || state.Stopping?) { return Refused; }
      if !futs[Adopted(id)].Done? { TrackOpen(Adopted(id), AdoptedKind, abandoned, false, Some(name)); }
      answer := Taken;
    }

    /** `_record_bound_socket`; `seen`: what the stat answered. */
    method RecordBoundSocket(seen: Option<nat>)
      modifies this`boundSocketId
      ensures View() == Record(old(View()), seen)
    {
      if seen.Some? { boundSocketId := seen; }
    }

    /** `_adopt_listener`. */
    method AdoptListener(seen: Option<nat>)
      modifies this`server, this`liveWork, this`boundSocketId
      ensures View() == Lifecycle.AdoptListener(old(View()), seen)
    {
      server := true;
      Register(Listener, ListenerKind);
      RecordBoundSocket(seen);
    }

    /** `_unlink_own_socket`; `at`: the inode of the socket that the path names
        now, if it names one. Only the inode this server bound is removed. */
    method UnlinkOwnSocket(at: Option<nat>) returns (unlinks: bool)
      ensures unlinks <==> at.Some? && boundSocketId == at
    {
      unlinks := boundSocketId.Some? && at.Some? && at.value == boundSocketId.value;
    }

    /** `_begin_listener_close`: the socket file goes when it is the server's own,
        and the close enters the ledger before the bound listener leaves it. */
    method BeginListenerClose(stuck: bool, at: Option<nat>) returns (unlinks: bool)
      requires Closer !in liveWork
      modifies this
      ensures View() == Lifecycle.BeginListenerClose(old(View()), stuck)
      ensures unlinks <==> at.Some? && old(boundSocketId) == at
    {
      hide Lifecycle.EndWork;
      sock := Closing;
      unlinks := UnlinkOwnSocket(at);
      CreateTracked(Closer, ListenerCloseKind, stuck, None);
      EndWork(Listener);
    }

    /** `_close_orphan_listener`, as a bind's own cleanup. */
    method CloseOrphanListener(ok: bool, seen: Option<nat>)
      requires Closer !in liveWork
      modifies this
      ensures View() == CloseOrphan(old(View()), ok, seen)
    {
      hide Lifecycle.BeginListenerClose, Record;
      if !ok { return; }
      RecordBoundSocket(seen);
      var at: Option<nat> := *;
      var _ := BeginListenerClose(true, at);
    }

    /** A cleanup that raised. */
    method KeepEntry(k: Key)
      requires k in liveWork
      modifies this`liveWork
      ensures View() == FailClosed(old(View()), k)
    {
      hide WorkedOn;
      hide FailClosed;
      var entry := liveWork[k].(closesOrphan := false);
      entry := entry.(stuck := true);
      assert entry == liveWork[k].(stuck := true, closesOrphan := false);
      liveWork := liveWork[k := entry];
      ViewIs(old(View()), tasks, liveWork);
      FailClosedIs(old(View()), k);
    }

    /** `_retire`: the cleanup runs, and only then the entry leaves. */
    method Retire(k: Key, ok: bool, fails: bool, seen: Option<nat>)
      requires Closer !in liveWork || k !in liveWork || !liveWork[k].closesOrphan
      modifies this
      ensures View() == Lifecycle.Retire(old(View()), k, ok, fails, seen)
    {
      hide Lifecycle.EndWork, CloseOrphan, FailClosed;
      if k in liveWork && liveWork[k].closesOrphan {
        if ok && fails {
          KeepEntry(k);
          return;
        }
        CloseOrphanListener(ok, seen);
      }
      EndWork(k);
    }

    /** `_sessions`. */
    method Sessions() returns (live: set<nat>)
      ensures live == LiveSessions(View())
    {
      live := set k | k in liveWork && k.Task? && liveWork[k].kind.SessionKind?
          && !(k in futs && futs[k].Done?) :: k.id;
    }

    /** `_cancel_sessions`: each live session is cancelled and lingers. */
    method CancelSessions()
      modifies this`tasks, this`liveWork
      ensures View() == Lifecycle.CancelSessions(old(View()))
      ensures forall k :: k in liveWork <==> k in old(liveWork)
    {
      hide LiveSessions, Cancel, Marked;
      hide Lifecycle.CancelSessions;
      hide WorkedOn;
      var live := Sessions();
      var rest := live;
      ghost var v := View();
      SessionsAreEntries(v);
      NobodyYet(tasks, liveWork);
      while rest != {}
        invariant rest <= live
        invariant tasks == Cancel(v.tasks, live - rest) && liveWork == Marked(v.ledger, live - rest)
        decreases rest
      {
        var id :| id in rest;
        CancelMore(v.tasks, live - rest, id);
        MarkMore(v.ledger, live - rest, id);
        if id in tasks { tasks := tasks[id := tasks[id].(cancelled := true)]; }
        liveWork := liveWork[Task(id) := liveWork[Task(id)].(stuck := true)];
        assert live - (rest - {id}) == live - rest + {id};
        rest := rest - {id};
      }
      assert live - rest == live;
      AllCancelledIs(v);
      MarkedKeys(v.ledger, live);
      ViewIs(v, tasks, liveWork);
    }

    /** The backend's `close()`, begun at most once in an attempt. */
    method EnsureBackendClose(due: bool, stuck: bool)
      requires !closeTask ==> CloseTask !in liveWork
      modifies this`closeTask, this`past, this`futs, this`liveWork
      ensures View() == Lifecycle.EnsureBackendClose(old(View()), due, stuck)
      ensures IdleFuture in liveWork <==> IdleFuture in old(liveWork)
    {
      if due && !closeTask {
        closeTask := true;
        past := past.(closes := past.closes + 1);
        CreateTracked(CloseTask, CloseKind, stuck, None);
      } else if closeTask && stuck {
        Linger(CloseTask, CloseKind);
      }
    }

    /** `_keep_lock_for_leftover_work`; `idle`: the hook answered with a future
        that is not done. */
    method KeepLockForLeftoverWork(idle: bool)
      requires !closeTask ==> CloseTask !in liveWork
      requires IdleFuture !in liveWork
      modifies this
      ensures View() == KeepLock(old(View()), idle)
    {
      hide Lifecycle.CancelSessions, Lifecycle.EnsureBackendClose, Lifecycle.HandOverThreads;
      CancelSessions();
      EnsureBackendClose(drainCloses, true);
      HandOverThreads(idle);
    }

    /** The `idle()` hook's future, when it is not done, keeps the lock. */
    method HandOverThreads(idle: bool)
      requires IdleFuture !in liveWork
      modifies this`futs, this`liveWork, this`past
      ensures View() == Lifecycle.HandOverThreads(old(View()), idle)
    {
      hide Lifecycle.HandOverThreads, Asked, NotHandedOver, TrackNew;
      HandedOverIs(View(), idle);
      if idle {
        AskIdle();
        CreateTracked(IdleFuture, ThreadKind, true, None);
      } else {
        NothingToTrack();
      }
    }

    ghost method AskIdle()
      modifies this`past
      ensures View() == Asked(old(View())) && liveWork == old(liveWork)
    {
      past := past.(drained := true, idleSeen := false);
    }

    ghost method NothingToTrack()
      modifies this`past
      ensures View() == NotHandedOver(old(View()))
    {
      past := past.(missed := past.missed || past.threads != {}, drained := true);
    }

    /** `start()` up to the lock, in each state: it returns, raises, or enters
        STARTING with its token in the ledger. */
    method Start() returns (o: StartCall)
      modifies this
      ensures o == match old(state)
                   case New => Enters
                   case Starting => InProgress
                   case Running => AlreadyRunning
                   case Stopping => SingleUse(old(shutdownRequested))
                   case Stopped => SingleUse(old(shutdownRequested))
      ensures View() == if o.Enters? then StartEntered(old(View())) else old(View())
    {
      hide Lifecycle.TransitionIf, Lifecycle.Register, NewAttempt;
      if state.Running? { return AlreadyRunning; }
      if state.Starting? { return InProgress; }
      if !state.New? { return SingleUse(shutdownRequested); }
      var _ := Transition(Starting);
      Register(StartToken, StepKind);
      BeginAttempt();
      o := Enters;
    }

    /** What the loop and the libraries begin an attempt with. */
    method BeginAttempt()
      modifies this
      ensures View() == NewAttempt(old(View()))
    {
      hide PlacesBegun, WorldBegun, FutsKept, HistoryBegun;
      BeginPlaces();
      BeginWorld();
      KeepFuts();
      BeginHistory();
    }

    method BeginWorld()
      modifies this`sock, this`past
      ensures View() == WorldBegun(old(View()))
    {
      sock := NoSock;
      past := past.(idleSeen := false);
    }

    method BeginPlaces()
      modifies this`start, this`drain
      ensures View() == PlacesBegun(old(View()))
    {
      start, drain := Acquiring, NoDrain;
    }

    method KeepFuts()
      modifies this`futs
      ensures View() == FutsKept(old(View()))
    {
      futs := map k | k in futs && (k.Task? || k.Adopted?) :: futs[k];
    }

    ghost method BeginHistory()
      modifies this`past
      ensures View() == HistoryBegun(old(View()))
    {
      past := past.(backendUp := false, closes := 0, drained := false);
    }

    /** `shutdown()` up to its first wait. */
    method Shutdown()
      requires state.Running? ==> StopTask !in liveWork
      modifies this
      ensures View() == Lifecycle.Shutdown(old(View()))
    {
      hide Lifecycle.TransitionIf, Lifecycle.ScheduleDrain;
      shutdownRequested := true;
      match state
      case New => var _ := Transition(Stopped);
      case Starting => var _ := Transition(Stopping);
      case Running => ScheduleDrain();
      case _ =>
    }

    /** The drain of a running server becomes a task of its own. */
    method ScheduleDrain()
      requires StopTask !in liveWork
      modifies this
      ensures View() == Lifecycle.ScheduleDrain(old(View()))
    {
      hide Lifecycle.TransitionIf, DrainPlanned, TrackNew;
      var _ := Transition(Stopping);
      PlanDrain();
      CreateTracked(StopTask, StepKind, false, None);
    }

    method PlanDrain()
      modifies this`stopTask, this`drain, this`drainCloses
      ensures View() == DrainPlanned(old(View()))
    {
      stopTask, drain, drainCloses := true, Scheduled, true;
    }

    method LeaveStart()
      modifies this`start, this`liveWork
      ensures View() == StartLeft(old(View()))
    {
      start := Idle;
      liveWork := liveWork - {StartToken};
    }

    /** The `finally` of `start()`. */
    method StartFinally()
      modifies this
      ensures View() == Lifecycle.StartFinally(old(View()))
    {
      hide TransitionIf, StartLeft;
      LeaveStart();
      NoMove(View(), StartOutcome(View()));
      var live := LiveReasons();
      if state.Starting? {
        var _ := Transition(if live != map[] then Stopping else New);
      } else if state.Stopping? && live == map[] {
        var _ := Transition(Stopped);
      }
    }

    // ---- the drain

    method SetPc(pc: DrainPc)
      modifies this`drain
      ensures drain == pc && View() == SetDrain(old(View()), drain)
    {
      drain := pc;
    }

    /** A task of the server's own ends. */
    method FinishTask(k: Key, ok: bool)
      modifies this`futs
      ensures View() == Finish(old(View()), k, ok)
    {
      futs := futs[k := Done(ok, k in liveWork)];
    }

    /** The `finally` of `_drain`. */
    method DrainEnded(idle: bool)
      requires Unused(View())
      modifies this
      ensures View() == Lifecycle.DrainEnded(old(View()), idle)
    {
      hide Lifecycle.KeepLock, SetDrain, Lifecycle.EndWork;
      KeepLockForLeftoverWork(idle);
      SetPc(NoDrain);
      EndWork(DrainToken);
    }

    /** ... and what the drain's owner does next. */
    method DrainFinish(idle: bool)
      requires Unused(View())
      modifies this
      ensures View() == Lifecycle.DrainFinish(old(View()), idle)
    {
      hide Lifecycle.DrainEnded, Lifecycle.StartFinally, Finish, Unused;
      var failedStart := start.Unwinding?;
      DrainEnded(idle);
      if failedStart { StartFinally(); } else { FinishTask(StopTask, true); }
    }

    /** `_close_backend` up to its wait. */
    method CloseBackend()
      requires Unused(View())
      modifies this
      ensures View() == Lifecycle.CloseBackend(old(View()))
    {
      hide Lifecycle.EnsureBackendClose, SetDrain;
      EnsureBackendClose(true, false);
      SetPc(WaitBackendClose);
    }

    method AfterCloser(idle: bool)
      requires Unused(View())
      modifies this
      ensures View() == Lifecycle.AfterCloser(old(View()), idle)
    {
      hide Lifecycle.CloseBackend, Lifecycle.DrainFinish, Unused;
      if drainCloses { CloseBackend(); } else { DrainFinish(idle); }
    }

    method AfterSessions(idle: bool)
      requires Unused(View())
      modifies this
      ensures View() == Lifecycle.AfterSessions(old(View()), idle)
    {
      hide Lifecycle.AfterCloser, SetDrain, Unused;
      if server { SetPc(WaitCloser); } else { AfterCloser(idle); }
    }

    /** `_drain` before its body. */
    method EnterDrain()
      modifies this`shutdownEvent, this`drain, this`liveWork
      ensures View() == Lifecycle.EnterDrain(old(View()))
    {
      shutdownEvent := true;
      drain := WaitSessions({});
      Register(DrainToken, StepKind);
    }

    /** `_close_listener`. */
    method CloseListener()
      requires server ==> Closer !in liveWork
      modifies this
      ensures View() == Lifecycle.CloseListener(old(View()))
    {
      hide Lifecycle.BeginListenerClose;
      if server {
        var at: Option<nat> := *;
        var _ := BeginListenerClose(false, at);
      }
    }

    /** `_drain_and_close` up to its first wait; the sessions were listed first. */
    method DrainFirst(idle: bool)
      requires Unused(View()) && (server ==> Closer !in liveWork)
      modifies this
      ensures View() == Lifecycle.DrainFirst(old(View()), idle)
    {
      hide Lifecycle.CloseListener, Lifecycle.AfterSessions, SetDrain, LiveSessions, Unused;
      CloseListenerUnused(View());
      var pending := Sessions();
      CloseListener();
      if pending != {} { SetPc(WaitSessions(pending)); } else { AfterSessions(idle); }
    }

    /** `_drain` up to its first wait. */
    method DrainBegin(idle: bool)
      requires Unused(View()) && (server ==> Closer !in liveWork)
      modifies this
      ensures View() == Lifecycle.DrainBegin(old(View()), idle)
    {
      hide Lifecycle.EnterDrain, Lifecycle.DrainFirst, Unused;
      EnterDrainUnused(View());
      EnterDrain();
      DrainFirst(idle);
    }

    /** The loop that cancels what outlived the drain's bound. */
    method CancelAll(still: set<nat>)
      modifies this`tasks
      ensures View() == CancelTasks(old(View()), still)
    {
      hide Cancel, Marked;
      var rest := still;
      ghost var was := tasks;
      NobodyYet(tasks, liveWork);
      while rest != {}
        invariant rest <= still && tasks == Cancel(was, still - rest)
        decreases rest
      {
        var id :| id in rest;
        CancelMore(was, still - rest, id);
        if id in tasks { tasks := tasks[id := tasks[id].(cancelled := true)]; }
        assert still - (rest - {id}) == still - rest + {id};
        rest := rest - {id};
      }
      assert still - rest == still;
    }

    method AfterDrainTimeout(still: set<nat>, idle: bool)
      requires Unused(View())
      modifies this
      ensures View() == Lifecycle.AfterDrainTimeout(old(View()), still, idle)
    {
      hide Lifecycle.AfterSessions, SetDrain, CancelTasks, Unused;
      if still != {} {
        CancelAll(still);
        SetPc(WaitCancelled);
      } else {
        AfterSessions(idle);
      }
    }

    /** One wait of the drain returned. */
    method DrainResume(idle: bool)
      requires Unused(View()) && DrainWaits(View()) && (drain.WaitBackendClose? ==> closeTask)
      modifies this
      ensures View() == Lifecycle.DrainResume(old(View()), idle)
    {
      hide Lifecycle.AfterSessions, Lifecycle.AfterCloser, Lifecycle.DrainFinish, Lifecycle.Linger;
      hide StillRunning, Lifecycle.AfterDrainTimeout, Unused;
      LingerUnused(View());
      match drain
      case WaitSessions(pending) =>
        var still := Unfinished(pending);
        AfterDrainTimeout(still, idle);
      case WaitCancelled => AfterSessions(idle);
      case WaitCloser =>
        Linger(Closer, ListenerCloseKind);
        AfterCloser(idle);
      case WaitBackendClose =>
        Linger(CloseTask, CloseKind);
        DrainFinish(idle);
    }

    method Unfinished(pending: set<nat>) returns (still: set<nat>)
      ensures still == StillRunning(View(), pending)
    {
      still := set id | id in pending && !(Task(id) in futs && futs[Task(id)].Done?);
    }

    // ---- start()

    /** `_unwind_failed_start`. */
    method Unwind(backendStarted: bool, idle: bool)
      requires Unused(View()) && (server ==> Closer !in liveWork)
      modifies this
      ensures View() == Lifecycle.Unwind(old(View()), backendStarted, idle)
    {
      hide SetUnwinding, Lifecycle.DrainBegin, Unused;
      SetUnwindingUnused(View(), backendStarted);
      BeginUnwinding(backendStarted);
      DrainBegin(idle);
    }

    method BeginUnwinding(backendStarted: bool)
      modifies this`start, this`drainCloses
      ensures View() == SetUnwinding(old(View()), backendStarted)
    {
      start, drainCloses := Unwinding, backendStarted;
    }

    method LockTaken()
      modifies this`lockFd, this`start
      ensures View() == LockAcquired(old(View()))
    {
      lockFd, start := true, AwaitBackend;
    }

    ghost method NoteBackendUp()
      modifies this`past
      ensures View() == BackendUp(old(View()))
    {
      past := past.(backendUp := true);
    }

    method AwaitTheBind()
      modifies this`start
      ensures View() == old(View()).(start := AwaitBind)
    {
      start := AwaitBind;
    }

    /** `backend.start()` returned: `_check_still_starting`, then the bind, which
        is live work from its creation. */
    method BackendReturned()
      requires Unused(View()) && !server && BindTask !in liveWork
      modifies this
      ensures View() == Lifecycle.BackendReturned(old(View()))
    {
      hide BackendUp, Lifecycle.Unwind, TrackNew, Unused;
      BackendUpUnused(View());
      NoteBackendUp();
      if state.Starting? {
        AwaitTheBind();
        CreateTracked(BindTask, BindKind, false, None);
      } else {
        Unwind(true, false);
      }
    }

    /** `_bound`: the inode is recorded in the step in which the bind ends. */
    method BindEnds(ok: bool, seen: Option<nat>)
      modifies this`boundSocketId, this`futs
      ensures View() == Finish(Record(old(View()), if ok then seen else None), BindTask, ok)
    {
      hide Record, Finish;
      NothingSeen(View());
      if ok { RecordBoundSocket(seen); }
      FinishTask(BindTask, ok);
    }

    method AdoptIfBound(seen: Option<nat>)
      modifies this
      ensures View() == Lifecycle.AdoptIfBound(old(View()), seen)
    {
      hide Lifecycle.AdoptListener;
      if BindTask in futs && futs[BindTask].Done? && futs[BindTask].ok { AdoptListener(seen); }
    }

    method StartSucceeded(seen: Option<nat>)
      modifies this
      ensures View() == Lifecycle.StartSucceeded(old(View()), seen)
    {
      hide Lifecycle.AdoptListener, TransitionIf, StartLeft;
      AdoptListener(seen);
      var _ := Transition(Running);
      LeaveStart();
    }

    /** `_bind` returned or raised, and `start()` goes on. */
    method BindReturned(seen: Option<nat>)
      requires Unused(View()) && Closer !in liveWork
      modifies this
      ensures View() == Lifecycle.BindReturned(old(View()), seen)
    {
      hide Lifecycle.StartSucceeded, Lifecycle.AdoptIfBound, Lifecycle.Unwind, Unused;
      AdoptIfBoundUnused(View(), seen);
      if start.AwaitBind? && state.Starting? && BindTask in futs && futs[BindTask].Done? && futs[BindTask].ok {
        StartSucceeded(seen);
      } else {
        AdoptIfBound(seen);
        Unwind(true, false);
      }
    }

    /** A cancel reaches `_bind`. */
    method BindCancelled(seen: Option<nat>)
      requires Unused(View()) && Closer !in liveWork
      modifies this
      ensures View() == Lifecycle.BindCancelled(old(View()), seen)
    {
      hide Lifecycle.AdoptIfBound, Lifecycle.Unwind, Lifecycle.Track, AwaitAgain, Unused;
      AdoptIfBoundUnused(View(), seen);
      TrackOrphanUnused(View());
      if BindTask in futs && futs[BindTask].Done? {
        AdoptIfBound(seen);
        Unwind(true, false);
      } else if start.AwaitBind? {
        WaitAgain();
      } else {
        TrackOpen(BindTask, BindKind, true, true, None);
        Unwind(true, false);
      }
    }

    method WaitAgain()
      modifies this`start
      ensures View() == AwaitAgain(old(View()))
    {
      start := AwaitBindAgain;
    }

    // ---- callbacks

    method TakeCallback(k: Key)
      requires IsDone(View(), k)
      modifies this`futs
      ensures View() == CallbackTaken(old(View()), k)
    {
      futs := futs[k := futs[k].(queued := false)];
    }

    method CallbackRan(k: Key, fails: bool, seen: Option<nat>)
      requires IsDone(View(), k) && (k in liveWork && liveWork[k].closesOrphan ==> Closer !in liveWork)
      modifies this
      ensures View() == Lifecycle.Retire(CallbackTaken(old(View()), k), k, old(futs)[k].ok, fails, seen)
    {
      hide Lifecycle.Retire, CallbackTaken;
      CallbackTakenIs(View(), k);
      var ok := futs[k].ok;
      TakeCallback(k);
      Retire(k, ok, fails, seen);
    }

    /** A new task is adopted, or one that was adopted before. */
    method AdoptAny(id: nat, abandoned: bool, name: string)
      requires !IsDone(View(), Adopted(id)) && (Adopted(id) !in futs ==> Adopted(id) !in liveWork)
      modifies this
      ensures View() == AdoptWork(old(View()), id, abandoned, name)
    {
      hide Lifecycle.Track, TrackNew;
      if Adopted(id) in futs { TrackOpen(Adopted(id), AdoptedKind, abandoned, false, Some(name)); }
      else { CreateTracked(Adopted(id), AdoptedKind, abandoned, Some(name)); }
    }

    // ---- every segment

    method StartSegment(a: Action)
      requires Inv(View()) && Enabled(View(), a)
      requires a.StartCall? || a.LockTaken? || a.LockRefused? || a.BackendStarted? || a.BackendFailed?
            || a.StartResumed? || a.StartCancelled?
      modifies this
      ensures View() == Do(old(View()), a)
    {
      hide StartEntered, LockAcquired, Lifecycle.Unwind, Lifecycle.BackendReturned, Lifecycle.BindReturned;
      hide Lifecycle.BindCancelled, Inv, Unused;
      StartFindsUnused(View());
      match a
      case StartCall => var _ := Start();
      case LockTaken => LockTaken();
      case LockRefused(idle) => Unwind(false, idle);
      case BackendStarted => BackendReturned();
      case BackendFailed(idle) => Unwind(false, idle);
      case StartResumed(seen) => BindReturned(seen);
      case StartCancelled(seen) => BindCancelled(seen);
    }

    method StopSegment(a: Action)
      requires Inv(View()) && Enabled(View(), a)
      requires a.ShutdownCall? || a.ShutdownCallerCancelled? || a.DrainStarted? || a.DrainResumed? || a.DrainCancelled?
      modifies this
      ensures View() == Do(old(View()), a)
    {
      hide Lifecycle.Shutdown, Lifecycle.CancelSessions, Lifecycle.DrainBegin, Lifecycle.DrainResume,
           Lifecycle.DrainFinish;
      hide Inv, Unused;
      StopFindsUnused(View());
      match a
      case ShutdownCall => Shutdown();
      case ShutdownCallerCancelled => CancelSessions();
      case DrainStarted => DrainBegin(false);
      case DrainResumed(idle) => DrainResume(idle);
      case DrainCancelled(idle) => DrainFinish(idle);
    }

    method WorkSegment(a: Action)
      requires Inv(View()) && Enabled(View(), a) && (a.BindFinished? || a.Adopt? || a.CallbackRan?)
      modifies this
      ensures View() == Do(old(View()), a)
    {
      hide Lifecycle.Retire, CallbackTaken, AdoptWork, Finish, Record, Inv;
      WorkFindsUnused(View(), a);
      match a
      case BindFinished(ok, seen) => BindEnds(ok, seen);
      case Adopt(id, abandoned, name) => AdoptAny(id, abandoned, name);
      case CallbackRan(k, fails, seen) => CallbackRan(k, fails, seen);
    }

    /** Any segment, as a step of the server: it does what the step says, and the
        invariant holds again. */
    method Segment(a: Action)
      requires Inv(View()) && Enabled(View(), a) && OwnSegment(a)
      modifies this
      ensures View() == Do(old(View()), a) && Inv(View())
    {
      hide Inv, Enabled, Do;
      StepInv(View(), a);
      if a.BindFinished? || a.Adopt? || a.CallbackRan? { WorkSegment(a); }
      else if a.ShutdownCall? || a.ShutdownCallerCancelled? || a.DrainStarted? || a.DrainResumed? || a.DrainCancelled? {
        StopSegment(a);
      } else {
        StartSegment(a);
      }
    }
  }
}
