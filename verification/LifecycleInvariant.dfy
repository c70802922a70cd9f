/** What every step of one server keeps. */
module LifecycleInvariant {
  import opened Wrappers
  import opened Lifecycle

  /** Between steps the state fixes the ledger, and no transition was refused. */
  ghost predicate StateFixesLedger(s: Server) {
    && !s.past.raised
    && (s.unlocked <==> Frees(s.state))
    && (Frees(s.state) ==> s.ledger == map[] && !s.lock)
    && (s.state.Starting? ==> StartToken in s.ledger)
    && (s.state.Running? ==> Listener in s.ledger && s.lock)
    && (s.state.Stopping? ==> s.ledger != map[])
    && (s.shutdownRequested ==> s.state.Stopping? || s.state.Stopped?)
  }

  /** `start()` has not failed yet and has not bound a listener yet. */
  ghost predicate StartGoesOn(s: Server) { !s.start.Idle? && !s.start.Unwinding? }

  ghost predicate Coroutines(s: Server) {
    && (StartToken in s.ledger <==> !s.start.Idle?)
    && (DrainToken in s.ledger <==> DrainWaits(s))
    && (s.start.Unwinding? ==> DrainWaits(s))
    && (DrainWaits(s) ==> s.shutdownEvent)
    && (!s.start.Idle? ==> (s.state.Starting? || s.state.Stopping?) && !s.stopSlot)
    && (StartGoesOn(s) ==> s.drain.NoDrain? && !s.listenerSlot && !s.closeSlot && !s.past.drained)
    && (s.start.Acquiring? ==> s.state.Starting? && !s.lock)
    && (s.state.Running? ==>
          s.start.Idle? && s.drain.NoDrain? && s.listenerSlot && !s.closeSlot && !s.stopSlot && !s.past.drained)
    && (s.drain.Scheduled? ==> s.start.Idle? && s.drainCloses && s.listenerSlot && Listener in s.ledger)
    && (s.drain.Scheduled? || (DrainWaits(s) && s.start.Idle?) ==>
          s.state.Stopping? && s.stopSlot && StopTask in s.ledger && IsPending(s, StopTask))
    && (s.stopSlot || StopTask in s.futs ==> s.state.Stopping? || s.state.Stopped?)
    && (IsPending(s, StopTask) ==> s.start.Idle? && !s.drain.NoDrain?)
    && (s.state.Stopping? && !s.past.drained && s.start.Idle? && s.drain.NoDrain? ==> Listener in s.ledger)
    && (s.state.New? ==>
          !s.listenerSlot && !s.closeSlot && !s.stopSlot && !s.shutdownEvent && s.boundInode == None)
  }

  /** Every bind, listener, close, session and backend close in the ledger
      has the lock over it. */
  ghost predicate LockCoversWork(s: Server) {
    !s.lock ==>
      && (StartGoesOn(s) ==> s.start.Acquiring?)
      && Listener !in s.ledger && BindTask !in s.ledger && Closer !in s.ledger && CloseTask !in s.ledger
      && (forall id {:trigger Task(id)} :: Task(id) !in s.ledger)
      && !s.sock.Serving? && !s.sock.Closing?
      && (!s.drain.NoDrain? ==> !s.drainCloses && !s.listenerSlot && s.drain == WaitSessions({}))
      && (!s.past.drained ==> forall id {:trigger Adopted(id)} :: Adopted(id) !in s.ledger)
  }

  /** A bind whose cleanup raised. */
  ghost predicate FailedClosed(s: Server) {
    BindTask in s.ledger && IsDone(s, BindTask) && !s.futs[BindTask].queued
  }

  /** A bound listener whose close has not finished is in the ledger, or its
      `start()` (in the ledger too) is about to take it over. */
  ghost predicate ListenerCovered(s: Server) {
    && (s.sock.Serving? ==>
          || Listener in s.ledger
          || AwaitsBind(s)
          || (BindTask in s.ledger && (s.ledger[BindTask].closesOrphan || FailedClosed(s))))
    && (s.sock.Closing? ==> Closer in s.ledger && IsPending(s, Closer))
    && (Listener in s.ledger ==> s.sock.Serving? && s.listenerSlot)
    && (s.listenerSlot && s.sock.Serving? ==> Listener in s.ledger)
    && (s.past.drained ==> Listener !in s.ledger)
    && (Closer in s.futs <==> s.sock.Closing? || s.sock.Closed?)
    && (DrainWaits(s) && s.drain != WaitSessions({}) && s.listenerSlot ==> !s.sock.Serving?)
    && (s.drain.WaitCloser? ==> s.listenerSlot)
  }

  ghost predicate Binds(s: Server) {
    && (s.start.Acquiring? || s.start.AwaitBackend? ==> BindTask !in s.futs && s.sock.NoSock?)
    && (AwaitsBind(s) ==> BindTask in s.futs)
    && (BindTask in s.ledger ==> BindTask in s.futs)
    && (IsPending(s, BindTask) ==>
          BindTask in s.ledger && (s.sock.NoSock? || s.sock.Serving?) && !s.listenerSlot
          && (AwaitsBind(s) <==> !s.ledger[BindTask].closesOrphan))
    && (IsDone(s, BindTask) ==> (s.futs[BindTask].ok <==> !s.sock.NoSock?))
    && (AwaitsBind(s) && Bound(s) ==> s.sock.Serving?)
    && (BindTask in s.ledger && s.ledger[BindTask].closesOrphan ==>
          !AwaitsBind(s) && !s.listenerSlot && (IsDone(s, BindTask) ==> s.futs[BindTask].queued)
          && (s.sock.NoSock? || s.sock.Serving?))
    && (s.listenerSlot && !s.state.Stopped? ==> Bound(s))
    && (BindTask !in s.futs ==> s.sock.NoSock?)
    && (forall k :: k in s.ledger && s.ledger[k].closesOrphan ==> k.BindTask?)
  }

  /** A future in the ledger is pending or its callback is queued, and a
      pending one is in the ledger. */
  ghost predicate Owed(s: Server, k: Key) {
    && (k in s.ledger ==> k in s.futs && (s.futs[k].Pending? || s.futs[k].queued))
    && (IsPending(s, k) ==> k in s.ledger)
  }

  /** No wake-up is lost (a bind that failed closed waits for none). */
  ghost predicate Futures(s: Server) { PlainFutures(s) && AdoptedFutures(s) && TaskFutures(s) }

  ghost predicate PlainFutures(s: Server) {
    && Owed(s, StopTask) && Owed(s, Closer) && Owed(s, CloseTask) && Owed(s, IdleFuture)
    && StartToken !in s.futs && DrainToken !in s.futs && Listener !in s.futs
    && (FailedClosed(s) ==> s.ledger[BindTask].stuck)
  }

  ghost predicate AdoptedFutures(s: Server) { forall id {:trigger Adopted(id)} :: Owed(s, Adopted(id)) }

  ghost predicate TaskFutures(s: Server) {
    forall id {:trigger Task(id)} ::
      && Owed(s, Task(id))
      && (id in s.tasks <==> IsPending(s, Task(id)))
      && (Task(id) in s.ledger ==> s.ledger[Task(id)].kind.SessionKind?)
  }

  /** The backend's `close()` is started at most once per attempt, and exactly
      once when its `start()` returned and the attempt's drain ended. */
  ghost predicate ClosesOnce(s: Server) {
    && s.past.closes == (if CloseTask in s.futs then 1 else 0)
    && (s.closeSlot ==> CloseTask in s.futs)
    && (Adoptable(s.state) && CloseTask in s.futs ==> s.closeSlot)
    && (s.closeSlot ==> s.past.backendUp)
    && (!s.drain.NoDrain? ==> (s.drainCloses <==> s.past.backendUp))
    && (AwaitsBind(s) || s.state.Running? ==> s.past.backendUp)
    && (s.start.Acquiring? || s.start.AwaitBackend? ==> !s.past.backendUp)
    && (s.past.drained ==> (s.past.closes == 1 <==> s.past.backendUp))
    && (s.drain.WaitBackendClose? ==> s.closeSlot)
  }

  /** Decode threads in flight keep the lock: before the drain ended by what
      the drain still has to do, afterwards by the `idle()` future. */
  ghost predicate ThreadsCovered(s: Server) {
    && (IdleFuture in s.futs ==> s.past.drained)
    && (!s.past.late && !s.past.missed ==>
      && (s.past.threads != {} ==>
            s.lock && (s.past.drained ==> IdleFuture in s.ledger && IsPending(s, IdleFuture) && !s.past.idleSeen))
      && (s.past.drained ==> forall id :: id in s.tasks ==> s.tasks[id].cancelled)
      && (s.start.Acquiring? ==> s.past.threads == {}))
  }

  /** `Inv` also holds inside the drain's last step, except that the drain is
      then both waiting and over. */
  ghost predicate Inv(s: Server) {
    InvInside(s) && (!s.drain.NoDrain? ==> !s.past.drained)
  }

  ghost predicate InvInside(s: Server) { Control(s) && Futures(s) }

  ghost predicate Control(s: Server) {
    && StateFixesLedger(s)
    && Coroutines(s)
    && LockCoversWork(s)
    && ListenerCovered(s)
    && Binds(s)
    && ClosesOnce(s)
    && ThreadsCovered(s)
  }

  lemma ServingHoldsTheLock(s: Server)
    requires Inv(s) && (s.sock.Serving? || s.sock.Closing?)
    ensures s.lock
  {
  }

  lemma InitialInv()
    ensures Inv(Initial)
  {
  }

  // ---------------------------------------------------------------- marks

  predicate MoreStuck(w: Work, v: Work) {
    v.kind == w.kind && v.closesOrphan == w.closesOrphan && v.name == w.name && (w.stuck ==> v.stuck)
  }

  /** `t` is `s` with more stuck marks and more cancelled tasks. */
  ghost predicate OnlyMarks(s: Server, t: Server) {
    && t == s.(ledger := t.ledger, tasks := t.tasks)
    && (t.ledger == map[] <==> s.ledger == map[])
    && (forall k :: k in t.ledger <==> k in s.ledger)
    && (forall k :: k in s.ledger ==> MoreStuck(s.ledger[k], t.ledger[k]))
    && (forall id :: id in t.tasks <==> id in s.tasks)
    && (forall id :: id in s.tasks && s.tasks[id].cancelled ==> t.tasks[id].cancelled)
  }

  lemma OnlyMarksControl(s: Server, t: Server)
    requires Control(s) && OnlyMarks(s, t)
    ensures Control(t)
  {
    hide Coroutines, Binds, ListenerCovered;
    OnlyMarksBinds(s, t);
    OnlyMarksCoroutines(s, t);
    OnlyMarksListener(s, t);
  }

  lemma OnlyMarksListener(s: Server, t: Server)
    requires ListenerCovered(s) && OnlyMarks(s, t)
    ensures ListenerCovered(t)
  {
  }

  lemma OnlyMarksBinds(s: Server, t: Server)
    requires Binds(s) && OnlyMarks(s, t)
    ensures Binds(t)
  {
  }

  lemma OnlyMarksCoroutines(s: Server, t: Server)
    requires Coroutines(s) && OnlyMarks(s, t)
    ensures Coroutines(t)
  {
  }

  lemma OnlyMarksFutures(s: Server, t: Server)
    requires Futures(s) && OnlyMarks(s, t)
    ensures Futures(t)
  {
  }

  lemma OnlyMarksInv(s: Server, t: Server)
    requires Inv(s) && OnlyMarks(s, t)
    ensures Inv(t)
  {
    hide Control, Futures;
    OnlyMarksControl(s, t);
    OnlyMarksFutures(s, t);
  }

  ghost predicate AllCancelled(s: Server) { forall id :: id in s.tasks ==> s.tasks[id].cancelled }

  /** `_cancel_sessions` reaches every task there is. */
  lemma SessionsListed(s: Server)
    requires Futures(s)
    ensures forall id :: id in s.tasks ==> id in LiveSessions(s)
  {
    forall id | id in s.tasks
      ensures id in LiveSessions(s)
    {
      assert Owed(s, Task(id)) && IsPending(s, Task(id));
    }
  }

  lemma CancelSessionsLedger(s: Server)
    ensures var r := CancelSessions(s);
            && (r.ledger == map[] <==> s.ledger == map[])
            && (forall k :: k in r.ledger <==> k in s.ledger)
            && (forall k :: k in s.ledger ==> MoreStuck(s.ledger[k], r.ledger[k]))
  {
    hide LiveSessions;
    if k :| k in s.ledger { assert k in CancelSessions(s).ledger; }
  }

  lemma CancelSessionsMarks(s: Server)
    requires Futures(s)
    ensures OnlyMarks(s, CancelSessions(s)) && AllCancelled(CancelSessions(s))
  {
    hide LiveSessions, MoreStuck, Futures;
    SessionsListed(s);
    CancelSessionsLedger(s);
  }

  lemma CancelSessionsInv(s: Server)
    requires Inv(s)
    ensures Inv(CancelSessions(s)) && OnlyMarks(s, CancelSessions(s)) && AllCancelled(CancelSessions(s))
  {
    hide Control, Futures;
    CancelSessionsMarks(s);
    OnlyMarksInv(s, CancelSessions(s));
  }

  lemma CancelTasksInv(s: Server, ids: set<nat>)
    requires Inv(s)
    ensures Inv(CancelTasks(s, ids))
  {
    hide Inv;
    OnlyMarksInv(s, CancelTasks(s, ids));
  }

  lemma TrackedMarks(s: Server, k: Key, kind: Kind, name: Option<string>)
    requires k in s.ledger || IsDone(s, k)
    ensures var ledger := Tracked(s, k, kind, true, false, name);
            && (ledger == map[] <==> s.ledger == map[])
            && (forall j :: j in ledger <==> j in s.ledger)
            && (forall j :: j in s.ledger ==> MoreStuck(s.ledger[j], ledger[j]))
  {
  }

  lemma LingerMarks(s: Server, k: Key, kind: Kind)
    requires k in s.ledger || IsDone(s, k)
    ensures OnlyMarks(s, Linger(s, k, kind))
  {
    hide Tracked, MoreStuck;
    TrackedMarks(s, k, kind, None);
  }

  lemma LingerInv(s: Server, k: Key, kind: Kind)
    requires Inv(s) && (k in s.ledger || IsDone(s, k))
    ensures Inv(Linger(s, k, kind))
    ensures var r := Linger(s, k, kind); r.drain == s.drain && r.listenerSlot == s.listenerSlot && r.sock == s.sock
  {
    hide Inv;
    LingerMarks(s, k, kind);
    OnlyMarksInv(s, Linger(s, k, kind));
  }

  // ---------------------------------------------------------------- futures

  /** Entries that are no futures come and go freely. */
  lemma FuturesSame(s: Server, r: Server)
    requires Futures(s) && r.futs == s.futs && r.tasks == s.tasks
    requires forall k: Key :: !k.StartToken? && !k.DrainToken? && !k.Listener? ==>
               (k in r.ledger <==> k in s.ledger) && (k in s.ledger ==> r.ledger[k] == s.ledger[k])
    ensures Futures(r)
  {
  }

  lemma FuturesEqual(s: Server, r: Server)
    requires Futures(s) && r.futs == s.futs && r.tasks == s.tasks && r.ledger == s.ledger
    ensures Futures(r)
  {
  }

  /** A new future enters the ledger pending. */
  lemma FuturesNew(s: Server, k: Key, w: Work, r: Server)
    requires Futures(s)
    requires k.Adopted? || k.BindTask? || k.StopTask? || k.Closer? || k.CloseTask? || k.IdleFuture?
    requires r.futs == s.futs[k := Pending] && r.ledger == s.ledger[k := w] && r.tasks == s.tasks
    ensures Futures(r)
  {
  }

  lemma FuturesFinish(s: Server, k: Key, ok: bool, r: Server)
    requires Futures(s) && IsPending(s, k) && !k.Task? && k in s.ledger
    requires r.futs == s.futs[k := Done(ok, true)] && r.ledger == s.ledger && r.tasks == s.tasks
    ensures Futures(r)
  {
  }

  lemma PlainDrop(s: Server, k: Key, r: Server)
    requires PlainFutures(s)
    requires IsDone(s, k) && r.futs == s.futs[k := s.futs[k].(queued := false)]
    requires r.ledger == s.ledger - {k} && r.tasks == s.tasks
    ensures PlainFutures(r)
  {
  }

  lemma AdoptedDrop(s: Server, k: Key, r: Server)
    requires AdoptedFutures(s)
    requires IsDone(s, k) && r.futs == s.futs[k := s.futs[k].(queued := false)]
    requires r.ledger == s.ledger - {k} && r.tasks == s.tasks
    ensures AdoptedFutures(r)
  {
  }

  lemma TaskDrop(s: Server, k: Key, r: Server)
    requires TaskFutures(s)
    requires IsDone(s, k) && r.futs == s.futs[k := s.futs[k].(queued := false)]
    requires r.ledger == s.ledger - {k} && r.tasks == s.tasks
    ensures TaskFutures(r)
  {
  }

  lemma FuturesDrop(s: Server, k: Key, r: Server)
    requires Futures(s) && IsDone(s, k)
    requires r.futs == s.futs[k := s.futs[k].(queued := false)] && r.ledger == s.ledger - {k} && r.tasks == s.tasks
    ensures Futures(r)
  {
    hide PlainFutures, AdoptedFutures, TaskFutures;
    PlainDrop(s, k, r);
    AdoptedDrop(s, k, r);
    TaskDrop(s, k, r);
  }

  lemma PendingTracked(s: Server, k: Key)
    requires Inv(s) && IsPending(s, k)
    ensures k in s.ledger
  {
    assert k.Task? ==> Owed(s, Task(k.id));
    assert k.Adopted? ==> Owed(s, Adopted(k.id));
  }

  lemma FutureKey(s: Server, k: Key)
    requires Futures(s) && k in s.futs
    ensures !k.StartToken? && !k.DrainToken? && !k.Listener?
  {
  }

  // ---------------------------------------------------------------- the drain

  lemma SetDrainInv(s: Server, pc: DrainPc)
    requires Inv(s) && DrainWaits(s) && s.lock && !pc.NoDrain? && !pc.Scheduled?
    requires pc.WaitBackendClose? ==> s.closeSlot
    requires (s.listenerSlot ==> !s.sock.Serving?) && (pc.WaitCloser? ==> s.listenerSlot)
    ensures Inv(SetDrain(s, pc))
  {
    hide Futures;
    FuturesEqual(s, SetDrain(s, pc));
  }

  /** While another entry remains, ending one changes nothing else. */
  lemma EndWorkWhileOther(s: Server, k: Key, other: Key)
    requires other in s.ledger && other != k
    ensures EndWork(s, k) == Without(s, k)
  {
    hide Settle;
    assert other in Without(s, k).ledger;
    NothingToSettle(Without(s, k));
  }

  lemma NotMoved(s: Server, to: State)
    ensures Entered(s, false, false, to) == s
  {
  }

  lemma NothingToSettle(s: Server)
    requires !(s.state.Stopping? && s.ledger == map[])
    ensures Settle(s) == s
  {
    hide Entered;
    NotMoved(s, Stopped);
  }

  function ListenerHandedOff(s: Server, stuck: bool): Server {
    s.(sock := Closing, futs := s.futs[Closer := Pending],
       ledger := s.ledger[Closer := Work(ListenerCloseKind, stuck, false, None)] - {Listener})
  }

  lemma BeginListenerCloseIs(s: Server, stuck: bool)
    ensures BeginListenerClose(s, stuck) == ListenerHandedOff(s, stuck)
  {
    hide EndWork;
    EndWorkWhileOther(TrackNew(SetSock(s, Closing), Closer, ListenerCloseKind, stuck, None), Listener, Closer);
  }

  lemma ListenerHandedOffFutures(s: Server, stuck: bool)
    requires Futures(s)
    ensures Futures(ListenerHandedOff(s, stuck))
  {
    hide Futures;
    var w := Work(ListenerCloseKind, stuck, false, None);
    FuturesNew(s, Closer, w, TrackNew(s, Closer, ListenerCloseKind, stuck, None));
    FuturesSame(TrackNew(s, Closer, ListenerCloseKind, stuck, None), ListenerHandedOff(s, stuck));
  }

  lemma ListenerHandedOffInv(s: Server)
    requires Inv(s) && DrainWaits(s) && Listener in s.ledger
    ensures Inv(ListenerHandedOff(s, false))
  {
    hide Futures;
    assert Closer in ListenerHandedOff(s, false).ledger;
    ListenerHandedOffFutures(s, false);
  }

  lemma CloseListenerInv(s: Server)
    requires Inv(s) && DrainWaits(s) && (s.listenerSlot ==> Listener in s.ledger)
    ensures Inv(CloseListener(s)) && CloseListener(s).drain == s.drain
    ensures CloseListener(s).listenerSlot == s.listenerSlot && (s.listenerSlot ==> CloseListener(s).sock.Closing?)
    ensures CloseListener(s).lock == s.lock
  {
    hide Inv;
    BeginListenerCloseIs(s, false);
    if s.listenerSlot { ListenerHandedOffInv(s); }
  }

  /** What the drain's end leaves: every task cancelled and the backend's
      close begun, when there is a backend to close. */
  ghost predicate LeftoversKept(s: Server) {
    AllCancelled(s) && (s.drainCloses ==> s.closeSlot)
  }

  lemma CloseTracked(s: Server)
    requires Inv(s) && s.closeSlot
    ensures CloseTask in s.ledger || IsDone(s, CloseTask)
  {
    assert Owed(s, CloseTask);
  }

  lemma CloseBegunInv(s: Server, stuck: bool)
    requires Inv(s) && DrainWaits(s) && s.drainCloses && !s.closeSlot
    ensures Inv(EnsureBackendClose(s, true, stuck))
  {
    hide Futures;
    var r := EnsureBackendClose(s, true, stuck);
    assert CloseTask in r.ledger;
    FuturesNew(s, CloseTask, Work(CloseKind, stuck, false, None), r);
  }

  lemma CloseMarkedInv(s: Server, due: bool, stuck: bool)
    requires Inv(s) && (s.closeSlot || !due)
    ensures Inv(EnsureBackendClose(s, due, stuck))
    ensures EnsureBackendClose(s, due, stuck).tasks == s.tasks
  {
    hide Inv;
    if s.closeSlot { CloseTracked(s); }
    var r := EnsureBackendClose(s, due, stuck);
    OnlyMarksInv(s, r);
  }

  lemma EnsureBackendCloseInv(s: Server, due: bool, stuck: bool)
    requires Inv(s) && DrainWaits(s) && (due ==> s.drainCloses)
    ensures Inv(EnsureBackendClose(s, due, stuck))
  {
    hide Inv, EnsureBackendClose;
    if due && !s.closeSlot { CloseBegunInv(s, stuck); } else { CloseMarkedInv(s, due, stuck); }
  }

  lemma HandOverThreadsLifeline(t: Server, idle: bool)
    requires Inv(t) && LeftoversKept(t) && DrainWaits(t) && (t.listenerSlot ==> !t.sock.Serving?)
    ensures var r := HandOverThreads(t, idle); StateFixesLedger(r) && Coroutines(r) && LockCoversWork(r)
  {
    hide Futures, ListenerCovered, Binds, ClosesOnce, ThreadsCovered;
  }

  lemma HandOverThreadsSockets(t: Server, idle: bool)
    requires Inv(t) && LeftoversKept(t) && DrainWaits(t) && (t.listenerSlot ==> !t.sock.Serving?)
    ensures var r := HandOverThreads(t, idle); ListenerCovered(r) && Binds(r)
  {
    hide Futures, ClosesOnce, ThreadsCovered, LockCoversWork;
  }

  lemma HandOverThreadsBackend(t: Server, idle: bool)
    requires Inv(t) && LeftoversKept(t) && DrainWaits(t) && (t.listenerSlot ==> !t.sock.Serving?)
    ensures var r := HandOverThreads(t, idle); ClosesOnce(r) && ThreadsCovered(r)
  {
    hide Futures, Binds, ListenerCovered;
  }

  lemma HandOverThreadsInv(t: Server, idle: bool)
    requires Inv(t) && LeftoversKept(t) && DrainWaits(t) && (t.listenerSlot ==> !t.sock.Serving?)
    ensures InvInside(HandOverThreads(t, idle))
  {
    hide Futures, StateFixesLedger, Coroutines, LockCoversWork, ListenerCovered, Binds, ClosesOnce, ThreadsCovered;
    HandOverThreadsLifeline(t, idle);
    HandOverThreadsSockets(t, idle);
    HandOverThreadsBackend(t, idle);
    var r := HandOverThreads(t, idle);
    if idle { FuturesNew(t, IdleFuture, Work(ThreadKind, true, false, None), r); } else { FuturesEqual(t, r); }
  }

  lemma CancelSessionsFrame(s: Server)
    ensures CancelSessions(s) == s.(tasks := CancelSessions(s).tasks, ledger := CancelSessions(s).ledger)
  {
  }

  lemma EnsureBackendCloseFrame(s: Server, due: bool, stuck: bool)
    ensures var r := EnsureBackendClose(s, due, stuck);
            && r.tasks == s.tasks && r.drain == s.drain && r.start == s.start && r.drainCloses == s.drainCloses
            && r.listenerSlot == s.listenerSlot && r.sock == s.sock && r.lock == s.lock
            && (due ==> r.closeSlot)
  {
  }

  lemma KeepLockInv(s: Server, idle: bool)
    requires Inv(s) && DrainWaits(s) && (s.listenerSlot ==> !s.sock.Serving?)
    ensures InvInside(KeepLock(s, idle)) && KeepLock(s, idle).past.drained
    ensures KeepLock(s, idle).drain == s.drain && KeepLock(s, idle).start == s.start
  {
    hide Control, Futures, CancelSessions, EnsureBackendClose;
    CancelSessionsInv(s);
    CancelSessionsFrame(s);
    var s1 := CancelSessions(s);
    EnsureBackendCloseInv(s1, s1.drainCloses, true);
    EnsureBackendCloseFrame(s1, s1.drainCloses, true);
    HandOverThreadsInv(EnsureBackendClose(s1, s1.drainCloses, true), idle);
  }

  /** The drain's token leaves the ledger; its owner's entry stays. */
  function TokenDropped(h: Server): Server { h.(drain := NoDrain, ledger := h.ledger - {DrainToken}) }

  lemma DrainEndedIs(h: Server, other: Key)
    requires other in h.ledger && other != DrainToken
    ensures EndWork(SetDrain(h, NoDrain), DrainToken) == TokenDropped(h)
  {
    hide EndWork;
    EndWorkWhileOther(SetDrain(h, NoDrain), DrainToken, other);
  }

  lemma StopDrainEndedFutures(h: Server)
    requires Futures(h) && StopTask in h.ledger && IsPending(h, StopTask)
    ensures Futures(Finish(TokenDropped(h), StopTask, true))
  {
    hide Futures;
    FuturesSame(h, TokenDropped(h));
    FuturesFinish(TokenDropped(h), StopTask, true, Finish(TokenDropped(h), StopTask, true));
  }

  lemma StopDrainEndedInv(h: Server)
    requires InvInside(h) && h.past.drained && DrainWaits(h) && h.start.Idle?
    ensures Inv(Finish(TokenDropped(h), StopTask, true))
  {
    hide Futures;
    assert StopTask in TokenDropped(h).ledger;
    StopDrainEndedFutures(h);
  }

  lemma StartFinallyFutures(h: Server)
    requires Futures(h)
    ensures Futures(StartFinally(TokenDropped(h)))
  {
    FuturesSame(h, StartFinally(TokenDropped(h)));
  }

  lemma NothingElse(h: Server)
    requires TokenDropped(h).ledger - {StartToken} == map[]
    ensures forall k :: k in h.ledger ==> k == DrainToken || k == StartToken
  {
    forall k | k in h.ledger
      ensures k == DrainToken || k == StartToken
    {
      assert k in TokenDropped(h).ledger - {StartToken} || k == DrainToken || k == StartToken;
    }
  }

  lemma StartFinallyState(h: Server)
    requires InvInside(h) && h.past.drained && DrainWaits(h) && h.start.Unwinding?
    ensures var r := StartFinally(TokenDropped(h)); StateFixesLedger(r) && LockCoversWork(r)
  {
    hide Futures, Binds, ClosesOnce, ThreadsCovered;
    if TokenDropped(h).ledger - {StartToken} == map[] { NothingElse(h); }
  }

  lemma StartFinallyCoroutines(h: Server)
    requires InvInside(h) && h.past.drained && DrainWaits(h) && h.start.Unwinding?
    ensures Coroutines(StartFinally(TokenDropped(h)))
  {
    hide Futures, Binds, ClosesOnce, ThreadsCovered, LockCoversWork, ListenerCovered;
  }

  lemma StartFinallyListener(h: Server)
    requires InvInside(h) && h.past.drained && DrainWaits(h) && h.start.Unwinding?
    ensures ListenerCovered(StartFinally(TokenDropped(h)))
  {
    hide Futures, ClosesOnce, ThreadsCovered, LockCoversWork;
    if TokenDropped(h).ledger - {StartToken} == map[] { NothingElse(h); }
  }

  lemma StartFinallyBinds(h: Server)
    requires InvInside(h) && h.past.drained && DrainWaits(h) && h.start.Unwinding?
    ensures Binds(StartFinally(TokenDropped(h)))
  {
    hide Futures, ClosesOnce, ThreadsCovered, LockCoversWork, ListenerCovered;
    if TokenDropped(h).ledger - {StartToken} == map[] { NothingElse(h); }
  }

  lemma StartFinallyBackend(h: Server)
    requires InvInside(h) && h.past.drained && DrainWaits(h) && h.start.Unwinding?
    ensures var r := StartFinally(TokenDropped(h)); ClosesOnce(r) && ThreadsCovered(r)
  {
    hide Futures, Binds, ListenerCovered, LockCoversWork;
    if TokenDropped(h).ledger - {StartToken} == map[] { NothingElse(h); }
  }

  /** A failed start ends: NEW when nothing is left, else STOPPING. */
  lemma StartFinallyInv(h: Server)
    requires InvInside(h) && h.past.drained && DrainWaits(h) && h.start.Unwinding?
    ensures Inv(StartFinally(TokenDropped(h)))
  {
    hide Futures, StateFixesLedger, LockCoversWork, ClosesOnce, ThreadsCovered, Coroutines, ListenerCovered, Binds;
    StartFinallyFutures(h);
    StartFinallyState(h);
    StartFinallyCoroutines(h);
    StartFinallyListener(h);
    StartFinallyBinds(h);
    StartFinallyBackend(h);
  }

  lemma DrainOwner(h: Server)
    requires InvInside(h) && DrainWaits(h)
    ensures if h.start.Unwinding? then StartToken in h.ledger && (h.state.Starting? || h.state.Stopping?)
            else StopTask in h.ledger && h.start.Idle?
  {
  }

  lemma DrainFinishInv(s: Server, idle: bool)
    requires Inv(s) && DrainWaits(s) && (s.listenerSlot ==> !s.sock.Serving?)
    ensures Inv(DrainFinish(s, idle))
  {
    hide Inv, InvInside, KeepLock, EndWork, StartFinally, Finish, TokenDropped, SetDrain;
    KeepLockInv(s, idle);
    var h := KeepLock(s, idle);
    DrainOwner(h);
    DrainEndedIs(h, if h.start.Unwinding? then StartToken else StopTask);
    if !h.start.Unwinding? { StopDrainEndedInv(h); }
    else { StartFinallyInv(h); }
  }

  /** A drain that has something to wait for runs under the lock. */
  lemma DrainHoldsTheLock(s: Server)
    requires Inv(s) && DrainWaits(s)
    ensures s.drainCloses || s.listenerSlot || s.drain != WaitSessions({}) || LiveSessions(s) != {} ==> s.lock
  {
    if id :| id in LiveSessions(s) { assert Task(id) in s.ledger; }
    hide LiveSessions, Futures;
  }

  lemma AfterCloserInv(s: Server, idle: bool)
    requires Inv(s) && DrainWaits(s) && (s.listenerSlot ==> !s.sock.Serving?)
    ensures Inv(AfterCloser(s, idle))
  {
    hide Inv, DrainFinish, EnsureBackendClose;
    DrainHoldsTheLock(s);
    if s.drainCloses {
      EnsureBackendCloseInv(s, true, false);
      EnsureBackendCloseFrame(s, true, false);
      SetDrainInv(EnsureBackendClose(s, true, false), WaitBackendClose);
    } else {
      DrainFinishInv(s, idle);
    }
  }

  lemma AfterSessionsInv(s: Server, idle: bool)
    requires Inv(s) && DrainWaits(s) && (s.listenerSlot ==> !s.sock.Serving?)
    ensures Inv(AfterSessions(s, idle))
  {
    hide Inv, AfterCloser, SetDrain;
    DrainHoldsTheLock(s);
    if s.listenerSlot { SetDrainInv(s, WaitCloser); } else { AfterCloserInv(s, idle); }
  }

  lemma DrainFirstInv(s: Server, idle: bool)
    requires Inv(s) && DrainWaits(s) && (s.listenerSlot ==> Listener in s.ledger)
    ensures Inv(DrainFirst(s, idle))
  {
    hide Inv, AfterSessions, CloseListener, SetDrain, LiveSessions;
    DrainHoldsTheLock(s);
    CloseListenerInv(s);
    if LiveSessions(s) != {} { SetDrainInv(CloseListener(s), WaitSessions(LiveSessions(s))); }
    else { AfterSessionsInv(CloseListener(s), idle); }
  }

  lemma DrainUnderWay(s: Server)
    requires Inv(s) && DrainWaits(s) && s.drain != WaitSessions({})
    ensures s.listenerSlot ==> !s.sock.Serving?
    ensures s.drain.WaitCloser? ==> Closer in s.ledger || IsDone(s, Closer)
    ensures s.drain.WaitBackendClose? ==> CloseTask in s.ledger || IsDone(s, CloseTask)
  {
    assert Owed(s, Closer) && Owed(s, CloseTask);
  }

  lemma AfterDrainTimeoutInv(s: Server, still: set<nat>, idle: bool)
    requires Inv(s) && DrainWaits(s) && s.lock && (s.listenerSlot ==> !s.sock.Serving?)
    ensures Inv(AfterDrainTimeout(s, still, idle))
  {
    hide Inv, AfterSessions;
    if still != {} {
      CancelTasksInv(s, still);
      SetDrainInv(CancelTasks(s, still), WaitCancelled);
    } else {
      AfterSessionsInv(s, idle);
    }
  }

  lemma DrainResumeInv(s: Server, idle: bool)
    requires Inv(s) && DrainWaits(s) && s.drain != WaitSessions({})
    ensures Inv(DrainResume(s, idle))
  {
    hide Inv, AfterSessions, AfterCloser, DrainFinish, AfterDrainTimeout, StillRunning, Linger;
    DrainUnderWay(s);
    DrainHoldsTheLock(s);
    match s.drain
    case WaitSessions(pending) => AfterDrainTimeoutInv(s, StillRunning(s, pending), idle);
    case WaitCancelled => AfterSessionsInv(s, idle);
    case WaitCloser =>
      LingerInv(s, Closer, ListenerCloseKind);
      AfterCloserInv(Linger(s, Closer, ListenerCloseKind), idle);
    case WaitBackendClose =>
      LingerInv(s, CloseTask, CloseKind);
      DrainFinishInv(Linger(s, CloseTask, CloseKind), idle);
  }

  // ---------------------------------------------------------------- start()

  lemma StartHasNoListener(s: Server)
    requires Inv(s) && StartGoesOn(s)
    ensures !s.listenerSlot && (s.start.Acquiring? || s.start.AwaitBackend? ==> !s.past.backendUp)
  {
  }

  /** A start that has no listener begins its unwinding. */
  function Entering(s: Server, backendStarted: bool): Server {
    EnterDrain(SetUnwinding(s, backendStarted))
  }

  lemma EnteringFutures(s: Server, backendStarted: bool)
    requires Futures(s)
    ensures Futures(Entering(s, backendStarted))
  {
    FuturesSame(s, Entering(s, backendStarted));
  }

  lemma EnteringEarlyInv(s: Server)
    requires Inv(s) && (s.start.Acquiring? || s.start.AwaitBackend?)
    ensures Inv(Entering(s, false))
  {
    hide Futures;
    EnteringFutures(s, false);
  }

  lemma EnteringUpInv(s: Server)
    requires Inv(s) && s.start.AwaitBackend?
    ensures Inv(Entering(BackendUp(s), true))
  {
    hide Futures;
    FuturesEqual(s, BackendUp(s));
    EnteringFutures(BackendUp(s), true);
  }

  lemma EnteringBoundListener(s: Server, seen: Option<nat>)
    requires Inv(s) && AwaitsBind(s) && Bound(s)
    ensures ListenerCovered(Entering(AdoptListener(s, seen), true)) && Binds(Entering(AdoptListener(s, seen), true))
  {
    hide Futures, StateFixesLedger, LockCoversWork, ClosesOnce, ThreadsCovered;
  }

  lemma EnteringBoundInv(s: Server, seen: Option<nat>)
    requires Inv(s) && AwaitsBind(s) && Bound(s)
    ensures Inv(Entering(AdoptListener(s, seen), true))
  {
    hide Futures, ListenerCovered, Binds;
    FuturesSame(s, AdoptListener(s, seen));
    EnteringFutures(AdoptListener(s, seen), true);
    EnteringBoundListener(s, seen);
  }

  lemma EnteringUnboundInv(s: Server)
    requires Inv(s) && AwaitsBind(s) && IsDone(s, BindTask) && !Bound(s)
    ensures Inv(Entering(s, true))
  {
    hide Futures;
    EnteringFutures(s, true);
  }

  lemma EnteringOrphanFutures(s: Server)
    requires Futures(s) && IsPending(s, BindTask)
    ensures Futures(Entering(Track(s, BindTask, BindKind, true, true, None), true))
  {
  }

  lemma EnteringOrphanPlaces(s: Server)
    requires Inv(s) && AwaitsBind(s)
    ensures !Entering(Track(s, BindTask, BindKind, true, true, None), true).past.drained
  {
    hide Futures, Tracked;
  }

  lemma EnteringOrphanLifeline(s: Server)
    requires Inv(s) && AwaitsBind(s) && IsPending(s, BindTask)
    ensures var r := Entering(Track(s, BindTask, BindKind, true, true, None), true);
            StateFixesLedger(r) && Coroutines(r) && LockCoversWork(r)
  {
    hide Futures, ListenerCovered, Binds, ClosesOnce, ThreadsCovered;
  }

  lemma EnteringOrphanSockets(s: Server)
    requires Inv(s) && AwaitsBind(s) && IsPending(s, BindTask)
    ensures var r := Entering(Track(s, BindTask, BindKind, true, true, None), true); ListenerCovered(r) && Binds(r)
  {
    hide Futures, ClosesOnce, ThreadsCovered, LockCoversWork;
  }

  lemma EnteringOrphanBackend(s: Server)
    requires Inv(s) && AwaitsBind(s) && IsPending(s, BindTask)
    ensures var r := Entering(Track(s, BindTask, BindKind, true, true, None), true); ClosesOnce(r) && ThreadsCovered(r)
  {
    hide Futures, Binds, ListenerCovered;
  }

  /** A start gives up on a bind that is not done. */
  lemma EnteringOrphanInv(s: Server)
    requires Inv(s) && AwaitsBind(s) && IsPending(s, BindTask)
    ensures Inv(Entering(Track(s, BindTask, BindKind, true, true, None), true))
  {
    hide Futures, StateFixesLedger, Coroutines, LockCoversWork, ListenerCovered, Binds, ClosesOnce, ThreadsCovered;
    EnteringOrphanLifeline(s);
    EnteringOrphanSockets(s);
    EnteringOrphanBackend(s);
    EnteringOrphanFutures(s);
    EnteringOrphanPlaces(s);
  }

  lemma UnwindInv(s: Server, backendStarted: bool, idle: bool)
    requires Inv(Entering(s, backendStarted)) && (s.listenerSlot ==> Listener in s.ledger)
    ensures Inv(Unwind(s, backendStarted, idle))
  {
    hide Inv, DrainFirst;
    DrainFirstInv(Entering(s, backendStarted), idle);
  }

  lemma UnwindEarlyInv(s: Server, idle: bool)
    requires Inv(s) && (s.start.Acquiring? || s.start.AwaitBackend?)
    ensures Inv(Unwind(s, false, idle))
  {
    hide Inv, Unwind, Entering;
    StartHasNoListener(s);
    EnteringEarlyInv(s);
    UnwindInv(s, false, idle);
  }

  lemma BindBegunInv(s: Server)
    requires Inv(s) && s.start.AwaitBackend? && s.state.Starting?
    ensures Inv(BindBegun(s))
  {
    hide Futures;
    FuturesNew(s, BindTask, Work(BindKind, false, false, None), BindBegun(s));
  }

  lemma BackendReturnedInv(s: Server)
    requires Inv(s) && s.start.AwaitBackend?
    ensures Inv(BackendReturned(s))
  {
    hide Inv, Unwind, Entering, BindBegun;
    StartHasNoListener(s);
    if s.state.Starting? {
      BindBegunInv(s);
    } else {
      EnteringUpInv(s);
      UnwindInv(BackendUp(s), true, false);
    }
  }

  lemma AdoptedUnwindInv(s: Server, seen: Option<nat>)
    requires Inv(s) && AwaitsBind(s) && IsDone(s, BindTask)
    ensures Inv(Unwind(AdoptIfBound(s, seen), true, false))
  {
    hide Inv, Unwind, Entering;
    StartHasNoListener(s);
    if Bound(s) { EnteringBoundInv(s, seen); } else { EnteringUnboundInv(s); }
    UnwindInv(AdoptIfBound(s, seen), true, false);
  }

  lemma StartSucceededInv(s: Server, seen: Option<nat>)
    requires Inv(s) && s.start.AwaitBind? && Bound(s) && s.state.Starting?
    ensures Inv(StartSucceeded(s, seen))
  {
    hide Futures;
    FuturesSame(s, StartSucceeded(s, seen));
  }

  lemma BindReturnedInv(s: Server, seen: Option<nat>)
    requires Inv(s) && AwaitsBind(s) && IsDone(s, BindTask)
    ensures Inv(BindReturned(s, seen))
  {
    hide Inv, Unwind, AdoptIfBound, StartSucceeded;
    if s.start.AwaitBind? && Bound(s) && s.state.Starting? { StartSucceededInv(s, seen); }
    else { AdoptedUnwindInv(s, seen); }
  }

  lemma BindPendingTracked(s: Server)
    requires Inv(s) && AwaitsBind(s) && !IsDone(s, BindTask)
    ensures IsPending(s, BindTask) && !s.listenerSlot
  {
  }

  lemma OrphanedUnwindInv(s: Server)
    requires Inv(s) && AwaitsBind(s) && !IsDone(s, BindTask)
    ensures Inv(Unwind(Track(s, BindTask, BindKind, true, true, None), true, false))
  {
    hide Inv, Unwind, Entering;
    BindPendingTracked(s);
    EnteringOrphanInv(s);
    UnwindInv(Track(s, BindTask, BindKind, true, true, None), true, false);
  }

  lemma AwaitAgainInv(s: Server)
    requires Inv(s) && s.start.AwaitBind? && !IsDone(s, BindTask)
    ensures Inv(AwaitAgain(s))
  {
    hide Futures;
    FuturesEqual(s, AwaitAgain(s));
  }

  lemma BindCancelledInv(s: Server, seen: Option<nat>)
    requires Inv(s) && AwaitsBind(s)
    ensures Inv(BindCancelled(s, seen))
  {
    hide Inv, Unwind, AdoptIfBound, AwaitAgain, Track;
    if IsDone(s, BindTask) { AdoptedUnwindInv(s, seen); }
    else if s.start.AwaitBind? { AwaitAgainInv(s); }
    else { OrphanedUnwindInv(s); }
  }

  lemma StartEnteredFutures(s: Server)
    requires Futures(s) && s.ledger == map[]
    ensures Futures(StartEntered(s))
  {
  }

  lemma StartEnteredPlaces(s: Server)
    requires Inv(s) && s.state.New?
    ensures s.ledger == map[] && StartEntered(s).drain.NoDrain?
  {
    hide Futures;
  }

  lemma StartEnteredLifeline(s: Server)
    requires Inv(s) && s.state.New?
    ensures var r := StartEntered(s); StateFixesLedger(r) && Coroutines(r) && LockCoversWork(r)
  {
    hide Futures, ListenerCovered, Binds, ClosesOnce, ThreadsCovered;
  }

  lemma StartEnteredSockets(s: Server)
    requires Inv(s) && s.state.New?
    ensures var r := StartEntered(s); ListenerCovered(r) && Binds(r)
  {
    hide Futures, ClosesOnce, ThreadsCovered, LockCoversWork;
  }

  lemma StartEnteredBackend(s: Server)
    requires Inv(s) && s.state.New?
    ensures var r := StartEntered(s); ClosesOnce(r) && ThreadsCovered(r)
  {
    hide Futures, Binds, ListenerCovered;
  }

  lemma StartEnteredInv(s: Server)
    requires Inv(s) && s.state.New?
    ensures Inv(StartEntered(s))
  {
    hide Futures, StateFixesLedger, Coroutines, LockCoversWork, ListenerCovered, Binds, ClosesOnce, ThreadsCovered;
    StartEnteredLifeline(s);
    StartEnteredSockets(s);
    StartEnteredBackend(s);
    StartEnteredPlaces(s);
    StartEnteredFutures(s);
  }

  lemma LockTakenInv(s: Server)
    requires Inv(s) && s.start.Acquiring?
    ensures Inv(LockAcquired(s))
  {
    hide Futures;
    FuturesEqual(s, LockAcquired(s));
  }

  // ---------------------------------------------------------------- callbacks

  function Dropped(s: Server, k: Key): Server
    requires IsDone(s, k)
  {
    CallbackTaken(s, k).(ledger := s.ledger - {k})
  }

  lemma DroppedControl1(s: Server, k: Key)
    requires Inv(s) && IsDone(s, k) && s.futs[k].queued
    requires s.state.Stopping? ==> s.ledger - {k} != map[]
    ensures StateFixesLedger(Dropped(s, k))
  {
    hide Futures, Binds, ListenerCovered, ClosesOnce, ThreadsCovered, Coroutines, LockCoversWork;
    FutureKey(s, k);
  }

  lemma DroppedLock(s: Server, k: Key)
    requires Inv(s) && IsDone(s, k)
    ensures LockCoversWork(Dropped(s, k))
  {
    hide Futures, Binds, ListenerCovered, ThreadsCovered, Coroutines, StateFixesLedger, ClosesOnce;
  }

  lemma DroppedCloses(s: Server, k: Key)
    requires Inv(s) && IsDone(s, k)
    ensures ClosesOnce(Dropped(s, k))
  {
    hide Futures, Binds, ListenerCovered, ThreadsCovered, Coroutines, StateFixesLedger, LockCoversWork;
  }

  lemma DroppedThreads(s: Server, k: Key)
    requires Inv(s) && IsDone(s, k)
    ensures ThreadsCovered(Dropped(s, k))
  {
    hide Futures, Binds, ListenerCovered, ClosesOnce, Coroutines, StateFixesLedger, LockCoversWork;
  }

  lemma DroppedControl2(s: Server, k: Key)
    requires Inv(s) && IsDone(s, k) && s.futs[k].queued
    ensures Coroutines(Dropped(s, k))
  {
    hide Futures, ClosesOnce, ThreadsCovered, LockCoversWork, ListenerCovered, Binds;
    FutureKey(s, k);
  }

  lemma DroppedControl3(s: Server, k: Key)
    requires Inv(s) && IsDone(s, k) && s.futs[k].queued
    requires k in s.ledger && s.ledger[k].closesOrphan ==> !s.futs[k].ok
    ensures ListenerCovered(Dropped(s, k))
  {
    hide Futures, ClosesOnce, ThreadsCovered, LockCoversWork, StateFixesLedger;
    FutureKey(s, k);
  }

  lemma DroppedBinds(s: Server, k: Key)
    requires Inv(s) && IsDone(s, k) && s.futs[k].queued
    ensures Binds(Dropped(s, k))
  {
    hide Futures, ClosesOnce, ThreadsCovered, LockCoversWork, StateFixesLedger, ListenerCovered, Coroutines;
    FutureKey(s, k);
  }

  lemma DroppedInv(s: Server, k: Key)
    requires Inv(s) && IsDone(s, k) && s.futs[k].queued
    requires k in s.ledger && s.ledger[k].closesOrphan ==> !s.futs[k].ok
    requires s.state.Stopping? ==> s.ledger - {k} != map[]
    ensures Inv(Dropped(s, k))
  {
    hide Futures, StateFixesLedger, LockCoversWork, ClosesOnce, ThreadsCovered, Coroutines, ListenerCovered, Binds;
    DroppedControl1(s, k);
    DroppedControl2(s, k);
    DroppedControl3(s, k);
    DroppedBinds(s, k);
    DroppedLock(s, k);
    DroppedCloses(s, k);
    DroppedThreads(s, k);
    FuturesDrop(s, k, Dropped(s, k));
  }

  lemma LastKey(s: Server, k: Key)
    requires s.ledger - {k} == map[]
    ensures forall j :: j in s.ledger ==> j == k
  {
    forall j | j in s.ledger
      ensures j == k
    {
      assert j in s.ledger - {k} || j == k;
    }
  }

  lemma LastDroppedIs(s: Server, k: Key)
    requires IsDone(s, k)
    ensures var r := EndWork(CallbackTaken(s, k), k);
            && r.futs == s.futs[k := s.futs[k].(queued := false)] && r.ledger == s.ledger - {k} && r.tasks == s.tasks
            && r.drain == s.drain && r.past.drained == s.past.drained
  {
  }

  lemma LastDroppedLifeline(s: Server, k: Key)
    requires Inv(s) && IsDone(s, k) && s.futs[k].queued
    requires k in s.ledger && s.ledger[k].closesOrphan ==> !s.futs[k].ok
    requires s.state.Stopping? && s.ledger - {k} == map[]
    ensures var r := EndWork(CallbackTaken(s, k), k); StateFixesLedger(r) && Coroutines(r) && LockCoversWork(r)
  {
    hide Futures, ClosesOnce, ThreadsCovered;
    FutureKey(s, k);
    LastKey(s, k);
  }

  lemma LastDroppedSockets(s: Server, k: Key)
    requires Inv(s) && IsDone(s, k) && s.futs[k].queued
    requires k in s.ledger && s.ledger[k].closesOrphan ==> !s.futs[k].ok
    requires s.state.Stopping? && s.ledger - {k} == map[]
    ensures var r := EndWork(CallbackTaken(s, k), k); ListenerCovered(r) && Binds(r)
  {
    hide Futures, ClosesOnce, ThreadsCovered, LockCoversWork;
    FutureKey(s, k);
    LastKey(s, k);
  }

  lemma LastDroppedBackend(s: Server, k: Key)
    requires Inv(s) && IsDone(s, k) && s.futs[k].queued
    requires k in s.ledger && s.ledger[k].closesOrphan ==> !s.futs[k].ok
    requires s.state.Stopping? && s.ledger - {k} == map[]
    ensures var r := EndWork(CallbackTaken(s, k), k); ClosesOnce(r) && ThreadsCovered(r)
  {
    hide Futures, Binds, ListenerCovered;
    FutureKey(s, k);
    LastKey(s, k);
  }

  /** The last entry ends: STOPPED, and the lock is free. */
  lemma LastDroppedInv(s: Server, k: Key)
    requires Inv(s) && IsDone(s, k) && s.futs[k].queued
    requires k in s.ledger && s.ledger[k].closesOrphan ==> !s.futs[k].ok
    requires s.state.Stopping? && s.ledger - {k} == map[]
    ensures Inv(EndWork(CallbackTaken(s, k), k))
  {
    hide Futures, StateFixesLedger, Coroutines, LockCoversWork, ListenerCovered, Binds, ClosesOnce, ThreadsCovered;
    LastDroppedLifeline(s, k);
    LastDroppedSockets(s, k);
    LastDroppedBackend(s, k);
    LastDroppedIs(s, k);
    FuturesDrop(s, k, EndWork(CallbackTaken(s, k), k));
  }

  lemma DroppedIs(s: Server, k: Key)
    requires IsDone(s, k) && !(s.state.Stopping? && s.ledger - {k} == map[])
    ensures EndWork(CallbackTaken(s, k), k) == Dropped(s, k)
  {
    hide Settle;
    NothingToSettle(Without(CallbackTaken(s, k), k));
  }

  lemma EntryRetiredInv(s: Server, k: Key)
    requires Inv(s) && IsDone(s, k) && s.futs[k].queued
    requires k in s.ledger && s.ledger[k].closesOrphan ==> !s.futs[k].ok
    ensures Inv(EndWork(CallbackTaken(s, k), k))
  {
    hide Inv, EndWork, Dropped;
    if s.state.Stopping? && s.ledger - {k} == map[] {
      LastDroppedInv(s, k);
    } else {
      DroppedIs(s, k);
      DroppedInv(s, k);
    }
  }

  lemma FailClosedFutures(s: Server)
    requires Futures(s) && IsDone(s, BindTask) && BindTask in s.ledger
    ensures Futures(FailClosed(CallbackTaken(s, BindTask), BindTask))
  {
  }

  lemma FailClosedPlaces(s: Server)
    requires IsDone(s, BindTask) && BindTask in s.ledger
    ensures var r := FailClosed(CallbackTaken(s, BindTask), BindTask);
            r.drain == s.drain && r.past.drained == s.past.drained
  {
  }

  lemma FailClosedLifeline(s: Server)
    requires Inv(s) && IsDone(s, BindTask) && s.futs[BindTask].ok
    requires BindTask in s.ledger && s.ledger[BindTask].closesOrphan
    ensures var r := FailClosed(CallbackTaken(s, BindTask), BindTask);
            StateFixesLedger(r) && Coroutines(r) && LockCoversWork(r)
  {
    hide Futures, ListenerCovered, Binds, ClosesOnce, ThreadsCovered;
    assert BindTask in FailClosed(CallbackTaken(s, BindTask), BindTask).ledger;
  }

  lemma FailClosedSockets(s: Server)
    requires Inv(s) && IsDone(s, BindTask) && s.futs[BindTask].ok
    requires BindTask in s.ledger && s.ledger[BindTask].closesOrphan
    ensures var r := FailClosed(CallbackTaken(s, BindTask), BindTask); ListenerCovered(r) && Binds(r)
  {
    hide Futures, ClosesOnce, ThreadsCovered, LockCoversWork;
    assert BindTask in FailClosed(CallbackTaken(s, BindTask), BindTask).ledger;
  }

  lemma FailClosedBackend(s: Server)
    requires Inv(s) && IsDone(s, BindTask) && s.futs[BindTask].ok
    requires BindTask in s.ledger && s.ledger[BindTask].closesOrphan
    ensures var r := FailClosed(CallbackTaken(s, BindTask), BindTask); ClosesOnce(r) && ThreadsCovered(r)
  {
    hide Futures, Binds, ListenerCovered;
    assert BindTask in FailClosed(CallbackTaken(s, BindTask), BindTask).ledger;
  }

  lemma FailClosedInv(s: Server)
    requires Inv(s) && IsDone(s, BindTask) && s.futs[BindTask].ok
    requires BindTask in s.ledger && s.ledger[BindTask].closesOrphan
    ensures Inv(FailClosed(CallbackTaken(s, BindTask), BindTask))
  {
    hide Futures, StateFixesLedger, Coroutines, LockCoversWork, ListenerCovered, Binds, ClosesOnce, ThreadsCovered;
    FailClosedLifeline(s);
    FailClosedSockets(s);
    FailClosedBackend(s);
    FailClosedFutures(s);
    FailClosedPlaces(s);
  }

  function OrphanClosed(s: Server, seen: Option<nat>): Server {
    s.(boundInode := if seen.Some? then seen else s.boundInode, sock := Closing, futs := s.futs[Closer := Pending],
       ledger := s.ledger[Closer := Work(ListenerCloseKind, true, false, None)] - {Listener} - {BindTask})
  }

  lemma OrphanClosedIs(s: Server, seen: Option<nat>)
    ensures EndWork(CloseOrphan(s, true, seen), BindTask) == OrphanClosed(s, seen)
  {
    hide BeginListenerClose, EndWork;
    BeginListenerCloseIs(Record(s, seen), true);
    EndWorkWhileOther(ListenerHandedOff(Record(s, seen), true), BindTask, Closer);
  }

  lemma OrphanClosedFutures(s: Server, seen: Option<nat>)
    requires Futures(s) && IsDone(s, BindTask)
    ensures Futures(OrphanClosed(CallbackTaken(s, BindTask), seen))
  {
    hide Futures;
    var r := Dropped(s, BindTask);
    FuturesDrop(s, BindTask, r);
    ListenerHandedOffFutures(r, true);
    FuturesSame(ListenerHandedOff(r, true), OrphanClosed(CallbackTaken(s, BindTask), seen));
  }

  lemma OrphanClosedPlaces(s: Server, seen: Option<nat>)
    requires IsDone(s, BindTask)
    ensures var r := OrphanClosed(CallbackTaken(s, BindTask), seen);
            r.drain == s.drain && r.past.drained == s.past.drained
  {
  }

  lemma OrphanClosedLifeline(s: Server, seen: Option<nat>)
    requires Inv(s) && IsDone(s, BindTask) && s.futs[BindTask].queued && s.futs[BindTask].ok
    requires BindTask in s.ledger && s.ledger[BindTask].closesOrphan
    ensures var r := OrphanClosed(CallbackTaken(s, BindTask), seen);
            StateFixesLedger(r) && Coroutines(r) && LockCoversWork(r)
  {
    hide Futures, ClosesOnce, ThreadsCovered;
    assert Closer in OrphanClosed(s, seen).ledger;
  }

  lemma OrphanClosedSockets(s: Server, seen: Option<nat>)
    requires Inv(s) && IsDone(s, BindTask) && s.futs[BindTask].queued && s.futs[BindTask].ok
    requires BindTask in s.ledger && s.ledger[BindTask].closesOrphan
    ensures var r := OrphanClosed(CallbackTaken(s, BindTask), seen); ListenerCovered(r) && Binds(r)
  {
    hide Futures, ClosesOnce, ThreadsCovered, LockCoversWork;
    assert Closer in OrphanClosed(s, seen).ledger;
  }

  lemma OrphanClosedBackend(s: Server, seen: Option<nat>)
    requires Inv(s) && IsDone(s, BindTask) && s.futs[BindTask].queued && s.futs[BindTask].ok
    requires BindTask in s.ledger && s.ledger[BindTask].closesOrphan
    ensures var r := OrphanClosed(CallbackTaken(s, BindTask), seen); ClosesOnce(r) && ThreadsCovered(r)
  {
    hide Futures, Binds, ListenerCovered;
    assert Closer in OrphanClosed(s, seen).ledger;
  }

  lemma OrphanClosedInv(s: Server, seen: Option<nat>)
    requires Inv(s) && IsDone(s, BindTask) && s.futs[BindTask].queued && s.futs[BindTask].ok
    requires BindTask in s.ledger && s.ledger[BindTask].closesOrphan
    ensures Inv(OrphanClosed(CallbackTaken(s, BindTask), seen))
  {
    hide Futures, StateFixesLedger, Coroutines, LockCoversWork, ListenerCovered, Binds, ClosesOnce, ThreadsCovered;
    OrphanClosedLifeline(s, seen);
    OrphanClosedSockets(s, seen);
    OrphanClosedBackend(s, seen);
    OrphanClosedFutures(s, seen);
    OrphanClosedPlaces(s, seen);
  }

  lemma OrphanRetiredInv(s: Server, fails: bool, seen: Option<nat>)
    requires Inv(s) && IsDone(s, BindTask) && s.futs[BindTask].queued && s.futs[BindTask].ok
    requires BindTask in s.ledger && s.ledger[BindTask].closesOrphan
    ensures Inv(Retire(CallbackTaken(s, BindTask), BindTask, true, fails, seen))
  {
    hide Inv, FailClosed, EndWork, CloseOrphan, OrphanClosed;
    if fails {
      FailClosedInv(s);
    } else {
      OrphanClosedIs(CallbackTaken(s, BindTask), seen);
      OrphanClosedInv(s, seen);
    }
  }

  lemma OrphansAreBinds(s: Server, k: Key)
    requires Inv(s) && k in s.ledger && s.ledger[k].closesOrphan
    ensures k == BindTask
  {
  }

  lemma RetireIs(s: Server, k: Key, ok: bool, fails: bool, seen: Option<nat>)
    requires k in s.ledger && s.ledger[k].closesOrphan ==> !ok
    ensures Retire(s, k, ok, fails, seen) == EndWork(s, k)
  {
    hide EndWork, FailClosed;
  }

  lemma CallbackTakenIs(s: Server, k: Key)
    requires IsDone(s, k)
    ensures CallbackTaken(s, k).ledger == s.ledger
  {
  }

  lemma CallbackInv(s: Server, k: Key, fails: bool, seen: Option<nat>)
    requires Inv(s) && IsDone(s, k) && s.futs[k].queued
    ensures Inv(Retire(CallbackTaken(s, k), k, s.futs[k].ok, fails, seen))
  {
    hide Inv, Retire, EndWork, CallbackTaken;
    CallbackTakenIs(s, k);
    if k in s.ledger && s.ledger[k].closesOrphan && s.futs[k].ok {
      OrphansAreBinds(s, k);
      OrphanRetiredInv(s, fails, seen);
    } else {
      RetireIs(CallbackTaken(s, k), k, s.futs[k].ok, fails, seen);
      EntryRetiredInv(s, k);
    }
  }

  // ---------------------------------------------------------------- shutdown()

  lemma ShutdownRequestedInv(s: Server)
    requires Inv(s) && (s.state.Stopping? || s.state.Stopped?)
    ensures Inv(ShutdownRequested(s))
  {
    hide Futures;
    FuturesEqual(s, ShutdownRequested(s));
  }

  lemma ShutdownUnstartedInv(s: Server)
    requires Inv(s) && s.state.New? && !s.start.Acquiring?
    ensures Inv(Transition(ShutdownRequested(s), Stopped))
  {
    hide Futures;
    FuturesEqual(s, Transition(ShutdownRequested(s), Stopped));
  }

  lemma ShutdownStartingInv(s: Server)
    requires Inv(s) && s.state.Starting? && !s.start.Acquiring?
    ensures Inv(Transition(ShutdownRequested(s), Stopping))
  {
    hide Futures;
    FuturesEqual(s, Transition(ShutdownRequested(s), Stopping));
  }

  lemma ScheduleDrainInv(s: Server)
    requires Inv(s) && s.state.Running?
    ensures Inv(ScheduleDrain(ShutdownRequested(s)))
  {
    hide Futures;
    var r := ScheduleDrain(ShutdownRequested(s));
    assert StopTask in r.ledger;
    FuturesNew(s, StopTask, Work(StepKind, false, false, None), r);
  }

  lemma ShutdownInv(s: Server)
    requires Inv(s) && !s.start.Acquiring?
    ensures Inv(Shutdown(s))
  {
    hide Inv, ScheduleDrain, Transition, ShutdownRequested;
    match s.state
    case New => ShutdownUnstartedInv(s);
    case Starting => ShutdownStartingInv(s);
    case Running => ScheduleDrainInv(s);
    case Stopping => ShutdownRequestedInv(s);
    case Stopped => ShutdownRequestedInv(s);
  }

  lemma EnterStopDrainInv(s: Server)
    requires Inv(s) && s.drain.Scheduled?
    ensures Inv(EnterDrain(s)) && Listener in EnterDrain(s).ledger
  {
    hide Futures;
    FuturesSame(s, EnterDrain(s));
  }

  lemma DrainSkippedInv(s: Server)
    requires Inv(s) && s.drain.Scheduled?
    ensures Inv(Finish(SetDrain(s, NoDrain), StopTask, false))
  {
    hide Futures;
    FuturesFinish(s, StopTask, false, Finish(SetDrain(s, NoDrain), StopTask, false));
  }

  // ---------------------------------------------------------------- the environment

  lemma SocketBoundInv(s: Server)
    requires Inv(s) && IsPending(s, BindTask) && s.sock.NoSock?
    ensures Inv(SetSock(s, Serving))
  {
    hide Futures;
    FuturesEqual(s, SetSock(s, Serving));
  }

  lemma BindFinishedInv(s: Server, ok: bool, seen: Option<nat>)
    requires Inv(s) && IsPending(s, BindTask) && (ok <==> s.sock.Serving?)
    ensures Inv(Finish(Record(s, seen), BindTask, ok))
  {
    hide Futures;
    FuturesFinish(s, BindTask, ok, Finish(Record(s, seen), BindTask, ok));
  }

  lemma AdoptedNewInv(s: Server, id: nat, abandoned: bool, name: string)
    requires Inv(s) && Adoptable(s.state) && !s.start.Acquiring? && s.drain != WaitSessions({})
    ensures Inv(TrackNew(s, Adopted(id), AdoptedKind, abandoned, Some(name)))
  {
    hide Futures;
    var r := TrackNew(s, Adopted(id), AdoptedKind, abandoned, Some(name));
    assert Adopted(id) in r.ledger;
    FuturesNew(s, Adopted(id), Work(AdoptedKind, abandoned, false, Some(name)), r);
  }

  lemma AdoptedAgainInv(s: Server, id: nat, abandoned: bool, name: string)
    requires Inv(s) && IsPending(s, Adopted(id))
    ensures Inv(Track(s, Adopted(id), AdoptedKind, abandoned, false, Some(name)))
  {
    hide Inv;
    PendingTracked(s, Adopted(id));
    OnlyMarksInv(s, Track(s, Adopted(id), AdoptedKind, abandoned, false, Some(name)));
  }

  lemma CloserCompletedInv(s: Server, ok: bool)
    requires Inv(s) && IsPending(s, Closer)
    ensures Inv(Finish(SetSock(s, Closed), Closer, ok))
  {
    hide Futures;
    PendingTracked(s, Closer);
    FuturesFinish(s, Closer, ok, Finish(SetSock(s, Closed), Closer, ok));
  }

  lemma FinishPlaces(s: Server, k: Key, ok: bool)
    ensures var r := Finish(s, k, ok); r.drain == s.drain && r.past.drained == s.past.drained && r.ledger == s.ledger
  {
  }

  lemma WorkCompletedLifeline(s: Server, k: Key, ok: bool)
    requires Inv(s) && IsPending(s, k) && (k == CloseTask || k.Adopted?)
    ensures var r := Finish(s, k, ok); StateFixesLedger(r) && Coroutines(r) && LockCoversWork(r)
  {
    hide Futures, ListenerCovered, Binds, ClosesOnce, ThreadsCovered;
  }

  lemma WorkCompletedSockets(s: Server, k: Key, ok: bool)
    requires Inv(s) && IsPending(s, k) && (k == CloseTask || k.Adopted?)
    ensures var r := Finish(s, k, ok); ListenerCovered(r) && Binds(r)
  {
    hide Futures, ClosesOnce, ThreadsCovered, LockCoversWork;
  }

  lemma WorkCompletedBackend(s: Server, k: Key, ok: bool)
    requires Inv(s) && IsPending(s, k) && (k == CloseTask || k.Adopted?)
    ensures var r := Finish(s, k, ok); ClosesOnce(r) && ThreadsCovered(r)
  {
    hide Futures, Binds, ListenerCovered;
  }

  lemma WorkCompletedInv(s: Server, k: Key, ok: bool)
    requires Inv(s) && IsPending(s, k) && (k == CloseTask || k.Adopted?)
    ensures Inv(Finish(s, k, ok))
  {
    hide Futures, StateFixesLedger, Coroutines, LockCoversWork, ListenerCovered, Binds, ClosesOnce, ThreadsCovered;
    WorkCompletedLifeline(s, k, ok);
    WorkCompletedSockets(s, k, ok);
    WorkCompletedBackend(s, k, ok);
    PendingTracked(s, k);
    FinishPlaces(s, k, ok);
    FuturesFinish(s, k, ok, Finish(s, k, ok));
  }

  lemma IdleCompletedInv(s: Server, ok: bool)
    requires Inv(s) && IsPending(s, IdleFuture) && s.past.idleSeen
    ensures Inv(Finish(s, IdleFuture, ok))
  {
    hide Futures;
    PendingTracked(s, IdleFuture);
    FuturesFinish(s, IdleFuture, ok, Finish(s, IdleFuture, ok));
  }

  lemma CompletedInv(s: Server, k: Key, ok: bool)
    requires Inv(s) && Enabled(s, Completed(k, ok))
    ensures Inv(Do(s, Completed(k, ok)))
  {
    hide Inv, Finish;
    if k.Closer? { CloserCompletedInv(s, ok); }
    else if k.IdleFuture? { IdleCompletedInv(s, ok); }
    else { WorkCompletedInv(s, k, ok); }
  }

  lemma IdleObservedInv(s: Server)
    requires Inv(s) && s.past.threads == {}
    ensures Inv(SawIdle(s))
  {
    assert ThreadsCovered(SawIdle(s));
    hide Inv, ThreadsCovered;
    OnlyThreadsInv(s, SawIdle(s));
  }

  lemma NewTaskFutures(s: Server, id: nat, handler: bool)
    requires Futures(s) && Task(id) !in s.futs
    ensures Futures(NewTask(s, id, handler))
  {
  }

  lemma TasksHoldTheLock(s: Server, id: nat)
    requires Inv(s) && id in s.tasks
    ensures s.lock && Task(id) in s.ledger
  {
    assert Owed(s, Task(id));
  }

  lemma NewTaskListener(s: Server, id: nat, handler: bool)
    requires Inv(s)
    ensures ListenerCovered(NewTask(s, id, handler)) && Binds(NewTask(s, id, handler))
  {
    hide Futures, StateFixesLedger, LockCoversWork, ClosesOnce, ThreadsCovered, Coroutines;
  }

  lemma NewTaskInv(s: Server, id: nat, handler: bool)
    requires Inv(s) && s.lock && Task(id) !in s.futs && (s.past.drained ==> s.past.late || s.past.missed)
    ensures Inv(NewTask(s, id, handler))
  {
    hide Futures, ListenerCovered, Binds;
    NewTaskFutures(s, id, handler);
    NewTaskListener(s, id, handler);
    assert Task(id) in NewTask(s, id, handler).ledger;
  }

  lemma LateInv(s: Server)
    requires Inv(s)
    ensures Inv(NoteLate(s))
  {
    assert ThreadsCovered(NoteLate(s));
    hide Inv, ThreadsCovered;
    OnlyThreadsInv(s, NoteLate(s));
  }

  lemma HandlerStartedInv(s: Server, id: nat)
    requires Inv(s) && (s.sock.Serving? || s.sock.Closing?) && Task(id) !in s.futs
    ensures Inv(NewTask(NoteLate(s), id, true))
  {
    hide Inv, NewTask;
    ServingHoldsTheLock(s);
    LateInv(s);
    NewTaskInv(NoteLate(s), id, true);
  }

  /** After the drain only a late session, or none at all, can start a decode. */
  lemma UncancelledAfterDrain(s: Server, id: nat)
    requires Inv(s) && id in s.tasks && !s.tasks[id].cancelled
    ensures s.lock && (s.past.drained ==> s.past.late || s.past.missed)
  {
    TasksHoldTheLock(s, id);
  }

  lemma DecodeStartedInv(s: Server, parent: nat, id: nat)
    requires Inv(s) && parent in s.tasks && !s.tasks[parent].cancelled && Task(id) !in s.futs
    ensures Inv(NewTask(s, id, false))
  {
    hide Inv, NewTask;
    UncancelledAfterDrain(s, parent);
    NewTaskInv(s, id, false);
  }

  lemma TaskFinishedFutures(s: Server, id: nat)
    requires Futures(s) && id in s.tasks
    ensures Futures(Finish(TaskGone(s, id), Task(id), true))
  {
  }

  lemma TaskFinishedPlaces(s: Server, id: nat)
    ensures var r := Finish(TaskGone(s, id), Task(id), true); r.drain == s.drain && r.past.drained == s.past.drained
  {
  }

  lemma TaskFinishedLifeline(s: Server, id: nat)
    requires Inv(s) && id in s.tasks
    ensures var r := Finish(TaskGone(s, id), Task(id), true); StateFixesLedger(r) && Coroutines(r) && LockCoversWork(r)
  {
    hide Futures, ListenerCovered, Binds, ClosesOnce, ThreadsCovered;
  }

  lemma TaskFinishedSockets(s: Server, id: nat)
    requires Inv(s) && id in s.tasks
    ensures var r := Finish(TaskGone(s, id), Task(id), true); ListenerCovered(r) && Binds(r)
  {
    hide Futures, ClosesOnce, ThreadsCovered, LockCoversWork;
  }

  lemma TaskFinishedBackend(s: Server, id: nat)
    requires Inv(s) && id in s.tasks
    ensures var r := Finish(TaskGone(s, id), Task(id), true); ClosesOnce(r) && ThreadsCovered(r)
  {
    hide Futures, Binds, ListenerCovered;
  }

  lemma TaskFinishedInv(s: Server, id: nat)
    requires Inv(s) && id in s.tasks
    ensures Inv(Finish(TaskGone(s, id), Task(id), true))
  {
    hide Futures, StateFixesLedger, Coroutines, LockCoversWork, ListenerCovered, Binds, ClosesOnce, ThreadsCovered;
    TaskFinishedLifeline(s, id);
    TaskFinishedSockets(s, id);
    TaskFinishedBackend(s, id);
    TaskFinishedFutures(s, id);
    TaskFinishedPlaces(s, id);
  }

  /** Only decode threads, and what is known about them, changed. */
  predicate OnlyThreads(s: Server, t: Server) {
    t == s.(past := s.past.(threads := t.past.threads, late := t.past.late, idleSeen := t.past.idleSeen))
  }

  lemma OnlyThreadsState(s: Server, t: Server)
    requires OnlyThreads(s, t) && StateFixesLedger(s)
    ensures StateFixesLedger(t)
  {
  }

  lemma OnlyThreadsCoroutines(s: Server, t: Server)
    requires OnlyThreads(s, t) && Coroutines(s)
    ensures Coroutines(t)
  {
  }

  lemma OnlyThreadsLock(s: Server, t: Server)
    requires OnlyThreads(s, t) && LockCoversWork(s)
    ensures LockCoversWork(t)
  {
  }

  lemma OnlyThreadsListener(s: Server, t: Server)
    requires OnlyThreads(s, t) && ListenerCovered(s)
    ensures ListenerCovered(t)
  {
  }

  lemma OnlyThreadsBinds(s: Server, t: Server)
    requires OnlyThreads(s, t) && Binds(s)
    ensures Binds(t)
  {
  }

  lemma OnlyThreadsCloses(s: Server, t: Server)
    requires OnlyThreads(s, t) && ClosesOnce(s)
    ensures ClosesOnce(t)
  {
  }

  lemma OnlyThreadsInv(s: Server, t: Server)
    requires OnlyThreads(s, t) && Inv(s) && ThreadsCovered(t)
    ensures Inv(t)
  {
    hide StateFixesLedger, Coroutines, LockCoversWork, ListenerCovered, Binds, ClosesOnce, Futures, ThreadsCovered;
    OnlyThreadsState(s, t);
    OnlyThreadsCoroutines(s, t);
    OnlyThreadsLock(s, t);
    OnlyThreadsListener(s, t);
    OnlyThreadsBinds(s, t);
    OnlyThreadsCloses(s, t);
    FuturesEqual(s, t);
  }

  /** A decode is marked under the lock before the drain ended, or late. */
  lemma ThreadAddedInv(s: Server, id: nat)
    requires Inv(s) && (s.past.drained ==> s.past.late || s.past.missed) && (s.lock || s.past.late || s.past.missed)
             && !s.start.Acquiring?
    ensures Inv(SetThreads(s, s.past.threads + {id}))
  {
    ThreadAddedCovered(s, id);
    hide Inv, ThreadsCovered;
    OnlyThreadsInv(s, SetThreads(s, s.past.threads + {id}));
  }

  lemma ThreadAddedCovered(s: Server, id: nat)
    requires ThreadsCovered(s) && (s.past.drained ==> s.past.late || s.past.missed)
             && (s.lock || s.past.late || s.past.missed) && !s.start.Acquiring?
    ensures ThreadsCovered(SetThreads(s, s.past.threads + {id}))
  {
  }

  lemma ThreadMarkedInv(s: Server, id: nat)
    requires Inv(s) && id in s.tasks && !s.tasks[id].cancelled && !s.start.Acquiring?
    ensures Inv(SetThreads(s, s.past.threads + {id}))
  {
    hide Inv, SetThreads;
    UncancelledAfterDrain(s, id);
    ThreadAddedInv(s, id);
  }

  /** Before the drain ended an adopted step has the lock over it. */
  lemma AdoptedHoldTheLock(s: Server, step: nat)
    requires Inv(s) && IsPending(s, Adopted(step))
    ensures s.lock || s.past.drained
  {
    hide Futures;
    PendingTracked(s, Adopted(step));
  }

  lemma StepMarkedInv(s: Server, step: nat, id: nat)
    requires Inv(s) && IsPending(s, Adopted(step)) && !s.start.Acquiring?
    ensures Inv(SetThreads(NoteLate(s), s.past.threads + {id}))
  {
    hide Inv, SetThreads, NoteLate;
    AdoptedHoldTheLock(s, step);
    LateInv(s);
    NoteLateIs(s);
    ThreadAddedInv(NoteLate(s), id);
  }

  lemma NoteLateIs(s: Server)
    ensures var t := NoteLate(s);
            t.past.threads == s.past.threads && t.lock == s.lock && t.start == s.start
            && t.past.drained == s.past.drained
    ensures NoteLate(s).past.late == (s.past.late || s.past.drained)
  {
  }

  lemma ThreadEndedInv(s: Server, id: nat)
    requires Inv(s) && id in s.past.threads
    ensures Inv(SetThreads(s, s.past.threads - {id}))
  {
    ThreadEndedCovered(s, id);
    hide Inv, ThreadsCovered;
    OnlyThreadsInv(s, SetThreads(s, s.past.threads - {id}));
  }

  lemma ThreadEndedCovered(s: Server, id: nat)
    requires ThreadsCovered(s) && id in s.past.threads
    ensures ThreadsCovered(SetThreads(s, s.past.threads - {id}))
  {
  }

  // ---------------------------------------------------------------- every step

  lemma StartStepInv(s: Server, a: Action)
    requires Inv(s) && Enabled(s, a)
    requires a.StartCall? || a.LockTaken? || a.LockRefused? || a.BackendStarted? || a.BackendFailed?
          || a.StartResumed? || a.StartCancelled?
    ensures Inv(Do(s, a))
  {
    hide Inv, StartEntered, Unwind, BackendReturned, BindReturned, BindCancelled;
    match a
    case StartCall => StartEnteredInv(s);
    case LockTaken => LockTakenInv(s);
    case LockRefused(idle) => UnwindEarlyInv(s, idle);
    case BackendStarted => BackendReturnedInv(s);
    case BackendFailed(idle) => UnwindEarlyInv(s, idle);
    case StartResumed(seen) => BindReturnedInv(s, seen);
    case StartCancelled(seen) => BindCancelledInv(s, seen);
  }

  lemma StopStepInv(s: Server, a: Action)
    requires Inv(s) && Enabled(s, a)
    requires a.ShutdownCall? || a.ShutdownCallerCancelled? || a.DrainStarted? || a.DrainSkipped?
          || a.DrainResumed? || a.DrainCancelled?
    ensures Inv(Do(s, a))
  {
    hide Inv, Shutdown, CancelSessions, EnterDrain, DrainFirst, Finish, DrainResume, DrainFinish;
    match a
    case ShutdownCall => ShutdownInv(s);
    case ShutdownCallerCancelled => CancelSessionsInv(s);
    case DrainStarted =>
      EnterStopDrainInv(s);
      EnterDrainWaits(s);
      DrainFirstInv(EnterDrain(s), false);
    case DrainSkipped => DrainSkippedInv(s);
    case DrainResumed(idle) => DrainResumeInv(s, idle);
    case DrainCancelled(idle) =>
      DrainUnderWay(s);
      DrainFinishInv(s, idle);
  }

  lemma EnterDrainWaits(s: Server)
    ensures DrainWaits(EnterDrain(s))
  {
  }

  lemma FutureStepInv(s: Server, a: Action)
    requires Inv(s) && Enabled(s, a)
    requires a.SocketBound? || a.BindFinished? || a.Adopt? || a.Completed? || a.IdleObserved? || a.CallbackRan?
    ensures Inv(Do(s, a))
  {
    hide Inv, Finish, Record, TrackNew, Track, Retire;
    match a
    case SocketBound => SocketBoundInv(s);
    case BindFinished(ok, seen) => BindFinishedInv(s, ok, if ok then seen else None);
    case Adopt(id, abandoned, name) =>
      if Adopted(id) in s.futs { AdoptedAgainInv(s, id, abandoned, name); }
      else { AdoptedNewInv(s, id, abandoned, name); }
    case Completed(k, ok) => CompletedInv(s, k, ok);
    case IdleObserved => IdleObservedInv(s);
    case CallbackRan(k, fails, seen) => CallbackInv(s, k, fails, seen);
  }

  lemma TaskStepInv(s: Server, a: Action)
    requires Inv(s) && Enabled(s, a)
    requires TaskSteps(a)
    ensures Inv(Do(s, a))
  {
    hide Inv, NewTask, Finish, CancelTasks;
    match a
    case HandlerStarted(id) => HandlerStartedInv(s, id);
    case DecodeStarted(parent, id) => DecodeStartedInv(s, parent, id);
    case TaskCancelled(id) => CancelTasksInv(s, {id});
    case TaskFinished(id) => TaskFinishedInv(s, id);
    case ThreadMarked(id) => ThreadMarkedInv(s, id);
    case StepMarked(step, id) => StepMarkedInv(s, step, id);
    case ThreadEnded(id) => ThreadEndedInv(s, id);
  }

  /** Every step of the server and of its environment keeps the invariant. */
  lemma StepInv(s: Server, a: Action)
    requires Inv(s) && Enabled(s, a)
    ensures Inv(Do(s, a))
  {
    hide Inv, Do, Enabled;
    match a
    case StartCall => StartStepInv(s, a);
    case LockTaken => StartStepInv(s, a);
    case LockRefused(_) => StartStepInv(s, a);
    case BackendStarted => StartStepInv(s, a);
    case BackendFailed(_) => StartStepInv(s, a);
    case StartResumed(_) => StartStepInv(s, a);
    case StartCancelled(_) => StartStepInv(s, a);
    case ShutdownCall => StopStepInv(s, a);
    case ShutdownCallerCancelled => StopStepInv(s, a);
    case DrainStarted => StopStepInv(s, a);
    case DrainSkipped => StopStepInv(s, a);
    case DrainResumed(_) => StopStepInv(s, a);
    case DrainCancelled(_) => StopStepInv(s, a);
    case SocketBound => FutureStepInv(s, a);
    case BindFinished(_, _) => FutureStepInv(s, a);
    case Adopt(_, _, _) => FutureStepInv(s, a);
    case Completed(_, _) => FutureStepInv(s, a);
    case IdleObserved => FutureStepInv(s, a);
    case CallbackRan(_, _, _) => FutureStepInv(s, a);
    case HandlerStarted(_) => TaskStepInv(s, a);
    case DecodeStarted(_, _) => TaskStepInv(s, a);
    case TaskCancelled(_) => TaskStepInv(s, a);
    case TaskFinished(_) => TaskStepInv(s, a);
    case ThreadMarked(_) => TaskStepInv(s, a);
    case StepMarked(_, _) => TaskStepInv(s, a);
    case ThreadEnded(_) => TaskStepInv(s, a);
  }
}
