/** A stopping server stops: a measure that every move lowers. */
module LifecycleProgress {
  import opened Wrappers
  import opened Lifecycle
  import opened LifecycleInvariant
  import opened LockSteps

  // ---------------------------------------------------------------- the measure

  function PendingKeys(futs: map<Key, Fut>): set<Key> { set k | k in futs && futs[k].Pending? }

  function QueuedKeys(futs: map<Key, Fut>): set<Key> { set k | k in futs && futs[k].Done? && futs[k].queued }

  /** A pending future still has to complete and to run its callback. */
  function FutsWeight(futs: map<Key, Fut>): nat { 2 * |PendingKeys(futs)| + |QueuedKeys(futs)| }

  /** A start that goes on still has to unwind. */
  function StartWeight(pc: StartPc): nat { if pc.Idle? || pc.Unwinding? then 0 else 30 }

  function DrainWeight(pc: DrainPc): nat {
    match pc
    case NoDrain => 0
    case Scheduled => 30
    case WaitSessions(_) => 16
    case WaitCancelled => 15
    case WaitCloser => 14
    case WaitBackendClose => 9
  }

  /** An orphan bind counts for itself and for its successor, the close. */
  function OrphanWeight(ledger: map<Key, Work>): nat {
    if BindTask in ledger && ledger[BindTask].closesOrphan then 3 else 0
  }

  function SockWeight(futs: map<Key, Fut>, sock: Sock): nat {
    if BindTask in futs && futs[BindTask].Pending? && sock.NoSock? then 1 else 0
  }

  function IdleWeight(futs: map<Key, Fut>, idleSeen: bool): nat {
    if IdleFuture in futs && futs[IdleFuture].Pending? && !idleSeen then 1 else 0
  }

  function Weight(s: Server): nat {
    FutsWeight(s.futs) + StartWeight(s.start) + DrainWeight(s.drain) + OrphanWeight(s.ledger)
    + SockWeight(s.futs, s.sock) + IdleWeight(s.futs, s.past.idleSeen) + |s.past.threads|
  }

  lemma FutsNew(futs: map<Key, Fut>, k: Key)
    ensures FutsWeight(futs[k := Pending]) <= FutsWeight(futs) + 2
  {
    var f := futs[k := Pending];
    assert PendingKeys(f) == PendingKeys(futs) + {k};
    assert QueuedKeys(f) == QueuedKeys(futs) - {k};
  }

  lemma FutsDone(futs: map<Key, Fut>, k: Key, ok: bool, queued: bool)
    ensures var w := FutsWeight(futs[k := Done(ok, queued)]);
            w <= (if k in futs && futs[k].Pending? then FutsWeight(futs) - 1 else FutsWeight(futs) + 1)
  {
    PendingsDone(futs, k, ok, queued);
    QueuedDone(futs, k, ok, queued);
    assert k in PendingKeys(futs) <==> k in futs && futs[k].Pending?;
    hide PendingKeys, QueuedKeys;
  }

  lemma PendingsDone(futs: map<Key, Fut>, k: Key, ok: bool, queued: bool)
    ensures PendingKeys(futs[k := Done(ok, queued)]) == PendingKeys(futs) - {k}
  {
  }

  lemma Fewer(a: set<Key>, b: set<Key>)
    requires a <= b
    ensures |a| <= |b|
  {
    assert b == a + (b - a);
  }

  lemma QueuedDone(futs: map<Key, Fut>, k: Key, ok: bool, queued: bool)
    ensures QueuedKeys(futs[k := Done(ok, queued)]) <= QueuedKeys(futs) + {k}
    ensures |QueuedKeys(futs[k := Done(ok, queued)])| <= |QueuedKeys(futs)| + 1
  {
    var q := QueuedKeys(futs[k := Done(ok, queued)]);
    Fewer(q, QueuedKeys(futs) + {k});
  }

  lemma FutsTaken(futs: map<Key, Fut>, k: Key)
    requires k in futs && futs[k].Done? && futs[k].queued
    ensures FutsWeight(futs[k := Done(futs[k].ok, false)]) == FutsWeight(futs) - 1
  {
    var f := futs[k := Done(futs[k].ok, false)];
    assert PendingKeys(f) == PendingKeys(futs);
    assert QueuedKeys(f) == QueuedKeys(futs) - {k};
  }

  /** A segment adds at most `d`, makes and loses no entry that failed closed,
      and forgets no drain. */
  ghost predicate Eases(s: Server, t: Server, d: int) {
    && Weight(t) <= Weight(s) + d
    && (FailedClosed(s) <==> FailedClosed(t))
    && (s.past.drained ==> t.past.drained)
  }

  lemma EasesTrans(s: Server, t: Server, u: Server, d: int, e: int)
    requires Eases(s, t, d) && Eases(t, u, e)
    ensures Eases(s, u, d + e)
  {
    hide Weight, FailedClosed;
  }

  // ---------------------------------------------------------------- the parts of a segment

  lemma EndWorkEases(s: Server, k: Key)
    requires k != BindTask
    ensures Eases(s, EndWork(s, k), 0)
  {
    hide FutsWeight;
  }

  lemma CancelSessionsEases(s: Server)
    ensures Eases(s, CancelSessions(s), 0)
  {
    hide FutsWeight, LiveSessions;
  }

  lemma CancelTasksEases(s: Server, ids: set<nat>)
    ensures Eases(s, CancelTasks(s, ids), 0)
  {
    hide FutsWeight, Cancel;
  }

  lemma SetDrainEases(s: Server, pc: DrainPc)
    ensures Eases(s, SetDrain(s, pc), DrainWeight(pc) - DrainWeight(s.drain))
  {
    hide FutsWeight, DrainWeight;
  }

  lemma TrackNewEases(s: Server, k: Key, kind: Kind, stuck: bool, name: Option<string>)
    requires k != BindTask && k != IdleFuture
    ensures Eases(s, TrackNew(s, k, kind, stuck, name), 2)
  {
    hide FutsWeight;
    FutsNew(s.futs, k);
  }

  lemma CloseBegunEases(s: Server, stuck: bool)
    requires !s.closeSlot
    ensures Eases(s, EnsureBackendClose(s, true, stuck), 2)
  {
    hide FutsWeight, Tracked;
    FutsNew(s.futs, CloseTask);
  }

  lemma CloseMarkedEases(s: Server, due: bool, stuck: bool)
    requires s.closeSlot || !due
    ensures Eases(s, EnsureBackendClose(s, due, stuck), 2)
  {
    hide Eases, EnsureBackendClose, Track;
    CloseMarkedIs(s, due, stuck);
    TrackEases(s, CloseTask, CloseKind, true, None);
    SameEases(s);
    EasesWeaker(s, EnsureBackendClose(s, due, stuck), 0, 2);
  }

  lemma CloseMarkedIs(s: Server, due: bool, stuck: bool)
    requires s.closeSlot || !due
    ensures EnsureBackendClose(s, due, stuck) ==
            if s.closeSlot && stuck then Track(s, CloseTask, CloseKind, true, false, None) else s
  {
    hide Tracked;
  }

  lemma EnsureBackendCloseEases(s: Server, due: bool, stuck: bool)
    ensures Eases(s, EnsureBackendClose(s, due, stuck), 2)
  {
    hide Eases, EnsureBackendClose;
    if due && !s.closeSlot { CloseBegunEases(s, stuck); } else { CloseMarkedEases(s, due, stuck); }
  }

  lemma HandOverThreadsEases(s: Server, idle: bool)
    ensures Eases(s, HandOverThreads(s, idle), 3) && HandOverThreads(s, idle).past.drained
  {
    hide FutsWeight;
    FutsNew(s.futs, IdleFuture);
  }

  lemma KeepLockEases(s: Server, idle: bool)
    ensures Eases(s, KeepLock(s, idle), 5) && KeepLock(s, idle).past.drained && KeepLock(s, idle).drain == s.drain
  {
    hide Eases, CancelSessions, EnsureBackendClose, HandOverThreads;
    CancelSessionsFrame(s);
    var s1 := CancelSessions(s);
    EnsureBackendCloseFrame(s1, s.drainCloses, true);
    CancelSessionsEases(s);
    EnsureBackendCloseEases(s1, s.drainCloses, true);
    var s2 := EnsureBackendClose(s1, s.drainCloses, true);
    HandOverThreadsEases(s2, idle);
    HandOverThreadsDrain(s2, idle);
    EasesTrans(s, s1, s2, 0, 2);
    EasesTrans(s, s2, HandOverThreads(s2, idle), 2, 3);
  }

  lemma HandOverThreadsDrain(s: Server, idle: bool)
    ensures HandOverThreads(s, idle).drain == s.drain
  {
  }

  lemma DrainEndedEases(s: Server, idle: bool)
    ensures Eases(s, DrainEnded(s, idle), 5 - DrainWeight(s.drain)) && DrainEnded(s, idle).past.drained
  {
    hide Eases, KeepLock, EndWork, SetDrain;
    var h := KeepLock(s, idle);
    KeepLockEases(s, idle);
    SetDrainEases(h, NoDrain);
    EasesTrans(s, h, SetDrain(h, NoDrain), 5, 0 - DrainWeight(s.drain));
    EndWorkEases(SetDrain(h, NoDrain), DrainToken);
    EasesTrans(s, SetDrain(h, NoDrain), DrainEnded(s, idle), 5 - DrainWeight(s.drain), 0);
    DrainedKept(h, SetDrain(h, NoDrain), DrainWeight(NoDrain) - DrainWeight(h.drain));
    DrainedKept(SetDrain(h, NoDrain), DrainEnded(s, idle), 0);
  }

  lemma DrainedKept(s: Server, t: Server, d: int)
    requires Eases(s, t, d) && s.past.drained
    ensures t.past.drained
  {
  }

  lemma StartFinallyEases(s: Server)
    ensures Eases(s, StartFinally(s), 0)
  {
    hide FutsWeight;
  }

  lemma FinishEases(s: Server, k: Key, ok: bool)
    requires k != BindTask
    ensures Eases(s, Finish(s, k, ok), if IsPending(s, k) then -1 else 1)
  {
    hide FutsWeight;
    FutsDone(s.futs, k, ok, k in s.ledger);
  }

  // ---------------------------------------------------------------- the drain

  /** Somebody still runs this attempt's drain, or it has ended. */
  predicate Owned(s: Server) {
    s.drain != WaitSessions({}) && (s.past.drained || !s.start.Idle? || !s.drain.NoDrain?)
  }

  /** What a drain's continuation ends in. */
  ghost predicate Onward(s: Server, t: Server, d: int) { Eases(s, t, d - DrainWeight(s.drain)) && Owned(t) }

  lemma DrainFinishOnward(s: Server, idle: bool)
    ensures Onward(s, DrainFinish(s, idle), 6)
  {
    hide Eases, DrainEnded, StartFinally, Finish, DrainWeight;
    var t := DrainEnded(s, idle);
    DrainEndedEases(s, idle);
    if s.start.Unwinding? {
      StartFinallyEases(t);
      EasesTrans(s, t, StartFinally(t), 5 - DrainWeight(s.drain), 0);
      DrainedKept(t, StartFinally(t), 0);
      EasesWeaker(s, StartFinally(t), 5 - DrainWeight(s.drain), 6 - DrainWeight(s.drain));
    } else {
      FinishEases(t, StopTask, true);
      var e := if IsPending(t, StopTask) then -1 else 1;
      EasesTrans(s, t, Finish(t, StopTask, true), 5 - DrainWeight(s.drain), e);
      DrainedKept(t, Finish(t, StopTask, true), e);
      EasesWeaker(s, Finish(t, StopTask, true), 5 - DrainWeight(s.drain) + e, 6 - DrainWeight(s.drain));
    }
    DrainOver(s, idle);
  }

  lemma EasesWeaker(s: Server, t: Server, d: int, e: int)
    requires Eases(s, t, d) && d <= e
    ensures Eases(s, t, e)
  {
    hide Weight, FailedClosed;
  }

  lemma DrainOver(s: Server, idle: bool)
    ensures DrainFinish(s, idle).drain.NoDrain?
  {
    hide KeepLock;
  }

  lemma CloseBackendOnward(s: Server)
    ensures Onward(s, CloseBackend(s), 11)
  {
    hide Eases, EnsureBackendClose;
    var t := EnsureBackendClose(s, true, false);
    EnsureBackendCloseEases(s, true, false);
    EnsureBackendCloseFrame(s, true, false);
    SetDrainEases(t, WaitBackendClose);
    EasesTrans(s, t, SetDrain(t, WaitBackendClose), 2, 9 - DrainWeight(s.drain));
  }

  lemma OnwardWeaker(s: Server, t: Server, d: int, e: int)
    requires Onward(s, t, d) && d <= e
    ensures Onward(s, t, e)
  {
    hide Eases, DrainWeight;
    EasesWeaker(s, t, d - DrainWeight(s.drain), e - DrainWeight(s.drain));
  }

  lemma AfterCloserOnward(s: Server, idle: bool)
    ensures Onward(s, AfterCloser(s, idle), 11)
  {
    hide Onward, CloseBackend, DrainFinish;
    if s.drainCloses { CloseBackendOnward(s); }
    else {
      DrainFinishOnward(s, idle);
      OnwardWeaker(s, DrainFinish(s, idle), 6, 11);
    }
  }

  lemma SetDrainOnward(s: Server, pc: DrainPc)
    requires pc != WaitSessions({}) && !pc.NoDrain?
    ensures Onward(s, SetDrain(s, pc), DrainWeight(pc))
  {
    hide Eases, DrainWeight;
    SetDrainEases(s, pc);
  }

  lemma AfterSessionsOnward(s: Server, idle: bool)
    ensures Onward(s, AfterSessions(s, idle), 14)
  {
    hide Onward, AfterCloser, SetDrain;
    if s.listenerSlot { SetDrainOnward(s, WaitCloser); }
    else {
      AfterCloserOnward(s, idle);
      OnwardWeaker(s, AfterCloser(s, idle), 11, 14);
    }
  }

  lemma ClosingEases(s: Server)
    ensures Eases(s, SetSock(s, Closing), 0)
  {
    hide FutsWeight;
  }

  lemma BeginListenerCloseEases(s: Server, stuck: bool)
    ensures Eases(s, BeginListenerClose(s, stuck), 2)
  {
    hide Eases, EndWork, TrackNew, SetSock;
    ClosingEases(s);
    var t := SetSock(s, Closing);
    TrackNewEases(t, Closer, ListenerCloseKind, stuck, None);
    var u := TrackNew(t, Closer, ListenerCloseKind, stuck, None);
    EasesTrans(s, t, u, 0, 2);
    EndWorkEases(u, Listener);
    EasesTrans(s, u, EndWork(u, Listener), 2, 0);
  }

  lemma OnwardTrans(s: Server, t: Server, u: Server, d: int, e: int)
    requires Eases(s, t, d) && t.drain == s.drain && Onward(t, u, e)
    ensures Onward(s, u, d + e)
  {
    hide Eases, DrainWeight;
    EasesTrans(s, t, u, d, e - DrainWeight(s.drain));
  }

  lemma SameEases(s: Server)
    ensures Eases(s, s, 0)
  {
    hide Weight, FailedClosed;
  }

  lemma CloseListenerEases(s: Server)
    ensures Eases(s, CloseListener(s), 2) && CloseListener(s).drain == s.drain
  {
    hide Eases, BeginListenerClose;
    SameEases(s);
    BeginListenerCloseEases(s, false);
    EasesWeaker(s, s, 0, 2);
    ListenerCloseDrain(s, false);
  }

  lemma ListenerCloseDrain(s: Server, stuck: bool)
    ensures BeginListenerClose(s, stuck).drain == s.drain
  {
  }

  lemma DrainFirstOnward(s: Server, idle: bool)
    ensures Onward(s, DrainFirst(s, idle), 18)
  {
    hide Eases, Onward, AfterSessions, LiveSessions, CloseListener, SetDrain;
    CloseListenerEases(s);
    var t := CloseListener(s);
    if LiveSessions(s) != {} {
      SetDrainOnward(t, WaitSessions(LiveSessions(s)));
      OnwardTrans(s, t, SetDrain(t, WaitSessions(LiveSessions(s))), 2, 16);
    } else {
      AfterSessionsOnward(t, idle);
      OnwardTrans(s, t, AfterSessions(t, idle), 2, 14);
      OnwardWeaker(s, AfterSessions(t, idle), 16, 18);
    }
  }

  lemma EnterDrainEases(s: Server)
    ensures Eases(s, EnterDrain(s), 16 - DrainWeight(s.drain)) && EnterDrain(s).drain == WaitSessions({})
  {
    hide FutsWeight;
  }

  lemma DrainBeginOnward(s: Server, idle: bool)
    ensures Onward(s, DrainBegin(s, idle), 18)
  {
    hide Eases, EnterDrain, DrainFirst;
    EnterDrainEases(s);
    DrainFirstOnward(EnterDrain(s), idle);
    EasesTrans(s, EnterDrain(s), DrainBegin(s, idle), 16 - DrainWeight(s.drain), 2);
  }

  lemma SetUnwindingEases(s: Server, backendStarted: bool)
    ensures Eases(s, SetUnwinding(s, backendStarted), 0 - StartWeight(s.start))
  {
    hide FutsWeight;
  }

  /** A start that gives up lowers the measure. */
  lemma UnwindEases(s: Server, backendStarted: bool, idle: bool)
    requires StartGoesOn(s)
    ensures Eases(s, Unwind(s, backendStarted, idle), -12) && Owned(Unwind(s, backendStarted, idle))
  {
    hide Eases, DrainBegin, DrainWeight;
    SetUnwindingEases(s, backendStarted);
    var t := SetUnwinding(s, backendStarted);
    DrainBeginOnward(t, idle);
    EasesTrans(s, t, DrainBegin(t, idle), -30, 18 - DrainWeight(s.drain));
    EasesWeaker(s, DrainBegin(t, idle), -12 - DrainWeight(s.drain), -12);
  }

  lemma TrackedKeepsBind(s: Server, k: Key, kind: Kind, stuck: bool, name: Option<string>)
    requires k != BindTask
    ensures var ledger := Tracked(s, k, kind, stuck, false, name);
            && (BindTask in ledger <==> BindTask in s.ledger)
            && (BindTask in ledger ==> ledger[BindTask] == s.ledger[BindTask])
  {
  }

  lemma TrackEases(s: Server, k: Key, kind: Kind, stuck: bool, name: Option<string>)
    requires k != BindTask
    ensures Eases(s, Track(s, k, kind, stuck, false, name), 0)
  {
    hide FutsWeight, Tracked;
    TrackedKeepsBind(s, k, kind, stuck, name);
  }

  lemma LingerEases(s: Server, k: Key, kind: Kind)
    requires k != BindTask
    ensures Eases(s, Linger(s, k, kind), 0) && Linger(s, k, kind).drain == s.drain
  {
    hide Eases, Tracked;
    TrackEases(s, k, kind, true, None);
  }

  lemma TimeoutOnward(s: Server, still: set<nat>, idle: bool)
    ensures Onward(s, AfterDrainTimeout(s, still, idle), 15)
  {
    hide Eases, Onward, AfterSessions, SetDrain;
    if still != {} {
      CancelTasksEases(s, still);
      SetDrainOnward(CancelTasks(s, still), WaitCancelled);
      OnwardTrans(s, CancelTasks(s, still), SetDrain(CancelTasks(s, still), WaitCancelled), 0, 15);
    } else {
      AfterSessionsOnward(s, idle);
      OnwardWeaker(s, AfterSessions(s, idle), 14, 15);
    }
  }

  /** Every return of a drain's wait lowers the measure. */
  lemma DrainResumeEases(s: Server, idle: bool)
    requires DrainWaits(s)
    ensures Eases(s, DrainResume(s, idle), -1) && Owned(DrainResume(s, idle))
  {
    hide Eases, AfterSessions, AfterCloser, DrainFinish, Linger, StillRunning, AfterDrainTimeout;
    match s.drain
    case WaitSessions(pending) =>
      TimeoutOnward(s, StillRunning(s, pending), idle);
    case WaitCancelled =>
      AfterSessionsOnward(s, idle);
    case WaitCloser =>
      LingerEases(s, Closer, ListenerCloseKind);
      AfterCloserOnward(Linger(s, Closer, ListenerCloseKind), idle);
      OnwardTrans(s, Linger(s, Closer, ListenerCloseKind), DrainResume(s, idle), 0, 11);
      EasesWeaker(s, DrainResume(s, idle), -3, -1);
    case WaitBackendClose =>
      LingerEases(s, CloseTask, CloseKind);
      DrainFinishOnward(Linger(s, CloseTask, CloseKind), idle);
      OnwardTrans(s, Linger(s, CloseTask, CloseKind), DrainResume(s, idle), 0, 6);
      EasesWeaker(s, DrainResume(s, idle), -3, -1);
  }

  // ---------------------------------------------------------------- every step

  /** A completion, a callback, the end of a wait: one of the server's own moves. */
  predicate Moves(a: Action) {
    || a.BackendStarted? || a.BackendFailed? || a.SocketBound? || a.BindFinished? || a.StartResumed?
    || a.DrainStarted? || a.DrainSkipped? || a.DrainResumed? || a.DrainCancelled?
    || a.Completed? || a.IdleObserved? || a.CallbackRan? || a.TaskFinished? || a.ThreadEnded?
  }

  /** New work from outside. */
  predicate Arrives(a: Action) {
    a.HandlerStarted? || a.DecodeStarted? || a.Adopt? || a.ThreadMarked? || a.StepMarked?
  }

  /** What a step adds to the measure at most. */
  function Gain(s: Server, a: Action): int {
    if !s.state.Stopping? then 32 else if Moves(a) then -1 else if Arrives(a) then 2 else 0
  }

  lemma AdoptListenerEases(s: Server, seen: Option<nat>)
    ensures Eases(s, AdoptListener(s, seen), 0)
  {
    hide Eases, AdoptListener;
    AdoptListenerWorld(s, seen);
    EasesSame(s, AdoptListener(s, seen));
  }

  /** What the measure reads is unchanged. */
  predicate SameWork(s: Server, t: Server) {
    && t.futs == s.futs && t.start == s.start && t.drain == s.drain && t.past.drained == s.past.drained
    && t.sock == s.sock && t.past.idleSeen == s.past.idleSeen && t.past.threads == s.past.threads
    && (BindTask in t.ledger <==> BindTask in s.ledger)
    && (BindTask in s.ledger ==> t.ledger[BindTask] == s.ledger[BindTask])
  }

  lemma AdoptListenerWorld(s: Server, seen: Option<nat>)
    ensures SameWork(s, AdoptListener(s, seen))
  {
  }

  lemma EasesSame(s: Server, t: Server)
    requires SameWork(s, t)
    ensures Eases(s, t, 0)
  {
    hide FutsWeight;
  }

  lemma AdoptListenerStart(s: Server, seen: Option<nat>)
    ensures AdoptListener(s, seen).start == s.start
  {
  }

  lemma AdoptedUnwindEases(s: Server, seen: Option<nat>)
    requires AwaitsBind(s)
    ensures var t := Unwind(AdoptIfBound(s, seen), true, false); Eases(s, t, -1) && Owned(t)
  {
    hide Eases, Owned, Unwind, AdoptListener;
    SameEases(s);
    if Bound(s) {
      AdoptListenerEases(s, seen);
      AdoptListenerStart(s, seen);
    }
    var t := AdoptIfBound(s, seen);
    UnwindEases(t, true, false);
    EasesTrans(s, t, Unwind(t, true, false), 0, -12);
    EasesWeaker(s, Unwind(t, true, false), -12, -1);
  }

  lemma StartSucceededEases(s: Server, seen: Option<nat>)
    requires !s.start.Idle?
    ensures Eases(s, StartSucceeded(s, seen), 32)
  {
    hide FutsWeight;
  }

  lemma BindReturnedEases(s: Server, seen: Option<nat>)
    requires AwaitsBind(s)
    ensures Eases(s, BindReturned(s, seen), if s.state.Stopping? then -1 else 32)
    ensures s.state.Stopping? ==> Owned(BindReturned(s, seen))
  {
    hide Eases, Owned, Unwind, StartSucceeded, AdoptIfBound;
    AdoptedUnwindEases(s, seen);
    EasesWeaker(s, Unwind(AdoptIfBound(s, seen), true, false), -1, 32);
    StartSucceededEases(s, seen);
  }

  lemma OrphanedEases(s: Server)
    requires !IsDone(s, BindTask)
    ensures Eases(s, Track(s, BindTask, BindKind, true, true, None), 3)
    ensures Track(s, BindTask, BindKind, true, true, None).start == s.start
  {
    hide FutsWeight;
  }

  lemma AwaitAgainEases(s: Server)
    requires AwaitsBind(s)
    ensures Eases(s, AwaitAgain(s), 0) && (Owned(s) ==> Owned(AwaitAgain(s)))
  {
    assert Weight(AwaitAgain(s)) == Weight(s) by { hide FutsWeight; }
    AwaitAgainPlaces(s);
    hide Weight, FutsWeight;
  }

  lemma AwaitAgainPlaces(s: Server)
    requires AwaitsBind(s)
    ensures FailedClosed(s) <==> FailedClosed(AwaitAgain(s))
    ensures AwaitAgain(s).past == s.past && (Owned(s) ==> Owned(AwaitAgain(s)))
  {
  }

  lemma BindCancelledEases(s: Server, seen: Option<nat>)
    requires AwaitsBind(s)
    ensures Eases(s, BindCancelled(s, seen), 0) && (Owned(s) ==> Owned(BindCancelled(s, seen)))
  {
    hide Eases, Owned, Unwind, AdoptIfBound, AwaitAgain, Track;
    if IsDone(s, BindTask) {
      AdoptedUnwindEases(s, seen);
      EasesWeaker(s, Unwind(AdoptIfBound(s, seen), true, false), -1, 0);
    } else if s.start.AwaitBind? {
      AwaitAgainEases(s);
    } else {
      OrphanedEases(s);
      var t := Track(s, BindTask, BindKind, true, true, None);
      UnwindEases(t, true, false);
      EasesTrans(s, t, Unwind(t, true, false), 3, -12);
      EasesWeaker(s, Unwind(t, true, false), -9, 0);
    }
  }

  lemma BackendUpEases(s: Server)
    ensures Eases(s, BackendUp(s), 0)
  {
    hide FutsWeight;
  }

  lemma BindBegunEases(s: Server)
    requires BindTask !in s.futs && StartGoesOn(s)
    ensures Eases(s, BindBegun(s), 32)
  {
    hide FutsWeight;
    FutsNew(s.futs, BindTask);
  }

  lemma BackendReturnedEases(s: Server)
    requires s.start.AwaitBackend? && BindTask !in s.futs
    ensures Eases(s, BackendReturned(s), if s.state.Stopping? then -1 else 32)
    ensures s.state.Stopping? ==> Owned(BackendReturned(s))
  {
    hide Eases, Owned, Unwind, BindBegun;
    BindBegunEases(s);
    BackendUpEases(s);
    UnwindEases(BackendUp(s), true, false);
    EasesTrans(s, BackendUp(s), Unwind(BackendUp(s), true, false), 0, -12);
    EasesWeaker(s, Unwind(BackendUp(s), true, false), -12, if s.state.Stopping? then -1 else 32);
  }

  lemma EarlyUnwindEases(s: Server, idle: bool)
    requires StartGoesOn(s)
    ensures Eases(s, Unwind(s, false, idle), -1) && Owned(Unwind(s, false, idle))
  {
    hide Eases, Owned, Unwind;
    UnwindEases(s, false, idle);
    EasesWeaker(s, Unwind(s, false, idle), -12, -1);
  }

  lemma LockAcquiredEases(s: Server)
    requires s.start.Acquiring?
    ensures Eases(s, LockAcquired(s), 0)
  {
    hide FutsWeight;
  }

  lemma BindTaskFree(s: Server)
    requires Inv(s) && s.start.AwaitBackend?
    ensures BindTask !in s.futs && StartGoesOn(s)
  {
  }

  lemma StartStepEases(s: Server, a: Action)
    requires Inv(s) && Enabled(s, a)
    requires a.LockTaken? || a.LockRefused? || a.BackendStarted? || a.BackendFailed? || a.StartResumed?
             || a.StartCancelled?
    ensures Eases(s, Do(s, a), if a.StartCancelled? then 0 else if s.state.Stopping? then -1 else 32)
    ensures s.state.Stopping? && Owned(s) ==> Owned(Do(s, a))
  {
    hide Inv, Eases, Owned, Unwind, BackendReturned, BindReturned, BindCancelled, LockAcquired;
    if s.start.AwaitBackend? { BindTaskFree(s); }
    LockRetryIsStarting(s);
    match a
    case LockTaken =>
      LockAcquiredEases(s);
      EasesWeaker(s, LockAcquired(s), 0, 32);
    case LockRefused(idle) =>
      EarlyUnwindEases(s, idle);
      EasesWeaker(s, Unwind(s, false, idle), -1, 32);
    case BackendStarted => BackendReturnedEases(s);
    case BackendFailed(idle) =>
      EarlyUnwindEases(s, idle);
      EasesWeaker(s, Unwind(s, false, idle), -1, if s.state.Stopping? then -1 else 32);
    case StartResumed(seen) => BindReturnedEases(s, seen);
    case StartCancelled(seen) => BindCancelledEases(s, seen);
  }

  lemma LockRetryIsStarting(s: Server)
    requires Inv(s)
    ensures s.start.Acquiring? ==> s.state.Starting?
    ensures s.drain.Scheduled? || DrainWaits(s) ==> !Frees(s.state)
  {
  }

  lemma ShutdownRequestedEases(s: Server)
    ensures Eases(s, ShutdownRequested(s), 0)
  {
    hide FutsWeight;
  }

  lemma TransitionEases(s: Server, to: State)
    ensures Eases(s, Transition(s, to), 0)
  {
    hide FutsWeight;
  }

  lemma ScheduleDrainEases(s: Server)
    requires s.drain.NoDrain?
    ensures Eases(s, ScheduleDrain(s), 32)
  {
    hide FutsWeight;
    FutsNew(s.futs, StopTask);
  }

  lemma ShutdownEases(s: Server)
    requires s.state.Running? ==> s.drain.NoDrain?
    ensures Eases(s, Shutdown(s), if s.state.Running? then 32 else 0)
  {
    hide Eases, Transition, ScheduleDrain;
    ShutdownRequestedEases(s);
    var r := ShutdownRequested(s);
    match s.state
    case New =>
      TransitionEases(r, Stopped);
      EasesTrans(s, r, Transition(r, Stopped), 0, 0);
    case Starting =>
      TransitionEases(r, Stopping);
      EasesTrans(s, r, Transition(r, Stopping), 0, 0);
    case Running =>
      ScheduleDrainEases(r);
      EasesTrans(s, r, ScheduleDrain(r), 0, 32);
    case _ =>
  }

  lemma ShutdownOwned(s: Server)
    requires s.state.Stopping?
    ensures Owned(Shutdown(s)) <==> Owned(s)
  {
  }

  lemma CancelSessionsOwned(s: Server)
    ensures Owned(CancelSessions(s)) <==> Owned(s)
  {
    hide CancelSessions;
    CancelSessionsFrame(s);
  }

  lemma DrainSkippedEases(s: Server)
    requires s.drain.Scheduled?
    ensures Eases(s, Finish(SetDrain(s, NoDrain), StopTask, false), -1)
  {
    hide Eases, SetDrain, Finish;
    SetDrainEases(s, NoDrain);
    var t := SetDrain(s, NoDrain);
    FinishEases(t, StopTask, false);
    var e := if IsPending(t, StopTask) then -1 else 1;
    EasesTrans(s, t, Finish(t, StopTask, false), -30, e);
    EasesWeaker(s, Finish(t, StopTask, false), -30 + e, -1);
  }

  lemma RunningHasNoDrain(s: Server)
    requires Inv(s)
    ensures s.state.Running? ==> s.drain.NoDrain?
  {
  }

  lemma StopStepEases(s: Server, a: Action)
    requires Inv(s) && Enabled(s, a)
    requires a.ShutdownCall? || a.ShutdownCallerCancelled?
    ensures Eases(s, Do(s, a), if s.state.Running? then 32 else 0)
    ensures s.state.Stopping? && Owned(s) ==> Owned(Do(s, a))
  {
    hide Inv, Eases, Owned, Shutdown, CancelSessions;
    RunningHasNoDrain(s);
    if a.ShutdownCall? {
      ShutdownEases(s);
      if s.state.Stopping? { ShutdownOwned(s); }
    } else {
      CancelSessionsEases(s);
      EasesWeaker(s, CancelSessions(s), 0, if s.state.Running? then 32 else 0);
      CancelSessionsOwned(s);
    }
  }

  lemma DrainStepEases(s: Server, a: Action)
    requires Enabled(s, a)
    requires a.DrainStarted? || a.DrainSkipped? || a.DrainResumed? || a.DrainCancelled?
    ensures Eases(s, Do(s, a), -1) && (!a.DrainSkipped? ==> Owned(Do(s, a)))
  {
    hide Eases, Owned, DrainBegin, Finish, SetDrain, DrainResume, DrainFinish;
    match a
    case DrainStarted =>
      DrainBeginOnward(s, false);
      EasesWeaker(s, DrainBegin(s, false), 18 - DrainWeight(s.drain), -1);
    case DrainSkipped => DrainSkippedEases(s);
    case DrainResumed(idle) => DrainResumeEases(s, idle);
    case DrainCancelled(idle) =>
      DrainFinishOnward(s, idle);
      EasesWeaker(s, DrainFinish(s, idle), 6 - DrainWeight(s.drain), -1);
  }

  // ---- futures and callbacks

  lemma SocketBoundEases(s: Server)
    requires IsPending(s, BindTask) && s.sock.NoSock?
    ensures Eases(s, SetSock(s, Serving), -1)
  {
    hide FutsWeight;
  }

  lemma BindFinishedEases(s: Server, ok: bool, seen: Option<nat>)
    requires IsPending(s, BindTask)
    ensures Eases(s, Finish(Record(s, seen), BindTask, ok), -1)
  {
    hide FutsWeight;
    FutsDone(s.futs, BindTask, ok, BindTask in s.ledger);
  }

  lemma CompleteEases(s: Server, k: Key, ok: bool)
    requires IsPending(s, k) && k != BindTask
    ensures Eases(s, Complete(s, k, ok), -1)
  {
    hide Eases, SetSock, Finish;
    if k.Closer? {
      ClosedEases(s);
      FinishEases(SetSock(s, Closed), k, ok);
      SetSockFuts(s, Closed);
      EasesTrans(s, SetSock(s, Closed), Complete(s, k, ok), 0, -1);
    } else {
      FinishEases(s, k, ok);
    }
  }

  lemma SetSockFuts(s: Server, sock: Sock)
    ensures SetSock(s, sock).futs == s.futs
  {
  }

  lemma ClosedEases(s: Server)
    ensures Eases(s, SetSock(s, Closed), 0)
  {
    hide FutsWeight;
  }

  lemma SawIdleEases(s: Server)
    requires IsPending(s, IdleFuture) && !s.past.idleSeen
    ensures Eases(s, SawIdle(s), -1)
  {
    hide FutsWeight;
  }

  lemma AdoptWorkEases(s: Server, id: nat, abandoned: bool, name: string)
    ensures Eases(s, AdoptWork(s, id, abandoned, name), 2)
  {
    hide Eases, Track, TrackNew;
    TrackNewEases(s, Adopted(id), AdoptedKind, abandoned, Some(name));
    if Adopted(id) in s.futs {
      AdoptAgainEases(s, id, abandoned, name);
      EasesWeaker(s, Track(s, Adopted(id), AdoptedKind, abandoned, false, Some(name)), 0, 2);
    }
  }

  lemma AdoptAgainEases(s: Server, id: nat, abandoned: bool, name: string)
    ensures Eases(s, Track(s, Adopted(id), AdoptedKind, abandoned, false, Some(name)), 0)
  {
    hide FutsWeight, Tracked;
    TrackedKeepsBind(s, Adopted(id), AdoptedKind, abandoned, Some(name));
  }

  lemma CallbackTakenEases(s: Server, k: Key)
    requires IsDone(s, k) && s.futs[k].queued && k != BindTask
    ensures Eases(s, CallbackTaken(s, k), -1)
  {
    hide FutsWeight;
    FutsTaken(s.futs, k);
  }

  lemma PlainCallbackEases(s: Server, k: Key)
    requires IsDone(s, k) && s.futs[k].queued && k != BindTask
    ensures Eases(s, EndWork(CallbackTaken(s, k), k), -1)
  {
    hide Eases, CallbackTaken, EndWork;
    CallbackTakenEases(s, k);
    EndWorkEases(CallbackTaken(s, k), k);
    EasesTrans(s, CallbackTaken(s, k), EndWork(CallbackTaken(s, k), k), -1, 0);
  }

  lemma BindCallbackEases(s: Server)
    requires IsDone(s, BindTask) && s.futs[BindTask].queued
    ensures Eases(s, EndWork(CallbackTaken(s, BindTask), BindTask), -1)
  {
    hide FutsWeight;
    FutsTaken(s.futs, BindTask);
  }

  lemma FailClosedWeighs(s: Server)
    requires IsDone(s, BindTask) && s.futs[BindTask].queued && BindTask in s.ledger
    ensures Weight(FailClosed(CallbackTaken(s, BindTask), BindTask)) < Weight(s)
  {
    hide FutsWeight;
    FutsTaken(s.futs, BindTask);
  }

  lemma OrphanClosedEases(s: Server, seen: Option<nat>)
    requires IsDone(s, BindTask) && s.futs[BindTask].queued
    requires BindTask in s.ledger && s.ledger[BindTask].closesOrphan
    ensures Eases(s, OrphanClosed(CallbackTaken(s, BindTask), seen), -1)
  {
    hide FutsWeight;
    FutsTaken(s.futs, BindTask);
    FutsNew(CallbackTaken(s, BindTask).futs, Closer);
  }

  lemma CallbackEases(s: Server, k: Key, fails: bool, seen: Option<nat>)
    requires Inv(s) && IsDone(s, k) && s.futs[k].queued
    ensures var t := Retire(CallbackTaken(s, k), k, s.futs[k].ok, fails, seen);
            Eases(s, t, -1) || (fails && !FailedClosed(s) && Weight(t) < Weight(s))
  {
    hide Inv, Eases, Retire, EndWork, CallbackTaken, FailClosed, OrphanClosed, Weight;
    CallbackTakenIs(s, k);
    var t := CallbackTaken(s, k);
    if k in s.ledger && s.ledger[k].closesOrphan && s.futs[k].ok {
      OrphansAreBinds(s, k);
      if fails { FailClosedWeighs(s); } else { OrphanClosedIs(t, seen); OrphanClosedEases(s, seen); }
      OrphanRetireIs(t, fails, seen);
    } else {
      RetireIs(t, k, s.futs[k].ok, fails, seen);
      if k == BindTask { BindCallbackEases(s); } else { PlainCallbackEases(s, k); }
    }
  }

  lemma OrphanRetireIs(t: Server, fails: bool, seen: Option<nat>)
    requires BindTask in t.ledger && t.ledger[BindTask].closesOrphan
    ensures Retire(t, BindTask, true, fails, seen) ==
            if fails then FailClosed(t, BindTask) else EndWork(CloseOrphan(t, true, seen), BindTask)
  {
    hide FailClosed, EndWork, CloseOrphan;
  }

  lemma FutureStepEases(s: Server, a: Action)
    requires Inv(s) && Enabled(s, a)
    requires a.SocketBound? || a.BindFinished? || a.Adopt? || a.IdleObserved?
    ensures Eases(s, Do(s, a), if Moves(a) then -1 else 2)
  {
    hide Inv, Eases, SetSock, Finish, Record, AdoptWork, SawIdle;
    match a
    case SocketBound => SocketBoundEases(s);
    case BindFinished(ok, seen) => BindFinishedEases(s, ok, if ok then seen else None);
    case Adopt(id, abandoned, name) => AdoptWorkEases(s, id, abandoned, name);
    case IdleObserved => SawIdleEases(s);
  }

  lemma CompletedEases(s: Server, a: Action)
    requires Enabled(s, a) && a.Completed?
    ensures Eases(s, Do(s, a), -1)
  {
    hide Eases, Complete;
    CompleteEases(s, a.k, a.ok);
  }

  lemma CallbackStepEases(s: Server, a: Action)
    requires Inv(s) && Enabled(s, a) && a.CallbackRan?
    ensures Eases(s, Do(s, a), -1) || (a.fails && !FailedClosed(s) && Weight(Do(s, a)) < Weight(s))
  {
    hide Inv, Eases, Retire, CallbackTaken, FailedClosed, Weight;
    CallbackEases(s, a.k, a.fails, a.seen);
  }

  // ---- sessions and threads

  lemma NoteLateEases(s: Server)
    ensures Eases(s, NoteLate(s), 0)
  {
    hide Eases, SameWork, NoteLate;
    NoteLateWork(s);
    EasesSame(s, NoteLate(s));
  }

  lemma NoteLateWork(s: Server)
    ensures SameWork(s, NoteLate(s))
  {
  }

  lemma NewTaskEases(s: Server, id: nat, handler: bool)
    ensures Eases(s, NewTask(s, id, handler), 2)
  {
    hide FutsWeight;
    FutsNew(s.futs, Task(id));
  }

  lemma TaskFinishedEases(s: Server, id: nat)
    requires IsPending(s, Task(id))
    ensures Eases(s, Finish(TaskGone(s, id), Task(id), true), -1)
  {
    hide FutsWeight;
    FutsDone(s.futs, Task(id), true, Task(id) in s.ledger);
  }

  lemma SetThreadsEases(s: Server, threads: set<nat>, d: int)
    requires |threads| <= |s.past.threads| + d
    ensures Eases(s, SetThreads(s, threads), d)
  {
    hide FutsWeight;
  }

  lemma Grown(ids: set<nat>, id: nat)
    ensures |ids + {id}| <= |ids| + 2
    ensures id in ids ==> |ids - {id}| <= |ids| - 1
  {
    if id in ids { assert ids == (ids - {id}) + {id}; assert ids + {id} == ids; }
  }

  lemma TasksPending(s: Server, id: nat)
    requires Inv(s) && id in s.tasks
    ensures IsPending(s, Task(id))
  {
  }

  lemma TaskStepEases(s: Server, a: Action)
    requires Inv(s) && Enabled(s, a)
    requires a.HandlerStarted? || a.DecodeStarted? || a.TaskCancelled?
    ensures Eases(s, Do(s, a), if Arrives(a) then 2 else 0)
  {
    hide Inv, Eases, NoteLate, NewTask, CancelTasks;
    match a
    case HandlerStarted(id) =>
      NoteLateEases(s);
      NewTaskEases(NoteLate(s), id, true);
      EasesTrans(s, NoteLate(s), NewTask(NoteLate(s), id, true), 0, 2);
    case DecodeStarted(_, id) => NewTaskEases(s, id, false);
    case TaskCancelled(id) => CancelTasksEases(s, {id});
  }

  lemma ThreadMarkedEases(s: Server, a: Action)
    requires Enabled(s, a) && a.ThreadMarked?
    ensures Eases(s, Do(s, a), 2)
  {
    hide Eases, SetThreads;
    Grown(s.past.threads, a.id);
    SetThreadsEases(s, s.past.threads + {a.id}, 2);
  }

  lemma StepMarkedEases(s: Server, a: Action)
    requires Enabled(s, a) && a.StepMarked?
    ensures Eases(s, Do(s, a), 2)
  {
    hide Eases, SetThreads, NoteLate;
    NoteLateThreads(s);
    Grown(s.past.threads, a.id);
    NoteLateEases(s);
    SetThreadsEases(NoteLate(s), s.past.threads + {a.id}, 2);
    EasesTrans(s, NoteLate(s), SetThreads(NoteLate(s), s.past.threads + {a.id}), 0, 2);
  }

  lemma NoteLateThreads(s: Server)
    ensures NoteLate(s).past.threads == s.past.threads
  {
  }

  lemma ThreadEndedEases(s: Server, a: Action)
    requires Enabled(s, a) && a.ThreadEnded?
    ensures Eases(s, Do(s, a), -1)
  {
    hide Eases, SetThreads;
    Grown(s.past.threads, a.id);
    SetThreadsEases(s, s.past.threads - {a.id}, -1);
  }

  lemma FinishStepEases(s: Server, a: Action)
    requires Inv(s) && Enabled(s, a) && a.TaskFinished?
    ensures Eases(s, Do(s, a), -1)
  {
    hide Inv, Eases, Finish, TaskGone;
    TasksPending(s, a.id);
    TaskFinishedEases(s, a.id);
  }

  // ---- the steps that leave the coroutines where they are

  predicate SamePlaces(s: Server, t: Server) {
    && t.start == s.start && t.drain == s.drain && t.past.drained == s.past.drained
    && (t.state == s.state || (s.state.Stopping? && t.state.Stopped?))
  }

  lemma EndWorkPlaces(s: Server, k: Key)
    ensures SamePlaces(s, EndWork(s, k))
  {
  }

  lemma ListenerClosePlaces(s: Server, stuck: bool)
    ensures SamePlaces(s, BeginListenerClose(s, stuck))
  {
    hide EndWork;
    EndWorkPlaces(TrackNew(SetSock(s, Closing), Closer, ListenerCloseKind, stuck, None), Listener);
  }

  lemma RecordPlaces(s: Server, seen: Option<nat>)
    ensures SamePlaces(s, Record(s, seen))
  {
  }

  lemma CloseOrphanPlaces(s: Server, ok: bool, seen: Option<nat>)
    ensures SamePlaces(s, CloseOrphan(s, ok, seen))
  {
    hide BeginListenerClose, Record;
    RecordPlaces(s, seen);
    ListenerClosePlaces(Record(s, seen), true);
  }

  lemma FailClosedPlaces(s: Server, k: Key)
    requires k in s.ledger
    ensures SamePlaces(s, FailClosed(s, k))
  {
  }

  lemma RetirePlaces(s: Server, k: Key, ok: bool, fails: bool, seen: Option<nat>)
    ensures SamePlaces(s, Retire(s, k, ok, fails, seen))
  {
    hide EndWork, CloseOrphan, FailClosed;
    EndWorkPlaces(s, k);
    CloseOrphanPlaces(s, ok, seen);
    EndWorkPlaces(CloseOrphan(s, ok, seen), k);
    if k in s.ledger { FailClosedPlaces(s, k); }
  }

  lemma AdoptWorkPlaces(s: Server, id: nat, abandoned: bool, name: string)
    ensures SamePlaces(s, AdoptWork(s, id, abandoned, name))
  {
    hide SamePlaces, Track, TrackNew;
    TrackPlaces(s, Adopted(id), AdoptedKind, abandoned, false, Some(name));
    TrackNewPlaces(s, Adopted(id), AdoptedKind, abandoned, Some(name));
  }

  lemma TrackPlaces(s: Server, k: Key, kind: Kind, stuck: bool, closesOrphan: bool, name: Option<string>)
    ensures SamePlaces(s, Track(s, k, kind, stuck, closesOrphan, name))
  {
    hide Tracked;
  }

  lemma TrackNewPlaces(s: Server, k: Key, kind: Kind, stuck: bool, name: Option<string>)
    ensures SamePlaces(s, TrackNew(s, k, kind, stuck, name))
  {
  }

  lemma FinishPlaces(s: Server, k: Key, ok: bool)
    ensures SamePlaces(s, Finish(s, k, ok))
  {
  }

  lemma SetSockPlaces(s: Server, sock: Sock)
    ensures SamePlaces(s, SetSock(s, sock))
  {
  }

  lemma CompletePlaces(s: Server, k: Key, ok: bool)
    ensures SamePlaces(s, Complete(s, k, ok))
  {
    hide Finish, SetSock;
    SetSockPlaces(s, Closed);
    FinishPlaces(SetSock(s, Closed), k, ok);
    FinishPlaces(s, k, ok);
  }

  lemma SawIdlePlaces(s: Server)
    ensures SamePlaces(s, SawIdle(s))
  {
  }

  lemma CallbackTakenPlaces(s: Server, k: Key)
    requires IsDone(s, k)
    ensures SamePlaces(s, CallbackTaken(s, k))
  {
  }

  lemma CallbackPlaces(s: Server, a: Action)
    requires Enabled(s, a) && (a.CallbackRan? || a.BindFinished?)
    ensures SamePlaces(s, Do(s, a))
  {
    hide Retire, CallbackTaken, Record, Finish;
    if a.CallbackRan? {
      CallbackTakenPlaces(s, a.k);
      RetirePlaces(CallbackTaken(s, a.k), a.k, s.futs[a.k].ok, a.fails, a.seen);
    } else {
      var seen := if a.ok then a.seen else None;
      RecordPlaces(s, seen);
      FinishPlaces(Record(s, seen), BindTask, a.ok);
    }
  }

  lemma QuietPlaces(s: Server, a: Action)
    requires Enabled(s, a)
    requires a.SocketBound? || a.Adopt? || a.Completed? || a.IdleObserved?
    ensures SamePlaces(s, Do(s, a))
  {
    hide SamePlaces, AdoptWork, Complete, SetSock, SawIdle;
    match a
    case SocketBound => SetSockPlaces(s, Serving);
    case Adopt(id, abandoned, name) => AdoptWorkPlaces(s, id, abandoned, name);
    case Completed(k, ok) => CompletePlaces(s, k, ok);
    case IdleObserved => SawIdlePlaces(s);
  }

  lemma TaskPlaces(s: Server, a: Action)
    requires Enabled(s, a)
    requires TaskSteps(a)
    ensures SamePlaces(s, Do(s, a))
  {
    hide Enabled, SamePlaces, NewTask, NoteLate, CancelTasks, Finish, TaskGone, SetThreads;
    NoteLatePlaces(s);
    match a
    case HandlerStarted(id) =>
      NewTaskPlaces(NoteLate(s), id, true);
      SamePlacesTrans(s, NoteLate(s), NewTask(NoteLate(s), id, true));
    case DecodeStarted(_, id) => NewTaskPlaces(s, id, false);
    case TaskCancelled(id) => CancelTasksPlaces(s, {id});
    case TaskFinished(id) =>
      TaskGonePlaces(s, id);
      FinishPlaces(TaskGone(s, id), Task(id), true);
      SamePlacesTrans(s, TaskGone(s, id), Finish(TaskGone(s, id), Task(id), true));
    case ThreadMarked(id) => SetThreadsPlaces(s, s.past.threads + {id});
    case StepMarked(_, id) =>
      SetThreadsPlaces(NoteLate(s), s.past.threads + {id});
      SamePlacesTrans(s, NoteLate(s), SetThreads(NoteLate(s), s.past.threads + {id}));
    case ThreadEnded(id) => SetThreadsPlaces(s, s.past.threads - {id});
  }

  lemma SamePlacesTrans(s: Server, t: Server, u: Server)
    requires SamePlaces(s, t) && SamePlaces(t, u)
    ensures SamePlaces(s, u)
  {
  }

  lemma NoteLatePlaces(s: Server)
    ensures SamePlaces(s, NoteLate(s))
  {
  }

  lemma NewTaskPlaces(s: Server, id: nat, handler: bool)
    ensures SamePlaces(s, NewTask(s, id, handler))
  {
  }

  lemma CancelTasksPlaces(s: Server, ids: set<nat>)
    ensures SamePlaces(s, CancelTasks(s, ids))
  {
    hide Cancel;
  }

  lemma TaskGonePlaces(s: Server, id: nat)
    ensures SamePlaces(s, TaskGone(s, id))
  {
  }

  lemma SetThreadsPlaces(s: Server, threads: set<nat>)
    ensures SamePlaces(s, SetThreads(s, threads))
  {
  }

  // ---- all of them

  lemma StepEases(s: Server, a: Action)
    requires Inv(s) && Enabled(s, a) && !a.StartCall?
    ensures Eases(s, Do(s, a), Gain(s, a))
            || (a.CallbackRan? && a.fails && !FailedClosed(s) && Weight(Do(s, a)) < Weight(s))
  {
    hide Inv, Eases, Do, Enabled, FailedClosed, Weight;
    match a
    case LockTaken => StartStepEases(s, a); LockRetrying(s, a);
    case LockRefused(_) => StartStepEases(s, a); LockRetrying(s, a);
    case BackendStarted => StartStepEases(s, a);
    case BackendFailed(_) => StartStepEases(s, a);
    case StartResumed(_) => StartStepEases(s, a);
    case StartCancelled(_) => StartStepEases(s, a); Looser(s, a, 0);
    case ShutdownCall => StopStepEases(s, a); Looser(s, a, if s.state.Running? then 32 else 0);
    case ShutdownCallerCancelled => StopStepEases(s, a); Looser(s, a, if s.state.Running? then 32 else 0);
    case DrainStarted => DrainStepEases(s, a); Looser(s, a, -1);
    case DrainSkipped => DrainStepEases(s, a); Looser(s, a, -1);
    case DrainResumed(_) => DrainStepEases(s, a); Looser(s, a, -1);
    case DrainCancelled(_) => DrainStepEases(s, a); Looser(s, a, -1);
    case SocketBound => FutureStepEases(s, a); Looser(s, a, -1);
    case BindFinished(_, _) => FutureStepEases(s, a); Looser(s, a, -1);
    case Adopt(_, _, _) => FutureStepEases(s, a); Looser(s, a, 2);
    case IdleObserved => FutureStepEases(s, a); Looser(s, a, -1);
    case Completed(_, _) => CompletedEases(s, a); Looser(s, a, -1);
    case CallbackRan(_, _, _) =>
      CallbackStepEases(s, a);
      if Eases(s, Do(s, a), -1) { Looser(s, a, -1); }
    case HandlerStarted(_) => TaskStepEases(s, a); Looser(s, a, 2);
    case DecodeStarted(_, _) => TaskStepEases(s, a); Looser(s, a, 2);
    case TaskCancelled(_) => TaskStepEases(s, a); Looser(s, a, 0);
    case TaskFinished(_) => FinishStepEases(s, a); Looser(s, a, -1);
    case ThreadMarked(_) => ThreadMarkedEases(s, a); Looser(s, a, 2);
    case StepMarked(_, _) => StepMarkedEases(s, a); Looser(s, a, 2);
    case ThreadEnded(_) => ThreadEndedEases(s, a); Looser(s, a, -1);
  }

  lemma LockRetrying(s: Server, a: Action)
    requires Inv(s) && Enabled(s, a) && (a.LockTaken? || a.LockRefused?)
    ensures s.state.Starting?
  {
  }

  lemma Looser(s: Server, a: Action, d: int)
    requires Enabled(s, a) && Eases(s, Do(s, a), d) && d <= Gain(s, a)
    ensures Eases(s, Do(s, a), Gain(s, a))
  {
    hide Eases, Do, Enabled, Gain;
    EasesWeaker(s, Do(s, a), d, Gain(s, a));
  }

  lemma SamePlacesOwned(s: Server, t: Server)
    requires SamePlaces(s, t)
    ensures Owned(t) <==> Owned(s)
  {
  }

  /** Only a stop task that never ran leaves a stopping server without a drain. */
  lemma StepOwned(s: Server, a: Action)
    requires Inv(s) && Enabled(s, a) && s.state.Stopping? && Owned(s) && !a.DrainSkipped?
    ensures Owned(Do(s, a))
  {
    hide Inv, Owned, Do, SamePlaces, Eases;
    if a.StartCall? || a.LockTaken? || a.LockRefused? { LockRetryIsStarting(s); }
    if a.LockTaken? || a.LockRefused? || a.BackendStarted? || a.BackendFailed? || a.StartResumed? || a.StartCancelled? {
      StartStepEases(s, a);
    } else if a.ShutdownCall? || a.ShutdownCallerCancelled? {
      StopStepEases(s, a);
    } else if a.DrainStarted? || a.DrainResumed? || a.DrainCancelled? {
      DrainStepEases(s, a);
    } else if a.BindFinished? || a.CallbackRan? {
      CallbackPlaces(s, a);
      SamePlacesOwned(s, Do(s, a));
    } else if a.SocketBound? || a.Adopt? || a.Completed? || a.IdleObserved? {
      QuietPlaces(s, a);
      SamePlacesOwned(s, Do(s, a));
    } else {
      TaskPlaces(s, a);
      SamePlacesOwned(s, Do(s, a));
    }
  }

  /** A starting or stopping server is owned, and no cleanup failed. */
  ghost predicate Sound(s: Server) {
    && (s.state.Starting? || s.state.Stopping? ==> Owned(s))
    && !FailedClosed(s)
  }

  lemma StartingStepOwned(s: Server, a: Action)
    requires Inv(s) && Enabled(s, a) && s.state.Starting? && Owned(s)
    requires a.LockTaken? || a.LockRefused? || a.BackendStarted? || a.BackendFailed? || a.StartResumed?
             || a.StartCancelled?
    ensures Owned(Do(s, a)) || Do(s, a).state.Running?
  {
    hide Inv, Eases, Owned, Unwind, BindBegun, BindCancelled, LockAcquired, StartSucceeded, AdoptIfBound;
    if s.start.AwaitBackend? { BindTaskFree(s); }
    LockRetryIsStarting(s);
    match a
    case LockTaken => LockAcquiredOwned(s);
    case LockRefused(idle) => EarlyUnwindEases(s, idle);
    case BackendStarted => BindBegunOwned(s);
    case BackendFailed(idle) => EarlyUnwindEases(s, idle);
    case StartResumed(seen) =>
      AdoptedUnwindEases(s, seen);
      StartSucceededRuns(s, seen);
    case StartCancelled(seen) => BindCancelledEases(s, seen);
  }

  lemma LockAcquiredOwned(s: Server)
    requires Owned(s)
    ensures Owned(LockAcquired(s))
  {
  }

  lemma BindBegunOwned(s: Server)
    requires Owned(s)
    ensures Owned(BindBegun(s))
  {
  }

  lemma StartSucceededRuns(s: Server, seen: Option<nat>)
    ensures s.state.Starting? ==> StartSucceeded(s, seen).state.Running?
  {
  }

  lemma TransitionPlaces(s: Server, to: State)
    ensures var t := Transition(s, to); t.start == s.start && t.drain == s.drain && t.past.drained == s.past.drained
    ensures Frees(to) && Frees(s.state) ==> Frees(Transition(s, to).state)
  {
  }

  lemma ScheduleDrainPlaces(s: Server)
    ensures ScheduleDrain(s).drain.Scheduled?
  {
  }

  lemma ShutdownPlaces(s: Server)
    ensures s.state.Starting? && Owned(s) ==> Owned(Shutdown(s))
    ensures s.state.Running? ==> Owned(Shutdown(s))
    ensures Frees(s.state) ==> Frees(Shutdown(s).state)
  {
    hide Transition, ScheduleDrain;
    TransitionPlaces(ShutdownRequested(s), Stopped);
    TransitionPlaces(ShutdownRequested(s), Stopping);
    ScheduleDrainPlaces(ShutdownRequested(s));
  }

  lemma StartCallOwned(s: Server)
    requires Inv(s) && s.state.New?
    ensures Owned(StartEntered(s))
  {
  }

  /** Which coroutine steps each state allows. */
  lemma StatePlaces(s: Server)
    requires Inv(s)
    ensures !s.start.Idle? ==> s.state.Starting? || s.state.Stopping?
    ensures !s.drain.NoDrain? ==> s.state.Starting? || s.state.Stopping?
    ensures s.stopSlot ==> s.state.Stopping? || s.state.Stopped?
  {
  }

  lemma CancelSessionsPlaces(s: Server)
    ensures SamePlaces(s, CancelSessions(s))
  {
    hide CancelSessions;
    CancelSessionsFrame(s);
  }

  predicate StartSteps(a: Action) {
    a.LockTaken? || a.LockRefused? || a.BackendStarted? || a.BackendFailed? || a.StartResumed? || a.StartCancelled?
  }

  /** Which coroutine steps a state without ownership allows. */
  lemma IdlePlaces(s: Server, a: Action)
    requires Inv(s) && Enabled(s, a) && !s.state.Starting? && !s.state.Stopping?
    ensures !StartSteps(a) && !a.DrainStarted? && !a.DrainResumed? && !a.DrainCancelled?
  {
    hide Inv;
    StatePlaces(s);
  }

  lemma RestOwnership(s: Server, a: Action)
    requires Inv(s) && Enabled(s, a) && !a.DrainSkipped? && !s.state.Stopping?
    requires s.state.Starting? ==> Owned(s)
    ensures var t := Do(s, a); t.state.Starting? || t.state.Stopping? ==> Owned(t)
  {
    hide Inv, Owned, SamePlaces, Eases, Do, Enabled;
    if !s.state.Starting? { IdlePlaces(s, a); }
    if a.StartCall? || a.ShutdownCall? || a.ShutdownCallerCancelled? { CallOwnership(s, a); }
    else if StartSteps(a) { StartingStepOwned(s, a); }
    else if a.DrainStarted? || a.DrainResumed? || a.DrainCancelled? { DrainStepEases(s, a); }
    else {
      QuietStepPlaces(s, a);
      PlacesOwnership(s, Do(s, a));
    }
  }

  lemma CallOwnership(s: Server, a: Action)
    requires Inv(s) && Enabled(s, a) && (a.StartCall? || a.ShutdownCall? || a.ShutdownCallerCancelled?)
    requires !s.state.Stopping? && (s.state.Starting? ==> Owned(s))
    ensures var t := Do(s, a); t.state.Starting? || t.state.Stopping? ==> Owned(t)
  {
    hide Inv, Owned, SamePlaces, StartEntered, Shutdown, CancelSessions;
    match a
    case StartCall => StartCallOwned(s);
    case ShutdownCall => ShutdownPlaces(s);
    case ShutdownCallerCancelled =>
      CancelSessionsPlaces(s);
      PlacesOwnership(s, CancelSessions(s));
  }

  /** Every step except the skipped stop task keeps the ownership. */
  lemma StepOwnership(s: Server, a: Action)
    requires Inv(s) && Enabled(s, a) && !a.DrainSkipped?
    requires s.state.Starting? || s.state.Stopping? ==> Owned(s)
    ensures var t := Do(s, a); t.state.Starting? || t.state.Stopping? ==> Owned(t)
  {
    hide Inv, Owned, Do, Enabled;
    if s.state.Stopping? { StepOwned(s, a); } else { RestOwnership(s, a); }
  }

  lemma PlacesOwnership(s: Server, t: Server)
    requires SamePlaces(s, t) && (s.state.Starting? || s.state.Stopping? ==> Owned(s))
    ensures t.state.Starting? || t.state.Stopping? ==> Owned(t)
  {
  }

  lemma QuietStepPlaces(s: Server, a: Action)
    requires Enabled(s, a)
    requires a.SocketBound? || a.BindFinished? || a.Adopt? || a.Completed? || a.IdleObserved? || a.CallbackRan?
          || TaskSteps(a)
    ensures SamePlaces(s, Do(s, a))
  {
    hide Do, Enabled, SamePlaces;
    if a.BindFinished? || a.CallbackRan? { CallbackPlaces(s, a); }
    else if a.SocketBound? || a.Adopt? || a.Completed? || a.IdleObserved? { QuietPlaces(s, a); }
    else { TaskPlaces(s, a); }
  }

  // ---------------------------------------------------------------- no lost wake-up

  /** What `SomeMove` looks for: a move that needs no cancel and no failing cleanup. */
  predicate Regular(a: Action) {
    Moves(a) && !a.DrainSkipped? && !a.DrainCancelled? && (a.CallbackRan? ==> !a.fails)
  }

  lemma CoroutineMove(s: Server) returns (a: Action)
    requires Inv(s) && s.state.Stopping? && Owned(s) && !(s.start.Idle? && s.drain.NoDrain?)
    ensures Enabled(s, a) && Regular(a)
  {
    hide Futures, ClosesOnce, ThreadsCovered, LockCoversWork;
    if DrainWaits(s) { a := DrainResumed(false); }
    else if s.drain.Scheduled? { a := DrainStarted; }
    else if s.start.AwaitBackend? { a := BackendFailed(false); }
    else if IsDone(s, BindTask) { a := StartResumed(None); }
    else { a := BindFinished(s.sock.Serving?, None); }
  }

  /** A future completes or its callback runs. */
  predicate Retires(a: Action) { a.BindFinished? || a.Completed? || a.TaskFinished? || (a.CallbackRan? && !a.fails) }

  lemma BindMove(s: Server) returns (a: Action)
    requires Inv(s) && s.start.Idle? && s.drain.NoDrain? && BindTask in s.ledger && !FailedClosed(s)
    ensures Enabled(s, a) && Regular(a) && Retires(a)
  {
    if IsDone(s, BindTask) { a := CallbackRan(BindTask, false, None); }
    else { a := BindFinished(s.sock.Serving?, None); }
  }

  lemma WorkMove(s: Server, k: Key) returns (a: Action)
    requires Inv(s) && s.start.Idle? && s.drain.NoDrain? && k in s.ledger
    requires k.StopTask? || k.Closer? || k.CloseTask? || k.IdleFuture? || k.Adopted?
    ensures Enabled(s, a) && Regular(a) && (IdleKnown(s) ==> Retires(a))
  {
    assert k.Adopted? ==> Owed(s, Adopted(k.id));
    if s.futs[k].Done? { a := CallbackRan(k, false, None); }
    else if !k.IdleFuture? || s.past.idleSeen { a := Completed(k, true); }
    else if id :| id in s.past.threads { a := ThreadEnded(id); }
    else { a := IdleObserved; }
  }

  lemma SessionMove(s: Server, id: nat) returns (a: Action)
    requires Inv(s) && s.start.Idle? && s.drain.NoDrain? && Task(id) in s.ledger
    ensures Enabled(s, a) && Regular(a) && Retires(a)
  {
    assert Owed(s, Task(id));
    a := if s.futs[Task(id)].Done? then CallbackRan(Task(id), false, None) else TaskFinished(id);
  }

  /** Nobody waits for the decode threads any more. */
  predicate IdleKnown(s: Server) { IsPending(s, IdleFuture) ==> s.past.idleSeen }

  /** Once its coroutines are over a stopping server only waits for futures. */
  lemma FutureMove(s: Server) returns (a: Action)
    requires Inv(s) && s.state.Stopping? && Owned(s) && !FailedClosed(s) && s.start.Idle? && s.drain.NoDrain?
    ensures Enabled(s, a) && Regular(a) && (IdleKnown(s) ==> Retires(a))
  {
    hide Inv, FailedClosed, Enabled;
    var k := LiveKey(s);
    match k
    case BindTask => a := BindMove(s);
    case Task(id) => a := SessionMove(s, id);
    case _ => a := WorkMove(s, k);
  }

  /** In STOPPING something can always move: no wake-up is lost. */
  lemma SomeMove(s: Server) returns (a: Action)
    requires Inv(s) && s.state.Stopping? && Owned(s) && !FailedClosed(s)
    ensures Enabled(s, a) && Regular(a)
  {
    hide Inv, FailedClosed, Enabled;
    if !(s.start.Idle? && s.drain.NoDrain?) { a := CoroutineMove(s); } else { a := FutureMove(s); }
  }

  lemma LiveKey(s: Server) returns (k: Key)
    requires Inv(s) && s.state.Stopping? && Owned(s) && s.start.Idle? && s.drain.NoDrain?
    ensures k in s.ledger && !k.StartToken? && !k.DrainToken? && !k.Listener?
  {
    k :| k in s.ledger;
  }
}
