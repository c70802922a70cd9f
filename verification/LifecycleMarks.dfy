/** The `stuck` marks and the labels are diagnostics: nothing is decided by
    them. Also: when a cleanup given for an already finished future is safe. */
module LifecycleMarks {
  import opened Wrappers
  import opened Lifecycle
  import opened LifecycleInvariant
  import opened LifecycleRuns

  ghost predicate AlikeWork(w: Work, v: Work) { v.kind == w.kind && v.closesOrphan == w.closesOrphan }

  ghost predicate AlikeLedgers(a: map<Key, Work>, b: map<Key, Work>) {
    && (forall k :: k in a <==> k in b)
    && (forall k :: k in a ==> AlikeWork(a[k], b[k]))
  }

  ghost predicate SameFields(s: Server, t: Server) {
    && s.state == t.state && s.lock == t.lock && s.unlocked == t.unlocked && s.shutdownRequested == t.shutdownRequested
    && s.listenerSlot == t.listenerSlot && s.boundInode == t.boundInode && s.closeSlot == t.closeSlot
    && s.stopSlot == t.stopSlot && s.shutdownEvent == t.shutdownEvent && s.past.raised == t.past.raised
  }

  ghost predicate SameWorld(s: Server, t: Server) {
    && s.start == t.start && s.drain == t.drain && s.drainCloses == t.drainCloses
    && s.futs == t.futs && s.sock == t.sock && s.tasks == t.tasks && s.past.threads == t.past.threads
        && s.past.idleSeen == t.past.idleSeen
    && s.past.backendUp == t.past.backendUp && s.past.closes == t.past.closes
    && s.past.drained == t.past.drained && s.past.late == t.past.late && s.past.missed == t.past.missed
  }

  /** Two servers that differ only in stuck marks and labels. */
  ghost predicate Alike(s: Server, t: Server) {
    AlikeLedgers(s.ledger, t.ledger) && SameFields(s, t) && SameWorld(s, t)
  }

  lemma AlikeEmpty(a: map<Key, Work>, b: map<Key, Work>)
    requires AlikeLedgers(a, b)
    ensures a == map[] <==> b == map[]
  {
    if a != map[] { var k :| k in a; assert k in b; }
    if b != map[] { var k :| k in b; assert k in a; }
  }

  // ---------------------------------------------------------------- the parts of a segment

  lemma TransitionAlike(s: Server, t: Server, go: bool, to: State)
    requires Alike(s, t)
    ensures Alike(TransitionIf(s, go, to), TransitionIf(t, go, to))
  {
    AlikeEmpty(s.ledger, t.ledger);
    assert Allowed(s, to) == Allowed(t, to);
    EnteredAlike(s, t, go, go && Allowed(s, to), to);
    hide Alike, Allowed, Entered;
  }

  lemma EnteredFields(s: Server, t: Server, go: bool, legal: bool, to: State)
    requires SameFields(s, t)
    ensures SameFields(Entered(s, go, legal, to), Entered(t, go, legal, to))
  {
  }

  lemma EnteredWorld(s: Server, t: Server, go: bool, legal: bool, to: State)
    requires SameWorld(s, t)
    ensures SameWorld(Entered(s, go, legal, to), Entered(t, go, legal, to))
    ensures Entered(s, go, legal, to).ledger == s.ledger && Entered(t, go, legal, to).ledger == t.ledger
  {
  }

  lemma EnteredAlike(s: Server, t: Server, go: bool, legal: bool, to: State)
    requires Alike(s, t)
    ensures Alike(Entered(s, go, legal, to), Entered(t, go, legal, to))
  {
    hide AlikeLedgers, SameFields, SameWorld, Entered;
    EnteredFields(s, t, go, legal, to);
    EnteredWorld(s, t, go, legal, to);
  }

  lemma SetLedgerSame(s: Server, t: Server, a: map<Key, Work>, b: map<Key, Work>)
    requires SameWorld(s, t)
    ensures SameWorld(SetLedger(s, a), SetLedger(t, b))
  {
  }

  lemma SetLedgerFields(s: Server, t: Server, a: map<Key, Work>, b: map<Key, Work>)
    requires SameFields(s, t)
    ensures SameFields(SetLedger(s, a), SetLedger(t, b))
  {
  }

  lemma LedgerAlike(s: Server, t: Server, a: map<Key, Work>, b: map<Key, Work>)
    requires Alike(s, t) && AlikeLedgers(a, b)
    ensures Alike(SetLedger(s, a), SetLedger(t, b))
  {
    SetLedgerSame(s, t, a, b);
    SetLedgerFields(s, t, a, b);
    assert SetLedger(s, a).ledger == a && SetLedger(t, b).ledger == b;
    hide AlikeLedgers, SameFields, SameWorld, SetLedger;
  }

  lemma EndWorkAlike(s: Server, t: Server, k: Key)
    requires Alike(s, t)
    ensures Alike(EndWork(s, k), EndWork(t, k))
  {
    assert AlikeLedgers(s.ledger - {k}, t.ledger - {k});
    LedgerAlike(s, t, s.ledger - {k}, t.ledger - {k});
    var s1, t1 := SetLedger(s, s.ledger - {k}), SetLedger(t, t.ledger - {k});
    AlikeEmpty(s1.ledger, t1.ledger);
    TransitionAlike(s1, t1, s1.state.Stopping? && s1.ledger == map[], Stopped);
    hide TransitionIf, AlikeLedgers;
  }

  lemma RegisterAlike(s: Server, t: Server, k: Key, kind: Kind)
    requires Alike(s, t)
    ensures Alike(Register(s, k, kind), Register(t, k, kind))
  {
  }

  lemma TrackNewAlike(s: Server, t: Server, k: Key, kind: Kind, stuck: bool, name: Option<string>,
                      stuck2: bool, name2: Option<string>)
    requires Alike(s, t)
    ensures Alike(TrackNew(s, k, kind, stuck, name), TrackNew(t, k, kind, stuck2, name2))
  {
  }

  lemma TrackedAlike(s: Server, t: Server, k: Key, kind: Kind, stuck: bool, closesOrphan: bool, name: Option<string>,
                     stuck2: bool, name2: Option<string>)
    requires Alike(s, t)
    ensures AlikeLedgers(Tracked(s, k, kind, stuck, closesOrphan, name),
            Tracked(t, k, kind, stuck2, closesOrphan, name2))
  {
    AlikeEntries(s, t, k);
    var a, b := s.ledger, t.ledger;
    assert AlikeLedgers(a, b) && IsDone(s, k) == IsDone(t, k);
    hide Alike, IsDone;
  }

  lemma TrackAlike(s: Server, t: Server, k: Key, kind: Kind, stuck: bool, closesOrphan: bool, name: Option<string>,
                   stuck2: bool, name2: Option<string>)
    requires Alike(s, t)
    ensures Alike(Track(s, k, kind, stuck, closesOrphan, name), Track(t, k, kind, stuck2, closesOrphan, name2))
  {
    hide Tracked, AlikeLedgers;
    TrackedAlike(s, t, k, kind, stuck, closesOrphan, name, stuck2, name2);
  }

  lemma SetSockAlike(s: Server, t: Server, sock: Sock)
    requires Alike(s, t)
    ensures Alike(SetSock(s, sock), SetSock(t, sock))
  {
    hide AlikeLedgers;
  }

  lemma BeginListenerCloseAlike(s: Server, t: Server, stuck: bool)
    requires Alike(s, t)
    ensures Alike(BeginListenerClose(s, stuck), BeginListenerClose(t, stuck))
  {
    hide Alike, EndWork, TrackNew, SetSock;
    SetSockAlike(s, t, Closing);
    var s1, t1 := SetSock(s, Closing), SetSock(t, Closing);
    TrackNewAlike(s1, t1, Closer, ListenerCloseKind, stuck, None, stuck, None);
    EndWorkAlike(TrackNew(s1, Closer, ListenerCloseKind, stuck, None),
                 TrackNew(t1, Closer, ListenerCloseKind, stuck, None), Listener);
  }

  lemma RecordAlike(s: Server, t: Server, seen: Option<nat>)
    requires Alike(s, t)
    ensures Alike(Record(s, seen), Record(t, seen))
  {
    hide AlikeLedgers, SameFields, SameWorld, Record;
    RecordFields(s, t, seen);
    RecordWorld(s, t, seen);
  }

  lemma RecordFields(s: Server, t: Server, seen: Option<nat>)
    requires SameFields(s, t)
    ensures SameFields(Record(s, seen), Record(t, seen))
    ensures Record(s, seen).ledger == s.ledger && Record(t, seen).ledger == t.ledger
  {
  }

  lemma RecordWorld(s: Server, t: Server, seen: Option<nat>)
    requires SameWorld(s, t)
    ensures SameWorld(Record(s, seen), Record(t, seen))
  {
  }

  lemma FinishAlike(s: Server, t: Server, k: Key, ok: bool)
    requires Alike(s, t)
    ensures Alike(Finish(s, k, ok), Finish(t, k, ok))
  {
  }

  lemma FailClosedAlike(s: Server, t: Server, k: Key)
    requires Alike(s, t) && k in s.ledger && k in t.ledger
    ensures Alike(FailClosed(s, k), FailClosed(t, k))
  {
  }

  lemma AlikeEntries(s: Server, t: Server, k: Key)
    requires Alike(s, t)
    ensures k in s.ledger <==> k in t.ledger
    ensures k in s.ledger ==> AlikeWork(s.ledger[k], t.ledger[k])
    ensures IsDone(s, k) <==> IsDone(t, k)
  {
  }

  lemma CloseOrphanAlike(s: Server, t: Server, ok: bool, seen: Option<nat>)
    requires Alike(s, t)
    ensures Alike(CloseOrphan(s, ok, seen), CloseOrphan(t, ok, seen))
  {
    hide Alike, BeginListenerClose, Record;
    RecordAlike(s, t, seen);
    BeginListenerCloseAlike(Record(s, seen), Record(t, seen), true);
  }

  lemma RetireAlike(s: Server, t: Server, k: Key, ok: bool, fails: bool, seen: Option<nat>)
    requires Alike(s, t)
    ensures Alike(Retire(s, k, ok, fails, seen), Retire(t, k, ok, fails, seen))
  {
    hide Alike, EndWork, FailClosed, CloseOrphan;
    AlikeEntries(s, t, k);
    if k in s.ledger && s.ledger[k].closesOrphan {
      FailClosedAlike(s, t, k);
      CloseOrphanAlike(s, t, ok, seen);
      EndWorkAlike(CloseOrphan(s, ok, seen), CloseOrphan(t, ok, seen), k);
    } else {
      EndWorkAlike(s, t, k);
    }
  }

  lemma LiveSessionsAlike(s: Server, t: Server)
    requires Alike(s, t)
    ensures LiveSessions(s) == LiveSessions(t)
  {
    hide Alike;
    forall k: Key | k.Task?
      ensures k in s.ledger && s.ledger[k].kind.SessionKind? && !IsDone(s, k)
          <==> k in t.ledger && t.ledger[k].kind.SessionKind? && !IsDone(t, k)
    {
      AlikeEntries(s, t, k);
    }
    assert forall id :: id in LiveSessions(s) <==>
             Task(id) in s.ledger && s.ledger[Task(id)].kind.SessionKind? && !IsDone(s, Task(id));
    assert forall id :: id in LiveSessions(t) <==>
             Task(id) in t.ledger && t.ledger[Task(id)].kind.SessionKind? && !IsDone(t, Task(id));
  }

  lemma CancelTasksAlike(s: Server, t: Server, ids: set<nat>)
    requires Alike(s, t)
    ensures Alike(CancelTasks(s, ids), CancelTasks(t, ids))
  {
    hide AlikeLedgers, Cancel;
  }

  lemma CancelledLedgers(s: Server, t: Server)
    requires Alike(s, t)
    ensures AlikeLedgers(CancelSessions(s).ledger, CancelSessions(t).ledger)
  {
    hide LiveSessions, Cancel;
  }

  lemma CancelSessionsAlike(s: Server, t: Server)
    requires Alike(s, t)
    ensures Alike(CancelSessions(s), CancelSessions(t))
  {
    hide LiveSessions, CancelSessions, CancelTasks, AlikeLedgers, Alike;
    LiveSessionsAlike(s, t);
    CancelledLedgers(s, t);
    CancelSessionsIs(s);
    CancelSessionsIs(t);
    CancelTasksAlike(s, t, LiveSessions(s));
    LedgerAlike(CancelTasks(s, LiveSessions(s)), CancelTasks(t, LiveSessions(t)),
                CancelSessions(s).ledger, CancelSessions(t).ledger);
  }

  lemma CancelSessionsIs(s: Server)
    ensures CancelSessions(s) == SetLedger(CancelTasks(s, LiveSessions(s)), CancelSessions(s).ledger)
  {
    hide LiveSessions, Cancel;
  }

  // ---------------------------------------------------------------- the drain

  lemma SetDrainAlike(s: Server, t: Server, pc: DrainPc)
    requires Alike(s, t)
    ensures Alike(SetDrain(s, pc), SetDrain(t, pc))
  {
    hide AlikeLedgers;
  }

  lemma EnsureBackendCloseAlike(s: Server, t: Server, due: bool, stuck: bool)
    requires Alike(s, t)
    ensures Alike(EnsureBackendClose(s, due, stuck), EnsureBackendClose(t, due, stuck))
  {
    hide Tracked;
    TrackedAlike(s, t, CloseTask, CloseKind, true, false, None, true, None);
  }

  lemma HandOverThreadsAlike(s: Server, t: Server, idle: bool)
    requires Alike(s, t)
    ensures Alike(HandOverThreads(s, idle), HandOverThreads(t, idle))
  {
  }

  lemma AlikeFields(s: Server, t: Server)
    requires Alike(s, t)
    ensures s.state == t.state && s.start == t.start && s.drain == t.drain && s.drainCloses == t.drainCloses
    ensures s.listenerSlot == t.listenerSlot && s.tasks == t.tasks && s.past.threads == t.past.threads
            && s.futs == t.futs
    ensures s.lock == t.lock && s.stopSlot == t.stopSlot && s.sock == t.sock && s.past.idleSeen == t.past.idleSeen
    ensures s.past.closes == t.past.closes && s.past.raised == t.past.raised && s.unlocked == t.unlocked
            && s.boundInode == t.boundInode
  {
  }

  lemma KeepLockAlike(s: Server, t: Server, idle: bool)
    requires Alike(s, t)
    ensures Alike(KeepLock(s, idle), KeepLock(t, idle))
  {
    hide Alike, CancelSessions, EnsureBackendClose, HandOverThreads;
    AlikeFields(s, t);
    CancelSessionsAlike(s, t);
    EnsureBackendCloseAlike(CancelSessions(s), CancelSessions(t), s.drainCloses, true);
    HandOverThreadsAlike(EnsureBackendClose(CancelSessions(s), s.drainCloses, true),
                         EnsureBackendClose(CancelSessions(t), s.drainCloses, true), idle);
  }

  lemma StartMovesAlike(s: Server, t: Server)
    requires Alike(s, t)
    ensures StartMoves(s) == StartMoves(t) && StartOutcome(s) == StartOutcome(t)
  {
    hide Alike;
    AlikeBasics(s, t);
  }

  lemma AlikeBasics(s: Server, t: Server)
    requires Alike(s, t)
    ensures s.state == t.state && (s.ledger == map[] <==> t.ledger == map[])
  {
    AlikeEmpty(s.ledger, t.ledger);
  }

  lemma StartFinallyAlike(s: Server, t: Server)
    requires Alike(s, t)
    ensures Alike(StartFinally(s), StartFinally(t))
  {
    hide TransitionIf, Alike, StartLeft, StartMoves, StartOutcome;
    StartLeftAlike(s, t);
    StartMovesAlike(StartLeft(s), StartLeft(t));
    TransitionAlike(StartLeft(s), StartLeft(t), StartMoves(StartLeft(s)), StartOutcome(StartLeft(s)));
  }

  lemma StartLeftAlike(s: Server, t: Server)
    requires Alike(s, t)
    ensures Alike(StartLeft(s), StartLeft(t))
  {
  }

  lemma DrainEndedAlike(s: Server, t: Server, idle: bool)
    requires Alike(s, t)
    ensures Alike(DrainEnded(s, idle), DrainEnded(t, idle))
  {
    hide Alike, KeepLock, SetDrain, EndWork;
    KeepLockAlike(s, t, idle);
    SetDrainAlike(KeepLock(s, idle), KeepLock(t, idle), NoDrain);
    EndWorkAlike(SetDrain(KeepLock(s, idle), NoDrain), SetDrain(KeepLock(t, idle), NoDrain), DrainToken);
  }

  lemma DrainFinishAlike(s: Server, t: Server, idle: bool)
    requires Alike(s, t)
    ensures Alike(DrainFinish(s, idle), DrainFinish(t, idle))
  {
    hide Alike, DrainEnded, StartFinally, Finish;
    AlikeFields(s, t);
    DrainEndedAlike(s, t, idle);
    StartFinallyAlike(DrainEnded(s, idle), DrainEnded(t, idle));
    FinishAlike(DrainEnded(s, idle), DrainEnded(t, idle), StopTask, true);
  }

  lemma AfterCloserAlike(s: Server, t: Server, idle: bool)
    requires Alike(s, t)
    ensures Alike(AfterCloser(s, idle), AfterCloser(t, idle))
  {
    hide Alike, DrainFinish, EnsureBackendClose, SetDrain;
    AlikeFields(s, t);
    DrainFinishAlike(s, t, idle);
    EnsureBackendCloseAlike(s, t, true, false);
    SetDrainAlike(EnsureBackendClose(s, true, false), EnsureBackendClose(t, true, false), WaitBackendClose);
  }

  lemma AfterSessionsAlike(s: Server, t: Server, idle: bool)
    requires Alike(s, t)
    ensures Alike(AfterSessions(s, idle), AfterSessions(t, idle))
  {
    hide Alike, AfterCloser, SetDrain;
    AlikeFields(s, t);
    AfterCloserAlike(s, t, idle);
    SetDrainAlike(s, t, WaitCloser);
  }

  lemma CloseListenerAlike(s: Server, t: Server)
    requires Alike(s, t)
    ensures Alike(CloseListener(s), CloseListener(t))
  {
    hide Alike, BeginListenerClose;
    AlikeFields(s, t);
    BeginListenerCloseAlike(s, t, false);
  }

  lemma DrainFirstAlike(s: Server, t: Server, idle: bool)
    requires Alike(s, t)
    ensures Alike(DrainFirst(s, idle), DrainFirst(t, idle))
  {
    hide Alike, AfterSessions, CloseListener, SetDrain, LiveSessions;
    LiveSessionsAlike(s, t);
    CloseListenerAlike(s, t);
    AfterSessionsAlike(CloseListener(s), CloseListener(t), idle);
    SetDrainAlike(CloseListener(s), CloseListener(t), WaitSessions(LiveSessions(s)));
  }

  lemma EnterDrainAlike(s: Server, t: Server)
    requires Alike(s, t)
    ensures Alike(EnterDrain(s), EnterDrain(t))
  {
  }

  lemma DrainBeginAlike(s: Server, t: Server, idle: bool)
    requires Alike(s, t)
    ensures Alike(DrainBegin(s, idle), DrainBegin(t, idle))
  {
    hide Alike, EnterDrain, DrainFirst;
    EnterDrainAlike(s, t);
    DrainFirstAlike(EnterDrain(s), EnterDrain(t), idle);
  }

  lemma SetUnwindingAlike(s: Server, t: Server, backendStarted: bool)
    requires Alike(s, t)
    ensures Alike(SetUnwinding(s, backendStarted), SetUnwinding(t, backendStarted))
  {
    hide AlikeLedgers;
  }

  lemma UnwindAlike(s: Server, t: Server, backendStarted: bool, idle: bool)
    requires Alike(s, t)
    ensures Alike(Unwind(s, backendStarted, idle), Unwind(t, backendStarted, idle))
  {
    hide Alike, SetUnwinding, DrainBegin;
    SetUnwindingAlike(s, t, backendStarted);
    DrainBeginAlike(SetUnwinding(s, backendStarted), SetUnwinding(t, backendStarted), idle);
  }

  lemma StillRunningAlike(s: Server, t: Server, pending: set<nat>)
    requires Alike(s, t)
    ensures StillRunning(s, pending) == StillRunning(t, pending)
  {
    hide Alike;
    AlikeFields(s, t);
  }

  lemma TimeoutAlike(s: Server, t: Server, still: set<nat>, idle: bool)
    requires Alike(s, t)
    ensures Alike(AfterDrainTimeout(s, still, idle), AfterDrainTimeout(t, still, idle))
  {
    hide Alike, AfterSessions, SetDrain, CancelTasks;
    CancelTasksAlike(s, t, still);
    SetDrainAlike(CancelTasks(s, still), CancelTasks(t, still), WaitCancelled);
    AfterSessionsAlike(s, t, idle);
  }

  lemma LingerAlike(s: Server, t: Server, k: Key, kind: Kind)
    requires Alike(s, t)
    ensures Alike(Linger(s, k, kind), Linger(t, k, kind))
  {
    hide Alike, Track;
    TrackAlike(s, t, k, kind, true, false, None, true, None);
  }

  lemma AlikeDrain(s: Server, t: Server)
    requires Alike(s, t)
    ensures s.drain == t.drain
  {
  }

  lemma DrainResumeAlike(s: Server, t: Server, idle: bool)
    requires Alike(s, t)
    ensures Alike(DrainResume(s, idle), DrainResume(t, idle))
  {
    hide Alike, AfterSessions, AfterCloser, DrainFinish, AfterDrainTimeout, StillRunning, Linger;
    AlikeDrain(s, t);
    match s.drain
    case WaitSessions(pending) =>
      StillRunningAlike(s, t, pending);
      TimeoutAlike(s, t, StillRunning(s, pending), idle);
    case WaitCancelled => AfterSessionsAlike(s, t, idle);
    case WaitCloser =>
      LingerAlike(s, t, Closer, ListenerCloseKind);
      AfterCloserAlike(Linger(s, Closer, ListenerCloseKind), Linger(t, Closer, ListenerCloseKind), idle);
    case WaitBackendClose =>
      LingerAlike(s, t, CloseTask, CloseKind);
      DrainFinishAlike(Linger(s, CloseTask, CloseKind), Linger(t, CloseTask, CloseKind), idle);
    case _ =>
  }

  // ---------------------------------------------------------------- start() and shutdown()

  lemma AdoptListenerAlike(s: Server, t: Server, seen: Option<nat>)
    requires Alike(s, t)
    ensures Alike(AdoptListener(s, seen), AdoptListener(t, seen))
  {
  }

  lemma AdoptedUnwindAlike(s: Server, t: Server, seen: Option<nat>)
    requires Alike(s, t)
    ensures Alike(Unwind(AdoptIfBound(s, seen), true, false), Unwind(AdoptIfBound(t, seen), true, false))
  {
    hide Alike, AdoptListener, Unwind;
    AlikeFields(s, t);
    AdoptListenerAlike(s, t, seen);
    UnwindAlike(AdoptIfBound(s, seen), AdoptIfBound(t, seen), true, false);
  }

  lemma StartSucceededAlike(s: Server, t: Server, seen: Option<nat>)
    requires Alike(s, t)
    ensures Alike(StartSucceeded(s, seen), StartSucceeded(t, seen))
  {
    hide Alike, TransitionIf, AdoptListener, StartLeft;
    AdoptListenerAlike(s, t, seen);
    TransitionAlike(AdoptListener(s, seen), AdoptListener(t, seen), true, Running);
    var s1, t1 := Transition(AdoptListener(s, seen), Running), Transition(AdoptListener(t, seen), Running);
    StartLeftAlike(s1, t1);
  }

  lemma BindReturnedAlike(s: Server, t: Server, seen: Option<nat>)
    requires Alike(s, t)
    ensures Alike(BindReturned(s, seen), BindReturned(t, seen))
  {
    hide Alike, Unwind, StartSucceeded, AdoptIfBound;
    AlikeFields(s, t);
    AdoptedUnwindAlike(s, t, seen);
    StartSucceededAlike(s, t, seen);
  }

  lemma AwaitAgainAlike(s: Server, t: Server)
    requires Alike(s, t)
    ensures Alike(AwaitAgain(s), AwaitAgain(t))
  {
    hide AlikeLedgers;
  }

  lemma BindCancelledAlike(s: Server, t: Server, seen: Option<nat>)
    requires Alike(s, t)
    ensures Alike(BindCancelled(s, seen), BindCancelled(t, seen))
  {
    hide Alike, Unwind, AdoptIfBound, AwaitAgain, Track, IsDone;
    AlikeEntries(s, t, BindTask);
    AlikeStart(s, t);
    AdoptedUnwindAlike(s, t, seen);
    AwaitAgainAlike(s, t);
    TrackAlike(s, t, BindTask, BindKind, true, true, None, true, None);
    UnwindAlike(Track(s, BindTask, BindKind, true, true, None), Track(t, BindTask, BindKind, true, true, None),
                true, false);
  }

  lemma AlikeStart(s: Server, t: Server)
    requires Alike(s, t)
    ensures s.start == t.start
  {
  }

  lemma BackendUpAlike(s: Server, t: Server)
    requires Alike(s, t)
    ensures Alike(BackendUp(s), BackendUp(t))
  {
    hide AlikeLedgers;
  }

  lemma BindBegunAlike(s: Server, t: Server)
    requires Alike(s, t)
    ensures Alike(BindBegun(s), BindBegun(t))
  {
  }

  lemma BackendReturnedAlike(s: Server, t: Server)
    requires Alike(s, t)
    ensures Alike(BackendReturned(s), BackendReturned(t))
  {
    hide Alike, Unwind, BindBegun, BackendUp;
    AlikeFields(s, t);
    BindBegunAlike(s, t);
    BackendUpAlike(s, t);
    UnwindAlike(BackendUp(s), BackendUp(t), true, false);
  }

  lemma StartEnteredAlike(s: Server, t: Server)
    requires Alike(s, t)
    ensures Alike(StartEntered(s), StartEntered(t))
  {
    hide Alike, TransitionIf, Register, NewAttempt;
    TransitionAlike(s, t, true, Starting);
    RegisterAlike(Transition(s, Starting), Transition(t, Starting), StartToken, StepKind);
    NewAttemptAlike(Register(Transition(s, Starting), StartToken, StepKind),
                    Register(Transition(t, Starting), StartToken, StepKind));
  }

  lemma NewAttemptAlike(s: Server, t: Server)
    requires Alike(s, t)
    ensures Alike(NewAttempt(s), NewAttempt(t))
  {
    hide AlikeLedgers;
  }

  lemma ShutdownRequestedAlike(s: Server, t: Server)
    requires Alike(s, t)
    ensures Alike(ShutdownRequested(s), ShutdownRequested(t))
  {
    hide AlikeLedgers;
  }

  lemma DrainPlannedAlike(s: Server, t: Server)
    requires Alike(s, t)
    ensures Alike(DrainPlanned(s), DrainPlanned(t))
  {
    hide AlikeLedgers;
  }

  lemma ScheduleDrainAlike(s: Server, t: Server)
    requires Alike(s, t)
    ensures Alike(ScheduleDrain(s), ScheduleDrain(t))
  {
    hide Alike, TransitionIf, TrackNew;
    TransitionAlike(s, t, true, Stopping);
    DrainPlannedAlike(Transition(s, Stopping), Transition(t, Stopping));
    TrackNewAlike(DrainPlanned(Transition(s, Stopping)), DrainPlanned(Transition(t, Stopping)),
                  StopTask, StepKind, false, None, false, None);
  }

  lemma ShutdownAlike(s: Server, t: Server)
    requires Alike(s, t)
    ensures Alike(Shutdown(s), Shutdown(t))
  {
    hide Alike, TransitionIf, ScheduleDrain, ShutdownRequested;
    AlikeFields(s, t);
    ShutdownRequestedAlike(s, t);
    TransitionAlike(ShutdownRequested(s), ShutdownRequested(t), true, Stopped);
    TransitionAlike(ShutdownRequested(s), ShutdownRequested(t), true, Stopping);
    ScheduleDrainAlike(ShutdownRequested(s), ShutdownRequested(t));
  }

  // ---------------------------------------------------------------- every step

  /** The same step, up to what a caller of `adopt` marks and labels. */
  predicate SameStep(a: Action, b: Action) {
    a == b || (a.Adopt? && b.Adopt? && a.id == b.id)
  }

  lemma EnabledAlike(s: Server, t: Server, a: Action, b: Action)
    requires Alike(s, t) && SameStep(a, b) && Enabled(s, a)
    ensures Enabled(t, b)
  {
    hide Alike;
    AlikeFields(s, t);
  }

  lemma StartStepAlike(s: Server, t: Server, a: Action)
    requires Alike(s, t) && Enabled(s, a) && Enabled(t, a)
    requires a.StartCall? || a.LockTaken? || a.LockRefused? || a.BackendStarted? || a.BackendFailed?
          || a.StartResumed? || a.StartCancelled?
    ensures Alike(Do(s, a), Do(t, a))
  {
    hide Alike, StartEntered, LockAcquired, Unwind, BackendReturned, BindReturned, BindCancelled;
    match a
    case StartCall => StartEnteredAlike(s, t);
    case LockTaken => LockAcquiredAlike(s, t);
    case LockRefused(idle) => UnwindAlike(s, t, false, idle);
    case BackendStarted => BackendReturnedAlike(s, t);
    case BackendFailed(idle) => UnwindAlike(s, t, false, idle);
    case StartResumed(seen) => BindReturnedAlike(s, t, seen);
    case StartCancelled(seen) => BindCancelledAlike(s, t, seen);
  }

  lemma LockAcquiredAlike(s: Server, t: Server)
    requires Alike(s, t)
    ensures Alike(LockAcquired(s), LockAcquired(t))
  {
    hide AlikeLedgers;
  }

  lemma StopStepAlike(s: Server, t: Server, a: Action)
    requires Alike(s, t) && Enabled(s, a) && Enabled(t, a)
    requires a.ShutdownCall? || a.ShutdownCallerCancelled? || a.DrainStarted? || a.DrainSkipped?
          || a.DrainResumed? || a.DrainCancelled?
    ensures Alike(Do(s, a), Do(t, a))
  {
    hide Alike, Shutdown, CancelSessions, DrainBegin, Finish, SetDrain, DrainResume, DrainFinish;
    match a
    case ShutdownCall => ShutdownAlike(s, t);
    case ShutdownCallerCancelled => CancelSessionsAlike(s, t);
    case DrainStarted => DrainBeginAlike(s, t, false);
    case DrainSkipped =>
      SetDrainAlike(s, t, NoDrain);
      FinishAlike(SetDrain(s, NoDrain), SetDrain(t, NoDrain), StopTask, false);
    case DrainResumed(idle) => DrainResumeAlike(s, t, idle);
    case DrainCancelled(idle) => DrainFinishAlike(s, t, idle);
  }

  lemma CompleteAlike(s: Server, t: Server, k: Key, ok: bool)
    requires Alike(s, t)
    ensures Alike(Complete(s, k, ok), Complete(t, k, ok))
  {
    hide Alike, Finish, SetSock;
    SetSockAlike(s, t, Closed);
    FinishAlike(SetSock(s, Closed), SetSock(t, Closed), k, ok);
    FinishAlike(s, t, k, ok);
  }

  lemma SawIdleAlike(s: Server, t: Server)
    requires Alike(s, t)
    ensures Alike(SawIdle(s), SawIdle(t))
  {
    hide AlikeLedgers;
  }

  lemma CallbackTakenAlike(s: Server, t: Server, k: Key)
    requires Alike(s, t) && IsDone(s, k) && IsDone(t, k)
    ensures Alike(CallbackTaken(s, k), CallbackTaken(t, k))
  {
    hide AlikeLedgers;
  }

  lemma AdoptWorkAlike(s: Server, t: Server, id: nat, abandoned: bool, name: string, abandoned2: bool, name2: string)
    requires Alike(s, t)
    ensures Alike(AdoptWork(s, id, abandoned, name), AdoptWork(t, id, abandoned2, name2))
  {
    hide Alike, Track, TrackNew;
    AlikeFields(s, t);
    TrackAlike(s, t, Adopted(id), AdoptedKind, abandoned, false, Some(name), abandoned2, Some(name2));
    TrackNewAlike(s, t, Adopted(id), AdoptedKind, abandoned, Some(name), abandoned2, Some(name2));
  }

  lemma FutureStepAlike(s: Server, t: Server, a: Action, b: Action)
    requires Alike(s, t) && SameStep(a, b) && Enabled(s, a) && Enabled(t, b)
    requires a.SocketBound? || a.BindFinished? || a.Adopt? || a.Completed? || a.IdleObserved?
    ensures Alike(Do(s, a), Do(t, b))
  {
    hide Alike, SetSock, Finish, Record, AdoptWork, Complete, SawIdle;
    match a
    case SocketBound => SetSockAlike(s, t, Serving);
    case BindFinished(ok, seen) =>
      var x := if ok then seen else None;
      RecordAlike(s, t, x);
      FinishAlike(Record(s, x), Record(t, x), BindTask, ok);
    case Adopt(id, abandoned, name) => AdoptWorkAlike(s, t, id, abandoned, name, b.abandoned, b.name);
    case Completed(k, ok) => CompleteAlike(s, t, k, ok);
    case IdleObserved => SawIdleAlike(s, t);
  }

  lemma CallbackStepAlike(s: Server, t: Server, a: Action)
    requires Alike(s, t) && Enabled(s, a) && Enabled(t, a) && a.CallbackRan?
    ensures Alike(Do(s, a), Do(t, a))
  {
    hide Alike, CallbackTaken, Retire;
    AlikeFields(s, t);
    CallbackTakenAlike(s, t, a.k);
    RetireAlike(CallbackTaken(s, a.k), CallbackTaken(t, a.k), a.k, s.futs[a.k].ok, a.fails, a.seen);
  }

  lemma NewTaskAlike(s: Server, t: Server, id: nat, handler: bool)
    requires Alike(s, t)
    ensures Alike(NewTask(s, id, handler), NewTask(t, id, handler))
  {
  }

  lemma NoteLateAlike(s: Server, t: Server)
    requires Alike(s, t)
    ensures Alike(NoteLate(s), NoteLate(t))
  {
    hide AlikeLedgers;
  }

  lemma TaskGoneAlike(s: Server, t: Server, id: nat)
    requires Alike(s, t)
    ensures Alike(TaskGone(s, id), TaskGone(t, id))
  {
    hide AlikeLedgers;
  }

  lemma SetThreadsAlike(s: Server, t: Server, threads: set<nat>)
    requires Alike(s, t)
    ensures Alike(SetThreads(s, threads), SetThreads(t, threads))
  {
    hide AlikeLedgers;
  }

  lemma TaskStepAlike(s: Server, t: Server, a: Action)
    requires Alike(s, t) && Enabled(s, a) && Enabled(t, a)
    requires a.HandlerStarted? || a.DecodeStarted? || a.TaskCancelled?
    ensures Alike(Do(s, a), Do(t, a))
  {
    hide Alike, NewTask, NoteLate, CancelTasks;
    match a
    case HandlerStarted(id) =>
      NoteLateAlike(s, t);
      NewTaskAlike(NoteLate(s), NoteLate(t), id, true);
    case DecodeStarted(_, id) => NewTaskAlike(s, t, id, false);
    case TaskCancelled(id) => CancelTasksAlike(s, t, {id});
  }

  lemma ThreadStepAlike(s: Server, t: Server, a: Action)
    requires Alike(s, t) && Enabled(s, a) && Enabled(t, a)
    requires a.TaskFinished? || a.ThreadMarked? || a.StepMarked? || a.ThreadEnded?
    ensures Alike(Do(s, a), Do(t, a))
  {
    hide Alike, Enabled, Finish, TaskGone, SetThreads, NoteLate;
    AlikeFields(s, t);
    match a
    case TaskFinished(id) =>
      TaskGoneAlike(s, t, id);
      FinishAlike(TaskGone(s, id), TaskGone(t, id), Task(id), true);
    case ThreadMarked(id) => SetThreadsAlike(s, t, s.past.threads + {id});
    case StepMarked(_, id) =>
      NoteLateAlike(s, t);
      SetThreadsAlike(NoteLate(s), NoteLate(t), s.past.threads + {id});
    case ThreadEnded(id) => SetThreadsAlike(s, t, s.past.threads - {id});
  }

  lemma StepAlike(s: Server, t: Server, a: Action, b: Action)
    requires Alike(s, t) && SameStep(a, b) && Enabled(s, a)
    ensures Enabled(t, b) && Alike(Do(s, a), Do(t, b))
  {
    hide Alike, Do, Enabled;
    EnabledAlike(s, t, a, b);
    if a.Adopt? || a.SocketBound? || a.BindFinished? || a.Completed? || a.IdleObserved? { FutureStepAlike(s, t, a, b); }
    else if a.CallbackRan? { CallbackStepAlike(s, t, a); }
    else if a.ShutdownCall? || a.ShutdownCallerCancelled? || a.DrainStarted? || a.DrainSkipped?
         || a.DrainResumed? || a.DrainCancelled? { StopStepAlike(s, t, a); }
    else if a.HandlerStarted? || a.DecodeStarted? || a.TaskCancelled? { TaskStepAlike(s, t, a); }
    else if a.TaskFinished? || a.ThreadMarked? || a.StepMarked? || a.ThreadEnded? { ThreadStepAlike(s, t, a); }
    else { StartStepAlike(s, t, a); }
  }

  // ---------------------------------------------------------------- main results

  ghost predicate SameStates(ss: seq<Server>, ts: seq<Server>) {
    |ts| == |ss| && forall k :: 0 <= k < |ss| ==> ts[k].state == ss[k].state && ts[k].lock == ss[k].lock
  }

  lemma SameStatesAppend(ss: seq<Server>, ts: seq<Server>, u: Server)
    requires |ss| > 0 && SameStates(ss[..|ss| - 1], ts) && u.state == ss[|ss| - 1].state && u.lock == ss[|ss| - 1].lock
    ensures SameStates(ss, ts + [u])
  {
  }

  /** Marks are inert: a run can be replayed with other marks and labels step
      by step, and every state and every lock value is the same. */
  lemma {:induction false} MarksAreInert(ss: seq<Server>, as_: seq<Action>, t: Server, bs: seq<Action>)
      returns (ts: seq<Server>)
    requires Steps(ss, as_) && Alike(ss[0], t)
    requires |bs| == |as_| && forall k :: 0 <= k < |as_| ==> SameStep(as_[k], bs[k])
    ensures Steps(ts, bs) && ts[0] == t
    ensures SameStates(ss, ts) && Alike(ss[|as_|], ts[|as_|])
    decreases |as_|
  {
    if as_ == [] {
      SameStart(ss, t);
      ts := [t];
    } else {
      var n := |as_| - 1;
      StepsPrefix(ss, as_);
      var us := MarksAreInert(ss[..n + 1], as_[..n], t, bs[..n]);
      ts := MarksStayInert(ss, as_, us, bs);
      hide Alike, Do, Enabled, SameStep, Steps, SameStates;
    }
  }

  lemma SameStart(ss: seq<Server>, t: Server)
    requires |ss| == 1 && Alike(ss[0], t)
    ensures SameStates(ss, [t])
  {
    hide Alike;
    AlikeFields(ss[0], t);
  }

  lemma MarksStayInert(ss: seq<Server>, as_: seq<Action>, us: seq<Server>, bs: seq<Action>) returns (ts: seq<Server>)
    requires as_ != [] && Steps(ss, as_) && |bs| == |as_| && SameStep(as_[|as_| - 1], bs[|as_| - 1])
    requires Steps(us, bs[..|as_| - 1]) && SameStates(ss[..|as_|], us) && Alike(ss[|as_| - 1], us[|as_| - 1])
    ensures Steps(ts, bs) && ts[0] == us[0] && SameStates(ss, ts) && Alike(ss[|as_|], ts[|as_|])
  {
    hide Alike, Do, Enabled, SameStep, Steps, SameStates;
    StepsLast(ss, as_);
    StepsLast(us, bs[..|as_| - 1]);
    var n := |as_| - 1;
    StepAlike(ss[n], us[n], as_[n], bs[n]);
    StepsAppend(us, bs[..n], bs[n]);
    AlikeFields(ss[n + 1], Do(us[n], bs[n]));
    assert bs == bs[..n] + [bs[n]];
    SameStatesAppend(ss, us, Do(us[n], bs[n]));
    ts := us + [Do(us[n], bs[n])];
  }

  lemma StepsPrefix(ss: seq<Server>, as_: seq<Action>)
    requires Steps(ss, as_) && as_ != []
    ensures Steps(ss[..|as_|], as_[..|as_| - 1])
  {
    hide Do, Enabled;
  }

  lemma StepsLast(ss: seq<Server>, as_: seq<Action>)
    requires Steps(ss, as_)
    ensures |ss| == |as_| + 1
    ensures as_ != [] ==> Enabled(ss[|as_| - 1], as_[|as_| - 1]) && ss[|as_|] == Do(ss[|as_| - 1], as_[|as_| - 1])
  {
    hide Do, Enabled;
  }

  lemma StepsAppend(ss: seq<Server>, as_: seq<Action>, a: Action)
    requires Steps(ss, as_) && Enabled(ss[|as_|], a)
    ensures Steps(ss + [Do(ss[|as_|], a)], as_ + [a])
  {
    hide Do, Enabled;
  }

  // ---------------------------------------------------------------- a cleanup for a finished future

  /** Whatever steps follow, the entry stays, and the lock with it. */
  ghost predicate KeptForGood(t: Server, k: Key) {
    forall ss: seq<Server>, as_: seq<Action>, n: nat ::
      Steps(ss, as_) && ss[0] == t && n < |ss| ==> k in ss[n].ledger && ss[n].lock
  }

  /** Failing closed is promised for that cleanup too. It holds over every later
      step exactly when the bind's own callback is not queued any more: a queued
      one runs later, finds no cleanup and drops the entry. The server itself
      attaches a cleanup only to a bind that is not done (`BindCancelled`). */
  lemma FinishedBindFailsClosedIff(s: Server, kind: Kind, seen: Option<nat>)
    requires Inv(s) && s.lock && s.drain != WaitSessions({}) && Bound(s)
    ensures var t := TrackFinished(s, BindTask, kind, true, seen);
            !s.futs[BindTask].queued <==> KeptForGood(t, BindTask)
  {
    hide Inv, Do, Enabled, TrackFinished, FailedClosed;
    var t := TrackFinished(s, BindTask, kind, true, seen);
    if s.futs[BindTask].queued {
      LockedIsAwake(s);
      FinishedFutureDrops(s, BindTask, kind, seen);
      var a := CallbackRan(BindTask, false, None);
      assert Steps([t, Do(t, a)], [a]);
      assert BindTask !in [t, Do(t, a)][1].ledger;
    } else {
      FinishedBindInv(s, kind, seen);
      forall ss: seq<Server>, as_: seq<Action>, k: nat | Steps(ss, as_) && ss[0] == t && k < |ss|
        ensures BindTask in ss[k].ledger && ss[k].lock
      {
        FailedClosedStays(ss, as_, 0, k);
        FailedClosedEntry(ss[k]);
      }
    }
  }

  lemma FailedClosedEntry(s: Server)
    requires FailedClosed(s)
    ensures BindTask in s.ledger
  {
  }

  lemma LockedIsAwake(s: Server)
    requires Inv(s) && s.lock
    ensures !s.start.Acquiring?
  {
  }

  lemma FinishedBindInv(s: Server, kind: Kind, seen: Option<nat>)
    requires Inv(s) && s.lock && Bound(s) && !s.futs[BindTask].queued
    ensures var t := TrackFinished(s, BindTask, kind, true, seen); Inv(t) && FailedClosed(t)
  {
    hide Inv, TrackFinished, Pinned;
    TrackFinishedIs(s, BindTask, kind, seen);
    PinnedEntry(s, BindTask, kind);
    PinnedBindInv(s, Pinned(s, BindTask, kind));
  }

  /** The entry that a raising cleanup leaves. */
  function Pinned(s: Server, k: Key, kind: Kind): Work {
    (if k in s.ledger then s.ledger[k] else Work(kind, false, false, None)).(stuck := true, closesOrphan := false)
  }

  lemma PinnedEntry(s: Server, k: Key, kind: Kind)
    ensures Pinned(s, k, kind).stuck && !Pinned(s, k, kind).closesOrphan
  {
  }

  lemma TrackFinishedIs(s: Server, k: Key, kind: Kind, seen: Option<nat>)
    requires IsDone(s, k) && s.futs[k].ok
    ensures TrackFinished(s, k, kind, true, seen) == SetLedger(s, s.ledger[k := Pinned(s, k, kind)])
  {
    hide EndWork, CloseOrphan;
    var w := if k in s.ledger then s.ledger[k] else Work(kind, false, false, None);
    assert s.ledger[k := w.(closesOrphan := true)][k := Pinned(s, k, kind)] == s.ledger[k := Pinned(s, k, kind)];
  }

  lemma PinnedBindInv(s: Server, w: Work)
    requires Inv(s) && s.lock && Bound(s) && !s.futs[BindTask].queued && w.stuck && !w.closesOrphan
    ensures var t := SetLedger(s, s.ledger[BindTask := w]); Inv(t) && FailedClosed(t)
  {
    hide Futures, ListenerCovered, Binds;
    PinnedBindListener(s, w);
    PinnedBindFutures(s, w);
    assert BindTask in SetLedger(s, s.ledger[BindTask := w]).ledger;
  }

  lemma PinnedBindListener(s: Server, w: Work)
    requires ListenerCovered(s) && Binds(s) && Bound(s) && !s.futs[BindTask].queued && !w.closesOrphan
    ensures var t := SetLedger(s, s.ledger[BindTask := w]); ListenerCovered(t) && Binds(t)
  {
  }

  lemma PinnedBindFutures(s: Server, w: Work)
    requires Futures(s) && w.stuck
    ensures Futures(SetLedger(s, s.ledger[BindTask := w]))
  {
  }

  /** Of any future: the entry of a raising cleanup is stuck, and a callback
      that was queued can run next and drops it. */
  lemma FinishedFutureDrops(s: Server, k: Key, kind: Kind, seen: Option<nat>)
    requires IsDone(s, k) && s.futs[k].ok && !s.start.Acquiring? && s.drain != WaitSessions({})
    ensures var t := TrackFinished(s, k, kind, true, seen);
            && k in t.ledger && t.ledger[k].stuck
            && (s.futs[k].queued <==> Enabled(t, CallbackRan(k, false, None)))
            && (s.futs[k].queued ==> k !in Do(t, CallbackRan(k, false, None)).ledger)
  {
    hide TrackFinished, Retire, EndWork;
    var t := TrackFinished(s, k, kind, true, seen);
    FinishedFails(s, k, kind, seen);
    if s.futs[k].queued { CallbackDrops(t, k); }
  }

  lemma CallbackDrops(t: Server, k: Key)
    requires Enabled(t, CallbackRan(k, false, None)) && k in t.ledger && !t.ledger[k].closesOrphan
    ensures k !in Do(t, CallbackRan(k, false, None)).ledger
  {
    hide CallbackTaken, Retire, EndWork;
    CallbackTakenIs(t, k);
    RetireIs(CallbackTaken(t, k), k, t.futs[k].ok, false, None);
    EndWorkDrops(CallbackTaken(t, k), k);
  }

  lemma FinishedFails(s: Server, k: Key, kind: Kind, seen: Option<nat>)
    requires IsDone(s, k) && s.futs[k].ok
    ensures var t := TrackFinished(s, k, kind, true, seen);
            && k in t.ledger && t.ledger[k].stuck && !t.ledger[k].closesOrphan
            && t.futs == s.futs && t.start == s.start && t.drain == s.drain
  {
    hide EndWork, CloseOrphan;
  }

  lemma EndWorkDrops(s: Server, k: Key)
    ensures k !in EndWork(s, k).ledger
  {
  }
}
