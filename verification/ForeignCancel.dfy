/** What the assumption "nobody but the server cancels its bind or its listener's
    close" is for. Cancelling every task of a loop at its teardown breaks it. */
module ForeignCancel {
  import opened Wrappers
  import opened Lifecycle
  import opened LifecycleInvariant

  /** The bind task, or the close, is cancelled from outside. The kernel's socket
      and websockets' own closing task go on. */
  function BindKilled(s: Server): Server { Finish(s, BindTask, false) }

  function CloserKilled(s: Server): Server { Finish(s, Closer, false) }

  /** An open listener that nothing is going to close. */
  predicate Leaked(s: Server) {
    && s.sock.Serving? && Listener !in s.ledger && !s.listenerSlot && !AwaitsBind(s)
    && (BindTask in s.ledger ==> !s.ledger[BindTask].closesOrphan)
  }

  lemma NothingRecorded(s: Server)
    ensures Record(s, None) == s
  {
  }

  lemma KilledAfterBind(s: Server)
    requires s.sock.Serving?
    ensures !Binds(BindKilled(s))
  {
  }

  /** A bind can be cancelled from outside exactly as long as it has bound nothing. */
  lemma BindKillIff(s: Server)
    requires Inv(s) && IsPending(s, BindTask)
    ensures Inv(BindKilled(s)) <==> s.sock.NoSock?
  {
    BindHasSocket(s);
    if s.sock.NoSock? {
      hide Inv, Finish, Record;
      NothingRecorded(s);
      BindFinishedInv(s, false, None);
    } else {
      KilledAfterBind(s);
      hide Binds;
    }
  }

  lemma BindHasSocket(s: Server)
    requires Inv(s) && IsPending(s, BindTask)
    ensures s.sock.NoSock? || s.sock.Serving?
    ensures BindTask in s.ledger && (AwaitsBind(s) <==> !s.ledger[BindTask].closesOrphan)
    ensures s.sock.Serving? ==> !s.start.Acquiring? && !s.listenerSlot && Listener !in s.ledger
  {
  }

  lemma KilledIs(s: Server)
    requires BindTask in s.ledger
    ensures var t := BindKilled(s);
            && t.sock == s.sock && t.ledger == s.ledger && t.start == s.start && t.drain == s.drain
            && t.listenerSlot == s.listenerSlot && t.state == s.state
            && IsDone(t, BindTask) && !t.futs[BindTask].ok && t.futs[BindTask].queued
  {
  }

  lemma SetDrainLeaks(s: Server, pc: DrainPc)
    requires Leaked(s)
    ensures Leaked(SetDrain(s, pc))
  {
  }

  lemma CloseBeginsLeaks(s: Server)
    requires Leaked(s)
    ensures Leaked(EnsureBackendClose(s, true, false))
            && EnsureBackendClose(s, true, false).drainCloses == s.drainCloses
  {
  }

  lemma EntersLeaking(s: Server)
    requires s.sock.Serving? && Listener !in s.ledger && !s.listenerSlot
    requires BindTask in s.ledger ==> !s.ledger[BindTask].closesOrphan
    ensures var t := EnterDrain(SetUnwinding(s, true)); Leaked(t) && t.drainCloses
  {
  }

  lemma UnwindLeaks(s: Server)
    requires s.sock.Serving? && Listener !in s.ledger && !s.listenerSlot
    requires BindTask in s.ledger ==> !s.ledger[BindTask].closesOrphan
    ensures Leaked(Unwind(s, true, false))
  {
    hide EnterDrain, SetUnwinding, SetDrain, EnsureBackendClose, DrainFinish, BeginListenerClose, LiveSessions;
    hide Leaked;
    EntersLeaking(s);
    var t := EnterDrain(SetUnwinding(s, true));
    assert !t.listenerSlot;
    SetDrainLeaks(t, WaitSessions(LiveSessions(t)));
    CloseBeginsLeaks(t);
    SetDrainLeaks(EnsureBackendClose(t, true, false), WaitBackendClose);
  }

  lemma CallbackLeaks(s: Server, seen: Option<nat>)
    requires IsDone(s, BindTask) && !s.futs[BindTask].ok
    requires Leaked(CallbackTaken(s, BindTask).(ledger := s.ledger - {BindTask}))
    ensures var t := Retire(CallbackTaken(s, BindTask), BindTask, false, false, seen);
            Leaked(t) && BindTask !in t.ledger
  {
    hide EndWork, CallbackTaken;
    hide Retire;
    CallbackTakenIs(s, BindTask);
    RetireIs(CallbackTaken(s, BindTask), BindTask, false, false, seen);
    WithoutLeaks(CallbackTaken(s, BindTask), BindTask);
  }

  lemma WithoutLeaks(s: Server, k: Key)
    requires Leaked(s.(ledger := s.ledger - {k}))
    ensures Leaked(EndWork(s, k)) && k !in EndWork(s, k).ledger
  {
  }

  /** Cancelled after it bound, from whatever state: the start that waits for it
      (or, without one, its callback) goes on without the listener, which stays
      open with no entry to close it. */
  lemma KilledBindLeaks(s: Server, seen: Option<nat>)
    requires Inv(s) && IsPending(s, BindTask) && s.sock.Serving? && s.drain != WaitSessions({})
    ensures var a := if AwaitsBind(s) then StartResumed(seen) else CallbackRan(BindTask, false, seen);
            Enabled(BindKilled(s), a) && Leaked(Do(BindKilled(s), a))
  {
    hide Inv, BindKilled, Enabled, Do, Leaked;
    BindHasSocket(s);
    KilledIs(s);
    if AwaitsBind(s) { StartLeaks(BindKilled(s), seen); } else { OrphanLeaks(BindKilled(s), seen); }
  }

  lemma StartLeaks(s: Server, seen: Option<nat>)
    requires AwaitsBind(s) && IsDone(s, BindTask) && !s.futs[BindTask].ok && s.drain != WaitSessions({})
    requires s.sock.Serving? && Listener !in s.ledger && !s.listenerSlot
    requires BindTask in s.ledger ==> !s.ledger[BindTask].closesOrphan
    ensures Enabled(s, StartResumed(seen)) && Leaked(Do(s, StartResumed(seen)))
  {
    hide Leaked, Unwind, StartSucceeded;
    UnwindLeaks(s);
  }

  lemma OrphanLeaks(s: Server, seen: Option<nat>)
    requires IsDone(s, BindTask) && !s.futs[BindTask].ok && s.futs[BindTask].queued
    requires s.drain != WaitSessions({}) && !s.start.Acquiring?
    requires s.sock.Serving? && Listener !in s.ledger && !s.listenerSlot && !AwaitsBind(s)
    ensures var a := CallbackRan(BindTask, false, seen); Enabled(s, a) && Leaked(Do(s, a))
  {
    hide Leaked, Retire, CallbackTaken;
    CallbackTakenKeeps(s);
    CallbackLeaks(s, seen);
  }

  lemma CallbackTakenKeeps(s: Server)
    requires IsDone(s, BindTask)
    requires s.sock.Serving? && Listener !in s.ledger && !s.listenerSlot && !AwaitsBind(s)
    ensures Leaked(CallbackTaken(s, BindTask).(ledger := s.ledger - {BindTask}))
  {
  }

  /** A close cancelled from outside leaves the ledger before its listener is
      closed, from whatever state. */
  lemma KilledCloseIsForgotten(s: Server)
    requires Inv(s) && IsPending(s, Closer) && !s.start.Acquiring? && s.drain != WaitSessions({})
    ensures var a := CallbackRan(Closer, false, None);
            Enabled(CloserKilled(s), a) && Do(CloserKilled(s), a).sock == s.sock
                && Closer !in Do(CloserKilled(s), a).ledger
  {
    hide Inv, CloserKilled, Retire, CallbackTaken, EndWork;
    PendingTracked(s, Closer);
    OnlyBindsAreOrphans(s);
    CloserKilledIs(s);
    var t := CloserKilled(s);
    CallbackTakenIs(t, Closer);
    CloserTaken(t);
    RetireIs(CallbackTaken(t, Closer), Closer, false, false, None);
    EndWorkForgets(CallbackTaken(t, Closer), Closer);
  }

  lemma OnlyBindsAreOrphans(s: Server)
    requires Inv(s)
    ensures Closer in s.ledger ==> !s.ledger[Closer].closesOrphan
  {
  }

  lemma CloserKilledIs(s: Server)
    requires Closer in s.ledger
    ensures var t := CloserKilled(s);
            && t.sock == s.sock && t.ledger == s.ledger && t.start == s.start && t.drain == s.drain
            && IsDone(t, Closer) && !t.futs[Closer].ok && t.futs[Closer].queued
  {
  }

  lemma CloserTaken(s: Server)
    requires IsDone(s, Closer)
    ensures CallbackTaken(s, Closer).sock == s.sock
  {
  }

  lemma EndWorkForgets(s: Server, k: Key)
    ensures EndWork(s, k).sock == s.sock && k !in EndWork(s, k).ledger
  {
  }
}
