/** The server that Serve.dfy moves is the one of Lifecycle.dfy: every step of a
    server is one of the moves that `serve` reckons with. */
module ServeServer {
  import opened Wrappers
  import opened Lifecycle
  import opened LifecycleInvariant
  import opened LockSteps
  import opened LifecycleProgress
  import opened LifecycleRuns
  import D = DecodeThreads
  import S = Serve

  // ---------------------------------------------------------------- where the state moves

  predicate Steady(s: Server, t: Server) { t.state == s.state || (s.state.Stopping? && t.state.Stopped?) }

  /** A part of a segment that leaves `start()` where it is, and the state too,
      but for the last entry's end. */
  predicate Still(s: Server, t: Server) { t.start == s.start && Steady(s, t) }

  /** A segment that starts nothing, and moves the state further only when
      `start()` ends in it. */
  predicate Poised(s: Server, t: Server) {
    && (s.start.Idle? ==> t.start.Idle?)
    && (s.start.Idle? || !t.start.Idle? ==> Steady(s, t))
  }

  lemma StillTrans(s: Server, t: Server, u: Server)
    requires Still(s, t) && Still(t, u)
    ensures Still(s, u)
  {
  }

  lemma StillThenPoised(s: Server, t: Server, u: Server)
    requires Still(s, t) && Poised(t, u)
    ensures Poised(s, u)
  {
  }

  lemma StillIsPoised(s: Server, t: Server)
    requires Still(s, t)
    ensures Poised(s, t)
  {
  }

  lemma PlacesAreStill(s: Server, t: Server)
    requires SamePlaces(s, t)
    ensures Still(s, t)
  {
  }

  lemma SetDrainStill(s: Server, pc: DrainPc)
    ensures Still(s, SetDrain(s, pc))
  {
  }

  lemma HandOverThreadsStill(s: Server, idle: bool)
    ensures Still(s, HandOverThreads(s, idle))
  {
  }

  lemma EnsureBackendCloseStill(s: Server, due: bool, stuck: bool)
    ensures Still(s, EnsureBackendClose(s, due, stuck))
  {
    hide Tracked;
  }

  lemma KeepLockStill(s: Server, idle: bool)
    ensures Still(s, KeepLock(s, idle))
  {
    hide Still, SamePlaces, CancelSessions, EnsureBackendClose, HandOverThreads;
    CancelSessionsPlaces(s);
    PlacesAreStill(s, CancelSessions(s));
    var t := EnsureBackendClose(CancelSessions(s), s.drainCloses, true);
    EnsureBackendCloseStill(CancelSessions(s), s.drainCloses, true);
    StillTrans(s, CancelSessions(s), t);
    HandOverThreadsStill(t, idle);
    StillTrans(s, t, KeepLock(s, idle));
  }

  lemma DrainEndedStill(s: Server, idle: bool)
    ensures Still(s, DrainEnded(s, idle))
  {
    hide Still, SamePlaces, KeepLock, SetDrain, EndWork;
    KeepLockStill(s, idle);
    var t := SetDrain(KeepLock(s, idle), NoDrain);
    SetDrainStill(KeepLock(s, idle), NoDrain);
    StillTrans(s, KeepLock(s, idle), t);
    EndWorkPlaces(t, DrainToken);
    PlacesAreStill(t, EndWork(t, DrainToken));
    StillTrans(s, t, DrainEnded(s, idle));
  }

  lemma StartFinallyIdle(s: Server)
    ensures StartFinally(s).start.Idle?
  {
  }

  lemma DrainFinishPoised(s: Server, idle: bool)
    ensures Poised(s, DrainFinish(s, idle))
  {
    hide Still, SamePlaces, DrainEnded, StartFinally, Finish;
    var t := DrainEnded(s, idle);
    if s.start.Unwinding? {
      StartFinallyIdle(t);
    } else {
      DrainEndedStill(s, idle);
      LifecycleProgress.FinishPlaces(t, StopTask, true);
      PlacesAreStill(t, Finish(t, StopTask, true));
      StillTrans(s, t, Finish(t, StopTask, true));
      StillIsPoised(s, Finish(t, StopTask, true));
    }
  }

  lemma AfterCloserPoised(s: Server, idle: bool)
    ensures Poised(s, AfterCloser(s, idle))
  {
    hide Poised, Still, DrainFinish, EnsureBackendClose, SetDrain;
    if s.drainCloses {
      var t := EnsureBackendClose(s, true, false);
      EnsureBackendCloseStill(s, true, false);
      SetDrainStill(t, WaitBackendClose);
      StillTrans(s, t, SetDrain(t, WaitBackendClose));
      StillIsPoised(s, SetDrain(t, WaitBackendClose));
    } else {
      DrainFinishPoised(s, idle);
    }
  }

  lemma AfterSessionsPoised(s: Server, idle: bool)
    ensures Poised(s, AfterSessions(s, idle))
  {
    hide Poised, Still, AfterCloser, SetDrain;
    SetDrainStill(s, WaitCloser);
    StillIsPoised(s, SetDrain(s, WaitCloser));
    AfterCloserPoised(s, idle);
  }

  lemma CloseListenerStill(s: Server)
    ensures Still(s, CloseListener(s))
  {
    hide SamePlaces, BeginListenerClose;
    ListenerClosePlaces(s, false);
    PlacesAreStill(s, BeginListenerClose(s, false));
  }

  lemma DrainFirstPoised(s: Server, idle: bool)
    ensures Poised(s, DrainFirst(s, idle))
  {
    hide Poised, Still, AfterSessions, CloseListener, SetDrain, LiveSessions;
    var t := CloseListener(s);
    CloseListenerStill(s);
    SetDrainStill(t, WaitSessions(LiveSessions(s)));
    StillIsPoised(t, SetDrain(t, WaitSessions(LiveSessions(s))));
    AfterSessionsPoised(t, idle);
    StillThenPoised(s, t, DrainFirst(s, idle));
  }

  lemma EnterDrainStill(s: Server)
    ensures Still(s, EnterDrain(s))
  {
  }

  lemma DrainBeginPoised(s: Server, idle: bool)
    ensures Poised(s, DrainBegin(s, idle))
  {
    hide Poised, Still, EnterDrain, DrainFirst;
    EnterDrainStill(s);
    DrainFirstPoised(EnterDrain(s), idle);
    StillThenPoised(s, EnterDrain(s), DrainBegin(s, idle));
  }

  lemma CancelTasksStill(s: Server, ids: set<nat>)
    ensures Still(s, CancelTasks(s, ids))
  {
    hide Cancel;
  }

  lemma TimeoutPoised(s: Server, still: set<nat>, idle: bool)
    ensures Poised(s, AfterDrainTimeout(s, still, idle))
  {
    hide Poised, Still, AfterSessions, SetDrain, CancelTasks;
    var t := CancelTasks(s, still);
    CancelTasksStill(s, still);
    SetDrainStill(t, WaitCancelled);
    StillTrans(s, t, SetDrain(t, WaitCancelled));
    StillIsPoised(s, SetDrain(t, WaitCancelled));
    AfterSessionsPoised(s, idle);
  }

  lemma TrackStill(s: Server, k: Key, kind: Kind, stuck: bool, closesOrphan: bool, name: Option<string>)
    ensures Still(s, Track(s, k, kind, stuck, closesOrphan, name))
  {
    hide Tracked;
  }

  lemma DrainResumePoised(s: Server, idle: bool)
    requires DrainWaits(s)
    ensures Poised(s, DrainResume(s, idle))
  {
    hide Poised, Still, AfterSessions, AfterCloser, DrainFinish, AfterDrainTimeout, StillRunning, Track;
    match s.drain
    case WaitSessions(pending) => TimeoutPoised(s, StillRunning(s, pending), idle);
    case WaitCancelled => AfterSessionsPoised(s, idle);
    case WaitCloser =>
      TrackStill(s, Closer, ListenerCloseKind, true, false, None);
      AfterCloserPoised(Linger(s, Closer, ListenerCloseKind), idle);
      StillThenPoised(s, Linger(s, Closer, ListenerCloseKind), DrainResume(s, idle));
    case WaitBackendClose =>
      TrackStill(s, CloseTask, CloseKind, true, false, None);
      DrainFinishPoised(Linger(s, CloseTask, CloseKind), idle);
      StillThenPoised(s, Linger(s, CloseTask, CloseKind), DrainResume(s, idle));
  }

  /** Between two places of a start under way. */
  lemma SetUnwindingKeeps(s: Server, backendStarted: bool)
    ensures SetUnwinding(s, backendStarted).state == s.state && !SetUnwinding(s, backendStarted).start.Idle?
  {
  }

  lemma UnwindPoised(s: Server, backendStarted: bool, idle: bool)
    requires !s.start.Idle?
    ensures Poised(s, Unwind(s, backendStarted, idle))
  {
    hide DrainBegin, SetUnwinding;
    SetUnwindingKeeps(s, backendStarted);
    DrainBeginPoised(SetUnwinding(s, backendStarted), idle);
  }

  lemma AdoptIfBoundStill(s: Server, seen: Option<nat>)
    ensures Still(s, AdoptIfBound(s, seen))
  {
  }

  lemma AdoptedUnwindPoised(s: Server, seen: Option<nat>)
    requires !s.start.Idle?
    ensures Poised(s, Unwind(AdoptIfBound(s, seen), true, false))
  {
    hide Poised, AdoptIfBound, Unwind;
    AdoptIfBoundStill(s, seen);
    UnwindPoised(AdoptIfBound(s, seen), true, false);
    StillThenPoised(s, AdoptIfBound(s, seen), Unwind(AdoptIfBound(s, seen), true, false));
  }

  lemma StartSucceededIdle(s: Server, seen: Option<nat>)
    ensures StartSucceeded(s, seen).start.Idle?
  {
  }

  lemma BackendStartedStill(s: Server)
    ensures BackendUp(s).state == s.state && BackendUp(s).start == s.start
    ensures BindBegun(s).state == s.state && !BindBegun(s).start.Idle?
  {
  }

  lemma StartsOn(s: Server)
    ensures LockAcquired(s).state == s.state && !LockAcquired(s).start.Idle?
    ensures AwaitAgain(s).state == s.state && !AwaitAgain(s).start.Idle?
  {
  }

  lemma BindCancelledPoised(s: Server, seen: Option<nat>)
    requires AwaitsBind(s)
    ensures Poised(s, BindCancelled(s, seen))
  {
    hide Still, Unwind, AdoptIfBound, Track, AwaitAgain;
    AdoptedUnwindPoised(s, seen);
    StartsOn(s);
    var t := Track(s, BindTask, BindKind, true, true, None);
    TrackStill(s, BindTask, BindKind, true, true, None);
    StillStart(s, t);
    UnwindPoised(t, true, false);
    StillThenPoised(s, t, Unwind(t, true, false));
  }

  lemma StillStart(s: Server, t: Server)
    requires Still(s, t)
    ensures t.start == s.start
  {
  }

  lemma StartStepPoised(s: Server, a: Action)
    requires Enabled(s, a) && StartSteps(a)
    ensures Poised(s, Do(s, a))
  {
    hide Unwind, LockAcquired, StartSucceeded, AdoptIfBound, BackendUp, BindBegun, BindCancelled;
    StartsOn(s);
    BackendStartedStill(s);
    match a
    case LockTaken =>
    case LockRefused(idle) => UnwindPoised(s, false, idle);
    case BackendStarted => UnwindPoised(BackendUp(s), true, false);
    case BackendFailed(idle) => UnwindPoised(s, false, idle);
    case StartResumed(seen) =>
      StartSucceededIdle(s, seen);
      AdoptedUnwindPoised(s, seen);
    case StartCancelled(seen) => BindCancelledPoised(s, seen);
  }

  lemma StopStepPoised(s: Server, a: Action)
    requires Enabled(s, a)
    requires a.ShutdownCallerCancelled? || a.DrainStarted? || a.DrainSkipped? || a.DrainResumed? || a.DrainCancelled?
    ensures Poised(s, Do(s, a))
  {
    hide Poised, Still, SamePlaces, CancelSessions, DrainBegin, Finish, SetDrain, DrainResume, DrainFinish;
    match a
    case ShutdownCallerCancelled =>
      CancelSessionsPlaces(s);
      PlacesAreStill(s, CancelSessions(s));
      StillIsPoised(s, CancelSessions(s));
    case DrainStarted => DrainBeginPoised(s, false);
    case DrainSkipped =>
      var t := SetDrain(s, NoDrain);
      SetDrainStill(s, NoDrain);
      LifecycleProgress.FinishPlaces(t, StopTask, false);
      PlacesAreStill(t, Finish(t, StopTask, false));
      StillTrans(s, t, Finish(t, StopTask, false));
      StillIsPoised(s, Finish(t, StopTask, false));
    case DrainResumed(idle) => DrainResumePoised(s, idle);
    case DrainCancelled(idle) => DrainFinishPoised(s, idle);
  }

  /** The two calls that `serve` makes itself. */
  predicate Called(a: Action) { a.StartCall? || a.ShutdownCall? }

  lemma StepPoised(s: Server, a: Action)
    requires Enabled(s, a) && !Called(a)
    ensures Poised(s, Do(s, a))
  {
    hide Enabled, Do, Poised, Still, SamePlaces;
    if StartSteps(a) {
      StartStepPoised(s, a);
    } else if a.ShutdownCallerCancelled? || a.DrainStarted? || a.DrainSkipped? || a.DrainResumed? || a.DrainCancelled? {
      StopStepPoised(s, a);
    } else {
      QuietStepPlaces(s, a);
      PlacesAreStill(s, Do(s, a));
      StillIsPoised(s, Do(s, a));
    }
  }

  // ---------------------------------------------------------------- serve's moves

  /** `serve`'s server is this one: its state, its start, and whether its drain ended. */
  predicate Fits(v: S.State, s: Server) {
    && v.server == s.state && (v.startup.Active? <==> !s.start.Idle?) && (v.drained <==> s.past.drained)
  }

  /** What a step of the server is in `serve`'s terms: the drain ends, then the
      start ends, or the server settles. */
  function Echo(s: Server, t: Server): seq<S.Action> {
    (if t.past.drained && !s.past.drained then [S.DrainEnds] else [])
    + (if !s.start.Idle? && t.start.Idle? then [S.StartEnds(t.state.Running?, t.state)]
       else if t.state != s.state then [S.ServerSettles] else [])
  }

  ghost predicate Takes(v: S.State, moves: seq<S.Action>, u: S.State)
    decreases |moves|
  {
    if moves == [] then u == v
    else S.Enabled(v, moves[0]) && Takes(S.Do(v, moves[0]), moves[1..], u)
  }

  /** What a step that is no call does to the start, the state and the drain. */
  predicate Reckoned(s: Server, t: Server) {
    && Poised(s, t)
    && (s.past.drained ==> t.past.drained)
    && (t.past.drained && !s.past.drained ==> s.state.Stopping? || !s.start.Idle?)
    && (!s.start.Idle? ==> s.state.Starting? || s.state.Stopping?)
    && (!t.start.Idle? ==> t.state.Starting? || t.state.Stopping?)
    && (t.start.Idle? ==> !t.state.Starting?)
    && (s.state.Stopping? ==> t.state.Stopping? || t.state.Stopped?)
    && (t.state.Running? ==> !t.past.drained)
  }

  lemma StateAndStart(s: Server)
    requires Inv(s)
    ensures !s.start.Idle? ==> s.state.Starting? || s.state.Stopping?
    ensures s.start.Idle? ==> !s.state.Starting?
    ensures s.state.Running? ==> !s.past.drained
  {
  }

  /** At rest nothing ends a drain. */
  lemma DrainEndsOnlyUnderWay(s: Server, a: Action)
    requires Inv(s) && Enabled(s, a) && !Called(a) && s.start.Idle? && !s.state.Stopping?
    ensures Do(s, a).past.drained == s.past.drained
  {
    hide Inv, Enabled, Do, SamePlaces;
    StateAndStart(s);
    IdlePlaces(s, a);
    if a.DrainSkipped? { SkippedOnlyStopping(s, a); }
    if a.ShutdownCallerCancelled? { CallerCancelledPlaces(s, a); } else { QuietStepPlaces(s, a); }
    PlacesDrained(s, Do(s, a));
  }

  lemma CallerCancelledPlaces(s: Server, a: Action)
    requires Enabled(s, a) && a.ShutdownCallerCancelled?
    ensures SamePlaces(s, Do(s, a))
  {
    hide Enabled, SamePlaces, CancelSessions;
    CancelSessionsPlaces(s);
  }

  lemma PlacesDrained(s: Server, t: Server)
    requires SamePlaces(s, t)
    ensures t.past.drained == s.past.drained
  {
  }

  lemma SkippedOnlyStopping(s: Server, a: Action)
    requires Inv(s) && Enabled(s, a) && a.DrainSkipped?
    ensures s.state.Stopping?
  {
  }

  lemma DrainedStays(s: Server, a: Action)
    requires Inv(s) && Enabled(s, a) && !a.StartCall? && s.past.drained
    ensures Do(s, a).past.drained
  {
    hide Inv, Enabled, Do, Weight, FailedClosed, SamePlaces;
    if a.CallbackRan? {
      QuietStepPlaces(s, a);
      PlacesDrained(s, Do(s, a));
    } else {
      StepEases(s, a);
    }
  }

  lemma StepReckoned(s: Server, a: Action)
    requires Inv(s) && Enabled(s, a) && !Called(a)
    ensures Reckoned(s, Do(s, a))
  {
    hide Inv, Enabled, Do, Poised;
    StepPoised(s, a);
    StepInv(s, a);
    StateAndStart(s);
    StateAndStart(Do(s, a));
    if s.past.drained { DrainedStays(s, a); }
    if s.start.Idle? && !s.state.Stopping? { DrainEndsOnlyUnderWay(s, a); }
    if s.state.Stopping? { StoppingStays(s, a); }
  }

  lemma StoppingStays(s: Server, a: Action)
    requires Inv(s) && Enabled(s, a) && !Called(a) && s.state.Stopping?
    ensures Do(s, a).state.Stopping? || Do(s, a).state.Stopped?
  {
    hide Inv, Enabled, Do;
    StepDown(s, a);
  }

  lemma TakesNone(v: S.State)
    ensures Takes(v, [], v)
  {
  }

  lemma TakesOne(v: S.State, a: S.Action)
    requires S.Enabled(v, a)
    ensures Takes(v, [a], S.Do(v, a))
  {
    hide S.Do, S.Enabled;
    assert [a][1..] == [];
  }

  lemma TakesTwo(v: S.State, a: S.Action, b: S.Action)
    requires S.Enabled(v, a) && S.Enabled(S.Do(v, a), b)
    ensures Takes(v, [a, b], S.Do(S.Do(v, a), b))
  {
    hide S.Do, S.Enabled;
    TakesOne(S.Do(v, a), b);
    assert [a, b][1..] == [b];
  }

  /** The rest of `serve` stays where it is. */
  predicate Beside(v: S.State, u: S.State) {
    u.pc == v.pc && u.shutdowns == v.shutdowns && u.readiness == v.readiness && u.published == v.published
  }

  lemma DrainMove(v: S.State, s: Server)
    requires Fits(v, s) && (s.state.Stopping? || !s.start.Idle?)
    ensures S.Enabled(v, S.DrainEnds)
    ensures var w := S.Do(v, S.DrainEnds);
            Beside(v, w) && w.server == v.server && w.startup == v.startup && w.drained
  {
  }

  lemma StartMove(w: S.State, s: Server, t: Server)
    requires w.server == s.state && w.startup.Active? && w.drained == t.past.drained
    requires Reckoned(s, t) && !s.start.Idle? && t.start.Idle?
    ensures var a := S.StartEnds(t.state.Running?, t.state);
            S.Enabled(w, a) && Beside(w, S.Do(w, a)) && Fits(S.Do(w, a), t)
  {
  }

  lemma SettleMove(w: S.State, s: Server, t: Server)
    requires w.server == s.state && (w.startup.Active? <==> !s.start.Idle?) && w.drained == t.past.drained
    requires Reckoned(s, t) && (s.start.Idle? || !t.start.Idle?) && t.state != s.state
    ensures S.Enabled(w, S.ServerSettles) && Beside(w, S.Do(w, S.ServerSettles)) && Fits(S.Do(w, S.ServerSettles), t)
  {
  }

  lemma NoMove(w: S.State, s: Server, t: Server)
    requires w.server == s.state && (w.startup.Active? <==> !s.start.Idle?) && w.drained == t.past.drained
    requires Reckoned(s, t) && (s.start.Idle? || !t.start.Idle?) && t.state == s.state
    ensures Fits(w, t)
  {
  }

  /** What `Echo` ends with. */
  function Ending(s: Server, t: Server): Option<S.Action> {
    if !s.start.Idle? && t.start.Idle? then Some(S.StartEnds(t.state.Running?, t.state))
    else if t.state != s.state then Some(S.ServerSettles) else None
  }

  lemma EndingMove(w: S.State, s: Server, t: Server)
    requires w.server == s.state && (w.startup.Active? <==> !s.start.Idle?) && w.drained == t.past.drained
    requires Reckoned(s, t)
    ensures match Ending(s, t)
            case Some(a) => S.Enabled(w, a) && Beside(w, S.Do(w, a)) && Fits(S.Do(w, a), t)
            case None => Fits(w, t)
  {
    hide S.Do, S.Enabled, Fits, Beside, Reckoned;
    if !s.start.Idle? && t.start.Idle? { StartMove(w, s, t); }
    else if t.state != s.state { SettleMove(w, s, t); }
    else { NoMove(w, s, t); }
  }

  lemma EchoTaken(v: S.State, s: Server, t: Server) returns (u: S.State)
    requires Fits(v, s) && Reckoned(s, t)
    ensures Takes(v, Echo(s, t), u) && Fits(u, t) && Beside(v, u)
  {
    hide S.Do, S.Enabled, Takes;
    var ending := Ending(s, t);
    if t.past.drained && !s.past.drained {
      DrainMove(v, s);
      var w := S.Do(v, S.DrainEnds);
      EndingMove(w, s, t);
      TakesOne(v, S.DrainEnds);
      u := w;
      if ending.Some? {
        TakesTwo(v, S.DrainEnds, ending.value);
        assert Echo(s, t) == [S.DrainEnds, ending.value];
        u := S.Do(w, ending.value);
      } else {
        assert Echo(s, t) == [S.DrainEnds];
      }
    } else {
      EndingMove(v, s, t);
      u := v;
      if ending.Some? {
        TakesOne(v, ending.value);
        assert Echo(s, t) == [ending.value];
        u := S.Do(v, ending.value);
      } else {
        assert Echo(s, t) == [];
        TakesNone(v);
      }
    }
  }

  /** Every step of the server that is no call of `serve`'s is, for `serve`, at most
      these moves, each possible where it stands; afterwards both fit again. */
  lemma ServeReckonsWithEveryStep(v: S.State, s: Server, a: Action) returns (u: S.State)
    requires Fits(v, s) && Inv(s) && Enabled(s, a) && !Called(a)
    ensures Takes(v, Echo(s, Do(s, a)), u) && Fits(u, Do(s, a)) && Beside(v, u)
  {
    hide Inv, Enabled, Do, Reckoned, Fits, Takes, Echo;
    StepReckoned(s, a);
    u := EchoTaken(v, s, Do(s, a));
  }

  /** And its two calls move both alike: the first step of `start()`, ... */
  lemma ServeStarts(v: S.State, s: Server)
    requires Fits(v, s) && Inv(s) && S.Enabled(v, S.StartFirstStep) && s.state.New? && !v.drained
    ensures Fits(S.Do(v, S.StartFirstStep), StartEntered(s))
  {
    hide Inv, TransitionIf, Register;
    NewIsFree(s);
    EntersStarting(s);
  }

  lemma NewIsFree(s: Server)
    requires Inv(s) && s.state.New?
    ensures s.ledger == map[]
  {
  }

  lemma EntersStarting(s: Server)
    requires s.state.New?
    ensures Register(Transition(s, Starting), StartToken, StepKind).state.Starting?
  {
  }

  /** ... and `shutdown()`. */
  lemma ServeShutsDown(v: S.State, s: Server)
    requires Fits(v, s) && Inv(s)
    ensures Fits(v.(server := S.Shutdown(v).server), Lifecycle.Shutdown(s))
  {
    hide Inv, Lifecycle.Shutdown;
    if s.state.New? { NewIsFree(s); }
    ShutdownIs(s);
  }

  lemma ShutdownIs(s: Server)
    requires s.state.New? ==> s.ledger == map[]
    ensures var t := Lifecycle.Shutdown(s);
            && t.start == s.start && t.past.drained == s.past.drained
            && t.state == if s.state.New? || s.state.Stopped? then Stopped else Stopping
  {
    hide TransitionIf, ScheduleDrain, ShutdownRequested;
    RequestKeeps(s);
    TransitionIs(ShutdownRequested(s), Stopped);
    TransitionIs(ShutdownRequested(s), Stopping);
    if s.state.Running? { SchedulesDrain(ShutdownRequested(s)); }
  }

  lemma RequestKeeps(s: Server)
    ensures var t := ShutdownRequested(s);
            t.state == s.state && t.start == s.start && t.past == s.past && t.ledger == s.ledger
  {
  }

  lemma TransitionIs(s: Server, to: State)
    ensures var t := Transition(s, to);
            && t.start == s.start && t.past.drained == s.past.drained
            && (Legal(s.state, to) && (Frees(to) ==> s.ledger == map[]) ==> t.state == to)
  {
  }

  lemma SchedulesDrain(s: Server)
    requires s.state.Running?
    ensures var t := ScheduleDrain(s);
            t.state.Stopping? && t.start == s.start && t.past.drained == s.past.drained
  {
  }

  /** The decodes that the readiness step marks are none of the late ones. */
  lemma ReadinessIsNotLate(ss: seq<S.State>, as_: seq<S.Action>, k: nat, j: D.Joint, e: D.Event)
    requires S.Run(ss, as_) && k < |as_| && as_[k].ReadyMarks?
    requires D.JointInv(j) && Fits(ss[k], j.server)
    ensures !D.LateArrival(j, e)
  {
    hide S.Do, S.Enabled, D.JointInv, D.LateArrival;
    S.ReadinessMarksInTime(ss, as_, k);
    D.RunningIsNotLate(j, e);
  }
}
