/** What holds over whole runs of one server. */
module LifecycleRuns {
  import opened Wrappers
  import opened Lifecycle
  import opened LifecycleInvariant
  import opened LockSteps
  import opened LifecycleProgress

  ghost predicate Steps(ss: seq<Server>, as_: seq<Action>) {
    && |ss| == |as_| + 1
    && forall k :: 0 <= k < |as_| ==> Enabled(ss[k], as_[k]) && ss[k + 1] == Do(ss[k], as_[k])
  }

  ghost predicate Run(ss: seq<Server>, as_: seq<Action>) { Steps(ss, as_) && ss[0] == Initial }

  lemma {:induction false} InvAt(ss: seq<Server>, as_: seq<Action>, k: nat)
    requires Steps(ss, as_) && Inv(ss[0]) && k < |ss|
    ensures Inv(ss[k])
  {
    if k > 0 {
      InvAt(ss, as_, k - 1);
      hide Inv, Do, Enabled;
      StepInv(ss[k - 1], as_[k - 1]);
    }
  }

  lemma RunInv(ss: seq<Server>, as_: seq<Action>, k: nat)
    requires Run(ss, as_) && k < |ss|
    ensures Inv(ss[k])
  {
    hide Inv, Do, Enabled;
    InitialInv();
    InvAt(ss, as_, k);
  }

  /** The state fixes the ledger, and no RuntimeError ever leaves `_transition`. */
  lemma StateTellsTheLedger(ss: seq<Server>, as_: seq<Action>, k: nat)
    requires Run(ss, as_) && k < |ss|
    ensures var s := ss[k];
            && !s.past.raised
            && (Frees(s.state) ==> s.ledger == map[] && !s.lock)
            && (s.state.Starting? ==> StartToken in s.ledger)
            && (s.state.Running? ==> Listener in s.ledger && s.lock)
            && (s.state.Stopping? ==> s.ledger != map[])
            && (s.unlocked <==> Frees(s.state))
  {
    RunInv(ss, as_, k);
  }

  /** A start that failed and left the server NEW can be retried: every field of
      the server's own is what the constructor made it, and nothing is running. */
  lemma NewIsAsCreated(ss: seq<Server>, as_: seq<Action>, k: nat)
    requires Run(ss, as_) && k < |ss| && ss[k].state.New?
    ensures var s := ss[k];
            && (s.lock, s.unlocked, s.shutdownRequested, s.ledger) ==
               (Initial.lock, Initial.unlocked, Initial.shutdownRequested, Initial.ledger)
            && (s.listenerSlot, s.boundInode, s.closeSlot, s.stopSlot, s.shutdownEvent) ==
               (Initial.listenerSlot, Initial.boundInode, Initial.closeSlot, Initial.stopSlot, Initial.shutdownEvent)
            && s.start.Idle? && s.drain.NoDrain? && s.tasks == map[] && !s.sock.Serving? && !s.sock.Closing?
            && (forall j :: !IsPending(s, j))
  {
    hide Inv, Do, Enabled;
    RunInv(ss, as_, k);
    NewHasNothing(ss[k]);
    NewRunsNothing(ss[k]);
  }

  lemma NewHasNothing(s: Server)
    requires Inv(s) && s.state.New?
    ensures !s.lock && s.unlocked && !s.shutdownRequested && s.ledger == map[]
    ensures !s.listenerSlot && s.boundInode == None && !s.closeSlot && !s.stopSlot && !s.shutdownEvent
    ensures s.start.Idle? && s.drain.NoDrain? && !s.sock.Serving? && !s.sock.Closing?
  {
    hide Futures;
  }

  lemma NewRunsNothing(s: Server)
    requires Inv(s) && s.state.New?
    ensures s.tasks == map[] && forall j :: !IsPending(s, j)
  {
    hide Inv;
    NewHasNothing(s);
    forall j | IsPending(s, j)
      ensures false
    {
      PendingTracked(s, j);
    }
    if id :| id in s.tasks { TasksHoldTheLock(s, id); }
  }

  /** A bound listener whose close has not finished is always in the ledger: as
      its start, its bind, itself or its close; and the lock is over it. */
  lemma ListenerAlwaysCovered(ss: seq<Server>, as_: seq<Action>, k: nat)
    requires Run(ss, as_) && k < |ss| && (ss[k].sock.Serving? || ss[k].sock.Closing?)
    ensures ss[k].lock
    ensures ss[k].sock.Serving? ==>
              Listener in ss[k].ledger || BindTask in ss[k].ledger || (StartToken in ss[k].ledger && AwaitsBind(ss[k]))
    ensures ss[k].sock.Closing? ==> Closer in ss[k].ledger && IsPending(ss[k], Closer)
  {
    hide Inv, Do, Enabled;
    RunInv(ss, as_, k);
    CoveredNow(ss[k]);
  }

  lemma CoveredNow(s: Server)
    requires Inv(s)
    ensures s.sock.Serving? || s.sock.Closing? ==> s.lock
    ensures s.sock.Serving? ==>
              Listener in s.ledger || BindTask in s.ledger || (StartToken in s.ledger && AwaitsBind(s))
    ensures s.sock.Closing? ==> Closer in s.ledger && IsPending(s, Closer)
  {
  }

  // ---------------------------------------------------------------- single use

  lemma StepDown(s: Server, a: Action)
    requires Inv(s) && Enabled(s, a)
    ensures Down(s.state) ==> Down(Do(s, a).state)
    ensures s.shutdownRequested || a.ShutdownCall? ==> Do(s, a).shutdownRequested
  {
    if a.ShutdownCall? { ShutdownAsks(s); }
    if Odd(a) {
      OddStepDown(s, a);
    } else {
      hide Inv, Do, Enabled;
      StepKept(s, a);
    }
  }

  lemma TransitionKeepsRequest(s: Server, to: State)
    ensures Transition(s, to).shutdownRequested == s.shutdownRequested
  {
  }

  lemma ScheduleDrainKeepsRequest(s: Server)
    ensures ScheduleDrain(s).shutdownRequested == s.shutdownRequested
  {
    hide Transition;
    TransitionKeepsRequest(s, Stopping);
  }

  lemma ShutdownAsks(s: Server)
    ensures Shutdown(s).shutdownRequested
  {
    hide Transition, ScheduleDrain;
    TransitionKeepsRequest(ShutdownRequested(s), Stopped);
    TransitionKeepsRequest(ShutdownRequested(s), Stopping);
    ScheduleDrainKeepsRequest(ShutdownRequested(s));
  }

  lemma OddStepDown(s: Server, a: Action)
    requires Inv(s) && Enabled(s, a) && Odd(a)
    ensures Down(s.state) ==> Down(Do(s, a).state)
    ensures s.shutdownRequested ==> Do(s, a).shutdownRequested
  {
  }

  lemma RequestedIsDown(s: Server)
    requires Inv(s)
    ensures s.shutdownRequested ==> Down(s.state)
    ensures s.start.Acquiring? ==> !Down(s.state)
  {
  }

  lemma {:induction false} DownForGood(ss: seq<Server>, as_: seq<Action>, j: nat, k: nat)
    requires Run(ss, as_) && j <= k < |ss| && Down(ss[j].state)
    ensures Down(ss[k].state)
  {
    hide Inv, Do, Enabled, Down;
    if j < k {
      DownForGood(ss, as_, j, k - 1);
      RunInv(ss, as_, k - 1);
      StepDown(ss[k - 1], as_[k - 1]);
    }
  }

  /** Single use: once `shutdown()` was called in any state, or a failed start
      left work behind, no later step starts again. */
  lemma NeverStartsAgain(ss: seq<Server>, as_: seq<Action>, j: nat, k: nat)
    requires Run(ss, as_) && j < k < |ss|
    requires as_[j].ShutdownCall? || ss[j].state.Stopping?
    ensures Down(ss[k].state) && (k < |as_| ==> !as_[k].StartCall?)
  {
    hide Inv, Do;
    RunInv(ss, as_, j);
    RunInv(ss, as_, j + 1);
    StepDown(ss[j], as_[j]);
    RequestedIsDown(ss[j + 1]);
    DownForGood(ss, as_, j + 1, k);
  }

  // ---------------------------------------------------------------- the backend's close()

  /** Per attempt the backend's `close()` is started at most once, and exactly
      once when `backend.start()` returned and the attempt's drain ended. */
  lemma ClosesAtMostOnce(ss: seq<Server>, as_: seq<Action>, k: nat)
    requires Run(ss, as_) && k < |ss|
    ensures ss[k].past.closes <= 1
    ensures ss[k].past.drained ==> ss[k].past.closes == if ss[k].past.backendUp then 1 else 0
  {
    RunInv(ss, as_, k);
  }

  // ---------------------------------------------------------------- fail closed

  lemma FailedClosedFacts(s: Server)
    requires Inv(s) && FailedClosed(s)
    ensures s.lock && !Frees(s.state) && s.ledger[BindTask].stuck
  {
  }

  lemma FailedClosedStep(s: Server, a: Action)
    requires Inv(s) && Enabled(s, a) && FailedClosed(s)
    ensures FailedClosed(Do(s, a))
  {
    hide Inv, Do, FailedClosed, Weight;
    FailedClosedFacts(s);
    StepEases(s, a);
  }

  /** The raising callback of an orphan bind that bound fails closed. */
  lemma RaisedFailsClosed(s: Server, seen: Option<nat>)
    requires Enabled(s, CallbackRan(BindTask, true, seen)) && s.futs[BindTask].ok
    requires BindTask in s.ledger && s.ledger[BindTask].closesOrphan
    ensures FailedClosed(Do(s, CallbackRan(BindTask, true, seen)))
  {
    hide EndWork, CloseOrphan;
  }

  /** The same from any state that satisfies the invariant. */
  lemma {:induction false} FailedClosedStays(ss: seq<Server>, as_: seq<Action>, j: nat, k: nat)
    requires Steps(ss, as_) && Inv(ss[0]) && j <= k < |ss| && FailedClosed(ss[j])
    ensures FailedClosed(ss[k]) && ss[k].lock && !Frees(ss[k].state)
    decreases k
  {
    hide Inv, Do, FailedClosed, Enabled;
    if j < k {
      FailedClosedStays(ss, as_, j, k - 1);
      InvAt(ss, as_, k - 1);
      FailedClosedStep(ss[k - 1], as_[k - 1]);
    }
    InvAt(ss, as_, k);
    FailedClosedFacts(ss[k]);
  }

  /** A bind whose cleanup raised keeps the lock until the process exits: no
      later step reaches NEW or STOPPED. */
  lemma FailsClosed(ss: seq<Server>, as_: seq<Action>, j: nat, k: nat)
    requires Run(ss, as_) && j <= k < |ss| && FailedClosed(ss[j])
    ensures FailedClosed(ss[k]) && ss[k].lock && !Frees(ss[k].state)
  {
    hide Inv, Do, FailedClosed, Enabled;
    InitialInv();
    FailedClosedStays(ss, as_, j, k);
  }

  /** From the raising cleanup itself on: the lock is never given up again. */
  lemma RaisedCleanupKeepsTheLock(ss: seq<Server>, as_: seq<Action>, j: nat, k: nat, seen: Option<nat>)
    requires Run(ss, as_) && j < k < |ss| && as_[j] == CallbackRan(BindTask, true, seen)
    requires IsDone(ss[j], BindTask) && ss[j].futs[BindTask].ok
    requires BindTask in ss[j].ledger && ss[j].ledger[BindTask].closesOrphan
    ensures ss[k].lock && !Frees(ss[k].state) && BindTask in ss[k].ledger && ss[k].ledger[BindTask].stuck
  {
    hide Inv, Do, Enabled;
    RaisedFailsClosed(ss[j], seen);
    FailsClosed(ss, as_, j + 1, k);
    RunInv(ss, as_, k);
    FailedClosedFacts(ss[k]);
  }

  /** Adopted work is in the ledger until it is done: under its first label, marked
      stuck once somebody gave it up; adopting changes no other entry and no state. */
  lemma AdoptTakes(ss: seq<Server>, as_: seq<Action>, k: nat)
    requires Run(ss, as_) && k < |as_| && as_[k].Adopt?
    ensures AdoptedInto(ss[k], ss[k + 1], Adopted(as_[k].id), as_[k].abandoned, as_[k].name)
  {
    hide Inv, AdoptWork, AdoptedInto;
    RunInv(ss, as_, k);
    AdoptWorkTakes(ss[k], as_[k].id, as_[k].abandoned, as_[k].name);
  }

  ghost predicate AdoptedInto(s: Server, t: Server, k: Key, abandoned: bool, name: string) {
    && IsPending(t, k) && t.state == s.state && t.lock == s.lock
    && (forall j :: j in t.ledger <==> j in s.ledger || j == k)
    && (forall j :: j in s.ledger && j != k ==> t.ledger[j] == s.ledger[j])
    && k in t.ledger
    && (t.ledger[k].stuck <==> abandoned || (k in s.ledger && s.ledger[k].stuck))
    && t.ledger[k].name == (if k in s.ledger then s.ledger[k].name else Some(name))
    && (k !in s.ledger ==> t.ledger[k].kind == AdoptedKind && !t.ledger[k].closesOrphan)
  }

  lemma AdoptWorkTakes(s: Server, id: nat, abandoned: bool, name: string)
    requires Inv(s) && !IsDone(s, Adopted(id))
    ensures AdoptedInto(s, AdoptWork(s, id, abandoned, name), Adopted(id), abandoned, name)
  {
    hide Inv, AdoptedInto, Track, TrackNew;
    AdoptedOwed(s, id);
    if Adopted(id) in s.futs { AdoptsAgain(s, Adopted(id), abandoned, name); }
    else { AdoptsAnew(s, Adopted(id), abandoned, name); }
  }

  lemma AdoptedOwed(s: Server, id: nat)
    requires Inv(s)
    ensures Adopted(id) in s.ledger || IsPending(s, Adopted(id)) ==> Adopted(id) in s.futs
    ensures IsPending(s, Adopted(id)) ==> Adopted(id) in s.ledger
  {
    hide Control;
    assert Owed(s, Adopted(id));
  }

  lemma AdoptsAnew(s: Server, k: Key, abandoned: bool, name: string)
    requires k !in s.ledger
    ensures AdoptedInto(s, TrackNew(s, k, AdoptedKind, abandoned, Some(name)), k, abandoned, name)
  {
  }

  lemma AdoptsAgain(s: Server, k: Key, abandoned: bool, name: string)
    requires k in s.ledger && IsPending(s, k)
    ensures AdoptedInto(s, Track(s, k, AdoptedKind, abandoned, false, Some(name)), k, abandoned, name)
  {
  }

  // ---------------------------------------------------------------- progress

  function Count(as_: seq<Action>, counted: Action -> bool): nat {
    if as_ == [] then 0 else Count(as_[..|as_| - 1], counted) + if counted(as_[|as_| - 1]) then 1 else 0
  }

  lemma StepWeight(s: Server, a: Action)
    requires Inv(s) && Enabled(s, a) && s.state.Stopping?
    ensures Weight(Do(s, a)) <= Weight(s) + if Moves(a) then -1 else if Arrives(a) then 2 else 0
  {
    hide Inv, Do, FailedClosed, Weight;
    StepEases(s, a);
  }

  /** While a server is stopping, completions, callbacks and ended waits are
      bounded by the work there was and twice the work that arrived. */
  lemma {:induction false} MovesBounded(ss: seq<Server>, as_: seq<Action>)
    requires Steps(ss, as_) && Inv(ss[0])
    requires forall k :: 0 <= k < |as_| ==> ss[k].state.Stopping?
    ensures Weight(ss[|as_|]) + Count(as_, Moves) <= Weight(ss[0]) + 2 * Count(as_, Arrives)
    decreases |as_|
  {
    hide Inv, Do, Weight, Enabled, Moves, Arrives;
    if as_ != [] {
      var n := |as_| - 1;
      InvAt(ss, as_, n);
      MovesBounded(ss[..n + 1], as_[..n]);
      StepWeight(ss[n], as_[n]);
    }
  }

  /** The steps after which a wake-up may be missing for good: a stop task that
      was cancelled before it ran, and a cleanup that raised. */
  predicate Smooth(a: Action) { !a.DrainSkipped? && !(a.CallbackRan? && a.fails) }

  lemma StepSound(s: Server, a: Action)
    requires Inv(s) && Enabled(s, a) && Sound(s) && Smooth(a)
    ensures Sound(Do(s, a))
  {
    StepOwnership(s, a);
    if a.StartCall? { StartCallSound(s); }
    else {
      StepEases(s, a);
      hide Inv, Do, FailedClosed, Weight, Owned, Enabled;
    }
  }

  lemma StartCallSound(s: Server)
    requires Inv(s) && Enabled(s, StartCall)
    ensures !FailedClosed(Do(s, StartCall))
  {
  }

  /** Over every run from the start, a starting or stopping server has a
      coroutine that will end it, or has run its drain. */
  lemma {:induction false} SoundAt(ss: seq<Server>, as_: seq<Action>, k: nat)
    requires Run(ss, as_) && k < |ss| && forall a :: a in as_ ==> Smooth(a)
    ensures Sound(ss[k])
  {
    hide Inv, Do, Enabled, Sound, Smooth;
    if k == 0 {
      InitialSound();
    } else {
      SoundAt(ss, as_, k - 1);
      RunInv(ss, as_, k - 1);
      assert as_[k - 1] in as_;
      StepSound(ss[k - 1], as_[k - 1]);
    }
  }

  lemma InitialSound()
    ensures Sound(Initial)
  {
  }

  /** Progress: a run without those two accidents that cannot make another
      regular move is not stopping; STOPPED is reached, with the lock free. */
  lemma StopsInTheEnd(ss: seq<Server>, as_: seq<Action>, j: nat)
    requires Run(ss, as_) && forall a :: a in as_ ==> Smooth(a)
    requires j < |ss| && Down(ss[j].state)
    requires forall a :: Regular(a) ==> !Enabled(ss[|as_|], a)
    ensures ss[|as_|].state.Stopped? && !ss[|as_|].lock && ss[|as_|].ledger == map[]
  {
    var s := ss[|as_|];
    RunInv(ss, as_, |as_|);
    SoundAt(ss, as_, |as_|);
    DownForGood(ss, as_, j, |as_|);
    if s.state.Stopping? {
      var a := SomeMove(s);
      assert false;
    }
    StoppedIsFree(s);
  }

  lemma StoppedIsFree(s: Server)
    requires Inv(s)
    ensures s.state.Stopped? ==> !s.lock && s.ledger == map[]
  {
  }

  lemma StopOneMove(s: Server) returns (a: Action, t: Server)
    requires Inv(s) && s.state.Stopping? && Owned(s) && !FailedClosed(s)
    ensures Enabled(s, a) && Regular(a) && t == Do(s, a) && Inv(t) && Down(t.state) && Weight(t) < Weight(s)
    ensures t.state.Stopping? ==> Owned(t) && !FailedClosed(t)
  {
    hide Inv, Do, FailedClosed, Weight, Owned, Enabled;
    a := SomeMove(s);
    t := Do(s, a);
    StepInv(s, a);
    StepDown(s, a);
    StepSound(s, a);
    StepWeight(s, a);
  }

  /** And it can always get there: from any stopping server whose drain has an
      owner and whose cleanups did not fail, regular moves lead to STOPPED. */
  lemma CanAlwaysStop(s: Server) returns (ss: seq<Server>, as_: seq<Action>)
    requires Inv(s) && s.state.Stopping? && Owned(s) && !FailedClosed(s)
    ensures Steps(ss, as_) && ss[0] == s && forall a :: a in as_ ==> Regular(a)
    ensures ss[|as_|].state.Stopped? && !ss[|as_|].lock && |as_| <= Weight(s)
    decreases Weight(s)
  {
    hide Inv, Do, FailedClosed, Weight, Owned, Enabled, Regular, Steps;
    var a, t := StopOneMove(s);
    if t.state.Stopping? {
      var ss', as' := CanAlwaysStop(t);
      StepsLength(ss', as');
      ss, as_ := StepFirst(s, a, ss', as');
    } else {
      StoppedIsFree(t);
      ss, as_ := StepFirst(s, a, [t], []);
    }
  }

  /** One step, and then the others. */
  lemma StepFirst(s: Server, a: Action, ss: seq<Server>, as_: seq<Action>) returns (ts: seq<Server>, bs: seq<Action>)
    requires Enabled(s, a) && |ss| == |as_| + 1 && ss[0] == Do(s, a) && (as_ != [] ==> Steps(ss, as_))
    ensures Steps(ts, bs) && ts[0] == s && |ts| == |ss| + 1 && |bs| == |as_| + 1
    ensures ts[|bs|] == ss[|as_|] && forall b :: b in bs ==> b == a || b in as_
  {
    hide Do, Enabled;
    ts, bs := [s] + ss, [a] + as_;
  }

  lemma StepsLength(ss: seq<Server>, as_: seq<Action>)
    requires Steps(ss, as_)
    ensures |ss| == |as_| + 1
  {
  }

  // ---------------------------------------------------------------- a stop task that never ran

  /** A stopping server that nobody drains. */
  predicate Undrained(s: Server) { s.state.Stopping? && s.start.Idle? && s.drain.NoDrain? && !s.past.drained }

  lemma UndrainedFacts(s: Server)
    requires Inv(s) && Undrained(s)
    ensures Listener in s.ledger && s.sock.Serving? && s.lock && s.listenerSlot && !IsPending(s, Closer)
    ensures forall k :: k in s.ledger ==> !s.ledger[k].closesOrphan
  {
  }

  lemma ServingIsLive(s: Server)
    requires Inv(s) && s.sock.Serving?
    ensures !s.state.Stopped?
  {
  }

  lemma EndWorkSock(s: Server, k: Key)
    ensures EndWork(s, k).sock == s.sock
  {
  }

  lemma CallbackSock(s: Server, k: Key, fails: bool, seen: Option<nat>)
    requires Enabled(s, CallbackRan(k, fails, seen)) && (k in s.ledger ==> !s.ledger[k].closesOrphan)
    ensures Do(s, CallbackRan(k, fails, seen)).sock == s.sock
  {
    hide CallbackTaken, Retire, EndWork;
    CallbackTakenIs(s, k);
    CallbackTakenSock(s, k);
    RetireIs(CallbackTaken(s, k), k, s.futs[k].ok, fails, seen);
    EndWorkSock(CallbackTaken(s, k), k);
  }

  lemma CallbackTakenSock(s: Server, k: Key)
    requires IsDone(s, k)
    ensures CallbackTaken(s, k).sock == s.sock
  {
  }

  lemma QuietSock(s: Server, a: Action)
    requires Enabled(s, a) && s.sock.Serving? && (a.Completed? ==> !a.k.Closer?)
    requires a.SocketBound? || a.BindFinished? || a.Adopt? || a.Completed? || a.IdleObserved?
    ensures Do(s, a).sock.Serving?
  {
    hide AdoptWork, Finish, Record, SawIdle;
    match a
    case SocketBound =>
    case BindFinished(ok, seen) =>
      RecordSock(s, if ok then seen else None);
      FinishSock(Record(s, if ok then seen else None), BindTask, ok);
    case Adopt(id, abandoned, name) => AdoptWorkSock(s, id, abandoned, name);
    case Completed(k, ok) => FinishSock(s, k, ok);
    case IdleObserved => SawIdleSock(s);
  }

  lemma RecordSock(s: Server, seen: Option<nat>)
    ensures Record(s, seen).sock == s.sock
  {
  }

  lemma FinishSock(s: Server, k: Key, ok: bool)
    ensures Finish(s, k, ok).sock == s.sock
  {
  }

  lemma AdoptWorkSock(s: Server, id: nat, abandoned: bool, name: string)
    ensures AdoptWork(s, id, abandoned, name).sock == s.sock
  {
    hide Track, TrackNew;
    TrackSock(s, Adopted(id), AdoptedKind, abandoned, false, Some(name));
    TrackNewSock(s, Adopted(id), AdoptedKind, abandoned, Some(name));
  }

  lemma TrackSock(s: Server, k: Key, kind: Kind, stuck: bool, closesOrphan: bool, name: Option<string>)
    ensures Track(s, k, kind, stuck, closesOrphan, name).sock == s.sock
  {
    hide Tracked;
  }

  lemma TrackNewSock(s: Server, k: Key, kind: Kind, stuck: bool, name: Option<string>)
    ensures TrackNew(s, k, kind, stuck, name).sock == s.sock
  {
  }

  lemma SawIdleSock(s: Server)
    ensures SawIdle(s).sock == s.sock
  {
  }

  lemma TaskSock(s: Server, a: Action)
    requires Enabled(s, a) && s.sock.Serving? && TaskSteps(a)
    ensures Do(s, a).sock.Serving?
  {
    hide Do, Enabled;
    if a.ThreadMarked? || a.StepMarked? || a.ThreadEnded? { ThreadSock(s, a); } else { SessionSock(s, a); }
  }

  lemma SessionSock(s: Server, a: Action)
    requires Enabled(s, a) && (a.HandlerStarted? || a.DecodeStarted? || a.TaskCancelled? || a.TaskFinished?)
    ensures Do(s, a).sock == s.sock
  {
    hide Enabled, NewTask, NoteLate, CancelTasks, Finish, TaskGone;
    NoteLateSock(s);
    match a
    case HandlerStarted(id) => NewTaskSock(NoteLate(s), id, true);
    case DecodeStarted(_, id) => NewTaskSock(s, id, false);
    case TaskCancelled(id) => CancelTasksSock(s, {id});
    case TaskFinished(id) =>
      TaskGoneSock(s, id);
      FinishSock(TaskGone(s, id), Task(id), true);
  }

  lemma ThreadSock(s: Server, a: Action)
    requires Enabled(s, a) && (a.ThreadMarked? || a.StepMarked? || a.ThreadEnded?)
    ensures Do(s, a).sock == s.sock
  {
    hide Enabled, NoteLate, SetThreads;
    NoteLateSock(s);
    match a
    case ThreadMarked(id) => SetThreadsSock(s, s.past.threads + {id});
    case StepMarked(_, id) => SetThreadsSock(NoteLate(s), s.past.threads + {id});
    case ThreadEnded(id) => SetThreadsSock(s, s.past.threads - {id});
  }

  lemma NoteLateSock(s: Server)
    ensures NoteLate(s).sock == s.sock
  {
  }

  lemma NewTaskSock(s: Server, id: nat, handler: bool)
    ensures NewTask(s, id, handler).sock == s.sock
  {
  }

  lemma CancelTasksSock(s: Server, ids: set<nat>)
    ensures CancelTasks(s, ids).sock == s.sock
  {
    hide Cancel;
  }

  lemma TaskGoneSock(s: Server, id: nat)
    ensures TaskGone(s, id).sock == s.sock
  {
  }

  lemma SetThreadsSock(s: Server, threads: set<nat>)
    ensures SetThreads(s, threads).sock == s.sock
  {
  }

  lemma UndrainedQuietStep(s: Server, a: Action)
    requires Inv(s) && Enabled(s, a) && Undrained(s)
    requires a.SocketBound? || a.BindFinished? || a.Adopt? || a.Completed? || a.IdleObserved? || a.CallbackRan?
          || TaskSteps(a)
    ensures Undrained(Do(s, a))
  {
    UndrainedFacts(s);
    assert a.Completed? ==> IsPending(s, a.k);
    StepInv(s, a);
    QuietStepPlaces(s, a);
    hide Inv, Do, Enabled;
    if a.CallbackRan? { CallbackSock(s, a.k, a.fails, a.seen); }
    else if a.SocketBound? || a.BindFinished? || a.Adopt? || a.Completed? || a.IdleObserved? { QuietSock(s, a); }
    else { TaskSock(s, a); }
    ServingIsLive(Do(s, a));
  }

  lemma UndrainedCall(s: Server, a: Action)
    requires Enabled(s, a) && Undrained(s) && (a.ShutdownCall? || a.ShutdownCallerCancelled?)
    ensures Undrained(Do(s, a))
  {
    hide CancelSessions;
    CancelSessionsFrame(s);
  }

  lemma UndrainedMoves(s: Server, a: Action)
    requires Enabled(s, a) && Undrained(s)
    ensures !a.StartCall? && !StartSteps(a) && !a.DrainStarted? && !a.DrainSkipped? && !a.DrainResumed?
            && !a.DrainCancelled?
  {
  }

  lemma UndrainedStep(s: Server, a: Action)
    requires Inv(s) && Enabled(s, a) && Undrained(s)
    ensures Undrained(Do(s, a))
  {
    hide Inv, Do, Enabled, Undrained;
    UndrainedMoves(s, a);
    if a.ShutdownCall? || a.ShutdownCallerCancelled? { UndrainedCall(s, a); } else { UndrainedQuietStep(s, a); }
  }

  lemma SkippedIsUndrained(s: Server)
    requires Inv(s) && Enabled(s, DrainSkipped)
    ensures Undrained(Do(s, DrainSkipped))
  {
  }

  /** The stop task was cancelled before its first step: the server stays in
      STOPPING for good, with its listener open and its lock held. */
  lemma {:induction false} SkippedDrainNeverStops(ss: seq<Server>, as_: seq<Action>, j: nat, k: nat)
    requires Run(ss, as_) && j < k < |ss| && as_[j].DrainSkipped?
    ensures Undrained(ss[k]) && ss[k].lock && ss[k].sock.Serving?
    decreases k
  {
    hide Inv, Do, Enabled, Undrained;
    RunInv(ss, as_, k - 1);
    if j < k - 1 {
      SkippedDrainNeverStops(ss, as_, j, k - 1);
      UndrainedStep(ss[k - 1], as_[k - 1]);
    } else {
      SkippedIsUndrained(ss[j]);
    }
    RunInv(ss, as_, k);
    UndrainedFacts(ss[k]);
  }

  // ---------------------------------------------------------------- segments end

  /** Somebody runs this attempt's drain, or has ended it, or never will. */
  predicate Accounted(s: Server) { s.state.Starting? || s.state.Stopping? ==> Owned(s) || Undrained(s) }

  lemma StepAccounted(s: Server, a: Action)
    requires Inv(s) && Enabled(s, a) && Accounted(s)
    ensures Accounted(Do(s, a))
  {
    hide Inv, Enabled, Do, Owned;
    if s.state.Stopping? && !Owned(s) {
      UndrainedStep(s, a);
    } else if a.DrainSkipped? {
      SkippedIsUndrained(s);
    } else {
      UndrainedStops(s);
      StepOwnership(s, a);
    }
  }

  lemma UndrainedStops(s: Server)
    ensures Undrained(s) ==> s.state.Stopping?
  {
  }

  lemma {:induction false} AccountedAt(ss: seq<Server>, as_: seq<Action>, k: nat)
    requires Run(ss, as_) && k < |ss|
    ensures Accounted(ss[k])
  {
    hide Inv, Do, Enabled, Owned, Undrained;
    if k > 0 {
      AccountedAt(ss, as_, k - 1);
      RunInv(ss, as_, k - 1);
      StepAccounted(ss[k - 1], as_[k - 1]);
    }
  }

  /** Every segment runs to its end: no step of a run leaves the drain where it
      is only passed through, so that guard of `Enabled` excludes nothing. */
  lemma NeverInBetween(ss: seq<Server>, as_: seq<Action>, k: nat)
    requires Run(ss, as_) && k < |ss|
    ensures ss[k].drain != WaitSessions({})
  {
    hide Inv, Do, Enabled;
    RunInv(ss, as_, k);
    AccountedAt(ss, as_, k);
    if !ss[k].state.Starting? && !ss[k].state.Stopping? { RestHasNoDrain(ss[k]); }
  }

  lemma RestHasNoDrain(s: Server)
    requires Inv(s) && !s.state.Starting? && !s.state.Stopping?
    ensures s.drain.NoDrain?
  {
    hide Futures;
  }
}
