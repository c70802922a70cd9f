/** What a decode that is marked after the drain does to the lock: it loses it in
    some continuation, exactly when no cleanup has failed closed. */
module AfterDrain {
  import opened Wrappers
  import opened Lifecycle
  import opened LifecycleInvariant
  import opened LifecycleProgress
  import opened LifecycleRuns
  import opened DecodeThreads
  import G = DecodeGuard

  // ---------------------------------------------------------------- continuations

  /** A step that takes in no session and no adopted step, and lets nobody but
      `owner` mark a decode. */
  predicate Follower(e: Event, owner: Owner) {
    match e
    case ServerStep(a) => !a.HandlerStarted? && !a.Adopt?
    case Granted(_, _, o) => o == owner
    case _ => true
  }

  ghost predicate Path(js: seq<Joint>, es: seq<Event>, owner: Owner) {
    && |js| == |es| + 1
    && forall k :: 0 <= k < |es| ==> Followed(js[k], es[k], js[k + 1], owner)
  }

  ghost predicate Followed(j: Joint, e: Event, t: Joint, owner: Owner) {
    Possible(j, e) && t == Next(j, e) && Follower(e, owner)
  }

  ghost predicate Leads(j: Joint, t: Joint, owner: Owner) {
    exists js, es :: Path(js, es, owner) && js[0] == j && js[|es|] == t
  }

  lemma Stays(j: Joint, owner: Owner)
    ensures Leads(j, j, owner)
  {
    assert Path([j], [], owner);
  }

  lemma Goes(j: Joint, t: Joint, e: Event, owner: Owner)
    requires Leads(j, t, owner) && Possible(t, e) && Follower(e, owner)
    ensures Leads(j, Next(t, e), owner)
  {
    assert Followed(t, e, Next(t, e), owner);
    hide Followed;
    var js, es :| Path(js, es, owner) && js[0] == j && js[|es|] == t;
    assert Path(js + [Next(t, e)], es + [e], owner);
  }

  lemma LeadsTrans(j: Joint, t: Joint, u: Joint, owner: Owner)
    requires Leads(j, t, owner) && Leads(t, u, owner)
    ensures Leads(j, u, owner)
  {
    hide Followed;
    var js, es :| Path(js, es, owner) && js[0] == j && js[|es|] == t;
    var ks, fs :| Path(ks, fs, owner) && ks[0] == t && ks[|fs|] == u;
    var ls, gs := js + ks[1..], es + fs;
    forall k | 0 <= k < |gs|
      ensures Followed(ls[k], gs[k], ls[k + 1], owner)
    {
      if k < |es| { assert Followed(js[k], es[k], js[k + 1], owner); }
      else { assert Followed(ks[k - |es|], fs[k - |es|], ks[k - |es| + 1], owner); }
    }
    assert Path(ls, gs, owner);
  }

  // ---------------------------------------------------------------- after the drain

  /** A stopping server whose drain is over and whose cleanups did not fail. */
  ghost predicate Over(s: Server) {
    s.state.Stopping? && s.past.drained && s.start.Idle? && s.drain.NoDrain? && !FailedClosed(s)
  }

  lemma OverThreads(s: Server, threads: set<nat>)
    ensures Over(SetThreads(s, threads)) <==> Over(s)
    ensures SetThreads(s, threads).past.threads == threads
  {
  }

  lemma ThreadsTwice(s: Server, a: set<nat>, b: set<nat>)
    ensures SetThreads(SetThreads(s, a), b) == SetThreads(s, b)
    ensures SetThreads(s, s.past.threads) == s
  {
  }

  lemma EndingEnabled(s: Server, i: nat)
    requires Over(s) && i in s.past.threads
    ensures Enabled(s, ThreadEnded(i)) && Do(s, ThreadEnded(i)) == SetThreads(s, s.past.threads - {i})
  {
  }

  /** A thread in flight comes to its last statement, whatever it waits for. */
  lemma ThreadPasses(j: Joint, i: nat, owner: Owner) returns (t: Joint)
    requires JointInv(j) && i in j.server.past.threads
    ensures Leads(j, t, owner) && JointInv(t) && t.server == j.server && G.Possible(t.guard, G.ThreadEnds(i))
  {
    hide Inv, Leads, G.Linked;
    assert i in G.Marked(j.guard);
    Stays(j, owner);
    t := j;
    if !j.guard.streams[i].thread.After? {
      var e := if j.guard.streams[i].thread.Before? then G.ThreadSkips(i) else G.ThreadLeaves(i);
      NextJoint(j, GuardStep(e));
      Goes(j, j, GuardStep(e), owner);
      t := Next(j, GuardStep(e));
    }
  }

  lemma ThreadRunsOut(j: Joint, i: nat, owner: Owner) returns (t: Joint)
    requires JointInv(j) && Over(j.server) && i in j.server.past.threads
    ensures Leads(j, t, owner) && JointInv(t) && t.server == SetThreads(j.server, j.server.past.threads - {i})
  {
    hide JointInv, Over, SetThreads, Enabled, Do, Leads, G.Possible, G.Next;
    var u := ThreadPasses(j, i, owner);
    EndingEnabled(u.server, i);
    NextJoint(u, Ended(i));
    Goes(j, u, Ended(i), owner);
    t := Next(u, Ended(i));
  }

  /** All threads in flight can end. */
  lemma {:induction false} ThreadsRunOut(j: Joint, owner: Owner) returns (t: Joint)
    requires JointInv(j) && Over(j.server)
    ensures Leads(j, t, owner) && JointInv(t) && t.server == SetThreads(j.server, {})
    decreases |j.server.past.threads|
  {
    hide JointInv, Over, SetThreads, Leads;
    ThreadsTwice(j.server, {}, {});
    if j.server.past.threads == {} {
      Stays(j, owner);
      t := j;
    } else {
      var i :| i in j.server.past.threads;
      var u := ThreadRunsOut(j, i, owner);
      OverThreads(j.server, j.server.past.threads - {i});
      t := ThreadsRunOut(u, owner);
      LeadsTrans(j, u, t, owner);
      ThreadsTwice(j.server, j.server.past.threads - {i}, {});
    }
  }

  /** Whoever holds the asyncio lock can be cancelled. */
  lemma LoopLockFreed(j: Joint, owner: Owner) returns (t: Joint)
    requires JointInv(j)
    ensures Leads(j, t, owner) && JointInv(t) && t.server == j.server && t.guard.loopLock == None
  {
    hide Inv, Leads, G.Marked;
    Stays(j, owner);
    t := j;
    if j.guard.loopLock.Some? {
      var e := GuardStep(G.AwaiterCancelled(j.guard.loopLock.value));
      NextJoint(j, e);
      Goes(j, j, e, owner);
      t := Next(j, e);
    }
  }

  /** What the hook asked for is over: its future no longer waits. */
  lemma IdleLearnt(j: Joint, owner: Owner) returns (t: Joint)
    requires JointInv(j) && Over(j.server) && j.server.past.threads == {}
    ensures Leads(j, t, owner) && JointInv(t) && t.guard == j.guard && Over(t.server) && IdleKnown(t.server)
    ensures t.server.tasks == j.server.tasks && t.server.futs == j.server.futs && t.server.past.threads == {}
  {
    hide JointInv, Leads;
    Stays(j, owner);
    t := j;
    if !IdleKnown(j.server) {
      var e := ServerStep(IdleObserved);
      CountIsThreads(j);
      SawIdleOver(j.server);
      NextJoint(j, e);
      Goes(j, j, e, owner);
      t := Next(j, e);
    }
  }

  lemma SawIdleOver(s: Server)
    requires Over(s)
    ensures var t := SawIdle(s);
            Over(t) && t.tasks == s.tasks && t.futs == s.futs && t.past.threads == s.past.threads
            && t.past.idleSeen
  {
  }

  // ---------------------------------------------------------------- one more decode

  /** A fresh stream's decode is marked by `owner`. */
  lemma DecodeMarked(j: Joint, d: nat, owner: Owner) returns (t: Joint)
    requires JointInv(j) && Enabled(j.server, MarkOf(d, owner)) && j.guard.loopLock == None && d !in j.guard.streams
    ensures Leads(j, t, owner) && JointInv(t) && t.server == Do(j.server, MarkOf(d, owner))
  {
    hide Inv, Enabled, Do, Leads, G.Linked, G.Marked;
    Stays(j, owner);
    var opens := GuardStep(G.Open(d, false));
    NextJoint(j, opens);
    Goes(j, j, opens, owner);
    var u := Next(j, opens);
    var ends := GuardStep(G.EndCall(d));
    NextJoint(u, ends);
    Goes(j, u, ends, owner);
    var v := Next(u, ends);
    var granted := Granted(d, true, owner);
    NextJoint(v, granted);
    Goes(j, v, granted, owner);
    t := Next(v, granted);
  }

  lemma MarkOver(s: Server, d: nat, owner: Owner)
    requires Over(s) && IdleKnown(s) && Enabled(s, MarkOf(d, owner))
    ensures var t := Do(s, MarkOf(d, owner)); Over(t) && IdleKnown(t) && d in t.past.threads
  {
    hide Enabled, NoteLate, SetThreads;
    hide Over, IdleKnown;
    NoteLateOver(s);
    SetThreadsOver(s, s.past.threads + {d});
    SetThreadsOver(NoteLate(s), s.past.threads + {d});
  }

  lemma NoteLateOver(s: Server)
    ensures Over(s) ==> Over(NoteLate(s))
    ensures IdleKnown(s) ==> IdleKnown(NoteLate(s))
  {
  }

  lemma SetThreadsOver(s: Server, threads: set<nat>)
    ensures Over(s) ==> Over(SetThreads(s, threads))
    ensures IdleKnown(s) ==> IdleKnown(SetThreads(s, threads))
    ensures SetThreads(s, threads).past.threads == threads
  {
  }

  // ---------------------------------------------------------------- the rest completes

  lemma FinishIdle(s: Server, k: Key, ok: bool)
    requires IdleKnown(s)
    ensures IdleKnown(Finish(s, k, ok))
  {
  }

  lemma EndWorkIdle(s: Server, k: Key)
    requires IdleKnown(s)
    ensures IdleKnown(EndWork(s, k))
  {
  }

  lemma SetSockIdle(s: Server, sock: Sock)
    requires IdleKnown(s)
    ensures IdleKnown(SetSock(s, sock))
  {
  }

  lemma RecordIdle(s: Server, seen: Option<nat>)
    requires IdleKnown(s)
    ensures IdleKnown(Record(s, seen))
  {
  }

  lemma TaskGoneIdle(s: Server, id: nat)
    requires IdleKnown(s)
    ensures IdleKnown(TaskGone(s, id))
  {
  }

  lemma CallbackIdle(s: Server, k: Key)
    requires IdleKnown(s) && IsDone(s, k)
    ensures IdleKnown(CallbackTaken(s, k))
  {
  }

  lemma CloseOrphanIdle(s: Server, ok: bool, seen: Option<nat>)
    requires IdleKnown(s)
    ensures IdleKnown(CloseOrphan(s, ok, seen))
  {
    hide IdleKnown, BeginListenerClose, Record;
    RecordIdle(s, seen);
    ListenerCloseIdle(Record(s, seen), true);
  }

  lemma ListenerCloseIdle(s: Server, stuck: bool)
    requires IdleKnown(s)
    ensures IdleKnown(BeginListenerClose(s, stuck))
  {
    hide BeginListenerClose;
    BeginListenerCloseIs(s, stuck);
  }

  lemma RetireIdle(s: Server, k: Key, ok: bool, seen: Option<nat>)
    requires IdleKnown(s)
    ensures IdleKnown(Retire(s, k, ok, false, seen))
  {
    hide IdleKnown, EndWork, CloseOrphan, FailClosed;
    EndWorkIdle(s, k);
    CloseOrphanIdle(s, ok, seen);
    EndWorkIdle(CloseOrphan(s, ok, seen), k);
  }

  lemma CompleteIdle(s: Server, k: Key, ok: bool)
    requires IdleKnown(s)
    ensures IdleKnown(Complete(s, k, ok))
  {
    hide IdleKnown, Finish, SetSock;
    SetSockIdle(s, Closed);
    FinishIdle(s, k, ok);
    FinishIdle(SetSock(s, Closed), k, ok);
  }

  lemma RetiresIdle(s: Server, a: Action)
    requires IdleKnown(s) && Enabled(s, a) && Retires(a)
    ensures IdleKnown(Do(s, a))
  {
    hide IdleKnown, Finish, Record, TaskGone, Complete, Retire, CallbackTaken;
    match a
    case BindFinished(ok, seen) =>
      RecordIdle(s, if ok then seen else None);
      FinishIdle(Record(s, if ok then seen else None), BindTask, ok);
    case Completed(k, ok) => CompleteIdle(s, k, ok);
    case TaskFinished(id) =>
      TaskGoneIdle(s, id);
      FinishIdle(TaskGone(s, id), Task(id), true);
    case CallbackRan(k, _, seen) =>
      CallbackIdle(s, k);
      RetireIdle(CallbackTaken(s, k), k, s.futs[k].ok, seen);
  }

  lemma PlacesOver(s: Server, t: Server)
    requires Over(s) && SamePlaces(s, t) && !FailedClosed(t)
    ensures t.state.Stopped? || Over(t)
  {
  }

  lemma RetiresOver(s: Server, a: Action)
    requires Inv(s) && Over(s) && IdleKnown(s) && Enabled(s, a) && Retires(a)
    ensures var t := Do(s, a); (t.state.Stopped? || Over(t)) && IdleKnown(t) && Weight(t) < Weight(s)
  {
    hide Inv, Do, Enabled, Over, Weight, FailedClosed, SamePlaces, IdleKnown;
    OverFacts(s);
    RetiresIdle(s, a);
    QuietStepPlaces(s, a);
    StepEases(s, a);
    EasedFacts(s, Do(s, a), -1);
    PlacesOver(s, Do(s, a));
  }

  lemma OverFacts(s: Server)
    requires Over(s)
    ensures s.state.Stopping? && Owned(s) && !FailedClosed(s) && s.start.Idle? && s.drain.NoDrain?
  {
  }

  lemma EasedFacts(s: Server, t: Server, d: int)
    requires Eases(s, t, d)
    ensures Weight(t) <= Weight(s) + d && (FailedClosed(s) <==> FailedClosed(t))
  {
    hide Weight, FailedClosed;
  }

  /** One future after the other. */
  lemma Runs(j: Joint, d: nat, owner: Owner) returns (u: Joint)
    requires JointInv(j) && Over(j.server) && IdleKnown(j.server) && d in j.server.past.threads
    ensures Leads(j, u, owner) && JointInv(u) && (u.server.state.Stopped? || Over(u.server))
    ensures IdleKnown(u.server) && d in u.server.past.threads && Weight(u.server) < Weight(j.server)
  {
    hide Inv, Do, Enabled, Over, Weight, FailedClosed, IdleKnown, Leads, Regular, G.Inv, G.Marked;
    OverFacts(j.server);
    var a := FutureMove(j.server);
    RetiresOver(j.server, a);
    StepFollows(j.server, a);
    var e := ServerStep(a);
    NextJoint(j, e);
    Stays(j, owner);
    Goes(j, j, e, owner);
    u := Next(j, e);
  }

  /** Everything but the decode completes, and the lock is free. */
  lemma {:induction false} RunsDown(j: Joint, d: nat, owner: Owner) returns (t: Joint)
    requires JointInv(j) && Over(j.server) && IdleKnown(j.server) && d in j.server.past.threads
    ensures Leads(j, t, owner) && JointInv(t) && t.server.state.Stopped? && d in t.server.past.threads
    decreases Weight(j.server)
  {
    hide Inv, JointInv, Over, Weight, FailedClosed, IdleKnown, Leads;
    var u := Runs(j, d, owner);
    if u.server.state.Stopped? {
      t := u;
    } else {
      t := RunsDown(u, d, owner);
      LeadsTrans(j, u, t, owner);
    }
  }

  // ---------------------------------------------------------------- main results

  lemma Bounded(ids: set<nat>) returns (b: nat)
    ensures forall i :: i in ids ==> i < b
  {
    b := 0;
    var rest := ids;
    while rest != {}
      invariant forall i :: i in ids ==> i in rest || i < b
      decreases rest
    {
      var i :| i in rest;
      if i >= b { b := i + 1; }
      rest := rest - {i};
    }
  }

  /** A number that no task, stream or thread has. */
  lemma Unused(j: Joint) returns (d: nat)
    ensures Task(d) !in j.server.futs && d !in j.guard.streams && d !in j.server.past.threads
  {
    hide TaskNumbers;
    TasksAreNumbered(j.server.futs);
    d := Bounded(TaskNumbers(j.server.futs) + j.guard.streams.Keys + j.server.past.threads);
  }

  function TaskNumbers(futs: map<Key, Fut>): set<nat> { set k | k in futs && k.Task? :: k.id }

  lemma TasksAreNumbered(futs: map<Key, Fut>)
    ensures forall id :: Task(id) in futs ==> id in TaskNumbers(futs)
  {
  }

  /** Who could mark a decode in this state: an uncancelled session (it starts
      a decode task first), or a pending adopted step. */
  predicate CanDecode(s: Server, owner: Owner) {
    match owner
    case DecodeTask => exists h :: h in s.tasks && s.tasks[h].handler && !s.tasks[h].cancelled
    case AdoptedStep(step) => IsPending(s, Adopted(step))
  }

  /** No thread in flight, the asyncio lock free, nobody waiting for idleness. */
  lemma CalmedDown(j: Joint, owner: Owner) returns (t: Joint)
    requires JointInv(j) && Over(j.server)
    ensures Leads(j, t, owner) && JointInv(t) && Over(t.server) && IdleKnown(t.server)
    ensures t.guard.loopLock == None && t.server.tasks == j.server.tasks && t.server.futs == j.server.futs
  {
    hide JointInv, Over, IdleKnown, Leads, SetThreads;
    var u := ThreadsRunOut(j, owner);
    OverThreads(j.server, {});
    SetThreadsKeeps(j.server, {});
    var v := IdleLearnt(u, owner);
    LeadsTrans(j, u, v, owner);
    t := LoopLockFreed(v, owner);
    LeadsTrans(j, v, t, owner);
  }

  lemma SetThreadsKeeps(s: Server, threads: set<nat>)
    ensures SetThreads(s, threads).tasks == s.tasks && SetThreads(s, threads).futs == s.futs
  {
  }

  /** A session that is there can start one more decode task. */
  lemma DecodeReady(j: Joint, d: nat, owner: Owner) returns (t: Joint)
    requires JointInv(j) && Over(j.server) && IdleKnown(j.server) && CanDecode(j.server, owner)
    requires Task(d) !in j.server.futs && d !in j.server.past.threads
    ensures Leads(j, t, owner) && JointInv(t) && t.guard == j.guard && Over(t.server) && IdleKnown(t.server)
    ensures Enabled(t.server, MarkOf(d, owner))
  {
    hide JointInv, Leads, Enabled, Do, Over, IdleKnown, NewTask;
    Stays(j, owner);
    t := j;
    DecodeCanStart(j.server, d, owner);
    if owner.DecodeTask? {
      var h :| h in j.server.tasks && j.server.tasks[h].handler && !j.server.tasks[h].cancelled;
      var e := ServerStep(DecodeStarted(h, d));
      NewTaskOver(j.server, d);
      NextJoint(j, e);
      Goes(j, j, e, owner);
      t := Next(j, e);
    }
  }

  /** A session's decode task can start here, and mark its decode then; a step
      can mark one at once. */
  lemma DecodeCanStart(s: Server, d: nat, owner: Owner)
    requires Over(s) && Task(d) !in s.futs && d !in s.past.threads
    ensures owner.AdoptedStep? && CanDecode(s, owner) ==> Enabled(s, MarkOf(d, owner))
    ensures forall h :: h in s.tasks && s.tasks[h].handler && !s.tasks[h].cancelled ==>
              Enabled(s, DecodeStarted(h, d)) && Do(s, DecodeStarted(h, d)) == NewTask(s, d, false)
    ensures Enabled(NewTask(s, d, false), ThreadMarked(d))
  {
  }

  lemma NewTaskOver(s: Server, d: nat)
    requires Over(s) && IdleKnown(s)
    ensures var t := NewTask(s, d, false);
            && Over(t) && IdleKnown(t) && t.past.threads == s.past.threads
            && d in t.tasks && !t.tasks[d].handler && !t.tasks[d].cancelled
  {
  }

  /** From every such state some continuation ends STOPPED, the lock free, with
      a decode of this owner in flight ... */
  lemma LosesTheLock(j: Joint, owner: Owner) returns (t: Joint)
    requires JointInv(j) && Over(j.server) && CanDecode(j.server, owner)
    ensures Leads(j, t, owner) && t.server.state.Stopped? && !t.server.lock && t.guard.count != 0
  {
    hide Inv, Over, IdleKnown, Enabled, Do, Leads, G.Inv, G.Marked;
    var u := CalmedDown(j, owner);
    var d := Unused(u);
    var v := DecodeReady(u, d, owner);
    LeadsTrans(j, u, v, owner);
    var w := DecodeMarked(v, d, owner);
    MarkOver(v.server, d, owner);
    LeadsTrans(j, v, w, owner);
    t := RunsDown(w, d, owner);
    LeadsTrans(j, w, t, owner);
    CountIsThreads(t);
    StoppedIsFree(t.server);
  }

  lemma FailedClosedNext(j: Joint, e: Event)
    requires JointInv(j) && Possible(j, e) && FailedClosed(j.server)
    ensures FailedClosed(Next(j, e).server)
  {
    hide Inv, Do, Enabled, FailedClosed, G.Inv, G.Marked, G.Marks, G.Next, G.Possible;
    match e
    case ServerStep(a) => FailedClosedStep(j.server, a);
    case Granted(i, starts, owner) =>
      if G.Marks(j.guard, G.LoopLockGranted(i, starts)) { FailedClosedStep(j.server, MarkOf(i, owner)); }
    case Ended(i) => FailedClosedStep(j.server, ThreadEnded(i));
    case GuardStep(_) =>
  }

  lemma {:induction false} FailedClosedPath(js: seq<Joint>, es: seq<Event>, owner: Owner, k: nat)
    requires Path(js, es, owner) && JointInv(js[0]) && FailedClosed(js[0].server) && k < |js|
    ensures JointInv(js[k]) && FailedClosed(js[k].server)
  {
    hide JointInv, FailedClosed, Possible, Next, Follower;
    if k > 0 {
      FailedClosedPath(js, es, owner, k - 1);
      assert Followed(js[k - 1], es[k - 1], js[k], owner);
      NextJoint(js[k - 1], es[k - 1]);
      FailedClosedNext(js[k - 1], es[k - 1]);
    }
  }

  /** ... and it does so exactly when no cleanup has failed closed. */
  lemma LosesTheLockIff(j: Joint, owner: Owner)
    requires JointInv(j) && j.server.past.drained && CanDecode(j.server, owner)
    ensures (exists t :: Leads(j, t, owner) && !t.server.lock && t.guard.count != 0) <==> !FailedClosed(j.server)
  {
    hide Inv, FailedClosed, Leads, G.Inv, G.Marked;
    if FailedClosed(j.server) {
      forall t | Leads(j, t, owner)
        ensures t.server.lock
      {
        FailedClosedLeads(j, t, owner);
      }
    } else {
      AfterTheDrain(j.server, owner);
      var t := LosesTheLock(j, owner);
    }
  }

  /** So a session accepted after the drain can lose the lock, whatever state
      the server was in, unless a cleanup failed closed. */
  lemma LateSessionLosesTheLockIff(j: Joint, h: nat)
    requires JointInv(j) && Possible(j, ServerStep(HandlerStarted(h))) && j.server.past.drained
    ensures var u := Next(j, ServerStep(HandlerStarted(h)));
            (exists t :: Leads(u, t, DecodeTask) && !t.server.lock && t.guard.count != 0) <==> !FailedClosed(j.server)
  {
    hide Inv, Enabled, FailedClosed, NewTask, NoteLate, Leads, G.Inv, G.Marked;
    NextJoint(j, ServerStep(HandlerStarted(h)));
    NewHandler(NoteLate(j.server), h);
    NoteLateKeeps(j.server);
    LosesTheLockIff(Next(j, ServerStep(HandlerStarted(h))), DecodeTask);
  }

  lemma NewHandler(s: Server, h: nat)
    ensures var t := NewTask(s, h, true);
            h in t.tasks && t.tasks[h] == TaskInfo(true, false) && t.past.drained == s.past.drained
                && (FailedClosed(t) <==> FailedClosed(s))
  {
  }

  lemma NoteLateKeeps(s: Server)
    ensures NoteLate(s).past.drained == s.past.drained && (FailedClosed(NoteLate(s)) <==> FailedClosed(s))
  {
  }

  lemma FailedClosedLeads(j: Joint, t: Joint, owner: Owner)
    requires JointInv(j) && FailedClosed(j.server) && Leads(j, t, owner)
    ensures t.server.lock
  {
    hide Inv, FailedClosed, Followed, G.Inv, G.Marked;
    var js, es :| Path(js, es, owner) && js[0] == j && js[|es|] == t;
    FailedClosedPath(js, es, owner, |es|);
    FailedClosedFacts(t.server);
  }

  lemma AfterTheDrain(s: Server, owner: Owner)
    requires Inv(s) && s.past.drained && CanDecode(s, owner) && !FailedClosed(s)
    ensures Over(s)
  {
    match owner
    case DecodeTask =>
      var h :| h in s.tasks && s.tasks[h].handler && !s.tasks[h].cancelled;
      TasksHoldTheLock(s, h);
    case AdoptedStep(step) => PendingTracked(s, Adopted(step));
  }
}
