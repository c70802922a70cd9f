/** Two runs that reach a late decode: a session that the listener of an
    abandoned bind accepts after the drain, and a step that an embedder adopted
    before a start failed. Both go on to lose the lock (AfterDrain.dfy). */
module LateDecodes {
  import opened Wrappers
  import opened Lifecycle
  import opened LifecycleInvariant
  import opened DecodeThreads
  import opened AfterDrain
  import G = DecodeGuard

  const Step := Work(StepKind, false, false, None)
  const OrphanBind := Work(BindKind, true, true, None)
  const BackendClose := Work(CloseKind, false, false, None)
  const Session := Work(SessionKind, false, false, None)

  const Starting1 := Initial.(state := Starting, unlocked := false, ledger := map[StartToken := Step],
                                  start := Acquiring)
  const Locked := Starting1.(lock := true, start := AwaitBackend)
  const Binding := Locked.(start := AwaitBind, past := NoPast.(backendUp := true), futs := map[BindTask := Pending],
                           ledger := map[StartToken := Step, BindTask := Work(BindKind, false, false, None)])
  const BindingAgain := Binding.(start := AwaitBindAgain)
  const Draining := BindingAgain.(start := Unwinding, drainCloses := true, shutdownEvent := true,
                                  drain := WaitBackendClose,
                                  closeSlot := true, past := NoPast.(backendUp := true, closes := 1),
                                  futs := map[BindTask := Pending, CloseTask := Pending],
                                  ledger := map[StartToken := Step, DrainToken := Step,
                                                BindTask := OrphanBind, CloseTask := BackendClose])
  const BackendGone := Draining.(futs := map[BindTask := Pending, CloseTask := Done(true, true)])
  const GivenUp := BackendGone.(state := Stopping, start := Idle, drain := NoDrain,
                                past := BackendGone.past.(drained := true),
                                ledger := map[BindTask := OrphanBind, CloseTask := BackendClose])
  const Waiting := GivenUp.(futs := map[BindTask := Pending, CloseTask := Done(true, false)],
                            ledger := map[BindTask := OrphanBind])
  const Accepting := Waiting.(sock := Serving)
  const Accepted := Accepting.(past := Accepting.past.(late := true), tasks := map[0 := TaskInfo(true, false)],
                               futs := map[BindTask := Pending, CloseTask := Done(true, false), Task(0) := Pending],
                               ledger := map[BindTask := OrphanBind, Task(0) := Session])
  const WarmUp := Work(AdoptedKind, false, false, Some("warm-up"))
  const Warming := Locked.(futs := map[Adopted(0) := Pending], ledger := map[StartToken := Step, Adopted(0) := WarmUp])
  const Unwound := Warming.(start := Unwinding, shutdownEvent := true, drain := WaitSessions({}),
                            ledger := map[StartToken := Step, Adopted(0) := WarmUp, DrainToken := Step])
  const Failing := Unwound.(past := NoPast.(drained := true), drain := NoDrain,
                            ledger := map[StartToken := Step, Adopted(0) := WarmUp])
  const Failed := Failing.(state := Stopping, start := Idle, ledger := map[Adopted(0) := WarmUp])

  lemma Step1()
    ensures Enabled(Initial, StartCall) && Do(Initial, StartCall) == Starting1
  {
    var futs := map k | k in Initial.futs && (k.Task? || k.Adopted?) :: Initial.futs[k];
    assert futs == map[];
  }

  lemma Step2()
    ensures Enabled(Starting1, LockTaken) && Do(Starting1, LockTaken) == Locked
    ensures Enabled(Locked, BackendStarted) && Do(Locked, BackendStarted) == Binding
  {
  }

  lemma Step4()
    ensures Enabled(Binding, StartCancelled(None)) && Do(Binding, StartCancelled(None)) == BindingAgain
  {
  }

  lemma Step5()
    ensures Enabled(BindingAgain, StartCancelled(None)) && Do(BindingAgain, StartCancelled(None)) == Draining
  {
    var t := SetUnwinding(Track(BindingAgain, BindTask, BindKind, true, true, None), true);
    assert LiveSessions(EnterDrain(t)) == {};
  }

  lemma Step6()
    ensures Enabled(Draining, Completed(CloseTask, true)) && Do(Draining, Completed(CloseTask, true)) == BackendGone
  {
  }

  lemma NobodyToCancel()
    ensures CancelSessions(BackendGone) == BackendGone
  {
    assert LiveSessions(BackendGone) == {};
    hide LiveSessions;
    NobodyCancelled(BackendGone);
  }

  lemma NobodyCancelled(s: Server)
    requires LiveSessions(s) == {}
    ensures CancelSessions(s) == s
  {
    hide LiveSessions;
    assert CancelSessions(s).ledger == s.ledger;
    assert CancelSessions(s).tasks == s.tasks;
  }

  lemma HandedOver()
    ensures KeepLock(BackendGone, false) == BackendGone.(past := BackendGone.past.(drained := true))
  {
    hide CancelSessions;
    NobodyToCancel();
  }

  lemma Step7()
    ensures Enabled(BackendGone, DrainResumed(false)) && Do(BackendGone, DrainResumed(false)) == GivenUp
  {
    hide KeepLock, StartFinally, EndWork;
    HandedOver();
    DrainEnds();
    StartEnds();
  }

  const TokensLeft := BackendGone.(past := BackendGone.past.(drained := true), drain := NoDrain,
                                   ledger := map[StartToken := Step, BindTask := OrphanBind, CloseTask := BackendClose])

  lemma StartEnds()
    ensures StartFinally(TokensLeft) == GivenUp
  {
    assert TokensLeft.ledger - {StartToken} == GivenUp.ledger;
    assert BindTask in GivenUp.ledger;
  }

  lemma DrainEnds()
    ensures EndWork(SetDrain(BackendGone.(past := BackendGone.past.(drained := true)), NoDrain), DrainToken)
         == TokensLeft
  {
    assert BackendGone.ledger - {DrainToken} == TokensLeft.ledger;
    assert StartToken in TokensLeft.ledger;
  }

  /** A plain entry leaves while the bind remains. */
  lemma PlainCallback(s: Server, k: Key)
    requires IsDone(s, k) && s.futs[k].queued && k in s.ledger && !s.ledger[k].closesOrphan
    requires !s.start.Acquiring? && s.drain != WaitSessions({})
    requires k != BindTask && BindTask in s.ledger
    ensures Enabled(s, CallbackRan(k, false, None))
    ensures Do(s, CallbackRan(k, false, None)) == Without(CallbackTaken(s, k), k)
  {
    hide CallbackTaken, EndWork, Without;
    hide Retire;
    CallbackTakenIs(s, k);
    RetireIs(CallbackTaken(s, k), k, s.futs[k].ok, false, None);
    EndWorkWhileOther(CallbackTaken(s, k), k, BindTask);
  }

  lemma Step8()
    ensures Enabled(GivenUp, CallbackRan(CloseTask, false, None))
            && Do(GivenUp, CallbackRan(CloseTask, false, None)) == Waiting
  {
    hide Do, Enabled;
    PlainCallback(GivenUp, CloseTask);
    assert GivenUp.ledger - {CloseTask} == Waiting.ledger;
  }

  lemma Step9()
    ensures Enabled(Waiting, SocketBound) && Do(Waiting, SocketBound) == Accepting
    ensures Enabled(Accepting, HandlerStarted(0)) && Do(Accepting, HandlerStarted(0)) == Accepted
  {
  }

  // ---------------------------------------------------------------- a step adopted before a start failed

  lemma StepAdopted()
    ensures Enabled(Locked, Adopt(0, false, "warm-up")) && Do(Locked, Adopt(0, false, "warm-up")) == Warming
  {
  }

  lemma EntersUnwinding()
    ensures EnterDrain(SetUnwinding(Warming, false)) == Unwound && LiveSessions(Unwound) == {}
  {
  }

  lemma NobodyToCancelThere()
    ensures KeepLock(Unwound, false) == Unwound.(past := NoPast.(drained := true))
  {
    hide LiveSessions;
    hide CancelSessions;
    EntersUnwinding();
    NobodyCancelled(Unwound);
  }

  lemma FailedStartEnds()
    ensures StartFinally(Failing) == Failed
  {
    assert Failing.ledger - {StartToken} == Failed.ledger;
    assert Adopted(0) in Failed.ledger;
  }

  lemma FailedDrainEnds()
    ensures EndWork(SetDrain(Unwound.(past := NoPast.(drained := true)), NoDrain), DrainToken) == Failing
  {
    assert Unwound.ledger - {DrainToken} == Failing.ledger;
    assert StartToken in Failing.ledger;
  }

  lemma BackendFails()
    ensures Enabled(Warming, BackendFailed(false)) && Do(Warming, BackendFailed(false)) == Failed
  {
    hide KeepLock, StartFinally, EndWork, LiveSessions, EnterDrain, SetUnwinding;
    EntersUnwinding();
    NobodyToCancelThere();
    FailedDrainEnds();
    FailedStartEnds();
  }

  // ---------------------------------------------------------------- the runs

  /** In a run about sessions nothing is adopted, and the other way round. */
  predicate About(e: Event, owner: Owner) {
    e.ServerStep? ==> if owner.DecodeTask? then !e.a.Adopt? else !e.a.HandlerStarted?
  }

  ghost predicate Reaches(js: seq<Joint>, es: seq<Event>, s: Server, owner: Owner) {
    Run(js, es) && js[|es|] == Joint(s, G.Fresh) && forall e :: e in es ==> About(e, owner)
  }

  lemma Then(js: seq<Joint>, es: seq<Event>, s: Server, a: Action, t: Server, owner: Owner)
      returns (ks: seq<Joint>, fs: seq<Event>)
    requires Reaches(js, es, s, owner) && Enabled(s, a) && Do(s, a) == t && About(ServerStep(a), owner)
    requires !a.ThreadMarked? && !a.StepMarked? && !a.ThreadEnded? && (Answer(a).Some? ==> !Answer(a).value)
    ensures Reaches(ks, fs, t, owner)
  {
    hide Do, Enabled;
    ks, fs := js + [Joint(t, G.Fresh)], es + [ServerStep(a)];
  }

  lemma Beginning(owner: Owner) returns (js: seq<Joint>, es: seq<Event>)
    ensures Reaches(js, es, Locked, owner)
  {
    Step1(); Step2();
    js, es := [Joint(Initial, G.Fresh)], [];
    assert Reaches(js, es, Initial, owner);
    hide Do, Enabled, Reaches;
    js, es := Then(js, es, Initial, StartCall, Starting1, owner);
    js, es := Then(js, es, Starting1, LockTaken, Locked, owner);
  }

  lemma GivesUp() returns (js: seq<Joint>, es: seq<Event>)
    ensures Reaches(js, es, GivenUp, DecodeTask)
  {
    hide Do, Enabled, Reaches;
    js, es := Beginning(DecodeTask);
    Step2(); Step4(); Step5(); Step6(); Step7();
    js, es := Then(js, es, Locked, BackendStarted, Binding, DecodeTask);
    js, es := Then(js, es, Binding, StartCancelled(None), BindingAgain, DecodeTask);
    js, es := Then(js, es, BindingAgain, StartCancelled(None), Draining, DecodeTask);
    js, es := Then(js, es, Draining, Completed(CloseTask, true), BackendGone, DecodeTask);
    js, es := Then(js, es, BackendGone, DrainResumed(false), GivenUp, DecodeTask);
  }

  lemma Accepts() returns (js: seq<Joint>, es: seq<Event>)
    ensures Reaches(js, es, Accepted, DecodeTask)
  {
    hide Do, Enabled, Reaches;
    js, es := GivesUp();
    Step8(); Step9();
    js, es := Then(js, es, GivenUp, CallbackRan(CloseTask, false, None), Waiting, DecodeTask);
    js, es := Then(js, es, Waiting, SocketBound, Accepting, DecodeTask);
    js, es := Then(js, es, Accepting, HandlerStarted(0), Accepted, DecodeTask);
  }

  lemma Fails() returns (js: seq<Joint>, es: seq<Event>)
    ensures Reaches(js, es, Failed, AdoptedStep(0))
  {
    hide Do, Enabled, Reaches;
    js, es := Beginning(AdoptedStep(0));
    StepAdopted(); BackendFails();
    js, es := Then(js, es, Locked, Adopt(0, false, "warm-up"), Warming, AdoptedStep(0));
    js, es := Then(js, es, Warming, BackendFailed(false), Failed, AdoptedStep(0));
  }

  lemma Continues(js: seq<Joint>, es: seq<Event>, s: Server, t: Joint, owner: Owner)
      returns (ks: seq<Joint>, fs: seq<Event>)
    requires Reaches(js, es, s, owner) && Leads(Joint(s, G.Fresh), t, owner)
    ensures Run(ks, fs) && ks[|fs|] == t && forall e :: e in fs ==> About(e, owner)
  {
    hide Possible, Next;
    var us, gs :| Path(us, gs, owner) && us[0] == js[|es|] && us[|gs|] == t;
    forall k | 0 <= k < |gs|
      ensures Possible(us[k], gs[k]) && us[k + 1] == Next(us[k], gs[k]) && About(gs[k], owner)
    {
      assert Followed(us[k], gs[k], us[k + 1], owner);
    }
    hide About, Followed;
    ks, fs := js + us[1..], es + gs;
  }

  lemma JointAt(js: seq<Joint>, es: seq<Event>, s: Server, owner: Owner)
    requires Reaches(js, es, s, owner)
    ensures JointInv(Joint(s, G.Fresh))
  {
    hide JointInv, Possible, Next, About;
    RunInv(js, es, |es|);
  }

  ghost predicate LockLost(t: Joint) { t.server.state.Stopped? && !t.server.lock && t.guard.count != 0 }

  lemma GoesWrong(js: seq<Joint>, es: seq<Event>, s: Server, owner: Owner) returns (ks: seq<Joint>, fs: seq<Event>)
    requires Reaches(js, es, s, owner) && Over(s) && CanDecode(s, owner)
    ensures Run(ks, fs) && LockLost(ks[|fs|]) && forall e :: e in fs ==> About(e, owner)
  {
    hide JointInv, Reaches, Leads, Over, CanDecode, About, Possible, Next;
    JointAt(js, es, s, owner);
    var t := LosesTheLock(Joint(s, G.Fresh), owner);
    ks, fs := Continues(js, es, s, t, owner);
  }

  /** "A decode in flight keeps the lock" is false of a late session: this run
      adopts nothing and ends STOPPED, its lock free, with a decode in flight. */
  lemma LateSessionOutlivesTheLock() returns (js: seq<Joint>, es: seq<Event>)
    ensures Run(js, es) && LockLost(js[|es|])
    ensures forall e :: e in es ==> !(e.ServerStep? && e.a.Adopt?)
  {
    hide Reaches, Run, LockLost;
    js, es := Accepts();
    assert 0 in Accepted.tasks && Over(Accepted);
    js, es := GoesWrong(js, es, Accepted, DecodeTask);
  }

  /** It is false of a late adopted step too, in a run without any session. */
  lemma LateStepOutlivesTheLock() returns (js: seq<Joint>, es: seq<Event>)
    ensures Run(js, es) && LockLost(js[|es|])
    ensures forall e :: e in es ==> !(e.ServerStep? && e.a.HandlerStarted?)
  {
    hide Reaches, Run, LockLost;
    js, es := Fails();
    assert Over(Failed);
    js, es := GoesWrong(js, es, Failed, AdoptedStep(0));
  }
}
