/** `serve`: startup and readiness raced against a stop, and what every exit
    settles before it shuts the server down. */
module Serve {
  import opened Wrappers
  import Lifecycle

  datatype Stage = Startup | Readiness

  /** A step's task. A start leaves NEW in its first step; a task cancelled
      before that ends without running. */
  datatype Step = Absent | Unstarted | Active | Ended(ok: bool)

  datatype Pc = Before | Racing(stage: Stage) | Abandoning(stage: Stage, leaving: bool) | AwaitingStop
              | ShuttingDown | Exited | HardExited(code: nat)

  /** `failure` is the variable of that name, `inner` the exception inside the
      outer `finally`, `leaves` the one the caller sees. Exceptions are numbered
      in the order in which they were raised. */
  datatype State = State(
    hard: bool, hasReady: bool,
    pc: Pc,
    stop: bool,
    startup: Step, readiness: Step,
    startCancelled: bool, readyCancelled: bool,
    pending: Option<Stage>,
    server: Lifecycle.State,
    adopted: set<Stage>,
    failure: Option<nat>, inner: Option<nat>, leaves: Option<nat>,
    // history
    raised: nat,
    published: nat,
    wellPublished: bool,
    adoptRaised: bool,
    shutdowns: nat,
    settled: bool,
    drained: bool)           // a drain of the server ended

  function Begin(hard: bool, hasReady: bool): State {
    State(hard, hasReady, Before, false, Absent, Absent, false, false, None, Lifecycle.New, {}, None, None, None,
          0, 0, true, false, 0, true, false)
  }

  function StepOf(s: State, stage: Stage): Step { if stage.Startup? then s.startup else s.readiness }

  predicate IsDone(s: State, stage: Stage) { StepOf(s, stage).Ended? }

  // ---------------------------------------------------------------- the segments

  /** `server.adopt`: refused where no lock is held; a done task is no work. */
  function Adopt(s: State, stage: Stage): State {
    if !Lifecycle.Adoptable(s.server) then s.(adoptRaised := true)
    else if IsDone(s, stage) then s
    else s.(adopted := s.adopted + {stage})
  }

  /** Whether a step may be left behind by a shutdown. */
  predicate Settled(s: State, stage: Stage) {
    || StepOf(s, stage).Absent? || IsDone(s, stage) || stage in s.adopted
    || (stage.Startup? && s.startup.Unstarted? && s.startCancelled)
  }

  /** `server.shutdown()` up to its wait. */
  function Shutdown(s: State): State {
    s.(pc := ShuttingDown, shutdowns := s.shutdowns + 1,
       settled := s.settled && Settled(s, Startup) && Settled(s, Readiness),
       server := if s.server.New? then Lifecycle.Stopped
                 else if s.server.Stopped? then Lifecycle.Stopped else Lifecycle.Stopping)
  }

  /** `_abandon_step` up to its wait. */
  function Abandon(s: State, stage: Stage, leaving: bool): State {
    s.(pc := Abandoning(stage, leaving), pending := None,
       startCancelled := s.startCancelled || stage.Startup?, readyCancelled := s.readyCancelled || stage.Readiness?)
  }

  /** The outer `finally`. */
  function Leave(s: State): State {
    if s.pending.Some? && !IsDone(s, s.pending.value) then Abandon(s, s.pending.value, true) else Shutdown(s)
  }

  /** An exception leaves the `try` block. */
  function Fail(s: State): State { Leave(s.(failure := Some(s.raised), raised := s.raised + 1)) }

  /** The `finally` of `_abandon_step`. */
  function Settle(s: State, stage: Stage): State {
    if IsDone(s, stage) || !Lifecycle.Adoptable(s.server) then s else Adopt(s, stage)
  }

  /** `_abandon_step` is over; `raises`: its wait was cancelled. */
  function Abandoned(s: State, stage: Stage, leaving: bool, raises: bool): State {
    var t := Settle(s, stage);
    if leaving then Shutdown(if raises then t.(inner := Some(t.raised), raised := t.raised + 1) else t)
    else if raises then Fail(t)
    else Leave(t)
  }

  function Publish(s: State, raises: bool): State {
    if raises then Fail(Published(s)) else Published(s).(pc := AwaitingStop)
  }

  /** `publish_ready` was called. */
  function Published(s: State): State {
    s.(published := s.published + 1,
       wellPublished := s.wellPublished && s.server.Running? && !s.stop
                        && s.startup == Ended(true) && (s.hasReady ==> s.readiness == Ended(true)))
  }

  /** The next stage after startup: the readiness step is adopted from creation. */
  function BeginReadiness(s: State): State {
    var t := Adopt(s.(readiness := Active), Readiness);
    if t.adoptRaised then Fail(t) else t.(pending := Some(Readiness), pc := Racing(Readiness))
  }

  function NextStage(s: State, stage: Stage, publishRaises: bool): State {
    if stage.Startup? && s.hasReady then BeginReadiness(s) else Publish(s, publishRaises)
  }

  /** `_run_until_stop` after its wait. */
  function RaceOver(s: State, stage: Stage, publishRaises: bool): State {
    if s.stop && !IsDone(s, stage) then
      if s.hard then s.(pc := HardExited(0)) else Abandon(s, stage, false)
    else if StepOf(s, stage) != Ended(true) then Fail(s)
    else if s.stop then Leave(s)
    else NextStage(s, stage, publishRaises)
  }

  /** The outermost `finally`; `workLeft`: `live_work_count` is not zero. */
  function Finish(s: State, workLeft: bool): State {
    if s.hard && workLeft then ExitHard(s) else ExitSoft(s)
  }

  function ExitHard(s: State): State { s.(pc := HardExited(if s.failure.Some? then 1 else 0)) }

  function ExitSoft(s: State): State { s.(pc := Exited, leaves := s.failure) }

  /** `shutdown()` returned or raised: the first failure is the one that stays. */
  function ShutdownOver(s: State, raises: bool, workLeft: bool): State { Finish(Concluded(s, raises), workLeft) }

  function Concluded(s: State, raises: bool): State {
    var exc := if raises then Some(s.raised) else s.inner;
    s.(raised := if raises then s.raised + 1 else s.raised, failure := if s.failure == None then exc else s.failure)
  }

  // ---------------------------------------------------------------- steps

  datatype Action =
    | SetupFails                     // before the first step: a handler, the stdin watch
    | Start
    | RaceEnds(publishRaises: bool)
    | AbandonEnds(raises: bool)
    | StopSeen
    | Cancelled                      // serve itself, in a wait
    | ShutdownEnds(raises: bool, workLeft: bool)
    // the world
    | StopRequested
    | StartFirstStep
    | StartEnds(ok: bool, to: Lifecycle.State)
    | StartEndsUnrun
    | ReadyMarks                     // the readiness step marks a decode
    | ReadyEnds(ok: bool)
    | DrainEnds
    | ServerSettles

  predicate Enabled(s: State, a: Action) {
    match a
    case SetupFails => s.pc.Before?
    case Start => s.pc.Before?
    case RaceEnds(_) => s.pc.Racing? && (s.stop || IsDone(s, s.pc.stage))
    case AbandonEnds(raises) => s.pc.Abandoning?
    case StopSeen => s.pc.AwaitingStop? && s.stop
    case Cancelled => s.pc.Racing? || s.pc.AwaitingStop?
    case ShutdownEnds(_, _) => s.pc.ShuttingDown?
    case StopRequested => true
    case StartFirstStep => s.startup.Unstarted? && !s.startCancelled
    case StartEnds(ok, to) =>
      && s.startup.Active?
      && (if ok then s.server.Starting? && to.Running? && !s.drained // a start that drained has failed
          else if s.server.Starting? then to.New? || to.Stopping? || to.Stopped?
          else s.server.Stopping? && (to.Stopping? || to.Stopped?))
    case StartEndsUnrun => s.startup.Unstarted? && s.startCancelled
    case ReadyMarks => s.readiness.Active? && !s.readyCancelled
    case ReadyEnds(_) => s.readiness.Active?
    case DrainEnds => s.server.Stopping? || s.startup.Active?
    case ServerSettles => s.server.Stopping? && !s.startup.Active? // a start in flight is live work
  }

  function Do(s: State, a: Action): State
    requires Enabled(s, a)
  {
    match a
    case SetupFails => Fail(s)
    case Start => s.(startup := Unstarted, pending := Some(Startup), pc := Racing(Startup))
    case RaceEnds(publishRaises) => RaceOver(s, s.pc.stage, publishRaises)
    case AbandonEnds(raises) => Abandoned(s, s.pc.stage, s.pc.leaving, raises)
    case StopSeen => Leave(s)
    case Cancelled => Fail(s)
    case ShutdownEnds(raises, workLeft) => ShutdownOver(s, raises, workLeft)
    case StopRequested => s.(stop := true)
    case StartFirstStep => s.(startup := Active, server := if s.server.New? then Lifecycle.Starting else s.server)
    case StartEnds(ok, to) => s.(startup := Ended(ok), server := to)
    case StartEndsUnrun => s.(startup := Ended(false))
    case ReadyMarks => s
    case ReadyEnds(ok) => s.(readiness := Ended(ok))
    case DrainEnds => s.(drained := true)
    case ServerSettles => s.(server := Lifecycle.Stopped)
  }

  ghost predicate Run(ss: seq<State>, as_: seq<Action>) {
    && |ss| == |as_| + 1 && (exists hard, hasReady :: ss[0] == Begin(hard, hasReady))
    && forall k :: 0 <= k < |as_| ==> Enabled(ss[k], as_[k]) && ss[k + 1] == Do(ss[k], as_[k])
  }

  // ---------------------------------------------------------------- the invariant

  predicate Up(pc: Pc) { pc.Before? || pc.Racing? || pc.Abandoning? || pc.AwaitingStop? }

  /** What the server does while nobody has shut it down. */
  predicate ServerFollows(s: State) {
    && (s.shutdowns == 0 ==>
      && (s.startup.Absent? || s.startup.Unstarted? ==> s.server.New?)
      && (s.startup.Active? ==> s.server.Starting?)
      && (s.startup == Ended(true) ==> s.server.Running?)
      && (s.startup == Ended(false) ==> s.server.New? || s.server.Stopping? || s.server.Stopped?))
    && (s.startup.Active? ==> s.server.Starting? || s.server.Stopping?)
    && (s.readiness.Absent? || (s.startup == Ended(true) && s.hasReady))
    && !s.readiness.Unstarted?
    && (s.readiness.Active? ==> Readiness in s.adopted && (s.shutdowns > 0 ==> s.readyCancelled))
    && (s.server.Running? ==> !s.drained)
    && (s.startup.Absent? || s.startup.Unstarted? ==> Startup !in s.adopted)
    && (s.shutdowns > 0 && s.startup.Unstarted? ==> s.startCancelled)
  }

  predicate Books(s: State) {
    s.shutdowns <= 1 && s.settled && s.wellPublished && !s.adoptRaised && s.published <= 1
  }

  /** The first exception is the one in `failure`; `inner` exists only beside it. */
  predicate Failures(s: State) {
    && (s.raised == 0 <==> s.failure == None) && (s.failure.Some? ==> s.failure == Some(0))
    && (s.inner.Some? ==> s.failure.Some?)
  }

  /** Between the segments of one step, before any shutdown. */
  predicate Inside(s: State) { ServerFollows(s) && Books(s) && Failures(s) && s.shutdowns == 0 }

  /** Everything is settled but a pending step that is not done. */
  predicate PendingFits(s: State) {
    && (s.pending == None ==>
          Settled(s, Startup) && Settled(s, Readiness) && (s.readiness.Active? ==> s.readyCancelled))
    && (s.pending == Some(Startup) ==> !s.startup.Absent? && s.readiness.Absent?)
    && (s.pending == Some(Readiness) ==> s.startup == Ended(true) && !s.readiness.Absent?)
  }

  predicate AbandonFits(s: State, stage: Stage) {
    if stage.Startup? then s.startCancelled && !s.startup.Absent? && s.readiness.Absent?
    else s.startup == Ended(true) && !s.readiness.Absent? && s.readyCancelled
  }

  /** Where `serve` is, and what is still pending there. */
  predicate Stages(s: State) {
    match s.pc
    case Before => s.startup.Absent? && s.readiness.Absent? && s.pending == None && s.failure == None
        && s.published == 0
    case Racing(stage) => s.pending == Some(stage) && PendingFits(s) && s.failure == None && s.published == 0
    case Abandoning(stage, leaving) => s.pending == None && AbandonFits(s, stage) && (leaving <==> s.failure.Some?)
    case AwaitingStop =>
      s.pending.Some? && IsDone(s, s.pending.value) && PendingFits(s) && s.startup == Ended(true)
      && s.failure == None && s.published == 1
    case ShuttingDown => s.shutdowns == 1
    case Exited => s.shutdowns == 1 && s.leaves == s.failure
    case HardExited(_) => true
  }

  predicate Inv(s: State) {
    ServerFollows(s) && Books(s) && Failures(s) && Stages(s) && (Up(s.pc) ==> s.shutdowns == 0)
  }

  // ---------------------------------------------------------------- the segments keep it

  lemma ShutdownInv(s: State)
    requires Inside(s) && Settled(s, Startup) && Settled(s, Readiness) && (s.readiness.Active? ==> s.readyCancelled)
    ensures Inv(Shutdown(s))
  {
  }

  lemma AbandonInv(s: State, stage: Stage, leaving: bool)
    requires Inside(s) && s.pending == Some(stage) && PendingFits(s) && (leaving <==> s.failure.Some?)
    ensures Inv(Abandon(s, stage, leaving))
  {
  }

  lemma PendingDone(s: State)
    requires Inside(s) && PendingFits(s) && (s.pending.Some? ==> IsDone(s, s.pending.value))
    ensures Settled(s, Startup) && Settled(s, Readiness) && (s.readiness.Active? ==> s.readyCancelled)
  {
  }

  lemma LeaveInv(s: State)
    requires Inside(s) && PendingFits(s) && (s.failure.Some? || s.pending == None || IsDone(s, s.pending.value))
    ensures Inv(Leave(s))
  {
    hide Abandon, Shutdown, Inv;
    if s.pending.Some? && !IsDone(s, s.pending.value) { AbandonInv(s, s.pending.value, true); }
    else { PendingDone(s); ShutdownInv(s); }
  }

  function Raise(s: State): State { s.(failure := Some(s.raised), raised := s.raised + 1) }

  lemma FailInv(s: State)
    requires Inside(s) && PendingFits(s) && s.failure == None
    ensures Inv(Fail(s))
  {
    hide Leave, Inv;
    LeaveInv(Raise(s));
  }

  /** `_abandon_step` leaves its step finished, adopted, or never begun. */
  lemma SettleSettles(s: State, stage: Stage)
    requires Inside(s) && s.pending == None && AbandonFits(s, stage)
    ensures var t := Settle(s, stage);
            Inside(t) && PendingFits(t) && t.pending == None && t.failure == s.failure && t.raised == s.raised
  {
  }

  lemma AbandonedInv(s: State, stage: Stage, leaving: bool, raises: bool)
    requires Inside(s) && s.pending == None && AbandonFits(s, stage) && (leaving <==> s.failure.Some?)
    ensures Inv(Abandoned(s, stage, leaving, raises))
  {
    hide Settle, Shutdown, Leave, Inv, AbandonFits;
    SettleSettles(s, stage);
    var t := Settle(s, stage);
    if leaving { ShutdownInv(if raises then t.(inner := Some(t.raised), raised := t.raised + 1) else t); }
    else if raises { FailInv(t); }
    else { LeaveInv(t); }
  }

  lemma PublishInv(s: State, raises: bool)
    requires Inside(s) && s.pending.Some? && IsDone(s, s.pending.value) && PendingFits(s) && s.failure == None
    requires s.published == 0 && s.startup == Ended(true) && !s.stop && (s.hasReady ==> s.readiness == Ended(true))
    ensures Inv(Publish(s, raises))
  {
    hide Leave;
    FailInv(Published(s));
  }

  lemma BeginReadinessInv(s: State)
    requires Inside(s) && s.startup == Ended(true) && s.readiness.Absent? && s.hasReady
    requires s.pending == Some(Startup) && s.failure == None && s.published == 0
    ensures Inv(BeginReadiness(s))
  {
    hide Leave;
  }

  lemma RaceOverInv(s: State, stage: Stage, publishRaises: bool)
    requires Inside(s) && s.pending == Some(stage) && PendingFits(s) && s.failure == None && s.published == 0
    requires s.stop || IsDone(s, stage)
    ensures Inv(RaceOver(s, stage, publishRaises))
  {
    hide Leave, Publish, BeginReadiness, Abandon;
    if s.stop && !IsDone(s, stage) {
      AbandonInv(s, stage, false);
    } else if StepOf(s, stage) != Ended(true) {
      FailInv(s);
    } else if s.stop {
      LeaveInv(s);
    } else if stage.Startup? && s.hasReady {
      BeginReadinessInv(s);
    } else {
      PublishInv(s, publishRaises);
    }
  }

  lemma ShutdownOverInv(s: State, raises: bool, workLeft: bool)
    requires Inv(s) && s.pc.ShuttingDown?
    ensures Inv(ShutdownOver(s, raises, workLeft))
  {
    hide Inv, Concluded, Finish;
    ConcludedFits(s, raises);
    FinishInv(Concluded(s, raises), workLeft);
  }

  /** Nothing is left to do but to leave. */
  predicate Leaving(s: State) { ServerFollows(s) && Books(s) && Failures(s) && s.shutdowns == 1 }

  lemma ConcludedFits(s: State, raises: bool)
    requires Inv(s) && s.pc.ShuttingDown?
    ensures Leaving(Concluded(s, raises))
  {
  }

  lemma FinishInv(s: State, workLeft: bool)
    requires Leaving(s)
    ensures Inv(Finish(s, workLeft))
  {
  }

  lemma WorldInv(s: State, a: Action)
    requires Inv(s) && Enabled(s, a)
    requires a.Start? || a.StopRequested? || a.StartFirstStep? || a.StartEnds? || a.StartEndsUnrun?
          || a.ReadyMarks? || a.ReadyEnds? || a.DrainEnds? || a.ServerSettles?
    ensures Inv(Do(s, a))
  {
  }

  lemma StepInv(s: State, a: Action)
    requires Inv(s) && Enabled(s, a)
    ensures Inv(Do(s, a))
  {
    hide RaceOver, Abandoned, Leave, ShutdownOver;
    match a
    case RaceEnds(publishRaises) => RaceOverInv(s, s.pc.stage, publishRaises);
    case AbandonEnds(raises) => AbandonedInv(s, s.pc.stage, s.pc.leaving, raises);
    case StopSeen => LeaveInv(s);
    case Cancelled => FailInv(s);
    case SetupFails => FailInv(s);
    case ShutdownEnds(raises, workLeft) => ShutdownOverInv(s, raises, workLeft);
    case _ => WorldInv(s, a);
  }

  lemma {:induction false} RunInv(ss: seq<State>, as_: seq<Action>, k: nat)
    requires Run(ss, as_) && k < |ss|
    ensures Inv(ss[k])
  {
    if k > 0 {
      RunInv(ss, as_, k - 1);
      StepInv(ss[k - 1], as_[k - 1]);
      hide Do, Enabled, Inv;
    }
  }

  // ---------------------------------------------------------------- main results

  /** `publish_ready` runs at most once, and only while the server is RUNNING,
      with no stop recorded and the preparation finished. */
  lemma PublishedOnceAndReady(ss: seq<State>, as_: seq<Action>, k: nat)
    requires Run(ss, as_) && k < |ss|
    ensures ss[k].published <= 1
    ensures k < |as_| && ss[k + 1].published != ss[k].published ==>
              && ss[k].server.Running? && !ss[k].stop && ss[k].startup == Ended(true)
              && (ss[k].hasReady ==> ss[k].readiness == Ended(true))
  {
    hide Do, Enabled, ServerFollows, Stages, Failures;
    RunInv(ss, as_, k);
    if k < |as_| { PublishStep(ss[k], as_[k]); }
  }

  /** The last step that is due ended well: the readiness step if there is one. */
  predicate Prepared(s: State) { s.startup == Ended(true) && (s.hasReady ==> s.readiness == Ended(true)) }

  /** Whenever a step's race ends and no stop is recorded, a finished preparation
      is published at once; otherwise nothing is. */
  lemma PublishesExactly(ss: seq<State>, as_: seq<Action>, k: nat)
    requires Run(ss, as_) && k < |as_|
    ensures ss[k + 1].published ==
              ss[k].published + if as_[k].RaceEnds? && !ss[k].stop && Prepared(ss[k]) then 1 else 0
  {
    RunInv(ss, as_, k);
    PublishedAfter(ss[k], as_[k]);
    hide Do, Enabled, Inv;
  }

  lemma PublishedAfter(s: State, a: Action)
    requires Inv(s) && Enabled(s, a)
    ensures Do(s, a).published == s.published + if a.RaceEnds? && !s.stop && Prepared(s) then 1 else 0
  {
    hide Leave, RaceOver, Abandoned, Finish;
    match a
    case RaceEnds(publishRaises) => RacePublishes(s, s.pc.stage, publishRaises);
    case AbandonEnds(raises) => AbandonedKeepsPublished(s, s.pc.stage, s.pc.leaving, raises);
    case StopSeen => LeaveKeepsPublished(s);
    case Cancelled => LeaveKeepsPublished(Raise(s));
    case SetupFails => LeaveKeepsPublished(Raise(s));
    case ShutdownEnds(raises, workLeft) => FinishKeepsPublished(Concluded(s, raises), workLeft);
    case _ =>
  }

  lemma FinishKeepsPublished(s: State, workLeft: bool)
    ensures Finish(s, workLeft).published == s.published
  {
  }

  lemma RacePublishes(s: State, stage: Stage, publishRaises: bool)
    requires Inv(s) && s.pc == Racing(stage) && (s.stop || IsDone(s, stage))
    ensures RaceOver(s, stage, publishRaises).published == s.published + if !s.stop && Prepared(s) then 1 else 0
  {
    hide Leave;
    LeaveKeepsPublished(s);
    LeaveKeepsPublished(Raise(s));
    LeaveKeepsPublished(Raise(Published(s)));
    LeaveKeepsPublished(Raise(Adopt(s.(readiness := Active), Readiness)));
  }

  /** A `serve` that waits for its stop has announced that it is ready. */
  lemma WaitsPublished(ss: seq<State>, as_: seq<Action>, k: nat)
    requires Run(ss, as_) && k < |ss| && ss[k].pc.AwaitingStop?
    ensures ss[k].published == 1
  {
    RunInv(ss, as_, k);
    hide Do, Enabled, ServerFollows, Failures;
  }

  /** What a step raises: a failed setup, a cancel of `serve`, a step that failed, a
      `publish_ready` or a wait or a shutdown that raised. */
  predicate Raises(s: State, a: Action) {
    match a
    case SetupFails => true
    case Cancelled => true
    case RaceEnds(publishRaises) =>
      s.pc.Racing? && (StepOf(s, s.pc.stage) == Ended(false) || (!s.stop && Prepared(s) && publishRaises))
    case AbandonEnds(raises) => raises
    case ShutdownEnds(raises, _) => raises
    case _ => false
  }

  /** No failure is swallowed and none is made up: together with
      `FirstFailureLeaves`, `serve` raises exactly when one of these steps raised. */
  lemma RaisesExactly(ss: seq<State>, as_: seq<Action>, k: nat)
    requires Run(ss, as_) && k < |as_|
    ensures ss[k + 1].raised == ss[k].raised + if Raises(ss[k], as_[k]) then 1 else 0
  {
    RunInv(ss, as_, k);
    RaisedAfter(ss[k], as_[k]);
    hide Do, Enabled, Inv, Raises;
  }

  lemma RaisedAfter(s: State, a: Action)
    requires Inv(s) && Enabled(s, a)
    ensures Do(s, a).raised == s.raised + if Raises(s, a) then 1 else 0
  {
    hide Leave, RaceOver, Finish, Settle;
    LeaveRaises(s);
    LeaveRaises(Raise(s));
    match a
    case RaceEnds(publishRaises) => RaceRaises(s, s.pc.stage, publishRaises);
    case AbandonEnds(raises) =>
      SettleRaises(s, s.pc.stage);
      LeaveRaises(Settle(s, s.pc.stage));
      LeaveRaises(Raise(Settle(s, s.pc.stage)));
    case ShutdownEnds(raises, workLeft) => FinishRaises(Concluded(s, raises), workLeft);
    case _ =>
  }

  lemma SettleRaises(s: State, stage: Stage)
    ensures Settle(s, stage).raised == s.raised
  {
  }

  lemma FinishRaises(s: State, workLeft: bool)
    ensures Finish(s, workLeft).raised == s.raised
  {
  }

  lemma LeaveRaises(s: State)
    ensures Leave(s).raised == s.raised
  {
    hide Abandon, Shutdown;
    ShutdownIs(s);
    if s.pending.Some? { AbandonIs(s, s.pending.value, true); }
  }

  lemma ShutdownIs(s: State)
    ensures Shutdown(s).raised == s.raised && Shutdown(s).pc.ShuttingDown?
  {
  }

  lemma AbandonIs(s: State, stage: Stage, leaving: bool)
    ensures Abandon(s, stage, leaving).raised == s.raised && Abandon(s, stage, leaving).pc == Abandoning(stage, leaving)
  {
  }

  lemma RaceRaises(s: State, stage: Stage, publishRaises: bool)
    requires Inv(s) && s.pc == Racing(stage) && (s.stop || IsDone(s, stage))
    ensures RaceOver(s, stage, publishRaises).raised ==
              s.raised + if Raises(s, RaceEnds(publishRaises)) then 1 else 0
  {
    hide Leave;
    LeaveRaises(s);
    LeaveRaises(Raise(s));
    LeaveRaises(Raise(Published(s)));
  }

  /** A hard exit happens exactly for a stop during a step, and after a shutdown
      that left work. */
  lemma HardExitsExactly(ss: seq<State>, as_: seq<Action>, k: nat)
    requires Run(ss, as_) && k < |as_| && !ss[k].pc.HardExited?
    ensures ss[k + 1].pc.HardExited? <==>
              ss[k].hard && ((as_[k].RaceEnds? && ss[k].stop && !IsDone(ss[k], ss[k].pc.stage))
                             || (as_[k].ShutdownEnds? && as_[k].workLeft))
  {
    RunInv(ss, as_, k);
    HardAfter(ss[k], as_[k]);
    hide Do, Enabled, Inv;
  }

  lemma HardAfter(s: State, a: Action)
    requires Inv(s) && Enabled(s, a) && !s.pc.HardExited?
    ensures Do(s, a).pc.HardExited? <==>
              s.hard && ((a.RaceEnds? && s.stop && !IsDone(s, s.pc.stage)) || (a.ShutdownEnds? && a.workLeft))
  {
    hide Leave, RaceOver, Abandoned, Finish, Concluded;
    LeaveIsSoft(s);
    LeaveIsSoft(Raise(s));
    match a
    case RaceEnds(publishRaises) => RaceHard(s, s.pc.stage, publishRaises);
    case AbandonEnds(raises) => AbandonedIsSoft(s, s.pc.stage, s.pc.leaving, raises);
    case ShutdownEnds(raises, workLeft) =>
      ConcludedKeepsHard(s, raises);
      FinishHard(Concluded(s, raises), workLeft);
    case _ =>
  }

  lemma ConcludedKeepsHard(s: State, raises: bool)
    ensures Concluded(s, raises).hard == s.hard
  {
  }

  lemma FinishHard(s: State, workLeft: bool)
    ensures Finish(s, workLeft).pc.HardExited? <==> s.hard && workLeft
  {
    hide ExitHard, ExitSoft;
    ExitsAre(s);
  }

  lemma ExitsAre(s: State)
    ensures ExitHard(s).pc.HardExited? && ExitSoft(s).pc.Exited?
  {
  }

  lemma AbandonedIsSoft(s: State, stage: Stage, leaving: bool, raises: bool)
    ensures !Abandoned(s, stage, leaving, raises).pc.HardExited?
  {
    hide Leave, Settle;
    var t := Settle(s, stage);
    LeaveIsSoft(t);
    LeaveIsSoft(Raise(t));
  }

  lemma RaceHard(s: State, stage: Stage, publishRaises: bool)
    requires Inv(s) && s.pc == Racing(stage) && (s.stop || IsDone(s, stage))
    ensures RaceOver(s, stage, publishRaises).pc.HardExited? <==> s.hard && s.stop && !IsDone(s, stage)
  {
    hide Leave;
    LeaveIsSoft(s);
    LeaveIsSoft(Raise(s));
    LeaveIsSoft(Raise(Published(s)));
    LeaveIsSoft(Raise(Adopt(s.(readiness := Active), Readiness)));
  }

  lemma LeaveIsSoft(s: State)
    ensures Leave(s).pc.Abandoning? || Leave(s).pc.ShuttingDown?
  {
    hide Abandon, Shutdown;
    ShutdownIs(s);
    if s.pending.Some? { AbandonIs(s, s.pending.value, true); }
  }

  /** And without a stop a step that ended well leads on: to the readiness step if
      there is one to come, else to the wait for a stop. */
  lemma GoesOn(ss: seq<State>, as_: seq<Action>, k: nat)
    requires Run(ss, as_) && k < |as_| && as_[k].RaceEnds? && !ss[k].stop && !as_[k].publishRaises
    requires StepOf(ss[k], ss[k].pc.stage) == Ended(true)
    ensures if ss[k].pc.stage.Startup? && ss[k].hasReady
            then ss[k + 1].pc == Racing(Readiness) && ss[k + 1].readiness.Active? && Readiness in ss[k + 1].adopted
            else ss[k + 1].pc.AwaitingStop?
  {
    RunInv(ss, as_, k);
    OnAfter(ss[k], as_[k]);
    hide Do, Enabled, Inv;
  }

  lemma OnAfter(s: State, a: Action)
    requires Inv(s) && Enabled(s, a) && a.RaceEnds? && !s.stop && !a.publishRaises
    requires StepOf(s, s.pc.stage) == Ended(true)
    ensures if s.pc.stage.Startup? && s.hasReady
            then Do(s, a).pc == Racing(Readiness) && Do(s, a).readiness.Active? && Readiness in Do(s, a).adopted
            else Do(s, a).pc.AwaitingStop?
  {
    hide Leave, Abandon;
  }

  /** A stop that is seen leads out: to the cancelled step's bounded wait, or to the
      shutdown; and that wait leads to the shutdown. */
  lemma StopLeadsOut(ss: seq<State>, as_: seq<Action>, k: nat)
    requires Run(ss, as_) && k < |as_|
    requires (as_[k].RaceEnds? && ss[k].stop) || as_[k].StopSeen? || as_[k].AbandonEnds?
    ensures var pc := ss[k + 1].pc;
            && (pc.Abandoning? || pc.ShuttingDown? || (pc.HardExited? && as_[k].RaceEnds?))
            && (as_[k].AbandonEnds? ==> pc.ShuttingDown?)
            && (pc.Abandoning? ==> if pc.stage.Startup? then ss[k + 1].startCancelled else ss[k + 1].readyCancelled)
  {
    RunInv(ss, as_, k);
    RunInv(ss, as_, k + 1);
    OutAfter(ss[k], as_[k]);
    hide Do, Enabled, ServerFollows, Failures, Books;
  }

  lemma OutAfter(s: State, a: Action)
    requires Inv(s) && Enabled(s, a) && ((a.RaceEnds? && s.stop) || a.StopSeen? || a.AbandonEnds?)
    ensures var pc := Do(s, a).pc;
            && (pc.Abandoning? || pc.ShuttingDown? || (pc.HardExited? && a.RaceEnds?))
            && (a.AbandonEnds? ==> pc.ShuttingDown?)
  {
    hide Settle;
    if a.AbandonEnds? { SettleKeepsPending(s, s.pc.stage); }
  }

  lemma SettleKeepsPending(s: State, stage: Stage)
    ensures Settle(s, stage).pending == s.pending
  {
  }

  lemma LeaveKeepsPublished(s: State)
    ensures Leave(s).published == s.published
  {
    hide Abandon, Shutdown;
    ShutdownKeepsPublished(s);
    if s.pending.Some? { AbandonKeepsPublished(s, s.pending.value, true); }
  }

  lemma ShutdownKeepsPublished(s: State)
    ensures Shutdown(s).published == s.published
  {
  }

  lemma AbandonKeepsPublished(s: State, stage: Stage, leaving: bool)
    ensures Abandon(s, stage, leaving).published == s.published
  {
  }

  lemma AbandonedKeepsPublished(s: State, stage: Stage, leaving: bool, raises: bool)
    ensures Abandoned(s, stage, leaving, raises).published == s.published
  {
    hide Leave;
    LeaveKeepsPublished(Settle(s, stage));
    LeaveKeepsPublished(Raise(Settle(s, stage)));
  }

  lemma RaceKeepsPublished(s: State, stage: Stage, publishRaises: bool)
    requires Inv(s) && s.pc == Racing(stage) && (s.stop || IsDone(s, stage))
    ensures RaceOver(s, stage, publishRaises).published != s.published ==>
              && s.server.Running? && !s.stop && s.startup == Ended(true)
              && (s.hasReady ==> s.readiness == Ended(true))
  {
    hide Leave, Publish;
    LeaveKeepsPublished(s);
    LeaveKeepsPublished(Raise(s));
    LeaveKeepsPublished(Raise(Adopt(s.(readiness := Active), Readiness)));
  }

  lemma PublishStep(s: State, a: Action)
    requires Inv(s) && Enabled(s, a)
    ensures Do(s, a).published != s.published ==>
              && s.server.Running? && !s.stop && s.startup == Ended(true)
              && (s.hasReady ==> s.readiness == Ended(true))
  {
    hide Leave, RaceOver, Abandoned;
    match a
    case RaceEnds(publishRaises) => RaceKeepsPublished(s, s.pc.stage, publishRaises);
    case AbandonEnds(raises) => AbandonedKeepsPublished(s, s.pc.stage, s.pc.leaving, raises);
    case StopSeen => LeaveKeepsPublished(s);
    case Cancelled => LeaveKeepsPublished(Raise(s));
    case SetupFails => LeaveKeepsPublished(Raise(s));
    case _ =>
  }

  /** Every exit that is not hard shut the server down, exactly once; at that
      moment each step was finished, adopted, or a start that never took its
      first step (`settled` records it); and no `adopt` ever raised. */
  lemma ExitsSettled(ss: seq<State>, as_: seq<Action>, k: nat)
    requires Run(ss, as_) && k < |ss|
    ensures ss[k].pc.Exited? ==> ss[k].shutdowns == 1
    ensures ss[k].shutdowns <= 1 && ss[k].settled && !ss[k].adoptRaised
  {
    hide Do, Enabled, ServerFollows, Failures;
    RunInv(ss, as_, k);
  }

  /** The readiness step marks its decodes while the server is RUNNING, before
      any shutdown and any end of a drain: whatever stops `serve` cancels the
      step before it shuts the server down. */
  lemma ReadinessMarksInTime(ss: seq<State>, as_: seq<Action>, k: nat)
    requires Run(ss, as_) && k < |as_| && as_[k].ReadyMarks?
    ensures ss[k].server.Running? && ss[k].shutdowns == 0 && !ss[k].drained
  {
    hide Do, Books, Failures, Stages;
    RunInv(ss, as_, k);
  }

  /** The first exception raised is the one that leaves `serve`; without one it
      returns normally. */
  lemma FirstFailureLeaves(ss: seq<State>, as_: seq<Action>, k: nat)
    requires Run(ss, as_) && k < |ss| && ss[k].pc.Exited?
    ensures ss[k].leaves == if ss[k].raised == 0 then None else Some(0)
  {
    hide Do, Enabled;
    RunInv(ss, as_, k);
  }

  /** A hard exit after a shutdown reports a failure exactly when one was raised. */
  lemma HardExitCode(ss: seq<State>, as_: seq<Action>, k: nat)
    requires Run(ss, as_) && k < |as_| && as_[k].ShutdownEnds? && ss[k + 1].pc.HardExited?
    ensures ss[k].hard && as_[k].workLeft
    ensures ss[k + 1].pc.code == if ss[k + 1].raised == 0 then 0 else 1
  {
    hide RaceOver, Abandoned, Leave;
    RunInv(ss, as_, k);
  }
}
