/** `OwnedGroup` and `run_owned`: a child process group is signalled only while
    its leader is ours; and exactly which exits hide that it may still be running. */
module OwnedGroup {
  import opened Wrappers

  datatype Signal = Interrupt | Terminate

  datatype Leader = NotSpawned | Running | Zombie | Reaped

  /** What this process did to the group and to itself, in order. */
  datatype Act = Spawned | SignalledLeader(sig: Signal) | KilledGroup | ReapedLeader | Redelivered(sig: Signal)

  predicate SignalsGroup(a: Act) { a.SignalledLeader? || a.KilledGroup? }

  /** No signal goes to a group whose leader was reaped. */
  ghost predicate OnlyOwned(log: seq<Act>) {
    forall i, j :: 0 <= i < j < |log| && log[i].ReapedLeader? ==> !SignalsGroup(log[j])
  }

  ghost predicate NoRedelivery(log: seq<Act>) { forall i :: 0 <= i < |log| ==> !log[i].Redelivered? }

  /** What the SIGKILL of a group can answer. */
  datatype KillAnswer = Sent | NoSuchProcess | NotPermitted | OtherError

  /** How `reap` ends; it can raise before its wait and after it. */
  datatype Reaping = Waited | TimedOut | Raised(reaped: bool)

  /** What a kill and a reap meet: whether the leader has exited by then, and
      whether looking for that (`exited()`) raises. */
  datatype Cleanup = Cleanup(answer: KillAnswer, gone: bool, lookRaises: bool, reaping: Reaping)

  /** How a kill ends. ESRCH is fine; EPERM only for a leader that is known to
      have exited (`known`) or is seen to have. */
  datatype KillEnd = Landed | NotKilled | KillRaised

  function KillResult(c: Cleanup, known: bool): KillEnd {
    match c.answer
    case Sent => Landed
    case NoSuchProcess => Landed
    case NotPermitted =>
      if known then Landed else if c.lookRaises then KillRaised else if c.gone then Landed else NotKilled
    case OtherError => NotKilled
  }

  predicate CleanupRaises(c: Cleanup, known: bool) { KillResult(c, known).KillRaised? || c.reaping.Raised? }

  /** Killed and reaped: the group is shown stopped. */
  predicate Stops(c: Cleanup, known: bool) {
    KillResult(c, known).Landed? && (c.reaping.Waited? || c.reaping == Raised(true))
  }

  /** How the previous handler of a signal takes it. */
  datatype Handler = ReturningCall | RaisingCall | Ignore | Default

  /** What leaves `run_owned`: `NotStopped` is GroupNotStopped, `FromHandler` the
      exception of the signal's own handler, which may carry it. */
  datatype Outcome = Returned(timedOut: bool) | Failure | NotStopped | FromHandler(carries: bool)

  predicate TellsNotStopped(o: Outcome) { o.NotStopped? || (o.FromHandler? && o.carries) }

  /** Where a signal can land that is not held: while the hold is being put on or
      taken off (between its two handlers), in the outer `finally` before its
      `try`, in that `try` before and after the handler's call, in its `except`
      body, between it and the raise of the verdict, and before the result is
      returned. */
  datatype Window = Installing | Restoring | BeforeTry | BeforeHandler | AfterHandler | Attaching
                  | BeforeRaise | Returning

  predicate Raises(handler: Handler) { handler.RaisingCall? || handler.Default? }

  /** The redelivery's `try` ends with an exception. `late`: where a signal lands
      whose own handler raises (one that returns or is ignored changes nothing). */
  predicate TryRaises(got: seq<Signal>, handler: Handler, late: set<Window>) {
    got != [] && (Raises(handler) || BeforeHandler in late || AfterHandler in late)
  }

  /** A late signal's exception leaves without the verdict. */
  predicate Hides(got: seq<Signal>, handler: Handler, late: set<Window>) {
    BeforeTry in late || (if TryRaises(got, handler, late) then Attaching in late else BeforeRaise in late)
  }

  /** The first held signal reaches the handler that was in place. */
  predicate Delivers(got: seq<Signal>, late: set<Window>) {
    got != [] && BeforeTry !in late && BeforeHandler !in late
  }

  /** Why the leader was asked to stop. */
  datatype Cause = Deadline | HeldSignal

  /** How a wait for the leader went: whether and when it was asked to stop, how many
      signals were held then, and whether at the end it had exited and that was seen. */
  datatype Wait = Wait(cause: Option<Cause>, since: nat, held: nat, left: bool, seen: bool)

  /** The signal that goes to the leader then. */
  function Asked(cause: Option<Cause>, interruptSignal: Option<Signal>, timeoutSignal: Option<Signal>): seq<Act> {
    match cause
    case None => []
    case Some(HeldSignal) => if interruptSignal.Some? then [SignalledLeader(interruptSignal.value)] else []
    case Some(Deadline) => if timeoutSignal.Some? then [SignalledLeader(timeoutSignal.value)] else []
  }

  lemma QuietAct(log: seq<Act>, a: Act)
    requires OnlyOwned(log) && !SignalsGroup(a)
    ensures OnlyOwned(log + [a])
  {
  }

  class Group {
    var leader: Leader
    var reaped: bool
    var exited: bool
    var got: seq<Signal>   // the held signals
    var now: nat
    var handlersBack: bool // the handlers that were in place are in place again
    ghost var log: seq<Act>
    ghost var killLanded: bool

    ghost predicate Valid()
      reads this
    {
      && (reaped <==> leader.Reaped?)
      && (exited ==> leader.Zombie? || leader.Reaped?)
      && (!reaped ==> forall i :: 0 <= i < |log| ==> !log[i].ReapedLeader?)
      && OnlyOwned(log) && NoRedelivery(log)
    }

    constructor ()
      ensures Valid() && leader.NotSpawned? && log == [] && got == [] && !killLanded
    {
      leader, reaped, exited, got, now, handlersBack := NotSpawned, false, false, [], 0, true;
      log, killLanded := [], false;
    }

    /** The world moves on: the leader may exit, signals may be held, time passes. */
    method Sleep()
      requires Valid()
      modifies this`leader, this`got, this`now
      ensures Valid() && now > old(now) && old(got) <= got
      ensures leader == old(leader) || (old(leader).Running? && leader.Zombie?)
    {
      var exits: bool := *;
      var ticks: int := *;
      if exits && leader.Running? { leader := Zombie; }
      HoldMore();
      now := now + 1 + if ticks > 0 then ticks else 0;
    }

    /** Signals are held. */
    method HoldMore()
      modifies this`got
      ensures old(got) <= got
    {
      var more: seq<Signal> := *;
      got := got + more;
    }

    /** The leader exits, when it still runs. */
    method Leave(exits: bool)
      requires Valid() && !leader.NotSpawned?
      modifies this`leader
      ensures Valid() && leader == if exits && old(leader).Running? then Zombie else old(leader)
    {
      if exits && leader.Running? { leader := Zombie; }
    }

    /** `exited()`: the leader has exited; it is not reaped here. Looking can
        raise, but there is nothing to look for once its exit was seen. */
    method Exited(lookRaises: bool) returns (raises: bool, yes: bool)
      requires Valid() && !leader.NotSpawned?
      modifies this`exited
      ensures Valid() && (raises <==> lookRaises && !old(exited) && !reaped)
      ensures !raises ==> (yes <==> leader.Zombie? || leader.Reaped?) && (yes <==> exited || reaped)
      ensures raises ==> exited == old(exited)
    {
      raises := false;
      if !(exited || reaped) {
        raises := lookRaises;
        if raises { return true, false; }
        exited := leader.Zombie?;
      }
      yes := exited || reaped;
    }

    /** `signal_leader`: its guard (`_require_owned`) never fires here. */
    method SignalLeader(sig: Signal)
      requires Valid() && leader != NotSpawned && !reaped
      modifies this`log
      ensures Valid() && log == old(log) + [SignalledLeader(sig)]
    {
      log := log + [SignalledLeader(sig)];
    }

    /** `kill_group`; `error`: why the group could not be killed. */
    method KillGroup(c: Cleanup) returns (raises: bool, error: bool)
      requires Valid() && !leader.NotSpawned? && !reaped
      modifies this`log, this`leader, this`exited, this`killLanded, this`got
      ensures Valid() && log == old(log) + [KilledGroup] && !leader.NotSpawned? && old(got) <= got
      ensures var end := KillResult(c.(gone := c.gone || old(leader).Zombie?), old(exited));
              (raises <==> end.KillRaised?) && (error <==> end.NotKilled?) && (killLanded <==> end.Landed?)
    {
      log := log + [KilledGroup];
      raises, error := false, false;
      HoldMore();
      Leave(c.gone);
      match c.answer {
        case Sent =>
        case NoSuchProcess =>
        case NotPermitted =>
          var gone;
          raises, gone := Exited(c.lookRaises);
          error := !raises && !gone;
        case OtherError => error := true;
      }
      killLanded := !raises && !error;
    }

    /** `reap`: the last use of the leader's pid. */
    method Reap(reaping: Reaping) returns (raises: bool)
      requires Valid() && !leader.NotSpawned? && !reaped
      modifies this`leader, this`reaped, this`log, this`got
      ensures Valid() && !leader.NotSpawned? && old(got) <= got
      ensures raises <==> reaping.Raised?
      ensures reaped <==> reaping.Waited? || reaping == Raised(true)
      ensures log == if reaped then old(log) + [ReapedLeader] else old(log)
    {
      HoldMore();
      if reaping.Waited? || reaping == Raised(true) {
        leader, reaped := Reaped, true;
        log := log + [ReapedLeader];
      }
      raises := reaping.Raised?;
    }

    /** `stop_verdict`: the one rule. */
    method StopVerdict(killError: bool) returns (notStopped: bool)
      ensures notStopped <==> killError || !reaped
    {
      notStopped := killError || !reaped;
    }

    /** Kill, reap, verdict. */
    method StopGroup(c: Cleanup) returns (notStopped: bool, raises: bool)
      requires Valid() && !leader.NotSpawned? && !reaped
      modifies this`leader, this`reaped, this`exited, this`log, this`killLanded, this`got
      ensures Valid() && !leader.NotSpawned? && old(got) <= got
      ensures log == old(log) + (if reaped then [KilledGroup, ReapedLeader] else [KilledGroup])
      ensures notStopped <==> !(killLanded && reaped)
      ensures raises <==> CleanupRaises(c.(gone := c.gone || old(leader).Zombie?), old(exited))
      ensures killLanded && reaped <==> Stops(c.(gone := c.gone || old(leader).Zombie?), old(exited))
    {
      hide OnlyOwned, NoRedelivery, KillResult;
      var error;
      raises, error := KillGroup(c);
      if !raises { raises := Reap(c.reaping); }
      notStopped := StopVerdict(error);
    }

    /** The constructor: a failure after the spawn kills and reaps the group
        before it propagates. `sawExit`: the registration found the leader gone.
        `unsure`: the clean-up of that failure raised itself, and nothing tells. */
    method Start(spawns: bool, fails: bool, sawExit: bool, c: Cleanup) returns (o: Option<Outcome>, unsure: bool)
      requires Valid() && leader.NotSpawned? && !exited
      modifies this`leader, this`reaped, this`exited, this`log, this`killLanded, this`got
      ensures Valid() && (leader.NotSpawned? <==> !spawns) && old(got) <= got
      ensures o == None <==> spawns && !fails
      ensures o == None ==> !reaped && !killLanded
      ensures log == old(log) + (if !spawns then [] else if !fails then [Spawned]
                                 else if reaped then [Spawned, KilledGroup, ReapedLeader] else [Spawned, KilledGroup])
      ensures unsure <==> spawns && fails && CleanupRaises(c.(gone := c.gone || sawExit), sawExit)
      ensures spawns && fails ==> (killLanded && reaped <==> Stops(c.(gone := c.gone || sawExit), sawExit))
      ensures o.Some? ==> o.value == if spawns && !unsure && !(killLanded && reaped) then NotStopped else Failure
    {
      hide OnlyOwned, KillResult, Stops, CleanupRaises;
      unsure := false;
      HoldMore();
      if !spawns { return Some(Failure), false; }
      leader, exited := if sawExit then Zombie else Running, sawExit;
      killLanded := false;
      QuietAct(log, Spawned);
      log := log + [Spawned];
      if !fails { return None, false; }
      var bad, raises := StopGroup(c);
      if raises { return Some(Failure), true; }
      o := if bad then Some(NotStopped) else Some(Failure);
    }

    /** The wait: the leader exits by itself, or the deadline or a held signal asks
        it to stop, once, and gives it `grace`. */
    method Await(timeout: nat, grace: nat, stopOnSignal: bool, interruptSignal: Option<Signal>,
                 timeoutSignal: Option<Signal>)
        returns (raises: bool, timedOut: bool, ghost w: Wait)
      requires Valid() && !leader.NotSpawned? && !reaped
      modifies this`leader, this`got, this`now, this`exited, this`log
      ensures Valid() && !leader.NotSpawned? && !reaped && old(got) <= got && old(now) <= now
      ensures w.left == leader.Zombie? && w.seen == exited
      ensures !raises ==> if w.cause == None then w.seen else w.left || now >= w.since + grace
      ensures timedOut <==> w.cause == Some(Deadline)
      ensures w.cause == Some(Deadline) ==> old(now) + timeout <= w.since <= now && (stopOnSignal ==> w.held == 0)
      ensures w.cause == Some(HeldSignal) ==> stopOnSignal && old(now) <= w.since <= now && 0 < w.held <= |got|
      ensures log == old(log) + Asked(w.cause, interruptSignal, timeoutSignal)
    {
      hide OnlyOwned, NoRedelivery;
      timedOut := false;
      var deadline := now + timeout;
      var stopAt: Option<nat> := None;
      w := Wait(None, now, 0, false, false);
      while true
        invariant Valid() && (leader.Running? || leader.Zombie?) && !reaped && old(got) <= got && old(now) <= now
        invariant stopAt.Some? <==> w.cause.Some?
        invariant stopAt.Some? ==> stopAt.value == w.since + grace && w.since <= now
        invariant timedOut <==> w.cause == Some(Deadline)
        invariant w.cause == Some(Deadline) ==> deadline <= w.since && (stopOnSignal ==> w.held == 0)
        invariant w.cause == Some(HeldSignal) ==> stopOnSignal && old(now) <= w.since && 0 < w.held <= |got|
        invariant log == old(log) + Asked(w.cause, interruptSignal, timeoutSignal)
        decreases if stopAt == None then 1 else 0,
                  if stopAt == None then (if now <= deadline then deadline + 1 - now else 0)
                  else (if now <= stopAt.value then stopAt.value + 1 - now else 0)
      {
        var yes;
        var lookRaises: bool := *;
        raises, yes := Exited(lookRaises);
        w := w.(left := leader.Zombie?, seen := exited);
        if raises || yes { return; }
        if stopAt == None {
          var sig := None;
          if got != [] && stopOnSignal {
            sig := interruptSignal;
            w := w.(cause := Some(HeldSignal), since := now, held := |got|);
          } else if now >= deadline {
            timedOut, sig := true, timeoutSignal;
            w := w.(cause := Some(Deadline), since := now, held := |got|);
          } else {
            Sleep();
            continue;
          }
          if sig.Some? { SignalLeader(sig.value); }
          stopAt := Some(now + grace);
        }
        if now >= stopAt.value { return; }
        Sleep();
      }
    }

    /** `redeliver`: a held signal goes to the handler that was in place. */
    method Redeliver(sig: Signal, handler: Handler) returns (raises: bool)
      requires OnlyOwned(log)
      modifies this`log
      ensures OnlyOwned(log) && log == old(log) + [Redelivered(sig)]
      ensures raises <==> Raises(handler)
    {
      QuietAct(log, Redelivered(sig));
      log := log + [Redelivered(sig)];
      raises := handler.RaisingCall? || handler.Default?;
    }

    /** The outer `finally` of `run_owned`: the verdict is decided first; then the
        first held signal goes to `handler`, whose exception carries the verdict.
        Signals are not held any more: one that lands here and raises hides the
        verdict, or drops the redelivery, exactly where `Hides` and `Delivers` say. */
    method Conclude(notStopped: bool, inFlight: Outcome, handler: Handler, late: set<Window>) returns (o: Outcome)
      requires OnlyOwned(log) && !TellsNotStopped(inFlight)
      modifies this`log
      ensures OnlyOwned(log)
      ensures log == if Delivers(got, late) then old(log) + [Redelivered(got[0])] else old(log)
      ensures TellsNotStopped(o) <==> notStopped && !Hides(got, handler, late)
      ensures notStopped && !Hides(got, handler, late) && !TryRaises(got, handler, late) ==> o.NotStopped?
      ensures !notStopped && inFlight.Returned? && late == {} && !TryRaises(got, handler, late) ==> o == inFlight
      ensures !notStopped && inFlight.Failure? ==> o == Failure || o == FromHandler(false)
      ensures !TellsNotStopped(o) ==> o == inFlight || o == FromHandler(false)
      ensures o.Returned? ==> !notStopped && !Hides(got, handler, late) && Returning !in late
    {
      if BeforeTry in late { return FromHandler(false); }
      if got != [] {
        var raises := BeforeHandler in late;
        if !raises {
          raises := Redeliver(got[0], handler);
          raises := raises || AfterHandler in late;
        }
        if raises { return FromHandler(notStopped && Attaching !in late); }
      }
      if BeforeRaise in late { return FromHandler(false); }
      if notStopped { return NotStopped; }
      o := if inFlight.Returned? && Returning in late then FromHandler(false) else inFlight;
    }

    /** The group's part of `run_owned`, under the hold. `notStopped`: the verdict
        that the outer `finally` has. */
    method RunHeld(spawns: bool, fails: bool, sawExit: bool, made: Cleanup, ended: Cleanup, timeout: nat, grace: nat,
                   stopOnSignal: bool, interruptSignal: Option<Signal>, timeoutSignal: Option<Signal>)
        returns (notStopped: bool, inFlight: Outcome, unsure: bool, ghost w: Wait)
      requires Valid() && leader.NotSpawned? && !exited && log == [] && !killLanded
      modifies this`leader, this`reaped, this`exited, this`log, this`killLanded, this`got, this`now
      ensures OnlyOwned(log) && NoRedelivery(log)
      ensures leader.NotSpawned? <==> !spawns
      ensures notStopped <==> spawns && !(killLanded && reaped) && !unsure
      ensures inFlight.Failure? || (inFlight == Returned(w.cause == Some(Deadline)) && spawns && !fails)
      ensures inFlight.Returned? ==> Awaited(w, old(now), timeout, grace, stopOnSignal)
      ensures unsure <==> spawns && fails && CleanupRaises(made.(gone := made.gone || sawExit), sawExit)
      ensures spawns && fails ==> (killLanded && reaped <==> Stops(made.(gone := made.gone || sawExit), sawExit))
      ensures spawns && !fails ==> (killLanded && reaped <==> Stops(ended.(gone := ended.gone || w.left), w.seen))
      ensures log == Acts(spawns, fails, reaped, w.cause, interruptSignal, timeoutSignal)
    {
      hide KillResult, OnlyOwned, NoRedelivery, Asked, Stops, CleanupRaises;
      var early;
      w := Wait(None, now, 0, false, false);
      early, unsure := Start(spawns, fails, sawExit, made);
      if early.Some? { return early.value.NotStopped?, Failure, unsure, w; }
      var raises, timedOut;
      raises, timedOut, w := Await(timeout, grace, stopOnSignal, interruptSignal, timeoutSignal);
      var endRaises;
      notStopped, endRaises := StopGroup(ended);
      inFlight := if raises || endRaises then Failure else Returned(timedOut);
    }

    /** The wait behind a result that began at `begun`: the leader's exit was seen
        without a reason to stop it; or the whole timeout passed, or a signal was
        held and counts; then it had exited, or had its grace. */
    predicate Awaited(w: Wait, begun: nat, timeout: nat, grace: nat, stopOnSignal: bool)
      reads this
    {
      && (w.cause == None ==> w.seen)
      && (w.cause == Some(Deadline) ==> w.since >= begun + timeout && (stopOnSignal ==> w.held == 0))
      && (w.cause == Some(HeldSignal) ==> w.since >= begun && stopOnSignal && 0 < w.held <= |got|)
      && (w.cause.Some? ==> w.left || now >= w.since + grace)
    }

    /** `run_owned`. `made` is what a failing constructor's clean-up meets, `ended`
        what the one after the wait meets, `handler` the previous handler of the
        first held signal, and `late` where unheld signals land that raise. */
    method RunOwned(spawns: bool, fails: bool, sawExit: bool, made: Cleanup, ended: Cleanup, timeout: nat, grace: nat,
                    stopOnSignal: bool, interruptSignal: Option<Signal>, timeoutSignal: Option<Signal>,
                    handler: Handler, late: set<Window>)
        returns (o: Outcome, unsure: bool, ghost w: Wait)
      requires Valid() && leader.NotSpawned? && !exited && log == [] && !killLanded
      modifies this
      // no signal goes to a group whose leader was reaped
      ensures OnlyOwned(log)
      // a normal return: the kill landed and the leader was reaped, after a wait that `Awaited` describes
      ensures o.Returned? ==> killLanded && reaped && Awaited(w, old(now), timeout, grace, stopOnSignal)
      ensures o.Returned? ==> (o.timedOut <==> w.cause == Some(Deadline))
      ensures leader.NotSpawned? <==> !spawns || Installing in late
      // a group is told about exactly when it was started and not shown stopped, but for two cases:
      ensures TellsNotStopped(o) <==>
                !leader.NotSpawned? && !(killLanded && reaped) && !unsure && !Hides(got, handler, late)
      // the constructor failed after the spawn, and its own kill or reap raised
      ensures unsure <==>
                !leader.NotSpawned? && fails && CleanupRaises(made.(gone := made.gone || sawExit), sawExit)
      ensures !leader.NotSpawned? && fails ==>
                (killLanded && reaped <==> Stops(made.(gone := made.gone || sawExit), sawExit))
      ensures !leader.NotSpawned? && !fails ==>
                (killLanded && reaped <==> Stops(ended.(gone := ended.gone || w.left), w.seen))
      // what was done, in order: the leader asked at most once, the group always killed; and
      // the first held signal is redelivered exactly once, last of all, unless a late one is in the way
      ensures log == Acts(!leader.NotSpawned?, fails, reaped, w.cause, interruptSignal, timeoutSignal)
                     + (if Delivers(got, late) then [Redelivered(got[0])] else [])
      // and the handlers are back unless one lands while they are exchanged
      ensures handlersBack <==> Installing !in late && Restoring !in late
    {
      got, handlersBack := [], false;
      if Installing in late {
        unsure, w := false, Wait(None, now, 0, false, false);
        o := Conclude(false, FromHandler(false), handler, late);
      } else {
        var notStopped, inFlight;
        notStopped, inFlight, unsure, w := RunHeld(spawns, fails, sawExit, made, ended, timeout, grace,
                                                   stopOnSignal, interruptSignal, timeoutSignal);
        handlersBack := Restoring !in late;
        if Restoring in late { inFlight := FromHandler(false); }
        o := Conclude(notStopped, inFlight, handler, late);
      }
    }

    /** The first case happens: thread start fails, the kill answers EPERM, and
        looking for the leader's exit raises. Nothing tells about the group. */
    method UntoldGroup() returns (o: Outcome)
      requires Valid() && leader.NotSpawned? && !exited && log == [] && !killLanded
      modifies this
      ensures !leader.NotSpawned? && !(killLanded && reaped) && !TellsNotStopped(o)
    {
      var unsure;
      ghost var w;
      var c := Cleanup(NotPermitted, false, true, Waited);
      o, unsure, w := RunOwned(true, true, false, c, c, 0, 0, true, None, None, Ignore, {});
    }

    /** The second case happens without the first: the group's kill fails, and a
        signal lands after the hold and raises before the verdict does. The first
        held signal, if there is one, is not redelivered either. */
    method HiddenVerdict() returns (o: Outcome, unsure: bool)
      requires Valid() && leader.NotSpawned? && !exited && log == [] && !killLanded
      modifies this
      ensures !leader.NotSpawned? && !(killLanded && reaped) && !TellsNotStopped(o) && !unsure && NoRedelivery(log)
    {
      var c := Cleanup(OtherError, false, false, Waited);
      ghost var w;
      o, unsure, w := RunOwned(true, true, false, c, c, 0, 0, true, None, None, Ignore, {BeforeTry});
    }
  }

  /** What a run does to the group, in order. */
  function Acts(spawned: bool, fails: bool, reaped: bool, cause: Option<Cause>, interruptSignal: Option<Signal>,
                timeoutSignal: Option<Signal>): seq<Act> {
    if !spawned then []
    else [Spawned] + (if fails then [] else Asked(cause, interruptSignal, timeoutSignal)) + [KilledGroup]
         + (if reaped then [ReapedLeader] else [])
  }

  /** When the clean-up of a failed constructor raises, and so hides a group that
      was not shown stopped: a look that raises after EPERM, or a reap that raises. */
  lemma HiddenIff(c: Cleanup, known: bool)
    ensures CleanupRaises(c, known) && !Stops(c, known) <==>
              || (c.answer.NotPermitted? && !known && c.lookRaises)
              || (c.reaping.Raised? && (!c.reaping.reaped || KillResult(c, known).NotKilled?))
  {
  }
}
