/** The launchd harness from its signal handlers to its table: a signal between
    any two statements, and an installer that cannot be shown stopped. */
module Teardown {
  import opened Wrappers

  /** The `try` body, the inner and the outer `except` body. */
  datatype Where = TryBody | Inner | Outer

  datatype Pc =
    | Installing             // the handlers, one after the other
    | Checking               // in a check, or between two
    | CallingInstaller       // in `run_owned`: signals are held
    | VerdictInFlight        // its GroupNotStopped caught, not yet recorded
    | Unwinding              // recorded; InstallerNotStopped goes to its row
    | ChecksOver
    | Switch(at: Where)      // `begin_teardown`, before its flag
    | Switched(at: Where)    // after it, installing what is missing
    | Noting(at: Where)
    | TeardownBegins
    | CallingUninstall
    | Removing
    | Reporting
    | Printed
    | Restored

  /** What the harness does to the machine. */
  datatype Act = InstallerStarted | Unlinked

  datatype State = State(
    pc: Pc,
    installed: nat,          // of the two handlers
    tearingDown: bool,
    recorded: bool,          // `installer_not_stopped`
    interrupted: bool,
    // history
    raised: nat,             // KeyboardInterrupts raised by the handler
    escaped: bool,           // one of them outside both `try` blocks
    verdict: bool,           // some installer call could not be shown stopped
    lost: bool,              // a signal replaced that verdict before its record
    teardowns: nat,
    acts: seq<Act>)

  const Begin := State(Installing, 0, false, false, false, 0, false, false, false, 0, [])

  /** How an installer call ends: a result or an ordinary exception, a verdict,
      or the handler's KeyboardInterrupt for a signal (only while it still
      raises): alone, carrying a verdict, or hiding one (a signal that landed in
      `run_owned` after its hold). */
  datatype CallEnd = Plain | NotStopped | Interrupted | InterruptedNotStopped | InterruptedHidden

  predicate HasVerdict(e: CallEnd) { e.NotStopped? || e.InterruptedNotStopped? }

  predicate HasSignal(e: CallEnd) { e.Interrupted? || e.InterruptedNotStopped? || e.InterruptedHidden? }

  datatype Action =
    | Signal
    | InstallHandler
    | ChecksEnd
    | CheckCrashes
    | CallInstaller
    | InstallerEnds(e: CallEnd)
    | Record
    | StopRow
    | CaughtInCheck
    | Flag
    | InstallMissing
    | Note
    | NoteCrashes
    | BeginTeardown
    | UninstallEnds(e: CallEnd)
    | Unlink
    | RemovalEnds
    | Print
    | Restore

  /** `signal_handler`: the first signal raises, every later one is ignored. */
  function OnSignal(s: State): State {
    s.(tearingDown := true, raised := if s.tearingDown then s.raised else s.raised + 1)
  }

  /** Where a KeyboardInterrupt lands. */
  function Landing(pc: Pc): Option<Pc> {
    match pc
    case Installing => Some(Switch(Inner))
    case Checking => Some(Switch(Inner))
    case CallingInstaller => Some(Switch(Inner))
    case VerdictInFlight => Some(Switch(Inner))
    case Unwinding => Some(Switch(Inner))
    case ChecksOver => Some(Switch(Inner))
    case Switch(at) => if at.TryBody? then Some(Switch(Inner)) else if at.Inner? then Some(Switch(Outer)) else None
    case Switched(at) => if at.TryBody? then Some(Switch(Inner)) else if at.Inner? then Some(Switch(Outer)) else None
    case Noting(at) => if at.Inner? then Some(Switch(Outer)) else None
    case _ => None
  }

  /** A signal between two statements (not while they are held). */
  function Signalled(s: State): State {
    if s.tearingDown then s
    else
      var t := OnSignal(s).(lost := s.lost || s.pc.VerdictInFlight?);
      if Landing(s.pc).Some? then t.(pc := Landing(s.pc).value) else t.(escaped := true)
  }

  /** `run_installer`: refused once a verdict is recorded. */
  function StartInstaller(s: State, pc: Pc): State { s.(pc := pc, acts := s.acts + [InstallerStarted]) }

  /** An installer call of a check ends. */
  function InstallerEnded(s: State, e: CallEnd): State {
    var t := if HasSignal(e) then OnSignal(s) else s;
    if HasVerdict(e) then t.(verdict := true, pc := VerdictInFlight)
    else if e.InterruptedHidden? then t.(verdict := true, lost := true, pc := Switch(Inner))
    else if HasSignal(e) then t.(pc := Switch(Inner))
    else t.(pc := Checking)
  }

  /** The teardown's own call: a verdict freezes the rest. */
  function UninstallEnded(s: State, e: CallEnd): State {
    if HasVerdict(e) then s.(verdict := true, recorded := true, pc := Reporting) else s.(pc := Removing)
  }

  predicate Enabled(s: State, a: Action) {
    match a
    case Signal => s.installed > 0 && !s.pc.CallingInstaller? && !s.pc.CallingUninstall? && !s.pc.Restored?
        && !s.escaped
    case InstallHandler => s.pc.Installing? && s.installed < 2
    case ChecksEnd => s.pc.Checking? || (s.pc.Installing? && s.installed == 2)
    case CheckCrashes => s.pc.Checking? || s.pc.Unwinding?
    case CallInstaller => (s.pc.Checking? || (s.pc.Installing? && s.installed == 2)) && !s.recorded
    case InstallerEnds(e) => s.pc.CallingInstaller? && (HasSignal(e) ==> !s.tearingDown)
    case Record => s.pc.VerdictInFlight?
    case StopRow => s.pc.Unwinding?
    case CaughtInCheck => s.pc.Unwinding?
    case Flag => s.pc.Switch? || s.pc.ChecksOver?
    case InstallMissing => s.pc.Switched?
    case Note => s.pc.Noting?
    case NoteCrashes => s.pc.Noting? && s.pc.at.Inner?
    case BeginTeardown => s.pc.TeardownBegins?
    case UninstallEnds(e) => s.pc.CallingUninstall? && !HasSignal(e)
    case Unlink => s.pc.Removing?
    case RemovalEnds => s.pc.Removing?
    case Print => s.pc.Reporting?
    case Restore => s.pc.Printed?
  }

  function Do(s: State, a: Action): State
    requires Enabled(s, a)
  {
    match a
    case Signal => Signalled(s)
    case InstallHandler => s.(installed := s.installed + 1)
    case ChecksEnd => s.(pc := ChecksOver)
    case CheckCrashes => s.(pc := Switch(Inner))
    case CallInstaller => StartInstaller(s, CallingInstaller)
    case InstallerEnds(e) => InstallerEnded(s, e)
    case Record => s.(recorded := true, pc := Unwinding)
    case StopRow => s.(pc := ChecksOver)
    case CaughtInCheck => s.(pc := Checking)
    case Flag => s.(tearingDown := true, pc := Switched(if s.pc.ChecksOver? then TryBody else s.pc.at))
    case InstallMissing => s.(installed := 2, pc := if s.pc.at.TryBody? then TeardownBegins else Noting(s.pc.at))
    case Note => s.(interrupted := true, pc := TeardownBegins)
    case NoteCrashes => s.(interrupted := true, pc := Switch(Outer))
    case BeginTeardown =>
      var t := s.(teardowns := s.teardowns + 1);
      if s.recorded then t.(pc := Reporting) else StartInstaller(t, CallingUninstall)
    case UninstallEnds(e) => UninstallEnded(s, e)
    case Unlink => s.(acts := s.acts + [Unlinked])
    case RemovalEnds => s.(pc := Reporting)
    case Print => s.(pc := Printed)
    case Restore => s.(pc := Restored)
  }

  ghost predicate Run(ss: seq<State>, as_: seq<Action>) {
    && |ss| == |as_| + 1 && ss[0] == Begin
    && forall k :: 0 <= k < |as_| ==> Enabled(ss[k], as_[k]) && ss[k + 1] == Do(ss[k], as_[k])
  }

  // ---------------------------------------------------------------- the invariant

  predicate After(pc: Pc) {
    pc.TeardownBegins? || pc.CallingUninstall? || pc.Removing? || pc.Reporting? || pc.Printed? || pc.Restored?
  }

  /** The exit status is not 0: an "interrupted" row, or the FAIL rows of a
      recorded verdict. */
  predicate Failed(s: State) { s.interrupted || s.recorded }

  predicate Inv(s: State) {
    && !s.escaped && s.raised <= 1 && (s.raised == 1 ==> s.tearingDown)
    && (After(s.pc) || s.pc.Switched? || s.pc.Noting? || s.pc == Switch(Outer) ==> s.tearingDown)
    && (s.pc.Noting? ==> !s.pc.at.TryBody?) && s.pc != Switch(TryBody)
    && s.teardowns == (if After(s.pc) && !s.pc.TeardownBegins? then 1 else 0)
    && (s.raised == 1 && (After(s.pc) || s.pc == Switched(TryBody)) ==> Failed(s))
    && (s.raised == 1 && !s.recorded ==>
          || s.interrupted || s.pc.VerdictInFlight? || s.pc.Noting?
          || s.pc == Switch(Inner) || s.pc == Switch(Outer) || s.pc == Switched(Inner) || s.pc == Switched(Outer))
    && (s.recorded ==> s.verdict && !s.pc.CallingInstaller? && !s.pc.VerdictInFlight?
                       && !s.pc.CallingUninstall? && !s.pc.Removing?)
    && (s.verdict ==> s.recorded || s.lost || s.pc.VerdictInFlight?)
    && (s.pc.VerdictInFlight? ==> s.verdict && !s.recorded)
    && (s.pc.Unwinding? ==> s.recorded)
    && (s.lost ==> s.raised == 1)
    && (After(s.pc) || s.pc.Noting? ==> s.installed == 2)
  }

  lemma StepInv(s: State, a: Action)
    requires Inv(s) && Enabled(s, a)
    ensures Inv(Do(s, a))
  {
  }

  lemma {:induction false} RunInv(ss: seq<State>, as_: seq<Action>, k: nat)
    requires Run(ss, as_) && k < |ss|
    ensures Inv(ss[k])
  {
    hide Inv, Do, Enabled;
    if k == 0 { BeginInv(); }
    else {
      RunInv(ss, as_, k - 1);
      StepInv(ss[k - 1], as_[k - 1]);
    }
  }

  lemma BeginInv()
    ensures Inv(Begin)
  {
  }

  // ---------------------------------------------------------------- main results

  /** Once the handlers are on, whatever arrives between any two statements: at
      most one KeyboardInterrupt, none escapes, the table is printed only after
      exactly one teardown, and an interrupted run never exits 0. */
  lemma NoSignalEscapes(ss: seq<State>, as_: seq<Action>, k: nat)
    requires Run(ss, as_) && k < |ss|
    ensures ss[k].raised <= 1 && !ss[k].escaped && ss[k].teardowns <= 1
    ensures ss[k].pc.Printed? || ss[k].pc.Restored? ==> ss[k].teardowns == 1
    ensures ss[k].pc.Restored? && ss[k].raised == 1 ==> Failed(ss[k])
  {
    hide Do, Enabled;
    RunInv(ss, as_, k);
  }

  lemma FrozenStep(s: State, a: Action)
    requires Inv(s) && Enabled(s, a) && s.recorded
    ensures Do(s, a).recorded && Do(s, a).acts == s.acts
  {
  }

  /** After an installer call is recorded as not stopped, no later step starts an
      installer or unlinks anything. */
  lemma {:induction false} FrozenAfterTheRecord(ss: seq<State>, as_: seq<Action>, j: nat, k: nat)
    requires Run(ss, as_) && j <= k < |ss| && ss[j].recorded
    ensures ss[k].recorded && ss[k].acts == ss[j].acts
    decreases k
  {
    hide Inv, Do, Enabled;
    if j < k {
      FrozenAfterTheRecord(ss, as_, j, k - 1);
      RunInv(ss, as_, k - 1);
      FrozenStep(ss[k - 1], as_[k - 1]);
    }
  }

  lemma VerdictStep(s: State, a: Action)
    requires Inv(s) && Enabled(s, a) && s.verdict && !Do(s, a).lost
    ensures Do(s, a).verdict && !s.lost && Do(s, a).acts == s.acts
  {
  }

  /** From the verdict itself on, the same holds unless a signal lands between
      the verdict and its record ... */
  lemma {:induction false} FrozenUnlessLost(ss: seq<State>, as_: seq<Action>, j: nat, k: nat)
    requires Run(ss, as_) && j <= k < |ss| && ss[j].verdict && !ss[k].lost
    ensures ss[k].verdict && ss[k].acts == ss[j].acts
    decreases k
  {
    hide Inv, Do, Enabled;
    if j < k {
      RunInv(ss, as_, k - 1);
      LostStays(ss[k - 1], as_[k - 1]);
      FrozenUnlessLost(ss, as_, j, k - 1);
      VerdictStep(ss[k - 1], as_[k - 1]);
    }
  }

  lemma LostStays(s: State, a: Action)
    requires Enabled(s, a)
    ensures s.lost ==> Do(s, a).lost
  {
  }

  /** A signal that lands between a verdict and its record, here or in `run_owned`. */
  predicate Loses(s: State, a: Action) {
    (a.Signal? && s.pc.VerdictInFlight? && !s.tearingDown) || (a.InstallerEnds? && a.e.InterruptedHidden?)
  }

  lemma LosesExactly(s: State, a: Action)
    requires Enabled(s, a)
    ensures Do(s, a).lost <==> s.lost || Loses(s, a)
  {
    hide StartInstaller, InstallerEnded, UninstallEnded, Landing;
    if a.InstallerEnds? { InstallerKeepsLost(s, a.e); }
    if a.UninstallEnds? { UninstallKeepsLost(s, a.e); }
    StartKeepsLost(s, CallingInstaller);
    StartKeepsLost(s.(teardowns := s.teardowns + 1), CallingUninstall);
  }

  lemma InstallerKeepsLost(s: State, e: CallEnd)
    ensures InstallerEnded(s, e).lost == (s.lost || e.InterruptedHidden?)
  {
  }

  lemma UninstallKeepsLost(s: State, e: CallEnd)
    ensures UninstallEnded(s, e).lost == s.lost
  {
  }

  lemma StartKeepsLost(s: State, pc: Pc)
    ensures StartInstaller(s, pc).lost == s.lost
  {
  }

  /** The unrecorded verdict is forgotten: the teardown is still to come, or it
      has already started the installer again. */
  predicate Thawing(s: State, n: nat) {
    || |s.acts| > n
    || (!s.recorded && |s.acts| == n && (s.pc.TeardownBegins? || s.pc.Noting?
        || s.pc == Switch(Inner) || s.pc == Switch(Outer) || s.pc == Switched(Inner) || s.pc == Switched(Outer)))
  }

  lemma ThawingStep(s: State, a: Action, n: nat)
    requires Inv(s) && Enabled(s, a) && Thawing(s, n)
    ensures Thawing(Do(s, a), n)
  {
  }

  lemma {:induction false} ThawedAfterwards(ss: seq<State>, as_: seq<Action>, j: nat, k: nat)
    requires Run(ss, as_) && j < k < |ss| && Loses(ss[j], as_[j])
    ensures Thawing(ss[k], |ss[j].acts|)
    decreases k
  {
    hide Inv, Do, Enabled, Thawing;
    RunInv(ss, as_, k - 1);
    if j < k - 1 {
      ThawedAfterwards(ss, as_, j, k - 1);
      ThawingStep(ss[k - 1], as_[k - 1], |ss[j].acts|);
    } else {
      LosingThaws(ss[j], as_[j]);
    }
  }

  lemma LosingThaws(s: State, a: Action)
    requires Inv(s) && Enabled(s, a) && Loses(s, a)
    ensures Thawing(Do(s, a), |s.acts|)
  {
  }

  /** Where a verdict was lost between two instants. */
  lemma {:induction false} LostSomewhere(ss: seq<State>, as_: seq<Action>, j: nat, k: nat) returns (m: nat)
    requires Run(ss, as_) && j <= k < |ss| && !ss[j].lost && ss[k].lost
    ensures j <= m < k && !ss[m].lost && Loses(ss[m], as_[m])
    decreases k
  {
    hide Inv, Do, Enabled, Loses;
    LosesExactly(ss[k - 1], as_[k - 1]);
    if ss[k - 1].lost { m := LostSomewhere(ss, as_, j, k - 1); } else { m := k - 1; }
  }

  lemma {:induction false} LostStaysLost(ss: seq<State>, as_: seq<Action>, j: nat, k: nat)
    requires Run(ss, as_) && j <= k < |ss| && ss[j].lost
    ensures ss[k].lost
    decreases k
  {
    hide Do, Enabled;
    if j < k {
      LostStaysLost(ss, as_, j, k - 1);
      LostStays(ss[k - 1], as_[k - 1]);
    }
  }

  /** Wherever a verdict was lost, the teardown has started an installer again by
      the time the table is printed. */
  lemma LostMeansThawed(ss: seq<State>, as_: seq<Action>, j: nat, k: nat)
    requires Run(ss, as_) && j < k < |ss| && Loses(ss[j], as_[j]) && ss[k].pc.Printed?
    ensures |ss[k].acts| > |ss[j].acts|
  {
    hide Do, Enabled, Loses;
    ThawedAfterwards(ss, as_, j, k);
  }

  /** From a verdict on, nothing more is started or unlinked by the time the
      table is printed exactly when no signal landed before its record. */
  lemma FrozenIff(ss: seq<State>, as_: seq<Action>, j: nat, k: nat)
    requires Run(ss, as_) && j <= k < |ss| && ss[j].verdict && !ss[j].lost && ss[k].pc.Printed?
    ensures ss[k].acts == ss[j].acts <==> !exists m :: j <= m < k && Loses(ss[m], as_[m])
  {
    hide Do, Enabled, Inv, Loses;
    if ss[k].lost {
      var m := LostSomewhere(ss, as_, j, k);
      FrozenUnlessLost(ss, as_, j, m);
      ThawedAfterwards(ss, as_, m, k);
    } else {
      FrozenUnlessLost(ss, as_, j, k);
      forall m | j <= m < k
        ensures !Loses(ss[m], as_[m])
      {
        LosesExactly(ss[m], as_[m]);
        if Loses(ss[m], as_[m]) { LostStaysLost(ss, as_, m + 1, k); }
      }
    }
  }

  // ---------------------------------------------------------------- what each event does

  /** A signal that nobody has answered yet, between two statements or inside
      `run_owned`. */
  predicate FirstSignal(s: State, a: Action) {
    !s.tearingDown && (a.Signal? || (a.InstallerEnds? && HasSignal(a.e)))
  }

  predicate Verdict(a: Action) { (a.InstallerEnds? || a.UninstallEnds?) && HasVerdict(a.e) }

  /** On its way to an `except` body, if it is not carried by a verdict. */
  predicate Unwinds(pc: Pc) { pc == Switch(Inner) || pc == Switch(Outer) || pc.VerdictInFlight? }

  /** The first signal raises, once, and leads to an `except` body; every later one
      changes nothing at all. */
  lemma SignalRaises(ss: seq<State>, as_: seq<Action>, k: nat)
    requires Run(ss, as_) && k < |as_|
    ensures FirstSignal(ss[k], as_[k]) ==>
              ss[k].raised == 0 && ss[k + 1].raised == 1 && ss[k + 1].tearingDown && Unwinds(ss[k + 1].pc)
    ensures !FirstSignal(ss[k], as_[k]) ==> ss[k + 1].raised == ss[k].raised
    ensures as_[k].Signal? && ss[k].tearingDown ==> ss[k + 1] == ss[k]
  {
    hide Inv, Do, Enabled;
    RunInv(ss, as_, k);
    StepRaises(ss[k], as_[k]);
  }

  lemma StepRaises(s: State, a: Action)
    requires Inv(s) && Enabled(s, a)
    ensures FirstSignal(s, a) ==>
              s.raised == 0 && Do(s, a).raised == 1 && Do(s, a).tearingDown && Unwinds(Do(s, a).pc)
    ensures !FirstSignal(s, a) ==> Do(s, a).raised == s.raised
    ensures a.Signal? && s.tearingDown ==> Do(s, a) == s
  {
  }

  /** Signals are ignored only once a first one came, or the teardown began to
      switch over. */
  lemma {:induction false} WhoTearsDown(ss: seq<State>, as_: seq<Action>, k: nat) returns (j: nat)
    requires Run(ss, as_) && k < |ss| && ss[k].tearingDown
    ensures j < k && (FirstSignal(ss[j], as_[j]) || as_[j].Flag?)
    decreases k
  {
    hide Inv, Do, Enabled, FirstSignal;
    assert k > 0;
    if ss[k - 1].tearingDown {
      j := WhoTearsDown(ss, as_, k - 1);
    } else {
      StepTearsDown(ss[k - 1], as_[k - 1]);
      j := k - 1;
    }
  }

  lemma StepTearsDown(s: State, a: Action)
    requires Enabled(s, a) && Do(s, a).tearingDown && !s.tearingDown
    ensures FirstSignal(s, a) || a.Flag?
  {
  }

  lemma {:induction false} RaisedStays(ss: seq<State>, as_: seq<Action>, j: nat, k: nat)
    requires Run(ss, as_) && j <= k < |ss| && ss[j].raised == 1
    ensures ss[k].raised == 1
    decreases k
  {
    hide Do, Enabled, FirstSignal;
    if j < k {
      RaisedStays(ss, as_, j, k - 1);
      SignalRaises(ss, as_, k - 1);
    }
  }

  /** A run that a signal reached never exits 0. */
  lemma SignalledRunFails(ss: seq<State>, as_: seq<Action>, j: nat, k: nat)
    requires Run(ss, as_) && j < k < |ss| && FirstSignal(ss[j], as_[j]) && ss[k].pc.Restored?
    ensures Failed(ss[k])
  {
    hide Inv, Do, Enabled, FirstSignal;
    SignalRaises(ss, as_, j);
    RaisedStays(ss, as_, j + 1, k);
    NoSignalEscapes(ss, as_, k);
  }

  /** An installer is started exactly by a check's call and by a teardown without a
      recorded verdict, and something is unlinked exactly by the removal. */
  lemma ActsExactly(ss: seq<State>, as_: seq<Action>, k: nat)
    requires Run(ss, as_) && k < |as_|
    ensures ss[k + 1].acts == ss[k].acts +
              if as_[k].CallInstaller? || (as_[k].BeginTeardown? && !ss[k].recorded) then [InstallerStarted]
              else if as_[k].Unlink? then [Unlinked]
              else []
  {
    hide Do, Enabled;
    StepActs(ss[k], as_[k]);
  }

  lemma StepActs(s: State, a: Action)
    requires Enabled(s, a)
    ensures Do(s, a).acts == s.acts +
              if a.CallInstaller? || (a.BeginTeardown? && !s.recorded) then [InstallerStarted]
              else if a.Unlink? then [Unlinked]
              else []
  {
    hide Do, Enabled;
    if a.Signal? || a.InstallerEnds? || a.UninstallEnds? { EndsKeepActs(s, a); }
    else if a.CallInstaller? || a.BeginTeardown? || a.Unlink? { Acting(s, a); }
    else { PlainActs(s, a); }
  }

  lemma Acting(s: State, a: Action)
    requires Enabled(s, a) && (a.CallInstaller? || a.BeginTeardown? || a.Unlink?)
    ensures Do(s, a).acts == s.acts +
              if a.Unlink? then [Unlinked] else if a.BeginTeardown? && s.recorded then [] else [InstallerStarted]
  {
    hide Enabled;
  }

  lemma PlainActs(s: State, a: Action)
    requires Enabled(s, a) && !a.Signal? && !a.InstallerEnds? && !a.UninstallEnds?
    requires !a.CallInstaller? && !a.BeginTeardown? && !a.Unlink?
    ensures Do(s, a).acts == s.acts
  {
    hide Do, Enabled;
    if a.Flag? || a.InstallMissing? || a.Note? || a.NoteCrashes? { SwitchActs(s, a); } else { MoveActs(s, a); }
  }

  lemma SwitchActs(s: State, a: Action)
    requires Enabled(s, a) && (a.Flag? || a.InstallMissing? || a.Note? || a.NoteCrashes?)
    ensures Do(s, a).acts == s.acts
  {
    hide Enabled;
  }

  lemma MoveActs(s: State, a: Action)
    requires Enabled(s, a) && (a.InstallHandler? || a.ChecksEnd? || a.CheckCrashes? || a.Record? || a.StopRow?
                               || a.CaughtInCheck? || a.RemovalEnds? || a.Print? || a.Restore?)
    ensures Do(s, a).acts == s.acts
  {
    hide Enabled;
  }

  lemma EndsKeepActs(s: State, a: Action)
    requires Enabled(s, a) && (a.Signal? || a.InstallerEnds? || a.UninstallEnds?)
    ensures Do(s, a).acts == s.acts
  {
    hide Enabled, Signalled, InstallerEnded, UninstallEnded;
    match a
    case Signal => SignalActs(s);
    case InstallerEnds(e) => InstallerActs(s, e);
    case UninstallEnds(e) => UninstallActs(s, e);
  }

  lemma SignalActs(s: State)
    ensures Signalled(s).acts == s.acts
  {
  }

  lemma InstallerActs(s: State, e: CallEnd)
    ensures InstallerEnded(s, e).acts == s.acts
  {
    hide OnSignal;
    OnSignalActs(s);
  }

  lemma OnSignalActs(s: State)
    ensures OnSignal(s).acts == s.acts
  {
  }

  lemma UninstallActs(s: State, e: CallEnd)
    ensures UninstallEnded(s, e).acts == s.acts
  {
  }

  /** A verdict that no signal loses is in flight or recorded, and freezes the rest. */
  lemma {:induction false} VerdictFreezes(ss: seq<State>, as_: seq<Action>, j: nat, k: nat)
    requires Run(ss, as_) && j < k < |ss| && Verdict(as_[j])
    requires forall m :: j < m < k ==> !Loses(ss[m], as_[m])
    ensures ss[k].acts == ss[j].acts && (ss[k].recorded || ss[k].pc.VerdictInFlight?)
    decreases k
  {
    hide Inv, Do, Enabled, Verdict, Loses;
    RunInv(ss, as_, k - 1);
    if j < k - 1 {
      VerdictFreezes(ss, as_, j, k - 1);
      HeldVerdictStep(ss[k - 1], as_[k - 1]);
    } else {
      VerdictLands(ss[j], as_[j]);
    }
  }

  lemma VerdictLands(s: State, a: Action)
    requires Inv(s) && Enabled(s, a) && Verdict(a)
    ensures var t := Do(s, a);
            t.acts == s.acts && (t.recorded || t.pc.VerdictInFlight?)
  {
  }

  lemma HeldVerdictStep(s: State, a: Action)
    requires Inv(s) && Enabled(s, a) && (s.recorded || s.pc.VerdictInFlight?) && !Loses(s, a)
    ensures var t := Do(s, a);
            t.acts == s.acts && (t.recorded || t.pc.VerdictInFlight?)
  {
  }

  /** Of every verdict: by the time the table is printed it is recorded and nothing
      was started or unlinked since, or a signal landed between it and its record
      and an installer was started again. */
  lemma VerdictOrThaw(ss: seq<State>, as_: seq<Action>, j: nat, k: nat)
    requires Run(ss, as_) && j < k < |ss| && Verdict(as_[j]) && ss[k].pc.Printed?
    ensures if forall m :: j < m < k ==> !Loses(ss[m], as_[m])
            then ss[k].recorded && ss[k].acts == ss[j].acts
            else |ss[k].acts| > |ss[j].acts|
  {
    hide Inv, Do, Enabled, Verdict, Loses;
    if m :| j < m < k && Loses(ss[m], as_[m]) {
      LostMeansThawed(ss, as_, m, k);
      ActsGrow(ss, as_, j, m);
    } else {
      VerdictFreezes(ss, as_, j, k);
    }
  }

  lemma {:induction false} ActsGrow(ss: seq<State>, as_: seq<Action>, j: nat, k: nat)
    requires Run(ss, as_) && j <= k < |ss|
    ensures |ss[j].acts| <= |ss[k].acts|
    decreases k
  {
    hide Do, Enabled;
    if j < k {
      ActsGrow(ss, as_, j, k - 1);
      ActsExactly(ss, as_, k - 1);
    }
  }

  ghost predicate Reaches(ss: seq<State>, as_: seq<Action>, s: State) { Run(ss, as_) && ss[|as_|] == s }

  lemma Then(ss: seq<State>, as_: seq<Action>, s: State, a: Action) returns (ts: seq<State>, bs: seq<Action>)
    requires Reaches(ss, as_, s) && Enabled(s, a)
    ensures Reaches(ts, bs, Do(s, a)) && ts == ss + [Do(s, a)] && bs == as_ + [a]
  {
    hide Do, Enabled;
    ts, bs := ss + [Do(s, a)], as_ + [a];
  }

  lemma ToTheVerdict() returns (ss: seq<State>, as_: seq<Action>, s: State)
    ensures Reaches(ss, as_, s)
            && s == Begin.(pc := VerdictInFlight, installed := 2, verdict := true, acts := [InstallerStarted])
  {
    ss, as_, s := [Begin], [], Begin;
    assert Reaches(ss, as_, s);
    hide Reaches;
    ss, as_ := Then(ss, as_, s, InstallHandler);
    s := Do(s, InstallHandler);
    ss, as_ := Then(ss, as_, s, InstallHandler);
    s := Do(s, InstallHandler);
    ss, as_ := Then(ss, as_, s, CallInstaller);
    s := Do(s, CallInstaller);
    ss, as_ := Then(ss, as_, s, InstallerEnds(NotStopped));
    s := Do(s, InstallerEnds(NotStopped));
  }

  /** ... and there it fails: this run uninstalls and unlinks beside an installer
      that was never shown stopped. */
  lemma LostVerdictThaws() returns (ss: seq<State>, as_: seq<Action>, j: nat)
    ensures Run(ss, as_) && j < |ss| && ss[j].verdict && !ss[|as_|].recorded
    ensures ss[|as_|].acts == ss[j].acts + [InstallerStarted, Unlinked]
  {
    var s;
    ss, as_, s := ToTheVerdict();
    j := |as_|;
    ghost var verdict := s;
    assert ss[j] == s && |ss| == j + 1;
    hide Reaches;
    ss, as_ := Then(ss, as_, s, Signal);
    s := Do(s, Signal);
    ss, as_ := Then(ss, as_, s, Flag);
    s := Do(s, Flag);
    ss, as_ := Then(ss, as_, s, InstallMissing);
    s := Do(s, InstallMissing);
    ss, as_ := Then(ss, as_, s, Note);
    s := Do(s, Note);
    ss, as_ := Then(ss, as_, s, BeginTeardown);
    s := Do(s, BeginTeardown);
    ss, as_ := Then(ss, as_, s, UninstallEnds(Plain));
    s := Do(s, UninstallEnds(Plain));
    ss, as_ := Then(ss, as_, s, Unlink);
    s := Do(s, Unlink);
    assert ss[j] == verdict;
    ReachedIs(ss, as_, s);
  }

  lemma ReachedIs(ss: seq<State>, as_: seq<Action>, s: State)
    requires Reaches(ss, as_, s)
    ensures Run(ss, as_) && |ss| == |as_| + 1 && ss[|as_|] == s
  {
  }
}
