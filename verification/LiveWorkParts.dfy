/** The updates that the segments in LiveWork.dfy are made of, as values, and
    which futures a segment finds unused. */
module LiveWorkParts {
  import opened Wrappers
  import opened Lifecycle
  import opened LifecycleInvariant

  function Marked(ledger: map<Key, Work>, ids: set<nat>): map<Key, Work> {
    map k | k in ledger :: if k.Task? && k.id in ids then ledger[k].(stuck := true) else ledger[k]
  }

  function WorkedOn(s: Lifecycle.Server, tasks: map<nat, TaskInfo>, ledger: map<Key, Work>): Lifecycle.Server {
    s.(tasks := tasks, ledger := ledger)
  }

  /** `_cancel_sessions` half way. */
  function PartlyCancelled(s: Lifecycle.Server, ids: set<nat>): Lifecycle.Server {
    WorkedOn(s, Cancel(s.tasks, ids), Marked(s.ledger, ids))
  }

  function NewEntry(ledger: map<Key, Work>, k: Key, kind: Kind, stuck: bool, closesOrphan: bool,
      name: Option<string>): Work {
    var w := if k in ledger then ledger[k] else Work(kind, false, false, name);
    w.(stuck := w.stuck || stuck, closesOrphan := w.closesOrphan || closesOrphan)
  }

  lemma TrackedIs(s: Lifecycle.Server, k: Key, kind: Kind, stuck: bool, closesOrphan: bool, name: Option<string>)
    requires !IsDone(s, k)
    ensures Tracked(s, k, kind, stuck, closesOrphan, name)
         == s.ledger[k := NewEntry(s.ledger, k, kind, stuck, closesOrphan, name)]
  {
  }

  lemma TrackIs(s: Lifecycle.Server, k: Key, kind: Kind, stuck: bool, closesOrphan: bool, name: Option<string>)
    requires !IsDone(s, k)
    ensures Lifecycle.Track(s, k, kind, stuck, closesOrphan, name)
         == WorkedOn(s, s.tasks, s.ledger[k := NewEntry(s.ledger, k, kind, stuck, closesOrphan, name)])
  {
    hide Tracked, NewEntry;
    TrackedIs(s, k, kind, stuck, closesOrphan, name);
  }

  lemma FailClosedIs(s: Lifecycle.Server, k: Key)
    requires k in s.ledger
    ensures FailClosed(s, k) == WorkedOn(s, s.tasks, s.ledger[k := s.ledger[k].(stuck := true, closesOrphan := false)])
  {
  }

  lemma AllCancelledIs(s: Lifecycle.Server)
    ensures Lifecycle.CancelSessions(s) == PartlyCancelled(s, LiveSessions(s))
  {
    hide LiveSessions, Cancel;
  }

  lemma SessionsAreEntries(s: Lifecycle.Server)
    ensures forall id :: id in LiveSessions(s) ==> Task(id) in s.ledger
  {
  }

  lemma NobodyYet(tasks: map<nat, TaskInfo>, ledger: map<Key, Work>)
    ensures forall live: set<nat> :: Cancel(tasks, live - live) == tasks && Marked(ledger, live - live) == ledger
  {
    forall live: set<nat>
      ensures Cancel(tasks, live - live) == tasks && Marked(ledger, live - live) == ledger
    {
      assert live - live == {};
    }
  }

  lemma MarkedKeys(ledger: map<Key, Work>, ids: set<nat>)
    ensures forall k :: k in Marked(ledger, ids) <==> k in ledger
  {
  }

  lemma CancelMore(tasks: map<nat, TaskInfo>, done: set<nat>, id: nat)
    ensures var c := Cancel(tasks, done);
            Cancel(tasks, done + {id}) == if id in c then c[id := c[id].(cancelled := true)] else c
  {
  }

  lemma MarkMore(ledger: map<Key, Work>, done: set<nat>, id: nat)
    requires Task(id) in ledger
    ensures var m := Marked(ledger, done);
            Task(id) in m && Marked(ledger, done + {id}) == m[Task(id) := m[Task(id)].(stuck := true)]
  {
  }

  function Freed(s: Lifecycle.Server, to: State): Lifecycle.Server { s.(state := to, lock := false) }

  function ListenerCleared(s: Lifecycle.Server): Lifecycle.Server { s.(listenerSlot := false, boundInode := None) }

  function TasksCleared(s: Lifecycle.Server): Lifecycle.Server {
    s.(closeSlot := false, stopSlot := false, shutdownEvent := false)
  }

  function Unlocked(s: Lifecycle.Server): Lifecycle.Server { s.(unlocked := true) }

  function EnteredOther(s: Lifecycle.Server, to: State): Lifecycle.Server { s.(state := to, unlocked := false) }

  lemma EnteredIs(s: Lifecycle.Server, to: State)
    ensures Entered(s, true, true, to) ==
            if to.New? then Unlocked(TasksCleared(ListenerCleared(Freed(s, to))))
            else if to.Stopped? then Unlocked(Freed(s, to)) else EnteredOther(s, to)
  {
  }

  lemma EnteredKeepsWork(s: Lifecycle.Server, legal: bool, to: State)
    ensures Entered(s, true, legal, to).ledger == s.ledger
  {
  }

  function Asked(s: Lifecycle.Server): Lifecycle.Server { s.(past := s.past.(drained := true, idleSeen := false)) }

  function NotHandedOver(s: Lifecycle.Server): Lifecycle.Server {
    s.(past := s.past.(drained := true, missed := s.past.missed || s.past.threads != {}))
  }

  lemma HandedOverIs(s: Lifecycle.Server, idle: bool)
    ensures Lifecycle.HandOverThreads(s, idle) ==
            if idle then TrackNew(Asked(s), IdleFuture, ThreadKind, true, None) else NotHandedOver(s)
  {
  }

  lemma NoMove(s: Lifecycle.Server, to: State)
    ensures TransitionIf(s, false, to) == s
  {
  }

  predicate LegalMove(from: State, to: State)
    ensures LegalMove(from, to) == Legal(from, to)
  {
    match from
    case New => to in {Starting, Stopped}
    case Starting => to in {Running, New, Stopping}
    case Running => to in {Stopping}
    case Stopping => to in {Stopped}
    case Stopped => false
  }

  // ---------------------------------------------------------------- unused futures

  /** The backend's close, when it has not begun, and the hook's future are not
      in the ledger: a drain that is under way may create them. */
  ghost predicate Unused(s: Server) {
    (!s.closeSlot ==> CloseTask !in s.ledger) && IdleFuture !in s.ledger
  }

  lemma CloseListenerUnused(s: Server)
    requires Unused(s)
    ensures Unused(Lifecycle.CloseListener(s))
  {
    hide BeginListenerClose;
    BeginListenerCloseIs(s, false);
  }

  lemma EnterDrainUnused(s: Server)
    requires Unused(s) && (s.listenerSlot ==> Closer !in s.ledger)
    ensures var t := Lifecycle.EnterDrain(s); Unused(t) && (t.listenerSlot ==> Closer !in t.ledger)
  {
  }

  lemma LingerUnused(s: Server)
    requires Unused(s)
    ensures Unused(Lifecycle.Linger(s, Closer, ListenerCloseKind))
    ensures s.closeSlot ==> Unused(Lifecycle.Linger(s, CloseTask, CloseKind))
  {
  }

  lemma SetUnwindingUnused(s: Server, backendStarted: bool)
    requires Unused(s) && (s.listenerSlot ==> Closer !in s.ledger)
    ensures var t := SetUnwinding(s, backendStarted); Unused(t) && (t.listenerSlot ==> Closer !in t.ledger)
  {
  }

  lemma BackendUpUnused(s: Server)
    requires Unused(s) && !s.listenerSlot && BindTask !in s.ledger
    ensures var t := BackendUp(s); Unused(t) && !t.listenerSlot && BindTask !in t.ledger && t.state == s.state
  {
  }

  lemma AdoptIfBoundUnused(s: Server, seen: Option<nat>)
    requires Unused(s) && Closer !in s.ledger
    ensures var t := Lifecycle.AdoptIfBound(s, seen); Unused(t) && Closer !in t.ledger
  {
  }

  lemma TrackOrphanUnused(s: Server)
    requires Unused(s) && Closer !in s.ledger
    ensures var t := Lifecycle.Track(s, BindTask, BindKind, true, true, None); Unused(t) && Closer !in t.ledger
  {
  }

  lemma DoneTracksNothing(s: Server, k: Key, kind: Kind, stuck: bool, name: Option<string>)
    ensures IsDone(s, k) ==> Lifecycle.Track(s, k, kind, stuck, false, name) == s
  {
  }

  lemma NothingSeen(s: Server)
    ensures Record(s, None) == s
  {
  }

  /** What each segment finds unused. */
  lemma StartFindsUnused(s: Server)
    requires Inv(s)
    ensures StartGoesOn(s) ==> Unused(s) && Closer !in s.ledger && !s.listenerSlot
    ensures s.start.AwaitBackend? || s.start.Acquiring? ==> BindTask !in s.ledger
  {
    assert Owed(s, Closer) && Owed(s, CloseTask) && Owed(s, IdleFuture);
  }

  lemma StopFindsUnused(s: Server)
    requires Inv(s)
    ensures !s.drain.NoDrain? ==> Unused(s)
    ensures s.drain.Scheduled? ==> Closer !in s.ledger
    ensures s.state.Running? ==> StopTask !in s.ledger
    ensures s.drain.WaitBackendClose? ==> s.closeSlot
  {
    assert Owed(s, Closer) && Owed(s, CloseTask) && Owed(s, IdleFuture) && Owed(s, StopTask);
  }

  lemma WorkFindsUnused(s: Server, a: Action)
    requires Inv(s)
    ensures forall k :: k in s.ledger && s.ledger[k].closesOrphan ==> Closer !in s.ledger
    ensures a.Adopt? && Adopted(a.id) !in s.futs ==> Adopted(a.id) !in s.ledger
  {
    assert Owed(s, Closer);
    if a.Adopt? { assert Owed(s, Adopted(a.id)); }
  }
}
