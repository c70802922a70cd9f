/** Any number of servers and preflight probes over one socket path: one
    `flock` table and one socket file. */
module LockTable {
  import opened Wrappers
  import opened Lifecycle
  import opened LifecycleInvariant
  import opened LockSteps
  import D = DecodeThreads

  /** The file at the socket path; `maker` is the server that bound it. A
      filesystem may give a new file the inode of a removed one. */
  datatype Node = Node(inode: nat, maker: nat)

  /** `holder` is the exclusive `flock`, `probes` the shared ones. */
  datatype World = World(servers: map<nat, Server>, holder: Option<nat>, probes: set<nat>, path: Option<Node>)

  const Empty := World(map[], None, {}, None)

  datatype Event =
    | NewServer(i: nat)
    | Step(i: nat, a: Action, inode: nat)
    | ProbeTaken(p: nat)
    | ProbeReleased(p: nat)
    | AbortCall(i: nat)      // `abort_sync`, called by anyone at any time
    | HardExit(i: nat)       // `serve` during a step: `abort_sync`, then the kernel ends the process
    | ProcessDied(i: nat)
    | PathRemoved            // by someone else

  /** What a stat of the socket path may answer. */
  predicate StatOf(w: World, seen: Option<nat>) { seen == None || (w.path.Some? && seen == Some(w.path.value.inode)) }

  function Seen(a: Action): Option<nat> {
    match a
    case BindFinished(_, seen) => seen
    case StartResumed(seen) => seen
    case StartCancelled(seen) => seen
    case CallbackRan(_, _, seen) => seen
    case _ => None
  }

  /** The kernel grants the exclusive lock only when nobody holds any lock,
      and a shared one only when nobody holds the exclusive one. The `idle()` hook
      answers truly. */
  predicate Possible(w: World, e: Event) {
    match e
    case NewServer(i) => i !in w.servers
    case Step(i, a, _) =>
      && i in w.servers && Enabled(w.servers[i], a)
      && (a.LockTaken? ==> w.holder == None && w.probes == {})
      && StatOf(w, Seen(a)) && D.Answers(w.servers[i], a)
    case ProbeTaken(p) => p !in w.probes && w.holder == None
    case ProbeReleased(p) => p in w.probes
    case AbortCall(i) => i in w.servers
    case HardExit(i) => i in w.servers && !w.servers[i].state.Stopped? // its start has not ended, or it is RUNNING
    case ProcessDied(i) => i in w.servers
    case PathRemoved => true
  }

  /** `_unlink_own_socket`. */
  function Unlink(path: Option<Node>, bound: Option<nat>): Option<Node> {
    if path.Some? && bound == Some(path.value.inode) then None else path
  }

  /** A bind replaces the socket file; a listener close unlinks it. */
  function PathAfter(w: World, i: nat, a: Action, s: Server, t: Server, inode: nat): Option<Node> {
    if a.SocketBound? then Some(Node(inode, i))
    else if s.sock.Serving? && t.sock.Closing? then Unlink(w.path, t.boundInode)
    else w.path
  }

  function HolderAfter(w: World, i: nat, t: Server): Option<nat> {
    if t.lock then Some(i) else if w.holder == Some(i) then None else w.holder
  }

  function ServerStep(w: World, i: nat, a: Action, inode: nat): World
    requires i in w.servers && Enabled(w.servers[i], a)
  {
    var t := Do(w.servers[i], a);
    World(w.servers[i := t], HolderAfter(w, i, t), w.probes, PathAfter(w, i, a, w.servers[i], t, inode))
  }

  function Gone(w: World, i: nat): World {
    w.(servers := w.servers - {i}, holder := if w.holder == Some(i) then None else w.holder)
  }

  function Next(w: World, e: Event): World
    requires Possible(w, e)
  {
    match e
    case NewServer(i) => w.(servers := w.servers[i := Initial])
    case Step(i, a, inode) => ServerStep(w, i, a, inode)
    case ProbeTaken(p) => w.(probes := w.probes + {p})
    case ProbeReleased(p) => w.(probes := w.probes - {p})
    case AbortCall(i) => w.(path := Unlink(w.path, w.servers[i].boundInode))
    case HardExit(i) => Gone(w, i).(path := Unlink(w.path, w.servers[i].boundInode))
    case ProcessDied(i) => Gone(w, i)
    case PathRemoved => w.(path := None)
  }

  /** A run of the whole table from nothing. */
  ghost predicate Run(ws: seq<World>, es: seq<Event>) {
    && |ws| == |es| + 1 && ws[0] == Empty
    && forall k :: 0 <= k < |es| ==> Possible(ws[k], es[k]) && ws[k + 1] == Next(ws[k], es[k])
  }

  // ---------------------------------------------------------------- the invariant

  predicate NoSocketNoRecord(s: Server) {
    s.sock.NoSock? || (!s.lock && Adoptable(s.state)) ==> Unbound(s)
  }

  ghost predicate ServerFits(w: World, i: nat, s: Server) {
    && Inv(s)
    && (s.lock <==> w.holder == Some(i)) && !s.past.missed
    && NoSocketNoRecord(s)
    && (s.lock && !s.sock.NoSock? && w.path.Some? ==> w.path.value.maker == i)
  }

  ghost predicate WorldInv(w: World) {
    && (forall i :: i in w.servers ==> ServerFits(w, i, w.servers[i]))
    && (w.holder.Some? ==> w.holder.value in w.servers && w.probes == {})
  }

  /** What one step does to its own server's lock and socket. */
  predicate LockFacts(s: Server, a: Action, t: Server) {
    && (t.lock && !s.lock ==> a.LockTaken?)
    && (s.lock && !t.lock ==> Frees(t.state))
    && NoSocketNoRecord(t)
    && (a.SocketBound? ==> s.lock)
    && (t.lock && !t.sock.NoSock? ==> a.SocketBound? || (s.lock && !s.sock.NoSock?))
  }

  lemma KeptFacts(s: Server, a: Action, t: Server)
    requires Kept(s, t) && NoSocketNoRecord(s) && !a.SocketBound?
    ensures LockFacts(s, a, t)
  {
  }

  lemma StepFacts(s: Server, a: Action)
    requires Inv(s) && Enabled(s, a) && NoSocketNoRecord(s)
    ensures LockFacts(s, a, Do(s, a))
  {
    hide Inv, Do, Enabled, NoSocketNoRecord, Kept, LockFacts;
    if Odd(a) { OddStepFacts(s, a); }
    else {
      StepKept(s, a);
      KeptFacts(s, a, Do(s, a));
    }
  }

  lemma OddStepFacts(s: Server, a: Action)
    requires Inv(s) && Enabled(s, a) && NoSocketNoRecord(s) && Odd(a)
    ensures LockFacts(s, a, Do(s, a))
  {
  }

  /** A step that keeps the invariant and changes lock and socket like that
      fits into the table. */
  lemma MoverFits(w: World, i: nat, a: Action, inode: nat, t: Server)
    requires WorldInv(w) && Possible(w, Step(i, a, inode)) && Inv(t) && LockFacts(w.servers[i], a, t) && !t.past.missed
    ensures ServerFits(World(w.servers[i := t], HolderAfter(w, i, t), w.probes,
            PathAfter(w, i, a, w.servers[i], t, inode)), i, t)
  {
    hide Inv, Enabled;
    assert ServerFits(w, i, w.servers[i]);
  }

  lemma OthersFit(w: World, i: nat, a: Action, inode: nat, t: Server, j: nat)
    requires WorldInv(w) && Possible(w, Step(i, a, inode)) && LockFacts(w.servers[i], a, t)
    requires j in w.servers && j != i
    ensures ServerFits(World(w.servers[i := t], HolderAfter(w, i, t), w.probes,
            PathAfter(w, i, a, w.servers[i], t, inode)),
                       j, w.servers[j])
  {
    hide Inv, Enabled, Unbound;
    assert ServerFits(w, j, w.servers[j]) && ServerFits(w, i, w.servers[i]);
  }

  lemma ServerStepFits(w: World, i: nat, a: Action, inode: nat)
    requires WorldInv(w) && Possible(w, Step(i, a, inode))
    ensures var x := ServerStep(w, i, a, inode);
            forall j :: j in x.servers ==> ServerFits(x, j, x.servers[j])
  {
    var t := Do(w.servers[i], a);
    assert ServerFits(w, i, w.servers[i]);
    hide Inv, Do, Enabled, LockFacts, NoSocketNoRecord;
    StepInv(w.servers[i], a);
    StepFacts(w.servers[i], a);
    D.StepFollows(w.servers[i], a);
    MoverFits(w, i, a, inode, t);
    forall j | j in w.servers && j != i
      ensures ServerFits(ServerStep(w, i, a, inode), j, w.servers[j])
    {
      OthersFit(w, i, a, inode, t, j);
    }
    hide ServerFits, PathAfter, HolderAfter;
  }

  lemma LockHolderIsThere(w: World, i: nat, a: Action, inode: nat)
    requires WorldInv(w) && Possible(w, Step(i, a, inode))
    ensures var x := ServerStep(w, i, a, inode);
            x.holder.Some? ==> x.holder.value in x.servers && x.probes == {}
  {
    hide Inv, Do, Enabled, NoSocketNoRecord;
    assert ServerFits(w, i, w.servers[i]);
    StepFacts(w.servers[i], a);
  }

  lemma NextInv(w: World, e: Event)
    requires WorldInv(w) && Possible(w, e)
    ensures WorldInv(Next(w, e))
  {
    hide WorldInv, Possible, Next;
    match e
    case Step(i, a, inode) => StepWorldInv(w, i, a, inode);
    case NewServer(i) => NewServerInv(w, i);
    case _ => OtherNextInv(w, e);
  }

  lemma StepWorldInv(w: World, i: nat, a: Action, inode: nat)
    requires WorldInv(w) && Possible(w, Step(i, a, inode))
    ensures WorldInv(Next(w, Step(i, a, inode)))
  {
    hide ServerFits, ServerStep, Enabled;
    ServerStepFits(w, i, a, inode);
    LockHolderIsThere(w, i, a, inode);
  }

  lemma NewServerInv(w: World, i: nat)
    requires WorldInv(w) && Possible(w, NewServer(i))
    ensures WorldInv(Next(w, NewServer(i)))
  {
    hide Inv;
    InitialInv();
  }

  lemma OtherNextInv(w: World, e: Event)
    requires WorldInv(w) && Possible(w, e) && !e.Step? && !e.NewServer?
    ensures WorldInv(Next(w, e))
  {
    hide Inv, NoSocketNoRecord;
  }

  /** Every world of every run fits. */
  lemma {:induction false} RunInv(ws: seq<World>, es: seq<Event>, k: nat)
    requires Run(ws, es) && k < |ws|
    ensures WorldInv(ws[k])
  {
    if k > 0 {
      RunInv(ws, es, k - 1);
      hide WorldInv, Possible, Next;
      NextInv(ws[k - 1], es[k - 1]);
    }
  }

  // ---------------------------------------------------------------- main results

  /** A server at work: a bind, an open listener or one whose close has not
      finished, a session or decode task, a backend close, or a decode thread
      (but see AfterDrain.dfy for one marked after the drain). */
  ghost predicate Busy(s: Server) {
    || BindTask in s.ledger || Listener in s.ledger || Closer in s.ledger || CloseTask in s.ledger
    || s.sock.Serving? || s.sock.Closing?
    || s.tasks != map[]
    || (exists id {:trigger Task(id)} :: Task(id) in s.ledger)
    || (s.past.threads != {} && !s.past.late)
  }

  lemma BusyHoldsTheLock(s: Server)
    requires Inv(s) && Busy(s) && !s.past.missed
    ensures s.lock
  {
    if id :| id in s.tasks { TasksHoldTheLock(s, id); }
  }

  /** At every instant of every run at most one server is at work. */
  lemma AtMostOneBusy(ws: seq<World>, es: seq<Event>, k: nat, i: nat, j: nat)
    requires Run(ws, es) && k < |ws|
    requires i in ws[k].servers && j in ws[k].servers && Busy(ws[k].servers[i]) && Busy(ws[k].servers[j])
    ensures i == j
  {
    hide Inv, Busy, Possible, Next, Run;
    RunInv(ws, es, k);
    BusyHoldsTheLock(ws[k].servers[i]);
    BusyHoldsTheLock(ws[k].servers[j]);
  }

  /** A lock once taken is given up only by a step of its own server that ends
      with an empty ledger in NEW or STOPPED (or with the process). */
  lemma LockGivenUpOnlyWhenIdle(ws: seq<World>, es: seq<Event>, k: nat, i: nat)
    requires Run(ws, es) && k < |es|
    requires ws[k].holder == Some(i) && ws[k + 1].holder != Some(i)
    ensures || es[k] == HardExit(i) || es[k] == ProcessDied(i)
            || (es[k].Step? && es[k].i == i && i in ws[k + 1].servers
                && Frees(ws[k + 1].servers[i].state) && ws[k + 1].servers[i].ledger == map[])
  {
    hide Inv, Do, Enabled, NoSocketNoRecord;
    RunInv(ws, es, k);
    if es[k].Step? { ReleasedWhenIdle(ws[k], es[k].i, es[k].a, es[k].inode); }
  }

  lemma ReleasedWhenIdle(w: World, i: nat, a: Action, inode: nat)
    requires WorldInv(w) && Possible(w, Step(i, a, inode))
    ensures var h := ServerStep(w, i, a, inode).holder;
            w.holder.Some? && h != w.holder ==>
              w.holder == Some(i) && Frees(Do(w.servers[i], a).state) && Do(w.servers[i], a).ledger == map[]
  {
    hide Inv, Do, Enabled, NoSocketNoRecord;
    var t := Do(w.servers[i], a);
    assert ServerFits(w, i, w.servers[i]);
    StepFacts(w.servers[i], a);
    StepInv(w.servers[i], a);
    EmptyWhenFree(t);
  }

  lemma EmptyWhenFree(s: Server)
    requires Inv(s)
    ensures Frees(s.state) ==> s.ledger == map[]
    ensures s.state.New? ==> s.boundInode == None
  {
  }

  /** The file at the path is not the socket that the server bound, but has the
      inode that it recorded. */
  predicate Reused(w: World, i: nat)
    requires i in w.servers
  {
    w.path.Some? && w.path.value.maker != i && w.servers[i].boundInode == Some(w.path.value.inode)
  }

  /** A recorded inode can only mislead a STOPPED server. */
  lemma ReusedMeansStopped(w: World, i: nat)
    requires WorldInv(w) && i in w.servers && Reused(w, i)
    ensures w.servers[i].state.Stopped?
  {
    var s := w.servers[i];
    assert ServerFits(w, i, s);
    EmptyWhenFree(s);
    hide Inv;
  }

  /** A call of `abort_sync` removes somebody else's socket exactly when its server
      is STOPPED and the inode that it recorded was given to that socket. */
  lemma AbortUnsafeIff(ws: seq<World>, es: seq<Event>, k: nat, i: nat)
    requires Run(ws, es) && k < |es| && es[k] == AbortCall(i)
    ensures (ws[k].path.Some? && ws[k + 1].path == None && ws[k].path.value.maker != i) <==>
              ws[k].servers[i].state.Stopped? && Reused(ws[k], i)
  {
    hide WorldInv;
    RunInv(ws, es, k);
    if Reused(ws[k], i) { ReusedMeansStopped(ws[k], i); }
  }

  /** A server unlinks the file at the socket path only when it is the socket
      that this server bound, whatever inodes were reused, but for that call. */
  lemma OnlyOwnSocketUnlinked(ws: seq<World>, es: seq<Event>, k: nat)
    requires Run(ws, es) && k < |es| && ws[k].path.Some? && ws[k + 1].path == None
    ensures || es[k].PathRemoved?
            || ((es[k].Step? || es[k].HardExit? || es[k].AbortCall?) && ws[k].path.value.maker == es[k].i)
            || (es[k].AbortCall? && ws[k].servers[es[k].i].state.Stopped? && Reused(ws[k], es[k].i))
  {
    RunInv(ws, es, k);
    match es[k]
    case Step(i, a, _) =>
      var s := ws[k].servers[i];
      assert ServerFits(ws[k], i, s);
      if s.sock.Serving? { ServingHoldsTheLock(s); }
      hide Inv, Do, Enabled, Unbound;
    case HardExit(i) =>
      hide WorldInv;
      if Reused(ws[k], i) { ReusedMeansStopped(ws[k], i); }
    case AbortCall(i) =>
      hide WorldInv;
      if Reused(ws[k], i) { ReusedMeansStopped(ws[k], i); }
    case _ =>
  }

  /** While a server's socket serves, no other server's step removes or
      replaces the file, but for that call. */
  lemma ServingSocketStays(ws: seq<World>, es: seq<Event>, k: nat, i: nat)
    requires Run(ws, es) && k < |es|
    requires i in ws[k].servers && ws[k].servers[i].sock.Serving? && ws[k + 1].path != ws[k].path
    ensures || es[k].PathRemoved? || ((es[k].Step? || es[k].HardExit? || es[k].AbortCall?) && es[k].i == i)
            || (es[k].AbortCall? && ws[k].servers[es[k].i].state.Stopped? && Reused(ws[k], es[k].i))
  {
    RunInv(ws, es, k);
    var s := ws[k].servers[i];
    assert ServerFits(ws[k], i, s);
    ServingHoldsTheLock(s);
    match es[k]
    case Step(j, a, _) =>
      var t := ws[k].servers[j];
      assert ServerFits(ws[k], j, t);
      if t.sock.Serving? { ServingHoldsTheLock(t); }
      hide Inv, Do, Enabled, NoSocketNoRecord;
      StepFacts(t, a);
    case HardExit(j) => if Reused(ws[k], j) { ReusedMeansStopped(ws[k], j); }
    case AbortCall(j) => if Reused(ws[k], j) { ReusedMeansStopped(ws[k], j); }
    case _ =>
  }

  // ---------------------------------------------------------------- its own file goes

  /** Once its listener's close has begun, the file that a server made is not at the
      path with the inode that it recorded. */
  ghost predicate OwnFileGone(w: World, i: nat, s: Server) {
    CloseBegun(s.sock) && w.path.Some? && w.path.value.maker == i ==> s.boundInode != Some(w.path.value.inode)
  }

  ghost predicate OwnFilesGone(w: World) { forall i :: i in w.servers ==> OwnFileGone(w, i, w.servers[i]) }

  /** What one step does to the socket and its record. */
  predicate CloseFacts(s: Server, t: Server) {
    && (CloseBegun(t.sock) && CloseBegun(s.sock) ==> t.boundInode == s.boundInode || t.boundInode == None)
    && (CloseBegun(t.sock) && !CloseBegun(s.sock) ==> s.sock.Serving? && t.sock.Closing?)
  }

  lemma KeptCloses(s: Server, t: Server)
    requires Kept(s, t) && NoSocketNoRecord(s)
    ensures CloseFacts(s, t)
  {
  }

  lemma OddStepCloses(s: Server, a: Action)
    requires Inv(s) && Enabled(s, a) && Odd(a)
    ensures CloseFacts(s, Do(s, a))
  {
    hide Futures;
  }

  lemma StepCloses(s: Server, a: Action)
    requires Inv(s) && Enabled(s, a) && NoSocketNoRecord(s)
    ensures CloseFacts(s, Do(s, a))
  {
    hide Inv, Do, Enabled, NoSocketNoRecord, Kept, CloseFacts;
    if Odd(a) { OddStepCloses(s, a); }
    else {
      StepKept(s, a);
      KeptCloses(s, Do(s, a));
    }
  }

  lemma StepRemoves(w: World, i: nat, a: Action, inode: nat)
    requires WorldInv(w) && OwnFilesGone(w) && Possible(w, Step(i, a, inode))
    ensures OwnFilesGone(ServerStep(w, i, a, inode))
  {
    hide Inv, Do, Enabled;
    var s, t := w.servers[i], Do(w.servers[i], a);
    assert ServerFits(w, i, s);
    StepCloses(s, a);
    SocketBoundServes(s, a);
    forall j | j in ServerStep(w, i, a, inode).servers
      ensures OwnFileGone(ServerStep(w, i, a, inode), j, ServerStep(w, i, a, inode).servers[j])
    {
      if j in w.servers { assert OwnFileGone(w, j, w.servers[j]); }
    }
  }

  lemma SocketBoundServes(s: Server, a: Action)
    requires Enabled(s, a)
    ensures a.SocketBound? ==> Do(s, a).sock.Serving?
  {
  }

  lemma NextRemoves(w: World, e: Event)
    requires WorldInv(w) && OwnFilesGone(w) && Possible(w, e)
    ensures OwnFilesGone(Next(w, e))
  {
    hide WorldInv, ServerStep;
    if e.Step? { StepRemoves(w, e.i, e.a, e.inode); }
  }

  /** Over every run: a listener's close takes its file away. Whenever a server's
      close has begun, the socket file that it bound and recorded is gone. */
  lemma OwnSocketRemoved(ws: seq<World>, es: seq<Event>, k: nat, i: nat)
    requires Run(ws, es) && k < |ws| && i in ws[k].servers && CloseBegun(ws[k].servers[i].sock)
    ensures ws[k].path.Some? && ws[k].path.value.maker == i ==>
              ws[k].servers[i].boundInode != Some(ws[k].path.value.inode)
  {
    hide WorldInv, Possible, Next;
    OwnFilesGoneAt(ws, es, k);
    assert OwnFileGone(ws[k], i, ws[k].servers[i]);
  }

  lemma {:induction false} OwnFilesGoneAt(ws: seq<World>, es: seq<Event>, k: nat)
    requires Run(ws, es) && k < |ws|
    ensures OwnFilesGone(ws[k])
  {
    hide WorldInv, Possible, Next;
    if k > 0 {
      OwnFilesGoneAt(ws, es, k - 1);
      RunInv(ws, es, k - 1);
      NextRemoves(ws[k - 1], es[k - 1]);
    }
  }

  /** And what a bind saw at the path is what the server records. */
  lemma BindRecords(s: Server, inode: nat)
    requires Enabled(s, BindFinished(true, Some(inode)))
    ensures Do(s, BindFinished(true, Some(inode))).boundInode == Some(inode)
  {
  }

  /** What an open of the lock file found. */
  datatype LockFile = Denied | Unopenable | Opened(regular: bool, owned: bool, private_: bool)

  predicate Plain(file: LockFile) { file.Opened? && file.regular && file.owned }

  /** The preflight probe answers "held" exactly when the file is a plain one of
      ours and the kernel refuses the shared lock. */
  predicate ProbeSaysHeld(w: World, file: LockFile) { Plain(file) && w.holder.Some? }

  /** "Held" means that a server is starting, running or stopping; "not held" of
      a plain lock file means that no server is at work. */
  lemma ProbeIsRight(ws: seq<World>, es: seq<Event>, k: nat, file: LockFile)
    requires Run(ws, es) && k < |ws|
    ensures ProbeSaysHeld(ws[k], file) ==>
              exists i :: i in ws[k].servers && ws[k].servers[i].lock && Adoptable(ws[k].servers[i].state)
    ensures Plain(file) && !ProbeSaysHeld(ws[k], file) ==> forall i :: i in ws[k].servers ==> !Busy(ws[k].servers[i])
    ensures !Plain(file) ==> !ProbeSaysHeld(ws[k], file)
  {
    hide Inv, Busy;
    RunInv(ws, es, k);
    forall i | i in ws[k].servers && Busy(ws[k].servers[i])
      ensures ws[k].holder.Some?
    {
      BusyHoldsTheLock(ws[k].servers[i]);
    }
    if ws[k].holder.Some? {
      var i := ws[k].holder.value;
      assert ServerFits(ws[k], i, ws[k].servers[i]);
      LockOnlyWhileUp(ws[k].servers[i]);
    }
  }

  lemma LockOnlyWhileUp(s: Server)
    requires Inv(s) && s.lock
    ensures Adoptable(s.state)
  {
  }

  // ---------------------------------------------------------------- taking the lock

  /** What one non-blocking `flock` answers. */
  datatype Try = Granted | Contended | Broken

  datatype LockResult = Held | InUse | NotAllowed | Failed

  /** `acquire_socket_lock`: a file that may not be opened, or is not a plain one
      of ours, is refused before any try, and its mode is made private; then the
      retry loop, for `retry` ticks. A probe that holds the lock for an instant
      does not make a starter fail; EADDRINUSE means that every try of the whole
      bound was contended. */
  method AcquireSocketLock(file: LockFile, retry: nat)
      returns (r: LockResult, tries: seq<Try>, elapsed: nat, chmods: bool)
    ensures tries == [] <==> !Plain(file)
    ensures tries == [] ==> r == if file.Unopenable? then Failed else NotAllowed
    ensures forall i :: 0 <= i < |tries| - 1 ==> tries[i] == Contended
    ensures tries != [] ==>
              && !r.NotAllowed?
              && (r.Held? <==> tries[|tries| - 1] == Granted)
              && (r.Failed? <==> tries[|tries| - 1] == Broken)
              && (r.InUse? ==> elapsed >= retry)
    ensures chmods <==> Plain(file) && !file.private_
  {
    tries, elapsed, chmods := [], 0, false;
    if file.Denied? { r := NotAllowed; return; }
    if file.Unopenable? { r := Failed; return; }
    if !(file.regular && file.owned) { r := NotAllowed; return; }
    if !file.private_ { chmods := true; }
    var now := 0;
    while true
      invariant forall i :: 0 <= i < |tries| ==> tries[i] == Contended
      decreases if now <= retry then retry + 1 - now else 0
    {
      var answer: Try := *;
      tries, elapsed := tries + [answer], now;
      if answer == Granted { r := Held; return; }
      if answer == Broken { r := Failed; return; }
      if now >= retry { r := InUse; return; }
      var slept: int := *;
      now := now + 1 + if slept > 0 then slept else 0;
    }
  }
}
