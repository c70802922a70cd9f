/** Decode threads of one backend: the asyncio lock, the thread lock, the
    in-flight counter and the `idle()` futures, over any number of streams. */
module DecodeGuard {
  import opened Wrappers

  /** Where a stream's `end()` is. */
  datatype EndPc = NotEnding | WaitsForLoopLock | AwaitsThread | Over

  /** Where its daemon thread is: marked in flight in `Before`, `Inside` (the
      thread lock) and `After`. */
  datatype ThreadPc = NoThread | Before | Inside | After | Gone

  /** `watchesCancel`: a stream whose thread reads the cancel event under the
      thread lock (kyutai); the others do not look. */
  datatype Stream = Stream(watchesCancel: bool, ended: bool, cancelled: bool, end: EndPc, thread: ThreadPc)

  datatype Waiter = Waiting | Saw | Resolved | TimedOut

  datatype Backend = Backend(
    streams: map<nat, Stream>,
    loopLock: Option<nat>,
    threadLock: Option<nat>,
    count: int,
    waiters: map<nat, Waiter>)

  const Fresh := Backend(map[], None, None, 0, map[])

  datatype Event =
    | Open(i: nat, watchesCancel: bool)
    | EndCall(i: nat)
    | LoopLockGranted(i: nat, starts: bool)
    | AwaiterCancelled(i: nat)
    | ResultDelivered(i: nat)
    | Cancel(i: nat)
    | ThreadSkips(i: nat)
    | ThreadTakesLock(i: nat)
    | ThreadLeaves(i: nat)
    | ThreadEnds(i: nat)
    | WaitCall(w: nat)
    | WaiterSees(w: nat)
    | WaiterResolves(w: nat)
    | WaiterGivesUp(w: nat)

  predicate InFlight(pc: ThreadPc) { pc.Before? || pc.Inside? || pc.After? }

  predicate Possible(b: Backend, e: Event) {
    match e
    case Open(i, _) => i !in b.streams
    case EndCall(i) => i in b.streams
    case LoopLockGranted(i, _) => i in b.streams && b.streams[i].end.WaitsForLoopLock? && b.loopLock == None
    case AwaiterCancelled(i) => i in b.streams && (b.streams[i].end.WaitsForLoopLock? || b.streams[i].end.AwaitsThread?)
    case ResultDelivered(i) => i in b.streams && b.streams[i].end.AwaitsThread? && b.streams[i].thread.Gone?
    case Cancel(i) => i in b.streams
    case ThreadSkips(i) => i in b.streams && b.streams[i].thread.Before?
    case ThreadTakesLock(i) => i in b.streams && b.streams[i].thread.Before? && b.threadLock == None
    case ThreadLeaves(i) => i in b.streams && b.streams[i].thread.Inside?
    case ThreadEnds(i) => i in b.streams && b.streams[i].thread.After?
    case WaitCall(w) => w !in b.waiters
    case WaiterSees(w) => w in b.waiters && b.waiters[w].Waiting? && b.count == 0
    case WaiterResolves(w) => w in b.waiters && b.waiters[w].Saw?
    case WaiterGivesUp(w) => w in b.waiters && b.waiters[w].Waiting?
  }

  function Put(b: Backend, i: nat, s: Stream): Backend { b.(streams := b.streams[i := s]) }

  /** The asyncio lock is released when its holder's `end()` is over. */
  function EndOver(b: Backend, i: nat): Backend
    requires i in b.streams
  {
    Put(b, i, b.streams[i].(end := Over)).(loopLock := if b.loopLock == Some(i) then None else b.loopLock)
  }

  function MarkStart(b: Backend): Backend { b.(count := b.count + 1) }

  function MarkEnd(b: Backend): Backend { b.(count := b.count - 1) }

  /** `_run_guarded_decode`: mark, start the thread, undo the mark when the
      thread cannot start. */
  function RunGuarded(b: Backend, i: nat, starts: bool): Backend
    requires i in b.streams
  {
    var m := MarkStart(b);
    if starts then Put(m, i, b.streams[i].(end := AwaitsThread, thread := Before)).(loopLock := Some(i))
    else EndOver(MarkEnd(m), i)
  }

  function Next(b: Backend, e: Event): Backend
    requires Possible(b, e)
  {
    match e
    case Open(i, watchesCancel) => Put(b, i, Stream(watchesCancel, false, false, NotEnding, NoThread))
    case EndCall(i) =>
      if b.streams[i].ended || b.streams[i].cancelled then b
      else Put(b, i, b.streams[i].(ended := true, end := WaitsForLoopLock))
    case LoopLockGranted(i, starts) => if b.streams[i].cancelled then EndOver(b, i) else RunGuarded(b, i, starts)
    case AwaiterCancelled(i) => EndOver(b, i)
    case ResultDelivered(i) => EndOver(b, i)
    case Cancel(i) => Put(b, i, b.streams[i].(cancelled := true, ended := true))
    case ThreadSkips(i) => Put(b, i, b.streams[i].(thread := After))
    case ThreadTakesLock(i) =>
      if b.streams[i].watchesCancel && b.streams[i].cancelled then Put(b, i, b.streams[i].(thread := After))
      else Put(b, i, b.streams[i].(thread := Inside)).(threadLock := Some(i))
    case ThreadLeaves(i) => Put(b, i, b.streams[i].(thread := After)).(threadLock := None)
    case ThreadEnds(i) => MarkEnd(Put(b, i, b.streams[i].(thread := Gone)))
    case WaitCall(w) => b.(waiters := b.waiters[w := if b.count == 0 then Resolved else Waiting])
    case WaiterSees(w) => b.(waiters := b.waiters[w := Saw])
    case WaiterResolves(w) => b.(waiters := b.waiters[w := Resolved])
    case WaiterGivesUp(w) => b.(waiters := b.waiters[w := TimedOut])
  }

  // ---------------------------------------------------------------- the invariant

  /** The decodes marked and not ended. */
  function Marked(b: Backend): set<nat> { set i | i in b.streams && InFlight(b.streams[i].thread) }

  ghost predicate Linked(b: Backend) { ThreadLinked(b) && LoopLinked(b) && EndsLinked(b) }

  ghost predicate ThreadLinked(b: Backend) {
    forall i :: b.threadLock == Some(i) <==> i in b.streams && b.streams[i].thread.Inside?
  }

  ghost predicate LoopLinked(b: Backend) {
    && (forall i :: b.loopLock == Some(i) <==> i in b.streams && b.streams[i].end.AwaitsThread?)
    && (forall i :: i in b.streams && b.streams[i].end.AwaitsThread? ==> !b.streams[i].thread.NoThread?)
  }

  /** A thread exists only after the loop lock was granted to an `end()`. */
  ghost predicate EndsLinked(b: Backend) {
    && (forall i :: i in b.streams && (b.streams[i].end.NotEnding? || b.streams[i].end.WaitsForLoopLock?) ==>
          b.streams[i].thread.NoThread?)
    && (forall i :: i in b.streams && !b.streams[i].end.NotEnding? ==> b.streams[i].ended)
  }

  ghost predicate Inv(b: Backend) { b.count == |Marked(b)| && Linked(b) }

  /** The step that marks a decode. */
  predicate Marks(b: Backend, e: Event) {
    e.LoopLockGranted? && e.starts && e.i in b.streams && !b.streams[e.i].cancelled
  }

  lemma PutMarked(b: Backend, i: nat, s: Stream)
    ensures Marked(Put(b, i, s)) == if InFlight(s.thread) then Marked(b) + {i} else Marked(b) - {i}
  {
  }

  /** Only a granted decode enters the marked ones, and only its thread leaves. */
  lemma MarkedAfter(b: Backend, e: Event)
    requires Linked(b) && Possible(b, e)
    ensures Marked(Next(b, e)) ==
            if Marks(b, e) then Marked(b) + {e.i} else if e.ThreadEnds? then Marked(b) - {e.i} else Marked(b)
    ensures Marks(b, e) ==> e.i !in Marked(b)
    ensures e.ThreadEnds? ==> e.i in Marked(b)
  {
    if e.WaitCall? || e.WaiterSees? || e.WaiterResolves? || e.WaiterGivesUp? {
    } else {
      PutMarked(b, e.i, Next(b, e).streams[e.i]);
      assert Next(b, e).streams == Put(b, e.i, Next(b, e).streams[e.i]).streams;
      assert Marked(Next(b, e)) == Marked(Put(b, e.i, Next(b, e).streams[e.i]));
    }
  }

  lemma CountAfter(b: Backend, e: Event)
    requires Possible(b, e)
    ensures Next(b, e).count == b.count + if Marks(b, e) then 1 else if e.ThreadEnds? then -1 else 0
  {
  }

  lemma ThreadLinkedAfter(b: Backend, e: Event)
    requires Linked(b) && Possible(b, e)
    ensures ThreadLinked(Next(b, e))
  {
  }

  lemma LoopLinkedAfter(b: Backend, e: Event)
    requires LoopLinked(b) && EndsLinked(b) && Possible(b, e)
    ensures LoopLinked(Next(b, e))
  {
    if e.LoopLockGranted? { GrantedLoopLinked(b, e.i, e.starts); }
  }

  lemma GrantedLoopLinked(b: Backend, i: nat, starts: bool)
    requires LoopLinked(b) && EndsLinked(b) && Possible(b, LoopLockGranted(i, starts))
    ensures LoopLinked(Next(b, LoopLockGranted(i, starts)))
  {
  }

  lemma EndsLinkedAfter(b: Backend, e: Event)
    requires EndsLinked(b) && Possible(b, e)
    ensures EndsLinked(Next(b, e))
  {
  }

  lemma NextInv(b: Backend, e: Event)
    requires Inv(b) && Possible(b, e)
    ensures Inv(Next(b, e))
  {
    hide ThreadLinked, LoopLinked, EndsLinked, Marked, Next, Possible, Marks;
    MarkedAfter(b, e);
    CountAfter(b, e);
    ThreadLinkedAfter(b, e);
    LoopLinkedAfter(b, e);
    EndsLinkedAfter(b, e);
  }

  // ---------------------------------------------------------------- runs

  ghost predicate Run(bs: seq<Backend>, es: seq<Event>) {
    && |bs| == |es| + 1 && bs[0] == Fresh
    && forall k :: 0 <= k < |es| ==> Possible(bs[k], es[k]) && bs[k + 1] == Next(bs[k], es[k])
  }

  lemma {:induction false} RunInv(bs: seq<Backend>, es: seq<Event>, k: nat)
    requires Run(bs, es) && k < |bs|
    ensures Inv(bs[k])
  {
    if k == 0 {
      assert Marked(Fresh) == {};
    } else {
      RunInv(bs, es, k - 1);
      hide Inv, Possible, Next;
      NextInv(bs[k - 1], es[k - 1]);
    }
  }

  predicate IsInside(b: Backend, i: nat) { i in b.streams && b.streams[i].thread.Inside? }

  /** Whatever is cancelled and reopened, at most one thread is inside the
      thread lock, and the counter is exactly the decodes marked and not ended. */
  lemma OneInsideAndExactCount(bs: seq<Backend>, es: seq<Event>, k: nat)
    requires Run(bs, es) && k < |bs|
    ensures bs[k].count == |Marked(bs[k])|
    ensures forall i: nat, j: nat :: IsInside(bs[k], i) && IsInside(bs[k], j) ==> i == j
  {
    RunInv(bs, es, k);
    forall i: nat, j: nat | IsInside(bs[k], i) && IsInside(bs[k], j)
      ensures i == j
    {
      assert bs[k].threadLock == Some(i) && bs[k].threadLock == Some(j);
    }
  }

  predicate Answered(b: Backend, w: nat) { w in b.waiters && (b.waiters[w].Saw? || b.waiters[w].Resolved?) }

  lemma AnswersComeFromZero(b: Backend, e: Event, w: nat)
    requires Inv(b) && Possible(b, e) && Answered(Next(b, e), w) && !Answered(b, w)
    ensures b.count == 0
  {
  }

  lemma WaitIsNew(b: Backend, w: nat)
    requires Possible(b, WaitCall(w))
    ensures !Answered(b, w)
  {
  }

  lemma NoneMarked(b: Backend)
    requires Inv(b) && b.count == 0
    ensures Marked(b) == {}
  {
  }

  /** A resolved `idle()` future (or a drain that answered true) means an
      instant since its call at which no decode was in flight. */
  lemma {:induction false} IdleMeansAnIdleInstant(bs: seq<Backend>, es: seq<Event>, j: nat, k: nat, w: nat)
      returns (m: nat)
    requires Run(bs, es) && j < k < |bs| && es[j] == WaitCall(w) && Answered(bs[k], w)
    ensures j <= m <= k && bs[m].count == 0 && Marked(bs[m]) == {}
    decreases k
  {
    hide Inv, Possible, Next, Answered;
    RunInv(bs, es, k - 1);
    if Answered(bs[k - 1], w) {
      if k - 1 == j { WaitIsNew(bs[j], w); }
      m := IdleMeansAnIdleInstant(bs, es, j, k - 1, w);
    } else {
      AnswersComeFromZero(bs[k - 1], es[k - 1], w);
      NoneMarked(bs[k - 1]);
      m := k - 1;
    }
  }

  // ---------------------------------------------------------------- cancelled streams

  predicate CancelledBefore(b: Backend, i: nat) {
    i in b.streams && b.streams[i].cancelled && b.streams[i].thread.NoThread?
  }

  /** A stream on which `cancel()` is called before its decode started never
      starts one. */
  lemma {:induction false} CancelledNeverStarts(bs: seq<Backend>, es: seq<Event>, j: nat, k: nat, i: nat)
    requires Run(bs, es) && j < k < |bs| && es[j] == Cancel(i) && bs[j].streams[i].thread.NoThread?
    ensures CancelledBefore(bs[k], i) && i !in Marked(bs[k])
    decreases k
  {
    if j < k - 1 {
      CancelledNeverStarts(bs, es, j, k - 1, i);
      CancelledStep(bs[k - 1], es[k - 1], i);
      hide CancelledBefore, Possible, Next;
    }
  }

  lemma CancelledStep(b: Backend, e: Event, i: nat)
    requires Possible(b, e) && CancelledBefore(b, i)
    ensures CancelledBefore(Next(b, e), i)
  {
  }

  predicate OverBefore(b: Backend, i: nat) { i in b.streams && b.streams[i].end.Over? && b.streams[i].thread.NoThread? }

  lemma OverStep(b: Backend, e: Event, i: nat)
    requires EndsLinked(b) && Possible(b, e) && OverBefore(b, i)
    ensures OverBefore(Next(b, e), i)
  {
  }

  /** A task whose cancel arrives while its `end()` waits for its turn leaves it
      there, and no thread is ever started or marked for that stream. */
  lemma {:induction false} CancelledAwaiterNeverStarts(bs: seq<Backend>, es: seq<Event>, j: nat, k: nat, i: nat)
    requires Run(bs, es) && j < k < |bs| && es[j] == AwaiterCancelled(i) && bs[j].streams[i].thread.NoThread?
    ensures OverBefore(bs[k], i) && i !in Marked(bs[k])
    decreases k
  {
    if j < k - 1 {
      CancelledAwaiterNeverStarts(bs, es, j, k - 1, i);
      RunInv(bs, es, k - 1);
      OverStep(bs[k - 1], es[k - 1], i);
      hide OverBefore, Possible, Next;
    }
  }

  predicate CancelledInQueue(b: Backend, i: nat) {
    i in b.streams && b.streams[i].watchesCancel && b.streams[i].cancelled && !b.streams[i].thread.Inside?
  }

  /** A kyutai stream on which `cancel()` is called while its thread is queued
      behind another decode never decodes: its thread passes through without the
      section. */
  lemma {:induction false} CancelledInQueueNeverDecodes(bs: seq<Backend>, es: seq<Event>, j: nat, k: nat, i: nat)
    requires Run(bs, es) && j < k < |bs| && es[j] == Cancel(i)
    requires bs[j].streams[i].watchesCancel && !bs[j].streams[i].thread.Inside?
    ensures CancelledInQueue(bs[k], i)
    decreases k
  {
    if j < k - 1 {
      CancelledInQueueNeverDecodes(bs, es, j, k - 1, i);
      CancelledInQueueStep(bs[k - 1], es[k - 1], i);
      hide CancelledInQueue, Possible, Next;
    }
  }

  lemma CancelledInQueueStep(b: Backend, e: Event, i: nat)
    requires Possible(b, e) && CancelledInQueue(b, i)
    ensures CancelledInQueue(Next(b, e), i)
  {
  }

  lemma CancelStep(b: Backend, e: Event, i: nat)
    requires Possible(b, e) && i in Next(b, e).streams && Next(b, e).streams[i].cancelled
    ensures e == Cancel(i) || (i in b.streams && b.streams[i].cancelled)
  {
  }

  lemma WatchStep(b: Backend, e: Event, i: nat)
    requires Possible(b, e) && i in Next(b, e).streams && Next(b, e).streams[i].watchesCancel
    ensures e == Open(i, true) || (i in b.streams && b.streams[i].watchesCancel)
  {
  }

  /** Only `cancel()` sets the event ... */
  lemma {:induction false} WhoCancelled(bs: seq<Backend>, es: seq<Event>, k: nat, i: nat) returns (m: nat)
    requires Run(bs, es) && k < |bs| && i in bs[k].streams && bs[k].streams[i].cancelled
    ensures m < k && es[m] == Cancel(i)
  {
    CancelStep(bs[k - 1], es[k - 1], i);
    if es[k - 1] == Cancel(i) { m := k - 1; } else { m := WhoCancelled(bs, es, k - 1, i); }
  }

  /** ... and only a stream opened that way watches it. */
  lemma {:induction false} WhoWatches(bs: seq<Backend>, es: seq<Event>, k: nat, i: nat) returns (m: nat)
    requires Run(bs, es) && k < |bs| && i in bs[k].streams && bs[k].streams[i].watchesCancel
    ensures m < k && es[m] == Open(i, true)
  {
    WatchStep(bs[k - 1], es[k - 1], i);
    if es[k - 1] == Open(i, true) { m := k - 1; } else { m := WhoWatches(bs, es, k - 1, i); }
  }

  /** A thread that gets the thread lock decodes, except when its stream was opened
      to watch the event and `cancel()` was called on it. */
  lemma QueuedThreadsDecode(bs: seq<Backend>, es: seq<Event>, k: nat, i: nat)
    requires Run(bs, es) && k < |es| && es[k] == ThreadTakesLock(i)
    ensures IsInside(bs[k + 1], i) ||
              (exists m, n :: 0 <= m < k && 0 <= n < k && es[m] == Open(i, true) && es[n] == Cancel(i))
    ensures IsInside(bs[k + 1], i) <==> !(bs[k].streams[i].watchesCancel && bs[k].streams[i].cancelled)
    ensures IsInside(bs[k + 1], i) <==> bs[k + 1].threadLock == Some(i)
  {
    RunInv(bs, es, k + 1);
    if !IsInside(bs[k + 1], i) {
      var m := WhoWatches(bs, es, k, i);
      var n := WhoCancelled(bs, es, k, i);
    }
  }

  /** `end()` of a stream that is neither ended nor cancelled waits for its turn,
      and its turn marks a decode and starts its thread (unless it cannot start). */
  lemma EndsAreDecoded(bs: seq<Backend>, es: seq<Event>, k: nat, i: nat)
    requires Run(bs, es) && k < |es| && i in bs[k].streams && !bs[k].streams[i].cancelled
    ensures es[k] == EndCall(i) && !bs[k].streams[i].ended ==> bs[k + 1].streams[i].end.WaitsForLoopLock?
    ensures es[k] == LoopLockGranted(i, true) ==>
              && bs[k + 1].streams[i].thread.Before? && Marked(bs[k + 1]) == Marked(bs[k]) + {i}
              && bs[k + 1].loopLock == Some(i)
    ensures es[k] == LoopLockGranted(i, false) ==> Marked(bs[k + 1]) == Marked(bs[k]) && bs[k + 1].loopLock == None
  {
    RunInv(bs, es, k);
    MarkedAfter(bs[k], es[k]);
    hide Linked, Marked;
  }

  /** Only the thread itself ends its mark: cancelling the awaiter leaves it. */
  lemma MarkOutlivesItsAwaiter(b: Backend, e: Event, i: nat)
    requires Inv(b) && Possible(b, e) && i in Marked(b)
    ensures i in Marked(Next(b, e)) <==> e != ThreadEnds(i)
  {
  }

  // ---------------------------------------------------------------- the mixin and its streams

  /** `DecodeGuardMixin` with its streams: the fields that the coroutines and
      the daemon threads update. */
  class Guards {
    var streams: map<nat, Stream>
    var loopLock: Option<nat>
    var threadLock: Option<nat>
    var inflightCount: int
    var waiters: map<nat, Waiter>

    ghost function View(): Backend
      reads this
    {
      Backend(streams, loopLock, threadLock, inflightCount, waiters)
    }

    /** `_init_decode_guards`. */
    constructor ()
      ensures View() == Fresh
    {
      streams, loopLock, threadLock, inflightCount, waiters := map[], None, None, 0, map[];
    }

    /** `_mark_inflight_start`. */
    method MarkInflightStart()
      modifies this`inflightCount
      ensures View() == MarkStart(old(View()))
    {
      inflightCount := inflightCount + 1;
    }

    /** `_mark_inflight_end`: waiters are woken exactly at zero. */
    method MarkInflightEnd() returns (notifies: bool)
      modifies this`inflightCount
      ensures View() == MarkEnd(old(View()))
      ensures notifies <==> inflightCount == 0
    {
      inflightCount := inflightCount - 1;
      notifies := inflightCount == 0;
    }

    /** `end()` from its call to the asyncio lock. */
    method End(i: nat) returns (waits: bool)
      requires Possible(View(), EndCall(i))
      modifies this`streams
      ensures View() == Next(old(View()), EndCall(i))
      ensures waits <==> !(old(streams[i].ended) || old(streams[i].cancelled))
      ensures waits ==> streams[i].ended && streams[i].end.WaitsForLoopLock?
    {
      if streams[i].ended || streams[i].cancelled { return false; }
      streams := streams[i := streams[i].(ended := true)];
      streams := streams[i := streams[i].(end := WaitsForLoopLock)];
      waits := true;
    }

    /** `end()` under the asyncio lock, through `_run_guarded_decode`; `raised`:
        the thread could not start. */
    method LockGranted(i: nat, starts: bool) returns (raised: bool)
      requires Possible(View(), LoopLockGranted(i, starts))
      modifies this
      ensures View() == Next(old(View()), LoopLockGranted(i, starts))
      ensures raised <==> !old(streams[i].cancelled) && !starts
      ensures if !old(streams[i].cancelled) && starts
              then inflightCount == old(inflightCount) + 1 && streams[i].thread.Before? && loopLock == Some(i)
              else inflightCount == old(inflightCount) && loopLock == None
      ensures old(streams[i].cancelled) || !starts ==> streams[i].thread == old(streams[i].thread)
    {
      loopLock := Some(i);
      raised := false;
      if !streams[i].cancelled {
        MarkInflightStart();
        if starts {
          streams := streams[i := streams[i].(end := AwaitsThread, thread := Before)];
          return;
        }
        var _ := MarkInflightEnd();
        raised := true;
      }
      loopLock := None;
      streams := streams[i := streams[i].(end := Over)];
    }

    /** `cancel()`. */
    method Cancel(i: nat)
      requires i in streams
      modifies this`streams
      ensures View() == Next(old(View()), Event.Cancel(i))
      ensures streams[i].cancelled && streams[i].ended
    {
      streams := streams[i := streams[i].(cancelled := true)];
      streams := streams[i := streams[i].(ended := true)];
    }

    /** `_decode_sync` up to its work: take the thread lock and look at the
        cancel event; `decodes`: the section is entered. */
    method TakeThreadLock(i: nat) returns (decodes: bool)
      requires Possible(View(), ThreadTakesLock(i))
      modifies this`streams, this`threadLock
      ensures View() == Next(old(View()), ThreadTakesLock(i))
      ensures decodes <==> !(old(streams[i].watchesCancel) && old(streams[i].cancelled))
      ensures threadLock == if decodes then Some(i) else None
      ensures streams[i].thread == if decodes then Inside else After
    {
      threadLock := Some(i);
      streams := streams[i := streams[i].(thread := Inside)];
      decodes := !(streams[i].watchesCancel && streams[i].cancelled);
      if !decodes {
        threadLock := None;
        streams := streams[i := streams[i].(thread := After)];
      }
    }

    /** `idle()`: done at once when nothing is in flight, else a waiter. */
    method Idle(w: nat) returns (done: bool)
      requires w !in waiters
      modifies this`waiters
      ensures View() == Next(old(View()), WaitCall(w))
      ensures done <==> inflightCount == 0
      ensures waiters[w] == if inflightCount == 0 then Resolved else Waiting
    {
      done := inflightCount == 0;
      waiters := waiters[w := if done then Resolved else Waiting];
    }
  }
}
