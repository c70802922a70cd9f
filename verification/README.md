# A speech-to-text server: what its lifecycle, its sessions and its tools keep

This project models, in Dafny, the parts of the repository whose correctness
depends on interleaving: one server's lifecycle and its live-work ledger, any
number of servers over one lock and one socket path, the decode threads that
outlive their tasks, one connection's protocol, `serve`, and five smaller
algorithms of the scripts. Every code segment between two awaits is one atomic
step; completions, queued callbacks, cancels, timeouts, signals and lost
connections are steps of the environment. The main results hold over every run.

| file | what it holds |
|---|---|
| Lifecycle.dfy | one server as a value, its code segments, its steps |
| LifecycleInvariant.dfy | what every step keeps |
| LockSteps.dfy, LockTable.dfy | the lock and the socket; any number of servers and probes over one path |
| LifecycleProgress.dfy, LifecycleRuns.dfy | a measure that every move lowers; results over whole runs |
| StartOrder.dfy, DrainOrder.dfy | what each step of `start()` and of the drain comes to: who is waited for, who is cancelled, what is told |
| LifecycleMarks.dfy | marks and labels decide nothing; a cleanup for a finished future |
| LiveWork.dfy (LiveWorkParts.dfy, LiveCounts.dfy) | the class `TranscriptionServer`: every segment of its code does what its step says and keeps the invariant |
| ForeignCancel.dfy | what happens when somebody else cancels a bind or a listener's close |
| DecodeGuard.dfy | decode threads, their two locks, the counter, `idle()` |
| DecodeThreads.dfy | server and guard together, whoever started the decode |
| AfterDrain.dfy, LateDecodes.dfy | decodes marked after the drain: when they lose the lock, and two runs that do |
| Session.dfy, SessionInvariant.dfy, SessionHandlers.dfy | one connection: machine, results, the class `Connection` |
| SessionEnds.dfy | what each message does, who cancels a decode, and what must have been written |
| Serve.dfy | `serve` over all stop, cancel and failure timings |
| ServeServer.dfy | the server that `serve` reckons with is the one of Lifecycle.dfy |
| OwnedGroup.dfy | an owned process group and `run_owned` |
| Teardown.dfy | the launchd harness under signals |
| SquatCheck.dfy | the bracketed port re-check |
| EditDistance.dfy | the two-row word error rate |
| ArgvFlags.dfy | the argv printer and its reader |

## Assumptions about the environment

- A cancel arrives at the task's next step; until then the task takes no step.
- A future completes once. Its `_retire` callback is queued when the ledger
  tracks it, and runs later as a step of its own.
- `start()` blocks its own loop while it retries the lock, so only decode
  threads of that server move meanwhile.
- The kernel grants an exclusive `flock` only when nobody holds any lock on the
  file, a shared one only when nobody holds the exclusive one, and drops a dead
  process's lock. Nobody but a lock holder creates a file at the socket path
  (somebody else may remove it); inode numbers may be reused.
- Nobody but the server cancels its bind or its listener's close. A loop's
  teardown that cancels every task does: ForeignCancel.dfy shows, from every
  state, that a bind can be cancelled from outside exactly as long as it has bound
  nothing, and what is lost afterwards.
- The `idle()` hook does not raise and answers truly: a future that is not done
  exactly when the backend's counter is not zero.
- A cleanup that raises does so before it changed anything.
- Frames are written in the order in which their sends were called; a send
  cancelled before its frame was written writes nothing; sends raise nothing
  but a closed connection and a cancel. Item ids are fresh. A backend stream
  passes a cancel on.
- Nobody but `serve` shuts its server down, and no second loop moves its task.
- launchd's spawn counter moves on every start of a job while it stays loaded; a
  load begins a new counter.

The lifecycle's steps take as guards that a cancelled session starts no decode
and that a cancelled decode task or readiness step marks no thread. The machines
of one connection and of the decode guard prove those guards:
`SessionInvariant.NoDecodeAfterCancel`, and `DecodeGuard.CancelledAwaiterNeverStarts`
for a task whose cancel arrives while it waits to decode. A drain is only passed
through, never left, inside a segment (`LifecycleRuns.NeverInBetween`).

Handlers may outlive the listener's close here, and new ones may start until that
close has finished: of "websockets' `wait_closed` does not finish before its
handlers" nothing is assumed, and of "no handler starts after the listener close"
only that none starts once the close has finished.

## Findings

Places where the code does less than its own documentation says, or where a
check is never reached. Each item names the lemmas: the run, the input or the
family of runs in which it happens, and the condition under which it does not.

- A decode thread can outlive its server's lock, in exactly two ways: after the
  drain of its attempt ended, a session is accepted (by the listener of a bind
  that two cancels gave up on, or by one whose close has not finished), or a step
  that an embedder adopted marks a decode. The drain's `idle()` was asked before,
  and nothing asks again. Without both, the lock is held whenever a decode is in
  flight, whoever started it (`DecodeThreads.ThreadsKeepTheLock`). With one of
  them, some continuation loses the lock exactly when no cleanup has failed closed
  (`AfterDrain.LosesTheLockIff`, `AfterDrain.LateSessionLosesTheLockIff`); two
  whole runs do (`LateDecodes.LateSessionOutlivesTheLock`,
  `LateDecodes.LateStepOutlivesTheLock`). The session's run needs its handshake
  between the bind of the socket and the end of the bind task, which for a Unix
  socket are adjacent turns of the loop: the result rests on leaving the order of
  those turns free. `serve`'s own readiness step is not concerned: it marks its
  decodes while the server is RUNNING (`Serve.ReadinessMarksInTime`,
  `DecodeThreads.RunningIsNotLate`, joined in `ServeServer.ReadinessIsNotLate`).
- A cleanup that `_track` attaches to a finished future and that raises does not
  stay failed closed when the future's callback is still queued: that callback
  drops the entry. It stays over every later step exactly when none is queued
  (`LifecycleMarks.FinishedBindFailsClosedIff`). The server itself attaches a
  cleanup only to a bind that is not done.
- A stop task cancelled before its first step leaves the server in STOPPING with
  its listener open for good (`LifecycleRuns.SkippedDrainNeverStops`); without
  that step and without a raising cleanup every stopping server reaches STOPPED
  (`LifecycleRuns.StopsInTheEnd`).
- In the launchd harness a signal that lands between a not-stopped verdict and
  its record loses the verdict. By the time the table is printed nothing more was
  started or unlinked exactly when no signal landed there (`Teardown.FrozenIff`, `Teardown.VerdictOrThaw`;
  one such run is `Teardown.LostVerdictThaws`).
- `run_owned` tells about a group exactly when it was started and not shown
  stopped, but for two cases (`OwnedGroup.Group.RunOwned`). The constructor failed
  after the spawn, and its own kill or reap raised: `OwnedGroup.HiddenIff` says
  which clean-ups those are, `OwnedGroup.Group.UntoldGroup` is one. Or a signal
  lands when the hold is over, and its handler raises before the verdict is raised
  or attached (`Hides`; `OwnedGroup.Group.HiddenVerdict`). A signal there can also
  drop the redelivery of the first held one (`Delivers`), and one that lands while
  the two handlers are exchanged leaves the other one held. In the harness such a
  hidden verdict thaws the teardown too (`Teardown.LostMeansThawed`).
- A call of the public `abort_sync` removes somebody else's socket exactly when its
  server is STOPPED and the inode that it still records was given to that socket
  (`LockTable.AbortUnsafeIff`). `serve` calls it only during a step, before that.
- The port re-check is sound for every timeline in which the job is not loaded
  anew between the reads (`SquatCheck.WarningsAreSound`); with such a load any
  warning at all may be about the job's own process (`SquatCheck.ReloadHidesTheJob`).
- In a session the check for a decode in flight on a commit is never reached,
  because the buffer is then empty (`SessionInvariant.CommitInFlightIsEmpty`).

## Model

| member | source | states |
|---|---|---|
| LifecycleInvariant.StepInv | stt_server/server.py:593-1322 | every step of a server and of its environment (decodes of sessions and of adopted steps included; a bind or close cancelled from outside is in ForeignCancel.dfy) keeps the invariant: state and ledger, coroutines and tokens, the lock over all work, covered listeners, owed callbacks, one backend close, covered threads |
| LifecycleInvariant.InitialInv | stt_server/server.py:537-580 | a new server satisfies it |
| LifecycleInvariant.ServingHoldsTheLock | stt_server/server.py:904-961 | an open listener, or one whose close has not finished, is never without the lock |
| LifecycleInvariant.TasksHoldTheLock | stt_server/server.py:1378-1442 | a session or decode task that has not finished is in the ledger and has the lock over it |
| LifecycleInvariant.BindCancelledInv | stt_server/server.py:904-932 | a first and a second cancel during a bind keep the bound listener covered |
| LifecycleInvariant.OrphanRetiredInv | stt_server/server.py:713-738 | an orphan bind's cleanup hands its listener's close to the ledger before the bind leaves it, or fails closed |
| LifecycleInvariant.BeginListenerCloseIs | stt_server/server.py:1245-1262 | beginning a close never settles the state: the close is in the ledger when the listener leaves |
| LifecycleInvariant.CancelSessionsInv | stt_server/server.py:1187-1196 | cancelling the sessions of the ledger reaches every task there is, and changes only marks |
| LifecycleInvariant.DrainFinishInv | stt_server/server.py:1198-1236 | a drain that ends normally, by failure or by a cancel keeps the invariant |
| LifecycleInvariant.StartFinallyInv | stt_server/server.py:846-857 | a failed start ends NEW only with nothing left, else STOPPING or STOPPED |
| LifecycleInvariant.StartSucceededInv | stt_server/server.py:831-850 | RUNNING is entered with the listener in the ledger and the lock held |
| LockSteps.StepKept | stt_server/server.py:593-617 | no step but LockTaken takes the lock, none gives it up but into NEW or STOPPED, none binds but SocketBound, none brings a stopping server up; a session or decode task only finishes, and a cancel of it is never undone |
| LockTable.AcquireSocketLock | stt_server/server.py:237-296 | a lock file that may not be opened, or is not a plain one of ours, is refused before any try, and its mode is made private; EADDRINUSE only after every try of the whole retry bound was contended |
| LockTable.NextInv | stt_server/server.py:881-902 | every step of every server, probe and process keeps one holder per table, and the holder's socket its own |
| LockTable.AtMostOneBusy | stt_server/server.py:237-296 | over every run at most one server at a time has a bind, open listener, unfinished listener close, session or decode task, backend close, or decode thread (unless one was marked after its drain) |
| LockTable.LockGivenUpOnlyWhenIdle | stt_server/server.py:593-617 | a lock once taken is given up only by a step that leaves the ledger empty in NEW or STOPPED, or with the process |
| LockTable.OnlyOwnSocketUnlinked | stt_server/server.py:963-987 | a server unlinks the file at the path only when it is the socket this server bound, also on a hard exit and with reused inodes; the one exception is a call of `abort_sync` on a STOPPED server |
| LockTable.OwnSocketRemoved | stt_server/server.py:977-1019 | and it does unlink it: over every run, once a server's listener close has begun, the file that it bound is not at the path with the inode that it recorded |
| LockTable.AbortUnsafeIff | stt_server/server.py:1071-1088 | such a call removes somebody else's socket exactly when the server is STOPPED and its recorded inode was given to that socket |
| LockTable.ServingSocketStays | stt_server/server.py:977-1019 | while a server's socket serves, no other server removes or replaces the file, but for that call |
| LockTable.ProbeIsRight | stt_server/server.py:299-334 | "held" means a server is starting, running or stopping; "not held" of a plain lock file means none is at work; any other file reads as not held |
| LifecycleProgress.StepEases | stt_server/server.py:713-738 | every completion, callback and ended wait of a stopping server lowers the measure; arrivals raise it by at most two; no step makes or loses a failed-closed entry unless a cleanup raises |
| LifecycleProgress.SomeMove | stt_server/server.py:799-802 | no wake-up is lost: a stopping server always has a regular move |
| LifecycleProgress.StepOwnership | stt_server/server.py:1198-1303 | every step but a stop task that is cancelled before it runs leaves a starting or stopping server with a coroutine that will end it, or with its drain over |
| LifecycleProgress.DrainResumeEases | stt_server/server.py:1264-1322 | each return of one of the drain's waits lowers the measure, whatever futures it creates |
| LifecycleRuns.StateTellsTheLedger | stt_server/server.py:402-424 | between steps the state fixes the ledger and `_unlocked`, and no RuntimeError ever leaves `_transition` |
| LifecycleRuns.NewIsAsCreated | stt_server/server.py:561-580 | a failed start that leaves the server NEW leaves every field of its own as the constructor made it, no task, no open listener and no pending future: a retry inherits nothing |
| LifecycleRuns.ListenerAlwaysCovered | stt_server/server.py:904-961 | over every run a bound listener whose close has not finished is in the ledger as its start, its bind, itself or its close, with the lock over it |
| LifecycleRuns.NeverStartsAgain | stt_server/server.py:812-857 | after any `shutdown()` call, or a failed start that left work, no later step enters STARTING |
| LifecycleRuns.ClosesAtMostOnce | stt_server/server.py:1214-1227 | per attempt `backend.close()` is started at most once, and exactly once when `backend.start()` returned and the drain ended |
| LifecycleRuns.FailsClosed | stt_server/server.py:713-738 | in a state left by a raising cleanup, and at every later step, the state is not NEW or STOPPED and the lock stays |
| LifecycleRuns.RaisedCleanupKeepsTheLock | stt_server/server.py:713-738 | after the step in which an orphan bind's cleanup raises, its entry stays, stuck, and the lock is never given up again |
| LifecycleRuns.MovesBounded | stt_server/server.py:1264-1322 | in STOPPING the moves are bounded by the work there was and twice the work that arrived |
| LifecycleRuns.StopsInTheEnd | stt_server/server.py:799-802 | a run that can make no further regular move has reached STOPPED with the lock free and the ledger empty |
| LifecycleRuns.SkippedDrainNeverStops | stt_server/server.py:1157-1185 | after a stop task that was cancelled before its first step the server stays in STOPPING, its listener open and its lock held |
| LifecycleRuns.CanAlwaysStop | stt_server/server.py:1119-1185 | from any such stopping server regular moves lead to STOPPED, within the measure |
| LifecycleRuns.AdoptTakes | stt_server/server.py:745-777 | an adopted future that is not done is in the ledger afterwards, under its first label, stuck once somebody gave it up, and nothing else changed |
| StartOrder.StartGoesInOrder | stt_server/server.py:812-961 | over every run, what each step of `start()` comes to: the bind begins when the backend is up and no shutdown came; it comes up when the bind returned its listener and nothing was cancelled; a first cancel only waits for the bind again, a second one leaves it to its own cleanup; otherwise its drain begins, with the first wait there is something for |
| StartOrder.OnlyStartComesUp | stt_server/server.py:826-837 | a step enters RUNNING exactly when it is the return of a successful, uncancelled bind in STARTING |
| StartOrder.WhoWaitsAgain | stt_server/server.py:904-932 | a start that waits for its bind again was cancelled in that very wait, so that a bind is left to its own cleanup only by two cancels |
| StartOrder.StartCanSucceed | stt_server/server.py:812-857 | from every state in which a server is new, six regular steps bring it up, serving, under its lock |
| DrainOrder.DrainListsEverySession | stt_server/server.py:1198-1212 | every drain, the stop task's and a failed start's, begins with a wait for exactly the sessions there are, or without one when there are none |
| DrainOrder.DrainBeginsInOrder | stt_server/server.py:1205-1266 | the stop task's first step sets the shutdown event, begins the listener's close and goes to the first wait there is something for |
| DrainOrder.DrainGoesInOrder | stt_server/server.py:1264-1322 | each return of a wait leads to the next one there is something for: the sessions, the cancelled ones exactly if some are not done, the listener's close, the backend's close, the end |
| DrainOrder.TimeoutCancelsExactly | stt_server/server.py:1268-1283 | when the drain's bound passed with a listed session not done, the next wait is for cancelled sessions, exactly the listed ones not done are newly asked to cancel, and no other task is |
| DrainOrder.NobodyLeftBehind | stt_server/server.py:1198-1322 | at every state after a drain began, each session there was is over, or asked to cancel, or the drain still waits for it |
| DrainOrder.AfterTheWaitAllAreHeeded | stt_server/server.py:1264-1303 | so while the drain waits for cancelled sessions, for the listener or for the backend, and ever after, each of them is over or was asked to cancel |
| DrainOrder.CallerCancelHurries | stt_server/server.py:1176-1196 | cancelling the first caller of `shutdown()` asks every session there is to cancel, and changes only marks |
| DrainOrder.DrainMarksLeftovers | stt_server/server.py:1214-1236 | a drain that ends, cut short or not, tells every session, backend close and hand-over still going on as stuck |
| DrainOrder.UnfinishedCloseIsTold | stt_server/server.py:1294-1301 | so does the wait for the listener's close that ends before the close |
| LifecycleMarks.StepAlike | stt_server/server.py:681-743 | a step taken with other stuck marks and labels is possible too and ends alike |
| LifecycleMarks.MarksAreInert | stt_server/server.py:437-450 | two runs that differ only in stuck marks and labels agree on every state and every lock value |
| LifecycleMarks.FinishedBindFailsClosedIff | stt_server/server.py:681-743 | a raising cleanup attached to a finished bind keeps its entry and the lock over every later step exactly when no callback of that bind is queued |
| LiveWork.TranscriptionServer.LiveReasons | stt_server/server.py:632-649 | one line for each kind and label in the ledger, with exact counts of entries and stuck ones; none exactly when the ledger is empty |
| LiveWork.TranscriptionServer.Segment | stt_server/server.py:593-1322 | any segment of the server's own code, run in a state that satisfies the invariant, does exactly what its step says and satisfies it again |
| LiveWork.TranscriptionServer.Transition | stt_server/server.py:593-617 | the whole new state; it raises exactly for an illegal move or one into NEW or STOPPED with live work |
| LiveWork.TranscriptionServer.Track | stt_server/server.py:681-711 | a finished future without a cleanup adds no work, and a cleanup given for one runs now |
| LiveWork.TranscriptionServer.Adopt | stt_server/server.py:745-777 | a blank label is refused first, then every state but STARTING, RUNNING and STOPPING; a refusal records nothing, and a finished future adds nothing |
| LiveWork.TranscriptionServer.UnlinkOwnSocket | stt_server/server.py:977-987 | the file at the path goes only when it is the inode that this server recorded |
| LiveWork.TranscriptionServer.BeginListenerClose | stt_server/server.py:1245-1262 | the own socket file goes, and the close enters the ledger before the listener leaves it |
| LiveWork.TranscriptionServer.CancelSessions | stt_server/server.py:1187-1196 | the loop cancels and marks exactly the live sessions |
| LiveWork.TranscriptionServer.Start | stt_server/server.py:812-832 | what `start()` answers in each of the five states, and that only NEW is left |
| LiveWork.TranscriptionServer.Shutdown | stt_server/server.py:1157-1170 | what `shutdown()` does before its first wait, in each of the five states |
| DecodeGuard.NextInv | stt_server/backends/_thread_util.py:78-138 | every step of any number of streams keeps the counter equal to the decodes marked and not ended, and both locks with their holders |
| DecodeGuard.OneInsideAndExactCount | stt_server/backends/_thread_util.py:78-104 | over every run at most one thread is in the locked section, and the count is exact, also when a thread fails to start |
| DecodeGuard.IdleMeansAnIdleInstant | stt_server/backends/_thread_util.py:106-138 | a resolved `idle()` future or a true drain result means an instant since the call with no decode in flight |
| DecodeGuard.CancelledNeverStarts | stt_server/backends/mlx_whisper.py:94-122 | after a `cancel()` of a stream that has no thread yet none is ever started for it |
| DecodeGuard.CancelledAwaiterNeverStarts | stt_server/backends/mlx_whisper.py:94-122 | a task whose cancel arrives while its `end()` waits for its turn never gets a thread started or marked for that stream |
| DecodeGuard.CancelledInQueueNeverDecodes | stt_server/backends/kyutai.py:108-126 | a kyutai stream on which `cancel()` is called while it is queued behind another decode never decodes |
| DecodeGuard.QueuedThreadsDecode | stt_server/backends/kyutai.py:115-126 | over every run a thread that gets the thread lock decodes, except when its stream was opened to watch the cancel event and `cancel()` was called on it before |
| DecodeGuard.EndsAreDecoded | stt_server/backends/mlx_whisper.py:94-122 | `end()` of a stream neither ended nor cancelled waits for its turn, and its turn marks a decode and starts its thread, unless the thread cannot start |
| DecodeGuard.MarkOutlivesItsAwaiter | stt_server/backends/_thread_util.py:88-104 | only the thread itself ends its mark; cancelling the awaiter leaves it |
| DecodeGuard.Guards.LockGranted | stt_server/backends/kyutai.py:95-106 | a cancelled stream starts nothing; a thread that cannot start is unmarked and its lock released |
| DecodeGuard.Guards.MarkInflightEnd | stt_server/backends/_thread_util.py:82-86 | waiters are woken exactly when the count reaches zero |
| DecodeGuard.Guards.TakeThreadLock | stt_server/backends/kyutai.py:115-126 | the cancel event is read under the thread lock: the thread decodes exactly unless its stream watches the event and it was set, and then the lock is free again |
| DecodeGuard.Guards.Idle | stt_server/backends/_thread_util.py:113-138 | done at once exactly when nothing is in flight |
| DecodeThreads.StepCalm | stt_server/server.py:1230-1236 | a hook that answers truly lets no hand-over miss a decode thread |
| DecodeThreads.ThreadsKeepTheLock | stt_server/server.py:1187-1236 | over every joint run a decode in flight, of a session or of an adopted step, keeps the server's lock, unless after its attempt's drain ended a session was accepted or an adopted step marked a decode |
| DecodeThreads.RunningIsNotLate | stt_server/server.py:2104-2116 | whatever marks a decode while the server is RUNNING is not one of those exceptions |
| DecodeThreads.LateSessionsComeFromOrphans | stt_server/server.py:949-961 | such a session comes only from an orphan bind's listener or one whose close has not finished |
| AfterDrain.LosesTheLockIff | stt_server/server.py:1198-1236 | after the drain, from every reachable state in which an uncancelled session or a pending adopted step is left, some continuation in which only it marks a decode frees the lock with that decode in flight, exactly when no cleanup has failed closed |
| AfterDrain.LateSessionLosesTheLockIff | stt_server/server.py:949-961 | the same right after any session that is accepted after the drain |
| LateDecodes.LateSessionOutlivesTheLock | stt_server/server.py:904-961 | a joint run that adopts nothing and ends STOPPED, its lock free, with a session's decode in flight |
| LateDecodes.LateStepOutlivesTheLock | stt_server/server.py:745-777 | a joint run without any session that ends STOPPED, its lock free, with an adopted step's decode in flight |
| ForeignCancel.BindKillIff | stt_server/server.py:904-932 | a bind cancelled from outside keeps the invariant exactly when it has bound nothing yet |
| ForeignCancel.KilledBindLeaks | stt_server/server.py:929-932 | cancelled later, from whatever state, its listener stays open with no entry to close it |
| ForeignCancel.KilledCloseIsForgotten | stt_server/server.py:1245-1262 | a listener's close cancelled from outside leaves the ledger before the listener is closed |
| SessionInvariant.StepInv | stt_server/server.py:1378-1912 | every step of the handler, the decode task and the world keeps conservation, single decodes, the trace grammar and their owners |
| SessionInvariant.BytesAreConserved | stt_server/server.py:1480-1518 | the accepted bytes are, in order, the utterances, the dropped segments and the buffer, which stays even, within its cap, and empty while a decode is in flight |
| SessionInvariant.CommitInFlightIsEmpty | stt_server/server.py:1637-1654 | a commit while a decode is in flight always finds the buffer empty: the check at line 1646 is never reached |
| SessionInvariant.EachUtteranceOnce | stt_server/server.py:1656-1671 | each utterance goes whole and in order to at most one decode, and to exactly one unless the handler is cancelled at that commit's own send |
| SessionInvariant.ItemsAreNotInterleaved | stt_server/server.py:1700-1776 | every delta and terminal event follows its own commit with no other item's event and no terminal event between |
| SessionInvariant.OncePerItem | stt_server/server.py:1700-1776 | no item is committed twice and none ends twice |
| SessionInvariant.NothingAfterClosed | stt_server/server.py:1805-1870 | `session.closed` is written at most once and no item event after it, also when a shutdown cancels the decode without awaiting it |
| SessionInvariant.NoDecodeAfterCancel | stt_server/server.py:1843-1880 | a handler asked to cancel never starts another decode, also when it swallowed the cancel |
| SessionEnds.MessagesDo | stt_server/server.py:1480-1698 | over every run, what each message to an open session does to the buffer, the utterances and the accepted bytes, which event answers it, and where the handler waits then |
| SessionEnds.WhoCancelsADecode | stt_server/server.py:1805-1880 | a decode in flight is asked to cancel exactly by a cancel without a stream to cancel first, by the return from that stream's cancel, by a close while the server shuts down, by a close's wait that timed out, by a teardown, or by an outside cancel |
| SessionEnds.ClosedAfterTheDecode | stt_server/server.py:1805-1842 | `session.closed` is written beside a decode in flight only by a close during the server's shutdown, which cancels that decode |
| SessionEnds.WaitsDo | stt_server/server.py:1805-1880 | over every run, where the handler goes when a wait of its is over, when a close's wait times out, and when the loop ends or its own cancel arrives: a close that waited says `session.closed` once the decode ended; a teardown cancels a decode in flight and awaits it |
| SessionEnds.FinishedHasNoDecode | stt_server/server.py:1872-1880 | a handler that has finished leaves no decode in flight |
| SessionEnds.EveryDecodeIsTold | stt_server/server.py:1700-1776 | a decode that is over wrote its terminal event, or was asked to cancel, or its connection is gone |
| SessionEnds.SendsAreTold | stt_server/server.py:1656-1671 | a commit, or a `session.closed`, whose send returned on an open connection was written |
| SessionEnds.StreamsAreCancelledFirst | stt_server/server.py:1843-1870 | a cancel while a decode streams goes to the stream before it goes to the task |
| SessionHandlers.Connection.Send | stt_server/server.py:1882-1912 | a full write buffer closes the session exactly on an unforced send of an open one |
| SessionHandlers.Connection.HandleBinaryAudio | stt_server/server.py:1480-1518 | the first failing check names the error; an append is accepted whole or not at all |
| SessionHandlers.Connection.OnAudioAppendJson | stt_server/server.py:1611-1629 | an undecodable append is refused before any other check |
| SessionHandlers.Connection.OnCommit | stt_server/server.py:1631-1668 | the whole buffer leaves as one utterance, or the error is named and nothing changes |
| SessionHandlers.Connection.CreateDecode | stt_server/server.py:1668-1671 | the decode task of a commit gets exactly the committed audio |
| SessionHandlers.Connection.OnClear | stt_server/server.py:1673-1698 | refused exactly while a decode is in flight |
| SessionHandlers.Connection.TeardownSession | stt_server/server.py:1872-1880 | cancels and awaits a decode in flight, else closes |
| SessionHandlers.Connection.OnClose | stt_server/server.py:1805-1842 | waits for a decode in flight when no shutdown has begun, cancels it and says `session.closed` when the server shuts down, and says `session.closed` at once when there is none |
| SessionHandlers.Connection.OnCancel | stt_server/server.py:1843-1870 | drops the buffer, then cancels the stream, the decode, or says `session.closed` |
| SessionHandlers.Connection.Receive | stt_server/server.py:1420-1442 | the receive loop on any message does what its step says and keeps every result about one connection |
| SessionHandlers.Connection.Resume | stt_server/server.py:1656-1671 | so does the handler when its wait is over, whatever it waited for |
| SessionHandlers.Connection.ReplyAgain | stt_server/server.py:1384-1419 | so does one more event in an answer: the greetings, a second event, an `internal_error` |
| SessionHandlers.Connection.Interrupt | stt_server/server.py:1872-1880 | so does a cancel that arrives |
| Serve.StepInv | stt_server/server.py:2082-2186 | every step of `serve`, its two tasks and its server keeps the invariant |
| Serve.PublishedOnceAndReady | stt_server/server.py:2104-2153 | `publish_ready` runs at most once, only while RUNNING, with no stop recorded and the preparation finished |
| Serve.PublishesExactly | stt_server/server.py:2149-2154 | a race's end publishes exactly when no stop is recorded and the last step due (the readiness step if there is one, else startup) ended well; no other step publishes |
| Serve.WaitsPublished | stt_server/server.py:2149-2156 | a `serve` that waits for its stop has published, once |
| Serve.GoesOn | stt_server/server.py:2104-2156 | without a stop a step that ended well leads to the readiness step, its task created, or to the wait for a stop |
| Serve.StopLeadsOut | stt_server/server.py:2082-2121 | a stop that is seen leads to the cancelled step's bounded wait or to the shutdown, and that wait leads to the shutdown |
| Serve.RaisesExactly | stt_server/server.py:2154-2175 | each step adds exactly the failures of what it awaited: none is swallowed, none is made up |
| Serve.HardExitsExactly | stt_server/server.py:2122-2183 | a hard exit happens exactly for a stop during an unfinished step, and after a shutdown that left work, where hard exits are enabled |
| Serve.ExitsSettled | stt_server/server.py:2082-2174 | every exit that is not hard shut the server down once, each step finished, adopted, or a start that never took its first step; `adopt` never raises |
| Serve.SettleSettles | stt_server/server.py:2082-2102 | a step that outlives its bounded wait is adopted, unless it never began |
| Serve.ReadinessMarksInTime | stt_server/server.py:2082-2121 | the readiness step marks its decodes only while the server is RUNNING, before any shutdown and any end of a drain |
| ServeServer.ServeReckonsWithEveryStep | stt_server/server.py:812-857 | every step of a server that is not one of `serve`'s two calls is, for `serve`, at most the end of a drain and then the end of its start or the last settling, each possible where `serve` stands |
| ServeServer.ServeStarts | stt_server/server.py:812-832 | the first step of `start()` moves both machines alike |
| ServeServer.ServeShutsDown | stt_server/server.py:1157-1170 | `shutdown()` moves both machines alike |
| ServeServer.ReadinessIsNotLate | stt_server/server.py:2082-2121 | no decode that `serve`'s readiness step marks is one of the late ones that can lose the lock |
| Serve.FirstFailureLeaves | stt_server/server.py:2154-2175 | the first exception raised is the one that leaves |
| Serve.HardExitCode | stt_server/server.py:2176-2183 | a hard exit after a shutdown exits 1 exactly when something had failed |
| OwnedGroup.Group.Start | scripts/_smoke_lib.py:736-790 | a constructor that fails after the spawn kills and reaps, and says so when the group is not shown stopped, unless that clean-up raises itself |
| OwnedGroup.Group.KillGroup | scripts/_smoke_lib.py:823-845 | the kill lands for success, ESRCH, and EPERM with the leader known or seen to be gone, and for nothing else |
| OwnedGroup.Group.Reap | scripts/_smoke_lib.py:847-870 | the reap is the last use of the pid; it can raise before its wait and after it |
| OwnedGroup.Group.Await | scripts/_smoke_lib.py:936-959 | every return that does not raise is for a leader seen to have exited, or for a deadline that passed or a held signal that was asked to stop it, after which the leader left or the grace was given; `timedOut` exactly for the deadline; the leader is asked with the signal of that cause, and otherwise with none |
| OwnedGroup.Group.StopGroup | scripts/_smoke_lib.py:936-959 | the group is killed and the leader reaped, in this order, and the verdict is exactly that one of the two could not be shown |
| OwnedGroup.Group.Conclude | scripts/_smoke_lib.py:956-971 | the verdict leaves, alone or carried by the handler's exception, exactly unless a late signal hides it; the redelivery happens exactly unless one is in the way |
| OwnedGroup.Group.RunOwned | scripts/_smoke_lib.py:877-971 | no signal after the reap; a normal return means killed and reaped after such a wait, and says whether its deadline passed; the log is exactly the one signal of that wait, the kill, the reap and the redelivery; a group is told about exactly when it was started and not shown stopped, except when a failed constructor's clean-up raised or a late signal hides the verdict; the first held signal is redelivered exactly once, last, unless a late one is in the way; the handlers are back unless one lands while they are exchanged |
| OwnedGroup.Group.UntoldGroup | scripts/_smoke_lib.py:780-790 | an input in which nothing tells about a group that was not stopped: EPERM, and the look for the leader's exit raises |
| OwnedGroup.Group.HiddenVerdict | scripts/_smoke_lib.py:956-971 | an input in which a signal after the hold hides the verdict about a group that was not killed, and nothing is redelivered |
| OwnedGroup.HiddenIff | scripts/_smoke_lib.py:780-790 | exactly which clean-ups hide such a group |
| Teardown.StepInv | scripts/smoke_launchd.py:1747-1805 | every statement and every signal between two of them keeps the invariant |
| Teardown.NoSignalEscapes | scripts/smoke_launchd.py:1576-1587 | at most one KeyboardInterrupt, none escapes, exactly one teardown before the table, and an interrupted run never exits 0 |
| Teardown.SignalRaises | scripts/smoke_launchd.py:1576-1587 | the first signal raises, once, and leads to an `except` body or is carried by a verdict; every later one changes nothing at all |
| Teardown.WhoTearsDown | scripts/smoke_launchd.py:1725-1735 | signals are ignored only after a first one, or once the teardown began to switch over |
| Teardown.SignalledRunFails | scripts/smoke_launchd.py:1747-1805 | a run that a signal reached never exits 0 |
| Teardown.ActsExactly | scripts/smoke_launchd.py:943-994 | an installer is started exactly by a check's call and by a teardown without a recorded verdict, and something is unlinked exactly by the removal |
| Teardown.VerdictOrThaw | scripts/smoke_launchd.py:968-994 | for every installer call that ended as not stopped: when the table is printed it is recorded and nothing was started or unlinked since, or a signal landed before its record and an installer was started again |
| Teardown.FrozenAfterTheRecord | scripts/smoke_launchd.py:943-994 | once an installer call is recorded as not stopped, no later step starts an installer or unlinks anything |
| Teardown.FrozenUnlessLost | scripts/smoke_launchd.py:1410-1438 | the same from the verdict on, at every later step, unless a signal lands before its record |
| Teardown.FrozenIff | scripts/smoke_launchd.py:968-994 | when the table is printed nothing was started or unlinked since the verdict exactly when no signal landed before its record |
| Teardown.LostMeansThawed | scripts/smoke_launchd.py:968-994 | wherever a verdict was lost, also inside `run_owned`, an installer was started again by the time the table is printed |
| Teardown.LostVerdictThaws | scripts/smoke_launchd.py:968-994 | a run in which that signal loses the verdict and the teardown unlinks |
| SquatCheck.Parse | scripts/squat_check.py:195-214 | exactly the processes that listen on the host or a wildcard, each once |
| SquatCheck.MatchesIff | scripts/squat_check.py:217-233 | however the two are written (brackets, blanks, case), a listener counts exactly when some address is taken both by it and by a bind to the host; any host matches every listener |
| SquatCheck.CaseIgnored | scripts/squat_check.py:217-218 | two names are told apart exactly when they differ in more than the case of their letters |
| SquatCheck.Check | scripts/squat_check.py:374-458 | it warns exactly when both passes find a listener that is not the job's process and, with a label, the two job reads agree and the counter was read in both; the warning names exactly those; it is quiet only when the job is not loaded or a read cleared the finding |
| SquatCheck.NoCounterNoWarning | scripts/squat_check.py:277-325 | an answer without a spawn counter, of a running job or not, never confirms a warning |
| SquatCheck.WarningsAreSound | scripts/squat_check.py:414-441 | a warning with a label means that at the second listener read the job was loaded and everything named was listening and was not the job's process, for every timeline without a load between the reads |
| SquatCheck.ReloadHidesTheJob | scripts/squat_check.py:414-441 | with a load between the reads every warning has a timeline in which it names the job's own process |
| EditDistance.EditDistance | scripts/benchmark_asr_ab.py:126-140 | the two-row loop computes the distance of the two token lists |
| EditDistance.NoScriptIsCheaper | scripts/benchmark_asr_ab.py:126-140 | no script of edits is cheaper than the distance |
| EditDistance.SomeScriptReachesIt | scripts/benchmark_asr_ab.py:126-140 | some script costs exactly the distance |
| EditDistance.ZeroOnlyOnEqual | scripts/benchmark_asr_ab.py:126-140 | the distance is 0 exactly on equal lists |
| EditDistance.AtMostLonger | scripts/benchmark_asr_ab.py:126-140 | it is at most the longer length |
| EditDistance.Triangle | scripts/benchmark_asr_ab.py:126-140 | it satisfies the triangle inequality |
| EditDistance.WordErrorRate | scripts/benchmark_asr_ab.py:115-140 | the rate, with its special case for an empty reference; 0 exactly on equal lists |
| ArgvFlags.ReadArgvFlags | scripts/read_stt_plist.py:147-165 | the loop reads each element as the grammar says |
| ArgvFlags.ReaderUndoesPrinter | scripts/read_stt_plist.py:147-165 | options in either spelling, mixed with switches and words, read back as the last value of each known flag, and a value is never read as a flag |
| ArgvFlags.RenderArgv | scripts/render_stt_plist.py:169-206 | the argv built step by step is the printed item list |
| ArgvFlags.RenderedReadsBack | scripts/render_stt_plist.py:125-208 | the rendered argv reads back as exactly its transport and its token file |
| ArgvFlags.ChosenIff | scripts/render_stt_plist.py:125-152 | a transport is chosen exactly when it is what the variables name: a socket alone with an allowed path, or a loopback host (127.0.0.1 unless one is named) with a port in range; everything else is refused |
| ArgvFlags.EnvironmentReadsBack | scripts/render_stt_plist.py:125-208 | every accepted environment reads back from its own argv: the socket path, or the host and the port's number, the token file, and no other endpoint |
| ArgvFlags.PortSurvives | scripts/render_stt_plist.py:139-152 | an accepted port, zero-padded or not, reads back as its number |

## Left out

- TCP mode of the lock results: there is no lock there.
- websockets, asyncio, sockets, `flock`, `lsof`, `launchctl`, processes and time are steps of the environment, with the assumptions above.
- Model loading, MLX and Metal, downloads, audio files and resampling: foreign code and numerics.
- JSON shapes, log lines, message texts, tables and the command line.
- Peer credentials, bearer checks and the walks over token files and socket directories.
- The order of the lines of `live_work_reasons`, which is the dictionary's.
- What a raising cleanup did before it raised (`_close_orphan_listener` may have recorded the inode or begun the close).
- SessionInvariant.StepInv: a decode task that raises out of its own error reply, and an exception that leaves a handler in the middle of a wait, are no steps; the greetings, second events and an `internal_error` after a reply are.
- SessionHandlers.Connection.Receive: the JSON of a text frame is parsed already, and `session.update` is a reply.
- EditDistance.WordErrorRate: it takes the token lists; normalising and splitting the text, and the rounding of the division, are left out.
- LockTable.AtMostOneBusy: a decode thread marked after its server's drain is left out, since it can outlive the lock (see Findings).
- LifecycleRuns.ListenerAlwaysCovered: a bind or close cancelled by somebody else is left out (see Assumptions and ForeignCancel.dfy).
- The contents of transcripts: deltas and terminal events carry their item only.
- A signal of a kind whose handler the launchd harness has not installed yet, and the handlers it restores at the end.
- An unheld signal whose handler is the system's default ends the process: no outcome is modelled.
- Teardown.StepInv: an installer call whose group a failed constructor's clean-up hid (`unsure` in OwnedGroup.dfy) is no verdict there.
- Non-ASCII white space and letters in host names (`_norm`) and in the labels of `adopt`.
- The renderer's label, directory and log checks, and the plist file itself.
- The launchd harness's checks themselves, its lock-and-inode proof before it removes the spare socket, and the installer, whose source is not part of this model.
