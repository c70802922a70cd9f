/** One connection: its sequential message handler and the decode task beside
    it, over one buffer and one stream of delivered events. */
module Session {
  import opened Wrappers

  type Byte = bv8

  const SAMPLE_WIDTH := 2

  datatype Config = Config(maxAppend: nat, cap: nat)

  datatype Event = Committed(item: nat) | Delta(item: nat) | Terminal(item: nat) | SessionClosed | Other

  /** Where a decode task is. `Sending` and `Final`: in `_send` of a delta, or of
      the terminal event (completed or failed). `lost`: that event was not written. */
  datatype DecodePc = Opening | Streaming | Sending(lost: bool) | Final(lost: bool) | Unwinding | Done(unwound: bool)

  /** `cancelled`: a cancel was requested; it arrives at the task's next step. */
  datatype Decode = Decode(item: nat, pc: DecodePc, cancelled: bool)

  /** Where the handler is. */
  datatype Pc = Ready | Replying(lost: bool) | CommitSend(item: nat, audio: seq<Byte>, lost: bool)
              | CloseWait | CloseAwait | CancelStream | CancelAwait
              | ClosedSend(lost: bool) | WsClosing | TeardownAwait | Finished

  /** What became of the accepted bytes that left the buffer. */
  datatype Segment = Utterance(item: nat, audio: seq<Byte>) | Dropped(audio: seq<Byte>)

  datatype State = State(
    config: Config,
    buffer: seq<Byte>,
    decode: Option<Decode>,   // `in_flight_task`
    stream: bool,             // `current_stream`
    closed: bool,
    pc: Pc,
    cancelPending: bool,      // a cancel of the handler was requested and has not arrived
    wsOpen: bool,
    shuttingDown: bool,
    // history
    trace: seq<Event>,
    nextItem: nat,
    accepted: seq<Byte>,
    segments: seq<Segment>,
    decoded: seq<Segment>,    // one entry for each decode task created
    abandoned: bool)          // the handler was cancelled at a commit's own send

  /** A handler begins with its greetings (`server.hello` and the two
      `session.created` events): replies before the first message. */
  function Begin(config: Config): State {
    State(config, [], None, false, false, Replying(false), false, true, false, [], 0, [], [], [], false)
  }

  predicate InFlight(s: State) { s.decode.Some? && !s.decode.value.pc.Done? }

  // ---------------------------------------------------------------- sending

  /** `Lost`: not written, because the connection is closed, or because the
      sender will be cancelled first. */
  datatype Outcome = Written | Lost | Overflows

  predicate CanBe(s: State, force: bool, out: Outcome) {
    match out
    case Written => s.wsOpen
    case Lost => true
    case Overflows => !force && !s.closed
  }

  /** `_send`. Frames are written in the order of the calls. */
  function Send(s: State, e: Event, out: Outcome): State {
    match out
    case Written => s.(trace := s.trace + [e])
    case Lost => s
    case Overflows => s.(closed := true, wsOpen := false)
  }

  predicate IsLost(out: Outcome) { !out.Written? }

  /** A send whose frame was never written returns only when the connection closed. */
  predicate Returns(s: State, lost: bool) { lost ==> !s.wsOpen }

  // ---------------------------------------------------------------- the handler

  datatype Code = InvalidEvent | PayloadTooLarge | BufferOverflow | BufferEmpty

  datatype Message = Append(data: Option<seq<Byte>>) | Commit | Clear | Close | Cancel | Unrelated

  /** The checks of an append, in the source's order; `None`: accepted. */
  function AppendCheck(config: Config, inFlight: bool, buffered: nat, size: nat): Option<Code> {
    if inFlight then Some(InvalidEvent)
    else if size > config.maxAppend then Some(PayloadTooLarge)
    else if size % SAMPLE_WIDTH != 0 then Some(InvalidEvent)
    else if buffered + size > config.cap then Some(BufferOverflow)
    else None
  }

  function CommitCheck(buffered: nat, inFlight: bool): Option<Code> {
    if buffered == 0 then Some(BufferEmpty) else if inFlight then Some(InvalidEvent) else None
  }

  function Reply(s: State, out: Outcome): State { Send(s, Other, out).(pc := Replying(IsLost(out))) }

  function Accept(s: State, data: seq<Byte>): State {
    s.(buffer := s.buffer + data, accepted := s.accepted + data)
  }

  /** The buffer is emptied without a commit. */
  function DropBuffer(s: State): State {
    s.(buffer := [], segments := s.segments + [Dropped(s.buffer)])
  }

  /** The buffer becomes an utterance. */
  function TakeUtterance(s: State): State {
    s.(buffer := [], segments := s.segments + [Utterance(s.nextItem, s.buffer)], nextItem := s.nextItem + 1)
  }

  function BeginCommit(s: State, out: Outcome): State {
    Send(TakeUtterance(s), Committed(s.nextItem), out).(pc := CommitSend(s.nextItem, s.buffer, IsLost(out)))
  }

  function CancelDecode(s: State): State {
    if s.decode.Some? then s.(decode := Some(s.decode.value.(cancelled := true))) else s
  }

  function SetPc(s: State, pc: Pc): State { s.(pc := pc) }

  /** `closed = True`, then the forced `session.closed`. */
  function SayClosed(s: State, out: Outcome): State {
    Send(s.(closed := true), SessionClosed, out).(pc := ClosedSend(IsLost(out)))
  }

  function OnClose(s: State, out: Outcome): State {
    if !InFlight(s) then SayClosed(s, out)
    else if s.shuttingDown then SayClosed(CancelDecode(s), out)
    else SetPc(s, CloseWait)
  }

  function StopDecode(s: State, out: Outcome): State {
    if InFlight(s) then SetPc(CancelDecode(s), CancelAwait) else SayClosed(s, out)
  }

  function OnCancel(s: State, out: Outcome): State {
    if s.stream then SetPc(DropBuffer(s), CancelStream) else StopDecode(DropBuffer(s), out)
  }

  function OnAppend(s: State, data: Option<seq<Byte>>, out: Outcome): State {
    if data == None then Reply(s, out)
    else if AppendCheck(s.config, InFlight(s), |s.buffer|, |data.value|) == None then Accept(s, data.value)
    else Reply(s, out)
  }

  function OnCommit(s: State, out: Outcome): State {
    if CommitCheck(|s.buffer|, InFlight(s)) == None then BeginCommit(s, out) else Reply(s, out)
  }

  function OnClear(s: State, out: Outcome): State {
    if InFlight(s) then Reply(s, out) else Reply(DropBuffer(s), out)
  }

  /** `_teardown_session`. */
  function Teardown(s: State): State {
    if InFlight(s) then SetPc(CancelDecode(s), TeardownAwait) else s.(closed := true, pc := Finished)
  }

  /** A message in the receive loop; once closed, the loop ends. */
  function OnMessage(s: State, m: Message, out: Outcome): State {
    if s.closed then Teardown(s)
    else match m
      case Append(data) => OnAppend(s, data, out)
      case Commit => OnCommit(s, out)
      case Clear => OnClear(s, out)
      case Close => OnClose(s, out)
      case Cancel => OnCancel(s, out)
      case Unrelated => Reply(s, out)
  }

  /** The decode task of a commit whose send returned. */
  function CreateDecode(s: State, item: nat, audio: seq<Byte>): State {
    s.(decode := Some(Decode(item, Opening, false)), decoded := s.decoded + [Utterance(item, audio)], pc := Ready)
  }

  /** `except (CancelledError, Exception): pass` around the awaited decode. */
  function Swallowed(s: State): State { s.(cancelPending := false) }

  /** The handler's wait is over. */
  function Resume(s: State, out: Outcome): State {
    match s.pc
    case Replying(_) => SetPc(s, Ready)
    case CommitSend(item, audio, _) => CreateDecode(s, item, audio)
    case CloseWait => if s.decode.Some? && s.decode.value.pc == Done(true) then Teardown(s) else SayClosed(s, out)
    case CloseAwait => SayClosed(Swallowed(s), out)
    case CancelStream => StopDecode(s, out)
    case CancelAwait => SayClosed(Swallowed(s), out)
    case ClosedSend(_) => s.(pc := WsClosing, wsOpen := false)
    case WsClosing => SetPc(s, Ready)
    case TeardownAwait => s.(closed := true, pc := Finished)
    case Ready => s
    case Finished => s
  }

  /** The cancel arrives. While the handler awaits its decode task unshielded it
      is swallowed (`Resume` covers that). */
  function Interrupt(s: State): State {
    Teardown(s.(cancelPending := false, abandoned := s.abandoned || s.pc.CommitSend?))
  }

  // ---------------------------------------------------------------- the decode task

  function SetDecode(s: State, pc: DecodePc): State
    requires s.decode.Some?
  {
    s.(decode := Some(s.decode.value.(pc := pc)))
  }

  function DecodeSends(s: State, e: Event, out: Outcome, pc: DecodePc): State
    requires s.decode.Some?
  {
    SetDecode(Send(s, e, out), pc)
  }

  function DecodeOver(s: State, unwound: bool): State
    requires s.decode.Some?
  {
    SetDecode(s.(stream := false), Done(unwound))
  }

  datatype Action =
    | Received(m: Message, out: Outcome)
    | LoopEnds
    | Resumed(out: Outcome)
    | RepliesAgain(out: Outcome)     // the greetings, a second event, an `internal_error`
    | CloseTimedOut
    | HandlerCancel
    | HandlerInterrupted
    | ConnectionLost
    | ShutdownBegins
    | DecodeCancel
    | StreamOpened
    | DeltaSent(out: Outcome)
    | DeltaReturned
    | CompletedSent(out: Outcome)
    | FailedSent(out: Outcome)
    | FinalReturned
    | DecodeInterrupted(waits: bool)
    | DecodeUnwound

  predicate DecodeMoves(s: State) { InFlight(s) && !s.decode.value.cancelled }

  /** The handler awaits its decode task itself, unshielded. */
  predicate AwaitsDecode(pc: Pc) { pc.CloseAwait? || pc.CancelAwait? || pc.TeardownAwait? }

  predicate MayResume(s: State) {
    match s.pc
    case Replying(lost) => Returns(s, lost)
    case CommitSend(_, _, lost) => Returns(s, lost)
    case CloseWait => !InFlight(s)
    case CloseAwait => !InFlight(s)
    case CancelStream => true
    case CancelAwait => !InFlight(s)
    case ClosedSend(lost) => Returns(s, lost)
    case WsClosing => true
    case TeardownAwait => !InFlight(s)
    case Ready => false
    case Finished => false
  }

  /** Errors and `session.closed` are forced past the backpressure check; other
      replies are not. */
  predicate Forced(s: State, m: Message) {
    match m
    case Append(_) => true
    case Commit => CommitCheck(|s.buffer|, InFlight(s)).Some?
    case Clear => InFlight(s)
    case Close => true
    case Cancel => true
    case Unrelated => false
  }

  predicate Enabled(s: State, a: Action) {
    match a
    case Received(m, out) => s.pc.Ready? && !s.cancelPending && CanBe(s, Forced(s, m), out)
    case LoopEnds => s.pc.Ready? && !s.cancelPending && !s.wsOpen
    case Resumed(out) => MayResume(s) && (s.cancelPending ==> AwaitsDecode(s.pc)) && CanBe(s, true, out)
    case RepliesAgain(out) => s.pc.Replying? && Returns(s, s.pc.lost) && !s.cancelPending && CanBe(s, false, out)
    case CloseTimedOut => s.pc.CloseWait? && !s.cancelPending && InFlight(s)
    case HandlerCancel => !s.pc.Finished?
    case HandlerInterrupted => s.cancelPending && !AwaitsDecode(s.pc) && !s.pc.Finished?
    case ConnectionLost => true
    case ShutdownBegins => true
    case DecodeCancel => InFlight(s)
    case StreamOpened => DecodeMoves(s) && s.decode.value.pc.Opening?
    case DeltaSent(out) => DecodeMoves(s) && s.decode.value.pc.Streaming? && CanBe(s, false, out)
    case DeltaReturned => DecodeMoves(s) && s.decode.value.pc.Sending? && Returns(s, s.decode.value.pc.lost)
    case CompletedSent(out) => DecodeMoves(s) && s.decode.value.pc.Streaming? && CanBe(s, false, out)
    case FailedSent(out) =>
      DecodeMoves(s) && (s.decode.value.pc.Opening? || s.decode.value.pc.Streaming?) && CanBe(s, true, out)
    case FinalReturned => DecodeMoves(s) && s.decode.value.pc.Final? && Returns(s, s.decode.value.pc.lost)
    case DecodeInterrupted(waits) =>
      && InFlight(s) && s.decode.value.cancelled && !s.decode.value.pc.Unwinding?
      && (waits ==> s.stream)
    case DecodeUnwound => InFlight(s) && s.decode.value.pc.Unwinding?
  }

  function Do(s: State, a: Action): State
    requires Enabled(s, a)
  {
    match a
    case Received(m, out) => OnMessage(s, m, out)
    case LoopEnds => Teardown(s)
    case Resumed(out) => Resume(s, out)
    case RepliesAgain(out) => Reply(s, out)
    case CloseTimedOut => SetPc(CancelDecode(s), CloseAwait)
    case HandlerCancel => s.(cancelPending := true)
    case HandlerInterrupted => Interrupt(s)
    case ConnectionLost => s.(wsOpen := false)
    case ShutdownBegins => s.(shuttingDown := true)
    case DecodeCancel => CancelDecode(s)
    case StreamOpened => SetDecode(s.(stream := true), Streaming)
    case DeltaSent(out) => DecodeSends(s, Delta(s.decode.value.item), out, Sending(IsLost(out)))
    case DeltaReturned => SetDecode(s, Streaming)
    case CompletedSent(out) => DecodeSends(s, Terminal(s.decode.value.item), out, Final(IsLost(out)))
    case FailedSent(out) => DecodeSends(s, Terminal(s.decode.value.item), out, Final(IsLost(out)))
    case FinalReturned => DecodeOver(s, false)
    case DecodeInterrupted(waits) => if waits then SetDecode(s, Unwinding) else DecodeOver(s, true)
    case DecodeUnwound => DecodeOver(s, true)
  }

  ghost predicate Run(config: Config, ss: seq<State>, as_: seq<Action>) {
    && |ss| == |as_| + 1 && ss[0] == Begin(config)
    && forall k :: 0 <= k < |as_| ==> Enabled(ss[k], as_[k]) && ss[k + 1] == Do(ss[k], as_[k])
  }
}
