/** What each message does to the buffer and to the trace, who cancels a decode,
    and that every decode and every closed session is told about. */
module SessionEnds {
  import opened Wrappers
  import opened Session
  import opened SessionInvariant

  // ---------------------------------------------------------------- what a message does

  /** An append is taken exactly when nothing is decoding, the data decoded, and it
      is small enough, whole samples, and within the cap. */
  predicate Fits(s: State, data: Option<seq<Byte>>) {
    && !InFlight(s) && data.Some? && |data.value| <= s.config.maxAppend && |data.value| % 2 == 0
    && |s.buffer| + |data.value| <= s.config.cap
  }

  /** The buffer after a message to an open session. */
  function BufferAfter(s: State, m: Message): seq<Byte> {
    match m
    case Append(data) => if Fits(s, data) then s.buffer + data.value else s.buffer
    case Commit => []
    case Clear => if InFlight(s) then s.buffer else []
    case Cancel => []
    case Close => s.buffer
    case Unrelated => s.buffer
  }

  /** What became of the bytes that left it. */
  function SegmentsAfter(s: State, m: Message): seq<Segment> {
    match m
    case Commit => if s.buffer == [] then s.segments else s.segments + [Utterance(s.nextItem, s.buffer)]
    case Clear => if InFlight(s) then s.segments else s.segments + [Dropped(s.buffer)]
    case Cancel => s.segments + [Dropped(s.buffer)]
    case _ => s.segments
  }

  /** The event that the handler sends before its first wait, if any. */
  function Answer(s: State, m: Message): Option<Event> {
    match m
    case Append(data) => if Fits(s, data) then None else Some(Other)
    case Commit => Some(if s.buffer == [] then Other else Committed(s.nextItem))
    case Clear => Some(Other)
    case Close => if InFlight(s) && !s.shuttingDown then None else Some(SessionClosed)
    case Cancel => if s.stream || InFlight(s) then None else Some(SessionClosed)
    case Unrelated => Some(Other)
  }

  /** Where the handler is then; `lost`: what it sent was not written. */
  function WaitsAt(s: State, m: Message, lost: bool): Pc {
    match m
    case Append(data) => if Fits(s, data) then Ready else Replying(lost)
    case Commit => if s.buffer == [] then Replying(lost) else CommitSend(s.nextItem, s.buffer, lost)
    case Clear => Replying(lost)
    case Close => if InFlight(s) && !s.shuttingDown then CloseWait else ClosedSend(lost)
    case Cancel => if s.stream then CancelStream else if InFlight(s) then CancelAwait else ClosedSend(lost)
    case Unrelated => Replying(lost)
  }

  /** The same bytes, buffered, accepted and gone. */
  predicate SameBytes(s: State, t: State) {
    t.buffer == s.buffer && t.segments == s.segments && t.accepted == s.accepted
  }

  function Sent1(e: Event, out: Outcome): seq<Event> { if out.Written? then [e] else [] }

  lemma ReplyDoes(s: State, out: Outcome)
    ensures var t := Reply(s, out);
            SameBytes(s, t) && t.trace == s.trace + Sent1(Other, out) && t.pc == Replying(IsLost(out))
  {
  }

  lemma SayClosedDoes(s: State, out: Outcome)
    ensures var t := SayClosed(s, out);
            SameBytes(s, t) && t.trace == s.trace + Sent1(SessionClosed, out) && t.pc == ClosedSend(IsLost(out))
  {
  }

  lemma SetPcDoes(s: State, pc: Pc)
    ensures var t := SetPc(s, pc); SameBytes(s, t) && t.trace == s.trace && t.pc == pc
  {
  }

  lemma CancelDecodeDoes(s: State)
    ensures var t := CancelDecode(s); SameBytes(s, t) && t.trace == s.trace
  {
  }

  lemma DropBufferDoes(s: State)
    ensures var t := DropBuffer(s);
            && t.buffer == [] && t.segments == s.segments + [Dropped(s.buffer)] && t.accepted == s.accepted
            && t.trace == s.trace && t.stream == s.stream && t.decode == s.decode
  {
  }

  lemma AcceptDoes(s: State, data: seq<Byte>)
    ensures var t := Accept(s, data);
            && t.buffer == s.buffer + data && t.segments == s.segments && t.accepted == s.accepted + data
            && t.trace == s.trace && t.pc == s.pc
  {
  }

  lemma BeginCommitDoes(s: State, out: Outcome)
    ensures var t := BeginCommit(s, out);
            && t.buffer == [] && t.segments == s.segments + [Utterance(s.nextItem, s.buffer)]
            && t.accepted == s.accepted
            && t.trace == s.trace + Sent1(Committed(s.nextItem), out)
            && t.pc == CommitSend(s.nextItem, s.buffer, IsLost(out))
  {
    hide TakeUtterance, Send;
    TakeUtteranceDoes(s);
    SendDoes(TakeUtterance(s), Committed(s.nextItem), out);
  }

  lemma TakeUtteranceDoes(s: State)
    ensures var t := TakeUtterance(s);
            && t.buffer == [] && t.segments == s.segments + [Utterance(s.nextItem, s.buffer)]
            && t.accepted == s.accepted
            && t.trace == s.trace
  {
  }

  lemma SendDoes(s: State, e: Event, out: Outcome)
    ensures var t := Send(s, e, out); SameBytes(s, t) && t.trace == s.trace + Sent1(e, out)
  {
  }

  lemma AppendDoes(s: State, data: Option<seq<Byte>>, out: Outcome)
    requires s.pc.Ready?
    ensures var t := OnAppend(s, data, out);
            && t.buffer == BufferAfter(s, Append(data)) && t.segments == SegmentsAfter(s, Append(data))
            && t.accepted == s.accepted + (if Fits(s, data) then data.value else [])
            && t.trace == s.trace + (if Fits(s, data) then [] else Sent1(Other, out))
            && t.pc == WaitsAt(s, Append(data), IsLost(out))
  {
    hide Accept, Reply, Sent1;
    ReplyDoes(s, out);
    if data.Some? { AcceptDoes(s, data.value); }
  }

  lemma CommitDoes(s: State, out: Outcome)
    requires s.buffer != [] ==> !InFlight(s)
    ensures var t := OnCommit(s, out);
            && t.buffer == [] && t.segments == SegmentsAfter(s, Commit) && t.accepted == s.accepted
            && t.trace == s.trace + Sent1(Answer(s, Commit).value, out)
            && t.pc == WaitsAt(s, Commit, IsLost(out))
  {
    hide BeginCommit, Reply, Sent1;
    ReplyDoes(s, out);
    BeginCommitDoes(s, out);
  }

  lemma ClearDoes(s: State, out: Outcome)
    ensures var t := OnClear(s, out);
            && t.buffer == BufferAfter(s, Clear) && t.segments == SegmentsAfter(s, Clear) && t.accepted == s.accepted
            && t.trace == s.trace + Sent1(Other, out)
            && t.pc == WaitsAt(s, Clear, IsLost(out))
  {
    hide DropBuffer, Reply, Sent1;
    DropBufferDoes(s);
    ReplyDoes(s, out);
    ReplyDoes(DropBuffer(s), out);
  }

  lemma CloseDoes(s: State, out: Outcome)
    ensures var t := OnClose(s, out);
            && SameBytes(s, t)
            && t.trace == s.trace + (if Answer(s, Close).Some? then Sent1(SessionClosed, out) else [])
            && t.pc == WaitsAt(s, Close, IsLost(out))
  {
    hide SayClosed, CancelDecode, SetPc, Sent1;
    SayClosedDoes(s, out);
    CancelDecodeDoes(s);
    SayClosedDoes(CancelDecode(s), out);
    SetPcDoes(s, CloseWait);
  }

  lemma CancelDoes(s: State, out: Outcome)
    ensures var t := OnCancel(s, out);
            && t.buffer == [] && t.segments == SegmentsAfter(s, Cancel) && t.accepted == s.accepted
            && t.trace == s.trace + (if Answer(s, Cancel).Some? then Sent1(SessionClosed, out) else [])
            && t.pc == WaitsAt(s, Cancel, IsLost(out))
  {
    hide DropBuffer, SayClosed, CancelDecode, SetPc, Sent1, IsLost;
    DropBufferDoes(s);
    var u := DropBuffer(s);
    SetPcDoes(u, CancelStream);
    CancelDecodeDoes(u);
    SetPcDoes(CancelDecode(u), CancelAwait);
    SayClosedDoes(u, out);
  }

  /** Every message to an open session does exactly this, in every reachable state. */
  lemma MessagesDo(config: Config, ss: seq<State>, as_: seq<Action>, k: nat)
    requires Run(config, ss, as_) && k < |as_| && as_[k].Received? && !ss[k].closed
    ensures var s, t, m := ss[k], ss[k + 1], as_[k].m;
            && t.buffer == BufferAfter(s, m) && t.segments == SegmentsAfter(s, m)
            && t.accepted == s.accepted + (if m.Append? && Fits(s, m.data) then m.data.value else [])
            && t.trace == s.trace + (if Answer(s, m).Some? then Sent1(Answer(s, m).value, as_[k].out) else [])
            && t.pc == WaitsAt(s, m, IsLost(as_[k].out))
  {
    RunInv(config, ss, as_, k);
    MessageDoes(ss[k], as_[k].m, as_[k].out);
    hide Inv, BufferAfter, SegmentsAfter, WaitsAt, Answer, OnMessage, Forced, Fits, Sent1;
  }

  lemma MessageDoes(s: State, m: Message, out: Outcome)
    requires Inv(s) && s.pc.Ready? && !s.closed
    ensures var t := OnMessage(s, m, out);
            && t.buffer == BufferAfter(s, m) && t.segments == SegmentsAfter(s, m)
            && t.accepted == s.accepted + (if m.Append? && Fits(s, m.data) then m.data.value else [])
            && t.trace == s.trace + (if Answer(s, m).Some? then Sent1(Answer(s, m).value, out) else [])
            && t.pc == WaitsAt(s, m, IsLost(out))
  {
    BufferIsFree(s);
    hide Inv, OnAppend, OnCommit, OnClear, OnClose, OnCancel, Reply, Fits, Sent1;
    match m
    case Append(data) => AppendDoes(s, data, out);
    case Commit => CommitDoes(s, out);
    case Clear => ClearDoes(s, out);
    case Close => CloseDoes(s, out);
    case Cancel => CancelDoes(s, out);
    case Unrelated => ReplyDoes(s, out);
  }

  lemma BufferIsFree(s: State)
    requires Inv(s)
    ensures s.buffer != [] ==> !InFlight(s)
  {
  }

  // ---------------------------------------------------------------- who cancels a decode

  /** The steps that ask the decode in flight to cancel: a `session.cancel` (at once,
      or after its stream was cancelled), a close that waited too long or comes
      during a shutdown, the end of the session, and the server. */
  predicate Cancels(s: State, a: Action) {
    match a
    case Received(m, _) => s.closed || (m.Cancel? && !s.stream) || (m.Close? && s.shuttingDown)
    case Resumed(_) => s.pc.CancelStream?
    case CloseTimedOut => true
    case LoopEnds => true
    case HandlerInterrupted => true
    case DecodeCancel => true
    case _ => false
  }

  /** The decode in flight stays the decode, and is asked to cancel exactly by these. */
  predicate SameDecode(s: State, a: Action, t: State)
    requires InFlight(s)
  {
    && t.decode.Some? && t.decode.value.item == s.decode.value.item
    && (t.decode.value.cancelled <==> s.decode.value.cancelled || Cancels(s, a))
  }

  lemma TeardownCancels(s: State)
    requires InFlight(s)
    ensures Teardown(s).decode == Some(s.decode.value.(cancelled := true))
  {
  }

  lemma CancelDecodeIs(s: State)
    requires s.decode.Some?
    ensures CancelDecode(s).decode == Some(s.decode.value.(cancelled := true))
  {
  }

  lemma KeptDecode(s: State, out: Outcome, pc: Pc)
    ensures SayClosed(s, out).decode == s.decode && SetPc(s, pc).decode == s.decode && Reply(s, out).decode == s.decode
  {
  }

  lemma KeptBuffer(s: State, data: seq<Byte>, out: Outcome)
    ensures DropBuffer(s).decode == s.decode && DropBuffer(s).stream == s.stream
    ensures DropBuffer(s).shuttingDown == s.shuttingDown
    ensures Accept(s, data).decode == s.decode
  {
  }

  lemma CloseCancels(s: State, out: Outcome)
    requires InFlight(s)
    ensures OnClose(s, out).decode ==
              if s.shuttingDown then Some(s.decode.value.(cancelled := true)) else s.decode
  {
    hide SayClosed, CancelDecode, SetPc;
    CancelDecodeIs(s);
    KeptDecode(s, out, CloseWait);
    KeptDecode(CancelDecode(s), out, CloseWait);
  }

  lemma CancelCancels(s: State, out: Outcome)
    requires InFlight(s)
    ensures OnCancel(s, out).decode == if s.stream then s.decode else Some(s.decode.value.(cancelled := true))
  {
    hide SayClosed, CancelDecode, SetPc, DropBuffer;
    KeptBuffer(s, [], out);
    CancelDecodeIs(DropBuffer(s));
    KeptDecode(DropBuffer(s), out, CancelStream);
    KeptDecode(CancelDecode(DropBuffer(s)), out, CancelAwait);
  }

  lemma MessageCancels(s: State, m: Message, out: Outcome)
    requires InFlight(s) && (s.buffer == [])
    ensures OnMessage(s, m, out).decode ==
              if s.closed || (m.Cancel? && !s.stream) || (m.Close? && s.shuttingDown)
              then Some(s.decode.value.(cancelled := true)) else s.decode
  {
    hide Reply, OnClose, OnCancel, Teardown, Accept, DropBuffer, BeginCommit;
    TeardownCancels(s);
    CloseCancels(s, out);
    CancelCancels(s, out);
    KeptDecode(s, out, Ready);
  }

  lemma HandlerCancels(s: State, a: Action)
    requires Inv(s) && Enabled(s, a) && InFlight(s) && (a.Received? || a.LoopEnds? || a.HandlerInterrupted?)
    ensures SameDecode(s, a, Do(s, a))
  {
    BufferIsFree(s);
    hide Inv, Teardown, OnMessage;
    if a.Received? { MessageCancels(s, a.m, a.out); }
    TeardownCancels(s);
    TeardownCancels(s.(cancelPending := false, abandoned := s.abandoned || s.pc.CommitSend?));
  }

  lemma ResumeCancels(s: State, a: Action)
    requires Inv(s) && Enabled(s, a) && InFlight(s) && a.Resumed?
    ensures SameDecode(s, a, Do(s, a))
  {
    hide Conserved, Decoded, Traced, SayClosed, CancelDecode, SetPc, Teardown, CreateDecode;
    CancelDecodeIs(s);
    KeptDecode(s, a.out, Ready);
    KeptDecode(CancelDecode(s), a.out, CancelAwait);
    KeptDecode(s.(pc := WsClosing, wsOpen := false), a.out, Ready);
  }

  lemma RestCancels(s: State, a: Action)
    requires Inv(s) && Enabled(s, a) && InFlight(s)
    requires !a.Received? && !a.LoopEnds? && !a.HandlerInterrupted? && !a.Resumed?
    ensures SameDecode(s, a, Do(s, a))
  {
    hide Conserved, Decoded, Traced;
  }

  /** A decode in flight is asked to cancel exactly by the steps of `Cancels`. */
  lemma WhoCancelsADecode(config: Config, ss: seq<State>, as_: seq<Action>, k: nat)
    requires Run(config, ss, as_) && k < |as_| && InFlight(ss[k])
    ensures SameDecode(ss[k], as_[k], ss[k + 1])
  {
    hide Inv, Do, Enabled, SameDecode;
    RunInv(config, ss, as_, k);
    if as_[k].Received? || as_[k].LoopEnds? || as_[k].HandlerInterrupted? { HandlerCancels(ss[k], as_[k]); }
    else if as_[k].Resumed? { ResumeCancels(ss[k], as_[k]); }
    else { RestCancels(ss[k], as_[k]); }
  }

  // ---------------------------------------------------------------- session.closed

  /** The step sends `session.closed`. */
  predicate SaysClosed(s: State, t: State) {
    |t.trace| > |s.trace| && t.trace[|t.trace| - 1].SessionClosed?
  }

  lemma ClosedByMessage(s: State, m: Message, out: Outcome)
    requires Inv(s) && s.pc.Ready? && SaysClosed(s, OnMessage(s, m, out)) && InFlight(s)
    ensures m.Close? && s.shuttingDown
  {
    hide Inv, OnMessage, BufferAfter, SegmentsAfter;
    if s.closed { ClosedIsQuiet(s, m, out); } else { MessageDoes(s, m, out); }
  }

  lemma ClosedIsQuiet(s: State, m: Message, out: Outcome)
    requires s.closed
    ensures OnMessage(s, m, out).trace == s.trace
  {
  }

  lemma ClosedByResume(s: State, out: Outcome)
    requires Inv(s) && Enabled(s, Resumed(out)) && InFlight(s)
    ensures Resume(s, out).trace == s.trace
  {
    hide Conserved, Decoded, Traced, SayClosed, CancelDecode, SetPc;
    CancelDecodeDoes(s);
    SetPcDoes(s, Ready);
    SetPcDoes(CancelDecode(s), CancelAwait);
  }

  /** The decode task's own parts. */
  predicate DecodeGoes(s: State, t: State, pc: DecodePc)
    requires s.decode.Some?
  {
    t.decode == Some(s.decode.value.(pc := pc)) && t.pc == s.pc && (t.wsOpen ==> s.wsOpen)
  }

  lemma SetDecodeGoes(s: State, pc: DecodePc)
    requires s.decode.Some?
    ensures DecodeGoes(s, SetDecode(s, pc), pc) && SetDecode(s, pc).trace == s.trace
    ensures SetDecode(s, pc).wsOpen == s.wsOpen && SetDecode(s, pc).stream == s.stream
  {
  }

  lemma OpenedGoes(s: State)
    requires s.decode.Some?
    ensures var t := SetDecode(s.(stream := true), Streaming);
            DecodeGoes(s, t, Streaming) && t.trace == s.trace && t.stream
  {
  }

  lemma DecodeOverGoes(s: State, unwound: bool)
    requires s.decode.Some?
    ensures var t := DecodeOver(s, unwound);
            DecodeGoes(s, t, Done(unwound)) && t.trace == s.trace && t.wsOpen == s.wsOpen
  {
  }

  lemma DecodeSendsGoes(s: State, e: Event, out: Outcome, pc: DecodePc)
    requires s.decode.Some?
    ensures var t := DecodeSends(s, e, out, pc);
            DecodeGoes(s, t, pc) && t.trace == s.trace + Sent1(e, out) && t.stream == s.stream
  {
  }

  predicate DecodeSteps(a: Action) {
    || a.StreamOpened? || a.DeltaSent? || a.DeltaReturned? || a.CompletedSent? || a.FailedSent?
    || a.FinalReturned? || a.DecodeInterrupted? || a.DecodeUnwound?
  }

  lemma ClosedByDecode(s: State, a: Action)
    requires Enabled(s, a) && InFlight(s) && DecodeSteps(a)
    ensures !SaysClosed(s, Do(s, a))
  {
    hide DecodeGoes, SetDecode, DecodeSends, DecodeOver;
    var item := s.decode.value.item;
    match a
    case StreamOpened => OpenedGoes(s);
    case DeltaSent(out) => DecodeSendsGoes(s, Delta(item), out, Sending(IsLost(out)));
    case DeltaReturned => SetDecodeGoes(s, Streaming);
    case CompletedSent(out) => DecodeSendsGoes(s, Terminal(item), out, Final(IsLost(out)));
    case FailedSent(out) => DecodeSendsGoes(s, Terminal(item), out, Final(IsLost(out)));
    case FinalReturned => DecodeOverGoes(s, false);
    case DecodeInterrupted(waits) =>
      SetDecodeGoes(s, Unwinding);
      DecodeOverGoes(s, true);
    case DecodeUnwound => DecodeOverGoes(s, true);
  }

  lemma ClosedByRest(s: State, a: Action)
    requires Enabled(s, a) && InFlight(s) && !a.Received? && !a.Resumed? && !DecodeSteps(a)
    ensures !SaysClosed(s, Do(s, a))
  {
    hide CancelDecode, SetPc, Teardown, Reply;
    TeardownIsQuiet(s);
    TeardownIsQuiet(s.(cancelPending := false, abandoned := s.abandoned || s.pc.CommitSend?));
    CancelDecodeDoes(s);
    SetPcDoes(CancelDecode(s), CloseAwait);
    if a.RepliesAgain? { ReplyDoes(s, a.out); }
  }

  lemma TeardownIsQuiet(s: State)
    ensures Teardown(s).trace == s.trace
  {
  }

  lemma ClosedStep(s: State, a: Action)
    requires Inv(s) && Enabled(s, a) && SaysClosed(s, Do(s, a)) && InFlight(s)
    ensures a.Received? && a.m.Close? && s.shuttingDown
  {
    hide Inv, OnMessage, Resume;
    if a.Received? { ClosedByMessage(s, a.m, a.out); }
    else if a.Resumed? { ClosedByResume(s, a.out); }
    else if DecodeSteps(a) { ClosedByDecode(s, a); }
    else { ClosedByRest(s, a); }
  }

  /** `session.closed` is written only after the decode is over; the one exception
      is a close during the server's shutdown, which cancels it without waiting. */
  lemma ClosedAfterTheDecode(config: Config, ss: seq<State>, as_: seq<Action>, k: nat)
    requires Run(config, ss, as_) && k < |as_| && SaysClosed(ss[k], ss[k + 1]) && InFlight(ss[k])
    ensures as_[k].Received? && as_[k].m.Close? && ss[k].shuttingDown && ss[k + 1].decode.value.cancelled
  {
    RunInv(config, ss, as_, k);
    ClosedStep(ss[k], as_[k]);
    WhoCancelsADecode(config, ss, as_, k);
    hide Inv, Do, Enabled;
  }

  /** The session is closed, and `session.closed` sent. */
  predicate SaidClosed(s: State, t: State, out: Outcome) {
    t.pc == ClosedSend(IsLost(out)) && t.closed && t.trace == s.trace + (if out.Written? then [SessionClosed] else [])
  }

  predicate AsksToCancel(s: State, t: State) {
    s.decode.Some? && t.decode == Some(s.decode.value.(cancelled := true)) && t.trace == s.trace
  }

  /** Nothing more is sent: the decode in flight is cancelled and awaited first. */
  predicate TearsDown(s: State, t: State) {
    t.trace == s.trace && if InFlight(s) then t.pc.TeardownAwait? && AsksToCancel(s, t) else t.pc.Finished? && t.closed
  }

  /** Where each of the handler's waits leads when it is over. */
  predicate Leads(s: State, out: Outcome, t: State) {
    match s.pc
    case Replying(_) => t == s.(pc := Ready)
    case CommitSend(item, audio, _) =>
      && t.pc.Ready? && t.decode == Some(Decode(item, Opening, false)) && t.trace == s.trace
      && t.decoded == s.decoded + [Utterance(item, audio)]
    case CloseWait =>
      if s.decode.Some? && s.decode.value.pc == Done(true) then TearsDown(s, t) else SaidClosed(s, t, out)
    case CloseAwait => SaidClosed(s, t, out) && !t.cancelPending
    case CancelStream => if InFlight(s) then t.pc.CancelAwait? && AsksToCancel(s, t) else SaidClosed(s, t, out)
    case CancelAwait => SaidClosed(s, t, out) && !t.cancelPending
    case ClosedSend(_) => t == s.(pc := WsClosing, wsOpen := false)
    case WsClosing => t == s.(pc := Ready)
    case TeardownAwait => t == s.(pc := Finished, closed := true)
    case _ => false
  }

  lemma TeardownTearsDown(s: State)
    ensures TearsDown(s, Teardown(s))
  {
  }

  lemma StopDecodeLeads(s: State, out: Outcome)
    ensures var t := StopDecode(s, out);
            if InFlight(s) then t.pc.CancelAwait? && AsksToCancel(s, t) else SaidClosed(s, t, out)
  {
    hide Send;
    SaysIt(s, out);
  }

  lemma SaysIt(s: State, out: Outcome)
    ensures SaidClosed(s, SayClosed(s, out), out) && SayClosed(s, out).cancelPending == s.cancelPending
  {
  }

  lemma WaitLeads(s: State, out: Outcome)
    requires MayResume(s)
    ensures Leads(s, out, Resume(s, out))
  {
    hide SayClosed, StopDecode, Teardown, InFlight, SaidClosed;
    TeardownTearsDown(s);
    StopDecodeLeads(s, out);
    SaysIt(s, out);
    SaysIt(Swallowed(s), out);
    SwallowedSays(s, out);
  }

  lemma SwallowedSays(s: State, out: Outcome)
    ensures SaidClosed(s, SayClosed(Swallowed(s), out), out)
  {
  }

  /** Over every run: where the handler goes when a wait of its is over, when a
      close's wait times out, and when the loop ends or its own cancel arrives. */
  lemma WaitsDo(config: Config, ss: seq<State>, as_: seq<Action>, k: nat)
    requires Run(config, ss, as_) && k < |as_|
    ensures as_[k].Resumed? ==> Leads(ss[k], as_[k].out, ss[k + 1])
    ensures as_[k].CloseTimedOut? ==> ss[k + 1].pc.CloseAwait? && AsksToCancel(ss[k], ss[k + 1])
    ensures as_[k].LoopEnds? || as_[k].HandlerInterrupted? || (as_[k].Received? && ss[k].closed) ==>
              TearsDown(ss[k], ss[k + 1])
  {
    hide Leads, Resume, Teardown, TearsDown;
    var s, a := ss[k], as_[k];
    if a.Resumed? { WaitLeads(s, a.out); }
    TeardownTearsDown(s);
    if a.HandlerInterrupted? { InterruptTearsDown(s); }
  }

  lemma InterruptTearsDown(s: State)
    ensures TearsDown(s, Interrupt(s))
  {
  }

  /** A handler that has finished leaves no decode in flight. */
  lemma FinishedHasNoDecode(config: Config, ss: seq<State>, as_: seq<Action>, k: nat)
    requires Run(config, ss, as_) && k < |ss| && ss[k].pc.Finished?
    ensures !InFlight(ss[k])
  {
    hide Do, Enabled;
    RunInv(config, ss, as_, k);
  }

  // ---------------------------------------------------------------- nothing is swallowed

  /** What was sent and not lost is in the trace. */
  ghost predicate Told(s: State) {
    && (s.pc.CommitSend? && !s.pc.lost ==> Committed(s.pc.item) in s.trace)
    && (s.pc.ClosedSend? && !s.pc.lost ==> SessionClosed in s.trace)
    && (s.decode.Some? ==>
      var d := s.decode.value;
      && (d.pc.Sending? && !d.pc.lost ==> Delta(d.item) in s.trace)
      && (d.pc.Final? && !d.pc.lost ==> Terminal(d.item) in s.trace)
      && (d.pc == Done(false) ==> Terminal(d.item) in s.trace || !s.wsOpen)
      && (d.pc == Done(true) || d.pc.Unwinding? ==> d.cancelled)
      && (d.pc.Streaming? || d.pc.Sending? ==> s.stream))
  }

  /** A part of the handler's segments: it may append to the trace, close the
      connection and ask the decode to cancel. */
  predicate Onward(s: State, t: State) {
    && s.trace <= t.trace && (t.wsOpen ==> s.wsOpen) && t.stream == s.stream
    && (t.decode == s.decode || (s.decode.Some? && t.decode == Some(s.decode.value.(cancelled := true))))
  }

  lemma OnwardTrans(s: State, t: State, u: State)
    requires Onward(s, t) && Onward(t, u)
    ensures Onward(s, u)
  {
  }

  lemma ReplyOnward(s: State, out: Outcome)
    ensures Onward(s, Reply(s, out))
  {
  }

  lemma SayClosedOnward(s: State, out: Outcome)
    ensures Onward(s, SayClosed(s, out))
  {
  }

  lemma SetPcOnward(s: State, pc: Pc)
    ensures Onward(s, SetPc(s, pc))
  {
  }

  lemma CancelDecodeOnward(s: State)
    ensures Onward(s, CancelDecode(s))
  {
  }

  lemma DropBufferOnward(s: State)
    ensures Onward(s, DropBuffer(s))
  {
  }

  lemma AcceptOnward(s: State, data: seq<Byte>)
    ensures Onward(s, Accept(s, data))
  {
  }

  lemma BeginCommitOnward(s: State, out: Outcome)
    ensures Onward(s, BeginCommit(s, out))
  {
    hide TakeUtterance, Send;
    TakeUtteranceOnward(s);
    SendOnward(TakeUtterance(s), Committed(s.nextItem), out);
  }

  lemma TakeUtteranceOnward(s: State)
    ensures var t := TakeUtterance(s);
            t.trace == s.trace && t.wsOpen == s.wsOpen && t.decode == s.decode && t.stream == s.stream
  {
  }

  lemma SendOnward(s: State, e: Event, out: Outcome)
    ensures Onward(s, Send(s, e, out))
  {
  }

  lemma TeardownOnward(s: State)
    ensures Onward(s, Teardown(s)) && (Teardown(s).pc.TeardownAwait? || Teardown(s).pc.Finished?)
  {
  }

  lemma StopDecodeOnward(s: State, out: Outcome)
    ensures Onward(s, StopDecode(s, out))
  {
    hide Onward, SayClosed, CancelDecode, SetPc;
    SayClosedOnward(s, out);
    CancelDecodeOnward(s);
    SetPcOnward(CancelDecode(s), CancelAwait);
    OnwardTrans(s, CancelDecode(s), SetPc(CancelDecode(s), CancelAwait));
  }

  lemma CloseOnward(s: State, out: Outcome)
    ensures Onward(s, OnClose(s, out))
  {
    hide Onward, SayClosed, CancelDecode, SetPc;
    SayClosedOnward(s, out);
    CancelDecodeOnward(s);
    SayClosedOnward(CancelDecode(s), out);
    OnwardTrans(s, CancelDecode(s), SayClosed(CancelDecode(s), out));
    SetPcOnward(s, CloseWait);
  }

  lemma CancelOnward(s: State, out: Outcome)
    ensures Onward(s, OnCancel(s, out))
  {
    hide Onward, StopDecode, SetPc, DropBuffer;
    DropBufferOnward(s);
    SetPcOnward(DropBuffer(s), CancelStream);
    OnwardTrans(s, DropBuffer(s), SetPc(DropBuffer(s), CancelStream));
    StopDecodeOnward(DropBuffer(s), out);
    OnwardTrans(s, DropBuffer(s), StopDecode(DropBuffer(s), out));
  }

  lemma MessageOnward(s: State, m: Message, out: Outcome)
    ensures Onward(s, OnMessage(s, m, out))
  {
    hide Onward, Reply, Accept, BeginCommit, DropBuffer, OnClose, OnCancel, Teardown;
    TeardownOnward(s);
    ReplyOnward(s, out);
    match m
    case Append(data) => if data.Some? { AcceptOnward(s, data.value); }
    case Commit => BeginCommitOnward(s, out);
    case Clear =>
      DropBufferOnward(s);
      ReplyOnward(DropBuffer(s), out);
      OnwardTrans(s, DropBuffer(s), Reply(DropBuffer(s), out));
    case Close => CloseOnward(s, out);
    case Cancel => CancelOnward(s, out);
    case Unrelated =>
  }

  /** The handler's own part of `Told`. */
  predicate PcTold(t: State) {
    && (t.pc.CommitSend? && !t.pc.lost ==> Committed(t.pc.item) in t.trace)
    && (t.pc.ClosedSend? && !t.pc.lost ==> SessionClosed in t.trace)
  }

  lemma ToldKept(s: State, t: State)
    requires Told(s) && Onward(s, t) && PcTold(t)
    ensures Told(t)
  {
  }

  lemma MessageTells(s: State, m: Message, out: Outcome)
    requires Inv(s) && s.pc.Ready? && Told(s)
    ensures Told(OnMessage(s, m, out))
  {
    hide Inv, Told, Onward, OnMessage, Teardown;
    MessageOnward(s, m, out);
    if s.closed { ClosedTells(s, m, out); }
    else {
      MessageDoes(s, m, out);
    }
    ToldKept(s, OnMessage(s, m, out));
  }

  lemma ClosedTells(s: State, m: Message, out: Outcome)
    requires s.closed
    ensures PcTold(OnMessage(s, m, out))
  {
    hide Teardown;
    TeardownOnward(s);
  }

  lemma ResumeTells(s: State, out: Outcome)
    requires Inv(s) && Told(s) && Enabled(s, Resumed(out))
    ensures Told(Resume(s, out))
  {
    hide Inv, SayClosed, StopDecode, Teardown, CreateDecode, SetPc, Swallowed;
    SetPcTells(s, Ready);
    TeardownTells(s);
    SayClosedTells(s, out);
    SwallowedTells(s);
    SayClosedTells(Swallowed(s), out);
    StopDecodeTells(s, out);
    if s.pc.CommitSend? { CreateDecodeTells(s, s.pc.item, s.pc.audio); }
    OtherTells(s);
    hide Told;
  }

  lemma SetPcTells(s: State, pc: Pc)
    requires Told(s)
    ensures pc.Ready? ==> Told(SetPc(s, pc))
  {
  }

  lemma TeardownTells(s: State)
    requires Told(s)
    ensures Told(Teardown(s))
  {
    hide Onward, Told, Teardown;
    TeardownOnward(s);
    ToldKept(s, Teardown(s));
  }

  lemma SayClosedTells(s: State, out: Outcome)
    requires Told(s)
    ensures Told(SayClosed(s, out))
  {
    hide Onward, Told, SayClosed;
    SayClosedOnward(s, out);
    SayClosedDoes(s, out);
    ToldKept(s, SayClosed(s, out));
  }

  lemma StopDecodeTells(s: State, out: Outcome)
    requires Told(s)
    ensures Told(StopDecode(s, out))
  {
    hide Onward, Told, SayClosed, CancelDecode, SetPc;
    StopDecodeOnward(s, out);
    SayClosedDoes(s, out);
    SetPcDoes(CancelDecode(s), CancelAwait);
    ToldKept(s, StopDecode(s, out));
  }

  lemma SwallowedTells(s: State)
    requires Told(s)
    ensures Told(Swallowed(s))
  {
  }

  lemma CreateDecodeTells(s: State, item: nat, audio: seq<Byte>)
    requires Told(s)
    ensures Told(CreateDecode(s, item, audio))
  {
  }

  lemma OtherTells(s: State)
    requires Told(s)
    ensures Told(s.(pc := WsClosing, wsOpen := false)) && Told(s.(closed := true, pc := Finished))
  {
  }

  lemma HandlerTells(s: State, a: Action)
    requires Inv(s) && Told(s) && Enabled(s, a) && (a.Received? || a.Resumed? || a.RepliesAgain?)
    ensures Told(Do(s, a))
  {
    hide Inv, Told, OnMessage, Resume, Reply;
    match a
    case Received(m, out) => MessageTells(s, m, out);
    case Resumed(out) => ResumeTells(s, out);
    case RepliesAgain(out) => ReplyTells(s, out);
  }

  lemma ReplyTells(s: State, out: Outcome)
    requires Told(s)
    ensures Told(Reply(s, out))
  {
    hide Onward, Told, Reply;
    ReplyOnward(s, out);
    ReplyDoes(s, out);
    ToldKept(s, Reply(s, out));
  }

  lemma WorldTells(s: State, a: Action)
    requires Inv(s) && Told(s) && Enabled(s, a)
    requires a.LoopEnds? || a.CloseTimedOut? || a.HandlerCancel? || a.HandlerInterrupted? || a.ConnectionLost?
          || a.ShutdownBegins? || a.DecodeCancel?
    ensures Told(Do(s, a))
  {
    hide Inv, Told, Onward, Teardown, CancelDecode, SetPc;
    match a
    case LoopEnds => TeardownTells(s);
    case HandlerInterrupted =>
      var t := s.(cancelPending := false, abandoned := s.abandoned || s.pc.CommitSend?);
      FlagsTell(s, t);
      TeardownTells(t);
    case CloseTimedOut =>
      CancelDecodeOnward(s);
      SetPcOnward(CancelDecode(s), CloseAwait);
      OnwardTrans(s, CancelDecode(s), SetPc(CancelDecode(s), CloseAwait));
      SetPcDoes(CancelDecode(s), CloseAwait);
      ToldKept(s, SetPc(CancelDecode(s), CloseAwait));
    case DecodeCancel =>
      CancelDecodeOnward(s);
      CancelDecodePc(s);
      PcToldOf(s);
      ToldKept(s, CancelDecode(s));
    case HandlerCancel => FlagsTell(s, Do(s, a));
    case ConnectionLost => FlagsTell(s, Do(s, a));
    case ShutdownBegins => FlagsTell(s, Do(s, a));
  }

  lemma CancelDecodePc(s: State)
    ensures CancelDecode(s).pc == s.pc && CancelDecode(s).trace == s.trace
  {
  }

  lemma PcToldOf(s: State)
    requires Told(s)
    ensures PcTold(s)
  {
  }

  lemma FlagsTell(s: State, t: State)
    requires Told(s) && t.trace == s.trace && t.decode == s.decode && t.stream == s.stream && t.pc == s.pc
    requires t.wsOpen ==> s.wsOpen
    ensures Told(t)
  {
  }

  /** A decode's step tells what it sent. */
  lemma ToldByDecode(s: State, t: State, pc: DecodePc)
    requires Told(s) && s.decode.Some? && DecodeGoes(s, t, pc) && s.trace <= t.trace
    requires var d := s.decode.value;
             && (pc.Sending? && !pc.lost ==> Delta(d.item) in t.trace)
             && (pc.Final? && !pc.lost ==> Terminal(d.item) in t.trace)
             && (pc == Done(false) ==> Terminal(d.item) in t.trace || !t.wsOpen)
             && (pc == Done(true) || pc.Unwinding? ==> d.cancelled)
             && (pc.Streaming? || pc.Sending? ==> t.stream)
    ensures Told(t)
  {
  }

  lemma FinalIsTold(s: State)
    requires Told(s) && s.decode.Some? && s.decode.value.pc.Final? && Returns(s, s.decode.value.pc.lost)
    ensures Terminal(s.decode.value.item) in s.trace || !s.wsOpen
  {
  }

  lemma StreamingHasStream(s: State)
    requires Told(s) && s.decode.Some? && (s.decode.value.pc.Streaming? || s.decode.value.pc.Sending?)
    ensures s.stream
  {
  }

  lemma UnwindingIsCancelled(s: State)
    requires Told(s) && s.decode.Some? && s.decode.value.pc.Unwinding?
    ensures s.decode.value.cancelled
  {
  }

  lemma DecodeTells(s: State, a: Action)
    requires Told(s) && Enabled(s, a) && DecodeSteps(a)
    ensures Told(Do(s, a))
  {
    hide Told, DecodeGoes, SetDecode, DecodeSends, DecodeOver;
    var item := s.decode.value.item;
    match a
    case StreamOpened =>
      OpenedGoes(s);
      ToldByDecode(s, Do(s, a), Streaming);
    case DeltaSent(out) =>
      StreamingHasStream(s);
      DecodeSendsGoes(s, Delta(item), out, Sending(IsLost(out)));
      ToldByDecode(s, Do(s, a), Sending(IsLost(out)));
    case DeltaReturned =>
      StreamingHasStream(s);
      SetDecodeGoes(s, Streaming);
      ToldByDecode(s, Do(s, a), Streaming);
    case CompletedSent(out) =>
      DecodeSendsGoes(s, Terminal(item), out, Final(IsLost(out)));
      ToldByDecode(s, Do(s, a), Final(IsLost(out)));
    case FailedSent(out) =>
      DecodeSendsGoes(s, Terminal(item), out, Final(IsLost(out)));
      ToldByDecode(s, Do(s, a), Final(IsLost(out)));
    case FinalReturned =>
      DecodeOverGoes(s, false);
      FinalIsTold(s);
      ToldByDecode(s, Do(s, a), Done(false));
    case DecodeInterrupted(waits) =>
      SetDecodeGoes(s, Unwinding);
      DecodeOverGoes(s, true);
      ToldByDecode(s, Do(s, a), if waits then Unwinding else Done(true));
    case DecodeUnwound =>
      UnwindingIsCancelled(s);
      DecodeOverGoes(s, true);
      ToldByDecode(s, Do(s, a), Done(true));
  }

  lemma RestTells(s: State, a: Action)
    requires Inv(s) && Told(s) && Enabled(s, a) && !a.Received? && !a.Resumed? && !a.RepliesAgain?
    ensures Told(Do(s, a))
  {
    hide Inv, Told, Do, Enabled;
    if a.LoopEnds? || a.CloseTimedOut? || a.HandlerCancel? || a.HandlerInterrupted? || a.ConnectionLost?
       || a.ShutdownBegins? || a.DecodeCancel? { WorldTells(s, a); } else { DecodeTells(s, a); }
  }

  lemma {:induction false} ToldAt(config: Config, ss: seq<State>, as_: seq<Action>, k: nat)
    requires Run(config, ss, as_) && k < |ss|
    ensures Told(ss[k])
  {
    hide Inv, Do, Enabled;
    if k > 0 {
      ToldAt(config, ss, as_, k - 1);
      RunInv(config, ss, as_, k - 1);
      var s, a := ss[k - 1], as_[k - 1];
      if a.Received? || a.Resumed? || a.RepliesAgain? { HandlerTells(s, a); } else { RestTells(s, a); }
    }
  }

  /** A decode that was not cancelled ends with its terminal event, unless the
      connection is gone; one that ends without was asked to cancel. */
  lemma EveryDecodeIsTold(config: Config, ss: seq<State>, as_: seq<Action>, k: nat)
    requires Run(config, ss, as_) && k < |ss| && ss[k].decode.Some? && ss[k].decode.value.pc.Done?
    ensures Terminal(ss[k].decode.value.item) in ss[k].trace || !ss[k].wsOpen || ss[k].decode.value.cancelled
    ensures ss[k].decode.value.pc == Done(true) ==> ss[k].decode.value.cancelled
  {
    hide Do, Enabled;
    ToldAt(config, ss, as_, k);
  }

  /** While a decode streams, a `session.cancel` goes to its stream first. */
  lemma StreamsAreCancelledFirst(config: Config, ss: seq<State>, as_: seq<Action>, k: nat)
    requires Run(config, ss, as_) && k < |as_| && as_[k].Received? && as_[k].m.Cancel? && !ss[k].closed
    requires InFlight(ss[k]) && (ss[k].decode.value.pc.Streaming? || ss[k].decode.value.pc.Sending?)
    ensures ss[k + 1].pc.CancelStream?
  {
    hide Do, Inv, Told;
    ToldAt(config, ss, as_, k);
    StreamingHasStream(ss[k]);
    MessagesDo(config, ss, as_, k);
  }

  /** A commit whose send returned on an open connection was written, and so was a
      `session.closed`. */
  lemma SendsAreTold(config: Config, ss: seq<State>, as_: seq<Action>, k: nat)
    requires Run(config, ss, as_) && k < |as_| && as_[k].Resumed? && ss[k].wsOpen
    ensures ss[k].pc.CommitSend? ==> Committed(ss[k].pc.item) in ss[k].trace
    ensures ss[k].pc.ClosedSend? ==> SessionClosed in ss[k].trace
  {
    hide Do;
    ToldAt(config, ss, as_, k);
  }
}
