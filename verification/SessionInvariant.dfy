/** Byte conservation, the trace grammar and single decodes, over every run. */
module SessionInvariant {
  import opened Wrappers
  import opened Session

  // ---------------------------------------------------------------- conservation of bytes

  function Concat(segments: seq<Segment>): seq<Byte> {
    if segments == [] then [] else Concat(segments[..|segments| - 1]) + segments[|segments| - 1].audio
  }

  /** The utterances among the segments, in order. */
  function Utterances(segments: seq<Segment>): seq<Segment> {
    if segments == [] then []
    else
      var last := segments[|segments| - 1];
      Utterances(segments[..|segments| - 1]) + if last.Utterance? then [last] else []
  }

  lemma ConcatAppend(segments: seq<Segment>, x: Segment)
    ensures Concat(segments + [x]) == Concat(segments) + x.audio
    ensures Utterances(segments + [x]) == Utterances(segments) + if x.Utterance? then [x] else []
  {
    assert (segments + [x])[..|segments|] == segments;
  }

  ghost predicate Conserved(s: State) {
    && s.accepted == Concat(s.segments) + s.buffer
    && |s.buffer| % SAMPLE_WIDTH == 0 && |s.buffer| <= s.config.cap
    && (InFlight(s) ==> s.buffer == [])
    && (s.pc.CommitSend? ==> s.buffer == [])
  }

  /** Every utterance went whole to one decode, except the last one while its
      own commit is still being sent, or was abandoned there. */
  ghost predicate Decoded(s: State) {
    var us := Utterances(s.segments);
    && |us| == s.nextItem
    && |us| == |s.decoded| + (if s.pc.CommitSend? || s.abandoned then 1 else 0)
    && s.decoded == us[..|s.decoded|]
    && (s.pc.CommitSend? ==> us[|us| - 1] == Utterance(s.pc.item, s.pc.audio) && s.pc.item == |us| - 1)
    && (s.abandoned ==> s.pc.TeardownAwait? || s.pc.Finished?)
  }

  // ---------------------------------------------------------------- the trace grammar

  /** How a trace read so far can go on. */
  datatype Phase = Broken | Phase(last: int, ended: bool, over: bool)

  function Read(p: Phase, e: Event): Phase {
    if p.Broken? then p
    else match e
      case Committed(i) => if p.over || i <= p.last then Broken else Phase(i, false, false)
      case Delta(i) => if p.over || p.ended || p.last != i then Broken else p
      case Terminal(i) => if p.over || p.ended || p.last != i then Broken else p.(ended := true)
      case SessionClosed => if p.over then Broken else p.(over := true)
      case Other => p
  }

  function Reading(trace: seq<Event>): Phase {
    if trace == [] then Phase(-1, false, false) else Read(Reading(trace[..|trace| - 1]), trace[|trace| - 1])
  }

  lemma ReadingAppend(trace: seq<Event>, e: Event)
    ensures Reading(trace + [e]) == Read(Reading(trace), e)
  {
    assert (trace + [e])[..|trace|] == trace;
  }

  /** Where the handler can be once `session.closed` was sent. */
  predicate AfterClose(pc: Pc) { pc.ClosedSend? || pc.WsClosing? || pc.Ready? || pc.TeardownAwait? || pc.Finished? }

  ghost predicate Traced(s: State) {
    var p := Reading(s.trace);
    && p.Phase? && p.last < s.nextItem
    && (p.over ==> s.closed && AfterClose(s.pc) && !DecodeMoves(s))
    && (s.wsOpen && DecodeMoves(s) && !s.decode.value.pc.Final? ==> p.last == s.decode.value.item && !p.ended)
    && (s.pc.CommitSend? && s.wsOpen && !s.pc.lost ==> p.last == s.pc.item && !p.ended)
    && (s.pc.CommitSend? ==> s.pc.item == s.nextItem - 1)
  }

  ghost predicate Owned(s: State) {
    && (s.pc.CommitSend? || s.pc.Finished? ==> !InFlight(s))
    && (AwaitsDecode(s.pc) && InFlight(s) ==> s.decode.value.cancelled)
    && (s.stream ==> InFlight(s))
    && (s.pc.ClosedSend? || s.pc.WsClosing? ==> s.closed && !DecodeMoves(s))
  }

  ghost predicate Inv(s: State) { Conserved(s) && Decoded(s) && Traced(s) && Owned(s) }

  // ---------------------------------------------------------------- the parts of a segment

  /** Only the coroutines' places change; the bytes, the decodes and the trace stay. */
  predicate SameHistory(s: State, t: State) {
    && t.accepted == s.accepted && t.segments == s.segments && t.buffer == s.buffer && t.nextItem == s.nextItem
    && t.config == s.config && t.decoded == s.decoded
  }

  lemma HistoryKept(s: State, t: State)
    requires Conserved(s) && Decoded(s) && SameHistory(s, t)
    requires InFlight(t) ==> InFlight(s)
    requires t.pc.CommitSend? <==> s.pc.CommitSend?
    requires t.pc.CommitSend? ==> t.pc == s.pc
    requires t.abandoned == s.abandoned && (t.abandoned ==> t.pc.TeardownAwait? || t.pc.Finished?)
    ensures Conserved(t) && Decoded(t)
  {
    hide Concat, Utterances, InFlight;
  }

  lemma WrittenTrace(s: State, e: Event, out: Outcome)
    ensures var t := Send(s, e, out);
            Reading(t.trace) == if out.Written? then Read(Reading(s.trace), e) else Reading(s.trace)
  {
    ReadingAppend(s.trace, e);
  }

  /** What a reply leaves as it was. */
  predicate Replied(s: State, out: Outcome, t: State) {
    && SameHistory(s, t) && t.decode == s.decode && t.stream == s.stream && t.abandoned == s.abandoned && t.pc.Replying?
    && t.closed == (s.closed || out.Overflows?) && t.wsOpen == (s.wsOpen && !out.Overflows?)
  }

  lemma ReplyIs(s: State, out: Outcome)
    ensures Replied(s, out, Reply(s, out)) && Reading(Reply(s, out).trace) == Reading(s.trace)
  {
    WrittenTrace(s, Other, out);
    hide Reading;
  }

  lemma RepliedInv(s: State, out: Outcome, t: State)
    requires Inv(s) && Replied(s, out, t) && Reading(t.trace) == Reading(s.trace)
    requires (s.pc.Ready? && !s.closed) || s.pc.Replying?
    ensures Inv(t)
  {
    hide Conserved, Decoded, Reading;
    NotAbandoned(s);
    HistoryKept(s, t);
  }

  /** A reply from the receive loop, or one after another. */
  lemma ReplyInv(s: State, out: Outcome)
    requires Inv(s) && ((s.pc.Ready? && !s.closed) || s.pc.Replying?)
    ensures Inv(Reply(s, out))
  {
    hide Inv, Reply, Replied, Reading;
    ReplyIs(s, out);
    RepliedInv(s, out, Reply(s, out));
  }

  lemma AcceptInv(s: State, data: seq<Byte>)
    requires Inv(s) && s.pc.Ready? && AppendCheck(s.config, InFlight(s), |s.buffer|, |data|) == None
    ensures Inv(Accept(s, data))
  {
    hide Concat, Utterances, Reading;
    assert s.accepted + data == Concat(s.segments) + (s.buffer + data);
  }

  lemma DropBufferInv(s: State)
    requires Inv(s)
    ensures Inv(DropBuffer(s)) && DropBuffer(s).buffer == []
  {
    hide Concat, Utterances, Reading;
    ConcatAppend(s.segments, Dropped(s.buffer));
  }

  lemma TakeUtteranceBytes(s: State)
    requires Conserved(s) && Decoded(s)
    ensures var t := TakeUtterance(s);
            && t.accepted == Concat(t.segments) + t.buffer
            && Utterances(t.segments) == Utterances(s.segments) + [Utterance(s.nextItem, s.buffer)]
  {
    hide Concat, Utterances;
    ConcatAppend(s.segments, Utterance(s.nextItem, s.buffer));
  }

  function Sent(s: State, out: Outcome): State { Send(TakeUtterance(s), Committed(s.nextItem), out) }

  lemma SentIs(s: State, out: Outcome)
    ensures var t := BeginCommit(s, out);
            && t.segments == TakeUtterance(s).segments && t.buffer == [] && t.accepted == s.accepted
            && t.decoded == s.decoded && t.nextItem == s.nextItem + 1 && t.config == s.config
            && t.abandoned == s.abandoned
            && t.decode == s.decode && t.pc == CommitSend(s.nextItem, s.buffer, IsLost(out)) && t.stream == s.stream
            && t.trace == Sent(s, out).trace && t.wsOpen == Sent(s, out).wsOpen && t.closed == Sent(s, out).closed
  {
    hide Send, TakeUtterance;
    TakeUtteranceKeeps(s);
    SendKeeps(TakeUtterance(s), Committed(s.nextItem), out);
  }

  lemma TakeUtteranceKeeps(s: State)
    ensures var t := TakeUtterance(s);
            && t.buffer == [] && t.accepted == s.accepted && t.decoded == s.decoded && t.nextItem == s.nextItem + 1
            && t.config == s.config && t.abandoned == s.abandoned && t.decode == s.decode && t.stream == s.stream
  {
  }

  lemma SendKeeps(s: State, e: Event, out: Outcome)
    ensures var t := Send(s, e, out);
            && SameHistory(s, t) && t.abandoned == s.abandoned && t.decode == s.decode && t.stream == s.stream
  {
  }

  lemma BeginCommitBytes(s: State, out: Outcome)
    requires Inv(s) && s.pc.Ready? && !InFlight(s)
    ensures Conserved(BeginCommit(s, out)) && Decoded(BeginCommit(s, out))
  {
    TakeUtteranceBytes(s);
    SentIs(s, out);
    hide Concat, Utterances, BeginCommit, TakeUtterance, Traced, Owned;
  }

  lemma BeginCommitInv(s: State, out: Outcome)
    requires Inv(s) && s.pc.Ready? && !s.closed && !InFlight(s) && CanBe(s, false, out)
    ensures Inv(BeginCommit(s, out))
  {
    hide Conserved, Decoded, Traced, BeginCommit;
    BeginCommitBytes(s, out);
    BeginCommitTraced(s, out);
    SentIs(s, out);
  }

  lemma SentTrace(s: State, out: Outcome)
    ensures Reading(Sent(s, out).trace) == if out.Written? then Read(Reading(s.trace), Committed(s.nextItem))
            else Reading(s.trace)
    ensures Sent(s, out).wsOpen == (s.wsOpen && !out.Overflows?)
  {
    hide Reading;
    WrittenTrace(TakeUtterance(s), Committed(s.nextItem), out);
  }

  lemma BeginCommitTraced(s: State, out: Outcome)
    requires Inv(s) && s.pc.Ready? && !s.closed && !InFlight(s) && CanBe(s, false, out)
    ensures Traced(BeginCommit(s, out))
  {
    hide Conserved, Decoded, Reading, BeginCommit, Owned, Sent;
    SentTrace(s, out);
    SentIs(s, out);
  }

  /** `session.closed` may be said: nobody writes an item event any more. */
  ghost predicate Sayable(s: State) {
    && Inv(s) && !DecodeMoves(s) && !s.pc.CommitSend? && !s.pc.TeardownAwait? && !s.pc.Finished?
    && !Reading(s.trace).over
  }

  lemma SayClosedInv(s: State, out: Outcome)
    requires Sayable(s) && CanBe(s, true, out)
    ensures Inv(SayClosed(s, out))
  {
    WrittenTrace(s.(closed := true), SessionClosed, out);
    HistoryKept(s, SayClosed(s, out));
    hide Conserved, Decoded, Reading;
  }

  lemma CancelDecodeInv(s: State)
    requires Inv(s)
    ensures Inv(CancelDecode(s)) && !DecodeMoves(CancelDecode(s)) && CancelDecode(s).pc == s.pc
    ensures CancelDecode(s).trace == s.trace && CancelDecode(s).wsOpen == s.wsOpen && CancelDecode(s).closed == s.closed
    ensures s.decode.Some? ==> CancelDecode(s).decode.Some? && CancelDecode(s).decode.value.cancelled
  {
    HistoryKept(s, CancelDecode(s));
    hide Conserved, Decoded, Reading;
  }

  /** The handler goes on waiting somewhere else. */
  lemma SetPcInv(s: State, pc: Pc)
    requires Inv(s) && !s.pc.CommitSend? && !s.abandoned
    requires pc.Ready? || pc.CloseWait? || pc.CloseAwait? || pc.CancelStream? || pc.CancelAwait? || pc.TeardownAwait?
    requires AwaitsDecode(pc) && InFlight(s) ==> s.decode.value.cancelled
    requires AfterClose(pc) || !Reading(s.trace).over
    ensures Inv(SetPc(s, pc))
  {
    hide Conserved, Decoded, Reading;
    HistoryKept(s, SetPc(s, pc));
  }

  lemma NotOver(s: State)
    requires Inv(s) && (!s.closed || !AfterClose(s.pc))
    ensures !Reading(s.trace).over
  {
  }

  lemma TeardownInv(s: State)
    requires Inv(s) && !s.pc.CommitSend?
    ensures Inv(Teardown(s))
  {
    hide Conserved, Decoded, Reading;
    CancelDecodeInv(s);
    HistoryKept(s, Teardown(s));
  }

  /** The handler is cancelled at the send of a commit: its utterance is lost. */
  lemma AbandonInv(s: State)
    requires Inv(s) && s.pc.CommitSend? && s.cancelPending
    ensures Inv(Interrupt(s))
  {
    assert Interrupt(s) == s.(cancelPending := false, abandoned := true, closed := true, pc := Finished);
    hide Concat, Utterances, Reading, Interrupt;
  }

  lemma InterruptInv(s: State)
    requires Inv(s) && s.cancelPending && !s.pc.CommitSend?
    ensures Inv(Interrupt(s))
  {
    var t := s.(cancelPending := false);
    HistoryKept(s, t);
    assert Inv(t) by { hide Conserved, Decoded, Reading; }
    TeardownInv(t);
    assert Interrupt(s) == Teardown(t);
    hide Inv, Teardown;
  }

  lemma CreateDecodeBytes(s: State)
    requires Inv(s) && s.pc.CommitSend?
    ensures Conserved(CreateDecode(s, s.pc.item, s.pc.audio)) && Decoded(CreateDecode(s, s.pc.item, s.pc.audio))
  {
    hide Concat, Utterances, Traced, Owned;
    var us := Utterances(s.segments);
    var t := CreateDecode(s, s.pc.item, s.pc.audio);
    assert us == us[..|us| - 1] + [us[|us| - 1]];
    assert t.decoded == us;
  }

  lemma CreateDecodeInv(s: State)
    requires Inv(s) && s.pc.CommitSend? && Returns(s, s.pc.lost)
    ensures Inv(CreateDecode(s, s.pc.item, s.pc.audio))
  {
    hide Conserved, Decoded, Reading;
    CreateDecodeBytes(s);
  }

  // ---------------------------------------------------------------- messages

  lemma OnCloseInv(s: State, out: Outcome)
    requires Inv(s) && s.pc.Ready? && !s.closed && CanBe(s, true, out)
    ensures Inv(OnClose(s, out))
  {
    hide Conserved, Decoded, Traced, Owned, SayClosed, CancelDecode, SetPc, Reading;
    NotOver(s);
    CancelDecodeInv(s);
    if !InFlight(s) { SayClosedInv(s, out); }
    else if s.shuttingDown { SayClosedInv(CancelDecode(s), out); }
    else { NotAbandoned(s); SetPcInv(s, CloseWait); }
  }

  lemma NotAbandoned(s: State)
    requires Inv(s) && !s.pc.TeardownAwait? && !s.pc.Finished?
    ensures !s.abandoned
  {
  }

  lemma StopDecodeInv(s: State, out: Outcome)
    requires Inv(s) && ((s.pc.Ready? && !s.closed) || s.pc.CancelStream?) && CanBe(s, true, out)
    ensures Inv(StopDecode(s, out))
  {
    hide Conserved, Decoded, Traced, Owned, SayClosed, CancelDecode, SetPc, Reading;
    NotOver(s);
    CancelDecodeInv(s);
    NotAbandoned(s);
    NotAbandoned(CancelDecode(s));
    if InFlight(s) { SetPcInv(CancelDecode(s), CancelAwait); } else { SayClosedInv(s, out); }
  }

  lemma OnCancelInv(s: State, out: Outcome)
    requires Inv(s) && s.pc.Ready? && !s.closed && CanBe(s, true, out)
    ensures Inv(OnCancel(s, out))
  {
    hide Inv, DropBuffer, StopDecode, SetPc, Reading;
    DropBufferInv(s);
    DropBufferPlaces(s);
    NotOver(s);
    NotAbandoned(DropBuffer(s));
    if s.stream { SetPcInv(DropBuffer(s), CancelStream); } else { StopDecodeInv(DropBuffer(s), out); }
  }

  lemma DropBufferPlaces(s: State)
    ensures var t := DropBuffer(s);
            t.pc == s.pc && t.closed == s.closed && t.wsOpen == s.wsOpen && t.stream == s.stream && t.trace == s.trace
                && t.decode == s.decode
  {
  }

  lemma OnClearInv(s: State, out: Outcome)
    requires Inv(s) && s.pc.Ready? && !s.closed && CanBe(s, false, out)
    ensures Inv(OnClear(s, out))
  {
    hide Inv, DropBuffer, Reply;
    DropBufferInv(s);
    DropBufferPlaces(s);
    if InFlight(s) { ReplyInv(s, out); } else { ReplyInv(DropBuffer(s), out); }
  }

  lemma Weaker(s: State, m: Message, out: Outcome)
    requires CanBe(s, Forced(s, m), out) && !s.closed
    ensures CanBe(s, false, out)
    ensures m.Close? || m.Cancel? ==> CanBe(s, true, out)
  {
  }

  lemma MessageInv(s: State, m: Message, out: Outcome)
    requires Inv(s) && Enabled(s, Received(m, out))
    ensures Inv(OnMessage(s, m, out))
  {
    if s.closed { TeardownInv(s); hide Inv, Teardown; }
    else {
      Weaker(s, m, out);
      hide Inv, OnClose, OnCancel, OnClear, Reply, Accept, BeginCommit, Forced, CanBe, InFlight;
      match m
      case Append(data) =>
        if data.Some? && AppendCheck(s.config, InFlight(s), |s.buffer|, |data.value|) == None {
          AcceptInv(s, data.value);
        }
        else { ReplyInv(s, out); }
      case Commit =>
        if CommitCheck(|s.buffer|, InFlight(s)) == None { BeginCommitInv(s, out); } else { ReplyInv(s, out); }
      case Clear => OnClearInv(s, out);
      case Close => OnCloseInv(s, out);
      case Cancel => OnCancelInv(s, out);
      case Unrelated => ReplyInv(s, out);
    }
  }

  // ---------------------------------------------------------------- waits

  lemma SwallowedInv(s: State)
    requires Inv(s)
    ensures Inv(Swallowed(s)) && Swallowed(s).pc == s.pc && Swallowed(s).decode == s.decode
    ensures Swallowed(s).trace == s.trace && Swallowed(s).wsOpen == s.wsOpen
  {
    HistoryKept(s, Swallowed(s));
    hide Conserved, Decoded, Reading;
  }

  lemma WaitOverInv(s: State, out: Outcome)
    requires Inv(s) && (s.pc.CloseWait? || s.pc.CloseAwait? || s.pc.CancelAwait?) && !InFlight(s) && CanBe(s, true, out)
    ensures Inv(SayClosed(s, out)) && Inv(SayClosed(Swallowed(s), out))
  {
    hide Conserved, Decoded, Traced, Owned, SayClosed, Swallowed, Reading;
    NotOver(s);
    SwallowedInv(s);
    SayClosedInv(s, out);
    SayClosedInv(Swallowed(s), out);
  }

  lemma BackToLoopInv(s: State)
    requires Inv(s) && (s.pc.Replying? || s.pc.WsClosing?)
    ensures Inv(SetPc(s, Ready))
  {
    hide Inv;
    NotAbandoned(s);
    SetPcInv(s, Ready);
  }

  lemma ClosedSentInv(s: State)
    requires Inv(s) && s.pc.ClosedSend?
    ensures Inv(s.(pc := WsClosing, wsOpen := false))
  {
    HistoryKept(s, s.(pc := WsClosing, wsOpen := false));
    hide Conserved, Decoded, Reading;
  }

  lemma TornDownInv(s: State)
    requires Inv(s) && s.pc.TeardownAwait? && !InFlight(s)
    ensures Inv(s.(closed := true, pc := Finished))
  {
    hide Conserved, Decoded, Reading;
    HistoryKept(s, s.(closed := true, pc := Finished));
  }

  lemma ResumeInv(s: State, out: Outcome)
    requires Inv(s) && Enabled(s, Resumed(out))
    ensures Inv(Resume(s, out))
  {
    hide Inv, SayClosed, Swallowed, SetPc, CreateDecode, StopDecode, Teardown, CanBe, InFlight, Returns;
    match s.pc
    case Replying(_) => BackToLoopInv(s);
    case CommitSend(_, _, _) => CreateDecodeInv(s);
    case CloseWait =>
      if s.decode.Some? && s.decode.value.pc == Done(true) { TeardownInv(s); } else { WaitOverInv(s, out); }
    case CloseAwait => WaitOverInv(s, out);
    case CancelStream => StopDecodeInv(s, out);
    case CancelAwait => WaitOverInv(s, out);
    case ClosedSend(_) => ClosedSentInv(s);
    case WsClosing => BackToLoopInv(s);
    case TeardownAwait => TornDownInv(s);
    case _ =>
  }

  lemma CloseTimedOutInv(s: State)
    requires Inv(s) && s.pc.CloseWait?
    ensures Inv(SetPc(CancelDecode(s), CloseAwait))
  {
    hide Inv, CancelDecode, SetPc, Reading;
    CancelDecodeInv(s);
    NotAbandoned(CancelDecode(s));
    NotOver(s);
    SetPcInv(CancelDecode(s), CloseAwait);
  }

  // ---------------------------------------------------------------- the decode task

  lemma SetDecodeInv(s: State, pc: DecodePc)
    requires Inv(s) && InFlight(s) && !pc.Done? && !pc.Final?
    requires !s.decode.value.pc.Final? || s.decode.value.cancelled
    ensures Inv(SetDecode(s, pc))
  {
    HistoryKept(s, SetDecode(s, pc));
    hide Conserved, Decoded, Reading;
  }

  lemma StreamOpenedInv(s: State)
    requires Inv(s) && DecodeMoves(s) && s.decode.value.pc.Opening?
    ensures Inv(SetDecode(s.(stream := true), Streaming))
  {
    HistoryKept(s, SetDecode(s.(stream := true), Streaming));
    hide Conserved, Decoded, Reading;
  }

  lemma DecodeSendsPlaces(s: State, e: Event, out: Outcome, pc: DecodePc)
    requires Inv(s) && DecodeMoves(s) && CanBe(s, false, out) && !pc.Done?
    ensures var t := DecodeSends(s, e, out, pc); Conserved(t) && Decoded(t) && Owned(t)
  {
    HistoryKept(s, DecodeSends(s, e, out, pc));
    hide Conserved, Decoded, Reading;
  }

  lemma DeltaInv(s: State, out: Outcome)
    requires Inv(s) && DecodeMoves(s) && !s.decode.value.pc.Final? && CanBe(s, false, out) && !s.pc.CommitSend?
    ensures Inv(DecodeSends(s, Delta(s.decode.value.item), out, Sending(IsLost(out))))
  {
    hide Conserved, Decoded, Reading, Owned;
    WrittenTrace(s, Delta(s.decode.value.item), out);
    DecodeSendsPlaces(s, Delta(s.decode.value.item), out, Sending(IsLost(out)));
  }

  lemma TerminalInv(s: State, out: Outcome)
    requires Inv(s) && DecodeMoves(s) && !s.decode.value.pc.Final? && CanBe(s, false, out) && !s.pc.CommitSend?
    ensures Inv(DecodeSends(s, Terminal(s.decode.value.item), out, Final(IsLost(out))))
  {
    hide Conserved, Decoded, Reading, Owned;
    WrittenTrace(s, Terminal(s.decode.value.item), out);
    DecodeSendsPlaces(s, Terminal(s.decode.value.item), out, Final(IsLost(out)));
  }

  lemma DecodeOverInv(s: State, unwound: bool)
    requires Inv(s) && InFlight(s)
    ensures Inv(DecodeOver(s, unwound))
  {
    HistoryKept(s, DecodeOver(s, unwound));
    hide Conserved, Decoded, Reading;
  }

  lemma NoCommitWhileDecoding(s: State)
    requires Inv(s) && InFlight(s)
    ensures !s.pc.CommitSend? && s.buffer == []
  {
  }

  lemma DecodeStepInv(s: State, a: Action)
    requires Inv(s) && Enabled(s, a)
    requires a.StreamOpened? || a.DeltaSent? || a.DeltaReturned? || a.CompletedSent? || a.FailedSent?
             || a.FinalReturned?
          || a.DecodeInterrupted? || a.DecodeUnwound?
    ensures Inv(Do(s, a))
  {
    hide Inv, SetDecode, DecodeSends, DecodeOver;
    NoCommitWhileDecoding(s);
    match a
    case StreamOpened => StreamOpenedInv(s);
    case DeltaSent(out) => DeltaInv(s, out);
    case DeltaReturned => SetDecodeInv(s, Streaming);
    case CompletedSent(out) => TerminalInv(s, out);
    case FailedSent(out) => TerminalInv(s, out);
    case FinalReturned => DecodeOverInv(s, false);
    case DecodeInterrupted(waits) => if waits { SetDecodeInv(s, Unwinding); } else { DecodeOverInv(s, true); }
    case DecodeUnwound => DecodeOverInv(s, true);
  }

  lemma WorldStepInv(s: State, a: Action)
    requires Inv(s) && Enabled(s, a)
    requires a.HandlerCancel? || a.ConnectionLost? || a.ShutdownBegins? || a.DecodeCancel?
    ensures Inv(Do(s, a))
  {
    HistoryKept(s, Do(s, a));
    hide Conserved, Decoded, Reading;
  }

  /** Every step of the handler, of the decode task and of the world around
      them keeps the invariant. */
  lemma StepInv(s: State, a: Action)
    requires Inv(s) && Enabled(s, a)
    ensures Inv(Do(s, a))
  {
    hide Inv, OnMessage, Teardown, Resume, Interrupt, SetPc, CancelDecode, Reply;
    match a
    case Received(m, out) => MessageInv(s, m, out);
    case LoopEnds => TeardownInv(s);
    case Resumed(out) => ResumeInv(s, out);
    case RepliesAgain(out) => ReplyInv(s, out);
    case CloseTimedOut => CloseTimedOutInv(s);
    case HandlerInterrupted => if s.pc.CommitSend? { AbandonInv(s); } else { InterruptInv(s); }
    case HandlerCancel => WorldStepInv(s, a);
    case ConnectionLost => WorldStepInv(s, a);
    case ShutdownBegins => WorldStepInv(s, a);
    case DecodeCancel => WorldStepInv(s, a);
    case _ => DecodeStepInv(s, a);
  }

  lemma BeginInv(config: Config)
    ensures Inv(Begin(config))
  {
  }

  lemma {:induction false} RunInv(config: Config, ss: seq<State>, as_: seq<Action>, k: nat)
    requires Run(config, ss, as_) && k < |ss|
    ensures Inv(ss[k])
  {
    hide Inv, Do, Enabled;
    if k == 0 { BeginInv(config); }
    else {
      RunInv(config, ss, as_, k - 1);
      StepInv(ss[k - 1], as_[k - 1]);
    }
  }

  // ---------------------------------------------------------------- main results

  /** The accepted bytes are, in order, the utterances, the dropped segments and
      the buffer, which stays even and within its cap and is empty while a
      decode is in flight. */
  lemma BytesAreConserved(config: Config, ss: seq<State>, as_: seq<Action>, k: nat)
    requires Run(config, ss, as_) && k < |ss|
    ensures var s := ss[k];
            && s.accepted == Concat(s.segments) + s.buffer
            && |s.buffer| % SAMPLE_WIDTH == 0 && |s.buffer| <= s.config.cap
            && (InFlight(s) ==> s.buffer == [])
  {
    hide Do, Enabled;
    RunInv(config, ss, as_, k);
  }

  /** So a commit while a decode is in flight always finds the buffer empty:
      the check for a decode in flight behind it is never reached. */
  lemma CommitInFlightIsEmpty(config: Config, ss: seq<State>, as_: seq<Action>, k: nat)
    requires Run(config, ss, as_) && k < |ss|
    ensures InFlight(ss[k]) ==> CommitCheck(|ss[k].buffer|, true) == Some(BufferEmpty)
    ensures CommitCheck(|ss[k].buffer|, InFlight(ss[k])) != Some(InvalidEvent)
  {
    hide Do, Enabled;
    BytesAreConserved(config, ss, as_, k);
  }

  /** Each utterance goes whole to at most one decode, in order, and to exactly
      one unless the handler was cancelled at that commit's own send. */
  lemma EachUtteranceOnce(config: Config, ss: seq<State>, as_: seq<Action>, k: nat)
    requires Run(config, ss, as_) && k < |ss|
    ensures var s := ss[k];
            && s.decoded <= Utterances(s.segments)
            && (!s.pc.CommitSend? && !s.abandoned ==> s.decoded == Utterances(s.segments))
            && |Utterances(s.segments)| <= |s.decoded| + 1
  {
    hide Do, Enabled;
    RunInv(config, ss, as_, k);
    var us := Utterances(ss[k].segments);
    assert us[..|us|] == us;
  }

  predicate ItemEvent(e: Event) { e.Committed? || e.Delta? || e.Terminal? }

  lemma ReadingPrefix(trace: seq<Event>, n: nat)
    requires n <= |trace| && Reading(trace).Phase?
    ensures Reading(trace[..n]).Phase?
  {
    if n < |trace| {
      ReadingPrefix(trace[..|trace| - 1], n);
      assert trace[..|trace| - 1][..n] == trace[..n];
    } else {
      assert trace[..n] == trace;
    }
  }

  /** After item `i` was committed and not ended, only its own events follow. */
  ghost predicate OpenSince(trace: seq<Event>, y: nat, i: nat, n: nat) {
    && y < n <= |trace| && trace[y] == Committed(i)
    && forall z :: y < z < n ==> trace[z] == Delta(i) || trace[z] == Other
  }

  lemma WhereOpened(trace: seq<Event>, n: nat) returns (y: nat)
    requires n <= |trace| && Reading(trace[..n]).Phase?
    requires Reading(trace[..n]).last >= 0 && !Reading(trace[..n]).ended && !Reading(trace[..n]).over
    ensures OpenSince(trace, y, Reading(trace[..n]).last, n)
  {
    var t := trace[..n];
    assert t[..n - 1] == trace[..n - 1] && t[n - 1] == trace[n - 1];
    if trace[n - 1].Committed? { y := n - 1; }
    else { y := WhereOpened(trace, n - 1); }
  }

  /** The trace grammar: every delta and every terminal event follows its own
      commit with nothing of another item, and no terminal event, between. */
  lemma ItemsAreNotInterleaved(config: Config, ss: seq<State>, as_: seq<Action>, k: nat, x: nat) returns (y: nat)
    requires Run(config, ss, as_) && k < |ss| && x < |ss[k].trace|
    requires ss[k].trace[x].Delta? || ss[k].trace[x].Terminal?
    ensures OpenSince(ss[k].trace, y, ss[k].trace[x].item, x)
  {
    hide Do, Enabled;
    RunInv(config, ss, as_, k);
    var trace := ss[k].trace;
    ReadingPrefix(trace, x + 1);
    assert trace[..x + 1][..x] == trace[..x];
    y := WhereOpened(trace, x);
  }

  lemma {:induction false} OverForGood(trace: seq<Event>, x: nat, n: nat)
    requires x < n <= |trace| && Reading(trace[..n]).Phase? && trace[x] == SessionClosed
    ensures Reading(trace[..n]).over && forall z :: x < z < n ==> trace[z] == Other
    decreases n
  {
    assert trace[..n][..n - 1] == trace[..n - 1];
    if x < n - 1 { OverForGood(trace, x, n - 1); }
  }

  /** `session.closed` is written at most once, and no item event after it, also
      when a shutdown cancels the decode without awaiting it. */
  lemma NothingAfterClosed(config: Config, ss: seq<State>, as_: seq<Action>, k: nat, x: nat, z: nat)
    requires Run(config, ss, as_) && k < |ss| && x < z < |ss[k].trace| && ss[k].trace[x] == SessionClosed
    ensures ss[k].trace[z] == Other
  {
    hide Do, Enabled;
    RunInv(config, ss, as_, k);
    var trace := ss[k].trace;
    assert trace[..|trace|] == trace;
    OverForGood(trace, x, |trace|);
  }

  /** What an item event leaves behind. */
  lemma {:induction false} ItemsGrow(trace: seq<Event>, x: nat, n: nat)
    requires x < n <= |trace| && Reading(trace[..n]).Phase? && ItemEvent(trace[x])
    ensures Reading(trace[..n]).last >= trace[x].item
    ensures trace[x].Terminal? && Reading(trace[..n]).last == trace[x].item ==> Reading(trace[..n]).ended
    decreases n
  {
    assert trace[..n][..n - 1] == trace[..n - 1];
    if x < n - 1 { ItemsGrow(trace, x, n - 1); }
  }

  /** No item is committed twice, and none ends twice. */
  lemma OncePerItem(config: Config, ss: seq<State>, as_: seq<Action>, k: nat, x: nat, z: nat)
    requires Run(config, ss, as_) && k < |ss| && x < z < |ss[k].trace|
    requires ss[k].trace[x].Committed? || ss[k].trace[x].Terminal?
    ensures ss[k].trace[x] != ss[k].trace[z]
  {
    hide Do, Enabled;
    RunInv(config, ss, as_, k);
    var trace := ss[k].trace;
    ReadingPrefix(trace, z + 1);
    assert trace[..z + 1][..z] == trace[..z];
    ItemsGrow(trace, x, z);
  }

  /** A handler asked to cancel, also one that swallowed it. */
  predicate CancelledOnce(s: State) {
    s.cancelPending || s.pc.TeardownAwait? || s.pc.Finished?
        || (s.closed && (s.pc.ClosedSend? || s.pc.WsClosing? || s.pc.Ready?))
  }

  lemma CancelledByTeardown(s: State)
    ensures CancelledOnce(Teardown(s)) && Teardown(s).decoded == s.decoded
  {
  }

  lemma CancelledByResume(s: State, out: Outcome)
    requires Enabled(s, Resumed(out)) && CancelledOnce(s)
    ensures CancelledOnce(Resume(s, out)) && Resume(s, out).decoded == s.decoded
  {
    hide Teardown, SayClosed, StopDecode, CreateDecode;
    CancelledByTeardown(s);
    ClosedSays(s, out);
    ClosedSays(Swallowed(s), out);
  }

  lemma ClosedSays(s: State, out: Outcome)
    ensures CancelledOnce(SayClosed(s, out)) && SayClosed(s, out).decoded == s.decoded
  {
  }

  lemma CancelledByDecode(s: State, a: Action)
    requires Enabled(s, a) && CancelledOnce(s)
    requires !a.Received? && !a.LoopEnds? && !a.Resumed? && !a.HandlerInterrupted? && !a.CloseTimedOut?
    ensures CancelledOnce(Do(s, a)) && Do(s, a).decoded == s.decoded
  {
  }

  lemma CancelledStep(s: State, a: Action)
    requires Enabled(s, a) && CancelledOnce(s)
    ensures CancelledOnce(Do(s, a)) && Do(s, a).decoded == s.decoded
  {
    if a.Received? || a.LoopEnds? {
      CancelledByTeardown(s);
      hide Teardown;
    } else if a.HandlerInterrupted? {
      CancelledByTeardown(s.(cancelPending := false, abandoned := s.abandoned || s.pc.CommitSend?));
      hide Teardown;
    } else if a.Resumed? {
      CancelledByResume(s, a.out);
      hide Resume, MayResume;
    } else if !a.CloseTimedOut? {
      hide Do, Enabled;
      CancelledByDecode(s, a);
    }
  }

  lemma CancelRequested(s: State)
    requires Enabled(s, HandlerCancel)
    ensures CancelledOnce(Do(s, HandlerCancel)) && Do(s, HandlerCancel).decoded == s.decoded
  {
  }

  /** A session asked to cancel never starts another decode. */
  lemma {:induction false} NoDecodeAfterCancel(config: Config, ss: seq<State>, as_: seq<Action>, j: nat, k: nat)
    requires Run(config, ss, as_) && j < k < |ss| && as_[j].HandlerCancel?
    ensures CancelledOnce(ss[k]) && ss[k].decoded == ss[j].decoded
    decreases k
  {
    hide Do, Enabled, CancelledOnce;
    if j < k - 1 {
      NoDecodeAfterCancel(config, ss, as_, j, k - 1);
      CancelledStep(ss[k - 1], as_[k - 1]);
    } else {
      CancelRequested(ss[j]);
    }
  }
}
