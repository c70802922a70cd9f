/** `_SessionState` and the handlers that update it in place, each from its call
    to its first wait, proved against Session.dfy. `Receive`, `Resume` and
    `Interrupt` are the handler's three kinds of segments: each does what its step
    says and keeps the invariant, so the results over every run hold of the class. */
module SessionHandlers {
  import opened Wrappers
  import opened Session
  import opened SessionInvariant

  class Connection {
    const config: Config
    var buffer: seq<Byte>
    var inFlightTask: Option<Decode>
    var currentStream: bool
    var closed: bool
    var pc: Pc
    var wsOpen: bool
    var nextItem: nat
    var shuttingDown: bool
    ghost var cancelPending: bool
    ghost var trace: seq<Event>
    ghost var accepted: seq<Byte>
    ghost var segments: seq<Segment>
    ghost var decoded: seq<Segment>
    ghost var abandoned: bool

    ghost function View(): State
      reads this
    {
      State(config, buffer, inFlightTask, currentStream, closed, pc, cancelPending, wsOpen, shuttingDown,
            trace, nextItem, accepted, segments, decoded, abandoned)
    }

    constructor (config: Config)
      ensures View() == Begin(config)
    {
      this.config := config;
      buffer, inFlightTask, currentStream, closed, pc := [], None, false, false, Replying(false);
      cancelPending, wsOpen, shuttingDown, nextItem := false, true, false, 0;
      trace, accepted, segments, decoded, abandoned := [], [], [], [], false;
    }

    method DecodeInFlight() returns (inFlight: bool)
      ensures inFlight <==> InFlight(View())
    {
      inFlight := inFlightTask.Some? && !inFlightTask.value.pc.Done?;
    }

    /** `_send`; `pending`: whether the write buffer is over its high-water mark.
        A full one closes the session instead of sending. */
    method Send(e: Event, force: bool, pending: bool) returns (out: Outcome)
      modifies this`closed, this`wsOpen, this`trace
      ensures CanBe(old(View()), force, out) && View() == Session.Send(old(View()), e, out)
      ensures out.Overflows? <==> !force && !old(closed) && pending
      ensures out.Written? ==> old(wsOpen) && trace == old(trace) + [e] && closed == old(closed) && wsOpen
      ensures out.Lost? ==> !old(wsOpen) && trace == old(trace) && closed == old(closed) && !wsOpen
      ensures out.Overflows? ==> trace == old(trace) && closed && !wsOpen
    {
      if !force && !closed && pending {
        closed := true;
        wsOpen := false;
        return Overflows;
      }
      if !wsOpen { return Lost; }
      trace := trace + [e];
      out := Written;
    }

    /** A reply that is no item event; its kind decides whether it is forced. */
    method Reply(force: bool, pending: bool) returns (out: Outcome)
      modifies this`closed, this`wsOpen, this`trace, this`pc
      ensures CanBe(old(View()), force, out) && View() == Session.Reply(old(View()), out)
    {
      out := Send(Other, force, pending);
      pc := Replying(!out.Written?);
    }

    /** `_handle_binary_audio`: the first failing check names the error; only a
        fully accepted append reaches the buffer, and then all of it. */
    method HandleBinaryAudio(data: seq<Byte>) returns (error: Option<Code>, ghost out: Outcome)
      modifies this
      ensures View() == OnAppend(old(View()), Some(data), out) && CanBe(old(View()), true, out)
      ensures error == if InFlight(old(View())) then Some(InvalidEvent)
                       else if |data| > config.maxAppend then Some(PayloadTooLarge)
                       else if |data| % 2 != 0 then Some(InvalidEvent)
                       else if |old(buffer)| + |data| > config.cap then Some(BufferOverflow) else None
      ensures error == None ==> buffer == old(buffer) + data && pc == old(pc)
      ensures error.Some? ==> buffer == old(buffer) && pc.Replying? && accepted == old(accepted)
      ensures error == None ==> accepted == old(accepted) + data
    {
      out := Lost;
      var inFlight := DecodeInFlight();
      if inFlight { error := Some(InvalidEvent); }
      else if |data| > config.maxAppend { error := Some(PayloadTooLarge); }
      else if |data| % SAMPLE_WIDTH != 0 { error := Some(InvalidEvent); }
      else if |buffer| + |data| > config.cap { error := Some(BufferOverflow); }
      else {
        buffer := buffer + data;
        accepted := accepted + data;
        return None, out;
      }
      out := Reply(true, false);
    }

    /** `_on_audio_append_json`; `data`: the decoded base64, if it decodes. */
    method OnAudioAppendJson(data: Option<seq<Byte>>) returns (error: Option<Code>, ghost out: Outcome)
      modifies this
      ensures View() == OnAppend(old(View()), data, out) && CanBe(old(View()), true, out)
      ensures error == None ==> data.Some? && buffer == old(buffer) + data.value
      ensures error.Some? ==> buffer == old(buffer)
    {
      if data == None {
        out := Reply(true, false);
        error := Some(InvalidEvent);
      } else {
        error, out := HandleBinaryAudio(data.value);
      }
    }

    method TakeBuffer()
      modifies this`buffer, this`nextItem, this`segments
      ensures View() == TakeUtterance(old(View())) && buffer == []
      ensures segments == old(segments) + [Utterance(old(nextItem), old(buffer))]
    {
      segments := segments + [Utterance(nextItem, buffer)];
      buffer, nextItem := [], nextItem + 1;
    }

    /** `_on_commit` to its send: the whole buffer leaves as one utterance. */
    method OnCommit(pending: bool) returns (error: Option<Code>, out: Outcome)
      modifies this
      ensures View() == Session.OnCommit(old(View()), out)
      ensures error == if |old(buffer)| == 0 then Some(BufferEmpty)
                       else if InFlight(old(View())) then Some(InvalidEvent) else None
      ensures CanBe(old(View()), error.Some?, out)
      ensures error == None ==> segments == old(segments) + [Utterance(old(nextItem), old(buffer))]
      ensures error == None ==> buffer == [] && pc == CommitSend(old(nextItem), old(buffer), !out.Written?)
    {
      hide TakeUtterance;
      if |buffer| == 0 {
        out := Reply(true, pending);
        return Some(BufferEmpty), out;
      }
      var inFlight := DecodeInFlight();
      if inFlight {
        out := Reply(true, pending);
        return Some(InvalidEvent), out;
      }
      var audio, item := buffer, nextItem;
      TakeBuffer();
      out := Send(Committed(item), false, pending);
      pc := CommitSend(item, audio, !out.Written?);
      error := None;
    }

    /** `_on_commit` after its send: the decode task, from creation. */
    method CreateDecode()
      requires pc.CommitSend?
      modifies this`inFlightTask, this`decoded, this`pc
      ensures View() == Session.CreateDecode(old(View()), old(pc.item), old(pc.audio))
    {
      inFlightTask := Some(Decode(pc.item, Opening, false));
      decoded := decoded + [Utterance(pc.item, pc.audio)];
      pc := Ready;
    }

    /** `_on_clear`. */
    method OnClear(pending: bool) returns (error: Option<Code>, out: Outcome)
      modifies this
      ensures View() == Session.OnClear(old(View()), out)
      ensures error.Some? <==> InFlight(old(View()))
      ensures CanBe(old(View()), error.Some?, out)
      ensures if error == None then buffer == [] && segments == old(segments) + [Dropped(old(buffer))]
              else buffer == old(buffer) && segments == old(segments)
    {
      var inFlight := DecodeInFlight();
      if inFlight {
        out := Reply(true, pending);
        return Some(InvalidEvent), out;
      }
      segments := segments + [Dropped(buffer)];
      buffer := [];
      out := Reply(false, pending);
      error := None;
    }

    /** `_teardown_session` to its wait. */
    method TeardownSession() returns (waits: bool)
      modifies this`inFlightTask, this`pc, this`closed
      ensures View() == Teardown(old(View()))
      ensures waits <==> InFlight(old(View()))
    {
      waits := DecodeInFlight();
      if waits {
        inFlightTask := Some(inFlightTask.value.(cancelled := true));
        pc := TeardownAwait;
      } else {
        closed := true;
        pc := Finished;
      }
    }

    method CancelInFlight()
      modifies this`inFlightTask
      ensures View() == CancelDecode(old(View()))
      ensures old(inFlightTask).Some? ==> inFlightTask == Some(old(inFlightTask).value.(cancelled := true))
    {
      if inFlightTask.Some? { inFlightTask := Some(inFlightTask.value.(cancelled := true)); }
    }

    method Await(pc1: Pc)
      modifies this`pc
      ensures View() == SetPc(old(View()), pc1) && pc == pc1
    {
      pc := pc1;
    }

    /** The forced `session.closed`. */
    method SayClosed() returns (out: Outcome)
      modifies this`closed, this`wsOpen, this`trace, this`pc
      ensures CanBe(old(View()), true, out) && View() == Session.SayClosed(old(View()), out)
      ensures pc.ClosedSend? && closed && trace == old(trace) + (if out.Written? then [SessionClosed] else [])
    {
      closed := true;
      out := Send(SessionClosed, true, false);
      pc := ClosedSend(!out.Written?);
    }

    /** `_on_close` to its first wait. */
    method OnClose() returns (out: Outcome)
      modifies this
      ensures CanBe(old(View()), true, out) && View() == Session.OnClose(old(View()), out)
      // a decode in flight is waited for, as it is; during a shutdown it is cancelled and not waited for
      ensures InFlight(old(View())) && !old(shuttingDown) ==>
                pc == CloseWait && inFlightTask == old(inFlightTask) && trace == old(trace) && closed == old(closed)
      ensures !(InFlight(old(View())) && !old(shuttingDown)) ==>
                pc.ClosedSend? && closed && trace == old(trace) + (if out.Written? then [SessionClosed] else [])
      ensures InFlight(old(View())) && old(shuttingDown) ==> inFlightTask.Some? && inFlightTask.value.cancelled
    {
      hide CancelDecode, Session.SayClosed, SetPc;
      CancelOnly(View());
      var inFlight := DecodeInFlight();
      if inFlight && !shuttingDown {
        Await(CloseWait);
        return Lost;
      }
      if inFlight { CancelInFlight(); }
      out := SayClosed();
    }

    method Drop()
      modifies this`buffer, this`segments
      ensures View() == DropBuffer(old(View()))
      ensures buffer == [] && segments == old(segments) + [Dropped(old(buffer))]
    {
      segments := segments + [Dropped(buffer)];
      buffer := [];
    }

    /** `_on_cancel` after its stream was cancelled, to its next wait. */
    method StopDecode() returns (out: Outcome)
      modifies this`inFlightTask, this`pc, this`closed, this`wsOpen, this`trace
      ensures CanBe(old(View()), true, out) && View() == Session.StopDecode(old(View()), out)
      ensures InFlight(old(View())) ==>
                pc == CancelAwait && inFlightTask.Some? && inFlightTask.value.cancelled && trace == old(trace)
      ensures !InFlight(old(View())) ==>
                pc.ClosedSend? && closed && trace == old(trace) + (if out.Written? then [SessionClosed] else [])
    {
      hide CancelDecode, Session.SayClosed, SetPc;
      var inFlight := DecodeInFlight();
      if inFlight {
        CancelInFlight();
        Await(CancelAwait);
        return Lost;
      }
      out := SayClosed();
    }

    /** `_on_cancel` to its first wait. */
    method OnCancel() returns (out: Outcome)
      modifies this
      ensures CanBe(old(View()), true, out) && View() == Session.OnCancel(old(View()), out)
      ensures buffer == [] && segments == old(segments) + [Dropped(old(buffer))]
      ensures old(currentStream) ==> pc == CancelStream && inFlightTask == old(inFlightTask) && trace == old(trace)
      ensures !old(currentStream) && InFlight(old(View())) ==>
                pc == CancelAwait && inFlightTask.Some? && inFlightTask.value.cancelled && trace == old(trace)
      ensures !old(currentStream) && !InFlight(old(View())) ==>
                pc.ClosedSend? && closed && trace == old(trace) + (if out.Written? then [SessionClosed] else [])
    {
      hide DropBuffer, Session.StopDecode, SetPc;
      DropOnly(View());
      Drop();
      if currentStream {
        Await(CancelStream);
        return Lost;
      }
      out := StopDecode();
    }

    /** What a message does, up to the handler's next wait. */
    method Handle(m: Message, pending: bool) returns (ghost out: Outcome)
      requires !closed
      modifies this
      ensures CanBe(old(View()), Forced(old(View()), m), out) && View() == OnMessage(old(View()), m, out)
    {
      hide Session.OnCommit, Session.OnClear, OnAppend, Session.OnClose, Session.OnCancel, Session.Reply;
      match m
      case Append(data) => var _, o := OnAudioAppendJson(data); out := o;
      case Commit => var _, o := OnCommit(pending); out := o;
      case Clear => var _, o := OnClear(pending); out := o;
      case Close => var o := OnClose(); out := o;
      case Cancel => var o := OnCancel(); out := o;
      case Unrelated => var o := Reply(false, pending); out := o;
    }

    /** The receive loop takes a message; once closed, the loop ends. */
    method Receive(m: Message, pending: bool) returns (ghost out: Outcome)
      requires Inv(View()) && pc.Ready? && !cancelPending
      modifies this
      ensures Enabled(old(View()), Received(m, out)) && View() == Do(old(View()), Received(m, out)) && Inv(View())
    {
      hide Inv, OnMessage, Teardown;
      ghost var v := View();
      if closed {
        ClosedLoop(v, m);
        out := Lost;
        var _ := TeardownSession();
      } else {
        out := Handle(m, pending);
      }
      StepInv(v, Received(m, out));
    }

    /** One more event in the same answer, or an `internal_error` after it. */
    method ReplyAgain(force: bool, pending: bool) returns (out: Outcome)
      requires Inv(View()) && pc.Replying? && Returns(View(), pc.lost) && !cancelPending
      modifies this
      ensures Enabled(old(View()), RepliesAgain(out)) && View() == Do(old(View()), RepliesAgain(out)) && Inv(View())
    {
      hide Inv, Session.Reply;
      ghost var v := View();
      out := Reply(force, pending);
      StepInv(v, RepliesAgain(out));
    }

    /** The handler's wait is over. */
    method GoOn() returns (out: Outcome)
      requires MayResume(View())
      modifies this
      ensures CanBe(old(View()), true, out) && View() == Session.Resume(old(View()), out)
    {
      hide SetPc, Session.CreateDecode, Teardown, Session.SayClosed, Session.StopDecode, Swallowed;
      SwallowedOnly(View());
      out := Lost;
      match pc
      case Replying(_) => Await(Ready);
      case CommitSend(_, _, _) => CreateDecode();
      case CloseWait =>
        if inFlightTask.Some? && inFlightTask.value.pc == Done(true) { var _ := TeardownSession(); }
        else { out := SayClosed(); }
      case CloseAwait =>
        SwallowCancel();
        out := SayClosed();
      case CancelStream => out := StopDecode();
      case CancelAwait =>
        SwallowCancel();
        out := SayClosed();
      case ClosedSend(_) => CloseConnection();
      case WsClosing => Await(Ready);
      case TeardownAwait => EndTeardown();
    }

    ghost method SwallowCancel()
      modifies this`cancelPending
      ensures View() == Swallowed(old(View()))
    {
      cancelPending := false;
    }

    method CloseConnection()
      modifies this`pc, this`wsOpen
      ensures View() == old(View()).(pc := WsClosing, wsOpen := false)
    {
      pc, wsOpen := WsClosing, false;
    }

    method EndTeardown()
      modifies this`pc, this`closed
      ensures View() == old(View()).(closed := true, pc := Finished)
    {
      pc, closed := Finished, true;
    }

    method Resume() returns (out: Outcome)
      requires Inv(View()) && MayResume(View()) && (cancelPending ==> AwaitsDecode(pc))
      modifies this
      ensures Enabled(old(View()), Resumed(out)) && View() == Do(old(View()), Resumed(out)) && Inv(View())
    {
      hide Inv, Session.Resume, MayResume;
      ghost var v := View();
      out := GoOn();
      StepInv(v, Resumed(out));
    }

    /** The handler's cancel arrives. */
    method Interrupt()
      requires Inv(View()) && Enabled(View(), HandlerInterrupted)
      modifies this
      ensures View() == Do(old(View()), HandlerInterrupted) && Inv(View())
    {
      hide Inv, Teardown;
      StepInv(View(), HandlerInterrupted);
      TakeInterrupt();
      var _ := TeardownSession();
    }

    ghost method TakeInterrupt()
      modifies this`cancelPending, this`abandoned
      ensures View() == old(View()).(cancelPending := false, abandoned := old(abandoned) || old(pc).CommitSend?)
    {
      cancelPending, abandoned := false, abandoned || pc.CommitSend?;
    }
  }

  lemma CancelOnly(s: State)
    ensures var t := CancelDecode(s); t.wsOpen == s.wsOpen && t.closed == s.closed
  {
  }

  lemma DropOnly(s: State)
    ensures var t := DropBuffer(s); t.stream == s.stream && t.wsOpen == s.wsOpen && t.closed == s.closed
  {
  }

  lemma SwallowedOnly(s: State)
    ensures var t := Swallowed(s); t.wsOpen == s.wsOpen && t.closed == s.closed
  {
  }

  lemma ClosedLoop(s: State, m: Message)
    requires s.closed
    ensures OnMessage(s, m, Lost) == Teardown(s)
  {
    hide Teardown;
  }
}
