/** The stream object itself (app/transport/coordination.py). Each method is one stretch of
    code between two awaits; its specification is the matching step of the state machine. */
module CoordinationStreams {
  import opened Basics
  import opened Outbox
  import opened M = StreamMachine
  import C = Capture

  class CoordinationStream {
    var outbound: seq<Entry>
    var freeSlots: nat
    var slotWaiters: seq<Waiter>
    var sequence: nat
    var pending: map<string, Pending>
    var captureId: Option<string>
    var transcript: Option<nat>
    var futures: seq<C.Future>
    var released: bool
    var connected: bool
    var closing: bool

    // What is outside the object: the suspended calls, the permits, and what was observed.
    ghost var tasks: map<string, Phase>
    ghost var revoked: set<string>
    ghost var gone: bool
    ghost var broken: bool
    ghost var emitted: seq<Frame>
    ghost var sent: seq<Frame>
    ghost var releases: seq<nat>
    ghost var finals: seq<(string, string)>
    ghost var marks: seq<Mark>

    ghost function View(): Stream
      reads this
    {
      Stream.Stream(
        Box(connected, sequence, outbound, freeSlots, slotWaiters, emitted, sent),
        tasks, pending, revoked, gone,
        C.Mic(captureId, released, transcript, futures, releases, finals, closing, broken),
        marks)
    }

    constructor ()
      ensures View() == OPENED
    {
      outbound, freeSlots, slotWaiters, sequence := [], SLOTS, [], 0;
      pending, captureId, transcript, futures := map[], None, None, [];
      released, connected, closing := false, true, false;
      tasks, revoked, gone, broken, emitted, sent := map[], {}, false, false, [], [];
      releases, finals, marks := [], [], [];
    }

    method Emit(urgent: bool, permit: Option<string>, frame: Frame, replySlot: bool) returns (outcome: Outcome)
      modifies this`sequence, this`outbound, this`emitted
      ensures outcome == TryEmit(old(View()).box)
      ensures View() == old(View()).(box := Outbox.Emit(old(View()).box, urgent, permit, frame, replySlot))
    {
      if !connected { return Disconnected; }
      sequence := sequence + 1;
      if |outbound| >= CAPACITY { return Full; }
      outbound := outbound + [Entry(urgent, sequence, permit, frame, replySlot)];
      emitted := emitted + [frame];
      return Queued;
    }

    method ReleaseSlot()
      modifies this`freeSlots, this`slotWaiters
      ensures View() == old(View()).(box := Release(old(View()).box))
    {
      freeSlots := freeSlots + 1;
      if Ungranted(slotWaiters) > 0 {
        freeSlots := freeSlots - 1;
        slotWaiters := GrantFirst(slotWaiters);
      }
    }

    /** The `finally` of `present` and `stop`, and the end of the call. */
    method PopPending(r: string, ghost ok: bool)
      modifies this`pending, this`tasks
      ensures View() == Finish(old(View()), r, ok)
    {
      pending := pending - {r};
      tasks := tasks[r := Finished(ok)];
    }

    /** `await pending.future` has its result. */
    method Settle(r: string) returns (confirmed: bool)
      requires r in pending && pending[r].result.Some?
      modifies this`pending, this`tasks, this`marks
      ensures confirmed == old(pending)[r].result.value
      ensures View() == M.Settle(old(View()), r)
    {
      confirmed := pending[r].result.value;
      ghost var reply := !pending[r].isStop;
      PopPending(r, confirmed);
      if confirmed && reply { marks := marks + [Presented(r)]; }
    }

    /** `emit_reply` from the point where it owns a slot; `current` is `permit.current()`. */
    method SendReply(f: Frame, current: bool)
      requires current == (f.request !in revoked)
      modifies this
      ensures View() == M.SendReply(old(View()), f)
    {
      var outcome := Full;
      if current { outcome := Emit(false, Some(f.request), f, true); }
      if !outcome.Queued? {
        ReleaseSlot();
        PopPending(f.request, false);
      } else if !f.kind.ReplyEnd? {
        tasks := tasks[f.request := Generating];
      } else if f.request in pending && pending[f.request].result.Some? {
        var _ := Settle(f.request);
      } else {
        tasks := tasks[f.request := AwaitingReceipt];
      }
    }

    method EmitReply(f: Frame, current: bool)
      requires current == (f.request !in revoked)
      modifies this
      ensures View() == M.EmitReply(old(View()), f)
    {
      if freeSlots > 0 && slotWaiters == [] {
        freeSlots := freeSlots - 1;
        assert View() == old(View()).(box := old(View()).box.(free := old(View()).box.free - 1));
        SendReply(f, current);
      } else {
        slotWaiters := slotWaiters + [Waiter(f.request, false)];
        tasks := tasks[f.request := Acquiring(f)];
      }
    }

    /** A task leaves the line for a slot, waking as many others as there are free slots. */
    method WakeWaiters()
      modifies this`freeSlots, this`slotWaiters
      ensures View() == old(View()).(box := WakeAll(old(View()).box))
    {
      while freeSlots > 0 && Ungranted(slotWaiters) > 0
        invariant WakeAll(View().box) == WakeAll(old(View()).box)
        invariant View() == old(View()).(box := View().box)
        decreases Ungranted(slotWaiters)
      {
        GrantedOne(slotWaiters);
        freeSlots := freeSlots - 1;
        slotWaiters := GrantFirst(slotWaiters);
      }
    }

    method ResumeAcquire(r: string, f: Frame, current: bool)
      requires r in tasks && tasks[r] == Acquiring(f) && IsGranted(slotWaiters, r)
      requires current == (f.request !in revoked)
      modifies this
      ensures View() == M.ResumeAcquire(old(View()), r)
    {
      slotWaiters := Remove(slotWaiters, r);
      WakeWaiters();
      SendReply(f, current);
    }

    method BeginPresent(r: string, device: string, current: bool)
      requires r !in tasks && current == (r !in revoked)
      modifies this
      ensures View() == M.BeginPresent(old(View()), r, device)
    {
      pending := pending[r := Pending(device, false, false, None, "")];
      marks := marks + [Begun(r, device)];
      EmitReply(Frame(ReplyStart, r), current);
    }

    method NextEvent(r: string, text: string, answer: bool, current: bool)
      requires r in tasks && tasks[r].Generating? && current == (r !in revoked)
      modifies this
      ensures View() == M.NextEvent(old(View()), r, text, answer)
    {
      if !current || (r in pending && pending[r].result == Some(false)) {
        PopPending(r, false);
      } else if answer {
        EmitReply(Frame(ReplyDelta(text), r), current);
      }
    }

    method EndEvents(r: string, current: bool)
      requires r in tasks && tasks[r].Generating? && current == (r !in revoked)
      modifies this
      ensures View() == M.EndEvents(old(View()), r)
    {
      if !current {
        PopPending(r, false);
      } else {
        EmitReply(Frame(ReplyEnd, r), current);
      }
    }

    method BeginStop(r: string, device: string)
      requires r !in tasks
      modifies this
      ensures View() == M.BeginStop(old(View()), r, device)
    {
      pending := pending[r := Pending(device, true, true, None, "")];
      var outcome := Emit(true, None, Frame(Stop, r), false);
      if outcome.Queued? {
        tasks := tasks[r := AwaitingStop];
      } else {
        PopPending(r, false);
      }
    }

    method TakeNext() returns (e: Entry)
      requires outbound != []
      modifies this`outbound, this`freeSlots, this`slotWaiters
      ensures e == old(outbound)[Least(old(outbound))]
      ensures View() == old(View()).(box := Dequeue(old(View()).box))
    {
      e := outbound[Least(outbound)];
      outbound := Drop(outbound, Least(outbound));
      if e.replySlot { ReleaseSlot(); }
    }

    method AllowCompletion(r: string)
      modifies this`pending, this`marks
      ensures View() == M.Allow(old(View()), r)
    {
      marks := marks + [EndTaken(r)];
      if r in pending {
        pending := pending[r := pending[r].(completionAllowed := true)];
      }
    }

    /** One round of `write_to`; `current` is whether the frame has no permit or a current
        one, `toSend` is what goes to `send`. */
    method WriteOne(current: bool) returns (toSend: Option<Frame>)
      requires outbound != []
      requires var e := outbound[Least(outbound)];
        current == !(e.permit.Some? && e.permit.value in revoked)
      modifies this
      ensures View() == M.Write(old(View()))
      ensures toSend == if current then Some(old(outbound)[Least(old(outbound))].frame) else None
    {
      var e := TakeNext();
      if !current { return None; }
      if e.frame.kind.ReplyEnd? { AllowCompletion(e.frame.request); }
      sent := sent + [e.frame];
      return Some(e.frame);
    }

    method AcceptReceipt(r: string, device: string, completed: bool, ack: bool, code: string, current: bool)
      returns (answer: C.Answer)
      requires current == (r !in revoked)
      modifies this
      ensures answer == ReceiptAnswer(old(View()), r, device, completed, ack)
      ensures View() == M.AcceptReceipt(old(View()), r, device, completed, ack, code)
    {
      if r !in pending { return C.Ignored; }
      var p := pending[r];
      if p.isStop && !ack { return C.Refused; }
      if p.device != device { return C.Refused; }
      if completed && !p.completionAllowed { return C.Refused; }
      if !p.isStop && !current { return C.Ignored; }
      if p.result.Some? { return C.Ignored; }
      pending := pending[r := p.(result := Some(completed), errorCode := code)];
      if completed && !p.isStop { marks := marks + [Confirmed(r, device)]; }
      return C.Done;
    }

    method CancelTranscript()
      requires C.MicInv(View().mic)
      modifies this`futures
      ensures View() == old(View()).(mic := C.CloseMic(old(View()).mic))
    {
      if transcript.Some? && futures[transcript.value].state.Unresolved? {
        futures := futures[transcript.value := futures[transcript.value].(state := C.Cancelled)];
      }
    }

    method StartCapture(capture: string)
      requires C.MicInv(View().mic)
      modifies this`futures, this`captureId, this`released
      ensures var m := old(View()).mic;
        View() == old(View()).(mic := m.(futures := C.CancelCurrent(m), capture := Some(capture), released := false))
    {
      CancelTranscript();
      captureId := Some(capture);
      released := false;
    }

    /** `sessionAccepts` is whether `session.press` returned. */
    method AcceptPress(capture: string, sessionAccepts: bool)
      requires C.MicInv(View().mic) && !broken
      modifies this
      ensures View() == M.AcceptPress(old(View()), capture, sessionAccepts)
    {
      if closing || captureId == Some(capture) || !sessionAccepts { return; }
      StartCapture(capture);
      var outcome := Emit(true, None, Frame(Capturing, capture), false);
      if outcome.Queued? { NewTranscript(capture); } else { broken := true; }
    }

    method NewTranscript(capture: string)
      modifies this`transcript, this`futures
      ensures
        var m := old(View()).mic;
        View() == old(View()).(mic :=
          m.(transcript := Some(|m.futures|), futures := m.futures + [C.Future(capture, C.Unresolved)]))
    {
      transcript := Some(|futures|);
      futures := futures + [C.Future(capture, C.Unresolved)];
    }

    /** `toSession` tells that `session.release` is called. */
    method AcceptRelease(capture: string) returns (toSession: bool)
      requires C.MicInv(View().mic) && !broken
      modifies this`released, this`releases
      ensures View() == old(View()).(mic := C.Release(old(View()).mic, capture))
      ensures toSession <==> releases != old(releases)
    {
      if closing || captureId != Some(capture) || released { return false; }
      released := true;
      releases := releases + [transcript.value];
      return true;
    }

    method AcceptTranscript(capture: string, text: string) returns (answer: C.Answer)
      requires C.MicInv(View().mic) && !broken
      modifies this`futures, this`finals
      ensures answer == C.TranscriptAnswer(old(View()).mic, capture, text)
      ensures View() == old(View()).(mic := C.Transcript(old(View()).mic, capture, text))
    {
      if closing { return C.Refused; }
      if captureId != Some(capture) { return C.Ignored; }
      if !released { return C.Refused; }
      var i := transcript.value;
      match futures[i].state {
        case Unresolved =>
          futures := futures[i := futures[i].(state := C.Resolved(text))];
          finals := finals + [(capture, text)];
          return C.Done;
        case Cancelled =>
          return C.Refused;
        case Resolved(t) =>
          return if t == text then C.Ignored else C.Refused;
      }
    }

    method Transcribe(capture: string) returns (future: Option<nat>)
      ensures future == C.Transcribe(View().mic, capture)
    {
      future := if captureId != Some(capture) then None else transcript;
    }

    method RoundDone(capture: string)
      modifies this
      ensures View() == M.RoundDone(old(View()), capture)
    {
      if connected && captureId == Some(capture) {
        var outcome := Emit(false, None, Frame(Notice, ""), false);
        if !outcome.Queued? { connected := false; }
      }
    }

    method GiveUpAll()
      modifies this`pending
      ensures pending == map r | r in old(pending) :: GiveUp(old(pending)[r])
    {
      var todo := pending.Keys;
      while todo != {}
        invariant pending.Keys == old(pending.Keys) && todo <= pending.Keys
        invariant forall r | r in pending ::
          pending[r] == if r in todo then old(pending)[r] else GiveUp(old(pending)[r])
        decreases todo
      {
        var r :| r in todo;
        todo := todo - {r};
        if pending[r].result.None? {
          pending := pending[r := pending[r].(result := Some(false), errorCode := "TEAM_CONTROL_DISCONNECTED")];
        }
      }
    }

    /** The synchronous part of `disconnect`: every registered receipt is resolved. */
    method Disconnect()
      modifies this`connected, this`gone, this`pending
      ensures View() == M.Disconnect(old(View()))
    {
      connected, gone := false, true;
      GiveUpAll();
    }
  }
}
