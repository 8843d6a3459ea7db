/** The role-group stream as a state machine (app/transport/coordination.py). Every `await`
    is an interleaving point; each function below is what one task does between two of
    them. A permit is current until it is revoked, and never again after that. */
module StreamMachine {
  import opened Basics
  import opened Outbox
  import Capture

  /** Where the task of a `present` or `stop` call is. `Acquiring` waits for a reply slot
      with the frame it will emit. */
  datatype Phase = Acquiring(frame: Frame) | Generating | AwaitingReceipt | AwaitingStop | Finished(ok: bool)

  datatype Pending = Pending(
    device: string, isStop: bool, completionAllowed: bool, result: Option<bool>, errorCode: string)

  /** What an observer sees happen, in order. */
  datatype Mark =
    | Begun(request: string, device: string)
    | EndTaken(request: string)
    | Confirmed(request: string, device: string)
    | Revoked(request: string)
    | Presented(request: string)

  datatype Stream = Stream(
    box: Box, tasks: map<string, Phase>, pending: map<string, Pending>, revoked: set<string>,
    gone: bool, mic: Capture.Mic, marks: seq<Mark>)

  const OPENED := Stream(EMPTY, map[], map[], {}, false, Capture.QUIET, [])

  // ---- present and stop --------------------------------------------------

  function Finish(s: Stream, r: string, ok: bool): (t: Stream)
    ensures t.mic == s.mic && t.gone == s.gone && t.revoked == s.revoked && t.box.sent == s.box.sent
  {
    s.(tasks := s.tasks[r := Finished(ok)], pending := s.pending - {r})
  }

  /** The receipt future is done: `present` returns True, or either call raises. */
  function Settle(s: Stream, r: string): (t: Stream)
    requires r in s.pending && s.pending[r].result.Some?
    ensures t.mic == s.mic && t.gone == s.gone && t.revoked == s.revoked && t.box.sent == s.box.sent
  {
    var ok := s.pending[r].result.value;
    var t := Finish(s, r, ok);
    if ok && !s.pending[r].isStop then t.(marks := t.marks + [Presented(r)]) else t
  }

  /** After the frame is queued: generate on, or wait for the receipt of the whole reply. */
  function Continue(s: Stream, f: Frame): (t: Stream)
    ensures t.mic == s.mic && t.gone == s.gone && t.revoked == s.revoked && t.box.sent == s.box.sent
  {
    if !f.kind.ReplyEnd? then s.(tasks := s.tasks[f.request := Generating])
    else if f.request in s.pending && s.pending[f.request].result.Some? then Settle(s, f.request)
    else s.(tasks := s.tasks[f.request := AwaitingReceipt])
  }

  /** `emit_reply` with its slot in hand. */
  function SendReply(s: Stream, f: Frame): (t: Stream)
    ensures t.mic == s.mic && t.gone == s.gone && t.revoked == s.revoked && t.box.sent == s.box.sent
    ensures !s.box.connected ==> t.tasks == s.tasks[f.request := Finished(false)]
  {
    if f.request in s.revoked then Finish(s.(box := Release(s.box)), f.request, false)
    else
      var b := Emit(s.box, false, Some(f.request), f, true);
      if TryEmit(s.box).Queued? then Continue(s.(box := b), f)
      else Finish(s.(box := Release(b)), f.request, false)
  }

  function EmitReply(s: Stream, f: Frame): (t: Stream)
    ensures t.mic == s.mic && t.gone == s.gone && t.revoked == s.revoked && t.box.sent == s.box.sent
    ensures !s.box.connected ==>
      t.tasks == s.tasks[f.request := if CanAcquire(s.box) then Finished(false) else Acquiring(f)]
  {
    if CanAcquire(s.box) then SendReply(s.(box := s.box.(free := s.box.free - 1)), f)
    else s.(tasks := s.tasks[f.request := Acquiring(f)],
            box := s.box.(waiters := s.box.waiters + [Waiter(f.request, false)]))
  }

  function BeginPresent(s: Stream, r: string, device: string): Stream {
    if r in s.tasks then s
    else
      EmitReply(s.(pending := s.pending[r := Pending(device, false, false, None, "")],
                   marks := s.marks + [Begun(r, device)]), Frame(ReplyStart, r))
  }

  function ResumeAcquire(s: Stream, r: string): Stream {
    if r in s.tasks && s.tasks[r].Acquiring? && IsGranted(s.box.waiters, r) then
      SendReply(s.(box := Leave(s.box, r)), s.tasks[r].frame)
    else s
  }

  predicate CanGoOn(s: Stream, r: string) {
    r !in s.revoked && !(r in s.pending && s.pending[r].result == Some(false))
  }

  /** The next event of the reply; only answer text becomes a frame. */
  function NextEvent(s: Stream, r: string, text: string, answer: bool): Stream {
    if r !in s.tasks || !s.tasks[r].Generating? then s
    else if !CanGoOn(s, r) then Finish(s, r, false)
    else if answer then EmitReply(s, Frame(ReplyDelta(text), r))
    else s
  }

  function EndEvents(s: Stream, r: string): Stream {
    if r !in s.tasks || !s.tasks[r].Generating? then s
    else if r in s.revoked then Finish(s, r, false)
    else EmitReply(s, Frame(ReplyEnd, r))
  }

  function ResumeReceipt(s: Stream, r: string): Stream {
    if r in s.tasks && (s.tasks[r].AwaitingReceipt? || s.tasks[r].AwaitingStop?)
       && r in s.pending && s.pending[r].result.Some? then Settle(s, r)
    else s
  }

  function CancelTask(s: Stream, r: string): Stream {
    if r !in s.tasks || s.tasks[r].Finished? then s
    else if s.tasks[r].Acquiring? then Finish(s.(box := Abandon(s.box, r)), r, false)
    else Finish(s, r, false)
  }

  function BeginStop(s: Stream, r: string, device: string): Stream {
    if r in s.tasks then s
    else
      var t := s.(box := Emit(s.box, true, None, Frame(Stop, r), false),
                  pending := s.pending[r := Pending(device, true, true, None, "")]);
      if TryEmit(s.box).Queued? then t.(tasks := t.tasks[r := AwaitingStop]) else Finish(t, r, false)
  }

  function Revoke(s: Stream, r: string): Stream {
    if r in s.revoked then s else s.(revoked := s.revoked + {r}, marks := s.marks + [Revoked(r)])
  }

  // ---- the writer --------------------------------------------------------

  function Allow(s: Stream, r: string): Stream {
    var t := s.(marks := s.marks + [EndTaken(r)]);
    if r in s.pending then t.(pending := t.pending[r := t.pending[r].(completionAllowed := true)]) else t
  }

  function Write(s: Stream): Stream {
    if s.box.queue == [] then s
    else
      var e := s.box.queue[Least(s.box.queue)];
      var t := s.(box := Deliver(Dequeue(s.box), e, s.revoked));
      if e.frame.kind.ReplyEnd? && !(e.permit.Some? && e.permit.value in s.revoked) then Allow(t, e.frame.request)
      else t
  }

  // ---- the reader --------------------------------------------------------

  function ReceiptAnswer(s: Stream, r: string, device: string, completed: bool, ack: bool): Capture.Answer {
    if r !in s.pending then Capture.Ignored
    else
      var p := s.pending[r];
      if p.isStop && !ack then Capture.Refused
      else if p.device != device then Capture.Refused
      else if completed && !p.completionAllowed then Capture.Refused
      else if !p.isStop && r in s.revoked then Capture.Ignored
      else if p.result.Some? then Capture.Ignored
      else Capture.Done
  }

  function AcceptReceipt(s: Stream, r: string, device: string, completed: bool, ack: bool, code: string): Stream {
    if !ReceiptAnswer(s, r, device, completed, ack).Done? then s
    else
      var p := s.pending[r];
      var t := s.(pending := s.pending[r := p.(result := Some(completed), errorCode := code)]);
      if completed && !p.isStop then t.(marks := t.marks + [Confirmed(r, device)]) else t
  }

  function AcceptPress(s: Stream, capture: string, sessionAccepts: bool): Stream
    requires Capture.MicInv(s.mic)
  {
    if s.mic.closing || s.mic.broken || s.mic.capture == Some(capture) || !sessionAccepts then s
    else s.(box := Emit(s.box, true, None, Frame(Capturing, capture), false),
            mic := Capture.Press(s.mic, capture, TryEmit(s.box).Queued?))
  }

  function Notify(s: Stream, urgent: bool): Stream {
    s.(box := Emit(s.box, urgent, None, Frame(Notice, ""), false))
  }

  /** `_round_done`: a state frame that cannot be queued marks the stream disconnected. */
  function RoundDone(s: Stream, capture: string): Stream {
    if !s.box.connected || s.mic.capture != Some(capture) then s
    else
      var t := Notify(s, false);
      if TryEmit(s.box).Queued? then t else t.(box := t.box.(connected := false))
  }

  function GiveUp(p: Pending): Pending {
    if p.result.Some? then p else p.(result := Some(false), errorCode := "TEAM_CONTROL_DISCONNECTED")
  }

  function Disconnect(s: Stream): Stream {
    s.(box := s.box.(connected := false), gone := true, pending := map r | r in s.pending :: GiveUp(s.pending[r]))
  }

  // ---- steps and runs ----------------------------------------------------

  /** One stretch of a `present` or `stop` call, between two awaits. */
  datatype TaskAction =
    | DoBeginPresent(r: string, device: string)
    | DoResumeAcquire(r: string)
    | DoNextEvent(r: string, text: string, answer: bool)
    | DoEndEvents(r: string)
    | DoResumeReceipt(r: string)
    | DoCancel(r: string)
    | DoBeginStop(r: string, device: string)

  /** A capture message of the device, or the end of what it started. */
  datatype CaptureAction =
    | DoPress(capture: string, sessionAccepts: bool)
    | DoRelease(capture: string)
    | DoTranscript(capture: string, text: string)
    | DoClose
    | DoCloseDone
    | DoRoundDone(capture: string)

  datatype Action =
    | OfTask(task: TaskAction)
    | OfCapture(input: CaptureAction)
    | DoReceipt(r: string, device: string, completed: bool, ack: bool, code: string)
    | DoRevoke(r: string)
    | DoWrite
    | DoNotify(urgent: bool)
    | DoDisconnect

  function TaskStep(s: Stream, a: TaskAction): Stream {
    match a
    case DoBeginPresent(r, device) => BeginPresent(s, r, device)
    case DoResumeAcquire(r) => ResumeAcquire(s, r)
    case DoNextEvent(r, text, answer) => NextEvent(s, r, text, answer)
    case DoEndEvents(r) => EndEvents(s, r)
    case DoResumeReceipt(r) => ResumeReceipt(s, r)
    case DoCancel(r) => CancelTask(s, r)
    case DoBeginStop(r, device) => BeginStop(s, r, device)
  }

  /** A round ends only once its capture was released: the release registers `_round_done`. */
  function CaptureStep(s: Stream, a: CaptureAction): Stream
    requires Capture.MicInv(s.mic)
  {
    match a
    case DoPress(capture, ok) => AcceptPress(s, capture, ok)
    case DoRelease(capture) => s.(mic := Capture.Release(s.mic, capture))
    case DoTranscript(capture, text) => s.(mic := Capture.Transcript(s.mic, capture, text))
    case DoClose => s.(mic := s.mic.(closing := true))
    case DoCloseDone => s.(mic := Capture.CloseMic(s.mic))
    case DoRoundDone(capture) => if s.mic.released then RoundDone(s, capture) else s
  }

  function Step(s: Stream, a: Action): Stream
    requires Capture.MicInv(s.mic)
  {
    match a
    case OfTask(task) => TaskStep(s, task)
    case OfCapture(input) => CaptureStep(s, input)
    case DoReceipt(r, device, completed, ack, code) => AcceptReceipt(s, r, device, completed, ack, code)
    case DoRevoke(r) => Revoke(s, r)
    case DoWrite => Write(s)
    case DoNotify(urgent) => Notify(s, urgent)
    case DoDisconnect => Disconnect(s)
  }

  // ---- Invariant ---------------------------------------------------------

  /** `reply_start, reply_delta*`. */
  predicate Open(fs: seq<Frame>) {
    && fs != [] && fs[0].kind.ReplyStart?
    && forall i | 1 <= i < |fs| :: fs[i].kind.ReplyDelta?
  }

  /** `reply_start, reply_delta*, reply_end`. */
  predicate Closed(fs: seq<Frame>) {
    |fs| >= 2 && Open(fs[..|fs| - 1]) && fs[|fs| - 1].kind.ReplyEnd?
  }

  /** The frame that may follow what was emitted so far. */
  predicate Next(fs: seq<Frame>, f: Frame) {
    if f.kind.ReplyStart? then fs == [] else Open(fs)
  }

  ghost predicate ShapeOk(s: Stream, r: string) {
    var fs := Of(r, s.box.emitted);
    if r !in s.tasks then fs == []
    else
      match s.tasks[r]
      case Acquiring(f) => IsReply(f) && f.request == r && Next(fs, f)
      case Generating => Open(fs)
      case AwaitingReceipt => Closed(fs)
      case AwaitingStop => fs == []
      case Finished(_) => fs == [] || Open(fs) || Closed(fs)
  }

  /** A completed receipt from the request's own device, under a current permit, after
      the writer took the request's `reply_end`. */
  ghost predicate Evidence(marks: seq<Mark>, r: string) {
    exists d: string, b: nat, i: nat, j: nat :: EvidenceAt(marks, r, d, b, i, j)
  }

  ghost predicate EvidenceAt(marks: seq<Mark>, r: string, device: string, b: nat, i: nat, j: nat) {
    && b < |marks| && i < j < |marks|
    && marks[b] == Begun(r, device) && marks[i] == EndTaken(r) && marks[j] == Confirmed(r, device)
    && Revoked(r) !in marks[..j]
  }

  ghost predicate PendingOk(s: Stream, r: string) {
    r in s.pending ==>
      var p := s.pending[r];
      && r in s.tasks
      && (p.isStop <==> s.tasks[r].AwaitingStop?)
      && (!p.isStop ==> Begun(r, p.device) in s.marks)
      && (!p.isStop && p.completionAllowed ==> EndTaken(r) in s.marks)
      && (!p.isStop && p.result == Some(true) ==> Evidence(s.marks, r))
      && (s.gone && (s.tasks[r].AwaitingReceipt? || s.tasks[r].AwaitingStop?) ==> p.result.Some?)
  }

  ghost predicate RequestInv(s: Stream, r: string) {
    && (r in Requests(s.box.waiters) <==> r in s.tasks && s.tasks[r].Acquiring?)
    && (r in s.pending <==> r in s.tasks && !s.tasks[r].Finished?)
    && InOrder(s.box, r, r in s.revoked)
    && ShapeOk(s, r)
    && PendingOk(s, r)
  }

  ghost predicate MarksInv(s: Stream) {
    && (forall r :: r in s.revoked <==> Revoked(r) in s.marks)
    && (forall k | 0 <= k < |s.marks| && s.marks[k].Presented? :: Evidence(s.marks[..k], s.marks[k].request))
  }

  ghost predicate Base(s: Stream, held: nat) {
    && SlotInv(s.box, held) && QueueInv(s.box) && MarksInv(s)
    && Capture.MicInv(s.mic) && (s.gone ==> !s.box.connected)
  }

  ghost predicate Inv(s: Stream) {
    Base(s, 0) && forall r :: RequestInv(s, r)
  }

  lemma EvidenceGrows(a: seq<Mark>, b: seq<Mark>, r: string)
    requires Evidence(a, r)
    ensures Evidence(a + b, r)
  {
    var d: string, x: nat, i: nat, j: nat :| EvidenceAt(a, r, d, x, i, j);
    assert (a + b)[..j] == a[..j];
    assert EvidenceAt(a + b, r, d, x, i, j);
  }

  lemma MarksSnoc(s: Stream, m: Mark, t: Stream)
    requires MarksInv(s) && t.marks == s.marks + [m]
    requires t.revoked == if m.Revoked? then s.revoked + {m.request} else s.revoked
    requires m.Presented? ==> Evidence(s.marks, m.request)
    ensures MarksInv(t)
  {
    forall k | 0 <= k < |t.marks| && t.marks[k].Presented? ensures Evidence(t.marks[..k], t.marks[k].request) {
      assert t.marks[..k] == if k < |s.marks| then s.marks[..k] else s.marks;
    }
  }

  /** Other requests do not notice a mark, nor a change of slots and flags. */
  lemma Untouched(s: Stream, t: Stream, q: string)
    requires RequestInv(s, q)
    requires (q in Requests(t.box.waiters)) == (q in Requests(s.box.waiters))
    requires (q in t.tasks) == (q in s.tasks) && (q in s.tasks ==> t.tasks[q] == s.tasks[q])
    requires (q in t.pending) == (q in s.pending) && (q in s.pending ==> t.pending[q] == s.pending[q])
    requires (q in t.revoked) == (q in s.revoked) && t.gone == s.gone
    requires Of(q, t.box.emitted) == Of(q, s.box.emitted) && InOrder(t.box, q, q in t.revoked)
    requires s.marks <= t.marks
    ensures RequestInv(t, q)
  {
    if q in s.pending && s.pending[q].result == Some(true) && !s.pending[q].isStop {
      assert t.marks == s.marks + t.marks[|s.marks|..];
      EvidenceGrows(s.marks, t.marks[|s.marks|..], q);
    }
  }

  // ---- Each step keeps the invariant -------------------------------------

  ghost predicate OthersInv(s: Stream, r: string) {
    forall q | q != r :: RequestInv(s, q)
  }

  lemma FinishKeeps(s: Stream, r: string, ok: bool)
    requires Base(s, 0) && OthersInv(s, r)
    requires r !in Requests(s.box.waiters) && InOrder(s.box, r, r in s.revoked)
    requires var fs := Of(r, s.box.emitted); fs == [] || Open(fs) || Closed(fs)
    ensures Inv(Finish(s, r, ok))
  {
    var t := Finish(s, r, ok);
    forall q ensures RequestInv(t, q) {
      if q != r { Untouched(s, t, q); }
    }
  }

  lemma SettleKeeps(s: Stream, r: string)
    requires Base(s, 0) && OthersInv(s, r)
    requires r !in Requests(s.box.waiters) && InOrder(s.box, r, r in s.revoked)
    requires var fs := Of(r, s.box.emitted); fs == [] || Closed(fs)
    requires r in s.pending && s.pending[r].result.Some?
    requires !s.pending[r].isStop && s.pending[r].result.value ==> Evidence(s.marks, r)
    ensures Inv(Settle(s, r))
  {
    var t := Finish(s, r, s.pending[r].result.value);
    FinishKeeps(s, r, s.pending[r].result.value);
    var u := Settle(s, r);
    if u != t {
      MarksSnoc(t, Presented(r), u);
      forall q ensures RequestInv(u, q) { Untouched(t, u, q); }
    }
  }

  /** A task with a slot in its hands is about to emit `f`. */
  ghost predicate Ready(s: Stream, f: Frame) {
    var r := f.request;
    && IsReply(f) && Next(Of(r, s.box.emitted), f)
    && r !in Requests(s.box.waiters) && InOrder(s.box, r, r in s.revoked)
    && r in s.pending && !s.pending[r].isStop
    && Begun(r, s.pending[r].device) in s.marks
    && (s.pending[r].completionAllowed ==> EndTaken(r) in s.marks)
    && (s.pending[r].result == Some(true) ==> Evidence(s.marks, r))
  }

  lemma GiveBackKeeps(s: Stream, r: string)
    requires Base(s, 1) && OthersInv(s, r)
    requires r !in Requests(s.box.waiters) && InOrder(s.box, r, r in s.revoked)
    requires var fs := Of(r, s.box.emitted); fs == [] || Open(fs)
    ensures Inv(Finish(s.(box := Release(s.box)), r, false))
  {
    var t := s.(box := Release(s.box));
    ReleaseKeeps(s.box, 1);
    forall q | q != r ensures RequestInv(t, q) { Untouched(s, t, q); }
    FinishKeeps(t, r, false);
  }

  /** Emitting a reply frame: only its own request gains a frame. */
  lemma EmitReplyFrame(s: Stream, f: Frame, b: Box)
    requires Base(s, 1) && OthersInv(s, f.request) && IsReply(f)
    requires InOrder(s.box, f.request, f.request in s.revoked)
    requires b == Emit(s.box, false, Some(f.request), f, true)
    ensures var t := s.(box := b);
      && Base(t, if TryEmit(s.box).Queued? then 0 else 1) && OthersInv(t, f.request)
      && InOrder(b, f.request, f.request in s.revoked)
      && b.waiters == s.box.waiters
    ensures Of(f.request, b.emitted) ==
      if TryEmit(s.box).Queued? then Of(f.request, s.box.emitted) + [f] else Of(f.request, s.box.emitted)
  {
    EmitKeeps(s.box, 1, false, Some(f.request), f, true);
    EmitInOrder(s.box, f.request, f.request in s.revoked, false, Some(f.request), f, true);
    OfSnoc(f.request, s.box.emitted, f);
    EmitForOthers(s, f, b);
  }

  lemma EmitForOthers(s: Stream, f: Frame, b: Box)
    requires OthersInv(s, f.request) && IsReply(f) && b == Emit(s.box, false, Some(f.request), f, true)
    ensures OthersInv(s.(box := b), f.request)
  {
    forall q | q != f.request ensures RequestInv(s.(box := b), q) {
      assert RequestInv(s, q);
      EmitForOther(s, q, false, Some(f.request), f, true);
    }
  }

  lemma EmitForOther(s: Stream, q: string, urgent: bool, permit: Option<string>, f: Frame, slot: bool)
    requires RequestInv(s, q) && !(IsReply(f) && f.request == q)
    ensures RequestInv(s.(box := Emit(s.box, urgent, permit, f, slot)), q)
  {
    EmitInOrder(s.box, q, q in s.revoked, urgent, permit, f, slot);
    OfSnoc(q, s.box.emitted, f);
    Untouched(s, s.(box := Emit(s.box, urgent, permit, f, slot)), q);
  }

  lemma SendReplyKeeps(s: Stream, f: Frame)
    requires Base(s, 1) && OthersInv(s, f.request) && Ready(s, f)
    ensures Inv(SendReply(s, f))
  {
    var r := f.request;
    if r in s.revoked {
      GiveBackKeeps(s, r);
    } else {
      var b := Emit(s.box, false, Some(r), f, true);
      EmitReplyFrame(s, f, b);
      var t := s.(box := b);
      if TryEmit(s.box).Queued? {
        ContinueKeeps(t, f, Of(r, s.box.emitted));
      } else {
        GiveBackKeeps(t, r);
      }
    }
  }

  /** The task goes on generating, or to its receipt. */
  lemma ResumeKeeps(s: Stream, t: Stream, r: string, frames: seq<Frame>)
    requires Base(s, 0) && OthersInv(s, r) && !s.gone
    requires Of(r, s.box.emitted) == frames
    requires r !in Requests(s.box.waiters) && InOrder(s.box, r, r in s.revoked)
    requires r in s.pending && !s.pending[r].isStop && Begun(r, s.pending[r].device) in s.marks
    requires s.pending[r].completionAllowed ==> EndTaken(r) in s.marks
    requires s.pending[r].result == Some(true) ==> Evidence(s.marks, r)
    requires if Open(frames) then t == s.(tasks := s.tasks[r := Generating])
             else Closed(frames) && t == s.(tasks := s.tasks[r := AwaitingReceipt])
    ensures Inv(t)
  {
    forall q ensures RequestInv(t, q) { if q != r { Untouched(s, t, q); } }
  }

  lemma ContinueKeeps(s: Stream, f: Frame, before: seq<Frame>)
    requires Base(s, 0) && OthersInv(s, f.request) && IsReply(f) && !s.gone
    requires var r := f.request;
      && Of(r, s.box.emitted) == before + [f] && Next(before, f)
      && r !in Requests(s.box.waiters) && InOrder(s.box, r, r in s.revoked)
      && r in s.pending && !s.pending[r].isStop && Begun(r, s.pending[r].device) in s.marks
      && (s.pending[r].completionAllowed ==> EndTaken(r) in s.marks)
      && (s.pending[r].result == Some(true) ==> Evidence(s.marks, r))
    ensures Inv(Continue(s, f))
  {
    var r := f.request;
    if !f.kind.ReplyEnd? {
      assert Open(before + [f]);
      ResumeKeeps(s, Continue(s, f), r, before + [f]);
    } else {
      assert (before + [f])[..|before|] == before;
      assert Closed(before + [f]);
      if s.pending[r].result.Some? { SettleKeeps(s, r); } else { ResumeKeeps(s, Continue(s, f), r, before + [f]); }
    }
  }

  lemma EmitReplyKeeps(s: Stream, f: Frame)
    requires Base(s, 0) && OthersInv(s, f.request) && Ready(s, f)
    ensures Inv(EmitReply(s, f))
  {
    if CanAcquire(s.box) {
      var t := s.(box := s.box.(free := s.box.free - 1));
      forall q | q != f.request ensures RequestInv(t, q) { Untouched(s, t, q); }
      SendReplyKeeps(t, f);
    } else {
      QueueUpKeeps(s, EmitReply(s, f), f);
    }
  }

  /** A task that finds no free slot joins the line. */
  lemma QueueUpKeeps(s: Stream, t: Stream, f: Frame)
    requires Base(s, 0) && OthersInv(s, f.request) && Ready(s, f) && !CanAcquire(s.box)
    requires t == s.(tasks := s.tasks[f.request := Acquiring(f)],
                     box := s.box.(waiters := s.box.waiters + [Waiter(f.request, false)]))
    ensures Inv(t)
  {
    JoinLine(s.box.waiters, f.request);
    forall q ensures RequestInv(t, q) { if q != f.request { Untouched(s, t, q); } }
  }

  lemma {:induction false} JoinLine(ws: seq<Waiter>, r: string)
    requires Distinct(Requests(ws)) && r !in Requests(ws)
    ensures var js := ws + [Waiter(r, false)];
      && Granted(js) == Granted(ws) && Ungranted(js) == Ungranted(ws) + 1
      && Distinct(Requests(js)) && Requests(js) == Requests(ws) + [r]
      && (ws != [] && Granted(ws) == 0 ==> Ungranted(ws) > 0)
  {
    var js := ws + [Waiter(r, false)];
    if ws == [] {
      assert js == [Waiter(r, false)] && js[1..] == [];
    } else {
      assert js[1..] == ws[1..] + [Waiter(r, false)] && js[0] == ws[0];
      assert Requests(ws)[1..] == Requests(ws[1..]);
      JoinLine(ws[1..], r);
      assert Requests(js) == [ws[0].request] + Requests(js[1..]);
      assert Requests(js)[1..] == Requests(ws[1..]) + [r];
    }
  }

  lemma BeginPresentKeeps(s: Stream, r: string, device: string)
    requires Inv(s)
    ensures Inv(BeginPresent(s, r, device))
  {
    if r !in s.tasks {
      var t := s.(pending := s.pending[r := Pending(device, false, false, None, "")],
                  marks := s.marks + [Begun(r, device)]);
      MarksSnoc(s, Begun(r, device), t);
      forall q | q != r ensures RequestInv(t, q) { Untouched(s, t, q); }
      assert RequestInv(s, r);
      assert t.marks[|s.marks|] == Begun(r, device);
      EmitReplyKeeps(t, Frame(ReplyStart, r));
    }
  }

  lemma ResumeAcquireKeeps(s: Stream, r: string)
    requires Inv(s)
    ensures Inv(ResumeAcquire(s, r))
  {
    if r in s.tasks && s.tasks[r].Acquiring? && IsGranted(s.box.waiters, r) {
      assert RequestInv(s, r);
      var t := s.(box := Leave(s.box, r));
      LeaveKeeps(s.box, r);
      forall q | q != r ensures RequestInv(t, q) { assert RequestInv(s, q); Untouched(s, t, q); }
      SendReplyKeeps(t, s.tasks[r].frame);
    }
  }

  lemma GenerateKeeps(s: Stream, r: string, text: string, answer: bool)
    requires Inv(s)
    ensures Inv(NextEvent(s, r, text, answer)) && Inv(EndEvents(s, r))
  {
    if r in s.tasks && s.tasks[r].Generating? {
      assert RequestInv(s, r);
      FinishKeeps(s, r, false);
      EmitReplyKeeps(s, Frame(ReplyDelta(text), r));
      EmitReplyKeeps(s, Frame(ReplyEnd, r));
    }
  }

  lemma ResumeReceiptKeeps(s: Stream, r: string)
    requires Inv(s)
    ensures Inv(ResumeReceipt(s, r))
  {
    assert RequestInv(s, r);
    if ResumeReceipt(s, r) != s { SettleKeeps(s, r); }
  }

  lemma CancelKeeps(s: Stream, r: string)
    requires Inv(s)
    ensures Inv(CancelTask(s, r))
  {
    assert RequestInv(s, r);
    if r in s.tasks && s.tasks[r].Acquiring? {
      var t := s.(box := Abandon(s.box, r));
      AbandonKeeps(s.box, r);
      forall q | q != r ensures RequestInv(t, q) { assert RequestInv(s, q); Untouched(s, t, q); }
      FinishKeeps(t, r, false);
    } else if r in s.tasks && !s.tasks[r].Finished? {
      FinishKeeps(s, r, false);
    }
  }

  lemma NoticeKeeps(s: Stream, urgent: bool, f: Frame)
    requires Inv(s) && !IsReply(f)
    ensures Inv(s.(box := Emit(s.box, urgent, None, f, false)))
  {
    var t := s.(box := Emit(s.box, urgent, None, f, false));
    EmitKeeps(s.box, 0, urgent, None, f, false);
    forall q ensures RequestInv(t, q) {
      assert RequestInv(s, q);
      EmitForOther(s, q, urgent, None, f, false);
    }
  }

  lemma BeginStopKeeps(s: Stream, r: string, device: string)
    requires Inv(s)
    ensures Inv(BeginStop(s, r, device))
  {
    if r !in s.tasks {
      var u := s.(box := Emit(s.box, true, None, Frame(Stop, r), false));
      NoticeKeeps(s, true, Frame(Stop, r));
      var t := u.(pending := s.pending[r := Pending(device, true, true, None, "")]);
      assert RequestInv(u, r);
      forall q | q != r ensures RequestInv(t, q) { Untouched(u, t, q); }
      if TryEmit(s.box).Queued? {
        var v := t.(tasks := t.tasks[r := AwaitingStop]);
        forall q ensures RequestInv(v, q) { if q != r { Untouched(t, v, q); } }
      } else {
        FinishKeeps(t, r, false);
      }
    }
  }

  lemma RevokeKeeps(s: Stream, r: string)
    requires Inv(s)
    ensures Inv(Revoke(s, r))
  {
    if r !in s.revoked {
      var t := Revoke(s, r);
      MarksSnoc(s, Revoked(r), t);
      assert t.marks[|s.marks|] == Revoked(r);
      assert forall m | m in s.marks :: m in t.marks;
      forall q ensures RequestInv(t, q) {
        assert RequestInv(s, q);
        if q != r {
          Untouched(s, t, q);
        } else if q in s.pending && s.pending[q].result == Some(true) && !s.pending[q].isStop {
          EvidenceGrows(s.marks, [Revoked(r)], q);
        }
      }
    }
  }

  lemma DeliverKeeps(s: Stream, t: Stream, e: Entry)
    requires Inv(s) && s.box.queue != [] && e == s.box.queue[Least(s.box.queue)]
    requires t == s.(box := Deliver(Dequeue(s.box), e, s.revoked))
    ensures Inv(t)
  {
    DequeueKeeps(s.box);
    forall q ensures RequestInv(t, q) {
      assert RequestInv(s, q);
      WriteInOrder(s.box, q, s.revoked);
      Untouched(s, t, q);
    }
  }

  lemma WriteKeeps(s: Stream)
    requires Inv(s)
    ensures Inv(Write(s))
  {
    if s.box.queue != [] {
      var e := s.box.queue[Least(s.box.queue)];
      var t := s.(box := Deliver(Dequeue(s.box), e, s.revoked));
      DeliverKeeps(s, t, e);
      AllowKeeps(t, e.frame.request);
    }
  }

  lemma AllowKeeps(s: Stream, r: string)
    requires Inv(s)
    ensures Inv(Allow(s, r))
  {
    var t := Allow(s, r);
    MarksSnoc(s, EndTaken(r), t);
    forall q ensures RequestInv(t, q) {
      assert RequestInv(s, q);
      if q != r {
        assert forall m | m in s.marks :: m in t.marks;
        Untouched(s, t, q);
      } else {
        AllowedRequest(s, r);
      }
    }
  }

  lemma AllowedRequest(s: Stream, r: string)
    requires RequestInv(s, r)
    ensures RequestInv(Allow(s, r), r)
  {
    var marks := s.marks + [EndTaken(r)];
    assert marks[|s.marks|] == EndTaken(r) && forall m | m in s.marks :: m in marks;
    if r in s.pending && s.pending[r].result == Some(true) && !s.pending[r].isStop {
      EvidenceGrows(s.marks, [EndTaken(r)], r);
    }
  }

  lemma ReceiptKeeps(s: Stream, r: string, device: string, completed: bool, ack: bool, code: string)
    requires Inv(s)
    ensures Inv(AcceptReceipt(s, r, device, completed, ack, code))
  {
    var t := AcceptReceipt(s, r, device, completed, ack, code);
    if ReceiptAnswer(s, r, device, completed, ack).Done? {
      assert RequestInv(s, r);
      if t.marks != s.marks {
        MarksSnoc(s, Confirmed(r, device), t);
        NewEvidence(s, r, device);
      }
      assert forall m | m in s.marks :: m in t.marks;
      forall q ensures RequestInv(t, q) {
        assert RequestInv(s, q);
        if q != r { Untouched(s, t, q); }
      }
    }
  }

  lemma NewEvidence(s: Stream, r: string, device: string)
    requires MarksInv(s) && r !in s.revoked
    requires Begun(r, device) in s.marks && EndTaken(r) in s.marks
    ensures Evidence(s.marks + [Confirmed(r, device)], r)
  {
    var marks := s.marks + [Confirmed(r, device)];
    var b :| 0 <= b < |s.marks| && s.marks[b] == Begun(r, device);
    var i :| 0 <= i < |s.marks| && s.marks[i] == EndTaken(r);
    assert marks[..|s.marks|] == s.marks;
    assert EvidenceAt(marks, r, device, b, i, |s.marks|);
  }

  lemma PressKeeps(s: Stream, capture: string, ok: bool)
    requires Inv(s)
    ensures Inv(AcceptPress(s, capture, ok))
  {
    var t := AcceptPress(s, capture, ok);
    if t != s {
      NoticeKeeps(s, true, Frame(Capturing, capture));
      Capture.PressKeeps(s.mic, capture, TryEmit(s.box).Queued?);
      var u := s.(box := t.box);
      forall q ensures RequestInv(t, q) { assert RequestInv(u, q); Untouched(u, t, q); }
    }
  }

  lemma MicKeeps(s: Stream, m: Capture.Mic)
    requires Inv(s) && Capture.MicInv(m)
    ensures Inv(s.(mic := m))
  {
    var t := s.(mic := m);
    forall q ensures RequestInv(t, q) { assert RequestInv(s, q); Untouched(s, t, q); }
  }

  lemma LoseConnectionKeeps(s: Stream)
    requires Inv(s)
    ensures Inv(s.(box := s.box.(connected := false)))
  {
    var t := s.(box := s.box.(connected := false));
    forall q ensures RequestInv(t, q) { assert RequestInv(s, q); Untouched(s, t, q); }
  }

  lemma RoundDoneKeeps(s: Stream, capture: string)
    requires Inv(s)
    ensures Inv(RoundDone(s, capture))
  {
    NoticeKeeps(s, false, Frame(Notice, ""));
    LoseConnectionKeeps(Notify(s, false));
  }

  lemma DisconnectKeeps(s: Stream)
    requires Inv(s)
    ensures Inv(Disconnect(s))
  {
    var t := Disconnect(s);
    forall q ensures RequestInv(t, q) {
      assert RequestInv(s, q);
    }
  }

  lemma CaptureStepKeeps(s: Stream, a: CaptureAction)
    requires Inv(s)
    ensures Inv(CaptureStep(s, a))
  {
    match a
    case DoPress(capture, ok) => PressKeeps(s, capture, ok);
    case DoRelease(capture) => Capture.ReleaseKeeps(s.mic, capture); MicKeeps(s, Capture.Release(s.mic, capture));
    case DoTranscript(capture, text) =>
      Capture.TranscriptKeeps(s.mic, capture, text);
      MicKeeps(s, Capture.Transcript(s.mic, capture, text));
    case DoClose => MicKeeps(s, s.mic.(closing := true));
    case DoCloseDone => Capture.CloseKeeps(s.mic); MicKeeps(s, Capture.CloseMic(s.mic));
    case DoRoundDone(capture) => RoundDoneKeeps(s, capture);
  }

  lemma TaskStepKeeps(s: Stream, a: TaskAction)
    requires Inv(s)
    ensures Inv(TaskStep(s, a))
  {
    match a
    case DoBeginPresent(r, device) => BeginPresentKeeps(s, r, device);
    case DoResumeAcquire(r) => ResumeAcquireKeeps(s, r);
    case DoNextEvent(r, text, answer) => GenerateKeeps(s, r, text, answer);
    case DoEndEvents(r) => GenerateKeeps(s, r, "", true);
    case DoResumeReceipt(r) => ResumeReceiptKeeps(s, r);
    case DoCancel(r) => CancelKeeps(s, r);
    case DoBeginStop(r, device) => BeginStopKeeps(s, r, device);
  }

  lemma StepKeeps(s: Stream, a: Action)
    requires Inv(s)
    ensures Inv(Step(s, a))
  {
    match a
    case OfTask(task) => TaskStepKeeps(s, task);
    case OfCapture(input) => CaptureStepKeeps(s, input);
    case DoReceipt(r, device, completed, ack, code) => ReceiptKeeps(s, r, device, completed, ack, code);
    case DoRevoke(r) => RevokeKeeps(s, r);
    case DoWrite => WriteKeeps(s);
    case DoNotify(urgent) => NoticeKeeps(s, urgent, Frame(Notice, ""));
    case DoDisconnect => DisconnectKeeps(s);
  }

  /** The state after a run of atomic steps, in whatever order they interleave. */
  ghost function Run(s: Stream, run: seq<Action>): Stream
    requires Inv(s)
    ensures Inv(Run(s, run))
  {
    if run == [] then s
    else
      var t := Run(s, run[..|run| - 1]);
      StepKeeps(t, run[|run| - 1]);
      Step(t, run[|run| - 1])
  }

  lemma OpenedInv()
    ensures Inv(OPENED)
  {
    forall r ensures RequestInv(OPENED, r) {}
  }

  /** In every run the reply frames handed to `send` are a prefix of the reply's emitted
      `reply_start, reply_delta*, reply_end`; a sent `reply_end` means all of them were. */
  lemma SentIsPrefix(run: seq<Action>, r: string)
    ensures Inv(OPENED)
    ensures ReplyInOrder(Of(r, Run(OPENED, run).box.emitted), Of(r, Run(OPENED, run).box.sent))
  {
    OpenedInv();
    assert RequestInv(Run(OPENED, run), r);
    PrefixToEnd(Of(r, Run(OPENED, run).box.emitted), Of(r, Run(OPENED, run).box.sent));
  }

  predicate ReplyInOrder(emitted: seq<Frame>, sent: seq<Frame>) {
    && (emitted == [] || Open(emitted) || Closed(emitted))
    && sent <= emitted
    && (sent != [] && sent[|sent| - 1].kind.ReplyEnd? ==> sent == emitted && Closed(sent))
  }

  lemma PrefixToEnd(emitted: seq<Frame>, sent: seq<Frame>)
    requires sent <= emitted && (emitted == [] || Open(emitted) || Closed(emitted))
    ensures ReplyInOrder(emitted, sent)
  {
    if sent != [] {
      assert sent[|sent| - 1] == emitted[|sent| - 1];
      assert |sent| < |emitted| && Closed(emitted) ==> emitted[..|emitted| - 1][|sent| - 1] == sent[|sent| - 1];
    }
  }

  /** A revoked reply falls silent: nothing more of it is ever handed to `send`. */
  lemma {:induction false} RevokedIsSilent(s: Stream, run: seq<Action>, r: string)
    requires Inv(s) && r in s.revoked
    ensures r in Run(s, run).revoked && Of(r, Run(s, run).box.sent) == Of(r, s.box.sent)
  {
    if run != [] {
      var t := Run(s, run[..|run| - 1]);
      RevokedIsSilent(s, run[..|run| - 1], r);
      SilentStep(t, run[|run| - 1], r);
    }
  }

  /** No stretch of a task sends anything or changes a permit. */
  lemma TasksSendNothing(s: Stream, a: TaskAction)
    requires Inv(s)
    ensures TaskStep(s, a).box.sent == s.box.sent && TaskStep(s, a).revoked == s.revoked
  {
    match a
    case DoResumeAcquire(q) => ResumeSendsNothing(s, q);
    case DoCancel(q) => CancelSendsNothing(s, q);
    case _ =>
  }

  lemma ResumeSendsNothing(s: Stream, q: string)
    requires Inv(s)
    ensures ResumeAcquire(s, q).box.sent == s.box.sent && ResumeAcquire(s, q).revoked == s.revoked
  {
    assert RequestInv(s, q);
    if q in s.tasks && s.tasks[q].Acquiring? && IsGranted(s.box.waiters, q) { LeaveKeeps(s.box, q); }
  }

  lemma CancelSendsNothing(s: Stream, q: string)
    requires Inv(s)
    ensures CancelTask(s, q).box.sent == s.box.sent && CancelTask(s, q).revoked == s.revoked
  {
    assert RequestInv(s, q);
    if q in s.tasks && s.tasks[q].Acquiring? { AbandonKeeps(s.box, q); }
  }

  lemma CapturesSendNothing(s: Stream, a: CaptureAction)
    requires Inv(s)
    ensures CaptureStep(s, a).box.sent == s.box.sent && CaptureStep(s, a).revoked == s.revoked
  {}

  lemma SilentStep(s: Stream, a: Action, r: string)
    requires Inv(s) && r in s.revoked
    ensures r in Step(s, a).revoked && Of(r, Step(s, a).box.sent) == Of(r, s.box.sent)
  {
    match a
    case OfTask(task) => TasksSendNothing(s, task);
    case OfCapture(input) => CapturesSendNothing(s, input);
    case DoWrite => SilentWrite(s, r);
    case _ =>
  }

  lemma SilentWrite(s: Stream, r: string)
    requires Inv(s) && r in s.revoked
    ensures Of(r, Write(s).box.sent) == Of(r, s.box.sent)
  {
    if s.box.queue != [] {
      var e := s.box.queue[Least(s.box.queue)];
      DequeueKeeps(s.box);
      assert WellTagged(e);
      assert Dequeue(s.box).sent == s.box.sent && Write(s).box == Deliver(Dequeue(s.box), e, s.revoked);
      OfSnoc(r, s.box.sent, e.frame);
    }
  }

  /** In every run the 64 reply slots are conserved, so the queue of 128 can only be full
      with at least 64 frames that are not reply frames. */
  lemma SlotsConserved(run: seq<Action>)
    ensures Inv(OPENED)
    ensures
      var b := Run(OPENED, run).box;
      && b.free + Granted(b.waiters) + Replies(b.queue) == SLOTS
      && |b.queue| <= CAPACITY
      && (TryEmit(b).Full? ==> |b.queue| - Replies(b.queue) >= CAPACITY - SLOTS)
      && (b.free > 0 && Ungranted(b.waiters) > 0 ==> Granted(b.waiters) > 0)
  {
    OpenedInv();
  }

  /** `present` returns True only on evidence: in every run, a completed receipt from the
      request's own device came in under a still current permit, after the writer had
      taken that request's `reply_end`. */
  lemma PresentedOnEvidence(run: seq<Action>, k: nat)
    ensures Inv(OPENED)
    ensures
      var marks := Run(OPENED, run).marks;
      k < |marks| && marks[k].Presented? ==> Evidence(marks[..k], marks[k].request)
  {
    OpenedInv();
  }

  /** A corollary of the receipt branch: late, duplicate, foreign, premature and revoked
      receipts change no future. */
  lemma UselessReceipts(s: Stream, r: string, device: string, completed: bool, ack: bool, code: string)
    requires Inv(s)
    requires
      || r !in s.pending
      || s.pending[r].result.Some?
      || s.pending[r].device != device
      || (completed && !s.pending[r].completionAllowed)
      || (!s.pending[r].isStop && r in s.revoked)
      || (s.pending[r].isStop && !ack)
    ensures Step(s, DoReceipt(r, device, completed, ack, code)) == s
  {}

  predicate Awaits(s: Stream, r: string) {
    r in s.tasks && (s.tasks[r].AwaitingReceipt? || s.tasks[r].AwaitingStop?)
  }

  lemma NoNewWaitingResume(s: Stream, q: string, r: string)
    requires Inv(s) && s.gone
    ensures ResumeAcquire(s, q).gone && (Awaits(ResumeAcquire(s, q), r) ==> Awaits(s, r))
  {
    assert RequestInv(s, q);
    if q in s.tasks && s.tasks[q].Acquiring? && IsGranted(s.box.waiters, q) { LeaveKeeps(s.box, q); }
  }

  lemma NoNewWaitingTask(s: Stream, a: TaskAction, r: string)
    requires Inv(s) && s.gone
    ensures TaskStep(s, a).gone && (Awaits(TaskStep(s, a), r) ==> Awaits(s, r))
  {
    match a
    case DoResumeAcquire(q) => NoNewWaitingResume(s, q, r);
    case _ =>
  }

  lemma NoNewWaitingCapture(s: Stream, a: CaptureAction, r: string)
    requires Inv(s) && s.gone
    ensures CaptureStep(s, a).gone && (Awaits(CaptureStep(s, a), r) ==> Awaits(s, r))
  {}

  /** Once disconnected, no step makes a task start waiting for a receipt. */
  lemma NoNewWaiting(s: Stream, a: Action, r: string)
    requires Inv(s) && s.gone
    ensures Step(s, a).gone && (Awaits(Step(s, a), r) ==> Awaits(s, r))
  {
    match a
    case OfTask(task) => NoNewWaitingTask(s, task, r);
    case OfCapture(input) => NoNewWaitingCapture(s, input, r);
    case _ =>
  }

  /** After `disconnect` starts, whatever runs on: no task waits on an unresolved receipt,
      and only tasks that already waited then ever consume one. */
  lemma {:induction false} DisconnectedStaysQuiet(s: Stream, run: seq<Action>, r: string)
    requires Inv(s)
    ensures Inv(Disconnect(s))
    ensures
      var t := Run(Disconnect(s), run);
      && t.gone
      && (Awaits(t, r) ==> Awaits(s, r) && r in t.pending && t.pending[r].result.Some?)
  {
    DisconnectKeeps(s);
    var t := Run(Disconnect(s), run);
    if run != [] {
      DisconnectedStaysQuiet(s, run[..|run| - 1], r);
      NoNewWaiting(Run(Disconnect(s), run[..|run| - 1]), run[|run| - 1], r);
    }
    assert RequestInv(t, r);
  }

  /** Nothing later in a run takes back what the capture protocol settled. */
  lemma {:induction false} MicOnlyGrows(s: Stream, run: seq<Action>)
    requires Inv(s)
    ensures Capture.Later(s.mic, Run(s, run).mic)
  {
    if run != [] {
      var t := Run(s, run[..|run| - 1]);
      MicOnlyGrows(s, run[..|run| - 1]);
      MicStep(t, run[|run| - 1]);
      Capture.LaterTransitive(s.mic, t.mic, Run(s, run).mic);
    }
  }

  /** Nothing but the device's capture messages and `close` changes the capture state. */
  lemma TasksLeaveMic(s: Stream, a: TaskAction)
    requires Inv(s)
    ensures TaskStep(s, a).mic == s.mic
  {}

  lemma MicCaptureStep(s: Stream, a: CaptureAction)
    requires Inv(s)
    ensures Capture.Later(s.mic, CaptureStep(s, a).mic)
  {
    match a
    case DoPress(capture, ok) =>
      if AcceptPress(s, capture, ok) != s { Capture.PressKeeps(s.mic, capture, TryEmit(s.box).Queued?); }
    case DoRelease(capture) => Capture.ReleaseKeeps(s.mic, capture);
    case DoTranscript(capture, text) => Capture.TranscriptKeeps(s.mic, capture, text);
    case DoCloseDone => Capture.CloseKeeps(s.mic);
    case _ =>
  }

  lemma MicStep(s: Stream, a: Action)
    requires Inv(s)
    ensures Capture.Later(s.mic, Step(s, a).mic)
  {
    match a
    case OfTask(task) => TasksLeaveMic(s, task);
    case OfCapture(input) => MicCaptureStep(s, input);
    case _ =>
  }

  /** In every continuation, what `transcribe` handed out for a capture resolves only to a
      final transcript of that capture, after its release; a superseded capture's
      unresolved transcript is cancelled; and each release happens once. */
  lemma TranscriptsAreBound(s: Stream, capture: string, run: seq<Action>)
    requires Inv(s) && !s.mic.broken && Capture.Transcribe(s.mic, capture).Some?
    ensures Bound(Run(s, run).mic, Capture.Transcribe(s.mic, capture).value, capture)
    ensures ReleasedOnce(Run(s, run).mic)
  {
    MicOnlyGrows(s, run);
    Capture.TranscribeIsBound(s.mic, capture, Run(s, run).mic);
  }

  ghost predicate Bound(m: Capture.Mic, i: nat, capture: string) {
    && i < |m.futures| && m.futures[i].capture == capture
    && (m.futures[i].state.Resolved? ==> (capture, m.futures[i].state.text) in m.finals && i in m.releases)
    && (i < |m.futures| - 1 ==> !m.futures[i].state.Unresolved?)
  }

  ghost predicate ReleasedOnce(m: Capture.Mic) {
    forall j, k | 0 <= j < k < |m.releases| :: m.releases[j] != m.releases[k]
  }
}
