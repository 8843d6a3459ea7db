/** A reply that nothing disturbs gets through (app/transport/coordination.py): its texts are
    sent, its receipt is asked for and `present` returns True. */
module StreamDelivery {
  import opened Basics
  import opened Outbox
  import opened StreamMachine
  import opened StreamLimits
  import opened StreamOutcomes
  import opened StreamOrder

  // ---- emitting ----------------------------------------------------------

  /** Room for `frames` more reply frames: nobody waits for a slot, slots and queue suffice. */
  predicate HasRoom(b: Box, frames: nat) {
    b.connected && b.waiters == [] && b.free >= frames && |b.queue| + frames <= CAPACITY
  }

  /** The presentation of `r` goes on, with these texts emitted so far. */
  ghost predicate Presents(s: Stream, r: string, device: string, texts: seq<string>) {
    && Inv(s) && r !in s.revoked && r in s.tasks && r in s.pending
    && s.pending[r].device == device && !s.pending[r].isStop && s.pending[r].result.None?
    && Texts(Of(r, s.box.emitted)) == texts
  }

  lemma SendsInRoom(s: Stream, f: Frame, room: nat)
    requires HasRoom(s.box, room + 1) && IsReply(f)
    requires f.request !in s.revoked && f.request in s.pending && s.pending[f.request].result.None?
    ensures
      var t, r := EmitReply(s, f), f.request;
      && HasRoom(t.box, room) && |t.box.queue| == |s.box.queue| + 1
      && t.pending == s.pending && t.revoked == s.revoked && t.marks == s.marks
      && t.tasks == s.tasks[r := if f.kind.ReplyEnd? then AwaitingReceipt else Generating]
      && Of(r, t.box.emitted) == Of(r, s.box.emitted) + [f]
  {
    OfSnoc(f.request, s.box.emitted, f);
  }

  lemma BeginPresents(s: Stream, r: string, device: string, room: nat)
    requires Inv(s) && r !in s.tasks && r !in s.revoked && HasRoom(s.box, room + 1)
    ensures
      var t := BeginPresent(s, r, device);
      && Presents(t, r, device, []) && t.tasks[r].Generating?
      && HasRoom(t.box, room) && |t.box.queue| == |s.box.queue| + 1
  {
    BeginPresentKeeps(s, r, device);
    assert RequestInv(s, r);
    var b := s.(pending := s.pending[r := Pending(device, false, false, None, "")],
                marks := s.marks + [Begun(r, device)]);
    SendsInRoom(b, Frame(ReplyStart, r), room);
    TextsSnoc([], Frame(ReplyStart, r));
  }

  lemma TextPresents(s: Stream, r: string, device: string, texts: seq<string>, text: string, room: nat)
    requires Presents(s, r, device, texts) && s.tasks[r].Generating? && HasRoom(s.box, room + 1)
    ensures
      var t := NextEvent(s, r, text, true);
      && Presents(t, r, device, texts + [text]) && t.tasks[r].Generating?
      && HasRoom(t.box, room) && |t.box.queue| == |s.box.queue| + 1
  {
    GenerateKeeps(s, r, text, true);
    SendsInRoom(s, Frame(ReplyDelta(text), r), room);
    TextsSnoc(Of(r, s.box.emitted), Frame(ReplyDelta(text), r));
  }

  lemma GeneratesSendsNothing(s: Stream, r: string)
    requires Inv(s)
    ensures EndEvents(s, r).box.sent == s.box.sent
  {}

  lemma EndPresents(s: Stream, r: string, device: string, texts: seq<string>)
    requires Presents(s, r, device, texts) && s.tasks[r].Generating? && HasRoom(s.box, 1)
    ensures
      var t := EndEvents(s, r);
      && Presents(t, r, device, texts) && t.tasks[r].AwaitingReceipt? && |t.box.queue| == |s.box.queue| + 1
      && |Of(r, t.box.sent)| < |Of(r, t.box.emitted)|
  {
    assert RequestInv(s, r);
    GenerateKeeps(s, r, "", true);
    GeneratesSendsNothing(s, r);
    SendsInRoom(s, Frame(ReplyEnd, r), 0);
    TextsSnoc(Of(r, s.box.emitted), Frame(ReplyEnd, r));
  }

  // ---- writing -----------------------------------------------------------

  /** The reply is emitted; its end was taken by the writer or is still queued. */
  ghost predicate Drains(s: Stream, r: string, device: string, texts: seq<string>) {
    && Presents(s, r, device, texts) && s.tasks[r].AwaitingReceipt?
    && (s.pending[r].completionAllowed || |Of(r, s.box.sent)| < |Of(r, s.box.emitted)|)
  }

  lemma AllowsOnly(s: Stream, q: string, r: string)
    requires r in s.pending
    ensures r in Allow(s, q).pending
    ensures Allow(s, q).pending[r] == if q == r then s.pending[r].(completionAllowed := true) else s.pending[r]
    ensures Allow(s, q) == s.(pending := Allow(s, q).pending, marks := Allow(s, q).marks)
  {}

  /** What one write does to a current reply. */
  lemma WriteSends(s: Stream, r: string, i: nat)
    requires Inv(s) && s.box.queue != [] && i == Least(s.box.queue) && r !in s.revoked && r in s.pending
    ensures
      var t, f := Write(s), s.box.queue[i].frame;
      && |t.box.queue| == |s.box.queue| - 1 && t.box.emitted == s.box.emitted
      && t.tasks == s.tasks && t.revoked == s.revoked && r in t.pending
      && Of(r, t.box.sent) == Of(r, s.box.sent) + (if IsReply(f) && f.request == r then [f] else [])
      && t.pending[r] == if f == Frame(ReplyEnd, r) then s.pending[r].(completionAllowed := true) else s.pending[r]
  {
    var e := s.box.queue[i];
    DequeueKeeps(s.box);
    assert WellTagged(e);
    OfSnoc(r, s.box.sent, e.frame);
    AllowsOnly(s.(box := Deliver(Dequeue(s.box), e, s.revoked)), e.frame.request, r);
  }

  /** A frame sent last of all those emitted is the reply's end. */
  lemma LastSentIsEnd(emitted: seq<Frame>, sent: seq<Frame>, f: Frame)
    requires Closed(emitted) && sent + [f] <= emitted && |sent| + 1 == |emitted|
    ensures f.kind.ReplyEnd?
  {
    assert emitted[|emitted| - 1] == (sent + [f])[|sent|];
  }

  lemma WriteDrains(s: Stream, r: string, device: string, texts: seq<string>)
    requires Drains(s, r, device, texts) && s.box.queue != []
    ensures Drains(Write(s), r, device, texts) && |Write(s).box.queue| == |s.box.queue| - 1
  {
    var i := Least(s.box.queue);
    var f := s.box.queue[i].frame;
    WriteKeeps(s);
    WriteSends(s, r, i);
    assert RequestInv(s, r) && RequestInv(Write(s), r);
    if IsReply(f) && f.request == r && |Of(r, s.box.sent)| + 1 == |Of(r, s.box.emitted)| {
      LastSentIsEnd(Of(r, s.box.emitted), Of(r, s.box.sent), f);
    }
  }

  lemma Drained(s: Stream, r: string, device: string, texts: seq<string>)
    requires Drains(s, r, device, texts) && s.box.queue == []
    ensures s.pending[r].completionAllowed && Of(r, s.box.sent) == Of(r, s.box.emitted)
  {
    assert RequestInv(s, r);
  }

  // ---- the whole presentation --------------------------------------------

  /** `present` begins and its events bring the texts. */
  function Speaking(r: string, device: string, texts: seq<string>): seq<Action> {
    if texts == [] then [OfTask(DoBeginPresent(r, device))]
    else Speaking(r, device, texts[..|texts| - 1]) + [OfTask(DoNextEvent(r, texts[|texts| - 1], true))]
  }

  /** The presentation has emitted its start and these texts, and has room for more. */
  ghost predicate Spoke(s: Stream, r: string, device: string, texts: seq<string>, room: nat, queued: nat) {
    Presents(s, r, device, texts) && s.tasks[r].Generating? && HasRoom(s.box, room) && |s.box.queue| == queued
  }

  lemma Begins(s: Stream, r: string, device: string, room: nat, queued: nat, t: Stream)
    requires Inv(s) && r !in s.tasks && r !in s.revoked && HasRoom(s.box, room + 1) && |s.box.queue| == queued
    requires t == BeginPresent(s, r, device)
    ensures Spoke(t, r, device, [], room, queued + 1)
  {
    BeginPresents(s, r, device, room);
  }

  lemma SpeaksOn(s: Stream, r: string, device: string, texts: seq<string>, text: string, room: nat, queued: nat,
                 t: Stream)
    requires Spoke(s, r, device, texts, room + 1, queued) && t == NextEvent(s, r, text, true)
    ensures Spoke(t, r, device, texts + [text], room, queued + 1)
  {
    TextPresents(s, r, device, texts, text, room);
  }

  /** The state that `Speaking` leads to. */
  function Spoken(s: Stream, r: string, device: string, texts: seq<string>): Stream {
    if texts == [] then BeginPresent(s, r, device)
    else NextEvent(Spoken(s, r, device, texts[..|texts| - 1]), r, texts[|texts| - 1], true)
  }

  lemma {:induction false} SpokenPresents(s: Stream, r: string, device: string, texts: seq<string>, room: nat)
    requires Inv(s) && r !in s.tasks && r !in s.revoked && HasRoom(s.box, |texts| + 1 + room)
    ensures Spoke(Spoken(s, r, device, texts), r, device, texts, room, |s.box.queue| + |texts| + 1)
  {
    if texts == [] {
      Begins(s, r, device, room, |s.box.queue|, Spoken(s, r, device, texts));
    } else {
      var front, text := texts[..|texts| - 1], texts[|texts| - 1];
      SpokenPresents(s, r, device, front, room + 1);
      assert front + [text] == texts;
      SpeaksOn(Spoken(s, r, device, front), r, device, front, text, room, |s.box.queue| + |front| + 1,
        Spoken(s, r, device, texts));
    }
  }

  lemma {:induction false} RunSpeaking(s: Stream, r: string, device: string, texts: seq<string>, all: seq<Action>)
    requires Inv(s) && all == Speaking(r, device, texts)
    ensures Run(s, all) == Spoken(s, r, device, texts)
  {
    if texts == [] {
      RunSnoc(s, [], OfTask(DoBeginPresent(r, device)));
      assert [] + [OfTask(DoBeginPresent(r, device))] == all;
    } else {
      var front, text := texts[..|texts| - 1], texts[|texts| - 1];
      RunSpeaking(s, r, device, front, Speaking(r, device, front));
      RunSnoc(s, Speaking(r, device, front), OfTask(DoNextEvent(r, text, true)));
    }
  }

  ghost predicate DrainsTo(s: Stream, r: string, device: string, texts: seq<string>, queued: int) {
    Drains(s, r, device, texts) && |s.box.queue| == queued
  }

  lemma StepDrains(s: Stream, a: Action, r: string, device: string, texts: seq<string>, queued: int)
    requires Inv(s) && DrainsTo(s, r, device, texts, queued) && queued > 0 && a.DoWrite?
    ensures DrainsTo(Step(s, a), r, device, texts, queued - 1)
  {
    WriteDrains(s, r, device, texts);
  }

  lemma {:induction false} WritesDrain(
    s: Stream, r: string, device: string, texts: seq<string>, writes: seq<Action>, queued: int)
    requires Inv(s) && DrainsTo(s, r, device, texts, queued) && |writes| <= queued
    requires forall i | 0 <= i < |writes| :: writes[i].DoWrite?
    ensures DrainsTo(Run(s, writes), r, device, texts, queued - |writes|)
  {
    if writes != [] {
      var front := writes[..|writes| - 1];
      WritesDrain(s, r, device, texts, front, queued);
      StepDrains(Run(s, front), writes[|writes| - 1], r, device, texts, queued - |front|);
    }
  }

  lemma {:induction false} RunConcat(s: Stream, a: seq<Action>, b: seq<Action>)
    requires Inv(s)
    ensures Run(s, a + b) == Run(Run(s, a), b)
  {
    if b == [] {
      assert a + b == a;
    } else {
      var front, last := b[..|b| - 1], b[|b| - 1];
      assert a + b == (a + front) + [last] && b == front + [last];
      RunConcat(s, a, front);
      RunSnoc(s, a + front, last);
      RunSnoc(Run(s, a), front, last);
    }
  }

  function Writes(n: nat): seq<Action> { seq(n, _ => DoWrite) }

  /** The frames of the presentation are emitted, and the writer takes all that is queued. */
  function Sending(r: string, device: string, texts: seq<string>, queued: nat): seq<Action> {
    Speaking(r, device, texts) + [OfTask(DoEndEvents(r))] + Writes(queued + |texts| + 2)
  }

  lemma Ends(s: Stream, r: string, device: string, texts: seq<string>, queued: nat, t: Stream)
    requires Spoke(s, r, device, texts, 1, queued) && t == EndEvents(s, r)
    ensures DrainsTo(t, r, device, texts, queued + 1)
  {
    EndPresents(s, r, device, texts);
  }

  lemma ThenEnds(s: Stream, run: seq<Action>, r: string, device: string, texts: seq<string>, queued: nat,
                 all: seq<Action>)
    requires Inv(s) && Spoke(Run(s, run), r, device, texts, 1, queued) && all == run + [OfTask(DoEndEvents(r))]
    ensures DrainsTo(Run(s, all), r, device, texts, queued + 1)
  {
    RunSnoc(s, run, OfTask(DoEndEvents(r)));
    Ends(Run(s, run), r, device, texts, queued, Run(s, all));
  }

  lemma ThenWrites(s: Stream, run: seq<Action>, r: string, device: string, texts: seq<string>, writes: seq<Action>,
                   all: seq<Action>)
    requires Inv(s) && DrainsTo(Run(s, run), r, device, texts, |writes|) && all == run + writes
    requires forall i | 0 <= i < |writes| :: writes[i].DoWrite?
    ensures DrainsTo(Run(s, all), r, device, texts, 0)
  {
    RunConcat(s, run, writes);
    WritesDrain(Run(s, run), r, device, texts, writes, |writes|);
  }

  lemma SpeakingPresents(s: Stream, r: string, device: string, texts: seq<string>, all: seq<Action>)
    requires Inv(s) && r !in s.tasks && r !in s.revoked && HasRoom(s.box, |texts| + 2)
    requires all == Speaking(r, device, texts)
    ensures Spoke(Run(s, all), r, device, texts, 1, |s.box.queue| + |texts| + 1)
  {
    RunSpeaking(s, r, device, texts, all);
    SpokenPresents(s, r, device, texts, 1);
  }

  lemma EmptyDrained(s: Stream, r: string, device: string, texts: seq<string>)
    requires DrainsTo(s, r, device, texts, 0)
    ensures
      && Presents(s, r, device, texts) && s.tasks[r].AwaitingReceipt? && s.pending[r].completionAllowed
      && Of(r, s.box.sent) == Of(r, s.box.emitted)
  {
    Drained(s, r, device, texts);
  }

  lemma SendingDelivers(
    s: Stream, r: string, device: string, texts: seq<string>, speaking: seq<Action>, sending: seq<Action>)
    requires Inv(s) && Spoke(Run(s, speaking), r, device, texts, 1, |s.box.queue| + |texts| + 1)
    requires sending == speaking + [OfTask(DoEndEvents(r))] + Writes(|s.box.queue| + |texts| + 2)
    ensures DrainsTo(Run(s, sending), r, device, texts, 0)
  {
    var emits := speaking + [OfTask(DoEndEvents(r))];
    ThenEnds(s, speaking, r, device, texts, |s.box.queue| + |texts| + 1, emits);
    ThenWrites(s, emits, r, device, texts, Writes(|s.box.queue| + |texts| + 2), sending);
  }

  /** A reply under a current permit, with room for its frames: once they are written exactly
      its texts have been sent, between its start and its end, and the device's completed
      receipt makes `present` return True. */
  lemma UndisturbedIsPresented(s: Stream, r: string, device: string, texts: seq<string>, ack: bool, code: string)
    requires Inv(s) && r !in s.tasks && r !in s.revoked && HasRoom(s.box, |texts| + 2)
    ensures
      var sending := Sending(r, device, texts, |s.box.queue|);
      var t := Run(s, sending + [DoReceipt(r, device, true, ack, code)] + [OfTask(DoResumeReceipt(r))]);
      && Closed(Of(r, t.box.sent)) && Texts(Of(r, t.box.sent)) == texts
      && Returned(t, r) && Presented(r) in t.marks
  {
    var sending := Sending(r, device, texts, |s.box.queue|);
    var u := Run(s, sending);
    SpeakingPresents(s, r, device, texts, Speaking(r, device, texts));
    SendingDelivers(s, r, device, texts, Speaking(r, device, texts), sending);
    EmptyDrained(u, r, device, texts);
    RunSnoc(s, sending, DoReceipt(r, device, true, ack, code));
    RunSnoc(s, sending + [DoReceipt(r, device, true, ack, code)], OfTask(DoResumeReceipt(r)));
    assert RequestInv(u, r);
    ReceiptDecides(u, r, device, true, ack, code);
    ReceiptSendsNothing(u, r, device, ack, code);
  }

  lemma ReceiptSendsNothing(s: Stream, r: string, device: string, ack: bool, code: string)
    requires Inv(s)
    ensures
      var t := Step(s, DoReceipt(r, device, true, ack, code));
      Step(t, OfTask(DoResumeReceipt(r))).box.sent == s.box.sent
  {}

  // ---- a call that waited for its slot -----------------------------------

  /** A call whose slot was granted leaves the line when it runs on: it emits its frame, or
      fails if its permit is revoked, the stream disconnected or the queue full. */
  lemma GrantedGoesOn(s: Stream, r: string)
    requires Inv(s) && r in s.tasks && s.tasks[r].Acquiring? && IsGranted(s.box.waiters, r)
    ensures
      var t, fs := Step(s, OfTask(DoResumeAcquire(r))), Of(r, s.box.emitted);
      && r in t.tasks && !t.tasks[r].Acquiring?
      && if r in s.revoked || !s.box.connected || |s.box.queue| >= CAPACITY then
           t.tasks[r] == Finished(false) && Of(r, t.box.emitted) == fs
         else Of(r, t.box.emitted) == fs + [s.tasks[r].frame]
  {
    assert RequestInv(s, r);
    LeaveKeeps(s.box, r);
    var u, f := s.(box := Leave(s.box, r)), s.tasks[r].frame;
    if r in s.revoked || !s.box.connected || |s.box.queue| >= CAPACITY {
      SendFailed(u, f);
    } else {
      SendQueued(u, f);
      OfSnoc(r, s.box.emitted, f);
    }
  }

  // ---- a reply that failed -----------------------------------------------

  /** The call of `r` is over, or its receipt said that it failed and no more text will come. */
  ghost predicate Failing(s: Stream, r: string, texts: seq<string>) {
    && r in s.tasks && Texts(Of(r, s.box.emitted)) == texts && !Returned(s, r)
    && (s.tasks[r].Finished?
        || (r in s.pending && s.pending[r].result == Some(false)
            && (s.tasks[r].Acquiring? ==> !s.tasks[r].frame.kind.ReplyDelta?)))
  }

  /** Another request's frame, or none of this one's texts, leaves it failing. */
  lemma StillFailing(s: Stream, t: Stream, r: string, texts: seq<string>, f: Frame)
    requires Failing(s, r, texts) && SameFor(s, t, r) && Grew(s.box, t.box, f)
    requires !(IsReply(f) && f.request == r)
    ensures Failing(t, r, texts)
  {
    OfSnoc(r, s.box.emitted, f);
  }

  lemma SendFails(s: Stream, f: Frame, texts: seq<string>)
    requires IsReply(f) && !f.kind.ReplyDelta? && Texts(Of(f.request, s.box.emitted)) == texts
    requires f.request in s.pending && s.pending[f.request].result == Some(false)
    ensures Failing(SendReply(s, f), f.request, texts)
  {
    if f.request in s.revoked || !TryEmit(s.box).Queued? {
      SendFailed(s, f);
    } else {
      SendQueued(s, f);
      OfSnoc(f.request, s.box.emitted, f);
      TextsSnoc(Of(f.request, s.box.emitted), f);
    }
  }

  lemma EmitFails(s: Stream, f: Frame, texts: seq<string>)
    requires IsReply(f) && !f.kind.ReplyDelta? && Texts(Of(f.request, s.box.emitted)) == texts
    requires f.request in s.pending && s.pending[f.request].result == Some(false)
    ensures Failing(EmitReply(s, f), f.request, texts)
  {
    if CanAcquire(s.box) { SendFails(s.(box := s.box.(free := s.box.free - 1)), f, texts); }
  }

  lemma ResumeFails(s: Stream, r: string, texts: seq<string>)
    requires Inv(s) && Failing(s, r, texts)
    ensures Failing(ResumeAcquire(s, r), r, texts)
  {
    assert RequestInv(s, r);
    if s.tasks[r].Acquiring? && IsGranted(s.box.waiters, r) {
      LeaveKeeps(s.box, r);
      SendFails(s.(box := Leave(s.box, r)), s.tasks[r].frame, texts);
    }
  }

  lemma EndFails(s: Stream, r: string, texts: seq<string>)
    requires Inv(s) && Failing(s, r, texts)
    ensures Failing(EndEvents(s, r), r, texts)
  {
    if s.tasks[r].Generating? { EmitFails(s, Frame(ReplyEnd, r), texts); }
  }

  lemma CancelFails(s: Stream, r: string, texts: seq<string>)
    requires Inv(s) && Failing(s, r, texts)
    ensures Failing(CancelTask(s, r), r, texts)
  {
    assert RequestInv(s, r);
    if s.tasks[r].Acquiring? { AbandonKeeps(s.box, r); }
  }

  lemma OwnFails(s: Stream, a: TaskAction, texts: seq<string>)
    requires Inv(s) && Failing(s, a.r, texts)
    ensures Failing(TaskStep(s, a), a.r, texts)
  {
    match a
    case DoBeginPresent(r, device) =>
    case DoResumeAcquire(r) => ResumeFails(s, r, texts);
    case DoNextEvent(r, text, answer) =>
    case DoEndEvents(r) => EndFails(s, r, texts);
    case DoResumeReceipt(r) =>
    case DoCancel(r) => CancelFails(s, r, texts);
    case DoBeginStop(r, device) =>
  }

  lemma WriteKeepsResult(s: Stream, r: string)
    requires r in s.pending
    ensures r in Write(s).pending && Write(s).pending[r].result == s.pending[r].result
  {
    if s.box.queue != [] {
      var e := s.box.queue[Least(s.box.queue)];
      AllowsOnly(s.(box := Deliver(Dequeue(s.box), e, s.revoked)), e.frame.request, r);
    }
  }

  lemma WriteFails(s: Stream, r: string, texts: seq<string>, t: Stream)
    requires Inv(s) && Failing(s, r, texts) && s.box.queue != [] && t == Write(s)
    ensures Failing(t, r, texts)
  {
    WriteTakes(s, t);
    if r in s.pending { WriteKeepsResult(s, r); }
  }

  lemma ReaderFails(s: Stream, a: Action, r: string, texts: seq<string>)
    requires Inv(s) && Failing(s, r, texts) && (a.DoReceipt? || a.DoDisconnect?)
    ensures Failing(Step(s, a), r, texts)
  {}

  lemma StepFails(s: Stream, a: Action, r: string, texts: seq<string>)
    requires Inv(s) && Failing(s, r, texts)
    ensures Failing(Step(s, a), r, texts)
  {
    if a.OfTask? && a.task.r == r {
      OwnFails(s, a.task, texts);
    } else if a.DoWrite? {
      if s.box.queue != [] { WriteFails(s, r, texts, Write(s)); }
    } else if a.DoReceipt? || a.DoDisconnect? {
      ReaderFails(s, a, r, texts);
    } else {
      StepGrew(s, a);
      OthersSame(s, a, r);
      StillFailing(s, Step(s, a), r, texts, Offered(s, a));
    }
  }

  lemma OthersSame(s: Stream, a: Action, r: string)
    requires Inv(s) && !a.DoWrite? && !a.DoReceipt? && !a.DoDisconnect? && !(a.OfTask? && a.task.r == r)
    ensures SameFor(s, Step(s, a), r) && !(IsReply(Offered(s, a)) && Offered(s, a).request == r)
  {
    match a
    case OfTask(task) => TaskOther(s, task, r); OfferedOwn(s, task);
    case OfCapture(input) => CaptureSame(s, input, r);
    case DoRevoke(q) =>
    case DoNotify(urgent) =>
  }

  /** A receipt that says "failed" ends the reply: whatever runs on, no more of its texts is
      emitted and `present` never returns True. */
  lemma {:induction false} FailedReplyStops(s: Stream, r: string, run: seq<Action>)
    requires Inv(s) && r in s.tasks && r in s.pending && s.pending[r].result == Some(false)
    requires s.tasks[r].Generating? || s.tasks[r].AwaitingReceipt?
    ensures Failing(Run(s, run), r, Texts(Of(r, s.box.emitted)))
  {
    if run != [] {
      var front := run[..|run| - 1];
      FailedReplyStops(s, r, front);
      StepFails(Run(s, front), run[|run| - 1], r, Texts(Of(r, s.box.emitted)));
    }
  }
}
