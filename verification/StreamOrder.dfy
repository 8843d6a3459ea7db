/** What the role-group stream sends, over whole runs: the answer's texts, and the stops and
    captures that overtake them (app/transport/coordination.py). */
module StreamOrder {
  import opened Basics
  import opened Outbox
  import opened StreamMachine
  import opened StreamOutcomes
  import StreamLimits

  // ---- what a step emits --------------------------------------------------

  /** What has to reach the devices at once. */
  predicate IsControl(f: Frame) { f.kind.Stop? || f.kind.Capturing? }

  /** The frame that a step offers to the queue, if any. */
  function Offered(s: Stream, a: Action): Frame {
    match a
    case OfTask(task) => (
      match task
      case DoBeginPresent(r, device) => Frame(ReplyStart, r)
      case DoResumeAcquire(r) => if r in s.tasks && s.tasks[r].Acquiring? then s.tasks[r].frame else Frame(Notice, "")
      case DoNextEvent(r, text, answer) => Frame(ReplyDelta(text), r)
      case DoEndEvents(r) => Frame(ReplyEnd, r)
      case DoBeginStop(r, device) => Frame(Stop, r)
      case _ => Frame(Notice, "")
    )
    case OfCapture(input) => if input.DoPress? then Frame(Capturing, input.capture) else Frame(Notice, "")
    case _ => Frame(Notice, "")
  }

  /** Nothing was sent, and the queue is as it was or has the frame at its end, urgent if it
      is a stop or a capture. */
  predicate Grew(b: Box, c: Box, f: Frame) {
    && c.sent == b.sent
    && if c.emitted == b.emitted then c.queue == b.queue
       else
         && c.emitted == b.emitted + [f] && |c.queue| == |b.queue| + 1 && c.queue[..|b.queue|] == b.queue
         && c.queue[|b.queue|].frame == f && (IsControl(f) ==> c.queue[|b.queue|].urgent)
  }

  lemma SendQueued(s: Stream, f: Frame)
    requires f.request !in s.revoked && TryEmit(s.box).Queued?
    ensures
      var t := SendReply(s, f);
      && t.box.emitted == s.box.emitted + [f] && f.request in t.tasks
      && (t.tasks[f.request].Finished? || t.tasks[f.request].AwaitingReceipt? || t.tasks[f.request].Generating?)
  {}

  lemma SendFailed(s: Stream, f: Frame)
    requires f.request in s.revoked || !TryEmit(s.box).Queued?
    ensures
      var t := SendReply(s, f);
      && t.box.emitted == s.box.emitted && t.box.queue == s.box.queue
      && f.request in t.tasks && t.tasks[f.request] == Finished(false)
  {}

  lemma SendGrew(s: Stream, f: Frame)
    requires !IsControl(f)
    ensures Grew(s.box, SendReply(s, f).box, f)
  {
    if f.request in s.revoked || !TryEmit(s.box).Queued? { SendFailed(s, f); }
  }

  lemma EmitReplyGrew(s: Stream, f: Frame)
    requires !IsControl(f)
    ensures Grew(s.box, EmitReply(s, f).box, f)
  {
    if CanAcquire(s.box) { SendGrew(s.(box := s.box.(free := s.box.free - 1)), f); }
  }

  lemma BeginGrew(s: Stream, r: string, device: string)
    ensures Grew(s.box, BeginPresent(s, r, device).box, Frame(ReplyStart, r))
  {
    if r !in s.tasks {
      EmitReplyGrew(s.(pending := s.pending[r := Pending(device, false, false, None, "")],
                       marks := s.marks + [Begun(r, device)]), Frame(ReplyStart, r));
    }
  }

  lemma ResumeGrew(s: Stream, r: string)
    requires Inv(s)
    ensures Grew(s.box, ResumeAcquire(s, r).box, Offered(s, OfTask(DoResumeAcquire(r))))
  {
    assert RequestInv(s, r);
    if r in s.tasks && s.tasks[r].Acquiring? && IsGranted(s.box.waiters, r) {
      LeaveKeeps(s.box, r);
      SendGrew(s.(box := Leave(s.box, r)), s.tasks[r].frame);
    }
  }

  lemma CancelGrew(s: Stream, r: string)
    requires Inv(s)
    ensures Grew(s.box, CancelTask(s, r).box, Frame(Notice, ""))
  {
    assert RequestInv(s, r);
    if r in s.tasks && s.tasks[r].Acquiring? { AbandonKeeps(s.box, r); }
  }

  lemma StopGrew(s: Stream, r: string, device: string)
    ensures Grew(s.box, BeginStop(s, r, device).box, Frame(Stop, r))
  {}

  lemma TaskGrew(s: Stream, a: TaskAction)
    requires Inv(s)
    ensures Grew(s.box, TaskStep(s, a).box, Offered(s, OfTask(a)))
  {
    match a
    case DoBeginPresent(r, device) => BeginGrew(s, r, device);
    case DoResumeAcquire(r) => ResumeGrew(s, r);
    case DoNextEvent(r, text, answer) => EmitReplyGrew(s, Frame(ReplyDelta(text), r));
    case DoEndEvents(r) => EmitReplyGrew(s, Frame(ReplyEnd, r));
    case DoResumeReceipt(r) =>
    case DoCancel(r) => CancelGrew(s, r);
    case DoBeginStop(r, device) => StopGrew(s, r, device);
  }

  lemma CaptureGrew(s: Stream, a: CaptureAction)
    requires Inv(s)
    ensures Grew(s.box, CaptureStep(s, a).box, Offered(s, OfCapture(a)))
  {}

  /** Whatever but the writer runs, the queue at most gains one frame. */
  lemma StepGrew(s: Stream, a: Action)
    requires Inv(s) && !a.DoWrite?
    ensures Grew(s.box, Step(s, a).box, Offered(s, a))
  {
    match a
    case OfTask(task) => TaskGrew(s, task);
    case OfCapture(input) => CaptureGrew(s, input);
    case DoReceipt(r, device, completed, ack, code) =>
    case DoRevoke(r) =>
    case DoNotify(urgent) =>
    case DoDisconnect =>
  }

  /** The writer takes one entry out and sends its frame, or drops it. */
  predicate Took(b: Box, c: Box, i: nat)
    requires i < |b.queue|
  {
    && c.emitted == b.emitted && c.queue == Drop(b.queue, i)
    && (c.sent == b.sent + [b.queue[i].frame] || (c.sent == b.sent && IsReply(b.queue[i].frame)))
  }

  lemma WriteTakes(s: Stream, t: Stream)
    requires Inv(s) && s.box.queue != [] && t == Write(s)
    ensures Took(s.box, t.box, Least(s.box.queue)) && t.tasks == s.tasks
  {
    DequeueKeeps(s.box);
    assert WellTagged(s.box.queue[Least(s.box.queue)]);
  }

  // ---- the texts of a reply ----------------------------------------------

  function TextOf(f: Frame): seq<string> { if f.kind.ReplyDelta? then [f.kind.text] else [] }

  function Texts(fs: seq<Frame>): seq<string> {
    if fs == [] then [] else Texts(fs[..|fs| - 1]) + TextOf(fs[|fs| - 1])
  }

  lemma TextsSnoc(fs: seq<Frame>, f: Frame)
    ensures Texts(fs + [f]) == Texts(fs) + TextOf(f)
  {
    assert (fs + [f])[..|fs|] == fs;
  }

  lemma {:induction false} TextsPrefix(a: seq<Frame>, b: seq<Frame>)
    requires a <= b
    ensures Texts(a) <= Texts(b)
  {
    if a != b {
      TextsPrefix(a, b[..|b| - 1]);
    }
  }

  /** The answer texts that the events of `r` brought while its `present` went on. */
  ghost function SpokenIn(run: seq<Action>, r: string): seq<string>
    requires Inv(OPENED)
  {
    if run == [] then []
    else
      var front, last := run[..|run| - 1], run[|run| - 1];
      SpokenIn(front, r) + Spoken(Run(OPENED, front), last, r)
  }

  function Spoken(s: Stream, a: Action, r: string): seq<string> {
    if a.OfTask? && a.task.DoNextEvent? && a.task.r == r && a.task.answer
       && r in s.tasks && s.tasks[r].Generating? && CanGoOn(s, r) then [a.task.text]
    else []
  }

  /** The frames emitted for a call in some phase, against the texts its events brought. */
  ghost predicate Carry(phase: Phase, fs: seq<Frame>, spoken: seq<string>) {
    match phase
    case Acquiring(f) => Texts(fs) + TextOf(f) == spoken
    case Generating => Texts(fs) == spoken
    case AwaitingReceipt => Texts(fs) == spoken
    case AwaitingStop => Texts(fs) == spoken
    case Finished(_) => Texts(fs) <= spoken && (Closed(fs) ==> Texts(fs) == spoken)
  }

  ghost predicate Carries(s: Stream, r: string, spoken: seq<string>) {
    if r in s.tasks then Carry(s.tasks[r], Of(r, s.box.emitted), spoken) else spoken == []
  }

  lemma SendCarries(s: Stream, f: Frame, spoken: seq<string>)
    requires IsReply(f) && Next(Of(f.request, s.box.emitted), f)
    requires Texts(Of(f.request, s.box.emitted)) + TextOf(f) == spoken
    ensures Carries(SendReply(s, f), f.request, spoken)
  {
    if f.request in s.revoked || !TryEmit(s.box).Queued? {
      SendFailed(s, f);
    } else {
      SendQueued(s, f);
      OfSnoc(f.request, s.box.emitted, f);
      TextsSnoc(Of(f.request, s.box.emitted), f);
    }
  }

  lemma EmitReplyCarries(s: Stream, f: Frame, spoken: seq<string>)
    requires IsReply(f) && Next(Of(f.request, s.box.emitted), f)
    requires Texts(Of(f.request, s.box.emitted)) + TextOf(f) == spoken
    ensures Carries(EmitReply(s, f), f.request, spoken)
  {
    if CanAcquire(s.box) { SendCarries(s.(box := s.box.(free := s.box.free - 1)), f, spoken); }
  }

  /** A frame of another request does not count. */
  lemma OtherCarries(s: Stream, t: Stream, r: string, f: Frame, spoken: seq<string>)
    requires Carries(s, r, spoken) && Grew(s.box, t.box, f) && !(IsReply(f) && f.request == r)
    requires (r in t.tasks) == (r in s.tasks) && (r in s.tasks ==> t.tasks[r] == s.tasks[r])
    ensures Carries(t, r, spoken)
  {
    OfSnoc(r, s.box.emitted, f);
  }

  /** A call that is not over yet fails or is cancelled: what it emitted stays a part. */
  lemma StopsCarries(s: Stream, t: Stream, r: string, spoken: seq<string>)
    requires Inv(s) && Carries(s, r, spoken) && r in s.tasks && t.box.emitted == s.box.emitted
    requires r in t.tasks && t.tasks[r].Finished?
    ensures Carries(t, r, spoken)
  {
    assert RequestInv(s, r);
  }

  lemma BeginCarries(s: Stream, r: string, device: string, spoken: seq<string>)
    requires Inv(s) && Carries(s, r, spoken)
    ensures Carries(BeginPresent(s, r, device), r, spoken)
  {
    assert RequestInv(s, r);
    if r !in s.tasks {
      EmitReplyCarries(s.(pending := s.pending[r := Pending(device, false, false, None, "")],
                          marks := s.marks + [Begun(r, device)]), Frame(ReplyStart, r), spoken);
    }
  }

  lemma ResumeCarries(s: Stream, r: string, spoken: seq<string>)
    requires Inv(s) && Carries(s, r, spoken)
    ensures Carries(ResumeAcquire(s, r), r, spoken)
  {
    assert RequestInv(s, r);
    if r in s.tasks && s.tasks[r].Acquiring? && IsGranted(s.box.waiters, r) {
      LeaveKeeps(s.box, r);
      SendCarries(s.(box := Leave(s.box, r)), s.tasks[r].frame, spoken);
    }
  }

  lemma EventCarries(s: Stream, r: string, text: string, answer: bool, spoken: seq<string>)
    requires Inv(s) && Carries(s, r, spoken)
    ensures Carries(NextEvent(s, r, text, answer), r, spoken + Spoken(s, OfTask(DoNextEvent(r, text, answer)), r))
  {
    assert spoken + [] == spoken;
    if r in s.tasks && s.tasks[r].Generating? {
      if !CanGoOn(s, r) {
        StopsCarries(s, Finish(s, r, false), r, spoken);
      } else if answer {
        AnswerCarries(s, r, text, spoken);
      }
    }
  }

  lemma AnswerCarries(s: Stream, r: string, text: string, spoken: seq<string>)
    requires Inv(s) && Carries(s, r, spoken) && r in s.tasks && s.tasks[r].Generating?
    ensures Carries(EmitReply(s, Frame(ReplyDelta(text), r)), r, spoken + [text])
  {
    assert RequestInv(s, r);
    EmitReplyCarries(s, Frame(ReplyDelta(text), r), spoken + [text]);
  }

  lemma EndCarries(s: Stream, r: string, spoken: seq<string>)
    requires Inv(s) && Carries(s, r, spoken)
    ensures Carries(EndEvents(s, r), r, spoken)
  {
    assert RequestInv(s, r);
    if r in s.tasks && s.tasks[r].Generating? {
      if r in s.revoked {
        StopsCarries(s, EndEvents(s, r), r, spoken);
      } else {
        EmitReplyCarries(s, Frame(ReplyEnd, r), spoken);
      }
    }
  }

  lemma CancelCarries(s: Stream, r: string, spoken: seq<string>)
    requires Inv(s) && Carries(s, r, spoken)
    ensures Carries(CancelTask(s, r), r, spoken)
  {
    CancelGrew(s, r);
    if r in s.tasks && !s.tasks[r].Finished? {
      assert RequestInv(s, r);
      if s.tasks[r].Acquiring? { AbandonKeeps(s.box, r); }
      StopsCarries(s, CancelTask(s, r), r, spoken);
    }
  }

  lemma StopEmits(s: Stream, r: string, device: string)
    requires r !in s.tasks && Of(r, s.box.emitted) == []
    ensures
      var t := BeginStop(s, r, device);
      && r in t.tasks && (t.tasks[r].AwaitingStop? || t.tasks[r].Finished?)
      && Of(r, t.box.emitted) == []
  {
    OfSnoc(r, s.box.emitted, Frame(Stop, r));
  }

  lemma SilentCarries(t: Stream, r: string)
    requires r in t.tasks && (t.tasks[r].AwaitingStop? || t.tasks[r].Finished?) && Of(r, t.box.emitted) == []
    ensures Carries(t, r, [])
  {}

  lemma StopCallCarries(s: Stream, r: string, device: string, spoken: seq<string>)
    requires Inv(s) && Carries(s, r, spoken)
    ensures Carries(BeginStop(s, r, device), r, spoken)
  {
    if r !in s.tasks {
      assert Of(r, s.box.emitted) == [] by { assert RequestInv(s, r); }
      StopEmits(s, r, device);
      SilentCarries(BeginStop(s, r, device), r);
    }
  }

  lemma OwnCarries(s: Stream, a: TaskAction, spoken: seq<string>)
    requires Inv(s) && Carries(s, a.r, spoken)
    ensures Carries(TaskStep(s, a), a.r, spoken + Spoken(s, OfTask(a), a.r))
  {
    assert spoken + [] == spoken;
    match a
    case DoBeginPresent(r, device) => BeginCarries(s, r, device, spoken);
    case DoResumeAcquire(r) => ResumeCarries(s, r, spoken);
    case DoNextEvent(r, text, answer) => EventCarries(s, r, text, answer, spoken);
    case DoEndEvents(r) => EndCarries(s, r, spoken);
    case DoResumeReceipt(r) => ReceiptCarries(s, r, spoken);
    case DoCancel(r) => CancelCarries(s, r, spoken);
    case DoBeginStop(r, device) => StopCallCarries(s, r, device, spoken);
  }

  lemma ReceiptCarries(s: Stream, r: string, spoken: seq<string>)
    requires Inv(s) && Carries(s, r, spoken)
    ensures Carries(ResumeReceipt(s, r), r, spoken)
  {
    if ResumeReceipt(s, r) != s { StopsCarries(s, ResumeReceipt(s, r), r, spoken); }
  }

  lemma WriteCarries(s: Stream, r: string, spoken: seq<string>)
    requires Inv(s) && Carries(s, r, spoken)
    ensures Carries(Write(s), r, spoken)
  {
    if s.box.queue != [] { WriteTakes(s, Write(s)); }
  }

  lemma StepCarries(s: Stream, a: Action, r: string, spoken: seq<string>)
    requires Inv(s) && Carries(s, r, spoken)
    ensures Carries(Step(s, a), r, spoken + Spoken(s, a, r))
  {
    assert spoken + [] == spoken;
    if a.DoWrite? {
      WriteCarries(s, r, spoken);
    } else if a.OfTask? && a.task.r == r {
      OwnCarries(s, a.task, spoken);
    } else {
      if a.OfTask? {
        TaskOther(s, a.task, r);
        OfferedOwn(s, a.task);
      }
      StepGrew(s, a);
      SameTask(s, a, r);
      OtherCarries(s, Step(s, a), r, Offered(s, a), spoken);
    }
  }

  lemma SameTask(s: Stream, a: Action, r: string)
    requires Inv(s) && !a.DoWrite? && (a.OfTask? ==> SameFor(s, TaskStep(s, a.task), r))
    ensures
      var t := Step(s, a);
      (r in t.tasks) == (r in s.tasks) && (r in s.tasks ==> t.tasks[r] == s.tasks[r])
  {}

  lemma OfferedOwn(s: Stream, a: TaskAction)
    requires Inv(s)
    ensures IsReply(Offered(s, OfTask(a))) ==> Offered(s, OfTask(a)).request == a.r
  {
    assert RequestInv(s, a.r);
  }

  lemma {:induction false} RunCarries(run: seq<Action>, r: string)
    ensures Inv(OPENED)
    ensures Carries(Run(OPENED, run), r, SpokenIn(run, r))
  {
    OpenedInv();
    if run != [] {
      var front := run[..|run| - 1];
      RunCarries(front, r);
      StepCarries(Run(OPENED, front), run[|run| - 1], r, SpokenIn(front, r));
    }
  }

  /** In every run the texts that reach the device are a prefix of the answer texts of the
      reply's events, and all of them once its `reply_end` was sent. */
  lemma WholeAnswerSent(run: seq<Action>, r: string)
    ensures Inv(OPENED)
    ensures
      var sent := Of(r, Run(OPENED, run).box.sent);
      && Texts(sent) <= SpokenIn(run, r)
      && (sent != [] && sent[|sent| - 1].kind.ReplyEnd? ==> Texts(sent) == SpokenIn(run, r))
  {
    SentIsPrefix(run, r);
    RunCarries(run, r);
    var s := Run(OPENED, run);
    TextsPrefix(Of(r, s.box.sent), Of(r, s.box.emitted));
    assert RequestInv(s, r);
  }

  // ---- stops and captures ------------------------------------------------

  function Controls(fs: seq<Frame>): seq<Frame> {
    if fs == [] then []
    else Controls(fs[..|fs| - 1]) + if IsControl(fs[|fs| - 1]) then [fs[|fs| - 1]] else []
  }

  lemma ControlsSnoc(fs: seq<Frame>, f: Frame)
    ensures Controls(fs + [f]) == Controls(fs) + if IsControl(f) then [f] else []
  {
    assert (fs + [f])[..|fs|] == fs;
  }

  /** None is lost and none overtakes another: those emitted are those sent and then those
      still queued, in one order; and each is queued as urgent. */
  ghost predicate ControlsInOrder(b: Box) {
    && Controls(b.emitted) == Controls(b.sent) + Controls(Frames(b.queue))
    && forall i | 0 <= i < |b.queue| :: IsControl(b.queue[i].frame) ==> b.queue[i].urgent
  }

  lemma ControlsGrow(sent: seq<Frame>, emitted: seq<Frame>, queued: seq<Frame>, f: Frame)
    requires Controls(emitted) == Controls(sent) + Controls(queued)
    ensures Controls(emitted + [f]) == Controls(sent) + Controls(queued + [f])
  {
    ControlsSnoc(emitted, f);
    ControlsSnoc(queued, f);
    Assoc(Controls(sent), Controls(queued), if IsControl(f) then [f] else []);
  }

  lemma GrewInOrder(b: Box, c: Box, f: Frame)
    requires ControlsInOrder(b) && Grew(b, c, f)
    ensures ControlsInOrder(c)
  {
    if c.emitted != b.emitted {
      var e := c.queue[|b.queue|];
      assert c.queue == b.queue + [e];
      FramesSnoc(b.queue, e);
      ControlsGrow(b.sent, b.emitted, Frames(b.queue), f);
    }
  }

  /** Taking out an entry with no earlier control frame before it. */
  lemma {:induction false} ControlsDrop(q: seq<Entry>, i: nat)
    requires i < |q| && forall j | 0 <= j < i :: IsControl(q[i].frame) ==> !IsControl(q[j].frame)
    ensures Controls(Frames(q)) == (if IsControl(q[i].frame) then [q[i].frame] else []) + Controls(Frames(Drop(q, i)))
  {
    var last := |q| - 1;
    var front := q[..last];
    assert q == front + [q[last]];
    FramesSnoc(front, q[last]);
    ControlsSnoc(Frames(front), q[last].frame);
    if i == last {
      assert Drop(q, i) == front;
      if IsControl(q[i].frame) { NoControls(front); }
    } else {
      ControlsDrop(front, i);
      ControlsDropSnoc(front, q[last], i);
      var taken := if IsControl(q[i].frame) then [q[i].frame] else [];
      var more := if IsControl(q[last].frame) then [q[last].frame] else [];
      Assoc(taken, Controls(Frames(Drop(front, i))), more);
    }
  }

  lemma ControlsDropSnoc(q: seq<Entry>, e: Entry, i: nat)
    requires i < |q|
    ensures Controls(Frames(Drop(q + [e], i))) ==
      Controls(Frames(Drop(q, i))) + if IsControl(e.frame) then [e.frame] else []
  {
    DropSnoc(q, e, i);
    FramesSnoc(Drop(q, i), e);
    ControlsSnoc(Frames(Drop(q, i)), e.frame);
  }

  lemma {:induction false} NoControls(q: seq<Entry>)
    requires forall j | 0 <= j < |q| :: !IsControl(q[j].frame)
    ensures Controls(Frames(q)) == []
  {
    if q != [] { NoControls(q[..|q| - 1]); }
  }

  /** While a stop or a capture is queued the writer takes urgent frames only, and the oldest
      of them first. */
  lemma UrgentLeavesFirst(b: Box)
    requires QueueInv(b) && b.queue != [] && ControlsInOrder(b)
    ensures
      var i := Least(b.queue);
      && (forall j | 0 <= j < i :: !(IsControl(b.queue[i].frame) && IsControl(b.queue[j].frame)))
      && (Controls(Frames(b.queue)) != [] ==> b.queue[i].urgent)
  {
    LeastMeaning(b.queue);
    var i := Least(b.queue);
    forall j | 0 <= j < i ensures !(IsControl(b.queue[i].frame) && IsControl(b.queue[j].frame)) {
      assert Precedes(b.queue[i], b.queue[j]);
    }
    if !b.queue[i].urgent {
      forall j | 0 <= j < |b.queue| ensures !IsControl(b.queue[j].frame) {
        assert j != i ==> Precedes(b.queue[i], b.queue[j]);
      }
      NoControls(b.queue);
    }
  }

  lemma TookInOrder(b: Box, c: Box)
    requires QueueInv(b) && b.queue != [] && ControlsInOrder(b) && Took(b, c, Least(b.queue))
    ensures ControlsInOrder(c)
  {
    var i := Least(b.queue);
    var f := b.queue[i].frame;
    UrgentLeavesFirst(b);
    ControlsDrop(b.queue, i);
    ControlsSnoc(b.sent, f);
    Assoc(Controls(b.sent), if IsControl(f) then [f] else [], Controls(Frames(c.queue)));
  }

  lemma StepControls(s: Stream, a: Action)
    requires Inv(s) && ControlsInOrder(s.box)
    ensures ControlsInOrder(Step(s, a).box)
  {
    if a.DoWrite? {
      if s.box.queue != [] {
        WriteTakes(s, Write(s));
        TookInOrder(s.box, Write(s).box);
      }
    } else {
      StepGrew(s, a);
      GrewInOrder(s.box, Step(s, a).box, Offered(s, a));
    }
  }

  /** In every run no stop and no capture frame is lost, and they are sent in the order in
      which they were emitted. */
  lemma {:induction false} ControlsSentInOrder(run: seq<Action>)
    ensures Inv(OPENED)
    ensures ControlsInOrder(Run(OPENED, run).box)
  {
    OpenedInv();
    if run != [] {
      ControlsSentInOrder(run[..|run| - 1]);
      StepControls(Run(OPENED, run[..|run| - 1]), run[|run| - 1]);
    }
  }

  /** The `k`-th control frame ever emitted is still queued and no frame of `r` was sent, or
      it was sent. */
  ghost predicate Overtakes(b: Box, c: Box, k: nat, r: string) {
    && ControlsInOrder(c) && k < |Controls(b.emitted)| && Controls(b.emitted) <= Controls(c.emitted)
    && (|Controls(c.sent)| <= k ==> Of(r, c.sent) == Of(r, b.sent))
  }

  lemma GrewOvertakes(b: Box, c: Box, d: Box, f: Frame, k: nat, r: string)
    requires Overtakes(b, c, k, r) && Grew(c, d, f)
    ensures Overtakes(b, d, k, r)
  {
    GrewInOrder(c, d, f);
    ControlsSnoc(c.emitted, f);
  }

  lemma TookOvertakes(b: Box, c: Box, d: Box, k: nat, r: string)
    requires Overtakes(b, c, k, r) && QueueInv(c) && c.queue != [] && Took(c, d, Least(c.queue))
    ensures Overtakes(b, d, k, r)
  {
    var e := c.queue[Least(c.queue)];
    TookInOrder(c, d);
    UrgentLeavesFirst(c);
    assert WellTagged(e);
    OfSnoc(r, c.sent, e.frame);
    ControlsSnoc(c.sent, e.frame);
  }

  lemma StepOvertakes(b: Box, s: Stream, a: Action, k: nat, r: string)
    requires Inv(s) && Overtakes(b, s.box, k, r)
    ensures Overtakes(b, Step(s, a).box, k, r)
  {
    if a.DoWrite? {
      if s.box.queue != [] {
        WriteTakes(s, Write(s));
        TookOvertakes(b, s.box, Write(s).box, k, r);
      }
    } else {
      StepGrew(s, a);
      GrewOvertakes(b, s.box, Step(s, a).box, Offered(s, a), k, r);
    }
  }

  /** A stop queued behind reply frames leaves before all of them: in every continuation, as
      long as the `k`-th control frame has not been sent, no further reply frame has been. */
  lemma {:induction false} StopsOvertakeReplies(s: Stream, run: seq<Action>, k: nat, r: string)
    requires Inv(s) && ControlsInOrder(s.box) && k < |Controls(s.box.emitted)|
    ensures Overtakes(s.box, Run(s, run).box, k, r)
  {
    if run != [] {
      var front := run[..|run| - 1];
      StopsOvertakeReplies(s, front, k, r);
      StepOvertakes(s.box, Run(s, front), run[|run| - 1], k, r);
    }
  }

  // ---- reply slots -------------------------------------------------------

  /** Whoever has been granted a slot asked before all who have not. */
  ghost predicate GrantedFirst(ws: seq<Waiter>) {
    forall i, j | 0 <= i < j < |ws| && ws[j].granted :: ws[i].granted
  }

  lemma {:induction false} GrantKeeps(ws: seq<Waiter>)
    requires GrantedFirst(ws)
    ensures GrantedFirst(GrantFirst(ws)) && |GrantFirst(ws)| == |ws|
  {
    if ws != [] {
      GrantKeeps(ws[1..]);
    }
  }

  lemma {:induction false} RemoveKeeps(ws: seq<Waiter>, r: string)
    requires GrantedFirst(ws)
    ensures GrantedFirst(Remove(ws, r)) && forall w | w in Remove(ws, r) :: w in ws
  {
    if ws != [] && ws[0].request != r {
      RemoveKeeps(ws[1..], r);
      var rest := Remove(ws[1..], r);
      forall j | 0 <= j < |rest| && rest[j].granted ensures ws[0].granted {
        assert rest[j] in ws[1..];
        var k :| 0 <= k < |ws[1..]| && ws[1..][k] == rest[j];
        assert ws[k + 1].granted;
      }
    }
  }

  lemma ReleaseInOrder(b: Box)
    requires GrantedFirst(b.waiters)
    ensures GrantedFirst(Release(b).waiters)
  {
    GrantKeeps(b.waiters);
  }

  lemma {:induction false} WakeInOrder(b: Box)
    requires GrantedFirst(b.waiters)
    ensures GrantedFirst(WakeAll(b).waiters)
    decreases Ungranted(b.waiters)
  {
    if b.free > 0 && Ungranted(b.waiters) > 0 {
      GrantedOne(b.waiters);
      GrantKeeps(b.waiters);
      WakeInOrder(Wake(b));
    }
  }

  lemma LeaveInOrder(b: Box, r: string)
    requires GrantedFirst(b.waiters)
    ensures GrantedFirst(Leave(b, r).waiters) && GrantedFirst(Abandon(b, r).waiters)
  {
    RemoveKeeps(b.waiters, r);
    WakeInOrder(b.(waiters := Remove(b.waiters, r)));
    WakeInOrder(b.(free := if IsGranted(b.waiters, r) then b.free + 1 else b.free, waiters := Remove(b.waiters, r)));
  }

  lemma SendInOrder(s: Stream, f: Frame)
    requires GrantedFirst(s.box.waiters)
    ensures GrantedFirst(SendReply(s, f).box.waiters)
  {
    ReleaseInOrder(s.box);
    ReleaseInOrder(Emit(s.box, false, Some(f.request), f, true));
  }

  lemma EmitReplyInOrder(s: Stream, f: Frame)
    requires GrantedFirst(s.box.waiters)
    ensures GrantedFirst(EmitReply(s, f).box.waiters)
  {
    if CanAcquire(s.box) { SendInOrder(s.(box := s.box.(free := s.box.free - 1)), f); }
  }

  lemma BeginInOrder(s: Stream, r: string, device: string)
    requires GrantedFirst(s.box.waiters)
    ensures GrantedFirst(BeginPresent(s, r, device).box.waiters)
  {
    if r !in s.tasks {
      EmitReplyInOrder(s.(pending := s.pending[r := Pending(device, false, false, None, "")],
                          marks := s.marks + [Begun(r, device)]), Frame(ReplyStart, r));
    }
  }

  lemma ResumeInOrder(s: Stream, r: string)
    requires GrantedFirst(s.box.waiters)
    ensures GrantedFirst(ResumeAcquire(s, r).box.waiters)
  {
    LeaveInOrder(s.box, r);
    if r in s.tasks && s.tasks[r].Acquiring? && IsGranted(s.box.waiters, r) {
      SendInOrder(s.(box := Leave(s.box, r)), s.tasks[r].frame);
    }
  }

  lemma TaskInOrder(s: Stream, a: TaskAction)
    requires GrantedFirst(s.box.waiters)
    ensures GrantedFirst(TaskStep(s, a).box.waiters)
  {
    match a
    case DoBeginPresent(r, device) => BeginInOrder(s, r, device);
    case DoResumeAcquire(r) => ResumeInOrder(s, r);
    case DoNextEvent(r, text, answer) => EmitReplyInOrder(s, Frame(ReplyDelta(text), r));
    case DoEndEvents(r) => EmitReplyInOrder(s, Frame(ReplyEnd, r));
    case DoResumeReceipt(r) =>
    case DoCancel(r) => LeaveInOrder(s.box, r);
    case DoBeginStop(r, device) =>
  }

  lemma WriteReleases(s: Stream)
    requires GrantedFirst(s.box.waiters)
    ensures GrantedFirst(Write(s).box.waiters)
  {
    if s.box.queue != [] { ReleaseInOrder(s.box.(queue := Drop(s.box.queue, Least(s.box.queue)))); }
  }

  lemma StepInOrder(s: Stream, a: Action)
    requires Inv(s) && GrantedFirst(s.box.waiters)
    ensures GrantedFirst(Step(s, a).box.waiters)
  {
    match a
    case OfTask(task) => TaskInOrder(s, task);
    case OfCapture(input) =>
    case DoReceipt(r, device, completed, ack, code) =>
    case DoRevoke(r) =>
    case DoWrite => WriteReleases(s);
    case DoNotify(urgent) =>
    case DoDisconnect =>
  }

  /** In every run the reply slots go to the waiting calls in the order in which they asked. */
  lemma {:induction false} SlotsInOrder(run: seq<Action>)
    ensures Inv(OPENED)
    ensures GrantedFirst(Run(OPENED, run).box.waiters)
  {
    OpenedInv();
    if run != [] {
      SlotsInOrder(run[..|run| - 1]);
      StepInOrder(Run(OPENED, run[..|run| - 1]), run[|run| - 1]);
    }
  }

  // ---- a stop is queued or fails -----------------------------------------

  /** A new `stop` queues its urgent frame and waits for its receipt, unless the stream is
      disconnected or its queue full; then it raises. */
  lemma StopQueuedIff(s: Stream, r: string, device: string)
    requires Inv(s) && r !in s.tasks
    ensures
      var t := Step(s, OfTask(DoBeginStop(r, device)));
      && (StreamLimits.Unsettled(t, r) <==> s.box.connected && |s.box.queue| < CAPACITY)
      && (StreamLimits.Unsettled(t, r) ==>
            t.pending[r].device == device && Controls(t.box.emitted) == Controls(s.box.emitted) + [Frame(Stop, r)])
      && (!StreamLimits.Unsettled(t, r) ==> t.tasks[r] == Finished(false) && t.box.emitted == s.box.emitted)
  {
    ControlsSnoc(s.box.emitted, Frame(Stop, r));
  }
}
