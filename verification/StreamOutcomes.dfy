/** What the calls on the role-group stream return, over whole runs: `present` returns True
    and `stop` returns exactly when their receipt confirms it, and a finished reply carries
    the answer's texts (app/transport/coordination.py). */
module StreamOutcomes {
  import opened Basics
  import opened Outbox
  import opened StreamMachine
  import opened StreamLimits
  import Capture

  // ---- what an accepted receipt decides ----------------------------------

  /** The receipt that ends a wait decides the call: it returns on "completed" and raises
      on anything else, a reply as much as a stop. */
  lemma ReceiptDecides(s: Stream, r: string, device: string, completed: bool, ack: bool, code: string)
    requires Inv(s) && Unsettled(s, r) && Accepted(s, r, device, completed, ack)
    ensures
      var t := Step(s, DoReceipt(r, device, completed, ack, code));
      && r in t.pending && t.pending[r].result == Some(completed) && t.pending[r].errorCode == code
      && var u := Step(t, OfTask(DoResumeReceipt(r)));
      && r in u.tasks && u.tasks[r] == Finished(completed) && r !in u.pending
      && u.marks == s.marks + (if completed && !s.pending[r].isStop then [Confirmed(r, device), Presented(r)] else [])
  {}

  /** The call of `r` returned: `present` returned True, or `stop` did not raise. */
  predicate Returned(s: Stream, r: string) { r in s.tasks && s.tasks[r] == Finished(true) }

  predicate SaysTrue(s: Stream, r: string) { r in s.pending && s.pending[r].result == Some(true) }

  predicate IsPresent(s: Stream, r: string) { r in s.pending && !s.pending[r].isStop }

  /** A completed receipt comes in for a call that still waits. */
  predicate Confirms(s: Stream, a: Action, r: string) {
    && a.DoReceipt? && a.r == r && a.completed && Unsettled(s, r) && Accepted(s, r, a.device, true, a.ack)
  }

  /** The last word on `r` is a confirmation that its task has not consumed yet. */
  ghost predicate ConfirmedIn(run: seq<Action>, r: string)
    requires Inv(OPENED)
  {
    run != [] &&
    var front, last := run[..|run| - 1], run[|run| - 1];
    || Confirms(Run(OPENED, front), last, r)
    || (ConfirmedIn(front, r) && last != OfTask(DoCancel(r)) && last != OfTask(DoResumeReceipt(r)))
  }

  /** The task of `r` ran on with such a confirmation. */
  ghost predicate ReturnedIn(run: seq<Action>, r: string)
    requires Inv(OPENED)
  {
    run != [] &&
    var front, last := run[..|run| - 1], run[|run| - 1];
    ReturnedIn(front, r) || (last == OfTask(DoResumeReceipt(r)) && ConfirmedIn(front, r))
  }

  ghost predicate PresentedIn(run: seq<Action>, r: string)
    requires Inv(OPENED)
  {
    run != [] &&
    var front, last := run[..|run| - 1], run[|run| - 1];
    || PresentedIn(front, r)
    || (last == OfTask(DoResumeReceipt(r)) && ConfirmedIn(front, r) && IsPresent(Run(OPENED, front), r))
  }

  /** A completed receipt is allowed from the moment the writer takes `reply_end`, and by
      then the task has nothing left but to wait for it. */
  ghost predicate EndInv(s: Stream, r: string) {
    EndTaken(r) in s.marks ==>
      && r in s.tasks
      && (r in s.pending ==> !s.pending[r].isStop && s.pending[r].completionAllowed && s.tasks[r].AwaitingReceipt?)
  }

  /** What a run so far has come to for `r`. */
  ghost predicate Stands(s: Stream, r: string, confirmed: bool, returned: bool, presented: bool) {
    && EndInv(s, r)
    && (SaysTrue(s, r) <==> confirmed) && (confirmed ==> Awaits(s, r))
    && (Returned(s, r) <==> returned)
    && (Presented(r) in s.marks <==> presented) && (presented ==> returned)
  }

  /** Nothing about `r` changed. */
  ghost predicate SameFor(s: Stream, t: Stream, r: string) {
    && (r in t.tasks) == (r in s.tasks) && (r in s.tasks ==> t.tasks[r] == s.tasks[r])
    && (r in t.pending) == (r in s.pending) && (r in s.pending ==> t.pending[r] == s.pending[r])
    && (EndTaken(r) in t.marks <==> EndTaken(r) in s.marks)
    && (Presented(r) in t.marks <==> Presented(r) in s.marks)
  }

  lemma ContinueOther(s: Stream, f: Frame, r: string)
    requires f.request != r
    ensures SameFor(s, Continue(s, f), r)
  {}

  lemma SendOther(s: Stream, f: Frame, r: string)
    requires f.request != r
    ensures SameFor(s, SendReply(s, f), r)
  {
    if f.request !in s.revoked && TryEmit(s.box).Queued? {
      ContinueOther(s.(box := Emit(s.box, false, Some(f.request), f, true)), f, r);
    }
  }

  lemma EmitReplyOther(s: Stream, f: Frame, r: string)
    requires f.request != r
    ensures SameFor(s, EmitReply(s, f), r)
  {
    if CanAcquire(s.box) { SendOther(s.(box := s.box.(free := s.box.free - 1)), f, r); }
  }

  lemma BeginOther(s: Stream, q: string, device: string, r: string)
    requires q != r
    ensures SameFor(s, BeginPresent(s, q, device), r)
  {
    if q !in s.tasks {
      EmitReplyOther(s.(pending := s.pending[q := Pending(device, false, false, None, "")],
                        marks := s.marks + [Begun(q, device)]), Frame(ReplyStart, q), r);
    }
  }

  lemma ResumeOther(s: Stream, q: string, r: string)
    requires Inv(s) && q != r
    ensures SameFor(s, ResumeAcquire(s, q), r)
  {
    assert RequestInv(s, q);
    if q in s.tasks && s.tasks[q].Acquiring? && IsGranted(s.box.waiters, q) {
      SendOther(s.(box := Leave(s.box, q)), s.tasks[q].frame, r);
    }
  }

  lemma EventsOther(s: Stream, q: string, text: string, answer: bool, r: string)
    requires q != r
    ensures SameFor(s, NextEvent(s, q, text, answer), r) && SameFor(s, EndEvents(s, q), r)
  {
    EmitReplyOther(s, Frame(ReplyDelta(text), q), r);
    EmitReplyOther(s, Frame(ReplyEnd, q), r);
  }

  lemma SettleOther(s: Stream, q: string, r: string)
    requires q != r
    ensures SameFor(s, ResumeReceipt(s, q), r)
  {}

  lemma CancelOther(s: Stream, q: string, r: string)
    requires q != r
    ensures SameFor(s, CancelTask(s, q), r)
  {}

  lemma StopOther(s: Stream, q: string, device: string, r: string)
    requires q != r
    ensures SameFor(s, BeginStop(s, q, device), r)
  {}

  /** A stretch of one call leaves the others alone. */
  lemma TaskOther(s: Stream, a: TaskAction, r: string)
    requires Inv(s) && a.r != r
    ensures SameFor(s, TaskStep(s, a), r)
  {
    match a
    case DoBeginPresent(q, device) => BeginOther(s, q, device, r);
    case DoResumeAcquire(q) => ResumeOther(s, q, r);
    case DoNextEvent(q, text, answer) => EventsOther(s, q, text, answer, r);
    case DoEndEvents(q) => EventsOther(s, q, "", true, r);
    case DoResumeReceipt(q) => SettleOther(s, q, r);
    case DoCancel(q) => CancelOther(s, q, r);
    case DoBeginStop(q, device) => StopOther(s, q, device, r);
  }

  // ---- the call's own stretches ------------------------------------------

  /** The receipt of `r` has not confirmed it, and its reply has not been taken to the end. */
  ghost predicate Early(s: Stream, r: string) {
    EndTaken(r) !in s.marks && !SaysTrue(s, r) && Presented(r) !in s.marks
  }

  /** Emitting a frame never returns the call. */
  lemma SendOwn(s: Stream, f: Frame)
    requires Early(s, f.request)
    ensures Early(SendReply(s, f), f.request) && !Returned(SendReply(s, f), f.request)
  {}

  lemma EmitReplyOwn(s: Stream, f: Frame)
    requires Early(s, f.request)
    ensures Early(EmitReply(s, f), f.request) && !Returned(EmitReply(s, f), f.request)
  {
    if CanAcquire(s.box) { SendOwn(s.(box := s.box.(free := s.box.free - 1)), f); }
  }

  lemma BeginStands(s: Stream, r: string, device: string, confirmed: bool, returned: bool, presented: bool)
    requires Inv(s) && Stands(s, r, confirmed, returned, presented)
    ensures Stands(BeginPresent(s, r, device), r, confirmed, returned, presented)
  {
    assert RequestInv(s, r);
    if r !in s.tasks {
      EmitReplyOwn(s.(pending := s.pending[r := Pending(device, false, false, None, "")],
                      marks := s.marks + [Begun(r, device)]), Frame(ReplyStart, r));
    }
  }

  lemma BeginStopStands(s: Stream, r: string, device: string, confirmed: bool, returned: bool, presented: bool)
    requires Inv(s) && Stands(s, r, confirmed, returned, presented)
    ensures Stands(BeginStop(s, r, device), r, confirmed, returned, presented)
  {
    assert RequestInv(s, r);
  }

  lemma ResumeStands(s: Stream, r: string, confirmed: bool, returned: bool, presented: bool)
    requires Inv(s) && Stands(s, r, confirmed, returned, presented)
    ensures Stands(ResumeAcquire(s, r), r, confirmed, returned, presented)
  {
    assert RequestInv(s, r);
    if r in s.tasks && s.tasks[r].Acquiring? && IsGranted(s.box.waiters, r) {
      SendOwn(s.(box := Leave(s.box, r)), s.tasks[r].frame);
    }
  }

  lemma EventsStand(
      s: Stream, r: string, text: string, answer: bool, confirmed: bool, returned: bool, presented: bool)
    requires Inv(s) && Stands(s, r, confirmed, returned, presented)
    ensures Stands(NextEvent(s, r, text, answer), r, confirmed, returned, presented)
    ensures Stands(EndEvents(s, r), r, confirmed, returned, presented)
  {
    assert RequestInv(s, r);
    if r in s.tasks && s.tasks[r].Generating? {
      EmitReplyOwn(s, Frame(ReplyDelta(text), r));
      EmitReplyOwn(s, Frame(ReplyEnd, r));
    }
  }

  lemma ReceiptStands(s: Stream, r: string, confirmed: bool, returned: bool, presented: bool)
    requires Inv(s) && Stands(s, r, confirmed, returned, presented)
    ensures
      Stands(ResumeReceipt(s, r), r, false, returned || confirmed, presented || (confirmed && IsPresent(s, r)))
  {
    assert RequestInv(s, r);
  }

  lemma CancelStands(s: Stream, r: string, confirmed: bool, returned: bool, presented: bool)
    requires Inv(s) && Stands(s, r, confirmed, returned, presented)
    ensures Stands(CancelTask(s, r), r, false, returned, presented)
  {
    assert RequestInv(s, r);
  }

  lemma SameStands(s: Stream, t: Stream, r: string, confirmed: bool, returned: bool, presented: bool)
    requires Stands(s, r, confirmed, returned, presented) && SameFor(s, t, r)
    ensures Stands(t, r, confirmed, returned, presented)
  {}

  // ---- the writer and the reader -----------------------------------------

  /** When the writer takes a current `reply_end`, its task has emitted everything. */
  lemma EndIsLast(s: Stream, r: string)
    requires Inv(s) && s.box.queue != [] && s.box.queue[Least(s.box.queue)].frame == Frame(ReplyEnd, r)
    requires r !in s.revoked
    ensures r in s.tasks && (s.tasks[r].AwaitingReceipt? || s.tasks[r].Finished?)
  {
    var e := s.box.queue[Least(s.box.queue)];
    assert WellTagged(e) && RequestInv(s, r);
    ReplyLeavesFirst(s.box);
    OfDropFirst(r, s.box.queue);
    assert Of(r, s.box.emitted)[|Of(r, s.box.sent)|] == e.frame;
  }

  lemma AllowStands(s: Stream, q: string, r: string, confirmed: bool, returned: bool, presented: bool)
    requires Stands(s, r, confirmed, returned, presented)
    requires q == r ==>
      && r in s.tasks && (s.tasks[r].AwaitingReceipt? || s.tasks[r].Finished?)
      && (r in s.pending ==> !s.pending[r].isStop && s.tasks[r].AwaitingReceipt?)
    ensures Stands(Allow(s, q), r, confirmed, returned, presented)
  {}

  lemma WriteStands(s: Stream, r: string, confirmed: bool, returned: bool, presented: bool)
    requires Inv(s) && Stands(s, r, confirmed, returned, presented)
    ensures Stands(Write(s), r, confirmed, returned, presented)
  {
    if s.box.queue != [] {
      var e := s.box.queue[Least(s.box.queue)];
      var t := s.(box := Deliver(Dequeue(s.box), e, s.revoked));
      assert WellTagged(e) && RequestInv(s, r);
      SameStands(s, t, r, confirmed, returned, presented);
      if e.frame.kind.ReplyEnd? && e.frame.request !in s.revoked {
        EndIsLast(s, e.frame.request);
        AllowStands(t, e.frame.request, r, confirmed, returned, presented);
      }
    }
  }

  lemma AcceptOther(s: Stream, a: Action, r: string)
    requires a.DoReceipt? && a.r != r
    ensures SameFor(s, AcceptReceipt(s, a.r, a.device, a.completed, a.ack, a.code), r)
  {}

  lemma AcceptStands(s: Stream, a: Action, r: string, confirmed: bool, returned: bool, presented: bool)
    requires Inv(s) && Stands(s, r, confirmed, returned, presented) && a.DoReceipt?
    ensures Stands(Step(s, a), r, confirmed || Confirms(s, a, r), returned, presented)
  {
    if a.r == r {
      assert RequestInv(s, r);
    } else {
      AcceptOther(s, a, r);
      SameStands(s, Step(s, a), r, confirmed, returned, presented);
    }
  }

  lemma CaptureSame(s: Stream, a: CaptureAction, r: string)
    requires Inv(s)
    ensures SameFor(s, CaptureStep(s, a), r)
  {}

  lemma OwnStands(s: Stream, a: TaskAction, confirmed: bool, returned: bool, presented: bool)
    requires Inv(s) && Stands(s, a.r, confirmed, returned, presented)
    ensures
      Stands(TaskStep(s, a), a.r, confirmed && !a.DoCancel? && !a.DoResumeReceipt?,
        returned || (confirmed && a.DoResumeReceipt?),
        presented || (confirmed && a.DoResumeReceipt? && IsPresent(s, a.r)))
  {
    match a
    case DoBeginPresent(q, device) => BeginStands(s, q, device, confirmed, returned, presented);
    case DoResumeAcquire(q) => ResumeStands(s, q, confirmed, returned, presented);
    case DoNextEvent(q, text, answer) => EventsStand(s, q, text, answer, confirmed, returned, presented);
    case DoEndEvents(q) => EventsStand(s, q, "", true, confirmed, returned, presented);
    case DoResumeReceipt(q) => ReceiptStands(s, q, confirmed, returned, presented);
    case DoCancel(q) => CancelStands(s, q, confirmed, returned, presented);
    case DoBeginStop(q, device) => BeginStopStands(s, q, device, confirmed, returned, presented);
  }

  lemma StepStands(s: Stream, a: Action, r: string, confirmed: bool, returned: bool, presented: bool)
    requires Inv(s) && Stands(s, r, confirmed, returned, presented)
    ensures
      var resumes := a == OfTask(DoResumeReceipt(r));
      Stands(Step(s, a), r, Confirms(s, a, r) || (confirmed && a != OfTask(DoCancel(r)) && !resumes),
        returned || (resumes && confirmed), presented || (resumes && confirmed && IsPresent(s, r)))
  {
    match a
    case OfTask(task) =>
      if task.r == r {
        OwnStands(s, task, confirmed, returned, presented);
      } else {
        TaskOther(s, task, r);
        SameStands(s, TaskStep(s, task), r, confirmed, returned, presented);
      }
    case OfCapture(input) =>
      CaptureSame(s, input, r);
      SameStands(s, Step(s, a), r, confirmed, returned, presented);
    case DoReceipt(q, device, completed, ack, code) => AcceptStands(s, a, r, confirmed, returned, presented);
    case DoWrite => WriteStands(s, r, confirmed, returned, presented);
    case DoRevoke(q) => SameStands(s, Step(s, a), r, confirmed, returned, presented);
    case DoNotify(urgent) => SameStands(s, Step(s, a), r, confirmed, returned, presented);
    case DoDisconnect =>
  }

  // ---- over every run ----------------------------------------------------

  lemma {:induction false} RunStands(run: seq<Action>, r: string)
    ensures Inv(OPENED)
    ensures
      Stands(Run(OPENED, run), r, ConfirmedIn(run, r), ReturnedIn(run, r), PresentedIn(run, r))
  {
    OpenedInv();
    if run != [] {
      var front := run[..|run| - 1];
      RunStands(front, r);
      StepStands(Run(OPENED, front), run[|run| - 1], r,
        ConfirmedIn(front, r), ReturnedIn(front, r), PresentedIn(front, r));
    }
  }

  /** In every run a call has returned exactly when its task ran on after a completed receipt
      was accepted for it and before it was cancelled; and `present` has returned True exactly
      when such a call was a reply. */
  lemma ReturnsIff(run: seq<Action>, r: string)
    ensures Inv(OPENED)
    ensures Returned(Run(OPENED, run), r) <==> ReturnedIn(run, r)
    ensures Presented(r) in Run(OPENED, run).marks <==> PresentedIn(run, r)
  {
    RunStands(run, r);
  }

  /** In every run a waiting reply may be confirmed exactly when the writer took its end. */
  lemma CompletionAllowedIff(run: seq<Action>, r: string)
    ensures Inv(OPENED)
    ensures
      var s := Run(OPENED, run);
      r in s.pending && !s.pending[r].isStop ==> (s.pending[r].completionAllowed <==> EndTaken(r) in s.marks)
  {
    RunStands(run, r);
    assert RequestInv(Run(OPENED, run), r);
  }

  /** A revocation takes effect at once and for good: nothing more of the reply is sent. */
  lemma RevocationSilences(s: Stream, r: string, run: seq<Action>)
    requires Inv(s)
    ensures Inv(Step(s, DoRevoke(r)))
    ensures Of(r, Run(Step(s, DoRevoke(r)), run).box.sent) == Of(r, s.box.sent)
  {
    StepKeeps(s, DoRevoke(r));
    RevokedIsSilent(Step(s, DoRevoke(r)), run, r);
  }
}
