/** Where the role-group stream falls short, and exactly when: a press that cannot be
    announced, and a connection lost without `disconnect` (app/transport/coordination.py).
    The session that calls the stream is arbitrary here. */
module StreamLimits {
  import opened Basics
  import opened Outbox
  import opened StreamMachine
  import Capture

  // ---- runs --------------------------------------------------------------

  lemma RunSnoc(s: Stream, run: seq<Action>, a: Action)
    requires Inv(s)
    ensures Run(s, run + [a]) == Step(Run(s, run), a)
  {
    assert (run + [a])[..|run|] == run;
  }

  lemma RunTwo(s: Stream, a: Action, b: Action)
    requires Inv(s)
    ensures Run(s, [a]) == Step(s, a) && Run(s, [a, b]) == Step(Run(s, [a]), b)
  {
    assert [a, b] == [a] + [b] && [a] == [] + [a];
    RunSnoc(s, [a], b);
    RunSnoc(s, [], a);
  }

  /** Distinct request ids, one for each length. */
  function StopId(i: nat): string { seq(i, _ => 's') }

  function Stops(n: nat, device: string): seq<Action> {
    if n == 0 then [] else Stops(n - 1, device) + [OfTask(DoBeginStop(StopId(n - 1), device))]
  }

  function Piled(s: Stream, n: nat, device: string): Stream {
    if n == 0 then s else BeginStop(Piled(s, n - 1, device), StopId(n - 1), device)
  }

  /** Frames pile up while the writer is stuck in `send`: stops, each waiting for its receipt. */
  lemma {:induction false} PileUp(s: Stream, n: nat, device: string)
    requires s.box.connected && s.tasks == map[] && |s.box.queue| + n <= CAPACITY
    ensures
      var t := Piled(s, n, device);
      && t.box.connected && |t.box.queue| == |s.box.queue| + n && t.mic == s.mic && t.gone == s.gone
      && (forall r | r in t.tasks :: |r| < n) && (forall k: nat | k < n :: Unsettled(t, StopId(k)))
  {
    if n > 0 {
      PileUp(s, n - 1, device);
      OneMoreStop(Piled(s, n - 1, device), n - 1, device);
    }
  }

  lemma OneMoreStop(s: Stream, n: nat, device: string)
    requires s.box.connected && |s.box.queue| < CAPACITY
    requires (forall r | r in s.tasks :: |r| < n) && (forall k: nat | k < n :: Unsettled(s, StopId(k)))
    ensures
      var t := BeginStop(s, StopId(n), device);
      && t.box.connected && |t.box.queue| == |s.box.queue| + 1 && t.mic == s.mic && t.gone == s.gone
      && (forall r | r in t.tasks :: |r| < n + 1) && (forall k: nat | k < n + 1 :: Unsettled(t, StopId(k)))
  {
    assert StopId(n) !in s.tasks;
    forall k: nat | k < n ensures StopId(k) != StopId(n) { assert |StopId(k)| == k; }
  }

  lemma StopsSnoc(run: seq<Action>, n: nat, device: string)
    ensures run + Stops(0, device) == run
    ensures n > 0 ==>
      run + Stops(n, device) == run + Stops(n - 1, device) + [OfTask(DoBeginStop(StopId(n - 1), device))]
  {
    if n > 0 { Assoc(run, Stops(n - 1, device), [OfTask(DoBeginStop(StopId(n - 1), device))]); }
  }

  lemma RunStop(s: Stream, run: seq<Action>, r: string, device: string)
    requires Inv(s)
    ensures Run(s, run + [OfTask(DoBeginStop(r, device))]) == BeginStop(Run(s, run), r, device)
  {
    RunSnoc(s, run, OfTask(DoBeginStop(r, device)));
  }

  lemma {:induction false} RunStops(s: Stream, run: seq<Action>, n: nat, device: string, all: seq<Action>)
    requires Inv(s) && all == run + Stops(n, device)
    ensures Run(s, all) == Piled(Run(s, run), n, device)
  {
    StopsSnoc(run, n, device);
    if n > 0 {
      var shorter := run + Stops(n - 1, device);
      RunStops(s, run, n - 1, device, shorter);
      RunStop(s, shorter, StopId(n - 1), device);
    }
  }

  // ---- a press that cannot be announced ----------------------------------

  /** An accepted press binds `transcribe` to its own capture exactly when its frame is
      queued or no capture was pressed before. */
  lemma AcceptPressBindsIff(s: Stream, capture: string)
    requires Inv(s) && !s.mic.closing && !s.mic.broken && s.mic.capture != Some(capture)
    ensures
      var t := Step(s, OfCapture(DoPress(capture, true)));
      && Capture.MicInv(t.mic)
      && (Capture.Binds(t.mic, capture) <==> TryEmit(s.box).Queued? || s.mic.transcript.None?)
  {
    Capture.PressBindsIff(s.mic, capture, TryEmit(s.box).Queued?);
  }

  function PressRelease(a: string): seq<Action> { [OfCapture(DoPress(a, true)), OfCapture(DoRelease(a))] }

  /** A fresh stream but for one capture, pressed and released. */
  ghost predicate HasReleased(s: Stream, a: string) {
    && Inv(s) && s.box.connected && |s.box.queue| == 1 && s.tasks == map[] && !s.gone
    && s.mic == Capture.Mic(Some(a), true, Some(0), [Capture.Future(a, Capture.Unresolved)], [0], [], false, false)
  }

  lemma ReleasedState(a: string)
    ensures Inv(OPENED) && HasReleased(Run(OPENED, PressRelease(a)), a)
  {
    OpenedInv();
    RunTwo(OPENED, OfCapture(DoPress(a, true)), OfCapture(DoRelease(a)));
    Pressed(a);
    Released(Run(OPENED, [OfCapture(DoPress(a, true))]), a);
  }

  lemma Pressed(a: string)
    requires Inv(OPENED)
    ensures
      var s := Step(OPENED, OfCapture(DoPress(a, true)));
      && s.box.connected && |s.box.queue| == 1 && s.tasks == map[] && !s.gone
      && s.mic == Capture.Mic(Some(a), false, Some(0), [Capture.Future(a, Capture.Unresolved)], [], [], false, false)
  {}

  lemma Released(s: Stream, a: string)
    requires Inv(s) && s.box.connected && |s.box.queue| == 1 && s.tasks == map[] && !s.gone
    requires s.mic ==
      Capture.Mic(Some(a), false, Some(0), [Capture.Future(a, Capture.Unresolved)], [], [], false, false)
    ensures Inv(Step(s, OfCapture(DoRelease(a)))) ==> HasReleased(Step(s, OfCapture(DoRelease(a))), a)
  {}

  /** The capture is transcribed, and as many stops follow as the queue holds. */
  function Stuffed(a: string, text: string, device: string): seq<Action> {
    PressRelease(a) + [OfCapture(DoTranscript(a, text))] + Stops(CAPACITY - 1, device)
  }

  lemma Transcribed(s: Stream, a: string, text: string)
    requires HasReleased(s, a)
    ensures
      var t := Step(s, OfCapture(DoTranscript(a, text)));
      && t == s.(mic := t.mic)
      && t.mic == Capture.Mic(
        Some(a), true, Some(0), [Capture.Future(a, Capture.Resolved(text))], [0], [(a, text)], false, false)
  {}

  lemma StuffedState(a: string, text: string, device: string)
    ensures Inv(OPENED)
    ensures
      var s := Run(OPENED, Stuffed(a, text, device));
      && TryEmit(s.box).Full?
      && s.mic == Capture.Mic(
        Some(a), true, Some(0), [Capture.Future(a, Capture.Resolved(text))], [0], [(a, text)], false, false)
  {
    var spoken := PressRelease(a) + [OfCapture(DoTranscript(a, text))];
    ReleasedState(a);
    RunSnoc(OPENED, PressRelease(a), OfCapture(DoTranscript(a, text)));
    Transcribed(Run(OPENED, PressRelease(a)), a, text);
    RunStops(OPENED, spoken, CAPACITY - 1, device, Stuffed(a, text, device));
    PileUp(Run(OPENED, spoken), CAPACITY - 1, device);
  }

  lemma FullPress(s: Stream, a: string, b: string, text: string)
    requires Inv(s) && TryEmit(s.box).Full? && a != b
    requires s.mic == Capture.Mic(
      Some(a), true, Some(0), [Capture.Future(a, Capture.Resolved(text))], [0], [(a, text)], false, false)
    ensures
      var m := Step(s, OfCapture(DoPress(b, true))).mic;
      m.broken && Capture.Transcribe(m, b) == Some(0) && m.futures == [Capture.Future(a, Capture.Resolved(text))]
  {}

  /** A run from the start after which `transcribe` would answer a caller asking for capture
      `b` with the final text of capture `a`. The failing press has ended the reader. */
  lemma WrongTextReached(a: string, b: string, text: string, device: string)
    requires a != b
    ensures Inv(OPENED)
    ensures
      var m := Run(OPENED, Stuffed(a, text, device) + [OfCapture(DoPress(b, true))]).mic;
      m.broken && Capture.Transcribe(m, b) == Some(0) && m.futures == [Capture.Future(a, Capture.Resolved(text))]
  {
    StuffedState(a, text, device);
    RunSnoc(OPENED, Stuffed(a, text, device), OfCapture(DoPress(b, true)));
    FullPress(Run(OPENED, Stuffed(a, text, device)), a, b, text);
  }

  // ---- a connection lost without disconnect ------------------------------

  /** A task waits for a receipt nobody has settled. */
  predicate Unsettled(s: Stream, r: string) {
    Awaits(s, r) && r in s.pending && s.pending[r].result.None?
  }

  /** A receipt that is accepted, were the request still waiting. */
  predicate Accepted(s: Stream, r: string, device: string, completed: bool, ack: bool) {
    && r in s.pending && s.pending[r].device == device && (completed ==> s.pending[r].completionAllowed)
    && if s.pending[r].isStop then ack else r !in s.revoked
  }

  /** What ends such a wait: an accepted receipt, a cancellation of the task, or `disconnect`. */
  predicate Settles(s: Stream, a: Action, r: string) {
    match a
    case DoReceipt(q, device, completed, ack, code) => q == r && Accepted(s, r, device, completed, ack)
    case OfTask(task) => task == DoCancel(r)
    case DoDisconnect => true
    case _ => false
  }

  lemma LostResume(s: Stream, q: string, r: string)
    requires Inv(s) && !s.box.connected
    ensures !ResumeAcquire(s, q).box.connected && (Unsettled(ResumeAcquire(s, q), r) <==> Unsettled(s, r))
  {
    assert RequestInv(s, q);
    if q in s.tasks && s.tasks[q].Acquiring? && IsGranted(s.box.waiters, q) { LeaveKeeps(s.box, q); }
  }

  lemma LostEvent(s: Stream, q: string, text: string, answer: bool, r: string)
    requires Inv(s) && !s.box.connected
    ensures !NextEvent(s, q, text, answer).box.connected
    ensures Unsettled(NextEvent(s, q, text, answer), r) <==> Unsettled(s, r)
  {}

  lemma LostEnd(s: Stream, q: string, r: string)
    requires Inv(s) && !s.box.connected
    ensures !EndEvents(s, q).box.connected && (Unsettled(EndEvents(s, q), r) <==> Unsettled(s, r))
  {}

  lemma LostPresent(s: Stream, q: string, device: string, r: string)
    requires Inv(s) && !s.box.connected
    ensures !BeginPresent(s, q, device).box.connected
    ensures Unsettled(BeginPresent(s, q, device), r) <==> Unsettled(s, r)
  {
    assert RequestInv(s, q);
  }

  lemma LostStop(s: Stream, q: string, device: string, r: string)
    requires Inv(s) && !s.box.connected
    ensures !BeginStop(s, q, device).box.connected
    ensures Unsettled(BeginStop(s, q, device), r) <==> Unsettled(s, r)
  {}

  lemma LostCancel(s: Stream, q: string, r: string)
    requires Inv(s) && !s.box.connected
    ensures !CancelTask(s, q).box.connected && (Unsettled(CancelTask(s, q), r) <==> Unsettled(s, r) && q != r)
  {
    assert RequestInv(s, q);
    if q in s.tasks && s.tasks[q].Acquiring? { AbandonKeeps(s.box, q); }
  }

  lemma LostTask(s: Stream, a: TaskAction, r: string)
    requires Inv(s) && !s.box.connected
    ensures !TaskStep(s, a).box.connected && (Unsettled(TaskStep(s, a), r) <==> Unsettled(s, r) && a != DoCancel(r))
  {
    match a
    case DoBeginPresent(q, device) => LostPresent(s, q, device, r);
    case DoBeginStop(q, device) => LostStop(s, q, device, r);
    case DoResumeAcquire(q) => LostResume(s, q, r);
    case DoNextEvent(q, text, answer) => LostEvent(s, q, text, answer, r);
    case DoEndEvents(q) => LostEnd(s, q, r);
    case DoCancel(q) => LostCancel(s, q, r);
    case DoResumeReceipt(q) =>
  }

  lemma LostWrite(s: Stream, r: string)
    requires Inv(s) && !s.box.connected
    ensures !Write(s).box.connected && (Unsettled(Write(s), r) <==> Unsettled(s, r))
  {
    if s.box.queue != [] {
      var e := s.box.queue[Least(s.box.queue)];
      DequeueKeeps(s.box);
      AllowLeaves(s.(box := Deliver(Dequeue(s.box), e, s.revoked)), e.frame.request, r);
    }
  }

  lemma AllowLeaves(s: Stream, q: string, r: string)
    ensures Allow(s, q).box == s.box && (Unsettled(Allow(s, q), r) <==> Unsettled(s, r))
  {}

  lemma LostReceipt(s: Stream, q: string, device: string, completed: bool, ack: bool, code: string, r: string)
    requires Inv(s) && !s.box.connected
    ensures
      var t := AcceptReceipt(s, q, device, completed, ack, code);
      && !t.box.connected
      && (Unsettled(t, r) <==> Unsettled(s, r) && !(q == r && Accepted(s, r, device, completed, ack)))
  {}

  lemma LostCapture(s: Stream, a: CaptureAction, r: string)
    requires Inv(s) && !s.box.connected
    ensures !CaptureStep(s, a).box.connected && (Unsettled(CaptureStep(s, a), r) <==> Unsettled(s, r))
  {}

  /** Once the connection is lost nobody starts to wait, and each wait goes on exactly until
      something settles it. */
  lemma LostStep(s: Stream, a: Action, r: string)
    requires Inv(s) && !s.box.connected
    ensures !Step(s, a).box.connected
    ensures Unsettled(Step(s, a), r) <==> Unsettled(s, r) && !Settles(s, a, r)
  {
    match a
    case OfTask(task) => LostTask(s, task, r);
    case OfCapture(input) => LostCapture(s, input, r);
    case DoReceipt(q, device, completed, ack, code) => LostReceipt(s, q, device, completed, ack, code, r);
    case DoWrite => LostWrite(s, r);
    case _ =>
  }

  /** Some action of the run settles the wait of `r`. */
  ghost predicate SettledIn(s: Stream, run: seq<Action>, r: string)
    requires Inv(s)
  {
    run != [] &&
    var front, last := run[..|run| - 1], run[|run| - 1];
    SettledIn(s, front, r) || Settles(Run(s, front), last, r)
  }

  lemma {:induction false} WaitsUntilSettled(s: Stream, run: seq<Action>, r: string)
    requires Inv(s) && !s.box.connected
    ensures !Run(s, run).box.connected
    ensures Unsettled(Run(s, run), r) <==> Unsettled(s, r) && !SettledIn(s, run, r)
  {
    if run != [] {
      WaitsUntilSettled(s, run[..|run| - 1], r);
      LostStep(Run(s, run[..|run| - 1]), run[|run| - 1], r);
    }
  }

  /** Nobody waits for a receipt in vain. */
  ghost predicate Quiet(s: Stream) { forall r :: !Unsettled(s, r) }

  /** After a lost connection nobody waits on an unsettled receipt exactly when every wait
      that the loss left behind has been settled since. */
  lemma QuietIff(s: Stream, run: seq<Action>)
    requires Inv(s) && !s.box.connected
    ensures Quiet(Run(s, run)) <==> forall r | Unsettled(s, r) :: SettledIn(s, run, r)
  {
    var t := Run(s, run);
    forall r ensures Unsettled(t, r) <==> Unsettled(s, r) && !SettledIn(s, run, r) { WaitsUntilSettled(s, run, r); }
    QuietWhen(s, t, run);
  }

  lemma QuietWhen(s: Stream, t: Stream, run: seq<Action>)
    requires Inv(s) && forall r :: Unsettled(t, r) <==> Unsettled(s, r) && !SettledIn(s, run, r)
    ensures Quiet(t) <==> forall r | Unsettled(s, r) :: SettledIn(s, run, r)
  {}

  lemma FullRoundDone(s: Stream, capture: string, r: string)
    requires Capture.MicInv(s.mic) && TryEmit(s.box).Full? && s.mic.capture == Some(capture) && s.mic.released
    requires !s.gone && Unsettled(s, r)
    ensures
      var t := Step(s, OfCapture(DoRoundDone(capture)));
      !t.box.connected && !t.gone && Unsettled(t, r)
  {}

  lemma StrandedStop(s: Stream, device: string, capture: string, k: nat)
    requires HasReleased(s, capture) && k < CAPACITY - 1
    ensures
      var full := Piled(s, CAPACITY - 1, device);
      Capture.MicInv(full.mic) && var t := Step(full, OfCapture(DoRoundDone(capture)));
      !t.box.connected && !t.gone && Unsettled(t, StopId(k))
  {
    PileUp(s, CAPACITY - 1, device);
    FullRoundDone(Piled(s, CAPACITY - 1, device), capture, StopId(k));
  }

  /** A run from the start in which a finished round cannot report, so that `_round_done`
      marks the stream disconnected and leaves every `stop` waiting for its receipt. */
  lemma RoundDoneStrands(device: string, capture: string, k: nat)
    requires k < CAPACITY - 1
    ensures Inv(OPENED)
    ensures
      var run := PressRelease(capture) + Stops(CAPACITY - 1, device) + [OfCapture(DoRoundDone(capture))];
      var s := Run(OPENED, run);
      !s.box.connected && !s.gone && Unsettled(s, StopId(k))
  {
    var full := PressRelease(capture) + Stops(CAPACITY - 1, device);
    ReleasedState(capture);
    RunStops(OPENED, PressRelease(capture), CAPACITY - 1, device, full);
    RunSnoc(OPENED, full, OfCapture(DoRoundDone(capture)));
    StrandedStop(Run(OPENED, PressRelease(capture)), device, capture, k);
  }
}
