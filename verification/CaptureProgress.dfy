/** What a capture of the role-group stream comes to: the text that its round gets
    (app/transport/coordination.py). */
module CaptureProgress {
  import opened Basics
  import opened Outbox
  import opened StreamMachine
  import Capture

  /** `transcribe` answers for the current capture, before and after its release, with the
      future of that capture. */
  lemma TranscribeAnswers(s: Stream, capture: string)
    requires Inv(s) && !s.mic.broken && s.mic.capture == Some(capture)
    ensures Capture.Transcribe(s.mic, capture).Some?
    ensures
      var i := Capture.Transcribe(s.mic, capture).value;
      i < |s.mic.futures| && s.mic.futures[i].capture == capture
  {}

  /** The capture is the current one, its transcript future is `i`. */
  ghost predicate Captures(m: Capture.Mic, capture: string, i: nat) {
    && m.capture == Some(capture) && m.transcript == Some(i) && !m.closing && !m.broken
    && |m.futures| == i + 1 && m.futures[i].capture == capture
  }

  /** A queued press of a new capture starts it. */
  lemma PressStarts(s: Stream, capture: string)
    requires Inv(s) && !s.mic.closing && !s.mic.broken && s.mic.capture != Some(capture) && TryEmit(s.box).Queued?
    ensures
      var m := Step(s, OfCapture(DoPress(capture, true))).mic;
      && Captures(m, capture, |s.mic.futures|) && !m.released
      && m.futures[|s.mic.futures|].state.Unresolved?
  {}

  /** Neither another accepted press nor the end of the scene. */
  predicate Undisturbed(a: Action, capture: string) {
    match a
    case OfCapture(input) => input.DoRelease? || input.DoTranscript? || input.DoRoundDone?
                             || (input.DoPress? && (input.capture == capture || !input.sessionAccepts))
    case _ => true
  }

  predicate ReleasedIn(run: seq<Action>, capture: string) { OfCapture(DoRelease(capture)) in run }

  /** The first transcript of the capture after its release. */
  function FinalIn(run: seq<Action>, capture: string): Option<string> {
    if run == [] then None
    else
      var front, last := run[..|run| - 1], run[|run| - 1];
      if FinalIn(front, capture).Some? then FinalIn(front, capture)
      else if last.OfCapture? && last.input.DoTranscript? && last.input.capture == capture && ReleasedIn(front, capture)
      then Some(last.input.text)
      else None
  }

  function StateOf(final: Option<string>): Capture.FutureState {
    if final.Some? then Capture.Resolved(final.value) else Capture.Unresolved
  }

  /** The capture after a run: released if it was released, resolved by its first final text. */
  ghost predicate Reached(m: Capture.Mic, capture: string, i: nat, run: seq<Action>) {
    && Captures(m, capture, i) && (m.released <==> ReleasedIn(run, capture))
    && m.futures[i].state == StateOf(FinalIn(run, capture))
  }

  lemma OtherStep(s: Stream, a: Action)
    requires Inv(s) && !a.OfCapture?
    ensures Step(s, a).mic == s.mic
  {
    if a.OfTask? { TasksLeaveMic(s, a.task); }
  }

  lemma ReachedStep(s: Stream, capture: string, i: nat, run: seq<Action>, a: Action, all: seq<Action>)
    requires Inv(s) && Reached(s.mic, capture, i, run) && Undisturbed(a, capture) && all == run + [a]
    ensures Reached(Step(s, a).mic, capture, i, all)
  {
    assert all[..|run|] == run;
    if !a.OfCapture? { OtherStep(s, a); }
  }

  /** From a queued press of a capture on, while no other press is accepted and the scene is
      not closed: `transcribe` hands out one future, and it holds exactly the first final
      text of the capture after its release. */
  lemma {:induction false} RoundGetsItsText(s: Stream, capture: string, i: nat, run: seq<Action>)
    requires Inv(s) && Captures(s.mic, capture, i) && !s.mic.released && s.mic.futures[i].state.Unresolved?
    requires forall a | a in run :: Undisturbed(a, capture)
    ensures
      var m := Run(s, run).mic;
      && Capture.Transcribe(m, capture) == Some(i) && Reached(m, capture, i, run)
  {
    if run != [] {
      var front, a := run[..|run| - 1], run[|run| - 1];
      assert run == front + [a];
      RoundGetsItsText(s, capture, i, front);
      ReachedStep(Run(s, front), capture, i, front, a, run);
    }
  }

  /** Nobody waits for a transcript, and no press can start a new one. */
  predicate Shut(m: Capture.Mic) {
    m.closing && forall i | 0 <= i < |m.futures| :: !m.futures[i].state.Unresolved?
  }

  lemma ShutStep(s: Stream, a: Action)
    requires Inv(s) && Shut(s.mic)
    ensures Shut(Step(s, a).mic)
  {
    if !a.OfCapture? { OtherStep(s, a); }
  }

  /** Once a closing scene is closed, nobody waits for a transcript, whatever comes in later;
      and what was settled before keeps its outcome. */
  lemma {:induction false} ClosedNobodyWaits(s: Stream, run: seq<Action>)
    requires Inv(s) && s.mic.closing
    ensures Inv(Step(s, OfCapture(DoCloseDone)))
    ensures
      var m := Run(Step(s, OfCapture(DoCloseDone)), run).mic;
      Shut(m) && Capture.Later(s.mic, m)
  {
    var closed := Step(s, OfCapture(DoCloseDone));
    StepKeeps(s, OfCapture(DoCloseDone));
    if run == [] {
      Capture.CloseKeeps(s.mic);
    } else {
      var front, a := run[..|run| - 1], run[|run| - 1];
      ClosedNobodyWaits(s, front);
      ShutStep(Run(closed, front), a);
      MicStep(Run(closed, front), a);
      Capture.LaterTransitive(s.mic, Run(closed, front).mic, Run(closed, run).mic);
    }
  }
}
