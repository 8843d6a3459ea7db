/** Push-to-talk captures of a role-group stream (app/transport/coordination.py): press,
    release, final transcript, and the futures that `transcribe` waits on. */
module Capture {
  import opened Basics
  import opened Outbox

  datatype FutureState = Unresolved | Cancelled | Resolved(text: string)

  /** The transcript future of one accepted press. */
  datatype Future = Future(capture: string, state: FutureState)

  /** `futures` keeps every transcript future in creation order, `transcript` is the index
      of the one in use, `releases` lists the futures whose capture was released to the
      session, `finals` the accepted final texts. `broken` marks a press whose
      `capturing` frame could not be queued, which ends the reader. */
  datatype Mic = Mic(
    capture: Option<string>, released: bool, transcript: Option<nat>, futures: seq<Future>,
    releases: seq<nat>, finals: seq<(string, string)>, closing: bool, broken: bool)

  const QUIET := Mic(None, false, None, [], [], [], false, false)

  datatype Answer = Done | Ignored | Refused

  function CancelCurrent(m: Mic): seq<Future>
    requires m.transcript.Some? ==> m.transcript.value < |m.futures|
  {
    if m.transcript.Some? && m.futures[m.transcript.value].state.Unresolved? then
      m.futures[m.transcript.value := m.futures[m.transcript.value].(state := Cancelled)]
    else m.futures
  }

  /** A press of a new capture; `queued` tells whether its `capturing` frame was queued. */
  function Press(m: Mic, capture: string, queued: bool): Mic
    requires MicInv(m)
  {
    var n := m.(futures := CancelCurrent(m), capture := Some(capture), released := false);
    if queued then n.(transcript := Some(|n.futures|), futures := n.futures + [Future(capture, Unresolved)])
    else n.(broken := true)
  }

  function ReleaseAnswer(m: Mic, capture: string): Answer {
    if m.closing then Refused else if m.capture == Some(capture) && !m.released then Done else Ignored
  }

  function Release(m: Mic, capture: string): Mic {
    if m.broken || !ReleaseAnswer(m, capture).Done? || m.transcript.None? then m
    else m.(released := true, releases := m.releases + [m.transcript.value])
  }

  function TranscriptAnswer(m: Mic, capture: string, text: string): Answer
    requires MicInv(m)
  {
    if m.closing then Refused
    else if m.broken || m.capture != Some(capture) || m.transcript.None? then Ignored
    else if !m.released then Refused
    else
      match m.futures[m.transcript.value].state
      case Unresolved => Done
      case Cancelled => Refused
      case Resolved(t) => if t == text then Ignored else Refused
  }

  function Transcript(m: Mic, capture: string, text: string): Mic
    requires MicInv(m)
  {
    if !TranscriptAnswer(m, capture, text).Done? then m
    else
      var i := m.transcript.value;
      m.(futures := m.futures[i := m.futures[i].(state := Resolved(text))], finals := m.finals + [(capture, text)])
  }

  /** `transcribe`: which future a caller waits on, or `None` for its ValueError. */
  function Transcribe(m: Mic, capture: string): Option<nat> {
    if m.capture == Some(capture) then m.transcript else None
  }

  /** `close` abandons an unresolved transcript. */
  function CloseMic(m: Mic): Mic
    requires MicInv(m)
  {
    m.(futures := CancelCurrent(m))
  }

  // ---- Invariant ---------------------------------------------------------

  ghost predicate MicInv(m: Mic) {
    && (m.transcript.Some? <==> m.futures != [])
    && (m.transcript.Some? ==> m.transcript.value == |m.futures| - 1)
    && (!m.broken ==> (m.capture.Some? <==> m.transcript.Some?))
    && (!m.broken && m.transcript.Some? ==> Some(m.futures[m.transcript.value].capture) == m.capture)
    && (!m.broken && m.transcript.Some? ==> (m.released <==> m.transcript.value in m.releases))
    && (m.broken ==> forall i | 0 <= i < |m.futures| :: !m.futures[i].state.Unresolved?)
    && (forall i | 0 <= i < |m.futures| - 1 :: !m.futures[i].state.Unresolved?)
    && (forall j | 0 <= j < |m.releases| :: m.releases[j] < |m.futures|)
    && (forall j, k | 0 <= j < k < |m.releases| :: m.releases[j] < m.releases[k])
    && (forall i | 0 <= i < |m.futures| && m.futures[i].state.Resolved? ::
          i in m.releases && (m.futures[i].capture, m.futures[i].state.text) in m.finals)
  }

  /** What no later step takes back: a settled future keeps its outcome. */
  ghost predicate Later(m: Mic, n: Mic) {
    && |m.futures| <= |n.futures|
    && m.releases <= n.releases
    && m.finals <= n.finals
    && (m.broken ==> n.broken)
    && (forall i | 0 <= i < |m.futures| :: n.futures[i].capture == m.futures[i].capture)
    && (forall i | 0 <= i < |m.futures| && !m.futures[i].state.Unresolved? :: n.futures[i] == m.futures[i])
  }

  lemma LaterTransitive(a: Mic, b: Mic, c: Mic)
    requires Later(a, b) && Later(b, c)
    ensures Later(a, c)
  {}

  lemma PressKeeps(m: Mic, capture: string, queued: bool)
    requires MicInv(m) && !m.broken
    ensures MicInv(Press(m, capture, queued)) && Later(m, Press(m, capture, queued))
  {}

  lemma ReleaseKeeps(m: Mic, capture: string)
    requires MicInv(m)
    ensures MicInv(Release(m, capture)) && Later(m, Release(m, capture))
  {
    var n := Release(m, capture);
    if n != m {
      forall j | 0 <= j < |m.releases| ensures m.releases[j] < m.transcript.value {
        assert m.releases[j] in m.releases;
      }
    }
  }

  lemma TranscriptKeeps(m: Mic, capture: string, text: string)
    requires MicInv(m)
    ensures MicInv(Transcript(m, capture, text)) && Later(m, Transcript(m, capture, text))
  {}

  lemma CloseKeeps(m: Mic)
    requires MicInv(m)
    ensures MicInv(CloseMic(m)) && Later(m, CloseMic(m))
  {}

  // ---- What the protocol guarantees --------------------------------------

  /** A caller of `transcribe` is bound to its own capture: whatever happens later, the
      only text it can get was the final transcript accepted for that capture, after
      that capture's release. */
  lemma TranscribeIsBound(m: Mic, capture: string, later: Mic)
    requires MicInv(m) && !m.broken && Transcribe(m, capture).Some?
    requires MicInv(later) && Later(m, later)
    ensures
      var i := Transcribe(m, capture).value;
      && later.futures[i].capture == capture
      && (later.futures[i].state.Resolved? ==>
            (capture, later.futures[i].state.text) in later.finals && i in later.releases)
  {}

  /** A press that supersedes a capture cancels its unresolved transcript for good. */
  lemma SupersededNeverDelivers(m: Mic, capture: string, queued: bool, later: Mic)
    requires MicInv(m) && !m.broken && m.transcript.Some?
    requires m.futures[m.transcript.value].state.Unresolved?
    requires Later(Press(m, capture, queued), later)
    ensures later.futures[m.transcript.value].state.Cancelled?
  {}

  /** The session is told to release each accepted capture at most once. */
  lemma ReleasedOnce(m: Mic, j: nat, k: nat)
    requires MicInv(m) && j < |m.releases| && k < |m.releases| && m.releases[j] == m.releases[k]
    ensures j == k
  {}

  /** Whatever `transcribe` hands out for a capture belongs to it. */
  predicate Binds(m: Mic, capture: string)
    requires MicInv(m)
  {
    Transcribe(m, capture).Some? ==> m.futures[Transcribe(m, capture).value].capture == capture
  }

  /** A press whose `capturing` frame cannot be queued leaves the new capture id with the
      old future: `transcribe` then answers for the new capture with the old text. A press
      binds exactly when its frame is queued or there is no earlier transcript. */
  lemma PressBindsIff(m: Mic, capture: string, queued: bool)
    requires MicInv(m) && !m.broken && m.capture != Some(capture)
    ensures MicInv(Press(m, capture, queued))
    ensures Binds(Press(m, capture, queued), capture) <==> queued || m.transcript.None?
  {
    PressKeeps(m, capture, queued);
  }
}
