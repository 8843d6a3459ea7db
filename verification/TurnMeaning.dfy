/** What a turn says and shows, in terms of the model's deltas and the tool results
    (domain/agent/turn.py). */
module TurnMeaning {
  import opened Basics
  import opened Tools
  import opened Turn

  // ---- what is said ------------------------------------------------------

  /** The deltas of the first `n` model streams, in order. */
  function AllDeltas(s: Script, n: nat): seq<Delta> {
    if n == 0 then [] else AllDeltas(s, n - 1) + s.streams(n - 1).deltas
  }

  function DeltaTexts(deltas: seq<Delta>): string {
    if deltas == [] then "" else DeltaTexts(deltas[..|deltas| - 1]) + deltas[|deltas| - 1].text
  }

  /** The texts in order; the acknowledgement of a delegation follows the text of the first
      delta that delegates, unless the turn (`told`) delegated before. */
  function Words(told: bool, deltas: seq<Delta>, ack: string): string {
    if deltas == [] then ""
    else
      var front, d := deltas[..|deltas| - 1], deltas[|deltas| - 1];
      Words(told, front, ack) + d.text + if Delegation(d.call) && !told && !Delegates(front) then ack else ""
  }

  lemma {:induction false} SaidConcat(a: seq<EventKind>, b: seq<EventKind>)
    ensures Said(a + b) == Said(a) + Said(b)
  {
    if b == [] {
      assert a + b == a;
    } else {
      assert (a + b)[..|a + b| - 1] == a + b[..|b| - 1];
      SaidConcat(a, b[..|b| - 1]);
    }
  }

  lemma SaidOne(k: EventKind)
    ensures Said([k]) == if k.Text? then k.text else ""
  {
    assert [k][..0] == [];
  }

  lemma TextSaid(d: Delta)
    ensures Said(TextKinds(d)) == d.text
  {
    SaidConcat(if d.activity then [Progress] else [], if d.text != "" then [Text(d.text)] else []);
    SaidOne(Progress);
    SaidOne(Text(d.text));
  }

  lemma CallSaid(told: bool, call: Option<ToolCall>, ack: string)
    ensures Said(CallKinds(told, call, ack)) == if Delegation(call) && !told then ack else ""
  {
    if call.Some? {
      SaidConcat(if call.value.name == DELEGATE && ack != "" && !told then [Text(ack)] else [],
        [ToolCallEvent(call.value)]);
      SaidOne(ToolCallEvent(call.value));
      SaidOne(Text(ack));
    }
  }

  lemma EmissionSaid(told: bool, d: Delta, ack: string)
    ensures Said(Emission(told, d, ack)) == d.text + if Delegation(d.call) && !told then ack else ""
  {
    SaidConcat(TextKinds(d) + CallKinds(told, d.call, ack), if d.usage then [Usage] else []);
    SaidConcat(TextKinds(d), CallKinds(told, d.call, ack));
    TextSaid(d);
    CallSaid(told, d.call, ack);
    SaidOne(Usage);
  }

  lemma {:induction false} EmittedSaid(told: bool, deltas: seq<Delta>, ack: string)
    ensures Said(Emitted(told, deltas, ack)) == Words(told, deltas, ack)
  {
    if deltas != [] {
      var front, d := deltas[..|deltas| - 1], deltas[|deltas| - 1];
      EmittedSaid(told, front, ack);
      SaidConcat(Emitted(told, front, ack), Emission(told || Delegates(front), d, ack));
      EmissionSaid(told || Delegates(front), d, ack);
    }
  }

  lemma {:induction false} DelegatesConcat(a: seq<Delta>, b: seq<Delta>)
    ensures CallsOf(a + b) == CallsOf(a) + CallsOf(b)
    ensures Delegates(a + b) <==> Delegates(a) || Delegates(b)
  {
    if b == [] {
      assert a + b == a;
    } else {
      assert (a + b)[..|a + b| - 1] == a + b[..|b| - 1];
      DelegatesConcat(a, b[..|b| - 1]);
    }
    assert forall c :: c in CallsOf(a) + CallsOf(b) <==> c in CallsOf(a) || c in CallsOf(b);
  }

  lemma {:induction false} WordsConcat(told: bool, a: seq<Delta>, b: seq<Delta>, ack: string)
    ensures Words(told, a + b, ack) == Words(told, a, ack) + Words(told || Delegates(a), b, ack)
  {
    if b == [] {
      assert a + b == a;
    } else {
      var front := b[..|b| - 1];
      assert (a + b)[..|a + b| - 1] == a + front;
      WordsConcat(told, a, front, ack);
      DelegatesConcat(a, front);
    }
  }

  lemma {:induction false} AllDelegates(s: Script, n: nat)
    ensures Delegates(AllDeltas(s, n)) <==> Told(s, n)
  {
    if n > 0 {
      AllDelegates(s, n - 1);
      DelegatesConcat(AllDeltas(s, n - 1), s.streams(n - 1).deltas);
      ToldSnoc(s, n - 1);
    }
  }

  /** One stream more says its words after those of the streams before it. */
  lemma StreamSaid(s: Script, kinds: seq<EventKind>, n: nat)
    requires Said(kinds) == Words(false, AllDeltas(s, n), s.delegated)
    ensures Said(kinds + StreamKinds(s, n)) == Words(false, AllDeltas(s, n + 1), s.delegated)
  {
    SaidConcat(kinds, StreamKinds(s, n));
    EmittedSaid(Told(s, n), s.streams(n).deltas, s.delegated);
    AllDelegates(s, n);
    WordsConcat(false, AllDeltas(s, n), s.streams(n).deltas, s.delegated);
  }

  lemma {:induction false} ResultsSaid(results: seq<Result>)
    ensures Said(ResultKinds(results)) == ""
  {
    if results != [] {
      var front, r := ResultKinds(results[..|results| - 1]), results[|results| - 1];
      ResultsSaid(results[..|results| - 1]);
      SaidSnoc(front, ToolResultEvent(r));
      SaidSnoc(front + [ToolResultEvent(r)], Handoff);
      assert front + [ToolResultEvent(r)] + [] == front + [ToolResultEvent(r)];
    }
  }

  lemma {:induction false} TraceSaid(s: Script, rounds: seq<Round>)
    ensures Said(Trace(s, rounds)) == Words(false, AllDeltas(s, |rounds|), s.delegated)
  {
    if rounds == [] {
      SaidSnoc([Thinking], Speaking);
      SaidSnoc([], Thinking);
      assert [] + [Thinking] == [Thinking] && [Thinking] + [Speaking] == [Thinking, Speaking];
    } else {
      var front, r := rounds[..|rounds| - 1], rounds[|rounds| - 1];
      TraceSaid(s, front);
      StreamSaid(s, Trace(s, front), |front|);
      var shown := Trace(s, front) + StreamKinds(s, |front|);
      HintSaid(s, shown, front, r.dispatched);
      SaidConcat(shown + HintKinds(s, front, r.dispatched), ResultKinds(r.results));
      ResultsSaid(r.results);
    }
  }

  lemma HintSaid(s: Script, kinds: seq<EventKind>, rounds: seq<Round>, dispatched: seq<ToolCall>)
    ensures Said(kinds + HintKinds(s, rounds, dispatched)) == Said(kinds)
  {
    assert kinds + [] == kinds;
    SaidSnoc(kinds, Hint(s.hint));
  }

  /** What was said when the loop is left, however it is left. */
  lemma LoopSaid(s: Script, rounds: seq<Round>)
    ensures Said(Trace(s, rounds) + Closing(s, rounds).0) == Words(false, AllDeltas(s, |rounds| + 1), s.delegated)
  {
    var n := |rounds|;
    var shown := Trace(s, rounds) + StreamKinds(s, n);
    TraceSaid(s, rounds);
    StreamSaid(s, Trace(s, rounds), n);
    SaidSnoc(shown, Failure("tool_loop_exceeded"));
    HintSaid(s, shown, rounds, NextRound(s, rounds).dispatched);
    Assoc(Trace(s, rounds), StreamKinds(s, n), [Failure("tool_loop_exceeded")]);
    Assoc(Trace(s, rounds), StreamKinds(s, n), HintKinds(s, rounds, NextRound(s, rounds).dispatched));
  }

  /** Once the turn delegated, or while it does not, the words are the deltas' texts. */
  lemma {:induction false} PlainWords(told: bool, deltas: seq<Delta>, ack: string)
    requires told || !Delegates(deltas)
    ensures Words(told, deltas, ack) == DeltaTexts(deltas)
  {
    if deltas != [] {
      var front, d := deltas[..|deltas| - 1], deltas[|deltas| - 1];
      assert deltas == front + [d];
      EmittedSnoc([], told, front, d, ack, deltas);
      PlainWords(told, front, ack);
    }
  }

  /** The acknowledgement stands once, after the text of the first delta that delegates. */
  lemma WordsMeaning(a: seq<Delta>, d: Delta, b: seq<Delta>, ack: string)
    requires !Delegates(a) && Delegation(d.call)
    ensures Words(false, a + [d] + b, ack) == DeltaTexts(a) + d.text + ack + DeltaTexts(b)
  {
    WordsConcat(false, a + [d], b, ack);
    EmittedSnoc([], false, a, d, ack, a + [d]);
    PlainWords(false, a, ack);
    PlainWords(true, b, ack);
    assert (a + [d])[..|a|] == a;
  }

  // ---- what is kept ------------------------------------------------------

  predicate Opened(s: Script) { !s.cancelledAtAdmission && s.compiling.Completes? }

  /** The answer of a turn: the words of all the deltas it consumed. */
  function Answer(s: Script, rounds: seq<Round>): string {
    if Opened(s) then Words(false, AllDeltas(s, |rounds| + 1), s.delegated) else ""
  }

  /** The softening prefix of an answer that was given whole. */
  function Prefix(s: Script, ended: Ending): string {
    if Guarded(s, ended).Completes? && s.verdict.Soften? then s.verdict.prefix else ""
  }

  lemma OpeningSaid(s: Script, rounds: seq<Round>)
    ensures Said(Opening(s, rounds).0) == Answer(s, rounds)
  {
    SaidOne(Thinking);
    LoopSaid(s, rounds);
  }

  lemma LastSaid(s: Script, ended: Ending, last: Ending)
    ensures Said(LastKinds(s, ended, last)) == ""
  {
    var kinds := LastKinds(s, ended, last);
    if kinds != [] { SaidOne(kinds[0]); }
  }

  lemma FinaleSaid(s: Script, ended: Ending)
    ensures Said(Finale(s, ended).0) == Prefix(s, ended)
  {
    var guarded := Guarded(s, ended);
    SaidConcat(if guarded.Completes? then SoftenKinds(s) else [], LastKinds(s, ended, LastEnding(s, guarded)));
    LastSaid(s, ended, LastEnding(s, guarded));
    SaidOne(Text(Prefix(s, ended)));
  }

  /** A listener was given exactly the answer, and last the softening prefix, if any. */
  lemma TurnSays(s: Script, rounds: seq<Round>)
    ensures Said(Shown(s, rounds)) == Answer(s, rounds) + Prefix(s, Opening(s, rounds).1)
  {
    SaidConcat(Opening(s, rounds).0, Finale(s, Opening(s, rounds).1).0);
    OpeningSaid(s, rounds);
    FinaleSaid(s, Opening(s, rounds).1);
  }

  /** What is kept of an answer that was said so. */
  lemma AnswerKept(s: Script, r: Outcome, ended: Ending, kinds: seq<EventKind>, answer: string)
    requires r.status == Finale(s, ended).1 && Wrote(s, r.status) && Stored(s, r, ended, kinds)
    requires Said(kinds) == answer + Prefix(s, ended)
    ensures |r.remembered| == 2 && r.remembered[1].status == r.status
    ensures r.status.Ok? ==> r.remembered[1].answer == Softened(s) + answer
    ensures r.status.Cancelled? ==> r.remembered[1].answer == Heard(answer, s.playedChars)
    ensures r.status.Errored? ==>
      r.remembered[1].answer == if Guarded(s, ended).Completes? then Softened(s) + answer else ""
  {
    assert answer + "" == answer && "" + answer == answer;
    if s.verdict.Soften? && Guarded(s, ended).Completes? {
      forall a | a + s.verdict.prefix == answer + s.verdict.prefix ensures a == answer {
        Unappended(a, answer, s.verdict.prefix);
      }
    }
  }

  /** History keeps exactly the answer: prefix first when the turn ended well, and what of
      it was heard when it was cancelled. */
  lemma TurnKeeps(s: Script, r: Outcome, ended: Ending)
    requires ended == Opening(s, r.rounds).1 && r.status == Finale(s, ended).1 && Wrote(s, r.status)
    requires Stored(s, r, ended, Shown(s, r.rounds))
    ensures |r.remembered| == 2
    ensures r.remembered[1] == Entry(r.status,
      match r.status
      case Active => ""
      case Ok => Softened(s) + Answer(s, r.rounds)
      case Cancelled => Heard(Answer(s, r.rounds), s.playedChars)
      case Errored => if Guarded(s, ended).Completes? then Softened(s) + Answer(s, r.rounds) else "")
  {
    TurnSays(s, r.rounds);
    AnswerKept(s, r, ended, Shown(s, r.rounds), Answer(s, r.rounds));
  }

  function Softened(s: Script): string { if s.verdict.Soften? then s.verdict.prefix else "" }

  lemma Unappended(a: string, b: string, c: string)
    requires a + c == b + c
    ensures a == b
  {
    assert |a| == |b| && a == (a + c)[..|a|] && b == (b + c)[..|b|];
  }

  /** What was heard is a prefix of the answer, of the length played. */
  lemma HeardMeaning(text: string, played: int)
    ensures Heard(text, None) == text
    ensures Heard(text, Some(played)) <= text
    ensures |Heard(text, Some(played))| == if played < 0 then 0 else if played < |text| then played else |text|
  {}

  // ---- what is shown -----------------------------------------------------

  predicate IsCall(k: EventKind) { k.ToolCallEvent? }

  predicate IsResult(k: EventKind) { k.ToolResultEvent? }

  predicate IsHint(k: EventKind) { k.Hint? }

  predicate IsDone(k: EventKind) { k.Done? }

  function Only(kinds: seq<EventKind>, p: EventKind -> bool): seq<EventKind> {
    if kinds == [] then []
    else Only(kinds[..|kinds| - 1], p) + if p(kinds[|kinds| - 1]) then [kinds[|kinds| - 1]] else []
  }

  lemma OnlyOne(k: EventKind, p: EventKind -> bool)
    ensures Only([k], p) == if p(k) then [k] else []
  {
    assert [k][..0] == [];
  }

  lemma {:induction false} OnlyConcat(a: seq<EventKind>, b: seq<EventKind>, p: EventKind -> bool)
    ensures Only(a + b, p) == Only(a, p) + Only(b, p)
  {
    if b == [] {
      assert a + b == a;
    } else {
      assert (a + b)[..|a + b| - 1] == a + b[..|b| - 1];
      OnlyConcat(a, b[..|b| - 1], p);
    }
  }

  lemma {:induction false} OnlyNone(kinds: seq<EventKind>, p: EventKind -> bool)
    requires forall k | k in kinds :: !p(k)
    ensures Only(kinds, p) == []
  {
    if kinds != [] { OnlyNone(kinds[..|kinds| - 1], p); }
  }

  function CallEvents(calls: seq<ToolCall>): seq<EventKind> {
    seq(|calls|, i requires 0 <= i < |calls| => ToolCallEvent(calls[i]))
  }

  function ResultEvents(results: seq<Result>): seq<EventKind> {
    seq(|results|, i requires 0 <= i < |results| => ToolResultEvent(results[i]))
  }

  function AllResults(rounds: seq<Round>): seq<Result> {
    if rounds == [] then [] else AllResults(rounds[..|rounds| - 1]) + rounds[|rounds| - 1].results
  }

  /** Neither a result, nor a hint, nor the end. */
  predicate FromModel(kinds: seq<EventKind>) { forall k | k in kinds :: !IsResult(k) && !IsHint(k) && !IsDone(k) }

  lemma CallShows(told: bool, call: Option<ToolCall>, ack: string)
    ensures Only(CallKinds(told, call, ack), IsCall) == if call.Some? then [ToolCallEvent(call.value)] else []
    ensures FromModel(CallKinds(told, call, ack))
  {
    if call.Some? {
      var before := if call.value.name == DELEGATE && ack != "" && !told then [Text(ack)] else [];
      OnlyConcat(before, [ToolCallEvent(call.value)], IsCall);
      OnlyNone(before, IsCall);
      OnlyOne(ToolCallEvent(call.value), IsCall);
    }
  }

  lemma TextShows(d: Delta)
    ensures Only(TextKinds(d), IsCall) == [] && FromModel(TextKinds(d))
  {
    OnlyNone(TextKinds(d), IsCall);
  }

  /** A delta shows its call, and no result, hint or end. */
  lemma EmissionShows(told: bool, d: Delta, ack: string)
    ensures Only(Emission(told, d, ack), IsCall) == if d.call.Some? then [ToolCallEvent(d.call.value)] else []
    ensures FromModel(Emission(told, d, ack))
  {
    TextShows(d);
    CallShows(told, d.call, ack);
    OnlyConcat(TextKinds(d) + CallKinds(told, d.call, ack), if d.usage then [Usage] else [], IsCall);
    OnlyConcat(TextKinds(d), CallKinds(told, d.call, ack), IsCall);
    OnlyNone(if d.usage then [Usage] else [], IsCall);
  }

  lemma {:induction false} EmittedFromModel(told: bool, deltas: seq<Delta>, ack: string)
    ensures FromModel(Emitted(told, deltas, ack))
  {
    if deltas != [] {
      EmittedFromModel(told, deltas[..|deltas| - 1], ack);
      EmissionShows(told || Delegates(deltas[..|deltas| - 1]), deltas[|deltas| - 1], ack);
    }
  }

  lemma {:induction false} EmittedCalls(told: bool, deltas: seq<Delta>, ack: string)
    ensures Only(Emitted(told, deltas, ack), IsCall) == CallEvents(CallsOf(deltas))
  {
    if deltas != [] {
      var front, d := deltas[..|deltas| - 1], deltas[|deltas| - 1];
      EmittedCalls(told, front, ack);
      EmissionShows(told || Delegates(front), d, ack);
      OnlyConcat(Emitted(told, front, ack), Emission(told || Delegates(front), d, ack), IsCall);
      CallEventsConcat(CallsOf(front), if d.call.Some? then [d.call.value] else []);
    }
  }

  lemma StreamShows(s: Script, n: nat)
    ensures
      var kinds := StreamKinds(s, n);
      Only(kinds, IsResult) == [] && Only(kinds, IsHint) == [] && Only(kinds, IsDone) == []
  {
    EmittedFromModel(Told(s, n), s.streams(n).deltas, s.delegated);
    OnlyNone(StreamKinds(s, n), IsResult);
    OnlyNone(StreamKinds(s, n), IsHint);
    OnlyNone(StreamKinds(s, n), IsDone);
  }

  lemma HintShows(s: Script, rounds: seq<Round>, dispatched: seq<ToolCall>)
    ensures
      var kinds := HintKinds(s, rounds, dispatched);
      && Only(kinds, IsCall) == [] && Only(kinds, IsResult) == [] && Only(kinds, IsHint) == kinds
      && Only(kinds, IsDone) == []
  {
    OnlyOne(Hint(s.hint), IsCall);
    OnlyOne(Hint(s.hint), IsResult);
    OnlyOne(Hint(s.hint), IsHint);
    OnlyOne(Hint(s.hint), IsDone);
  }

  lemma {:induction false} ResultKindsOnly(results: seq<Result>)
    ensures forall k | k in ResultKinds(results) :: k.ToolResultEvent? || k.Handoff?
  {
    if results != [] { ResultKindsOnly(results[..|results| - 1]); }
  }

  lemma ResultsShowNoMore(results: seq<Result>)
    ensures
      var kinds := ResultKinds(results);
      Only(kinds, IsCall) == [] && Only(kinds, IsHint) == [] && Only(kinds, IsDone) == []
  {
    ResultKindsOnly(results);
    OnlyNone(ResultKinds(results), IsCall);
    OnlyNone(ResultKinds(results), IsHint);
    OnlyNone(ResultKinds(results), IsDone);
  }

  lemma {:induction false} ResultsShow(results: seq<Result>)
    ensures Only(ResultKinds(results), IsResult) == ResultEvents(results)
  {
    if results != [] {
      var front, r := results[..|results| - 1], results[|results| - 1];
      var handoff := if HandsOff(r) then [Handoff] else [];
      ResultsShow(front);
      OnlyConcat(ResultKinds(front) + [ToolResultEvent(r)], handoff, IsResult);
      OnlyConcat(ResultKinds(front), [ToolResultEvent(r)], IsResult);
      OnlyOne(ToolResultEvent(r), IsResult);
      OnlyOne(Handoff, IsResult);
      assert results == front + [r];
      ResultEventsConcat(front, [r]);
    }
  }

  lemma BeginningShows()
    ensures Only([Thinking, Speaking], IsCall) == [] && Only([Thinking, Speaking], IsResult) == []
    ensures Only([Thinking, Speaking], IsHint) == [] && Only([Thinking, Speaking], IsDone) == []
  {
    OnlyNone([Thinking, Speaking], IsCall);
    OnlyNone([Thinking, Speaking], IsResult);
    OnlyNone([Thinking, Speaking], IsHint);
    OnlyNone([Thinking, Speaking], IsDone);
  }

  lemma Only4(a: seq<EventKind>, b: seq<EventKind>, c: seq<EventKind>, d: seq<EventKind>, p: EventKind -> bool)
    ensures Only(a + b + c + d, p) == Only(a, p) + Only(b, p) + Only(c, p) + Only(d, p)
  {
    OnlyConcat(a + b + c, d, p);
    OnlyConcat(a + b, c, p);
    OnlyConcat(a, b, p);
  }

  lemma CallEventsConcat(a: seq<ToolCall>, b: seq<ToolCall>)
    ensures CallEvents(a + b) == CallEvents(a) + CallEvents(b)
  {}

  lemma ResultEventsConcat(a: seq<Result>, b: seq<Result>)
    ensures ResultEvents(a + b) == ResultEvents(a) + ResultEvents(b)
  {}

  /** The calls shown are those of the deltas. */
  lemma StreamCalls(s: Script, shown: seq<EventKind>, n: nat)
    requires Only(shown, IsCall) == CallEvents(CallsOf(AllDeltas(s, n)))
    ensures Only(shown + StreamKinds(s, n), IsCall) == CallEvents(CallsOf(AllDeltas(s, n + 1)))
  {
    OnlyConcat(shown, StreamKinds(s, n), IsCall);
    EmittedCalls(Told(s, n), s.streams(n).deltas, s.delegated);
    DelegatesConcat(AllDeltas(s, n), s.streams(n).deltas);
    CallEventsConcat(CallsOf(AllDeltas(s, n)), CallsOf(s.streams(n).deltas));
  }

  lemma {:induction false} TraceCalls(s: Script, rounds: seq<Round>)
    ensures Only(Trace(s, rounds), IsCall) == CallEvents(CallsOf(AllDeltas(s, |rounds|)))
  {
    if rounds == [] {
      BeginningShows();
    } else {
      var front, r := rounds[..|rounds| - 1], rounds[|rounds| - 1];
      var hint, shown := HintKinds(s, front, r.dispatched), Trace(s, front) + StreamKinds(s, |front|);
      TraceCalls(s, front);
      StreamCalls(s, Trace(s, front), |front|);
      ResultsShowNoMore(r.results);
      HintShows(s, front, r.dispatched);
      OnlyConcat(shown + hint, ResultKinds(r.results), IsCall);
      OnlyConcat(shown, hint, IsCall);
    }
  }

  lemma {:induction false} TraceResults(s: Script, rounds: seq<Round>)
    ensures Only(Trace(s, rounds), IsResult) == ResultEvents(AllResults(rounds))
  {
    if rounds == [] {
      BeginningShows();
    } else {
      var front, r := rounds[..|rounds| - 1], rounds[|rounds| - 1];
      var hint, stream := HintKinds(s, front, r.dispatched), StreamKinds(s, |front|);
      TraceResults(s, front);
      StreamShows(s, |front|);
      HintShows(s, front, r.dispatched);
      ResultsShow(r.results);
      Only4(Trace(s, front), stream, hint, ResultKinds(r.results), IsResult);
      ResultEventsConcat(AllResults(front), r.results);
    }
  }

  lemma {:induction false} TraceNotDone(s: Script, rounds: seq<Round>)
    ensures Only(Trace(s, rounds), IsDone) == []
  {
    if rounds == [] {
      BeginningShows();
    } else {
      var front, r := rounds[..|rounds| - 1], rounds[|rounds| - 1];
      var hint, stream := HintKinds(s, front, r.dispatched), StreamKinds(s, |front|);
      TraceNotDone(s, front);
      StreamShows(s, |front|);
      HintShows(s, front, r.dispatched);
      ResultsShowNoMore(r.results);
      Only4(Trace(s, front), stream, hint, ResultKinds(r.results), IsDone);
    }
  }

  /** At most one hint, and exactly when some round was due one. */
  lemma {:induction false} TraceHints(s: Script, rounds: seq<Round>)
    ensures Only(Trace(s, rounds), IsHint) == if Hinted(s, rounds) then [Hint(s.hint)] else []
  {
    if rounds == [] {
      BeginningShows();
    } else {
      var front, r := rounds[..|rounds| - 1], rounds[|rounds| - 1];
      var hint, stream := HintKinds(s, front, r.dispatched), StreamKinds(s, |front|);
      TraceHints(s, front);
      StreamShows(s, |front|);
      HintShows(s, front, r.dispatched);
      ResultsShowNoMore(r.results);
      Only4(Trace(s, front), stream, hint, ResultKinds(r.results), IsHint);
      HintedSnoc(s, rounds);
    }
  }

  lemma HintedSnoc(s: Script, rounds: seq<Round>)
    requires rounds != []
    ensures
      var front, k := rounds[..|rounds| - 1], |rounds| - 1;
      Hinted(s, rounds) <==> Hinted(s, front) || HintDue(s, k, rounds[k].dispatched)
  {
    var front := rounds[..|rounds| - 1];
    if Hinted(s, front) {
      var k :| 0 <= k < |front| && HintDue(s, k, front[k].dispatched);
      assert HintDue(s, k, rounds[k].dispatched);
    }
    if Hinted(s, rounds) && !HintDue(s, |front|, rounds[|front|].dispatched) {
      var k :| 0 <= k < |rounds| && HintDue(s, k, rounds[k].dispatched);
      assert HintDue(s, k, front[k].dispatched);
    }
  }

  // ---- the whole turn ----------------------------------------------------

  /** What the last pass of the loop shows beyond its stream. */
  lemma ClosingShows(s: Script, rounds: seq<Round>) returns (more: seq<EventKind>)
    ensures Trace(s, rounds) + Closing(s, rounds).0 == Trace(s, rounds) + StreamKinds(s, |rounds|) + more
    ensures Only(more, IsCall) == [] && Only(more, IsResult) == [] && Only(more, IsDone) == []
    ensures |Only(more, IsHint)| <= if Hinted(s, rounds) then 0 else 1
  {
    var failure := Failure("tool_loop_exceeded");
    more := Closing(s, rounds).0[|StreamKinds(s, |rounds|)|..];
    assert Closing(s, rounds).0 == StreamKinds(s, |rounds|) + more;
    Assoc(Trace(s, rounds), StreamKinds(s, |rounds|), more);
    HintShows(s, rounds, NextRound(s, rounds).dispatched);
    assert more == [] || more == [failure] || more == HintKinds(s, rounds, NextRound(s, rounds).dispatched);
    OnlyOne(failure, IsCall);
    OnlyOne(failure, IsResult);
    OnlyOne(failure, IsHint);
    OnlyOne(failure, IsDone);
  }

  lemma LoopShows(s: Script, rounds: seq<Round>)
    ensures
      var kinds := Trace(s, rounds) + Closing(s, rounds).0;
      && Only(kinds, IsCall) == CallEvents(CallsOf(AllDeltas(s, |rounds| + 1)))
      && Only(kinds, IsResult) == ResultEvents(AllResults(rounds))
      && |Only(kinds, IsHint)| <= 1 && Only(kinds, IsDone) == []
  {
    var more := ClosingShows(s, rounds);
    TraceCalls(s, rounds);
    StreamCalls(s, Trace(s, rounds), |rounds|);
    OnlyConcat(Trace(s, rounds) + StreamKinds(s, |rounds|), more, IsCall);
    TraceResults(s, rounds);
    TraceHints(s, rounds);
    TraceNotDone(s, rounds);
    StreamShows(s, |rounds|);
    Only3(Trace(s, rounds), StreamKinds(s, |rounds|), more, IsResult);
    Only3(Trace(s, rounds), StreamKinds(s, |rounds|), more, IsHint);
    Only3(Trace(s, rounds), StreamKinds(s, |rounds|), more, IsDone);
  }

  lemma Only3(a: seq<EventKind>, b: seq<EventKind>, c: seq<EventKind>, p: EventKind -> bool)
    ensures Only(a + b + c, p) == Only(a, p) + Only(b, p) + Only(c, p)
  {
    OnlyConcat(a + b, c, p);
    OnlyConcat(a, b, p);
  }

  lemma SoftenShows(s: Script)
    ensures Only(SoftenKinds(s), IsCall) == [] && Only(SoftenKinds(s), IsResult) == []
    ensures Only(SoftenKinds(s), IsHint) == [] && Only(SoftenKinds(s), IsDone) == []
  {
    if s.verdict.Soften? {
      var k := Text(s.verdict.prefix);
      OnlyOne(k, IsCall);
      OnlyOne(k, IsResult);
      OnlyOne(k, IsHint);
      OnlyOne(k, IsDone);
    }
  }

  lemma LastShows(s: Script, ended: Ending, last: Ending)
    ensures Only(LastKinds(s, ended, last), IsCall) == [] && Only(LastKinds(s, ended, last), IsResult) == []
    ensures Only(LastKinds(s, ended, last), IsHint) == []
    ensures Only(LastKinds(s, ended, last), IsDone) == if last.Completes? then [Done] else []
  {
    var kinds := LastKinds(s, ended, last);
    if kinds != [] {
      OnlyOne(kinds[0], IsCall);
      OnlyOne(kinds[0], IsResult);
      OnlyOne(kinds[0], IsHint);
      OnlyOne(kinds[0], IsDone);
    }
  }

  /** The finale shows DONE exactly when the turn ended well. */
  lemma FinaleShows(s: Script, ended: Ending)
    ensures Only(Finale(s, ended).0, IsCall) == [] && Only(Finale(s, ended).0, IsResult) == []
    ensures Only(Finale(s, ended).0, IsHint) == []
    ensures Only(Finale(s, ended).0, IsDone) == if Finale(s, ended).1 == Ok then [Done] else []
  {
    var guarded := Guarded(s, ended);
    var first := if guarded.Completes? then SoftenKinds(s) else [];
    var last := LastKinds(s, ended, LastEnding(s, guarded));
    SoftenShows(s);
    LastShows(s, ended, LastEnding(s, guarded));
    OnlyConcat(first, last, IsDone);
    OnlyConcat(first, last, IsCall);
    OnlyConcat(first, last, IsResult);
    OnlyConcat(first, last, IsHint);
  }

  lemma DoneIsLast(s: Script, opening: seq<EventKind>, ended: Ending)
    requires Finale(s, ended).1 == Ok
    ensures var kinds := opening + Finale(s, ended).0; kinds[|kinds| - 1] == Done
  {}

  /** Every tool call of the model is shown once and in order, every result of every round
      once and in order, at most one hint, and DONE last and only when the turn ended well. */
  lemma TurnShows(s: Script, rounds: seq<Round>)
    requires Opened(s)
    ensures
      var kinds, well := Shown(s, rounds), Finale(s, Opening(s, rounds).1).1 == Ok;
      && Only(kinds, IsCall) == CallEvents(CallsOf(AllDeltas(s, |rounds| + 1)))
      && Only(kinds, IsResult) == ResultEvents(AllResults(rounds))
      && |Only(kinds, IsHint)| <= 1
      && Only(kinds, IsDone) == (if well then [Done] else []) && (well ==> kinds[|kinds| - 1] == Done)
  {
    var opening, finale := Opening(s, rounds).0, Finale(s, Opening(s, rounds).1).0;
    LoopShows(s, rounds);
    FinaleShows(s, Opening(s, rounds).1);
    OnlyConcat(opening, finale, IsCall);
    OnlyConcat(opening, finale, IsResult);
    OnlyConcat(opening, finale, IsHint);
    OnlyConcat(opening, finale, IsDone);
    if Finale(s, Opening(s, rounds).1).1 == Ok { DoneIsLast(s, opening, Opening(s, rounds).1); }
  }

  // ---- how a turn ends ---------------------------------------------------

  /** A turn ends well exactly when it was admitted and compiled, its loop came to an end of its
      own, the guardrail did not block the answer and history took it. */
  lemma EndsWellIff(s: Script, rounds: seq<Round>)
    ensures Finale(s, Opening(s, rounds).1).1 == Ok <==>
      Opened(s) && Closing(s, rounds).1.Completes? && !s.verdict.Block? && s.remembering.Completes?
  {}

  lemma ErredEmpty(s: Script, r: Outcome, ended: Ending, kinds: seq<EventKind>)
    requires Stored(s, r, ended, kinds) && r.status.Errored? && !Guarded(s, ended).Completes?
    ensures forall k | 0 <= k < |r.remembered| :: r.remembered[k].answer == ""
  {}

  /** A blocked answer is an error, and is not kept. */
  lemma BlockedIsNotKept(s: Script, r: Outcome, ended: Ending)
    requires ended == Opening(s, r.rounds).1 && ended.Completes? && s.verdict.Block?
    requires r.status == Finale(s, ended).1 && Stored(s, r, ended, Shown(s, r.rounds))
    ensures r.status == Errored && forall k | 0 <= k < |r.remembered| :: r.remembered[k].answer == ""
  {
    ErredEmpty(s, r, ended, Shown(s, r.rounds));
  }

  // ---- handoffs ----------------------------------------------------------

  predicate GivesAway(k: EventKind) { k.ToolResultEvent? && HandsOff(k.result) }

  predicate HandoffInPlace(kinds: seq<EventKind>, i: nat)
    requires i < |kinds|
  {
    kinds[i].Handoff? <==> i > 0 && GivesAway(kinds[i - 1])
  }

  /** A handoff is shown right after each result that hands off, and nowhere else. */
  ghost predicate HandsOver(kinds: seq<EventKind>) {
    && (forall i | 0 <= i < |kinds| :: HandoffInPlace(kinds, i))
    && (kinds != [] ==> !GivesAway(kinds[|kinds| - 1]))
  }

  lemma HandsOverConcat(a: seq<EventKind>, b: seq<EventKind>)
    requires HandsOver(a) && HandsOver(b)
    ensures HandsOver(a + b)
  {
    var all := a + b;
    forall i | 0 <= i < |all| ensures HandoffInPlace(all, i) {
      if i < |a| {
        assert HandoffInPlace(a, i) && all[i] == a[i] && (i > 0 ==> all[i - 1] == a[i - 1]);
      } else {
        assert HandoffInPlace(b, i - |a|) && all[i] == b[i - |a|];
        assert i > 0 ==> all[i - 1] == if i == |a| then a[i - 1] else b[i - |a| - 1];
      }
    }
  }

  /** Neither a result nor a handoff. */
  predicate NoResults(kinds: seq<EventKind>) { forall k | k in kinds :: !k.ToolResultEvent? && !k.Handoff? }

  lemma NoResultsHandOver(kinds: seq<EventKind>)
    requires NoResults(kinds)
    ensures HandsOver(kinds)
  {
    forall i | 0 <= i < |kinds| ensures !kinds[i].Handoff? && !GivesAway(kinds[i]) { assert kinds[i] in kinds; }
  }

  lemma EmissionNoResults(told: bool, d: Delta, ack: string)
    ensures NoResults(Emission(told, d, ack))
  {}

  lemma {:induction false} EmittedNoResults(told: bool, deltas: seq<Delta>, ack: string)
    ensures NoResults(Emitted(told, deltas, ack))
  {
    if deltas != [] {
      EmittedNoResults(told, deltas[..|deltas| - 1], ack);
      EmissionNoResults(told || Delegates(deltas[..|deltas| - 1]), deltas[|deltas| - 1], ack);
    }
  }

  lemma {:induction false} ResultsHandOver(results: seq<Result>)
    ensures HandsOver(ResultKinds(results))
  {
    if results != [] {
      var front, r := results[..|results| - 1], results[|results| - 1];
      var one := [ToolResultEvent(r)] + if HandsOff(r) then [Handoff] else [];
      ResultsHandOver(front);
      assert HandsOver(one);
      HandsOverConcat(ResultKinds(front), one);
      Assoc(ResultKinds(front), [ToolResultEvent(r)], if HandsOff(r) then [Handoff] else []);
    }
  }

  lemma StreamHandsOver(s: Script, kinds: seq<EventKind>, n: nat)
    requires HandsOver(kinds)
    ensures HandsOver(kinds + StreamKinds(s, n))
  {
    EmittedNoResults(Told(s, n), s.streams(n).deltas, s.delegated);
    NoResultsHandOver(StreamKinds(s, n));
    HandsOverConcat(kinds, StreamKinds(s, n));
  }

  lemma MoreHandsOver(kinds: seq<EventKind>, more: seq<EventKind>)
    requires HandsOver(kinds) && NoResults(more)
    ensures HandsOver(kinds + more)
  {
    NoResultsHandOver(more);
    HandsOverConcat(kinds, more);
  }

  lemma {:induction false} TraceHandsOver(s: Script, rounds: seq<Round>)
    ensures HandsOver(Trace(s, rounds))
  {
    if rounds != [] {
      var front, r := rounds[..|rounds| - 1], rounds[|rounds| - 1];
      var shown := Trace(s, front) + StreamKinds(s, |front|);
      TraceHandsOver(s, front);
      StreamHandsOver(s, Trace(s, front), |front|);
      MoreHandsOver(shown, HintKinds(s, front, r.dispatched));
      ResultsHandOver(r.results);
      HandsOverConcat(shown + HintKinds(s, front, r.dispatched), ResultKinds(r.results));
    }
  }

  lemma ClosingMore(s: Script, rounds: seq<Round>) returns (more: seq<EventKind>)
    ensures Closing(s, rounds).0 == StreamKinds(s, |rounds|) + more && NoResults(more)
  {
    more := Closing(s, rounds).0[|StreamKinds(s, |rounds|)|..];
    assert more == [] || more == [Failure("tool_loop_exceeded")]
      || more == HintKinds(s, rounds, NextRound(s, rounds).dispatched);
  }

  lemma LoopHandsOver(s: Script, rounds: seq<Round>)
    ensures HandsOver(Trace(s, rounds) + Closing(s, rounds).0)
  {
    var more := ClosingMore(s, rounds);
    TraceHandsOver(s, rounds);
    StreamHandsOver(s, Trace(s, rounds), |rounds|);
    MoreHandsOver(Trace(s, rounds) + StreamKinds(s, |rounds|), more);
    Assoc(Trace(s, rounds), StreamKinds(s, |rounds|), more);
  }

  lemma FinaleNoResults(s: Script, ended: Ending)
    ensures NoResults(Finale(s, ended).0)
  {}

  /** In a whole turn a handoff is shown right after each delegation whose result hands off, and
      nowhere else. */
  lemma TurnHandsOver(s: Script, rounds: seq<Round>)
    ensures HandsOver(Shown(s, rounds))
  {
    var opening := Opening(s, rounds);
    if Opened(s) { LoopHandsOver(s, rounds); }
    FinaleNoResults(s, opening.1);
    MoreHandsOver(opening.0, Finale(s, opening.1).0);
  }
}
