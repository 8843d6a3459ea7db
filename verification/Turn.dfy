/** One turn of the engine (domain/agent/turn.py, `TurnEngine.run`): model streams, tool
    rounds, cancellation and the history records it leaves. The model, the dispatcher,
    the output guardrail and the moment of a cancellation are inputs. */
module Turn {
  import opened Basics
  import opened Tools

  const DELEGATE := "delegate_to_coworker"

  datatype Finish = Stop | ToolCalls | Length

  datatype Delta = Delta(activity: bool, text: string, call: Option<ToolCall>, usage: bool, finish: Option<Finish>)

  /** How an awaited call ends for the turn. */
  datatype Ending = Completes | Interrupted | Raises

  datatype ModelStream = ModelStream(deltas: seq<Delta>, ending: Ending)

  /** One dispatch: `slow` when it outlasts the hint delay. */
  datatype Dispatch = Dispatch(reports: seq<Report>, slow: bool, ending: Ending)

  /** The output guardrail: any other verdict passes, `Block` is its refusal raised. */
  datatype Verdict = Pass | Soften(prefix: string) | Block

  datatype EventKind =
    | Thinking
    | Speaking
    | Progress
    | Text(text: string)
    | Hint(text: string)
    | ToolCallEvent(call: ToolCall)
    | ToolResultEvent(result: Result)
    | Handoff
    | Usage
    | Failure(code: string)
    | Done

  datatype Event = Event(seqNo: int, kind: EventKind)

  datatype Message = Compiled | Calls(calls: seq<ToolCall>) | Tool(callId: string, name: string, content: string)

  datatype Status = Active | Ok | Cancelled | Errored

  /** One call of `_remember_turn` that took effect. */
  datatype Entry = Entry(status: Status, answer: string)

  /** Everything the turn does not decide itself. `delegated` and `hint` are the persona's
      phrases, `hints` whether the latency policy has a hint delay. `remembering` is the
      history write before DONE; `cancelWrite` and `lastWrite` tell whether the writes of the
      cancellation handler and of the final clean-up take effect, where they are tried. */
  datatype Script = Script(
    cancelledAtAdmission: bool, compiling: Ending, streams: nat -> ModelStream, dispatches: nat -> Dispatch,
    maxToolIters: int, coordinated: bool, delegated: string, hint: string, hints: bool,
    verdict: Verdict, remembering: Ending, cancelWrite: bool, lastWrite: bool, playedChars: Option<int>)

  // ---- events ------------------------------------------------------------

  /** `_SeqGen` and what was yielded with its numbers. */
  datatype Output = Output(last: int, events: seq<Event>)

  const SILENT := Output(-1, [])

  /** Numbered 0, 1, 2, ... without a gap. */
  function Stamped(kinds: seq<EventKind>): seq<Event> {
    seq(|kinds|, i requires 0 <= i < |kinds| => Event(i, kinds[i]))
  }

  /** What a listener was given as answer text, in order. */
  function Said(kinds: seq<EventKind>): string {
    if kinds == [] then ""
    else
      var front, k := Said(kinds[..|kinds| - 1]), kinds[|kinds| - 1];
      if k.Text? then front + k.text else front
  }

  function Joined(parts: seq<string>): string {
    if parts == [] then "" else Joined(parts[..|parts| - 1]) + parts[|parts| - 1]
  }

  lemma SaidSnoc(kinds: seq<EventKind>, k: EventKind)
    ensures Said(kinds + [k]) == if k.Text? then Said(kinds) + k.text else Said(kinds)
  {
    assert (kinds + [k])[..|kinds|] == kinds;
  }

  lemma JoinedSnoc(parts: seq<string>, p: string)
    ensures Joined(parts + [p]) == Joined(parts) + p
  {
    assert (parts + [p])[..|parts|] == parts;
  }

  /** `o` shows exactly `kinds`, and their answer text is the accumulated parts. */
  ghost predicate Shows(o: Output, kinds: seq<EventKind>, parts: seq<string>) {
    o.last == |kinds| - 1 && o.events == Stamped(kinds) && Joined(parts) == Said(kinds)
  }

  method Yield(o: Output, kind: EventKind, ghost kinds: seq<EventKind>, ghost parts: seq<string>)
    returns (after: Output)
    requires Shows(o, kinds, parts) && !kind.Text?
    ensures Shows(after, kinds + [kind], parts)
  {
    SaidSnoc(kinds, kind);
    after := Output(o.last + 1, o.events + [Event(o.last + 1, kind)]);
    assert after.events == Stamped(kinds + [kind]);
  }

  method Say(o: Output, parts: seq<string>, text: string, ghost kinds: seq<EventKind>)
    returns (after: Output, said: seq<string>)
    requires Shows(o, kinds, parts)
    ensures said == parts + [text] && Shows(after, kinds + [Text(text)], said)
  {
    SaidSnoc(kinds, Text(text));
    JoinedSnoc(parts, text);
    said := parts + [text];
    after := Output(o.last + 1, o.events + [Event(o.last + 1, Text(text))]);
    assert after.events == Stamped(kinds + [Text(text)]);
  }

  // ---- one model stream --------------------------------------------------

  function CallsOf(deltas: seq<Delta>): seq<ToolCall> {
    if deltas == [] then []
    else
      var front, d := CallsOf(deltas[..|deltas| - 1]), deltas[|deltas| - 1];
      if d.call.Some? then front + [d.call.value] else front
  }

  function FinishOf(deltas: seq<Delta>): Option<Finish> {
    if deltas == [] then None
    else
      var d := deltas[|deltas| - 1];
      if d.finish.Some? then d.finish else FinishOf(deltas[..|deltas| - 1])
  }

  predicate Delegates(deltas: seq<Delta>) { exists c | c in CallsOf(deltas) :: c.name == DELEGATE }

  /** What a tool call shows; `told` says whether the turn delegated before. A delegation's
      acknowledgement is answer text, said once per turn. */
  function CallKinds(told: bool, call: Option<ToolCall>, ack: string): seq<EventKind> {
    if call.None? then []
    else (if call.value.name == DELEGATE && ack != "" && !told then [Text(ack)] else []) + [ToolCallEvent(call.value)]
  }

  function TextKinds(d: Delta): seq<EventKind> {
    (if d.activity then [Progress] else []) + (if d.text != "" then [Text(d.text)] else [])
  }

  function Emission(told: bool, d: Delta, ack: string): seq<EventKind> {
    TextKinds(d) + CallKinds(told, d.call, ack) + (if d.usage then [Usage] else [])
  }

  function Emitted(told: bool, deltas: seq<Delta>, ack: string): seq<EventKind> {
    if deltas == [] then []
    else
      var front := deltas[..|deltas| - 1];
      Emitted(told, front, ack) + Emission(told || Delegates(front), deltas[|deltas| - 1], ack)
  }

  lemma EmittedSnoc(kinds: seq<EventKind>, told: bool, deltas: seq<Delta>, d: Delta, ack: string, all: seq<Delta>)
    requires all == deltas + [d]
    ensures kinds + Emitted(told, all, ack)
      == kinds + Emitted(told, deltas, ack) + Emission(told || Delegates(deltas), d, ack)
    ensures Delegates(all) == (Delegates(deltas) || Delegation(d.call))
    ensures CallsOf(all) == CallsOf(deltas) + if d.call.Some? then [d.call.value] else []
    ensures FinishOf(all) == if d.finish.Some? then d.finish else FinishOf(deltas)
  {
    assert all[..|deltas|] == deltas;
    var calls, after := CallsOf(deltas), CallsOf(all);
    assert d.call.Some? ==> after == calls + [d.call.value] && after[|calls|] == d.call.value;
    assert forall c :: c in after <==> c in calls || (d.call.Some? && c == d.call.value);
    Assoc(kinds, Emitted(told, deltas, ack), Emission(told || Delegates(deltas), d, ack));
  }

  /** `announced_answers` of a turn that did (`told`) or did not delegate. */
  function Announced(told: bool, ack: string): set<string> { if told && ack != "" then {ack} else {} }

  predicate Delegation(call: Option<ToolCall>) { call.Some? && call.value.name == DELEGATE }

  method ShowCall(call: Option<ToolCall>, ack: string, o: Output, parts: seq<string>, announced: set<string>,
                  ghost kinds: seq<EventKind>, ghost told: bool)
    returns (o': Output, parts': seq<string>, announced': set<string>)
    requires Shows(o, kinds, parts) && announced == Announced(told, ack)
    ensures Shows(o', kinds + CallKinds(told, call, ack), parts')
    ensures announced' == Announced(told || Delegation(call), ack)
  {
    o', parts', announced' := o, parts, announced;
    ghost var shown := kinds;
    if call.Some? {
      if call.value.name == DELEGATE && ack != "" && ack !in announced' {
        announced' := announced' + {ack};
        o', parts' := Say(o', parts', ack, shown);
        shown := shown + [Text(ack)];
      }
      o' := Yield(o', ToolCallEvent(call.value), shown, parts');
      shown := shown + [ToolCallEvent(call.value)];
    }
    assert shown == kinds + CallKinds(told, call, ack);
  }

  method Show(d: Delta, ack: string, o: Output, parts: seq<string>, announced: set<string>,
              ghost kinds: seq<EventKind>, ghost told: bool)
    returns (o': Output, parts': seq<string>, announced': set<string>)
    requires Shows(o, kinds, parts) && announced == Announced(told, ack)
    ensures Shows(o', kinds + Emission(told, d, ack), parts')
    ensures announced' == Announced(told || Delegation(d.call), ack)
  {
    var mid, said := ShowText(d, o, parts, kinds);
    o', parts', announced' := ShowCall(d.call, ack, mid, said, announced, kinds + TextKinds(d), told);
    Assoc(kinds, TextKinds(d), CallKinds(told, d.call, ack));
    o' := ShowUsage(d, o', parts', kinds, TextKinds(d) + CallKinds(told, d.call, ack));
  }

  method ShowText(d: Delta, o: Output, parts: seq<string>, ghost kinds: seq<EventKind>)
    returns (o': Output, parts': seq<string>)
    requires Shows(o, kinds, parts)
    ensures Shows(o', kinds + TextKinds(d), parts')
  {
    o', parts' := o, parts;
    ghost var shown := kinds;
    if d.activity {
      o' := Yield(o', Progress, shown, parts');
      shown := shown + [Progress];
    }
    if d.text != "" {
      o', parts' := Say(o', parts', d.text, shown);
      shown := shown + [Text(d.text)];
    }
    assert shown == kinds + TextKinds(d);
  }

  method ShowUsage(d: Delta, o: Output, ghost parts: seq<string>, ghost kinds: seq<EventKind>,
                   ghost sofar: seq<EventKind>)
    returns (o': Output)
    requires Shows(o, kinds + sofar, parts)
    ensures Shows(o', kinds + (sofar + if d.usage then [Usage] else []), parts)
  {
    o' := o;
    if d.usage {
      o' := Yield(o, Usage, kinds + sofar, parts);
      Assoc(kinds, sofar, [Usage]);
    } else {
      assert sofar + [] == sofar;
    }
  }

  /** The inner loop over one model stream. */
  method Consume(stream: ModelStream, ack: string, o: Output, parts: seq<string>, announced: set<string>,
                 ghost kinds: seq<EventKind>, ghost told: bool)
    returns (o': Output, parts': seq<string>, announced': set<string>, calls: seq<ToolCall>, finish: Option<Finish>)
    requires Shows(o, kinds, parts) && announced == Announced(told, ack)
    ensures Shows(o', kinds + Emitted(told, stream.deltas, ack), parts')
    ensures announced' == Announced(told || Delegates(stream.deltas), ack)
    ensures calls == CallsOf(stream.deltas) && finish == FinishOf(stream.deltas)
  {
    o', parts', announced', calls, finish := o, parts, announced, [], None;
    assert kinds + Emitted(told, [], ack) == kinds;
    for i := 0 to |stream.deltas|
      invariant Shows(o', kinds + Emitted(told, stream.deltas[..i], ack), parts')
      invariant announced' == Announced(told || Delegates(stream.deltas[..i]), ack)
      invariant calls == CallsOf(stream.deltas[..i]) && finish == FinishOf(stream.deltas[..i])
    {
      var d := stream.deltas[i];
      ghost var before, upTo := stream.deltas[..i], stream.deltas[..i + 1];
      assert upTo == before + [d];
      EmittedSnoc(kinds, told, before, d, ack, upTo);
      ghost var shown := kinds + Emitted(told, before, ack);
      o', parts', announced' := Show(d, ack, o', parts', announced', shown, told || Delegates(before));
      assert shown + Emission(told || Delegates(before), d, ack) == kinds + Emitted(told, upTo, ack);
      if d.call.Some? { calls := calls + [d.call.value]; }
      if d.finish.Some? { finish := d.finish; }
    }
    assert stream.deltas[..|stream.deltas|] == stream.deltas;
  }

  // ---- one tool round ----------------------------------------------------

  function ToolMessages(results: seq<Result>): seq<Message> {
    seq(|results|, i requires 0 <= i < |results| => Tool(results[i].callId, results[i].name, results[i].content))
  }

  /** What a round adds to the conversation: the call message, then its results. */
  function RoundMessages(r: Round): seq<Message> { [Calls(r.calls)] + ToolMessages(r.results) }

  function Conversation(rounds: seq<Round>): seq<Message> {
    if rounds == [] then [Compiled]
    else Conversation(rounds[..|rounds| - 1]) + RoundMessages(rounds[|rounds| - 1])
  }

  /** One TOOL message for each call, in order and under its id. */
  ghost predicate Answers(messages: seq<Message>, calls: seq<ToolCall>) {
    && |messages| == |calls|
    && forall i | 0 <= i < |calls| :: messages[i].Tool? && messages[i].callId == calls[i].id
  }

  /** A conversation a model accepts: every call message is followed by exactly its answers,
      and then by the next call message or nothing. */
  ghost predicate WellFormed(messages: seq<Message>) {
    messages != [] ==>
      && messages[0].Calls?
      && var n := |messages[0].calls|;
      && n < |messages| && Answers(messages[1..1 + n], messages[0].calls) && WellFormed(messages[1 + n..])
  }

  /** TOOL messages with each result's id, name and content. */
  ghost predicate Reports(messages: seq<Message>, results: seq<Result>) {
    && |messages| == |results|
    && forall i | 0 <= i < |results| ::
      messages[i] == Tool(results[i].callId, results[i].name, results[i].content)
  }

  /** The conversation tells the rounds: the calls of each, and then its results. */
  ghost predicate Tells(messages: seq<Message>, rounds: seq<Round>) {
    if rounds == [] then messages == []
    else
      && var n := |rounds[0].results|;
      && n < |messages| && messages[0] == Calls(rounds[0].calls)
      && Reports(messages[1..1 + n], rounds[0].results) && Tells(messages[1 + n..], rounds[1..])
  }

  /** The conversation goes on with the round's call message and its results. */
  ghost predicate Extends(before: seq<Message>, after: seq<Message>, r: Round) {
    && |after| == |before| + 1 + |r.results| && before <= after
    && after[|before|] == Calls(r.calls) && Reports(after[|before| + 1..], r.results)
  }

  lemma TellsOne(r: Round)
    ensures Tells(RoundMessages(r), [r])
  {
    var messages, n := RoundMessages(r), |r.results|;
    assert messages[1..1 + n] == ToolMessages(r.results) && messages[1 + n..] == [] && [r][1..] == [];
  }

  lemma AppendAfter(a: seq<Message>, more: seq<Message>, n: nat)
    requires n < |a|
    ensures (a + more)[0] == a[0] && (a + more)[1..1 + n] == a[1..1 + n] && (a + more)[1 + n..] == a[1 + n..] + more
  {}

  lemma {:induction false} TellsMore(a: seq<Message>, rounds: seq<Round>, r: Round)
    requires Tells(a, rounds)
    ensures Tells(a + RoundMessages(r), rounds + [r])
  {
    if rounds == [] {
      TellsOne(r);
      assert a + RoundMessages(r) == RoundMessages(r) && rounds + [r] == [r];
    } else {
      var n := |rounds[0].results|;
      AppendAfter(a, RoundMessages(r), n);
      TellsMore(a[1 + n..], rounds[1..], r);
      assert (rounds + [r])[1..] == rounds[1..] + [r];
    }
  }

  lemma OneRoundMore(messages: seq<Message>, rounds: seq<Round>, r: Round)
    requires messages != [] && messages[0] == Compiled && Tells(messages[1..], rounds)
    ensures (messages + RoundMessages(r))[0] == Compiled && Tells((messages + RoundMessages(r))[1..], rounds + [r])
  {
    TellsMore(messages[1..], rounds, r);
    AppendAfter(messages, RoundMessages(r), 0);
  }

  lemma {:induction false} ConversationTells(rounds: seq<Round>)
    ensures Conversation(rounds) != [] && Conversation(rounds)[0] == Compiled
    ensures Tells(Conversation(rounds)[1..], rounds)
  {
    if rounds != [] {
      var front, r := rounds[..|rounds| - 1], rounds[|rounds| - 1];
      ConversationTells(front);
      OneRoundMore(Conversation(front), front, r);
      assert rounds == front + [r];
    }
  }

  lemma {:induction false} TellsWellFormed(messages: seq<Message>, rounds: seq<Round>)
    requires Tells(messages, rounds) && forall k | 0 <= k < |rounds| :: Answered(rounds[k])
    ensures WellFormed(messages)
  {
    if rounds != [] {
      assert Answered(rounds[0]);
      TellsWellFormed(messages[1 + |rounds[0].results|..], rounds[1..]);
    }
  }

  predicate HandsOff(r: Result) { r.name == DELEGATE && r.ok && r.handsOff }

  function ResultKinds(results: seq<Result>): seq<EventKind> {
    if results == [] then []
    else
      var r := results[|results| - 1];
      ResultKinds(results[..|results| - 1]) + [ToolResultEvent(r)] + (if HandsOff(r) then [Handoff] else [])
  }

  /** The events and messages of a finished round. */
  method ReportRound(results: seq<Result>, o: Output, ghost kinds: seq<EventKind>, ghost parts: seq<string>)
    returns (o': Output, messages: seq<Message>)
    requires Shows(o, kinds, parts)
    ensures Shows(o', kinds + ResultKinds(results), parts)
    ensures messages == ToolMessages(results) && Reports(messages, results)
  {
    o', messages := o, [];
    assert kinds + ResultKinds([]) == kinds;
    for i := 0 to |results|
      invariant Shows(o', kinds + ResultKinds(results[..i]), parts) && messages == ToolMessages(results[..i])
    {
      var r := results[i];
      ghost var shown := kinds + ResultKinds(results[..i]);
      assert results[..i + 1][..i] == results[..i];
      o' := Yield(o', ToolResultEvent(r), shown, parts);
      shown := shown + [ToolResultEvent(r)];
      if HandsOff(r) {
        o' := Yield(o', Handoff, shown, parts);
        shown := shown + [Handoff];
      }
      assert shown == kinds + ResultKinds(results[..i + 1]);
      messages := messages + [Tool(r.callId, r.name, r.content)];
    }
    assert results[..|results|] == results;
  }

  /** A wait hint is due: the policy has one, the dispatch is slow and not all delegation. */
  predicate HintDue(s: Script, k: nat, dispatched: seq<ToolCall>) {
    s.hints && s.dispatches(k).slow && exists i :: 0 <= i < |dispatched| && dispatched[i].name != DELEGATE
  }

  predicate Hinted(s: Script, rounds: seq<Round>) {
    exists k | 0 <= k < |rounds| :: HintDue(s, k, rounds[k].dispatched)
  }

  /** The hint of the next round: at most one a turn. */
  function HintKinds(s: Script, rounds: seq<Round>, dispatched: seq<ToolCall>): seq<EventKind> {
    if HintDue(s, |rounds|, dispatched) && !Hinted(s, rounds) then [Hint(s.hint)] else []
  }

  function CountsAfter(rounds: seq<Round>): Counts {
    if rounds == [] then map[] else CountAll(CountsAfter(rounds[..|rounds| - 1]), rounds[|rounds| - 1].results)
  }

  predicate Told(s: Script, n: nat) { exists k: nat | k < n :: Delegates(s.streams(k).deltas) }

  function StreamKinds(s: Script, n: nat): seq<EventKind> {
    Emitted(Told(s, n), s.streams(n).deltas, s.delegated)
  }

  /** Everything shown by the time these rounds have finished. */
  function Trace(s: Script, rounds: seq<Round>): seq<EventKind> {
    if rounds == [] then [Thinking, Speaking]
    else
      var front, r := rounds[..|rounds| - 1], rounds[|rounds| - 1];
      Trace(s, front) + StreamKinds(s, |front|) + HintKinds(s, front, r.dispatched) + ResultKinds(r.results)
  }

  /** What the tool loop carries from one model stream to the next. */
  datatype Loop = Loop(
    o: Output, parts: seq<string>, announced: set<string>, hinted: bool,
    counts: Counts, rounds: seq<Round>, messages: seq<Message>)

  /** The conversation well formed, failed tools suppressed for good. */
  ghost predicate LoopInv(l: Loop) {
    && l.messages == Conversation(l.rounds) && l.counts == CountsAfter(l.rounds)
    && (forall k | 0 <= k < |l.rounds| :: Answered(l.rounds[k]))
    && SuppressedForGood(l.rounds) && Remembers(l.counts, l.rounds)
  }

  /** One tool round, from the model's calls to the extended conversation. */
  method ToolRound(s: Script, l: Loop, calls: seq<ToolCall>, ghost kinds: seq<EventKind>)
    returns (l': Loop, ending: Ending)
    requires LoopInv(l) && Shows(l.o, kinds, l.parts) && l.hinted == Hinted(s, l.rounds)
    ensures LoopInv(l') && l'.parts == l.parts && l'.announced == l.announced
    ensures
      var d, next := s.dispatches(|l.rounds|), RoundOf(calls, l.counts, s.dispatches(|l.rounds|).reports);
      if next.dispatched != [] && !d.ending.Completes? then
        && ending == d.ending && l'.rounds == l.rounds
        && Shows(l'.o, kinds + HintKinds(s, l.rounds, next.dispatched), l.parts)
      else
        && ending == Completes && l'.rounds == l.rounds + [next] && l'.hinted == Hinted(s, l'.rounds)
        && Extends(l.messages, l'.messages, next)
        && Shows(l'.o, kinds + HintKinds(s, l.rounds, next.dispatched) + ResultKinds(next.results), l.parts)
  {
    var dispatched, suppressed := Split(calls, l.counts);
    var d := s.dispatches(|l.rounds|);
    var o, hinted := l.o, l.hinted;
    ghost var shown := kinds;
    if dispatched != [] {
      if !hinted && s.hints && d.slow && exists i :: 0 <= i < |dispatched| && dispatched[i].name != DELEGATE {
        hinted := true;
        o := Yield(o, Hint(s.hint), shown, l.parts);
        shown := shown + [Hint(s.hint)];
      }
      assert shown == kinds + HintKinds(s, l.rounds, dispatched);
      if !d.ending.Completes? { return l.(o := o, hinted := hinted), d.ending; }
    }
    assert shown == kinds + HintKinds(s, l.rounds, dispatched);
    var results := MergeResults(calls, Reported(dispatched, d.reports) + suppressed);
    var counts := Recount(l.counts, results);
    var toolMessages;
    o, toolMessages := ReportRound(results, o, shown, l.parts);
    ending := Completes;
    l' := Loop(o, l.parts, l.announced, hinted, counts,
      l.rounds + [Round(calls, dispatched, results)], l.messages + ([Calls(calls)] + toolMessages));
    RoundDone(s, l, calls, d.reports, l');
    ExtendedBy(l.messages, toolMessages, Round(calls, dispatched, results));
  }

  lemma ExtendedBy(before: seq<Message>, messages: seq<Message>, r: Round)
    requires Reports(messages, r.results)
    ensures Extends(before, before + ([Calls(r.calls)] + messages), r)
  {
    var after := before + ([Calls(r.calls)] + messages);
    assert after[|before| + 1..] == messages;
  }

  /** A finished round keeps the loop's invariant. */
  lemma RoundDone(s: Script, l: Loop, calls: seq<ToolCall>, reports: seq<Report>, after: Loop)
    requires LoopInv(l) && l.hinted == Hinted(s, l.rounds)
    requires after.rounds == l.rounds + [RoundOf(calls, l.counts, reports)]
    requires after.counts == CountAll(l.counts, after.rounds[|l.rounds|].results)
    requires after.messages == l.messages + RoundMessages(after.rounds[|l.rounds|])
    requires after.hinted == (l.hinted || HintDue(s, |l.rounds|, after.rounds[|l.rounds|].dispatched))
    ensures LoopInv(after) && after.hinted == Hinted(s, after.rounds)
  {
    RoundAnswered(calls, l.counts, reports);
    RoundKeepsSuppression(l.rounds, l.counts, calls, reports);
    assert after.rounds[..|l.rounds|] == l.rounds;
    if l.hinted {
      var k :| 0 <= k < |l.rounds| && HintDue(s, k, l.rounds[k].dispatched);
      assert HintDue(s, k, after.rounds[k].dispatched);
    }
  }

  // ---- the tool loop -----------------------------------------------------

  /** The n-th model stream asks for a tool round and may have one. */
  predicate Asks(s: Script, n: nat) {
    && s.streams(n).ending.Completes?
    && FinishOf(s.streams(n).deltas) == Some(ToolCalls) && CallsOf(s.streams(n).deltas) != []
    && !s.coordinated && n < s.maxToolIters
  }

  /** The round the n-th stream would get after `rounds`. */
  function NextRound(s: Script, rounds: seq<Round>): Round {
    RoundOf(CallsOf(s.streams(|rounds|).deltas), CountsAfter(rounds), s.dispatches(|rounds|).reports)
  }

  /** The next round is asked for and its dispatch, if it needs one, comes back. */
  predicate Goes(s: Script, rounds: seq<Round>) {
    Asks(s, |rounds|) && (NextRound(s, rounds).dispatched != [] ==> s.dispatches(|rounds|).ending.Completes?)
  }

  /** These are the first rounds of the script. */
  ghost predicate Follows(s: Script, rounds: seq<Round>) {
    forall k | 0 <= k < |rounds| :: Goes(s, rounds[..k]) && rounds[k] == NextRound(s, rounds[..k])
  }

  /** What the stream after the last round shows, and how it leaves the loop. */
  function Closing(s: Script, rounds: seq<Round>): (seq<EventKind>, Ending) {
    var n, stream, shown := |rounds|, s.streams(|rounds|), StreamKinds(s, |rounds|);
    if !stream.ending.Completes? then (shown, stream.ending)
    else if FinishOf(stream.deltas) != Some(ToolCalls) || CallsOf(stream.deltas) == [] then (shown, Completes)
    else if s.coordinated then (shown, Raises)
    else if n >= s.maxToolIters then (shown + [Failure("tool_loop_exceeded")], Completes)
    else (shown + HintKinds(s, rounds, NextRound(s, rounds).dispatched), s.dispatches(n).ending)
  }

  /** One pass of the loop; `more` when it goes round again. */
  method Pass(s: Script, l: Loop) returns (l': Loop, more: bool, ending: Ending)
    requires LoopInv(l) && Shows(l.o, Trace(s, l.rounds), l.parts)
    requires l.hinted == Hinted(s, l.rounds) && l.announced == Announced(Told(s, |l.rounds|), s.delegated)
    ensures LoopInv(l') && more == Goes(s, l.rounds)
    ensures more ==>
      && l'.rounds == l.rounds + [NextRound(s, l.rounds)]
      && Shows(l'.o, Trace(s, l'.rounds), l'.parts)
      && l'.hinted == Hinted(s, l'.rounds) && l'.announced == Announced(Told(s, |l'.rounds|), s.delegated)
    ensures !more ==>
      && l'.rounds == l.rounds && ending == Closing(s, l.rounds).1
      && Shows(l'.o, Trace(s, l.rounds) + Closing(s, l.rounds).0, l'.parts)
  {
    var n := |l.rounds|;
    var stream := s.streams(n);
    ghost var kinds := Trace(s, l.rounds) + StreamKinds(s, n);
    var o, parts, announced, calls, finish :=
      Consume(stream, s.delegated, l.o, l.parts, l.announced, Trace(s, l.rounds), Told(s, n));
    l', more, ending := l.(o := o, parts := parts, announced := announced), false, Completes;
    if !stream.ending.Completes? {
      ending := stream.ending;
    } else if finish == Some(ToolCalls) && calls != [] {
      if s.coordinated {
        ending := Raises;
      } else if n >= s.maxToolIters {
        o := Yield(o, Failure("tool_loop_exceeded"), kinds, parts);
        l' := l'.(o := o);
        Assoc(Trace(s, l.rounds), StreamKinds(s, n), [Failure("tool_loop_exceeded")]);
      } else {
        l', ending := ToolRound(s, l', calls, kinds);
        more := ending.Completes?;
        PassOn(s, l.rounds);
      }
    }
  }

  lemma TraceSnoc(s: Script, rounds: seq<Round>, r: Round)
    ensures Trace(s, rounds + [r]) == Trace(s, rounds) + StreamKinds(s, |rounds|)
      + HintKinds(s, rounds, r.dispatched) + ResultKinds(r.results)
  {
    assert (rounds + [r])[..|rounds|] == rounds;
  }

  lemma ToldSnoc(s: Script, n: nat)
    ensures Told(s, n + 1) == (Told(s, n) || Delegates(s.streams(n).deltas))
  {}

  lemma PassOn(s: Script, rounds: seq<Round>)
    requires Asks(s, |rounds|)
    ensures Trace(s, rounds) + Closing(s, rounds).0
      == Trace(s, rounds) + StreamKinds(s, |rounds|) + HintKinds(s, rounds, NextRound(s, rounds).dispatched)
    ensures
      var next := NextRound(s, rounds);
      Trace(s, rounds + [next]) == Trace(s, rounds) + StreamKinds(s, |rounds|)
        + HintKinds(s, rounds, next.dispatched) + ResultKinds(next.results)
    ensures Told(s, |rounds| + 1) == (Told(s, |rounds|) || Delegates(s.streams(|rounds|).deltas))
  {
    var next := NextRound(s, rounds);
    Assoc(Trace(s, rounds), StreamKinds(s, |rounds|), HintKinds(s, rounds, next.dispatched));
    TraceSnoc(s, rounds, next);
    ToldSnoc(s, |rounds|);
  }

  /** The loop `while True` over model streams, of which it opens `streams`. */
  method ToolLoop(s: Script, o: Output) returns (l: Loop, streams: nat, ending: Ending)
    requires Shows(o, [Thinking, Speaking], [])
    ensures LoopInv(l) && Follows(s, l.rounds) && !Goes(s, l.rounds)
    ensures Shows(l.o, Trace(s, l.rounds) + Closing(s, l.rounds).0, l.parts)
    ensures ending == Closing(s, l.rounds).1 && streams == |l.rounds| + 1
  {
    l := Loop(o, [], {}, false, map[], [], [Compiled]);
    streams, ending := 0, Completes;
    var more := true;
    while more
      invariant LoopInv(l) && Follows(s, l.rounds)
      invariant if more then streams == |l.rounds| else streams == |l.rounds| + 1
      invariant more ==>
        && Shows(l.o, Trace(s, l.rounds), l.parts)
        && l.hinted == Hinted(s, l.rounds) && l.announced == Announced(Told(s, |l.rounds|), s.delegated)
      invariant !more ==>
        && !Goes(s, l.rounds) && ending == Closing(s, l.rounds).1
        && Shows(l.o, Trace(s, l.rounds) + Closing(s, l.rounds).0, l.parts)
      decreases more, s.maxToolIters - |l.rounds|
    {
      ghost var before := l.rounds;
      l, more, ending := Pass(s, l);
      streams := streams + 1;
      if more { FollowsOn(s, before); }
    }
  }

  lemma FollowsOn(s: Script, rounds: seq<Round>)
    requires Follows(s, rounds) && Goes(s, rounds)
    ensures Follows(s, rounds + [NextRound(s, rounds)])
  {
    var all := rounds + [NextRound(s, rounds)];
    forall k | 0 <= k < |all| ensures Goes(s, all[..k]) && all[k] == NextRound(s, all[..k]) {
      assert all[..k] == if k < |rounds| then rounds[..k] else rounds;
    }
  }

  lemma SamePrefix(a: seq<Round>, b: seq<Round>, n: nat)
    requires n < |a| && n < |b| && a[..n] == b[..n] && a[n] == b[n]
    ensures a[..n + 1] == b[..n + 1]
  {
    assert a[..n + 1] == a[..n] + [a[n]] && b[..n + 1] == b[..n] + [b[n]];
  }

  /** A script has one run: the loop's contract leaves no choice of rounds. */
  lemma {:induction false} RunIsDetermined(s: Script, a: seq<Round>, b: seq<Round>, n: nat)
    requires Follows(s, a) && !Goes(s, a) && Follows(s, b) && !Goes(s, b)
    requires n <= |a| && n <= |b| && a[..n] == b[..n]
    ensures a == b
    decreases |a| - n
  {
    if n < |a| && n < |b| {
      SamePrefix(a, b, n);
      RunIsDetermined(s, a, b, n + 1);
    } else {
      assert n == |a| ==> a[..n] == a;
      assert n == |b| ==> b[..n] == b;
    }
  }

  // ---- the end of the turn -----------------------------------------------

  /** `text[: max(0, int(played_chars))]`; everything when no boundary was given. */
  function Heard(text: string, played: Option<int>): string {
    if played.None? then text
    else
      var n := if played.value < 0 then 0 else played.value;
      if n < |text| then text[..n] else text
  }

  datatype Outcome = Outcome(
    status: Status, events: seq<Event>, rounds: seq<Round>, messages: seq<Message>, streams: nat,
    remembered: seq<Entry>)

  function Guarded(s: Script, ended: Ending): Ending {
    if ended.Completes? && s.verdict.Block? then Raises else ended
  }

  function SoftenKinds(s: Script): seq<EventKind> {
    if s.verdict.Soften? then [Text(s.verdict.prefix)] else []
  }

  function ErrorCode(s: Script, ended: Ending): string {
    if ended.Completes? && s.verdict.Block? then "eidolon.guardrail_blocked" else "internal"
  }

  /** How a turn ends whose part before the history write ended so. */
  function LastEnding(s: Script, guarded: Ending): Ending {
    if guarded.Completes? then s.remembering else guarded
  }

  function StatusOf(last: Ending): Status {
    match last
    case Completes => Ok
    case Interrupted => Cancelled
    case Raises => Errored
  }

  /** The event that ends the turn; a cancellation whose write fails ends without one. */
  function LastKinds(s: Script, ended: Ending, last: Ending): seq<EventKind> {
    match last
    case Completes => [Done]
    case Interrupted => if s.cancelWrite then [Failure("eidolon.turn_cancelled")] else []
    case Raises => [Failure(ErrorCode(s, ended))]
  }

  /** The last events of a turn whose loop ended so, and its status. */
  function Finale(s: Script, ended: Ending): (seq<EventKind>, Status) {
    var guarded := Guarded(s, ended);
    var last := LastEnding(s, guarded);
    ((if guarded.Completes? then SoftenKinds(s) else []) + LastKinds(s, ended, last), StatusOf(last))
  }

  /** The whole answer, from what was said: a softened one is streamed text first and kept
      prefix first. */
  ghost predicate Final(s: Script, said: string, kept: string) {
    if s.verdict.Soften? then exists answer :: said == answer + s.verdict.prefix && kept == s.verdict.prefix + answer
    else kept == said
  }

  /** A turn's last history write took effect: the first try, or the one in the clean-up. */
  predicate Wrote(s: Script, status: Status) {
    match status
    case Active => false
    case Ok => true
    case Cancelled => s.cancelWrite || s.lastWrite
    case Errored => s.lastWrite
  }

  /** What the turn leaves in history, from what was said. */
  ghost predicate Stored(s: Script, r: Outcome, ended: Ending, kinds: seq<EventKind>) {
    var said, whole := Said(kinds), Guarded(s, ended).Completes?;
    && !r.status.Active? && |r.remembered| == (if Wrote(s, r.status) then 2 else 1)
    && r.remembered[0] == Entry(Active, "")
    && (Wrote(s, r.status) ==>
        && r.remembered[1].status == r.status
        && match r.status
           case Active => false
           case Ok => Final(s, said, r.remembered[1].answer)
           case Errored => if whole then Final(s, said, r.remembered[1].answer) else r.remembered[1].answer == ""
           case Cancelled =>
             if whole && s.verdict.Soften? then
               exists answer ::
                 said == answer + s.verdict.prefix && r.remembered[1].answer == Heard(answer, s.playedChars)
             else r.remembered[1].answer == Heard(said, s.playedChars))
  }

  /** The output guardrail on a whole answer: a softening prefix is said last, kept first. */
  method GuardOutput(s: Script, o: Output, parts: seq<string>, ghost kinds: seq<EventKind>)
    returns (o': Output, parts': seq<string>, finalText: string)
    requires Shows(o, kinds, parts)
    ensures Shows(o', kinds + SoftenKinds(s), parts')
    ensures finalText == if s.verdict.Soften? then s.verdict.prefix + Joined(parts) else Joined(parts)
    ensures Joined(parts') == if s.verdict.Soften? then Joined(parts) + s.verdict.prefix else Joined(parts)
  {
    o', parts', finalText := o, parts, Joined(parts);
    if s.verdict.Soften? {
      finalText := s.verdict.prefix + finalText;
      o', parts' := Say(o, parts, s.verdict.prefix, kinds);
      JoinedSnoc(parts, s.verdict.prefix);
    } else {
      assert kinds + SoftenKinds(s) == kinds;
    }
  }

  /** The last event and history record; `answer` is what was streamed, `kept` what an
      uncancelled turn would store. */
  method WriteLast(s: Script, ended: Ending, ending: Ending, o: Output, answer: string, kept: string,
                ghost kinds: seq<EventKind>, ghost parts: seq<string>)
    returns (o': Output, status: Status, remembered: seq<Entry>)
    requires Shows(o, kinds, parts)
    ensures status == StatusOf(ending)
    ensures o'.events == Stamped(kinds + LastKinds(s, ended, ending))
    ensures Said(kinds + LastKinds(s, ended, ending)) == Joined(parts)
    ensures remembered == [Entry(Active, "")] +
      if !Wrote(s, status) then []
      else [Entry(status, if ending.Interrupted? then Heard(answer, s.playedChars) else kept)]
  {
    var last, text, wrote := Failure(ErrorCode(s, ended)), kept, s.lastWrite;
    status, o' := Errored, o;
    match ending {
      case Completes => status, last, wrote := Ok, Done, true;
      case Interrupted =>
        status, last, text := Cancelled, Failure("eidolon.turn_cancelled"), Heard(answer, s.playedChars);
        wrote := s.cancelWrite || s.lastWrite;
      case Raises =>
    }
    if !status.Cancelled? || s.cancelWrite {
      o' := Yield(o, last, kinds, parts);
    } else {
      assert kinds + LastKinds(s, ended, ending) == kinds;
    }
    remembered := [Entry(Active, "")] + if wrote then [Entry(status, text)] else [];
  }

  /** The end of the turn: guardrail, history write and the last event. */
  method Conclude(s: Script, l: Loop, streams: nat, ended: Ending, ghost kinds: seq<EventKind>) returns (r: Outcome)
    requires Shows(l.o, kinds, l.parts)
    ensures r.events == Stamped(kinds + Finale(s, ended).0) && r.status == Finale(s, ended).1
    ensures r.rounds == l.rounds && r.messages == l.messages && r.streams == streams
    ensures Stored(s, r, ended, kinds + Finale(s, ended).0)
  {
    var ending := Guarded(s, ended);
    var o, answer, parts, kept := l.o, Joined(l.parts), l.parts, "";
    ghost var softened := if ending.Completes? then SoftenKinds(s) else [];
    assert kinds + [] == kinds;
    if ending.Completes? {
      o, parts, kept := GuardOutput(s, o, parts, kinds);
      ending := s.remembering;
    }
    var status, remembered;
    o, status, remembered := WriteLast(s, ended, ending, o, answer, kept, kinds + softened, parts);
    Assoc(kinds, softened, LastKinds(s, ended, ending));
    r := Outcome(status, o.events, l.rounds, l.messages, streams, remembered);
  }

  /** What is shown before the finale, and how the part before it ended. */
  function Opening(s: Script, rounds: seq<Round>): (seq<EventKind>, Ending) {
    if s.cancelledAtAdmission then ([], Interrupted)
    else if !s.compiling.Completes? then ([Thinking], s.compiling)
    else (Trace(s, rounds) + Closing(s, rounds).0, Closing(s, rounds).1)
  }

  function Shown(s: Script, rounds: seq<Round>): seq<EventKind> {
    Opening(s, rounds).0 + Finale(s, Opening(s, rounds).1).0
  }

  /** A whole turn: its events are numbered without a gap and are the script's trace, the
      conversation stays well formed, the loop is bounded, failed tools stay suppressed and
      history keeps what was said. */
  method Run(s: Script) returns (r: Outcome)
    ensures r.events == Stamped(Shown(s, r.rounds))
    ensures r.status == Finale(s, Opening(s, r.rounds).1).1
    ensures Follows(s, r.rounds)
    ensures if s.cancelledAtAdmission || !s.compiling.Completes? then r.rounds == [] && r.streams == 0
            else !Goes(s, r.rounds) && r.streams == |r.rounds| + 1
    ensures r.messages != [] && r.messages[0] == Compiled
    ensures WellFormed(r.messages[1..]) && Tells(r.messages[1..], r.rounds)
    ensures forall k | 0 <= k < |r.rounds| :: Answered(r.rounds[k])
    ensures SuppressedForGood(r.rounds)
    ensures Stored(s, r, Opening(s, r.rounds).1, Shown(s, r.rounds))
  {
    var l := Loop(SILENT, [], {}, false, map[], [], [Compiled]);
    if s.cancelledAtAdmission { r := Conclude(s, l, 0, Interrupted, []); return; }
    var o := Yield(SILENT, Thinking, [], []);
    if !s.compiling.Completes? { r := Conclude(s, l.(o := o), 0, s.compiling, [Thinking]); return; }
    o := Yield(o, Speaking, [Thinking], []);
    var streams, ending;
    l, streams, ending := ToolLoop(s, o);
    r := Conclude(s, l, streams, ending, Opening(s, l.rounds).0);
    ConversationTells(r.rounds);
    TellsWellFormed(r.messages[1..], r.rounds);
  }

  /** The loop stops only for a reason: the last stream broke off, or did not ask for tools, or
      the turn is coordinated, or all its rounds are used up, or the dispatch broke off. */
  lemma StopsForAReason(s: Script, rounds: seq<Round>)
    requires Follows(s, rounds) && !Goes(s, rounds)
    ensures
      var last := s.streams(|rounds|);
      || !last.ending.Completes? || FinishOf(last.deltas) != Some(ToolCalls) || CallsOf(last.deltas) == []
      || s.coordinated || |rounds| == (if s.maxToolIters < 0 then 0 else s.maxToolIters)
      || !s.dispatches(|rounds|).ending.Completes?
  {
    RoundsBounded(s, rounds);
  }

  /** At most `max_tool_iters` rounds, so at most one model stream more. */
  lemma RoundsBounded(s: Script, rounds: seq<Round>)
    requires Follows(s, rounds)
    ensures |rounds| <= if s.maxToolIters < 0 then 0 else s.maxToolIters
  {
    if rounds != [] {
      var k := |rounds| - 1;
      assert Goes(s, rounds[..k]);
    }
  }

  /** An errored turn keeps an answer exactly when it had one whole, its write before DONE
      raised and the one in the clean-up did not. */
  lemma ErroredKeepsIff(s: Script, r: Outcome, ended: Ending, kinds: seq<EventKind>)
    requires r.status == Errored && Stored(s, r, ended, kinds)
    ensures (exists k :: 0 <= k < |r.remembered| && r.remembered[k].answer != "") <==>
      Guarded(s, ended).Completes? && s.lastWrite && Said(kinds) != ""
  {
    if s.lastWrite && Guarded(s, ended).Completes? { assert |r.remembered[1].answer| == |Said(kinds)|; }
  }

  // ---- softened answers --------------------------------------------------

  function Rep(w: string, n: nat): string { if n == 0 then "" else w + Rep(w, n - 1) }

  lemma {:induction false} RepSum(w: string, m: nat, n: nat)
    ensures Rep(w, m + n) == Rep(w, m) + Rep(w, n)
  {
    if m > 0 { RepSum(w, m - 1, n); }
  }

  /** Both are repetitions of one word. */
  ghost predicate OneWord(a: string, b: string) {
    exists w, m: nat, n: nat :: a == Rep(w, m) && b == Rep(w, n)
  }

  lemma {:induction false} CommutingWords(a: string, b: string) returns (w: string, m: nat, n: nat)
    requires a + b == b + a
    ensures a == Rep(w, m) && b == Rep(w, n)
    decreases |a| + |b|
  {
    if a == "" {
      w, m, n := b, 0, 1;
      assert b == b + Rep(b, 0);
    } else if b == "" {
      w, m, n := a, 1, 0;
      assert a == a + Rep(a, 0);
    } else if |a| <= |b| {
      var c := Peeled(a, b);
      w, m, n := CommutingWords(a, c);
      RepSum(w, m, n);
      n := m + n;
    } else {
      var c := Peeled(b, a);
      w, n, m := CommutingWords(b, c);
      RepSum(w, n, m);
      m := n + m;
    }
  }

  /** The longer of two commuting words begins with the shorter; the rest commutes too. */
  lemma Peeled(a: string, b: string) returns (c: string)
    requires a + b == b + a && |a| <= |b|
    ensures b == a + c && a + c == c + a
  {
    c := b[|a|..];
    assert b == a + c by {
      assert b[..|a|] == (b + a)[..|a|] == (a + b)[..|a|] == a;
    }
    assert a + (a + c) == (a + c) + a;
    assert (a + (a + c))[|a|..] == a + c;
    assert ((a + c) + a)[|a|..] == c + a;
  }

  lemma RepsCommute(w: string, m: nat, n: nat)
    ensures Rep(w, m) + Rep(w, n) == Rep(w, n) + Rep(w, m)
  {
    RepSum(w, m, n);
    RepSum(w, n, m);
  }

  lemma CommuteIff(a: string, b: string)
    ensures a + b == b + a <==> OneWord(a, b)
  {
    if a + b == b + a { var w, m, n := CommutingWords(a, b); }
    if OneWord(a, b) {
      var w, m: nat, n: nat :| a == Rep(w, m) && b == Rep(w, n);
      RepsCommute(w, m, n);
    }
  }

  /** A softened answer is streamed text first and stored prefix first: history keeps it as
      it was said exactly when answer and prefix are repetitions of one word. */
  lemma SoftenedMatchesIff(s: Script, r: Outcome, ended: Ending, kinds: seq<EventKind>, answer: string)
    requires s.verdict.Soften? && r.status == Ok && Stored(s, r, ended, kinds)
    requires Said(kinds) == answer + s.verdict.prefix
    ensures r.remembered[1].answer == Said(kinds) <==> OneWord(answer, s.verdict.prefix)
  {
    var prefix := s.verdict.prefix;
    var a :| Said(kinds) == a + prefix && r.remembered[1].answer == prefix + a;
    assert a == Said(kinds)[..|Said(kinds)| - |prefix|] == answer;
    CommuteIff(answer, prefix);
  }

  /** So it never does when they begin with different characters. */
  lemma SoftenedDiffers(s: Script, r: Outcome, ended: Ending, kinds: seq<EventKind>, answer: string)
    requires s.verdict.Soften? && r.status == Ok && Stored(s, r, ended, kinds)
    requires Said(kinds) == answer + s.verdict.prefix
    requires answer != "" && s.verdict.prefix != "" && answer[0] != s.verdict.prefix[0]
    ensures r.remembered[1].answer != Said(kinds)
  {
    var prefix := s.verdict.prefix;
    var a :| Said(kinds) == a + prefix && r.remembered[1].answer == prefix + a;
    assert a == Said(kinds)[..|Said(kinds)| - |prefix|] == answer;
    assert Said(kinds)[0] == answer[0] && r.remembered[1].answer[0] == prefix[0];
  }
}
