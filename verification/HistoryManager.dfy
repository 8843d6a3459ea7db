/** The history manager object, and the records a turn engine gives it
    (domain/history/manager.py, `_remember_turn` of domain/agent/turn.py). */
module HistoryManagers {
  import opened Basics
  import opened Messages
  import opened Windows
  import opened History
  import opened HistoryReads

  class HistoryManager {
    const windowSize: nat
    const hydrates: bool
    var windows: map<string, seq<Message>>

    constructor (windowSize: nat, hydrates: bool)
      ensures this.windowSize == windowSize && this.hydrates == hydrates && windows == map[]
    {
      this.windowSize, this.hydrates, windows := windowSize, hydrates, map[];
    }

    function Window(conversation: string): seq<Message>
      reads this
    {
      if conversation in windows then windows[conversation] else []
    }

    /** A bounded deque forgets its oldest entry; `append` never sorts. */
    method Append(conversation: string, message: Message)
      modifies this
      ensures windows == old(windows)[conversation := Tail(old(Window(conversation)) + [message], windowSize)]
    {
      var w := Window(conversation);
      if windowSize == 0 {
        w := [];
      } else if |w| < windowSize {
        w := w + [message];
      } else {
        assert Tail(w + [message], windowSize) == w[|w| - windowSize + 1..] + [message];
        w := w[|w| - windowSize + 1..] + [message];
      }
      windows := windows[conversation := w];
    }

    method ReplaceTurn(conversation: string, turn: string, messages: seq<Message>)
      modifies this
      ensures windows == old(windows)[conversation :=
        Replaced(old(Window(conversation)), turn, messages, windowSize)]
    {
      var retained: seq<Message> := [];
      var previous := Window(conversation);
      for i := 0 to |previous|
        invariant retained == Others(previous[..i], turn)
      {
        assert Init(previous[..i + 1]) == previous[..i];
        if previous[i].turnId != Some(turn) { retained := retained + [previous[i]]; }
      }
      assert previous[..|previous|] == previous;
      var merged := MergeTail(retained, messages, windowSize);
      windows := windows[conversation := Tail(merged, windowSize)];
    }

    /** The first lock section: the answer, or how many durable rows to ask for. */
    method ReadCache(conversation: string, window: int, exclude: Option<string>)
      returns (cached: seq<Message>, rowsWanted: Option<int>)
      ensures cached == CachedWindow(Window(conversation), window, exclude)
      ensures rowsWanted == if |cached| >= window || !hydrates then None else Some(RowsWanted(window, exclude))
    {
      cached := CachedWindow(Window(conversation), window, exclude);
      if |cached| >= window || !hydrates { return cached, None; }
      return cached, Some(RowsWanted(window, exclude));
    }

    /** The second lock section, on whatever the cache holds by then. */
    method ReadAgain(conversation: string, window: int, exclude: Option<string>, rows: Option<seq<Message>>)
      returns (r: seq<Message>)
      ensures r == SecondRead(Window(conversation), rows, window, exclude)
    {
      var cached := CachedWindow(Window(conversation), window, exclude);
      if rows.None? { return cached; }
      r := MergeTail(Admitted(rows.value, exclude), cached, window);
    }

    method DropSession(conversation: string)
      modifies this
      ensures windows == old(windows) - {conversation}
    {
      windows := windows - {conversation};
    }
  }

  /** One call of `_remember_turn` that writes: the user text and what was answered so far. */
  datatype Remembered = Remembered(
    turn: string, startedAt: int, text: string, answer: string, answeredAt: int, isPrivate: bool)

  function UserMessage(r: Remembered): Message {
    Message("msg_" + r.turn + "_0", User, r.text, r.startedAt,
      Some(r.turn), Some(0), Some(r.startedAt), r.isPrivate)
  }

  function AnswerMessage(r: Remembered): Message {
    Message("msg_" + r.turn + "_1", Assistant, r.answer, r.answeredAt,
      Some(r.turn), Some(1), Some(r.startedAt), r.isPrivate)
  }

  function ToRecord(r: Remembered): Record {
    Record(r.turn,
      (if r.text != "" then [UserMessage(r)] else []) + (if r.answer != "" then [AnswerMessage(r)] else []))
  }

  function ToRecords(run: seq<Remembered>): seq<Record> {
    if run == [] then [] else ToRecords(run[..|run| - 1]) + [ToRecord(run[|run| - 1])]
  }

  /** Turn ids are non-empty tokens and a turn starts once. */
  ghost predicate TurnsStartOnce(run: seq<Remembered>) {
    && (forall r | r in run :: r.turn != "" && Strip(r.turn) == r.turn)
    && (forall a, b | a in run && b in run && a.turn == b.turn :: a.startedAt == b.startedAt)
  }

  /** No later record of a turn drops its text or its answer. */
  ghost predicate NothingWithdrawn(run: seq<Remembered>) {
    forall i, j :: 0 <= i < j < |run| && run[i].turn == run[j].turn ==>
      (run[i].text != "" ==> run[j].text != "") && (run[i].answer != "" ==> run[j].answer != "")
  }

  lemma {:induction false} WrittenBy(run: seq<Remembered>, m: Message)
    requires m in Written(ToRecords(run))
    ensures exists i :: 0 <= i < |run| && m in ToRecord(run[i]).messages
  {
    var before := run[..|run| - 1];
    var rs := ToRecords(run);
    assert rs[..|rs| - 1] == ToRecords(before);
    if m in Written(ToRecords(before)) {
      WrittenBy(before, m);
      var i :| 0 <= i < |before| && m in ToRecord(before[i]).messages;
      assert m in ToRecord(run[i]).messages;
    } else {
      assert m in ToRecord(run[|run| - 1]).messages;
    }
  }

  lemma SamePart(r: Remembered, q: Remembered, a: Message, b: Message)
    requires a in ToRecord(r).messages && b in ToRecord(q).messages
    requires r.turn != "" && Strip(r.turn) == r.turn && q.turn != "" && Strip(q.turn) == q.turn
    requires r.turn == q.turn ==> r.startedAt == q.startedAt
    ensures StableKey(a) == StableKey(b) <==> SameOrder(a, b)
  {}

  lemma RememberedConsistent(run: seq<Remembered>)
    requires TurnsStartOnce(run)
    ensures Consistent(Written(ToRecords(run)))
  {
    forall a, b | a in Written(ToRecords(run)) && b in Written(ToRecords(run))
      ensures StableKey(a) == StableKey(b) <==> SameOrder(a, b)
    {
      WrittenBy(run, a);
      WrittenBy(run, b);
      var i :| 0 <= i < |run| && a in ToRecord(run[i]).messages;
      var j :| 0 <= j < |run| && b in ToRecord(run[j]).messages;
      assert run[i] in run && run[j] in run;
      SamePart(run[i], run[j], a, b);
    }
  }

  lemma {:induction false} RememberedKeeps(run: seq<Remembered>)
    requires TurnsStartOnce(run) && NothingWithdrawn(run)
    ensures KeepsPositions(ToRecords(run))
  {
    if run != [] {
      var before, r := run[..|run| - 1], run[|run| - 1];
      var rs := ToRecords(run);
      assert rs == ToRecords(before) + [ToRecord(r)];
      assert rs[..|rs| - 1] == ToRecords(before);
      assert TurnsStartOnce(before) by { assert forall x | x in before :: x in run; }
      RememberedKeeps(before);
      LogAfterSorted(ToRecords(before));
      assert r in run;
      forall m | m in Written(ToRecords(before)) && m.turnId == Some(r.turn)
        ensures Has(ToRecord(r).messages, m)
      {
        NewestRecordKeeps(run, m);
      }
    }
  }

  lemma NewestRecordKeeps(run: seq<Remembered>, m: Message)
    requires run != [] && TurnsStartOnce(run) && NothingWithdrawn(run)
    requires m in Written(ToRecords(run[..|run| - 1])) && m.turnId == Some(run[|run| - 1].turn)
    ensures Has(ToRecord(run[|run| - 1]).messages, m)
  {
    WrittenBy(run[..|run| - 1], m);
    var i :| 0 <= i < |run| - 1 && m in ToRecord(run[..|run| - 1][i]).messages;
    assert run[i] in run && run[|run| - 1] in run;
    PositionsKept(run[i], run[|run| - 1], m);
  }

  lemma PositionsKept(earlier: Remembered, later: Remembered, m: Message)
    requires m in ToRecord(earlier).messages
    requires earlier.turn == later.turn && earlier.startedAt == later.startedAt
    requires (earlier.text != "" ==> later.text != "") && (earlier.answer != "" ==> later.answer != "")
    ensures Has(ToRecord(later).messages, m)
  {
    var now := ToRecord(later).messages;
    if m == UserMessage(earlier) {
      assert SameOrder(now[0], m);
    } else {
      assert SameOrder(now[|now| - 1], m);
    }
  }

  /** For every run of turn records that withdraws nothing, the cache is the newest
      `size` entries of everything ever remembered. */
  lemma RememberedCacheIsNewest(run: seq<Remembered>, size: nat)
    requires TurnsStartOnce(run) && NothingWithdrawn(run)
    ensures CacheAfter(ToRecords(run), size) == Tail(LogAfter(ToRecords(run)), size)
  {
    RememberedConsistent(run);
    RememberedKeeps(run);
    CacheIsNewestLog(ToRecords(run), size);
  }

  // ---- reading a turn back -----------------------------------------------

  lemma RecordSorted(r: Remembered)
    ensures Sorted(ToRecord(r).messages) && Fold([], ToRecord(r).messages) == ToRecord(r).messages
    ensures forall m | m in ToRecord(r).messages :: m.turnId == Some(r.turn)
  {
    FoldOfSorted(ToRecord(r).messages);
  }

  /** A record replaces its own turn's messages and no others. */
  lemma RecordReplaces(log: seq<Message>, turn: string, mine: seq<Message>, m: Message)
    requires Sorted(log) && turn != "" && m.turnId.Some?
    requires Sorted(mine) && Fold([], mine) == mine && forall x | x in mine :: x.turnId == Some(turn)
    ensures m in LogReplaced(log, turn, mine) <==> if m.turnId == Some(turn) then m in mine else m in log
  {
    var rest := Others(log, turn);
    FilterSorted(Keep(false, Some(turn)), log);
    FoldIsMerge(rest, mine);
    MergeMembers(rest, mine);
    if Has(mine, m) {
      var i :| 0 <= i < |mine| && SameOrder(mine[i], m);
      assert mine[i] in mine;
    }
  }

  lemma LogGrows(run: seq<Remembered>, m: Message)
    requires run != [] && run[|run| - 1].turn != "" && m.turnId.Some?
    ensures
      var front, r := run[..|run| - 1], run[|run| - 1];
      m in LogAfter(ToRecords(run)) <==>
        if m.turnId == Some(r.turn) then m in ToRecord(r).messages else m in LogAfter(ToRecords(front))
  {
    var front, r, rs := run[..|run| - 1], run[|run| - 1], ToRecords(run);
    assert rs[..|rs| - 1] == ToRecords(front);
    LogAfterSorted(ToRecords(front));
    RecordSorted(r);
    RecordReplaces(LogAfter(ToRecords(front)), r.turn, ToRecord(r).messages, m);
  }

  lemma FrontStartsOnce(run: seq<Remembered>)
    requires run != [] && TurnsStartOnce(run)
    ensures TurnsStartOnce(run[..|run| - 1]) && run[|run| - 1].turn != ""
  {
    assert run[|run| - 1] in run && forall x | x in run[..|run| - 1] :: x in run;
  }

  /** The newest record of its turn. */
  predicate IsNewest(run: seq<Remembered>, k: nat) {
    k < |run| && forall j | k < j < |run| :: run[j].turn != run[k].turn
  }

  /** What the log holds of a turn is its newest record, whatever was written since. */
  lemma {:induction false} NewestRecordStays(run: seq<Remembered>, k: nat, m: Message)
    requires TurnsStartOnce(run) && IsNewest(run, k) && m.turnId == Some(run[k].turn)
    ensures m in LogAfter(ToRecords(run)) <==> m in ToRecord(run[k]).messages
  {
    FrontStartsOnce(run);
    LogGrows(run, m);
    if k < |run| - 1 { NewestRecordStays(run[..|run| - 1], k, m); }
  }

  predicate Says(m: Message, turn: string, role: Role, content: string) {
    m.turnId == Some(turn) && m.role == role && m.content == content
  }

  /** The newest record of a turn reads back its text as the user's message, its answer as
      the assistant's, and nothing else of that turn. */
  lemma TurnReadsBack(run: seq<Remembered>, k: nat, m: Message)
    requires TurnsStartOnce(run) && IsNewest(run, k) && m.turnId == Some(run[k].turn)
    requires m in LogAfter(ToRecords(run))
    ensures
      var r := run[k];
      || (r.text != "" && Says(m, r.turn, User, r.text))
      || (r.answer != "" && Says(m, r.turn, Assistant, r.answer))
  {
    NewestRecordStays(run, k, m);
  }

  /** Neither is missing unless it is empty, and the text comes before the answer. */
  lemma TurnKept(run: seq<Remembered>, k: nat) returns (i: nat, j: nat)
    requires TurnsStartOnce(run) && IsNewest(run, k)
    ensures
      var r, log := run[k], LogAfter(ToRecords(run));
      && (r.text != "" ==> i < |log| && Says(log[i], r.turn, User, r.text))
      && (r.answer != "" ==> j < |log| && Says(log[j], r.turn, Assistant, r.answer))
      && (r.text != "" && r.answer != "" ==> i < j)
  {
    var r, log := run[k], LogAfter(ToRecords(run));
    NewestRecordStays(run, k, UserMessage(r));
    NewestRecordStays(run, k, AnswerMessage(r));
    LogAfterSorted(ToRecords(run));
    i, j := 0, 0;
    if r.text != "" { i :| i < |log| && log[i] == UserMessage(r); }
    if r.answer != "" { j :| j < |log| && log[j] == AnswerMessage(r); }
    if r.text != "" && r.answer != "" { BeforeIsEarlier(log, i, j); }
  }

  lemma BeforeIsEarlier(log: seq<Message>, i: nat, j: nat)
    requires Sorted(log) && i < |log| && j < |log| && Before(log[i], log[j])
    ensures i < j
  {
    OrderExclusive(log[i], log[j]);
  }

  /** A later record that withdraws an answer leaves the window one message short, although
      the log has an older one it had already forgotten. The engine writes such a record only
      when it is cancelled in its wait for a presentation after DONE, which is not modelled. */
  lemma WithdrawnAnswerLeavesGap(b: Remembered, c: Remembered)
    requires TurnsStartOnce([b, c]) && b.startedAt < c.startedAt && b.turn != c.turn
    requires b.text != "" && c.text != "" && c.answer != ""
    ensures
      var log := [UserMessage(b), UserMessage(c), AnswerMessage(c)];
      var withdrawn := ToRecord(c.(answer := "")).messages;
      && Replaced(Tail(log, 2), c.turn, withdrawn, 2) != Tail(LogReplaced(log, c.turn, withdrawn), 2)
  {
    var x, y, z := UserMessage(b), UserMessage(c), AnswerMessage(c);
    assert ToRecord(c.(answer := "")).messages == [y];
    assert b in [b, c] && c in [b, c];
    ThreeApart(b, c);
    WithdrawnGap(x, y, z, c.turn);
  }

  lemma ThreeApart(b: Remembered, c: Remembered)
    requires b.startedAt < c.startedAt && b.turn != c.turn
    requires b.turn != "" && Strip(b.turn) == b.turn && c.turn != "" && Strip(c.turn) == c.turn
    ensures
      var x, y, z := UserMessage(b), UserMessage(c), AnswerMessage(c);
      && Before(x, y) && Before(y, z) && Before(x, z)
      && StableKey(x) != StableKey(y) && StableKey(x) != StableKey(z) && StableKey(y) != StableKey(z)
  {}

  lemma WithdrawnGap(x: Message, y: Message, z: Message, turn: string)
    requires Before(x, y) && Before(y, z) && Before(x, z)
    requires StableKey(x) != StableKey(y) && StableKey(x) != StableKey(z) && StableKey(y) != StableKey(z)
    requires turn != "" && x.turnId != Some(turn) && y.turnId == Some(turn) && z.turnId == Some(turn)
    ensures Replaced(Tail([x, y, z], 2), turn, [y], 2) != Tail(LogReplaced([x, y, z], turn, [y]), 2)
  {
    NotSame(x, y, z);
    ThreeConsistent(x, y, z);
    ReplaceExactIff([x, y, z], 2, turn, [y]);
    TailOfThree(x, y, z);
    FilterSmall(x, y, z, turn);
    OneNewer(x, y);
  }

  lemma NotSame(x: Message, y: Message, z: Message)
    requires Before(x, y) && Before(y, z) && Before(x, z)
    ensures !SameOrder(x, y) && !SameOrder(y, z) && !SameOrder(x, z) && Sorted([x, y, z])
  {
    OrderExclusive(x, y);
    OrderExclusive(y, z);
    OrderExclusive(x, z);
  }

  lemma TailOfThree(x: Message, y: Message, z: Message)
    ensures Tail([x, y, z], 2) == [y, z] && [x, y, z][..1] == [x] && Last([x]) == x
  {}

  lemma OneNewer(x: Message, y: Message)
    requires Before(x, y)
    ensures Fold([], [y]) == [y] && Newer([y], x) == 1
  {
    assert Init([y]) == [];
  }

  lemma ThreeConsistent(x: Message, y: Message, z: Message)
    requires StableKey(x) != StableKey(y) && StableKey(x) != StableKey(z) && StableKey(y) != StableKey(z)
    requires !SameOrder(x, y) && !SameOrder(x, z) && !SameOrder(y, z)
    ensures Consistent([x, y, z] + [y])
  {
    assert forall m | m in [x, y, z] + [y] :: m == x || m == y || m == z;
  }

  lemma FilterSmall(x: Message, y: Message, z: Message, turn: string)
    requires x.turnId != Some(turn) && y.turnId == Some(turn) && z.turnId == Some(turn)
    ensures Others([x], turn) == [x] && Others([y, z], turn) == []
  {
    assert Init([x]) == [] && Init([y, z]) == [y] && Init([y]) == [];
    assert Others([y], turn) == [];
  }
}
