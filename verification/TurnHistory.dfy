/** The turn engine and the history cache together: every turn writes its record twice at
    most (domain/agent/turn.py, `_remember_turn`), and the turns of a conversation may overlap. */
module TurnHistory {
  import opened Basics
  import opened Messages
  import opened Windows
  import opened History
  import opened HistoryReads
  import opened HistoryManagers
  import T = Turn

  /** A turn of the conversation and what it remembered, as `Turn.Run` leaves it. */
  datatype Played = Played(turn: string, startedAt: int, text: string, isPrivate: bool, entries: seq<T.Entry>)

  ghost predicate IsPlayed(p: Played) {
    && p.turn != "" && Strip(p.turn) == p.turn
    && exists s, r: T.Outcome, ended, kinds :: T.Stored(s, r, ended, kinds) && p.entries == r.remembered
  }

  predicate RecordOf(p: Played, k: nat, r: Remembered) {
    && k < |p.entries| && r.answer == p.entries[k].answer
    && r.turn == p.turn && r.startedAt == p.startedAt && r.text == p.text && r.isPrivate == p.isPrivate
  }

  /** The writes of all turns so far, in any order that keeps each turn's own: the k-th is
      write `which[k]` of turn `who[k]`. */
  ghost predicate Interleaves(run: seq<Remembered>, turns: seq<Played>, who: seq<nat>, which: seq<nat>) {
    && |run| == |who| == |which|
    && (forall i, j | 0 <= i < j < |turns| :: turns[i].turn != turns[j].turn)
    && (forall i | 0 <= i < |turns| :: IsPlayed(turns[i]))
    && (forall k | 0 <= k < |run| :: who[k] < |turns| && RecordOf(turns[who[k]], which[k], run[k]))
    && (forall j, k | 0 <= j < k < |run| && who[j] == who[k] :: which[j] < which[k])
  }

  /** The engine withdraws nothing it remembered: a turn's first record has no answer yet. */
  lemma EngineWithdrawsNothing(run: seq<Remembered>, turns: seq<Played>, who: seq<nat>, which: seq<nat>)
    requires Interleaves(run, turns, who, which)
    ensures TurnsStartOnce(run) && NothingWithdrawn(run)
  {
    forall j, k | 0 <= j < |run| && 0 <= k < |run| && run[j].turn == run[k].turn ensures who[j] == who[k] {
      assert RecordOf(turns[who[j]], which[j], run[j]) && RecordOf(turns[who[k]], which[k], run[k]);
    }
    forall r | r in run ensures r.turn != "" && Strip(r.turn) == r.turn {
      var k :| 0 <= k < |run| && run[k] == r;
      assert RecordOf(turns[who[k]], which[k], run[k]) && IsPlayed(turns[who[k]]);
    }
    forall j, k | 0 <= j < k < |run| && run[j].turn == run[k].turn
      ensures run[j].text == run[k].text && run[j].answer == ""
    {
      assert RecordOf(turns[who[j]], which[j], run[j]) && RecordOf(turns[who[k]], which[k], run[k]);
      assert IsPlayed(turns[who[j]]);
    }
    forall a, b | a in run && b in run && a.turn == b.turn ensures a.startedAt == b.startedAt {
      var j :| 0 <= j < |run| && run[j] == a;
      var k :| 0 <= k < |run| && run[k] == b;
      assert RecordOf(turns[who[j]], which[j], run[j]) && RecordOf(turns[who[k]], which[k], run[k]);
    }
  }

  /** However the writes of overlapping turns interleave, the cache is the newest part of
      the whole log. */
  lemma CacheOfTurns(run: seq<Remembered>, turns: seq<Played>, who: seq<nat>, which: seq<nat>, size: nat)
    requires Interleaves(run, turns, who, which)
    ensures CacheAfter(ToRecords(run), size) == Tail(LogAfter(ToRecords(run)), size)
  {
    EngineWithdrawsNothing(run, turns, who, which);
    RememberedCacheIsNewest(run, size);
  }

  // ---- reading it back ---------------------------------------------------

  /** With no position lost, the log is the last write to each position ever written. */
  lemma {:induction false} LogIsFold(run: seq<Record>)
    requires KeepsPositions(run)
    ensures LogAfter(run) == Fold([], Written(run))
  {
    if run != [] {
      var front, r := run[..|run| - 1], run[|run| - 1];
      LogIsFold(front);
      LogAfterSorted(front);
      RewrittenAnyway(LogAfter(front), r.turn, r.messages);
      FoldConcat([], Written(front), r.messages);
    }
  }

  lemma FromRecord(r: Remembered, m: Message)
    requires m in ToRecord(r).messages
    ensures m.turnId == Some(r.turn) && m.isPrivate == r.isPrivate
    ensures MessageOrder(m) == Order(r.startedAt, r.turn, 0) || MessageOrder(m) == Order(r.startedAt, r.turn, 1)
  {}

  /** Records of one turn agree on all but its answer. */
  lemma SameTurn(run: seq<Remembered>, turns: seq<Played>, who: seq<nat>, which: seq<nat>, i: nat, j: nat)
    requires Interleaves(run, turns, who, which) && i < |run| && j < |run| && run[i].turn == run[j].turn
    ensures run[i].startedAt == run[j].startedAt && run[i].isPrivate == run[j].isPrivate
  {
    assert RecordOf(turns[who[i]], which[i], run[i]) && RecordOf(turns[who[j]], which[j], run[j]);
    assert who[i] == who[j];
  }

  /** Two versions of one position come from one turn. */
  lemma SameTurnWrites(run: seq<Remembered>, turns: seq<Played>, who: seq<nat>, which: seq<nat>, a: Message, b: Message)
    requires Interleaves(run, turns, who, which) && SameOrder(a, b)
    requires a in Written(ToRecords(run)) && b in Written(ToRecords(run))
    ensures a.turnId == b.turnId && a.isPrivate == b.isPrivate
  {
    WrittenBy(run, a);
    WrittenBy(run, b);
    var i :| 0 <= i < |run| && a in ToRecord(run[i]).messages;
    var j :| 0 <= j < |run| && b in ToRecord(run[j]).messages;
    FromRecord(run[i], a);
    FromRecord(run[j], b);
    SameTurn(run, turns, who, which, i, j);
  }

  /** A store of rows that the turns wrote, one a position, with all that the cache forgot. */
  ghost predicate Holds(run: seq<Remembered>, size: nat, store: seq<Message>) {
    && Sorted(store) && (forall r | r in store :: r in Written(ToRecords(run)))
    && (forall m | m in LogAfter(ToRecords(run)) :: m in CacheAfter(ToRecords(run), size) || m in store)
  }

  lemma RowCovered(run: seq<Remembered>, turns: seq<Played>, who: seq<nat>, which: seq<nat>, size: nat,
                   store: seq<Message>, r: Message)
    requires Interleaves(run, turns, who, which) && Holds(run, size, store) && r in store
    requires KeepsPositions(ToRecords(run))
    ensures
      r in LogAfter(ToRecords(run)) || exists m :: m in CacheAfter(ToRecords(run), size) && OlderVersion(r, m)
  {
    var log, written := LogAfter(ToRecords(run)), Written(ToRecords(run));
    LogIsFold(ToRecords(run));
    LogAfterSorted(ToRecords(run));
    var i :| 0 <= i < |written| && written[i] == r;
    assert Has(written, r);
    FoldHas(written, r);
    var k :| 0 <= k < |log| && SameOrder(log[k], r);
    assert log[k] in log;
    if log[k] in store {
      SamePlace(store, log[k], r);
    } else {
      SameTurnWrites(run, turns, who, which, r, log[k]);
      assert OlderVersion(r, log[k]);
    }
  }

  lemma TurnsCovered(run: seq<Remembered>, turns: seq<Played>, who: seq<nat>, which: seq<nat>, size: nat,
                     store: seq<Message>)
    requires Interleaves(run, turns, who, which) && Holds(run, size, store)
    ensures Covers(LogAfter(ToRecords(run)), CacheAfter(ToRecords(run), size), store)
  {
    var log, cache := LogAfter(ToRecords(run)), CacheAfter(ToRecords(run), size);
    EngineWithdrawsNothing(run, turns, who, which);
    RememberedKeeps(run);
    RememberedConsistent(run);
    CacheOfTurns(run, turns, who, which, size);
    LogAfterSorted(ToRecords(run));
    SuffixSorted(log, cache);
    assert forall m | m in store + cache :: m in Written(ToRecords(run));
    ConsistentPart(store + cache, Written(ToRecords(run)));
    forall r | r in store
      ensures r in log || exists m :: m in cache && OlderVersion(r, m)
    {
      RowCovered(run, turns, who, which, size, store, r);
    }
  }

  // ---- at most two rows a turn -------------------------------------------

  lemma {:induction false} FewDropped(s: seq<Message>, k: Keep, orders: set<Order>)
    requires Sorted(s) && forall m | m in s && !Keeps(k, m) :: MessageOrder(m) in orders
    ensures |s| - |Filter(k, s)| <= |orders|
  {
    if s != [] {
      var front, last := Init(s), Last(s);
      assert last in s && forall m | m in front :: m in s;
      if Keeps(k, last) {
        FewDropped(front, k, orders);
      } else {
        forall m | m in front && !Keeps(k, m) ensures MessageOrder(m) in orders - {MessageOrder(last)} {
          var i :| 0 <= i < |front| && front[i] == m;
          OrderExclusive(s[i], last);
        }
        FewDropped(front, k, orders - {MessageOrder(last)});
      }
    }
  }

  /** The rows of one turn, in conversation order, are its input and its answer. */
  lemma TurnRows(run: seq<Remembered>, turns: seq<Played>, who: seq<nat>, which: seq<nat>, turn: string)
    returns (orders: set<Order>)
    requires Interleaves(run, turns, who, which)
    ensures |orders| <= 2
    ensures forall m | m in Written(ToRecords(run)) && m.turnId == Some(turn) :: MessageOrder(m) in orders
  {
    var start := if exists k :: 0 <= k < |run| && run[k].turn == turn then StartOf(run, turn) else 0;
    orders := {Order(start, turn, 0)} + {Order(start, turn, 1)};
    forall m | m in Written(ToRecords(run)) && m.turnId == Some(turn) ensures MessageOrder(m) in orders {
      WrittenBy(run, m);
      var j :| 0 <= j < |run| && m in ToRecord(run[j]).messages;
      FromRecord(run[j], m);
      var k :| 0 <= k < |run| && run[k].turn == turn && start == run[k].startedAt;
      SameTurn(run, turns, who, which, j, k);
    }
  }

  ghost function StartOf(run: seq<Remembered>, turn: string): (start: int)
    requires exists k :: 0 <= k < |run| && run[k].turn == turn
    ensures exists k :: 0 <= k < |run| && run[k].turn == turn && start == run[k].startedAt
  {
    var k :| 0 <= k < |run| && run[k].turn == turn;
    run[k].startedAt
  }

  /** End to end: whatever the turns and their order, a hydrated read of a conversation
      without private rows returns exactly the last `window` messages that are not of the
      excluded turn, if the store holds what the cache forgot. */
  lemma ReadOfTurns(run: seq<Remembered>, turns: seq<Played>, who: seq<nat>, which: seq<nat>, size: nat,
                    store: seq<Message>, window: nat, exclude: Option<string>)
    requires Interleaves(run, turns, who, which) && Holds(run, size, store) && window >= 1
    requires forall r | r in store :: !r.isPrivate
    ensures
      SecondRead(CacheAfter(ToRecords(run), size), Some(Tail(store, RowsWanted(window, exclude))), window, exclude)
      == Answer(LogAfter(ToRecords(run)), window, exclude)
  {
    TurnsCovered(run, turns, who, which, size, store);
    var orders: set<Order> := {};
    if exclude.Some? { orders := TurnRows(run, turns, who, which, exclude.value); }
    FewDropped(store, Keep(false, exclude), orders);
    HydratedExact(LogAfter(ToRecords(run)), CacheAfter(ToRecords(run), size), store, window, exclude);
  }

  /** However the turns overlapped, the log tells each of them by its newest write: what was
      asked in the user's message, and what that write kept in the assistant's. */
  lemma LogTellsTurn(run: seq<Remembered>, turns: seq<Played>, who: seq<nat>, which: seq<nat>, k: nat, m: Message)
    requires Interleaves(run, turns, who, which) && IsNewest(run, k)
    requires m in LogAfter(ToRecords(run)) && m.turnId == Some(run[k].turn)
    ensures
      && who[k] < |turns| && which[k] < |turns[who[k]].entries|
      && var p := turns[who[k]];
      || Says(m, p.turn, User, p.text)
      || Says(m, p.turn, Assistant, p.entries[which[k]].answer)
  {
    EngineWithdrawsNothing(run, turns, who, which);
    assert RecordOf(turns[who[k]], which[k], run[k]);
    TurnReadsBack(run, k, m);
  }
}
