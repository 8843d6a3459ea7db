/** The short-term conversation cache (domain/history/manager.py): a bounded window per
    conversation, rewritten turn by turn and merged with rows read from the durable store. */
module History {
  import opened Basics
  import opened Messages
  import opened Windows

  // ---- _merge_tail -------------------------------------------------------

  /** Write to an insertion-ordered dictionary: a known key keeps its place. */
  function Put(d: seq<Message>, m: Message): seq<Message> {
    if d == [] then [m]
    else if StableKey(d[0]) == StableKey(m) then [m] + d[1..]
    else [d[0]] + Put(d[1..], m)
  }

  function Dict(ms: seq<Message>): seq<Message> {
    if ms == [] then [] else Put(Dict(Init(ms)), Last(ms))
  }

  /** Stable sort by conversation order: an entry goes behind its equals. */
  function Place(s: seq<Message>, m: Message): seq<Message> {
    if s == [] || !Before(m, Last(s)) then s + [m] else Place(Init(s), m) + [Last(s)]
  }

  function StableSort(s: seq<Message>): seq<Message> {
    if s == [] then [] else Place(StableSort(Init(s)), Last(s))
  }

  /** `xs[-window:]`, including what it does for zero and for negative windows. */
  function Slice(s: seq<Message>, window: int): seq<Message> {
    if window > 0 then Tail(s, window)
    else if -window <= |s| then s[-window..]
    else []
  }

  function MergeTailOf(hydrated: seq<Message>, cached: seq<Message>, window: int): seq<Message> {
    Slice(StableSort(Dict(hydrated + cached)), window)
  }

  method MergeTail(hydrated: seq<Message>, cached: seq<Message>, window: int) returns (r: seq<Message>)
    ensures r == MergeTailOf(hydrated, cached, window)
  {
    var byKey: seq<Message> := [];
    var all := hydrated + cached;
    for i := 0 to |all|
      invariant byKey == Dict(all[..i])
    {
      assert Init(all[..i + 1]) == all[..i];
      byKey := Put(byKey, all[i]);
    }
    assert all[..|all|] == all;
    r := Slice(StableSort(byKey), window);
  }

  /** Positions and keys agree: every stored version of a message keeps its place. */
  ghost predicate Consistent(ms: seq<Message>) {
    forall a, b | a in ms && b in ms :: StableKey(a) == StableKey(b) <==> SameOrder(a, b)
  }

  lemma {:induction false} PutMembers(d: seq<Message>, m: Message)
    ensures forall x | x in Put(d, m) :: x in d || x == m
  {
    if d != [] {
      PutMembers(d[1..], m);
      assert d == [d[0]] + d[1..];
    }
  }

  lemma {:induction false} DictMembers(ms: seq<Message>)
    ensures forall x | x in Dict(ms) :: x in ms
  {
    if ms != [] {
      DictMembers(Init(ms));
      PutMembers(Dict(Init(ms)), Last(ms));
    }
  }

  ghost predicate OnePerPosition(s: seq<Message>) {
    forall i, j :: 0 <= i < j < |s| ==> !SameOrder(s[i], s[j])
  }

  lemma UpsertTwice(s: seq<Message>, a: Message, b: Message)
    requires SameOrder(a, b)
    ensures Upsert(Upsert(s, a), b) == Upsert(s, b)
  {
    OrderLaws();
    if s != [] && !Before(Last(s), a) && !SameOrder(Last(s), a) {
      UpsertTwice(Init(s), a, b);
      assert Init(Upsert(Init(s), a) + [Last(s)]) == Upsert(Init(s), a);
    } else if s != [] && SameOrder(Last(s), a) {
      assert Init(Init(s) + [a]) == Init(s);
    } else {
      assert Init(s + [a]) == s;
    }
  }

  lemma {:induction false} UpsertCommutes(s: seq<Message>, a: Message, b: Message)
    requires Sorted(s) && !SameOrder(a, b)
    ensures Upsert(Upsert(s, a), b) == Upsert(Upsert(s, b), a)
  {
    OrderLaws();
    UpsertOne(s, a);
    UpsertOne(s, b);
    UpsertMerge(s, [a], b);
    UpsertMerge(s, [b], a);
    assert Init([a]) == [] && Init([b]) == [];
    assert Upsert([a], b) == Upsert([b], a);
  }

  /** A dictionary write replaces the entry of its key in place, or appends. */
  lemma {:induction false} PutShape(d: seq<Message>, m: Message) returns (i: nat)
    ensures i <= |d|
    ensures i < |d| ==> StableKey(d[i]) == StableKey(m) && Put(d, m) == d[i := m]
    ensures i == |d| ==> Put(d, m) == d + [m] && forall x | x in d :: StableKey(x) != StableKey(m)
  {
    if d == [] || StableKey(d[0]) == StableKey(m) {
      i := 0;
    } else {
      i := PutShape(d[1..], m);
      i := i + 1;
      assert d == [d[0]] + d[1..];
    }
  }

  lemma {:induction false} SortIsFold(d: seq<Message>)
    requires OnePerPosition(d)
    ensures StableSort(d) == Fold([], d)
  {
    if d != [] {
      SortIsFold(Init(d));
      FoldSorted(Init(d));
      PlaceIsUpsert(Fold([], Init(d)), Last(d));
    }
  }

  lemma {:induction false} PlaceIsUpsert(s: seq<Message>, m: Message)
    requires forall x | x in s :: !SameOrder(x, m)
    ensures Place(s, m) == Upsert(s, m)
  {
    OrderLaws();
    if s != [] {
      assert Last(s) in s;
      PlaceIsUpsert(Init(s), m);
    }
  }

  lemma {:induction false} FoldOverwrite(d: seq<Message>, i: nat, m: Message)
    requires i < |d| && SameOrder(d[i], m) && OnePerPosition(d)
    ensures Fold([], d[i := m]) == Upsert(Fold([], d), m)
  {
    var s := Fold([], Init(d));
    if i == |d| - 1 {
      assert Init(d[i := m]) == Init(d);
      UpsertTwice(s, d[i], m);
    } else {
      assert Init(d[i := m]) == Init(d)[i := m];
      FoldOverwrite(Init(d), i, m);
      FoldSorted(Init(d));
      UpsertCommutes(s, m, Last(d));
    }
  }

  lemma PutLast(d: seq<Message>, m: Message)
    requires OnePerPosition(d) && forall j | 0 <= j < |d| :: !SameOrder(d[j], m)
    ensures OnePerPosition(d + [m]) && Fold([], d + [m]) == Upsert(Fold([], d), m)
  {
    assert Init(d + [m]) == d;
  }

  lemma PutOver(d: seq<Message>, i: nat, m: Message)
    requires OnePerPosition(d) && i < |d| && SameOrder(d[i], m)
    ensures OnePerPosition(d[i := m]) && Fold([], d[i := m]) == Upsert(Fold([], d), m)
  {
    FoldOverwrite(d, i, m);
  }

  lemma {:induction false} DictIsFold(ms: seq<Message>)
    requires Consistent(ms)
    ensures OnePerPosition(Dict(ms))
    ensures Fold([], Dict(ms)) == Fold([], ms)
  {
    if ms != [] {
      var d, m := Dict(Init(ms)), Last(ms);
      DictIsFold(Init(ms));
      DictMembers(Init(ms));
      assert m in ms && forall j | 0 <= j < |d| :: d[j] in d && d[j] in ms;
      var i := PutShape(d, m);
      if i == |d| {
        PutLast(d, m);
      } else {
        PutOver(d, i, m);
      }
    }
  }

  /** What `_merge_tail` computes: the newest entries of the last-write-wins log. */
  lemma MergeTailMeaning(hydrated: seq<Message>, cached: seq<Message>, window: nat)
    requires Consistent(hydrated + cached)
    ensures var log := Fold([], hydrated + cached);
            MergeTailOf(hydrated, cached, window) == if window == 0 then log else Tail(log, window)
  {
    DictIsFold(hydrated + cached);
    SortIsFold(Dict(hydrated + cached));
  }

  /** Some write of `m` is the last write to its position. */
  ghost predicate LastWrite(ms: seq<Message>, m: Message) {
    exists i :: 0 <= i < |ms| && ms[i] == m && forall j :: i < j < |ms| ==> !SameOrder(ms[j], m)
  }

  lemma LastWriteSplit(ms: seq<Message>, m: Message)
    requires ms != []
    ensures LastWrite(ms, m) <==> m == Last(ms) || (LastWrite(Init(ms), m) && !SameOrder(Last(ms), m))
  {
    var s := Init(ms);
    if LastWrite(ms, m) && m != Last(ms) {
      var i :| 0 <= i < |ms| && ms[i] == m && forall j :: i < j < |ms| ==> !SameOrder(ms[j], m);
      assert s[i] == m && forall j :: i < j < |s| ==> s[j] == ms[j];
      assert !SameOrder(ms[|s|], m);
    }
    if m == Last(ms) {
      assert ms[|ms| - 1] == m;
    } else if LastWrite(s, m) && !SameOrder(Last(ms), m) {
      var i :| 0 <= i < |s| && s[i] == m && forall j :: i < j < |s| ==> !SameOrder(s[j], m);
      assert ms[i] == m && forall j :: i < j < |s| ==> s[j] == ms[j];
    }
  }

  /** The log holds exactly the last write to each position, in order, once. */
  lemma {:induction false} FoldMeaning(ms: seq<Message>, m: Message)
    ensures Sorted(Fold([], ms))
    ensures m in Fold([], ms) <==> LastWrite(ms, m)
  {
    FoldSorted(ms);
    if ms != [] {
      var s, l := Init(ms), Last(ms);
      FoldMeaning(s, m);
      LastWriteSplit(ms, m);
      UpsertOne(Fold([], s), l);
      MergeMembers(Fold([], s), [l]);
      HasSplit([l], m);
      assert Init([l]) == [];
    }
  }

  /** Truncating early never loses the answer, for every window size. */
  lemma TruncateEarly(a: seq<Message>, b: seq<Message>, c: seq<Message>, window: nat)
    requires Consistent(a + b + c)
    ensures MergeTailOf(MergeTailOf(a, b, window), c, window) == MergeTailOf(a + b, c, window)
  {
    var log := Fold([], a + b);
    var early := if window == 0 then log else Tail(log, window);
    FoldSorted(a + b);
    SuffixSorted(log, early);
    FoldOfSorted(early);
    ConsistentPart(a + b, a + b + c);
    MergeTailMeaning(a, b, window);
    ConsistentPart(early + c, a + b + c);
    MergeTailMeaning(early, c, window);
    MergeTailMeaning(a + b, c, window);
    FoldConcat([], early, c);
    FoldConcat([], a + b, c);
    if window > 0 { TailFold(log, c, window); }
  }

  lemma ConsistentPart(part: seq<Message>, whole: seq<Message>)
    requires Consistent(whole) && forall m | m in part :: m in whole
    ensures Consistent(part)
  {}

  lemma SuffixSorted(log: seq<Message>, s: seq<Message>)
    requires Sorted(log) && |s| <= |log| && s == log[|log| - |s|..]
    ensures Sorted(s)
  {}

  // ---- replace_turn ------------------------------------------------------

  function Others(s: seq<Message>, turn: string): seq<Message> {
    Filter(Keep(false, Some(turn)), s)
  }

  /** `replace_turn` on one window: the deque keeps the last `size` entries. */
  function Replaced(window: seq<Message>, turn: string, messages: seq<Message>, size: nat): seq<Message> {
    Tail(MergeTailOf(Others(window, turn), messages, size), size)
  }

  /** The same update of a log that never forgets. */
  function LogReplaced(log: seq<Message>, turn: string, messages: seq<Message>): seq<Message> {
    Fold(Others(log, turn), messages)
  }

  ghost predicate OfTurn(turn: string, messages: seq<Message>) {
    turn != "" && forall m | m in messages :: m.turnId == Some(turn)
  }

  lemma ReplacedMeaning(window: seq<Message>, turn: string, messages: seq<Message>, size: nat)
    requires Sorted(window) && Consistent(window + messages)
    ensures Replaced(window, turn, messages, size) == Tail(LogReplaced(window, turn, messages), size)
  {
    var rest := Others(window, turn);
    assert forall m | m in rest + messages :: m in window + messages;
    MergeTailMeaning(rest, messages, size);
    FilterSorted(Keep(false, Some(turn)), window);
    FoldConcat([], rest, messages);
    FoldOfSorted(rest);
  }

  lemma OthersApart(s: seq<Message>, turn: string, messages: seq<Message>)
    requires OfTurn(turn, messages)
    ensures forall m | m in Others(s, turn) :: !Has(messages, m)
    ensures forall m | m in Others(s, turn) :: !Has(Fold([], messages), m)
  {
    FoldSorted(messages);
    forall m | m in Others(s, turn) ensures !Has(messages, m) && !Has(Fold([], messages), m) {
      assert m.turnId != Some(turn);
      if i :| 0 <= i < |Fold([], messages)| && SameOrder(Fold([], messages)[i], m) {
        assert Fold([], messages)[i] in messages;
      }
    }
  }

  /** A window that holds the newest `size` entries of the log still does after an
      update of one turn exactly when no other turn's message has been forgotten, or
      the window is full of entries newer than the newest forgotten one. */
  lemma ReplaceExactIff(log: seq<Message>, size: nat, turn: string, messages: seq<Message>)
    requires Sorted(log) && Consistent(log + messages) && OfTurn(turn, messages)
    ensures
      var window := Tail(log, size);
      var forgotten := Others(log[..|log| - |window|], turn);
      Replaced(window, turn, messages, size) == Tail(LogReplaced(log, turn, messages), size) <==>
      (forgotten == [] || |Others(window, turn)| + Newer(Fold([], messages), Last(forgotten)) >= size)
  {
    var window := Tail(log, size);
    var gone := log[..|log| - |window|];
    assert log == gone + window;
    var x, y, z := Others(gone, turn), Others(window, turn), Fold([], messages);
    var k := Keep(false, Some(turn));
    FilterConcat(k, gone, window);
    FilterSorted(k, log);
    FilterSorted(k, gone);
    FilterSorted(k, window);
    assert forall m | m in window + messages :: m in log + messages;
    ConsistentPart(window + messages, log + messages);
    ReplacedMeaning(window, turn, messages, size);
    FoldIsMerge(y, messages);
    FoldIsMerge(x + y, messages);
    FoldSorted(messages);
    if x != [] {
      OthersApart(log, turn, messages);
      ForgottenIff(x, y, z, size);
    } else {
      assert x + y == y;
    }
  }

  lemma ForgottenApart(x: seq<Message>, y: seq<Message>, z: seq<Message>)
    requires x != [] && Sorted(x + y) && Sorted(z)
    requires forall m | m in x + y :: !Has(z, m)
    ensures Sorted(x) && Sorted(y)
    ensures forall m | m in x :: !Has(Merge(y, z), m)
    ensures forall m | m in y :: Before(Last(x), m)
  {
    OrderLaws();
    SuffixSorted(x + y, y);
    assert forall i :: 0 <= i < |x| ==> (x + y)[i] == x[i];
    forall m, c | m in x && c in y ensures Before(m, c) {
      var i :| 0 <= i < |x| && x[i] == m;
      var j :| 0 <= j < |y| && y[j] == c;
      assert (x + y)[i] == m && (x + y)[|x| + j] == c;
    }
    assert Last(x) in x;
    MergeMembers(y, z);
    forall m | m in x ensures !Has(Merge(y, z), m) { NotInMerge(y, z, m); }
  }

  /** When the forgotten entries `x` do not matter to a window of the rest. */
  lemma ForgottenIff(x: seq<Message>, y: seq<Message>, z: seq<Message>, w: nat)
    requires x != [] && Sorted(x + y) && Sorted(z)
    requires forall m | m in x + y :: !Has(z, m)
    ensures Tail(Merge(y, z), w) == Tail(Merge(x + y, z), w) <==> |y| + Newer(z, Last(x)) >= w
  {
    ForgottenApart(x, y, z);
    MergeMembers(y, z);
    MergeInFront(x, y, z);
    OmitIff(x, Merge(y, z), w);
    NewerMerge(y, z, Last(x));
  }

  lemma NotInMerge(y: seq<Message>, z: seq<Message>, m: Message)
    requires forall c | c in Merge(y, z) :: c in y || c in z
    requires !Has(z, m) && forall c | c in y :: Before(m, c)
    ensures !Has(Merge(y, z), m)
  {
    OrderLaws();
    forall k | 0 <= k < |Merge(y, z)| ensures !SameOrder(Merge(y, z)[k], m) {
      assert Merge(y, z)[k] in Merge(y, z);
    }
  }

  lemma MergeInFront(x: seq<Message>, y: seq<Message>, z: seq<Message>)
    requires Sorted(x + y) && Sorted(x) && Sorted(y) && Sorted(z)
    requires forall m | m in x :: !Has(Merge(y, z), m)
    requires forall m | m in x + y :: !Has(z, m)
    ensures Merge(x + y, z) == Merge(x, Merge(y, z))
  {
    MergeMembers(x + y, z);
    MergeMembers(y, z);
    MergeMembers(x, Merge(y, z));
    SortedUnique(Merge(x + y, z), Merge(x, Merge(y, z)));
  }

  /** One call of `replace_turn`. */
  datatype Record = Record(turn: string, messages: seq<Message>)

  function LogAfter(run: seq<Record>): seq<Message> {
    if run == [] then []
    else LogReplaced(LogAfter(run[..|run| - 1]), run[|run| - 1].turn, run[|run| - 1].messages)
  }

  function CacheAfter(run: seq<Record>, size: nat): seq<Message> {
    if run == [] then []
    else Replaced(CacheAfter(run[..|run| - 1], size), run[|run| - 1].turn, run[|run| - 1].messages, size)
  }

  function Written(run: seq<Record>): seq<Message> {
    if run == [] then [] else Written(run[..|run| - 1]) + run[|run| - 1].messages
  }

  /** Every record carries its own turn's messages and all positions the turn already has. */
  ghost predicate KeepsPositions(run: seq<Record>) {
    run != [] ==>
      var r := run[|run| - 1];
      && KeepsPositions(run[..|run| - 1])
      && OfTurn(r.turn, r.messages)
      && forall m | m in LogAfter(run[..|run| - 1]) && m.turnId == Some(r.turn) :: Has(r.messages, m)
  }

  lemma {:induction false} LogAfterSorted(run: seq<Record>)
    ensures Sorted(LogAfter(run))
    ensures forall m | m in LogAfter(run) :: m in Written(run)
  {
    if run != [] {
      var r, log := run[|run| - 1], LogAfter(run[..|run| - 1]);
      LogAfterSorted(run[..|run| - 1]);
      FilterSorted(Keep(false, Some(r.turn)), log);
      FoldIsMerge(Others(log, r.turn), r.messages);
      FoldSorted(r.messages);
      MergeMembers(Others(log, r.turn), Fold([], r.messages));
    }
  }

  /** Removing entries that the record writes again makes no difference. */
  lemma RewrittenAnyway(s: seq<Message>, turn: string, messages: seq<Message>)
    requires Sorted(s) && OfTurn(turn, messages)
    requires forall m | m in s && m.turnId == Some(turn) :: Has(messages, m)
    ensures Fold(Others(s, turn), messages) == Fold(s, messages)
  {
    var rest, z := Others(s, turn), Fold([], messages);
    FilterSorted(Keep(false, Some(turn)), s);
    FoldIsMerge(rest, messages);
    FoldIsMerge(s, messages);
    FoldSorted(messages);
    MergeMembers(rest, z);
    MergeMembers(s, z);
    forall m | m in s && m.turnId == Some(turn) ensures Has(z, m) { FoldHas(messages, m); }
    SortedUnique(Merge(rest, z), Merge(s, z));
  }

  lemma {:induction false} FoldHas(ms: seq<Message>, m: Message)
    requires Has(ms, m)
    ensures Has(Fold([], ms), m)
  {
    var s, l := Init(ms), Last(ms);
    HasSplit(ms, m);
    FoldSorted(s);
    UpsertOne(Fold([], s), l);
    MergeMembers(Fold([], s), [l]);
    var log := Fold([], ms);
    var x := l;
    if !SameOrder(l, m) {
      FoldHas(s, m);
      var i :| 0 <= i < |Fold([], s)| && SameOrder(Fold([], s)[i], m);
      x := Fold([], s)[i];
      HasSplit([l], x);
      assert Init([l]) == [];
    }
    assert x in log;
    var k :| 0 <= k < |log| && log[k] == x;
  }

  /** Over every run whose records keep their turn's positions, the cache is exactly
      the newest `size` entries of the unbounded log: sorted, no key twice. */
  lemma {:induction false} CacheIsNewestLog(run: seq<Record>, size: nat)
    requires KeepsPositions(run) && Consistent(Written(run))
    ensures CacheAfter(run, size) == Tail(LogAfter(run), size)
    ensures Sorted(CacheAfter(run, size))
    ensures var c := CacheAfter(run, size); forall i, j :: 0 <= i < j < |c| ==> StableKey(c[i]) != StableKey(c[j])
  {
    LogAfterSorted(run);
    if run != [] {
      var before, r := run[..|run| - 1], run[|run| - 1];
      var log, cache := LogAfter(before), CacheAfter(before, size);
      assert forall m | m in Written(before) :: m in Written(run);
      CacheIsNewestLog(before, size);
      LogAfterSorted(before);
      assert Consistent(cache + r.messages) by {
        forall m | m in cache + r.messages ensures m in Written(run) { if m in cache { assert m in log; } }
      }
      ReplacedMeaning(cache, r.turn, r.messages, size);
      RewrittenAnyway(log, r.turn, r.messages);
      RewrittenAnyway(cache, r.turn, r.messages);
      TailFold(log, r.messages, size);
    }
    DistinctKeys(run, size);
  }

  lemma KeysApart(ms: seq<Message>, a: Message, b: Message)
    requires Consistent(ms) && a in ms && b in ms && Before(a, b)
    ensures StableKey(a) != StableKey(b)
  {
    OrderExclusive(a, b);
  }

  lemma DistinctKeys(run: seq<Record>, size: nat)
    requires CacheAfter(run, size) == Tail(LogAfter(run), size) && Consistent(Written(run))
    ensures Sorted(CacheAfter(run, size))
    ensures var c := CacheAfter(run, size); forall i, j :: 0 <= i < j < |c| ==> StableKey(c[i]) != StableKey(c[j])
  {
    LogAfterSorted(run);
    DistinctIn(CacheAfter(run, size), LogAfter(run), size, Written(run));
  }

  lemma DistinctIn(c: seq<Message>, log: seq<Message>, size: nat, written: seq<Message>)
    requires c == Tail(log, size) && Sorted(log) && Consistent(written) && forall m | m in log :: m in written
    ensures Sorted(c)
    ensures forall i, j :: 0 <= i < j < |c| ==> StableKey(c[i]) != StableKey(c[j])
  {
    SuffixSorted(log, c);
    forall i, j | 0 <= i < j < |c| ensures StableKey(c[i]) != StableKey(c[j]) {
      assert c[i] in log && c[j] in log;
      KeysApart(written, c[i], c[j]);
    }
  }
}
