/** Reading a conversation window (domain/history/manager.py, `recent_window`): the cache
    under one lock, the durable rows without it, the cache again under a second lock. */
module HistoryReads {
  import opened Basics
  import opened Messages
  import opened Windows
  import opened History

  function Visible(exclude: Option<string>): Keep { Keep(true, exclude) }

  function CachedWindow(cache: seq<Message>, window: int, exclude: Option<string>): seq<Message> {
    Slice(Filter(Visible(exclude), cache), window)
  }

  function RowsWanted(window: int, exclude: Option<string>): int {
    window + if exclude.Some? then 2 else 0
  }

  /** What the hydrated rows contribute: public ones outside the excluded turn. */
  function Admitted(rows: seq<Message>, exclude: Option<string>): seq<Message> {
    Filter(Keep(false, exclude), Filter(Keep(true, None), rows))
  }

  /** The result after the second lock; `rows` is `None` when the store timed out or failed. */
  function SecondRead(cache: seq<Message>, rows: Option<seq<Message>>, window: int, exclude: Option<string>)
    : seq<Message>
  {
    var cached := CachedWindow(cache, window, exclude);
    if rows.None? then cached else MergeTailOf(Admitted(rows.value, exclude), cached, window)
  }

  /** What a reader is promised: the newest `window` visible messages of the whole log. */
  function Answer(log: seq<Message>, window: nat, exclude: Option<string>): seq<Message> {
    Tail(Filter(Visible(exclude), log), window)
  }

  lemma OnlyThere(log: seq<Message>, i: nat)
    requires Sorted(log) && i < |log|
    ensures log[i] !in log[..i] && log[i] !in log[i + 1..]
  {
    forall j | 0 <= j < |log| && j != i ensures log[j] != log[i] {
      if j < i { OrderExclusive(log[j], log[i]); } else { OrderExclusive(log[i], log[j]); }
    }
  }

  /** The promised answer, message by message: public, not of the excluded turn, and with
      fewer than `window` such messages after it. */
  lemma AnswerMeaning(log: seq<Message>, window: nat, exclude: Option<string>, i: nat)
    requires Sorted(log) && i < |log|
    ensures log[i] in Answer(log, window, exclude) <==>
      && !log[i].isPrivate && (exclude.Some? ==> log[i].turnId != exclude)
      && |Filter(Visible(exclude), log[i + 1..])| < window
  {
    var k, m, a, b := Visible(exclude), log[i], log[..i], log[i + 1..];
    var x, y := Filter(k, a), Filter(k, b);
    assert log == a + [m] + b;
    FilterConcat(k, a + [m], b);
    FilterSnoc(k, a, m);
    OnlyThere(log, i);
    TailHolds(x, if Keeps(k, m) then [m] else [], y, m, window);
  }

  lemma TailHolds(x: seq<Message>, mid: seq<Message>, y: seq<Message>, m: Message, w: nat)
    requires (mid == [m] || mid == []) && m !in x && m !in y
    ensures m in Tail(x + mid + y, w) <==> mid == [m] && |y| < w
  {
    var all := x + mid + y;
    if mid == [m] {
      assert all[|x|] == m;
      assert |y| < w ==> Tail(all, w)[|x| - (|all| - |Tail(all, w)|)] == m;
    }
  }

  /** A cache that is the newest part of the log answers with the end of the answer,
      and with all of it once it has `window` visible messages. */
  lemma CacheAnswers(log: seq<Message>, size: nat, window: nat, exclude: Option<string>)
    requires Sorted(log) && window >= 1
    ensures var cached := CachedWindow(Tail(log, size), window, exclude);
            && cached == Tail(Answer(log, window, exclude), |cached|)
            && (|cached| >= window ==> cached == Answer(log, window, exclude))
  {
    var cache := Tail(log, size);
    var gone := log[..|log| - |cache|];
    assert log == gone + cache;
    FilterConcat(Visible(exclude), gone, cache);
    TailOfEnd(Filter(Visible(exclude), gone), Filter(Visible(exclude), cache), window);
  }

  lemma TailOfEnd(a: seq<Message>, b: seq<Message>, w: nat)
    ensures Tail(b, w) == Tail(Tail(a + b, w), |Tail(b, w)|)
    ensures |Tail(b, w)| >= w ==> Tail(b, w) == Tail(a + b, w)
  {}

  /** A read whose rows did not come, or whose manager asks for none, answers from the cache as
      it is by then: with the end of the promised answer. */
  lemma UnhydratedAnswers(log: seq<Message>, size: nat, window: nat, exclude: Option<string>)
    requires Sorted(log) && window >= 1
    ensures
      var read, answer := SecondRead(Tail(log, size), None, window, exclude), Answer(log, window, exclude);
      && read == Tail(answer, |read|) && (|read| >= window ==> read == answer)
  {
    CacheAnswers(log, size, window, exclude);
  }

  /** Zero is the one window the slice reads backwards: it returns the whole cache. */
  lemma ZeroWindow(cache: seq<Message>, exclude: Option<string>)
    ensures CachedWindow(cache, 0, exclude) == Answer(cache, 0, exclude) <==>
            forall m | m in cache :: !Keeps(Visible(exclude), m)
  {
    var f := Filter(Visible(exclude), cache);
    if f != [] { assert f[0] in f; }
  }

  /** The cache and the store together carry the log: every log message is in one of
      them, and a stored row is the log's own or an older version of a cached message. */
  ghost predicate Covers(log: seq<Message>, cache: seq<Message>, store: seq<Message>) {
    && Sorted(log) && Sorted(cache) && Sorted(store) && Consistent(store + cache)
    && (forall m | m in cache :: m in log)
    && (forall m | m in log :: m in cache || m in store)
    && (forall r | r in store :: r in log || exists m :: m in cache && OlderVersion(r, m))
  }

  predicate OlderVersion(row: Message, m: Message) {
    SameOrder(row, m) && row.isPrivate == m.isPrivate && row.turnId == m.turnId
  }

  ghost function Missing(s: seq<Message>, cached: seq<Message>): (r: seq<Message>)
    ensures forall m :: m in r <==> m in s && !Has(cached, m)
  {
    if s == [] then [] else Missing(Init(s), cached) + if Has(cached, Last(s)) then [] else [Last(s)]
  }

  lemma {:induction false} MissingSorted(s: seq<Message>, cached: seq<Message>)
    requires Sorted(s)
    ensures Sorted(Missing(s, cached))
  {
    if s != [] {
      MissingSorted(Init(s), cached);
      var r := Missing(Init(s), cached);
      forall i | 0 <= i < |r| ensures Before(r[i], Last(s)) { assert r[i] in r && r[i] in Init(s); }
    }
  }

  /** A visible message is in the log exactly when the cache or, failing that, the store has it. */
  lemma StoredOnce(log: seq<Message>, cache: seq<Message>, store: seq<Message>, k: Keep, m: Message)
    requires Covers(log, cache, store)
    ensures
      var x, y := Filter(k, store), Filter(k, cache);
      m in y || (m in x && !Has(y, m)) <==> m in Filter(k, log)
  {
    var y := Filter(k, cache);
    if c :| c in cache && OlderVersion(m, c) && Keeps(k, m) {
      var i :| 0 <= i < |y| && y[i] == c;
      assert SameOrder(y[i], m);
    }
    if m in log && Keeps(k, m) && m !in cache && Has(y, m) {
      var i :| 0 <= i < |y| && SameOrder(y[i], m);
      assert y[i] in y && y[i] in log;
      SamePlace(log, y[i], m);
    }
  }

  /** Stored rows merged under the cache are the log. */
  lemma StoreUnderCache(log: seq<Message>, cache: seq<Message>, store: seq<Message>, k: Keep)
    requires Covers(log, cache, store)
    ensures Merge(Filter(k, store), Filter(k, cache)) == Filter(k, log)
  {
    var x, y := Filter(k, store), Filter(k, cache);
    FilterSorted(k, store);
    FilterSorted(k, cache);
    FilterSorted(k, log);
    MergeMembers(x, y);
    forall m ensures m in Merge(x, y) <==> m in Filter(k, log) { StoredOnce(log, cache, store, k, m); }
    SortedUnique(Merge(x, y), Filter(k, log));
  }

  lemma SamePlace(s: seq<Message>, a: Message, b: Message)
    requires Sorted(s) && a in s && b in s && SameOrder(a, b)
    ensures a == b
  {
    OrderLaws();
    var i :| 0 <= i < |s| && s[i] == a;
    var j :| 0 <= j < |s| && s[j] == b;
    assert !(i < j) && !(j < i);
  }

  /** What the second read returns, in terms of the rows the limit let through. */
  lemma SecondReadMeaning(cache: seq<Message>, rows: seq<Message>, window: nat, exclude: Option<string>)
    requires Sorted(cache) && Sorted(rows) && Consistent(rows + cache) && window >= 1
    ensures var k := Visible(exclude);
            SecondRead(cache, Some(rows), window, exclude) == Tail(Merge(Filter(k, rows), Filter(k, cache)), window)
  {
    var k := Visible(exclude);
    var h, y := Filter(k, rows), Filter(k, cache);
    FilterTwice(Keep(false, exclude), Keep(true, None), k, rows);
    FilterSorted(k, rows);
    FilterSorted(k, cache);
    SuffixSorted(y, Tail(y, window));
    assert forall m | m in h + Tail(y, window) :: m in rows + cache;
    ConsistentPart(h + Tail(y, window), rows + cache);
    MergeTailMeaning(h, Tail(y, window), window);
    FoldConcat([], h, Tail(y, window));
    FoldOfSorted(h);
    FoldOfSorted(Tail(y, window));
    FoldIsMerge(h, Tail(y, window));
    TailMerge(h, y, window, window);
  }

  lemma SecondReadFacts(log: seq<Message>, cache: seq<Message>, store: seq<Message>, rows: seq<Message>,
                        window: nat, exclude: Option<string>)
    requires Covers(log, cache, store) && window >= 1 && exists limit: nat :: rows == Tail(store, limit)
    ensures
      var k := Visible(exclude);
      && SecondRead(cache, Some(rows), window, exclude) == Tail(Merge(Filter(k, rows), Filter(k, cache)), window)
      && Merge(Filter(k, store), Filter(k, cache)) == Filter(k, log)
  {
    SuffixSorted(store, rows);
    assert forall m | m in rows + cache :: m in store + cache;
    ConsistentPart(rows + cache, store + cache);
    SecondReadMeaning(cache, rows, window, exclude);
    StoreUnderCache(log, cache, store, Visible(exclude));
  }

  lemma CutSorted(x: seq<Message>, h: seq<Message>, y: seq<Message>, k: Keep,
                  hidden: seq<Message>, rows: seq<Message>, cache: seq<Message>, store: seq<Message>)
    requires store == hidden + rows && Sorted(store) && Sorted(cache)
    requires x == Filter(k, hidden) && h == Filter(k, rows) && y == Filter(k, cache)
    ensures Sorted(x) && Sorted(h) && Sorted(y) && Sorted(x + h) && Sorted(Missing(x, y)) && Sorted(Merge(h, y))
  {
    SuffixSorted(store, rows);
    FilterSorted(k, hidden);
    FilterSorted(k, rows);
    FilterSorted(k, cache);
    FilterSorted(k, store);
    FilterConcat(k, hidden, rows);
    MissingSorted(x, y);
    MergeMembers(h, y);
  }

  /** The read is the promised answer exactly when the row limit cut off no visible row
      that the cache lacks, or what was read already fills the window with newer ones.
      The cache may have changed since the first lock; only its content now matters. */
  lemma HydratedExactIff(log: seq<Message>, cache: seq<Message>, store: seq<Message>,
                         limit: nat, window: nat, exclude: Option<string>)
    requires Covers(log, cache, store) && window >= 1
    ensures
      var k, rows := Visible(exclude), Tail(store, limit);
      var cut := Missing(Filter(k, store[..|store| - |rows|]), Filter(k, cache));
      SecondRead(cache, Some(rows), window, exclude) == Answer(log, window, exclude) <==>
      (cut == [] || Newer(Merge(Filter(k, rows), Filter(k, cache)), Last(cut)) >= window)
  {
    var k, rows := Visible(exclude), Tail(store, limit);
    var hidden := store[..|store| - |rows|];
    assert store == hidden + rows;
    var x, h, y := Filter(k, hidden), Filter(k, rows), Filter(k, cache);
    var cut := Missing(x, y);
    SecondReadFacts(log, cache, store, rows, window, exclude);
    FilterConcat(k, hidden, rows);
    CutSorted(x, h, y, k, hidden, rows, cache, store);
    CutApart(x, h, y);
    if cut != [] { OmitIff(cut, Merge(h, y), window); }
  }

  lemma CutApart(x: seq<Message>, h: seq<Message>, y: seq<Message>)
    requires Sorted(x + h) && Sorted(x) && Sorted(h) && Sorted(y) && Sorted(Missing(x, y))
    ensures Merge(x + h, y) == Merge(Missing(x, y), Merge(h, y))
    ensures forall m | m in Missing(x, y) :: !Has(Merge(h, y), m)
  {
    var cut := Missing(x, y);
    MergeMembers(x + h, y);
    MergeMembers(h, y);
    forall m | m in cut ensures !Has(Merge(h, y), m) {
      forall i | 0 <= i < |Merge(h, y)| ensures !SameOrder(Merge(h, y)[i], m) {
        var c := Merge(h, y)[i];
        assert c in Merge(h, y);
        if c in y {
          var j :| 0 <= j < |y| && y[j] == c;
        } else {
          Earlier(x, h, m, c);
        }
      }
    }
    MergeMembers(cut, Merge(h, y));
    SortedUnique(Merge(x + h, y), Merge(cut, Merge(h, y)));
  }

  lemma Earlier(x: seq<Message>, h: seq<Message>, a: Message, b: Message)
    requires Sorted(x + h) && a in x && b in h
    ensures Before(a, b) && !SameOrder(b, a)
  {
    OrderLaws();
    var i :| 0 <= i < |x| && x[i] == a;
    var j :| 0 <= j < |h| && h[j] == b;
    assert (x + h)[i] == a && (x + h)[|x| + j] == b;
  }

  /** With no private rows stored, and at most two rows of the excluded turn, the read
      returns exactly the promised window. */
  lemma HydratedExact(log: seq<Message>, cache: seq<Message>, store: seq<Message>,
                      window: nat, exclude: Option<string>)
    requires Covers(log, cache, store) && window >= 1
    requires forall r | r in store :: !r.isPrivate
    requires |Filter(Keep(false, exclude), store)| >= |store| - 2
    ensures SecondRead(cache, Some(Tail(store, RowsWanted(window, exclude))), window, exclude)
         == Answer(log, window, exclude)
  {
    var k, limit := Visible(exclude), RowsWanted(window, exclude);
    var rows := Tail(store, limit);
    var hidden := store[..|store| - |rows|];
    assert store == hidden + rows;
    HydratedExactIff(log, cache, store, limit, window, exclude);
    if hidden != [] {
      EnoughVisible(hidden, rows, window, exclude);
      SuffixSorted(store, rows);
      FilterSorted(k, cache);
      RowsFillWindow(hidden, rows, Filter(k, cache), k, window);
    }
  }

  lemma EnoughVisible(hidden: seq<Message>, rows: seq<Message>, window: nat, exclude: Option<string>)
    requires |rows| == RowsWanted(window, exclude) && forall r | r in rows :: !r.isPrivate
    requires |Filter(Keep(false, exclude), hidden + rows)| >= |hidden + rows| - 2
    ensures |Filter(Visible(exclude), rows)| >= window
  {
    FilterConcat(Keep(false, exclude), hidden, rows);
    PublicFilter(rows, exclude);
  }

  /** `window` visible rows inside the limit outrank every row outside it. */
  lemma RowsFillWindow(hidden: seq<Message>, rows: seq<Message>, cached: seq<Message>, k: Keep, window: nat)
    requires Sorted(hidden + rows) && Sorted(rows) && Sorted(cached)
    requires |Filter(k, rows)| >= window
    ensures var cut := Missing(Filter(k, hidden), cached);
            cut == [] || Newer(Merge(Filter(k, rows), cached), Last(cut)) >= window
  {
    var cut := Missing(Filter(k, hidden), cached);
    if cut != [] {
      assert Last(cut) in cut;
      FilterSorted(k, rows);
      forall b | b in Filter(k, rows) ensures Before(Last(cut), b) { Earlier(hidden, rows, Last(cut), b); }
      NewerAll(Filter(k, rows), Last(cut));
      NewerGrows(Filter(k, rows), cached, Last(cut));
    }
  }

  lemma {:induction false} SameFilter(s: seq<Message>, a: Keep, b: Keep)
    requires forall i | 0 <= i < |s| :: Keeps(a, s[i]) == Keeps(b, s[i])
    ensures Filter(a, s) == Filter(b, s)
  {
    if s != [] { SameFilter(Init(s), a, b); }
  }

  lemma {:induction false} FullFilter(s: seq<Message>, k: Keep)
    requires forall i | 0 <= i < |s| :: Keeps(k, s[i])
    ensures Filter(k, s) == s
  {
    if s != [] {
      FullFilter(Init(s), k);
      FilterSnoc(k, Init(s), Last(s));
      assert s == Init(s) + [Last(s)];
    }
  }

  lemma PublicFilter(s: seq<Message>, exclude: Option<string>)
    requires forall r | r in s :: !r.isPrivate
    ensures Filter(Visible(exclude), s) == Filter(Keep(false, exclude), s)
    ensures exclude.None? ==> Filter(Visible(exclude), s) == s
  {
    SameFilter(s, Visible(exclude), Keep(false, exclude));
    if exclude.None? { FullFilter(s, Visible(exclude)); }
  }

  /** The durable reader limits rows before private ones are dropped: one private row
      can hide an older public message from a cold read. */
  lemma PrivateRowHidesHistory(a: Message, p: Message)
    requires Before(a, p) && !a.isPrivate && p.isPrivate && StableKey(a) != StableKey(p)
    ensures Covers([a, p], [], [a, p])
    ensures SecondRead([], Some(Tail([a, p], RowsWanted(1, None))), 1, None) == []
    ensures Answer([a, p], 1, None) == [a]
  {
    OrderLaws();
    assert Init([a, p]) == [a] && Init([a]) == [] && Init([p]) == [];
    assert Tail([a, p], 1) == [p];
    assert Filter(Keep(true, None), [p]) == [];
    assert Filter(Visible(None), [a]) == [a];
    assert Filter(Visible(None), [a, p]) == [a];
  }
}
