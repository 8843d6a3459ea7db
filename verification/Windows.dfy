/** Windows over a conversation: sequences of messages in strict conversation order.
    `Upsert` is the unbounded last-write-wins log; `Tail` keeps its newest entries. */
module Windows {
  import opened Basics
  import opened Messages

  ghost predicate Sorted(s: seq<Message>) {
    forall i, j :: 0 <= i < j < |s| ==> Before(s[i], s[j])
  }

  function Tail(s: seq<Message>, w: nat): (r: seq<Message>)
    ensures |r| == if |s| <= w then |s| else w
  {
    if |s| <= w then s else s[|s| - w..]
  }

  function Init(s: seq<Message>): seq<Message>
    requires s != []
  {
    s[..|s| - 1]
  }

  function Last(s: seq<Message>): Message
    requires s != []
  {
    s[|s| - 1]
  }

  /** Write one message into a sorted log: replace the entry at its position, or insert it. */
  function Upsert(s: seq<Message>, m: Message): seq<Message> {
    if s == [] then [m]
    else if Before(Last(s), m) then s + [m]
    else if SameOrder(Last(s), m) then Init(s) + [m]
    else Upsert(Init(s), m) + [Last(s)]
  }

  function Fold(s: seq<Message>, writes: seq<Message>): seq<Message> {
    if writes == [] then s else Upsert(Fold(s, Init(writes)), Last(writes))
  }

  /** The merge of two sorted logs; at a shared position the second one wins. */
  function Merge(x: seq<Message>, y: seq<Message>): seq<Message>
    decreases |x| + |y|
  {
    if x == [] then y
    else if y == [] then x
    else if Before(Last(x), Last(y)) then Merge(x, Init(y)) + [Last(y)]
    else if SameOrder(Last(x), Last(y)) then Merge(Init(x), Init(y)) + [Last(y)]
    else Merge(Init(x), y) + [Last(x)]
  }

  ghost predicate Has(s: seq<Message>, m: Message) {
    exists i :: 0 <= i < |s| && SameOrder(s[i], m)
  }

  /** How many entries at the end of a sorted log are newer than `m`. */
  function Newer(s: seq<Message>, m: Message): nat {
    if s != [] && Before(m, Last(s)) then 1 + Newer(Init(s), m) else 0
  }

  function Filter(k: Keep, s: seq<Message>): (r: seq<Message>)
    ensures forall m :: m in r <==> m in s && Keeps(k, m)
    ensures |r| <= |s|
  {
    if s == [] then [] else Filter(k, Init(s)) + if Keeps(k, Last(s)) then [Last(s)] else []
  }

  // ---- Structure ---------------------------------------------------------

  lemma {:induction false} SortedUnique(a: seq<Message>, b: seq<Message>)
    requires Sorted(a) && Sorted(b)
    requires forall m :: m in a <==> m in b
    ensures a == b
  {
    OrderLaws();
    assert a != [] ==> a[0] in b;
    assert b != [] ==> b[0] in a;
    if a != [] {
      assert Last(a) in b && Last(b) in a;
      assert Last(a) == Last(b);
      forall m ensures m in Init(a) <==> m in Init(b) {
        assert m in a <==> m in Init(a) || m == Last(a);
        assert m in b <==> m in Init(b) || m == Last(b);
      }
      SortedUnique(Init(a), Init(b));
    }
  }

  lemma {:induction false} MergeMembers(x: seq<Message>, y: seq<Message>)
    requires Sorted(x) && Sorted(y)
    ensures Sorted(Merge(x, y))
    ensures forall m :: m in Merge(x, y) <==> m in y || (m in x && !Has(y, m))
    decreases |x| + |y|
  {
    OrderLaws();
    if x == [] || y == [] {
    } else {
      var x', y' := LeftRest(x, y), RightRest(x, y);
      MergeStep(x, y);
      MergeMembers(x', y');
      forall m ensures m in Merge(x, y) <==> m in y || (m in x && !Has(y, m)) {
        MergeMember(x, y, m);
      }
      MergeTop(x', y', Top(x, y));
    }
  }

  lemma MergeTop(x: seq<Message>, y: seq<Message>, top: Message)
    requires Sorted(Merge(x, y))
    requires forall m :: m in Merge(x, y) <==> m in y || (m in x && !Has(y, m))
    requires forall m | m in x || m in y :: Before(m, top)
    ensures Sorted(Merge(x, y) + [top])
  {
    var r := Merge(x, y);
    forall i | 0 <= i < |r| ensures Before(r[i], top) { assert r[i] in r; }
  }

  lemma MergeMember(x: seq<Message>, y: seq<Message>, m: Message)
    requires x != [] && y != [] && Sorted(x) && Sorted(y)
    requires
      var x', y' := LeftRest(x, y), RightRest(x, y);
      m in Merge(x', y') <==> m in y' || (m in x' && !Has(y', m))
    ensures m in Merge(x, y) <==> m in y || (m in x && !Has(y, m))
  {
    MergeStep(x, y);
    assert m in x <==> m in Init(x) || m == Last(x);
    assert m in y <==> m in Init(y) || m == Last(y);
    HasSplit(y, m);
    OrderTotal(Last(x), Last(y));
    if Before(Last(x), Last(y)) {
      OrderExclusive(Last(x), Last(y));
      if m in Init(x) { OrderTransitive(m, Last(x), Last(y)); OrderExclusive(m, Last(y)); }
    } else if SameOrder(Last(x), Last(y)) {
      if m in Init(x) { OrderExclusive(m, Last(x)); }
    } else {
      NewestNotIn(y, Last(x));
    }
  }

  lemma NewestNotIn(y: seq<Message>, m: Message)
    requires y != [] && Sorted(y) && Before(Last(y), m)
    ensures !Has(y, m) && m !in y
  {
    OrderExclusive(Last(y), m);
    forall i | 0 <= i < |y| ensures !SameOrder(y[i], m) {
      if i < |y| - 1 {
        OrderTransitive(y[i], Last(y), m);
        OrderExclusive(y[i], m);
      }
    }
  }

  lemma HasSplit(y: seq<Message>, m: Message)
    requires y != []
    ensures Has(y, m) <==> Has(Init(y), m) || SameOrder(Last(y), m)
  {
    if i :| 0 <= i < |y| && SameOrder(y[i], m) {
      if i < |y| - 1 { assert Init(y)[i] == y[i]; }
    }
    if i :| 0 <= i < |Init(y)| && SameOrder(Init(y)[i], m) { assert y[i] == Init(y)[i]; }
    if SameOrder(Last(y), m) { assert SameOrder(y[|y| - 1], m); }
  }

  /** Writing through a merge is writing into its winning side. */
  lemma {:induction false} UpsertMerge(x: seq<Message>, y: seq<Message>, m: Message)
    requires Sorted(x) && Sorted(y)
    ensures Upsert(Merge(x, y), m) == Merge(x, Upsert(y, m))
    decreases |x| + |y|
  {
    OrderLaws();
    var u := Upsert(y, m);
    if x == [] {
    } else if y == [] {
      UpsertOne(x, m);
    } else {
      assert u != [];
      if Before(Last(y), m) {
        assert Init(u) == y && Last(u) == m;
        if Before(Last(x), m) {
          assert Before(Last(Merge(x, y)), m);
        } else if SameOrder(Last(x), m) {
          assert Init(Merge(x, y)) == Merge(Init(x), y);
        } else {
          UpsertMerge(Init(x), y, m);
          assert Init(Merge(x, y)) == Merge(Init(x), y);
        }
      } else if SameOrder(Last(y), m) {
        assert Init(u) == Init(y) && Last(u) == m;
        if Before(Last(y), Last(x)) {
          UpsertMerge(Init(x), y, m);
          assert Init(Merge(x, y)) == Merge(Init(x), y);
        }
      } else {
        assert Init(u) == Upsert(Init(y), m) && Last(u) == Last(y);
        if Before(Last(y), Last(x)) {
          UpsertMerge(Init(x), y, m);
          assert Init(Merge(x, y)) == Merge(Init(x), y);
        } else if SameOrder(Last(x), Last(y)) {
          UpsertMerge(Init(x), Init(y), m);
          assert Init(Merge(x, y)) == Merge(Init(x), Init(y));
        } else {
          UpsertMerge(x, Init(y), m);
          assert Init(Merge(x, y)) == Merge(x, Init(y));
        }
      }
    }
  }

  lemma {:induction false} UpsertOne(x: seq<Message>, m: Message)
    requires Sorted(x)
    ensures Upsert(x, m) == Merge(x, [m])
  {
    OrderLaws();
    if x != [] && Before(m, Last(x)) {
      UpsertOne(Init(x), m);
    } else if x != [] {
      assert Init([m]) == [];
    }
  }

  lemma {:induction false} FoldSorted(ms: seq<Message>)
    ensures Sorted(Fold([], ms))
    ensures forall m :: m in Fold([], ms) ==> m in ms
  {
    if ms != [] {
      FoldSorted(Init(ms));
      UpsertOne(Fold([], Init(ms)), Last(ms));
      MergeMembers(Fold([], Init(ms)), [Last(ms)]);
    }
  }

  /** Any sequence of writes acts like one merge with their own last-write log. */
  lemma {:induction false} FoldIsMerge(s: seq<Message>, ms: seq<Message>)
    requires Sorted(s)
    ensures Fold(s, ms) == Merge(s, Fold([], ms))
  {
    if ms != [] {
      FoldIsMerge(s, Init(ms));
      FoldSorted(Init(ms));
      UpsertMerge(s, Fold([], Init(ms)), Last(ms));
    }
  }

  lemma {:induction false} FoldOfSorted(s: seq<Message>)
    requires Sorted(s)
    ensures Fold([], s) == s
  {
    OrderLaws();
    if s != [] { FoldOfSorted(Init(s)); }
  }

  lemma {:induction false} FoldConcat(s: seq<Message>, a: seq<Message>, b: seq<Message>)
    ensures Fold(s, a + b) == Fold(Fold(s, a), b)
  {
    if b == [] {
      assert a + b == a;
    } else {
      assert Init(a + b) == a + Init(b) && Last(a + b) == Last(b);
      FoldConcat(s, a, Init(b));
      assert Fold(s, a + b) == Upsert(Fold(s, a + Init(b)), Last(b));
    }
  }

  // ---- Truncation --------------------------------------------------------

  /** Truncating before a write never changes the truncated result. */
  lemma {:induction false} TailUpsert(s: seq<Message>, m: Message, w: nat)
    ensures Tail(Upsert(Tail(s, w), m), w) == Tail(Upsert(s, m), w)
  {
    if |s| <= w || w == 0 {
    } else {
      var t := Tail(s, w);
      assert Last(t) == Last(s);
      assert Init(t) == Tail(Init(s), w - 1);
      if !Before(Last(s), m) && !SameOrder(Last(s), m) {
        TailUpsert(Init(s), m, w - 1);
        TailSnoc(Upsert(Init(s), m), Last(s), w);
        TailSnoc(Upsert(Init(t), m), Last(s), w);
      }
    }
  }

  lemma TailSnoc(s: seq<Message>, m: Message, w: nat)
    requires w > 0
    ensures Tail(s + [m], w) == Tail(s, w - 1) + [m]
  {}

  lemma {:induction false} TailFold(s: seq<Message>, ms: seq<Message>, w: nat)
    ensures Tail(Fold(Tail(s, w), ms), w) == Tail(Fold(s, ms), w)
  {
    if ms != [] {
      TailFold(s, Init(ms), w);
      TailUpsert(Fold(Tail(s, w), Init(ms)), Last(ms), w);
      TailUpsert(Fold(s, Init(ms)), Last(ms), w);
    }
  }

  lemma TailInit(y: seq<Message>, k: nat)
    requires |y| > k > 0
    ensures Tail(y, k) != [] && Last(Tail(y, k)) == Last(y) && Init(Tail(y, k)) == Tail(Init(y), k - 1)
  {}

  /** What a merge step leaves of either side. */
  function LeftRest(x: seq<Message>, y: seq<Message>): seq<Message>
    requires x != [] && y != []
  {
    if Before(Last(x), Last(y)) then x else Init(x)
  }

  function RightRest(x: seq<Message>, y: seq<Message>): seq<Message>
    requires x != [] && y != []
  {
    if !Before(Last(x), Last(y)) && !SameOrder(Last(x), Last(y)) then y else Init(y)
  }

  function Top(x: seq<Message>, y: seq<Message>): Message
    requires x != [] && y != []
  {
    if !Before(Last(x), Last(y)) && !SameOrder(Last(x), Last(y)) then Last(x) else Last(y)
  }

  lemma MergeStep(x: seq<Message>, y: seq<Message>)
    requires x != [] && y != []
    ensures Merge(x, y) == Merge(LeftRest(x, y), RightRest(x, y)) + [Top(x, y)]
  {}

  lemma RestOfTail(x: seq<Message>, y: seq<Message>, k: nat)
    requires x != [] && |y| > k > 0
    ensures
      var t, rest := Tail(y, k), RightRest(x, y);
      && Top(x, t) == Top(x, y) && LeftRest(x, t) == LeftRest(x, y)
      && RightRest(x, t) == Tail(rest, if |rest| < |y| then k - 1 else k)
  {
    TailInit(y, k);
  }

  lemma MergeOfTail(x: seq<Message>, y: seq<Message>, k: nat)
    requires x != [] && |y| > k > 0
    ensures
      var x', y' := LeftRest(x, y), RightRest(x, y);
      && Merge(x, y) == Merge(x', y') + [Top(x, y)]
      && Merge(x, Tail(y, k)) == Merge(x', Tail(y', if |y'| < |y| then k - 1 else k)) + [Top(x, y)]
  {
    RestOfTail(x, y, k);
    MergeStep(x, y);
    MergeStep(x, Tail(y, k));
  }

  /** A merge needs only the newest entries of its winning side. */
  lemma {:induction false} TailMerge(x: seq<Message>, y: seq<Message>, k: nat, w: nat)
    requires k >= w
    ensures Tail(Merge(x, Tail(y, k)), w) == Tail(Merge(x, y), w)
    decreases |x| + |y|
  {
    if w > 0 && x != [] && |y| > k {
      var x', y' := LeftRest(x, y), RightRest(x, y);
      var k' := if |y'| < |y| then k - 1 else k;
      MergeOfTail(x, y, k);
      TailMerge(x', y', k', w - 1);
      TailMergeStep(Merge(x', Tail(y', k')), Merge(x', y'), Top(x, y), w);
    }
  }

  lemma TailMergeStep(a: seq<Message>, b: seq<Message>, m: Message, w: nat)
    requires w > 0 && Tail(a, w - 1) == Tail(b, w - 1)
    ensures Tail(a + [m], w) == Tail(b + [m], w)
  {
    TailSnoc(a, m, w);
    TailSnoc(b, m, w);
  }

  lemma TailSnocIff(a: seq<Message>, b: seq<Message>, m: Message, w: nat)
    requires w > 0
    ensures Tail(a + [m], w) == Tail(b + [m], w) <==> Tail(a, w - 1) == Tail(b, w - 1)
  {
    TailSnoc(a, m, w);
    TailSnoc(b, m, w);
    assert Init(Tail(a, w - 1) + [m]) == Tail(a, w - 1) && Init(Tail(b, w - 1) + [m]) == Tail(b, w - 1);
  }

  /** The newest entry of all is in every window. */
  lemma OmitNewest(x: seq<Message>, u: seq<Message>, w: nat)
    requires x != [] && u != [] && w > 0 && Before(Last(u), Last(x))
    ensures Tail(Merge(x, u), w) != Tail(u, w)
  {
    OrderExclusive(Last(u), Last(x));
    TailSnoc(Merge(Init(x), u), Last(x), w);
    assert Last(Tail(Merge(x, u), w)) == Last(x);
    assert Last(Tail(u, w)) == Last(u);
  }

  lemma HasLess(x: seq<Message>, u: seq<Message>)
    requires u != [] && forall m | m in x :: !Has(u, m)
    ensures forall m | m in x :: !Has(Init(u), m)
    ensures Sorted(u) ==> Sorted(Init(u))
  {
    forall m | m in x ensures !Has(Init(u), m) { HasSplit(u, m); }
  }

  lemma OmitNewer(whole: seq<Message>, front: seq<Message>, u: seq<Message>, m: Message, w: nat)
    requires u != [] && w > 0 && Before(m, Last(u)) && whole == front + [Last(u)]
    requires Tail(front, w - 1) == Tail(Init(u), w - 1) <==> Newer(Init(u), m) >= w - 1
    ensures Tail(whole, w) == Tail(u, w) <==> Newer(u, m) >= w
  {
    assert u == Init(u) + [Last(u)];
    TailSnocIff(front, Init(u), Last(u), w);
  }

  /** Older entries `x` can be left out of a window exactly when it is already
      full of entries newer than the newest of them. */
  lemma {:induction false} OmitIff(x: seq<Message>, u: seq<Message>, w: nat)
    requires x != [] && Sorted(x) && Sorted(u)
    requires forall m | m in x :: !Has(u, m)
    ensures Tail(Merge(x, u), w) == Tail(u, w) <==> Newer(u, Last(x)) >= w
  {
    if u != [] && w > 0 {
      assert Last(x) in x;
      HasSplit(u, Last(x));
      OrderTotal(Last(x), Last(u));
      if Before(Last(x), Last(u)) {
        HasLess(x, u);
        OmitIff(x, Init(u), w - 1);
        MergeStep(x, u);
        OmitNewer(Merge(x, u), Merge(x, Init(u)), u, Last(x), w);
      } else {
        OmitNewest(x, u, w);
      }
    }
  }

  // ---- Filters -----------------------------------------------------------

  lemma {:induction false} FilterSorted(k: Keep, s: seq<Message>)
    requires Sorted(s)
    ensures Sorted(Filter(k, s))
  {
    if s != [] {
      FilterSorted(k, Init(s));
      var r := Filter(k, Init(s));
      forall i | 0 <= i < |r| ensures Before(r[i], Last(s)) { assert r[i] in r && r[i] in Init(s); }
    }
  }

  lemma {:induction false} FilterConcat(k: Keep, a: seq<Message>, b: seq<Message>)
    ensures Filter(k, a + b) == Filter(k, a) + Filter(k, b)
  {
    if b == [] {
      assert a + b == a;
    } else {
      FilterConcat(k, a, Init(b));
      FilterConcatStep(k, a, Init(b), Last(b));
      assert b == Init(b) + [Last(b)];
    }
  }

  lemma FilterConcatStep(k: Keep, a: seq<Message>, b: seq<Message>, m: Message)
    requires Filter(k, a + b) == Filter(k, a) + Filter(k, b)
    ensures Filter(k, a + (b + [m])) == Filter(k, a) + Filter(k, b + [m])
  {
    Assoc(a, b, [m]);
    FilterSnoc(k, a + b, m);
    FilterSnoc(k, b, m);
    Assoc(Filter(k, a), Filter(k, b), if Keeps(k, m) then [m] else []);
  }

  lemma FilterSnoc(k: Keep, s: seq<Message>, m: Message)
    ensures Filter(k, s + [m]) == Filter(k, s) + if Keeps(k, m) then [m] else []
  {
    assert Init(s + [m]) == s && Last(s + [m]) == m;
  }

  lemma {:induction false} FilterTwice(k: Keep, l: Keep, both: Keep, s: seq<Message>)
    requires forall m :: Keeps(both, m) <==> Keeps(k, m) && Keeps(l, m)
    ensures Filter(k, Filter(l, s)) == Filter(both, s)
  {
    if s != [] {
      FilterTwice(k, l, both, Init(s));
      FilterConcat(k, Filter(l, Init(s)), if Keeps(l, Last(s)) then [Last(s)] else []);
      assert Init([Last(s)]) == [];
    }
  }

  /** Messages that replace nothing in a window are counted on top of it. */
  lemma {:induction false} NewerMerge(x: seq<Message>, y: seq<Message>, m: Message)
    requires Sorted(x) && Sorted(y)
    requires forall a | a in x :: !Has(y, a) && Before(m, a)
    ensures Newer(Merge(x, y), m) == |x| + Newer(y, m)
    decreases |x| + |y|
  {
    OrderLaws();
    if x == [] {
    } else if y == [] {
      NewerAll(x, m);
    } else {
      assert Last(x) in x;
      HasSplit(y, Last(x));
      if Before(Last(x), Last(y)) {
        forall a | a in x ensures !Has(Init(y), a) { HasSplit(y, a); }
        NewerMerge(x, Init(y), m);
        assert Init(Merge(x, y)) == Merge(x, Init(y));
      } else {
        NewerMerge(Init(x), y, m);
        assert Init(Merge(x, y)) == Merge(Init(x), y);
      }
    }
  }

  lemma {:induction false} NewerAll(x: seq<Message>, m: Message)
    requires forall a | a in x :: Before(m, a)
    ensures Newer(x, m) == |x|
  {
    if x != [] {
      assert Last(x) in x;
      NewerAll(Init(x), m);
    }
  }

  /** A merge has at least as many new entries as either side. */
  lemma {:induction false} NewerGrows(x: seq<Message>, y: seq<Message>, m: Message)
    requires Sorted(x) && Sorted(y)
    ensures Newer(Merge(x, y), m) >= Newer(x, m)
    ensures Newer(Merge(x, y), m) >= Newer(y, m)
    decreases |x| + |y|
  {
    OrderLaws();
    if x != [] && y != [] {
      var x', y' := if Before(Last(x), Last(y)) then x else Init(x),
                    if Before(Last(y), Last(x)) then y else Init(y);
      NewerGrows(x', y', m);
      assert Init(Merge(x, y)) == Merge(x', y');
    }
  }
}
