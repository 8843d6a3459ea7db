/** The token budget of a prompt (domain/context/types.py): mandatory segments first,
    then optional ones greedily by priority. A segment is identified by its index. */
module Budget {

  datatype Kind =
    | Persona | HarnessPolicy | ResponsePolicy | PersonaState | Realtime | Memory
    | Commitment | Summary | History | Coordination | CurrentUser

  datatype Segment = Segment(kind: Kind, tokens: nat, priority: int, droppable: bool)

  predicate Mandatory(s: Segment) {
    s.kind.Persona? || s.kind.HarnessPolicy? || s.kind.CurrentUser? || !s.droppable
  }

  /** The sort key `(-priority, index)`. */
  predicate Ahead(segs: seq<Segment>, i: nat, j: nat) {
    && i < |segs| && j < |segs|
    && (segs[i].priority > segs[j].priority || (segs[i].priority == segs[j].priority && i < j))
  }

  ghost predicate InRankOrder(segs: seq<Segment>, ids: seq<nat>) {
    forall p, q :: 0 <= p < q < |ids| ==> Ahead(segs, ids[p], ids[q])
  }

  /** The tokens of the chosen segments among the first `n`. */
  function Tokens(segs: seq<Segment>, chosen: set<nat>, n: nat): nat
    requires n <= |segs|
  {
    if n == 0 then 0
    else Tokens(segs, chosen, n - 1) + if n - 1 in chosen then segs[n - 1].tokens else 0
  }

  function MandatoryIds(segs: seq<Segment>): set<nat> {
    set i: nat | i < |segs| && Mandatory(segs[i])
  }

  /** What is already spent when the greedy pass reaches `i`. */
  function Served(segs: seq<Segment>, kept: set<nat>, i: nat): set<nat> {
    set j: nat | j in kept && j < |segs| && (Mandatory(segs[j]) || Ahead(segs, j, i))
  }

  predicate Fits(segs: seq<Segment>, kept: set<nat>, budget: nat, i: nat)
    requires i < |segs|
  {
    Tokens(segs, Served(segs, kept, i), |segs|) + segs[i].tokens <= budget
  }

  /** The defining property of an allocation, independent of how it is computed: every
      mandatory segment is kept, and an optional one exactly when it fits behind the
      mandatory ones and the kept ones that outrank it. */
  ghost predicate IsAllocation(segs: seq<Segment>, budget: nat, kept: set<nat>) {
    && (forall i | i in kept :: i < |segs|)
    && (forall i | 0 <= i < |segs| :: i in kept <==> Mandatory(segs[i]) || Fits(segs, kept, budget, i))
  }

  // ---- Sums --------------------------------------------------------------

  lemma {:induction false} TokensSame(segs: seq<Segment>, a: set<nat>, b: set<nat>, n: nat)
    requires n <= |segs| && forall i: nat | i < n :: i in a <==> i in b
    ensures Tokens(segs, a, n) == Tokens(segs, b, n)
  {
    if n > 0 { TokensSame(segs, a, b, n - 1); }
  }

  lemma {:induction false} TokensAdd(segs: seq<Segment>, a: set<nat>, i: nat, n: nat)
    requires i < n <= |segs| && i !in a
    ensures Tokens(segs, a + {i}, n) == Tokens(segs, a, n) + segs[i].tokens
  {
    if n - 1 == i {
      TokensSame(segs, a, a + {i}, n - 1);
    } else {
      TokensAdd(segs, a, i, n - 1);
    }
  }

  lemma {:induction false} TokensMonotone(segs: seq<Segment>, a: set<nat>, b: set<nat>, n: nat)
    requires n <= |segs| && a <= b
    ensures Tokens(segs, a, n) <= Tokens(segs, b, n)
  {
    if n > 0 { TokensMonotone(segs, a, b, n - 1); }
  }

  // ---- Ranking -----------------------------------------------------------

  function Insert(segs: seq<Segment>, ranked: seq<nat>, i: nat): seq<nat> {
    if ranked == [] || !Ahead(segs, i, ranked[|ranked| - 1]) then ranked + [i]
    else Insert(segs, ranked[..|ranked| - 1], i) + [ranked[|ranked| - 1]]
  }

  ghost predicate RankedUpTo(segs: seq<Segment>, ranked: seq<nat>, n: nat) {
    && (forall p | 0 <= p < |ranked| :: ranked[p] < n && ranked[p] < |segs|)
    && (forall j: nat :: j in ranked <==> j < n && j < |segs| && !Mandatory(segs[j]))
    && InRankOrder(segs, ranked)
  }

  lemma {:induction false} InsertRanks(segs: seq<Segment>, ranked: seq<nat>, i: nat)
    requires i < |segs| && (forall p | 0 <= p < |ranked| :: ranked[p] < i)
    requires InRankOrder(segs, ranked)
    ensures var r := Insert(segs, ranked, i);
            && (forall j :: j in r <==> j in ranked || j == i)
            && InRankOrder(segs, r)
  {
    var r := Insert(segs, ranked, i);
    if ranked != [] {
      var front, top := ranked[..|ranked| - 1], ranked[|ranked| - 1];
      assert ranked == front + [top];
      if Ahead(segs, i, top) {
        InsertRanks(segs, front, i);
        var s := Insert(segs, front, i);
        assert r == s + [top];
        forall p | 0 <= p < |s| ensures Ahead(segs, s[p], top) {
          assert s[p] in s;
          if s[p] in front { var q :| 0 <= q < |front| && ranked[q] == s[p]; }
        }
      } else {
        forall p | 0 <= p < |ranked| ensures Ahead(segs, ranked[p], i) {
          if p < |front| { assert Ahead(segs, ranked[p], ranked[|front|]); }
        }
      }
    }
  }

  /** `sorted` by the key. */
  function Ranked(segs: seq<Segment>, n: nat): seq<nat>
    requires n <= |segs|
  {
    if n == 0 then []
    else if Mandatory(segs[n - 1]) then Ranked(segs, n - 1)
    else Insert(segs, Ranked(segs, n - 1), n - 1)
  }

  /** The optional segments, each ahead of the next. */
  lemma {:induction false} RankedMeaning(segs: seq<Segment>, n: nat)
    requires n <= |segs|
    ensures RankedUpTo(segs, Ranked(segs, n), n)
  {
    if n > 0 {
      RankedMeaning(segs, n - 1);
      if !Mandatory(segs[n - 1]) { RankOne(segs, Ranked(segs, n - 1), n - 1); }
    }
  }

  lemma RankOne(segs: seq<Segment>, ranked: seq<nat>, i: nat)
    requires i < |segs| && !Mandatory(segs[i]) && RankedUpTo(segs, ranked, i)
    ensures RankedUpTo(segs, Insert(segs, ranked, i), i + 1)
  {
    InsertRanks(segs, ranked, i);
    var r := Insert(segs, ranked, i);
    assert forall p | 0 <= p < |r| :: r[p] in r;
  }

  // ---- prune -------------------------------------------------------------

  datatype Ledger = Ledger(kept: seq<nat>, dropped: seq<nat>, overflow: nat)

  function Ids(s: seq<nat>): set<nat> { set i | i in s }

  method Prune(segs: seq<Segment>, budget: nat) returns (ledger: Ledger)
    ensures IsAllocation(segs, budget, Ids(ledger.kept))
    ensures forall p, q :: 0 <= p < q < |ledger.kept| ==> ledger.kept[p] < ledger.kept[q]
    ensures forall i: nat :: i in ledger.dropped <==> i < |segs| && i !in ledger.kept
    ensures InRankOrder(segs, ledger.dropped)
    ensures ledger.overflow == var m := Tokens(segs, MandatoryIds(segs), |segs|); if m > budget then m - budget else 0
  {
    var keptIds: set<nat>, used: nat := {}, 0;
    for n := 0 to |segs|
      invariant forall i: nat :: i in keptIds <==> i < n && Mandatory(segs[i])
      invariant used == Tokens(segs, keptIds, n)
    {
      TokensSame(segs, keptIds, keptIds + {n}, n);
      if Mandatory(segs[n]) {
        keptIds, used := keptIds + {n}, used + segs[n].tokens;
      }
    }
    assert keptIds == MandatoryIds(segs);
    var overflow := if used > budget then used - budget else 0;

    var optional := Ranked(segs, |segs|);
    RankedMeaning(segs, |segs|);
    var dropped;
    keptIds, dropped := GreedyPass(segs, budget, optional, keptIds, used);
    PassedAll(segs, budget, optional, keptIds);
    var kept := InSegmentOrder(|segs|, keptIds);
    assert Ids(kept) == keptIds;
    ledger := Ledger(kept, dropped, overflow);
  }

  /** The loop over the ranked optional segments. */
  method GreedyPass(segs: seq<Segment>, budget: nat, optional: seq<nat>, mandatory: set<nat>, spent: nat)
    returns (keptIds: set<nat>, dropped: seq<nat>)
    requires RankedUpTo(segs, optional, |segs|)
    requires mandatory == MandatoryIds(segs) && spent == Tokens(segs, mandatory, |segs|)
    ensures Passed(segs, budget, optional, |optional|, keptIds)
    ensures forall i :: i in dropped <==> i in optional && i !in keptIds
    ensures InRankOrder(segs, dropped)
  {
    var used := spent;
    keptIds, dropped := mandatory, [];
    for p := 0 to |optional|
      invariant Passed(segs, budget, optional, p, keptIds)
      invariant used == Tokens(segs, keptIds, |segs|)
      invariant forall i :: i in dropped <==> i in optional[..p] && i !in keptIds
      invariant InRankOrder(segs, dropped)
    {
      var i := optional[p];
      PassOne(segs, budget, optional, p, keptIds);
      DroppedBehind(segs, optional, p, dropped);
      assert optional[..p + 1] == optional[..p] + [i];
      if used + segs[i].tokens <= budget {
        TokensAdd(segs, keptIds, i, |segs|);
        keptIds, used := keptIds + {i}, used + segs[i].tokens;
      } else {
        dropped := dropped + [i];
      }
    }
    assert optional[..|optional|] == optional;
  }

  method InSegmentOrder(n: nat, ids: set<nat>) returns (r: seq<nat>)
    ensures forall i: nat :: i in r <==> i < n && i in ids
    ensures forall p, q :: 0 <= p < q < |r| ==> r[p] < r[q]
  {
    r := [];
    for k := 0 to n
      invariant forall i: nat :: i in r <==> i < k && i in ids
      invariant forall p, q :: 0 <= p < q < |r| ==> r[p] < r[q]
    {
      if k in ids {
        forall p | 0 <= p < |r| ensures r[p] < k { assert r[p] in r; }
        r := r + [k];
      }
    }
  }

  lemma PassedAll(segs: seq<Segment>, budget: nat, optional: seq<nat>, kept: set<nat>)
    requires Passed(segs, budget, optional, |optional|, kept)
    ensures IsAllocation(segs, budget, kept)
  {
    assert optional[..|optional|] == optional;
    forall i | 0 <= i < |segs| ensures i in kept <==> Mandatory(segs[i]) || Fits(segs, kept, budget, i) {
      if !Mandatory(segs[i]) {
        var q :| 0 <= q < |optional| && optional[q] == i;
      }
    }
  }

  /** The greedy pass has decided the first `p` optional segments for good. */
  ghost predicate Passed(segs: seq<Segment>, budget: nat, optional: seq<nat>, p: nat, kept: set<nat>) {
    && RankedUpTo(segs, optional, |segs|) && p <= |optional|
    && MandatoryIds(segs) <= kept
    && (forall i | i in kept :: i < |segs| && (Mandatory(segs[i]) || i in optional[..p]))
    && (forall q | 0 <= q < p :: optional[q] in kept <==> Fits(segs, kept, budget, optional[q]))
  }

  /** The segment in turn is new, and everything kept outranks it. */
  lemma NextServed(segs: seq<Segment>, budget: nat, optional: seq<nat>, p: nat, kept: set<nat>)
    requires p < |optional| && Passed(segs, budget, optional, p, kept)
    ensures optional[p] < |segs| && !Mandatory(segs[optional[p]]) && optional[p] !in kept
    ensures Served(segs, kept, optional[p]) == kept
    ensures forall q | 0 <= q < p :: Ahead(segs, optional[q], optional[p])
  {
    assert optional[p] in optional;
  }

  lemma PassOne(segs: seq<Segment>, budget: nat, optional: seq<nat>, p: nat, kept: set<nat>)
    requires p < |optional| && Passed(segs, budget, optional, p, kept)
    ensures optional[p] < |segs| && optional[p] !in kept
    ensures Passed(segs, budget, optional, p + 1,
      if Tokens(segs, kept, |segs|) + segs[optional[p]].tokens <= budget then kept + {optional[p]} else kept)
  {
    var i := optional[p];
    NextServed(segs, budget, optional, p, kept);
    assert optional[..p + 1] == optional[..p] + [i];
    assert Served(segs, kept + {i}, i) == kept;
    forall q | 0 <= q < p
      ensures Fits(segs, kept + {i}, budget, optional[q]) <==> Fits(segs, kept, budget, optional[q])
    {
      assert !Ahead(segs, i, optional[q]);
      assert Served(segs, kept + {i}, optional[q]) == Served(segs, kept, optional[q]);
    }
  }

  lemma DroppedBehind(segs: seq<Segment>, optional: seq<nat>, p: nat, dropped: seq<nat>)
    requires RankedUpTo(segs, optional, |segs|) && p < |optional|
    requires InRankOrder(segs, dropped) && forall i | i in dropped :: i in optional[..p]
    ensures InRankOrder(segs, dropped + [optional[p]])
  {
    forall a | 0 <= a < |dropped| ensures Ahead(segs, dropped[a], optional[p]) {
      assert dropped[a] in dropped;
      var q :| 0 <= q < p && optional[q] == dropped[a];
    }
  }

  // ---- What an allocation guarantees -------------------------------------

  /** A dropped segment would not fit beside what was kept. */
  lemma NothingElseFits(segs: seq<Segment>, budget: nat, kept: set<nat>, i: nat)
    requires IsAllocation(segs, budget, kept) && i < |segs| && i !in kept
    ensures Tokens(segs, kept, |segs|) + segs[i].tokens > budget
  {
    TokensMonotone(segs, Served(segs, kept, i), kept, |segs|);
  }

  /** Dropping a segment drops every later-ranked one of at least its size. */
  lemma DropsCascade(segs: seq<Segment>, budget: nat, kept: set<nat>, i: nat, j: nat)
    requires IsAllocation(segs, budget, kept) && i < |segs| && j < |segs|
    requires i !in kept && !Mandatory(segs[j]) && Ahead(segs, i, j) && segs[j].tokens >= segs[i].tokens
    ensures j !in kept
  {
    TokensMonotone(segs, Served(segs, kept, i), Served(segs, kept, j), |segs|);
  }

  /** The kept total exceeds the budget only by what the mandatory segments do. */
  lemma TotalBounded(segs: seq<Segment>, budget: nat, kept: set<nat>)
    requires IsAllocation(segs, budget, kept)
    ensures var m := Tokens(segs, MandatoryIds(segs), |segs|);
            Tokens(segs, kept, |segs|) <= if m > budget then m else budget
  {
    var ranked := Ranked(segs, |segs|);
    RankedMeaning(segs, |segs|);
    if forall i | i in kept :: Mandatory(segs[i]) {
      assert kept == MandatoryIds(segs);
    } else {
      var p := LowestKept(ranked, kept);
      var i := ranked[p];
      assert i in ranked;
      assert Served(segs, kept, i) == kept - {i} by {
        forall j | j in kept && j != i && !Mandatory(segs[j]) ensures Ahead(segs, j, i) {
          var q :| 0 <= q < |ranked| && ranked[q] == j;
        }
      }
      assert kept == (kept - {i}) + {i};
      TokensAdd(segs, kept - {i}, i, |segs|);
    }
  }

  lemma {:induction false} LowestKept(ranked: seq<nat>, kept: set<nat>) returns (p: nat)
    requires exists i :: i in ranked && i in kept
    ensures p < |ranked| && ranked[p] in kept
    ensures forall q | 0 <= q < |ranked| && ranked[q] in kept :: q <= p
  {
    p := |ranked| - 1;
    while ranked[p] !in kept
      invariant 0 <= p < |ranked|
      invariant forall q | p < q < |ranked| :: ranked[q] !in kept
      decreases p
    {
      assert exists q :: 0 <= q < |ranked| && ranked[q] in kept;
      p := p - 1;
    }
  }

  /** The defining property determines the allocation. */
  lemma AllocationUnique(segs: seq<Segment>, budget: nat, a: set<nat>, b: set<nat>)
    requires IsAllocation(segs, budget, a) && IsAllocation(segs, budget, b)
    ensures a == b
  {
    var ranked := Ranked(segs, |segs|);
    RankedMeaning(segs, |segs|);
    AgreeUpTo(segs, budget, a, b, ranked, |ranked|);
    forall i: nat ensures i in a <==> i in b {
      if i < |segs| && !Mandatory(segs[i]) {
        var q :| 0 <= q < |ranked| && ranked[q] == i;
      }
    }
  }

  lemma {:induction false} AgreeUpTo(
    segs: seq<Segment>, budget: nat, a: set<nat>, b: set<nat>, ranked: seq<nat>, n: nat)
    requires IsAllocation(segs, budget, a) && IsAllocation(segs, budget, b)
    requires RankedUpTo(segs, ranked, |segs|) && n <= |ranked|
    ensures forall q | 0 <= q < n :: ranked[q] in a <==> ranked[q] in b
  {
    if n > 0 {
      AgreeUpTo(segs, budget, a, b, ranked, n - 1);
      var i := ranked[n - 1];
      assert i in ranked;
      forall j | j in Served(segs, a, i) + Served(segs, b, i) ensures j in a && j in b {
        if !Mandatory(segs[j]) {
          var q :| 0 <= q < |ranked| && ranked[q] == j;
          assert q > n - 1 ==> Ahead(segs, i, j);
        }
      }
      assert Served(segs, a, i) == Served(segs, b, i);
    }
  }
}
