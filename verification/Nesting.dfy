/** When a larger token budget keeps everything a smaller one kept
    (domain/context/types.py, `ContextBudget.prune`). */
module Nesting {
  import opened Budget

  /** What a larger budget keeps includes what a smaller one kept, for all budgets. */
  ghost predicate Nested(segs: seq<Segment>) {
    forall less: nat, more: nat, a, b |
      1 <= less <= more && IsAllocation(segs, less, a) && IsAllocation(segs, more, b) :: a <= b
  }

  predicate Optional(segs: seq<Segment>, i: nat) { i < |segs| && !Mandatory(segs[i]) }

  /** An optional segment outranked by a larger one, and not empty itself. */
  predicate Descent(segs: seq<Segment>, i: nat, j: nat) {
    && Optional(segs, i) && Optional(segs, j) && Ahead(segs, i, j)
    && 0 < segs[j].tokens < segs[i].tokens
  }

  /** In rank order the sizes of the optional segments never decrease, empty ones aside. */
  ghost predicate SizesRise(segs: seq<Segment>) { forall i: nat, j: nat :: !Descent(segs, i, j) }

  // ---- Every budget has its allocation -----------------------------------

  lemma {:induction false} AllocateUpTo(segs: seq<Segment>, budget: nat, ranked: seq<nat>, p: nat)
    returns (kept: set<nat>)
    requires RankedUpTo(segs, ranked, |segs|) && p <= |ranked|
    ensures Passed(segs, budget, ranked, p, kept)
  {
    if p == 0 {
      kept := MandatoryIds(segs);
    } else {
      kept := AllocateUpTo(segs, budget, ranked, p - 1);
      PassOne(segs, budget, ranked, p - 1, kept);
      if Tokens(segs, kept, |segs|) + segs[ranked[p - 1]].tokens <= budget { kept := kept + {ranked[p - 1]}; }
    }
  }

  lemma Allocate(segs: seq<Segment>, budget: nat) returns (kept: set<nat>)
    ensures IsAllocation(segs, budget, kept)
  {
    RankedMeaning(segs, |segs|);
    kept := AllocateUpTo(segs, budget, Ranked(segs, |segs|), |Ranked(segs, |segs|)|);
    PassedAll(segs, budget, Ranked(segs, |segs|), kept);
  }

  // ---- Rising sizes nest -------------------------------------------------

  /** What the larger budget keeps ahead of a segment the smaller one kept, the smaller one
      kept too. */
  lemma AheadKept(segs: seq<Segment>, less: nat, a: set<nat>, i: nat, j: nat)
    requires SizesRise(segs) && IsAllocation(segs, less, a)
    requires Optional(segs, i) && i in a && segs[i].tokens > 0 && Optional(segs, j) && Ahead(segs, j, i)
    ensures j in a
  {
    if j !in a {
      assert !Descent(segs, j, i);
      DropsCascade(segs, less, a, j, i);
    }
  }

  lemma RisingNests(segs: seq<Segment>, less: nat, more: nat, a: set<nat>, b: set<nat>, i: nat)
    requires SizesRise(segs) && less <= more && IsAllocation(segs, less, a) && IsAllocation(segs, more, b)
    requires i in a
    ensures i in b
  {
    if i !in b {
      if segs[i].tokens == 0 {
        NothingElseFits(segs, more, b, i);
        TotalBounded(segs, more, b);
        TokensMonotone(segs, MandatoryIds(segs), Served(segs, a, i), |segs|);
      } else {
        forall j | j in Served(segs, b, i) ensures j in Served(segs, a, i) {
          if !Mandatory(segs[j]) { AheadKept(segs, less, a, i, j); }
        }
        TokensMonotone(segs, Served(segs, b, i), Served(segs, a, i), |segs|);
      }
    }
  }

  // ---- A descent does not nest -------------------------------------------

  /** The mandatory segments and the optional ones ahead of `i`. */
  function Before(segs: seq<Segment>, i: nat): set<nat> {
    set j: nat | j < |segs| && (Mandatory(segs[j]) || Ahead(segs, j, i))
  }

  /** The first smaller one behind `i`: everything between them is empty or no smaller. */
  ghost predicate FirstDescent(segs: seq<Segment>, i: nat, j: nat) {
    Descent(segs, i, j) && forall x: nat | Descent(segs, i, x) :: !Ahead(segs, x, j)
  }

  lemma {:induction false} FindFirst(segs: seq<Segment>, i: nat, n: nat) returns (j: nat)
    requires n <= |segs| && exists x: nat :: x < n && Descent(segs, i, x)
    ensures j < n && Descent(segs, i, j) && forall x: nat | x < n && Descent(segs, i, x) :: !Ahead(segs, x, j)
  {
    if x: nat :| x < n - 1 && Descent(segs, i, x) {
      j := FindFirst(segs, i, n - 1);
      if Descent(segs, i, n - 1) && Ahead(segs, n - 1, j) { j := n - 1; }
    } else {
      j := n - 1;
    }
  }

  /** With room for everything up to `i` exactly, the segments behind it that are not empty
      are dropped. */
  lemma FullBudget(segs: seq<Segment>, b: set<nat>, i: nat, j: nat)
    requires Descent(segs, i, j)
    requires IsAllocation(segs, Tokens(segs, Before(segs, i), |segs|) + segs[i].tokens, b)
    ensures j !in b
  {
    var room := Before(segs, i) + {i};
    TokensAdd(segs, Before(segs, i), i, |segs|);
    forall x | x in room ensures x in b {
      if !Mandatory(segs[x]) {
        if x == i {
          TokensMonotone(segs, Served(segs, b, i), Before(segs, i), |segs|);
        } else {
          assert x !in Served(segs, b, x);
          TokensAdd(segs, Served(segs, b, x), x, |segs|);
          TokensMonotone(segs, Served(segs, b, x) + {x}, room, |segs|);
        }
      }
    }
    assert room <= Served(segs, b, j);
    TokensMonotone(segs, room, Served(segs, b, j), |segs|);
  }

  /** With one token less `i` is dropped, and the room it leaves goes to the first smaller one. */
  lemma ShortBudget(segs: seq<Segment>, a: set<nat>, i: nat, j: nat)
    requires FirstDescent(segs, i, j)
    requires IsAllocation(segs, Tokens(segs, Before(segs, i), |segs|) + segs[i].tokens - 1, a)
    ensures j in a
  {
    var room, spent := Before(segs, i), Tokens(segs, Before(segs, i), |segs|);
    forall x | x in room ensures x in a {
      if !Mandatory(segs[x]) {
        assert x !in Served(segs, a, x);
        TokensAdd(segs, Served(segs, a, x), x, |segs|);
        TokensMonotone(segs, Served(segs, a, x) + {x}, room, |segs|);
      }
    }
    assert Served(segs, a, i) == room;
    assert i !in a;
    forall x | x in Served(segs, a, j) ensures x in room || segs[x].tokens == 0 {
      if x !in room {
        assert Ahead(segs, i, x) && !Descent(segs, i, x);
        TokensMonotone(segs, room, Served(segs, a, x), |segs|);
      }
    }
    TokensButEmpty(segs, Served(segs, a, j), room, |segs|);
  }

  lemma {:induction false} TokensButEmpty(segs: seq<Segment>, a: set<nat>, b: set<nat>, n: nat)
    requires n <= |segs| && forall x | x in a && x < |segs| :: x in b || segs[x].tokens == 0
    ensures Tokens(segs, a, n) <= Tokens(segs, b, n)
  {
    if n > 0 { TokensButEmpty(segs, a, b, n - 1); }
  }

  /** Kept sets are nested across budgets exactly when, in rank order, no optional segment is
      followed by a smaller one that is not empty. */
  lemma NestedIff(segs: seq<Segment>)
    ensures Nested(segs) <==> SizesRise(segs)
  {
    if SizesRise(segs) {
      forall less: nat, more: nat, a, b |
        1 <= less <= more && IsAllocation(segs, less, a) && IsAllocation(segs, more, b)
        ensures a <= b
      {
        forall i | i in a ensures i in b { RisingNests(segs, less, more, a, b, i); }
      }
    } else {
      var i: nat, x: nat :| Descent(segs, i, x);
      var j := FindFirst(segs, i, |segs|);
      var more := Tokens(segs, Before(segs, i), |segs|) + segs[i].tokens;
      var a := Allocate(segs, more - 1);
      var b := Allocate(segs, more);
      ShortBudget(segs, a, i, j);
      FullBudget(segs, b, i, j);
      assert j in a && j !in b;
    }
  }

  /** The smallest case: a budget of four keeps the older, smaller message, one of five the
      newer, larger one instead. */
  lemma NotNested(older: Segment, newer: Segment)
    requires older == Segment(History, 3, 60, true) && newer == Segment(History, 5, 61, true)
    ensures IsAllocation([older, newer], 4, {0}) && IsAllocation([older, newer], 5, {1})
    ensures !Nested([older, newer])
  {
    var segs := [older, newer];
    assert Served(segs, {0}, 0) == {} && Served(segs, {0}, 1) == {};
    assert Served(segs, {1}, 0) == {1} && Served(segs, {1}, 1) == {};
    assert Tokens(segs, {}, 2) == Tokens(segs, {}, 1) == Tokens(segs, {}, 0) == 0;
    assert Tokens(segs, {1}, 1) == Tokens(segs, {1}, 0) == 0;
    assert Tokens(segs, {1}, 2) == 5;
    var less: set<nat>, more: set<nat> := {0}, {1};
    assert IsAllocation(segs, 4, less) && IsAllocation(segs, 5, more) && 0 in less && 0 !in more;
  }
}
