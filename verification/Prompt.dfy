/** Assembly of the system prompt (domain/context/compiler.py): the kept segments, ordered
    by how volatile their class is so that an unchanged prefix can be reused. */
module Prompt {
  import opened Basics
  import opened Budget
  import opened Rendering

  /** A segment together with what it renders to. History segments have no part of their
      own: they are joined into one block. The binding rule is filled in after pruning. */
  datatype Content = Part(text: string) | Item(message: Prior) | BindingRule

  datatype Slot = Slot(seg: Segment, content: Content)

  /** The place of a segment's volatility class in SEGMENT_ORDER. */
  function VolatilityRank(k: Kind): nat {
    match k
    case Persona => 0
    case HarnessPolicy => 0
    case History => 1
    case CurrentUser => 3
    case _ => 2
  }

  function Segments(slots: seq<Slot>): seq<Segment> {
    seq(|slots|, i requires 0 <= i < |slots| => slots[i].seg)
  }

  /** `[s for s in segments if id(s) in kept_ids]`, over the first `n`. */
  function Select(slots: seq<Slot>, kept: set<nat>, n: nat): seq<Slot>
    requires n <= |slots|
  {
    if n == 0 then []
    else if n - 1 in kept then Select(slots, kept, n - 1) + [slots[n - 1]]
    else Select(slots, kept, n - 1)
  }

  function Items(slots: seq<Slot>): seq<Prior> {
    if slots == [] then []
    else
      var s := slots[|slots| - 1];
      if s.content.Item? then Items(slots[..|slots| - 1]) + [s.content.message] else Items(slots[..|slots| - 1])
  }

  datatype Ranked = Ranked(rank: nat, text: string)

  function PartOf(s: Slot, binding: string): Ranked
    requires !s.content.Item?
  {
    Ranked(VolatilityRank(s.seg.kind), if s.content.Part? then s.content.text else binding)
  }

  function Parts(slots: seq<Slot>, binding: string): seq<Ranked> {
    if slots == [] then []
    else
      var s := slots[|slots| - 1];
      if s.content.Item? then Parts(slots[..|slots| - 1], binding)
      else Parts(slots[..|slots| - 1], binding) + [PartOf(s, binding)]
  }

  function RankedParts(w: Wording, kept: seq<Slot>, speaker: string): seq<Ranked> {
    Parts(kept, Binding(w, Items(kept), speaker))
    + if Items(kept) != [] then [Ranked(VolatilityRank(History), Background(w, Items(kept)))] else []
  }

  function Place(sorted: seq<Ranked>, p: Ranked): seq<Ranked> {
    if sorted == [] || sorted[|sorted| - 1].rank <= p.rank then sorted + [p]
    else Place(sorted[..|sorted| - 1], p) + [sorted[|sorted| - 1]]
  }

  function StableSort(parts: seq<Ranked>): seq<Ranked> {
    if parts == [] then [] else Place(StableSort(parts[..|parts| - 1]), parts[|parts| - 1])
  }

  function Texts(parts: seq<Ranked>): seq<string> {
    seq(|parts|, i requires 0 <= i < |parts| => parts[i].text)
  }

  function Blocks(w: Wording, kept: seq<Slot>, speaker: string): seq<string> {
    Texts(StableSort(RankedParts(w, kept, speaker)))
  }

  function SystemPrompt(w: Wording, kept: seq<Slot>, speaker: string): string {
    Join("\n\n", Blocks(w, kept, speaker))
  }

  /** What the compiler guarantees about the segments it creates. */
  ghost predicate Shaped(slots: seq<Slot>) {
    forall i | 0 <= i < |slots| ::
      && (slots[i].content.Item? <==> slots[i].seg.kind.History?)
      && (slots[i].content.BindingRule? ==> slots[i].seg.kind.PersonaState? && !slots[i].seg.droppable)
  }

  // ---- Stable sorting by rank --------------------------------------------

  function OfRank(parts: seq<Ranked>, r: nat): seq<Ranked> {
    if parts == [] then []
    else
      var p := parts[|parts| - 1];
      if p.rank == r then OfRank(parts[..|parts| - 1], r) + [p] else OfRank(parts[..|parts| - 1], r)
  }

  function Classes(parts: seq<Ranked>): seq<Ranked> {
    OfRank(parts, 0) + OfRank(parts, 1) + OfRank(parts, 2) + OfRank(parts, 3)
  }

  ghost predicate AllOfRank(parts: seq<Ranked>, r: nat) {
    forall i | 0 <= i < |parts| :: parts[i].rank == r
  }

  lemma {:induction false} OfRankIs(parts: seq<Ranked>, r: nat)
    ensures AllOfRank(OfRank(parts, r), r)
  {
    if parts != [] { OfRankIs(parts[..|parts| - 1], r); }
  }

  lemma {:induction false} PlaceBefore(a: seq<Ranked>, b: seq<Ranked>, p: Ranked)
    requires forall i | 0 <= i < |b| :: b[i].rank > p.rank
    ensures Place(a + b, p) == Place(a, p) + b
  {
    if b == [] {
      assert a + b == a;
    } else {
      var b' := b[..|b| - 1];
      assert (a + b)[..|a + b| - 1] == a + b';
      PlaceBefore(a, b', p);
      assert b == b' + [b[|b| - 1]];
    }
  }

  lemma PlaceLast(a: seq<Ranked>, p: Ranked)
    requires forall i | 0 <= i < |a| :: a[i].rank <= p.rank
    ensures Place(a, p) == a + [p]
  {}

  /** The stable sort is the concatenation of the classes, each in its original order. */
  lemma {:induction false} SortIsClasses(parts: seq<Ranked>)
    requires forall i | 0 <= i < |parts| :: parts[i].rank <= 3
    ensures StableSort(parts) == Classes(parts)
  {
    if parts != [] {
      var rest, p := parts[..|parts| - 1], parts[|parts| - 1];
      SortIsClasses(rest);
      OfRankIs(rest, 0);
      OfRankIs(rest, 1);
      OfRankIs(rest, 2);
      OfRankIs(rest, 3);
      PlaceInClasses(OfRank(rest, 0), OfRank(rest, 1), OfRank(rest, 2), OfRank(rest, 3), p);
    }
  }

  lemma PlaceInClasses(c0: seq<Ranked>, c1: seq<Ranked>, c2: seq<Ranked>, c3: seq<Ranked>, p: Ranked)
    requires AllOfRank(c0, 0) && AllOfRank(c1, 1) && AllOfRank(c2, 2) && AllOfRank(c3, 3) && p.rank <= 3
    ensures Place(c0 + c1 + c2 + c3, p)
      == (if p.rank == 0 then c0 + [p] else c0) + (if p.rank == 1 then c1 + [p] else c1)
       + (if p.rank == 2 then c2 + [p] else c2) + (if p.rank == 3 then c3 + [p] else c3)
  {
    if p.rank == 0 {
      PlaceBetween(c0, c1 + c2 + c3, p);
      Assoc4(c0, c1, c2, c3);
      Assoc4(c0 + [p], c1, c2, c3);
    } else if p.rank == 1 {
      PlaceBetween(c0 + c1, c2 + c3, p);
      Assoc4(c0, c1, c2, c3);
      Assoc(c0, c1, [p]);
      Assoc(c0 + c1 + [p], c2, c3);
    } else if p.rank == 2 {
      PlaceBetween(c0 + c1 + c2, c3, p);
      Assoc(c0 + c1, c2, [p]);
    } else {
      PlaceLast(c0 + c1 + c2 + c3, p);
      Assoc(c0 + c1 + c2, c3, [p]);
    }
  }

  lemma Assoc4(a: seq<Ranked>, b: seq<Ranked>, c: seq<Ranked>, d: seq<Ranked>)
    ensures a + b + c + d == a + (b + c + d) && a + b + c + d == (a + b) + (c + d)
  {}

  lemma PlaceBetween(low: seq<Ranked>, high: seq<Ranked>, p: Ranked)
    requires forall i | 0 <= i < |low| :: low[i].rank <= p.rank
    requires forall i | 0 <= i < |high| :: high[i].rank > p.rank
    ensures Place(low + high, p) == low + [p] + high
  {
    PlaceBefore(low, high, p);
    PlaceLast(low, p);
  }

  lemma {:induction false} PartsRanks(slots: seq<Slot>, binding: string)
    ensures forall i | 0 <= i < |Parts(slots, binding)| :: Parts(slots, binding)[i].rank <= 3
  {
    if slots != [] { PartsRanks(slots[..|slots| - 1], binding); }
  }

  lemma {:induction false} OfRankConcat(a: seq<Ranked>, b: seq<Ranked>, r: nat)
    ensures OfRank(a + b, r) == OfRank(a, r) + OfRank(b, r)
  {
    if b == [] {
      assert a + b == a;
    } else {
      assert (a + b)[..|a + b| - 1] == a + b[..|b| - 1];
      OfRankConcat(a, b[..|b| - 1], r);
    }
  }

  // ---- The stable class --------------------------------------------------

  function ClassOf(slots: seq<Slot>, binding: string, r: nat): seq<Ranked> { OfRank(Parts(slots, binding), r) }

  lemma ClassSnoc(slots: seq<Slot>, s: Slot, binding: string, r: nat)
    ensures ClassOf(slots + [s], binding, r) ==
      if !s.content.Item? && VolatilityRank(s.seg.kind) == r then ClassOf(slots, binding, r) + [PartOf(s, binding)]
      else ClassOf(slots, binding, r)
  {
    assert (slots + [s])[..|slots|] == slots;
    if !s.content.Item? {
      var parts := Parts(slots, binding);
      assert Parts(slots + [s], binding) == parts + [PartOf(s, binding)];
      assert (parts + [PartOf(s, binding)])[..|parts|] == parts;
    }
  }

  /** The texts of the identity prefix, in segment order. */
  function StableParts(slots: seq<Slot>): seq<Ranked> { ClassOf(slots, "", 0) }

  lemma {:induction false} StableIgnoresBinding(slots: seq<Slot>, binding: string)
    requires Shaped(slots)
    ensures ClassOf(slots, binding, 0) == StableParts(slots)
    ensures ClassOf(slots, binding, 1) == []
  {
    if slots != [] {
      var rest, s := slots[..|slots| - 1], slots[|slots| - 1];
      StableIgnoresBinding(rest, binding);
      assert slots == rest + [s];
      ClassSnoc(rest, s, binding, 0);
      ClassSnoc(rest, s, "", 0);
      ClassSnoc(rest, s, binding, 1);
    }
  }

  lemma {:induction false} SelectShaped(slots: seq<Slot>, kept: set<nat>, n: nat)
    requires Shaped(slots) && n <= |slots|
    ensures Shaped(Select(slots, kept, n))
  {
    if n > 0 { SelectShaped(slots, kept, n - 1); }
  }

  /** Pruning never touches the stable class: all its kinds are mandatory. */
  lemma {:induction false} PruningKeepsStable(slots: seq<Slot>, kept: set<nat>, n: nat)
    requires Shaped(slots) && n <= |slots| && MandatoryIds(Segments(slots)) <= kept
    ensures StableParts(Select(slots, kept, n)) == StableParts(slots[..n])
  {
    if n > 0 {
      PruningKeepsStable(slots, kept, n - 1);
      var sel, s := Select(slots, kept, n - 1), slots[n - 1];
      assert Segments(slots)[n - 1] == s.seg;
      assert slots[..n] == slots[..n - 1] + [s];
      ClassSnoc(sel, s, "", 0);
      ClassSnoc(slots[..n - 1], s, "", 0);
      if n - 1 !in kept {
        assert n - 1 !in MandatoryIds(Segments(slots));
      }
    }
  }

  // ---- Prefix reuse ------------------------------------------------------

  lemma {:induction false} JoinPrefix(sep: string, a: seq<string>, b: seq<string>)
    ensures Join(sep, a) <= Join(sep, a + b)
  {
    if b == [] {
      assert a + b == a;
    } else {
      var ab := a + b;
      assert ab[..|ab| - 1] == a + b[..|b| - 1];
      JoinPrefix(sep, a, b[..|b| - 1]);
      if |ab| == 1 { assert a == []; }
    }
  }

  lemma {:induction false} JoinLastGrows(sep: string, front: seq<string>, x: string, y: string)
    requires x <= y
    ensures Join(sep, front + [x]) <= Join(sep, front + [y])
  {
    assert (front + [x])[..|front|] == front && (front + [y])[..|front|] == front;
  }

  lemma {:induction false} LinesGrow(w: Wording, ms: seq<Prior>, more: seq<Prior>)
    ensures Lines(w, ms) <= Lines(w, ms + more)
  {
    if more == [] {
      assert ms + more == ms;
    } else {
      assert (ms + more)[..|ms + more| - 1] == ms + more[..|more| - 1];
      LinesGrow(w, ms, more[..|more| - 1]);
    }
  }

  /** History is append-only in the prompt too. */
  lemma BackgroundGrows(w: Wording, ms: seq<Prior>, more: seq<Prior>)
    ensures Background(w, ms) <= Background(w, ms + more)
  {
    LinesGrow(w, ms, more);
    var a, b := Lines(w, ms), Lines(w, ms + more);
    assert b == a + b[|a|..];
    JoinPrefix("\n", a, b[|a|..]);
  }

  function HistoryPart(w: Wording, kept: seq<Slot>): seq<Ranked> {
    if Items(kept) == [] then [] else [Ranked(1, Background(w, Items(kept)))]
  }

  /** The blocks of a prompt: identity, then history, then what is volatile, then the request. */
  lemma BlocksInOrder(w: Wording, kept: seq<Slot>, speaker: string)
    requires Shaped(kept)
    ensures
      var binding := Binding(w, Items(kept), speaker);
      Blocks(w, kept, speaker) == Texts(StableParts(kept) + HistoryPart(w, kept)
        + ClassOf(kept, binding, 2) + ClassOf(kept, binding, 3))
  {
    var binding := Binding(w, Items(kept), speaker);
    assert RankedParts(w, kept, speaker) == Parts(kept, binding) + HistoryPart(w, kept);
    PartsRanks(kept, binding);
    StableIgnoresBinding(kept, binding);
    HistoryBetween(Parts(kept, binding), HistoryPart(w, kept));
  }

  lemma HistoryBetween(parts: seq<Ranked>, history: seq<Ranked>)
    requires |history| <= 1 && AllOfRank(history, 1) && OfRank(parts, 1) == []
    requires forall i | 0 <= i < |parts| :: parts[i].rank <= 3
    ensures StableSort(parts + history) == OfRank(parts, 0) + history + OfRank(parts, 2) + OfRank(parts, 3)
  {
    SortIsClasses(parts + history);
    OneOfRank(parts, history, 0);
    OneOfRank(parts, history, 1);
    OneOfRank(parts, history, 2);
    OneOfRank(parts, history, 3);
    assert [] + history == history;
  }

  lemma OneOfRank(parts: seq<Ranked>, history: seq<Ranked>, r: nat)
    requires |history| <= 1 && AllOfRank(history, 1)
    ensures OfRank(parts + history, r) == if r == 1 then OfRank(parts, r) + history else OfRank(parts, r)
  {
    if history == [] {
      assert parts + history == parts && OfRank(parts, r) + history == OfRank(parts, r);
    } else {
      assert history == [history[0]] && (parts + history)[..|parts|] == parts;
    }
  }

  /** The history block, when there is one. */
  function HistoryText(w: Wording, history: seq<Prior>): seq<string> {
    if history == [] then [] else [Background(w, history)]
  }

  /** Two turns with the same identity segments, where the later kept history extends the
      earlier one, share the identity text and the whole earlier history block (if any) as a
      prompt prefix: whatever their budgets, volatile segments and speakers are. */
  lemma PrefixReused(w: Wording, first: seq<Slot>, kept1: set<nat>, speaker1: string,
                     second: seq<Slot>, kept2: set<nat>, speaker2: string, more: seq<Prior>)
    requires Shaped(first) && MandatoryIds(Segments(first)) <= kept1
    requires Shaped(second) && MandatoryIds(Segments(second)) <= kept2
    requires StableParts(first) == StableParts(second)
    requires Items(Select(second, kept2, |second|)) == Items(Select(first, kept1, |first|)) + more
    ensures
      var history := Items(Select(first, kept1, |first|));
      var shared := Join("\n\n", Texts(StableParts(first)) + HistoryText(w, history));
      && shared <= SystemPrompt(w, Select(first, kept1, |first|), speaker1)
      && shared <= SystemPrompt(w, Select(second, kept2, |second|), speaker2)
  {
    var s1, s2 := Select(first, kept1, |first|), Select(second, kept2, |second|);
    assert first[..|first|] == first && second[..|second|] == second;
    SelectShaped(first, kept1, |first|);
    SelectShaped(second, kept2, |second|);
    PruningKeepsStable(first, kept1, |first|);
    PruningKeepsStable(second, kept2, |second|);
    HeadOfPrompt(w, s1, speaker1);
    HeadOfPrompt(w, s2, speaker2);
    HeadGrows(w, Texts(StableParts(first)), Items(s1), more);
  }

  lemma HeadGrows(w: Wording, stable: seq<string>, history: seq<Prior>, more: seq<Prior>)
    ensures Join("\n\n", stable + HistoryText(w, history)) <= Join("\n\n", stable + HistoryText(w, history + more))
  {
    if history == [] {
      assert history + more == more && stable + [] == stable;
      PrefixJoin(stable, stable + HistoryText(w, more));
    } else {
      BackgroundGrows(w, history, more);
      JoinLastGrows("\n\n", stable, Background(w, history), Background(w, history + more));
    }
  }

  lemma HeadOfPrompt(w: Wording, kept: seq<Slot>, speaker: string)
    requires Shaped(kept)
    ensures Join("\n\n", Texts(StableParts(kept)) + HistoryText(w, Items(kept))) <= SystemPrompt(w, kept, speaker)
  {
    var binding := Binding(w, Items(kept), speaker);
    BlocksInOrder(w, kept, speaker);
    HeadTexts(w, kept, ClassOf(kept, binding, 2), ClassOf(kept, binding, 3));
    PrefixJoin(Texts(StableParts(kept)) + HistoryText(w, Items(kept)), Blocks(w, kept, speaker));
  }

  lemma HeadTexts(w: Wording, kept: seq<Slot>, c2: seq<Ranked>, c3: seq<Ranked>)
    ensures Texts(StableParts(kept)) + HistoryText(w, Items(kept))
      <= Texts(StableParts(kept) + HistoryPart(w, kept) + c2 + c3)
  {
    assert Texts(HistoryPart(w, kept)) == HistoryText(w, Items(kept));
    TextsConcat(StableParts(kept), HistoryPart(w, kept));
    TextsConcat(StableParts(kept) + HistoryPart(w, kept), c2);
    TextsConcat(StableParts(kept) + HistoryPart(w, kept) + c2, c3);
  }

  lemma TextsConcat(a: seq<Ranked>, b: seq<Ranked>)
    ensures Texts(a + b) == Texts(a) + Texts(b)
  {}

  lemma PrefixJoin(a: seq<string>, b: seq<string>)
    requires a <= b
    ensures Join("\n\n", a) <= Join("\n\n", b)
  {
    assert b == a + b[|a|..];
    JoinPrefix("\n\n", a, b[|a|..]);
  }

  // ---- The current request -----------------------------------------------

  /** The current request is the last block of the prompt. */
  lemma RequestIsLast(w: Wording, slots: seq<Slot>, kept: set<nat>, speaker: string, at: nat)
    requires Shaped(slots) && MandatoryIds(Segments(slots)) <= kept
    requires at < |slots| && slots[at].content.Part?
    requires forall i | 0 <= i < |slots| :: slots[i].seg.kind.CurrentUser? <==> i == at
    ensures var blocks := Blocks(w, Select(slots, kept, |slots|), speaker);
            blocks != [] && blocks[|blocks| - 1] == slots[at].content.text
  {
    var sel := Select(slots, kept, |slots|);
    var binding := Binding(w, Items(sel), speaker);
    assert Segments(slots)[at] == slots[at].seg;
    assert at in kept;
    SelectShaped(slots, kept, |slots|);
    CurrentKept(slots, kept, |slots|, at, binding);
    BlocksInOrder(w, sel, speaker);
  }

  lemma CurrentStep(before: seq<Slot>, s: Slot, binding: string, isCurrent: bool)
    requires isCurrent <==> s.seg.kind.CurrentUser?
    requires isCurrent ==> s.content.Part? && ClassOf(before, binding, 3) == []
    ensures ClassOf(before + [s], binding, 3) ==
      if isCurrent then [Ranked(3, s.content.text)] else ClassOf(before, binding, 3)
  {
    ClassSnoc(before, s, binding, 3);
  }

  lemma {:induction false} CurrentKept(slots: seq<Slot>, kept: set<nat>, n: nat, at: nat, binding: string)
    requires n <= |slots| && at < |slots| && at in kept && slots[at].content.Part?
    requires forall i | 0 <= i < |slots| :: slots[i].seg.kind.CurrentUser? <==> i == at
    ensures ClassOf(Select(slots, kept, n), binding, 3) == if at < n then [Ranked(3, slots[at].content.text)] else []
  {
    if n > 0 {
      CurrentKept(slots, kept, n - 1, at, binding);
      if n - 1 in kept { CurrentStep(Select(slots, kept, n - 1), slots[n - 1], binding, n - 1 == at); }
    }
  }

  // ---- Budget and rendering together -------------------------------------

  /** Each history segment and the binding segment carry their reservations. */
  ghost predicate Reserves(w: Wording, slots: seq<Slot>, rule: nat) {
    && Shaped(slots)
    && (forall i | 0 <= i < |slots| :: slots[i].content.BindingRule? <==> i == rule)
    && (forall i | 0 <= i < |slots| && slots[i].content.Item? ::
          slots[i].seg.tokens == EstimateTokens(Reserved(w, slots[i].content.message)))
    && (rule < |slots| ==> slots[rule].seg.tokens == EstimateTokens(Binding(w, [], "")))
  }

  /** What the segments other than history and its binding were estimated at. */
  function OtherTokens(slots: seq<Slot>): nat {
    if slots == [] then 0
    else
      var s := slots[|slots| - 1];
      OtherTokens(slots[..|slots| - 1]) + if s.content.Part? then s.seg.tokens else 0
  }

  /** What the kept segments were estimated at, apart from the binding rule. */
  function Estimated(w: Wording, sel: seq<Slot>): nat { OtherTokens(sel) + ReservedTokens(w, Items(sel)) }

  /** The kept tokens among the first `n` segments, split into the binding rule's and the rest. */
  ghost predicate SplitAt(w: Wording, slots: seq<Slot>, kept: set<nat>, rule: nat, n: nat)
    requires n <= |slots| && rule < |slots|
  {
    Tokens(Segments(slots), kept, n) ==
    Estimated(w, Select(slots, kept, n)) + if rule < n then slots[rule].seg.tokens else 0
  }

  lemma {:induction false} TokensSplit(w: Wording, slots: seq<Slot>, kept: set<nat>, rule: nat, n: nat)
    requires Reserves(w, slots, rule) && n <= |slots| && rule in kept && rule < |slots|
    ensures SplitAt(w, slots, kept, rule, n)
  {
    if n == 0 {
      SplitNone(w, slots, kept, rule);
    } else {
      TokensSplit(w, slots, kept, rule, n - 1);
      SplitOne(w, slots, kept, rule, n - 1);
    }
  }

  lemma SplitNone(w: Wording, slots: seq<Slot>, kept: set<nat>, rule: nat)
    requires rule < |slots|
    ensures SplitAt(w, slots, kept, rule, 0)
  {}

  lemma SplitOne(w: Wording, slots: seq<Slot>, kept: set<nat>, rule: nat, n: nat)
    requires Reserves(w, slots, rule) && n < |slots| && rule in kept && rule < |slots|
    requires SplitAt(w, slots, kept, rule, n)
    ensures SplitAt(w, slots, kept, rule, n + 1)
  {
    assert Segments(slots)[n] == slots[n].seg;
    if n in kept { EstimatedSnoc(w, Select(slots, kept, n), slots[n]); }
  }

  lemma EstimatedSnoc(w: Wording, sel: seq<Slot>, s: Slot)
    requires s.content.Item? ==> s.seg.tokens == EstimateTokens(Reserved(w, s.content.message))
    ensures Estimated(w, sel + [s]) == Estimated(w, sel) + if s.content.BindingRule? then 0 else s.seg.tokens
  {
    assert (sel + [s])[..|sel|] == sel;
    if s.content.Item? {
      assert Items(sel + [s]) == Items(sel) + [s.content.message];
      ReservedSnoc(w, Items(sel), s.content.message);
    } else {
      assert Items(sel + [s]) == Items(sel);
    }
  }

  lemma ReservedSnoc(w: Wording, ms: seq<Prior>, m: Prior)
    ensures ReservedTokens(w, ms + [m]) == ReservedTokens(w, ms) + EstimateTokens(Reserved(w, m))
  {
    assert (ms + [m])[..|ms|] == ms;
  }

  /** Rendered, not just reserved: the history block and its source binding stay within
      what the budget left beside the other segments. */
  lemma RenderedHistoryFits(w: Wording, slots: seq<Slot>, budget: nat, kept: set<nat>, rule: nat, speaker: string)
    requires Reserves(w, slots, rule) && rule < |slots|
    requires IsAllocation(Segments(slots), budget, kept)
    ensures
      var segs, sel := Segments(slots), Select(slots, kept, |slots|);
      var mandatory := Tokens(segs, MandatoryIds(segs), |segs|);
      OtherTokens(sel) + RenderedTokens(w, Items(sel), speaker) <= if mandatory > budget then mandatory else budget
  {
    var segs := Segments(slots);
    assert segs[rule] == slots[rule].seg;
    TotalBounded(segs, budget, kept);
    TokensSplit(w, slots, kept, rule, |slots|);
    ReservationCovers(w, Items(Select(slots, kept, |slots|)), speaker);
  }
}
