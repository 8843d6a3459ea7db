/** When a prompt prefix is reused, from what is known before pruning
    (domain/context/compiler.py, domain/context/types.py). */
module PromptReuse {
  import opened Basics
  import opened Budget
  import opened Nesting
  import opened Rendering
  import opened Prompt

  /** A segment is kept whenever the mandatory ones and all that outrank it leave room. */
  lemma KeptWhenRoom(segs: seq<Segment>, budget: nat, kept: set<nat>, i: nat)
    requires IsAllocation(segs, budget, kept) && i < |segs|
    requires Tokens(segs, Before(segs, i), |segs|) + segs[i].tokens <= budget
    ensures i in kept
  {
    TokensMonotone(segs, Served(segs, kept, i), Before(segs, i), |segs|);
  }

  /** The budget has room for every history message, whatever it is spent on before. */
  ghost predicate RoomForHistory(slots: seq<Slot>, budget: nat) {
    forall i | 0 <= i < |slots| && slots[i].content.Item? ::
      Tokens(Segments(slots), Before(Segments(slots), i), |slots|) + slots[i].seg.tokens <= budget
  }

  lemma {:induction false} HistoryKept(slots: seq<Slot>, kept: set<nat>, n: nat)
    requires n <= |slots| && forall i | 0 <= i < |slots| && slots[i].content.Item? :: i in kept
    ensures Items(Select(slots, kept, n)) == Items(slots[..n])
  {
    if n > 0 {
      HistoryKept(slots, kept, n - 1);
      ItemsSnoc(slots[..n - 1], slots[n - 1]);
      assert slots[..n] == slots[..n - 1] + [slots[n - 1]];
      if n - 1 in kept { ItemsSnoc(Select(slots, kept, n - 1), slots[n - 1]); }
    }
  }

  lemma ItemsSnoc(slots: seq<Slot>, s: Slot)
    ensures Items(slots + [s]) == if s.content.Item? then Items(slots) + [s.content.message] else Items(slots)
  {
    assert (slots + [s])[..|slots|] == slots;
  }

  lemma HistorySurvives(slots: seq<Slot>, budget: nat, kept: set<nat>)
    requires IsAllocation(Segments(slots), budget, kept) && RoomForHistory(slots, budget)
    ensures Items(Select(slots, kept, |slots|)) == Items(slots) && MandatoryIds(Segments(slots)) <= kept
  {
    forall i | 0 <= i < |slots| && slots[i].content.Item? ensures i in kept {
      assert Segments(slots)[i] == slots[i].seg;
      KeptWhenRoom(Segments(slots), budget, kept, i);
    }
    HistoryKept(slots, kept, |slots|);
    assert slots[..|slots|] == slots;
  }

  /** While both budgets have room for their history windows and the later window only
      appends, the next prompt reuses the stable text and the whole history block before it. */
  lemma ReusedWhenRoom(w: Wording, first: seq<Slot>, budget1: nat, kept1: set<nat>, speaker1: string,
                       second: seq<Slot>, budget2: nat, kept2: set<nat>, speaker2: string, more: seq<Prior>)
    requires Shaped(first) && IsAllocation(Segments(first), budget1, kept1) && RoomForHistory(first, budget1)
    requires Shaped(second) && IsAllocation(Segments(second), budget2, kept2) && RoomForHistory(second, budget2)
    requires StableParts(first) == StableParts(second) && Items(second) == Items(first) + more
    ensures
      var shared := Join("\n\n", Texts(StableParts(first)) + HistoryText(w, Items(first)));
      && shared <= SystemPrompt(w, Select(first, kept1, |first|), speaker1)
      && shared <= SystemPrompt(w, Select(second, kept2, |second|), speaker2)
  {
    HistorySurvives(first, budget1, kept1);
    HistorySurvives(second, budget2, kept2);
    PrefixReused(w, first, kept1, speaker1, second, kept2, speaker2, more);
  }
}
