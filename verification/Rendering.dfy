/** How kept history is rendered into a prompt, and what is reserved for it
    (domain/context/compiler.py, domain/history/source.py). */
module Rendering {

  /** One history message as the compiler reads it: `source`, `status`, `toolRelation`
      and `references` are its labels already in text, `content` has its white space
      collapsed, and `person` is the identified speaker (empty when there is none). */
  datatype Prior = Prior(
    id: string, isUser: bool, source: string, status: string, toolRelation: string,
    content: string, references: string, person: string)

  /** The fixed prompt texts, whose wording does not matter here. */
  datatype Wording = Wording(backgroundRule: string, bindingRule: string, relationsLead: string, noMatch: string)

  const BACKGROUND_TAG := "[BACKGROUND CONTEXT]"
  const UNKNOWN := "无法判断同人或不同人"
  const SAME := "同一识别来源"
  const DIFFERENT := "不同识别来源"

  function EstimateTokens(text: string): nat {
    if text == "" then 0 else if |text| / 3 < 1 then 1 else |text| / 3
  }

  function Join(sep: string, parts: seq<string>): string {
    if parts == [] then ""
    else if |parts| == 1 then parts[0]
    else Join(sep, parts[..|parts| - 1]) + sep + parts[|parts| - 1]
  }

  // ---- json.dumps of a string --------------------------------------------

  function Hex(n: nat): string
    requires n < 0x10000
  {
    var digits := "0123456789abcdef";
    [digits[n / 0x1000], digits[n / 0x100 % 0x10], digits[n / 0x10 % 0x10], digits[n % 0x10]]
  }

  /** Escapes of `ensure_ascii=False`. */
  function Escape(c: char): string {
    if c == '"' then "\\\"" else if c == '\\' then "\\\\"
    else if c == '\n' then "\\n" else if c == '\r' then "\\r" else if c == '\t' then "\\t"
    else if c as int == 8 then "\\b" else if c as int == 12 then "\\f"
    else if c as int < 0x20 then "\\u" + Hex(c as int)
    else [c]
  }

  /** Escapes of the default `ensure_ascii=True`: astral characters become two escapes. */
  function EscapeAscii(c: char): string {
    if c as int < 0x7f then Escape(c)
    else if c as int < 0x10000 then "\\u" + Hex(c as int)
    else
      var v := c as int - 0x10000;
      "\\u" + Hex(0xd800 + v / 0x400 % 0x400) + "\\u" + Hex(0xdc00 + v % 0x400)
  }

  function EscapeAll(s: string, ascii: bool): string {
    if s == "" then ""
    else EscapeAll(s[..|s| - 1], ascii) + if ascii then EscapeAscii(s[|s| - 1]) else Escape(s[|s| - 1])
  }

  function Quote(s: string, ascii: bool): string { "\"" + EscapeAll(s, ascii) + "\"" }

  lemma EscapeIsShorter(c: char)
    ensures |Escape(c)| <= |EscapeAscii(c)|
  {}

  lemma {:induction false} AsciiIsLonger(s: string)
    ensures |Quote(s, false)| <= |Quote(s, true)|
  {
    if s != "" {
      AsciiIsLonger(s[..|s| - 1]);
      EscapeIsShorter(s[|s| - 1]);
      assert |EscapeAll(s, true)| == |EscapeAll(s[..|s| - 1], true)| + |EscapeAscii(s[|s| - 1])|;
      assert |EscapeAll(s, false)| == |EscapeAll(s[..|s| - 1], false)| + |Escape(s[|s| - 1])|;
    }
  }

  // ---- The background block ----------------------------------------------

  function Line(m: Prior): string {
    "ref=" + Quote(m.id, true) + "; role=" + (if m.isUser then "user" else "assistant")
    + "; source=" + m.source + "; status=" + m.status + "; actionability=must_not_execute"
    + (if m.toolRelation != "" then "; tool_relation=" + m.toolRelation else "")
    + ": " + m.content + m.references
  }

  /** Messages without content leave no line. */
  function Lines(w: Wording, ms: seq<Prior>): seq<string> {
    if ms == [] then [BACKGROUND_TAG, w.backgroundRule]
    else Lines(w, ms[..|ms| - 1]) + if ms[|ms| - 1].content != "" then [Line(ms[|ms| - 1])] else []
  }

  function Background(w: Wording, ms: seq<Prior>): string { Join("\n", Lines(w, ms)) }

  method BackgroundBlock(w: Wording, ms: seq<Prior>) returns (block: string)
    ensures block == Background(w, ms)
  {
    var lines := [BACKGROUND_TAG, w.backgroundRule];
    for i := 0 to |ms|
      invariant lines == Lines(w, ms[..i])
    {
      assert ms[..i + 1][..i] == ms[..i];
      if ms[i].content != "" { lines := lines + [Line(ms[i])]; }
    }
    assert ms[..|ms|] == ms;
    block := Join("\n", lines);
  }

  // ---- The source binding ------------------------------------------------

  function Relation(m: Prior, current: string): string {
    if current == "" || m.person == "" then UNKNOWN else if current == m.person then SAME else DIFFERENT
  }

  function Entry(id: string, relation: string): string {
    "{\"ref\": " + Quote(id, false) + ", \"relation\": \"" + relation + "\"}"
  }

  function Matched(ms: seq<Prior>, current: string): seq<string> {
    if ms == [] then []
    else
      var m := ms[|ms| - 1];
      Matched(ms[..|ms| - 1], current)
      + if current != "" && m.isUser && m.person == current then [Quote(m.id, false)] else []
  }

  function Relations(ms: seq<Prior>, current: string): seq<string> {
    if ms == [] then []
    else
      var m := ms[|ms| - 1];
      Relations(ms[..|ms| - 1], current) + if m.isUser then [Entry(m.id, Relation(m, current))] else []
  }

  function List(items: seq<string>): string { "[" + Join(", ", items) + "]" }

  function Binding(w: Wording, ms: seq<Prior>, current: string): string {
    w.bindingRule + List(Matched(ms, current)) + w.relationsLead + List(Relations(ms, current))
    + if List(Matched(ms, current)) == "[]" then w.noMatch else ""
  }

  method HistoryBinding(w: Wording, ms: seq<Prior>, current: string) returns (binding: string)
    ensures binding == Binding(w, ms, current)
  {
    var refs: seq<string>, relations: seq<string> := [], [];
    for i := 0 to |ms|
      invariant refs == Matched(ms[..i], current)
      invariant relations == Relations(ms[..i], current)
    {
      assert ms[..i + 1][..i] == ms[..i];
      if ms[i].isUser { relations := relations + [Entry(ms[i].id, Relation(ms[i], current))]; }
      if current != "" && ms[i].isUser && ms[i].person == current { refs := refs + [Quote(ms[i].id, false)]; }
    }
    assert ms[..|ms|] == ms;
    var matched := List(refs);
    binding := w.bindingRule + matched + w.relationsLead + List(relations)
      + if matched == "[]" then w.noMatch else "";
  }

  // ---- The reservation ---------------------------------------------------

  /** What one history segment pays: its own block, one reference and one relation. */
  function Reserved(w: Wording, m: Prior): string {
    Background(w, [m]) + Quote(m.id, true) + ", " + Entry(m.id, UNKNOWN)
  }

  function ReservedTokens(w: Wording, ms: seq<Prior>): nat {
    if ms == [] then 0 else ReservedTokens(w, ms[..|ms| - 1]) + EstimateTokens(Reserved(w, ms[|ms| - 1]))
  }

  /** The history block is left out when no message was kept. */
  function RenderedTokens(w: Wording, ms: seq<Prior>, current: string): nat {
    (if ms == [] then 0 else EstimateTokens(Background(w, ms))) + EstimateTokens(Binding(w, ms, current))
  }

  function LineCost(m: Prior): nat { if m.content != "" then 1 + |Line(m)| else 0 }

  function LineCosts(ms: seq<Prior>): nat {
    if ms == [] then 0 else LineCosts(ms[..|ms| - 1]) + LineCost(ms[|ms| - 1])
  }

  function RefCost(m: Prior): nat { |Quote(m.id, true)| + |Entry(m.id, UNKNOWN)| }

  function RefCosts(ms: seq<Prior>): nat {
    if ms == [] then 0 else RefCosts(ms[..|ms| - 1]) + RefCost(ms[|ms| - 1])
  }

  function HeadLength(w: Wording): nat { 21 + |w.backgroundRule| }

  /** The length of a join: its parts and the separators between them. */
  function Total(parts: seq<string>): nat {
    if parts == [] then 0 else Total(parts[..|parts| - 1]) + |parts[|parts| - 1]|
  }

  lemma {:induction false} JoinLength(sep: string, parts: seq<string>)
    ensures parts != [] ==> |Join(sep, parts)| == Total(parts) + |sep| * (|parts| - 1)
    ensures parts == [] ==> Join(sep, parts) == "" && Total(parts) == 0
  {
    if |parts| == 1 {
      assert parts[..0] == [];
      assert Total(parts) == Total(parts[..0]) + |parts[0]|;
    } else if |parts| > 1 {
      JoinLength(sep, parts[..|parts| - 1]);
    }
  }

  lemma {:induction false} TotalSnoc(parts: seq<string>, p: string)
    ensures Total(parts + [p]) == Total(parts) + |p|
  {
    assert (parts + [p])[..|parts|] == parts;
  }

  lemma {:induction false} LinesLength(w: Wording, ms: seq<Prior>)
    ensures |Lines(w, ms)| >= 2
    ensures Total(Lines(w, ms)) + |Lines(w, ms)| - 1 == HeadLength(w) + LineCosts(ms)
  {
    if ms == [] {
      assert [BACKGROUND_TAG, w.backgroundRule] == [BACKGROUND_TAG] + [w.backgroundRule];
      assert [] + [BACKGROUND_TAG] == [BACKGROUND_TAG];
      TotalSnoc([], BACKGROUND_TAG);
      TotalSnoc([BACKGROUND_TAG], w.backgroundRule);
    } else {
      var rest, m := ms[..|ms| - 1], ms[|ms| - 1];
      LinesLength(w, rest);
      TotalSnoc(Lines(w, rest), Line(m));
      assert LineCosts(ms) == LineCosts(rest) + LineCost(m);
      assert Lines(w, ms) == if m.content != "" then Lines(w, rest) + [Line(m)] else Lines(w, rest);
    }
  }

  lemma BackgroundLength(w: Wording, ms: seq<Prior>)
    ensures |Background(w, ms)| == HeadLength(w) + LineCosts(ms)
  {
    LinesLength(w, ms);
    JoinLength("\n", Lines(w, ms));
  }

  lemma {:induction false} BindingLists(ms: seq<Prior>, current: string)
    ensures |Matched(ms, current)| <= |ms| && |Relations(ms, current)| <= |ms|
    ensures Total(Matched(ms, current)) + Total(Relations(ms, current)) <= RefCosts(ms)
  {
    if ms != [] {
      var rest, m := ms[..|ms| - 1], ms[|ms| - 1];
      BindingLists(rest, current);
      AsciiIsLonger(m.id);
      var refs, relations := Matched(rest, current), Relations(rest, current);
      TotalSnoc(refs, Quote(m.id, false));
      TotalSnoc(relations, Entry(m.id, Relation(m, current)));
      EntryLength(m.id, Relation(m, current));
      EntryLength(m.id, UNKNOWN);
      assert RefCosts(ms) == RefCosts(rest) + RefCost(m);
      assert Matched(ms, current) ==
        if current != "" && m.isUser && m.person == current then refs + [Quote(m.id, false)] else refs;
      assert Relations(ms, current) == if m.isUser then relations + [Entry(m.id, Relation(m, current))] else relations;
    }
  }

  lemma EntryLength(id: string, relation: string)
    ensures |Entry(id, relation)| == |Quote(id, false)| + |relation| + 25
  {}

  lemma ListLength(items: seq<string>)
    ensures items == [] ==> List(items) == "[]"
    ensures items != [] ==> |List(items)| == Total(items) + 2 * |items|
  {
    JoinLength(", ", items);
  }

  /** The binding grows by at most its items and their separators. */
  lemma BindingLength(w: Wording, ms: seq<Prior>, current: string)
    requires ms != []
    ensures |Binding(w, ms, current)| <= |Binding(w, [], "")| + RefCosts(ms) + 4 * (|ms| - 1)
    ensures |Binding(w, [], "")| >= 4
  {
    var refs, relations := Matched(ms, current), Relations(ms, current);
    BindingLists(ms, current);
    ListLength(refs);
    ListLength(relations);
    ListLength([]);
    BindingParts(w, refs, relations);
    BindingParts(w, [], []);
  }

  lemma BindingParts(w: Wording, refs: seq<string>, relations: seq<string>)
    ensures var tail := if List(refs) == "[]" then w.noMatch else "";
            |w.bindingRule + List(refs) + w.relationsLead + List(relations) + tail|
            == |w.bindingRule| + |List(refs)| + |w.relationsLead| + |List(relations)| + |tail|
  {}

  lemma ReservedLength(w: Wording, m: Prior)
    ensures |Reserved(w, m)| == HeadLength(w) + LineCost(m) + RefCost(m) + 2
  {
    BackgroundLength(w, [m]);
    assert [m][..0] == [];
    assert LineCosts([m]) == LineCosts([m][..0]) + LineCost(m);
  }

  lemma FloorLoss(text: string)
    ensures 3 * EstimateTokens(text) + 2 >= |text|
  {}

  /** Every reservation repeats the block head, which pays for what flooring loses. */
  lemma {:induction false} ReservedSum(w: Wording, ms: seq<Prior>)
    ensures 3 * ReservedTokens(w, ms) + 2 * |ms| >= |ms| * (HeadLength(w) + 2) + LineCosts(ms) + RefCosts(ms)
  {
    if ms != [] {
      var rest, m := ms[..|ms| - 1], ms[|ms| - 1];
      ReservedSum(w, rest);
      ReservedLength(w, m);
      FloorLoss(Reserved(w, m));
      Distribute(|rest|, HeadLength(w) + 2);
      assert |rest| + 1 == |ms|;
      assert ReservedTokens(w, ms) == ReservedTokens(w, rest) + EstimateTokens(Reserved(w, m));
      assert LineCosts(ms) == LineCosts(rest) + LineCost(m);
      assert RefCosts(ms) == RefCosts(rest) + RefCost(m);
    }
  }

  lemma Distribute(n: nat, h: nat)
    ensures (n + 1) * h == n * h + h
  {}

  /** The history reservation covers its rendering: the joined block and the real source
      binding never cost more tokens than was reserved message by message, with every
      estimate floored on its own, for any kept messages and any current speaker. */
  lemma ReservationCovers(w: Wording, ms: seq<Prior>, current: string)
    ensures RenderedTokens(w, ms, current) <= ReservedTokens(w, ms) + EstimateTokens(Binding(w, [], ""))
  {
    if ms != [] {
      var n, head, lines, refs, empty := |ms|, HeadLength(w), LineCosts(ms), RefCosts(ms), |Binding(w, [], "")|;
      BackgroundLength(w, ms);
      BindingLength(w, ms, current);
      LongEstimate(Background(w, ms), head + lines);
      LongEstimate(Binding(w, ms, current), empty + refs + 4 * (n - 1));
      LongEstimate(Binding(w, [], ""), empty);
      if n == 1 {
        assert ms == [ms[0]];
        OneMessage(w, ms[0]);
        FloorsCoverOne(head + lines, refs, empty);
      } else {
        ReservedSum(w, ms);
        ManyHeads(n, head);
        FloorsCover(n, head + lines, refs, empty, ReservedTokens(w, ms));
      }
    }
  }

  lemma LongEstimate(text: string, bound: nat)
    requires |text| <= bound && bound >= 3
    ensures EstimateTokens(text) <= bound / 3
    ensures |text| == bound ==> EstimateTokens(text) == bound / 3
  {}

  lemma OneMessage(w: Wording, m: Prior)
    ensures ReservedTokens(w, [m]) == (HeadLength(w) + LineCosts([m]) + RefCosts([m]) + 2) / 3
  {
    assert [m][..0] == [];
    ReservedLength(w, m);
    assert LineCosts([m]) == LineCosts([m][..0]) + LineCost(m);
    assert RefCosts([m]) == RefCosts([m][..0]) + RefCost(m);
    LongEstimate(Reserved(w, m), HeadLength(w) + LineCost(m) + RefCost(m) + 2);
    assert ReservedTokens(w, [m]) == ReservedTokens(w, [m][..0]) + EstimateTokens(Reserved(w, m));
  }

  lemma FloorsCoverOne(block: nat, refs: nat, empty: nat)
    ensures block / 3 + (empty + refs) / 3 <= (block + refs + 2) / 3 + empty / 3
  {}

  lemma FloorsCover(n: nat, block: nat, refs: nat, empty: nat, reserved: nat)
    requires n >= 1 && 3 * reserved >= block + 4 * n + refs
    ensures block / 3 + (empty + refs + 4 * (n - 1)) / 3 <= reserved + empty / 3
  {}

  lemma ManyHeads(n: nat, head: nat)
    requires n >= 2 && head >= 21
    ensures n * (head + 2) >= head + 6 * n
  {
    assert n * (head + 2) == head + (n - 1) * head + 2 * n;
    assert (n - 1) * head >= (n - 1) * 21;
  }
}
