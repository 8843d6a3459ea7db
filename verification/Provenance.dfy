/** What the rendered history says of where each message comes from
    (domain/history/source.py, domain/context/compiler.py). */
module Provenance {
  import opened Rendering

  /** The user's messages, in message order. */
  function Users(ms: seq<Prior>): seq<Prior> {
    if ms == [] then []
    else Users(ms[..|ms| - 1]) + if ms[|ms| - 1].isUser then [ms[|ms| - 1]] else []
  }

  predicate SameSpeaker(m: Prior, current: string) { current != "" && m.person == current }

  predicate OtherSpeaker(m: Prior, current: string) { current != "" && m.person != "" && m.person != current }

  /** The entry names its message, and the relation that holds. */
  ghost predicate TellsSpeaker(entry: string, m: Prior, current: string) {
    && (entry == Entry(m.id, SAME) <==> SameSpeaker(m, current))
    && (entry == Entry(m.id, DIFFERENT) <==> OtherSpeaker(m, current))
    && (entry == Entry(m.id, UNKNOWN) <==> current == "" || m.person == "")
  }

  /** An entry has one relation. */
  lemma EntryApart(id: string, a: string, b: string)
    requires Entry(id, a) == Entry(id, b)
    ensures a == b
  {
    var head := "{\"ref\": " + Quote(id, false) + ", \"relation\": \"";
    EntryLength(id, a);
    EntryLength(id, b);
    assert Entry(id, a) == head + a + "\"}" && Entry(id, b) == head + b + "\"}";
    assert Entry(id, a)[|head|..|head| + |a|] == a && Entry(id, b)[|head|..|head| + |b|] == b;
  }

  lemma RelationTells(m: Prior, current: string)
    ensures TellsSpeaker(Entry(m.id, Relation(m, current)), m, current)
  {
    assert |SAME| == 6 && SAME[0] != DIFFERENT[0] && SAME[0] != UNKNOWN[0] && DIFFERENT[0] != UNKNOWN[0];
    forall r | Entry(m.id, r) == Entry(m.id, Relation(m, current)) ensures r == Relation(m, current) {
      EntryApart(m.id, r, Relation(m, current));
    }
  }

  /** One entry for each message of the user, in message order and none for an assistant's;
      each names its message and how its speaker relates to the current one. */
  lemma {:induction false} RelationsMeaning(ms: seq<Prior>, current: string)
    ensures |Relations(ms, current)| == |Users(ms)|
    ensures forall i | 0 <= i < |Users(ms)| :: TellsSpeaker(Relations(ms, current)[i], Users(ms)[i], current)
  {
    if ms != [] {
      RelationsMeaning(ms[..|ms| - 1], current);
      RelationTells(ms[|ms| - 1], current);
    }
  }

  /** The references of the messages whose entry says that the speaker is the same. */
  function SaidSame(users: seq<Prior>, entries: seq<string>): seq<string>
    requires |users| == |entries|
  {
    if users == [] then []
    else
      var i := |users| - 1;
      SaidSame(users[..i], entries[..i])
      + if entries[i] == Entry(users[i].id, SAME) then [Quote(users[i].id, false)] else []
  }

  lemma SaidSameSnoc(users: seq<Prior>, entries: seq<string>, u: Prior, e: string)
    requires |users| == |entries|
    ensures SaidSame(users + [u], entries + [e]) ==
      SaidSame(users, entries) + if e == Entry(u.id, SAME) then [Quote(u.id, false)] else []
  {
    assert (users + [u])[..|users|] == users && (entries + [e])[..|users|] == entries;
  }

  /** A reference is listed as the speaker's own exactly when its entry says so. */
  lemma {:induction false} MatchedIsSame(ms: seq<Prior>, current: string)
    ensures |Relations(ms, current)| == |Users(ms)|
    ensures Matched(ms, current) == SaidSame(Users(ms), Relations(ms, current))
  {
    RelationsMeaning(ms, current);
    if ms != [] {
      var rest, m := ms[..|ms| - 1], ms[|ms| - 1];
      var e := Entry(m.id, Relation(m, current));
      MatchedIsSame(rest, current);
      RelationTells(m, current);
      SaidSameSnoc(Users(rest), Relations(rest, current), m, e);
      assert m.isUser ==> Users(ms) == Users(rest) + [m] && Relations(ms, current) == Relations(rest, current) + [e];
      assert !m.isUser ==> Users(ms) == Users(rest) && Relations(ms, current) == Relations(rest, current);
    }
  }

  lemma {:induction false} NoneMatched(ms: seq<Prior>, current: string)
    ensures Matched(ms, current) == [] <==> forall i | 0 <= i < |ms| :: !(ms[i].isUser && SameSpeaker(ms[i], current))
  {
    if ms != [] { NoneMatched(ms[..|ms| - 1], current); }
  }

  lemma {:induction false} TotalAtLeast(parts: seq<string>)
    requires parts != []
    ensures Total(parts) >= |parts[0]|
  {
    if |parts| > 1 { TotalAtLeast(parts[..|parts| - 1]); }
  }

  lemma {:induction false} MatchedQuoted(ms: seq<Prior>, current: string)
    ensures forall ref | ref in Matched(ms, current) :: |ref| >= 2
  {
    if ms != [] { MatchedQuoted(ms[..|ms| - 1], current); }
  }

  lemma EmptyList(ms: seq<Prior>, current: string)
    ensures List(Matched(ms, current)) == "[]" <==> Matched(ms, current) == []
  {
    var refs := Matched(ms, current);
    ListLength(refs);
    if refs != [] {
      MatchedQuoted(ms, current);
      TotalAtLeast(refs);
      assert refs[0] in refs;
    }
  }

  ghost predicate SpeaksIn(ms: seq<Prior>, current: string) {
    exists i :: 0 <= i < |ms| && ms[i].isUser && SameSpeaker(ms[i], current)
  }

  /** The notice that nothing can be attributed ends the binding exactly when no message of
      the user is known to be the current speaker's. */
  lemma NoticeIff(w: Wording, ms: seq<Prior>, current: string)
    ensures Binding(w, ms, current) ==
      w.bindingRule + List(Matched(ms, current)) + w.relationsLead + List(Relations(ms, current))
        + (if SpeaksIn(ms, current) then "" else w.noMatch)
  {
    NoneMatched(ms, current);
    EmptyList(ms, current);
  }

  // ---- the background block ----------------------------------------------

  /** The messages that leave a line. */
  function Told(ms: seq<Prior>): seq<Prior> {
    if ms == [] then []
    else Told(ms[..|ms| - 1]) + if ms[|ms| - 1].content != "" then [ms[|ms| - 1]] else []
  }

  ghost predicate EndsWith(line: string, end: string) { |end| <= |line| && line[|line| - |end|..] == end }

  /** The line names its message and role first and ends with what was said. */
  ghost predicate TellsMessage(line: string, m: Prior) {
    && "ref=" + Quote(m.id, true) + "; role=" + (if m.isUser then "user" else "assistant") + "; source=" <= line
    && EndsWith(line, ": " + m.content + m.references)
  }

  lemma EndsWithThree(x: string, a: string, b: string, c: string)
    ensures EndsWith(x + a + b + c, a + b + c) && x <= x + a + b + c
  {
    assert x + a + b + c == x + (a + b + c);
  }

  lemma StartsWithFive(x: string, a: string, b: string, c: string, d: string, e: string)
    ensures x <= x + a + b + c + d + e
  {
    EndsWithThree(x, a, b, c);
    EndsWithThree(x + a + b + c, d, e, "");
  }

  lemma LineTells(m: Prior)
    ensures TellsMessage(Line(m), m)
  {
    var start := "ref=" + Quote(m.id, true) + "; role=" + (if m.isUser then "user" else "assistant") + "; source=";
    var relation := if m.toolRelation != "" then "; tool_relation=" + m.toolRelation else "";
    var tags := start + m.source + "; status=" + m.status + "; actionability=must_not_execute" + relation;
    StartsWithFive(start, m.source, "; status=", m.status, "; actionability=must_not_execute", relation);
    EndsWithThree(tags, ": ", m.content, m.references);
    Prefixes(start, tags, tags + ": " + m.content + m.references);
  }

  lemma Prefixes(a: string, b: string, c: string)
    requires a <= b && b <= c
    ensures a <= c
  {}

  /** After its two head lines the block has one line for each message with content, in order. */
  lemma {:induction false} LinesTell(w: Wording, ms: seq<Prior>)
    ensures |Lines(w, ms)| == 2 + |Told(ms)|
    ensures forall i | 0 <= i < |Told(ms)| :: TellsMessage(Lines(w, ms)[2 + i], Told(ms)[i])
  {
    if ms != [] {
      LinesTell(w, ms[..|ms| - 1]);
      LineTells(ms[|ms| - 1]);
    }
  }
}
