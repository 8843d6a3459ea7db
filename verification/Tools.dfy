/** Tool rounds of a turn (domain/agent/turn.py): which calls are dispatched, which are
    suppressed after a failure, and how results return to the conversation. */
module Tools {

  datatype ToolCall = ToolCall(id: string, name: string)

  datatype Result = Result(callId: string, name: string, ok: bool, content: string, handsOff: bool)

  /** What the dispatcher reports for one call. */
  datatype Report = Report(ok: bool, content: string, handsOff: bool)

  const MAX_FAILURES: nat := 1

  /** Failures of a tool since its last success in this turn. */
  type Counts = map<string, nat>

  predicate Blocked(counts: Counts, name: string) {
    name in counts && counts[name] >= MAX_FAILURES
  }

  function Suppressed(call: ToolCall): Result {
    Result(call.id, call.name, false, "tool_repeat_suppressed", false)
  }

  /** The dispatcher answers every call once, in order, under its own id and name. */
  function Reported(calls: seq<ToolCall>, reports: seq<Report>): (r: seq<Result>)
    ensures |r| == |calls|
    ensures forall i | 0 <= i < |calls| :: r[i].callId == calls[i].id && r[i].name == calls[i].name
  {
    seq(|calls|, i requires 0 <= i < |calls| =>
      if i < |reports| then Result(calls[i].id, calls[i].name, reports[i].ok, reports[i].content, reports[i].handsOff)
      else Result(calls[i].id, calls[i].name, false, "tool_not_found", false))
  }

  function ToDispatch(calls: seq<ToolCall>, counts: Counts): seq<ToolCall> {
    if calls == [] then []
    else
      var front, c := ToDispatch(calls[..|calls| - 1], counts), calls[|calls| - 1];
      if Blocked(counts, c.name) then front else front + [c]
  }

  function ToSuppress(calls: seq<ToolCall>, counts: Counts): seq<Result> {
    if calls == [] then []
    else
      var front, c := ToSuppress(calls[..|calls| - 1], counts), calls[|calls| - 1];
      if Blocked(counts, c.name) then front + [Suppressed(c)] else front
  }

  method Split(calls: seq<ToolCall>, counts: Counts) returns (dispatch: seq<ToolCall>, suppressed: seq<Result>)
    ensures dispatch == ToDispatch(calls, counts) && suppressed == ToSuppress(calls, counts)
  {
    dispatch, suppressed := [], [];
    for i := 0 to |calls|
      invariant dispatch == ToDispatch(calls[..i], counts) && suppressed == ToSuppress(calls[..i], counts)
    {
      assert calls[..i + 1][..i] == calls[..i];
      if Blocked(counts, calls[i].name) {
        suppressed := suppressed + [Suppressed(calls[i])];
      } else {
        dispatch := dispatch + [calls[i]];
      }
    }
    assert calls[..|calls|] == calls;
  }

  // ---- _merge_tool_results -----------------------------------------------

  function ById(results: seq<Result>): map<string, Result> {
    if results == [] then map[]
    else ById(results[..|results| - 1])[results[|results| - 1].callId := results[|results| - 1]]
  }

  function Merged(calls: seq<ToolCall>, byId: map<string, Result>): seq<Result> {
    if calls == [] then []
    else
      var front, c := Merged(calls[..|calls| - 1], byId), calls[|calls| - 1];
      if c.id in byId then front + [byId[c.id]] else front
  }

  method MergeResults(calls: seq<ToolCall>, results: seq<Result>) returns (ordered: seq<Result>)
    ensures ordered == Merged(calls, ById(results))
  {
    var byId := map[];
    for i := 0 to |results|
      invariant byId == ById(results[..i])
    {
      assert results[..i + 1][..i] == results[..i];
      byId := byId[results[i].callId := results[i]];
    }
    assert results[..|results|] == results;
    ordered := [];
    for i := 0 to |calls|
      invariant ordered == Merged(calls[..i], byId)
    {
      assert calls[..i + 1][..i] == calls[..i];
      if calls[i].id in byId { ordered := ordered + [byId[calls[i].id]]; }
    }
    assert calls[..|calls|] == calls;
  }

  // ---- failure counts ----------------------------------------------------

  function CountOne(counts: Counts, r: Result): Counts {
    if r.ok then counts - {r.name}
    else counts[r.name := (if r.name in counts then counts[r.name] else 0) + 1]
  }

  function CountAll(counts: Counts, results: seq<Result>): Counts {
    if results == [] then counts else CountOne(CountAll(counts, results[..|results| - 1]), results[|results| - 1])
  }

  method Recount(counts: Counts, results: seq<Result>) returns (after: Counts)
    ensures after == CountAll(counts, results)
  {
    after := counts;
    for i := 0 to |results|
      invariant after == CountAll(counts, results[..i])
    {
      assert results[..i + 1][..i] == results[..i];
      var r := results[i];
      if r.ok {
        after := after - {r.name};
      } else {
        after := after[r.name := (if r.name in after then after[r.name] else 0) + 1];
      }
    }
    assert results[..|results|] == results;
  }

  predicate Names(results: seq<Result>, name: string) {
    results != [] && (results[|results| - 1].name == name || Names(results[..|results| - 1], name))
  }

  /** The last result for a tool name in a round failed. */
  predicate LastFailed(results: seq<Result>, name: string) {
    results != [] &&
    (if results[|results| - 1].name == name then !results[|results| - 1].ok
     else LastFailed(results[..|results| - 1], name))
  }

  lemma {:induction false} CountMeaning(counts: Counts, results: seq<Result>, name: string)
    requires forall n | n in counts :: counts[n] >= 1
    ensures forall n | n in CountAll(counts, results) :: CountAll(counts, results)[n] >= 1
    ensures Blocked(CountAll(counts, results), name) <==>
      if Names(results, name) then LastFailed(results, name) else Blocked(counts, name)
  {
    if results != [] { CountMeaning(counts, results[..|results| - 1], name); }
  }

  // ---- a round -----------------------------------------------------------

  /** One pass of the tool loop: the model's calls, those dispatched, and the results. */
  datatype Round = Round(calls: seq<ToolCall>, dispatched: seq<ToolCall>, results: seq<Result>)

  function RoundOf(calls: seq<ToolCall>, counts: Counts, reports: seq<Report>): Round {
    var d := ToDispatch(calls, counts);
    Round(calls, d, Merged(calls, ById(Reported(d, reports) + ToSuppress(calls, counts))))
  }

  lemma {:induction false} SplitMembers(calls: seq<ToolCall>, counts: Counts)
    ensures forall c :: c in ToDispatch(calls, counts) <==> c in calls && !Blocked(counts, c.name)
    ensures forall r :: r in ToSuppress(calls, counts) <==>
      exists c :: c in calls && Blocked(counts, c.name) && r == Suppressed(c)
  {
    if calls != [] {
      var front, c := calls[..|calls| - 1], calls[|calls| - 1];
      SplitMembers(front, counts);
      assert calls == front + [c];
      forall r
        ensures r in ToSuppress(calls, counts) <==>
          exists x :: x in calls && Blocked(counts, x.name) && r == Suppressed(x)
      {
        if x :| x in calls && Blocked(counts, x.name) && r == Suppressed(x) { assert x in front || x == c; }
        if r in ToSuppress(front, counts) {
          var x :| x in front && Blocked(counts, x.name) && r == Suppressed(x);
          assert x in calls;
        }
      }
    }
  }

  lemma {:induction false} ByIdMeaning(results: seq<Result>)
    ensures forall r | r in results :: r.callId in ById(results)
    ensures forall k | k in ById(results) :: ById(results)[k] in results && ById(results)[k].callId == k
  {
    if results != [] {
      ByIdMeaning(results[..|results| - 1]);
      assert results == results[..|results| - 1] + [results[|results| - 1]];
    }
  }

  lemma {:induction false} MergedMeaning(calls: seq<ToolCall>, byId: map<string, Result>)
    requires forall c | c in calls :: c.id in byId
    ensures |Merged(calls, byId)| == |calls|
    ensures forall i | 0 <= i < |calls| :: Merged(calls, byId)[i] == byId[calls[i].id]
  {
    if calls != [] {
      assert calls == calls[..|calls| - 1] + [calls[|calls| - 1]];
      MergedMeaning(calls[..|calls| - 1], byId);
    }
  }

  /** Every call of the round gets exactly one result, under its own id, in call order. */
  ghost predicate Answered(r: Round) {
    && |r.results| == |r.calls|
    && forall i | 0 <= i < |r.calls| :: r.results[i].callId == r.calls[i].id
  }

  lemma RoundAnswered(calls: seq<ToolCall>, counts: Counts, reports: seq<Report>)
    ensures Answered(RoundOf(calls, counts, reports))
    ensures forall r | r in RoundOf(calls, counts, reports).results :: r.ok ==> !Blocked(counts, r.name)
  {
    var d, s := ToDispatch(calls, counts), ToSuppress(calls, counts);
    var results := Reported(d, reports) + s;
    SplitMembers(calls, counts);
    ByIdMeaning(results);
    forall c | c in calls ensures c.id in ById(results) {
      if Blocked(counts, c.name) {
        assert Suppressed(c) in s && Suppressed(c) in results;
      } else {
        var i :| 0 <= i < |d| && d[i] == c;
        assert results[i] == Reported(d, reports)[i] && results[i] in results;
      }
    }
    MergedMeaning(calls, ById(results));
    var merged := Merged(calls, ById(results));
    forall r | r in merged ensures r in results && (r.ok ==> !Blocked(counts, r.name)) {
      var i :| 0 <= i < |merged| && merged[i] == r;
      assert r == ById(results)[calls[i].id];
      if r.ok {
        assert r !in s;
        assert forall k | |d| <= k < |results| :: results[k] in s;
        var j :| 0 <= j < |results| && results[j] == r;
        assert d[j] in d;
      }
    }
  }

  ghost predicate DistinctIds(calls: seq<ToolCall>) {
    forall i, j | 0 <= i < j < |calls| :: calls[i].id != calls[j].id
  }

  /** With distinct call ids the i-th result is the suppression of the i-th call exactly
      when its tool was blocked, and a dispatched answer under its own name otherwise. */
  lemma RoundMixes(calls: seq<ToolCall>, counts: Counts, reports: seq<Report>, i: nat)
    requires DistinctIds(calls) && i < |calls|
    ensures |RoundOf(calls, counts, reports).results| == |calls|
    ensures
      var r := RoundOf(calls, counts, reports).results[i];
      if Blocked(counts, calls[i].name) then r == Suppressed(calls[i])
      else r.name == calls[i].name && r in Reported(ToDispatch(calls, counts), reports)
  {
    RoundAnswered(calls, counts, reports);
    var d, s := ToDispatch(calls, counts), ToSuppress(calls, counts);
    var results := Reported(d, reports) + s;
    SplitMembers(calls, counts);
    ByIdMeaning(results);
    var r := RoundOf(calls, counts, reports).results[i];
    assert calls[i] in calls;
    assert r in results by { Found(calls, ById(results), i, results); }
    var j :| 0 <= j < |results| && results[j] == r;
    if j < |d| {
      assert d[j] in d;
      SameCall(calls, calls[i], d[j]);
      assert Reported(d, reports)[j] == r;
    } else {
      assert s[j - |d|] == r && r in s;
      var c :| c in calls && Blocked(counts, c.name) && r == Suppressed(c);
      SameCall(calls, calls[i], c);
    }
  }

  lemma Found(calls: seq<ToolCall>, byId: map<string, Result>, i: nat, results: seq<Result>)
    requires |Merged(calls, byId)| == |calls| && i < |calls|
    requires forall k | k in byId :: byId[k] in results
    ensures Merged(calls, byId)[i] in results
  {
    MergedFrom(calls, byId);
    assert Merged(calls, byId)[i] in Merged(calls, byId);
  }

  lemma {:induction false} MergedFrom(calls: seq<ToolCall>, byId: map<string, Result>)
    ensures forall r | r in Merged(calls, byId) :: exists k :: k in byId && byId[k] == r
  {
    if calls != [] { MergedFrom(calls[..|calls| - 1], byId); }
  }

  lemma SameCall(calls: seq<ToolCall>, a: ToolCall, b: ToolCall)
    requires DistinctIds(calls) && a in calls && b in calls && a.id == b.id
    ensures a == b
  {
    var i :| 0 <= i < |calls| && calls[i] == a;
    var j :| 0 <= j < |calls| && calls[j] == b;
    assert !(i < j) && !(j < i);
  }

  lemma {:induction false} DispatchPosition(calls: seq<ToolCall>, counts: Counts, i: nat)
    requires i < |calls| && !Blocked(counts, calls[i].name)
    ensures
      var k, d := |ToDispatch(calls[..i], counts)|, ToDispatch(calls, counts);
      k < |d| && d[k] == calls[i]
  {
    var front := calls[..|calls| - 1];
    if i == |front| {
      assert calls[..i] == front;
    } else {
      DispatchPosition(front, counts, i);
      assert front[..i] == calls[..i];
    }
  }

  lemma {:induction false} DispatchDistinct(calls: seq<ToolCall>, counts: Counts)
    requires DistinctIds(calls)
    ensures DistinctIds(ToDispatch(calls, counts))
  {
    if calls != [] {
      var front := calls[..|calls| - 1];
      DispatchDistinct(front, counts);
      SplitMembers(front, counts);
      var d := ToDispatch(front, counts);
      forall i | 0 <= i < |d| ensures d[i].id != calls[|calls| - 1].id {
        assert d[i] in d;
        var j :| 0 <= j < |front| && front[j] == d[i];
        assert calls[j] == front[j];
      }
    }
  }

  /** A dispatched call's result is the dispatcher's report for it: the k-th report, when `k`
      calls before it were dispatched. */
  lemma DispatchedGetsItsReport(calls: seq<ToolCall>, counts: Counts, reports: seq<Report>, i: nat)
    requires DistinctIds(calls) && i < |calls| && !Blocked(counts, calls[i].name)
    requires |reports| == |ToDispatch(calls, counts)|
    ensures |RoundOf(calls, counts, reports).results| == |calls|
    ensures
      var k, c := |ToDispatch(calls[..i], counts)|, calls[i];
      && k < |reports|
      && RoundOf(calls, counts, reports).results[i]
           == Result(c.id, c.name, reports[k].ok, reports[k].content, reports[k].handsOff)
  {
    var d, k := ToDispatch(calls, counts), |ToDispatch(calls[..i], counts)|;
    RoundMixes(calls, counts, reports, i);
    RoundAnswered(calls, counts, reports);
    DispatchPosition(calls, counts, i);
    DispatchDistinct(calls, counts);
    var r := RoundOf(calls, counts, reports).results[i];
    var j :| 0 <= j < |d| && Reported(d, reports)[j] == r;
    assert d[j].id == d[k].id;
    assert !(j < k) && !(k < j);
  }

  // ---- suppression over a turn -------------------------------------------

  predicate Dispatches(r: Round, name: string) {
    exists i :: 0 <= i < |r.dispatched| && r.dispatched[i].name == name
  }

  /** A tool whose last result in some round failed is never dispatched again. */
  ghost predicate SuppressedForGood(rounds: seq<Round>) {
    forall i, j, name | 0 <= i < j < |rounds| && LastFailed(rounds[i].results, name) :: !Dispatches(rounds[j], name)
  }

  /** The counts know every failure of the rounds so far. */
  ghost predicate Remembers(counts: Counts, rounds: seq<Round>) {
    && (forall n | n in counts :: counts[n] >= 1)
    && (forall i, name | 0 <= i < |rounds| && LastFailed(rounds[i].results, name) :: Blocked(counts, name))
  }

  lemma RoundKeepsSuppression(rounds: seq<Round>, counts: Counts, calls: seq<ToolCall>, reports: seq<Report>)
    requires SuppressedForGood(rounds) && Remembers(counts, rounds)
    ensures
      var r := RoundOf(calls, counts, reports);
      SuppressedForGood(rounds + [r]) && Remembers(CountAll(counts, r.results), rounds + [r])
  {
    var r := RoundOf(calls, counts, reports);
    var all, after := rounds + [r], CountAll(counts, r.results);
    RoundAnswered(calls, counts, reports);
    SplitMembers(calls, counts);
    forall name | Dispatches(r, name) ensures !Blocked(counts, name) {
      var i :| 0 <= i < |r.dispatched| && r.dispatched[i].name == name;
      assert r.dispatched[i] in r.dispatched;
    }
    forall n | n in after ensures after[n] >= 1 { CountMeaning(counts, r.results, n); }
    forall i, name | 0 <= i < |all| && LastFailed(all[i].results, name) ensures Blocked(after, name) {
      CountMeaning(counts, r.results, name);
      if i < |rounds| {
        assert Blocked(counts, name);
        if Names(r.results, name) { StillFailed(r.results, name); }
      } else {
        FailedIsNamed(r.results, name);
      }
    }
  }

  lemma {:induction false} StillFailed(results: seq<Result>, name: string)
    requires Names(results, name) && forall r | r in results && r.name == name :: !r.ok
    ensures LastFailed(results, name)
  {
    if results[|results| - 1].name != name {
      StillFailed(results[..|results| - 1], name);
    } else {
      assert results[|results| - 1] in results;
    }
  }

  lemma {:induction false} FailedIsNamed(results: seq<Result>, name: string)
    requires LastFailed(results, name)
    ensures Names(results, name)
  {
    if results[|results| - 1].name != name { FailedIsNamed(results[..|results| - 1], name); }
  }

  /** A corollary: each tool has at most one round in which a dispatch of it ends in failure. */
  lemma OneDispatchedFailure(rounds: seq<Round>, name: string, i: nat, j: nat)
    requires SuppressedForGood(rounds) && i < |rounds| && j < |rounds|
    requires Dispatches(rounds[i], name) && LastFailed(rounds[i].results, name)
    requires Dispatches(rounds[j], name) && LastFailed(rounds[j].results, name)
    ensures i == j
  {
  }
}
