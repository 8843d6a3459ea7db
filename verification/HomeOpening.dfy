/** When a closed home session's key opens again, exactly, and why gets under another
    Companion's scope do not hold it closed (app/smarthome/sessions.py). */
module HomeOpenings {
  import opened Basics
  import opened HomeContexts
  import opened HomeCommands
  import opened HomeStores
  import opened HomeRuns
  import opened HomeTables

  /** A closed session of the key that `get` still finds. */
  ghost predicate ClosedAt(s: State, i: nat) {
    Inv(s) && i in s.store.heap && !s.store.heap[i].context.active && Reachable(s.store, i)
  }

  lemma FullestSweep(s: State, i: nat)
    requires ClosedAt(s, i) && Stale(s.store.heap[i], s.now, s.lim.ttl)
    ensures |Sweep(s.store, s.now, s.lim.ttl).table| < s.lim.capacity
    ensures KeyOf(s.store.heap[i].scope) !in Sweep(s.store, s.now, s.lim.ttl).table
  {
    var key, swept := KeyOf(s.store.heap[i].scope), Sweep(s.store, s.now, s.lim.ttl);
    SmallerSet(swept.table.Keys, s.store.table.Keys - {key});
    assert |s.store.table.Keys - {key}| == |s.store.table.Keys| - 1;
    assert |swept.table| == |swept.table.Keys| && |s.store.table| == |s.store.table.Keys|;
  }

  /** A `get` of a closed key succeeds exactly when its session is unlocked and was last
      touched at least the TTL ago, whatever Companion asks and however full the table is. */
  lemma OpensIff(s: State, i: nat, scope: Scope)
    requires ClosedAt(s, i) && KeyOf(scope) == KeyOf(s.store.heap[i].scope)
    ensures Opens(s, scope) <==> Stale(s.store.heap[i], s.now, s.lim.ttl)
  {
    var x, swept := s.store.heap[i], Sweep(s.store, s.now, s.lim.ttl);
    SweepKeeps(s.store, s.store.table.Keys, s.now, s.lim.ttl);
    SweepOthers(s.store, s.now, s.lim.ttl, i);
    if Stale(x, s.now, s.lim.ttl) { FullestSweep(s, i); }
  }

  // ---- gets of other Companions ------------------------------------------

  predicate AsksFor(e: Event, key: Key) { (e.Arrive? || e.EndSession?) && KeyOf(e.scope) == key }

  /** A gap in which nobody at all asks for the key. */
  ghost predicate KeyGap(s: State, acts: seq<Moment>, i: nat, from: nat, to: nat)
    requires Inv(s) && i in s.store.heap
  {
    && from < to <= |acts| && TimeOf(s, acts, to, i) - TimeOf(s, acts, from, i) >= s.lim.ttl
    && forall k | from <= k < to - 1 :: !AsksFor(acts[k].event, KeyOf(s.store.heap[i].scope))
  }

  /** While only its own scope asks for a closed key, the gap before it opens is one in which
      nobody asks for it. */
  lemma OpensAfterKeyGap(s: State, acts: seq<Moment>, i: nat, scope: Scope, heard: string, delay: nat)
    returns (from: nat, to: nat)
    requires ClosedAt(s, i) && NoClear(acts)
    requires forall k | 0 <= k < |acts| && AsksFor(acts[k].event, KeyOf(s.store.heap[i].scope)) ::
      acts[k].event.scope == s.store.heap[i].scope
    requires KeyOf(scope) == KeyOf(s.store.heap[i].scope) && Opens(Later(Run(s, acts), delay), scope)
    ensures KeyGap(s, acts + [At(delay, Arrive(scope, heard))], i, from, to)
  {
    from, to := ClosedOpensAfterGap(s, acts, i, scope, heard, delay);
    OwnGap(s, acts, At(delay, Arrive(scope, heard)), i, from, to);
  }

  lemma OwnGap(s: State, acts: seq<Moment>, last: Moment, i: nat, from: nat, to: nat)
    requires Inv(s) && i in s.store.heap && Gap(s, acts + [last], i, from, to)
    requires forall k | 0 <= k < |acts| && AsksFor(acts[k].event, KeyOf(s.store.heap[i].scope)) ::
      acts[k].event.scope == s.store.heap[i].scope
    ensures KeyGap(s, acts + [last], i, from, to)
  {
    var all, x := acts + [last], s.store.heap[i];
    forall k | from <= k < to - 1 ensures !AsksFor(all[k].event, KeyOf(x.scope)) {
      assert all[k] == acts[k] && !Touches(all[k].event, x.scope);
    }
  }

  /** Session `i` is closed, unlocked and untouched still, `delay` later. */
  ghost predicate StillClosed(s: State, after: State, i: nat, delay: nat) {
    && i in s.store.heap && ClosedAt(after, i) && after.now == s.now + delay && after.lim == s.lim
    && var x, y := s.store.heap[i], after.store.heap[i];
       y.holder.None? && y.touched == x.touched && y.scope == x.scope
  }

  /** A `get` under another Companion's scope leaves a closed session as it was. */
  lemma ForeignGet(s: State, i: nat, other: Scope, heard: string)
    requires ClosedAt(s, i) && other != s.store.heap[i].scope && KeyOf(other) == KeyOf(s.store.heap[i].scope)
    requires s.store.heap[i].holder.None? && !Stale(s.store.heap[i], s.now, s.lim.ttl)
    ensures StillClosed(s, Arrived(s, other, heard), i, 0)
  {
    ArrivedFated(s, other, heard, i);
    HappensKeeps(s, Arrive(other, heard));
    GetOthers(s.store, other, s.now, s.lim, s.next, i);
    OpensIff(s, i, other);
  }

  lemma ForeignStep(s: State, i: nat, other: Scope, heard: string, delay: nat)
    requires ClosedAt(s, i) && other != s.store.heap[i].scope && KeyOf(other) == KeyOf(s.store.heap[i].scope)
    requires s.store.heap[i].holder.None? && !Stale(s.store.heap[i], s.now + delay, s.lim.ttl)
    ensures StillClosed(s, Step(s, At(delay, Arrive(other, heard))), i, delay)
  {
    ClockKeeps(s, delay);
    ForeignGet(Later(s, delay), i, other, heard);
    StepKeeps(s, At(delay, Arrive(other, heard)));
  }

  lemma StillOpens(s: State, after: State, i: nat, delay: nat)
    requires StillClosed(s, after, i, delay) && s.now + delay + 1 - s.store.heap[i].touched >= s.lim.ttl
    ensures Opens(Later(after, 1), s.store.heap[i].scope)
  {
    ClockKeeps(after, 1);
    OpensIff(Later(after, 1), i, s.store.heap[i].scope);
  }

  /** So a key can open although it was asked for within the TTL: one foreign `get` just
      before the time is up, and the own `get` just after, leave no gap in which nobody asks. */
  lemma ForeignGetsDoNotCount(s: State, i: nat, other: Scope, heard: string, again: string)
    requires ClosedAt(s, i) && s.store.heap[i].holder.None? && s.store.heap[i].touched == s.now
    requires other != s.store.heap[i].scope && KeyOf(other) == KeyOf(s.store.heap[i].scope) && s.lim.ttl >= 2
    ensures
      var own, acts := s.store.heap[i].scope, [At(s.lim.ttl - 1, Arrive(other, heard))];
      && Opens(Later(Run(s, acts), 1), own)
      && forall from, to :: !KeyGap(s, acts + [At(1, Arrive(own, again))], i, from, to)
  {
    var own, foreign := s.store.heap[i].scope, At(s.lim.ttl - 1, Arrive(other, heard));
    RunSnoc(s, [], foreign);
    assert [] + [foreign] == [foreign];
    ForeignStep(s, i, other, heard, s.lim.ttl - 1);
    StillOpens(s, Run(s, [foreign]), i, s.lim.ttl - 1);
    NoKeyGap(s, i, foreign, At(1, Arrive(own, again)));
  }

  lemma NoKeyGap(s: State, i: nat, foreign: Moment, last: Moment)
    requires ClosedAt(s, i) && s.store.heap[i].touched == s.now && s.lim.ttl >= 2
    requires AsksFor(foreign.event, KeyOf(s.store.heap[i].scope))
    requires foreign.delay == s.lim.ttl - 1 && last.delay == 1
    ensures forall from, to :: !KeyGap(s, [foreign] + [last], i, from, to)
  {
    TwoTimes(s, i, foreign, last);
    forall from, to ensures !KeyGap(s, [foreign] + [last], i, from, to) {
      if from == 0 && to == 2 { assert AsksFor(([foreign] + [last])[0].event, KeyOf(s.store.heap[i].scope)); }
    }
  }

  lemma TwoTimes(s: State, i: nat, a: Moment, b: Moment)
    requires Inv(s) && i in s.store.heap && s.store.heap[i].touched == s.now
    ensures TimeOf(s, [a] + [b], 0, i) == s.now
    ensures TimeOf(s, [a] + [b], 1, i) == s.now + a.delay
    ensures TimeOf(s, [a] + [b], 2, i) == s.now + a.delay + b.delay
  {
    OneTime(s, i, a);
    SameTimes(s, [a], b, i);
  }

  lemma OneTime(s: State, i: nat, a: Moment)
    requires Inv(s) && i in s.store.heap && s.store.heap[i].touched == s.now
    ensures TimeOf(s, [a], 0, i) == s.now && TimeOf(s, [a], 1, i) == Run(s, [a]).now == s.now + a.delay
  {
    RunOne(s, a);
    ClockMoves(s, a);
    assert [a][..1] == [a];
  }

  /** Such a state is reached at once: a command arrives, is withdrawn, and the session ends. */
  lemma ClosedReached(lim: Limits, now: int, own: Scope, heard: string)
    requires lim.capacity >= 1
    ensures Inv(Opened(lim, now))
    ensures
      var s := Run(Opened(lim, now), [At(0, Arrive(own, heard)), At(0, Cancel(0)), At(0, EndSession(own))]);
      && ClosedAt(s, 0) && s.store.heap[0].scope == own && s.store.heap[0].holder.None?
      && s.store.heap[0].touched == s.now && s.lim == lim
  {
    OpenedInv(lim, now);
    var a, b, c := At(0, Arrive(own, heard)), At(0, Cancel(0)), At(0, EndSession(own));
    var s := Opened(lim, now);
    assert [a, b, c] == [a, b] + [c] && [a, b] == [a] + [b] && [a] == [] + [a];
    RunSnoc(s, [], a);
    RunSnoc(s, [a], b);
    RunSnoc(s, [a, b], c);
    FirstArrives(s, own, heard);
    FirstCancelled(Run(s, [a]), own);
    EndingTouches(Run(s, [a, b]), own, 0);
    ClockMoves(Run(s, [a, b]), c);
    EndingFrees(Run(s, [a, b]), own);
  }

  /** One session, in the table under its key, with its command in flight. */
  ghost predicate JustArrived(s: State, own: Scope) {
    && Inv(s) && |s.turns| == 1 && s.turns[0].session == 0 && InFlight(s.turns[0].pc)
    && s.store.table == map[KeyOf(own) := 0] && s.store.heap.Keys == {0} && s.store.heap[0].scope == own
  }

  lemma FirstArrives(s: State, own: Scope, heard: string)
    requires Inv(s) && s == Opened(s.lim, s.now) && s.lim.capacity >= 1
    ensures JustArrived(Step(s, At(0, Arrive(own, heard))), own)
    ensures Step(s, At(0, Arrive(own, heard))).lim == s.lim
  {
    StepKeeps(s, At(0, Arrive(own, heard)));
    var swept := Sweep(s.store, s.now, s.lim.ttl);
    assert swept.table == map[] && swept.heap == map[];
  }

  lemma FirstCancelled(s: State, own: Scope)
    requires JustArrived(s, own)
    ensures
      var after := Step(s, At(0, Cancel(0)));
      && Inv(after) && after.lim == s.lim && after.store.table == map[KeyOf(own) := 0] && 0 in after.store.heap
      && after.store.heap[0].scope == own && after.store.heap[0].holder.None?
  {
    StepKeeps(s, At(0, Cancel(0)));
  }

  lemma EndingFrees(s: State, own: Scope)
    requires Inv(s) && s.store.table == map[KeyOf(own) := 0] && 0 in s.store.heap
    requires s.store.heap[0].scope == own && s.store.heap[0].holder.None?
    ensures Step(s, At(0, EndSession(own))).store.heap[0].holder.None?
  {}
}
