/** The session table over runs: capacity, one active session a key, locks against
    eviction, and the idle gap before a closed key opens again. */
module HomeTables {
  import opened HomeContexts
  import opened HomeCommands
  import opened HomeStores
  import opened HomeRuns

  /** Only `get` and `close` under a session's own scope touch it. */
  predicate Touches(e: Event, scope: Scope) {
    (e.Arrive? || e.EndSession?) && e.scope == scope
  }

  /** What an event other than `CloseAll` does to session `i`'s place in the table. */
  ghost predicate Fated(s: State, e: Event, after: State, i: nat) {
    && i in s.store.heap && i in after.store.heap
    && var x, y := s.store.heap[i], after.store.heap[i];
       && y.scope == x.scope && (x.context.active || !y.context.active)
       && (Reachable(after.store, i) <==> Reachable(s.store, i) && !(e.Arrive? && Stale(x, s.now, s.lim.ttl)))
       && y.touched == if Reachable(after.store, i) && Touches(e, x.scope) then s.now else x.touched
  }

  lemma SessionFated(s: State, e: Event, after: State, i: nat, j: nat)
    requires i in s.store.heap && j in s.store.heap && !e.Arrive? && !e.EndSession?
    requires j in after.store.heap
    requires after.store.table == s.store.table && after.store.heap == s.store.heap[j := after.store.heap[j]]
    requires after.store.heap[j].scope == s.store.heap[j].scope
    requires after.store.heap[j].touched == s.store.heap[j].touched
    requires after.store.heap[j].context.active == s.store.heap[j].context.active
    ensures Fated(s, e, after, i)
  {}

  lemma EnterKeepsPlace(s: State, k: nat, heard: string, i: nat)
    requires i in s.store.heap && k in s.store.heap
    ensures
      var after := Enter(s, k, heard);
      && i in after.store.heap && (Reachable(after.store, i) <==> Reachable(s.store, i))
      && after.store.heap[i].scope == s.store.heap[i].scope && after.store.heap[i].touched == s.store.heap[i].touched
      && after.store.heap[i].context.active == s.store.heap[i].context.active
  {}

  lemma FetchedFated(s: State, scope: Scope, heard: string, i: nat)
    requires TableInv(s) && s.next !in s.store.heap && i in s.store.heap
    ensures Fated(s, Arrive(scope, heard), Fetched(s, scope), i)
  {
    GetOthers(s.store, scope, s.now, s.lim, s.next, i);
  }

  lemma ArrivedFated(s: State, scope: Scope, heard: string, i: nat)
    requires TableInv(s) && s.next !in s.store.heap && i in s.store.heap
    ensures Fated(s, Arrive(scope, heard), Arrived(s, scope, heard), i)
  {
    FetchedFated(s, scope, heard, i);
    var got, fetched := Get(s.store, scope, s.now, s.lim, s.next).1, Fetched(s, scope);
    if got.Session_? && got.id in fetched.store.heap { EnterKeepsPlace(fetched, got.id, heard, i); }
  }

  lemma ReturnedFated(s: State, t: nat, reply: Reply, i: nat)
    requires i in s.store.heap && Suspended(s, t) && InFlight(s.turns[t].pc)
    ensures Fated(s, Return(t, reply), Returned(s, t, reply), i)
  {
    var turn := s.turns[t];
    ContinueAdvances(s.store.heap[turn.session].context, turn.revision, turn.heard, turn.pc, reply,
      s.now, s.steps, s.lim.maxCommands);
    SessionFated(s, Return(t, reply), Returned(s, t, reply), i, turn.session);
  }

  lemma EndFated(s: State, scope: Scope, i: nat)
    requires TableInv(s) && i in s.store.heap
    ensures Fated(s, EndSession(scope), Happens(s, EndSession(scope)), i)
  {}

  lemma HappensFated(s: State, e: Event, i: nat)
    requires TableInv(s) && s.next !in s.store.heap && i in s.store.heap && !e.CloseAll?
    ensures Fated(s, e, Happens(s, e), i)
  {
    match e {
      case Arrive(scope, heard) => ArrivedFated(s, scope, heard, i);
      case Return(t, reply) => if Suspended(s, t) && InFlight(s.turns[t].pc) { ReturnedFated(s, t, reply, i); }
      case EndSession(scope) => EndFated(s, scope, i);
      case Resume(t) => if MayResume(s, t) { SessionFated(s, e, Resumed(s, t), i, s.turns[t].session); }
      case Cancel(t) => if Suspended(s, t) { SessionFated(s, e, Cancelled(s, t), i, s.turns[t].session); }
    }
  }

  /** A locked session is never evicted. */
  lemma LockedStays(s: State, a: Moment, i: nat)
    requires Inv(s) && i in s.store.heap && s.store.heap[i].holder.Some? && Reachable(s.store, i) && !a.event.CloseAll?
    ensures i in Step(s, a).store.heap && Reachable(Step(s, a).store, i)
  {
    ClockKeeps(s, a.delay);
    HappensFated(Later(s, a.delay), a.event, i);
  }

  /** In every run the table is within its capacity, no two active sessions share a key, and
      every active session is the one its key names. */
  lemma TableIsSound(lim: Limits, now: int, acts: seq<Moment>)
    ensures Inv(Opened(lim, now))
    ensures
      var s := Run(Opened(lim, now), acts);
      && |s.store.table| <= (if s.lim.capacity < 0 then 0 else s.lim.capacity)
      && (forall i | i in s.store.heap && s.store.heap[i].context.active :: Reachable(s.store, i))
      && forall i, j | i in s.store.heap && j in s.store.heap
                       && s.store.heap[i].context.active && s.store.heap[j].context.active
                       && KeyOf(s.store.heap[i].scope) == KeyOf(s.store.heap[j].scope) :: i == j
  {
    OpenedInv(lim, now);
    var s := Run(Opened(lim, now), acts);
    forall i, j | i in s.store.heap && j in s.store.heap
                  && s.store.heap[i].context.active && s.store.heap[j].context.active
                  && KeyOf(s.store.heap[i].scope) == KeyOf(s.store.heap[j].scope) ensures i == j
    {
      OneActive(s.store, i, j);
    }
  }

  /** Commands of one session begin in the order they arrived, each under a revision of its own. */
  lemma FirstComeFirstServed(lim: Limits, now: int, acts: seq<Moment>, t: nat, u: nat)
    requires
      var turns := Run(Opened(lim, now), acts).turns;
      t < u < |turns| && turns[t].session == turns[u].session && turns[u].revision > 0
    ensures
      var turns := Run(Opened(lim, now), acts).turns;
      !turns[t].pc.Waiting? && turns[t].revision < turns[u].revision
  {
    var s := Run(Opened(lim, now), acts);
    var x := s.store.heap[s.turns[t].session];
    assert TurnOk(t, s.turns[t], x) && TurnOk(u, s.turns[u], x);
  }

  // ---- the gap before a closed key opens again ---------------------------

  /** When action `k` of the run happens; before the first, when session `i` was last touched. */
  function TimeOf(s: State, acts: seq<Moment>, k: nat, i: nat): int
    requires Inv(s) && k <= |acts| && i in s.store.heap
  {
    if k == 0 then s.store.heap[i].touched else Run(s, acts[..k]).now
  }

  ghost predicate NoTouch(acts: seq<Moment>, from: nat, to: nat, scope: Scope) {
    from <= to <= |acts| && forall k | from <= k < to :: !Touches(acts[k].event, scope)
  }

  ghost predicate NoClear(acts: seq<Moment>) { forall k | 0 <= k < |acts| :: !acts[k].event.CloseAll? }

  /** Between actions `from` and `to`, at least the TTL passes without a get or close of the scope. */
  ghost predicate Gap(s: State, acts: seq<Moment>, i: nat, from: nat, to: nat)
    requires Inv(s) && i in s.store.heap
  {
    && from < to <= |acts| && NoTouch(acts, from, to - 1, s.store.heap[i].scope)
    && TimeOf(s, acts, to, i) - TimeOf(s, acts, from, i) >= s.lim.ttl
  }

  /** Session `i` was last touched at `time`: when action `from` happened. */
  ghost predicate LastTouched(s: State, acts: seq<Moment>, i: nat, from: nat, time: int)
    requires Inv(s) && i in s.store.heap
  {
    from <= |acts| && NoTouch(acts, from, |acts|, s.store.heap[i].scope) && time == TimeOf(s, acts, from, i)
  }

  /** A closed session is still in the table, last touched when it says, or a gap has passed. */
  ghost predicate Tracked(s: State, acts: seq<Moment>, i: nat)
    requires Inv(s) && i in s.store.heap
  {
    var after := Run(s, acts);
    && after.lim == s.lim && i in after.store.heap && !after.store.heap[i].context.active
    && after.store.heap[i].scope == s.store.heap[i].scope
    && if Reachable(after.store, i) then exists from :: LastTouched(s, acts, i, from, after.store.heap[i].touched)
       else exists from, to :: Gap(s, acts, i, from, to)
  }

  lemma ClockMoves(s: State, a: Moment)
    requires WellFormed(s.store)
    ensures Step(s, a).now == s.now + a.delay && Step(s, a).lim == s.lim
  {}

  lemma SameTimes(s: State, acts: seq<Moment>, a: Moment, i: nat)
    requires Inv(s) && i in s.store.heap
    ensures forall k | 0 <= k <= |acts| :: TimeOf(s, acts + [a], k, i) == TimeOf(s, acts, k, i)
    ensures Run(s, acts + [a]) == Step(Run(s, acts), a)
    ensures TimeOf(s, acts + [a], |acts| + 1, i) == Run(s, acts).now + a.delay
  {
    forall k | 0 <= k <= |acts| ensures TimeOf(s, acts + [a], k, i) == TimeOf(s, acts, k, i) {
      assert (acts + [a])[..k] == acts[..k];
    }
    assert (acts + [a])[..|acts|] == acts && (acts + [a])[..|acts| + 1] == acts + [a];
    ClockMoves(Run(s, acts), a);
  }

  lemma GapStays(s: State, acts: seq<Moment>, a: Moment, i: nat, from: nat, to: nat)
    requires Inv(s) && i in s.store.heap && Gap(s, acts, i, from, to)
    ensures Gap(s, acts + [a], i, from, to)
  {
    SameTimes(s, acts, a, i);
  }

  /** A session dropped by this action was last touched a TTL before. */
  lemma GapNow(s: State, acts: seq<Moment>, a: Moment, i: nat, from: nat)
    requires Inv(s) && i in s.store.heap && from <= |acts| && NoTouch(acts, from, |acts|, s.store.heap[i].scope)
    requires Run(s, acts).now + a.delay - TimeOf(s, acts, from, i) >= s.lim.ttl
    ensures Gap(s, acts + [a], i, from, |acts| + 1)
  {
    SameTimes(s, acts, a, i);
  }

  /** What one more action needs to know of a run that still has session `i` in its table. */
  ghost predicate Follows(s: State, acts: seq<Moment>, a: Moment, i: nat, from: nat, before: State, after: State)
    requires Inv(s) && i in s.store.heap
  {
    && before == Run(s, acts) && after == Run(s, acts + [a]) && i in before.store.heap && Reachable(before.store, i)
    && LastTouched(s, acts, i, from, before.store.heap[i].touched)
    && before.store.heap[i].scope == s.store.heap[i].scope
    && before.lim == s.lim == after.lim && Fated(Later(before, a.delay), a.event, after, i)
  }

  lemma TouchStays(s: State, acts: seq<Moment>, a: Moment, i: nat, from: nat, time: int)
    requires Inv(s) && i in s.store.heap && LastTouched(s, acts, i, from, time)
    requires !Touches(a.event, s.store.heap[i].scope)
    ensures LastTouched(s, acts + [a], i, from, time)
  {
    SameTimes(s, acts, a, i);
  }

  lemma TouchNow(s: State, acts: seq<Moment>, a: Moment, i: nat)
    requires Inv(s) && i in s.store.heap
    ensures LastTouched(s, acts + [a], i, |acts| + 1, Run(s, acts).now + a.delay)
  {
    SameTimes(s, acts, a, i);
  }

  lemma KeptTracked(s: State, acts: seq<Moment>, a: Moment, i: nat, from: nat, was: int, time: int)
    returns (f: nat)
    requires Inv(s) && i in s.store.heap && LastTouched(s, acts, i, from, was)
    requires time == if Touches(a.event, s.store.heap[i].scope) then Run(s, acts).now + a.delay else was
    ensures LastTouched(s, acts + [a], i, f, time)
  {
    if Touches(a.event, s.store.heap[i].scope) {
      TouchNow(s, acts, a, i);
      f := |acts| + 1;
    } else {
      TouchStays(s, acts, a, i, from, was);
      f := from;
    }
  }

  lemma TrackedOn(s: State, acts: seq<Moment>, a: Moment, i: nat, from: nat, before: State, after: State)
    requires Inv(s) && i in s.store.heap && Follows(s, acts, a, i, from, before, after)
    requires !before.store.heap[i].context.active
    ensures Tracked(s, acts + [a], i)
  {
    if Reachable(after.store, i) {
      var f := KeptTracked(s, acts, a, i, from, before.store.heap[i].touched, after.store.heap[i].touched);
    } else {
      GapNow(s, acts, a, i, from);
    }
  }

  lemma TrackedStep(s: State, acts: seq<Moment>, a: Moment, i: nat)
    requires Inv(s) && i in s.store.heap && Tracked(s, acts, i) && !a.event.CloseAll?
    requires
      var before := Run(s, acts);
      Fated(Later(before, a.delay), a.event, Run(s, acts + [a]), i) && Run(s, acts + [a]).lim == before.lim
    ensures Tracked(s, acts + [a], i)
  {
    var before := Run(s, acts);
    if Reachable(before.store, i) {
      var from :| LastTouched(s, acts, i, from, before.store.heap[i].touched);
      TrackedOn(s, acts, a, i, from, before, Run(s, acts + [a]));
    } else {
      var from, to :| Gap(s, acts, i, from, to);
      GapStays(s, acts, a, i, from, to);
    }
  }

  lemma StepFated(s: State, a: Moment, i: nat)
    requires Inv(s) && i in s.store.heap && !a.event.CloseAll?
    ensures Fated(Later(s, a.delay), a.event, Step(s, a), i)
  {
    ClockKeeps(s, a.delay);
    HappensFated(Later(s, a.delay), a.event, i);
  }

  lemma {:induction false} ClosedIsTracked(s: State, acts: seq<Moment>, i: nat)
    requires Inv(s) && i in s.store.heap && !s.store.heap[i].context.active && Reachable(s.store, i) && NoClear(acts)
    ensures Tracked(s, acts, i)
  {
    if acts == [] {
      assert LastTouched(s, acts, i, 0, s.store.heap[i].touched);
    } else {
      var front, a := acts[..|acts| - 1], acts[|acts| - 1];
      assert acts == front + [a];
      ClosedIsTracked(s, front, i);
      StepFated(Run(s, front), a, i);
      ClockMoves(Run(s, front), a);
      SameTimes(s, front, a, i);
      TrackedStep(s, front, a, i);
    }
  }

  /** A `get` under the scope would succeed now. */
  ghost predicate Opens(s: State, scope: Scope) {
    WellFormed(s.store) && Get(s.store, scope, s.now, s.lim, s.next).1.Session_?
  }

  /** A get of a closed session's key cannot succeed while the session is in the table. */
  lemma ClosedBlocksKey(s: State, scope: Scope, heard: string, i: nat)
    requires Inv(s) && i in s.store.heap && !s.store.heap[i].context.active
    requires KeyOf(scope) == KeyOf(s.store.heap[i].scope)
    requires Opens(s, scope)
    ensures i in Arrived(s, scope, heard).store.heap && !Reachable(Arrived(s, scope, heard).store, i)
  {
    var got, fetched := Get(s.store, scope, s.now, s.lim, s.next).1, Fetched(s, scope);
    GetNames(s.store, scope, s.now, s.lim, s.next);
    GetAdds(s.store, scope, s.now, s.lim, s.next);
    FetchedFated(s, scope, heard, i);
    assert fetched.store.table[KeyOf(scope)] == got.id != i;
    EnterKeepsPlace(fetched, got.id, heard, i);
  }

  lemma OpeningDrops(s: State, scope: Scope, heard: string, delay: nat, i: nat)
    requires Inv(s) && i in s.store.heap && !s.store.heap[i].context.active
    requires KeyOf(scope) == KeyOf(s.store.heap[i].scope) && Opens(Later(s, delay), scope)
    ensures i in Step(s, At(delay, Arrive(scope, heard))).store.heap
    ensures !Reachable(Step(s, At(delay, Arrive(scope, heard))).store, i)
  {
    ClockKeeps(s, delay);
    ClosedBlocksKey(Later(s, delay), scope, heard, i);
    assert Step(s, At(delay, Arrive(scope, heard))).store == Arrived(Later(s, delay), scope, heard).store;
  }

  lemma OpeningEndsRun(s: State, acts: seq<Moment>, scope: Scope, heard: string, delay: nat, i: nat)
    requires Inv(s) && i in s.store.heap && i in Run(s, acts).store.heap && !Run(s, acts).store.heap[i].context.active
    requires KeyOf(scope) == KeyOf(Run(s, acts).store.heap[i].scope) && Opens(Later(Run(s, acts), delay), scope)
    ensures
      var after := Run(s, acts + [At(delay, Arrive(scope, heard))]);
      i in after.store.heap && !Reachable(after.store, i)
  {
    OpeningDrops(Run(s, acts), scope, heard, delay, i);
    SameTimes(s, acts, At(delay, Arrive(scope, heard)), i);
  }

  /** A closed session leaves the table only after a gap. */
  lemma DroppedAfterGap(s: State, acts: seq<Moment>, i: nat)
    requires Inv(s) && i in s.store.heap && !s.store.heap[i].context.active && Reachable(s.store, i) && NoClear(acts)
    ensures
      var after := Run(s, acts);
      && i in after.store.heap && !after.store.heap[i].context.active
      && after.store.heap[i].scope == s.store.heap[i].scope
      && (!Reachable(after.store, i) ==> exists from, to :: Gap(s, acts, i, from, to))
  {
    ClosedIsTracked(s, acts, i);
  }

  lemma NoClearSnoc(acts: seq<Moment>, a: Moment)
    requires NoClear(acts) && !a.event.CloseAll?
    ensures NoClear(acts + [a])
  {}

  lemma GapBefore(s: State, acts: seq<Moment>, i: nat) returns (from: nat, to: nat)
    requires Inv(s) && i in s.store.heap && !s.store.heap[i].context.active && Reachable(s.store, i) && NoClear(acts)
    requires i in Run(s, acts).store.heap && !Reachable(Run(s, acts).store, i)
    ensures Gap(s, acts, i, from, to)
  {
    DroppedAfterGap(s, acts, i);
    from, to :| Gap(s, acts, i, from, to);
  }

  lemma OpenedDrops(s: State, acts: seq<Moment>, i: nat, scope: Scope, heard: string, delay: nat)
    requires Inv(s) && i in s.store.heap && !s.store.heap[i].context.active && Reachable(s.store, i) && NoClear(acts)
    requires KeyOf(scope) == KeyOf(s.store.heap[i].scope) && Opens(Later(Run(s, acts), delay), scope)
    ensures
      var after := Run(s, acts + [At(delay, Arrive(scope, heard))]);
      i in after.store.heap && !Reachable(after.store, i)
  {
    DroppedAfterGap(s, acts, i);
    OpeningEndsRun(s, acts, scope, heard, delay, i);
  }

  /** While a key is closed, a successful `get` of it comes only once the TTL has passed
      without a get or close under the closed scope, in every run without a clear. */
  lemma ClosedOpensAfterGap(s: State, acts: seq<Moment>, i: nat, scope: Scope, heard: string, delay: nat)
    returns (from: nat, to: nat)
    requires Inv(s) && i in s.store.heap && !s.store.heap[i].context.active && Reachable(s.store, i) && NoClear(acts)
    requires KeyOf(scope) == KeyOf(s.store.heap[i].scope) && Opens(Later(Run(s, acts), delay), scope)
    ensures Gap(s, acts + [At(delay, Arrive(scope, heard))], i, from, to)
  {
    var last := At(delay, Arrive(scope, heard));
    OpenedDrops(s, acts, i, scope, heard, delay);
    NoClearSnoc(acts, last);
    from, to := GapBefore(s, acts + [last], i);
  }

  lemma EndingTouches(s: State, ended: Scope, closing: nat)
    requires Inv(s) && KeyOf(ended) in s.store.table && s.store.heap[s.store.table[KeyOf(ended)]].scope == ended
    ensures
      var i, after := s.store.table[KeyOf(ended)], Step(s, At(closing, EndSession(ended)));
      && i in after.store.heap && after.store.heap[i].touched == after.now && after.store.heap[i].scope == ended
      && !after.store.heap[i].context.active && Reachable(after.store, i)
  {}

  lemma RunOne(s: State, a: Moment)
    requires Inv(s)
    ensures Run(s, [a]) == Step(s, a)
  {
    assert [a][..0] == [];
  }

  lemma EndedAt(s: State, after: State, ended: Scope, closing: nat)
    requires Inv(s) && after == Step(s, At(closing, EndSession(ended)))
    requires KeyOf(ended) in s.store.table && s.store.heap[s.store.table[KeyOf(ended)]].scope == ended
    ensures
      var i := s.store.table[KeyOf(ended)];
      && i in after.store.heap && after.store.heap[i].touched == after.now && after.store.heap[i].scope == ended
      && !after.store.heap[i].context.active && Reachable(after.store, i)
  {
    EndingTouches(s, ended, closing);
  }

  /** After `end_session` the key is closed from that moment, so it opens again only after
      such a gap. */
  lemma EndedOpensAfterGap(
    s: State, ended: Scope, closing: nat, acts: seq<Moment>, scope: Scope, heard: string, delay: nat)
    returns (from: nat, to: nat)
    requires Inv(s) && KeyOf(ended) in s.store.table && s.store.heap[s.store.table[KeyOf(ended)]].scope == ended
    requires NoClear(acts) && KeyOf(scope) == KeyOf(ended)
    requires Opens(Later(Run(Run(s, [At(closing, EndSession(ended))]), acts), delay), scope)
    ensures
      var i, after := s.store.table[KeyOf(ended)], Run(s, [At(closing, EndSession(ended))]);
      && i in after.store.heap && after.store.heap[i].touched == after.now
      && Gap(after, acts + [At(delay, Arrive(scope, heard))], i, from, to)
  {
    var i, after := s.store.table[KeyOf(ended)], Run(s, [At(closing, EndSession(ended))]);
    RunOne(s, At(closing, EndSession(ended)));
    EndedAt(s, after, ended, closing);
    from, to := ClosedOpensAfterGap(after, acts, i, scope, heard, delay);
  }
}
