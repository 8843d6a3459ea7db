/** What holds in every run of the home application. */
module HomeSafety {
  import opened Basics
  import opened HomeContexts
  import opened HomeCommands
  import opened HomeStores
  import opened HomeRuns

  // ---- the executor ------------------------------------------------------

  /** How one event moves the turns and the log: a turn rechecks only what was just
      understood, and the executor is called only for a rechecking turn of an active session,
      on the home just read. */
  ghost predicate Advanced(s: State, e: Event, after: State) {
    && |s.turns| <= |after.turns| && after.steps == s.steps
    && (forall t | 0 <= t < |s.turns| ::
        && after.turns[t].session == s.turns[t].session
        && (s.turns[t].pc.Executing? || s.turns[t].pc.Over? ==> after.turns[t].pc.Executing? || after.turns[t].pc.Over?)
        && (after.turns[t].pc.Rechecking? ==>
            (after.turns[t].pc == s.turns[t].pc
             || (e == Return(t, Understood(Some(Proposes(after.turns[t].pc.proposal))))
                 && after.turns[t].pc.understoodAt == s.steps))))
    && (forall t | |s.turns| <= t < |after.turns| :: !after.turns[t].pc.Rechecking?)
    && (after.log == s.log || exists x :: after.log == s.log + [x] && Called(s, e, after, x))
  }

  ghost predicate Called(s: State, e: Event, after: State, x: Execution) {
    && x.turn < |s.turns| <= |after.turns| && x.session == s.turns[x.turn].session
    && x.session in s.store.heap && s.store.heap[x.session].context.active
    && s.turns[x.turn].pc == Rechecking(x.proposal, x.understoodAt) && after.turns[x.turn].pc.Executing?
    && e == Return(x.turn, Directory(Some(x.home))) && x.readAt == s.steps
    && Grounded(x.plan, x.proposal, x.home)
  }

  lemma ReturnAdvances(s: State, t: nat, reply: Reply)
    requires Suspended(s, t) && InFlight(s.turns[t].pc)
    ensures Advanced(s, Return(t, reply), Returned(s, t, reply))
  {
    var turn, m, after := s.turns[t], Moved(s, t, reply), Returned(s, t, reply);
    var c := s.store.heap[turn.session].context;
    ContinueAdvances(c, turn.revision, turn.heard, turn.pc, reply, s.now, s.steps, s.lim.maxCommands);
    if m.plan.Some? {
      PlanIsGrounded(c, turn.revision, turn.heard, turn.pc, reply, s.now, s.steps, s.lim.maxCommands);
      var x := Execution(
        t, turn.session, turn.pc.proposal, m.plan.value, reply.home.value, turn.pc.understoodAt, s.steps);
      assert after.log == s.log + [x] && Called(s, Return(t, reply), after, x);
    } else {
      assert after.log == s.log;
    }
  }

  lemma ArrivedAdvances(s: State, scope: Scope, heard: string)
    requires WellFormed(s.store)
    ensures Advanced(s, Arrive(scope, heard), Arrived(s, scope, heard))
  {
    var got, fetched := Get(s.store, scope, s.now, s.lim, s.next).1, Fetched(s, scope);
    if got.Session_? && got.id in fetched.store.heap {
      EnterAdds(fetched, got.id, heard);
      AddedAdvances(s, Arrive(scope, heard), Enter(fetched, got.id, heard));
    } else {
      StillAdvances(s, Arrive(scope, heard), fetched);
    }
  }

  lemma AddedAdvances(s: State, e: Event, after: State)
    requires |after.turns| == |s.turns| + 1 && after.turns[..|s.turns|] == s.turns
    requires !after.turns[|s.turns|].pc.Rechecking? && after.log == s.log && after.steps == s.steps
    ensures Advanced(s, e, after)
  {
    assert forall t | 0 <= t < |s.turns| :: after.turns[t] == after.turns[..|s.turns|][t];
  }

  lemma EnterAdds(s: State, i: nat, heard: string)
    requires i in s.store.heap
    ensures
      var after := Enter(s, i, heard);
      && |after.turns| == |s.turns| + 1 && after.turns[..|s.turns|] == s.turns && !after.turns[|s.turns|].pc.Rechecking?
      && after.log == s.log && after.steps == s.steps
  {}

  lemma TurnAdvances(s: State, e: Event, after: State, t: nat)
    requires t < |s.turns| == |after.turns| && after.turns[t].session == s.turns[t].session
    requires (!s.turns[t].pc.Executing? && !s.turns[t].pc.Over?) || after.turns[t].pc.Over?
    requires !after.turns[t].pc.Rechecking?
    requires forall u | 0 <= u < |s.turns| && u != t :: after.turns[u] == s.turns[u]
    requires after.log == s.log && after.steps == s.steps
    ensures Advanced(s, e, after)
  {}

  lemma ResumedAdvances(s: State, t: nat)
    requires LocksInv(s) && MayResume(s, t)
    ensures Advanced(s, Resume(t), Resumed(s, t))
  {
    assert LockOk(s.turns[t].session, s.store.heap[s.turns[t].session], s.turns);
    TurnAdvances(s, Resume(t), Resumed(s, t), t);
  }

  lemma CancelledAdvances(s: State, t: nat)
    requires Suspended(s, t)
    ensures Advanced(s, Cancel(t), Cancelled(s, t))
  {
    TurnAdvances(s, Cancel(t), Cancelled(s, t), t);
  }

  /** Nothing of the turns or the log changes. */
  lemma StillAdvances(s: State, e: Event, after: State)
    requires after.turns == s.turns && after.log == s.log && after.steps == s.steps
    ensures Advanced(s, e, after)
  {}

  lemma HappensAdvances(s: State, e: Event)
    requires TableInv(s) && LocksInv(s)
    ensures Advanced(s, e, Happens(s, e))
  {
    match e {
      case Arrive(scope, heard) => ArrivedAdvances(s, scope, heard);
      case Resume(t) => if MayResume(s, t) { ResumedAdvances(s, t); } else { StillAdvances(s, e, s); }
      case Return(t, reply) =>
        if Suspended(s, t) && InFlight(s.turns[t].pc) { ReturnAdvances(s, t, reply); } else { StillAdvances(s, e, s); }
      case Cancel(t) => if Suspended(s, t) { CancelledAdvances(s, t); } else { StillAdvances(s, e, s); }
      case EndSession(scope) => StillAdvances(s, e, s.(store := Close(s.store, scope, s.now).0));
      case CloseAll => StillAdvances(s, e, s.(store := ClearAll(s.store)));
    }
  }

  /** Each executor call: by its own turn, once, for a proposal understood in that turn, on a
      home read in a later step, which holds every target. */
  ghost predicate LogInv(s: State, acts: seq<Moment>) {
    && s.steps == |acts|
    && (forall t | 0 <= t < |s.turns| && s.turns[t].pc.Rechecking? ::
        Understands(acts, t, s.turns[t].pc.understoodAt, s.turns[t].pc.proposal))
    && (forall k | 0 <= k < |s.log| :: Entry(s, acts, s.log[k]))
    && (forall j, k | 0 <= j < k < |s.log| :: s.log[j].turn != s.log[k].turn)
  }

  ghost predicate Understands(acts: seq<Moment>, t: nat, at: nat, p: Proposal) {
    at < |acts| && acts[at].event == Return(t, Understood(Some(Proposes(p))))
  }

  ghost predicate Entry(s: State, acts: seq<Moment>, x: Execution) {
    && x.turn < |s.turns| && s.turns[x.turn].session == x.session
    && (s.turns[x.turn].pc.Executing? || s.turns[x.turn].pc.Over?)
    && x.understoodAt < x.readAt < |acts| && Understands(acts, x.turn, x.understoodAt, x.proposal)
    && acts[x.readAt].event == Return(x.turn, Directory(Some(x.home)))
    && Grounded(x.plan, x.proposal, x.home)
  }

  lemma LogStep(s: State, acts: seq<Moment>, a: Moment, after: State)
    requires LogInv(s, acts) && Advanced(s, a.event, after)
    ensures LogInv(Ticked(after), acts + [a])
  {
    var all, next := acts + [a], Ticked(after);
    forall t | 0 <= t < |next.turns| && next.turns[t].pc.Rechecking?
      ensures Understands(all, t, next.turns[t].pc.understoodAt, next.turns[t].pc.proposal)
    {
      if next.turns[t].pc == s.turns[t].pc {
        assert Understands(acts, t, s.turns[t].pc.understoodAt, s.turns[t].pc.proposal);
      }
    }
    forall k | 0 <= k < |next.log| ensures Entry(next, all, next.log[k]) {
      if k < |s.log| { assert Entry(s, acts, s.log[k]); }
    }
    forall j, k | 0 <= j < k < |next.log| ensures next.log[j].turn != next.log[k].turn {
      assert Entry(s, acts, s.log[j]);
    }
  }

  lemma LogLater(s: State, acts: seq<Moment>, delay: nat)
    requires LogInv(s, acts)
    ensures LogInv(Later(s, delay), acts)
  {
    assert forall k | 0 <= k < |s.log| :: Entry(s, acts, s.log[k]) ==> Entry(Later(s, delay), acts, s.log[k]);
  }

  lemma StepGrounded(s: State, acts: seq<Moment>, a: Moment)
    requires Inv(s) && LogInv(s, acts)
    ensures LogInv(Step(s, a), acts + [a])
  {
    var timed := Later(s, a.delay);
    ClockKeeps(s, a.delay);
    HappensAdvances(timed, a.event);
    LogLater(s, acts, a.delay);
    LogStep(timed, acts, a, Happens(timed, a.event));
  }

  /** In every run each turn calls the executor at most once, for what it understood, on
      targets all held by a home it read afterwards. */
  lemma ExecutionsAreGrounded(lim: Limits, now: int, acts: seq<Moment>)
    ensures Inv(Opened(lim, now)) && LogInv(Run(Opened(lim, now), acts), acts)
  {
    OpenedInv(lim, now);
    GroundedFrom(Opened(lim, now), acts);
  }

  lemma {:induction false} GroundedFrom(s: State, acts: seq<Moment>)
    requires Inv(s) && LogInv(s, [])
    ensures LogInv(Run(s, acts), acts)
  {
    if acts != [] {
      var front := acts[..|acts| - 1];
      GroundedFrom(s, front);
      OneMoreGrounded(s, front, acts[|acts| - 1], acts);
    }
  }

  lemma OneMoreGrounded(s: State, acts: seq<Moment>, a: Moment, all: seq<Moment>)
    requires Inv(s) && LogInv(Run(s, acts), acts) && all == acts + [a]
    ensures LogInv(Run(s, all), all)
  {
    assert all[..|acts|] == acts;
    StepGrounded(Run(s, acts), acts, a);
  }

  // ---- after the end of a session ----------------------------------------

  /** The session was left as it was, or cleared once more. */
  ghost predicate Frozen(c: Context, after: Context) { !after.active && (after == c || after == Closed(c)) }

  lemma ArrivedFrozen(s: State, scope: Scope, heard: string, i: nat)
    requires TableInv(s) && s.next !in s.store.heap && i in s.store.heap && !s.store.heap[i].context.active
    ensures i in Arrived(s, scope, heard).store.heap
    ensures Arrived(s, scope, heard).store.heap[i].context == s.store.heap[i].context
  {
    var got, fetched := Get(s.store, scope, s.now, s.lim, s.next).1, Fetched(s, scope);
    FetchedFrozen(s, scope, i);
    if got.Session_? && got.id in fetched.store.heap { EnterFrozen(fetched, got.id, heard, i); }
  }

  /** A closed session stays as it is, and is not the one got. */
  lemma FetchedFrozen(s: State, scope: Scope, i: nat)
    requires TableInv(s) && s.next !in s.store.heap && i in s.store.heap && !s.store.heap[i].context.active
    ensures i in Fetched(s, scope).store.heap && Fetched(s, scope).store.heap[i].context == s.store.heap[i].context
    ensures Get(s.store, scope, s.now, s.lim, s.next).1 != Session_(i)
  {
    GetOthers(s.store, scope, s.now, s.lim, s.next, i);
    GetAdds(s.store, scope, s.now, s.lim, s.next);
  }

  lemma EnterFrozen(s: State, k: nat, heard: string, i: nat)
    requires k in s.store.heap && i in s.store.heap && i != k
    ensures i in Enter(s, k, heard).store.heap && Enter(s, k, heard).store.heap[i] == s.store.heap[i]
  {}

  lemma ReturnedFrozen(s: State, t: nat, reply: Reply, i: nat)
    requires i in s.store.heap && !s.store.heap[i].context.active && Suspended(s, t) && InFlight(s.turns[t].pc)
    ensures i in Returned(s, t, reply).store.heap
    ensures Returned(s, t, reply).store.heap[i].context == s.store.heap[i].context
  {
    var turn := s.turns[t];
    if turn.session == i {
      StaleIsInert(s.store.heap[i].context, turn.revision, turn.heard, turn.pc, reply,
        s.now, s.steps, s.lim.maxCommands);
    }
  }

  lemma HappensFrozen(s: State, e: Event, i: nat)
    requires TableInv(s) && s.next !in s.store.heap && i in s.store.heap && !s.store.heap[i].context.active
    ensures i in Happens(s, e).store.heap && Frozen(s.store.heap[i].context, Happens(s, e).store.heap[i].context)
  {
    match e {
      case Arrive(scope, heard) => ArrivedFrozen(s, scope, heard, i);
      case Return(t, reply) => if Suspended(s, t) && InFlight(s.turns[t].pc) { ReturnedFrozen(s, t, reply, i); }
      case EndSession(scope) => EndedFrozen(s, scope, i);
      case _ =>
    }
  }

  lemma EndedFrozen(s: State, scope: Scope, i: nat)
    requires TableInv(s) && i in s.store.heap && !s.store.heap[i].context.active
    ensures
      var after := Close(s.store, scope, s.now).0;
      i in after.heap && Frozen(s.store.heap[i].context, after.heap[i].context)
  {}

  /** Session `i` stays closed and nothing new is executed for it. */
  ghost predicate Silent(s: State, after: State, i: nat) {
    && i in s.store.heap && i in after.store.heap
    && Frozen(s.store.heap[i].context, after.store.heap[i].context)
    && |s.log| <= |after.log| && after.log[..|s.log|] == s.log
    && forall k | |s.log| <= k < |after.log| :: after.log[k].session != i
  }

  lemma HappensSilent(s: State, e: Event, i: nat)
    requires Inv(s) && i in s.store.heap && !s.store.heap[i].context.active
    ensures Silent(s, Happens(s, e), i)
  {
    HappensFrozen(s, e, i);
    HappensAdvances(s, e);
    AdvancedSilent(s, e, Happens(s, e), i);
  }

  lemma AdvancedSilent(s: State, e: Event, after: State, i: nat)
    requires i in s.store.heap && !s.store.heap[i].context.active && i in after.store.heap
    requires Frozen(s.store.heap[i].context, after.store.heap[i].context) && Advanced(s, e, after)
    ensures Silent(s, after, i)
  {}

  lemma StepSilent(s: State, a: Moment, i: nat)
    requires Inv(s) && i in s.store.heap && !s.store.heap[i].context.active
    ensures Silent(s, Step(s, a), i)
  {
    ClockKeeps(s, a.delay);
    HappensSilent(Later(s, a.delay), a.event, i);
  }

  lemma SilentOn(s: State, mid: State, after: State, i: nat)
    requires Silent(s, mid, i) && Silent(mid, after, i)
    ensures Silent(s, after, i)
  {
    assert after.log[..|s.log|] == after.log[..|mid.log|][..|s.log|];
    forall k | |s.log| <= k < |after.log| ensures after.log[k].session != i {
      if k < |mid.log| { assert after.log[k] == after.log[..|mid.log|][k]; }
    }
  }

  /** Once a session is closed, ended or evicted, no turn of it, queued or at whatever
      await, calls the executor or writes its context, in any continuation. */
  lemma {:induction false} ClosedIsFinal(s: State, acts: seq<Moment>, i: nat)
    requires Inv(s) && i in s.store.heap && !s.store.heap[i].context.active
    ensures Silent(s, Run(s, acts), i)
  {
    if acts != [] {
      var before := Run(s, acts[..|acts| - 1]);
      ClosedIsFinal(s, acts[..|acts| - 1], i);
      StepSilent(before, acts[|acts| - 1], i);
      SilentOn(s, before, Step(before, acts[|acts| - 1]), i);
    }
  }

  /** `end_session` empties the conversation for good. */
  lemma EndSessionIsFinal(s: State, scope: Scope, delay: nat, acts: seq<Moment>)
    requires Inv(s) && KeyOf(scope) in s.store.table && s.store.heap[s.store.table[KeyOf(scope)]].scope == scope
    ensures
      var i, ended := s.store.table[KeyOf(scope)], Step(s, At(delay, EndSession(scope)));
      Inv(ended) && var after := Run(ended, acts);
      Silent(ended, after, i) && ended.log == s.log && Blank(after.store.heap[i].context)
  {
    StepKeeps(s, At(delay, EndSession(scope)));
    ClosedIsFinal(Step(s, At(delay, EndSession(scope))), acts, s.store.table[KeyOf(scope)]);
  }

  /** Nothing but closing makes a turn stale: the lock's holder has its session's revision. */
  lemma StaleMeansClosed(s: State, t: nat)
    requires Inv(s) && t < |s.turns| && InFlight(s.turns[t].pc)
    ensures
      var c := s.store.heap[s.turns[t].session].context;
      Current(c, s.turns[t].revision) <==> c.active
  {
    assert TurnOk(t, s.turns[t], s.store.heap[s.turns[t].session]);
    assert LockOk(s.turns[t].session, s.store.heap[s.turns[t].session], s.turns);
  }

  /** One command of a session is in flight at a time. */
  lemma OneInFlight(s: State, t: nat, u: nat)
    requires Inv(s) && t < |s.turns| && u < |s.turns| && InFlight(s.turns[t].pc) && InFlight(s.turns[u].pc)
    requires s.turns[t].session == s.turns[u].session
    ensures t == u
  {
    assert TurnOk(t, s.turns[t], s.store.heap[s.turns[t].session]);
    assert TurnOk(u, s.turns[u], s.store.heap[s.turns[u].session]);
  }
}
