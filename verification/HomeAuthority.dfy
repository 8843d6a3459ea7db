/** Nothing is done for a command before its session was authorized
    (app/smarthome/application.py). */
module HomeAuthority {
  import opened Basics
  import opened HomeContexts
  import opened HomeCommands
  import opened HomeStores
  import opened HomeRuns
  import opened HomeSafety

  /** The command is past the await of its authorization, and not over. */
  predicate IsPast(pc: Pc) { InFlight(pc) && !pc.Authorizing? }

  ghost predicate AuthorizedIn(acts: seq<Moment>, t: nat) {
    exists k :: 0 <= k < |acts| && acts[k].event == Return(t, Authorized(true))
  }

  /** Only its own authorization takes a turn past that await. */
  ghost predicate PassesOnly(s: State, e: Event, after: State) {
    && |s.turns| <= |after.turns|
    && (forall t | 0 <= t < |s.turns| && IsPast(after.turns[t].pc) ::
          IsPast(s.turns[t].pc) || e == Return(t, Authorized(true)))
    && (forall t | |s.turns| <= t < |after.turns| :: !IsPast(after.turns[t].pc))
  }

  lemma ContinuePasses(
    c: Context, revision: int, heard: string, pc: Pc, reply: Reply, now: int, at: nat, maxCommands: nat)
    requires !IsPast(pc) && InFlight(pc)
    requires IsPast(Continue(c, revision, heard, pc, reply, now, at, maxCommands).pc)
    ensures reply == Authorized(true)
  {}

  lemma ReturnPasses(s: State, t: nat, reply: Reply)
    requires Suspended(s, t) && InFlight(s.turns[t].pc)
    ensures PassesOnly(s, Return(t, reply), Returned(s, t, reply))
  {
    var turn, c := s.turns[t], s.store.heap[s.turns[t].session].context;
    if !IsPast(turn.pc) && IsPast(Moved(s, t, reply).pc) {
      ContinuePasses(c, turn.revision, turn.heard, turn.pc, reply, s.now, s.steps, s.lim.maxCommands);
    }
  }

  lemma ArrivedPasses(s: State, scope: Scope, heard: string)
    requires WellFormed(s.store)
    ensures PassesOnly(s, Arrive(scope, heard), Arrived(s, scope, heard))
  {
    var got, fetched := Get(s.store, scope, s.now, s.lim, s.next).1, Fetched(s, scope);
    if got.Session_? && got.id in fetched.store.heap { EnterPasses(fetched, got.id, heard); }
  }

  lemma EnterPasses(s: State, i: nat, heard: string)
    requires i in s.store.heap
    ensures
      var after := Enter(s, i, heard);
      && |after.turns| == |s.turns| + 1 && after.turns[..|s.turns|] == s.turns && !IsPast(after.turns[|s.turns|].pc)
      && forall t | 0 <= t < |s.turns| :: after.turns[t] == s.turns[t]
  {}

  lemma HappensPasses(s: State, e: Event)
    requires WellFormed(s.store)
    ensures PassesOnly(s, e, Happens(s, e))
  {
    match e
    case Arrive(scope, heard) => ArrivedPasses(s, scope, heard);
    case Resume(t) =>
    case Return(t, reply) => if Suspended(s, t) && InFlight(s.turns[t].pc) { ReturnPasses(s, t, reply); }
    case Cancel(t) =>
    case EndSession(scope) =>
    case CloseAll =>
  }

  /** Every turn past its authorization, and every execution, was authorized. */
  ghost predicate AllAuthorized(s: State, acts: seq<Moment>) {
    && (forall t | 0 <= t < |s.turns| && IsPast(s.turns[t].pc) :: AuthorizedIn(acts, t))
    && (forall k | 0 <= k < |s.log| :: AuthorizedIn(acts, s.log[k].turn))
  }

  lemma AuthorizedGrows(acts: seq<Moment>, a: Moment, t: nat)
    requires AuthorizedIn(acts, t) || a.event == Return(t, Authorized(true))
    ensures AuthorizedIn(acts + [a], t)
  {
    var all := acts + [a];
    if AuthorizedIn(acts, t) {
      var k :| 0 <= k < |acts| && acts[k].event == Return(t, Authorized(true));
      assert all[k] == acts[k];
    } else {
      assert all[|acts|] == a;
    }
  }

  lemma StepAuthorized(s: State, after: State, acts: seq<Moment>, a: Moment)
    requires AllAuthorized(s, acts) && PassesOnly(s, a.event, after) && Advanced(s, a.event, after)
    ensures AllAuthorized(after, acts + [a])
  {
    forall t | 0 <= t < |after.turns| && IsPast(after.turns[t].pc) ensures AuthorizedIn(acts + [a], t) {
      AuthorizedGrows(acts, a, t);
    }
    forall k | 0 <= k < |after.log| ensures AuthorizedIn(acts + [a], after.log[k].turn) {
      AuthorizedGrows(acts, a, after.log[k].turn);
    }
  }

  /** In every run no command reads the home, is understood or is executed before its session
      was authorized. */
  lemma {:induction false} ExecutionsAreAuthorized(lim: Limits, now: int, acts: seq<Moment>)
    ensures Inv(Opened(lim, now)) && AllAuthorized(Run(Opened(lim, now), acts), acts)
  {
    OpenedInv(lim, now);
    if acts != [] {
      var front, a := acts[..|acts| - 1], acts[|acts| - 1];
      ExecutionsAreAuthorized(lim, now, front);
      OneMoreAuthorized(Run(Opened(lim, now), front), front, a);
      assert front + [a] == acts;
    }
  }

  lemma OneMoreAuthorized(s: State, acts: seq<Moment>, a: Moment)
    requires Inv(s) && AllAuthorized(s, acts)
    ensures AllAuthorized(Step(s, a), acts + [a])
  {
    var timed := Later(s, a.delay);
    ClockKeeps(s, a.delay);
    HappensPasses(timed, a.event);
    HappensAdvances(timed, a.event);
    StepAuthorized(timed, Happens(timed, a.event), acts, a);
  }
}
