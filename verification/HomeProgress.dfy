/** Commands that get through (app/smarthome/application.py, domain/smarthome/command.py): in
    every reachable state, what the replies to a command's awaits make of it. */
module HomeProgress {
  import opened Basics
  import opened HomeContexts
  import opened HomeCommands
  import opened HomeStores
  import opened HomeOutcomes
  import opened HomeRuns
  import opened HomeSafety

  /** Turn `t` holds the lock of its open session and waits at `pc`. */
  ghost predicate WaitsAt(s: State, t: nat, pc: Pc) {
    && Inv(s) && t < |s.turns| && s.turns[t].pc == pc && InFlight(pc)
    && s.turns[t].session in s.store.heap && s.store.heap[s.turns[t].session].context.active
  }

  function ContextOf(s: State, t: nat): Context
    requires t < |s.turns| && s.turns[t].session in s.store.heap
  {
    s.store.heap[s.turns[t].session].context
  }

  /** What turn `t` makes of the reply, `delay` from now. */
  function Reaction(s: State, t: nat, reply: Reply, delay: nat): Move
    requires Suspended(s, t)
  {
    Moved(Later(s, delay), t, reply)
  }

  /** Turn `t` made the move and nothing was logged but its own call, if any. */
  ghost predicate MovedOn(s: State, t: nat, pc: Pc, m: Move, after: State) {
    && t < |s.turns| && t < |after.turns| && after.turns[t] == s.turns[t].(pc := m.pc)
    && after.turns[t].session in after.store.heap && ContextOf(after, t) == m.context
    && after.lim == s.lim && after.steps == s.steps + 1
    && if m.plan.None? then after.log == s.log
       else
         && |after.log| == |s.log| + 1 && after.log[..|s.log|] == s.log
         && after.log[|s.log|].turn == t && after.log[|s.log|].plan == m.plan.value
  }

  lemma ReturnedMoves(s: State, b: State, t: nat, pc: Pc, reply: Reply, m: Move)
    requires Suspended(b, t) && b.turns[t].pc == pc && InFlight(pc) && m == Moved(b, t, reply)
    requires b == s.(now := b.now)
    requires m.plan.Some? ==> pc.Rechecking? && reply.Directory? && reply.home.Some?
    ensures MovedOn(s, t, pc, m, Ticked(Returned(b, t, reply)))
  {}

  lemma PlansOnlyRechecked(s: State, t: nat, reply: Reply)
    requires Suspended(s, t) && Moved(s, t, reply).plan.Some?
    ensures s.turns[t].pc.Rechecking? && reply.Directory? && reply.home.Some?
  {
    PlanIsGrounded(ContextOf(s, t), s.turns[t].revision, s.turns[t].heard, s.turns[t].pc, reply, s.now, s.steps,
      s.lim.maxCommands);
  }

  lemma WaitsSuspended(s: State, t: nat, pc: Pc)
    requires WaitsAt(s, t, pc)
    ensures Suspended(s, t) && WellFormed(s.store) && Current(ContextOf(s, t), s.turns[t].revision)
  {
    StaleMeansClosed(s, t);
  }

  /** The reply of an open session's command moves it one stretch on. */
  lemma ReplyMoves(s: State, t: nat, pc: Pc, reply: Reply, delay: nat)
    requires Suspended(s, t) && WellFormed(s.store) && s.turns[t].pc == pc && InFlight(pc)
    ensures MovedOn(s, t, pc, Reaction(s, t, reply, delay), Step(s, At(delay, Return(t, reply))))
  {
    var b := Later(s, delay);
    if Moved(b, t, reply).plan.Some? { PlansOnlyRechecked(b, t, reply); }
    ReturnedMoves(s, b, t, pc, reply, Moved(b, t, reply));
  }

  // ---- one command, await by await ---------------------------------------

  lemma StaysOpen(s: State, t: nat, reply: Reply, delay: nat, m: Move)
    requires Suspended(s, t) && m == Reaction(s, t, reply, delay)
    ensures m.context.active == ContextOf(s, t).active
  {
    ContinueAdvances(ContextOf(s, t), s.turns[t].revision, s.turns[t].heard, s.turns[t].pc, reply, s.now + delay,
      s.steps, s.lim.maxCommands);
  }

  lemma MovedWaits(s: State, t: nat, pc: Pc, m: Move, after: State)
    requires MovedOn(s, t, pc, m, after) && m.context.active && InFlight(m.pc) && m.plan.None? && Inv(after)
    ensures WaitsAt(after, t, m.pc) && after.log == s.log && after.lim == s.lim
  {}

  /** A stretch that neither ends the command nor plans leaves it waiting for its next reply. */
  lemma StageWaits(s: State, t: nat, pc: Pc, reply: Reply, delay: nat, m: Move)
    requires WaitsAt(s, t, pc) && m == Reaction(s, t, reply, delay) && InFlight(m.pc) && m.plan.None?
    ensures
      var after := Step(s, At(delay, Return(t, reply)));
      WaitsAt(after, t, m.pc) && after.log == s.log && after.lim == s.lim
  {
    WaitsSuspended(s, t, pc);
    ReplyMoves(s, t, pc, reply, delay);
    StaysOpen(s, t, reply, delay, m);
    StepKeeps(s, At(delay, Return(t, reply)));
    MovedWaits(s, t, pc, m, Step(s, At(delay, Return(t, reply))));
  }

  lemma AuthorizedReads(s: State, t: nat, delay: nat) returns (seen: Option<Seen>)
    requires WaitsAt(s, t, Authorizing) && s.turns[t].heard != ""
    ensures
      var after := Step(s, At(delay, Return(t, Authorized(true))));
      WaitsAt(after, t, Reading(seen)) && after.log == s.log && after.lim == s.lim
  {
    WaitsSuspended(s, t, Authorizing);
    seen := Snapshot(ContextOf(s, t), s.now + delay);
    StageWaits(s, t, Authorizing, Authorized(true), delay, Reaction(s, t, Authorized(true), delay));
  }

  lemma HomeReadInterprets(s: State, t: nat, seen: Option<Seen>, home: Home, delay: nat)
    requires WaitsAt(s, t, Reading(seen))
    ensures
      var after := Step(s, At(delay, Return(t, Directory(Some(home)))));
      WaitsAt(after, t, Interpreting(seen)) && after.log == s.log && after.lim == s.lim
  {
    var reply := Directory(Some(home));
    WaitsSuspended(s, t, Reading(seen));
    StageWaits(s, t, Reading(seen), reply, delay, Reaction(s, t, reply, delay));
  }

  lemma ProposalRechecks(s: State, t: nat, seen: Option<Seen>, p: Proposal, delay: nat)
    requires WaitsAt(s, t, Interpreting(seen)) && p.intent.Control? && !p.status.NoTarget?
    ensures
      var after := Step(s, At(delay, Return(t, Understood(Some(Proposes(p))))));
      WaitsAt(after, t, Rechecking(p, s.steps)) && after.log == s.log && after.lim == s.lim
  {
    var reply := Understood(Some(Proposes(p)));
    WaitsSuspended(s, t, Interpreting(seen));
    StageWaits(s, t, Interpreting(seen), reply, delay, Reaction(s, t, reply, delay));
  }

  /** The executor was called once more, for turn `t`, with what its proposal comes down to. */
  ghost predicate Calls(s: State, t: nat, p: Proposal, home: Home, after: State) {
    && |after.log| == |s.log| + 1 && after.log[..|s.log|] == s.log && p.action.Some?
    && t < |after.turns| && after.turns[t].pc.Executing?
    && var x, refs := after.log[|s.log|], after.turns[t].pc.proposal.targets;
    x.turn == t && ResolvesTo(home, p, refs) && Does(x.plan, home, refs, p.action.value)
  }

  lemma RecheckIs(s: State, t: nat, p: Proposal, understoodAt: nat, home: Home, delay: nat)
    requires Suspended(s, t) && s.turns[t].pc == Rechecking(p, understoodAt)
    ensures Reaction(s, t, Directory(Some(home)), delay) == AfterRechecking(
      ContextOf(s, t), s.turns[t].revision, s.turns[t].heard, p, Some(home), s.now + delay, s.lim.maxCommands)
  {}

  lemma RecheckReacts(s: State, t: nat, p: Proposal, understoodAt: nat, home: Home, delay: nat, m: Move)
    requires Suspended(s, t) && Current(ContextOf(s, t), s.turns[t].revision)
    requires s.turns[t].pc == Rechecking(p, understoodAt) && !p.intent.Query?
    requires m == Reaction(s, t, Directory(Some(home)), delay)
    ensures m.plan.Some? <==> Executable(home, p, s.lim.maxCommands)
    ensures m.plan.Some? ==>
      && p.action.Some? && m.pc.Executing? && ResolvesTo(home, p, m.pc.proposal.targets)
      && Does(m.plan.value, home, m.pc.proposal.targets, p.action.value)
  {
    RecheckIs(s, t, p, understoodAt, home, delay);
    ExecutesIff(ContextOf(s, t), s.turns[t].revision, s.turns[t].heard, p, home, s.now + delay, s.lim.maxCommands);
  }

  /** A control command whose home was just read again calls the executor exactly when what it
      comes down to can be done, and does exactly that. */
  lemma RecheckExecutesIff(s: State, t: nat, p: Proposal, understoodAt: nat, home: Home, delay: nat)
    requires WaitsAt(s, t, Rechecking(p, understoodAt)) && !p.intent.Query?
    ensures
      var after := Step(s, At(delay, Return(t, Directory(Some(home)))));
      if Executable(home, p, s.lim.maxCommands) then Calls(s, t, p, home, after) else after.log == s.log
  {
    var pc, reply := Rechecking(p, understoodAt), Directory(Some(home));
    WaitsSuspended(s, t, pc);
    ReplyMoves(s, t, pc, reply, delay);
    RecheckReacts(s, t, p, understoodAt, home, delay, Reaction(s, t, reply, delay));
  }

  /** The replies that take a command from its lock to the executor: it is authorized, the home
      is read, the words are understood as `p`, and the home is read again. */
  function Dialogue(t: nat, first: Home, p: Proposal, home: Home, delays: seq<nat>): seq<Moment>
    requires |delays| == 4
  {
    [At(delays[0], Return(t, Authorized(true))), At(delays[1], Return(t, Directory(Some(first)))),
     At(delays[2], Return(t, Understood(Some(Proposes(p))))), At(delays[3], Return(t, Directory(Some(home))))]
  }

  lemma FourSteps(s: State, acts: seq<Moment>)
    requires Inv(s) && |acts| == 4
    ensures Run(s, acts[..1]) == Step(s, acts[0]) && Run(s, acts[..2]) == Step(Run(s, acts[..1]), acts[1])
    ensures Run(s, acts[..3]) == Step(Run(s, acts[..2]), acts[2]) && Run(s, acts) == Step(Run(s, acts[..3]), acts[3])
  {
    assert acts[..1] == [] + [acts[0]] && acts[..2] == acts[..1] + [acts[1]];
    assert acts[..3] == acts[..2] + [acts[2]] && acts == acts[..3] + [acts[3]];
    RunSnoc(s, [], acts[0]);
    RunSnoc(s, acts[..1], acts[1]);
    RunSnoc(s, acts[..2], acts[2]);
    RunSnoc(s, acts[..3], acts[3]);
  }

  /** From any reachable state: a command that holds its open session's lock and is understood
      as a control proposal is executed exactly when it can be done in the home as read last. */
  lemma CommandExecutesIff(s: State, t: nat, first: Home, p: Proposal, home: Home, delays: seq<nat>)
    requires WaitsAt(s, t, Authorizing) && s.turns[t].heard != "" && |delays| == 4
    requires p.intent.Control? && !p.status.NoTarget?
    ensures
      var after := Run(s, Dialogue(t, first, p, home, delays));
      if Executable(home, p, s.lim.maxCommands) then Calls(s, t, p, home, after) else after.log == s.log
  {
    var acts := Dialogue(t, first, p, home, delays);
    FourSteps(s, acts);
    var seen := AuthorizedReads(s, t, delays[0]);
    HomeReadInterprets(Run(s, acts[..1]), t, seen, first, delays[1]);
    ProposalRechecks(Run(s, acts[..2]), t, seen, p, delays[2]);
    RecheckExecutesIff(Run(s, acts[..3]), t, p, Run(s, acts[..2]).steps, home, delays[3]);
  }

  // ---- from its arrival --------------------------------------------------

  /** `get` answers with session `i`, which is new or has no command. */
  ghost predicate FindsIdle(s: State, scope: Scope, i: nat) {
    && WellFormed(s.store) && Get(s.store, scope, s.now, s.lim, s.next).1 == Session_(i)
    && (i in s.store.heap ==> s.store.heap[i].holder.None? && s.store.heap[i].queue == [])
  }

  lemma FetchedSession(s: State, scope: Scope, i: nat)
    requires Inv(s) && FindsIdle(s, scope, i)
    ensures
      var fetched := Fetched(s, scope);
      && i in fetched.store.heap && fetched.store.heap[i].context.active
      && fetched.store.heap[i].holder.None? && fetched.store.heap[i].queue == []
      && fetched.turns == s.turns && fetched.log == s.log && fetched.lim == s.lim
  {
    GetAdds(s.store, scope, s.now, s.lim, s.next);
    if i in s.store.heap { GetOthers(s.store, scope, s.now, s.lim, s.next, i); }
  }

  lemma EnterBegins(s: State, i: nat, heard: string)
    requires i in s.store.heap && s.store.heap[i].context.active
    requires s.store.heap[i].holder.None? && s.store.heap[i].queue == []
    ensures
      var t, after := |s.turns|, Enter(s, i, heard);
      && |after.turns| == t + 1 && after.turns[t].heard == heard && after.turns[t].pc == Authorizing
      && after.turns[t].session == i && i in after.store.heap && after.store.heap[i].context.active
      && after.log == s.log && after.lim == s.lim
  {}

  lemma ArrivedBegins(s: State, scope: Scope, heard: string, i: nat)
    requires Inv(s) && FindsIdle(s, scope, i)
    ensures Begun(s, Arrived(s, scope, heard), i, heard)
  {
    FetchedSession(s, scope, i);
    EnterBegins(Fetched(s, scope), i, heard);
  }

  /** A new last turn has just got the lock of the open session `i`. */
  ghost predicate Begun(s: State, after: State, i: nat, heard: string) {
    var t := |s.turns|;
    && |after.turns| == t + 1 && after.turns[t].heard == heard && after.turns[t].pc == Authorizing
    && after.turns[t].session == i && i in after.store.heap && after.store.heap[i].context.active
    && after.log == s.log && after.lim == s.lim
  }

  lemma BegunWaits(s: State, b: State, i: nat, heard: string)
    requires Begun(s, b, i, heard) && Inv(Ticked(b))
    ensures WaitsAt(Ticked(b), |s.turns|, Authorizing)
  {}

  /** A command whose session is new or idle gets its lock at once. */
  lemma ArrivalBegins(s: State, scope: Scope, heard: string, delay: nat, i: nat)
    requires Inv(s) && FindsIdle(Later(s, delay), scope, i)
    ensures
      var t, after := |s.turns|, Step(s, At(delay, Arrive(scope, heard)));
      && WaitsAt(after, t, Authorizing) && after.turns[t].heard == heard && after.turns[t].session == i
      && after.log == s.log && after.lim == s.lim
  {
    var b := Later(s, delay);
    ClockKeeps(s, delay);
    ArrivedBegins(b, scope, heard, i);
    StepKeeps(s, At(delay, Arrive(scope, heard)));
    BegunWaits(b, Arrived(b, scope, heard), i, heard);
  }

  /** The command next in line of an open session gets its lock once that is free. */
  lemma ResumeBegins(s: State, i: nat, delay: nat)
    requires Inv(s) && i in s.store.heap && s.store.heap[i].context.active
    requires s.store.heap[i].holder.None? && s.store.heap[i].queue != []
    ensures
      var t := s.store.heap[i].queue[0];
      var after := Step(s, At(delay, Resume(t)));
      && WaitsAt(after, t, Authorizing) && t < |s.turns| && after.turns[t].heard == s.turns[t].heard
      && after.log == s.log && after.lim == s.lim
  {
    assert LockOk(i, s.store.heap[i], s.turns);
    StepKeeps(s, At(delay, Resume(s.store.heap[i].queue[0])));
  }

  lemma {:induction false} RunCons(s: State, a: Moment, acts: seq<Moment>, all: seq<Moment>)
    requires Inv(s) && all == [a] + acts
    ensures Inv(Step(s, a)) && Run(s, all) == Run(Step(s, a), acts)
  {
    StepKeeps(s, a);
    var front := all[..|all| - 1];
    if acts == [] {
      assert front == [];
    } else {
      assert front == [a] + acts[..|acts| - 1] && all[|all| - 1] == acts[|acts| - 1];
      RunCons(s, a, acts[..|acts| - 1], front);
    }
  }

  /** End to end: a spoken command that finds its session new or idle, and whose words are
      understood as a control proposal, is executed exactly when it can be done. */
  lemma SpokenExecutesIff(s: State, scope: Scope, heard: string, delay: nat, i: nat,
                          first: Home, p: Proposal, home: Home, delays: seq<nat>)
    requires Inv(s) && FindsIdle(Later(s, delay), scope, i)
    requires heard != "" && |delays| == 4 && p.intent.Control? && !p.status.NoTarget?
    ensures
      var t := |s.turns|;
      var after := Run(s, [At(delay, Arrive(scope, heard))] + Dialogue(t, first, p, home, delays));
      if Executable(home, p, s.lim.maxCommands) then Calls(s, t, p, home, after) else after.log == s.log
  {
    var t, a := |s.turns|, At(delay, Arrive(scope, heard));
    ArrivalBegins(s, scope, heard, delay, i);
    RunCons(s, a, Dialogue(t, first, p, home, delays), [a] + Dialogue(t, first, p, home, delays));
    CommandExecutesIff(Step(s, a), t, first, p, home, delays);
  }
}
