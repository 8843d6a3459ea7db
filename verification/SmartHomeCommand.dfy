/** `SmartHomeCommand.handle` on the session's own context object, one method for each
    stretch between two awaits (domain/smarthome/command.py). */
module SmartHomeCommands {
  import opened Basics
  import opened HomeContexts
  import opened HomeCommands

  class SmartHomeCommand {
    const maxCommands: nat
    const context: HomeContext
    const revision: int
    const heard: string

    constructor (context: HomeContext, revision: int, heard: string, maxCommands: nat)
      ensures this.context == context && this.revision == revision && this.heard == heard
      ensures this.maxCommands == maxCommands
    {
      this.context, this.revision, this.heard, this.maxCommands := context, revision, heard, maxCommands;
    }

    method IsCurrent() returns (current: bool)
      ensures current == Current(context.View(), revision)
    {
      return context.active && context.revision == revision;
    }

    method Authorized(ok: bool, now: int) returns (pc: Pc)
      modifies context
      ensures Move(context.View(), pc, None) == AfterAuthority(old(context.View()), revision, heard, ok, now)
    {
      if !ok { return Over(Raised); }
      var current := IsCurrent();
      if !current { return Over(Unavailable); }
      var seen := context.TakeSnapshot(now);
      if heard == "" { return Over(Failed); }
      return Reading(seen);
    }

    method HomeRead(seen: Option<Seen>, home: Option<Home>) returns (pc: Pc)
      modifies context
      ensures Move(context.View(), pc, None) == AfterReading(old(context.View()), revision, seen, home)
    {
      var current := IsCurrent();
      if home.None? {
        if current { context.Clear(false); }
        return Over(Unavailable);
      }
      return if current then Interpreting(seen) else Over(Unavailable);
    }

    method Ask(clarification: Clarification, now: int) returns (pc: Pc)
      modifies context
      ensures Move(context.View(), pc, None) == AskFor(old(context.View()), heard, clarification, now)
    {
      context.Remember(Question(heard, clarification), now);
      return Over(Clarifying);
    }

    method Understood(seen: Option<Seen>, u: Option<Understanding>, now: int, at: nat) returns (pc: Pc)
      modifies context
      ensures Move(context.View(), pc, None) ==
        AfterUnderstanding(old(context.View()), revision, heard, seen, u, now, at)
    {
      var current := IsCurrent();
      if u.None? && current { context.Clear(false); }
      if u.None? || !current { return Over(Unavailable); }
      if u.value.Asks? {
        var q := u.value.clarification;
        if q.action.Some? && |q.targets| >= 2 { return Choosing(q); }
        pc := Ask(q, now);
        return;
      }
      context.Clear(true);
      match u.value {
        case Cancellation =>
          context.Remember(Note(heard, None, CancelText(seen), "cancelled"), now);
          return Over(Answered);
        case Nothing => return Over(Failed);
        case Proposes(p) =>
          if p.intent.Unrelated? {
            context.Remember(Note(heard, None, "unrelated", "unrelated"), now);
            return Over(OffTopic);
          }
          return if p.status.NoTarget? then Over(NotFound) else Rechecking(p, at);
      }
    }

    /** `_remember_selection`. */
    method RememberSelection(p: Proposal, candidates: seq<string>, now: int) returns (pc: Pc)
      requires p.action.Some?
      modifies context
      ensures Move(context.View(), pc, None) ==
        Ends(Remembering(old(context.View()), Selection(heard, p, candidates), now), ChooseOne)
    {
      context.Remember(Selection(heard, p, candidates), now);
      return Over(ChooseOne);
    }

    method ChoicesRead(q: Clarification, home: Option<Home>, now: int) returns (pc: Pc)
      modifies context
      ensures Move(context.View(), pc, None) == AfterChoosing(old(context.View()), revision, heard, q, home, now)
    {
      var current := IsCurrent();
      if home.None? || !current || q.action.None? { return Over(Unavailable); }
      var r := ResolveAmbiguity(home.value, q.targets, q.action.value, true);
      if r.Choice? {
        pc := RememberSelection(Proposal(Control, Ambiguous, q.targets, q.action), r.candidates, now);
      } else {
        pc := Ask(q, now);
      }
    }

    /** A resolved proposal is planned, and refused as a whole or handed to the executor. */
    method Execute(p: Proposal, home: Home, now: int) returns (pc: Pc, plan: Option<Plan>)
      requires p.action.Some?
      modifies context
      ensures Move(context.View(), pc, plan) == Act(old(context.View()), heard, p, home, now, maxCommands)
    {
      plan := PlanAction(home, p.targets, p.action.value, maxCommands);
      if plan.None? { return Over(Failed), None; }
      var refused := FirstRefusal(plan.value.targets);
      if refused.Some? && (|plan.value.targets| > 1 || refused.value.OutOfRange?) {
        pc := Ask(Clarification(AskText(refused.value), p.targets, None), now);
        return pc, None;
      }
      if plan.value.scene.None? && Accepted(plan.value.targets) == 0 { return Over(Failed), None; }
      return Executing(p), plan;
    }

    method HomeReread(p: Proposal, home: Option<Home>, now: int) returns (pc: Pc, plan: Option<Plan>)
      modifies context
      ensures Move(context.View(), pc, plan) ==
        AfterRechecking(old(context.View()), revision, heard, p, home, now, maxCommands)
    {
      plan := None;
      if home.None? { return Over(Unavailable), None; }
      if exists i :: 0 <= i < |p.targets| && !Known(home.value, p.targets[i]) { return Over(NotFound), None; }
      var current := IsCurrent();
      if !current { return Over(Unavailable), None; }
      if p.intent.Query? {
        if !exists i :: 0 <= i < |p.targets| && p.targets[i] in home.value.devices { return Over(Failed), None; }
        context.Remember(Note(heard, Some(p), Described(home.value, p.targets), "answered"), now);
        return Over(Answered), None;
      }
      if p.action.None? { return Over(Raised), None; }
      var resolved := p;
      if p.status.Ambiguous? {
        var r := ResolveAmbiguity(home.value, p.targets, p.action.value, false);
        match r {
          case Choice(candidates) =>
            pc := RememberSelection(p, candidates, now);
            return pc, None;
          case One(device) => resolved := p.(status := Resolved, targets := [device]);
          case _ => return Over(Failed), None;
        }
      }
      pc, plan := Execute(resolved, home.value, now);
    }

    method Reported(p: Proposal, ending: Ending, message: string, now: int) returns (pc: Pc)
      modifies context
      ensures Move(context.View(), pc, None) ==
        AfterExecution(old(context.View()), revision, heard, p, ending, message, now)
    {
      var current := IsCurrent();
      if current && ending.Executed? { context.Remember(Note(heard, Some(p), message, "executed"), now); }
      return Over(ending);
    }

    /** The next stretch, whichever await just returned. */
    method Resume(pc: Pc, reply: Reply, now: int, at: nat) returns (pc': Pc, plan: Option<Plan>)
      modifies context
      ensures Move(context.View(), pc', plan) ==
        Continue(old(context.View()), revision, heard, pc, reply, now, at, maxCommands)
    {
      pc', plan := pc, None;
      match (pc, reply) {
        case (Authorizing, Authorized(ok)) => pc' := Authorized(ok, now);
        case (Reading(seen), Directory(home)) => pc' := HomeRead(seen, home);
        case (Interpreting(seen), Understood(u)) => pc' := Understood(seen, u, now, at);
        case (Choosing(q), Directory(home)) => pc' := ChoicesRead(q, home, now);
        case (Rechecking(p, _), Directory(home)) => pc', plan := HomeReread(p, home, now);
        case (Executing(p), Reported(ending, message)) => pc' := Reported(p, ending, message, now);
        case _ =>
      }
    }
  }
}
