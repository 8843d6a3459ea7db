/** What a home command comes to (domain/smarthome/command.py, planning.py): when it is
    executed and on what, and what it asks or answers otherwise. */
module HomeOutcomes {
  import opened Basics
  import opened HomeContexts
  import opened HomeCommands

  // ---- what can be done --------------------------------------------------

  /** The action can be done on these references as they are in the home: one scene to
      activate, or one to `maxCommands` devices of which each accepts it. */
  ghost predicate Doable(home: Home, refs: seq<string>, action: Action, maxCommands: nat) {
    if action.trait_ == SCENE_TRAIT then action.command == SCENE_COMMAND && |refs| == 1 && refs[0] in home.scenes
    else 1 <= |refs| <= maxCommands && forall i | 0 <= i < |refs| :: Accepts(home, refs[i], action)
  }

  /** Where the list first names `d`; its length if nowhere. */
  function FirstIndex(members: seq<string>, d: string): nat {
    if members == [] || members[0] == d then 0 else 1 + FirstIndex(members[1..], d)
  }

  /** The devices of a scene that the home still has, each once, as first named. */
  ghost predicate NamesNow(targets: seq<Planned>, home: Home, members: seq<string>) {
    && (forall i | 0 <= i < |targets| ::
          targets[i].refusal.None? && targets[i].device in members && targets[i].device in home.devices)
    && (forall d | d in members && d in home.devices :: Planned(d, None) in targets)
    && (forall i, j | 0 <= i < j < |targets| ::
          FirstIndex(members, targets[i].device) < FirstIndex(members, targets[j].device))
  }

  /** The plan does the action on exactly these references. */
  ghost predicate Does(plan: Plan, home: Home, refs: seq<string>, action: Action) {
    if action.trait_ == SCENE_TRAIT then
      && |refs| == 1 && refs[0] in home.scenes && plan.scene == Some(refs[0])
      && NamesNow(plan.targets, home, home.scenes[refs[0]])
    else
      && plan.scene.None? && |plan.targets| == |refs|
      && forall i | 0 <= i < |refs| :: plan.targets[i] == Planned(refs[i], None)
  }

  // ---- the devices of a scene --------------------------------------------

  lemma {:induction false} FirstIndexSnoc(members: seq<string>, last: string, d: string)
    ensures d in members ==> FirstIndex(members + [last], d) == FirstIndex(members, d) < |members|
    ensures d !in members ==> FirstIndex(members + [last], d) >= |members|
  {
    if members != [] {
      assert (members + [last])[1..] == members[1..] + [last] && members == [members[0]] + members[1..];
      FirstIndexSnoc(members[1..], last, d);
    }
  }

  ghost predicate InStoredOrder(stored: seq<string>, members: seq<string>) {
    forall i, j | 0 <= i < j < |stored| :: FirstIndex(members, stored[i]) < FirstIndex(members, stored[j])
  }

  lemma {:induction false} StoredMembers(home: Home, members: seq<string>)
    ensures forall d :: d in Stored(home, members) <==> d in members && d in home.devices
  {
    if members != [] {
      StoredMembers(home, members[..|members| - 1]);
      assert members == members[..|members| - 1] + [members[|members| - 1]];
    }
  }

  lemma {:induction false} StoredOrder(home: Home, members: seq<string>)
    ensures InStoredOrder(Stored(home, members), members)
  {
    if members != [] {
      var before, last := members[..|members| - 1], members[|members| - 1];
      var stored := Stored(home, members);
      StoredOrder(home, before);
      StoredMembers(home, before);
      assert members == before + [last];
      forall i, j | 0 <= i < j < |stored|
        ensures FirstIndex(members, stored[i]) < FirstIndex(members, stored[j])
      {
        assert stored[i] in Stored(home, before);
        FirstIndexSnoc(before, last, stored[i]);
        FirstIndexSnoc(before, last, stored[j]);
      }
    }
  }

  lemma SceneNamesNow(home: Home, scene: string)
    requires scene in home.scenes
    ensures NamesNow(ScenePlan(home, scene).targets, home, home.scenes[scene])
  {
    var members := home.scenes[scene];
    var stored, targets := Stored(home, members), ScenePlan(home, scene).targets;
    StoredMembers(home, members);
    StoredOrder(home, members);
    forall i | 0 <= i < |targets| ensures targets[i].device in members && targets[i].device in home.devices {
      assert stored[i] in stored;
    }
    forall d | d in members && d in home.devices ensures Planned(d, None) in targets {
      var i :| 0 <= i < |stored| && stored[i] == d;
      assert targets[i] == Planned(d, None);
    }
  }

  // ---- planning ----------------------------------------------------------

  lemma {:induction false} AllAccepted(targets: seq<Planned>)
    ensures Accepted(targets) <= |targets|
    ensures Accepted(targets) == |targets| <==> forall i | 0 <= i < |targets| :: targets[i].refusal.None?
  {
    if targets != [] { AllAccepted(targets[..|targets| - 1]); }
  }

  lemma {:induction false} FirstRefusalMeaning(targets: seq<Planned>)
    ensures FirstRefusal(targets).None? <==> forall i | 0 <= i < |targets| :: targets[i].refusal.None?
  {
    if targets != [] {
      FirstRefusalMeaning(targets[1..]);
      assert forall i | 1 <= i < |targets| :: targets[i] == targets[1..][i - 1];
    }
  }

  /** Every reference is a device, which may refuse. */
  predicate AreDevices(home: Home, refs: seq<string>) { forall i | 0 <= i < |refs| :: refs[i] in home.devices }

  predicate AllAccept(home: Home, refs: seq<string>, action: Action) {
    forall i | 0 <= i < |refs| :: Accepts(home, refs[i], action)
  }

  /** Nothing is refused exactly when every device accepts and there are not too many. */
  lemma LimitedMeaning(home: Home, refs: seq<string>, action: Action, maxCommands: nat)
    requires AreDevices(home, refs)
    ensures
      var each := PlanEach(home, refs, action);
      var targets := Limited(each, maxCommands);
      && |targets| == |refs|
      && (FirstRefusal(targets).None? <==> AllAccept(home, refs, action) && |refs| <= maxCommands)
      && (FirstRefusal(targets).None? ==> targets == each)
  {
    var each := PlanEach(home, refs, action);
    AllAccepted(each);
    FirstRefusalMeaning(Limited(each, maxCommands));
    EachMeaning(home, refs, action);
  }

  lemma EachMeaning(home: Home, refs: seq<string>, action: Action)
    requires AreDevices(home, refs)
    ensures
      var each := PlanEach(home, refs, action);
      AllAccept(home, refs, action) <==> forall i | 0 <= i < |each| :: each[i].refusal.None?
  {
    var each := PlanEach(home, refs, action);
    forall i | 0 <= i < |refs| ensures each[i].refusal.None? <==> Accepts(home, refs[i], action) {}
    if forall i | 0 <= i < |each| :: each[i].refusal.None? {
      forall i | 0 <= i < |refs| ensures Accepts(home, refs[i], action) { assert each[i].refusal.None?; }
    }
  }

  /** The end of a control command on resolved references: it is executed, on exactly these
      references, exactly when it can be done. */
  lemma ActIff(c: Context, heard: string, p: Proposal, home: Home, now: int, maxCommands: nat)
    requires p.action.Some?
    ensures
      var m := Act(c, heard, p, home, now, maxCommands);
      && (m.plan.Some? <==> Doable(home, p.targets, p.action.value, maxCommands))
      && (m.plan.Some? ==>
            && m.pc == Executing(p) && m.context == c
            && Does(m.plan.value, home, p.targets, p.action.value))
  {
    var action := p.action.value;
    if action.trait_ == SCENE_TRAIT {
      SceneActIff(c, heard, p, home, now, maxCommands);
    } else if AreDevices(home, p.targets) {
      DeviceActIff(c, heard, p, home, now, maxCommands);
    }
  }

  lemma SceneActIff(c: Context, heard: string, p: Proposal, home: Home, now: int, maxCommands: nat)
    requires p.action.Some? && p.action.value.trait_ == SCENE_TRAIT
    ensures
      var m := Act(c, heard, p, home, now, maxCommands);
      && (m.plan.Some? <==> Doable(home, p.targets, p.action.value, maxCommands))
      && (m.plan.Some? ==>
            m.pc == Executing(p) && m.context == c && Does(m.plan.value, home, p.targets, p.action.value))
  {
    if Doable(home, p.targets, p.action.value, maxCommands) {
      var plan := ScenePlan(home, p.targets[0]);
      SceneNamesNow(home, p.targets[0]);
      FirstRefusalMeaning(plan.targets);
    }
  }

  lemma DeviceActIff(c: Context, heard: string, p: Proposal, home: Home, now: int, maxCommands: nat)
    requires p.action.Some? && p.action.value.trait_ != SCENE_TRAIT && AreDevices(home, p.targets)
    ensures
      var m := Act(c, heard, p, home, now, maxCommands);
      && (m.plan.Some? <==> Doable(home, p.targets, p.action.value, maxCommands))
      && (m.plan.Some? ==>
            m.pc == Executing(p) && m.context == c && Does(m.plan.value, home, p.targets, p.action.value))
  {
    var action := p.action.value;
    var each := PlanEach(home, p.targets, action);
    LimitedMeaning(home, p.targets, action, maxCommands);
    AllAccepted(Limited(each, maxCommands));
    FirstRefusalMeaning(Limited(each, maxCommands));
  }

  /** One device whose value is out of range, or several that cannot all do it. */
  predicate AsksBack(home: Home, refs: seq<string>, action: Action) {
    |refs| > 1 || (|refs| == 1 && refs[0] in home.devices
                   && RefusalOf(home.devices[refs[0]], action) == Some(OutOfRange))
  }

  /** What a command on devices comes to that cannot be done: a question about exactly these
      devices, or a failure. */
  lemma RefusedAsksOrFails(c: Context, heard: string, p: Proposal, home: Home, now: int, maxCommands: nat)
    requires p.action.Some? && p.action.value.trait_ != SCENE_TRAIT && AreDevices(home, p.targets)
    requires !Doable(home, p.targets, p.action.value, maxCommands)
    ensures
      var m := Act(c, heard, p, home, now, maxCommands);
      if AsksBack(home, p.targets, p.action.value) then
        && m.pc == Over(Clarifying) && m.context.pending
        && m.context.clarification.Some? && m.context.clarification.value.targets == p.targets
        && m.context.question == Some(m.context.clarification.value.question)
      else m.pc == Over(Failed) && m.context == c
  {
    var action := p.action.value;
    var each := PlanEach(home, p.targets, action);
    var targets := Limited(each, maxCommands);
    LimitedMeaning(home, p.targets, action, maxCommands);
    AllAccepted(targets);
    FirstRefusalMeaning(targets);
  }

  // ---- an ambiguous target -----------------------------------------------

  lemma {:induction false} NoneCapable(home: Home, refs: seq<string>, action: Action)
    requires forall j | 0 <= j < |refs| :: !Accepts(home, refs[j], action)
    ensures Capable(home, refs, action) == []
  {
    if refs != [] { NoneCapable(home, refs[..|refs| - 1], action); }
  }

  lemma {:induction false} OnlyOneCapable(home: Home, refs: seq<string>, action: Action, i: nat)
    requires i < |refs| && Accepts(home, refs[i], action)
    requires forall j | 0 <= j < |refs| && j != i :: !Accepts(home, refs[j], action)
    ensures Capable(home, refs, action) == [refs[i]]
  {
    var front := refs[..|refs| - 1];
    if i == |front| {
      NoneCapable(home, front, action);
    } else {
      OnlyOneCapable(home, front, action, i);
    }
  }

  lemma OnlyCapableIff(home: Home, refs: seq<string>, action: Action, device: string)
    ensures OnlyCapable(home, refs, action, device) <==> Capable(home, refs, action) == [device]
  {
    CapableMeaning(home, refs, action);
    if OnlyCapable(home, refs, action, device) {
      var i :| 0 <= i < |refs| && refs[i] == device
        && forall j | 0 <= j < |refs| && j != i :: !Accepts(home, refs[j], action);
      OnlyOneCapable(home, refs, action, i);
    }
  }

  /** The references a control proposal comes down to: its own, or the only device among
      them that accepts the action. */
  ghost predicate ResolvesTo(home: Home, p: Proposal, refs: seq<string>)
    requires p.action.Some?
  {
    if p.status.Ambiguous? then |refs| == 1 && OnlyCapable(home, p.targets, p.action.value, refs[0])
    else refs == p.targets
  }

  ghost predicate Executable(home: Home, p: Proposal, maxCommands: nat) {
    && p.action.Some? && (forall i | 0 <= i < |p.targets| :: Known(home, p.targets[i]))
    && exists refs :: ResolvesTo(home, p, refs) && Doable(home, refs, p.action.value, maxCommands)
  }

  /** A current control command reaches the executor exactly when all it names is still there
      and its action can be done on what it comes down to; and then it does just that. */
  lemma ExecutesIff(c: Context, revision: int, heard: string, p: Proposal, home: Home, now: int, maxCommands: nat)
    requires Current(c, revision) && !p.intent.Query?
    ensures
      var m := AfterRechecking(c, revision, heard, p, Some(home), now, maxCommands);
      && (m.plan.Some? <==> Executable(home, p, maxCommands))
      && (m.plan.Some? ==>
            && m.pc.Executing? && m.context == c && ResolvesTo(home, p, m.pc.proposal.targets)
            && m.pc.proposal.action == p.action
            && Does(m.plan.value, home, m.pc.proposal.targets, p.action.value))
  {
    if p.action.Some? && forall i | 0 <= i < |p.targets| :: Known(home, p.targets[i]) {
      if p.status.Ambiguous? {
        AmbiguousExecutesIff(c, revision, heard, p, home, now, maxCommands);
      } else {
        ActIff(c, heard, p, home, now, maxCommands);
        assert ResolvesTo(home, p, p.targets);
      }
    }
  }

  lemma AmbiguousExecutesIff(
    c: Context, revision: int, heard: string, p: Proposal, home: Home, now: int, maxCommands: nat)
    requires Current(c, revision) && !p.intent.Query? && p.action.Some? && p.status.Ambiguous?
    requires forall i | 0 <= i < |p.targets| :: Known(home, p.targets[i])
    ensures
      var m := AfterRechecking(c, revision, heard, p, Some(home), now, maxCommands);
      && (m.plan.Some? <==> Executable(home, p, maxCommands))
      && (m.plan.Some? ==>
            && m.pc.Executing? && m.context == c && ResolvesTo(home, p, m.pc.proposal.targets)
            && m.pc.proposal.action == p.action
            && Does(m.plan.value, home, m.pc.proposal.targets, p.action.value))
  {
    var action := p.action.value;
    var capable := Capable(home, p.targets, action);
    forall refs: seq<string> ensures ResolvesTo(home, p, refs) <==> |refs| == 1 && capable == refs {
      if |refs| == 1 { OnlyCapableIff(home, p.targets, action, refs[0]); }
    }
    if |capable| == 1 {
      assert ResolvesTo(home, p, capable);
      ActIff(c, heard, p.(status := Resolved, targets := [capable[0]]), home, now, maxCommands);
      assert [capable[0]] == capable;
    }
  }

  // ---- what the next turn sees -------------------------------------------

  /** What was remembered is shown to the next turn in full, and is last in the history. */
  lemma RememberedIsSeen(c: Context, e: Exchange, now: int, later: int)
    requires c.active && later < now + LIFETIME && c.limit >= 1
    ensures
      var seen := Snapshot(Remembering(c, e, now), later);
      && seen.Some? && seen.value.utterance == e.utterance && seen.value.proposal == e.proposal
      && seen.value.question == e.question && (seen.value.pending <==> e.question.Some?)
      && seen.value.response == e.response && seen.value.pendingAction == e.pendingAction
      && seen.value.targets == (if e.clarification.Some? then e.clarification.value.targets else [])
      && seen.value.action == (if e.clarification.Some? then e.clarification.value.action else None)
      && seen.value.history != [] && seen.value.history[|seen.value.history| - 1] == Kept(e)
  {}

  /** After an executed command the next turn is shown what was asked, done and answered. */
  lemma ExecutedIsSeen(
    c: Context, revision: int, heard: string, p: Proposal, message: string, now: int, at: nat, maxCommands: nat,
    later: int)
    requires Bounded(c) && Current(c, revision) && later < now + LIFETIME
    ensures
      var m := Continue(c, revision, heard, Executing(p), Reported(Executed, message), now, at, maxCommands);
      && m.pc == Over(Executed)
      && var seen := Snapshot(m.context, later);
      && seen.Some? && seen.value.utterance == heard && seen.value.proposal == Some(p)
      && seen.value.response == message && seen.value.outcome == "executed" && !seen.value.pending
  {}

  /** A choice among several capable devices: the next turn is shown exactly those, in the
      order named, as the pending question. */
  lemma {:induction false} ChoiceIsSeen(
    c: Context, revision: int, heard: string, p: Proposal, home: Home, now: int, maxCommands: nat, later: int)
    requires Current(c, revision) && later < now + LIFETIME && !p.intent.Query?
    requires p.action.Some? && p.status.Ambiguous? && forall i | 0 <= i < |p.targets| :: Known(home, p.targets[i])
    requires 2 <= |Capable(home, p.targets, p.action.value)| <= MAX_CANDIDATES
    ensures
      var m := AfterRechecking(c, revision, heard, p, Some(home), now, maxCommands);
      && m.pc == Over(ChooseOne) && m.plan.None?
      && var seen := Snapshot(m.context, later);
      && seen.Some? && seen.value.pending && seen.value.proposal.Some?
      && seen.value.pendingAction == p.action.value.command
      && (forall r :: r in seen.value.proposal.value.targets <==> r in p.targets && Accepts(home, r, p.action.value))
  {
    CapableMeaning(home, p.targets, p.action.value);
  }

  /** A question about devices that cannot all do it: the next turn is shown which. */
  lemma QuestionIsSeen(c: Context, heard: string, p: Proposal, home: Home, now: int, maxCommands: nat, later: int)
    requires p.action.Some? && p.action.value.trait_ != SCENE_TRAIT && AreDevices(home, p.targets)
    requires !Doable(home, p.targets, p.action.value, maxCommands) && AsksBack(home, p.targets, p.action.value)
    requires c.active && later < now + LIFETIME
    ensures
      var m := Act(c, heard, p, home, now, maxCommands);
      && m.pc == Over(Clarifying)
      && var seen := Snapshot(m.context, later);
      seen.Some? && seen.value.pending && seen.value.targets == p.targets && seen.value.utterance == heard
  {
    RefusedAsksOrFails(c, heard, p, home, now, maxCommands);
  }

  // ---- what is not executed ----------------------------------------------

  /** A query is answered from the home as read last exactly when it names a device, and
      calls nothing; the next turn is shown the answer. */
  lemma QueryAnswersIff(
    c: Context, revision: int, heard: string, p: Proposal, home: Home, now: int, maxCommands: nat, later: int)
    requires Current(c, revision) && p.intent.Query? && later < now + LIFETIME
    requires forall i | 0 <= i < |p.targets| :: Known(home, p.targets[i])
    ensures
      var m := AfterRechecking(c, revision, heard, p, Some(home), now, maxCommands);
      && m.plan.None?
      && (m.pc == Over(Answered) <==> exists i :: 0 <= i < |p.targets| && p.targets[i] in home.devices)
      && (m.pc != Over(Answered) ==> m.pc == Over(Failed) && m.context == c)
      && (m.pc == Over(Answered) ==>
            var seen := Snapshot(m.context, later);
            && seen.Some? && seen.value.proposal == Some(p) && !seen.value.pending
            && seen.value.response == Described(home, p.targets))
  {}

  /** Nothing is left that a later turn could confirm or refer to; the history stays. */
  ghost predicate NoFocus(c: Context, before: Context) {
    && c.proposal.None? && c.question.None? && c.clarification.None? && !c.pending && c.pendingAction == ""
    && (c.history == before.history
        || exists item :: c.history == LastItems(before.history + [item], before.limit))
  }

  /** A request that was withdrawn, not understood, not about the home or about nothing there
      leaves no focus, whatever was pending before, and is over at once. */
  lemma WithdrawnLeavesNoFocus(
    c: Context, revision: int, heard: string, seen: Option<Seen>, u: Understanding, now: int, at: nat)
    requires Current(c, revision) && !u.Asks?
    requires u.Proposes? ==> u.proposal.intent.Unrelated? || u.proposal.status.NoTarget?
    ensures
      var m := AfterUnderstanding(c, revision, heard, seen, Some(u), now, at);
      m.pc.Over? && m.plan.None? && NoFocus(m.context, c)
  {
    var m := AfterUnderstanding(c, revision, heard, seen, Some(u), now, at);
    if m.context.history != c.history {
      var item := Kept(if u.Cancellation? then Note(heard, None, CancelText(seen), "cancelled")
                       else Note(heard, None, "unrelated", "unrelated"));
      assert m.context.history == LastItems(c.history + [item], c.limit);
    }
  }

  /** A question of the interpreter about several devices becomes a choice exactly among the two
      to eight that accept the action, and is asked as it is otherwise. */
  lemma ChoosingIff(c: Context, revision: int, heard: string, q: Clarification, home: Home, now: int)
    requires Current(c, revision) && q.action.Some?
    ensures
      var m, capable := AfterChoosing(c, revision, heard, q, Some(home), now), Capable(home, q.targets, q.action.value);
      && m.plan.None?
      && (m.pc == Over(ChooseOne) <==> 2 <= |capable| <= MAX_CANDIDATES)
      && (m.pc == Over(ChooseOne) ==> m.context.proposal.Some? && m.context.proposal.value.targets == capable)
      && (m.pc != Over(ChooseOne) ==>
            m.pc == Over(Clarifying) && m.context.question == Some(q.question) && m.context.clarification == Some(q))
  {}

  /** What the executor does not report as executed leaves the context as it was. */
  lemma UnconfirmedIsNotRemembered(
    c: Context, revision: int, heard: string, p: Proposal, ending: Ending, message: string, now: int)
    requires !ending.Executed? || !Current(c, revision)
    ensures AfterExecution(c, revision, heard, p, ending, message, now) == Ends(c, ending)
  {}
}
