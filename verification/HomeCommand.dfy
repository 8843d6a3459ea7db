/** One spoken home command (domain/smarthome/command.py, planning.py). The command is a
    sequence of stretches between awaits; each gets the reply it waited for and the context
    as it is then. Message texts are stand-ins for the product's wording. */
module HomeCommands {
  import opened Basics
  import opened HomeContexts

  // ---- registry and plans ------------------------------------------------

  datatype Refusal = OutOfRange | Unsupported | TooManyCommands

  /** A device, the actions it refuses and what it last reported. */
  datatype Device = Device(refuses: map<Action, Refusal>, status: string)

  /** A directory snapshot; a scene lists the devices its stored actions name. */
  datatype Home = Home(devices: map<string, Device>, scenes: map<string, seq<string>>)

  datatype Planned = Planned(device: string, refusal: Option<Refusal>)

  datatype Plan = Plan(targets: seq<Planned>, scene: Option<string>)

  const SCENE_TRAIT := "scene"
  const SCENE_COMMAND := "activate"
  const MAX_CANDIDATES := 8

  predicate Known(home: Home, ref: string) { ref in home.devices || ref in home.scenes }

  function RefusalOf(d: Device, action: Action): Option<Refusal> {
    if action in d.refuses then Some(d.refuses[action]) else None
  }

  predicate Accepts(home: Home, ref: string, action: Action) {
    ref in home.devices && action !in home.devices[ref].refuses
  }

  function Accepted(targets: seq<Planned>): nat {
    if targets == [] then 0
    else Accepted(targets[..|targets| - 1]) + if targets[|targets| - 1].refusal.None? then 1 else 0
  }

  function PlanEach(home: Home, refs: seq<string>, action: Action): seq<Planned>
    requires forall i | 0 <= i < |refs| :: refs[i] in home.devices
  {
    seq(|refs|, i requires 0 <= i < |refs| => Planned(refs[i], RefusalOf(home.devices[refs[i]], action)))
  }

  /** Beyond the bound every target is refused. */
  function Limited(targets: seq<Planned>, maxCommands: nat): seq<Planned> {
    if Accepted(targets) <= maxCommands then targets
    else
      seq(|targets|, i requires 0 <= i < |targets| =>
        Planned(targets[i].device, if targets[i].refusal.Some? then targets[i].refusal else Some(TooManyCommands)))
  }

  method PlanDevices(home: Home, refs: seq<string>, action: Action, maxCommands: nat) returns (plan: Plan)
    requires forall i | 0 <= i < |refs| :: refs[i] in home.devices
    ensures plan == Plan(Limited(PlanEach(home, refs, action), maxCommands), None)
  {
    var targets: seq<Planned>, commands := [], 0;
    for i := 0 to |refs|
      invariant targets == PlanEach(home, refs, action)[..i] && commands == Accepted(targets)
    {
      assert (targets + [PlanEach(home, refs, action)[i]])[..i] == targets;
      var device := home.devices[refs[i]];
      if action in device.refuses {
        targets := targets + [Planned(refs[i], Some(device.refuses[action]))];
      } else {
        targets := targets + [Planned(refs[i], None)];
        commands := commands + 1;
      }
    }
    assert targets == PlanEach(home, refs, action);
    plan := Plan(if commands <= maxCommands then targets else Limited(targets, maxCommands), None);
  }

  /** The devices a scene names now, each once, in stored order. */
  function Stored(home: Home, members: seq<string>): seq<string> {
    if members == [] then []
    else
      var front, d := Stored(home, members[..|members| - 1]), members[|members| - 1];
      if d in home.devices && d !in front then front + [d] else front
  }

  function ScenePlan(home: Home, scene: string): Plan
    requires scene in home.scenes
  {
    var stored := Stored(home, home.scenes[scene]);
    Plan(seq(|stored|, i requires 0 <= i < |stored| => Planned(stored[i], None)), Some(scene))
  }

  /** `plan_action`; nothing when it raises. */
  function PlanAction(home: Home, refs: seq<string>, action: Action, maxCommands: nat): Option<Plan> {
    if action.trait_ == SCENE_TRAIT then
      if action.command == SCENE_COMMAND && |refs| == 1 && refs[0] in home.scenes then Some(ScenePlan(home, refs[0]))
      else None
    else if exists i :: 0 <= i < |refs| && refs[i] !in home.devices then None
    else Some(Plan(Limited(PlanEach(home, refs, action), maxCommands), None))
  }

  // ---- an ambiguous target -----------------------------------------------

  function Capable(home: Home, refs: seq<string>, action: Action): seq<string> {
    if refs == [] then []
    else
      var front, r := Capable(home, refs[..|refs| - 1], action), refs[|refs| - 1];
      if Accepts(home, r, action) then front + [r] else front
  }

  /** What `_resolve_ambiguity` decides. */
  datatype Resolution = Choice(candidates: seq<string>) | One(device: string) | NoCandidate | TooMany | AskAgain

  function Resolve(home: Home, refs: seq<string>, action: Action, clarifying: bool): Resolution {
    var capable := Capable(home, refs, action);
    if clarifying && |capable| < 2 then AskAgain
    else if |capable| == 0 then NoCandidate
    else if |capable| == 1 then One(capable[0])
    else if |capable| > MAX_CANDIDATES then TooMany
    else Choice(capable)
  }

  method ResolveAmbiguity(home: Home, refs: seq<string>, action: Action, clarifying: bool) returns (r: Resolution)
    ensures r == Resolve(home, refs, action, clarifying)
  {
    var capable: seq<string> := [];
    for i := 0 to |refs|
      invariant capable == Capable(home, refs[..i], action)
    {
      assert refs[..i + 1][..i] == refs[..i];
      if refs[i] in home.devices && action !in home.devices[refs[i]].refuses { capable := capable + [refs[i]]; }
    }
    assert refs[..|refs|] == refs;
    if clarifying && |capable| < 2 { return AskAgain; }
    if |capable| == 0 { return NoCandidate; }
    if |capable| == 1 { return One(capable[0]); }
    if |capable| > MAX_CANDIDATES { return TooMany; }
    return Choice(capable);
  }

  /** The only one of `refs` that accepts the action. */
  ghost predicate OnlyCapable(home: Home, refs: seq<string>, action: Action, device: string) {
    && Accepts(home, device, action)
    && exists i ::
      && 0 <= i < |refs| && refs[i] == device
      && forall j | 0 <= j < |refs| && j != i :: !Accepts(home, refs[j], action)
  }

  lemma {:induction false} CapableMeaning(home: Home, refs: seq<string>, action: Action)
    ensures forall r :: r in Capable(home, refs, action) <==> r in refs && Accepts(home, r, action)
    ensures Capable(home, refs, action) == [] ==> forall i | 0 <= i < |refs| :: !Accepts(home, refs[i], action)
    ensures |Capable(home, refs, action)| == 1 ==> OnlyCapable(home, refs, action, Capable(home, refs, action)[0])
  {
    if refs != [] {
      var front, last := refs[..|refs| - 1], refs[|refs| - 1];
      CapableMeaning(home, front, action);
      var before := Capable(home, front, action);
      assert refs == front + [last];
      if |Capable(home, refs, action)| == 1 {
        if before == [] {
          assert refs[|refs| - 1] == last;
        } else {
          var i :| 0 <= i < |front| && front[i] == before[0]
            && forall j | 0 <= j < |front| && j != i :: !Accepts(home, front[j], action);
          assert refs[i] == before[0];
        }
      }
    }
  }

  // ---- the stretches -----------------------------------------------------

  /** How a command ends: the outcomes of its card, an exception, or its task cancelled. */
  datatype Ending =
    | Unavailable | Failed | Answered | Clarifying | OffTopic | NotFound | ChooseOne | Executed | Partial
    | Raised | Withdrawn

  datatype Understanding = Nothing | Cancellation | Asks(clarification: Clarification) | Proposes(proposal: Proposal)

  /** What an awaited call brings: nothing where it raised. */
  datatype Reply =
    | Authorized(ok: bool)
    | Directory(home: Option<Home>)
    | Understood(understanding: Option<Understanding>)
    | Reported(ending: Ending, message: string)

  /** Where a turn is suspended. */
  datatype Pc =
    | Waiting
    | Authorizing
    | Reading(seen: Option<Seen>)
    | Interpreting(seen: Option<Seen>)
    | Choosing(clarification: Clarification)
    | Rechecking(proposal: Proposal, understoodAt: nat)
    | Executing(proposal: Proposal)
    | Over(ending: Ending)

  /** A stretch leaves a context, a next await and perhaps a call of the executor. */
  datatype Move = Move(context: Context, pc: Pc, plan: Option<Plan>)

  function Ends(c: Context, ending: Ending): Move { Move(c, Over(ending), None) }

  predicate Current(c: Context, revision: int) { c.active && c.revision == revision }

  function Note(utterance: string, proposal: Option<Proposal>, response: string, outcome: string): Exchange {
    Exchange(utterance, proposal, None, None, response, "", outcome)
  }

  function Question(utterance: string, c: Clarification): Exchange {
    Exchange(utterance, None, Some(c.question), Some(c), "", "", "")
  }

  /** The capable candidates actually shown, in that order. */
  function Selection(utterance: string, p: Proposal, candidates: seq<string>): Exchange
    requires p.action.Some?
  {
    Exchange(utterance, Some(p.(targets := candidates)), Some("choose one"), None, "", p.action.value.command, "")
  }

  function AfterAuthority(c: Context, revision: int, heard: string, ok: bool, now: int): Move {
    if !ok then Ends(c, Raised)
    else if !Current(c, revision) then Ends(c, Unavailable)
    else if heard == "" then Ends(AfterSnapshot(c, now), Failed)
    else Move(AfterSnapshot(c, now), Reading(Snapshot(c, now)), None)
  }

  function AfterReading(c: Context, revision: int, seen: Option<Seen>, home: Option<Home>): Move {
    if home.None? then Ends(if Current(c, revision) then Cleared(c, false) else c, Unavailable)
    else if !Current(c, revision) then Ends(c, Unavailable)
    else Move(c, Interpreting(seen), None)
  }

  function CancelText(seen: Option<Seen>): string {
    if seen.Some? && seen.value.pending then "request withdrawn"
    else if seen.Some? && seen.value.outcome == "executed" then "nothing new; last result: " + seen.value.response
    else "nothing done"
  }

  function AskFor(c: Context, heard: string, clarification: Clarification, now: int): Move {
    Ends(Remembering(c, Question(heard, clarification), now), Clarifying)
  }

  function AfterUnderstanding(
    c: Context, revision: int, heard: string, seen: Option<Seen>, u: Option<Understanding>, now: int, at: nat): Move
  {
    if u.None? then Ends(if Current(c, revision) then Cleared(c, false) else c, Unavailable)
    else if !Current(c, revision) then Ends(c, Unavailable)
    else
      var rest := Cleared(c, true);
      match u.value
      case Cancellation => Ends(Remembering(rest, Note(heard, None, CancelText(seen), "cancelled"), now), Answered)
      case Asks(q) =>
        if q.action.Some? && |q.targets| >= 2 then Move(c, Choosing(q), None) else AskFor(c, heard, q, now)
      case Nothing => Ends(rest, Failed)
      case Proposes(p) =>
        if p.intent.Unrelated? then Ends(Remembering(rest, Note(heard, None, "unrelated", "unrelated"), now), OffTopic)
        else if p.status.NoTarget? then Ends(rest, NotFound)
        else Move(rest, Rechecking(p, at), None)
  }

  function AfterChoosing(
    c: Context, revision: int, heard: string, q: Clarification, home: Option<Home>, now: int): Move
  {
    if home.None? || !Current(c, revision) || q.action.None? then Ends(c, Unavailable)
    else
      var p := Proposal(Control, Ambiguous, q.targets, q.action);
      match Resolve(home.value, q.targets, q.action.value, true)
      case Choice(candidates) => Ends(Remembering(c, Selection(heard, p, candidates), now), ChooseOne)
      case _ => AskFor(c, heard, q, now)
  }

  function FirstRefusal(targets: seq<Planned>): Option<Refusal> {
    if targets == [] then None
    else if targets[0].refusal.Some? then targets[0].refusal
    else FirstRefusal(targets[1..])
  }

  function AskText(r: Refusal): string { if r.OutOfRange? then "which value" else "one by one" }

  /** The end of `handle` once the proposal is resolved. */
  function Act(c: Context, heard: string, p: Proposal, home: Home, now: int, maxCommands: nat): Move
    requires p.action.Some?
  {
    var plan := PlanAction(home, p.targets, p.action.value, maxCommands);
    if plan.None? then Ends(c, Failed)
    else
      var refused := FirstRefusal(plan.value.targets);
      if refused.Some? && (|plan.value.targets| > 1 || refused.value.OutOfRange?) then
        AskFor(c, heard, Clarification(AskText(refused.value), p.targets, None), now)
      else if plan.value.scene.None? && Accepted(plan.value.targets) == 0 then Ends(c, Failed)
      else Move(c, Executing(p), plan)
  }

  /** What the queried devices reported. */
  function Described(home: Home, refs: seq<string>): string {
    if refs == [] then ""
    else
      var r := refs[|refs| - 1];
      Described(home, refs[..|refs| - 1]) + if r in home.devices then home.devices[r].status else ""
  }

  function AfterRechecking(
    c: Context, revision: int, heard: string, p: Proposal, home: Option<Home>, now: int, maxCommands: nat): Move
  {
    if home.None? then Ends(c, Unavailable)
    else if exists i :: 0 <= i < |p.targets| && !Known(home.value, p.targets[i]) then Ends(c, NotFound)
    else if !Current(c, revision) then Ends(c, Unavailable)
    else if p.intent.Query? then
      if exists i :: 0 <= i < |p.targets| && p.targets[i] in home.value.devices then
        Ends(Remembering(c, Note(heard, Some(p), Described(home.value, p.targets), "answered"), now), Answered)
      else Ends(c, Failed)
    else if p.action.None? then Ends(c, Raised)
    else if p.status.Ambiguous? then
      match Resolve(home.value, p.targets, p.action.value, false)
      case Choice(candidates) => Ends(Remembering(c, Selection(heard, p, candidates), now), ChooseOne)
      case One(device) => Act(c, heard, p.(status := Resolved, targets := [device]), home.value, now, maxCommands)
      case _ => Ends(c, Failed)
    else Act(c, heard, p, home.value, now, maxCommands)
  }

  function AfterExecution(
    c: Context, revision: int, heard: string, p: Proposal, ending: Ending, message: string, now: int): Move
  {
    if Current(c, revision) && ending.Executed? then
      Ends(Remembering(c, Note(heard, Some(p), message, "executed"), now), ending)
    else Ends(c, ending)
  }

  /** One stretch of a command; a reply it does not wait for changes nothing. */
  function Continue(
    c: Context, revision: int, heard: string, pc: Pc, reply: Reply, now: int, at: nat, maxCommands: nat): Move
  {
    match (pc, reply)
    case (Authorizing, Authorized(ok)) => AfterAuthority(c, revision, heard, ok, now)
    case (Reading(seen), Directory(home)) => AfterReading(c, revision, seen, home)
    case (Interpreting(seen), Understood(u)) => AfterUnderstanding(c, revision, heard, seen, u, now, at)
    case (Choosing(q), Directory(home)) => AfterChoosing(c, revision, heard, q, home, now)
    case (Rechecking(p, _), Directory(home)) => AfterRechecking(c, revision, heard, p, home, now, maxCommands)
    case (Executing(p), Reported(ending, message)) => AfterExecution(c, revision, heard, p, ending, message, now)
    case _ => Move(c, pc, None)
  }

  // ---- what every stretch keeps ------------------------------------------

  /** A turn of a closed session writes nothing and runs nothing, wherever it was. */
  lemma StaleIsInert(
    c: Context, revision: int, heard: string, pc: Pc, reply: Reply, now: int, at: nat, maxCommands: nat)
    requires !Current(c, revision)
    ensures
      var m := Continue(c, revision, heard, pc, reply, now, at, maxCommands);
      m.context == c && m.plan.None? && (m.pc == pc || m.pc.Over?)
  {}

  /** A command moves forward: it neither closes nor renumbers its session, never waits for
      the lock again, and rechecks only what was just understood. */
  lemma ContinueAdvances(
    c: Context, revision: int, heard: string, pc: Pc, reply: Reply, now: int, at: nat, maxCommands: nat)
    ensures
      var m := Continue(c, revision, heard, pc, reply, now, at, maxCommands);
      && m.context.active == c.active && m.context.revision == c.revision
      && (m.pc.Waiting? ==> pc.Waiting?) && (pc.Executing? || pc.Over? ==> m.plan.None?)
      && (pc.Executing? ==> m.pc == pc || m.pc.Over?)
      && (m.pc.Rechecking? && m.pc != pc ==>
            reply == Understood(Some(Proposes(m.pc.proposal))) && m.pc.understoodAt == at)
  {
    if pc.Rechecking? && reply.Directory? {
      RecheckingAdvances(c, revision, heard, pc.proposal, reply.home, now, maxCommands);
    }
  }

  lemma RecheckingAdvances(
    c: Context, revision: int, heard: string, p: Proposal, home: Option<Home>, now: int, maxCommands: nat)
    ensures
      var m := AfterRechecking(c, revision, heard, p, home, now, maxCommands);
      && m.context.active == c.active && m.context.revision == c.revision && (m.pc.Executing? || m.pc.Over?)
  {}

  /** The context is another, still bounded, of the same session in the same state. */
  ghost predicate Keeps(c: Context, after: Context) {
    Bounded(after) && after.active == c.active && after.revision == c.revision && after.limit == c.limit
  }

  lemma ChangesKeep(c: Context, now: int)
    requires Bounded(c)
    ensures Keeps(c, AfterSnapshot(c, now)) && Keeps(c, Cleared(c, false)) && Keeps(c, Cleared(c, true))
    ensures forall e :: Keeps(c, Remembering(c, e, now))
    ensures forall e :: Keeps(c, Remembering(Cleared(c, true), e, now))
  {
    forall e ensures Keeps(c, Remembering(c, e, now)) && Keeps(c, Remembering(Cleared(c, true), e, now)) {
      ChangeKeepsBounds(c, Remember(e), now);
      ChangeKeepsBounds(Cleared(c, true), Remember(e), now);
    }
  }

  lemma RecheckingKeeps(
    c: Context, revision: int, heard: string, p: Proposal, home: Option<Home>, now: int, maxCommands: nat)
    requires Bounded(c)
    ensures Keeps(c, AfterRechecking(c, revision, heard, p, home, now, maxCommands).context)
  {
    ChangesKeep(c, now);
    var after := AfterRechecking(c, revision, heard, p, home, now, maxCommands).context;
    assert after == c || exists e :: after == Remembering(c, e, now);
  }

  lemma ContinueKeeps(
    c: Context, revision: int, heard: string, pc: Pc, reply: Reply, now: int, at: nat, maxCommands: nat)
    requires Bounded(c)
    ensures Keeps(c, Continue(c, revision, heard, pc, reply, now, at, maxCommands).context)
  {
    if pc.Rechecking? && reply.Directory? {
      RecheckingKeeps(c, revision, heard, pc.proposal, reply.home, now, maxCommands);
    } else {
      ChangesKeep(c, now);
      var after := Continue(c, revision, heard, pc, reply, now, at, maxCommands).context;
      assert after == c || after == AfterSnapshot(c, now) || after == Cleared(c, false) || after == Cleared(c, true)
        || (exists e :: after == Remembering(c, e, now)) || exists e :: after == Remembering(Cleared(c, true), e, now);
    }
  }

  /** The plan does to the home read now what the proposal asked, on every target or none. */
  ghost predicate Grounded(plan: Plan, p: Proposal, home: Home) {
    && p.action.Some?
    && (forall i | 0 <= i < |p.targets| :: Known(home, p.targets[i]))
    && (forall i | 0 <= i < |plan.targets| :: plan.targets[i].refusal.None? && plan.targets[i].device in home.devices)
    && (plan.scene.Some? ==> plan.scene.value in home.scenes && plan.scene.value in p.targets)
    && (plan.scene.None? ==>
        && (forall i | 0 <= i < |plan.targets| :: Accepts(home, plan.targets[i].device, p.action.value))
        && if p.status.Ambiguous? then
             |plan.targets| == 1 && OnlyCapable(home, p.targets, p.action.value, plan.targets[0].device)
           else
             && |plan.targets| == |p.targets|
             && forall i | 0 <= i < |p.targets| :: plan.targets[i].device == p.targets[i])
  }

  lemma {:induction false} NoRefusal(targets: seq<Planned>)
    requires FirstRefusal(targets).None?
    ensures forall i | 0 <= i < |targets| :: targets[i].refusal.None?
  {
    if targets != [] { NoRefusal(targets[1..]); }
  }

  lemma {:induction false} StoredKnown(home: Home, members: seq<string>)
    ensures forall d | d in Stored(home, members) :: d in home.devices
  {
    if members != [] { StoredKnown(home, members[..|members| - 1]); }
  }

  lemma {:induction false} SomeAccepted(targets: seq<Planned>)
    requires Accepted(targets) > 0
    ensures exists i :: 0 <= i < |targets| && targets[i].refusal.None?
  {
    if targets[|targets| - 1].refusal.Some? {
      SomeAccepted(targets[..|targets| - 1]);
      var i :| 0 <= i < |targets| - 1 && targets[..|targets| - 1][i].refusal.None?;
      assert targets[i].refusal.None?;
    }
  }

  /** What goes to the executor was refused by nothing. */
  lemma PlanRefusesNothing(targets: seq<Planned>)
    requires FirstRefusal(targets).None? || (|targets| <= 1 && Accepted(targets) > 0)
    ensures forall i | 0 <= i < |targets| :: targets[i].refusal.None?
  {
    if FirstRefusal(targets).None? { NoRefusal(targets); } else { SomeAccepted(targets); }
  }

  lemma ActIsGrounded(c: Context, heard: string, p: Proposal, home: Home, now: int, maxCommands: nat)
    requires p.action.Some? && !p.status.Ambiguous?
    requires forall i | 0 <= i < |p.targets| :: Known(home, p.targets[i])
    ensures
      var m := Act(c, heard, p, home, now, maxCommands);
      m.plan.Some? ==> m.pc == Executing(p) && m.context == c && Grounded(m.plan.value, p, home)
  {
    var m := Act(c, heard, p, home, now, maxCommands);
    if m.plan.Some? {
      var targets := m.plan.value.targets;
      if m.plan.value.scene.Some? {
        StoredKnown(home, home.scenes[p.targets[0]]);
        var stored := Stored(home, home.scenes[p.targets[0]]);
        assert forall i | 0 <= i < |stored| :: stored[i] in stored;
      } else {
        PlanRefusesNothing(targets);
        var each := PlanEach(home, p.targets, p.action.value);
        assert Accepted(each) > maxCommands ==> |targets| == |each| && each != [];
        assert targets == each;
      }
    }
  }

  /** The executor is called only for what a directory read after understanding holds. */
  lemma PlanIsGrounded(
    c: Context, revision: int, heard: string, pc: Pc, reply: Reply, now: int, at: nat, maxCommands: nat)
    requires Continue(c, revision, heard, pc, reply, now, at, maxCommands).plan.Some?
    ensures pc.Rechecking? && reply.Directory? && reply.home.Some? && Current(c, revision)
    ensures
      var m := Continue(c, revision, heard, pc, reply, now, at, maxCommands);
      m.pc.Executing? && m.context == c && Grounded(m.plan.value, pc.proposal, reply.home.value)
  {
    var p, home := pc.proposal, reply.home.value;
    if p.status.Ambiguous? {
      CapableMeaning(home, p.targets, p.action.value);
      var device := Capable(home, p.targets, p.action.value)[0];
      ActIsGrounded(c, heard, p.(status := Resolved, targets := [device]), home, now, maxCommands);
    } else {
      ActIsGrounded(c, heard, p, home, now, maxCommands);
    }
  }
}
