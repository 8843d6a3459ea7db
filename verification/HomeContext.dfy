/** The short-lived state of one home conversation (domain/smarthome/context.py). Times are
    readings of a monotone clock. */
module HomeContexts {
  import opened Basics

  datatype Action = Action(trait_: string, command: string, slots: string)

  datatype Intent = Control | Query | Unrelated

  datatype TargetStatus = Resolved | Ambiguous | NoTarget

  datatype Proposal = Proposal(intent: Intent, status: TargetStatus, targets: seq<string>, action: Option<Action>)

  datatype Clarification = Clarification(question: string, targets: seq<string>, action: Option<Action>)

  datatype Item = Item(utterance: string, response: string, outcome: string, proposal: Option<Proposal>)

  datatype Context = Context(
    limit: nat, history: seq<Item>, outcome: string, utterance: string, proposal: Option<Proposal>,
    question: Option<string>, clarification: Option<Clarification>, response: string, pendingAction: string,
    pending: bool, expiresAt: int, active: bool, revision: int)

  const LIFETIME := 30
  const SHOWN := 512

  /** What a turn may say about the exchange it remembers. */
  datatype Exchange = Exchange(
    utterance: string, proposal: Option<Proposal>, question: Option<string>,
    clarification: Option<Clarification>, response: string, pendingAction: string, outcome: string)

  /** What an interpreter is shown of the conversation so far. */
  datatype Seen = Seen(
    history: seq<Item>, outcome: string, utterance: string, proposal: Option<Proposal>, pending: bool,
    question: Option<string>, response: string, pendingAction: string, targets: seq<string>, action: Option<Action>)

  function Fresh(limit: nat): Context {
    Context(limit, [], "", "", None, None, None, "", "", false, 0, true, 0)
  }

  function Cleared(c: Context, keepHistory: bool): Context {
    Context(c.limit, if keepHistory then c.history else [], "", "", None, None, None, "", "", false, 0,
            c.active, c.revision)
  }

  function Closed(c: Context): Context { Cleared(c.(active := false), false) }

  /** Nothing is left of the conversation. */
  predicate Blank(c: Context) { c == Cleared(c, false) }

  function Prefix(s: string, n: nat): string { if |s| <= n then s else s[..n] }

  /** `xs[-n:]`, except that a zero keeps everything. */
  function LastItems(xs: seq<Item>, n: nat): seq<Item> {
    if n == 0 || |xs| <= n then xs else xs[|xs| - n..]
  }

  function Kept(e: Exchange): Item {
    var asked := if e.question.Some? then e.question.value else "";
    var response := Prefix(e.response, SHOWN);
    Item(Prefix(e.utterance, SHOWN), if response != "" then response else Prefix(asked, SHOWN), Outcome(e), e.proposal)
  }

  function Outcome(e: Exchange): string {
    if e.outcome != "" then e.outcome else if e.question.Some? then "clarification" else "answered"
  }

  function Remembering(c: Context, e: Exchange, now: int): Context {
    Context(c.limit, LastItems(c.history + [Kept(e)], c.limit), Outcome(e), e.utterance, e.proposal,
            e.question, e.clarification, e.response, e.pendingAction, e.question.Some?, now + LIFETIME,
            c.active, c.revision)
  }

  predicate Fading(c: Context, now: int) { !c.active || now >= c.expiresAt }

  function AfterSnapshot(c: Context, now: int): Context { if Fading(c, now) then Cleared(c, false) else c }

  function Snapshot(c: Context, now: int): Option<Seen> {
    if Fading(c, now) then None
    else Some(Seen(c.history, c.outcome, c.utterance, c.proposal, c.pending, c.question, c.response, c.pendingAction,
                   if c.clarification.Some? then c.clarification.value.targets else [],
                   if c.clarification.Some? then c.clarification.value.action else None))
  }

  /** Bounded, and a pending question is one that was asked. */
  predicate Bounded(c: Context) {
    && 1 <= c.limit <= 5 && |c.history| <= c.limit
    && (forall i | 0 <= i < |c.history| :: |c.history[i].utterance| <= SHOWN && |c.history[i].response| <= SHOWN)
    && (c.pending <==> c.question.Some?)
  }

  datatype Change = Clear(keepHistory: bool) | Remember(exchange: Exchange) | Look

  function Changed(c: Context, change: Change, now: int): Context {
    match change
    case Clear(keep) => Cleared(c, keep)
    case Remember(e) => Remembering(c, e, now)
    case Look => AfterSnapshot(c, now)
  }

  function Changes(c: Context, changes: seq<(Change, int)>): Context {
    if changes == [] then c
    else
      var last := changes[|changes| - 1];
      Changed(Changes(c, changes[..|changes| - 1]), last.0, last.1)
  }

  lemma ChangeKeepsBounds(c: Context, change: Change, now: int)
    requires Bounded(c)
    ensures Bounded(Changed(c, change, now))
  {
    if change.Remember? {
      var all := c.history + [Kept(change.exchange)];
      assert forall i | 0 <= i < |all| :: |all[i].utterance| <= SHOWN && |all[i].response| <= SHOWN;
    }
  }

  lemma {:induction false} ChangesKeepBounds(c: Context, changes: seq<(Change, int)>)
    requires Bounded(c)
    ensures Bounded(Changes(c, changes))
  {
    if changes != [] {
      ChangesKeepBounds(c, changes[..|changes| - 1]);
      ChangeKeepsBounds(Changes(c, changes[..|changes| - 1]), changes[|changes| - 1].0, changes[|changes| - 1].1);
    }
  }

  /** The exchanges since the last full clearing, whenever that was. */
  function Conversation(c: Context, changes: seq<(Change, int)>): seq<Item> {
    if changes == [] then c.history
    else
      var front, last := changes[..|changes| - 1], changes[|changes| - 1];
      match last.0
      case Clear(keep) => if keep then Conversation(c, front) else []
      case Remember(e) => Conversation(c, front) + [Kept(e)]
      case Look => if Fading(Changes(c, front), last.1) then [] else Conversation(c, front)
  }

  lemma LastItemsSnoc(xs: seq<Item>, x: Item, n: nat)
    ensures LastItems(LastItems(xs, n) + [x], n) == LastItems(xs + [x], n)
  {}

  /** Cutting the history at every step loses nothing: it is the newest part of the whole
      conversation since it was last cleared. */
  lemma {:induction false} HistoryIsNewest(c: Context, changes: seq<(Change, int)>)
    requires Bounded(c)
    ensures Changes(c, changes).limit == c.limit
    ensures Changes(c, changes).history == LastItems(Conversation(c, changes), c.limit)
  {
    if changes != [] {
      var front, last := changes[..|changes| - 1], changes[|changes| - 1];
      HistoryIsNewest(c, front);
      if last.0.Remember? { LastItemsSnoc(Conversation(c, front), Kept(last.0.exchange), c.limit); }
    }
  }

  /** `shown` is `text`, or its first `SHOWN` characters. */
  predicate IsShown(shown: string, text: string) {
    shown <= text && |shown| == if |text| < SHOWN then |text| else SHOWN
  }

  /** What an item shows of an exchange: its utterance, and its response or, failing that,
      the question it asked. */
  lemma KeptMeaning(c: Context, e: Exchange, now: int)
    requires c.limit >= 1
    ensures
      var items := Remembering(c, e, now).history;
      && items != []
      && var item := items[|items| - 1];
      && IsShown(item.utterance, e.utterance) && item.proposal == e.proposal
      && IsShown(item.response,
           if e.response != "" then e.response else if e.question.Some? then e.question.value else "")
      && item.outcome ==
           (if e.outcome != "" then e.outcome else if e.question.Some? then "clarification" else "answered")
  {}

  /** Exchange `e` was remembered by change `i`, less than `LIFETIME` ago, and not cleared since. */
  ghost predicate RememberedAt(changes: seq<(Change, int)>, i: nat, e: Exchange, now: int) {
    && i < |changes| && changes[i].0 == Remember(e) && now < changes[i].1 + LIFETIME
    && forall j | i < j < |changes| :: changes[j].0.Look?
  }

  /** A stale focus or question never reaches a turn: what it is shown is the last exchange,
      remembered within `LIFETIME` and not cleared since. */
  lemma {:induction false} SeenIsRecent(c: Context, changes: seq<(Change, int)>, now: int) returns (i: nat, e: Exchange)
    requires 0 <= now && c.expiresAt <= now && Snapshot(Changes(c, changes), now).Some?
    ensures RememberedAt(changes, i, e, now)
    ensures Snapshot(Changes(c, changes), now).value.question == e.question
    ensures Snapshot(Changes(c, changes), now).value.proposal == e.proposal
  {
    i, e := 0, Exchange("", None, None, None, "", "", "");
    if changes != [] {
      var front, last := changes[..|changes| - 1], changes[|changes| - 1];
      match last.0
      case Clear(keep) =>
      case Remember(latest) => i, e := |changes| - 1, latest;
      case Look => if now < Changes(c, front).expiresAt { i, e := SeenIsRecent(c, front, now); }
    }
  }

  /** The object; its methods do what the functions above say. */
  class HomeContext {
    const limit: nat
    var history: seq<Item>
    var outcome: string
    var utterance: string
    var proposal: Option<Proposal>
    var question: Option<string>
    var clarification: Option<Clarification>
    var response: string
    var pendingAction: string
    var pending: bool
    var expiresAt: int
    var active: bool
    var revision: int

    function View(): Context
      reads this
    {
      Context(limit, history, outcome, utterance, proposal, question, clarification, response, pendingAction,
              pending, expiresAt, active, revision)
    }

    constructor (limit: nat)
      ensures View() == Fresh(limit)
    {
      this.limit := limit;
      history, outcome, utterance, proposal := [], "", "", None;
      question, clarification, response, pendingAction := None, None, "", "";
      pending, expiresAt, active, revision := false, 0, true, 0;
    }

    method Clear(keepHistory: bool)
      modifies this
      ensures View() == Cleared(old(View()), keepHistory)
    {
      if !keepHistory { history := []; }
      outcome, utterance, proposal := "", "", None;
      question, clarification, response, pendingAction := None, None, "", "";
      pending, expiresAt := false, 0;
    }

    /** The history with one more exchange and the oldest beyond the limit deleted. */
    method Extended(e: Exchange) returns (items: seq<Item>)
      ensures items == LastItems(history + [Kept(e)], limit)
    {
      var said := Prefix(e.response, SHOWN);
      if said == "" && e.question.Some? { said := Prefix(e.question.value, SHOWN); }
      items := history + [Item(Prefix(e.utterance, SHOWN), said, Outcome(e), e.proposal)];
      if limit > 0 && |items| > limit { items := items[|items| - limit..]; }
    }

    /** The exchange becomes the focus of the conversation. */
    method Focus(e: Exchange)
      modifies this`outcome, this`utterance, this`proposal, this`question, this`clarification
      modifies this`response, this`pendingAction, this`pending
      ensures View() == old(View()).(
        outcome := Outcome(e), utterance := e.utterance, proposal := e.proposal, question := e.question,
        clarification := e.clarification, response := e.response, pendingAction := e.pendingAction,
        pending := e.question.Some?)
    {
      outcome, utterance, proposal := Outcome(e), e.utterance, e.proposal;
      question, clarification, response, pendingAction := e.question, e.clarification, e.response, e.pendingAction;
      pending := e.question.Some?;
    }

    method Remember(e: Exchange, now: int)
      modifies this
      ensures View() == Remembering(old(View()), e, now)
    {
      var items := Extended(e);
      Focus(e);
      history, expiresAt := items, now + LIFETIME;
    }

    method TakeSnapshot(now: int) returns (seen: Option<Seen>)
      modifies this
      ensures seen == Snapshot(old(View()), now) && View() == AfterSnapshot(old(View()), now)
    {
      if !active || now >= expiresAt {
        Clear(false);
        return None;
      }
      var targets, action := [], None;
      if clarification.Some? { targets, action := clarification.value.targets, clarification.value.action; }
      return Some(Seen(history, outcome, utterance, proposal, pending, question, response, pendingAction,
                       targets, action));
    }

    /** What closing, ending or clearing a session does to its conversation. */
    method Close()
      modifies this
      ensures View() == Closed(old(View()))
    {
      active := false;
      Clear(false);
    }
  }
}
