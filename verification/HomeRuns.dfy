/** Every run of the home application (app/smarthome/application.py over sessions.py and
    command.py): arriving commands queue on their session's lock, replies come in any order,
    and sessions are ended, cleared or expire at any await. */
module HomeRuns {
  import opened Basics
  import opened HomeContexts
  import opened HomeCommands
  import opened HomeStores

  /** One call of `handle` that got its session; `revision` is its own once it holds the lock. */
  datatype Turn = Turn(session: nat, heard: string, revision: int, pc: Pc)

  /** A call of the executor, and the steps at which its turn was understood and the home it
      acts on was read. */
  datatype Execution = Execution(
    turn: nat, session: nat, proposal: Proposal, plan: Plan, home: Home, understoodAt: nat, readAt: nat)

  datatype State = State(
    lim: Limits, now: int, steps: nat, store: Store<nat>, next: nat, turns: seq<Turn>, log: seq<Execution>)

  datatype Event =
    | Arrive(scope: Scope, heard: string)
    | Resume(turn: nat)
    | Return(turn: nat, reply: Reply)
    | Cancel(turn: nat)
    | EndSession(scope: Scope)
    | CloseAll

  /** An event, `delay` after the one before. */
  datatype Moment = At(delay: nat, event: Event)

  function Opened(lim: Limits, now: int): State { State(lim, now, 0, Store(map[], map[]), 0, [], []) }

  predicate InFlight(pc: Pc) { !pc.Waiting? && !pc.Over? }

  // ---- steps -------------------------------------------------------------

  function WithSession(s: State, i: nat, x: Session): State {
    s.(store := Store(s.store.table, s.store.heap[i := x]))
  }

  /** Turn `t` takes the free lock of its session; a closed one raises and frees it again. */
  function Begin(s: State, t: nat): State
    requires t < |s.turns| && s.turns[t].session in s.store.heap
  {
    var turn := s.turns[t];
    var x := s.store.heap[turn.session];
    if !x.context.active then s.(turns := s.turns[t := turn.(pc := Over(Raised))])
    else
      var revision := x.context.revision + 1;
      WithSession(s, turn.session, x.(holder := Some(t), context := x.context.(revision := revision)))
        .(turns := s.turns[t := turn.(revision := revision, pc := Authorizing)])
  }

  /** `get`, and what it leaves: a new session has the next identity. */
  function Fetched(s: State, scope: Scope): State
    requires WellFormed(s.store)
  {
    var store := Get(s.store, scope, s.now, s.lim, s.next).0;
    s.(store := store, next := if s.next in store.heap then s.next + 1 else s.next)
  }

  /** The session got is free at once, or the turn queues. */
  function Enter(s: State, i: nat, heard: string): State
    requires i in s.store.heap
  {
    var x := s.store.heap[i];
    var entered := s.(turns := s.turns + [Turn(i, heard, 0, Waiting)]);
    if x.holder.None? && x.queue == [] then Begin(entered, |s.turns|)
    else WithSession(entered, i, x.(queue := x.queue + [|s.turns|]))
  }

  function Arrived(s: State, scope: Scope, heard: string): State
    requires WellFormed(s.store)
  {
    var got, fetched := Get(s.store, scope, s.now, s.lim, s.next).1, Fetched(s, scope);
    if got.Session_? && got.id in fetched.store.heap then Enter(fetched, got.id, heard) else fetched
  }

  /** The first waiter of a free lock may run. */
  predicate MayResume(s: State, t: nat) {
    && t < |s.turns| && s.turns[t].session in s.store.heap
    && var x := s.store.heap[s.turns[t].session]; x.holder.None? && x.queue != [] && x.queue[0] == t
  }

  function Resumed(s: State, t: nat): State
    requires MayResume(s, t)
  {
    var i := s.turns[t].session;
    var x := s.store.heap[i];
    Begin(WithSession(s, i, x.(queue := x.queue[1..])), t)
  }

  function Without(q: seq<nat>, t: nat): seq<nat> {
    if q == [] then [] else if q[0] == t then Without(q[1..], t) else [q[0]] + Without(q[1..], t)
  }

  predicate Suspended(s: State, t: nat) {
    t < |s.turns| && s.turns[t].session in s.store.heap && !s.turns[t].pc.Over?
  }

  function Cancelled(s: State, t: nat): State
    requires Suspended(s, t)
  {
    var turn := s.turns[t];
    var x := s.store.heap[turn.session];
    WithSession(s, turn.session, if turn.pc.Waiting? then x.(queue := Without(x.queue, t)) else x.(holder := None))
      .(turns := s.turns[t := turn.(pc := Over(Withdrawn))])
  }

  function Moved(s: State, t: nat, reply: Reply): Move
    requires Suspended(s, t)
  {
    var turn := s.turns[t];
    Continue(s.store.heap[turn.session].context, turn.revision, turn.heard, turn.pc, reply,
             s.now, s.steps, s.lim.maxCommands)
  }

  function Executions(s: State, t: nat, reply: Reply): seq<Execution>
    requires Suspended(s, t)
  {
    var turn, m := s.turns[t], Moved(s, t, reply);
    if m.plan.Some? && turn.pc.Rechecking? && reply.Directory? && reply.home.Some? then
      [Execution(t, turn.session, turn.pc.proposal, m.plan.value, reply.home.value, turn.pc.understoodAt, s.steps)]
    else []
  }

  /** A reply arrives; the stretch after it runs, and a finished command frees the lock. */
  function Returned(s: State, t: nat, reply: Reply): State
    requires Suspended(s, t) && InFlight(s.turns[t].pc)
  {
    var turn, m := s.turns[t], Moved(s, t, reply);
    var x := s.store.heap[turn.session].(context := m.context);
    WithSession(s, turn.session, if m.pc.Over? then x.(holder := None) else x)
      .(turns := s.turns[t := turn.(pc := m.pc)], log := s.log + Executions(s, t, reply))
  }

  function Happens(s: State, e: Event): State
    requires WellFormed(s.store)
  {
    match e
    case Arrive(scope, heard) => Arrived(s, scope, heard)
    case Resume(t) => if MayResume(s, t) then Resumed(s, t) else s
    case Return(t, reply) => if Suspended(s, t) && InFlight(s.turns[t].pc) then Returned(s, t, reply) else s
    case Cancel(t) => if Suspended(s, t) then Cancelled(s, t) else s
    case EndSession(scope) => s.(store := Close(s.store, scope, s.now).0)
    case CloseAll => s.(store := ClearAll(s.store))
  }

  function Later(s: State, delay: nat): State { s.(now := s.now + delay) }

  function Ticked(s: State): State { s.(steps := s.steps + 1) }

  function Step(s: State, a: Moment): State
    requires WellFormed(s.store)
  {
    Ticked(Happens(Later(s, a.delay), a.event))
  }

  // ---- what every step keeps ---------------------------------------------

  /** The lock of session `i`: held by a turn in flight at the session's revision, awaited in
      order of arrival. */
  ghost predicate LockOk(i: nat, x: Session, turns: seq<Turn>) {
    && x.context.revision >= 0
    && (x.holder.Some? ==>
        && x.holder.value < |turns| && turns[x.holder.value].session == i && InFlight(turns[x.holder.value].pc)
        && turns[x.holder.value].revision == x.context.revision)
    && (forall k | 0 <= k < |x.queue| ::
        x.queue[k] < |turns| && turns[x.queue[k]].session == i && turns[x.queue[k]].pc.Waiting?)
    && Rising(x.queue)
  }

  /** Turn `t` of a session: waiting in its queue, or holding its lock, or over. */
  ghost predicate TurnOk(t: nat, turn: Turn, x: Session) {
    && (turn.pc.Waiting? ==> t in x.queue && turn.revision == 0)
    && (InFlight(turn.pc) ==> x.holder == Some(t) && turn.revision > 0)
    && 0 <= turn.revision <= x.context.revision
    && (turn.revision > 0 ==> forall k | 0 <= k < |x.queue| :: t < x.queue[k])
  }

  ghost predicate LocksInv(s: State) {
    && (forall i | i in s.store.heap :: i < s.next && LockOk(i, s.store.heap[i], s.turns))
    && (forall t | 0 <= t < |s.turns| ::
        s.turns[t].session in s.store.heap && TurnOk(t, s.turns[t], s.store.heap[s.turns[t].session]))
  }

  /** Turns of one session begin in the order they arrived. */
  ghost predicate InOrder(turns: seq<Turn>) {
    forall a, b | 0 <= a < b < |turns| && turns[a].session == turns[b].session
                  && turns[a].revision > 0 && turns[b].revision > 0 ::
      turns[a].revision < turns[b].revision
  }

  ghost predicate TableInv(s: State) {
    && WellFormed(s.store)
    && |s.store.table| <= (if s.lim.capacity < 0 then 0 else s.lim.capacity)
    && (1 <= s.lim.turns <= 5 ==> forall i | i in s.store.heap :: Bounded(s.store.heap[i].context))
  }

  ghost predicate Inv(s: State) { TableInv(s) && LocksInv(s) && InOrder(s.turns) }

  // ---- the lock ----------------------------------------------------------

  /** Only session `i` and its turn `t` differ. */
  ghost predicate Local(s: State, after: State, i: nat, t: nat) {
    && i in s.store.heap && after.store.heap.Keys == s.store.heap.Keys && after.next == s.next
    && (forall j | j in s.store.heap && j != i :: after.store.heap[j] == s.store.heap[j])
    && t < |s.turns| == |after.turns| && s.turns[t].session == i == after.turns[t].session
    && (forall u | 0 <= u < |s.turns| && u != t :: after.turns[u] == s.turns[u])
  }

  lemma LocalKeeps(s: State, after: State, i: nat, t: nat)
    requires LocksInv(s) && Local(s, after, i, t)
    requires LockOk(i, after.store.heap[i], after.turns)
    requires forall u | 0 <= u < |after.turns| && after.turns[u].session == i ::
      TurnOk(u, after.turns[u], after.store.heap[i])
    ensures LocksInv(after)
  {
    forall j | j in after.store.heap ensures j < after.next && LockOk(j, after.store.heap[j], after.turns) {
      if j != i { assert LockOk(j, s.store.heap[j], s.turns); }
    }
    forall u | 0 <= u < |after.turns|
      ensures after.turns[u].session in after.store.heap
      ensures TurnOk(u, after.turns[u], after.store.heap[after.turns[u].session])
    {
      if after.turns[u].session != i { assert TurnOk(u, s.turns[u], s.store.heap[s.turns[u].session]); }
    }
  }

  /** A waiting turn that takes the lock is the next of its session. */
  lemma OrderKeeps(s: State, after: State, i: nat, t: nat)
    requires LocksInv(s) && InOrder(s.turns) && Local(s, after, i, t)
    requires
      || after.turns[t].revision == s.turns[t].revision
      || after.turns[t].revision > s.store.heap[i].context.revision
    requires after.turns[t].revision != s.turns[t].revision ==>
      forall u | t < u < |s.turns| && s.turns[u].session == i :: s.turns[u].revision <= 0
    ensures InOrder(after.turns)
  {
    forall a, b | 0 <= a < b < |after.turns| && after.turns[a].session == after.turns[b].session
                  && after.turns[a].revision > 0 && after.turns[b].revision > 0
      ensures after.turns[a].revision < after.turns[b].revision
    {
      assert TurnOk(a, s.turns[a], s.store.heap[s.turns[a].session]);
      assert TurnOk(b, s.turns[b], s.store.heap[s.turns[b].session]);
    }
  }

  /** Every turn after the head of the queue has not begun. */
  lemma LaterNotBegun(s: State, i: nat)
    requires LocksInv(s) && i in s.store.heap && s.store.heap[i].queue != []
    ensures forall u | s.store.heap[i].queue[0] < u < |s.turns| && s.turns[u].session == i :: s.turns[u].revision == 0
  {
    forall u | s.store.heap[i].queue[0] < u < |s.turns| && s.turns[u].session == i ensures s.turns[u].revision == 0 {
      assert TurnOk(u, s.turns[u], s.store.heap[i]);
    }
  }

  /** `b` is `s` with the lock of session `i` free and turn `t`, the next, about to take it. */
  ghost predicate Ready(s: State, b: State, i: nat, t: nat) {
    && Local(s, b, i, t) && s.turns[t].revision == 0 && b.turns[t].revision == 0 && !InFlight(s.turns[t].pc)
    && (forall u | t < u < |s.turns| && s.turns[u].session == i :: s.turns[u].revision == 0)
    && var x := b.store.heap[i];
       && x.holder.None? && x.context == s.store.heap[i].context && LockOk(i, x, s.turns)
       && (forall k | 0 <= k < |x.queue| :: t < x.queue[k])
       && (forall u | 0 <= u < |s.turns| && u != t && s.turns[u].session == i :: TurnOk(u, s.turns[u], x))
  }

  lemma BeginKeeps(s: State, b: State, i: nat, t: nat)
    requires LocksInv(s) && InOrder(s.turns) && Ready(s, b, i, t)
    ensures LocksInv(Begin(b, t)) && InOrder(Begin(b, t).turns)
  {
    var after := Begin(b, t);
    var x, y := b.store.heap[i], after.store.heap[i];
    forall u | 0 <= u < |after.turns| && after.turns[u].session == i ensures TurnOk(u, after.turns[u], y) {
      if u != t { assert TurnOk(u, s.turns[u], x); }
    }
    LocalKeeps(s, after, i, t);
    OrderKeeps(s, after, i, t);
  }

  lemma ResumedReady(s: State, i: nat, t: nat)
    requires LocksInv(s) && MayResume(s, t) && i == s.turns[t].session
    ensures
      var y := s.store.heap[i].(queue := s.store.heap[i].queue[1..]);
      && LockOk(i, y, s.turns) && (forall k | 0 <= k < |y.queue| :: t < y.queue[k])
      && (forall u | 0 <= u < |s.turns| && u != t && s.turns[u].session == i :: TurnOk(u, s.turns[u], y))
    ensures s.turns[t].pc.Waiting? && s.turns[t].revision == 0
  {
    var x := s.store.heap[i];
    assert LockOk(i, x, s.turns) && x.queue == [t] + x.queue[1..];
    forall u | 0 <= u < |s.turns| && u != t && s.turns[u].session == i
      ensures TurnOk(u, s.turns[u], x.(queue := x.queue[1..]))
    {
      assert TurnOk(u, s.turns[u], x);
    }
    assert TurnOk(t, s.turns[t], x);
  }

  lemma ResumedKeeps(s: State, t: nat)
    requires LocksInv(s) && InOrder(s.turns) && MayResume(s, t)
    ensures LocksInv(Resumed(s, t)) && InOrder(Resumed(s, t).turns)
  {
    var i := s.turns[t].session;
    var x := s.store.heap[i];
    var y := x.(queue := x.queue[1..]);
    ResumedReady(s, i, t);
    LaterNotBegun(s, i);
    BeginKeeps(s, WithSession(s, i, y), i, t);
  }

  lemma {:induction false} WithoutMembers(q: seq<nat>, t: nat)
    ensures forall u :: u in Without(q, t) <==> u in q && u != t
  {
    if q != [] {
      WithoutMembers(q[1..], t);
      assert q == [q[0]] + q[1..];
    }
  }

  ghost predicate Rising(q: seq<nat>) { forall j, k | 0 <= j < k < |q| :: q[j] < q[k] }

  lemma {:induction false} WithoutRises(q: seq<nat>, t: nat)
    requires Rising(q)
    ensures Rising(Without(q, t))
  {
    if q != [] {
      WithoutRises(q[1..], t);
      WithoutMembers(q[1..], t);
      var rest := Without(q[1..], t);
      forall k | 0 <= k < |rest| ensures q[0] < rest[k] { assert rest[k] in q[1..]; }
    }
  }

  lemma QueueWithout(s: State, after: State, i: nat, t: nat)
    requires LocksInv(s) && Local(s, after, i, t) && s.turns[t].pc.Waiting?
    requires after.store.heap[i] == s.store.heap[i].(queue := Without(s.store.heap[i].queue, t))
    ensures LockOk(i, after.store.heap[i], after.turns)
  {
    var x, y := s.store.heap[i], after.store.heap[i];
    assert LockOk(i, x, s.turns);
    WithoutMembers(x.queue, t);
    WithoutRises(x.queue, t);
    assert forall k | 0 <= k < |y.queue| :: y.queue[k] in x.queue && y.queue[k] != t;
  }

  /** A waiter that gives up leaves the queue. */
  lemma WithdrawnKeeps(s: State, after: State, i: nat, t: nat)
    requires LocksInv(s) && Local(s, after, i, t) && s.turns[t].pc.Waiting?
    requires after.store.heap[i] == s.store.heap[i].(queue := Without(s.store.heap[i].queue, t))
    requires after.turns[t] == s.turns[t].(pc := Over(Withdrawn))
    ensures LocksInv(after)
  {
    var x, y := s.store.heap[i], after.store.heap[i];
    WithoutMembers(x.queue, t);
    QueueWithout(s, after, i, t);
    assert forall k | 0 <= k < |y.queue| :: y.queue[k] in x.queue;
    forall u | 0 <= u < |after.turns| && after.turns[u].session == i ensures TurnOk(u, after.turns[u], y) {
      assert TurnOk(u, s.turns[u], x);
    }
    LocalKeeps(s, after, i, t);
  }

  /** A turn in flight that ends frees the lock. */
  lemma FreedKeeps(s: State, after: State, i: nat, t: nat)
    requires LocksInv(s) && Local(s, after, i, t) && InFlight(s.turns[t].pc)
    requires after.store.heap[i] == s.store.heap[i].(holder := None)
    requires after.turns[t] == s.turns[t].(pc := Over(Withdrawn))
    ensures LocksInv(after)
  {
    var x, y := s.store.heap[i], after.store.heap[i];
    assert LockOk(i, x, s.turns);
    forall u | 0 <= u < |after.turns| && after.turns[u].session == i ensures TurnOk(u, after.turns[u], y) {
      assert TurnOk(u, s.turns[u], x);
    }
    LocalKeeps(s, after, i, t);
  }

  lemma CancelledKeeps(s: State, t: nat)
    requires LocksInv(s) && InOrder(s.turns) && Suspended(s, t)
    ensures LocksInv(Cancelled(s, t)) && InOrder(Cancelled(s, t).turns)
  {
    var i, after := s.turns[t].session, Cancelled(s, t);
    if s.turns[t].pc.Waiting? { WithdrawnKeeps(s, after, i, t); } else { FreedKeeps(s, after, i, t); }
    OrderKeeps(s, after, i, t);
  }

  lemma ReturnedKeeps(s: State, t: nat, reply: Reply)
    requires LocksInv(s) && InOrder(s.turns) && Suspended(s, t) && InFlight(s.turns[t].pc)
    requires Moved(s, t, reply).context.revision == s.store.heap[s.turns[t].session].context.revision
    requires !Moved(s, t, reply).pc.Waiting?
    ensures LocksInv(Returned(s, t, reply)) && InOrder(Returned(s, t, reply).turns)
  {
    var i, after := s.turns[t].session, Returned(s, t, reply);
    var x, y := s.store.heap[i], after.store.heap[i];
    assert LockOk(i, x, s.turns);
    assert TurnOk(t, s.turns[t], x);
    forall u | 0 <= u < |after.turns| && after.turns[u].session == i ensures TurnOk(u, after.turns[u], y) {
      assert TurnOk(u, s.turns[u], x);
    }
    LocalKeeps(s, after, i, t);
    OrderKeeps(s, after, i, t);
  }

  /** A store that changes no lock, queue or revision. */
  ghost predicate SameLocks(s: State, store: Store<nat>) {
    forall i | i in s.store.heap :: SameLock(s.store.heap[i], store, i)
  }

  ghost predicate SameLock(x: Session, store: Store<nat>, i: nat) {
    && i in store.heap && store.heap[i].holder == x.holder && store.heap[i].queue == x.queue
    && store.heap[i].context.revision == x.context.revision
  }

  lemma SameLocksKeep(s: State, after: State)
    requires LocksInv(s) && SameLocks(s, after.store) && after.turns == s.turns && s.next <= after.next
    requires forall i | i in after.store.heap && i !in s.store.heap ::
      i < after.next && after.store.heap[i].holder.None? && after.store.heap[i].queue == []
      && after.store.heap[i].context.revision == 0
    ensures LocksInv(after)
  {
    forall i | i in after.store.heap ensures i < after.next && LockOk(i, after.store.heap[i], after.turns) {
      if i in s.store.heap { assert LockOk(i, s.store.heap[i], s.turns); }
    }
    forall t | 0 <= t < |s.turns|
      ensures s.turns[t].session in after.store.heap && TurnOk(t, s.turns[t], after.store.heap[s.turns[t].session])
    {
      assert TurnOk(t, s.turns[t], s.store.heap[s.turns[t].session]);
    }
  }

  lemma FetchedSameLocks(s: State, scope: Scope)
    requires WellFormed(s.store) && s.next !in s.store.heap
    ensures SameLocks(s, Fetched(s, scope).store)
  {
    forall i | i in s.store.heap ensures SameLock(s.store.heap[i], Fetched(s, scope).store, i) {
      FetchedSameLock(s, scope, i);
    }
  }

  lemma FetchedSameLock(s: State, scope: Scope, i: nat)
    requires WellFormed(s.store) && s.next !in s.store.heap && i in s.store.heap
    ensures SameLock(s.store.heap[i], Fetched(s, scope).store, i)
  {
    GetOthers(s.store, scope, s.now, s.lim, s.next, i);
  }

  lemma FetchedSame(s: State, scope: Scope)
    requires WellFormed(s.store) && s.next !in s.store.heap
    ensures
      var after := Fetched(s, scope);
      && SameLocks(s, after.store) && after.turns == s.turns && s.next <= after.next <= s.next + 1
      && (forall i | i in after.store.heap && i !in s.store.heap ::
            i == s.next < after.next && after.store.heap[i] == Born(after.store.heap[i].scope, s.lim.turns, s.now))
  {
    FetchedSameLocks(s, scope);
    GetAdds(s.store, scope, s.now, s.lim, s.next);
  }

  lemma FetchedKeeps(s: State, scope: Scope)
    requires WellFormed(s.store) && LocksInv(s)
    ensures LocksInv(Fetched(s, scope))
  {
    FetchedSame(s, scope);
    SameLocksKeep(s, Fetched(s, scope));
  }

  /** A turn already over may be added anywhere. */
  lemma OverKeeps(s: State, turn: Turn)
    requires LocksInv(s) && InOrder(s.turns) && turn.session in s.store.heap && turn.pc.Over? && turn.revision == 0
    ensures LocksInv(s.(turns := s.turns + [turn])) && InOrder(s.turns + [turn])
  {
    var after := s.(turns := s.turns + [turn]);
    forall i | i in after.store.heap ensures LockOk(i, after.store.heap[i], after.turns) {
      assert LockOk(i, s.store.heap[i], s.turns);
    }
    forall t | 0 <= t < |after.turns|
      ensures after.turns[t].session in after.store.heap
      ensures TurnOk(t, after.turns[t], after.store.heap[after.turns[t].session])
    {
      if t < |s.turns| { assert TurnOk(t, s.turns[t], s.store.heap[s.turns[t].session]); }
    }
  }

  lemma EnterFree(s: State, b: State, i: nat, t: nat)
    requires LocksInv(s) && InOrder(s.turns) && Local(s, b, i, t) && t == |s.turns| - 1 && b.store == s.store
    requires s.turns[t] == Turn(i, s.turns[t].heard, 0, Over(Withdrawn)) && b.turns[t] == s.turns[t].(pc := Waiting)
    requires s.store.heap[i].holder.None? && s.store.heap[i].queue == []
    ensures LocksInv(Begin(b, t)) && InOrder(Begin(b, t).turns)
  {
    var x := s.store.heap[i];
    assert LockOk(i, x, s.turns);
    assert forall u | 0 <= u < |s.turns| && s.turns[u].session == i :: TurnOk(u, s.turns[u], x);
    BeginKeeps(s, b, i, t);
  }

  lemma QueueLonger(s: State, after: State, i: nat, t: nat)
    requires LocksInv(s) && Local(s, after, i, t) && t == |s.turns| - 1
    requires s.turns[t] == Turn(i, s.turns[t].heard, 0, Over(Withdrawn)) && after.turns[t] == s.turns[t].(pc := Waiting)
    requires after.store.heap[i] == s.store.heap[i].(queue := s.store.heap[i].queue + [t])
    ensures LockOk(i, after.store.heap[i], after.turns)
  {
    assert LockOk(i, s.store.heap[i], s.turns);
  }

  lemma QueuedOk(s: State, after: State, i: nat, t: nat)
    requires LocksInv(s) && Local(s, after, i, t) && t == |s.turns| - 1
    requires s.turns[t] == Turn(i, s.turns[t].heard, 0, Over(Withdrawn)) && after.turns[t] == s.turns[t].(pc := Waiting)
    requires after.store.heap[i] == s.store.heap[i].(queue := s.store.heap[i].queue + [t])
    ensures forall u | 0 <= u < |after.turns| && after.turns[u].session == i ::
      TurnOk(u, after.turns[u], after.store.heap[i])
  {
    var x, y := s.store.heap[i], after.store.heap[i];
    assert LockOk(i, x, s.turns);
    forall u | 0 <= u < |after.turns| && after.turns[u].session == i ensures TurnOk(u, after.turns[u], y) {
      assert TurnOk(u, s.turns[u], x);
    }
  }

  lemma EnterQueue(s: State, after: State, i: nat, t: nat)
    requires LocksInv(s) && InOrder(s.turns) && Local(s, after, i, t) && t == |s.turns| - 1
    requires s.turns[t] == Turn(i, s.turns[t].heard, 0, Over(Withdrawn)) && after.turns[t] == s.turns[t].(pc := Waiting)
    requires after.store.heap[i] == s.store.heap[i].(queue := s.store.heap[i].queue + [t])
    ensures LocksInv(after) && InOrder(after.turns)
  {
    QueueLonger(s, after, i, t);
    QueuedOk(s, after, i, t);
    LocalKeeps(s, after, i, t);
    OrderKeeps(s, after, i, t);
  }

  lemma EnterKeeps(s: State, i: nat, heard: string)
    requires LocksInv(s) && InOrder(s.turns) && i in s.store.heap
    ensures LocksInv(Enter(s, i, heard)) && InOrder(Enter(s, i, heard).turns)
  {
    var t, x, over := |s.turns|, s.store.heap[i], Turn(i, heard, 0, Over(Withdrawn));
    OverKeeps(s, over);
    var before, entered := s.(turns := s.turns + [over]), s.(turns := s.turns + [over.(pc := Waiting)]);
    if x.holder.None? && x.queue == [] {
      EnterFree(before, entered, i, t);
    } else {
      EnterQueue(before, WithSession(entered, i, x.(queue := x.queue + [t])), i, t);
    }
  }

  lemma ArrivedKeeps(s: State, scope: Scope, heard: string)
    requires WellFormed(s.store) && LocksInv(s) && InOrder(s.turns)
    ensures LocksInv(Arrived(s, scope, heard)) && InOrder(Arrived(s, scope, heard).turns)
  {
    FetchedKeeps(s, scope);
    var got, fetched := Get(s.store, scope, s.now, s.lim, s.next).1, Fetched(s, scope);
    if got.Session_? && got.id in fetched.store.heap { EnterKeeps(fetched, got.id, heard); }
  }

  lemma ReturnKeeps(s: State, t: nat, reply: Reply)
    requires LocksInv(s) && InOrder(s.turns) && Suspended(s, t) && InFlight(s.turns[t].pc)
    ensures LocksInv(Returned(s, t, reply)) && InOrder(Returned(s, t, reply).turns)
  {
    var turn := s.turns[t];
    ContinueAdvances(s.store.heap[turn.session].context, turn.revision, turn.heard, turn.pc, reply,
      s.now, s.steps, s.lim.maxCommands);
    ReturnedKeeps(s, t, reply);
  }

  lemma CloseSame(s: State, scope: Scope)
    requires WellFormed(s.store)
    ensures SameLocks(s, Close(s.store, scope, s.now).0)
    ensures Close(s.store, scope, s.now).0.heap.Keys == s.store.heap.Keys
  {}

  lemma EndKeeps(s: State, scope: Scope)
    requires WellFormed(s.store) && LocksInv(s)
    ensures LocksInv(Happens(s, EndSession(scope)))
  {
    CloseSame(s, scope);
    SameLocksKeep(s, s.(store := Close(s.store, scope, s.now).0));
  }

  lemma ClearKeepsLocks(s: State)
    requires WellFormed(s.store) && LocksInv(s)
    ensures LocksInv(Happens(s, CloseAll))
  {
    SameLocksKeep(s, Happens(s, CloseAll));
  }

  lemma HappensKeepsLocks(s: State, e: Event)
    requires WellFormed(s.store) && LocksInv(s) && InOrder(s.turns)
    ensures LocksInv(Happens(s, e)) && InOrder(Happens(s, e).turns)
  {
    match e {
      case Arrive(scope, heard) => ArrivedKeeps(s, scope, heard);
      case Resume(t) => if MayResume(s, t) { ResumedKeeps(s, t); }
      case Return(t, reply) => if Suspended(s, t) && InFlight(s.turns[t].pc) { ReturnKeeps(s, t, reply); }
      case Cancel(t) => if Suspended(s, t) { CancelledKeeps(s, t); }
      case EndSession(scope) => EndKeeps(s, scope);
      case CloseAll => ClearKeepsLocks(s);
    }
  }

  // ---- the table and the contexts ----------------------------------------

  /** A session changed in place keeps the table's invariant. */
  lemma SessionKeepsTable(s: State, after: State, i: nat, x: Session)
    requires TableInv(s) && i in s.store.heap && after.lim == s.lim && after.store == WithSession(s, i, x).store
    requires x.scope == s.store.heap[i].scope && x.context.active == s.store.heap[i].context.active
    requires Bounded(s.store.heap[i].context) ==> Bounded(x.context)
    ensures TableInv(after)
  {
    forall j | j in after.store.heap && after.store.heap[j].context.active ensures Reachable(after.store, j) {
      assert Reachable(s.store, j);
    }
  }

  lemma FetchedKeepsTable(s: State, scope: Scope)
    requires TableInv(s) && s.next !in s.store.heap
    ensures TableInv(Fetched(s, scope))
  {
    var after := Fetched(s, scope).store;
    GetKeeps(s.store, scope, s.now, s.lim, s.next);
    GetAdds(s.store, scope, s.now, s.lim, s.next);
    if 1 <= s.lim.turns <= 5 {
      forall i | i in after.heap ensures Bounded(after.heap[i].context) {
        if i in s.store.heap { GetOthers(s.store, scope, s.now, s.lim, s.next, i); }
      }
    }
  }

  lemma ArrivedKeepsTable(s: State, scope: Scope, heard: string)
    requires TableInv(s) && s.next !in s.store.heap
    ensures TableInv(Arrived(s, scope, heard))
  {
    FetchedKeepsTable(s, scope);
    var got, fetched := Get(s.store, scope, s.now, s.lim, s.next).1, Fetched(s, scope);
    if got.Session_? && got.id in fetched.store.heap { EnterKeepsTable(fetched, got.id, heard); }
  }

  lemma EnterKeepsTable(s: State, i: nat, heard: string)
    requires TableInv(s) && i in s.store.heap
    ensures TableInv(Enter(s, i, heard))
  {
    var after := Enter(s, i, heard);
    if after.store != s.store { SessionKeepsTable(s, after, i, after.store.heap[i]); }
  }

  lemma ResumedKeepsTable(s: State, t: nat)
    requires TableInv(s) && MayResume(s, t)
    ensures TableInv(Resumed(s, t))
  {
    var i, after := s.turns[t].session, Resumed(s, t);
    SessionKeepsTable(s, after, i, after.store.heap[i]);
  }

  lemma CancelledKeepsTable(s: State, t: nat)
    requires TableInv(s) && Suspended(s, t)
    ensures TableInv(Cancelled(s, t))
  {
    var i, after := s.turns[t].session, Cancelled(s, t);
    SessionKeepsTable(s, after, i, after.store.heap[i]);
  }

  lemma ReturnedKeepsTable(s: State, t: nat, reply: Reply)
    requires TableInv(s) && Suspended(s, t) && InFlight(s.turns[t].pc)
    ensures TableInv(Returned(s, t, reply))
  {
    var turn, after := s.turns[t], Returned(s, t, reply);
    var c := s.store.heap[turn.session].context;
    ContinueAdvances(c, turn.revision, turn.heard, turn.pc, reply, s.now, s.steps, s.lim.maxCommands);
    if Bounded(c) { ContinueKeeps(c, turn.revision, turn.heard, turn.pc, reply, s.now, s.steps, s.lim.maxCommands); }
    SessionKeepsTable(s, after, turn.session, after.store.heap[turn.session]);
  }

  lemma HappensKeepsTable(s: State, e: Event)
    requires TableInv(s) && s.next !in s.store.heap
    ensures TableInv(Happens(s, e))
  {
    match e {
      case Arrive(scope, heard) => ArrivedKeepsTable(s, scope, heard);
      case Resume(t) => if MayResume(s, t) { ResumedKeepsTable(s, t); }
      case Return(t, reply) => if Suspended(s, t) && InFlight(s.turns[t].pc) { ReturnedKeepsTable(s, t, reply); }
      case Cancel(t) => if Suspended(s, t) { CancelledKeepsTable(s, t); }
      case EndSession(scope) => EndKeepsTable(s, scope);
      case CloseAll => ClearKeepsTable(s);
    }
  }

  lemma EndKeepsTable(s: State, scope: Scope)
    requires TableInv(s)
    ensures TableInv(s.(store := Close(s.store, scope, s.now).0))
  {
    CloseKeeps(s.store, scope, s.now);
  }

  lemma ClearKeepsTable(s: State)
    requires TableInv(s)
    ensures TableInv(s.(store := ClearAll(s.store)))
  {
    ClearKeeps(s.store);
  }

  lemma HappensKeeps(s: State, e: Event)
    requires Inv(s)
    ensures Inv(Happens(s, e))
  {
    HappensKeepsLocks(s, e);
    HappensKeepsTable(s, e);
  }

  /** Neither the clock nor the count of steps matters. */
  lemma ClockKeeps(s: State, delay: nat)
    requires Inv(s)
    ensures Inv(Later(s, delay)) && Inv(Ticked(s))
  {
    assert LocksInv(Later(s, delay)) && TableInv(Later(s, delay));
    assert LocksInv(Ticked(s)) && TableInv(Ticked(s));
  }

  lemma StepKeeps(s: State, a: Moment)
    requires Inv(s)
    ensures Inv(Step(s, a))
  {
    ClockKeeps(s, a.delay);
    HappensKeeps(Later(s, a.delay), a.event);
    ClockKeeps(Happens(Later(s, a.delay), a.event), 0);
  }

  /** The state after some actions. */
  function Run(s: State, acts: seq<Moment>): (after: State)
    requires Inv(s)
    ensures Inv(after)
    decreases |acts|
  {
    if acts == [] then s
    else
      var before := Run(s, acts[..|acts| - 1]);
      StepKeeps(before, acts[|acts| - 1]);
      Step(before, acts[|acts| - 1])
  }

  lemma RunSnoc(s: State, acts: seq<Moment>, a: Moment)
    requires Inv(s)
    ensures Run(s, acts + [a]) == Step(Run(s, acts), a)
  {
    assert (acts + [a])[..|acts|] == acts;
  }

  lemma OpenedInv(lim: Limits, now: int)
    ensures Inv(Opened(lim, now))
  {}
}
