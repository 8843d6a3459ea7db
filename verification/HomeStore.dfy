/** The table of home sessions (app/smarthome/sessions.py) over any kind of session
    identity: sessions live in a heap, and the table names the reachable ones. */
module HomeStores {
  import opened Basics
  import opened HomeContexts

  datatype Scope = Scope(owner: string, device: string, session: string, companion: string)

  datatype Key = Key(owner: string, device: string, session: string)

  function KeyOf(s: Scope): Key { Key(s.owner, s.device, s.session) }

  /** A session with its FIFO lock: who holds it and who waits. A released lock is unlocked
      until its first waiter runs. */
  datatype Session = Session(scope: Scope, context: Context, touched: int, holder: Option<nat>, queue: seq<nat>)

  datatype Limits = Limits(ttl: int, capacity: int, turns: nat, maxCommands: nat)

  datatype Store<Id(==)> = Store(table: map<Key, Id>, heap: map<Id, Session>)

  datatype Got<+Id> = Session_(id: Id) | CapacityReached | OtherCompanion | IsClosed

  function Born(scope: Scope, turns: nat, now: int): Session { Session(scope, Fresh(turns), now, None, []) }

  predicate Stale(x: Session, now: int, ttl: int) { x.holder.None? && now - x.touched >= ttl }

  predicate Reachable<Id>(s: Store<Id>, i: Id)
    requires i in s.heap
  {
    KeyOf(s.heap[i].scope) in s.table && s.table[KeyOf(s.heap[i].scope)] == i
  }

  /** The table names sessions under their own keys, and every active session. */
  ghost predicate WellFormed<Id>(s: Store<Id>) {
    && (forall k | k in s.table :: s.table[k] in s.heap && KeyOf(s.heap[s.table[k]].scope) == k)
    && (forall i | i in s.heap && s.heap[i].context.active :: Reachable(s, i))
  }

  predicate Dropped<Id>(s: Store<Id>, i: Id, keys: set<Key>, now: int, ttl: int)
    requires i in s.heap
  {
    Reachable(s, i) && KeyOf(s.heap[i].scope) in keys && Stale(s.heap[i], now, ttl)
  }

  function Inactive(x: Session): Session { x.(context := x.context.(active := false)) }

  /** The expired among `keys` deactivated and forgotten. */
  function SweepOf<Id>(s: Store<Id>, keys: set<Key>, now: int, ttl: int): Store<Id>
    requires WellFormed(s)
  {
    Store(
      map k | k in s.table && !Dropped(s, s.table[k], keys, now, ttl) :: s.table[k],
      map i | i in s.heap :: if Dropped(s, i, keys, now, ttl) then Inactive(s.heap[i]) else s.heap[i])
  }

  function Sweep<Id>(s: Store<Id>, now: int, ttl: int): Store<Id>
    requires WellFormed(s)
  {
    SweepOf(s, s.table.Keys, now, ttl)
  }

  predicate NoRoom<Id>(s: Store<Id>, scope: Scope, capacity: int) {
    KeyOf(scope) !in s.table && |s.table| >= capacity
  }

  /** The rest of `get` where there is room; `newId` is the session made if one is needed. */
  function Admit<Id>(s: Store<Id>, scope: Scope, now: int, turns: nat, newId: Id): (Store<Id>, Got<Id>)
    requires WellFormed(s)
  {
    var key := KeyOf(scope);
    var made :=
      if key in s.table then s else Store(s.table[key := newId], s.heap[newId := Born(scope, turns, now)]);
    var x := made.heap[made.table[key]];
    if x.scope != scope then (made, OtherCompanion)
    else
      var touched := Store(made.table, made.heap[made.table[key] := x.(touched := now)]);
      if x.context.active then (touched, Session_(made.table[key])) else (touched, IsClosed)
  }

  function Get<Id>(s: Store<Id>, scope: Scope, now: int, lim: Limits, newId: Id): (Store<Id>, Got<Id>)
    requires WellFormed(s)
  {
    var swept := Sweep(s, now, lim.ttl);
    SweepKeeps(s, s.table.Keys, now, lim.ttl);
    if NoRoom(swept, scope, lim.capacity) then (swept, CapacityReached)
    else Admit(swept, scope, now, lim.turns, newId)
  }

  /** `close`; false when it raises. */
  function Close<Id>(s: Store<Id>, scope: Scope, now: int): (Store<Id>, bool)
    requires WellFormed(s)
  {
    if KeyOf(scope) !in s.table then (s, true)
    else
      var i := s.table[KeyOf(scope)];
      var x := s.heap[i];
      if x.scope != scope then (s, false)
      else (Store(s.table, s.heap[i := x.(context := Closed(x.context), touched := now)]), true)
  }

  function ClearAll<Id>(s: Store<Id>): Store<Id> {
    Store(map[], map i | i in s.heap ::
      if Reachable(s, i) then s.heap[i].(context := Closed(s.heap[i].context)) else s.heap[i])
  }

  // ---- what every operation keeps ----------------------------------------

  lemma SweepKeeps<Id>(s: Store<Id>, keys: set<Key>, now: int, ttl: int)
    requires WellFormed(s)
    ensures WellFormed(SweepOf(s, keys, now, ttl)) && |SweepOf(s, keys, now, ttl).table| <= |s.table|
  {
    var after := SweepOf(s, keys, now, ttl);
    SmallerMap(after.table, s.table);
  }

  lemma SmallerMap<Id>(a: map<Key, Id>, b: map<Key, Id>)
    requires a.Keys <= b.Keys
    ensures |a| <= |b|
  {
    SmallerSet(a.Keys, b.Keys);
  }

  lemma {:induction false} SmallerSet(a: set<Key>, b: set<Key>)
    requires a <= b
    ensures |a| <= |b|
  {
    if x :| x in a { SmallerSet(a - {x}, b - {x}); }
  }

  lemma AdmitKeeps<Id>(s: Store<Id>, scope: Scope, now: int, turns: nat, newId: Id)
    requires WellFormed(s) && newId !in s.heap
    ensures WellFormed(Admit(s, scope, now, turns, newId).0)
    ensures Admit(s, scope, now, turns, newId).0.table.Keys == s.table.Keys + {KeyOf(scope)}
  {
    var after := Admit(s, scope, now, turns, newId).0;
    forall i | i in after.heap && after.heap[i].context.active ensures Reachable(after, i) {
      if i in s.heap { AdmitOthers(s, scope, now, turns, newId, i); }
    }
  }

  lemma SizeAfter<Id>(s: Store<Id>, after: Store<Id>, key: Key)
    requires after.table.Keys == s.table.Keys + {key}
    ensures |after.table| == if key in s.table then |s.table| else |s.table| + 1
  {
    assert |after.table| == |after.table.Keys| && |s.table| == |s.table.Keys|;
    if key in s.table { assert after.table.Keys == s.table.Keys; }
  }

  /** `get` keeps one active session a key, and the table within its capacity. */
  lemma GetKeeps<Id>(s: Store<Id>, scope: Scope, now: int, lim: Limits, newId: Id)
    requires WellFormed(s) && newId !in s.heap
    ensures
      var after := Get(s, scope, now, lim, newId).0;
      WellFormed(after) && |after.table| <= if |s.table| <= lim.capacity then lim.capacity else |s.table|
  {
    var swept := Sweep(s, now, lim.ttl);
    SweepKeeps(s, s.table.Keys, now, lim.ttl);
    if !NoRoom(swept, scope, lim.capacity) {
      AdmitKeeps(swept, scope, now, lim.turns, newId);
      SizeAfter(swept, Admit(swept, scope, now, lim.turns, newId).0, KeyOf(scope));
    }
  }

  lemma CloseKeeps<Id>(s: Store<Id>, scope: Scope, now: int)
    requires WellFormed(s)
    ensures WellFormed(Close(s, scope, now).0) && Close(s, scope, now).0.table == s.table
  {}

  lemma ClearKeeps<Id>(s: Store<Id>)
    requires WellFormed(s)
    ensures WellFormed(ClearAll(s)) && ClearAll(s).table == map[]
    ensures forall i | i in s.heap :: !ClearAll(s).heap[i].context.active
  {}

  /** At most one active session a key. */
  lemma OneActive<Id>(s: Store<Id>, i: Id, j: Id)
    requires WellFormed(s) && i in s.heap && j in s.heap
    requires s.heap[i].context.active && s.heap[j].context.active
    requires KeyOf(s.heap[i].scope) == KeyOf(s.heap[j].scope)
    ensures i == j
  {
    assert Reachable(s, i) && Reachable(s, j);
  }

  lemma AdmitOthers<Id>(s: Store<Id>, scope: Scope, now: int, turns: nat, newId: Id, i: Id)
    requires WellFormed(s) && i in s.heap && newId !in s.heap
    ensures
      var after := Admit(s, scope, now, turns, newId).0;
      && i in after.heap && (Reachable(after, i) <==> Reachable(s, i))
      && after.heap[i] == if Reachable(s, i) && s.heap[i].scope == scope then s.heap[i].(touched := now) else s.heap[i]
  {}

  lemma SweepOthers<Id>(s: Store<Id>, now: int, ttl: int, i: Id)
    requires WellFormed(s) && i in s.heap
    ensures
      var after := Sweep(s, now, ttl);
      && i in after.heap && (Reachable(after, i) <==> Reachable(s, i) && !Stale(s.heap[i], now, ttl))
      && after.heap[i] == if Reachable(s, i) && Stale(s.heap[i], now, ttl) then Inactive(s.heap[i]) else s.heap[i]
  {}

  /** What `get` does to a session that is there: it leaves the table exactly when it is
      idle for the TTL, a locked one never does, and only a get under its own scope touches it. */
  lemma GetOthers<Id>(s: Store<Id>, scope: Scope, now: int, lim: Limits, newId: Id, i: Id)
    requires WellFormed(s) && i in s.heap && newId !in s.heap
    ensures
      var after, x := Get(s, scope, now, lim, newId).0, s.heap[i];
      && i in after.heap
      && (Reachable(after, i) <==> Reachable(s, i) && !Stale(x, now, lim.ttl))
      && after.heap[i] ==
        if Reachable(s, i) && Stale(x, now, lim.ttl) then Inactive(x)
        else if Reachable(s, i) && x.scope == scope then x.(touched := now)
        else x
  {
    SweepKeeps(s, s.table.Keys, now, lim.ttl);
    SweepOthers(s, now, lim.ttl, i);
    var swept := Sweep(s, now, lim.ttl);
    if !NoRoom(swept, scope, lim.capacity) {
      AdmitOthers(swept, scope, now, lim.turns, newId, i);
    } else if Reachable(swept, i) {
      assert KeyOf(swept.heap[i].scope) in swept.table;
    }
  }

  /** At most one session is new, unlocked and fresh, and a session got is active. */
  lemma GetAdds<Id>(s: Store<Id>, scope: Scope, now: int, lim: Limits, newId: Id)
    requires WellFormed(s) && newId !in s.heap
    ensures
      var (after, got) := Get(s, scope, now, lim, newId);
      && (forall i | i in after.heap && i !in s.heap :: i == newId && after.heap[i] == Born(scope, lim.turns, now))
      && (got.Session_? ==>
            got.id in after.heap && after.heap[got.id].scope == scope && after.heap[got.id].context.active)
  {
    var swept := Sweep(s, now, lim.ttl);
    SweepKeeps(s, s.table.Keys, now, lim.ttl);
    assert swept.heap.Keys == s.heap.Keys;
    if !NoRoom(swept, scope, lim.capacity) { AdmitAdds(swept, scope, now, lim.turns, newId); }
  }

  lemma AdmitAdds<Id>(s: Store<Id>, scope: Scope, now: int, turns: nat, newId: Id)
    requires WellFormed(s) && newId !in s.heap
    ensures
      var (after, got) := Admit(s, scope, now, turns, newId);
      && (forall i | i in after.heap && i !in s.heap :: i == newId && after.heap[i] == Born(scope, turns, now))
      && (got.Session_? ==>
            got.id in after.heap && after.heap[got.id].scope == scope && after.heap[got.id].context.active)
  {}

  lemma AdmitNames<Id>(s: Store<Id>, scope: Scope, now: int, turns: nat, newId: Id)
    requires WellFormed(s)
    ensures
      var (after, got) := Admit(s, scope, now, turns, newId);
      got.Session_? ==> KeyOf(scope) in after.table && after.table[KeyOf(scope)] == got.id
  {}

  /** The session got is the one its key names. */
  lemma GetNames<Id>(s: Store<Id>, scope: Scope, now: int, lim: Limits, newId: Id)
    requires WellFormed(s)
    ensures
      var (after, got) := Get(s, scope, now, lim, newId);
      got.Session_? ==> KeyOf(scope) in after.table && after.table[KeyOf(scope)] == got.id
  {
    SweepKeeps(s, s.table.Keys, now, lim.ttl);
    AdmitNames(Sweep(s, now, lim.ttl), scope, now, lim.turns, newId);
  }

  /** The keys whose sessions a sweep leaves in the table. */
  ghost function Live<Id(!new)>(s: Store<Id>, now: int, ttl: int): set<Key>
    requires WellFormed(s)
  {
    set k | k in s.table && !Stale(s.heap[s.table[k]], now, ttl)
  }

  lemma SweepLeaves<Id(!new)>(s: Store<Id>, now: int, ttl: int)
    requires WellFormed(s)
    ensures
      var swept := Sweep(s, now, ttl);
      && swept.table.Keys == Live(s, now, ttl) && |swept.table| == |Live(s, now, ttl)|
      && forall k | k in swept.table ::
        swept.table[k] == s.table[k] && swept.heap[swept.table[k]] == s.heap[s.table[k]]
  {
    var swept := Sweep(s, now, ttl);
    assert swept.table.Keys == Live(s, now, ttl);
    assert |swept.table| == |swept.table.Keys|;
  }

  /** What `get` answers: the key's own open session; an error where it is closed or another
      companion's; and for a key without a live session a new one, unless the live sessions
      already fill the table. */
  lemma GetAnswers<Id(!new)>(s: Store<Id>, scope: Scope, now: int, lim: Limits, newId: Id)
    requires WellFormed(s)
    ensures Get(s, scope, now, lim, newId).1 ==
      if KeyOf(scope) in Live(s, now, lim.ttl) then
        var i := s.table[KeyOf(scope)];
        if s.heap[i].scope != scope then OtherCompanion
        else if s.heap[i].context.active then Session_(i) else IsClosed
      else if |Live(s, now, lim.ttl)| >= lim.capacity then CapacityReached
      else Session_(newId)
  {
    SweepKeeps(s, s.table.Keys, now, lim.ttl);
    SweepLeaves(s, now, lim.ttl);
  }

  // ---- the sweep, one key at a time --------------------------------------

  function ExpireOne<Id>(s: Store<Id>, k: Key, now: int, ttl: int): Store<Id> {
    if k in s.table && s.table[k] in s.heap && Stale(s.heap[s.table[k]], now, ttl) then
      Store(s.table - {k}, s.heap[s.table[k] := Inactive(s.heap[s.table[k]])])
    else s
  }

  function ExpiredIn<Id>(s: Store<Id>, keys: seq<Key>, now: int, ttl: int): Store<Id> {
    if keys == [] then s
    else ExpireOne(ExpiredIn(s, keys[..|keys| - 1], now, ttl), keys[|keys| - 1], now, ttl)
  }

  function KeysOf(keys: seq<Key>): set<Key> { set k | k in keys }

  lemma SweepNext<Id>(s: Store<Id>, keys: set<Key>, k: Key, now: int, ttl: int)
    requires WellFormed(s)
    ensures SweepOf(s, keys + {k}, now, ttl) == ExpireOne(SweepOf(s, keys, now, ttl), k, now, ttl)
  {
    DroppedNext(s, keys, k, now, ttl);
    var a, b := SweepOf(s, keys, now, ttl), SweepOf(s, keys + {k}, now, ttl);
    var c := ExpireOne(a, k, now, ttl);
    assert b.table == c.table;
    SweepNextHeap(s, keys, k, now, ttl);
  }

  lemma SweepNextHeap<Id>(s: Store<Id>, keys: set<Key>, k: Key, now: int, ttl: int)
    requires WellFormed(s)
    ensures SweepOf(s, keys + {k}, now, ttl).heap == ExpireOne(SweepOf(s, keys, now, ttl), k, now, ttl).heap
  {
    DroppedNext(s, keys, k, now, ttl);
    var b, c := SweepOf(s, keys + {k}, now, ttl), ExpireOne(SweepOf(s, keys, now, ttl), k, now, ttl);
    assert b.heap.Keys == c.heap.Keys && b.heap == c.heap;
  }

  lemma DroppedNext<Id>(s: Store<Id>, keys: set<Key>, k: Key, now: int, ttl: int)
    requires WellFormed(s)
    ensures forall j | j in s.heap :: Dropped(s, j, keys + {k}, now, ttl) <==>
      Dropped(s, j, keys, now, ttl) || (k in s.table && s.table[k] == j && Stale(s.heap[j], now, ttl))
  {}

  /** Expiring keys one by one, in any order, is the sweep of them all. */
  lemma {:induction false} ExpiredIsSweepOf<Id>(s: Store<Id>, keys: seq<Key>, now: int, ttl: int)
    requires WellFormed(s)
    ensures ExpiredIn(s, keys, now, ttl) == SweepOf(s, KeysOf(keys), now, ttl)
  {
    if keys == [] {
      assert SweepOf(s, {}, now, ttl).table == s.table && SweepOf(s, {}, now, ttl).heap == s.heap;
    } else {
      var front, k := keys[..|keys| - 1], keys[|keys| - 1];
      ExpiredIsSweepOf(s, front, now, ttl);
      SweepNext(s, KeysOf(front), k, now, ttl);
      assert keys == front + [k];
      assert KeysOf(keys) == KeysOf(front) + {k};
    }
  }

  lemma SweepBeyond<Id>(s: Store<Id>, keys: set<Key>, now: int, ttl: int)
    requires WellFormed(s) && s.table.Keys <= keys
    ensures SweepOf(s, keys, now, ttl) == Sweep(s, now, ttl)
  {}

  lemma ExpiredIsSweep<Id>(s: Store<Id>, keys: seq<Key>, now: int, ttl: int)
    requires WellFormed(s) && s.table.Keys <= KeysOf(keys)
    ensures ExpiredIn(s, keys, now, ttl) == Sweep(s, now, ttl) && WellFormed(ExpiredIn(s, keys, now, ttl))
  {
    ExpiredIsSweepOf(s, keys, now, ttl);
    SweepBeyond(s, KeysOf(keys), now, ttl);
    SweepKeeps(s, s.table.Keys, now, ttl);
  }

  /** What is left to do of the table's keys. */
  ghost predicate Left<Id>(s: Store<Id>, todo: set<Key>, done: seq<Key>) {
    todo + KeysOf(done) == s.table.Keys && todo !! KeysOf(done)
  }

  lemma LeftNext<Id>(s: Store<Id>, todo: set<Key>, done: seq<Key>, k: Key)
    requires Left(s, todo, done) && k in todo
    ensures k in s.table && k !in done && Left(s, todo - {k}, done + [k])
  {
    assert KeysOf(done + [k]) == KeysOf(done) + {k};
  }

  lemma ExpiredSnoc<Id>(s: Store<Id>, keys: seq<Key>, k: Key, now: int, ttl: int)
    ensures ExpiredIn(s, keys + [k], now, ttl) == ExpireOne(ExpiredIn(s, keys, now, ttl), k, now, ttl)
    ensures KeysOf(keys + [k]) == KeysOf(keys) + {k}
  {
    assert (keys + [k])[..|keys|] == keys;
  }

  /** A key not yet reached is still there. */
  lemma ExpiredKeeps<Id>(s: Store<Id>, keys: seq<Key>, k: Key, now: int, ttl: int)
    requires WellFormed(s) && k in s.table && k !in keys
    ensures
      var a := ExpiredIn(s, keys, now, ttl);
      k in a.table && a.table[k] == s.table[k] && a.table[k] in a.heap
  {
    ExpiredIsSweepOf(s, keys, now, ttl);
  }

  /** Clearing the table leaves nothing of the conversations in it. */
  lemma ClearedAreBlank<Id>(s: Store<Id>, i: Id)
    requires i in s.heap && Reachable(s, i)
    ensures
      var x := ClearAll(s).heap[i];
      !x.context.active && Blank(x.context) && x.holder == s.heap[i].holder && x.queue == s.heap[i].queue
  {}
}
