/** The session table itself (app/smarthome/sessions.py): objects reached through a dictionary,
    updated in place. */
module HomeSessionTables {
  import opened Basics
  import opened HomeContexts
  import opened HomeStores

  class HomeSession {
    const scope: Scope
    const context: HomeContext
    var touched: int
    // The lock: its holder and its waiters.
    var holder: Option<nat>
    var queue: seq<nat>

    ghost function View(): Session
      reads this, context
    {
      Session(scope, context.View(), touched, holder, queue)
    }

    constructor (scope: Scope, turns: nat, now: int)
      ensures View() == Born(scope, turns, now) && fresh(context)
    {
      this.scope := scope;
      context := new HomeContext(turns);
      touched, holder, queue := now, None, [];
    }

    method End(now: int)
      modifies this`touched, context
      ensures View() == Ended(old(View())).(touched := now)
    {
      context.Close();
      touched := now;
    }
  }

  class HomeSessions {
    const lim: Limits
    var items: map<Key, HomeSession>
    // Every session ever made: an evicted one lives on in the turns that hold it.
    ghost var made: set<HomeSession>

    ghost function Contexts(): set<HomeContext>
      reads this
    {
      set x | x in made :: x.context
    }

    ghost function View(): Store<HomeSession>
      reads this, made, Contexts()
    {
      Store(items, map x | x in made :: x.View())
    }

    ghost predicate Distinct()
      reads this
    {
      forall x, y | x in made && y in made && x.context == y.context :: x == y
    }

    ghost predicate Valid()
      reads this, made, Contexts()
    {
      Distinct() && WellFormed(View())
    }

    constructor (lim: Limits)
      ensures Valid() && View() == Store(map[], map[]) && this.lim == lim
    {
      this.lim := lim;
      items, made := map[], {};
    }

    // ---- one session at a time -------------------------------------------

    method Deactivate(x: HomeSession)
      requires Distinct() && x in made
      modifies x.context
      ensures View() == Store(items, old(View()).heap[x := Inactive(old(View()).heap[x])])
    {
      x.context.active := false;
      assert forall y | y in made && y != x :: y.View() == old(y.View());
    }

    method CloseContext(x: HomeSession)
      requires Distinct() && x in made
      modifies x.context
      ensures View() == Store(items, old(View()).heap[x := Ended(old(View()).heap[x])])
    {
      x.context.Close();
      assert forall y | y in made && y != x :: y.View() == old(y.View());
    }

    method Touch(x: HomeSession, now: int)
      requires x in made
      modifies x`touched
      ensures View() == Store(items, old(View()).heap[x := old(View()).heap[x].(touched := now)])
    {
      x.touched := now;
      assert forall y | y in made && y != x :: y.View() == old(y.View());
    }

    method Add(scope: Scope, now: int)
      requires Distinct()
      modifies this`items, this`made
      ensures Distinct() && KeyOf(scope) in items && fresh(items[KeyOf(scope)]) && fresh(items[KeyOf(scope)].context)
      ensures items[KeyOf(scope)] !in old(made) && made == old(made) + {items[KeyOf(scope)]}
      ensures
        var s, x := old(View()), items[KeyOf(scope)];
        View() == Store(s.table[KeyOf(scope) := x], s.heap[x := Born(scope, lim.turns, now)])
    {
      var session := new HomeSession(scope, lim.turns, now);
      assert forall y | y in made :: y.View() == old(y.View());
      Enlist(session, KeyOf(scope));
    }

    method Enlist(session: HomeSession, key: Key)
      requires Distinct() && session !in made && forall y | y in made :: y.context != session.context
      modifies this`items, this`made
      ensures Distinct() && items == old(items)[key := session] && made == old(made) + {session}
      ensures View() == Store(old(View()).table[key := session], old(View()).heap[session := session.View()])
    {
      items, made := items[key := session], made + {session};
    }

    // ---- the table -------------------------------------------------------

    /** One pass of the sweep. */
    method Expire(k: Key, now: int)
      requires Distinct() && k in items && items[k] in made
      modifies this`items, Contexts()
      ensures View() == ExpireOne(old(View()), k, now, lim.ttl)
    {
      var x := items[k];
      if x.holder.None? && now - x.touched >= lim.ttl {
        Deactivate(x);
        Remove(k);
      }
    }

    method Remove(k: Key)
      modifies this`items
      ensures View() == Store(old(items) - {k}, old(View()).heap)
    {
      items := items - {k};
      assert View().heap == old(View()).heap;
    }

    method ExpireNext(k: Key, now: int, ghost s: Store<HomeSession>, ghost done: seq<Key>)
      requires Distinct() && WellFormed(s) && k in s.table && k !in done && View() == ExpiredIn(s, done, now, lim.ttl)
      modifies this`items, Contexts()
      ensures View() == ExpiredIn(s, done + [k], now, lim.ttl)
    {
      ExpiredKeeps(s, done, k, now, lim.ttl);
      ExpiredSnoc(s, done, k, now, lim.ttl);
      Expire(k, now);
    }

    /** The first loop of `get`. */
    method Sweep(now: int, ghost s: Store<HomeSession>)
      requires Valid() && s == View()
      modifies this`items, Contexts()
      ensures Valid() && View() == HomeStores.Sweep(s, now, lim.ttl)
    {
      var todo := items.Keys;
      ghost var done := [];
      while todo != {}
        invariant Distinct() && ExpiredIn(s, done, now, lim.ttl) == View()
        invariant Left(s, todo, done)
      {
        var k :| k in todo;
        LeftNext(s, todo, done, k);
        ExpireNext(k, now, s, done);
        todo, done := todo - {k}, done + [k];
      }
      ExpiredIsSweep(s, done, now, lim.ttl);
    }

    /** `get` once expired sessions are gone. */
    method Find(scope: Scope, now: int) returns (got: Got<HomeSession>)
      requires Valid() && !NoRoom(View(), scope, lim.capacity)
      modifies this`items, this`made, made, Contexts()
      ensures Distinct() && old(made) <= made && fresh(made - old(made)) && KeyOf(scope) in items
      ensures KeyOf(scope) !in old(items) ==> fresh(items[KeyOf(scope)]) && items[KeyOf(scope)] !in old(made)
      ensures (View(), got) == Admit(old(View()), scope, now, lim.turns, items[KeyOf(scope)])
    {
      var key := KeyOf(scope);
      if key !in items { Add(scope, now); }
      var item := items[key];
      if item.scope != scope { return OtherCompanion; }
      Touch(item, now);
      if !item.context.active { return IsClosed; }
      return Session_(item);
    }

    method Get(scope: Scope, now: int) returns (got: Got<HomeSession>)
      requires Valid()
      modifies this`items, this`made, made, Contexts()
      ensures Valid() && old(made) <= made && fresh(made - old(made))
      ensures
        var swept := HomeStores.Sweep(old(View()), now, lim.ttl);
        if NoRoom(swept, scope, lim.capacity) then got == CapacityReached && View() == swept
        else
          && WellFormed(swept) && KeyOf(scope) in items
          && (KeyOf(scope) !in swept.table ==> fresh(items[KeyOf(scope)]))
          && (View(), got) == Admit(swept, scope, now, lim.turns, items[KeyOf(scope)])
    {
      Sweep(now, View());
      ghost var swept := View();
      if KeyOf(scope) !in items && |items| >= lim.capacity { return CapacityReached; }
      got := Find(scope, now);
      AdmitFound(swept, scope, now, lim.turns, items[KeyOf(scope)]);
    }

    method Close(scope: Scope, now: int) returns (ok: bool)
      requires Valid()
      modifies made, Contexts()
      ensures Valid() && (View(), ok) == HomeStores.Close(old(View()), scope, now)
    {
      var key := KeyOf(scope);
      if key !in items { return true; }
      var item := items[key];
      if item.scope != scope { return false; }
      ghost var s := View();
      CloseItem(item, now);
      CloseKeeps(s, scope, now);
      return true;
    }

    method CloseItem(x: HomeSession, now: int)
      requires Distinct() && x in made
      modifies x`touched, x.context
      ensures View() == Store(items, old(View()).heap[x := Ended(old(View()).heap[x]).(touched := now)])
    {
      x.End(now);
      assert forall y | y in made && y != x :: y.View() == old(y.View());
    }

    method CloseOne(k: Key, ghost s: Store<HomeSession>, ghost done: set<Key>)
      requires Distinct() && WellFormed(s) && k in s.table && k !in done && View() == Store(s.table, ClearSome(s, done))
      modifies Contexts()
      ensures View() == Store(s.table, ClearSome(s, done + {k}))
    {
      ClearNext(s, done, k);
      CloseContext(items[k]);
    }

    method CloseEach(ghost s: Store<HomeSession>)
      requires Valid() && s == View()
      modifies Contexts()
      ensures View() == Store(s.table, ClearSome(s, s.table.Keys))
    {
      var todo := items.Keys;
      ghost var done := {};
      ClearNone(s);
      while todo != {}
        invariant Distinct() && todo + done == s.table.Keys && todo !! done
        invariant View() == Store(s.table, ClearSome(s, done))
      {
        var k :| k in todo;
        CloseOne(k, s, done);
        todo, done := todo - {k}, done + {k};
      }
    }

    method Clear()
      requires Valid()
      modifies this`items, Contexts()
      ensures Valid() && View() == ClearAll(old(View()))
    {
      ghost var s := View();
      CloseEach(s);
      Forget();
      ClearsAll(s);
    }

    /** `self._items.clear()`. */
    method Forget()
      modifies this`items
      ensures View() == Store(map[], old(View()).heap)
    {
      items := map[];
      assert View().heap == old(View()).heap;
    }
  }

  function Ended(x: Session): Session { x.(context := Closed(x.context)) }

  /** The sessions under `keys` closed. */
  ghost function ClearSome<Id>(s: Store<Id>, keys: set<Key>): map<Id, Session> {
    map i | i in s.heap :: if Reachable(s, i) && KeyOf(s.heap[i].scope) in keys then Ended(s.heap[i]) else s.heap[i]
  }

  lemma ClearNone<Id>(s: Store<Id>)
    ensures Store(s.table, ClearSome(s, {})) == s
  {
    assert ClearSome(s, {}) == s.heap;
  }

  lemma ClearNext<Id>(s: Store<Id>, keys: set<Key>, k: Key)
    requires WellFormed(s) && k in s.table && k !in keys
    ensures
      var i := s.table[k];
      ClearSome(s, keys + {k}) == ClearSome(s, keys)[i := Ended(s.heap[i])] && ClearSome(s, keys)[i] == s.heap[i]
  {}

  lemma ClearsAll<Id>(s: Store<Id>)
    requires WellFormed(s)
    ensures Store(map[], ClearSome(s, s.table.Keys)) == ClearAll(s) && WellFormed(ClearAll(s))
  {
    assert ClearSome(s, s.table.Keys) == ClearAll(s).heap;
    ClearKeeps(s);
  }

  /** An admission keeps the table well formed, whether or not it made a session. */
  lemma AdmitFound<Id>(s: Store<Id>, scope: Scope, now: int, turns: nat, id: Id)
    requires WellFormed(s) && (KeyOf(scope) in s.table || id !in s.heap)
    ensures WellFormed(Admit(s, scope, now, turns, id).0)
  {
    if id !in s.heap {
      AdmitKeeps(s, scope, now, turns, id);
    } else {
      var after := Admit(s, scope, now, turns, id).0;
      assert after.table == s.table;
      assert forall i | i in after.heap && after.heap[i].context.active :: Reachable(s, i);
    }
  }
}
