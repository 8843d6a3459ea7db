/** Chat messages, their conversation order and the key under which a message
    is stored once (core/types/messages.py, domain/history/manager.py). */
module Messages {
  import opened Basics

  datatype Role = User | Assistant

  /** One message. `turnId`, `seqInTurn`, `turnStartedAt` and `isPrivate` are the
      metadata entries the history code reads; instants are integers (all
      timestamps are compared in UTC), and `turnStartedAt` is `None` when the
      entry is missing, not a string or not an ISO timestamp. */
  datatype Message = Message(
    id: string,
    role: Role,
    content: string,
    createdAt: int,
    turnId: Option<string>,
    seqInTurn: Option<int>,
    turnStartedAt: Option<int>,
    isPrivate: bool)

  datatype Order = Order(time: int, turn: string, seqInTurn: int)

  /** `turn:{turn}:{seq}` and `message:{id}` never collide, so the two textual
      forms are two constructors here. */
  datatype Key = TurnKey(turn: string, seqInTurn: int) | MessageKey(id: string)

  function TurnText(m: Message): string {
    if m.turnId.Some? then m.turnId.value else ""
  }

  function MessageOrder(m: Message): Order {
    Order(
      if m.turnStartedAt.Some? then m.turnStartedAt.value else m.createdAt,
      TurnText(m),
      if m.seqInTurn.Some? then m.seqInTurn.value else 0)
  }

  /** The two tests a read applies: drop private messages, drop one turn. */
  datatype Keep = Keep(publicOnly: bool, without: Option<string>)

  predicate Keeps(k: Keep, m: Message) {
    && !(k.publicOnly && m.isPrivate)
    && !(k.without.Some? && m.turnId == k.without)
  }

  /** What Python's `str.strip` removes. */
  predicate IsSpace(c: char) {
    var n := c as int;
    || 0x09 <= n <= 0x0d || 0x1c <= n <= 0x20 || n == 0x85 || n == 0xa0 || n == 0x1680
    || 0x2000 <= n <= 0x200a || n == 0x2028 || n == 0x2029 || n == 0x202f || n == 0x205f || n == 0x3000
  }

  function Strip(s: string): string {
    if s != "" && IsSpace(s[0]) then Strip(s[1..])
    else if s != "" && IsSpace(s[|s| - 1]) then Strip(s[..|s| - 1])
    else s
  }

  function StableKey(m: Message): Key {
    var turn := Strip(TurnText(m));
    if turn != "" && m.seqInTurn.Some? then TurnKey(turn, m.seqInTurn.value) else MessageKey(m.id)
  }

  /** A message with a place in a turn. */
  predicate Placed(m: Message) { Strip(TurnText(m)) != "" && m.seqInTurn.Some? }

  /** A placed message is stored under its place, whatever its id; any other under its id. */
  lemma KeyMeaning(a: Message, b: Message)
    ensures StableKey(a) == StableKey(b) <==>
      if Placed(a) then Placed(b) && Strip(TurnText(a)) == Strip(TurnText(b)) && a.seqInTurn == b.seqInTurn
      else !Placed(b) && a.id == b.id
  {}

  predicate TextLess(a: string, b: string) {
    b != "" && (a == "" || a[0] < b[0] || (a[0] == b[0] && TextLess(a[1..], b[1..])))
  }

  /** The tuple order of `_message_order`: time, then turn id, then position in the turn. */
  predicate OrderLess(a: Order, b: Order) {
    || a.time < b.time
    || (a.time == b.time && TextLess(a.turn, b.turn))
    || (a.time == b.time && a.turn == b.turn && a.seqInTurn < b.seqInTurn)
  }

  predicate Before(a: Message, b: Message) {
    OrderLess(MessageOrder(a), MessageOrder(b))
  }

  predicate SameOrder(a: Message, b: Message) {
    MessageOrder(a) == MessageOrder(b)
  }

  lemma {:induction false} TextLessIrreflexive(a: string)
    ensures !TextLess(a, a)
  {
    if a != "" { TextLessIrreflexive(a[1..]); }
  }

  lemma {:induction false} TextLessTransitive(a: string, b: string, c: string)
    requires TextLess(a, b) && TextLess(b, c)
    ensures TextLess(a, c)
  {
    if a != "" && a[0] == b[0] && b[0] == c[0] { TextLessTransitive(a[1..], b[1..], c[1..]); }
  }

  lemma {:induction false} TextLessTotal(a: string, b: string)
    ensures TextLess(a, b) || a == b || TextLess(b, a)
  {
    if a != "" && b != "" && a[0] == b[0] {
      TextLessTotal(a[1..], b[1..]);
      assert a == [a[0]] + a[1..] && b == [b[0]] + b[1..];
    }
  }

  lemma OrderTotal(a: Message, b: Message)
    ensures Before(a, b) || SameOrder(a, b) || Before(b, a)
  {
    TextLessTotal(TurnText(a), TurnText(b));
  }

  lemma OrderExclusive(a: Message, b: Message)
    requires Before(a, b)
    ensures !SameOrder(a, b) && !Before(b, a)
  {
    TextLessIrreflexive(TurnText(a));
    if TextLess(TurnText(a), TurnText(b)) && TextLess(TurnText(b), TurnText(a)) {
      TextLessTransitive(TurnText(a), TurnText(b), TurnText(a));
    }
  }

  lemma OrderTransitive(a: Message, b: Message, c: Message)
    requires Before(a, b) && Before(b, c)
    ensures Before(a, c)
  {
    if TextLess(TurnText(a), TurnText(b)) && TextLess(TurnText(b), TurnText(c)) {
      TextLessTransitive(TurnText(a), TurnText(b), TurnText(c));
    }
  }

  /** Conversation order is a strict total order on message positions. */
  lemma OrderLaws()
    ensures forall a, b :: Before(a, b) || SameOrder(a, b) || Before(b, a)
    ensures forall a, b :: Before(a, b) ==> !SameOrder(a, b) && !Before(b, a)
    ensures forall a, b, c {:trigger Before(a, b), Before(b, c)} :: Before(a, b) && Before(b, c) ==> Before(a, c)
  {
    forall a, b ensures Before(a, b) || SameOrder(a, b) || Before(b, a) { OrderTotal(a, b); }
    forall a, b | Before(a, b) ensures !SameOrder(a, b) && !Before(b, a) { OrderExclusive(a, b); }
    forall a, b, c | Before(a, b) && Before(b, c) ensures Before(a, c) { OrderTransitive(a, b, c); }
  }
}
