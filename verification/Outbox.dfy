/** The outgoing side of a role-group stream (app/transport/coordination.py): a bounded
    priority queue fed through 64 reply slots. */
module Outbox {
  import opened Basics

  const CAPACITY: nat := 128
  const SLOTS: nat := 64

  datatype FrameKind = ReplyStart | ReplyDelta(text: string) | ReplyEnd | Stop | Capturing | Notice

  /** `request` is the turn id of a reply, the request id of a stop, and unused otherwise. */
  datatype Frame = Frame(kind: FrameKind, request: string)

  /** A queued tuple; `permit` names the request whose permit travels with the frame. */
  datatype Entry = Entry(urgent: bool, sequence: nat, permit: Option<string>, frame: Frame, replySlot: bool)

  /** One task inside `Semaphore.acquire`; `granted` once its future is resolved and
      until the task runs again. */
  datatype Waiter = Waiter(request: string, granted: bool)

  /** `emitted` and `sent` record the frames put on the queue and handed to `send`. */
  datatype Box = Box(
    connected: bool, sequence: nat, queue: seq<Entry>,
    free: nat, waiters: seq<Waiter>,
    emitted: seq<Frame>, sent: seq<Frame>)

  const EMPTY := Box(true, 0, [], SLOTS, [], [], [])

  predicate IsReply(f: Frame) { f.kind.ReplyStart? || f.kind.ReplyDelta? || f.kind.ReplyEnd? }

  // ---- emit --------------------------------------------------------------

  datatype Outcome = Queued | Disconnected | Full

  function TryEmit(b: Box): Outcome {
    if !b.connected then Disconnected else if |b.queue| >= CAPACITY then Full else Queued
  }

  /** The sequence number is spent even when the queue turns out to be full. */
  function Emit(b: Box, urgent: bool, permit: Option<string>, frame: Frame, replySlot: bool): Box {
    if !b.connected then b
    else if |b.queue| >= CAPACITY then b.(sequence := b.sequence + 1)
    else b.(sequence := b.sequence + 1,
            queue := b.queue + [Entry(urgent, b.sequence + 1, permit, frame, replySlot)],
            emitted := b.emitted + [frame])
  }

  // ---- the reply semaphore -----------------------------------------------

  function GrantFirst(ws: seq<Waiter>): seq<Waiter> {
    if ws == [] then []
    else if ws[0].granted then [ws[0]] + GrantFirst(ws[1..])
    else [ws[0].(granted := true)] + ws[1..]
  }

  function Ungranted(ws: seq<Waiter>): nat {
    if ws == [] then 0 else Ungranted(ws[1..]) + if ws[0].granted then 0 else 1
  }

  function Granted(ws: seq<Waiter>): nat {
    if ws == [] then 0 else Granted(ws[1..]) + if ws[0].granted then 1 else 0
  }

  function Wake(b: Box): Box
    requires b.free > 0
  {
    if Ungranted(b.waiters) == 0 then b else b.(free := b.free - 1, waiters := GrantFirst(b.waiters))
  }

  function Release(b: Box): Box { Wake(b.(free := b.free + 1)) }

  /** What every task does on leaving `acquire`: wake as many as there are free slots. */
  function WakeAll(b: Box): Box
    decreases Ungranted(b.waiters)
  {
    if b.free == 0 || Ungranted(b.waiters) == 0 then b
    else GrantedOne(b.waiters); WakeAll(Wake(b))
  }

  lemma {:induction false} GrantedOne(ws: seq<Waiter>)
    requires Ungranted(ws) > 0
    ensures Ungranted(GrantFirst(ws)) == Ungranted(ws) - 1 && Granted(GrantFirst(ws)) == Granted(ws) + 1
    ensures Requests(GrantFirst(ws)) == Requests(ws)
  {
    if ws[0].granted {
      GrantedOne(ws[1..]);
      assert ([ws[0]] + GrantFirst(ws[1..]))[1..] == GrantFirst(ws[1..]);
    } else {
      assert ([ws[0].(granted := true)] + ws[1..])[1..] == ws[1..];
    }
  }

  predicate CanAcquire(b: Box) { b.free > 0 && b.waiters == [] }

  function Requests(ws: seq<Waiter>): seq<string> {
    if ws == [] then [] else [ws[0].request] + Requests(ws[1..])
  }

  function IsGranted(ws: seq<Waiter>, r: string): bool {
    ws != [] && ((ws[0].request == r && ws[0].granted) || IsGranted(ws[1..], r))
  }

  function Remove(ws: seq<Waiter>, r: string): seq<Waiter> {
    if ws == [] then [] else if ws[0].request == r then ws[1..] else [ws[0]] + Remove(ws[1..], r)
  }

  /** A granted task resumes: it holds its slot and leaves the line. */
  function Leave(b: Box, r: string): Box { WakeAll(b.(waiters := Remove(b.waiters, r))) }

  /** A task cancelled in line gives a granted slot back. */
  function Abandon(b: Box, r: string): Box {
    WakeAll(b.(free := if IsGranted(b.waiters, r) then b.free + 1 else b.free, waiters := Remove(b.waiters, r)))
  }

  // ---- the writer --------------------------------------------------------

  /** The tuple order of the priority queue: urgent first, then by sequence number. */
  predicate Precedes(a: Entry, b: Entry) {
    if a.urgent == b.urgent then a.sequence < b.sequence else a.urgent
  }

  function Least(q: seq<Entry>): (i: nat)
    requires q != []
    ensures i < |q|
  {
    if |q| == 1 then 0
    else
      var i := Least(q[..|q| - 1]);
      if Precedes(q[|q| - 1], q[i]) then |q| - 1 else i
  }

  function Drop(q: seq<Entry>, i: nat): seq<Entry>
    requires i < |q|
  {
    q[..i] + q[i + 1..]
  }

  function Dequeue(b: Box): Box
    requires b.queue != []
  {
    var e := b.queue[Least(b.queue)];
    var rest := b.(queue := Drop(b.queue, Least(b.queue)));
    if e.replySlot then Release(rest) else rest
  }

  /** Whether the frame still may be sent, and the hand-over to `send`. */
  function Deliver(b: Box, e: Entry, revoked: set<string>): Box {
    if e.permit.Some? && e.permit.value in revoked then b else b.(sent := b.sent + [e.frame])
  }

  // ---- Invariants --------------------------------------------------------

  function Replies(q: seq<Entry>): nat {
    if q == [] then 0 else Replies(q[..|q| - 1]) + if q[|q| - 1].replySlot then 1 else 0
  }

  ghost predicate Ordered(q: seq<Entry>, top: nat) {
    && (forall i | 0 <= i < |q| :: q[i].sequence <= top)
    && (forall i, j | 0 <= i < j < |q| :: q[i].sequence < q[j].sequence)
  }

  predicate WellTagged(e: Entry) {
    && (e.replySlot <==> IsReply(e.frame))
    && (e.replySlot ==> !e.urgent && e.permit == Some(e.frame.request))
    && (!e.replySlot ==> e.permit.None?)
  }

  ghost predicate Distinct(ids: seq<string>) {
    ids != [] ==> ids[0] !in ids[1..] && Distinct(ids[1..])
  }

  /** Slots are conserved, counting `held` ones in the hands of a running task; nobody
      waits while a slot is free and no granted task is about to run. */
  ghost predicate SlotInv(b: Box, held: nat) {
    && b.free + Granted(b.waiters) + Replies(b.queue) + held == SLOTS
    && (b.free > 0 && Ungranted(b.waiters) > 0 ==> Granted(b.waiters) > 0)
    && Distinct(Requests(b.waiters))
  }

  ghost predicate QueueInv(b: Box) {
    && |b.queue| <= CAPACITY
    && Ordered(b.queue, b.sequence)
    && (forall i | 0 <= i < |b.queue| :: WellTagged(b.queue[i]))
  }

  lemma {:induction false} RepliesBounded(q: seq<Entry>)
    ensures Replies(q) <= |q|
  {
    if q != [] { RepliesBounded(q[..|q| - 1]); }
  }

  lemma {:induction false} RepliesDrop(q: seq<Entry>, i: nat)
    requires i < |q|
    ensures Replies(Drop(q, i)) == Replies(q) - if q[i].replySlot then 1 else 0
  {
    var last := |q| - 1;
    if i == last {
      assert Drop(q, i) == q[..last];
    } else {
      RepliesDrop(q[..last], i);
      assert Drop(q, i) == Drop(q[..last], i) + [q[last]];
      assert Drop(q, i)[..|q| - 2] == Drop(q[..last], i);
    }
  }

  lemma RepliesSnoc(q: seq<Entry>, e: Entry)
    ensures Replies(q + [e]) == Replies(q) + if e.replySlot then 1 else 0
  {
    assert (q + [e])[..|q|] == q;
  }

  /** A full queue is never full of replies: at least half of it is other frames. */
  lemma FullOnlyWithNotices(b: Box, held: nat)
    requires SlotInv(b, held) && TryEmit(b).Full?
    ensures |b.queue| - Replies(b.queue) >= CAPACITY - SLOTS
  {}

  lemma EmitKeepsQueue(b: Box, urgent: bool, permit: Option<string>, frame: Frame, slot: bool)
    requires QueueInv(b) && WellTagged(Entry(urgent, b.sequence + 1, permit, frame, slot))
    ensures QueueInv(Emit(b, urgent, permit, frame, slot))
  {
    OrderedSnoc(b.queue, b.sequence, Entry(urgent, b.sequence + 1, permit, frame, slot));
  }

  lemma EmitKeeps(b: Box, held: nat, urgent: bool, permit: Option<string>, frame: Frame, slot: bool)
    requires SlotInv(b, held) && QueueInv(b)
    requires WellTagged(Entry(urgent, b.sequence + 1, permit, frame, slot))
    requires slot ==> held > 0
    ensures var c := Emit(b, urgent, permit, frame, slot);
      QueueInv(c) && SlotInv(c, if slot && TryEmit(b).Queued? then held - 1 else held)
  {
    RepliesSnoc(b.queue, Entry(urgent, b.sequence + 1, permit, frame, slot));
    EmitKeepsQueue(b, urgent, permit, frame, slot);
  }

  lemma OrderedSnoc(q: seq<Entry>, top: nat, e: Entry)
    requires Ordered(q, top) && e.sequence == top + 1
    ensures Ordered(q, top + 1) && Ordered(q + [e], top + 1)
  {}

  lemma OrderedDrop(q: seq<Entry>, top: nat, i: nat)
    requires Ordered(q, top) && i < |q|
    ensures Ordered(Drop(q, i), top)
  {
    var d := Drop(q, i);
    assert forall j | 0 <= j < |d| :: d[j] == if j < i then q[j] else q[j + 1];
  }

  lemma ReleaseKeeps(b: Box, held: nat)
    requires SlotInv(b, held) && held > 0
    ensures SlotInv(Release(b), held - 1)
    ensures Requests(Release(b).waiters) == Requests(b.waiters)
  {
    if Ungranted(b.waiters) > 0 { GrantedOne(b.waiters); }
  }

  /** Waking moves free slots to waiting tasks and changes nothing else. */
  lemma {:induction false} WakeAllMeaning(b: Box)
    ensures var c := WakeAll(b);
      && c == b.(free := c.free, waiters := c.waiters)
      && c.free + Granted(c.waiters) == b.free + Granted(b.waiters)
      && Requests(c.waiters) == Requests(b.waiters)
      && (c.free == 0 || Ungranted(c.waiters) == 0)
    decreases Ungranted(b.waiters)
  {
    if b.free > 0 && Ungranted(b.waiters) > 0 {
      GrantedOne(b.waiters);
      WakeAllMeaning(Wake(b));
    }
  }

  lemma {:induction false} RemoveMeaning(ws: seq<Waiter>, r: string)
    requires Distinct(Requests(ws)) && r in Requests(ws)
    ensures Granted(Remove(ws, r)) == Granted(ws) - if IsGranted(ws, r) then 1 else 0
    ensures Distinct(Requests(Remove(ws, r)))
    ensures forall x :: x in Requests(Remove(ws, r)) <==> x in Requests(ws) && x != r
  {
    assert Requests(ws)[1..] == Requests(ws[1..]);
    if ws[0].request == r {
      NotGranted(ws[1..], r);
    } else {
      RemoveMeaning(ws[1..], r);
      var t := [ws[0]] + Remove(ws[1..], r);
      assert t[1..] == Remove(ws[1..], r);
      assert Requests(t)[1..] == Requests(Remove(ws[1..], r));
    }
  }

  lemma {:induction false} NotGranted(ws: seq<Waiter>, r: string)
    requires r !in Requests(ws)
    ensures !IsGranted(ws, r)
  {
    if ws != [] { NotGranted(ws[1..], r); }
  }

  /** Resuming turns a granted slot into a held one. */
  lemma LeaveKeeps(b: Box, r: string)
    requires SlotInv(b, 0) && r in Requests(b.waiters) && IsGranted(b.waiters, r)
    ensures SlotInv(Leave(b, r), 1)
    ensures Leave(b, r) == b.(free := Leave(b, r).free, waiters := Leave(b, r).waiters)
    ensures forall x :: x in Requests(Leave(b, r).waiters) <==> x in Requests(b.waiters) && x != r
  {
    RemoveMeaning(b.waiters, r);
    WakeAllMeaning(b.(waiters := Remove(b.waiters, r)));
  }

  lemma AbandonKeeps(b: Box, r: string)
    requires SlotInv(b, 0) && r in Requests(b.waiters)
    ensures SlotInv(Abandon(b, r), 0)
    ensures Abandon(b, r) == b.(free := Abandon(b, r).free, waiters := Abandon(b, r).waiters)
    ensures forall x :: x in Requests(Abandon(b, r).waiters) <==> x in Requests(b.waiters) && x != r
  {
    RemoveMeaning(b.waiters, r);
    WakeAllMeaning(b.(free := if IsGranted(b.waiters, r) then b.free + 1 else b.free, waiters := Remove(b.waiters, r)));
  }

  lemma {:induction false} LeastMeaning(q: seq<Entry>)
    requires q != [] && forall i, j | 0 <= i < j < |q| :: q[i].sequence < q[j].sequence
    ensures forall j | 0 <= j < |q| && j != Least(q) :: Precedes(q[Least(q)], q[j])
  {
    if |q| > 1 {
      LeastMeaning(q[..|q| - 1]);
    }
  }

  /** Taking an entry out leaves its reply slot, if it has one, to be released. */
  lemma DropKeeps(b: Box, i: nat)
    requires SlotInv(b, 0) && QueueInv(b) && i < |b.queue|
    ensures
      var rest := b.(queue := Drop(b.queue, i));
      QueueInv(rest) && SlotInv(rest, if b.queue[i].replySlot then 1 else 0)
  {
    RepliesDrop(b.queue, i);
    OrderedDrop(b.queue, b.sequence, i);
  }

  lemma DequeueKeeps(b: Box)
    requires SlotInv(b, 0) && QueueInv(b) && b.queue != []
    ensures SlotInv(Dequeue(b), 0) && QueueInv(Dequeue(b))
    ensures Dequeue(b) ==
      b.(queue := Drop(b.queue, Least(b.queue)), free := Dequeue(b).free, waiters := Dequeue(b).waiters)
    ensures Requests(Dequeue(b).waiters) == Requests(b.waiters)
  {
    var i := Least(b.queue);
    var rest := b.(queue := Drop(b.queue, i));
    DropKeeps(b, i);
    if b.queue[i].replySlot { ReleaseKeeps(rest, 1); }
  }

  // ---- Frames of one reply -----------------------------------------------

  function Of(r: string, fs: seq<Frame>): seq<Frame> {
    if fs == [] then []
    else if IsReply(fs[|fs| - 1]) && fs[|fs| - 1].request == r then Of(r, fs[..|fs| - 1]) + [fs[|fs| - 1]]
    else Of(r, fs[..|fs| - 1])
  }

  function Frames(q: seq<Entry>): seq<Frame> {
    if q == [] then [] else Frames(q[..|q| - 1]) + [q[|q| - 1].frame]
  }

  lemma OfSnoc(r: string, fs: seq<Frame>, f: Frame)
    ensures Of(r, fs + [f]) == if IsReply(f) && f.request == r then Of(r, fs) + [f] else Of(r, fs)
  {
    assert (fs + [f])[..|fs|] == fs;
  }

  lemma FramesSnoc(q: seq<Entry>, e: Entry)
    ensures Frames(q + [e]) == Frames(q) + [e.frame]
  {
    assert (q + [e])[..|q|] == q;
  }

  lemma {:induction false} OfConcat(r: string, a: seq<Frame>, b: seq<Frame>)
    ensures Of(r, a + b) == Of(r, a) + Of(r, b)
  {
    if b == [] {
      assert a + b == a;
    } else {
      assert (a + b)[..|a + b| - 1] == a + b[..|b| - 1];
      OfConcat(r, a, b[..|b| - 1]);
    }
  }

  lemma {:induction false} FramesConcat(a: seq<Entry>, b: seq<Entry>)
    ensures Frames(a + b) == Frames(a) + Frames(b)
  {
    if b == [] {
      assert a + b == a;
    } else {
      assert (a + b)[..|a + b| - 1] == a + b[..|b| - 1];
      FramesConcat(a, b[..|b| - 1]);
    }
  }

  predicate IsOf(r: string, e: Entry) { IsReply(e.frame) && e.frame.request == r }

  lemma OfDropFirst(r: string, q: seq<Entry>)
    requires q != [] && IsOf(r, q[0])
    ensures Of(r, Frames(q)) == [q[0].frame] + Of(r, Frames(Drop(q, 0)))
  {
    assert q == [q[0]] + Drop(q, 0) && [] + [q[0]] == [q[0]] && [] + [q[0].frame] == [q[0].frame];
    FramesConcat([q[0]], Drop(q, 0));
    FramesSnoc([], q[0]);
    OfSnoc(r, [], q[0].frame);
    OfConcat(r, [q[0].frame], Frames(Drop(q, 0)));
  }

  lemma DropSnoc(q: seq<Entry>, e: Entry, i: nat)
    requires i < |q|
    ensures Drop(q + [e], i) == Drop(q, i) + [e]
  {}

  lemma {:induction false} OfDropOther(r: string, q: seq<Entry>, i: nat)
    requires i < |q| && !IsOf(r, q[i])
    ensures Of(r, Frames(Drop(q, i))) == Of(r, Frames(q))
  {
    var last := |q| - 1;
    var front := q[..last];
    FramesSnoc(front, q[last]);
    assert q == front + [q[last]];
    OfSnoc(r, Frames(front), q[last].frame);
    if i == last {
      assert Drop(q, i) == front;
    } else {
      OfDropOther(r, front, i);
      DropSnoc(front, q[last], i);
      FramesSnoc(Drop(front, i), q[last]);
      OfSnoc(r, Frames(Drop(front, i)), q[last].frame);
    }
  }

  /** The reply frames handed to `send` are a prefix of those emitted; while the permit is
      current nothing is missing but what is still queued. */
  ghost predicate InOrder(b: Box, r: string, revoked: bool) {
    && Of(r, b.sent) <= Of(r, b.emitted)
    && (!revoked ==> Of(r, b.emitted) == Of(r, b.sent) + Of(r, Frames(b.queue)))
  }

  /** What emitting a frame adds to those of one reply, emitted and queued. */
  lemma EmitAdds(b: Box, r: string, urgent: bool, permit: Option<string>, frame: Frame, slot: bool)
    requires TryEmit(b).Queued?
    ensures
      var c, more := Emit(b, urgent, permit, frame, slot), if IsReply(frame) && frame.request == r then [frame] else [];
      && c.sent == b.sent && Of(r, c.emitted) == Of(r, b.emitted) + more
      && Of(r, Frames(c.queue)) == Of(r, Frames(b.queue)) + more
  {
    OfSnoc(r, b.emitted, frame);
    FramesSnoc(b.queue, Entry(urgent, b.sequence + 1, permit, frame, slot));
    OfSnoc(r, Frames(b.queue), frame);
  }

  lemma EmitInOrder(b: Box, r: string, revoked: bool, urgent: bool, permit: Option<string>, frame: Frame, slot: bool)
    requires InOrder(b, r, revoked)
    ensures InOrder(Emit(b, urgent, permit, frame, slot), r, revoked)
  {
    if TryEmit(b).Queued? {
      var more := if IsReply(frame) && frame.request == r then [frame] else [];
      EmitAdds(b, r, urgent, permit, frame, slot);
      Assoc(Of(r, b.sent), Of(r, Frames(b.queue)), more);
      assert Of(r, b.sent) <= Of(r, b.emitted) + more;
    }
  }

  /** Whatever urgent frames overtake it, the writer takes each reply's frames in order. */
  lemma WriteInOrder(b: Box, r: string, revoked: set<string>)
    requires QueueInv(b) && b.queue != [] && SlotInv(b, 0)
    requires InOrder(b, r, r in revoked)
    ensures InOrder(Deliver(Dequeue(b), b.queue[Least(b.queue)], revoked), r, r in revoked)
  {
    var i := Least(b.queue);
    var e := b.queue[i];
    var c := Deliver(Dequeue(b), e, revoked);
    DequeueKeeps(b);
    assert WellTagged(e);
    assert c.queue == Drop(b.queue, i) && c.emitted == b.emitted;
    OfSnoc(r, b.sent, e.frame);
    if IsOf(r, e) {
      ReplyLeavesFirst(b);
      OfDropFirst(r, b.queue);
      if r !in revoked { Regroup(Of(r, b.sent), e.frame, Of(r, Frames(c.queue))); }
    } else {
      OfDropOther(r, b.queue, i);
    }
  }

  lemma Regroup(sent: seq<Frame>, f: Frame, rest: seq<Frame>)
    ensures sent + ([f] + rest) == (sent + [f]) + rest
    ensures sent + [f] <= sent + ([f] + rest)
  {}

  /** A reply frame is dequeued only once no urgent frame and no older frame is queued. */
  lemma ReplyLeavesFirst(b: Box)
    requires QueueInv(b) && b.queue != [] && !b.queue[Least(b.queue)].urgent
    ensures Least(b.queue) == 0
  {
    LeastMeaning(b.queue);
    var i := Least(b.queue);
    assert i != 0 ==> Precedes(b.queue[i], b.queue[0]);
  }
}
