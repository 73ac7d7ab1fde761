/**
 The in-process hub (src/multiplayer/realtime/hub.py): subscriptions, their room index and bounded queues.
 No method waits between taking the hub's lock and finishing its deliveries, so each is one step.
 */
module Hub {
  import opened Prelude

  const MAX_QUEUE := 256

  datatype Message =
    | RoomEvent(roomId: string, sequence: int)
    | UserEvent(kind: string)
    | AccessRevoked(roomId: string)
    | Resync

  /** The messages on which the socket's send loop closes. */
  predicate Marker(m: Message) {
    m.AccessRevoked? || m.Resync?
  }

  // ---- One queue

  /** A queue's items, and its history: all that was offered to it and all its reader took. */
  datatype Queue = Queue(items: seq<Message>, taken: seq<Message>, offered: seq<Message>)

  const FRESH := Queue([], [], [])

  predicate Full(q: Queue) {
    |q.items| >= MAX_QUEUE
  }

  /** _handle_queue_overflow: the oldest entry makes room for a resync marker. */
  function Overflowed(items: seq<Message>): seq<Message> {
    (if items == [] then [] else items[1..]) + [Resync]
  }

  /** put_nowait, or overflow when the queue is full. */
  function Offer(q: Queue, m: Message): Queue {
    Queue(if Full(q) then Overflowed(q.items) else q.items + [m], q.taken, q.offered + [m])
  }

  /** The reader's queue.get. */
  function Take(q: Queue): Queue
    requires q.items != []
  {
    Queue(q.items[1..], q.taken + [q.items[0]], q.offered)
  }

  /** The queue holds a marker, or its reader has already met one. */
  predicate Marked(q: Queue) {
    (exists m <- q.items :: Marker(m)) || (exists m <- q.taken :: Marker(m))
  }

  /** Bounded, and unless it is marked nothing offered was lost, repeated or reordered. */
  predicate Sound(q: Queue) {
    |q.items| <= MAX_QUEUE && (Marked(q) || q.taken + q.items == q.offered)
  }

  lemma OfferMarks(q: Queue, m: Message)
    ensures Marked(q) || Marker(m) || Full(q) ==> Marked(Offer(q, m))
  {
    var after := Offer(q, m);
    assert after.items[|after.items| - 1] in after.items;
    if !Full(q) {
      assert forall x <- q.items :: x in after.items;
    }
  }

  lemma OfferKeepsSound(q: Queue, m: Message)
    requires Sound(q)
    ensures Sound(Offer(q, m))
  {
    OfferMarks(q, m);
    if !Full(q) {
      assert q.taken + Offer(q, m).items == (q.taken + q.items) + [m];
    }
  }

  lemma TakeKeepsSound(q: Queue)
    requires Sound(q) && q.items != []
    ensures Sound(Take(q)) && (Marked(q) <==> Marked(Take(q)))
  {
    var after := Take(q);
    assert q.items == [q.items[0]] + after.items;
    assert after.taken + after.items == q.taken + q.items;
    forall m | m in q.items ensures m in after.items || m in after.taken {
    }
    assert forall m <- after.taken :: m in q.taken || m == q.items[0];
  }

  // ---- The hub's tables

  datatype Subscription = Subscription(roomId: string, userId: string, queueId: string)

  /** revoked is history: the queues of subscriptions whose access was revoked. */
  datatype State = State(subscriptions: map<string, Subscription>, rooms: map<string, set<string>>,
                         queues: map<string, Queue>, revoked: set<string>)

  function InRoom(rooms: map<string, set<string>>, roomId: string): set<string> {
    if roomId in rooms then rooms[roomId] else {}
  }

  const EMPTY := State(map[], map[], map[], {})

  /** subscribe: a new id, on the caller's queue or on a new one. */
  function Subscribe(s: State, id: string, roomId: string, userId: string, shared: Option<string>, newQueue: string): State {
    var queueId := shared.GetOr(newQueue);
    s.(subscriptions := s.subscriptions[id := Subscription(roomId, userId, queueId)],
       rooms := s.rooms[roomId := InRoom(s.rooms, roomId) + {id}],
       queues := if shared.Some? then s.queues else s.queues[newQueue := FRESH])
  }

  /** unsubscribe, and the first half of a revocation. */
  function Drop(s: State, id: string): State {
    if id !in s.subscriptions then s
    else
      var roomId := s.subscriptions[id].roomId;
      s.(subscriptions := s.subscriptions - {id}, rooms := s.rooms[roomId := InRoom(s.rooms, roomId) - {id}])
  }

  function OfferTo(s: State, queueId: string, m: Message): State {
    if queueId !in s.queues then s else s.(queues := s.queues[queueId := Offer(s.queues[queueId], m)])
  }

  /** Offer one message to these subscriptions' queues, in this order. */
  function OfferAll(s: State, ids: seq<string>, m: Message): State {
    if ids == [] then s
    else
      var before := OfferAll(s, ids[..|ids| - 1], m);
      var id := ids[|ids| - 1];
      if id !in s.subscriptions then before else OfferTo(before, s.subscriptions[id].queueId, m)
  }

  /** The ids among these whose queue had room when its turn came. */
  function Delivered(s: State, ids: seq<string>, m: Message): seq<string> {
    if ids == [] then []
    else
      var before := OfferAll(s, ids[..|ids| - 1], m);
      var id := ids[|ids| - 1];
      Delivered(s, ids[..|ids| - 1], m)
      + if id in s.subscriptions && s.subscriptions[id].queueId in before.queues
           && !Full(before.queues[s.subscriptions[id].queueId])
        then [id] else []
  }

  function DropAll(s: State, ids: seq<string>): State {
    if ids == [] then s else Drop(DropAll(s, ids[..|ids| - 1]), ids[|ids| - 1])
  }

  /** The queues of these subscriptions. */
  function QueuesOf(s: State, ids: seq<string>): seq<string> {
    seq(|ids|, i requires 0 <= i < |ids| => if ids[i] in s.subscriptions then s.subscriptions[ids[i]].queueId else "")
  }

  /** A marker for each revoked subscription's queue, or a resync where it does not fit. */
  function MarkAll(s: State, queueIds: seq<string>, roomId: string): State {
    if queueIds == [] then s
    else
      var before := MarkAll(s, queueIds[..|queueIds| - 1], roomId);
      var q := queueIds[|queueIds| - 1];
      OfferTo(before, q, AccessRevoked(roomId)).(revoked := before.revoked + {q})
  }

  /** ids lists a set once each, in whatever order Python iterates it. */
  ghost predicate Enumerates(ids: seq<string>, all: set<string>) {
    && (forall i, j :: 0 <= i < j < |ids| ==> ids[i] != ids[j])
    && (forall id :: id in ids <==> id in all)
  }

  function HeldBy(s: State, userId: string): set<string> {
    set id | id in s.subscriptions && s.subscriptions[id].userId == userId
  }

  function HeldInRoom(s: State, userId: string, roomId: string): set<string> {
    set id | id in s.subscriptions && s.subscriptions[id].userId == userId && s.subscriptions[id].roomId == roomId
  }

  datatype Action =
    | Join(id: string, roomId: string, userId: string, shared: Option<string>, newQueue: string)
    | Leave(id: string)
    | Revoke(userId: string, roomId: string, ids: seq<string>)
    | Broadcast(roomId: string, message: Message, ids: seq<string>)
    | SendTo(userId: string, message: Message, ids: seq<string>)
    | Read(queueId: string)

  /**
   new_id never repeats, a shared queue is one the caller holds, a delivered message is not a marker of the
   hub's own, and iteration lists each subscription once.
   */
  ghost predicate Permitted(s: State, a: Action) {
    match a
    case Join(id, _, _, shared, newQueue) =>
      && id !in s.subscriptions
      && if shared.Some? then shared.value in s.queues else newQueue !in s.queues
    case Leave(_) => true
    case Revoke(userId, roomId, ids) => Enumerates(ids, HeldInRoom(s, userId, roomId))
    case Broadcast(roomId, m, ids) => !Marker(m) && Enumerates(ids, InRoom(s.rooms, roomId))
    case SendTo(userId, m, ids) => !Marker(m) && Enumerates(ids, HeldBy(s, userId))
    case Read(queueId) => queueId in s.queues && s.queues[queueId].items != []
  }

  function After(s: State, a: Action): State {
    match a
    case Join(id, roomId, userId, shared, newQueue) => Subscribe(s, id, roomId, userId, shared, newQueue)
    case Leave(id) => Drop(s, id)
    case Revoke(_, roomId, ids) => MarkAll(DropAll(s, ids), QueuesOf(s, ids), roomId)
    case Broadcast(_, m, ids) => OfferAll(s, ids, m)
    case SendTo(_, m, ids) => OfferAll(s, ids, m)
    case Read(queueId) =>
      if queueId in s.queues && s.queues[queueId].items != []
      then s.(queues := s.queues[queueId := Take(s.queues[queueId])])
      else s
  }

  function Run(actions: seq<Action>): State {
    if actions == [] then EMPTY else After(Run(actions[..|actions| - 1]), actions[|actions| - 1])
  }

  ghost predicate Lawful(actions: seq<Action>) {
    actions == [] || (Lawful(actions[..|actions| - 1]) && Permitted(Run(actions[..|actions| - 1]), actions[|actions| - 1]))
  }

  // ---- The invariant

  /** The room index and the subscription map agree. */
  ghost predicate Indexed(subscriptions: map<string, Subscription>, rooms: map<string, set<string>>) {
    forall roomId: string, id: string ::
      id in InRoom(rooms, roomId) <==> id in subscriptions && subscriptions[id].roomId == roomId
  }

  ghost predicate QueuesSound(s: State) {
    && (forall id <- s.subscriptions :: s.subscriptions[id].queueId in s.queues)
    && (forall q <- s.queues :: Sound(s.queues[q]))
    && (forall q <- s.revoked :: q in s.queues && Marked(s.queues[q]))
  }

  ghost predicate Inv(s: State) {
    Indexed(s.subscriptions, s.rooms) && QueuesSound(s)
  }

  lemma DropKeeps(s: State, id: string)
    requires Inv(s)
    ensures Inv(Drop(s, id)) && Drop(s, id).queues == s.queues && Drop(s, id).revoked == s.revoked
  {
    var u := Drop(s, id);
    forall roomId: string, other: string
      ensures other in InRoom(u.rooms, roomId) <==> other in u.subscriptions && u.subscriptions[other].roomId == roomId
    {
      assert other in InRoom(s.rooms, roomId) <==> other in s.subscriptions && s.subscriptions[other].roomId == roomId;
    }
  }

  lemma {:induction false} DropAllKeeps(s: State, ids: seq<string>)
    requires Inv(s)
    ensures Inv(DropAll(s, ids)) && DropAll(s, ids).queues == s.queues && DropAll(s, ids).revoked == s.revoked
    ensures forall id :: id in DropAll(s, ids).subscriptions <==> id in s.subscriptions && id !in ids
  {
    if ids != [] {
      DropAllKeeps(s, ids[..|ids| - 1]);
      DropKeeps(DropAll(s, ids[..|ids| - 1]), ids[|ids| - 1]);
      assert ids == ids[..|ids| - 1] + [ids[|ids| - 1]];
    }
  }

  lemma OfferToKeeps(s: State, q: string, m: Message)
    requires QueuesSound(s)
    ensures QueuesSound(OfferTo(s, q, m))
    ensures q in s.queues && Marker(m) ==> Marked(OfferTo(s, q, m).queues[q])
  {
    if q in s.queues {
      OfferKeepsSound(s.queues[q], m);
      OfferMarks(s.queues[q], m);
    }
  }

  lemma {:induction false} OfferAllKeeps(s: State, ids: seq<string>, m: Message)
    requires QueuesSound(s)
    ensures QueuesSound(OfferAll(s, ids, m))
    ensures OfferAll(s, ids, m) == s.(queues := OfferAll(s, ids, m).queues)
  {
    if ids != [] {
      OfferAllKeeps(s, ids[..|ids| - 1], m);
      var id := ids[|ids| - 1];
      if id in s.subscriptions {
        OfferToKeeps(OfferAll(s, ids[..|ids| - 1], m), s.subscriptions[id].queueId, m);
      }
    }
  }

  lemma {:induction false} MarkAllKeeps(s: State, queueIds: seq<string>, roomId: string)
    requires QueuesSound(s) && forall q <- queueIds :: q in s.queues
    ensures QueuesSound(MarkAll(s, queueIds, roomId))
    ensures MarkAll(s, queueIds, roomId)
            == s.(queues := MarkAll(s, queueIds, roomId).queues, revoked := MarkAll(s, queueIds, roomId).revoked)
    ensures MarkAll(s, queueIds, roomId).queues.Keys == s.queues.Keys
    ensures forall q :: q in MarkAll(s, queueIds, roomId).revoked <==> q in s.revoked || q in queueIds
  {
    if queueIds != [] {
      MarkAllKeeps(s, queueIds[..|queueIds| - 1], roomId);
      var before := MarkAll(s, queueIds[..|queueIds| - 1], roomId);
      var q := queueIds[|queueIds| - 1];
      assert queueIds == queueIds[..|queueIds| - 1] + [q];
      OfferToKeeps(before, q, AccessRevoked(roomId));
    }
  }

  lemma HeldQueuesExist(s: State, userId: string, roomId: string, ids: seq<string>)
    requires QueuesSound(s) && Enumerates(ids, HeldInRoom(s, userId, roomId))
    ensures forall q <- QueuesOf(s, ids) :: q in s.queues
    ensures forall id <- HeldInRoom(s, userId, roomId) :: s.subscriptions[id].queueId in QueuesOf(s, ids)
  {
    var held := QueuesOf(s, ids);
    forall q | q in held ensures q in s.queues {
      var i :| 0 <= i < |held| && held[i] == q;
      assert ids[i] in ids;
    }
    forall id | id in HeldInRoom(s, userId, roomId) ensures s.subscriptions[id].queueId in held {
      assert id in ids;
      var i :| 0 <= i < |ids| && ids[i] == id;
      assert held[i] in held;
    }
  }

  lemma RevokeKeeps(s: State, userId: string, roomId: string, ids: seq<string>)
    requires Inv(s) && Enumerates(ids, HeldInRoom(s, userId, roomId))
    ensures var u := After(s, Revoke(userId, roomId, ids));
            && Inv(u)
            && u.subscriptions == DropAll(s, ids).subscriptions
            && (forall q <- QueuesOf(s, ids) :: q in u.revoked)
  {
    DropAllKeeps(s, ids);
    HeldQueuesExist(s, userId, roomId, ids);
    MarkAllKeeps(DropAll(s, ids), QueuesOf(s, ids), roomId);
  }

  /** After a revocation the user holds nothing in the room, and every queue it held there is marked. */
  lemma RevokeCloses(s: State, userId: string, roomId: string, ids: seq<string>)
    requires Inv(s) && Permitted(s, Revoke(userId, roomId, ids))
    ensures var u := After(s, Revoke(userId, roomId, ids));
            && HeldInRoom(u, userId, roomId) == {}
            && forall id <- HeldInRoom(s, userId, roomId) ::
                 s.subscriptions[id].queueId in u.queues && Marked(u.queues[s.subscriptions[id].queueId])
  {
    RevokeKeeps(s, userId, roomId, ids);
    HeldQueuesExist(s, userId, roomId, ids);
    DropAllKeeps(s, ids);
    DropAllOnlyDrops(s, ids);
    var u := After(s, Revoke(userId, roomId, ids));
    forall id ensures id !in HeldInRoom(u, userId, roomId) {
      assert id in HeldInRoom(s, userId, roomId) <==> id in ids;
      assert id in u.subscriptions ==> id in s.subscriptions && u.subscriptions[id] == s.subscriptions[id] && id !in ids;
    }
  }

  lemma {:induction false} DropAllOnlyDrops(s: State, ids: seq<string>)
    ensures forall id <- DropAll(s, ids).subscriptions ::
              id in s.subscriptions && DropAll(s, ids).subscriptions[id] == s.subscriptions[id]
  {
    if ids != [] {
      DropAllOnlyDrops(s, ids[..|ids| - 1]);
    }
  }

  lemma SubscribeKeeps(s: State, id: string, roomId: string, userId: string, shared: Option<string>, newQueue: string)
    requires Inv(s) && id !in s.subscriptions
    requires if shared.Some? then shared.value in s.queues else newQueue !in s.queues
    ensures Inv(Subscribe(s, id, roomId, userId, shared, newQueue))
  {
    var u := Subscribe(s, id, roomId, userId, shared, newQueue);
    forall room: string, other: string
      ensures other in InRoom(u.rooms, room) <==> other in u.subscriptions && u.subscriptions[other].roomId == room
    {
      assert other in InRoom(s.rooms, room) <==> other in s.subscriptions && s.subscriptions[other].roomId == room;
    }
  }

  lemma StepKeeps(s: State, a: Action)
    requires Inv(s) && Permitted(s, a)
    ensures Inv(After(s, a))
  {
    match a
    case Join(id, roomId, userId, shared, newQueue) => SubscribeKeeps(s, id, roomId, userId, shared, newQueue);
    case Leave(id) => DropKeeps(s, id);
    case Revoke(userId, roomId, ids) => RevokeKeeps(s, userId, roomId, ids);
    case Broadcast(_, m, ids) => OfferAllKeeps(s, ids, m);
    case SendTo(_, m, ids) => OfferAllKeeps(s, ids, m);
    case Read(queueId) => TakeKeepsSound(s.queues[queueId]);
  }

  lemma {:induction false} EveryRunKeeps(actions: seq<Action>)
    requires Lawful(actions)
    ensures Inv(Run(actions))
  {
    if actions != [] {
      EveryRunKeeps(actions[..|actions| - 1]);
      StepKeeps(Run(actions[..|actions| - 1]), actions[|actions| - 1]);
    }
  }

  // ---- No silent loss

  /**
   In every reachable state a queue holds, or its reader has met, a marker; or everything ever offered to it,
   and nothing else, was taken or waits, in order. A queue whose subscription was revoked is marked.
   */
  lemma NoSilentLoss(actions: seq<Action>, queueId: string)
    requires Lawful(actions) && queueId in Run(actions).queues
    ensures var q := Run(actions).queues[queueId];
            && |q.items| <= MAX_QUEUE
            && (!Marked(q) ==> q.taken + q.items == q.offered && queueId !in Run(actions).revoked)
  {
    EveryRunKeeps(actions);
  }

  /** How many of these subscriptions drain into one queue. */
  function Sharing(s: State, ids: seq<string>, queueId: string): nat {
    if ids == [] then 0
    else
      var id := ids[|ids| - 1];
      Sharing(s, ids[..|ids| - 1], queueId)
      + if id in s.subscriptions && s.subscriptions[id].queueId == queueId then 1 else 0
  }

  function Copies(m: Message, n: nat): seq<Message> {
    seq(n, _ => m)
  }

  lemma {:induction false} OfferedExactly(s: State, ids: seq<string>, m: Message, queueId: string)
    requires queueId in s.queues
    ensures var u := OfferAll(s, ids, m);
            && queueId in u.queues
            && u.queues[queueId].taken == s.queues[queueId].taken
            && u.queues[queueId].offered == s.queues[queueId].offered + Copies(m, Sharing(s, ids, queueId))
            && (Sharing(s, ids, queueId) == 0 ==> u.queues[queueId] == s.queues[queueId])
  {
    if ids != [] {
      OfferedExactly(s, ids[..|ids| - 1], m, queueId);
      var n := Sharing(s, ids[..|ids| - 1], queueId);
      assert Copies(m, n + 1) == Copies(m, n) + [m];
    }
  }

  lemma {:induction false} SharingOf(s: State, ids: seq<string>, queueId: string, id: string)
    requires forall i, j :: 0 <= i < j < |ids| ==> ids[i] != ids[j]
    requires id in s.subscriptions && s.subscriptions[id].queueId == queueId
    requires forall other <- ids :: other in s.subscriptions && s.subscriptions[other].queueId == queueId ==> other == id
    ensures Sharing(s, ids, queueId) == if id in ids then 1 else 0
  {
    if ids != [] {
      var n := |ids| - 1;
      assert ids == ids[..n] + [ids[n]];
      SharingOf(s, ids[..n], queueId, id);
    }
  }

  /** A subscription of this room draining into this queue. */
  predicate Drains(s: State, id: string, queueId: string, roomId: string) {
    id in s.subscriptions && s.subscriptions[id].queueId == queueId && s.subscriptions[id].roomId == roomId
  }

  ghost predicate OnlyDrain(s: State, id: string, queueId: string, roomId: string) {
    Drains(s, id, queueId, roomId) && forall other :: Drains(s, other, queueId, roomId) ==> other == id
  }

  ghost predicate NoDrain(s: State, queueId: string, roomId: string) {
    forall id :: !Drains(s, id, queueId, roomId)
  }

  lemma Alone(s: State, roomId: string, ids: seq<string>, queueId: string, id: string)
    requires Indexed(s.subscriptions, s.rooms) && Enumerates(ids, InRoom(s.rooms, roomId))
    requires OnlyDrain(s, id, queueId, roomId)
    ensures Sharing(s, ids, queueId) == 1
  {
    assert id in InRoom(s.rooms, roomId);
    forall other | other in ids && other in s.subscriptions && s.subscriptions[other].queueId == queueId
      ensures other == id
    {
      assert other in InRoom(s.rooms, roomId);
      assert Drains(s, other, queueId, roomId);
    }
    SharingOf(s, ids, queueId, id);
  }

  lemma Absent(s: State, roomId: string, ids: seq<string>, queueId: string)
    requires Indexed(s.subscriptions, s.rooms) && Enumerates(ids, InRoom(s.rooms, roomId))
    requires NoDrain(s, queueId, roomId)
    ensures Sharing(s, ids, queueId) == 0
  {
    forall id | id in ids ensures id in s.subscriptions ==> s.subscriptions[id].queueId != queueId {
      assert id in InRoom(s.rooms, roomId);
      assert !Drains(s, id, queueId, roomId);
    }
    NobodyShares(s, ids, queueId);
  }

  /**
   A broadcast is offered exactly once to the queue of a socket that holds the room once, and not at all to
   the queue of a socket that does not hold it.
   */
  lemma BroadcastReachesTheRoom(s: State, roomId: string, m: Message, ids: seq<string>, queueId: string)
    requires Inv(s) && Permitted(s, Broadcast(roomId, m, ids)) && queueId in s.queues
    ensures queueId in After(s, Broadcast(roomId, m, ids)).queues
    ensures (exists id :: OnlyDrain(s, id, queueId, roomId))
            ==> After(s, Broadcast(roomId, m, ids)).queues[queueId].offered == s.queues[queueId].offered + [m]
    ensures NoDrain(s, queueId, roomId) ==> After(s, Broadcast(roomId, m, ids)).queues[queueId] == s.queues[queueId]
  {
    OfferedExactly(s, ids, m, queueId);
    if NoDrain(s, queueId, roomId) {
      Absent(s, roomId, ids, queueId);
    } else if exists id :: OnlyDrain(s, id, queueId, roomId) {
      var id :| OnlyDrain(s, id, queueId, roomId);
      Alone(s, roomId, ids, queueId, id);
      assert Copies(m, 1) == [m];
    }
  }

  lemma {:induction false} NobodyShares(s: State, ids: seq<string>, queueId: string)
    requires forall id <- ids :: id in s.subscriptions ==> s.subscriptions[id].queueId != queueId
    ensures Sharing(s, ids, queueId) == 0
  {
    if ids != [] {
      NobodyShares(s, ids[..|ids| - 1], queueId);
    }
  }

  // ---- What each step changes

  /** The subscriptions of this room that drain into this queue. */
  function DrainsOfRoom(s: State, roomId: string, queueId: string): set<string> {
    set id | id in s.subscriptions && s.subscriptions[id].roomId == roomId && s.subscriptions[id].queueId == queueId
  }

  function DrainsOfUser(s: State, userId: string, queueId: string): set<string> {
    set id | id in s.subscriptions && s.subscriptions[id].userId == userId && s.subscriptions[id].queueId == queueId
  }

  /** Offered the message n times: all taken in at the end while they fit, and nothing touched if n is zero. */
  ghost predicate OfferedTimes(q: Queue, after: Queue, m: Message, n: nat) {
    && after.taken == q.taken && after.offered == q.offered + Copies(m, n)
    && (|q.items| + n <= 256 ==> after.items == q.items + Copies(m, n))
    && (n > 0 && |q.items| + n > 256 ==> Resync in after.items)
  }

  lemma OfferedAgain(q: Queue, after: Queue, m: Message, n: nat)
    requires OfferedTimes(q, after, m, n) && |q.items| <= 256
    ensures OfferedTimes(q, Offer(after, m), m, n + 1)
  {
    assert Copies(m, n + 1) == Copies(m, n) + [m];
    var next := Offer(after, m);
    if Full(after) {
      assert next.items[|next.items| - 1] == Resync;
      assert |q.items| + n + 1 > 256;
    } else {
      assert next.items == after.items + [m];
    }
  }

  /** A user joins a room under a new id: it drains into the queue its caller shares, or into a new empty one. */
  lemma JoinIsExact(s: State, id: string, roomId: string, userId: string, shared: Option<string>, newQueue: string)
    requires Permitted(s, Join(id, roomId, userId, shared, newQueue))
    ensures var u := After(s, Join(id, roomId, userId, shared, newQueue));
            && id in u.subscriptions && u.subscriptions - {id} == s.subscriptions
            && u.subscriptions[id].userId == userId && u.subscriptions[id].roomId == roomId
            && u.subscriptions[id].queueId == (if shared.Some? then shared.value else newQueue)
            && u.queues == (if shared.Some? then s.queues else s.queues[newQueue := Queue([], [], [])])
            && InRoom(u.rooms, roomId) == InRoom(s.rooms, roomId) + {id}
            && (forall r: string :: r != roomId ==> InRoom(u.rooms, r) == InRoom(s.rooms, r))
            && u.revoked == s.revoked
  {
    assert s.subscriptions - {id} == s.subscriptions;
  }

  /** Leaving ends this subscription and no other; the queues are as they were. */
  lemma LeaveIsExact(s: State, id: string)
    requires Inv(s)
    ensures var u := After(s, Leave(id));
            && u.subscriptions == s.subscriptions - {id} && u.queues == s.queues && u.revoked == s.revoked
            && forall r: string :: InRoom(u.rooms, r) == InRoom(s.rooms, r) - {id}
  {
    forall r: string ensures InRoom(After(s, Leave(id)).rooms, r) == InRoom(s.rooms, r) - {id} {
      assert id in InRoom(s.rooms, r) <==> id in s.subscriptions && s.subscriptions[id].roomId == r;
    }
  }

  /** The reader gets the oldest entry of a queue that has one, and that entry is gone from it; nothing else changes. */
  lemma ReadIsExact(s: State, queueId: string)
    requires queueId in s.queues
    ensures var u, q := After(s, Read(queueId)), s.queues[queueId];
            if q.items == [] then u == s
            else
              && u == s.(queues := u.queues) && u.queues.Keys == s.queues.Keys
              && (forall other <- s.queues :: other != queueId ==> u.queues[other] == s.queues[other])
              && [q.items[0]] + u.queues[queueId].items == q.items
              && u.queues[queueId].taken == q.taken + [q.items[0]] && u.queues[queueId].offered == q.offered
  {
    var q := s.queues[queueId];
    assert q.items != [] ==> [q.items[0]] + q.items[1..] == q.items;
  }

  lemma DropAllSubscriptions(s: State, ids: seq<string>, id: string)
    requires Inv(s)
    ensures id in DropAll(s, ids).subscriptions <==> id in s.subscriptions && id !in ids
    ensures id in DropAll(s, ids).subscriptions ==> DropAll(s, ids).subscriptions[id] == s.subscriptions[id]
  {
    DropAllKeeps(s, ids);
    DropAllOnlyDrops(s, ids);
  }

  /** How many of these names are this queue's. */
  function Named(queueIds: seq<string>, queueId: string): nat {
    if queueIds == [] then 0
    else Named(queueIds[..|queueIds| - 1], queueId) + if queueIds[|queueIds| - 1] == queueId then 1 else 0
  }

  lemma {:induction false} MarkedTimes(s: State, queueIds: seq<string>, roomId: string, queueId: string)
    requires queueId in s.queues && |s.queues[queueId].items| <= 256
    ensures var u := MarkAll(s, queueIds, roomId);
            && u.queues.Keys == s.queues.Keys
            && OfferedTimes(s.queues[queueId], u.queues[queueId], AccessRevoked(roomId), Named(queueIds, queueId))
  {
    if queueIds == [] {
      assert Copies(AccessRevoked(roomId), 0) == [];
    } else {
      var n := |queueIds| - 1;
      MarkedTimes(s, queueIds[..n], roomId, queueId);
      var before := MarkAll(s, queueIds[..n], roomId);
      hide OfferedTimes;
      if queueIds[n] == queueId {
        OfferedAgain(s.queues[queueId], before.queues[queueId], AccessRevoked(roomId), Named(queueIds[..n], queueId));
      }
    }
  }

  lemma {:induction false} OfferedCounts(s: State, ids: seq<string>, m: Message, queueId: string)
    requires queueId in s.queues && |s.queues[queueId].items| <= 256
    ensures var u := OfferAll(s, ids, m);
            && u.queues.Keys == s.queues.Keys
            && OfferedTimes(s.queues[queueId], u.queues[queueId], m, Sharing(s, ids, queueId))
  {
    if ids == [] {
      assert Copies(m, 0) == [];
    } else {
      var n := |ids| - 1;
      OfferedCounts(s, ids[..n], m, queueId);
      hide OfferedTimes;
      if ids[n] in s.subscriptions && s.subscriptions[ids[n]].queueId == queueId {
        OfferedAgain(s.queues[queueId], OfferAll(s, ids[..n], m).queues[queueId], m, Sharing(s, ids[..n], queueId));
      }
    }
  }

  /** A list without repetition counts as many ids on a queue as there are. */
  lemma {:induction false} SharingCounts(s: State, ids: seq<string>, queueId: string)
    requires forall i, j :: 0 <= i < j < |ids| ==> ids[i] != ids[j]
    ensures Sharing(s, ids, queueId) == |Sharers(s, ids, queueId)|
  {
    if ids != [] {
      var n := |ids| - 1;
      SharingCounts(s, ids[..n], queueId);
      OneMoreSharer(s, ids[..n], ids[n], queueId);
      assert ids == ids[..n] + [ids[n]];
      hide Sharers;
    }
  }

  lemma OneMoreSharer(s: State, ids: seq<string>, id: string, queueId: string)
    requires id !in ids
    ensures |Sharers(s, ids + [id], queueId)| == |Sharers(s, ids, queueId)|
                                                 + if id in s.subscriptions && s.subscriptions[id].queueId == queueId then 1 else 0
  {
    var fewer, more := Sharers(s, ids, queueId), Sharers(s, ids + [id], queueId);
    assert id !in fewer;
    if id in s.subscriptions && s.subscriptions[id].queueId == queueId {
      assert more == fewer + {id};
    } else {
      assert more == fewer;
    }
  }

  function Sharers(s: State, ids: seq<string>, queueId: string): set<string> {
    set id | id in ids && id in s.subscriptions && s.subscriptions[id].queueId == queueId
  }

  /** A broadcast is offered once for each subscription of its room, to the queue that drains, and to no other. */
  lemma BroadcastIsExact(s: State, roomId: string, m: Message, ids: seq<string>, queueId: string)
    requires Inv(s) && Permitted(s, Broadcast(roomId, m, ids)) && queueId in s.queues
    ensures var u := After(s, Broadcast(roomId, m, ids));
            && u == s.(queues := u.queues) && u.queues.Keys == s.queues.Keys
            && OfferedTimes(s.queues[queueId], u.queues[queueId], m, |DrainsOfRoom(s, roomId, queueId)|)
  {
    RoomIsShared(s, roomId, m, ids, queueId);
    assert |s.queues[queueId].items| <= 256;
    OfferAllKeeps(s, ids, m);
    hide Sound, QueuesSound, Indexed, Sharers, DrainsOfRoom, OfferedTimes;
    OfferedCounts(s, ids, m, queueId);
    SharingCounts(s, ids, queueId);
  }

  lemma RoomIsShared(s: State, roomId: string, m: Message, ids: seq<string>, queueId: string)
    requires Inv(s) && Permitted(s, Broadcast(roomId, m, ids))
    ensures Sharers(s, ids, queueId) == DrainsOfRoom(s, roomId, queueId)
  {
    assert forall id :: id in ids <==> id in s.subscriptions && s.subscriptions[id].roomId == roomId;
    hide QueuesSound;
  }

  lemma {:induction false} ItemsAfter(s: State, ids: seq<string>, m: Message, queueId: string)
    requires queueId in s.queues && |s.queues[queueId].items| <= 256
    ensures queueId in OfferAll(s, ids, m).queues
    ensures var n := |s.queues[queueId].items| + Sharing(s, ids, queueId);
            |OfferAll(s, ids, m).queues[queueId].items| == if n <= 256 then n else 256
  {
    if ids != [] {
      ItemsAfter(s, ids[..|ids| - 1], m, queueId);
    }
  }

  lemma {:induction false} DeliveredAreAmong(s: State, ids: seq<string>, m: Message)
    ensures forall id <- Delivered(s, ids, m) :: id in ids
  {
    if ids != [] {
      var n := |ids| - 1;
      assert ids == ids[..n] + [ids[n]];
      DeliveredAreAmong(s, ids[..n], m);
    }
  }

  /** A subscription counts as reached exactly if its queue had room left by those that drain into it before. */
  lemma {:induction false} DeliveredIff(s: State, ids: seq<string>, m: Message, i: nat)
    requires forall k, l :: 0 <= k < l < |ids| ==> ids[k] != ids[l]
    requires i < |ids| && ids[i] in s.subscriptions
    requires var q := s.subscriptions[ids[i]].queueId; q in s.queues && |s.queues[q].items| <= 256
    ensures var q := s.subscriptions[ids[i]].queueId;
            ids[i] in Delivered(s, ids, m) <==> |s.queues[q].items| + Sharing(s, ids[..i], q) < 256
  {
    var n, q := |ids| - 1, s.subscriptions[ids[i]].queueId;
    hide Sharing, OfferAll, Delivered;
    LastDelivered(s, ids, m, ids[i]);
    if i == n {
      ItemsAfter(s, ids[..n], m, q);
      DeliveredAreAmong(s, ids[..n], m);
      assert ids[n] !in ids[..n];
    } else {
      DeliveredIff(s, ids[..n], m, i);
      assert ids[..n][i] == ids[i] && ids[..n][..i] == ids[..i];
    }
  }

  lemma LastDelivered(s: State, ids: seq<string>, m: Message, id: string)
    requires ids != []
    ensures var n := |ids| - 1;
            var before := OfferAll(s, ids[..n], m);
            id in Delivered(s, ids, m)
            <==> || id in Delivered(s, ids[..n], m)
                 || (id == ids[n] && id in s.subscriptions && s.subscriptions[id].queueId in before.queues
                     && !Full(before.queues[s.subscriptions[id].queueId]))
  {
    hide OfferAll, Full;
  }

  /** What is sent to a user is offered once for each of its subscriptions, whatever their rooms. */
  lemma SendIsExact(s: State, userId: string, m: Message, ids: seq<string>, queueId: string)
    requires Inv(s) && Permitted(s, SendTo(userId, m, ids)) && queueId in s.queues
    ensures var u := After(s, SendTo(userId, m, ids));
            && u == s.(queues := u.queues) && u.queues.Keys == s.queues.Keys
            && OfferedTimes(s.queues[queueId], u.queues[queueId], m, |DrainsOfUser(s, userId, queueId)|)
  {
    OfferAllKeeps(s, ids, m);
    OfferedCounts(s, ids, m, queueId);
    SharingCounts(s, ids, queueId);
    assert Sharers(s, ids, queueId) == DrainsOfUser(s, userId, queueId) by {
      assert forall id :: id in ids <==> id in s.subscriptions && s.subscriptions[id].userId == userId;
    }
  }

  /** The subscriptions a revocation of this user and room ends on this queue. */
  function Revoked(s: State, userId: string, roomId: string, queueId: string): set<string> {
    set id | id in s.subscriptions && s.subscriptions[id].userId == userId && s.subscriptions[id].roomId == roomId
             && s.subscriptions[id].queueId == queueId
  }

  lemma {:induction false} NamedIsSharing(s: State, ids: seq<string>, queueId: string)
    requires forall id <- ids :: id in s.subscriptions
    ensures Named(QueuesOf(s, ids), queueId) == Sharing(s, ids, queueId)
  {
    if ids != [] {
      var n := |ids| - 1;
      NamedIsSharing(s, ids[..n], queueId);
      assert QueuesOf(s, ids)[..n] == QueuesOf(s, ids[..n]);
      assert QueuesOf(s, ids)[n] == s.subscriptions[ids[n]].queueId;
    }
  }

  /** A revocation ends this user's subscriptions of this room and no others, and tells their queues and no others. */
  lemma RevokeIsExact(s: State, userId: string, roomId: string, ids: seq<string>, queueId: string)
    requires Inv(s) && Permitted(s, Revoke(userId, roomId, ids)) && queueId in s.queues
    ensures var u := After(s, Revoke(userId, roomId, ids));
            && (forall id :: id in u.subscriptions <==>
                  id in s.subscriptions && !(s.subscriptions[id].userId == userId && s.subscriptions[id].roomId == roomId))
            && (forall id <- u.subscriptions :: u.subscriptions[id] == s.subscriptions[id])
            && u.queues.Keys == s.queues.Keys
            && OfferedTimes(s.queues[queueId], u.queues[queueId], AccessRevoked(roomId), |Revoked(s, userId, roomId, queueId)|)
  {
    var dropped := DropAll(s, ids);
    assert forall id :: id in ids <==> id in s.subscriptions && s.subscriptions[id].userId == userId && s.subscriptions[id].roomId == roomId;
    RevokeKeeps(s, userId, roomId, ids);
    DropAllKeeps(s, ids);
    forall id ensures id in dropped.subscriptions <==> id in s.subscriptions && id !in ids
              ensures id in dropped.subscriptions ==> dropped.subscriptions[id] == s.subscriptions[id]
    {
      DropAllSubscriptions(s, ids, id);
    }
    MarkedTimes(dropped, QueuesOf(s, ids), roomId, queueId);
    NamedIsSharing(s, ids, queueId);
    SharingCounts(s, ids, queueId);
    assert Sharers(s, ids, queueId) == Revoked(s, userId, roomId, queueId);
  }

  /** Neither left nor revoked by this action. */
  predicate Spares(a: Action, id: string, userId: string, roomId: string) {
    a != Leave(id) && !(a.Revoke? && a.userId == userId && a.roomId == roomId)
  }

  lemma SparedStays(s: State, a: Action, id: string, userId: string, roomId: string)
    requires Inv(s) && Permitted(s, a) && Spares(a, id, userId, roomId)
    requires id in s.subscriptions && s.subscriptions[id].userId == userId && s.subscriptions[id].roomId == roomId
    ensures id in After(s, a).subscriptions && After(s, a).subscriptions[id] == s.subscriptions[id]
  {
    match a
    case Join(_, _, _, _, _) =>
    case Leave(_) =>
    case Revoke(user, room, ids) =>
      RevokeKeeps(s, user, room, ids);
      assert id !in HeldInRoom(s, user, room);
      DropAllSubscriptions(s, ids, id);
    case Broadcast(_, m, ids) => OfferAllKeeps(s, ids, m);
    case SendTo(_, m, ids) => OfferAllKeeps(s, ids, m);
    case Read(_) =>
  }

  lemma {:induction false} LawfulPrefix(actions: seq<Action>, k: nat)
    requires Lawful(actions) && k <= |actions|
    ensures Lawful(actions[..k]) && (k < |actions| ==> Permitted(Run(actions[..k]), actions[k]))
  {
    if k == |actions| {
      assert actions[..k] == actions;
    } else {
      var n := |actions| - 1;
      hide Permitted, Run;
      if k < n {
        LawfulPrefix(actions[..n], k);
        assert actions[..n][..k] == actions[..k];
      }
    }
  }

  /** In every run a user that joined and did not leave holds its subscription, on the queue it was given. */
  lemma {:induction false} JoinedHolds(actions: seq<Action>, k: nat, m: nat)
    requires Lawful(actions) && k < m <= |actions| && actions[k].Join?
    requires forall i :: k < i < m ==> Spares(actions[i], actions[k].id, actions[k].userId, actions[k].roomId)
    ensures var j, s := actions[k], Run(actions[..m]);
            && j.id in s.subscriptions && s.subscriptions[j.id].userId == j.userId && s.subscriptions[j.id].roomId == j.roomId
            && s.subscriptions[j.id].queueId == if j.shared.Some? then j.shared.value else j.newQueue
    decreases m
  {
    var j, n := actions[k], m - 1;
    LawfulPrefix(actions, n);
    assert actions[..m][..n] == actions[..n];
    assert Run(actions[..m]) == After(Run(actions[..n]), actions[n]);
    hide Run, Lawful;
    if n == k {
      JoinIsExact(Run(actions[..n]), j.id, j.roomId, j.userId, j.shared, j.newQueue);
    } else {
      JoinedHolds(actions, k, n);
      EveryRunKeeps(actions[..n]);
      SparedStays(Run(actions[..n]), actions[n], j.id, j.userId, j.roomId);
    }
  }

  lemma HeldIsRevoked(s: State, id: string, userId: string, roomId: string, ids: seq<string>)
    requires Inv(s) && Permitted(s, Revoke(userId, roomId, ids))
    requires id in s.subscriptions && s.subscriptions[id].userId == userId && s.subscriptions[id].roomId == roomId
    ensures var u, queueId := After(s, Revoke(userId, roomId, ids)), s.subscriptions[id].queueId;
            id !in u.subscriptions && queueId in u.queues && Marked(u.queues[queueId]) && queueId in u.revoked
  {
    assert id in HeldInRoom(s, userId, roomId) && id in ids;
    RevokeKeeps(s, userId, roomId, ids);
    HeldQueuesExist(s, userId, roomId, ids);
    DropAllSubscriptions(s, ids, id);
    hide Marked, Sound, Indexed, Enumerates, Permitted;
  }

  /** In every run a revocation of a user that joined the room and did not leave ends its subscription and marks its queue. */
  lemma JoinedThenRevoked(actions: seq<Action>, k: nat, m: nat)
    requires Lawful(actions) && k < m < |actions| && actions[k].Join?
    requires forall i :: k < i < m ==> Spares(actions[i], actions[k].id, actions[k].userId, actions[k].roomId)
    requires actions[m].Revoke? && actions[m].userId == actions[k].userId && actions[m].roomId == actions[k].roomId
    ensures var j, u := actions[k], Run(actions[..m + 1]);
            var queueId := if j.shared.Some? then j.shared.value else j.newQueue;
            && j.id !in u.subscriptions && queueId in u.queues && Marked(u.queues[queueId]) && queueId in u.revoked
  {
    hide Inv, Permitted, Lawful, Marked, After;
    JoinedHolds(actions, k, m);
    LawfulPrefix(actions, m);
    EveryRunKeeps(actions[..m]);
    assert actions[..m + 1][..m] == actions[..m];
    assert Run(actions[..m + 1]) == After(Run(actions[..m]), actions[m]);
    hide Run;
    HeldIsRevoked(Run(actions[..m]), actions[k].id, actions[k].userId, actions[k].roomId, actions[m].ids);
  }

  // ---- The hub

  class RealtimeHub {
    var subscriptions: map<string, Subscription>
    var rooms: map<string, set<string>>
    var queues: map<string, Queue>
    ghost var revoked: set<string>

    constructor ()
      ensures Now() == EMPTY
    {
      subscriptions, rooms, queues, revoked := map[], map[], map[], {};
    }

    ghost function Now(): State
      reads this
    {
      State(subscriptions, rooms, queues, revoked)
    }

    method Subscribe(id: string, roomId: string, userId: string, shared: Option<string>, newQueue: string)
      modifies this
      ensures Now() == After(old(Now()), Join(id, roomId, userId, shared, newQueue))
    {
      if shared.None? {
        queues := queues[newQueue := FRESH];
      }
      subscriptions := subscriptions[id := Subscription(roomId, userId, shared.GetOr(newQueue))];
      rooms := rooms[roomId := InRoom(rooms, roomId) + {id}];
    }

    method Unsubscribe(id: string)
      modifies this
      ensures Now() == After(old(Now()), Leave(id))
    {
      if id in subscriptions {
        var roomId := subscriptions[id].roomId;
        subscriptions := subscriptions - {id};
        rooms := rooms[roomId := InRoom(rooms, roomId) - {id}];
      }
    }

    /** Put into one queue, or evict its oldest entry for a resync; whether the message went in. */
    method Put(queueId: string, m: Message) returns (fits: bool)
      requires queueId in queues
      modifies this`queues
      ensures Now() == OfferTo(old(Now()), queueId, m)
      ensures fits == !Full(old(queues)[queueId])
    {
      var q := queues[queueId];
      fits := |q.items| < MAX_QUEUE;
      var items := q.items;
      if fits {
        items := items + [m];
      } else {
        if items != [] {
          items := items[1..];
        }
        items := items + [Resync];
      }
      queues := queues[queueId := Queue(items, q.taken, q.offered + [m])];
    }

    method Deliver(ids: seq<string>, m: Message) returns (delivered: seq<string>)
      requires QueuesSound(Now()) && forall id <- ids :: id in subscriptions
      modifies this`queues
      ensures Now() == OfferAll(old(Now()), ids, m)
      ensures delivered == Delivered(old(Now()), ids, m)
    {
      hide Sound, Overflowed;
      delivered := [];
      for i := 0 to |ids|
        invariant Now() == OfferAll(old(Now()), ids[..i], m)
        invariant delivered == Delivered(old(Now()), ids[..i], m)
        invariant QueuesSound(Now())
      {
        assert ids[..i + 1][..i] == ids[..i];
        OfferAllKeeps(old(Now()), ids[..i + 1], m);
        var fits := Put(subscriptions[ids[i]].queueId, m);
        if fits {
          delivered := delivered + [ids[i]];
        }
      }
      assert ids[..|ids|] == ids;
    }

    /** ids is the order in which the room's set is iterated. */
    method BroadcastToRoom(roomId: string, m: Message, ids: seq<string>) returns (delivered: seq<string>)
      requires Inv(Now()) && Permitted(Now(), Broadcast(roomId, m, ids))
      modifies this`queues
      ensures Now() == After(old(Now()), Broadcast(roomId, m, ids)) && Inv(Now())
      ensures delivered == Delivered(old(Now()), ids, m)
    {
      StepKeeps(Now(), Broadcast(roomId, m, ids));
      assert forall id <- ids :: id in InRoom(rooms, roomId);
      delivered := Deliver(ids, m);
    }

    method SendToUser(userId: string, m: Message, ids: seq<string>) returns (delivered: bool)
      requires Inv(Now()) && Permitted(Now(), SendTo(userId, m, ids))
      modifies this`queues
      ensures Now() == After(old(Now()), SendTo(userId, m, ids)) && Inv(Now())
      ensures delivered <==> Delivered(old(Now()), ids, m) != []
    {
      StepKeeps(Now(), SendTo(userId, m, ids));
      assert forall id <- ids :: id in HeldBy(Now(), userId);
      var reached := Deliver(ids, m);
      delivered := reached != [];
    }

    /** Under the lock: forget these subscriptions, keeping their queues' names. */
    method Forget(ids: seq<string>) returns (held: seq<string>)
      requires forall i, j :: 0 <= i < j < |ids| ==> ids[i] != ids[j]
      requires forall i :: 0 <= i < |ids| ==> ids[i] in subscriptions
      modifies this
      ensures Now() == DropAll(old(Now()), ids)
      ensures held == QueuesOf(old(Now()), ids)
    {
      held := [];
      for i := 0 to |ids|
        invariant Now() == DropAll(old(Now()), ids[..i])
        invariant held == QueuesOf(old(Now()), ids)[..i]
        invariant forall j :: i <= j < |ids| ==>
                    ids[j] in subscriptions && subscriptions[ids[j]] == old(subscriptions)[ids[j]]
      {
        assert ids[..i + 1][..i] == ids[..i];
        held := held + [subscriptions[ids[i]].queueId];
        Unsubscribe(ids[i]);
      }
      assert ids[..|ids|] == ids;
    }

    /** Outside the lock: tell each of these queues that access was revoked. */
    method TellRevoked(held: seq<string>, roomId: string)
      requires forall q <- held :: q in queues
      modifies this`queues, this`revoked
      ensures Now() == MarkAll(old(Now()), held, roomId)
    {
      for i := 0 to |held|
        invariant Now() == MarkAll(old(Now()), held[..i], roomId)
        invariant queues.Keys == old(queues).Keys
      {
        assert held[..i + 1][..i] == held[..i];
        var _ := Put(held[i], AccessRevoked(roomId));
        revoked := revoked + {held[i]};
      }
      assert held[..|held|] == held;
    }

    method RevokeRoomAccess(userId: string, roomId: string, ids: seq<string>) returns (count: nat)
      requires Inv(Now()) && Permitted(Now(), Revoke(userId, roomId, ids))
      modifies this
      ensures Now() == After(old(Now()), Revoke(userId, roomId, ids)) && Inv(Now())
      ensures count == |ids|
    {
      StepKeeps(Now(), Revoke(userId, roomId, ids));
      HeldQueuesExist(Now(), userId, roomId, ids);
      DropAllKeeps(Now(), ids);
      forall i | 0 <= i < |ids| ensures ids[i] in subscriptions {
        assert ids[i] in ids;
      }
      var held := Forget(ids);
      TellRevoked(held, roomId);
      count := |held|;
    }

    /** The send loop's queue.get on a queue that is not empty. */
    method Get(queueId: string) returns (m: Message)
      requires queueId in queues && queues[queueId].items != []
      modifies this`queues
      ensures Now() == After(old(Now()), Read(queueId))
      ensures m == old(queues)[queueId].items[0]
    {
      var q := queues[queueId];
      m := q.items[0];
      queues := queues[queueId := Queue(q.items[1..], q.taken + [m], q.offered)];
    }
  }
}
