/**
 Cross-process fan-out (src/multiplayer/realtime/fanout.py): several processes, each with its own hub and its own
 origin token, over a channel that may lose any copy of a message and delivers none twice. A publish leaves some
 time after the local delivery that it follows, if Redis takes it at all.
 */
module Fanout {
  import H = Hub

  /** The three kinds of message. */
  datatype Call =
    | RoomEvent(roomId: string, message: H.Message)
    | Revoke(roomId: string, userId: string)
    | SendToUser(userId: string, message: H.Message)

  /** One call of a hub operation by the program itself: where, under which origin, and with what. */
  datatype Sent = Sent(process: string, origin: string, call: Call)

  /** History: a hub operation for this call offered this message to a subscription, which drained into this queue. */
  datatype Delivery = Delivery(callId: nat, subscriptionId: string, queueId: string, message: H.Message)

  /** performed is history: the calls whose hub operation ran here. */
  datatype Process = Process(origin: string, hub: H.State, deliveries: seq<Delivery>, performed: set<nat>)

  datatype Copy = Copy(callId: nat, receiver: string)

  /** Calls that still have to be published, copies under way, and how many times publish was called. */
  datatype State = State(processes: map<string, Process>, calls: seq<Sent>, outbox: set<nat>, wire: set<Copy>,
                         published: nat)

  // ---- The hub's operations, with their publish argument

  /** What the operation puts into the queues it reaches. */
  function MessageOf(call: Call): H.Message {
    if call.Revoke? then H.AccessRevoked(call.roomId) else call.message
  }

  function HubAction(call: Call, ids: seq<string>): H.Action {
    match call
    case RoomEvent(roomId, m) => H.Broadcast(roomId, m, ids)
    case Revoke(roomId, userId) => H.Action.Revoke(userId, roomId, ids)
    case SendToUser(userId, m) => H.SendTo(userId, m, ids)
  }

  function Deliveries(hub: H.State, callId: nat, ids: seq<string>, m: H.Message): seq<Delivery> {
    seq(|ids|, i requires 0 <= i < |ids| =>
      Delivery(callId, ids[i], if ids[i] in hub.subscriptions then hub.subscriptions[ids[i]].queueId else "", m))
  }

  /** The operation on the process's own hub. */
  function Perform(p: Process, callId: nat, call: Call, ids: seq<string>): Process {
    p.(hub := H.After(p.hub, HubAction(call, ids)),
       deliveries := p.deliveries + Deliveries(p.hub, callId, ids, MessageOf(call)),
       performed := p.performed + {callId})
  }

  function At(s: State, name: string, p: Process): State {
    s.(processes := s.processes[name := p])
  }

  /** RedisFanout.publish */
  function Publish(s: State, callId: nat): State {
    s.(outbox := s.outbox + {callId}, published := s.published + 1)
  }

  /** broadcast_to_room: local, and nothing else. */
  function BroadcastToRoom(s: State, name: string, callId: nat, call: Call, ids: seq<string>): State
    requires name in s.processes
  {
    At(s, name, Perform(s.processes[name], callId, call, ids))
  }

  /** broadcast_room_event: broadcast_to_room, then publish unless told not to. */
  function BroadcastRoomEvent(s: State, name: string, callId: nat, call: Call, ids: seq<string>, publish: bool): State
    requires name in s.processes
  {
    var t := BroadcastToRoom(s, name, callId, call, ids);
    if publish then Publish(t, callId) else t
  }

  function RevokeRoomAccess(s: State, name: string, callId: nat, call: Call, ids: seq<string>, publish: bool): State
    requires name in s.processes
  {
    var t := At(s, name, Perform(s.processes[name], callId, call, ids));
    if publish then Publish(t, callId) else t
  }

  function SendTo(s: State, name: string, callId: nat, call: Call, ids: seq<string>, publish: bool): State
    requires name in s.processes
  {
    var t := At(s, name, Perform(s.processes[name], callId, call, ids));
    if publish then Publish(t, callId) else t
  }

  /** The program calls one of its hub's operations. */
  function CallHub(s: State, name: string, call: Call, publish: bool, ids: seq<string>): State
    requires name in s.processes
  {
    var k := |s.calls|;
    var t := s.(calls := s.calls + [Sent(name, s.processes[name].origin, call)]);
    match call
    case RoomEvent(_, _) => BroadcastRoomEvent(t, name, k, call, ids, publish)
    case Revoke(_, _) => RevokeRoomAccess(t, name, k, call, ids, publish)
    case SendToUser(_, _) => SendTo(t, name, k, call, ids, publish)
  }

  /** _handle_message. listening: whether the room or user had subscriptions here when it asked, a moment before. */
  function HandleMessage(s: State, name: string, callId: nat, listening: bool, ids: seq<string>): State
    requires name in s.processes && callId < |s.calls|
  {
    var sent := s.calls[callId];
    if sent.origin == s.processes[name].origin then s
    else
      match sent.call
      case RoomEvent(_, _) => if listening then BroadcastToRoom(s, name, callId, sent.call, ids) else s
      case Revoke(_, _) => RevokeRoomAccess(s, name, callId, sent.call, ids, false)
      case SendToUser(_, _) => if listening then SendTo(s, name, callId, sent.call, ids, false) else s
  }

  // ---- Runs

  datatype Action =
    | Local(process: string, call: Call, publish: bool, ids: seq<string>)
    | Emit(callId: nat, reached: set<string>)   // reached is empty when Redis is down
    | Receive(copy: Copy, listening: bool, ids: seq<string>)
    | Lose(copy: Copy)
    | Socket(process: string, action: H.Action)  // subscribing, unsubscribing, reading

  function After(s: State, a: Action): State {
    match a
    case Local(name, call, publish, ids) => if name in s.processes then CallHub(s, name, call, publish, ids) else s
    case Emit(k, reached) =>
      if k !in s.outbox then s
      else s.(outbox := s.outbox - {k},
              wire := s.wire + set q | q in reached && q in s.processes :: Copy(k, q))
    case Receive(copy, listening, ids) =>
      if copy !in s.wire || copy.receiver !in s.processes || copy.callId >= |s.calls| then s
      else HandleMessage(s.(wire := s.wire - {copy}), copy.receiver, copy.callId, listening, ids)
    case Lose(copy) => s.(wire := s.wire - {copy})
    case Socket(name, action) =>
      if name !in s.processes then s
      else At(s, name, s.processes[name].(hub := H.After(s.processes[name].hub, action)))
  }

  /** Each hub's own rules: iteration meets each subscription once, ids never repeat. */
  ghost predicate Permitted(s: State, a: Action) {
    match a
    case Local(name, call, _, ids) => name in s.processes ==> H.Permitted(s.processes[name].hub, HubAction(call, ids))
    case Receive(copy, _, ids) =>
      copy.receiver in s.processes && copy.callId < |s.calls| ==>
        H.Permitted(s.processes[copy.receiver].hub, HubAction(s.calls[copy.callId].call, ids))
    case Socket(name, action) =>
      && (action.Join? || action.Leave? || action.Read?)
      && (name in s.processes ==> H.Permitted(s.processes[name].hub, action))
    case _ => true
  }

  /** origins: each process's token, which no other process has. */
  function Init(origins: map<string, string>): State {
    State(map name | name in origins :: Process(origins[name], H.EMPTY, [], {}), [], {}, {}, 0)
  }

  function Run(origins: map<string, string>, actions: seq<Action>): State {
    if actions == [] then Init(origins) else After(Run(origins, actions[..|actions| - 1]), actions[|actions| - 1])
  }

  ghost predicate Lawful(origins: map<string, string>, actions: seq<Action>) {
    actions == [] || (&& Lawful(origins, actions[..|actions| - 1])
                      && Permitted(Run(origins, actions[..|actions| - 1]), actions[|actions| - 1]))
  }

  // ---- The invariant

  /** The messages offered to one queue, in order. */
  function OfferedTo(ds: seq<Delivery>, queueId: string): seq<H.Message> {
    if ds == [] then []
    else
      var d := ds[|ds| - 1];
      OfferedTo(ds[..|ds| - 1], queueId) + if d.queueId == queueId then [d.message] else []
  }

  /** The history of deliveries is what the hub's queues were offered: all of it, in order, and nothing else. */
  ghost predicate Accounts(hub: H.State, ds: seq<Delivery>) {
    && (forall q <- hub.queues :: hub.queues[q].offered == OfferedTo(ds, q))
    && (forall d <- ds :: d.queueId in hub.queues)
  }

  /** No subscription is offered a call twice. */
  ghost predicate Once(ds: seq<Delivery>) {
    forall i, j :: 0 <= i < j < |ds| && ds[i].callId == ds[j].callId ==> ds[i].subscriptionId != ds[j].subscriptionId
  }

  ghost predicate ProcessInv(p: Process, calls: seq<Sent>) {
    && H.Inv(p.hub) && Accounts(p.hub, p.deliveries) && Once(p.deliveries)
    && (forall d <- p.deliveries :: && d.callId in p.performed && d.callId < |calls|
                                    && d.message == MessageOf(calls[d.callId].call))
    && (forall k <- p.performed :: k < |calls|)
  }

  /** Elsewhere than where it was called, a call that is still to be published or received has not been performed. */
  ghost predicate Awaited(s: State, k: nat, name: string) {
    && k < |s.calls|
    && (name in s.processes && k in s.processes[name].performed ==> name == s.calls[k].process)
  }

  ghost predicate Sourced(s: State) {
    forall k :: 0 <= k < |s.calls| ==> && s.calls[k].process in s.processes
                                       && s.calls[k].origin == s.processes[s.calls[k].process].origin
  }

  ghost predicate ProcessesInv(s: State) {
    forall name <- s.processes :: ProcessInv(s.processes[name], s.calls)
  }

  ghost predicate UnderWay(s: State) {
    && (forall k <- s.outbox, name: string :: Awaited(s, k, name))
    && (forall copy <- s.wire :: Awaited(s, copy.callId, copy.receiver) && copy.callId !in s.outbox)
  }

  ghost predicate Inv(s: State) {
    ProcessesInv(s) && UnderWay(s) && Sourced(s)
  }

  // ---- Deliveries account for what the queues were offered

  lemma OfferedPush(ds: seq<Delivery>, d: Delivery, all: seq<Delivery>, q: string)
    requires all != [] && all[..|all| - 1] == ds && all[|all| - 1] == d
    ensures OfferedTo(all, q) == OfferedTo(ds, q) + if d.queueId == q then [d.message] else []
  {
  }

  lemma {:induction false} OfferedAppend(ds: seq<Delivery>, more: seq<Delivery>, q: string)
    ensures OfferedTo(ds + more, q) == OfferedTo(ds, q) + OfferedTo(more, q)
  {
    if more == [] {
      assert ds + more == ds;
    } else {
      var n := |more| - 1;
      OfferedAppend(ds, more[..n], q);
      var all := ds + more;
      assert all[..|all| - 1] == ds + more[..n] && all[|all| - 1] == more[n];
      OfferedPush(ds + more[..n], more[n], all, q);
      OfferedPush(more[..n], more[n], more, q);
    }
  }

  lemma {:induction false} NothingOffered(ds: seq<Delivery>, q: string)
    requires forall d <- ds :: d.queueId != q
    ensures OfferedTo(ds, q) == []
  {
    if ds != [] {
      NothingOffered(ds[..|ds| - 1], q);
    }
  }

  lemma DeliveriesPush(hub: H.State, k: nat, ids: seq<string>, m: H.Message, q: string)
    requires ids != []
    ensures var id := ids[|ids| - 1];
            OfferedTo(Deliveries(hub, k, ids, m), q)
            == OfferedTo(Deliveries(hub, k, ids[..|ids| - 1], m), q)
               + if (if id in hub.subscriptions then hub.subscriptions[id].queueId else "") == q then [m] else []
  {
    var ds := Deliveries(hub, k, ids, m);
    assert ds[..|ds| - 1] == Deliveries(hub, k, ids[..|ids| - 1], m);
  }

  lemma {:induction false} OfferAllOffers(hub: H.State, k: nat, ids: seq<string>, m: H.Message, q: string)
    requires q in hub.queues && forall id <- ids :: id in hub.subscriptions
    ensures var u := H.OfferAll(hub, ids, m);
            && q in u.queues
            && u.queues[q].offered == hub.queues[q].offered + OfferedTo(Deliveries(hub, k, ids, m), q)
  {
    if ids != [] {
      var n := |ids| - 1;
      assert ids[n] in ids;
      OfferAllOffers(hub, k, ids[..n], m, q);
      DeliveriesPush(hub, k, ids, m, q);
    }
  }

  lemma OfferToOffers(hub: H.State, to: string, m: H.Message, q: string)
    requires q in hub.queues && to in hub.queues
    ensures var u := H.OfferTo(hub, to, m);
            && u.queues.Keys == hub.queues.Keys
            && u.queues[q].offered == hub.queues[q].offered + if to == q then [m] else []
  {
  }

  lemma MarkedOneMore(dropped: H.State, held: seq<string>, roomId: string, q: string)
    requires held != []
    requires var before := H.MarkAll(dropped, held[..|held| - 1], roomId);
             q in before.queues && held[|held| - 1] in before.queues
    ensures var n := |held| - 1;
            var before, after := H.MarkAll(dropped, held[..n], roomId), H.MarkAll(dropped, held, roomId);
            && after.queues.Keys == before.queues.Keys
            && after.queues[q].offered == before.queues[q].offered + if held[n] == q then [H.AccessRevoked(roomId)] else []
  {
    var n := |held| - 1;
    OfferToOffers(H.MarkAll(dropped, held[..n], roomId), held[n], H.AccessRevoked(roomId), q);
    hide H.OfferTo;
  }

  /** These deliveries are of one message, to these queues in this order. */
  predicate GoesTo(ds: seq<Delivery>, held: seq<string>, m: H.Message) {
    |ds| == |held| && forall i :: 0 <= i < |ds| ==> ds[i].queueId == held[i] && ds[i].message == m
  }

  lemma {:induction false} MarkingOffers(dropped: H.State, held: seq<string>, ds: seq<Delivery>, roomId: string, q: string)
    requires GoesTo(ds, held, H.AccessRevoked(roomId)) && q in dropped.queues && forall to <- held :: to in dropped.queues
    ensures var u := H.MarkAll(dropped, held, roomId);
            && u.queues.Keys == dropped.queues.Keys
            && u.queues[q].offered == dropped.queues[q].offered + OfferedTo(ds, q)
  {
    if held != [] {
      var n := |held| - 1;
      assert held[n] in held && forall to <- held[..n] :: to in held;
      OfferedPush(ds[..n], ds[n], ds, q);
      hide H.MarkAll, OfferedTo;
      MarkingOffers(dropped, held[..n], ds[..n], roomId, q);
      MarkedOneMore(dropped, held, roomId, q);
    }
  }

  lemma MarkAllOffers(hub: H.State, dropped: H.State, k: nat, ids: seq<string>, roomId: string, q: string)
    requires q in dropped.queues && forall held <- H.QueuesOf(hub, ids) :: held in dropped.queues
    ensures var u := H.MarkAll(dropped, H.QueuesOf(hub, ids), roomId);
            && u.queues.Keys == dropped.queues.Keys
            && u.queues[q].offered
               == dropped.queues[q].offered + OfferedTo(Deliveries(hub, k, ids, H.AccessRevoked(roomId)), q)
  {
    var ds := Deliveries(hub, k, ids, H.AccessRevoked(roomId));
    assert GoesTo(ds, H.QueuesOf(hub, ids), H.AccessRevoked(roomId));
    hide H.MarkAll, OfferedTo, Deliveries, H.QueuesOf, GoesTo;
    MarkingOffers(dropped, H.QueuesOf(hub, ids), ds, roomId, q);
  }

  /** Each operation offers its message to the queue of each subscription it lists, once per subscription. */
  lemma PerformOffers(p: Process, k: nat, call: Call, ids: seq<string>, q: string)
    requires H.Inv(p.hub) && H.Permitted(p.hub, HubAction(call, ids)) && q in p.hub.queues
    ensures var u := Perform(p, k, call, ids).hub;
            && q in u.queues
            && u.queues[q].offered == p.hub.queues[q].offered + OfferedTo(Deliveries(p.hub, k, ids, MessageOf(call)), q)
  {
    match call
    case RoomEvent(roomId, m) =>
      assert forall id <- ids :: id in H.InRoom(p.hub.rooms, roomId);
      OfferAllOffers(p.hub, k, ids, m, q);
    case Revoke(roomId, userId) =>
      H.DropAllKeeps(p.hub, ids);
      H.HeldQueuesExist(p.hub, userId, roomId, ids);
      MarkAllOffers(p.hub, H.DropAll(p.hub, ids), k, ids, roomId, q);
    case SendToUser(userId, m) =>
      assert forall id <- ids :: id in H.HeldBy(p.hub, userId);
      OfferAllOffers(p.hub, k, ids, m, q);
  }

  lemma {:induction false} OfferAllKeepsNames(hub: H.State, ids: seq<string>, m: H.Message)
    ensures H.OfferAll(hub, ids, m).queues.Keys == hub.queues.Keys
  {
    if ids != [] {
      OfferAllKeepsNames(hub, ids[..|ids| - 1], m);
    }
  }

  lemma PerformKeepsNames(p: Process, k: nat, call: Call, ids: seq<string>)
    requires H.Inv(p.hub) && H.Permitted(p.hub, HubAction(call, ids))
    ensures Perform(p, k, call, ids).hub.queues.Keys == p.hub.queues.Keys
    ensures forall id <- ids :: id in p.hub.subscriptions && p.hub.subscriptions[id].queueId in p.hub.queues
  {
    match call
    case RoomEvent(roomId, m) =>
      assert forall id <- ids :: id in H.InRoom(p.hub.rooms, roomId);
      OfferAllKeepsNames(p.hub, ids, m);
    case Revoke(roomId, userId) =>
      assert forall id <- ids :: id in H.HeldInRoom(p.hub, userId, roomId);
      H.DropAllKeeps(p.hub, ids);
      H.HeldQueuesExist(p.hub, userId, roomId, ids);
      H.MarkAllKeeps(H.DropAll(p.hub, ids), H.QueuesOf(p.hub, ids), roomId);
    case SendToUser(userId, m) =>
      assert forall id <- ids :: id in H.HeldBy(p.hub, userId);
      OfferAllKeepsNames(p.hub, ids, m);
  }

  lemma PerformAccounts(p: Process, k: nat, call: Call, ids: seq<string>)
    requires H.Inv(p.hub) && Accounts(p.hub, p.deliveries) && H.Permitted(p.hub, HubAction(call, ids))
    ensures Accounts(Perform(p, k, call, ids).hub, Perform(p, k, call, ids).deliveries)
  {
    var u, more := Perform(p, k, call, ids), Deliveries(p.hub, k, ids, MessageOf(call));
    PerformKeepsNames(p, k, call, ids);
    forall q <- u.hub.queues ensures u.hub.queues[q].offered == OfferedTo(u.deliveries, q) {
      PerformOffers(p, k, call, ids, q);
      OfferedAppend(p.deliveries, more, q);
    }
    forall d | d in more ensures d.queueId in u.hub.queues {
      var i :| 0 <= i < |ids| && d == more[i];
      assert ids[i] in ids;
    }
  }

  lemma PerformOnce(p: Process, k: nat, call: Call, ids: seq<string>)
    requires Once(p.deliveries) && H.Permitted(p.hub, HubAction(call, ids))
    requires k !in p.performed && forall d <- p.deliveries :: d.callId in p.performed
    ensures Once(Perform(p, k, call, ids).deliveries)
  {
    var more := Deliveries(p.hub, k, ids, MessageOf(call));
    var ds := p.deliveries + more;
    assert forall i, j :: 0 <= i < j < |ids| ==> ids[i] != ids[j];
    forall i, j | 0 <= i < j < |ds| && ds[i].callId == ds[j].callId ensures ds[i].subscriptionId != ds[j].subscriptionId {
      var n := |p.deliveries|;
      if i < n {
        assert ds[i] in p.deliveries;
      }
    }
  }

  lemma PerformKeeps(p: Process, calls: seq<Sent>, k: nat, ids: seq<string>)
    requires ProcessInv(p, calls) && k < |calls| && k !in p.performed
    requires H.Permitted(p.hub, HubAction(calls[k].call, ids))
    ensures ProcessInv(Perform(p, k, calls[k].call, ids), calls)
  {
    H.StepKeeps(p.hub, HubAction(calls[k].call, ids));
    PerformAccounts(p, k, calls[k].call, ids);
    PerformOnce(p, k, calls[k].call, ids);
    hide H.Inv, H.After, H.Permitted, Accounts, Once;
  }

  lemma SocketKeeps(p: Process, calls: seq<Sent>, a: H.Action)
    requires ProcessInv(p, calls) && (a.Join? || a.Leave? || a.Read?) && H.Permitted(p.hub, a)
    ensures ProcessInv(p.(hub := H.After(p.hub, a)), calls)
  {
    H.StepKeeps(p.hub, a);
    if a.Join? && a.shared.None? {
      NothingOffered(p.deliveries, a.newQueue);
    }
    if a.Leave? {
      H.DropKeeps(p.hub, a.id);
    }
    hide H.Inv, Once;
  }

  lemma MoreCallsKeep(p: Process, calls: seq<Sent>, sent: Sent)
    requires ProcessInv(p, calls)
    ensures ProcessInv(p, calls + [sent])
  {
    hide H.Inv, Accounts, Once;
  }

  // ---- Every step

  /** A call is performed where it was not: what is under way elsewhere stays awaited. */
  lemma PerformingKeepsAwaited(s: State, u: State, name: string, k: nat)
    requires UnderWay(s) && name in s.processes && k !in s.outbox && Copy(k, name) !in s.wire
    requires u.outbox == s.outbox && u.wire == s.wire && u.calls == s.calls && u.processes.Keys == s.processes.Keys
    requires forall other <- s.processes :: other != name ==> u.processes[other] == s.processes[other]
    requires u.processes[name].performed == s.processes[name].performed + {k}
    ensures UnderWay(u)
  {
    forall j <- u.outbox, other: string ensures Awaited(u, j, other) {
      assert Awaited(s, j, other);
    }
    forall copy <- u.wire ensures Awaited(u, copy.callId, copy.receiver) {
      assert Awaited(s, copy.callId, copy.receiver);
    }
  }

  /** One process performs a call that was not performed there. */
  lemma PerformingKeeps(s: State, name: string, k: nat, ids: seq<string>)
    requires Inv(s) && name in s.processes && k < |s.calls| && k !in s.processes[name].performed
    requires H.Permitted(s.processes[name].hub, HubAction(s.calls[k].call, ids))
    requires k !in s.outbox && Copy(k, name) !in s.wire
    ensures Inv(At(s, name, Perform(s.processes[name], k, s.calls[k].call, ids)))
  {
    var p := s.processes[name];
    var u := At(s, name, Perform(p, k, s.calls[k].call, ids));
    PerformKeeps(p, s.calls, k, ids);
    hide ProcessInv, H.After, H.Permitted;
    PerformingKeepsAwaited(s, u, name, k);
  }

  lemma LocalKeeps(s: State, name: string, call: Call, publish: bool, ids: seq<string>)
    requires Inv(s) && name in s.processes && H.Permitted(s.processes[name].hub, HubAction(call, ids))
    ensures Inv(CallHub(s, name, call, publish, ids))
  {
    var k := |s.calls|;
    var t := s.(calls := s.calls + [Sent(name, s.processes[name].origin, call)]);
    CallingKeeps(s, name, call);
    PerformingKeeps(t, name, k, ids);
    var u := At(t, name, Perform(t.processes[name], k, call, ids));
    if publish {
      hide H.After, H.Permitted, ProcessInv;
      PublishingKeeps(u, k, name);
    }
  }

  /** A new call: its number is new, so it is awaited nowhere and performed nowhere. */
  lemma CallingKeeps(s: State, name: string, call: Call)
    requires Inv(s) && name in s.processes
    ensures var t := s.(calls := s.calls + [Sent(name, s.processes[name].origin, call)]);
            && Inv(t) && |s.calls| !in t.outbox && (forall copy <- t.wire :: copy.callId != |s.calls|)
            && forall other <- t.processes :: |s.calls| !in t.processes[other].performed
  {
    var t := s.(calls := s.calls + [Sent(name, s.processes[name].origin, call)]);
    forall other <- t.processes ensures ProcessInv(t.processes[other], t.calls) && |s.calls| !in t.processes[other].performed {
      MoreCallsKeep(s.processes[other], s.calls, t.calls[|s.calls|]);
    }
    hide ProcessInv;
    forall j <- t.outbox ensures j < |s.calls| {
      assert Awaited(s, j, name);
    }
    forall j <- t.outbox, other: string ensures Awaited(t, j, other) {
      assert Awaited(s, j, other);
    }
    forall copy <- t.wire ensures Awaited(t, copy.callId, copy.receiver) && copy.callId < |s.calls| {
      assert Awaited(s, copy.callId, copy.receiver);
    }
  }

  lemma PublishingKeeps(s: State, k: nat, name: string)
    requires Inv(s) && k < |s.calls| && s.calls[k].process == name && forall copy <- s.wire :: copy.callId != k
    requires forall other <- s.processes :: other != name ==> k !in s.processes[other].performed
    ensures Inv(Publish(s, k))
  {
    hide ProcessInv;
    var u := Publish(s, k);
    forall j <- u.outbox, other: string ensures Awaited(u, j, other) {
      assert j != k ==> Awaited(s, j, other);
    }
    forall copy <- u.wire ensures Awaited(u, copy.callId, copy.receiver) {
      assert Awaited(s, copy.callId, copy.receiver);
    }
  }

  lemma EmitKeeps(s: State, k: nat, reached: set<string>)
    requires Inv(s)
    ensures Inv(After(s, Emit(k, reached)))
  {
    hide ProcessInv;
    var u := After(s, Emit(k, reached));
    forall j <- u.outbox, other: string ensures Awaited(u, j, other) {
      assert Awaited(s, j, other);
    }
    forall copy <- u.wire ensures Awaited(u, copy.callId, copy.receiver) {
      assert k in s.outbox ==> Awaited(s, k, copy.receiver);
      assert copy in s.wire ==> Awaited(s, copy.callId, copy.receiver);
    }
  }

  lemma LoseKeeps(s: State, copy: Copy)
    requires Inv(s)
    ensures Inv(s.(wire := s.wire - {copy}))
  {
    hide ProcessInv;
    var u := s.(wire := s.wire - {copy});
    forall j <- u.outbox, other: string ensures Awaited(u, j, other) {
      assert Awaited(s, j, other);
    }
    forall c <- u.wire ensures Awaited(u, c.callId, c.receiver) {
      assert Awaited(s, c.callId, c.receiver);
    }
  }

  lemma ReceiveKeeps(s: State, copy: Copy, listening: bool, ids: seq<string>)
    requires Inv(s) && Permitted(s, Receive(copy, listening, ids))
    ensures Inv(After(s, Receive(copy, listening, ids)))
  {
    if copy in s.wire && copy.receiver in s.processes && copy.callId < |s.calls| {
      var t := s.(wire := s.wire - {copy});
      var name, sent := copy.receiver, s.calls[copy.callId];
      LoseKeeps(s, copy);
      assert Awaited(s, copy.callId, name);
      if sent.origin != s.processes[name].origin {
        PerformingKeeps(t, name, copy.callId, ids);
      }
      hide ProcessInv, H.After, H.Permitted, Perform;
    }
  }

  lemma SocketStepKeeps(s: State, name: string, action: H.Action)
    requires Inv(s) && name in s.processes && Permitted(s, Socket(name, action))
    ensures Inv(After(s, Socket(name, action)))
  {
    SocketKeeps(s.processes[name], s.calls, action);
    hide ProcessInv, H.After, H.Permitted;
    var u := After(s, Socket(name, action));
    forall j <- u.outbox, other: string ensures Awaited(u, j, other) {
      assert Awaited(s, j, other);
    }
    forall copy <- u.wire ensures Awaited(u, copy.callId, copy.receiver) {
      assert Awaited(s, copy.callId, copy.receiver);
    }
  }

  lemma StepKeeps(s: State, a: Action)
    requires Inv(s) && Permitted(s, a)
    ensures Inv(After(s, a))
  {
    hide H.After, H.Permitted, Inv;
    match a
    case Local(name, call, publish, ids) =>
      if name in s.processes {
        LocalKeeps(s, name, call, publish, ids);
      }
    case Emit(k, reached) => EmitKeeps(s, k, reached);
    case Receive(copy, listening, ids) => ReceiveKeeps(s, copy, listening, ids);
    case Lose(copy) => LoseKeeps(s, copy);
    case Socket(name, action) =>
      if name in s.processes {
        SocketStepKeeps(s, name, action);
      }
  }

  lemma {:induction false} EveryRunKeeps(origins: map<string, string>, actions: seq<Action>)
    requires Lawful(origins, actions)
    ensures Inv(Run(origins, actions)) && Run(origins, actions).processes.Keys == origins.Keys
    ensures forall name <- origins :: Run(origins, actions).processes[name].origin == origins[name]
  {
    if actions != [] {
      var shorter, a := actions[..|actions| - 1], actions[|actions| - 1];
      EveryRunKeeps(origins, shorter);
      StepKeeps(Run(origins, shorter), a);
      OriginsStay(Run(origins, shorter), a);
    }
  }

  lemma OriginsStay(s: State, a: Action)
    ensures After(s, a).processes.Keys == s.processes.Keys
    ensures forall name <- s.processes :: After(s, a).processes[name].origin == s.processes[name].origin
  {
    hide H.After;
  }

  // ---- What fan-out promises

  /** How often a subscription of one process was offered a call. */
  function Times(ds: seq<Delivery>, callId: nat, subscriptionId: string): nat {
    if ds == [] then 0
    else
      var d := ds[|ds| - 1];
      Times(ds[..|ds| - 1], callId, subscriptionId) + if d.callId == callId && d.subscriptionId == subscriptionId then 1 else 0
  }

  lemma {:induction false} OnceMeans(ds: seq<Delivery>, k: nat, id: string)
    requires Once(ds)
    ensures Times(ds, k, id) <= 1
    ensures Times(ds, k, id) == 1 ==> exists d <- ds :: d.callId == k && d.subscriptionId == id
  {
    if ds != [] {
      var n := |ds| - 1;
      OnceMeans(ds[..n], k, id);
      assert ds[n] in ds;
    }
  }

  /**
   In every schedule of calls, publishes, losses, echoes and sockets, and in every process: what a queue was offered
   is exactly what the deliveries say, each delivery is of a call somebody made, with that call's message, and no
   subscription is offered one call twice.
   */
  lemma OfferedAtMostOnce(origins: map<string, string>, actions: seq<Action>, name: string, id: string, k: nat)
    requires Lawful(origins, actions) && name in origins
    ensures var s := Run(origins, actions);
            && name in s.processes
            && var p := s.processes[name];
            && Times(p.deliveries, k, id) <= 1
            && (forall q <- p.hub.queues :: p.hub.queues[q].offered == OfferedTo(p.deliveries, q))
            && (forall d <- p.deliveries :: d.callId < |s.calls| && d.message == MessageOf(s.calls[d.callId].call))
  {
    EveryRunKeeps(origins, actions);
    var s := Run(origins, actions);
    assert ProcessInv(s.processes[name], s.calls);
    OnceMeans(s.processes[name].deliveries, k, id);
  }

  lemma {:induction false} AtLeastOnce(ds: seq<Delivery>, k: nat, id: string, i: nat)
    requires i < |ds| && ds[i].callId == k && ds[i].subscriptionId == id
    ensures Times(ds, k, id) >= 1
  {
    if i < |ds| - 1 {
      AtLeastOnce(ds[..|ds| - 1], k, id, i);
    }
  }

  lemma ReceivingPerforms(s: State, copy: Copy, listening: bool, ids: seq<string>)
    requires copy in s.wire && copy.receiver in s.processes && copy.callId < |s.calls|
    requires s.calls[copy.callId].origin != s.processes[copy.receiver].origin
    requires listening || s.calls[copy.callId].call.Revoke?
    ensures var u := After(s, Receive(copy, listening, ids));
            && u.calls == s.calls && u.processes.Keys == s.processes.Keys
            && u.processes[copy.receiver]
               == Perform(s.processes[copy.receiver], copy.callId, s.calls[copy.callId].call, ids)
  {
    hide H.After, Perform;
  }

  lemma PerformingReaches(p: Process, calls: seq<Sent>, k: nat, call: Call, ids: seq<string>, id: string)
    requires ProcessInv(Perform(p, k, call, ids), calls) && id in ids
    ensures Times(Perform(p, k, call, ids).deliveries, k, id) == 1
  {
    var ds := Perform(p, k, call, ids).deliveries;
    OnceMeans(ds, k, id);
    var i :| 0 <= i < |ids| && ids[i] == id;
    AtLeastOnce(ds, k, id, |p.deliveries| + i);
  }

  /** A call received from another process is offered to each subscription it concerns, once. */
  lemma ReceivingReaches(s: State, copy: Copy, listening: bool, ids: seq<string>, id: string)
    requires Inv(s) && copy in s.wire && copy.receiver in s.processes && id in ids
    requires s.calls[copy.callId].origin != s.processes[copy.receiver].origin
    requires Permitted(s, Receive(copy, listening, ids)) && (listening || s.calls[copy.callId].call.Revoke?)
    ensures var u := After(s, Receive(copy, listening, ids));
            copy.receiver in u.processes && Times(u.processes[copy.receiver].deliveries, copy.callId, id) == 1
  {
    var name, k := copy.receiver, copy.callId;
    ReceiveKeeps(s, copy, listening, ids);
    assert Awaited(s, k, name);
    ReceivingPerforms(s, copy, listening, ids);
    var u := After(s, Receive(copy, listening, ids));
    assert ProcessInv(u.processes[name], u.calls);
    hide Inv, ProcessInv, Perform, After;
    PerformingReaches(s.processes[name], u.calls, k, s.calls[k].call, ids, id);
  }

  /** A subscription of the room, of the user, or of this user in this room. */
  predicate Concerns(call: Call, sub: H.Subscription) {
    match call
    case RoomEvent(roomId, _) => sub.roomId == roomId
    case Revoke(roomId, userId) => sub.roomId == roomId && sub.userId == userId
    case SendToUser(userId, _) => sub.userId == userId
  }

  lemma ConcernedAreListed(hub: H.State, call: Call, ids: seq<string>, id: string)
    requires H.Inv(hub) && H.Permitted(hub, HubAction(call, ids)) && id in hub.subscriptions
    ensures id in ids <==> Concerns(call, hub.subscriptions[id])
  {
    if call.RoomEvent? {
      assert id in H.InRoom(hub.rooms, call.roomId) <==> id in hub.subscriptions && hub.subscriptions[id].roomId == call.roomId;
    }
  }

  /** A call is performed here; if it is published and Redis takes it, a copy to the other process is under way. */
  lemma CallGoesOut(s: State, name: string, call: Call, publish: bool, ids: seq<string>, other: string)
    requires Inv(s) && name in s.processes && other in s.processes && name != other
    ensures var k, t := |s.calls|, After(s, Local(name, call, publish, ids));
            && t.calls == s.calls + [Sent(name, s.processes[name].origin, call)]
            && t.processes.Keys == s.processes.Keys && t.processes[other] == s.processes[other] && t.wire == s.wire
            && t.processes[name] == Perform(s.processes[name], k, call, ids)
            && (k in t.outbox <==> publish)
            && var u := After(t, Emit(k, {other}));
               u.calls == t.calls && u.processes == t.processes && (Copy(k, other) in u.wire <==> publish)
  {
    var k := |s.calls|;
    hide Inv, Perform, H.After;
    NewCallIsNotUnderWay(s, name);
  }

  lemma NewCallIsNotUnderWay(s: State, name: string)
    requires Inv(s)
    ensures |s.calls| !in s.outbox && forall copy <- s.wire :: copy.callId != |s.calls|
  {
    forall k <- s.outbox ensures k < |s.calls| {
      assert Awaited(s, k, name);
    }
    forall copy <- s.wire ensures copy.callId < |s.calls| {
      assert Awaited(s, copy.callId, copy.receiver);
    }
  }

  lemma ConcernedAreReached(p: Process, calls: seq<Sent>, k: nat, call: Call, ids: seq<string>, id: string)
    requires ProcessInv(Perform(p, k, call, ids), calls) && H.Inv(p.hub) && H.Permitted(p.hub, HubAction(call, ids))
    requires id in p.hub.subscriptions && Concerns(call, p.hub.subscriptions[id])
    ensures Times(Perform(p, k, call, ids).deliveries, k, id) == 1
  {
    hide ProcessInv, Perform, H.Inv, H.Permitted, Concerns;
    ConcernedAreListed(p.hub, call, ids, id);
    PerformingReaches(p, calls, k, call, ids, id);
  }

  /**
   A published call that Redis takes reaches the other process: each subscription it concerns, here and there, is offered
   it exactly once. Unpublished it stays here.
   */
  lemma PublishedReaches(s: State, name: string, call: Call, ids: seq<string>, other: string, there: seq<string>, id: string)
    requires Inv(s) && name in s.processes && other in s.processes && s.processes[name].origin != s.processes[other].origin
    requires Permitted(s, Local(name, call, true, ids)) && H.Permitted(s.processes[other].hub, HubAction(call, there))
    ensures var k, t := |s.calls|, After(s, Local(name, call, true, ids));
            var u := After(After(t, Emit(k, {other})), Receive(Copy(k, other), true, there));
            && name in u.processes && other in u.processes
            && (id in s.processes[name].hub.subscriptions && Concerns(call, s.processes[name].hub.subscriptions[id])
                ==> Times(u.processes[name].deliveries, k, id) == 1)
            && (id in s.processes[other].hub.subscriptions && Concerns(call, s.processes[other].hub.subscriptions[id])
                ==> Times(u.processes[other].deliveries, k, id) == 1)
  {
    var k, t := |s.calls|, After(s, Local(name, call, true, ids));
    var w := After(t, Emit(k, {other}));
    var u := After(w, Receive(Copy(k, other), true, there));
    assert H.Permitted(s.processes[name].hub, HubAction(call, ids));
    hide Inv, ProcessInv, Perform, After, H.Permitted, H.Inv, Concerns;
    CallGoesOut(s, name, call, true, ids, other);
    StepKeeps(s, Local(name, call, true, ids));
    EmitKeeps(t, k, {other});
    ReceiveKeeps(w, Copy(k, other), true, there);
    ReceivingPerforms(w, Copy(k, other), true, there);
    ReceivingLeaves(w, Copy(k, other), true, there, name);
    HubsAreSound(s, name, other);
    HubsAreSound(u, name, other);
    if id in s.processes[name].hub.subscriptions && Concerns(call, s.processes[name].hub.subscriptions[id]) {
      ConcernedAreReached(s.processes[name], u.calls, k, call, ids, id);
    }
    if id in s.processes[other].hub.subscriptions && Concerns(call, s.processes[other].hub.subscriptions[id]) {
      ConcernedAreReached(s.processes[other], u.calls, k, call, there, id);
    }
  }

  lemma HubsAreSound(s: State, name: string, other: string)
    requires Inv(s) && name in s.processes && other in s.processes
    ensures ProcessInv(s.processes[name], s.calls) && ProcessInv(s.processes[other], s.calls)
    ensures H.Inv(s.processes[name].hub) && H.Inv(s.processes[other].hub)
  {
  }

  lemma ReceivingLeaves(s: State, copy: Copy, listening: bool, ids: seq<string>, name: string)
    requires name in s.processes && name != copy.receiver
    ensures var u := After(s, Receive(copy, listening, ids));
            name in u.processes && u.processes[name] == s.processes[name]
  {
    hide H.After, Perform;
  }

  /** The calls the program itself made with publish left on. */
  function Publishing(origins: map<string, string>, actions: seq<Action>): nat {
    if actions == [] then 0
    else
      var a := actions[|actions| - 1];
      Publishing(origins, actions[..|actions| - 1]) + if a.Local? && a.process in origins && a.publish then 1 else 0
  }

  /** Publish is called once for each such call, and never because a message was received. */
  lemma {:induction false} OnlyCallsPublish(origins: map<string, string>, actions: seq<Action>)
    requires Lawful(origins, actions)
    ensures Run(origins, actions).published == Publishing(origins, actions)
  {
    if actions != [] {
      var shorter := actions[..|actions| - 1];
      OnlyCallsPublish(origins, shorter);
      EveryRunKeeps(origins, shorter);
      StepPublishes(Run(origins, shorter), actions[|actions| - 1]);
      hide After, Inv;
    }
  }

  lemma StepPublishes(s: State, a: Action)
    ensures After(s, a).published == s.published + if a.Local? && a.process in s.processes && a.publish then 1 else 0
  {
    hide H.After, Perform;
  }

  /** With distinct origins a process drops as its own echo exactly the calls it made. */
  lemma EchoesAreOwn(origins: map<string, string>, actions: seq<Action>, name: string, k: nat)
    requires Lawful(origins, actions) && name in origins && k < |Run(origins, actions).calls|
    requires forall a <- origins, b <- origins :: origins[a] == origins[b] ==> a == b
    ensures var s := Run(origins, actions);
            && name in s.processes
            && (s.calls[k].origin == s.processes[name].origin <==> s.calls[k].process == name)
  {
    EveryRunKeeps(origins, actions);
  }
}
