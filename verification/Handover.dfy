/**
 One socket's handover from stored history to live delivery (websocket_endpoint in
 src/multiplayer/realtime/websocket.py), interleaved with commits and broadcasts at every point.
 The room's committed events are the sequences 1, 2, ..., head.
 */
module Handover {
  import H = Hub

  const PAGE_SIZE := 500

  datatype Phase =
    | Opening                                 // before the head check
    | Checked                                 // the cursor was not beyond the head
    | Replaying                               // subscribed; the next page is still to be read
    | Page(rows: seq<int>, done: nat)         // a page being sent, row by row
    | Live(mark: int)                         // the send loop, with the backfill's high-water mark
    | Closed

  /**
   Commits and broadcasts so far, and the socket: the cursor it came with and the one it pages from, its
   subscription and queue, and the sequences it sent. base is history: the broadcasts before it subscribed.
   */
  datatype Socket = Socket(room: string, head: nat, announced: nat, start: nat, cursor: nat, base: nat, held: bool,
                           queue: H.Queue, phase: Phase, sent: seq<int>)

  datatype Action =
    | Commit
    | Announce
    | Elsewhere(message: H.Message)
    | CheckHead
    | Subscribe
    | ReadPage
    | SendRow
    | TakeLive
    | Revoke
    | Hangup

  function Opened(room: string, head: nat, announced: nat, cursor: nat): Socket {
    Socket(room, head, announced, cursor, cursor, 0, false, H.FRESH, Opening, [])
  }

  /** from + 1, from + 2, ..., from + n. */
  function Span(from: int, n: nat): (r: seq<int>)
    ensures |r| == n && forall i :: 0 <= i < n ==> r[i] == from + 1 + i
  {
    if n == 0 then [] else Span(from, n - 1) + [from + n]
  }

  /** get_room_events: up to a page of the sequences after the cursor. */
  function PageAfter(head: nat, cursor: nat): seq<int> {
    Span(cursor, if cursor >= head then 0 else if head - cursor < PAGE_SIZE then head - cursor else PAGE_SIZE)
  }

  predicate OfRoom(m: H.Message, room: string) {
    m.RoomEvent? && m.roomId == room
  }

  /** The send loop on one message: close on a marker, drop what the backfill sent, else send. */
  function SendLive(s: Socket, mark: int, m: H.Message): Socket {
    if H.Marker(m) then s.(phase := Closed)
    else if OfRoom(m, s.room) && m.sequence > mark then s.(sent := s.sent + [m.sequence])
    else s
  }

  /** The next row of a page; after the last, the next page, or the send loop if the page was short. */
  function SendPaged(s: Socket, rows: seq<int>, n: nat): Socket
    requires n < |rows| && rows[n] >= 0
  {
    var next := s.(sent := s.sent + [rows[n]]);
    if n + 1 < |rows| then next.(phase := Page(rows, n + 1))
    else next.(cursor := rows[n], phase := if |rows| < PAGE_SIZE then Live(rows[n]) else Replaying)
  }

  /** A message offered to the socket's queue, with the broadcasts of its room counted so far. */
  function Hear(s: Socket, m: H.Message, announced: nat): Socket {
    s.(queue := H.Offer(s.queue, m), announced := announced)
  }

  /** The same while the socket holds its subscription; without it the queue hears nothing. */
  function Heed(s: Socket, m: H.Message, announced: nat): Socket {
    if s.held then Hear(s, m, announced) else s.(announced := announced)
  }

  /** The next broadcast, which follows its commit in sequence order. */
  function Announced(s: Socket): Socket {
    if s.announced >= s.head then s else Heed(s, H.RoomEvent(s.room, s.announced + 1), s.announced + 1)
  }

  /** A message for another room of this socket, or for its user. */
  function Overheard(s: Socket, m: H.Message): Socket {
    if OfRoom(m, s.room) then s else Heed(s, m, s.announced)
  }

  function Revoked(s: Socket): Socket {
    if !s.held then s else Hear(s, H.AccessRevoked(s.room), s.announced).(held := false)
  }

  function HeadChecked(s: Socket): Socket {
    if !s.phase.Opening? then s else s.(phase := if s.cursor > s.head then Closed else Checked)
  }

  function Subscribed(s: Socket): Socket {
    if !s.phase.Checked? then s else s.(phase := Replaying, held := true, base := s.announced)
  }

  function PageRead(s: Socket): Socket {
    if !s.phase.Replaying? then s
    else
      var rows := PageAfter(s.head, s.cursor);
      s.(phase := if rows == [] then Live(s.cursor) else Page(rows, 0))
  }

  function RowSent(s: Socket): Socket {
    if s.phase.Page? && s.phase.done < |s.phase.rows| && s.phase.rows[s.phase.done] >= 0
    then SendPaged(s, s.phase.rows, s.phase.done)
    else s
  }

  function LiveTaken(s: Socket): Socket {
    if s.phase.Live? && s.queue.items != []
    then SendLive(s.(queue := H.Take(s.queue)), s.phase.mark, s.queue.items[0])
    else s
  }

  /** One step of the room or of the socket; a step that is not due changes nothing. */
  function After(s: Socket, a: Action): Socket {
    match a
    case Commit => s.(head := s.head + 1)
    case Announce => Announced(s)
    case Elsewhere(m) => Overheard(s, m)
    case CheckHead => HeadChecked(s)
    case Subscribe => Subscribed(s)
    case ReadPage => PageRead(s)
    case SendRow => RowSent(s)
    case TakeLive => LiveTaken(s)
    case Revoke => Revoked(s)
    case Hangup => s.(phase := Closed, held := false)
  }

  function Run(s: Socket, actions: seq<Action>): Socket {
    if actions == [] then s else After(Run(s, actions[..|actions| - 1]), actions[|actions| - 1])
  }

  // ---- Sequences of this room among messages

  function Sequences(messages: seq<H.Message>, room: string): seq<int> {
    if messages == [] then []
    else
      var m := messages[|messages| - 1];
      var rest := Sequences(messages[..|messages| - 1], room);
      if OfRoom(m, room) then rest + [m.sequence] else rest
  }

  lemma {:induction false} SequencesAppend(a: seq<H.Message>, b: seq<H.Message>, room: string)
    ensures Sequences(a + b, room) == Sequences(a, room) + Sequences(b, room)
  {
    if b == [] {
      assert a + b == a;
    } else {
      SequencesAppend(a, b[..|b| - 1], room);
      assert (a + b)[..|a + b| - 1] == a + b[..|b| - 1];
    }
  }

  lemma SequencesPush(a: seq<H.Message>, m: H.Message, room: string)
    ensures Sequences(a + [m], room) == if OfRoom(m, room) then Sequences(a, room) + [m.sequence] else Sequences(a, room)
  {
    assert (a + [m])[..|a + [m]| - 1] == a;
  }

  lemma Rejoined(a: seq<H.Message>)
    requires a != []
    ensures [a[0]] + a[1..] == a && [] + [a[0]] == [a[0]]
  {
  }

  lemma SequencesOfOne(m: H.Message, room: string)
    ensures Sequences([m], room) == if OfRoom(m, room) then [m.sequence] else []
  {
    assert [m][..0] == [];
  }

  lemma SequencesPop(a: seq<H.Message>, room: string)
    requires a != []
    ensures Sequences(a, room)
            == if OfRoom(a[0], room) then [a[0].sequence] + Sequences(a[1..], room) else Sequences(a[1..], room)
  {
    hide Sequences, OfRoom;
    Rejoined(a);
    SequencesAppend([a[0]], a[1..], room);
    SequencesOfOne(a[0], room);
    assert [] + Sequences(a[1..], room) == Sequences(a[1..], room);
  }

  // ---- Order: what is sent only ever increases

  predicate Increasing(q: seq<int>) {
    forall i, j :: 0 <= i < j < |q| ==> q[i] < q[j]
  }

  function Last(s: Socket): int {
    if s.sent == [] then s.start else s.sent[|s.sent| - 1]
  }

  /** Where a replaying socket stands: all it sent reaches up to here. */
  ghost predicate Placed(s: Socket) {
    match s.phase
    case Opening => s.sent == [] && !s.held && s.queue == H.FRESH && s.cursor == s.start
    case Checked => s.sent == [] && !s.held && s.queue == H.FRESH && s.cursor == s.start
    case Replaying => Last(s) == s.cursor
    case Page(rows, n) => rows == Span(s.cursor, |rows|) && n < |rows| && Last(s) == s.cursor + n
    case Live(mark) =>
      && mark <= Last(s) && (Last(s) <= mark || Last(s) <= s.announced)
      && forall x <- Sequences(s.queue.items, s.room) :: x > Last(s) || x <= mark
    case Closed => true
  }

  /** The queue's sequences of this room increase and have all been announced. */
  ghost predicate QueueOrdered(s: Socket) {
    && Increasing(Sequences(s.queue.items, s.room))
    && forall x <- Sequences(s.queue.items, s.room) :: x <= s.announced
  }

  ghost predicate Ordered(s: Socket) {
    && Increasing(s.sent) && (forall x <- s.sent :: s.start < x <= Last(s))
    && s.start <= Last(s)
    && Placed(s) && QueueOrdered(s)
  }

  /** Offering changes a room's sequences by at most losing the first and gaining the new one. */
  lemma OfferSequences(q: H.Queue, m: H.Message, room: string)
    ensures var before := Sequences(q.items, room);
            var after := Sequences(H.Offer(q, m).items, room);
            if H.Full(q) then after == before || (before != [] && after == before[1..])
            else after == if OfRoom(m, room) then before + [m.sequence] else before
  {
    if H.Full(q) {
      if q.items != [] {
        SequencesPop(q.items, room);
        SequencesPush(q.items[1..], H.Resync, room);
      } else {
        SequencesPush([], H.Resync, room);
      }
    } else {
      SequencesPush(q.items, m, room);
    }
  }

  lemma IncreasingTail(q: seq<int>)
    requires Increasing(q) && q != []
    ensures Increasing(q[1..]) && forall x <- q[1..] :: q[0] < x && x in q
  {
    forall x | x in q[1..] ensures q[0] < x && x in q {
      var i :| 0 <= i < |q| - 1 && q[1..][i] == x;
      assert q[i + 1] == x;
    }
  }

  lemma IncreasingPush(q: seq<int>, x: int)
    requires Increasing(q) && forall y <- q :: y < x
    ensures Increasing(q + [x])
  {
    forall i, j | 0 <= i < j < |q| + 1 ensures (q + [x])[i] < (q + [x])[j] {
      assert q[i] in q;
    }
  }

  /** What is offered is of another room, or the next sequence of this one. */
  lemma OfferKeepsOrder(q: H.Queue, m: H.Message, room: string, announced: nat)
    requires Increasing(Sequences(q.items, room)) && forall x <- Sequences(q.items, room) :: x <= announced
    requires OfRoom(m, room) ==> m.sequence == announced + 1
    ensures var after := Sequences(H.Offer(q, m).items, room);
            && Increasing(after)
            && forall x <- after :: x in Sequences(q.items, room) || (OfRoom(m, room) && x == announced + 1)
  {
    OfferSequences(q, m, room);
    var before := Sequences(q.items, room);
    if before != [] {
      IncreasingTail(before);
    }
    if OfRoom(m, room) {
      IncreasingPush(before, m.sequence);
    }
  }

  lemma OfferKeepsOrdered(s: Socket, m: H.Message, announced: nat)
    requires Ordered(s) && s.held
    requires if OfRoom(m, s.room) then m.sequence == announced == s.announced + 1 else announced == s.announced
    ensures Ordered(Hear(s, m, announced))
  {
    var t := s.(queue := H.Offer(s.queue, m), announced := announced);
    OfferKeepsOrder(s.queue, m, s.room, s.announced);
    assert Last(t) == Last(s) && QueueOrdered(t);
  }

  /** Taking pops at most the first of the room's sequences. */
  lemma TakeSequences(items: seq<H.Message>, room: string)
    requires items != [] && Increasing(Sequences(items, room))
    ensures var before := Sequences(items, room);
            var rest := Sequences(items[1..], room);
            && Increasing(rest) && (forall x <- rest :: x in before)
            && (OfRoom(items[0], room) ==> items[0].sequence in before && forall x <- rest :: items[0].sequence < x)
  {
    SequencesPop(items, room);
    var before := Sequences(items, room);
    if OfRoom(items[0], room) {
      IncreasingTail(before);
      assert before[1..] == Sequences(items[1..], room) && before[0] == items[0].sequence;
    } else {
      assert before == Sequences(items[1..], room);
    }
  }

  lemma SendKeepsOrdered(s: Socket, t: Socket, mark: int, x: int)
    requires Ordered(s) && s.phase == Live(mark) && mark < x <= s.announced && Last(s) < x
    requires t == s.(queue := t.queue, sent := s.sent + [x]) && QueueOrdered(t)
    requires forall y <- Sequences(t.queue.items, t.room) :: y > x
    ensures Ordered(t)
  {
    IncreasingPush(s.sent, x);
  }

  lemma TakeKeepsOrdered(s: Socket)
    requires Ordered(s)
    ensures Ordered(LiveTaken(s))
  {
    if s.phase.Live? && s.queue.items != [] {
      TakeSequences(s.queue.items, s.room);
      var m := s.queue.items[0];
      var t := LiveTaken(s);
      assert Sequences(t.queue.items, t.room) == Sequences(s.queue.items[1..], s.room);
      if !H.Marker(m) && OfRoom(m, s.room) && m.sequence > s.phase.mark {
        SendKeepsOrdered(s, t, s.phase.mark, m.sequence);
      }
    }
  }

  lemma RowKeepsOrdered(s: Socket)
    requires Ordered(s)
    ensures Ordered(RowSent(s))
  {
    if s.phase.Page? {
      var rows, n := s.phase.rows, s.phase.done;
      assert rows[n] == s.cursor + 1 + n == Last(s) + 1;
      hide Span, Sequences;
      IncreasingPush(s.sent, rows[n]);
      hide Increasing;
    }
  }

  lemma ReadKeepsOrdered(s: Socket)
    requires Ordered(s)
    ensures Ordered(PageRead(s))
  {
    assert Last(PageRead(s)) == Last(s);
  }

  lemma OpeningKeepsOrdered(s: Socket, a: Action)
    requires Ordered(s) && (a.Commit? || a.CheckHead? || a.Subscribe? || a.Hangup?)
    ensures Ordered(After(s, a))
  {
    assert Last(After(s, a)) == Last(s);
  }

  lemma HeedKeepsOrdered(s: Socket, m: H.Message, announced: nat)
    requires Ordered(s)
    requires if OfRoom(m, s.room) then m.sequence == announced == s.announced + 1 else announced == s.announced
    ensures Ordered(Heed(s, m, announced))
  {
    if s.held {
      OfferKeepsOrdered(s, m, announced);
    } else {
      assert Last(s.(announced := announced)) == Last(s);
    }
  }

  lemma AnnounceKeepsOrdered(s: Socket)
    requires Ordered(s)
    ensures Ordered(Announced(s))
  {
    hide Ordered;
    if s.announced < s.head {
      var m := H.RoomEvent(s.room, s.announced + 1);
      assert OfRoom(m, s.room);
      HeedKeepsOrdered(s, m, s.announced + 1);
      assert Announced(s) == Heed(s, m, s.announced + 1);
    }
  }

  lemma ElsewhereKeepsOrdered(s: Socket, m: H.Message)
    requires Ordered(s)
    ensures Ordered(Overheard(s, m))
  {
    if !OfRoom(m, s.room) {
      HeedKeepsOrdered(s, m, s.announced);
    }
  }

  lemma RevokeKeepsOrdered(s: Socket)
    requires Ordered(s)
    ensures Ordered(Revoked(s))
  {
    if s.held {
      var t := Hear(s, H.AccessRevoked(s.room), s.announced);
      OfferKeepsOrdered(s, H.AccessRevoked(s.room), s.announced);
      assert Revoked(s) == t.(held := false) && Last(Revoked(s)) == Last(t);
    }
  }

  lemma StepKeepsOrdered(s: Socket, a: Action)
    requires Ordered(s)
    ensures Ordered(After(s, a))
  {
    match a
    case Announce => AnnounceKeepsOrdered(s);
    case ReadPage => ReadKeepsOrdered(s);
    case Elsewhere(m) => ElsewhereKeepsOrdered(s, m);
    case Revoke => RevokeKeepsOrdered(s);
    case TakeLive => TakeKeepsOrdered(s);
    case SendRow => RowKeepsOrdered(s);
    case _ => OpeningKeepsOrdered(s, a);
  }

  lemma {:induction false} RunKeepsOrdered(s: Socket, actions: seq<Action>)
    requires Ordered(s)
    ensures Ordered(Run(s, actions)) && Run(s, actions).start == s.start
  {
    if actions != [] {
      RunKeepsOrdered(s, actions[..|actions| - 1]);
      StepKeepsOrdered(Run(s, actions[..|actions| - 1]), actions[|actions| - 1]);
    }
  }

  /** Whatever happens, overflow and revocation included, the socket never repeats, reorders or goes back before its cursor. */
  lemma NeverRepeats(room: string, head: nat, announced: nat, cursor: nat, actions: seq<Action>)
    ensures var s := Run(Opened(room, head, announced, cursor), actions);
            Increasing(s.sent) && forall x <- s.sent :: x > cursor
  {
    RunKeepsOrdered(Opened(room, head, announced, cursor), actions);
  }

  // ---- Completeness: nothing is skipped unless a marker says so

  function Max(a: int, b: int): int {
    if a < b then b else a
  }

  /** The sequence the send loop has reached in what was announced since the socket subscribed. */
  function Reached(s: Socket): int {
    s.base + |Sequences(s.queue.taken, s.room)|
  }

  ghost predicate Gapless(s: Socket) {
    s.sent == Span(s.start, |s.sent|)
  }

  /** The queue was offered every announcement since the socket subscribed; once it lost its subscription it is marked. */
  ghost predicate Heard(s: Socket) {
    && H.Sound(s.queue) && s.base <= s.announced && s.start <= s.head
    && (s.held ==> Sequences(s.queue.offered, s.room) == Span(s.base, s.announced - s.base))
    && (!s.held ==> s.phase.Closed? || H.Marked(s.queue))
  }

  /** How far a socket that replays, or sends live, has come. */
  ghost predicate Standing(s: Socket) {
    match s.phase
    case Opening => s.sent == [] && !s.held
    case Checked => s.sent == [] && !s.held && s.start <= s.head
    case Replaying =>
      && Heard(s) && s.queue.taken == []
      && s.start <= s.cursor <= s.head && s.sent == Span(s.start, s.cursor - s.start)
    case Page(rows, n) =>
      && Heard(s) && s.queue.taken == [] && n < |rows| <= PAGE_SIZE
      && s.start <= s.cursor && s.cursor + |rows| <= s.head && s.sent == Span(s.start, s.cursor + n - s.start)
      && (|rows| < PAGE_SIZE ==> s.base <= s.cursor + |rows|)
    case Live(mark) =>
      && Heard(s) && s.base <= mark <= s.head && s.start <= mark
      && (H.Marked(s.queue) || (Gapless(s) && s.start + |s.sent| == Max(mark, Reached(s))))
    case Closed => H.Marked(s.queue) || Gapless(s)
  }

  ghost predicate Complete(s: Socket) {
    s.announced <= s.head && Standing(s)
  }

  /** Only committed events are sent. */
  ghost predicate Committed(s: Socket) {
    s.sent != [] ==> Last(s) <= s.head
  }

  lemma TakeKeepsCommitted(s: Socket)
    requires Ordered(s) && Committed(s) && s.announced <= s.head && s.phase.Live? && s.queue.items != []
    ensures Committed(LiveTaken(s))
  {
    TakeSequences(s.queue.items, s.room);
  }

  lemma StepKeepsCommitted(s: Socket, a: Action)
    requires Ordered(s) && Complete(s) && Committed(s)
    ensures Committed(After(s, a))
  {
    if a.TakeLive? && s.phase.Live? && s.queue.items != [] {
      TakeKeepsCommitted(s);
    } else if a.SendRow? && s.phase.Page? {
      assert s.phase.rows[s.phase.done] == s.cursor + 1 + s.phase.done;
    }
  }

  lemma OfferedGrows(offered: seq<H.Message>, m: H.Message, room: string, base: nat, announced: nat, next: nat)
    requires base <= announced && Sequences(offered, room) == Span(base, announced - base)
    requires if OfRoom(m, room) then m.sequence == next == announced + 1 else next == announced
    ensures Sequences(offered + [m], room) == Span(base, next - base)
  {
    SequencesPush(offered, m, room);
    if OfRoom(m, room) {
      assert Span(base, next - base) == Span(base, announced - base) + [next];
    }
  }

  lemma OfferKeepsHeard(s: Socket, m: H.Message, announced: nat)
    requires Heard(s) && s.held
    requires if OfRoom(m, s.room) then m.sequence == announced == s.announced + 1 else announced == s.announced
    ensures Heard(Hear(s, m, announced))
    ensures H.Marked(s.queue) || H.Marker(m) ==> H.Marked(H.Offer(s.queue, m))
  {
    H.OfferKeepsSound(s.queue, m);
    H.OfferMarks(s.queue, m);
    OfferedGrows(s.queue.offered, m, s.room, s.base, s.announced, announced);
  }

  lemma OfferKeepsComplete(s: Socket, m: H.Message, announced: nat)
    requires Complete(s) && s.held && announced <= s.head
    requires if OfRoom(m, s.room) then m.sequence == announced == s.announced + 1 else announced == s.announced
    ensures Complete(Hear(s, m, announced))
  {
    if !s.phase.Closed? {
      OfferKeepsHeard(s, m, announced);
    } else {
      H.OfferMarks(s.queue, m);
    }
  }

  lemma HeedKeepsComplete(s: Socket, m: H.Message, announced: nat)
    requires Complete(s) && announced <= s.head
    requires if OfRoom(m, s.room) then m.sequence == announced == s.announced + 1 else announced == s.announced
    ensures Complete(Heed(s, m, announced))
  {
    if s.held {
      OfferKeepsComplete(s, m, announced);
    }
  }

  /** What the reader takes next from an unmarked queue is of another room, or the next announcement. */
  lemma NextTaken(s: Socket)
    requires Heard(s) && !H.Marked(s.queue) && s.queue.items != [] && s.held
    ensures var m := s.queue.items[0];
            && !H.Marker(m)
            && (OfRoom(m, s.room) ==> m.sequence == Reached(s) + 1)
            && Reached(s.(queue := H.Take(s.queue))) == Reached(s) + if OfRoom(m, s.room) then 1 else 0
  {
    var q := s.queue;
    assert q.items[0] in q.items;
    SequencesAppend(q.taken, q.items, s.room);
    SequencesPop(q.items, s.room);
    SequencesPush(q.taken, q.items[0], s.room);
    if OfRoom(q.items[0], s.room) {
      var k := |Sequences(q.taken, s.room)|;
      assert Span(s.base, s.announced - s.base)[k] == Sequences(q.items, s.room)[0];
    }
  }

  lemma TakeKeepsComplete(s: Socket)
    requires Complete(s)
    ensures Complete(LiveTaken(s))
  {
    if s.phase.Live? && s.queue.items != [] {
      H.TakeKeepsSound(s.queue);
      if !H.Marked(s.queue) {
        NextTaken(s);
        assert Span(s.start, |s.sent| + 1) == Span(s.start, |s.sent|) + [s.start + |s.sent| + 1];
      }
    }
  }

  lemma StillHeard(s: Socket, u: Socket)
    requires Heard(s) && !s.phase.Closed?
    requires u.queue == s.queue && u.base == s.base && u.announced == s.announced && u.start == s.start
    requires u.head == s.head && u.held == s.held && u.room == s.room
    ensures Heard(u)
  {
  }

  /** A row was sent that is not its page's last. */
  lemma MiddleRowKeepsComplete(s: Socket)
    requires Complete(s) && s.phase.Page? && s.phase.done + 1 < |s.phase.rows|
    requires RowSent(s).sent == Span(s.start, s.cursor + s.phase.done + 1 - s.start)
    requires s.phase.rows[s.phase.done] == s.cursor + 1 + s.phase.done
    ensures Complete(RowSent(s))
  {
    StillHeard(s, RowSent(s));
    hide Heard, Span, Gapless, Reached;
  }

  /** A page's last row was sent: the cursor moves behind it, and a short page ends the replay. */
  lemma LastRowKeepsComplete(s: Socket)
    requires Complete(s) && s.phase.Page? && s.phase.done + 1 == |s.phase.rows|
    requires RowSent(s).sent == Span(s.start, s.cursor + |s.phase.rows| - s.start)
    requires s.phase.rows[s.phase.done] == s.cursor + |s.phase.rows|
    ensures Complete(RowSent(s))
  {
    StillHeard(s, RowSent(s));
    assert Reached(s) == s.base;
    assert Reached(RowSent(s)) == s.base;
    hide Heard, Span, Reached;
  }

  lemma RowKeepsComplete(s: Socket)
    requires Ordered(s) && Complete(s)
    ensures Complete(RowSent(s))
  {
    if s.phase.Page? {
      RowIsNext(s);
      hide Ordered, Span;
      if s.phase.done + 1 < |s.phase.rows| {
        MiddleRowKeepsComplete(s);
      } else {
        LastRowKeepsComplete(s);
      }
      hide Complete;
    }
  }

  lemma RowIsNext(s: Socket)
    requires Ordered(s) && Complete(s) && s.phase.Page?
    ensures var rows, n := s.phase.rows, s.phase.done;
            && rows[n] == s.cursor + 1 + n
            && RowSent(s).sent == Span(s.start, s.cursor + n + 1 - s.start)
  {
  }

  lemma ReadKeepsComplete(s: Socket)
    requires Ordered(s) && Complete(s)
    ensures Complete(PageRead(s))
  {
    assert Sequences([], s.room) == [];
  }

  lemma OpeningKeepsComplete(s: Socket, a: Action)
    requires Ordered(s) && Complete(s) && (a.Commit? || a.CheckHead? || a.Subscribe?)
    ensures Complete(After(s, a))
  {
    assert Sequences([], s.room) == [];
  }

  lemma HangupKeepsComplete(s: Socket)
    requires Complete(s)
    ensures Complete(After(s, Hangup))
  {
  }

  lemma HeadAhead(s: Socket)
    requires s.announced < s.head
    ensures var m := H.RoomEvent(s.room, s.announced + 1);
            OfRoom(m, s.room) && Announced(s) == Heed(s, m, s.announced + 1)
  {
    hide Heed;
  }

  lemma AnnounceKeepsComplete(s: Socket)
    requires Complete(s)
    ensures Complete(Announced(s))
  {
    if s.announced < s.head {
      var m := H.RoomEvent(s.room, s.announced + 1);
      HeadAhead(s);
      hide Complete, Heed;
      HeedKeepsComplete(s, m, s.announced + 1);
    }
  }

  lemma ElsewhereKeepsComplete(s: Socket, m: H.Message)
    requires Complete(s)
    ensures Complete(Overheard(s, m))
  {
    if !OfRoom(m, s.room) {
      HeedKeepsComplete(s, m, s.announced);
    }
  }

  lemma RevokeKeepsComplete(s: Socket)
    requires Complete(s)
    ensures Complete(Revoked(s))
  {
    if s.held {
      var m := H.AccessRevoked(s.room);
      OfferKeepsComplete(s, m, s.announced);
      H.OfferMarks(s.queue, m);
    }
  }

  lemma StepKeepsComplete(s: Socket, a: Action)
    requires Ordered(s) && Complete(s)
    ensures Complete(After(s, a))
  {
    match a
    case Announce => AnnounceKeepsComplete(s);
    case ReadPage => ReadKeepsComplete(s);
    case Elsewhere(m) => ElsewhereKeepsComplete(s, m);
    case Revoke => RevokeKeepsComplete(s);
    case TakeLive => TakeKeepsComplete(s);
    case SendRow => RowKeepsComplete(s);
    case Hangup => HangupKeepsComplete(s);
    case _ => OpeningKeepsComplete(s, a);
  }

  lemma {:induction false} RunKeepsComplete(s: Socket, actions: seq<Action>)
    requires Ordered(s) && Complete(s)
    requires s.sent == []
    ensures Complete(Run(s, actions)) && Committed(Run(s, actions))
  {
    if actions != [] {
      var shorter := actions[..|actions| - 1];
      RunKeepsComplete(s, shorter);
      RunKeepsOrdered(s, shorter);
      StepKeepsCommitted(Run(s, shorter), actions[|actions| - 1]);
      StepKeepsComplete(Run(s, shorter), actions[|actions| - 1]);
    }
  }

  lemma DrainedIsCurrent(s: Socket)
    requires Complete(s) && s.phase.Live? && s.queue.items == [] && !H.Marked(s.queue)
    ensures s.start + |s.sent| >= s.announced
  {
    assert s.queue.taken + s.queue.items == s.queue.taken;
    assert |Span(s.base, s.announced - s.base)| == s.announced - s.base;
  }

  /**
   Unless the queue carries a marker, the socket has sent exactly cursor + 1, cursor + 2, ..., all of them
   committed, and once its send loop has drained the queue that reaches every event announced so far.
   */
  lemma GaplessHandover(room: string, head: nat, announced: nat, cursor: nat, actions: seq<Action>)
    requires announced <= head
    ensures var s := Run(Opened(room, head, announced, cursor), actions);
            !H.Marked(s.queue) ==>
              && s.sent == Span(cursor, |s.sent|)
              && (forall x <- s.sent :: x <= s.head)
              && (s.phase.Live? && s.queue.items == [] ==> cursor + |s.sent| >= s.announced)
  {
    var first := Opened(room, head, announced, cursor);
    RunKeepsComplete(first, actions);
    RunKeepsOrdered(first, actions);
    var s := Run(first, actions);
    if !H.Marked(s.queue) {
      CompleteIsGapless(s);
      if s.phase.Live? && s.queue.items == [] {
        DrainedIsCurrent(s);
      }
    }
  }

  lemma CompleteIsGapless(s: Socket)
    requires Complete(s) && !H.Marked(s.queue)
    ensures Gapless(s)
  {
  }

  /**
   A remark: had a socket subscribed with a cursor beyond the head, which CheckHead rules out, the room's next commit
   would never be sent, whatever happens afterwards.
   */
  lemma SkippingTheHeadCheckSwallows(s: Socket, actions: seq<Action>)
    requires Ordered(s) && s.phase.Checked? && s.start > s.head
    ensures s.head + 1 !in Run(s, actions).sent
  {
    RunKeepsOrdered(s, actions);
  }

  // ---- Markers close

  /** A closed socket sends nothing more, whatever happens. */
  lemma {:induction false} ClosedStaysClosed(s: Socket, actions: seq<Action>)
    requires s.phase.Closed?
    ensures Run(s, actions).phase.Closed? && Run(s, actions).sent == s.sent
  {
    if actions != [] {
      ClosedStaysClosed(s, actions[..|actions| - 1]);
      hide H.Offer;
    }
  }

  /** A live socket that reads a revocation or a resync marker sends nothing more. */
  lemma MarkersClose(s: Socket, actions: seq<Action>)
    requires s.phase.Live? && s.queue.items != [] && (s.queue.items[0].AccessRevoked? || s.queue.items[0] == H.Resync)
    ensures Run(After(s, TakeLive), actions).phase == Closed && Run(After(s, TakeLive), actions).sent == s.sent
  {
    ClosedStaysClosed(After(s, TakeLive), actions);
  }

  // ---- Progress: an undisturbed socket gets there

  lemma {:induction false} RunAppend(s: Socket, a: seq<Action>, b: seq<Action>)
    ensures Run(s, a + b) == Run(Run(s, a), b)
  {
    if b == [] {
      assert a + b == a;
    } else {
      RunAppend(s, a, b[..|b| - 1]);
      assert (a + b)[..|a + b| - 1] == a + b[..|b| - 1];
    }
  }

  lemma RunOne(s: Socket, a: Action)
    ensures Run(s, [a]) == After(s, a)
  {
    assert [a][..0] == [];
  }

  function Rows(n: nat): seq<Action> {
    if n == 0 then [] else [SendRow] + Rows(n - 1)
  }

  /** A read and the rows it gives, again and again until a page is short. */
  function Pages(n: nat): seq<Action> {
    if n < 500 then [ReadPage] + Rows(n) else [ReadPage] + Rows(500) + Pages(n - 500)
  }

  /** The page as sent: the cursor is at its end, and a short page ends the replay. */
  function PageSent(s: Socket, n: nat): Socket {
    s.(sent := s.sent + Span(s.cursor, n), cursor := s.cursor + n,
       phase := if n < 500 then Live(s.cursor + n) else Replaying)
  }

  lemma RunFirst(s: Socket, a: Action, rest: seq<Action>)
    ensures Run(s, [a] + rest) == Run(After(s, a), rest)
  {
    RunAppend(s, [a], rest);
    RunOne(s, a);
  }

  lemma OneRow(s: Socket, k: nat, n: nat)
    requires k < n && s.phase == Page(Span(s.cursor, n), k)
    ensures RowSent(s).sent == s.sent + [s.cursor + k + 1]
    ensures if k + 1 < n then RowSent(s) == s.(sent := RowSent(s).sent, phase := Page(Span(s.cursor, n), k + 1))
            else RowSent(s) == s.(sent := RowSent(s).sent, cursor := s.cursor + n,
                                  phase := if n < 500 then Live(s.cursor + n) else Replaying)
  {
    hide Span;
  }

  lemma RowsJoin(sent: seq<int>, rows: seq<int>, k: nat)
    requires k < |rows|
    ensures sent + [rows[k]] + rows[k + 1..] == sent + rows[k..]
    ensures rows[|rows|..] == []
  {
  }

  lemma RowsUnfold(s: Socket, n: nat)
    ensures n > 0 ==> Rows(n) == [SendRow] + Rows(n - 1)
    ensures Rows(0) == [] && Run(s, []) == s
  {
  }

  lemma SendingIsRowSent(s: Socket)
    ensures After(s, SendRow) == RowSent(s)
  {
    hide RowSent;
  }

  lemma {:induction false} RowsAreSent(s: Socket, k: nat, n: nat)
    requires k < n && s.phase == Page(Span(s.cursor, n), k)
    ensures Run(s, Rows(n - k)) == PageSent(s, n).(sent := s.sent + Span(s.cursor, n)[k..])
    decreases n - k
  {
    hide Run, Span, Rows, RowSent, After;
    var next := RowSent(s);
    RowsUnfold(next, n - k);
    OneRow(s, k, n);
    SendingIsRowSent(s);
    RowsJoin(s.sent, Span(s.cursor, n), k);
    RunFirst(s, SendRow, Rows(n - k - 1));
    if k + 1 < n {
      RowsAreSent(next, k + 1, n);
    }
  }

  lemma PageOpens(s: Socket, n: nat)
    requires s.phase.Replaying? && s.cursor <= s.head
    requires n == if s.head - s.cursor < 500 then s.head - s.cursor else 500
    ensures After(s, ReadPage) == s.(phase := if n == 0 then Live(s.cursor) else Page(Span(s.cursor, n), 0))
    ensures s.sent + Span(s.cursor, 0) == s.sent
  {
  }

  /** A page of n rows, all the socket still lacks or as many as fit. */
  lemma OnePage(s: Socket, n: nat)
    requires s.phase.Replaying? && s.cursor <= s.head
    requires n == if s.head - s.cursor < 500 then s.head - s.cursor else 500
    ensures Run(s, [ReadPage] + Rows(n)) == PageSent(s, n)
  {
    hide Run, Span, Rows, PageRead, After;
    var next := After(s, ReadPage);
    PageOpens(s, n);
    RunFirst(s, ReadPage, Rows(n));
    RowsUnfold(next, 0);
    if n > 0 {
      RowsAreSent(next, 0, n);
      assert Span(s.cursor, n)[0..] == Span(s.cursor, n);
    }
  }

  lemma {:induction false} SpanSplits(from: int, m: nat, n: nat)
    ensures Span(from, m) + Span(from + m, n) == Span(from, m + n)
  {
  }

  lemma SpanContinues(sent: seq<int>, from: int, m: nat, n: nat)
    ensures sent + Span(from, m) + Span(from + m, n) == sent + Span(from, m + n)
  {
    SpanSplits(from, m, n);
  }

  lemma {:induction false} PagesAreSent(s: Socket)
    requires s.phase.Replaying? && s.cursor <= s.head
    ensures Run(s, Pages(s.head - s.cursor))
            == s.(sent := s.sent + Span(s.cursor, s.head - s.cursor), cursor := s.head, phase := Live(s.head))
    decreases s.head - s.cursor
  {
    var n := s.head - s.cursor;
    hide Run, Span, Rows;
    if n < 500 {
      OnePage(s, n);
    } else {
      var next := PageSent(s, 500);
      OnePage(s, 500);
      RunAppend(s, [ReadPage] + Rows(500), Pages(n - 500));
      PagesAreSent(next);
      SpanContinues(s.sent, s.cursor, 500, n - 500);
    }
  }

  /**
   A socket comes in exactly if its cursor is not beyond the head, a cursor at the head included. Left alone it then
   sends every committed event after its cursor, once and in order, and goes live, subscribed and with nothing queued.
   */
  lemma UndisturbedReplay(room: string, head: nat, announced: nat, cursor: nat)
    ensures cursor <= head ==>
              Run(Opened(room, head, announced, cursor), [CheckHead, Subscribe] + Pages(head - cursor))
              == Socket(room, head, announced, cursor, head, announced, true, H.Queue([], [], []), Live(head),
                        Span(cursor, head - cursor))
    ensures cursor > head ==> After(Opened(room, head, announced, cursor), CheckHead).phase == Closed
  {
    if cursor <= head {
      var s := Opened(room, head, announced, cursor);
      RunAppend(s, [CheckHead, Subscribe], Pages(head - cursor));
      RunAppend(s, [CheckHead], [Subscribe]);
      assert [CheckHead] + [Subscribe] == [CheckHead, Subscribe];
      RunOne(s, CheckHead);
      RunOne(After(s, CheckHead), Subscribe);
      var u := Run(s, [CheckHead, Subscribe]);
      assert u == Socket(room, head, announced, cursor, cursor, announced, true, H.FRESH, Replaying, []);
      PagesAreSent(u);
      assert [] + Span(cursor, head - cursor) == Span(cursor, head - cursor);
    }
  }

  /** A live socket that has sent all there is, sends the room's next event when it is announced. */
  lemma LiveSendsTheNext(s: Socket, mark: int)
    requires s.phase == Live(mark) && s.held && s.queue.items == [] && mark <= s.head && s.announced == s.head
    ensures var u := Run(s, [Commit, Announce, TakeLive]);
            u.sent == s.sent + [s.head + 1] && u.phase == s.phase && u.held && u.queue.items == [] && u.announced == u.head
  {
    RunAppend(s, [Commit], [Announce, TakeLive]);
    assert [Commit] + [Announce, TakeLive] == [Commit, Announce, TakeLive];
    RunOne(s, Commit);
    var t := After(s, Commit);
    RunAppend(t, [Announce], [TakeLive]);
    assert [Announce] + [TakeLive] == [Announce, TakeLive];
    RunOne(t, Announce);
    RunOne(After(t, Announce), TakeLive);
    assert After(t, Announce).queue.items == [H.RoomEvent(s.room, s.head + 1)];
  }
}
