/**
 verify_event_chain of src/multiplayer/security/audit.py: the loop, the first-divergence
 specification it refines, and what acceptance means without any loop at all.
 */
module ChainVerifier {
  import opened Prelude
  import opened EventChain

  /** The reason texts of ChainBreak, as values. */
  datatype Reason =
    | SequenceMissing(expected: int)
    | PrevHashBreaks
    | NoRedactionRow
    | OriginalHashDiffers
    | HeaderDiffers
    | HashDiffers
    | AnnouncementDiffers
    | NeverAnnounced
    | CounterMissing
    | CounterDiffers(logEnd: int, counter: int)

  datatype ChainBreak = ChainBreak(roomId: string, sequence: int, eventId: string, reason: Reason)

  datatype Pending = Pending(sequence: int, eventId: string, headerHash: string, originalHash: string)

  /** prev_hash, last_sequence and pending_redactions, the loop's running state. */
  datatype Cursor = Cursor(prevHash: string, last: int, pending: map<string, Pending>)

  const START := Cursor(GENESIS_HASH, 0, map[])

  // ---- One row

  predicate Matches(a: Announcement, p: Pending) {
    a.headerHash == p.headerHash && a.originalEventHash == p.originalHash
  }

  /** Strike out what the entries announce; None when one contradicts its pending record. */
  function Resolve(entries: seq<Announcement>, pending: map<string, Pending>): Option<map<string, Pending>> {
    if entries == [] then Some(pending)
    else
      var n := |entries| - 1;
      match Resolve(entries[..n], pending)
      case None => None
      case Some(left) =>
        var a := entries[n];
        if a.redactionId !in left then Some(left)
        else if Matches(a, left[a.redactionId]) then Some(left - {a.redactionId})
        else None
  }

  /** What the verifier reads out of a row: its marker, its announcements, and its two hashes. */
  datatype Reading = Reading(eventId: string, marker: Option<string>, named: seq<Announcement>,
                             headerHash: string, eventHash: string)

  function Read(c: Codec, row: Row): Reading {
    Reading(row.eventId, RedactionMarker(c, row.payload), Announced(c, row.eventType, row.payload),
            HeaderHash(c, row), Str(row.eventHash))
  }

  function Readings(c: Codec, rows: seq<Row>): (rs: seq<Reading>)
    ensures |rs| == |rows|
  {
    seq(|rows|, i requires 0 <= i < |rows| => Read(c, rows[i]))
  }

  /** The record check of a marker row: the pending entry, or why the record does not back the row. */
  function CheckMarker(redactions: map<string, Redaction>, sequence: int, r: Reading): Result<Pending, Reason>
    requires r.marker.Some?
  {
    var id := r.marker.value;
    if id !in redactions || redactions[id].eventId != r.eventId then Err(NoRedactionRow)
    else if redactions[id].originalEventHash != r.eventHash then Err(OriginalHashDiffers)
    else if redactions[id].headerHash != r.headerHash then Err(HeaderDiffers)
    else Ok(Pending(sequence, r.eventId, r.headerHash, r.eventHash))
  }

  /** Everything the loop checks on one row, in its order; expected is the hash recomputed from it. */
  function CheckReading(redactions: map<string, Redaction>, row: Row, r: Reading, expected: string, cur: Cursor)
    : Result<Cursor, Reason>
  {
    if row.sequence != cur.last + 1 then Err(SequenceMissing(cur.last + 1))
    else if row.prevHash != Some(cur.prevHash) then Err(PrevHashBreaks)
    else if r.marker.Some? then
      var p :- CheckMarker(redactions, row.sequence, r);
      Ok(Cursor(p.originalHash, row.sequence, cur.pending[r.marker.value := p]))
    else if row.eventHash != Some(expected) then Err(HashDiffers)
    else
      match Resolve(r.named, cur.pending)
      case None => Err(AnnouncementDiffers)
      case Some(left) => Ok(Cursor(expected, row.sequence, left))
  }

  function CheckRow(c: Codec, redactions: map<string, Redaction>, room: string, row: Row, cur: Cursor)
    : Result<Cursor, Reason>
  {
    CheckReading(redactions, row, Read(c, row), ChainHash(c, cur.prevHash, room, row), cur)
  }

  // ---- One room

  datatype Scan = Scan(cursor: Cursor, verified: nat, found: Option<ChainBreak>)

  /** The state after the first k rows; a divergence is final. */
  function ScanPrefix(c: Codec, redactions: map<string, Redaction>, room: string, rows: seq<Row>, k: nat): Scan
    requires k <= |rows|
  {
    if k == 0 then Scan(START, 0, None)
    else
      var s := ScanPrefix(c, redactions, room, rows, k - 1);
      if s.found.Some? then s
      else
        var row := rows[k - 1];
        match CheckRow(c, redactions, room, row, s.cursor)
        case Ok(next) => Scan(next, s.verified + 1, None)
        case Err(reason) => s.(found := Some(ChainBreak(room, row.sequence, row.eventId, reason)))
  }

  predicate IsEarliest(pending: map<string, Pending>, p: Pending) {
    p in pending.Values && forall id <- pending :: p.sequence <= pending[id].sequence
  }

  /** The break reported once every row of a room has passed: an open redaction, else the counter. */
  ghost predicate TailBreak(db: Db, room: string, rows: seq<Row>, cur: Cursor, found: Option<ChainBreak>) {
    var lastId := if rows == [] then "" else rows[|rows| - 1].eventId;
    if cur.pending != map[] then
      exists p :: IsEarliest(cur.pending, p)
                  && found == Some(ChainBreak(room, p.sequence, p.eventId, NeverAnnounced))
    else if room !in db.counters then
      found == if cur.last > 0 then Some(ChainBreak(room, cur.last, lastId, CounterMissing)) else None
    else
      found == if db.counters[room] != cur.last
               then Some(ChainBreak(room, cur.last, lastId, CounterDiffers(cur.last, db.counters[room])))
               else None
  }

  /** The specification of one room's report: how many rows verified, and the first divergence. */
  ghost predicate RoomReport(c: Codec, db: Db, room: string, verified: nat, found: Option<ChainBreak>) {
    var rows := db.Rows(room);
    var s := ScanPrefix(c, db.redactions, room, rows, |rows|);
    && verified == s.verified
    && if s.found.Some? then found == s.found else TailBreak(db, room, rows, s.cursor, found)
  }

  ghost predicate Accepts(c: Codec, db: Db, room: string) {
    var rows := db.Rows(room);
    var s := ScanPrefix(c, db.redactions, room, rows, |rows|);
    s.found.None? && TailBreak(db, room, rows, s.cursor, None)
  }

  // ---- The loop

  method EarliestPending(pending: map<string, Pending>) returns (p: Pending)
    requires pending != map[]
    ensures IsEarliest(pending, p)
  {
    var todo := pending.Keys;
    var first :| first in todo;
    p, todo := pending[first], todo - {first};
    while todo != {}
      invariant todo <= pending.Keys && p in pending.Values
      invariant forall id <- pending.Keys - todo :: p.sequence <= pending[id].sequence
      decreases |todo|
    {
      var id :| id in todo;
      if pending[id].sequence < p.sequence {
        p := pending[id];
      }
      todo := todo - {id};
    }
  }

  method ResolveAnnouncements(entries: seq<Announcement>, pending: map<string, Pending>)
    returns (left: Option<map<string, Pending>>)
    ensures left == Resolve(entries, pending)
  {
    var open := pending;
    for i := 0 to |entries|
      invariant Resolve(entries[..i], pending) == Some(open)
    {
      var a := entries[i];
      assert entries[..i+1][..i] == entries[..i];
      if a.redactionId in open {
        if !Matches(a, open[a.redactionId]) {
          ResolveStopsAt(entries, i + 1, pending);
          return None;
        }
        open := open - {a.redactionId};
      }
    }
    assert entries[..|entries|] == entries;
    left := Some(open);
  }

  /** A contradiction among the first n entries is never repaired by later ones. */
  lemma {:induction false} ResolveStopsAt(entries: seq<Announcement>, n: nat, pending: map<string, Pending>)
    requires n <= |entries| && Resolve(entries[..n], pending).None?
    ensures Resolve(entries, pending).None?
  {
    if n == |entries| {
      assert entries[..n] == entries;
    } else {
      assert entries[..|entries| - 1][..n] == entries[..n];
      ResolveStopsAt(entries[..|entries| - 1], n, pending);
    }
  }

  method VerifyRow(c: Codec, redactions: map<string, Redaction>, room: string, row: Row, cur: Cursor)
    returns (next: Result<Cursor, Reason>)
    ensures next == CheckRow(c, redactions, room, row, cur)
  {
    if row.sequence != cur.last + 1 {
      return Err(SequenceMissing(cur.last + 1));
    }
    if row.prevHash != Some(cur.prevHash) {
      return Err(PrevHashBreaks);
    }
    var expected: string;
    var pending := cur.pending;
    var marker := RedactionMarker(c, row.payload);
    if marker.Some? {
      var p :- CheckMarker(redactions, row.sequence, Read(c, row));
      expected := p.originalHash;
      pending := pending[marker.value := p];
    } else {
      expected := ChainHash(c, cur.prevHash, room, row);
      if row.eventHash != Some(expected) {
        return Err(HashDiffers);
      }
      var announced := AnnouncedRedactions(c, row.eventType, row.payload);
      var left := ResolveAnnouncements(announced, pending);
      if left.None? {
        return Err(AnnouncementDiffers);
      }
      pending := left.value;
    }
    next := Ok(Cursor(expected, row.sequence, pending));
  }

  method VerifyTail(db: Db, room: string, rows: seq<Row>, cur: Cursor) returns (found: Option<ChainBreak>)
    ensures TailBreak(db, room, rows, cur, found)
  {
    var lastId := if rows == [] then "" else rows[|rows| - 1].eventId;
    found := None;
    if cur.pending != map[] {
      var p := EarliestPending(cur.pending);
      found := Some(ChainBreak(room, p.sequence, p.eventId, NeverAnnounced));
    } else if room !in db.counters {
      if cur.last > 0 {
        found := Some(ChainBreak(room, cur.last, lastId, CounterMissing));
      }
    } else if db.counters[room] != cur.last {
      found := Some(ChainBreak(room, cur.last, lastId, CounterDiffers(cur.last, db.counters[room])));
    }
  }

  method VerifyRoom(c: Codec, db: Db, room: string) returns (verified: nat, found: Option<ChainBreak>)
    ensures RoomReport(c, db, room, verified, found)
  {
    hide CheckRow, TailBreak;
    var rows := db.Rows(room);
    var cur := START;
    verified, found := 0, None;
    for i := 0 to |rows|
      invariant ScanPrefix(c, db.redactions, room, rows, i) == Scan(cur, verified, None)
    {
      var next := VerifyRow(c, db.redactions, room, rows[i], cur);
      if next.Err? {
        found := Some(ChainBreak(room, rows[i].sequence, rows[i].eventId, next.error));
        DivergenceIsFinal(c, db.redactions, room, rows, i + 1);
        return;
      }
      cur, verified := next.value, verified + 1;
    }
    found := VerifyTail(db, room, rows, cur);
  }

  lemma {:induction false} DivergenceIsFinal(c: Codec, redactions: map<string, Redaction>, room: string,
                                             rows: seq<Row>, k: nat)
    requires k <= |rows| && ScanPrefix(c, redactions, room, rows, k).found.Some?
    ensures ScanPrefix(c, redactions, room, rows, |rows|) == ScanPrefix(c, redactions, room, rows, k)
    decreases |rows| - k
  {
    if k < |rows| {
      DivergenceIsFinal(c, redactions, room, rows, k + 1);
    }
  }

  // ---- All rooms

  /** Per room, what VerifyRoom reported. */
  datatype Report = Report(room: string, verified: nat, found: Option<ChainBreak>)

  function Total(reports: seq<Report>): nat {
    if reports == [] then 0 else Total(reports[..|reports| - 1]) + reports[|reports| - 1].verified
  }

  function Breaks(reports: seq<Report>): seq<ChainBreak> {
    if reports == [] then []
    else
      var r := reports[|reports| - 1];
      Breaks(reports[..|reports| - 1]) + if r.found.Some? then [r.found.value] else []
  }

  ghost predicate ReportsOn(c: Codec, db: Db, rooms: seq<string>, reports: seq<Report>) {
    && |reports| == |rooms|
    && forall i | 0 <= i < |rooms| ::
         reports[i].room == rooms[i] && RoomReport(c, db, rooms[i], reports[i].verified, reports[i].found)
  }

  /** The rooms a call looks at: every room with a counter or an event, or just the one asked for. */
  ghost function Scope(db: Db, roomId: Option<string>): set<string> {
    var all := db.counters.Keys + set r <- db.events | db.events[r] != [];
    if roomId.Some? then all * {roomId.value} else all
  }

  /** What a call returns: the rows verified in all its rooms, and the break of each room that has one, in order. */
  ghost predicate Verdict(c: Codec, db: Db, rooms: seq<string>, verified: nat, breaks: seq<ChainBreak>) {
    exists reports: seq<Report> ::
      ReportsOn(c, db, rooms, reports) && verified == Total(reports) && breaks == Breaks(reports)
  }

  lemma NoReports(c: Codec, db: Db)
    ensures ReportsOn(c, db, [], []) && Total([]) == 0 && Breaks([]) == []
  {
  }

  lemma OneMoreReport(c: Codec, db: Db, rooms: seq<string>, i: nat, reports: seq<Report>, r: Report)
    requires i < |rooms| && |reports| == i && ReportsOn(c, db, rooms[..i], reports)
    requires r.room == rooms[i] && RoomReport(c, db, rooms[i], r.verified, r.found)
    ensures ReportsOn(c, db, rooms[..i + 1], reports + [r])
    ensures Total(reports + [r]) == Total(reports) + r.verified
    ensures Breaks(reports + [r]) == Breaks(reports) + if r.found.Some? then [r.found.value] else []
  {
    hide RoomReport;
    assert (reports + [r])[..i] == reports;
    forall j | 0 <= j <= i ensures (reports + [r])[j].room == rooms[j]
      && RoomReport(c, db, rooms[j], (reports + [r])[j].verified, (reports + [r])[j].found)
    {
      if j < i {
        assert rooms[..i][j] == rooms[j];
      }
    }
  }

  /** rooms is the sorted list of the room ids in scope. */
  method VerifyEventChain(c: Codec, db: Db, roomId: Option<string>, rooms: seq<string>)
    returns (verified: nat, breaks: seq<ChainBreak>)
    requires (set r <- rooms) == Scope(db, roomId)
    requires forall i, j | 0 <= i < j < |rooms| :: rooms[i] != rooms[j]
    ensures Verdict(c, db, rooms, verified, breaks)
  {
    hide RoomReport, ReportsOn, Total, Breaks;
    verified, breaks := 0, [];
    NoReports(c, db);
    ghost var reports: seq<Report> := [];
    for i := 0 to |rooms|
      invariant |reports| == i && ReportsOn(c, db, rooms[..i], reports)
      invariant verified == Total(reports) && breaks == Breaks(reports)
    {
      var n, found := VerifyRoom(c, db, rooms[i]);
      ghost var next := reports + [Report(rooms[i], n, found)];
      OneMoreReport(c, db, rooms, i, reports, next[i]);
      verified := verified + n;
      if found.Some? {
        breaks := breaks + [found.value];
      }
      reports := next;
    }
    assert rooms[..|rooms|] == rooms;
  }

  lemma {:induction false} ReportsBreakOnce(c: Codec, db: Db, rooms: seq<string>, reports: seq<Report>)
    requires ReportsOn(c, db, rooms, reports)
    requires forall i, j | 0 <= i < j < |rooms| :: rooms[i] != rooms[j]
    ensures forall b <- Breaks(reports) :: b.roomId in rooms
    ensures forall i, j | 0 <= i < j < |Breaks(reports)| :: Breaks(reports)[i].roomId != Breaks(reports)[j].roomId
  {
    if reports != [] {
      var n := |reports| - 1;
      ReportsBreakOnce(c, db, rooms[..n], reports[..n]);
      if reports[n].found.Some? {
        BreakNamesItsRoom(c, db, rooms[n], reports[n].verified, reports[n].found);
      }
    }
  }

  lemma {:induction false} NoBreaksMeans(c: Codec, db: Db, rooms: seq<string>, reports: seq<Report>)
    requires ReportsOn(c, db, rooms, reports)
    ensures Breaks(reports) == [] <==> forall room <- rooms :: Accepts(c, db, room)
  {
    if reports != [] {
      var n := |reports| - 1;
      assert rooms == rooms[..n] + [rooms[n]];
      BreakNamesItsRoom(c, db, rooms[n], reports[n].verified, reports[n].found);
      hide Accepts, RoomReport;
      NoBreaksMeans(c, db, rooms[..n], reports[..n]);
    }
  }

  /** A call reports nothing exactly when every room it looks at passes, and otherwise at most one break per room. */
  lemma OneBreakPerRoom(c: Codec, db: Db, rooms: seq<string>, verified: nat, breaks: seq<ChainBreak>)
    requires Verdict(c, db, rooms, verified, breaks)
    requires forall i, j | 0 <= i < j < |rooms| :: rooms[i] != rooms[j]
    ensures breaks == [] <==> forall room <- rooms :: Accepts(c, db, room)
    ensures forall b <- breaks :: b.roomId in rooms
    ensures forall i, j | 0 <= i < j < |breaks| :: breaks[i].roomId != breaks[j].roomId
  {
    var reports: seq<Report> :|
      ReportsOn(c, db, rooms, reports) && verified == Total(reports) && breaks == Breaks(reports);
    ReportsBreakOnce(c, db, rooms, reports);
    NoBreaksMeans(c, db, rooms, reports);
  }

  /** This report on the room, behind a verdict on the others, makes these totals. */
  ghost predicate AddsTo(c: Codec, db: Db, rooms: seq<string>, room: string, verified: nat, breaks: seq<ChainBreak>, n: nat,
                         found: Option<ChainBreak>, few: seq<ChainBreak>)
  {
    && RoomReport(c, db, room, n, found) && n <= verified
    && breaks == few + (if found.Some? then [found.value] else []) && Verdict(c, db, rooms, verified - n, few)
  }

  lemma FewerReports(c: Codec, db: Db, rooms: seq<string>, room: string, reports: seq<Report>)
    requires ReportsOn(c, db, rooms + [room], reports)
    ensures |reports| == |rooms| + 1 && ReportsOn(c, db, rooms, reports[..|rooms|])
    ensures RoomReport(c, db, room, reports[|rooms|].verified, reports[|rooms|].found)
  {
    var n, more := |rooms|, rooms + [room];
    hide RoomReport;
    assert more[n] == room && reports[n].room == more[n];
    forall i | 0 <= i < n ensures reports[i].room == rooms[i] && RoomReport(c, db, rooms[i], reports[i].verified, reports[i].found) {
      assert more[i] == rooms[i];
    }
  }

  lemma LastReportAdds(c: Codec, db: Db, rooms: seq<string>, room: string, reports: seq<Report>)
    returns (n: nat, found: Option<ChainBreak>, few: seq<ChainBreak>)
    requires ReportsOn(c, db, rooms + [room], reports)
    ensures AddsTo(c, db, rooms, room, Total(reports), Breaks(reports), n, found, few)
  {
    FewerReports(c, db, rooms, room, reports);
    var k := |rooms|;
    n, found, few := reports[k].verified, reports[k].found, Breaks(reports[..k]);
    hide RoomReport, ReportsOn;
    assert Total(reports) == Total(reports[..k]) + n;
    assert Verdict(c, db, rooms, Total(reports[..k]), few);
  }

  lemma AddedReport(c: Codec, db: Db, rooms: seq<string>, room: string, reports: seq<Report>, n: nat,
                    found: Option<ChainBreak>)
    requires ReportsOn(c, db, rooms, reports) && RoomReport(c, db, room, n, found)
    ensures Verdict(c, db, rooms + [room], Total(reports) + n, Breaks(reports) + if found.Some? then [found.value] else [])
  {
    var k, more := |rooms|, rooms + [room];
    assert more[..k] == rooms && more[..k + 1] == more;
    OneMoreReport(c, db, more, k, reports, Report(room, n, found));
    hide RoomReport, ReportsOn, Total, Breaks;
  }

  /** No rooms, nothing verified; one room more, its own rows more and its own break, if it has one, after the others. */
  lemma VerdictAdds(c: Codec, db: Db, rooms: seq<string>, room: string, verified: nat, breaks: seq<ChainBreak>)
    ensures Verdict(c, db, [], verified, breaks) <==> verified == 0 && breaks == []
    ensures Verdict(c, db, rooms + [room], verified, breaks) <==>
              exists n: nat, found: Option<ChainBreak>, few: seq<ChainBreak> ::
                AddsTo(c, db, rooms, room, verified, breaks, n, found, few)
  {
    NoRooms(c, db, verified, breaks);
    hide Verdict, AddsTo;
    if Verdict(c, db, rooms + [room], verified, breaks) {
      var reports := ReportsBehind(c, db, rooms + [room], verified, breaks);
      var n, found, few := LastReportAdds(c, db, rooms, room, reports);
    }
    if n: nat, found: Option<ChainBreak>, few: seq<ChainBreak> :| AddsTo(c, db, rooms, room, verified, breaks, n, found, few) {
      AddedVerdict(c, db, rooms, room, verified, breaks, n, found, few);
    }
  }

  lemma NoRooms(c: Codec, db: Db, verified: nat, breaks: seq<ChainBreak>)
    ensures Verdict(c, db, [], verified, breaks) <==> verified == 0 && breaks == []
  {
    NoReports(c, db);
    hide RoomReport;
  }

  lemma ReportsBehind(c: Codec, db: Db, rooms: seq<string>, verified: nat, breaks: seq<ChainBreak>) returns (reports: seq<Report>)
    requires Verdict(c, db, rooms, verified, breaks)
    ensures ReportsOn(c, db, rooms, reports) && verified == Total(reports) && breaks == Breaks(reports)
  {
    reports :| ReportsOn(c, db, rooms, reports) && verified == Total(reports) && breaks == Breaks(reports);
  }

  lemma AddedVerdict(c: Codec, db: Db, rooms: seq<string>, room: string, verified: nat, breaks: seq<ChainBreak>, n: nat,
                     found: Option<ChainBreak>, few: seq<ChainBreak>)
    requires AddsTo(c, db, rooms, room, verified, breaks, n, found, few)
    ensures Verdict(c, db, rooms + [room], verified, breaks)
  {
    var reports := ReportsBehind(c, db, rooms, verified - n, few);
    AddedReport(c, db, rooms, room, reports, n, found);
    hide Verdict, RoomReport, ReportsOn;
  }

  lemma BreakNamesItsRoom(c: Codec, db: Db, room: string, verified: nat, found: Option<ChainBreak>)
    requires RoomReport(c, db, room, verified, found)
    ensures found.Some? ==> found.value.roomId == room
    ensures found.None? <==> Accepts(c, db, room)
  {
    ScanNamesItsRoom(c, db.redactions, room, db.Rows(room), |db.Rows(room)|);
  }

  lemma {:induction false} ScanNamesItsRoom(c: Codec, redactions: map<string, Redaction>, room: string,
                                            rows: seq<Row>, k: nat)
    requires k <= |rows|
    ensures var s := ScanPrefix(c, redactions, room, rows, k); s.found.Some? ==> s.found.value.roomId == room
  {
    if k > 0 {
      ScanNamesItsRoom(c, redactions, room, rows, k - 1);
    }
  }

  // ---- What acceptance means

  /** The first entry that names the id, if any does. */
  function FirstNaming(entries: seq<Announcement>, id: string): Option<Announcement> {
    if entries == [] then None
    else
      var n := |entries| - 1;
      match FirstNaming(entries[..n], id)
      case Some(a) => Some(a)
      case None => if entries[n].redactionId == id then Some(entries[n]) else None
  }

  function HashBefore(rows: seq<Row>, i: nat): string
    requires i <= |rows|
  {
    if i == 0 then GENESIS_HASH else Str(rows[i - 1].eventHash)
  }

  /** Row i stands where it should, links to its predecessor, and is backed by its hash or its record. */
  ghost predicate Linked(c: Codec, redactions: map<string, Redaction>, room: string, rows: seq<Row>, i: nat)
    requires i < |rows|
  {
    LinkedReading(redactions, rows, i, Read(c, rows[i]), ChainHash(c, HashBefore(rows, i), room, rows[i]))
  }

  ghost predicate LinkedReading(redactions: map<string, Redaction>, rows: seq<Row>, i: nat, r: Reading,
                                expected: string)
    requires i < |rows|
  {
    && rows[i].sequence == i + 1
    && rows[i].prevHash == Some(HashBefore(rows, i))
    && if r.marker.Some? then BackedBy(redactions, r) else rows[i].eventHash == Some(expected)
  }

  /** The record the marker names is this event's, and holds the row's stored hash and its live header's. */
  ghost predicate BackedBy(redactions: map<string, Redaction>, r: Reading)
    requires r.marker.Some?
  {
    r.marker.value in redactions && redactions[r.marker.value] == Redaction(r.eventId, r.eventHash, r.headerHash)
  }

  /** No row strictly between i and j names the id. */
  ghost predicate Unnamed(rs: seq<Reading>, i: int, j: nat, id: string)
    requires 0 <= i && j <= |rs|
  {
    forall m | i < m < j :: FirstNaming(rs[m].named, id).None?
  }

  /** The announcement repeats the hashes of the row it is about. */
  ghost predicate IsTrueOf(a: Announcement, r: Reading) {
    a.headerHash == r.headerHash && a.originalEventHash == r.eventHash
  }

  /** Marker row i is answered at row j: the first later event naming its redaction tells its hashes truly. */
  ghost predicate AnsweredAt(rs: seq<Reading>, i: nat, id: string, j: nat)
    requires i < j < |rs|
  {
    && Unnamed(rs, i, j, id)
    && FirstNaming(rs[j].named, id).Some?
    && IsTrueOf(FirstNaming(rs[j].named, id).value, rs[i])
  }

  ghost predicate Answered(rs: seq<Reading>, i: nat)
    requires i < |rs|
  {
    rs[i].marker.Some? ==> exists j :: i < j < |rs| && AnsweredAt(rs, i, rs[i].marker.value, j)
  }

  /** The declarative meaning of "the chain of this room is intact". */
  ghost predicate WellFormed(c: Codec, db: Db, room: string) {
    var rows := db.Rows(room);
    && (forall i | 0 <= i < |rows| :: Linked(c, db.redactions, room, rows, i))
    && (forall i | 0 <= i < |rows| :: Answered(Readings(c, rows), i))
    && (if room in db.counters then db.counters[room] == |rows| else rows == [])
  }

  ghost predicate UniqueEventIds(rows: seq<Row>) {
    forall i, j | 0 <= i < j < |rows| :: rows[i].eventId != rows[j].eventId
  }

  // ---- Why the loop's pending map computes it

  ghost predicate StrikesOut(entries: seq<Announcement>, pending: map<string, Pending>, left: map<string, Pending>) {
    && (forall id :: id in left <==> id in pending && FirstNaming(entries, id).None?)
    && (forall id <- left :: left[id] == pending[id])
  }

  /** Resolve fails exactly when some first naming contradicts, and else strikes out exactly what is named. */
  lemma {:induction false} ResolveMeans(entries: seq<Announcement>, pending: map<string, Pending>)
    ensures Resolve(entries, pending).Some? <==>
            forall id <- pending ::
              FirstNaming(entries, id).Some? ==> Matches(FirstNaming(entries, id).value, pending[id])
    ensures Resolve(entries, pending).Some? ==> StrikesOut(entries, pending, Resolve(entries, pending).value)
  {
    if entries != [] {
      ResolveMeans(entries[..|entries| - 1], pending);
    }
    NamingIsNamed(entries);
  }

  lemma {:induction false} NamingIsNamed(entries: seq<Announcement>)
    ensures forall id :: FirstNaming(entries, id).Some? ==>
                           FirstNaming(entries, id).value.redactionId == id
                           && FirstNaming(entries, id).value in entries
  {
    if entries != [] {
      NamingIsNamed(entries[..|entries| - 1]);
    }
  }

  /** Row i is a marker and still open after k rows: nothing after it names its id. */
  ghost predicate OpenAt(rs: seq<Reading>, k: nat, i: int, id: string)
    requires k <= |rs|
  {
    0 <= i < k && rs[i].marker == Some(id) && Unnamed(rs, i, k, id)
  }

  /** Row j does not contradict a marker that is open when it is reached. */
  ghost predicate TellsTruth(rs: seq<Reading>, j: nat)
    requires j < |rs|
  {
    forall i, id | OpenAt(rs, j, i, id) && FirstNaming(rs[j].named, id).Some? ::
      IsTrueOf(FirstNaming(rs[j].named, id).value, rs[i])
  }

  function PendingOf(r: Reading, i: int): Pending {
    Pending(i + 1, r.eventId, r.headerHash, r.eventHash)
  }

  ghost predicate PendingMeans(rs: seq<Reading>, k: nat, pending: map<string, Pending>)
    requires k <= |rs|
  {
    && (forall id <- pending :: exists i :: OpenAt(rs, k, i, id))
    && (forall i, id | OpenAt(rs, k, i, id) :: id in pending && pending[id] == PendingOf(rs[i], i))
  }

  lemma TruthIsMatching(rs: seq<Reading>, k: nat, pending: map<string, Pending>)
    requires k < |rs| && PendingMeans(rs, k, pending)
    ensures TellsTruth(rs, k) <==>
            forall id <- pending ::
              FirstNaming(rs[k].named, id).Some? ==> Matches(FirstNaming(rs[k].named, id).value, pending[id])
  {
    if TellsTruth(rs, k) {
      forall id <- pending | FirstNaming(rs[k].named, id).Some?
        ensures Matches(FirstNaming(rs[k].named, id).value, pending[id])
      {
        var i :| OpenAt(rs, k, i, id);
      }
    }
  }

  lemma MarkerOpens(rs: seq<Reading>, k: nat, pending: map<string, Pending>, id: string)
    requires k < |rs| && PendingMeans(rs, k, pending)
    requires rs[k].marker == Some(id) && rs[k].named == []
    requires forall i | 0 <= i < k :: rs[i].marker != Some(id)
    ensures PendingMeans(rs, k + 1, pending[id := PendingOf(rs[k], k)])
    ensures TellsTruth(rs, k)
  {
    var n := k + 1;
    assert OpenAt(rs, n, k, id);
    forall x <- pending ensures exists i :: OpenAt(rs, n, i, x) {
      var i :| OpenAt(rs, k, i, x);
      assert OpenAt(rs, n, i, x);
    }
    forall i, x | OpenAt(rs, n, i, x) && i < k ensures OpenAt(rs, k, i, x) {
    }
  }

  lemma EventStrikesOut(rs: seq<Reading>, k: nat, pending: map<string, Pending>, left: map<string, Pending>)
    requires k < |rs| && PendingMeans(rs, k, pending) && rs[k].marker.None?
    requires StrikesOut(rs[k].named, pending, left)
    ensures PendingMeans(rs, k + 1, left)
  {
    var n := k + 1;
    forall x <- left ensures exists i :: OpenAt(rs, n, i, x) {
      var i :| OpenAt(rs, k, i, x);
      assert OpenAt(rs, n, i, x);
    }
    forall i, x | OpenAt(rs, n, i, x) ensures OpenAt(rs, k, i, x) && FirstNaming(rs[k].named, x).None? {
    }
  }

  /** Once nothing is contradicted, an empty pending map says every marker has been answered, and conversely. */
  lemma NothingPendingMeans(rs: seq<Reading>, pending: map<string, Pending>)
    requires PendingMeans(rs, |rs|, pending)
    requires forall j | 0 <= j < |rs| :: TellsTruth(rs, j)
    ensures pending == map[] <==> forall i | 0 <= i < |rs| :: Answered(rs, i)
  {
    if pending == map[] {
      forall i | 0 <= i < |rs| ensures Answered(rs, i) {
        if rs[i].marker.Some? {
          var id := rs[i].marker.value;
          assert !OpenAt(rs, |rs|, i, id);
          var j := FirstNamingAfter(rs, i, id);
          assert OpenAt(rs, j, i, id);
          assert TellsTruth(rs, j);
          assert AnsweredAt(rs, i, id, j);
        }
      }
    } else {
      var id :| id in pending;
      var i :| OpenAt(rs, |rs|, i, id);
      assert !Answered(rs, i);
    }
  }

  /** Where every marker is answered, nothing contradicts one. */
  lemma AnsweredIsTruthful(rs: seq<Reading>)
    requires forall i | 0 <= i < |rs| :: Answered(rs, i)
    ensures forall j | 0 <= j < |rs| :: TellsTruth(rs, j)
  {
    forall j, i, id | 0 <= j < |rs| && OpenAt(rs, j, i, id) && FirstNaming(rs[j].named, id).Some?
      ensures IsTrueOf(FirstNaming(rs[j].named, id).value, rs[i])
    {
      assert Answered(rs, i);
      var a :| i < a < |rs| && AnsweredAt(rs, i, id, a);
      assert a == j;
    }
  }

  lemma FirstNamingAfter(rs: seq<Reading>, i: nat, id: string) returns (j: nat)
    requires i < |rs| && !Unnamed(rs, i, |rs|, id)
    ensures i < j < |rs| && Unnamed(rs, i, j, id) && FirstNaming(rs[j].named, id).Some?
  {
    j := i + 1;
    while FirstNaming(rs[j].named, id).None?
      invariant i < j < |rs| && Unnamed(rs, i, j, id)
      decreases |rs| - j
    {
      j := j + 1;
    }
  }

  // ---- The loop against the meaning

  /** The cursor after k linked rows. */
  ghost predicate Reached(rows: seq<Row>, rs: seq<Reading>, k: nat, cur: Cursor)
    requires k <= |rows| == |rs|
  {
    cur.last == k && cur.prevHash == HashBefore(rows, k) && PendingMeans(rs, k, cur.pending)
  }

  /** Row k passes exactly when it is linked and truthful, and the cursor then means what it should. */
  lemma StepMeans(redactions: map<string, Redaction>, rows: seq<Row>, rs: seq<Reading>, k: nat, expected: string,
                  cur: Cursor)
    requires k < |rows| == |rs| && Reached(rows, rs, k, cur)
    requires rs[k].eventHash == Str(rows[k].eventHash)
    requires rs[k].marker.Some? ==> rs[k].named == []
    requires rs[k].marker.Some? && BackedBy(redactions, rs[k]) ==>
               forall i | 0 <= i < k :: rs[i].marker != rs[k].marker
    ensures var next := CheckReading(redactions, rows[k], rs[k], expected, cur);
            && (next.Ok? <==> LinkedReading(redactions, rows, k, rs[k], expected) && TellsTruth(rs, k))
            && (next.Ok? ==> Reached(rows, rs, k + 1, next.value))
  {
    if rs[k].marker.Some? {
      if BackedBy(redactions, rs[k]) {
        MarkerOpens(rs, k, cur.pending, rs[k].marker.value);
      }
    } else {
      ResolveMeans(rs[k].named, cur.pending);
      TruthIsMatching(rs, k, cur.pending);
      var left := Resolve(rs[k].named, cur.pending);
      if left.Some? {
        EventStrikesOut(rs, k, cur.pending, left.value);
      }
    }
  }

  /** The scan reaches row k without a break exactly when the first k rows are linked and truthful. */
  lemma {:induction false} ScanMeans(c: Codec, db: Db, room: string, k: nat)
    requires k <= |db.Rows(room)| && UniqueEventIds(db.Rows(room))
    ensures var rows := db.Rows(room);
            var s := ScanPrefix(c, db.redactions, room, rows, k);
            && (s.found.None? <==> forall i | 0 <= i < k ::
                                     Linked(c, db.redactions, room, rows, i) && TellsTruth(Readings(c, rows), i))
            && (s.found.None? ==> s.verified == k && Reached(rows, Readings(c, rows), k, s.cursor))
  {
    var rows, n := db.Rows(room), k - 1;
    var rs := Readings(c, rows);
    if k > 0 {
      ScanMeans(c, db, room, n);
      var s := ScanPrefix(c, db.redactions, room, rows, n);
      if s.found.None? {
        if rs[n].marker.Some? {
          MarkersAnnounceNothing(c, rows[n]);
          forall i | 0 <= i < n && BackedBy(db.redactions, rs[n]) ensures rs[i].marker != rs[n].marker {
            assert Linked(c, db.redactions, room, rows, i);
          }
        }
        StepMeans(db.redactions, rows, rs, n, ChainHash(c, s.cursor.prevHash, room, rows[n]), s.cursor);
        assert CheckRow(c, db.redactions, room, rows[n], s.cursor).Ok? <==>
               Linked(c, db.redactions, room, rows, n) && TellsTruth(rs, n);
      }
    }
  }

  /**
   The verifier accepts a room exactly when its chain is well formed: every row linked and
   backed, every marker answered truthfully by the first later event that names it, and the
   log as long as the counter says.
   */
  lemma AcceptsIffWellFormed(c: Codec, db: Db, room: string)
    requires UniqueEventIds(db.Rows(room))
    ensures Accepts(c, db, room) <==> WellFormed(c, db, room)
    ensures Accepts(c, db, room) ==>
              ScanPrefix(c, db.redactions, room, db.Rows(room), |db.Rows(room)|).verified == |db.Rows(room)|
  {
    var rows := db.Rows(room);
    var rs := Readings(c, rows);
    var s := ScanPrefix(c, db.redactions, room, rows, |rows|);
    ScanMeans(c, db, room, |rows|);
    if forall i | 0 <= i < |rs| :: Answered(rs, i) {
      AnsweredIsTruthful(rs);
    }
    if s.found.None? {
      NothingPendingMeans(rs, s.cursor.pending);
    }
  }

  // ---- What a report says

  /** Row i passes: linked, backed, and contradicting no open marker. */
  ghost predicate Passes(c: Codec, redactions: map<string, Redaction>, room: string, rows: seq<Row>, i: nat)
    requires i < |rows|
  {
    Linked(c, redactions, room, rows, i) && TellsTruth(Readings(c, rows), i)
  }

  /** The row stands in its place behind its predecessor's hash. */
  ghost predicate InPlace(rows: seq<Row>, i: nat)
    requires i < |rows|
  {
    rows[i].sequence == i + 1 && rows[i].prevHash == Some(HashBefore(rows, i))
  }

  /** The record of the row's marker, if there is one about this event. */
  ghost predicate HasRecord(c: Codec, redactions: map<string, Redaction>, row: Row) {
    var marker := RedactionMarker(c, row.payload);
    marker.Some? && marker.value in redactions && redactions[marker.value].eventId == row.eventId
  }

  /** Exactly when each reason is the one to give for row i, the rows before it having passed. */
  ghost predicate RowReason(c: Codec, redactions: map<string, Redaction>, room: string, rows: seq<Row>, i: nat, reason: Reason)
    requires i < |rows|
  {
    var row := rows[i];
    var marker := RedactionMarker(c, row.payload);
    match reason
    case SequenceMissing(expected) => row.sequence != i + 1 && expected == i + 1
    case PrevHashBreaks => row.sequence == i + 1 && row.prevHash != Some(HashBefore(rows, i))
    case NoRedactionRow => InPlace(rows, i) && marker.Some? && !HasRecord(c, redactions, row)
    case OriginalHashDiffers =>
      InPlace(rows, i) && HasRecord(c, redactions, row) && redactions[marker.value].originalEventHash != Str(row.eventHash)
    case HeaderDiffers =>
      && InPlace(rows, i) && HasRecord(c, redactions, row)
      && redactions[marker.value].originalEventHash == Str(row.eventHash)
      && redactions[marker.value].headerHash != HeaderHash(c, row)
    case HashDiffers =>
      InPlace(rows, i) && marker.None? && row.eventHash != Some(ChainHash(c, HashBefore(rows, i), room, row))
    case AnnouncementDiffers =>
      && InPlace(rows, i) && marker.None? && row.eventHash == Some(ChainHash(c, HashBefore(rows, i), room, row))
      && !TellsTruth(Readings(c, rows), i)
    case _ => false
  }

  /** No row has two reasons. */
  lemma OneReason(c: Codec, redactions: map<string, Redaction>, room: string, rows: seq<Row>, i: nat, a: Reason, b: Reason)
    requires i < |rows| && RowReason(c, redactions, room, rows, i, a) && RowReason(c, redactions, room, rows, i, b)
    ensures a == b
  {
  }

  lemma FailureHasReason(c: Codec, redactions: map<string, Redaction>, room: string, rows: seq<Row>, i: nat, cur: Cursor)
    requires i < |rows| && Reached(rows, Readings(c, rows), i, cur)
    requires CheckRow(c, redactions, room, rows[i], cur).Ok? <==> Passes(c, redactions, room, rows, i)
    requires !Passes(c, redactions, room, rows, i)
    ensures CheckRow(c, redactions, room, rows[i], cur).Err?
    ensures RowReason(c, redactions, room, rows, i, CheckRow(c, redactions, room, rows[i], cur).error)
  {
    hide TellsTruth, Resolve;
  }

  /** The scan reaches row k exactly when the rows before it pass. */
  lemma ScanPasses(c: Codec, db: Db, room: string, k: nat)
    requires k <= |db.Rows(room)| && UniqueEventIds(db.Rows(room))
    ensures var rows := db.Rows(room);
            var s := ScanPrefix(c, db.redactions, room, rows, k);
            && (s.found.None? <==> forall j :: 0 <= j < k ==> Passes(c, db.redactions, room, rows, j))
            && (s.found.None? ==> s.verified == k && Reached(rows, Readings(c, rows), k, s.cursor))
  {
    var rows := db.Rows(room);
    ScanMeans(c, db, room, k);
    hide ScanPrefix, Reached, Linked, TellsTruth;
    if ScanPrefix(c, db.redactions, room, rows, k).found.None? {
      forall j | 0 <= j < k ensures Passes(c, db.redactions, room, rows, j) {
      }
    }
    if forall j :: 0 <= j < k ==> Passes(c, db.redactions, room, rows, j) {
      forall j | 0 <= j < k ensures Linked(c, db.redactions, room, rows, j) && TellsTruth(Readings(c, rows), j) {
        assert Passes(c, db.redactions, room, rows, j);
      }
    }
  }

  lemma ScanOne(c: Codec, redactions: map<string, Redaction>, room: string, rows: seq<Row>, i: nat)
    requires i < |rows| && ScanPrefix(c, redactions, room, rows, i).found.None?
    ensures var s := ScanPrefix(c, redactions, room, rows, i);
            ScanPrefix(c, redactions, room, rows, i + 1) ==
            match CheckRow(c, redactions, room, rows[i], s.cursor)
            case Ok(next) => Scan(next, s.verified + 1, None)
            case Err(reason) => s.(found := Some(ChainBreak(room, rows[i].sequence, rows[i].eventId, reason)))
  {
    hide CheckRow;
  }

  lemma ReachedRowChecks(c: Codec, db: Db, room: string, i: nat)
    requires i < |db.Rows(room)| && UniqueEventIds(db.Rows(room))
    requires forall j :: 0 <= j < i ==> Passes(c, db.redactions, room, db.Rows(room), j)
    ensures var rows := db.Rows(room);
            var s := ScanPrefix(c, db.redactions, room, rows, i);
            && s.found.None? && s.verified == i && Reached(rows, Readings(c, rows), i, s.cursor)
            && (CheckRow(c, db.redactions, room, rows[i], s.cursor).Ok? <==> Passes(c, db.redactions, room, rows, i))
  {
    hide Passes, Reached, CheckRow, ScanPrefix;
    ScanPasses(c, db, room, i);
    ScanPasses(c, db, room, i + 1);
    ScanOne(c, db.redactions, room, db.Rows(room), i);
  }

  /**
   The first row that does not pass is the one reported, by its own sequence and event id and for its own reason,
   and what is counted as verified are the rows before it.
   */
  lemma ReportNamesTheFirst(c: Codec, db: Db, room: string, verified: nat, found: Option<ChainBreak>, i: nat)
    requires RoomReport(c, db, room, verified, found) && UniqueEventIds(db.Rows(room))
    requires i < |db.Rows(room)| && !Passes(c, db.redactions, room, db.Rows(room), i)
    requires forall j :: 0 <= j < i ==> Passes(c, db.redactions, room, db.Rows(room), j)
    ensures verified == i && found.Some?
    ensures var row := db.Rows(room)[i];
            && found.value.roomId == room && found.value.sequence == row.sequence && found.value.eventId == row.eventId
            && RowReason(c, db.redactions, room, db.Rows(room), i, found.value.reason)
  {
    var rows := db.Rows(room);
    var s := ScanPrefix(c, db.redactions, room, rows, i);
    hide CheckRow, Passes, RowReason, Reached, ScanPrefix;
    ReachedRowChecks(c, db, room, i);
    FailureHasReason(c, db.redactions, room, rows, i, s.cursor);
    ScanOne(c, db.redactions, room, rows, i);
    DivergenceIsFinal(c, db.redactions, room, rows, i + 1);
  }

  /** Row k is a marker that no later row names. */
  ghost predicate Unanswered(rs: seq<Reading>, k: nat)
    requires k < |rs|
  {
    rs[k].marker.Some? && Unnamed(rs, k, |rs|, rs[k].marker.value)
  }

  lemma AllPass(c: Codec, db: Db, room: string)
    requires UniqueEventIds(db.Rows(room))
    requires forall j :: 0 <= j < |db.Rows(room)| ==> Passes(c, db.redactions, room, db.Rows(room), j)
    ensures var rows := db.Rows(room);
            var s := ScanPrefix(c, db.redactions, room, rows, |rows|);
            s.found.None? && s.verified == |rows| == s.cursor.last && PendingMeans(Readings(c, rows), |rows|, s.cursor.pending)
  {
    hide ScanPrefix, Passes, PendingMeans;
    ScanPasses(c, db, room, |db.Rows(room)|);
  }

  /** Where every row passes, the first marker never announced is reported. */
  lemma ReportNamesTheUnannounced(c: Codec, db: Db, room: string, verified: nat, found: Option<ChainBreak>, k: nat)
    requires RoomReport(c, db, room, verified, found) && UniqueEventIds(db.Rows(room))
    requires forall j :: 0 <= j < |db.Rows(room)| ==> Passes(c, db.redactions, room, db.Rows(room), j)
    requires k < |db.Rows(room)| && Unanswered(Readings(c, db.Rows(room)), k)
    requires forall j :: 0 <= j < k ==> !Unanswered(Readings(c, db.Rows(room)), j)
    ensures verified == |db.Rows(room)|
    ensures found == Some(ChainBreak(room, k + 1, db.Rows(room)[k].eventId, NeverAnnounced))
  {
    var rows := db.Rows(room);
    var rs := Readings(c, rows);
    AllPass(c, db, room);
    var pending := ScanPrefix(c, db.redactions, room, rows, |rows|).cursor.pending;
    assert rs[k].eventId == rows[k].eventId;
    hide ScanPrefix, Passes, PendingMeans, Unanswered, IsEarliest, Readings, UniqueEventIds, RoomReport;
    var p := FirstPending(rs, pending, k);
    var q := TailNamesPending(c, db, room, verified, found);
    OneEarliest(rs, pending, p, q);
  }

  lemma TailNamesPending(c: Codec, db: Db, room: string, verified: nat, found: Option<ChainBreak>) returns (q: Pending)
    requires RoomReport(c, db, room, verified, found)
    requires var s := ScanPrefix(c, db.redactions, room, db.Rows(room), |db.Rows(room)|);
             s.found.None? && s.cursor.pending != map[]
    ensures var s := ScanPrefix(c, db.redactions, room, db.Rows(room), |db.Rows(room)|);
            && verified == s.verified && IsEarliest(s.cursor.pending, q)
            && found == Some(ChainBreak(room, q.sequence, q.eventId, NeverAnnounced))
  {
    hide ScanPrefix, IsEarliest;
    var pending := ScanPrefix(c, db.redactions, room, db.Rows(room), |db.Rows(room)|).cursor.pending;
    q :| IsEarliest(pending, q) && found == Some(ChainBreak(room, q.sequence, q.eventId, NeverAnnounced));
  }

  /** The pending entry of the first marker that nothing names is the earliest. */
  lemma FirstPending(rs: seq<Reading>, pending: map<string, Pending>, k: nat) returns (p: Pending)
    requires PendingMeans(rs, |rs|, pending) && k < |rs| && Unanswered(rs, k)
    requires forall j :: 0 <= j < k ==> !Unanswered(rs, j)
    ensures p == PendingOf(rs[k], k) && IsEarliest(pending, p) && pending != map[]
  {
    var id := rs[k].marker.value;
    assert OpenAt(rs, |rs|, k, id);
    p := pending[id];
    forall other <- pending ensures p.sequence <= pending[other].sequence {
      var i :| OpenAt(rs, |rs|, i, other);
      assert Unanswered(rs, i);
    }
  }

  lemma OneEarliest(rs: seq<Reading>, pending: map<string, Pending>, p: Pending, q: Pending)
    requires PendingMeans(rs, |rs|, pending) && IsEarliest(pending, p) && IsEarliest(pending, q)
    ensures p == q
  {
    var a :| a in pending && pending[a] == p;
    var b :| b in pending && pending[b] == q;
    var i :| OpenAt(rs, |rs|, i, a);
    var j :| OpenAt(rs, |rs|, j, b);
  }

  /** Where every row passes and every marker is answered, only the counter can be wrong. */
  lemma ReportComparesTheCounter(c: Codec, db: Db, room: string, verified: nat, found: Option<ChainBreak>)
    requires RoomReport(c, db, room, verified, found) && UniqueEventIds(db.Rows(room))
    requires forall j :: 0 <= j < |db.Rows(room)| ==> Passes(c, db.redactions, room, db.Rows(room), j)
    requires forall j :: 0 <= j < |db.Rows(room)| ==> !Unanswered(Readings(c, db.Rows(room)), j)
    ensures verified == |db.Rows(room)|
    ensures var rows := db.Rows(room);
            var lastId := if rows == [] then "" else rows[|rows| - 1].eventId;
            found == if room !in db.counters then
                       if rows == [] then None else Some(ChainBreak(room, |rows|, lastId, CounterMissing))
                     else if db.counters[room] == |rows| then None
                     else Some(ChainBreak(room, |rows|, lastId, CounterDiffers(|rows|, db.counters[room])))
  {
    var rows := db.Rows(room);
    var rs := Readings(c, rows);
    AllPass(c, db, room);
    var pending := ScanPrefix(c, db.redactions, room, rows, |rows|).cursor.pending;
    hide ScanPrefix, Passes, Unanswered, PendingMeans, Readings, UniqueEventIds;
    NothingPending(rs, pending);
  }

  lemma NothingPending(rs: seq<Reading>, pending: map<string, Pending>)
    requires PendingMeans(rs, |rs|, pending) && forall j :: 0 <= j < |rs| ==> !Unanswered(rs, j)
    ensures pending == map[]
  {
    forall i, id | OpenAt(rs, |rs|, i, id) ensures Unanswered(rs, i) {
    }
  }
}
