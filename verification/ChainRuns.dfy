/**
 What every run of appends and erasures keeps, whatever payloads its callers store: rows are only ever added and
 marked, and a room no caller stored a marker in is honest.
 */
module ChainRuns {
  import opened Prelude
  import opened EventChain
  import opened ChainVerifier
  import opened EventLog

  // ---- Honest rows

  /** Row i as first written: chained, not marker-shaped, and an announcement only if an erase step wrote it. */
  ghost predicate WellAppended(c: Codec, room: string, app: seq<Row>, i: nat)
    requires i < |app|
  {
    var row := app[i];
    && row.sequence == i + 1
    && row.prevHash == Some(HashBefore(app, i))
    && row.eventHash == Some(ChainHash(c, HashBefore(app, i), room, row))
    && RedactionMarker(c, row.payload).None?
    && (row.eventType == EVENT_REDACTED ==> exists notes :: row.payload == c.dumps(AnnouncementJson(notes)))
  }

  /** A later event names the id. */
  ghost predicate NamedAfter(os: seq<Reading>, i: int, id: string) {
    exists j :: i < j < |os| && 0 <= j && FirstNaming(os[j].named, id).Some?
  }

  /** Row i today: as written, or a backed and announced marker in place of its payload. */
  ghost predicate KeptOrErased(redactions: map<string, Redaction>, rows: seq<Row>, app: seq<Row>,
                               rs: seq<Reading>, os: seq<Reading>, i: nat)
    requires i < |rows| == |app| == |rs| == |os|
  {
    if rs[i].marker.None? then rows[i] == app[i]
    else
      && rows[i] == app[i].(payload := rows[i].payload)
      && app[i].eventType != EVENT_REDACTED
      && BackedBy(redactions, rs[i])
      && NamedAfter(os, i, rs[i].marker.value)
  }

  /** Every entry of an announcement is about an earlier marker, and repeats its row's hashes. */
  ghost predicate TrueEntry(rs: seq<Reading>, os: seq<Reading>, j: int, a: Announcement)
    requires |rs| == |os|
  {
    exists i :: 0 <= i < j && i < |os| && rs[i].marker == Some(a.redactionId) && IsTrueOf(a, os[i])
  }

  ghost predicate TrueEntries(rs: seq<Reading>, os: seq<Reading>, j: nat)
    requires j < |rs| == |os|
  {
    forall a <- os[j].named :: TrueEntry(rs, os, j, a)
  }

  ghost predicate HonestRows(c: Codec, redactions: map<string, Redaction>, room: string, rows: seq<Row>, app: seq<Row>) {
    var rs, os := Readings(c, rows), Readings(c, app);
    && |rows| == |app|
    && (forall i | 0 <= i < |app| :: WellAppended(c, room, app, i))
    && (forall i | 0 <= i < |app| :: KeptOrErased(redactions, rows, app, rs, os, i))
    && (forall j | 0 <= j < |app| :: TrueEntries(rs, os, j))
  }

  /** What the chained fields of a marker row say is what they said when it was written. */
  lemma SameReading(c: Codec, redactions: map<string, Redaction>, room: string, rows: seq<Row>, app: seq<Row>, i: nat)
    requires i < |rows| && HonestRows(c, redactions, room, rows, app)
    ensures var r, o := Readings(c, rows)[i], Readings(c, app)[i];
            r == o.(marker := r.marker, named := r.named) && r.named == o.named
    ensures SameHeader(rows[i], app[i]) && rows[i].eventId == app[i].eventId
  {
    assert KeptOrErased(redactions, rows, app, Readings(c, rows), Readings(c, app), i);
  }

  /** Today's readings differ from the original ones in their markers only. */
  ghost predicate OnlyMarkersDiffer(rs: seq<Reading>, os: seq<Reading>) {
    |rs| == |os| && forall i | 0 <= i < |rs| :: os[i] == rs[i].(marker := os[i].marker)
  }

  // ---- Appending keeps honest rows

  lemma ReadingsExtend(c: Codec, rows: seq<Row>, row: Row)
    ensures Readings(c, rows + [row]) == Readings(c, rows) + [Read(c, row)]
  {
  }

  lemma ChainedIsWellAppended(c: Codec, room: string, app: seq<Row>, ev: Event)
    requires Faithful(c) && forall i | 0 <= i < |app| :: WellAppended(c, room, app, i)
    requires MarkerOf(Some(JObject(ev.payload))).None?
    requires ev.eventType == EVENT_REDACTED ==> exists notes :: JObject(ev.payload) == AnnouncementJson(notes)
    ensures var row := ChainedRow(c, room, ev, |app| + 1, HashBefore(app, |app|));
            forall i | 0 <= i <= |app| :: WellAppended(c, room, app + [row], i)
  {
    var row := ChainedRow(c, room, ev, |app| + 1, HashBefore(app, |app|));
    assert row.payload == c.dumps(JObject(ev.payload));
    assert c.parse(row.payload) == Some(JObject(ev.payload));
    forall i | 0 <= i <= |app| ensures WellAppended(c, room, app + [row], i) {
      assert HashBefore(app + [row], i) == HashBefore(app, i);
      if i < |app| {
        assert WellAppended(c, room, app, i);
      }
    }
  }

  /** Extending both lists by one row keeps what was true of the earlier rows. */
  lemma EarlierRowsKeep(redactions: map<string, Redaction>, rows: seq<Row>, app: seq<Row>, rs: seq<Reading>,
                        os: seq<Reading>, row: Row, r: Reading, i: nat)
    requires i < |rows| == |app| == |rs| == |os|
    ensures KeptOrErased(redactions, rows, app, rs, os, i) ==>
              KeptOrErased(redactions, rows + [row], app + [row], rs + [r], os + [r], i)
    ensures TrueEntries(rs, os, i) ==> TrueEntries(rs + [r], os + [r], i)
  {
    if KeptOrErased(redactions, rows, app, rs, os, i) && rs[i].marker.Some? {
      var id := rs[i].marker.value;
      var j :| i < j < |os| && FirstNaming(os[j].named, id).Some?;
      assert FirstNaming((os + [r])[j].named, id).Some?;
    }
    if TrueEntries(rs, os, i) {
      forall a <- os[i].named ensures TrueEntry(rs + [r], os + [r], i, a) {
        assert TrueEntry(rs, os, i, a);
        var k :| 0 <= k < i && k < |os| && rs[k].marker == Some(a.redactionId) && IsTrueOf(a, os[k]);
        assert (rs + [r])[k] == rs[k] && (os + [r])[k] == os[k];
      }
    }
  }

  lemma AppendKeepsRows(c: Codec, redactions: map<string, Redaction>, room: string, rows: seq<Row>, app: seq<Row>,
                        ev: Event)
    requires Faithful(c) && HonestRows(c, redactions, room, rows, app)
    requires ev.eventType != EVENT_REDACTED && MarkerOf(Some(JObject(ev.payload))).None?
    ensures var row := ChainedRow(c, room, ev, |app| + 1, HashBefore(app, |app|));
            HonestRows(c, redactions, room, rows + [row], app + [row])
  {
    var row := ChainedRow(c, room, ev, |app| + 1, HashBefore(app, |app|));
    var rs, os, r := Readings(c, rows), Readings(c, app), Read(c, row);
    ReadingsExtend(c, rows, row);
    ReadingsExtend(c, app, row);
    ChainedIsWellAppended(c, room, app, ev);
    assert r.named == [] && r.marker.None? by {
      assert WellAppended(c, room, app + [row], |app|);
    }
    forall i | 0 <= i < |app|
      ensures KeptOrErased(redactions, rows + [row], app + [row], rs + [r], os + [r], i)
      ensures TrueEntries(rs + [r], os + [r], i)
    {
      EarlierRowsKeep(redactions, rows, app, rs, os, row, r, i);
    }
  }

  // ---- Erasing keeps honest rows

  lemma AnnouncementsAreNotPersonal(notes: seq<Announcement>)
    ensures !CarriesPersonalContent(EVENT_REDACTED, AnnouncementJson(notes).fields)
  {
    var f := AnnouncementJson(notes).fields;
    assert f.Keys == {"redactions", "count"};
    assert "content" !in f.Keys && "body" !in f.Keys && "title" !in f.Keys;
    assert "filename" !in f.Keys && "instruction" !in f.Keys;
  }

  /** Row i of an erasure in progress: untouched, or a fresh marker that a note is kept for. */
  ghost predicate ErasedSoFar(e: Erasure, before: seq<Row>, rs: seq<Reading>, es: seq<Reading>, i: nat)
    requires i < |before| == |e.rows| == |rs| == |es|
  {
    || e.rows[i] == before[i]
    || (&& e.rows[i] == before[i].(payload := e.rows[i].payload) && before[i].eventType != EVENT_REDACTED
        && rs[i].marker.None? && es[i].marker.Some? && es[i] == rs[i].(marker := es[i].marker)
        && BackedBy(e.redactions, es[i])
        && exists note <- e.notes :: note.redactionId == es[i].marker.value)
  }

  /** A note repeats the hashes of the marker row it is kept for. */
  ghost predicate NoteIsTrue(rs: seq<Reading>, es: seq<Reading>, note: Announcement)
    requires |rs| == |es|
  {
    && note.redactionId != ""
    && exists i :: 0 <= i < |rs| && es[i].marker == Some(note.redactionId) && IsTrueOf(note, rs[i])
  }

  ghost predicate SoundErasure(c: Codec, e: Erasure, before: seq<Row>, redactions: map<string, Redaction>, k: nat)
    requires k <= |before|
  {
    var rs, es := Readings(c, before), Readings(c, e.rows);
    && |e.rows| == |before|
    && (forall id <- redactions :: id in e.redactions && e.redactions[id] == redactions[id])
    && (forall i | 0 <= i < |before| :: ErasedSoFar(e, before, rs, es, i))
    && (forall i | k <= i < |before| :: e.rows[i] == before[i])
    && (forall note <- e.notes :: NoteIsTrue(rs, es, note))
  }

  /** The reading of a row whose payload has just become a marker. */
  lemma MarkerReading(c: Codec, row: Row, id: string)
    requires Faithful(c) && id != "" && RedactionMarker(c, row.payload).None?
    requires row.eventType != EVENT_REDACTED
    ensures Read(c, row.(payload := c.dumps(MarkerJson(id)))) == Read(c, row).(marker := Some(id))
  {
    MarkerRoundTrip(c, id);
  }

  lemma ErasedRowIsOrdinary(c: Codec, room: string, app: seq<Row>, i: nat, f: map<string, Json>)
    requires Faithful(c) && i < |app| && WellAppended(c, room, app, i)
    requires c.parse(app[i].payload) == Some(JObject(f)) && CarriesPersonalContent(app[i].eventType, f)
    ensures app[i].eventType != EVENT_REDACTED
  {
    if app[i].eventType == EVENT_REDACTED {
      var notes :| app[i].payload == c.dumps(AnnouncementJson(notes));
      assert c.parse(c.dumps(AnnouncementJson(notes))) == Some(AnnouncementJson(notes));
      AnnouncementsAreNotPersonal(notes);
    }
  }

  /** Replacing one row's payload by a fresh marker, with its record and its note, keeps an erasure sound. */
  lemma MarkingIsSound(c: Codec, e: Erasure, before: seq<Row>, redactions: map<string, Redaction>, k: nat, id: string)
    requires Faithful(c) && k < |before| && id != "" && SoundErasure(c, e, before, redactions, k)
    requires RedactionMarker(c, before[k].payload).None? && before[k].eventType != EVENT_REDACTED
    requires id !in e.redactions
    ensures var row := before[k];
            var record := Redaction(row.eventId, Str(row.eventHash), HeaderHash(c, row));
            SoundErasure(c, Erasure(e.rows[k := row.(payload := c.dumps(MarkerJson(id)))], e.redactions[id := record],
                                    e.notes + [Announcement(id, record.headerHash, record.originalEventHash)]),
                         before, redactions, k + 1)
  {
    var row := before[k];
    var record := Redaction(row.eventId, Str(row.eventHash), HeaderHash(c, row));
    var note := Announcement(id, record.headerHash, record.originalEventHash);
    var marked := row.(payload := c.dumps(MarkerJson(id)));
    var e' := Erasure(e.rows[k := marked], e.redactions[id := record], e.notes + [note]);
    var rs, es, es' := Readings(c, before), Readings(c, e.rows), Readings(c, e'.rows);
    MarkerReading(c, row, id);
    MarkingKeeps(e, e', before, redactions, rs, es, es', k, note);
  }

  /** The same on readings, which is all it depends on. */
  lemma MarkingKeeps(e: Erasure, e': Erasure, before: seq<Row>, redactions: map<string, Redaction>, rs: seq<Reading>,
                     es: seq<Reading>, es': seq<Reading>, k: nat, note: Announcement)
    requires k < |before| == |e.rows| == |e'.rows| == |rs| == |es| == |es'|
    requires forall i | 0 <= i < |before| :: ErasedSoFar(e, before, rs, es, i)
    requires forall n <- e.notes :: NoteIsTrue(rs, es, n)
    requires e.rows[k] == before[k] && es[k] == rs[k] && rs[k].marker.None? && before[k].eventType != EVENT_REDACTED
    requires forall i | 0 <= i < |before| && i != k :: e'.rows[i] == e.rows[i] && es'[i] == es[i]
    requires e'.rows[k] == before[k].(payload := e'.rows[k].payload)
    requires note.redactionId != "" && note.redactionId !in e.redactions && IsTrueOf(note, rs[k])
    requires es'[k] == rs[k].(marker := Some(note.redactionId))
    requires e'.redactions == e.redactions[note.redactionId := Redaction(rs[k].eventId, rs[k].eventHash, rs[k].headerHash)]
    requires e'.notes == e.notes + [note]
    ensures forall i | 0 <= i < |before| :: ErasedSoFar(e', before, rs, es', i)
    ensures forall n <- e'.notes :: NoteIsTrue(rs, es', n)
  {
    forall i | 0 <= i < |before| ensures ErasedSoFar(e', before, rs, es', i) {
      assert ErasedSoFar(e, before, rs, es, i);
      if i == k {
        assert note in e'.notes && note.redactionId == es'[k].marker.value;
      } else if e.rows[i] != before[i] {
        var n :| n in e.notes && n.redactionId == es[i].marker.value;
        assert n in e'.notes;
      }
    }
    forall n <- e'.notes ensures NoteIsTrue(rs, es', n) {
      if n in e.notes {
        var i :| 0 <= i < |rs| && es[i].marker == Some(n.redactionId) && IsTrueOf(n, rs[i]);
        assert es'[i] == es[i];
      } else {
        assert es'[k].marker == Some(n.redactionId);
      }
    }
  }

  /** An erasure followed by its announcement restores the invariant. */
  lemma AnnouncingRestores(c: Codec, room: string, before: seq<Row>, app: seq<Row>, redactions: map<string, Redaction>,
                           e: Erasure, ev: Event)
    requires Faithful(c) && HonestRows(c, redactions, room, before, app)
    requires SoundErasure(c, e, before, redactions, |before|)
    requires ev.eventType == EVENT_REDACTED && JObject(ev.payload) == AnnouncementJson(e.notes)
    ensures var row := ChainedRow(c, room, ev, |app| + 1, HashBefore(app, |app|));
            HonestRows(c, e.redactions, room, e.rows + [row], app + [row])
  {
    var row := ChainedRow(c, room, ev, |app| + 1, HashBefore(app, |app|));
    var rs, es, os, r := Readings(c, before), Readings(c, e.rows), Readings(c, app), Read(c, row);
    AnnouncementRoundTrip(c, e.notes);
    assert r.named == e.notes && r.marker.None?;
    assert c.parse(c.dumps(JObject(ev.payload))) == Some(JObject(ev.payload));
    ChainedIsWellAppended(c, room, app, ev);
    ReadingsExtend(c, e.rows, row);
    ReadingsExtend(c, app, row);
    forall i | 0 <= i < |before| ensures os[i] == rs[i].(marker := os[i].marker) {
      SameReading(c, redactions, room, before, app, i);
    }
    AnnouncedRowsKeep(redactions, before, app, rs, es, os, e, row, r);
    forall i | 0 <= i <= |app| ensures KeptOrErased(e.redactions, e.rows + [row], app + [row], es + [r], os + [r], i) {
    }
  }

  /** The same on readings: old markers stay backed, and the new event names every new one. */
  lemma AnnouncedRowsKeep(redactions: map<string, Redaction>, before: seq<Row>, app: seq<Row>, rs: seq<Reading>,
                          es: seq<Reading>, os: seq<Reading>, e: Erasure, row: Row, r: Reading)
    requires |before| == |app| == |e.rows| == |rs| == |es| == |os|
    requires forall i | 0 <= i < |app| :: KeptOrErased(redactions, before, app, rs, os, i)
    requires forall j | 0 <= j < |app| :: TrueEntries(rs, os, j)
    requires OnlyMarkersDiffer(rs, os)
    requires forall i | 0 <= i < |app| :: ErasedSoFar(e, before, rs, es, i)
    requires forall i | 0 <= i < |app| && e.rows[i] == before[i] :: es[i] == rs[i]
    requires forall id <- redactions :: id in e.redactions && e.redactions[id] == redactions[id]
    requires forall note <- e.notes :: NoteIsTrue(rs, es, note)
    requires r.named == e.notes && r.marker.None?
    ensures forall i | 0 <= i < |app| :: KeptOrErased(e.redactions, e.rows + [row], app + [row], es + [r], os + [r], i)
    ensures forall j | 0 <= j <= |app| :: TrueEntries(es + [r], os + [r], j)
  {
    var n := |app|;
    forall i | 0 <= i < n
      ensures KeptOrErased(e.redactions, e.rows + [row], app + [row], es + [r], os + [r], i)
    {
      assert KeptOrErased(redactions, before, app, rs, os, i) && ErasedSoFar(e, before, rs, es, i);
      if e.rows[i] == before[i] {
        if rs[i].marker.Some? {
          var j :| i < j < |os| && FirstNaming(os[j].named, rs[i].marker.value).Some?;
          assert FirstNaming((os + [r])[j].named, rs[i].marker.value).Some?;
        }
      } else {
        NamedIsFound(e.notes, es[i].marker.value);
        assert FirstNaming((os + [r])[n].named, es[i].marker.value).Some?;
      }
    }
    forall j, a | 0 <= j <= n && a in (os + [r])[j].named ensures TrueEntry(es + [r], os + [r], j, a) {
      if j < n {
        assert TrueEntries(rs, os, j) && TrueEntry(rs, os, j, a);
        var k :| 0 <= k < j && rs[k].marker == Some(a.redactionId) && IsTrueOf(a, os[k]);
        assert ErasedSoFar(e, before, rs, es, k);
        assert (es + [r])[k].marker == Some(a.redactionId) && IsTrueOf(a, (os + [r])[k]);
      } else {
        assert NoteIsTrue(rs, es, a);
        var k :| 0 <= k < |rs| && es[k].marker == Some(a.redactionId) && IsTrueOf(a, rs[k]);
        assert (es + [r])[k].marker == Some(a.redactionId) && IsTrueOf(a, (os + [r])[k]);
      }
    }
  }

  lemma {:induction false} NamedIsFound(entries: seq<Announcement>, id: string)
    requires exists a <- entries :: a.redactionId == id
    ensures FirstNaming(entries, id).Some?
  {
    var n := |entries| - 1;
    if entries[n].redactionId != id {
      var a :| a in entries && a.redactionId == id;
      assert a in entries[..n];
      NamedIsFound(entries[..n], id);
    }
  }

  // ---- What is kept whatever the payloads are

  /** No row was first written with the marker's shape. */
  ghost predicate Ordinary(c: Codec, app: seq<Row>) {
    forall i | 0 <= i < |app| :: RedactionMarker(c, app[i].payload).None?
  }

  ghost predicate CounterIs(db: Db, room: string, n: int) {
    if room in db.counters then db.counters[room] == n else n == 0
  }

  /** A row today: as first written, or with a marker for a payload that was none. */
  ghost predicate KeptRow(c: Codec, row: Row, o: Row, i: int) {
    && o.sequence == i + 1 && o.eventHash.Some?
    && (row == o || (&& row == o.(payload := row.payload)
                     && RedactionMarker(c, o.payload).None? && RedactionMarker(c, row.payload).Some?))
  }

  ghost predicate KeptRows(c: Codec, rows: seq<Row>, app: seq<Row>) {
    |rows| == |app| && forall i | 0 <= i < |app| :: KeptRow(c, rows[i], app[i], i)
  }

  /** Event ids are unique over all rooms. */
  ghost predicate DistinctIds(h: History) {
    forall r1: string, r2: string, i, j ::
      0 <= i < |h.Appended(r1)| && 0 <= j < |h.Appended(r2)| && h.Appended(r1)[i].eventId == h.Appended(r2)[j].eventId
      ==> r1 == r2 && i == j
  }

  ghost predicate OfOrdinaryRow(c: Codec, h: History, eventId: string) {
    exists room: string, i :: && 0 <= i < |h.Appended(room)| && h.Appended(room)[i].eventId == eventId
                              && RedactionMarker(c, h.Appended(room)[i].payload).None?
  }

  ghost predicate RecordsKept(c: Codec, h: History, redactions: map<string, Redaction>) {
    forall id <- redactions :: OfOrdinaryRow(c, h, redactions[id].eventId)
  }

  ghost predicate KeptRoom(c: Codec, h: History, room: string) {
    KeptRows(c, h.db.Rows(room), h.Appended(room)) && CounterIs(h.db, room, |h.db.Rows(room)|)
  }

  ghost predicate Kept(c: Codec, h: History) {
    && (forall room :: KeptRoom(c, h, room))
    && DistinctIds(h) && RecordsKept(c, h, h.db.redactions)
  }

  ghost predicate HonestRoom(c: Codec, h: History, room: string) {
    HonestRows(c, h.db.redactions, room, h.db.Rows(room), h.Appended(room))
  }

  /** The invariant of every run. */
  ghost predicate Sound(c: Codec, h: History) {
    Kept(c, h) && forall room :: Ordinary(c, h.Appended(room)) ==> HonestRoom(c, h, room)
  }

  lemma KeptIdsAreUnique(c: Codec, h: History, room: string)
    requires Kept(c, h)
    ensures UniqueEventIds(h.db.Rows(room))
  {
    var rows, app := h.db.Rows(room), h.Appended(room);
    assert KeptRoom(c, h, room);
    forall i | 0 <= i < |rows| ensures rows[i].eventId == app[i].eventId {
      assert KeptRow(c, rows[i], app[i], i);
    }
  }

  /** A room changes by rows being marked and one being added. */
  ghost predicate Grows(c: Codec, h: History, next: History, room: string, marked: seq<Row>, row: Row) {
    && KeptRows(c, marked, h.Appended(room))
    && next.db.Rows(room) == marked + [row] && next.Appended(room) == h.Appended(room) + [row]
    && CounterIs(next.db, room, |marked| + 1)
    && row.sequence == |marked| + 1 && row.eventHash.Some?
    && OtherRoomsSame(h, next, room)
  }

  ghost predicate OtherRoomsSame(h: History, next: History, room: string) {
    && (forall r | r != room :: next.db.Rows(r) == h.db.Rows(r) && next.Appended(r) == h.Appended(r))
    && (forall r | r != room :: r in next.db.counters <==> r in h.db.counters)
    && (forall r <- h.db.counters | r != room :: next.db.counters[r] == h.db.counters[r])
  }

  ghost predicate NewId(h: History, eventId: string) {
    forall r: string, i :: 0 <= i < |h.Appended(r)| ==> h.Appended(r)[i].eventId != eventId
  }

  lemma GrowingKeeps(c: Codec, h: History, next: History, room: string, marked: seq<Row>, row: Row)
    requires Kept(c, h) && Grows(c, h, next, room, marked, row) && NewId(h, row.eventId)
    requires RecordsKept(c, h, next.db.redactions)
    ensures Kept(c, next)
  {
    forall r ensures KeptRoom(c, next, r) {
      assert KeptRoom(c, h, r);
      if r == room {
        forall i | 0 <= i <= |marked| ensures KeptRow(c, (marked + [row])[i], (h.Appended(room) + [row])[i], i) {
        }
      }
    }
    forall id <- next.db.redactions ensures OfOrdinaryRow(c, next, next.db.redactions[id].eventId) {
      var eventId := next.db.redactions[id].eventId;
      assert OfOrdinaryRow(c, h, eventId);
      var r, i :| 0 <= i < |h.Appended(r)| && h.Appended(r)[i].eventId == eventId
                  && RedactionMarker(c, h.Appended(r)[i].payload).None?;
      assert next.Appended(r)[i] == h.Appended(r)[i];
    }
    GrowingKeepsIds(h, next, room, row);
  }

  lemma GrowingKeepsIds(h: History, next: History, room: string, row: Row)
    requires DistinctIds(h) && NewId(h, row.eventId)
    requires next.Appended(room) == h.Appended(room) + [row]
    requires forall r | r != room :: next.Appended(r) == h.Appended(r)
    ensures DistinctIds(next)
  {
  }

  lemma NextRowIsChained(c: Codec, room: string, app: seq<Row>, db: Db, ev: Event)
    requires Faithful(c)
    requires |db.Rows(room)| == |app| && CounterIs(db, room, |app|)
    requires forall i | 0 <= i < |app| :: db.Rows(room)[i].sequence == i + 1
    requires forall i | 0 <= i < |app| :: db.Rows(room)[i].eventHash == app[i].eventHash && app[i].eventHash.Some?
    requires NextRow(c, db, room, ev).Ok?
    ensures var row := NextRow(c, db, room, ev).value;
            && row == ChainedRow(c, room, ev, |app| + 1, HashBefore(app, |app|))
            && Place(db.Rows(room), row) == db.Rows(room) + [row]
            && !EventIdTaken(db, row.eventId)
  {
    var rows := db.Rows(room);
    if app != [] {
      assert rows[|rows| - 1].sequence == |rows|;
      assert room in db.events;
    }
  }

  lemma PlaceAtEnd(rows: seq<Row>, row: Row)
    requires row.sequence == |rows| + 1 && forall i | 0 <= i < |rows| :: rows[i].sequence == i + 1
    ensures Place(rows, row) == rows + [row]
  {
  }

  // ---- Appending

  lemma NextRowStands(c: Codec, h: History, db: Db, room: string, ev: Event)
    requires Faithful(c) && Kept(c, h) && KeptRows(c, db.Rows(room), h.Appended(room))
    requires db.counters == h.db.counters && NextRow(c, db, room, ev).Ok?
    ensures var app, row := h.Appended(room), NextRow(c, db, room, ev).value;
            && row == ChainedRow(c, room, ev, |app| + 1, HashBefore(app, |app|))
            && NextSequence(db, room) == |app| + 1 && !EventIdTaken(db, row.eventId)
            && Place(db.Rows(room), row) == db.Rows(room) + [row] && Place(app, row) == app + [row]
  {
    var rows, app := db.Rows(room), h.Appended(room);
    assert KeptRoom(c, h, room);
    forall i | 0 <= i < |app|
      ensures rows[i].sequence == i + 1 == app[i].sequence && rows[i].eventHash == app[i].eventHash && app[i].eventHash.Some?
    {
      assert KeptRow(c, rows[i], app[i], i);
    }
    NextRowIsChained(c, room, app, db, ev);
    PlaceAtEnd(app, NextRow(c, db, room, ev).value);
  }

  lemma PlacedGrows(c: Codec, h: History, db: Db, room: string, row: Row)
    requires KeptRows(c, db.Rows(room), h.Appended(room))
    requires db.counters == h.db.counters && forall r | r != room :: db.Rows(r) == h.db.Rows(r)
    requires NextSequence(db, room) == row.sequence == |h.Appended(room)| + 1 && row.eventHash.Some?
    requires Place(db.Rows(room), row) == db.Rows(room) + [row]
    requires Place(h.Appended(room), row) == h.Appended(room) + [row]
    ensures Grows(c, h, History(db, h.appended).With(room, row), room, db.Rows(room), row)
  {
    assert |db.Rows(room)| == |h.Appended(room)|;
    hide KeptRows, Place, NextSequence;
    var next := History(db, h.appended).With(room, row);
    assert next.db.counters == h.db.counters[room := |h.Appended(room)| + 1];
  }

  /** The next row stands at the end of both lists under an id no row has. */
  lemma NextRowGrows(c: Codec, h: History, db: Db, room: string, ev: Event)
    requires Faithful(c) && Kept(c, h) && KeptRows(c, db.Rows(room), h.Appended(room))
    requires db.counters == h.db.counters && NextRow(c, db, room, ev).Ok?
    requires forall r | r != room :: db.Rows(r) == h.db.Rows(r)
    ensures var row := NextRow(c, db, room, ev).value;
            && row == ChainedRow(c, room, ev, |h.Appended(room)| + 1, HashBefore(h.Appended(room), |h.Appended(room)|))
            && Grows(c, h, History(db, h.appended).With(room, row), room, db.Rows(room), row)
            && NewId(h, row.eventId)
  {
    var row := NextRow(c, db, room, ev).value;
    NextRowStands(c, h, db, room, ev);
    FreeIdIsNew(c, h, db, room, row.eventId);
    hide NextRow, KeptRows, Kept, Place, EventIdTaken, NextSequence, Grows, NewId;
    PlacedGrows(c, h, db, room, row);
  }

  lemma FreeIdIsNew(c: Codec, h: History, db: Db, room: string, eventId: string)
    requires Kept(c, h) && KeptRows(c, db.Rows(room), h.Appended(room))
    requires forall r | r != room :: db.Rows(r) == h.db.Rows(r)
    requires !EventIdTaken(db, eventId)
    ensures NewId(h, eventId)
  {
    forall r: string, i | 0 <= i < |h.Appended(r)| ensures h.Appended(r)[i].eventId != eventId {
      assert KeptRoom(c, h, r);
      assert KeptRow(c, db.Rows(r)[i], h.Appended(r)[i], i);
      assert r in db.events && db.events[r][i].eventId == h.Appended(r)[i].eventId;
    }
  }

  /** Records only ever being added, the other rooms' rows are as honest as before. */
  lemma MoreRecordsKeepHonest(c: Codec, room: string, rows: seq<Row>, app: seq<Row>, before: map<string, Redaction>,
                              after: map<string, Redaction>)
    requires HonestRows(c, before, room, rows, app)
    requires forall id <- before :: id in after && after[id] == before[id]
    ensures HonestRows(c, after, room, rows, app)
  {
    forall i | 0 <= i < |app| ensures KeptOrErased(after, rows, app, Readings(c, rows), Readings(c, app), i) {
      assert KeptOrErased(before, rows, app, Readings(c, rows), Readings(c, app), i);
    }
  }

  /** What a committed step leaves: the invariant, and every row first written still first written. */
  ghost predicate Advances(c: Codec, h: History, next: History) {
    Sound(c, next) && Extends(h, next)
  }

  ghost predicate Extends(h: History, next: History) {
    forall room :: h.Appended(room) <= next.Appended(room)
  }

  lemma ExtendsOn(a: History, b: History, c: History)
    requires Extends(a, b) && Extends(b, c)
    ensures Extends(a, c)
  {
    forall room ensures a.Appended(room) <= c.Appended(room) {
      assert a.Appended(room) <= b.Appended(room) && b.Appended(room) <= c.Appended(room);
    }
  }

  lemma GrowingAdvances(c: Codec, h: History, next: History, room: string, marked: seq<Row>, row: Row)
    requires Sound(c, h) && Kept(c, next) && Grows(c, h, next, room, marked, row)
    requires forall id <- h.db.redactions :: id in next.db.redactions && next.db.redactions[id] == h.db.redactions[id]
    requires Ordinary(c, h.Appended(room) + [row]) ==> HonestRoom(c, next, room)
    ensures Advances(c, h, next)
  {
    forall r | Ordinary(c, next.Appended(r)) ensures HonestRoom(c, next, r) {
      if r != room {
        MoreRecordsKeepHonest(c, r, h.db.Rows(r), h.Appended(r), h.db.redactions, next.db.redactions);
      }
    }
  }

  lemma AppendedIsHonest(c: Codec, h: History, room: string, ev: Event)
    requires Faithful(c) && Sound(c, h) && ev.eventType != EVENT_REDACTED
    requires var app := h.Appended(room);
             Ordinary(c, app + [ChainedRow(c, room, ev, |app| + 1, HashBefore(app, |app|))])
    ensures var app := h.Appended(room);
            var row := ChainedRow(c, room, ev, |app| + 1, HashBefore(app, |app|));
            HonestRows(c, h.db.redactions, room, h.db.Rows(room) + [row], app + [row])
  {
    var app := h.Appended(room);
    var row := ChainedRow(c, room, ev, |app| + 1, HashBefore(app, |app|));
    assert (app + [row])[|app|] == row;
    assert forall i | 0 <= i < |app| :: (app + [row])[i] == app[i];
    assert c.parse(row.payload) == Some(JObject(ev.payload));
    hide HonestRows, Kept;
    AppendKeepsRows(c, h.db.redactions, room, h.db.Rows(room), app, ev);
  }

  lemma AppendAdvances(c: Codec, h: History, room: string, ev: Event)
    requires Faithful(c) && Sound(c, h) && ev.eventType != EVENT_REDACTED && NextRow(c, h.db, room, ev).Ok?
    ensures Advances(c, h, h.With(room, NextRow(c, h.db, room, ev).value))
  {
    var app, row := h.Appended(room), NextRow(c, h.db, room, ev).value;
    var next := h.With(room, row);
    assert KeptRoom(c, h, room);
    NextRowGrows(c, h, h.db, room, ev);
    assert next.db.redactions == h.db.redactions;
    hide NextRow, HonestRows, ChainedRow, KeptRows, Ordinary;
    GrowingKeeps(c, h, next, room, h.db.Rows(room), row);
    if Ordinary(c, app + [row]) {
      AppendedIsHonest(c, h, room, ev);
    }
    GrowingAdvances(c, h, next, room, h.db.Rows(room), row);
  }

  /** What was listed at an earlier time: as first written, or already marked. */
  ghost predicate WasListed(c: Codec, listed: seq<Row>, app: seq<Row>) {
    && |listed| <= |app|
    && forall i | 0 <= i < |listed| :: && listed[i].eventId == app[i].eventId
                                       && (RedactionMarker(c, listed[i].payload).None? ==> listed[i] == app[i])
  }

  ghost predicate DistinctRows(rows: seq<Row>) {
    forall i, j | 0 <= i < |rows| && 0 <= j < |rows| :: rows[i].eventId == rows[j].eventId ==> i == j
  }

  lemma MarkedIsOneRow(rows: seq<Row>, app: seq<Row>, k: nat, payload: string)
    requires k < |rows| == |app| && DistinctRows(app)
    requires forall i | 0 <= i < |rows| :: rows[i].eventId == app[i].eventId
    ensures Marked(rows, app[k].eventId, payload) == rows[k := rows[k].(payload := payload)]
  {
  }

  lemma MarkingKeepsRows(c: Codec, h: History, room: string, rows: seq<Row>, n: nat, id: string)
    requires Faithful(c) && DistinctIds(h) && KeptRows(c, rows, h.Appended(room)) && id != "" && n < |rows|
    requires RedactionMarker(c, h.Appended(room)[n].payload).None?
    ensures KeptRows(c, Marked(rows, h.Appended(room)[n].eventId, c.dumps(MarkerJson(id))), h.Appended(room))
  {
    var app, payload := h.Appended(room), c.dumps(MarkerJson(id));
    MarkerRoundTrip(c, id);
    forall i | 0 <= i < |app| ensures rows[i].eventId == app[i].eventId {
      assert KeptRow(c, rows[i], app[i], i);
    }
    MarkedIsOneRow(rows, app, n, payload);
    assert KeptRow(c, rows[n], app[n], n);
    assert KeptRow(c, rows[n].(payload := payload), app[n], n);
  }

  lemma ErasingMarksOne(c: Codec, h: History, room: string, e: Erasure, row: Row, n: nat, victim: string, id: string)
    requires Faithful(c) && Kept(c, h) && id != "" && n < |h.Appended(room)|
    requires RedactionMarker(c, row.payload).None? ==> row == h.Appended(room)[n]
    requires KeptRows(c, e.rows, h.Appended(room)) && RecordsKept(c, h, e.redactions)
    requires EraseRow(c, e, row, victim, id).Ok?
    ensures var e' := EraseRow(c, e, row, victim, id).value;
            && KeptRows(c, e'.rows, h.Appended(room)) && RecordsKept(c, h, e'.redactions)
            && (forall k <- e.redactions :: k in e'.redactions && e'.redactions[k] == e.redactions[k])
            && (e' == e || e'.notes != [])
  {
    if EraseRow(c, e, row, victim, id) != Ok(e) {
      assert row == h.Appended(room)[n];
      MarkingKeepsRows(c, h, room, e.rows, n, id);
      assert OfOrdinaryRow(c, h, row.eventId);
      hide KeptRows, OfOrdinaryRow, RedactionMarker, Kept, Marked, CarriesPersonalContent, HeaderHash;
      hide MarkerOf, MarkerJson, Faithful;
    }
  }

  /** Whatever the room holds, an erasure only marks rows that were ordinary, and only records those. */
  lemma {:induction false} ErasingMarks(c: Codec, h: History, room: string, listed: seq<Row>, victim: string,
                                        ids: nat -> string, k: nat)
    requires Faithful(c) && Kept(c, h) && (forall n :: ids(n) != "")
    requires k <= |listed| && WasListed(c, listed, h.Appended(room))
    requires EraseUpTo(c, Erasure(h.db.Rows(room), h.db.redactions, []), listed, victim, ids, k).Ok?
    ensures var e := EraseUpTo(c, Erasure(h.db.Rows(room), h.db.redactions, []), listed, victim, ids, k).value;
            && KeptRows(c, e.rows, h.Appended(room)) && RecordsKept(c, h, e.redactions)
            && (forall id <- h.db.redactions :: id in e.redactions && e.redactions[id] == h.db.redactions[id])
            && (e.notes == [] ==> e.rows == h.db.Rows(room) && e.redactions == h.db.redactions)
  {
    var start, app := Erasure(h.db.Rows(room), h.db.redactions, []), h.Appended(room);
    assert KeptRoom(c, h, room);
    if k > 0 {
      var n := k - 1;
      ErasingMarks(c, h, room, listed, victim, ids, n);
      var e := EraseUpTo(c, start, listed, victim, ids, n).value;
      hide EraseRow, KeptRows, RecordsKept, RedactionMarker;
      ErasingMarksOne(c, h, room, e, listed[n], n, victim, ids(n));
    }
  }

  lemma {:induction false} EraseIsSound(c: Codec, room: string, before: seq<Row>, app: seq<Row>,
                                        redactions: map<string, Redaction>, listed: seq<Row>, victim: string,
                                        ids: nat -> string, k: nat)
    requires Faithful(c) && HonestRows(c, redactions, room, before, app) && (forall n :: ids(n) != "")
    requires k <= |listed| && WasListed(c, listed, app) && DistinctRows(app)
    requires EraseUpTo(c, Erasure(before, redactions, []), listed, victim, ids, k).Ok?
    ensures SoundErasure(c, EraseUpTo(c, Erasure(before, redactions, []), listed, victim, ids, k).value, before, redactions, k)
  {
    var start := Erasure(before, redactions, []);
    if k > 0 {
      var n := k - 1;
      EraseIsSound(c, room, before, app, redactions, listed, victim, ids, n);
      var e := EraseUpTo(c, start, listed, victim, ids, n).value;
      if EraseRow(c, e, listed[n], victim, ids(n)) != Ok(e) {
        assert listed[n] == app[n] && WellAppended(c, room, app, n);
        ListedIsUnchanged(c, room, before, app, redactions, e, n);
        ErasedRowIsOrdinary(c, room, app, n, c.parse(app[n].payload).value.fields);
        forall i | 0 <= i < |app| ensures e.rows[i].eventId == app[i].eventId {
          SameReading(c, redactions, room, before, app, i);
          assert ErasedSoFar(e, before, Readings(c, before), Readings(c, e.rows), i);
        }
        MarkedIsOneRow(e.rows, app, n, c.dumps(MarkerJson(ids(n))));
        MarkingIsSound(c, e, before, redactions, n, ids(n));
      }
    }
  }

  /** A row erased since it was listed has a record, on which a second erasure fails. */
  lemma ListedIsUnchanged(c: Codec, room: string, before: seq<Row>, app: seq<Row>, redactions: map<string, Redaction>,
                          e: Erasure, n: nat)
    requires HonestRows(c, redactions, room, before, app) && n < |app|
    requires forall id <- redactions :: id in e.redactions && e.redactions[id] == redactions[id]
    requires forall id <- e.redactions :: e.redactions[id].eventId != app[n].eventId
    ensures before[n] == app[n]
  {
    assert KeptOrErased(redactions, before, app, Readings(c, before), Readings(c, app), n);
  }

  // ---- Every run

  lemma ListedIsSound(c: Codec, db: Db, room: string, app: seq<Row>, listed: seq<Row>, victim: string, ids: nat -> string)
    requires Faithful(c) && (forall n :: ids(n) != "") && HonestRows(c, db.redactions, room, db.Rows(room), app)
    requires WasListed(c, listed, app) && DistinctRows(app) && EraseListed(c, db, room, listed, victim, ids).Ok?
    ensures SoundErasure(c, EraseListed(c, db, room, listed, victim, ids).value, db.Rows(room), db.redactions, |db.Rows(room)|)
  {
    var rows := db.Rows(room);
    hide HonestRows, EraseUpTo, SoundErasure;
    HonestIsAsLong(c, db.redactions, room, rows, app);
    EraseIsSound(c, room, rows, app, db.redactions, listed, victim, ids, |listed|);
    SoundToTheEnd(c, EraseListed(c, db, room, listed, victim, ids).value, rows, db.redactions, |listed|);
  }

  lemma HonestIsAsLong(c: Codec, redactions: map<string, Redaction>, room: string, rows: seq<Row>, app: seq<Row>)
    requires HonestRows(c, redactions, room, rows, app)
    ensures |rows| == |app|
  {
  }

  lemma ErasedIsHonest(c: Codec, h: History, room: string, listed: seq<Row>, victim: string, ids: nat -> string, ev: Event)
    requires Faithful(c) && Sound(c, h) && (forall n :: ids(n) != "") && Ordinary(c, h.Appended(room))
    requires WasListed(c, listed, h.Appended(room)) && EraseListed(c, h.db, room, listed, victim, ids).Ok?
    requires ev.eventType == EVENT_REDACTED
    requires JObject(ev.payload) == AnnouncementJson(EraseListed(c, h.db, room, listed, victim, ids).value.notes)
    ensures var e := EraseListed(c, h.db, room, listed, victim, ids).value;
            var row := ChainedRow(c, room, ev, |h.Appended(room)| + 1, HashBefore(h.Appended(room), |h.Appended(room)|));
            HonestRows(c, e.redactions, room, e.rows + [row], h.Appended(room) + [row])
  {
    var rows, app := h.db.Rows(room), h.Appended(room);
    var e := EraseListed(c, h.db, room, listed, victim, ids).value;
    assert HonestRoom(c, h, room) && DistinctRows(app);
    ListedIsSound(c, h.db, room, app, listed, victim, ids);
    hide HonestRows, ChainedRow, AnnouncementJson, Sound, EraseListed, SoundErasure, WasListed, Ordinary, DistinctRows;
    AnnouncingRestores(c, room, rows, app, h.db.redactions, e, ev);
  }

  lemma EraseAdvances(c: Codec, h: History, step: Step, listed: seq<Row>)
    requires Faithful(c) && Sound(c, h) && step.Erase? && Admissible(step)
    requires WasListed(c, listed, h.Appended(step.room)) && Apply(c, h, step, listed).Ok?
    ensures Advances(c, h, Apply(c, h, step, listed).value)
  {
    var room, rows, app := step.room, h.db.Rows(step.room), h.Appended(step.room);
    var e := EraseListed(c, h.db, room, listed, step.victim, step.ids).value;
    ErasingMarks(c, h, room, listed, step.victim, step.ids, |listed|);
    if e.notes != [] {
      var db, ev := Redacted(h.db, room, e), AnnouncementEvent(step.signer, e.notes);
      var row := NextRow(c, db, room, ev).value;
      var next := History(db, h.appended).With(room, row);
      NextRowGrows(c, h, db, room, ev);
      assert next.db.redactions == e.redactions;
      assert Apply(c, h, step, listed) == Ok(next);
      hide NextRow, HonestRows, ChainedRow, KeptRows, EraseListed, Apply, AnnouncementJson;
      GrowingKeeps(c, h, next, room, e.rows, row);
      if Ordinary(c, app + [row]) {
        assert forall i | 0 <= i < |app| :: (app + [row])[i] == app[i];
        ErasedIsHonest(c, h, room, listed, step.victim, step.ids, ev);
      }
      hide Ordinary;
      GrowingAdvances(c, h, next, room, e.rows, row);
    }
  }

  lemma SoundToTheEnd(c: Codec, e: Erasure, before: seq<Row>, redactions: map<string, Redaction>, k: nat)
    requires k <= |before| && SoundErasure(c, e, before, redactions, k)
    ensures SoundErasure(c, e, before, redactions, |before|)
  {
  }

  lemma KeptIsListed(c: Codec, h: History, now: seq<Row>, room: string)
    requires Kept(c, h) && h.Appended(room) <= now
    ensures WasListed(c, h.db.Rows(room), now)
  {
    var rows, app := h.db.Rows(room), h.Appended(room);
    assert KeptRoom(c, h, room);
    forall i | 0 <= i < |rows| ensures rows[i].eventId == now[i].eventId
                               ensures RedactionMarker(c, rows[i].payload).None? ==> rows[i] == now[i]
    {
      assert KeptRow(c, rows[i], app[i], i);
    }
  }

  lemma StepAdvances(c: Codec, h: History, step: Step, listed: seq<Row>)
    requires Faithful(c) && Sound(c, h) && Admissible(step) && Apply(c, h, step, listed).Ok?
    requires step.Erase? ==> WasListed(c, listed, h.Appended(step.room))
    ensures Advances(c, h, Apply(c, h, step, listed).value)
  {
    match step
    case Append(room, ev) => AppendAdvances(c, h, room, ev);
    case Erase(_, _, _, _, _) => EraseAdvances(c, h, step, listed);
  }

  lemma EarlierIsListed(c: Codec, steps: seq<Step>)
    requires steps != [] && steps[|steps| - 1].Erase? && steps[|steps| - 1].listedAt < |steps|
    requires var shorter, step := steps[..|steps| - 1], steps[|steps| - 1];
             && Kept(c, Run(c, steps[..step.listedAt]))
             && Run(c, shorter[..step.listedAt]).Appended(step.room) <= Run(c, shorter).Appended(step.room)
    ensures WasListed(c, Listed(c, steps), Run(c, steps[..|steps| - 1]).Appended(steps[|steps| - 1].room))
  {
    var shorter, step := steps[..|steps| - 1], steps[|steps| - 1];
    assert shorter[..step.listedAt] == steps[..step.listedAt];
    KeptIsListed(c, Run(c, steps[..step.listedAt]), Run(c, shorter).Appended(step.room), step.room);
  }

  lemma LastStepAdvances(c: Codec, steps: seq<Step>)
    requires Faithful(c) && steps != [] && Admissible(steps[|steps| - 1]) && Sound(c, Run(c, steps[..|steps| - 1]))
    requires var shorter, step := steps[..|steps| - 1], steps[|steps| - 1];
             step.Erase? && step.listedAt < |steps| ==>
               && Sound(c, Run(c, steps[..step.listedAt]))
               && Extends(Run(c, shorter[..step.listedAt]), Run(c, shorter))
    ensures Sound(c, Run(c, steps)) && Extends(Run(c, steps[..|steps| - 1]), Run(c, steps))
  {
    var h, step, listed := Run(c, steps[..|steps| - 1]), steps[|steps| - 1], Listed(c, steps);
    hide Kept, HonestRoom, Ordinary;
    if step.Erase? && step.listedAt < |steps| {
      EarlierIsListed(c, steps);
    }
    ExtendsSelf(h);
    hide Apply, WasListed, Listed, Extends;
    if Apply(c, h, step, listed).Ok? {
      StepAdvances(c, h, step, listed);
    }
  }

  /** The invariant holds after every run, and a row once written stays the row first written there. */
  lemma {:induction false} EveryRunIsSound(c: Codec, steps: seq<Step>, k: nat)
    requires Faithful(c) && (forall s <- steps :: Admissible(s)) && k <= |steps|
    ensures Sound(c, Run(c, steps)) && Extends(Run(c, steps[..k]), Run(c, steps))
    decreases |steps|
  {
    if steps == [] {
      EmptyIsSound(c);
    } else {
      var shorter, step := steps[..|steps| - 1], steps[|steps| - 1];
      hide Run, Sound, Extends, Admissible, Faithful;
      EveryRunIsSound(c, shorter, if k < |steps| then k else 0);
      if step.Erase? && step.listedAt < |steps| {
        EveryRunIsSound(c, steps[..step.listedAt], 0);
        EveryRunIsSound(c, shorter, step.listedAt);
      }
      LastStepAdvances(c, steps);
      if k < |steps| {
        assert shorter[..k] == steps[..k];
        ExtendsOn(Run(c, steps[..k]), Run(c, shorter), Run(c, steps));
      } else {
        assert steps[..k] == steps;
        ExtendsSelf(Run(c, steps));
      }
    }
  }

  lemma ExtendsSelf(h: History)
    ensures Extends(h, h)
  {
  }

  lemma EmptyIsSound(c: Codec)
    ensures Sound(c, EMPTY)
  {
    assert forall room :: EMPTY.Appended(room) == [] && EMPTY.db.Rows(room) == [];
  }

  // ---- What one append and one erasure leave

  ghost predicate OthersAsBefore(h: History, next: History, room: string) {
    forall r | r != room ::
      && next.db.Rows(r) == h.db.Rows(r) && next.Appended(r) == h.Appended(r)
      && (r in next.db.counters <==> r in h.db.counters)
      && (r in h.db.counters ==> next.db.counters[r] == h.db.counters[r])
  }

  /** The event's own fields, in its place, behind its predecessor's hash and under the hash of all of them. */
  ghost predicate Stores(c: Codec, row: Row, room: string, ev: Event, rows: seq<Row>) {
    var prev := if rows == [] then "" else Str(rows[|rows| - 1].eventHash);
    && row.eventId == ev.eventId && row.eventType == ev.eventType && row.actorId == ev.actorId
    && row.actorType == ev.actorType && row.timestamp == ev.timestamp && row.schemaVersion == ev.schemaVersion
    && c.parse(row.payload) == Some(JObject(ev.payload))
    && row.sequence == |rows| + 1 && row.prevHash == Some(prev)
    && row.eventHash == Some(c.sha(ChainMaterial(prev, row.eventId, room, row.sequence, row.eventType, row.payload, row.actorId,
                                                 row.actorType, row.timestamp, row.schemaVersion)))
  }

  lemma ChainedRowStores(c: Codec, room: string, ev: Event, rows: seq<Row>, app: seq<Row>)
    requires Faithful(c) && KeptRows(c, rows, app)
    ensures Stores(c, ChainedRow(c, room, ev, |app| + 1, HashBefore(app, |app|)), room, ev, rows)
  {
    var row := ChainedRow(c, room, ev, |app| + 1, HashBefore(app, |app|));
    assert c.parse(c.dumps(JObject(ev.payload))) == Some(JObject(ev.payload));
    if rows != [] {
      assert KeptRow(c, rows[|rows| - 1], app[|app| - 1], |app| - 1);
    }
    assert HashBefore(app, |app|) == if rows == [] then "" else Str(rows[|rows| - 1].eventHash);
  }

  /** In a kept log only a taken event id refuses the next row. */
  lemma NextRowIff(c: Codec, h: History, db: Db, room: string, ev: Event)
    requires Faithful(c) && Kept(c, h) && KeptRows(c, db.Rows(room), h.Appended(room)) && db.counters == h.db.counters
    ensures NextRow(c, db, room, ev).Ok? <==> !EventIdTaken(db, ev.eventId)
  {
    var rows, app := db.Rows(room), h.Appended(room);
    assert KeptRoom(c, h, room);
    forall i | 0 <= i < |rows| ensures rows[i].sequence == i + 1 && rows[i].eventHash.Some? {
      assert KeptRow(c, rows[i], app[i], i);
    }
    hide Kept, KeptRows, EventIdTaken;
    assert NextSequence(db, room) == |rows| + 1;
    assert rows != [] ==> HashAt(rows, |rows|) == rows[|rows| - 1].eventHash;
  }

  lemma GrownAsBefore(c: Codec, h: History, next: History, room: string, marked: seq<Row>, row: Row)
    requires Grows(c, h, next, room, marked, row)
    ensures OthersAsBefore(h, next, room) && next.db.Rows(room) == marked + [row]
    ensures room in next.db.counters && next.db.counters[room] == |marked| + 1
  {
    hide KeptRows;
  }

  lemma AppendStands(c: Codec, h: History, room: string, ev: Event)
    requires Faithful(c) && Kept(c, h) && NextRow(c, h.db, room, ev).Ok?
    ensures var row, rows := NextRow(c, h.db, room, ev).value, h.db.Rows(room);
            var next := h.With(room, row);
            && next.db.Rows(room) == rows + [row] && Stores(c, row, room, ev, rows)
            && room in next.db.counters && next.db.counters[room] == |rows| + 1
            && next.db.redactions == h.db.redactions && OthersAsBefore(h, next, room)
  {
    var row, rows := NextRow(c, h.db, room, ev).value, h.db.Rows(room);
    assert KeptRows(c, rows, h.Appended(room)) by {
      assert KeptRoom(c, h, room);
    }
    assert h.With(room, row).db.redactions == h.db.redactions;
    hide NextRow, Stores, KeptRows, Kept, WithRow, ChainedRow, OthersAsBefore, NewId, Grows;
    NextRowGrows(c, h, h.db, room, ev);
    GrownAsBefore(c, h, h.With(room, row), room, rows, row);
    ChainedRowStores(c, room, ev, rows, h.Appended(room));
  }

  /** An append succeeds unless its event id is taken, and then adds one row with the event's own fields, and nothing else. */
  lemma AppendIsExact(c: Codec, h: History, room: string, ev: Event, listed: seq<Row>)
    requires Faithful(c) && Kept(c, h)
    ensures var r := Apply(c, h, Append(room, ev), listed);
            && (r.Ok? <==> !EventIdTaken(h.db, ev.eventId))
            && (r.Ok? ==>
                  var rows, rows' := h.db.Rows(room), r.value.db.Rows(room);
                  && |rows'| == |rows| + 1 && rows'[..|rows|] == rows && Stores(c, rows'[|rows|], room, ev, rows)
                  && room in r.value.db.counters && r.value.db.counters[room] == |rows'|
                  && r.value.db.redactions == h.db.redactions && OthersAsBefore(h, r.value, room))
  {
    assert KeptRows(c, h.db.Rows(room), h.Appended(room)) by {
      assert KeptRoom(c, h, room);
    }
    hide NextRow, Stores, KeptRows, Kept, WithRow, EventIdTaken, OthersAsBefore, Faithful;
    NextRowIff(c, h, h.db, room, ev);
    if NextRow(c, h.db, room, ev).Ok? {
      AppendStands(c, h, room, ev);
    }
  }

  /** Row i after an erasure: a recorded marker where a chosen row was listed, else as it was. */
  ghost predicate MarkedIfChosen(c: Codec, row: Row, was: Row, records: map<string, Redaction>, listed: seq<Row>,
                                 victim: string, ids: nat -> string, i: nat)
  {
    if i < |listed| && Chosen(c, listed[i], victim) then
      && row == was.(payload := row.payload) && RedactionMarker(c, row.payload) == Some(ids(i)) && ids(i) in records
      && records[ids(i)] == Redaction(listed[i].eventId, Str(listed[i].eventHash), HeaderDigest(c, listed[i]))
    else row == was
  }

  /** The announcement: signed, and with a note of each chosen row. */
  ghost predicate Announces(c: Codec, row: Row, listed: seq<Row>, victim: string, ids: nat -> string, signer: Signature) {
    && row.eventType == "event.redacted" && row.eventId == signer.eventId && row.actorId == signer.actorId
    && row.actorType == signer.actorType && row.timestamp == signer.timestamp && row.schemaVersion == signer.schemaVersion
    && IsObject(c, row.payload) && c.parse(row.payload).value.fields.Keys == {"redactions", "count"}
    && NotesFor(c, Announced(c, row.eventType, row.payload), listed, ChosenPlaces(c, listed, victim, |listed|), ids)
  }

  /** What an erasure that chose some rows leaves: those marked and recorded, and one announcement of them. */
  ghost predicate Erased(c: Codec, h: History, next: History, room: string, listed: seq<Row>, victim: string,
                         ids: nat -> string, signer: Signature)
  {
    var rows, rows', records := h.db.Rows(room), next.db.Rows(room), next.db.redactions;
    && |rows'| == |rows| + 1
    && (forall i :: 0 <= i < |rows| ==> MarkedIfChosen(c, rows'[i], rows[i], records, listed, victim, ids, i))
    && Announces(c, rows'[|rows|], listed, victim, ids, signer)
    && RecordsAdded(h.db.redactions, records, ChosenPlaces(c, listed, victim, |listed|), ids)
    && OthersAsBefore(h, next, room)
  }

  lemma ListedHasSameIds(c: Codec, h: History, room: string, listed: seq<Row>)
    requires Kept(c, h) && WasListed(c, listed, h.Appended(room))
    ensures SameIds(listed, h.db.Rows(room))
  {
    var rows, app := h.db.Rows(room), h.Appended(room);
    assert KeptRoom(c, h, room);
    KeptIdsAreUnique(c, h, room);
    forall i | 0 <= i < |rows| ensures rows[i].eventId == app[i].eventId {
      assert KeptRow(c, rows[i], app[i], i);
    }
  }

  /**
   An erasure goes through exactly when each of the victim's listed rows can be read, each chosen one is without a
   record, and the announcement's id is free. It then leaves everything as it was if it chose none, and else marks the
   chosen rows and no others.
   */
  lemma EraseIsExact(c: Codec, h: History, room: string, victim: string, ids: nat -> string, signer: Signature,
                     at: nat, listed: seq<Row>)
    requires Faithful(c) && Kept(c, h) && (forall n :: ids(n) != "") && WasListed(c, listed, h.Appended(room))
    ensures var r := Apply(c, h, Erase(room, victim, ids, signer, at), listed);
            var none := ChosenPlaces(c, listed, victim, |listed|) == {};
            && (r.Ok? <==> MayErase(c, h.db.redactions, listed, victim, ids, |listed|)
                           && (none || !EventIdTaken(h.db, signer.eventId)))
            && (r.Ok? ==> if none then r.value == h else Erased(c, h, r.value, room, listed, victim, ids, signer))
  {
    var rows := h.db.Rows(room);
    ListedHasSameIds(c, h, room, listed);
    ErasesExactly(c, rows, h.db.redactions, listed, victim, ids, |listed|);
    assert EraseListed(c, h.db, room, listed, victim, ids)
           == EraseUpTo(c, Erasure(rows, h.db.redactions, []), listed, victim, ids, |listed|);
    if EraseListed(c, h.db, room, listed, victim, ids).Ok? {
      var e := EraseListed(c, h.db, room, listed, victim, ids).value;
      ErasingMarks(c, h, room, listed, victim, ids, |listed|);
      hide EraseUpTo, EraseListed, MayErase, WasListed, SameIds, ErasedThrough, ChosenPlaces;
      AnnouncingLeaves(c, h, room, e, listed, victim, ids, signer);
    }
  }

  lemma NotesIffChosen(c: Codec, notes: seq<Announcement>, listed: seq<Row>, places: set<nat>, ids: nat -> string)
    requires NotesFor(c, notes, listed, places, ids)
    ensures notes == [] <==> places == {}
    ensures (forall n :: ids(n) != "") ==> forall note <- notes :: note.redactionId != ""
  {
  }

  lemma SameIdsTaken(c: Codec, db: Db, room: string, e: Erasure, eventId: string)
    requires |e.rows| == |db.Rows(room)| && forall i | 0 <= i < |e.rows| :: e.rows[i].eventId == db.Rows(room)[i].eventId
    ensures EventIdTaken(Redacted(db, room, e), eventId) <==> EventIdTaken(db, eventId)
  {
    var db' := Redacted(db, room, e);
    if r: string :| r in db.events && exists row <- db.events[r] :: row.eventId == eventId {
      var i :| 0 <= i < |db.events[r]| && db.events[r][i].eventId == eventId;
      assert r in db'.events && db'.events[r][i].eventId == eventId;
    }
    if r: string :| r in db'.events && exists row <- db'.events[r] :: row.eventId == eventId {
      var i :| 0 <= i < |db'.events[r]| && db'.events[r][i].eventId == eventId;
      assert r in db.events && db.events[r][i].eventId == eventId;
    }
  }

  lemma KeptSameIds(c: Codec, a: seq<Row>, b: seq<Row>, app: seq<Row>)
    requires KeptRows(c, a, app) && KeptRows(c, b, app)
    ensures |a| == |b| && forall i | 0 <= i < |a| :: a[i].eventId == b[i].eventId
  {
    forall i | 0 <= i < |a| ensures a[i].eventId == b[i].eventId {
      assert KeptRow(c, a[i], app[i], i) && KeptRow(c, b[i], app[i], i);
    }
  }

  lemma MarkedRows(c: Codec, e: Erasure, rows: seq<Row>, redactions: map<string, Redaction>, listed: seq<Row>,
                   victim: string, ids: nat -> string)
    requires ErasedThrough(c, e, rows, redactions, listed, victim, ids, |listed|)
    ensures |e.rows| == |rows|
    ensures forall i | 0 <= i < |rows| :: MarkedIfChosen(c, e.rows[i], rows[i], e.redactions, listed, victim, ids, i)
    ensures RecordsAdded(redactions, e.redactions, ChosenPlaces(c, listed, victim, |listed|), ids)
    ensures NotesFor(c, e.notes, listed, ChosenPlaces(c, listed, victim, |listed|), ids)
  {
    hide Chosen, RedactionMarker, NotesFor, RecordsAdded, ChosenPlaces;
    var n := |listed|;
    forall i | 0 <= i < |rows| ensures MarkedIfChosen(c, e.rows[i], rows[i], e.redactions, listed, victim, ids, i) {
      assert ErasedRow(c, e, rows, listed, victim, ids, n, i);
    }
  }

  /** The announcement's row reads back as the notes. */
  lemma RowAnnounces(c: Codec, room: string, e: Erasure, listed: seq<Row>, victim: string, ids: nat -> string,
                     signer: Signature, sequence: int, prevHash: string)
    requires Faithful(c) && (forall note <- e.notes :: note.redactionId != "")
    requires NotesFor(c, e.notes, listed, ChosenPlaces(c, listed, victim, |listed|), ids)
    ensures Announces(c, ChainedRow(c, room, AnnouncementEvent(signer, e.notes), sequence, prevHash), listed, victim, ids, signer)
  {
    AnnouncementRoundTrip(c, e.notes);
    assert JObject(AnnouncementJson(e.notes).fields) == AnnouncementJson(e.notes);
    assert c.parse(c.dumps(AnnouncementJson(e.notes))) == Some(AnnouncementJson(e.notes));
    hide NotesFor, ChosenPlaces, Announced, Faithful, ChainHash;
  }

  lemma AnnouncedIsErased(c: Codec, h: History, next: History, room: string, e: Erasure, row: Row, listed: seq<Row>,
                          victim: string, ids: nat -> string, signer: Signature)
    requires ErasedThrough(c, e, h.db.Rows(room), h.db.redactions, listed, victim, ids, |listed|)
    requires next.db.Rows(room) == e.rows + [row] && next.db.redactions == e.redactions && OthersAsBefore(h, next, room)
    requires Announces(c, row, listed, victim, ids, signer)
    ensures Erased(c, h, next, room, listed, victim, ids, signer)
  {
    hide ErasedThrough, MarkedIfChosen, RecordsAdded, ChosenPlaces, Announces, OthersAsBefore;
    MarkedRows(c, e, h.db.Rows(room), h.db.redactions, listed, victim, ids);
  }

  lemma AnnouncementStands(c: Codec, h: History, room: string, e: Erasure, listed: seq<Row>, victim: string,
                           ids: nat -> string, signer: Signature)
    requires Faithful(c) && Kept(c, h) && KeptRows(c, e.rows, h.Appended(room))
    requires ErasedThrough(c, e, h.db.Rows(room), h.db.redactions, listed, victim, ids, |listed|)
    requires NotesFor(c, e.notes, listed, ChosenPlaces(c, listed, victim, |listed|), ids)
    requires forall note <- e.notes :: note.redactionId != ""
    requires NextRow(c, Redacted(h.db, room, e), room, AnnouncementEvent(signer, e.notes)).Ok?
    ensures var row := NextRow(c, Redacted(h.db, room, e), room, AnnouncementEvent(signer, e.notes)).value;
            Erased(c, h, History(Redacted(h.db, room, e), h.appended).With(room, row), room, listed, victim, ids, signer)
  {
    var db, ev, app := Redacted(h.db, room, e), AnnouncementEvent(signer, e.notes), h.Appended(room);
    var row := NextRow(c, db, room, ev).value;
    var next := History(db, h.appended).With(room, row);
    assert db.Rows(room) == e.rows && db.counters == h.db.counters && forall r | r != room :: db.Rows(r) == h.db.Rows(r);
    assert next.db.redactions == e.redactions;
    hide Kept, KeptRows, ErasedThrough, NotesFor, RecordsAdded, ChosenPlaces, MarkedIfChosen, Faithful;
    hide NextRow, Announces, ChainedRow, Grows, OthersAsBefore, NewId, AnnouncementEvent, Redacted, WithRow;
    NextRowGrows(c, h, db, room, ev);
    GrownAsBefore(c, h, next, room, e.rows, row);
    RowAnnounces(c, room, e, listed, victim, ids, signer, |app| + 1, HashBefore(app, |app|));
    AnnouncedIsErased(c, h, next, room, e, row, listed, victim, ids, signer);
  }

  /** From the erasure of the rows to the tables it leaves. */
  lemma AnnouncingLeaves(c: Codec, h: History, room: string, e: Erasure, listed: seq<Row>, victim: string,
                         ids: nat -> string, signer: Signature)
    requires Faithful(c) && Kept(c, h) && KeptRows(c, e.rows, h.Appended(room)) && forall n :: ids(n) != ""
    requires ErasedThrough(c, e, h.db.Rows(room), h.db.redactions, listed, victim, ids, |listed|)
    ensures e.notes == [] <==> ChosenPlaces(c, listed, victim, |listed|) == {}
    ensures var row := NextRow(c, Redacted(h.db, room, e), room, AnnouncementEvent(signer, e.notes));
            && (row.Ok? <==> !EventIdTaken(h.db, signer.eventId))
            && (row.Ok? ==> Erased(c, h, History(Redacted(h.db, room, e), h.appended).With(room, row.value), room, listed,
                                   victim, ids, signer))
  {
    var db := Redacted(h.db, room, e);
    assert db.Rows(room) == e.rows && db.counters == h.db.counters;
    assert KeptRows(c, h.db.Rows(room), h.Appended(room)) by {
      assert KeptRoom(c, h, room);
    }
    hide Kept, KeptRows, NotesFor, RecordsAdded, RowsErased, ChosenPlaces, EventIdTaken, Faithful, NextRow, Redacted, Erased;
    NotesIffChosen(c, e.notes, listed, ChosenPlaces(c, listed, victim, |listed|), ids);
    hide ErasedThrough;
    KeptSameIds(c, e.rows, h.db.Rows(room), h.Appended(room));
    SameIdsTaken(c, h.db, room, e, signer.eventId);
    NextRowIff(c, h, db, room, AnnouncementEvent(signer, e.notes));
    if NextRow(c, db, room, AnnouncementEvent(signer, e.notes)).Ok? {
      AnnouncementStands(c, h, room, e, listed, victim, ids, signer);
    }
  }

  lemma AnnouncementIsNotChosen(c: Codec, row: Row, listed: seq<Row>, victim: string, ids: nat -> string, signer: Signature)
    requires Announces(c, row, listed, victim, ids, signer)
    ensures !Chosen(c, row, victim)
  {
    var keys := {"redactions", "count"};
    assert "content" !in keys && "body" !in keys && "title" !in keys && "filename" !in keys && "instruction" !in keys;
    hide NotesFor, ChosenPlaces, Announced;
  }

  lemma NoneLeftBy(c: Codec, h: History, next: History, room: string, victim: string, ids: nat -> string, signer: Signature)
    requires Erased(c, h, next, room, h.db.Rows(room), victim, ids, signer)
    ensures forall i | 0 <= i < |next.db.Rows(room)| :: !Chosen(c, next.db.Rows(room)[i], victim)
  {
    var rows, rows' := h.db.Rows(room), next.db.Rows(room);
    forall i | 0 <= i < |rows'| ensures !Chosen(c, rows'[i], victim) {
      if i < |rows| {
        assert MarkedIfChosen(c, rows'[i], rows[i], next.db.redactions, rows, victim, ids, i);
      } else {
        AnnouncementIsNotChosen(c, rows'[i], rows, victim, ids, signer);
      }
    }
  }

  lemma NothingChosen(c: Codec, rows: seq<Row>, victim: string)
    requires ChosenPlaces(c, rows, victim, |rows|) == {}
    ensures forall row <- rows :: !Chosen(c, row, victim)
  {
    hide Chosen;
    forall i | 0 <= i < |rows| ensures !Chosen(c, rows[i], victim) {
      assert i !in ChosenPlaces(c, rows, victim, |rows|);
    }
  }

  lemma EraseLeavesNothing(c: Codec, h: History, room: string, victim: string, ids: nat -> string, signer: Signature, at: nat)
    requires Faithful(c) && Kept(c, h) && (forall n :: ids(n) != "")
    requires Apply(c, h, Erase(room, victim, ids, signer, at), h.db.Rows(room)).Ok?
    ensures var next := Apply(c, h, Erase(room, victim, ids, signer, at), h.db.Rows(room)).value;
            forall row <- next.db.Rows(room) :: !Chosen(c, row, victim)
  {
    var rows := h.db.Rows(room);
    KeptIsListed(c, h, h.Appended(room), room);
    EraseIsExact(c, h, room, victim, ids, signer, at, rows);
    hide Chosen, Erased, Apply, MayErase, EventIdTaken, ChosenPlaces, Kept, WasListed;
    if ChosenPlaces(c, rows, victim, |rows|) == {} {
      NothingChosen(c, rows, victim);
    } else {
      NoneLeftBy(c, h, Apply(c, h, Erase(room, victim, ids, signer, at), rows).value, room, victim, ids, signer);
    }
  }

  /** In any run, an erasure that goes through over the rows as they stand leaves nothing of the victim's to erase. */
  lemma ErasureLeavesNothing(c: Codec, steps: seq<Step>)
    requires Faithful(c) && (forall s <- steps :: Admissible(s))
    requires steps != [] && steps[|steps| - 1].Erase? && steps[|steps| - 1].listedAt == |steps| - 1
    requires var h, step := Run(c, steps[..|steps| - 1]), steps[|steps| - 1];
             Apply(c, h, step, h.db.Rows(step.room)).Ok?
    ensures var step := steps[|steps| - 1];
            forall row <- Run(c, steps).db.Rows(step.room) :: !Chosen(c, row, step.victim)
  {
    var h, step := Run(c, steps[..|steps| - 1]), steps[|steps| - 1];
    assert Listed(c, steps) == h.db.Rows(step.room);
    assert Run(c, steps) == Apply(c, h, step, h.db.Rows(step.room)).value;
    assert Admissible(step);
    hide Chosen, Apply, Run, Listed, Kept, HonestRoom;
    EveryRunIsSound(c, steps[..|steps| - 1], 0);
    EraseLeavesNothing(c, h, step.room, step.victim, step.ids, step.signer, step.listedAt);
  }
}
