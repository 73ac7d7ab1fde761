/**
 What the log promises: a run of appends and erasures verifies exactly where no caller stored a marker, and a
 table the verifier accepts in place of an honest one is that log, up to erasures undone and marker event ids.
 */
module ChainTheorems {
  import opened Prelude
  import opened EventChain
  import opened ChainVerifier
  import opened EventLog
  import opened ChainRuns

  // ---- Honest rooms verify

  /** Two markers of one room never carry the same redaction id. */
  lemma MarkersDiffer(redactions: map<string, Redaction>, rs: seq<Reading>, i: nat, j: nat)
    requires i < |rs| && j < |rs| && rs[i].marker.Some? && rs[i].marker == rs[j].marker
    requires BackedBy(redactions, rs[i]) && BackedBy(redactions, rs[j])
    requires forall a, b | 0 <= a < b < |rs| :: rs[a].eventId != rs[b].eventId
    ensures i == j
  {
  }

  lemma HashesStay(c: Codec, redactions: map<string, Redaction>, room: string, rows: seq<Row>, app: seq<Row>, i: nat)
    requires i <= |rows| && HonestRows(c, redactions, room, rows, app)
    ensures HashBefore(rows, i) == HashBefore(app, i)
  {
    if i > 0 {
      SameReading(c, redactions, room, rows, app, i - 1);
    }
  }

  lemma HonestIsLinked(c: Codec, redactions: map<string, Redaction>, room: string, rows: seq<Row>, app: seq<Row>, i: nat)
    requires i < |rows| && HonestRows(c, redactions, room, rows, app)
    ensures Linked(c, redactions, room, rows, i)
  {
    var rs, os := Readings(c, rows), Readings(c, app);
    HashesStay(c, redactions, room, rows, app, i);
    assert WellAppended(c, room, app, i);
    assert KeptOrErased(redactions, rows, app, rs, os, i);
    assert rs[i] == Read(c, rows[i]);
  }

  lemma HonestIsAnswered(redactions: map<string, Redaction>, rs: seq<Reading>, os: seq<Reading>, i: nat)
    requires OnlyMarkersDiffer(rs, os) && i < |rs| && rs[i].marker.Some?
    requires forall a, b | 0 <= a < b < |rs| :: rs[a].eventId != rs[b].eventId
    requires forall k | 0 <= k < |rs| && rs[k].marker.Some? :: BackedBy(redactions, rs[k])
    requires forall j | 0 <= j < |rs| :: TrueEntries(rs, os, j)
    requires NamedAfter(os, i, rs[i].marker.value)
    ensures Answered(rs, i)
  {
    var id := rs[i].marker.value;
    var m :| i < m < |os| && FirstNaming(os[m].named, id).Some?;
    assert FirstNaming(rs[m].named, id).Some?;
    var j := FirstNamingAfter(rs, i, id);
    NamingIsNamed(rs[j].named);
    var a := FirstNaming(rs[j].named, id).value;
    assert TrueEntries(rs, os, j);
    assert a in os[j].named && TrueEntry(rs, os, j, a);
    var k :| 0 <= k < j && rs[k].marker == Some(id) && IsTrueOf(a, os[k]);
    MarkersDiffer(redactions, rs, i, k);
    assert AnsweredAt(rs, i, id, j);
  }

  lemma HonestIsAccepted(c: Codec, h: History, room: string)
    requires HonestRoom(c, h, room) && UniqueEventIds(h.db.Rows(room)) && CounterIs(h.db, room, |h.db.Rows(room)|)
    ensures Accepts(c, h.db, room)
  {
    var rows, app := h.db.Rows(room), h.Appended(room);
    var rs, os := Readings(c, rows), Readings(c, app);
    forall i | 0 <= i < |rows|
      ensures Linked(c, h.db.redactions, room, rows, i)
      ensures os[i] == rs[i].(marker := os[i].marker)
      ensures rs[i].marker.Some? ==> BackedBy(h.db.redactions, rs[i]) && NamedAfter(os, i, rs[i].marker.value)
    {
      HonestIsLinked(c, h.db.redactions, room, rows, app, i);
      SameReading(c, h.db.redactions, room, rows, app, i);
      assert KeptOrErased(h.db.redactions, rows, app, rs, os, i);
    }
    forall i | 0 <= i < |rows| && rs[i].marker.Some? ensures Answered(rs, i) {
      HonestIsAnswered(h.db.redactions, rs, os, i);
    }
    AcceptsIffWellFormed(c, h.db, room);
  }

  lemma SoundRoomIsHonest(c: Codec, h: History, room: string)
    requires Sound(c, h) && Ordinary(c, h.Appended(room))
    ensures HonestRoom(c, h, room) && UniqueEventIds(h.db.Rows(room)) && CounterIs(h.db, room, |h.db.Rows(room)|)
  {
    assert KeptRoom(c, h, room);
    KeptIdsAreUnique(c, h, room);
  }

  /**
   After every run, whatever payloads were stored: sequences are 1..n and the counter is n. Where no caller stored
   a payload of the marker's shape, the verifier counts n rows and reports nothing.
   */
  lemma EveryRunVerifies(c: Codec, steps: seq<Step>, room: string)
    requires Faithful(c) && forall s <- steps :: Admissible(s)
    ensures var h := Run(c, steps);
            var rows := h.db.Rows(room);
            && (forall i | 0 <= i < |rows| :: rows[i].sequence == i + 1)
            && CounterIs(h.db, room, |rows|)
            && (Ordinary(c, h.Appended(room)) ==>
                  forall verified, found | RoomReport(c, h.db, room, verified, found) ::
                    verified == |rows| && found == None)
  {
    var h := Run(c, steps);
    var rows, app := h.db.Rows(room), h.Appended(room);
    EveryRunIsSound(c, steps, 0);
    assert KeptRoom(c, h, room);
    forall i | 0 <= i < |rows| ensures rows[i].sequence == i + 1 {
      assert KeptRow(c, rows[i], app[i], i);
    }
    KeptIdsAreUnique(c, h, room);
    if Ordinary(c, app) {
      SoundRoomIsHonest(c, h, room);
      HonestIsAccepted(c, h, room);
      AcceptsIffWellFormed(c, h.db, room);
    }
  }

  /** A payload stored in the marker's shape is never backed: no erasure marked its row, so no record is about it. */
  lemma StoredMarkerIsReported(c: Codec, h: History, room: string, i: nat)
    requires Kept(c, h) && i < |h.Appended(room)| && RedactionMarker(c, h.Appended(room)[i].payload).Some?
    ensures !Accepts(c, h.db, room)
  {
    var rows, app := h.db.Rows(room), h.Appended(room);
    assert KeptRoom(c, h, room) && KeptRow(c, rows[i], app[i], i);
    KeptIdsAreUnique(c, h, room);
    AcceptsIffWellFormed(c, h.db, room);
    forall id <- h.db.redactions ensures h.db.redactions[id].eventId != app[i].eventId {
      assert OfOrdinaryRow(c, h, h.db.redactions[id].eventId);
    }
    assert !Linked(c, h.db.redactions, room, rows, i);
  }

  /** A room verifies exactly when no caller stored a payload of the marker's shape in it, whatever was erased. */
  lemma EveryRunVerifiesIff(c: Codec, steps: seq<Step>, room: string)
    requires Faithful(c) && forall s <- steps :: Admissible(s)
    ensures Accepts(c, Run(c, steps).db, room) <==> Ordinary(c, Run(c, steps).Appended(room))
  {
    var h := Run(c, steps);
    EveryRunIsSound(c, steps, 0);
    if Ordinary(c, h.Appended(room)) {
      SoundRoomIsHonest(c, h, room);
      HonestIsAccepted(c, h, room);
    } else {
      var i :| 0 <= i < |h.Appended(room)| && RedactionMarker(c, h.Appended(room)[i].payload).Some?;
      StoredMarkerIsReported(c, h, room, i);
    }
  }

  // ---- Appends alone, announcements by anyone among them

  /** A log of appends alone, whatever their types and payloads: chained, and with no records. */
  ghost predicate Appended(c: Codec, h: History) {
    && h.db.redactions == map[]
    && forall room :: ChainedRoom(c, h, room)
  }

  ghost predicate ChainedRoom(c: Codec, h: History, room: string) {
    && CounterIs(h.db, room, |h.db.Rows(room)|) && UniqueEventIds(h.db.Rows(room))
    && forall i | 0 <= i < |h.db.Rows(room)| :: ChainedAt(c, room, h.db.Rows(room), i)
  }

  ghost predicate ChainedAt(c: Codec, room: string, rows: seq<Row>, i: nat)
    requires i < |rows|
  {
    && rows[i].sequence == i + 1
    && rows[i].prevHash == Some(HashBefore(rows, i))
    && rows[i].eventHash == Some(ChainHash(c, HashBefore(rows, i), room, rows[i]))
  }

  lemma UniqueExtends(rows: seq<Row>, row: Row)
    requires UniqueEventIds(rows) && forall r <- rows :: r.eventId != row.eventId
    ensures UniqueEventIds(rows + [row])
  {
  }

  lemma ChainExtends(c: Codec, room: string, rows: seq<Row>, ev: Event)
    requires forall i | 0 <= i < |rows| :: ChainedAt(c, room, rows, i)
    ensures var row := ChainedRow(c, room, ev, |rows| + 1, HashBefore(rows, |rows|));
            forall i | 0 <= i <= |rows| :: ChainedAt(c, room, rows + [row], i)
  {
    var row := ChainedRow(c, room, ev, |rows| + 1, HashBefore(rows, |rows|));
    forall i | 0 <= i <= |rows| ensures ChainedAt(c, room, rows + [row], i) {
      assert HashBefore(rows + [row], i) == HashBefore(rows, i);
      if i < |rows| {
        assert ChainedAt(c, room, rows, i);
      }
    }
  }

  lemma AppendKeepsChained(c: Codec, h: History, room: string, ev: Event)
    requires Faithful(c) && Appended(c, h) && NextRow(c, h.db, room, ev).Ok?
    ensures Appended(c, h.With(room, NextRow(c, h.db, room, ev).value))
  {
    var rows, row := h.db.Rows(room), NextRow(c, h.db, room, ev).value;
    var next := h.With(room, row);
    assert ChainedRoom(c, h, room);
    forall i | 0 <= i < |rows| ensures rows[i].sequence == i + 1 && rows[i].eventHash.Some? {
      assert ChainedAt(c, room, rows, i);
    }
    NextRowIsChained(c, room, rows, h.db, ev);
    assert room in h.db.events || rows == [];
    ChainExtends(c, room, rows, ev);
    UniqueExtends(rows, row);
    assert next.db.Rows(room) == rows + [row];
    forall r | r != room ensures ChainedRoom(c, next, r) {
      assert ChainedRoom(c, h, r) && next.db.Rows(r) == h.db.Rows(r);
    }
  }

  lemma {:induction false} AppendsAreChained(c: Codec, steps: seq<Step>)
    requires Faithful(c) && forall s <- steps :: s.Append?
    ensures Appended(c, Run(c, steps))
  {
    if steps != [] {
      var h, step := Run(c, steps[..|steps| - 1]), steps[|steps| - 1];
      AppendsAreChained(c, steps[..|steps| - 1]);
      if NextRow(c, h.db, step.room, step.event).Ok? {
        AppendKeepsChained(c, h, step.room, step.event);
      }
    }
  }

  lemma UnrecordedIsLinkedIff(c: Codec, room: string, rows: seq<Row>, i: nat)
    requires i < |rows| && ChainedAt(c, room, rows, i)
    ensures Linked(c, map[], room, rows, i) <==> RedactionMarker(c, rows[i].payload).None?
  {
  }

  lemma ChainedIsWellFormedIff(c: Codec, h: History, room: string)
    requires Appended(c, h)
    ensures WellFormed(c, h.db, room) <==>
            forall i | 0 <= i < |h.db.Rows(room)| :: RedactionMarker(c, h.db.Rows(room)[i].payload).None?
  {
    var rows := h.db.Rows(room);
    assert ChainedRoom(c, h, room);
    forall i | 0 <= i < |rows|
      ensures Linked(c, map[], room, rows, i) <==> RedactionMarker(c, rows[i].payload).None?
      ensures RedactionMarker(c, rows[i].payload).None? ==> Answered(Readings(c, rows), i)
    {
      UnrecordedIsLinkedIff(c, room, rows, i);
      assert Readings(c, rows)[i] == Read(c, rows[i]);
    }
  }

  /** An append-only log, whatever its events claim, verifies exactly when no stored payload has the marker's shape. */
  lemma AppendOnlyVerifiesIff(c: Codec, steps: seq<Step>, room: string)
    requires Faithful(c) && forall s <- steps :: s.Append?
    ensures Accepts(c, Run(c, steps).db, room) <==>
            forall i | 0 <= i < |Run(c, steps).db.Rows(room)| ::
              RedactionMarker(c, Run(c, steps).db.Rows(room)[i].payload).None?
  {
    var h := Run(c, steps);
    AppendsAreChained(c, steps);
    assert ChainedRoom(c, h, room);
    AcceptsIffWellFormed(c, h.db, room);
    ChainedIsWellFormedIff(c, h, room);
  }

  // ---- Tamper evidence

  /** Row i of a table agrees with the row first written there, up to an erased payload and its event id. */
  ghost predicate RowAgrees(c: Codec, rows: seq<Row>, now: seq<Row>, app: seq<Row>, i: nat)
    requires i < |rows| == |now| == |app|
  {
    && rows[i].eventHash == app[i].eventHash
    && if RedactionMarker(c, rows[i].payload).None? then rows[i] == app[i]
       else SameHeader(rows[i], app[i]) && RedactionMarker(c, now[i].payload).Some?
  }

  /** The lists hashed when this table is verified: a marker's header, any other row's chain list. */
  function VerifiedLists(c: Codec, room: string, rows: seq<Row>): set<Material> {
    set i | 0 <= i < |rows| :: if RedactionMarker(c, rows[i].payload).Some? then HeaderList(rows[i])
                               else ChainList(HashBefore(rows, i), room, rows[i])
  }

  /** The lists hashed when these rows are first written, and when one of them is erased. */
  function WrittenLists(room: string, app: seq<Row>): set<Material> {
    (set i | 0 <= i < |app| :: ChainList(HashBefore(app, i), room, app[i]))
    + (set i | 0 <= i < |app| :: HeaderList(app[i]))
  }

  /** Two different lists among these have one digest. */
  ghost predicate Collide(c: Codec, lists: set<Material>) {
    exists a, b :: a in lists && b in lists && a != b && c.sha(a) == c.sha(b)
  }

  /** Two different lists, both hashed for the forged table or for the rows first written, have one digest. */
  ghost predicate Collision(c: Codec, room: string, forged: seq<Row>, app: seq<Row>) {
    Collide(c, VerifiedLists(c, room, forged) + WrittenLists(room, app))
  }

  lemma NoCollision(c: Codec, room: string, rows: seq<Row>, app: seq<Row>, a: Material, b: Material)
    requires !Collision(c, room, rows, app) && c.sha(a) == c.sha(b)
    requires a in VerifiedLists(c, room, rows) + WrittenLists(room, app)
    requires b in VerifiedLists(c, room, rows) + WrittenLists(room, app)
    ensures a == b
  {
  }

  /** Equal hashes of a plain row and of a row first written: equal rows at one place. */
  lemma PlainRowAgrees(c: Codec, redactions: map<string, Redaction>, room: string, rows: seq<Row>, app: seq<Row>,
                       i: nat, j: nat)
    requires i < |rows| && j < |app| && !Collision(c, room, rows, app)
    requires Linked(c, redactions, room, rows, i) && WellAppended(c, room, app, j)
    requires RedactionMarker(c, rows[i].payload).None? && rows[i].eventHash == app[j].eventHash
    ensures rows[i] == app[j] && i == j
  {
    NoCollision(c, room, rows, app, ChainList(HashBefore(rows, i), room, rows[i]), ChainList(HashBefore(app, j), room, app[j]));
  }

  lemma EqualHashesEqualPlaces(c: Codec, room: string, rows: seq<Row>, app: seq<Row>, i: nat, j: nat)
    requires i < |app| && j < |app| && !Collision(c, room, rows, app) && app[i].eventHash == app[j].eventHash
    requires WellAppended(c, room, app, i) && WellAppended(c, room, app, j)
    ensures i == j
  {
    NoCollision(c, room, rows, app, ChainList(HashBefore(app, i), room, app[i]), ChainList(HashBefore(app, j), room, app[j]));
  }

  lemma HeaderIsBound(c: Codec, room: string, rows: seq<Row>, app: seq<Row>, i: nat)
    requires i < |rows| && i < |app| && !Collision(c, room, rows, app) && RedactionMarker(c, rows[i].payload).Some?
    requires HeaderHash(c, rows[i]) == HeaderHash(c, app[i])
    requires rows[i].prevHash.Some? && app[i].prevHash.Some? && rows[i].eventHash == app[i].eventHash
    ensures SameHeader(rows[i], app[i])
  {
    NoCollision(c, room, rows, app, HeaderList(rows[i]), HeaderList(app[i]));
  }

  /** A marker of an accepted table is answered by a true entry of the honest log, about an equally hashed row. */
  lemma AnsweringEntry(ls: seq<Reading>, rs: seq<Reading>, os: seq<Reading>, i: nat) returns (k: nat)
    requires i < |ls| == |rs| == |os| && ls[i].marker.Some? && Answered(ls, i)
    requires forall j | i < j < |ls| && ls[j].named != [] :: ls[j].named == os[j].named
    requires forall j | 0 <= j < |os| :: TrueEntries(rs, os, j)
    ensures k < |os| && rs[k].marker.Some?
    ensures ls[i].headerHash == os[k].headerHash && ls[i].eventHash == os[k].eventHash
  {
    var id := ls[i].marker.value;
    var j :| i < j < |ls| && AnsweredAt(ls, i, id, j);
    NamingIsNamed(ls[j].named);
    var a := FirstNaming(ls[j].named, id).value;
    assert a in ls[j].named;
    assert TrueEntries(rs, os, j) && TrueEntry(rs, os, j, a);
    k :| 0 <= k < j && rs[k].marker == Some(a.redactionId) && IsTrueOf(a, os[k]);
  }

  /** A table that is well formed and agrees with an honest history from row i + 1 on. */
  ghost predicate AgreesAfter(c: Codec, forged: Db, h: History, room: string, i: nat) {
    && !Collision(c, room, forged.Rows(room), h.Appended(room)) && HonestRoom(c, h, room) && WellFormed(c, forged, room)
    && |forged.Rows(room)| == |h.db.Rows(room)|
    && forall j | i < j < |forged.Rows(room)| :: RowAgrees(c, forged.Rows(room), h.db.Rows(room), h.Appended(room), j)
  }

  /** A forged marker is only answered by an announcement an erasure really made of that very row. */
  lemma MarkerRowAgrees(c: Codec, forged: Db, h: History, room: string, i: nat)
    requires AgreesAfter(c, forged, h, room, i) && i < |forged.Rows(room)|
    requires RedactionMarker(c, forged.Rows(room)[i].payload).Some?
    requires forged.Rows(room)[i].eventHash == h.Appended(room)[i].eventHash
    ensures RowAgrees(c, forged.Rows(room), h.db.Rows(room), h.Appended(room), i)
  {
    var rows, now, app := forged.Rows(room), h.db.Rows(room), h.Appended(room);
    var ls, rs, os := Readings(c, rows), Readings(c, now), Readings(c, app);
    forall j | i < j < |ls| && ls[j].named != [] ensures ls[j].named == os[j].named {
      assert RowAgrees(c, rows, now, app, j);
      if RedactionMarker(c, rows[j].payload).Some? {
        MarkersAnnounceNothing(c, rows[j]);
      }
    }
    var k := AnsweringEntry(ls, rs, os, i);
    assert WellAppended(c, room, app, k) && WellAppended(c, room, app, i);
    assert ls[i] == Read(c, rows[i]) && os[k] == Read(c, app[k]) && rs[k] == Read(c, now[k]);
    EqualHashesEqualPlaces(c, room, rows, app, i, k);
    assert Linked(c, forged.redactions, room, rows, i);
    HeaderIsBound(c, room, rows, app, i);
  }

  lemma OneRowAgrees(c: Codec, forged: Db, h: History, room: string, i: nat)
    requires AgreesAfter(c, forged, h, room, i) && i < |forged.Rows(room)|
    requires forged.Rows(room)[i].eventHash == h.Appended(room)[i].eventHash
    ensures RowAgrees(c, forged.Rows(room), h.db.Rows(room), h.Appended(room), i)
  {
    var rows, app := forged.Rows(room), h.Appended(room);
    hide Collision;
    if RedactionMarker(c, rows[i].payload).None? {
      assert WellAppended(c, room, app, i) && Linked(c, forged.redactions, room, rows, i);
      PlainRowAgrees(c, forged.redactions, room, rows, app, i, i);
    } else {
      MarkerRowAgrees(c, forged, h, room, i);
    }
  }

  /** Agreement of a row carries its predecessor's hash with it. */
  lemma HashAgrees(c: Codec, forged: Db, h: History, room: string, i: nat)
    requires Faithful(c) && AgreesAfter(c, forged, h, room, i) && i + 1 < |forged.Rows(room)|
    ensures forged.Rows(room)[i].eventHash == h.Appended(room)[i].eventHash
  {
    var rows, now, app := forged.Rows(room), h.db.Rows(room), h.Appended(room);
    assert RowAgrees(c, rows, now, app, i + 1);
    assert WellAppended(c, room, app, i) && WellAppended(c, room, app, i + 1);
    assert Linked(c, forged.redactions, room, rows, i + 1);
    assert Str(rows[i].eventHash) == Str(app[i].eventHash);
  }

  /** Backwards along the chain: from row i on, every row agrees. */
  lemma {:induction false} SuffixAgrees(c: Codec, forged: Db, h: History, room: string, i: nat)
    requires Faithful(c) && AgreesAfter(c, forged, h, room, |forged.Rows(room)|) && i <= |forged.Rows(room)|
    requires forged.Rows(room) != [] ==>
               forged.Rows(room)[|forged.Rows(room)| - 1].eventHash == h.db.Rows(room)[|forged.Rows(room)| - 1].eventHash
    ensures forall j | i <= j < |forged.Rows(room)| ::
              RowAgrees(c, forged.Rows(room), h.db.Rows(room), h.Appended(room), j)
    decreases |forged.Rows(room)| - i
  {
    var rows, now, app := forged.Rows(room), h.db.Rows(room), h.Appended(room);
    hide Collision, RowAgrees, WellFormed;
    if i < |rows| {
      SuffixAgrees(c, forged, h, room, i + 1);
      assert AgreesAfter(c, forged, h, room, i);
      if i + 1 == |rows| {
        SameReading(c, h.db.redactions, room, now, app, i);
      } else {
        HashAgrees(c, forged, h, room, i);
      }
      OneRowAgrees(c, forged, h, room, i);
    }
  }

  /** Nothing after the last row answers a marker, so the last row is plain, and its hash fixes its place. */
  lemma LastHashFixesLength(c: Codec, forged: Db, h: History, room: string)
    requires HonestRoom(c, h, room) && WellFormed(c, forged, room)
    requires !Collision(c, room, forged.Rows(room), h.Appended(room))
    requires forged.Rows(room) != [] && h.db.Rows(room) != []
    requires forged.Rows(room)[|forged.Rows(room)| - 1].eventHash == h.db.Rows(room)[|h.db.Rows(room)| - 1].eventHash
    ensures |forged.Rows(room)| == |h.db.Rows(room)|
  {
    var rows, app := forged.Rows(room), h.Appended(room);
    var n, m := |rows| - 1, |app| - 1;
    hide Collision;
    SameReading(c, h.db.redactions, room, h.db.Rows(room), app, m);
    assert Linked(c, forged.redactions, room, rows, n) && WellAppended(c, room, app, m);
    assert Answered(Readings(c, rows), n);
    PlainRowAgrees(c, forged.redactions, room, rows, app, n, m);
  }

  /** The two tables end in the same hash; where one of them has no rows, the counter is the honest log's. */
  ghost predicate SameEnd(forged: Db, honest: Db, room: string) {
    var rows, now := forged.Rows(room), honest.Rows(room);
    if rows == [] || now == [] then CounterIs(forged, room, |now|)
    else rows[|rows| - 1].eventHash == now[|now| - 1].eventHash
  }

  /**
   Put any table in place of an honest log. If the verifier accepts it and it ends in the honest log's last
   event_hash, then it is the honest log: as long, every header and both hashes as first written, every row that
   is not a marker exactly as first written, and a marker only where an erasure put one. Or two different lists
   that were hashed for these two tables share a digest.
   */
  lemma TamperEvidence(c: Codec, steps: seq<Step>, room: string, forged: Db)
    requires Faithful(c) && (forall s <- steps :: Admissible(s)) && Ordinary(c, Run(c, steps).Appended(room))
    requires UniqueEventIds(forged.Rows(room)) && Accepts(c, forged, room)
    requires SameEnd(forged, Run(c, steps).db, room)
    ensures var h := Run(c, steps);
            || Collision(c, room, forged.Rows(room), h.Appended(room))
            || (&& |forged.Rows(room)| == |h.db.Rows(room)| == |h.Appended(room)|
                && forall i | 0 <= i < |forged.Rows(room)| ::
                     RowAgrees(c, forged.Rows(room), h.db.Rows(room), h.Appended(room), i))
  {
    var h := Run(c, steps);
    EveryRunIsSound(c, steps, 0);
    SoundRoomIsHonest(c, h, room);
    AcceptsIffWellFormed(c, forged, room);
    if !Collision(c, room, forged.Rows(room), h.Appended(room)) {
      if forged.Rows(room) != [] && h.db.Rows(room) != [] {
        LastHashFixesLength(c, forged, h, room);
      }
      SuffixAgrees(c, forged, h, room, 0);
    }
  }

  /** Where the honest log holds no marker, acceptance leaves no freedom at all. */
  lemma TamperEvidenceWithoutErasure(c: Codec, steps: seq<Step>, room: string, forged: Db)
    requires Faithful(c) && (forall s <- steps :: Admissible(s)) && Ordinary(c, Run(c, steps).Appended(room))
    requires forall row <- Run(c, steps).db.Rows(room) :: RedactionMarker(c, row.payload).None?
    requires UniqueEventIds(forged.Rows(room)) && Accepts(c, forged, room)
    requires SameEnd(forged, Run(c, steps).db, room)
    ensures || Collision(c, room, forged.Rows(room), Run(c, steps).Appended(room))
            || forged.Rows(room) == Run(c, steps).db.Rows(room)
  {
    TamperEvidence(c, steps, room, forged);
    var h := Run(c, steps);
    var rows, now, app := forged.Rows(room), h.db.Rows(room), h.Appended(room);
    if !Collision(c, room, rows, app) {
      EveryRunIsSound(c, steps, 0);
      assert HonestRoom(c, h, room);
      forall i | 0 <= i < |rows| ensures rows[i] == now[i] {
        assert RowAgrees(c, rows, now, app, i);
        assert KeptOrErased(h.db.redactions, now, app, Readings(c, now), Readings(c, app), i);
      }
    }
  }

  /** Dropping rows from the end of an accepted log under an unchanged counter is always reported. */
  lemma DroppedSuffixIsReported(c: Codec, db: Db, room: string, k: nat)
    requires UniqueEventIds(db.Rows(room)) && Accepts(c, db, room) && k < |db.Rows(room)|
    ensures !Accepts(c, db.(events := db.events[room := db.Rows(room)[..k]]), room)
  {
    var cut := db.(events := db.events[room := db.Rows(room)[..k]]);
    AcceptsIffWellFormed(c, db, room);
    AcceptsIffWellFormed(c, cut, room);
  }

  // ---- The one freedom left

  /** The table with one marker row, and its record, moved to another event id. */
  function Renamed(c: Codec, db: Db, room: string, i: nat, eventId: string): Db
    requires i < |db.Rows(room)| && RedactionMarker(c, db.Rows(room)[i].payload).Some?
    requires RedactionMarker(c, db.Rows(room)[i].payload).value in db.redactions
  {
    var rows := db.Rows(room);
    var id := RedactionMarker(c, rows[i].payload).value;
    db.(events := db.events[room := rows[i := rows[i].(eventId := eventId)]],
        redactions := db.redactions[id := db.redactions[id].(eventId := eventId)])
  }

  /** A marker row's event id is bound by nothing: any other id no row uses is accepted in its place. */
  lemma MarkerEventIdIsFree(c: Codec, db: Db, room: string, i: nat, eventId: string)
    requires UniqueEventIds(db.Rows(room)) && Accepts(c, db, room)
    requires i < |db.Rows(room)| && RedactionMarker(c, db.Rows(room)[i].payload).Some?
    requires forall row <- db.Rows(room) :: row.eventId != eventId
    ensures RedactionMarker(c, db.Rows(room)[i].payload).value in db.redactions
    ensures Accepts(c, Renamed(c, db, room, i, eventId), room)
  {
    var rows := db.Rows(room);
    AcceptsIffWellFormed(c, db, room);
    assert Linked(c, db.redactions, room, rows, i);
    var moved := Renamed(c, db, room, i, eventId);
    var ls, ms := Readings(c, rows), Readings(c, moved.Rows(room));
    assert ms[i] == ls[i].(eventId := eventId);
    RenamedAnswers(ls, ms);
    forall j | 0 <= j < |rows| ensures Linked(c, moved.redactions, room, moved.Rows(room), j) {
      assert Linked(c, db.redactions, room, rows, j);
      assert HashBefore(moved.Rows(room), j) == HashBefore(rows, j);
      assert j != i ==> ms[j] == ls[j];
    }
    AcceptsIffWellFormed(c, moved, room);
  }

  lemma RenamedAnswers(ls: seq<Reading>, ms: seq<Reading>)
    requires |ls| == |ms| && forall j | 0 <= j < |ls| :: ms[j] == ls[j].(eventId := ms[j].eventId)
    requires forall j | 0 <= j < |ls| :: Answered(ls, j)
    ensures forall j | 0 <= j < |ls| :: Answered(ms, j)
  {
    forall j | 0 <= j < |ls| && ms[j].marker.Some? ensures Answered(ms, j) {
      assert Answered(ls, j);
      var id := ls[j].marker.value;
      var k :| j < k < |ls| && AnsweredAt(ls, j, id, k);
      assert AnsweredAt(ms, j, id, k);
    }
  }
}
