/**
 The write side of the log: EventRepo's transactional append (src/multiplayer/db/repositories.py)
 and the erase step (src/multiplayer/services/erasure.py), on values and as a store that runs them.
 */
module EventLog {
  import opened Prelude
  import opened EventChain

  /** A RoomEvent before it has a sequence. A payload is always a JSON object. */
  datatype Event = Event(eventId: string, eventType: string, payload: map<string, Json>, actorId: string,
                         actorType: string, timestamp: string, schemaVersion: int)

  /** The exceptions that roll a transaction back. */
  datatype LogError = NoHashedPredecessor | IntegrityError | MalformedPayload

  // ---- Append

  /** event_hash of the row holding this sequence, if there is one and it is hashed. */
  function HashAt(rows: seq<Row>, sequence: int): Option<string> {
    if rows == [] then None
    else if rows[|rows| - 1].sequence == sequence then rows[|rows| - 1].eventHash
    else HashAt(rows[..|rows| - 1], sequence)
  }

  /** Where ORDER BY sequence puts a new row. */
  function Place(rows: seq<Row>, row: Row): seq<Row> {
    if rows == [] || rows[|rows| - 1].sequence < row.sequence then rows + [row]
    else Place(rows[..|rows| - 1], row) + [rows[|rows| - 1]]
  }

  predicate EventIdTaken(db: Db, eventId: string) {
    exists room <- db.events :: exists row <- db.events[room] :: row.eventId == eventId
  }

  function ChainedRow(c: Codec, room: string, ev: Event, sequence: int, prevHash: string): Row {
    var bare := Row(ev.eventId, sequence, ev.eventType, c.dumps(JObject(ev.payload)), ev.actorId, ev.actorType,
                    ev.timestamp, ev.schemaVersion, Some(prevHash), None);
    bare.(eventHash := Some(ChainHash(c, prevHash, room, bare)))
  }

  /** _insert_chained: the row to insert, or why it cannot be inserted. */
  function InsertChained(c: Codec, db: Db, room: string, ev: Event, sequence: int): Result<Row, LogError> {
    var prev := if sequence > 1 then HashAt(db.Rows(room), sequence - 1) else Some(GENESIS_HASH);
    if prev.None? then Err(NoHashedPredecessor)
    else if EventIdTaken(db, ev.eventId) || (exists row <- db.Rows(room) :: row.sequence == sequence)
    then Err(IntegrityError)
    else Ok(ChainedRow(c, room, ev, sequence, prev.value))
  }

  function NextSequence(db: Db, room: string): int {
    if room in db.counters then db.counters[room] + 1 else 1
  }

  /** append_with_next_sequence_in_transaction: the row it writes. */
  function NextRow(c: Codec, db: Db, room: string, ev: Event): Result<Row, LogError> {
    InsertChained(c, db, room, ev, NextSequence(db, room))
  }

  function WithRow(db: Db, room: string, row: Row): Db {
    db.(events := db.events[room := Place(db.Rows(room), row)],
        counters := db.counters[room := NextSequence(db, room)])
  }

  // ---- Erase

  const PERSONAL_PAYLOAD_KEYS := ["content", "body", "title", "filename", "instruction"]
  const ROOM_METADATA_KEYS := ["name", "description"]
  const RESERVED_ARTIFACT_NAMES := {"General Synthesis", "Decision Brief", "Progress Report"}

  predicate HasText(f: map<string, Json>, key: string) {
    StrField(f, key).GetOr("") != ""
  }

  /** _carries_personal_content */
  predicate CarriesPersonalContent(eventType: string, f: map<string, Json>) {
    || (exists key <- PERSONAL_PAYLOAD_KEYS :: HasText(f, key))
    || (eventType == "room.created" && exists key <- ROOM_METADATA_KEYS :: HasText(f, key))
    || (eventType == "artifact.created" && HasText(f, "name") && f["name"].s !in RESERVED_ARTIFACT_NAMES)
    || (eventType == "task.delegated" && ("delegating_agent_id" !in f || f["delegating_agent_id"].JNull?))
  }

  /** Rows, records and announcements while one room is being erased. */
  datatype Erasure = Erasure(rows: seq<Row>, redactions: map<string, Redaction>, notes: seq<Announcement>)

  /** redact_payload_in_transaction: UPDATE ... WHERE event_id = ?. */
  function Marked(rows: seq<Row>, eventId: string, payload: string): seq<Row> {
    seq(|rows|, i requires 0 <= i < |rows| =>
      if rows[i].eventId == eventId then rows[i].(payload := payload) else rows[i])
  }

  /** The erase loop's body on a row as it was listed: skip it, or replace its payload and record what it was. */
  function EraseRow(c: Codec, e: Erasure, row: Row, victim: string, id: string): Result<Erasure, LogError> {
    if row.actorId != victim || row.actorType !in {"user", "human"} then Ok(e)
    else
      var json := c.parse(row.payload);
      if !json.Some? || !json.value.JObject? then Err(MalformedPayload)
      else if MarkerOf(json).Some? || !CarriesPersonalContent(row.eventType, json.value.fields) then Ok(e)
      else if id in e.redactions || (exists k <- e.redactions :: e.redactions[k].eventId == row.eventId)
      then Err(IntegrityError)
      else
        var record := Redaction(row.eventId, Str(row.eventHash), HeaderHash(c, row));
        Ok(Erasure(Marked(e.rows, row.eventId, c.dumps(MarkerJson(id))), e.redactions[id := record],
                   e.notes + [Announcement(id, record.headerHash, record.originalEventHash)]))
  }

  /** The loop over the rows listed, k of them done; ids supplies a new_id per row. */
  function EraseUpTo(c: Codec, start: Erasure, listed: seq<Row>, victim: string, ids: nat -> string, k: nat)
    : (r: Result<Erasure, LogError>)
    requires k <= |listed|
    ensures r.Ok? ==> |r.value.rows| == |start.rows|
  {
    if k == 0 then Ok(start)
    else
      var e :- EraseUpTo(c, start, listed, victim, ids, k - 1);
      EraseRow(c, e, listed[k - 1], victim, ids(k - 1))
  }

  function EraseListed(c: Codec, db: Db, room: string, listed: seq<Row>, victim: string, ids: nat -> string)
    : Result<Erasure, LogError>
  {
    EraseUpTo(c, Erasure(db.Rows(room), db.redactions, []), listed, victim, ids, |listed|)
  }

  /** Who signs the event.redacted event, and its id and time. */
  datatype Signature = Signature(eventId: string, actorId: string, actorType: string, timestamp: string,
                                 schemaVersion: int)

  function AnnouncementEvent(signer: Signature, notes: seq<Announcement>): Event {
    Event(signer.eventId, EVENT_REDACTED, AnnouncementJson(notes).fields, signer.actorId, signer.actorType, signer.timestamp,
          signer.schemaVersion)
  }

  function Redacted(db: Db, room: string, e: Erasure): Db {
    db.(events := db.events[room := e.rows], redactions := e.redactions)
  }

  // ---- What an erasure erases

  predicate NonEmptyText(f: map<string, Json>, key: string) {
    key in f && f[key].JStr? && f[key].s != ""
  }

  /** The fields in which an event carries what a person wrote, spelled out. */
  predicate Personal(eventType: string, f: map<string, Json>) {
    || NonEmptyText(f, "content") || NonEmptyText(f, "body") || NonEmptyText(f, "title")
    || NonEmptyText(f, "filename") || NonEmptyText(f, "instruction")
    || (eventType == "room.created" && (NonEmptyText(f, "name") || NonEmptyText(f, "description")))
    || (eventType == "artifact.created" && NonEmptyText(f, "name")
        && f["name"].s != "General Synthesis" && f["name"].s != "Decision Brief" && f["name"].s != "Progress Report")
    || (eventType == "task.delegated" && ("delegating_agent_id" in f ==> f["delegating_agent_id"].JNull?))
  }

  lemma PersonalIsCarried(eventType: string, f: map<string, Json>)
    ensures CarriesPersonalContent(eventType, f) <==> Personal(eventType, f)
  {
    assert forall key: string :: HasText(f, key) <==> NonEmptyText(f, key);
    var keys, metadata := PERSONAL_PAYLOAD_KEYS, ROOM_METADATA_KEYS;
    assert keys[0] == "content" && keys[1] == "body" && keys[2] == "title" && keys[3] == "filename" && keys[4] == "instruction";
    assert metadata[0] == "name" && metadata[1] == "description";
    assert forall key <- keys :: key in {"content", "body", "title", "filename", "instruction"};
    assert forall key <- metadata :: key in {"name", "description"};
    hide HasText;
  }

  predicate ByVictim(row: Row, victim: string) {
    row.actorId == victim && (row.actorType == "user" || row.actorType == "human")
  }

  predicate IsObject(c: Codec, payload: string) {
    c.parse(payload).Some? && c.parse(payload).value.JObject?
  }

  /** A row of the victim's that is no marker yet and carries personal content. */
  predicate Chosen(c: Codec, row: Row, victim: string) {
    && ByVictim(row, victim) && IsObject(c, row.payload) && RedactionMarker(c, row.payload).None?
    && Personal(row.eventType, c.parse(row.payload).value.fields)
  }

  function ChosenPlaces(c: Codec, listed: seq<Row>, victim: string, k: nat): set<nat>
    requires k <= |listed|
  {
    set i: nat | i < k && Chosen(c, listed[i], victim)
  }

  /** The digest of the fields that outlive an erasure, in the order in which they are hashed. */
  function HeaderDigest(c: Codec, row: Row): string {
    c.sha(HeaderMaterial(row.eventType, row.actorId, row.actorType, row.timestamp, row.schemaVersion, row.sequence,
                         if row.prevHash.Some? then row.prevHash.value else ""))
  }

  lemma HeaderIsDigested(c: Codec, row: Row)
    ensures HeaderHash(c, row) == HeaderDigest(c, row)
  {
  }

  function RecordOf(c: Codec, row: Row): Redaction {
    Redaction(row.eventId, Str(row.eventHash), HeaderDigest(c, row))
  }

  /** Listed row i is readable if it is the victim's, and if it is chosen nobody has its record or its record's id yet. */
  ghost predicate MayEraseRow(c: Codec, redactions: map<string, Redaction>, listed: seq<Row>, victim: string,
                              ids: nat -> string, i: nat)
    requires i < |listed|
  {
    && (ByVictim(listed[i], victim) ==> IsObject(c, listed[i].payload))
    && (Chosen(c, listed[i], victim) ==>
          && ids(i) !in redactions && (forall id <- redactions :: redactions[id].eventId != listed[i].eventId)
          && forall j :: 0 <= j < i && Chosen(c, listed[j], victim) ==> ids(j) != ids(i))
  }

  ghost predicate MayErase(c: Codec, redactions: map<string, Redaction>, listed: seq<Row>, victim: string, ids: nat -> string,
                           k: nat)
    requires k <= |listed|
  {
    forall i :: 0 <= i < k ==> MayEraseRow(c, redactions, listed, victim, ids, i)
  }

  ghost predicate SameIds(listed: seq<Row>, rows: seq<Row>) {
    && |listed| <= |rows| && (forall i :: 0 <= i < |listed| ==> listed[i].eventId == rows[i].eventId)
    && forall i, j :: 0 <= i < j < |rows| ==> rows[i].eventId != rows[j].eventId
  }

  /** Row i of the erasure: a marker with its record where a chosen row was listed, else as it was. */
  ghost predicate ErasedRow(c: Codec, e: Erasure, rows: seq<Row>, listed: seq<Row>, victim: string, ids: nat -> string,
                            k: nat, i: nat)
    requires i < |rows| == |e.rows| && k <= |listed|
  {
    if i < k && Chosen(c, listed[i], victim) then
      && e.rows[i] == rows[i].(payload := e.rows[i].payload)
      && RedactionMarker(c, e.rows[i].payload) == Some(ids(i))
      && ids(i) in e.redactions && e.redactions[ids(i)] == RecordOf(c, listed[i])
    else e.rows[i] == rows[i]
  }

  ghost predicate RowsErased(c: Codec, e: Erasure, rows: seq<Row>, listed: seq<Row>, victim: string, ids: nat -> string, k: nat)
    requires |rows| == |e.rows| && k <= |listed|
  {
    forall i :: 0 <= i < |rows| ==> ErasedRow(c, e, rows, listed, victim, ids, k, i)
  }

  function IdsAt(places: set<nat>, ids: nat -> string): set<string> {
    set i | i in places :: ids(i)
  }

  /** Records are only added, and only under the ids of these places. */
  ghost predicate RecordsAdded(before: map<string, Redaction>, after: map<string, Redaction>, places: set<nat>,
                               ids: nat -> string)
  {
    && (forall id <- before :: id in after && after[id] == before[id])
    && after.Keys == before.Keys + IdsAt(places, ids)
  }

  lemma OneMoreRecord(before: map<string, Redaction>, after: map<string, Redaction>, places: set<nat>, ids: nat -> string,
                      k: nat, record: Redaction)
    requires RecordsAdded(before, after, places, ids) && ids(k) !in after
    ensures RecordsAdded(before, after[ids(k) := record], places + {k}, ids)
  {
    assert IdsAt(places + {k}, ids) == IdsAt(places, ids) + {ids(k)};
  }

  function NoteOf(c: Codec, row: Row, id: string): Announcement {
    Announcement(id, HeaderDigest(c, row), Str(row.eventHash))
  }

  /** One note for each of these listed rows, and no other. */
  ghost predicate NotesFor(c: Codec, notes: seq<Announcement>, listed: seq<Row>, places: set<nat>, ids: nat -> string) {
    && (forall i :: i in places ==> i < |listed| && NoteOf(c, listed[i], ids(i)) in notes)
    && (forall note <- notes :: exists i :: i in places && i < |listed| && note == NoteOf(c, listed[i], ids(i)))
    && |notes| == |places|
  }

  lemma OneMoreNote(c: Codec, notes: seq<Announcement>, listed: seq<Row>, places: set<nat>, ids: nat -> string, k: nat)
    requires NotesFor(c, notes, listed, places, ids) && k < |listed| && k !in places
    ensures NotesFor(c, notes + [NoteOf(c, listed[k], ids(k))], listed, places + {k}, ids)
  {
    var more := notes + [NoteOf(c, listed[k], ids(k))];
    hide NoteOf;
    forall note <- more ensures exists i :: i in places + {k} && i < |listed| && note == NoteOf(c, listed[i], ids(i)) {
      if note in notes {
        var i :| i in places && i < |listed| && note == NoteOf(c, listed[i], ids(i));
        assert i in places + {k};
      } else {
        assert k in places + {k};
      }
    }
  }

  /** What k listed rows have done. */
  ghost predicate ErasedThrough(c: Codec, e: Erasure, rows: seq<Row>, redactions: map<string, Redaction>, listed: seq<Row>,
                                victim: string, ids: nat -> string, k: nat)
    requires k <= |listed|
  {
    && |e.rows| == |rows| && RowsErased(c, e, rows, listed, victim, ids, k)
    && RecordsAdded(redactions, e.redactions, ChosenPlaces(c, listed, victim, k), ids)
    && NotesFor(c, e.notes, listed, ChosenPlaces(c, listed, victim, k), ids)
  }

  lemma PlaceChosen(c: Codec, listed: seq<Row>, victim: string, k: nat)
    requires k < |listed| && Chosen(c, listed[k], victim)
    ensures ChosenPlaces(c, listed, victim, k + 1) == ChosenPlaces(c, listed, victim, k) + {k}
    ensures k !in ChosenPlaces(c, listed, victim, k)
  {
    hide Chosen;
  }

  lemma PlaceNotChosen(c: Codec, listed: seq<Row>, victim: string, k: nat)
    requires k < |listed| && !Chosen(c, listed[k], victim)
    ensures ChosenPlaces(c, listed, victim, k + 1) == ChosenPlaces(c, listed, victim, k)
  {
    hide Chosen;
  }

  lemma MarkingOne(rows: seq<Row>, k: nat, eventId: string, payload: string)
    requires k < |rows| && rows[k].eventId == eventId && forall i :: 0 <= i < |rows| && i != k ==> rows[i].eventId != eventId
    ensures Marked(rows, eventId, payload) == rows[k := rows[k].(payload := payload)]
  {
  }

  /** What the loop's body does with one listed row. */
  lemma RowErased(c: Codec, e: Erasure, row: Row, victim: string, id: string)
    ensures EraseRow(c, e, row, victim, id) ==
            if ByVictim(row, victim) && !IsObject(c, row.payload) then Err(MalformedPayload)
            else if !Chosen(c, row, victim) then Ok(e)
            else if id in e.redactions || (exists k <- e.redactions :: e.redactions[k].eventId == row.eventId) then Err(IntegrityError)
            else Ok(Erasure(Marked(e.rows, row.eventId, c.dumps(MarkerJson(id))), e.redactions[id := RecordOf(c, row)],
                            e.notes + [NoteOf(c, row, id)]))
  {
    HeaderIsDigested(c, row);
    if IsObject(c, row.payload) {
      PersonalIsCarried(row.eventType, c.parse(row.payload).value.fields);
    }
    hide CarriesPersonalContent, Personal, Marked, HeaderHash, HeaderDigest;
  }

  lemma IdsKept(c: Codec, e: Erasure, rows: seq<Row>, redactions: map<string, Redaction>, listed: seq<Row>,
                victim: string, ids: nat -> string, k: nat)
    requires k <= |listed| && ErasedThrough(c, e, rows, redactions, listed, victim, ids, k)
    ensures forall i :: 0 <= i < |rows| ==> e.rows[i].eventId == rows[i].eventId
  {
    hide Chosen, RedactionMarker;
    forall i | 0 <= i < |rows| ensures e.rows[i].eventId == rows[i].eventId {
      assert ErasedRow(c, e, rows, listed, victim, ids, k, i);
    }
  }

  lemma RowsMarked(c: Codec, e: Erasure, e': Erasure, rows: seq<Row>, listed: seq<Row>, victim: string,
                   ids: nat -> string, k: nat, i: nat)
    requires k < |listed| && i < |rows| == |e.rows| && ErasedRow(c, e, rows, listed, victim, ids, k, i)
    requires Chosen(c, listed[k], victim) && ids(k) !in e.redactions
    requires k < |rows| && |e'.rows| == |rows|
    requires e'.rows == e.rows[k := e.rows[k].(payload := e'.rows[k].payload)]
    requires RedactionMarker(c, e'.rows[k].payload) == Some(ids(k))
    requires e'.redactions == e.redactions[ids(k) := RecordOf(c, listed[k])]
    ensures ErasedRow(c, e', rows, listed, victim, ids, k + 1, i)
  {
    hide Chosen, RedactionMarker, RecordOf;
  }

  /** A chosen row's erasure as equations: its own row marked, its record and one note added. */
  ghost predicate MarksOne(c: Codec, e: Erasure, e': Erasure, listed: seq<Row>, k: nat, id: string)
    requires k < |listed|
  {
    && k < |e.rows| == |e'.rows| && id !in e.redactions
    && e'.rows == e.rows[k := e.rows[k].(payload := e'.rows[k].payload)]
    && RedactionMarker(c, e'.rows[k].payload) == Some(id)
    && e'.redactions == e.redactions[id := RecordOf(c, listed[k])]
    && e'.notes == e.notes + [NoteOf(c, listed[k], id)]
  }

  lemma ChosenIsMarked(c: Codec, e: Erasure, rows: seq<Row>, redactions: map<string, Redaction>, listed: seq<Row>,
                       victim: string, ids: nat -> string, k: nat)
    requires Faithful(c) && k < |listed| && SameIds(listed, rows) && ids(k) != ""
    requires ErasedThrough(c, e, rows, redactions, listed, victim, ids, k) && Chosen(c, listed[k], victim)
    requires EraseRow(c, e, listed[k], victim, ids(k)).Ok?
    ensures MarksOne(c, e, EraseRow(c, e, listed[k], victim, ids(k)).value, listed, k, ids(k))
  {
    RowErased(c, e, listed[k], victim, ids(k));
    MarkerRoundTrip(c, ids(k));
    IdsKept(c, e, rows, redactions, listed, victim, ids, k);
    hide EraseRow, Chosen, RedactionMarker, MarkerJson, Faithful, RecordOf, ErasedRow, NotesFor;
    MarkingOne(e.rows, k, listed[k].eventId, c.dumps(MarkerJson(ids(k))));
    hide Marked;
  }

  lemma AllRowsMarked(c: Codec, e: Erasure, e': Erasure, rows: seq<Row>, listed: seq<Row>, victim: string,
                      ids: nat -> string, k: nat)
    requires k < |listed| <= |rows| == |e.rows| == |e'.rows| && RowsErased(c, e, rows, listed, victim, ids, k)
    requires Chosen(c, listed[k], victim) && MarksOne(c, e, e', listed, k, ids(k))
    ensures RowsErased(c, e', rows, listed, victim, ids, k + 1)
  {
    var upTo := k + 1;
    hide Chosen, RedactionMarker, RecordOf, ErasedRow;
    forall i | 0 <= i < |rows| ensures ErasedRow(c, e', rows, listed, victim, ids, upTo, i) {
      RowsMarked(c, e, e', rows, listed, victim, ids, k, i);
    }
  }

  lemma MarkingThrough(c: Codec, e: Erasure, e': Erasure, rows: seq<Row>, redactions: map<string, Redaction>,
                       listed: seq<Row>, victim: string, ids: nat -> string, k: nat)
    requires k < |listed| && |listed| <= |rows| && ErasedThrough(c, e, rows, redactions, listed, victim, ids, k)
    requires Chosen(c, listed[k], victim) && MarksOne(c, e, e', listed, k, ids(k))
    ensures ErasedThrough(c, e', rows, redactions, listed, victim, ids, k + 1)
  {
    PlaceChosen(c, listed, victim, k);
    OneMoreRecord(redactions, e.redactions, ChosenPlaces(c, listed, victim, k), ids, k, RecordOf(c, listed[k]));
    OneMoreNote(c, e.notes, listed, ChosenPlaces(c, listed, victim, k), ids, k);
    hide Chosen, RecordOf, NoteOf, NotesFor, ChosenPlaces, RecordsAdded, RowsErased;
    AllRowsMarked(c, e, e', rows, listed, victim, ids, k);
  }

  lemma SkippingThrough(c: Codec, e: Erasure, rows: seq<Row>, redactions: map<string, Redaction>, listed: seq<Row>,
                        victim: string, ids: nat -> string, k: nat)
    requires k < |listed| && ErasedThrough(c, e, rows, redactions, listed, victim, ids, k) && !Chosen(c, listed[k], victim)
    ensures ErasedThrough(c, e, rows, redactions, listed, victim, ids, k + 1)
  {
    PlaceNotChosen(c, listed, victim, k);
    hide Chosen, ChosenPlaces;
    var upTo := k + 1;
    forall i | 0 <= i < |rows| ensures ErasedRow(c, e, rows, listed, victim, ids, upTo, i) {
      assert ErasedRow(c, e, rows, listed, victim, ids, k, i);
    }
  }

  /**
   An erasure goes through exactly when each of the victim's listed rows can be read and each chosen one has a record
   nobody has yet; then it has marked the chosen rows, with their records and a note each, and left the rest.
   */
  lemma {:induction false} ErasesExactly(c: Codec, rows: seq<Row>, redactions: map<string, Redaction>, listed: seq<Row>,
                                         victim: string, ids: nat -> string, k: nat)
    requires Faithful(c) && k <= |listed| && SameIds(listed, rows) && forall n :: ids(n) != ""
    ensures var r := EraseUpTo(c, Erasure(rows, redactions, []), listed, victim, ids, k);
            && (r.Ok? <==> MayErase(c, redactions, listed, victim, ids, k))
            && (r.Ok? ==> ErasedThrough(c, r.value, rows, redactions, listed, victim, ids, k))
  {
    if k == 0 {
      NothingErased(c, rows, redactions, listed, victim, ids);
    } else {
      var n := k - 1;
      hide EraseRow, MayErase, MayEraseRow, ErasedThrough, SameIds, Chosen, Faithful;
      ErasesExactly(c, rows, redactions, listed, victim, ids, n);
      MayEraseSplits(c, redactions, listed, victim, ids, n);
      var before := EraseUpTo(c, Erasure(rows, redactions, []), listed, victim, ids, n);
      if before.Ok? {
        var e := before.value;
        MayEraseOneMore(c, e, rows, redactions, listed, victim, ids, n);
        if EraseRow(c, e, listed[n], victim, ids(n)).Ok? {
          RowThrough(c, e, rows, redactions, listed, victim, ids, n);
        }
      }
    }
  }

  lemma NothingErased(c: Codec, rows: seq<Row>, redactions: map<string, Redaction>, listed: seq<Row>, victim: string,
                      ids: nat -> string)
    requires |listed| <= |rows|
    ensures MayErase(c, redactions, listed, victim, ids, 0)
    ensures ErasedThrough(c, Erasure(rows, redactions, []), rows, redactions, listed, victim, ids, 0)
  {
    assert ChosenPlaces(c, listed, victim, 0) == {};
    assert IdsAt({}, ids) == {};
  }

  lemma MayEraseSplits(c: Codec, redactions: map<string, Redaction>, listed: seq<Row>, victim: string, ids: nat -> string, n: nat)
    requires n < |listed|
    ensures MayErase(c, redactions, listed, victim, ids, n + 1)
            <==> MayErase(c, redactions, listed, victim, ids, n) && MayEraseRow(c, redactions, listed, victim, ids, n)
  {
    hide MayEraseRow;
  }

  lemma SameIdsFit(listed: seq<Row>, rows: seq<Row>)
    requires SameIds(listed, rows)
    ensures |listed| <= |rows|
  {
  }

  lemma RowThrough(c: Codec, e: Erasure, rows: seq<Row>, redactions: map<string, Redaction>, listed: seq<Row>,
                   victim: string, ids: nat -> string, k: nat)
    requires Faithful(c) && k < |listed| && SameIds(listed, rows) && ids(k) != ""
    requires ErasedThrough(c, e, rows, redactions, listed, victim, ids, k) && EraseRow(c, e, listed[k], victim, ids(k)).Ok?
    ensures ErasedThrough(c, EraseRow(c, e, listed[k], victim, ids(k)).value, rows, redactions, listed, victim, ids, k + 1)
  {
    RowErased(c, e, listed[k], victim, ids(k));
    hide EraseRow, ErasedThrough, SameIds, Chosen, Faithful;
    if Chosen(c, listed[k], victim) {
      ChosenIsMarked(c, e, rows, redactions, listed, victim, ids, k);
      hide MarksOne;
      SameIdsFit(listed, rows);
      MarkingThrough(c, e, EraseRow(c, e, listed[k], victim, ids(k)).value, rows, redactions, listed, victim, ids, k);
    } else {
      SkippingThrough(c, e, rows, redactions, listed, victim, ids, k);
    }
  }

  lemma ChosenIsReadable(c: Codec, row: Row, victim: string)
    requires Chosen(c, row, victim)
    ensures ByVictim(row, victim) && IsObject(c, row.payload)
  {
  }

  /** The next row may be erased exactly when the loop's body goes through. */
  lemma MayEraseOneMore(c: Codec, e: Erasure, rows: seq<Row>, redactions: map<string, Redaction>, listed: seq<Row>,
                        victim: string, ids: nat -> string, k: nat)
    requires k < |listed| && SameIds(listed, rows)
    requires ErasedThrough(c, e, rows, redactions, listed, victim, ids, k)
    ensures EraseRow(c, e, listed[k], victim, ids(k)).Ok? <==> MayEraseRow(c, redactions, listed, victim, ids, k)
  {
    hide EraseRow, ErasedThrough, Chosen, SameIds, ByVictim, IsObject, RecordOf, NoteOf, Marked, MarkerJson, Personal;
    RowErased(c, e, listed[k], victim, ids(k));
    NewRecordIff(c, e, rows, redactions, listed, victim, ids, k);
    if Chosen(c, listed[k], victim) {
      ChosenIsReadable(c, listed[k], victim);
    }
  }

  lemma NewRecordIff(c: Codec, e: Erasure, rows: seq<Row>, redactions: map<string, Redaction>, listed: seq<Row>,
                     victim: string, ids: nat -> string, k: nat)
    requires k < |listed| && SameIds(listed, rows) && ErasedThrough(c, e, rows, redactions, listed, victim, ids, k)
    ensures ids(k) in e.redactions || (exists id <- e.redactions :: e.redactions[id].eventId == listed[k].eventId)
            <==> || ids(k) in redactions || (exists id <- redactions :: redactions[id].eventId == listed[k].eventId)
                 || exists i :: 0 <= i < k && Chosen(c, listed[i], victim) && ids(i) == ids(k)
  {
    hide Chosen;
    forall id <- e.redactions | id !in redactions ensures e.redactions[id].eventId != listed[k].eventId {
      var i :| i in ChosenPlaces(c, listed, victim, k) && ids(i) == id;
      assert ErasedRow(c, e, rows, listed, victim, ids, k, i);
    }
    forall i | 0 <= i < k && Chosen(c, listed[i], victim) ensures ids(i) in e.redactions {
      assert i in ChosenPlaces(c, listed, victim, k);
    }
  }

  // ---- Histories

  /** The tables, and every row as it was first written (which no code keeps). */
  datatype History = History(db: Db, appended: map<string, seq<Row>>)
  {
    function Appended(room: string): seq<Row> {
      if room in appended then appended[room] else []
    }

    function With(room: string, row: Row): History {
      History(WithRow(db, room, row), appended[room := Place(Appended(room), row)])
    }
  }

  const EMPTY := History(Db(map[], map[], map[]), map[])

  /** An erasure works on the rows it listed before its transaction, when `listedAt` steps had been taken. */
  datatype Step =
    | Append(room: string, event: Event)
    | Erase(room: string, victim: string, ids: nat -> string, signer: Signature, listedAt: nat)

  /** One committed transaction, or an error and no change; listed are the rows an erasure works on. */
  function Apply(c: Codec, h: History, step: Step, listed: seq<Row>): Result<History, LogError>
  {
    match step
    case Append(room, event) =>
      var row :- NextRow(c, h.db, room, event);
      Ok(h.With(room, row))
    case Erase(room, victim, ids, signer, _) =>
      var e :- EraseListed(c, h.db, room, listed, victim, ids);
      if e.notes == [] then Ok(h)
      else
        var erased := History(Redacted(h.db, room, e), h.appended);
        var row :- NextRow(c, erased.db, room, AnnouncementEvent(signer, e.notes));
        Ok(erased.With(room, row))
  }

  /** What the callers keep to: only the erase step writes event.redacted, and new_id never returns the empty string. */
  ghost predicate Admissible(step: Step) {
    match step
    case Append(_, event) => event.eventType != EVENT_REDACTED
    case Erase(_, _, ids, _, _) => forall k :: ids(k) != ""
  }

  /** The history after a run; a step that raises changes nothing. */
  function Run(c: Codec, steps: seq<Step>): History
    decreases |steps|
  {
    if steps == [] then EMPTY
    else
      var h := Run(c, steps[..|steps| - 1]);
      match Apply(c, h, steps[|steps| - 1], Listed(c, steps))
      case Ok(next) => next
      case Err(_) => h
  }

  /** The rows the last step listed, if it is an erasure: those of an earlier time. */
  function Listed(c: Codec, steps: seq<Step>): seq<Row>
    requires steps != []
    decreases |steps|, 0
  {
    var step := steps[|steps| - 1];
    if step.Erase? && step.listedAt < |steps| then Run(c, steps[..step.listedAt]).db.Rows(step.room) else []
  }

  // ---- The store

  /** The tables as the repositories update them in place. */
  class EventStore {
    const codec: Codec
    var events: map<string, seq<Row>>
    var counters: map<string, int>
    var redactions: map<string, Redaction>
    ghost var appended: map<string, seq<Row>>

    constructor (codec: Codec)
      ensures this.codec == codec && Tables() == EMPTY
    {
      this.codec := codec;
      events, counters, redactions, appended := map[], map[], map[], map[];
    }

    ghost function Tables(): History
      reads this
    {
      History(Db(events, counters, redactions), appended)
    }

    /** Bump the counter, read the predecessor's hash, insert; the caller's transaction undoes an error. */
    method AppendWithNextSequence(room: string, event: Event) returns (sequence: Result<int, LogError>)
      modifies this
      ensures match Apply(codec, old(Tables()), Append(room, event), [])
              case Ok(next) => Tables() == next && sequence == Ok(NextSequence(old(Tables()).db, room))
              case Err(e) => Tables() == old(Tables()) && sequence == Err(e)
    {
      var db := Db(events, counters, redactions);
      var n := NextSequence(db, room);
      var row :- InsertChained(codec, db, room, event, n);
      counters := counters[room := n];
      events := events[room := Place(db.Rows(room), row)];
      appended := appended[room := Place(if room in appended then appended[room] else [], row)];
      sequence := Ok(n);
    }

    /** Erase one user's listed personal events in one room, and announce it, in one transaction; count them. */
    method EraseRoom(room: string, listed: seq<Row>, victim: string, ids: nat -> string, signer: Signature)
      returns (count: Result<nat, LogError>)
      modifies this
      ensures match Apply(codec, old(Tables()), Erase(room, victim, ids, signer, 0), listed)
              case Ok(next) =>
                && Tables() == next
                && count == Ok(|EraseListed(codec, old(Tables()).db, room, listed, victim, ids).value.notes|)
              case Err(e) => Tables() == old(Tables()) && count == Err(e)
    {
      hide EraseRow;
      var db := Db(events, counters, redactions);
      var e := Erasure(db.Rows(room), redactions, []);
      ghost var start := e;
      for i := 0 to |listed|
        invariant EraseUpTo(codec, start, listed, victim, ids, i) == Ok(e)
        invariant Tables() == old(Tables())
      {
        var next := EraseRow(codec, e, listed[i], victim, ids(i));
        if next.Err? {
          ErrorIsFinal(codec, start, listed, victim, ids, i + 1);
          return Err(next.error);
        }
        e := next.value;
      }
      if e.notes != [] {
        var erased := Redacted(db, room, e);
        var row :- NextRow(codec, erased, room, AnnouncementEvent(signer, e.notes));
        var after := WithRow(erased, room, row);
        events, counters, redactions := after.events, after.counters, after.redactions;
        appended := appended[room := Place(if room in appended then appended[room] else [], row)];
      }
      count := Ok(|e.notes|);
    }
  }

  lemma {:induction false} ErrorIsFinal(c: Codec, start: Erasure, listed: seq<Row>, victim: string, ids: nat -> string, k: nat)
    requires k <= |listed| && EraseUpTo(c, start, listed, victim, ids, k).Err?
    ensures EraseUpTo(c, start, listed, victim, ids, |listed|) == EraseUpTo(c, start, listed, victim, ids, k)
    decreases |listed| - k
  {
    if k < |listed| {
      ErrorIsFinal(c, start, listed, victim, ids, k + 1);
    }
  }
}
