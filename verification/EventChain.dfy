/**
 The pure half of src/multiplayer/security/audit.py: what a stored row commits to, which
 payloads are redaction markers, and which redactions an event announces.

 SHA-256 and JSON are a parameter, the Codec. Nothing below assumes that the digest is injective: a theorem
 that rests on collision resistance says "or two of the lists hashed for these very tables share a digest".
 */
module EventChain {
  import opened Prelude

  datatype Json =
    | JNull
    | JBool(b: bool)
    | JNum(n: int)
    | JStr(s: string)
    | JList(items: seq<Json>)
    | JObject(fields: map<string, Json>)

  /** The two JSON lists that are ever hashed; they differ in length, so in text. */
  datatype Material =
    | ChainMaterial(prevHash: string, eventId: string, roomId: string, sequence: int, eventType: string,
                    payload: string, actorId: string, actorType: string, timestamp: string,
                    schemaVersion: int)
    | HeaderMaterial(eventType: string, actorId: string, actorType: string, timestamp: string,
                     schemaVersion: int, sequence: int, prevHash: string)

  /** sha: SHA-256 hex digest of the list's text. parse: json.loads, None when it raises. dumps: json.dumps. */
  datatype Codec = Codec(sha: Material -> string, parse: string -> Option<Json>, dumps: Json -> string)

  /** A digest is hex digits, so never what str() makes of a NULL column, and the JSON parser inverts the printer. */
  ghost predicate Faithful(c: Codec) {
    && (forall m :: c.sha(m) != Str(None))
    && (forall j :: c.parse(c.dumps(j)) == Some(j))
  }

  const GENESIS_HASH := ""

  /** One row of room_events. prev_hash and event_hash are nullable columns. */
  datatype Row = Row(eventId: string, sequence: int, eventType: string, payload: string, actorId: string,
                     actorType: string, timestamp: string, schemaVersion: int,
                     prevHash: Option<string>, eventHash: Option<string>)

  /** One row of event_redactions, without the columns the verifier never reads. */
  datatype Redaction = Redaction(eventId: string, originalEventHash: string, headerHash: string)

  /** The three tables: each room's rows in sequence order, the counters, the records by redaction_id. */
  datatype Db = Db(events: map<string, seq<Row>>, counters: map<string, int>, redactions: map<string, Redaction>)
  {
    function Rows(room: string): seq<Row> {
      if room in events then events[room] else []
    }
  }

  /** Python's str(): a NULL column reads as the four letters None. */
  function Str(s: Option<string>): string {
    s.GetOr("None")
  }

  /** event_chain_hash hashes this list. */
  function ChainList(prevHash: string, room: string, row: Row): Material {
    ChainMaterial(prevHash, row.eventId, room, row.sequence, row.eventType, row.payload, row.actorId,
                  row.actorType, row.timestamp, row.schemaVersion)
  }

  function ChainHash(c: Codec, prevHash: string, room: string, row: Row): string {
    c.sha(ChainList(prevHash, room, row))
  }

  /** header_snapshot_hash hashes this list. */
  function HeaderList(row: Row): Material {
    HeaderMaterial(row.eventType, row.actorId, row.actorType, row.timestamp, row.schemaVersion,
                   row.sequence, row.prevHash.GetOr(GENESIS_HASH))
  }

  function HeaderHash(c: Codec, row: Row): string {
    c.sha(HeaderList(row))
  }

  /** The fields other than the payload and the event id. */
  ghost predicate SameHeader(a: Row, b: Row) {
    a == b.(payload := a.payload, eventId := a.eventId)
  }

  // ---- Redaction markers

  /** Exactly {"redacted": true, "redaction_id": "..."}: two keys and no more. */
  function MarkerOf(json: Option<Json>): Option<string> {
    match json
    case Some(JObject(f)) =>
      if f.Keys == {"redacted", "redaction_id"} && f["redacted"] == JBool(true)
         && f["redaction_id"].JStr? && f["redaction_id"].s != ""
      then Some(f["redaction_id"].s)
      else None
    case _ => None
  }

  function RedactionMarker(c: Codec, payload: string): Option<string> {
    MarkerOf(c.parse(payload))
  }

  function MarkerJson(id: string): Json {
    JObject(map["redacted" := JBool(true), "redaction_id" := JStr(id)])
  }

  // ---- Announcements

  const EVENT_REDACTED := "event.redacted"

  datatype Announcement = Announcement(redactionId: string, headerHash: string, originalEventHash: string)

  /** dict.get(key), kept only when it is a string. */
  function StrField(f: map<string, Json>, key: string): Option<string> {
    if key in f && f[key].JStr? then Some(f[key].s) else None
  }

  function ReadEntry(entry: Json): Option<Announcement> {
    match entry
    case JObject(f) =>
      var id, hh, orig := StrField(f, "redaction_id"), StrField(f, "header_hash"), StrField(f, "original_event_hash");
      if id.Some? && id.value != "" && hh.Some? && orig.Some?
      then Some(Announcement(id.value, hh.value, orig.value))
      else None
    case _ => None
  }

  function ReadEntries(entries: seq<Json>): seq<Announcement> {
    if entries == [] then []
    else
      var n := |entries| - 1;
      ReadEntries(entries[..n]) + match ReadEntry(entries[n]) { case Some(a) => [a] case None => [] }
  }

  function EntryList(json: Option<Json>): seq<Json> {
    match json
    case Some(JObject(f)) =>
      if "redactions" in f && f["redactions"].JList? then f["redactions"].items else []
    case _ => []
  }

  /** The redactions an event names: none unless it is an event.redacted event. */
  function Announced(c: Codec, eventType: string, payload: string): seq<Announcement> {
    if eventType != EVENT_REDACTED then [] else ReadEntries(EntryList(c.parse(payload)))
  }

  method AnnouncedRedactions(c: Codec, eventType: string, payload: string) returns (result: seq<Announcement>)
    ensures result == Announced(c, eventType, payload)
  {
    if eventType != EVENT_REDACTED {
      return [];
    }
    var entries := EntryList(c.parse(payload));
    result := [];
    for i := 0 to |entries|
      invariant result == ReadEntries(entries[..i])
    {
      assert entries[..i+1][..i] == entries[..i];
      var entry := ReadEntry(entries[i]);
      if entry.Some? {
        result := result + [entry.value];
      }
    }
    assert entries[..|entries|] == entries;
  }

  /** An object with these three strings, the id not empty. */
  predicate Tells(entry: Json, a: Announcement) {
    && entry.JObject? && a.redactionId != ""
    && "redaction_id" in entry.fields && entry.fields["redaction_id"] == JStr(a.redactionId)
    && "header_hash" in entry.fields && entry.fields["header_hash"] == JStr(a.headerHash)
    && "original_event_hash" in entry.fields && entry.fields["original_event_hash"] == JStr(a.originalEventHash)
  }

  lemma {:induction false} EntriesTell(entries: seq<Json>, a: Announcement)
    ensures a in ReadEntries(entries) <==> exists entry <- entries :: Tells(entry, a)
  {
    if entries != [] {
      var n := |entries| - 1;
      EntriesTell(entries[..n], a);
      assert entries == entries[..n] + [entries[n]];
      assert ReadEntry(entries[n]) == Some(a) <==> Tells(entries[n], a);
    }
  }

  /** An event announces exactly what the objects in the redactions list of an event.redacted payload tell. */
  lemma AnnouncedIff(c: Codec, eventType: string, payload: string, a: Announcement)
    ensures a in Announced(c, eventType, payload)
            <==> && eventType == "event.redacted"
                 && var json := c.parse(payload);
                    && json.Some? && json.value.JObject? && "redactions" in json.value.fields
                    && json.value.fields["redactions"].JList?
                    && exists entry <- json.value.fields["redactions"].items :: Tells(entry, a)
  {
    EntriesTell(EntryList(c.parse(payload)), a);
    hide ReadEntries, Tells;
  }

  /** A payload is a marker exactly if it is an object of those two fields and no other, with an id that is not empty. */
  lemma MarkerIff(c: Codec, payload: string, id: string)
    ensures RedactionMarker(c, payload) == Some(id)
            <==> id != "" && c.parse(payload) == Some(JObject(map["redacted" := JBool(true), "redaction_id" := JStr(id)]))
  {
    var marker := map["redacted" := JBool(true), "redaction_id" := JStr(id)];
    assert marker.Keys == {"redacted", "redaction_id"};
    match c.parse(payload)
    case Some(JObject(f)) =>
      if RedactionMarker(c, payload) == Some(id) {
        assert f == marker;
      }
    case _ =>
  }

  function EntryJson(a: Announcement): Json {
    JObject(map["redaction_id" := JStr(a.redactionId),
                "header_hash" := JStr(a.headerHash),
                "original_event_hash" := JStr(a.originalEventHash)])
  }

  function EntriesJson(notes: seq<Announcement>): seq<Json> {
    seq(|notes|, i requires 0 <= i < |notes| => EntryJson(notes[i]))
  }

  function AnnouncementJson(notes: seq<Announcement>): Json {
    JObject(map["redactions" := JList(EntriesJson(notes)), "count" := JNum(|notes|)])
  }

  /** A marker never announces, so a row is a marker or an announcement, not both. */
  lemma MarkersAnnounceNothing(c: Codec, row: Row)
    requires RedactionMarker(c, row.payload).Some?
    ensures Announced(c, row.eventType, row.payload) == []
  {
    var Some(JObject(f)) := c.parse(row.payload);
    assert "redactions" !in f.Keys;
  }

  /** Reading back a marker gives the id it was written with. */
  lemma MarkerRoundTrip(c: Codec, id: string)
    requires Faithful(c) && id != ""
    ensures RedactionMarker(c, c.dumps(MarkerJson(id))) == Some(id)
  {
    assert c.parse(c.dumps(MarkerJson(id))) == Some(MarkerJson(id));
    assert MarkerJson(id).fields.Keys == {"redacted", "redaction_id"};
  }

  lemma {:induction false} ReadEntriesRoundTrip(notes: seq<Announcement>)
    requires forall n <- notes :: n.redactionId != ""
    ensures ReadEntries(EntriesJson(notes)) == notes
  {
    if notes != [] {
      var n := |notes| - 1;
      ReadEntriesRoundTrip(notes[..n]);
      assert EntriesJson(notes)[..n] == EntriesJson(notes[..n]);
      assert EntriesJson(notes)[n] == EntryJson(notes[n]);
      assert ReadEntry(EntryJson(notes[n])) == Some(notes[n]);
      assert notes == notes[..n] + [notes[n]];
    }
  }

  /** The verifier reads out of an event.redacted payload exactly what the erasure put in. */
  lemma AnnouncementRoundTrip(c: Codec, notes: seq<Announcement>)
    requires Faithful(c)
    requires forall n <- notes :: n.redactionId != ""
    ensures Announced(c, EVENT_REDACTED, c.dumps(AnnouncementJson(notes))) == notes
    ensures RedactionMarker(c, c.dumps(AnnouncementJson(notes))).None?
  {
    var json := AnnouncementJson(notes);
    assert c.parse(c.dumps(json)) == Some(json);
    assert "count" in json.fields.Keys;
    assert EntryList(Some(json)) == EntriesJson(notes);
    ReadEntriesRoundTrip(notes);
  }
}
