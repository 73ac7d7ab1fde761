/**
 The search index beside the rows it copies (src/multiplayer/db/repositories.py): what the write paths index,
 and what a backfill would compute from the rows alone. Erasure, which also deletes documents, is not in it.
 */
module SearchIndex {
  import opened Prelude

  datatype Kind = ArtifactVersion | TaskTitle | AgentOutput | DecisionText

  datatype Key = Key(kind: Kind, id: string)

  datatype Doc = Doc(roomId: string, containerId: string, authorId: string, content: string, createdAt: int)

  datatype Version = Version(artifactId: string, number: int, content: string, createdBy: string, createdAt: int)

  /** A task, an output or a decision, with the text of it that is indexed. */
  datatype Item = Item(roomId: string, createdBy: string, text: string, createdAt: int)

  /** artifacts maps an artifact to its room. */
  datatype Source = Source(rooms: set<string>, artifacts: map<string, string>, versions: map<string, Version>,
                           tasks: map<string, Item>, outputs: map<string, Item>, decisions: map<string, Item>)

  /** The rows and search_documents by their UNIQUE(object_kind, object_id). */
  datatype State = State(source: Source, docs: map<Key, Doc>)

  datatype Refusal = DomainError | IntegrityError

  // ---- The projection

  predicate Newest(versions: map<string, Version>, id: string) {
    && id in versions
    && forall other <- versions :: versions[other].artifactId == versions[id].artifactId
                                   ==> versions[other].number <= versions[id].number
  }

  function ItemDoc(item: Item): Doc {
    Doc(item.roomId, "", item.createdBy, item.text, item.createdAt)
  }

  function VersionDoc(s: Source, v: Version): Doc
    requires v.artifactId in s.artifacts
  {
    Doc(s.artifacts[v.artifactId], v.artifactId, v.createdBy, v.content, v.createdAt)
  }

  function ItemsOf(s: Source, kind: Kind): map<string, Item> {
    match kind
    case TaskTitle => s.tasks
    case AgentOutput => s.outputs
    case DecisionText => s.decisions
    case ArtifactVersion => map[]
  }

  /** The document a row ought to have: the newest version of each artifact, and every other row, if its room exists. */
  function Expected(s: Source, key: Key): Option<Doc> {
    if key.kind.ArtifactVersion? then
      if Newest(s.versions, key.id) && s.versions[key.id].artifactId in s.artifacts
         && s.artifacts[s.versions[key.id].artifactId] in s.rooms
      then Some(VersionDoc(s, s.versions[key.id]))
      else None
    else
      var items := ItemsOf(s, key.kind);
      if key.id in items && items[key.id].roomId in s.rooms then Some(ItemDoc(items[key.id])) else None
  }

  function Lookup(docs: map<Key, Doc>, key: Key): Option<Doc> {
    if key in docs then Some(docs[key]) else None
  }

  ghost predicate Agrees(t: State) {
    forall key: Key :: Lookup(t.docs, key) == Expected(t.source, key)
  }

  /** Every document there is one the projection has. */
  ghost predicate Partial(t: State) {
    forall key <- t.docs :: Expected(t.source, key) == Some(t.docs[key])
  }

  // ---- Backfill

  function SelectVersions(s: Source): map<Key, Doc> {
    map id | id in s.versions && Newest(s.versions, id) && s.versions[id].artifactId in s.artifacts
             && s.artifacts[s.versions[id].artifactId] in s.rooms
      :: Key(ArtifactVersion, id) := VersionDoc(s, s.versions[id])
  }

  function SelectItems(s: Source, kind: Kind): map<Key, Doc> {
    var items := ItemsOf(s, kind);
    map id | id in items && items[id].roomId in s.rooms :: Key(kind, id) := ItemDoc(items[id])
  }

  /** INSERT OR IGNORE: what is there already stays. */
  function InsertOrIgnore(docs: map<Key, Doc>, selected: map<Key, Doc>): map<Key, Doc> {
    selected + docs
  }

  function Backfill(t: State): State {
    var d1 := InsertOrIgnore(t.docs, SelectVersions(t.source));
    var d2 := InsertOrIgnore(d1, SelectItems(t.source, TaskTitle));
    var d3 := InsertOrIgnore(d2, SelectItems(t.source, AgentOutput));
    t.(docs := InsertOrIgnore(d3, SelectItems(t.source, DecisionText)))
  }

  lemma SelectedIsExpected(s: Source, key: Key)
    ensures Lookup(SelectVersions(s), key) == if key.kind.ArtifactVersion? then Expected(s, key) else None
    ensures forall kind: Kind :: !kind.ArtifactVersion? ==>
              Lookup(SelectItems(s, kind), key) == if key.kind == kind then Expected(s, key) else None
  {
    assert key == Key(key.kind, key.id);
  }

  lemma IgnoreMeans(docs: map<Key, Doc>, selected: map<Key, Doc>, key: Key)
    ensures Lookup(InsertOrIgnore(docs, selected), key) == if key in docs then Lookup(docs, key) else Lookup(selected, key)
  {
  }

  /** A backfill keeps every document there is, and adds exactly the missing ones of the projection. */
  lemma BackfillFills(t: State, key: Key)
    ensures Lookup(Backfill(t).docs, key) == if key in t.docs then Some(t.docs[key]) else Expected(t.source, key)
  {
    SelectedIsExpected(t.source, key);
    var d1 := InsertOrIgnore(t.docs, SelectVersions(t.source));
    var d2 := InsertOrIgnore(d1, SelectItems(t.source, TaskTitle));
    var d3 := InsertOrIgnore(d2, SelectItems(t.source, AgentOutput));
    IgnoreMeans(t.docs, SelectVersions(t.source), key);
    IgnoreMeans(d1, SelectItems(t.source, TaskTitle), key);
    IgnoreMeans(d2, SelectItems(t.source, AgentOutput), key);
    IgnoreMeans(d3, SelectItems(t.source, DecisionText), key);
    hide SelectVersions, SelectItems, InsertOrIgnore;
  }

  lemma SameLookups(a: map<Key, Doc>, b: map<Key, Doc>)
    requires forall key: Key :: Lookup(a, key) == Lookup(b, key)
    ensures a == b
  {
    assert forall key: Key :: key in a <==> Lookup(a, key).Some?;
    assert forall key: Key :: key in b <==> Lookup(b, key).Some?;
    assert forall key <- a :: a[key] == Lookup(a, key).value == b[key];
  }

  /** From any part of the projection a backfill computes the whole; over the whole it changes nothing. */
  lemma BackfillCompletes(t: State)
    requires Partial(t)
    ensures Agrees(Backfill(t))
    ensures Agrees(t) ==> Backfill(t) == t
  {
    var u := Backfill(t);
    assert u.source == t.source;
    hide Backfill, Expected;
    forall key: Key ensures Lookup(u.docs, key) == Expected(t.source, key) {
      BackfillFills(t, key);
    }
    if Agrees(t) {
      forall key: Key ensures Lookup(u.docs, key) == Lookup(t.docs, key) {
      }
      SameLookups(u.docs, t.docs);
    }
  }

  // ---- The write paths

  /** index: a document already there only takes the new content and container. */
  function Index(docs: map<Key, Doc>, key: Key, doc: Doc): map<Key, Doc> {
    if key in docs then docs[key := docs[key].(content := doc.content, containerId := doc.containerId)] else docs[key := doc]
  }

  function CreateArtifact(t: State, id: string, roomId: string): Result<State, Refusal> {
    if id in t.source.artifacts || roomId !in t.source.rooms then Err(IntegrityError)
    else Ok(t.(source := t.source.(artifacts := t.source.artifacts[id := roomId])))
  }

  /** The documents without those of one artifact's versions. */
  function WithoutVersionsOf(docs: map<Key, Doc>, versions: map<string, Version>, artifactId: string): map<Key, Doc> {
    map key | key in docs && !(key.kind.ArtifactVersion? && key.id in versions
                               && versions[key.id].artifactId == artifactId) :: docs[key]
  }

  /** create_version_in_transaction with _index_version_in_transaction. */
  function CreateVersion(t: State, id: string, v: Version): Result<State, Refusal> {
    if id in t.source.versions || v.artifactId !in t.source.artifacts
       || (exists other <- t.source.versions :: t.source.versions[other].artifactId == v.artifactId
                                                && t.source.versions[other].number == v.number)
    then Err(IntegrityError)
    else if t.source.artifacts[v.artifactId] !in t.source.rooms then Err(IntegrityError)
    else
      var versions := t.source.versions[id := v];
      var kept := WithoutVersionsOf(t.docs, versions, v.artifactId);
      Ok(State(t.source.(versions := versions), Index(kept, Key(ArtifactVersion, id), VersionDoc(t.source, v))))
  }

  function WithItem(s: Source, kind: Kind, id: string, item: Item): Source {
    match kind
    case TaskTitle => s.(tasks := s.tasks[id := item])
    case AgentOutput => s.(outputs := s.outputs[id := item])
    case DecisionText => s.(decisions := s.decisions[id := item])
    case ArtifactVersion => s
  }

  /** TaskRepo.create, DecisionRepo.create, and the output row of complete_execution. */
  function CreateItem(t: State, kind: Kind, id: string, item: Item): Result<State, Refusal>
    requires !kind.ArtifactVersion?
  {
    if id in ItemsOf(t.source, kind) || item.roomId !in t.source.rooms then Err(IntegrityError)
    else Ok(State(WithItem(t.source, kind, id, item), Index(t.docs, Key(kind, id), ItemDoc(item))))
  }

  /** TaskRepo.update: an UPDATE that may match no row, then the same indexing. */
  function UpdateTask(t: State, id: string, given: Item): Result<State, Refusal> {
    var key := Key(TaskTitle, id);
    if key !in t.docs && given.roomId !in t.source.rooms then Err(IntegrityError)
    else
      var tasks := if id in t.source.tasks then t.source.tasks[id := t.source.tasks[id].(text := given.text)]
                   else t.source.tasks;
      Ok(State(t.source.(tasks := tasks), Index(t.docs, key, ItemDoc(given))))
  }

  predicate Exceeds(versions: map<string, Version>, v: Version) {
    forall other <- versions :: versions[other].artifactId == v.artifactId ==> versions[other].number < v.number
  }

  lemma OldVersionsRetire(s: Source, id: string, v: Version, key: Key)
    requires id !in s.versions && Exceeds(s.versions, v) && key.kind.ArtifactVersion? && key.id != id
    ensures Newest(s.versions[id := v], key.id)
            <==> Newest(s.versions, key.id) && s.versions[key.id].artifactId != v.artifactId
  {
    var after := s.versions[id := v];
    if Newest(after, key.id) {
      assert forall other <- s.versions :: after[other] == s.versions[other];
      assert after[id].artifactId == after[key.id].artifactId ==> v.number <= after[key.id].number;
    }
  }

  /** Inserting a version keeps the index the projection exactly when its number exceeds all earlier ones of its artifact. */
  lemma VersionKeepsIff(t: State, id: string, v: Version)
    requires Agrees(t) && CreateVersion(t, id, v).Ok?
    ensures Agrees(CreateVersion(t, id, v).value) <==> Exceeds(t.source.versions, v)
  {
    var u := CreateVersion(t, id, v).value;
    var key := Key(ArtifactVersion, id);
    if Exceeds(t.source.versions, v) {
      forall k: Key ensures Lookup(u.docs, k) == Expected(u.source, k) {
        assert Lookup(t.docs, k) == Expected(t.source, k);
        if k.kind.ArtifactVersion? && k.id != id {
          OldVersionsRetire(t.source, id, v, k);
        }
      }
    } else {
      assert Lookup(u.docs, key).Some?;
      var other :| other in t.source.versions && t.source.versions[other].artifactId == v.artifactId
                   && t.source.versions[other].number >= v.number;
      assert u.source.versions[other].number > u.source.versions[id].number;
      assert Expected(u.source, key).None?;
    }
  }

  lemma ItemExpected(s: Source, kind: Kind, id: string, item: Item, k: Key)
    requires !kind.ArtifactVersion? && item.roomId in s.rooms
    ensures Expected(WithItem(s, kind, id, item), k) == if k == Key(kind, id) then Some(ItemDoc(item)) else Expected(s, k)
  {
  }

  lemma CreateItemKeeps(t: State, kind: Kind, id: string, item: Item)
    requires Agrees(t) && !kind.ArtifactVersion? && CreateItem(t, kind, id, item).Ok?
    ensures Agrees(CreateItem(t, kind, id, item).value)
  {
    var u := CreateItem(t, kind, id, item).value;
    assert Expected(t.source, Key(kind, id)).None?;
    hide Expected;
    forall k: Key ensures Lookup(u.docs, k) == Expected(u.source, k) {
      assert Lookup(t.docs, k) == Expected(t.source, k);
      ItemExpected(t.source, kind, id, item, k);
    }
  }

  /** Updating a task keeps the index the projection exactly when there is such a task; else it leaves a document without a row. */
  lemma UpdateKeepsIff(t: State, id: string, given: Item)
    requires Agrees(t) && UpdateTask(t, id, given).Ok?
    requires id in t.source.tasks ==> t.source.tasks[id].roomId in t.source.rooms
    ensures Agrees(UpdateTask(t, id, given).value) <==> id in t.source.tasks
  {
    var u := UpdateTask(t, id, given).value;
    var key := Key(TaskTitle, id);
    assert Lookup(t.docs, key) == Expected(t.source, key);
    if id in t.source.tasks {
      forall k: Key ensures Lookup(u.docs, k) == Expected(u.source, k) {
        assert Lookup(t.docs, k) == Expected(t.source, k);
      }
    } else {
      assert Lookup(u.docs, key).Some? && Expected(u.source, key).None?;
    }
  }

  lemma CreateArtifactKeeps(t: State, id: string, roomId: string)
    requires Agrees(t) && Placed(t.source) && CreateArtifact(t, id, roomId).Ok?
    ensures Agrees(CreateArtifact(t, id, roomId).value)
  {
    var u := CreateArtifact(t, id, roomId).value;
    forall k: Key ensures Lookup(u.docs, k) == Expected(u.source, k) {
      assert Lookup(t.docs, k) == Expected(t.source, k);
    }
  }

  // ---- Runs

  /** Foreign keys. */
  ghost predicate Placed(s: Source) {
    && (forall id <- s.versions :: s.versions[id].artifactId in s.artifacts)
    && (forall id <- s.tasks :: s.tasks[id].roomId in s.rooms)
  }

  datatype Action =
    | NewArtifact(id: string, roomId: string)
    | NewVersion(id: string, version: Version)
    | NewItem(kind: Kind, id: string, item: Item)
    | TaskUpdate(id: string, given: Item)
    | Fill

  function Apply(t: State, a: Action): Result<State, Refusal> {
    match a
    case NewArtifact(id, roomId) => CreateArtifact(t, id, roomId)
    case NewVersion(id, v) => CreateVersion(t, id, v)
    case NewItem(kind, id, item) => if kind.ArtifactVersion? then Err(DomainError) else CreateItem(t, kind, id, item)
    case TaskUpdate(id, given) => UpdateTask(t, id, given)
    case Fill => Ok(Backfill(t))
  }

  function After(t: State, a: Action): State {
    match Apply(t, a)
    case Ok(next) => next
    case Err(_) => t
  }

  /** The services number each version past its artifact's current one and update tasks they have read. */
  predicate Permitted(t: State, a: Action) {
    match a
    case NewVersion(_, v) => Exceeds(t.source.versions, v)
    case TaskUpdate(id, _) => id in t.source.tasks
    case _ => true
  }

  function Run(rooms: set<string>, actions: seq<Action>): State {
    if actions == [] then State(Source(rooms, map[], map[], map[], map[], map[]), map[])
    else After(Run(rooms, actions[..|actions| - 1]), actions[|actions| - 1])
  }

  predicate Lawful(rooms: set<string>, actions: seq<Action>) {
    actions == [] || (Lawful(rooms, actions[..|actions| - 1])
                      && Permitted(Run(rooms, actions[..|actions| - 1]), actions[|actions| - 1]))
  }

  lemma StepKeeps(t: State, a: Action)
    requires Agrees(t) && Placed(t.source) && Permitted(t, a)
    ensures Agrees(After(t, a)) && Placed(After(t, a).source)
  {
    if Apply(t, a).Ok? {
      match a
      case NewArtifact(id, roomId) => CreateArtifactKeeps(t, id, roomId);
      case NewVersion(id, v) => VersionKeepsIff(t, id, v);
      case NewItem(kind, id, item) => CreateItemKeeps(t, kind, id, item);
      case TaskUpdate(id, given) => UpdateKeepsIff(t, id, given);
      case Fill => FillKeeps(t);
    }
  }

  lemma FillKeeps(t: State)
    requires Agrees(t)
    ensures Backfill(t) == t
  {
    forall key | key in t.docs ensures Expected(t.source, key) == Some(t.docs[key]) {
      assert Lookup(t.docs, key) == Expected(t.source, key);
    }
    BackfillCompletes(t);
  }

  /** After every run of writes the index is exactly the projection, one version per artifact, and a backfill is a no-op. */
  lemma {:induction false} IndexIsProjection(rooms: set<string>, actions: seq<Action>)
    requires Lawful(rooms, actions)
    ensures Agrees(Run(rooms, actions)) && Placed(Run(rooms, actions).source)
    ensures Backfill(Run(rooms, actions)) == Run(rooms, actions)
  {
    if actions != [] {
      IndexIsProjection(rooms, actions[..|actions| - 1]);
      StepKeeps(Run(rooms, actions[..|actions| - 1]), actions[|actions| - 1]);
    }
    FillKeeps(Run(rooms, actions));
  }

  // ---- What the index says, column by column

  /** No version of its artifact has a higher number. */
  ghost predicate IsCurrent(s: Source, id: string) {
    id in s.versions && forall other <- s.versions ::
      s.versions[other].artifactId == s.versions[id].artifactId ==> s.versions[other].number <= s.versions[id].number
  }

  /** Each current version has a document of its artifact's room and its own words, author and time; no other version has one. */
  ghost predicate VersionsSaid(t: State) {
    forall id: string ::
      var key := Key(ArtifactVersion, id);
      && (key in t.docs <==> IsCurrent(t.source, id))
      && (key in t.docs ==>
            var v := t.source.versions[id];
            && v.artifactId in t.source.artifacts
            && t.docs[key].roomId == t.source.artifacts[v.artifactId] && t.docs[key].containerId == v.artifactId
            && t.docs[key].content == v.content && t.docs[key].authorId == v.createdBy && t.docs[key].createdAt == v.createdAt)
  }

  /** Each row has a document of its room, words, author and time, in no container. */
  ghost predicate ItemSaid(docs: map<Key, Doc>, kind: Kind, items: map<string, Item>, id: string) {
    var key := Key(kind, id);
    && (key in docs <==> id in items)
    && (id in items ==>
          && docs[key].roomId == items[id].roomId && docs[key].containerId == "" && docs[key].content == items[id].text
          && docs[key].authorId == items[id].createdBy && docs[key].createdAt == items[id].createdAt)
  }

  ghost predicate Housed(items: map<string, Item>, rooms: set<string>) {
    forall id <- items :: items[id].roomId in rooms
  }

  ghost predicate AllHoused(s: Source) {
    && Housed(s.tasks, s.rooms) && Housed(s.outputs, s.rooms) && Housed(s.decisions, s.rooms)
    && forall id <- s.artifacts :: s.artifacts[id] in s.rooms
  }

  /** What a write leaves in its own table, column by column, and when the keys let it. */
  lemma RowsWritten(t: State, id: string, v: Version, item: Item)
    ensures var r := Apply(t, NewVersion(id, v));
            && (r.Ok? <==> && id !in t.source.versions && v.artifactId in t.source.artifacts
                           && t.source.artifacts[v.artifactId] in t.source.rooms
                           && forall other <- t.source.versions :: t.source.versions[other].artifactId == v.artifactId
                                                                   ==> t.source.versions[other].number != v.number)
            && (r.Ok? ==> r.value.source == t.source.(versions := t.source.versions[id := v]))
    ensures var r := Apply(t, NewItem(TaskTitle, id, item));
            && (r.Ok? <==> id !in t.source.tasks && item.roomId in t.source.rooms)
            && (r.Ok? ==> r.value.source == t.source.(tasks := t.source.tasks[id := item]))
    ensures var r := Apply(t, NewItem(AgentOutput, id, item));
            && (r.Ok? <==> id !in t.source.outputs && item.roomId in t.source.rooms)
            && (r.Ok? ==> r.value.source == t.source.(outputs := t.source.outputs[id := item]))
    ensures var r := Apply(t, NewItem(DecisionText, id, item));
            && (r.Ok? <==> id !in t.source.decisions && item.roomId in t.source.rooms)
            && (r.Ok? ==> r.value.source == t.source.(decisions := t.source.decisions[id := item]))
    ensures var r := Apply(t, TaskUpdate(id, item));
            r.Ok? ==> r.value.source == if id !in t.source.tasks then t.source else
                                          var was := t.source.tasks[id];
                                          t.source.(tasks := t.source.tasks[id := Item(was.roomId, was.createdBy, item.text, was.createdAt)])
  {
    hide Index, WithoutVersionsOf;
  }

  lemma StepKeepsHoused(t: State, a: Action)
    requires AllHoused(t.source)
    ensures AllHoused(After(t, a).source)
  {
    hide Index, WithoutVersionsOf, Backfill, CreateVersion, CreateItem, UpdateTask;
    var nothing, nobody := Version("", 0, "", "", 0), Item("", "", "", 0);
    match a
    case NewArtifact(_, _) =>
    case NewVersion(id, v) => RowsWritten(t, id, v, nobody);
    case NewItem(_, id, item) => RowsWritten(t, id, nothing, item);
    case TaskUpdate(id, given) => RowsWritten(t, id, nothing, given);
    case Fill => BackfillKeepsSource(t);
  }

  lemma BackfillKeepsSource(t: State)
    ensures Backfill(t).source == t.source
  {
  }

  lemma {:induction false} EveryRunHouses(rooms: set<string>, actions: seq<Action>)
    ensures AllHoused(Run(rooms, actions).source)
  {
    if actions != [] {
      EveryRunHouses(rooms, actions[..|actions| - 1]);
      StepKeepsHoused(Run(rooms, actions[..|actions| - 1]), actions[|actions| - 1]);
    }
  }

  /**
   After every run of writes the index holds one document for the current version of each artifact that has one, and
   one for each task, output and decision, and no other; each says its row's room, container, words, author and time.
   */
  lemma IndexSaysItsRows(rooms: set<string>, actions: seq<Action>)
    requires Lawful(rooms, actions)
    ensures var t := Run(rooms, actions);
            && VersionsSaid(t)
            && forall id: string :: ItemSaid(t.docs, TaskTitle, t.source.tasks, id)
                                    && ItemSaid(t.docs, AgentOutput, t.source.outputs, id)
                                    && ItemSaid(t.docs, DecisionText, t.source.decisions, id)
  {
    IndexIsProjection(rooms, actions);
    EveryRunHouses(rooms, actions);
    var t := Run(rooms, actions);
    hide Run, Backfill, Lawful;
    AgreeingSays(t);
  }

  lemma AgreeingSays(t: State)
    requires Agrees(t) && Placed(t.source) && AllHoused(t.source)
    ensures VersionsSaid(t)
    ensures forall id: string :: ItemSaid(t.docs, TaskTitle, t.source.tasks, id)
                                 && ItemSaid(t.docs, AgentOutput, t.source.outputs, id)
                                 && ItemSaid(t.docs, DecisionText, t.source.decisions, id)
  {
    forall id: string ensures Lookup(t.docs, Key(ArtifactVersion, id)) == Expected(t.source, Key(ArtifactVersion, id)) {
    }
    forall id: string
      ensures ItemSaid(t.docs, TaskTitle, t.source.tasks, id) && ItemSaid(t.docs, AgentOutput, t.source.outputs, id)
              && ItemSaid(t.docs, DecisionText, t.source.decisions, id)
    {
      assert Lookup(t.docs, Key(TaskTitle, id)) == Expected(t.source, Key(TaskTitle, id));
      assert Lookup(t.docs, Key(AgentOutput, id)) == Expected(t.source, Key(AgentOutput, id));
      assert Lookup(t.docs, Key(DecisionText, id)) == Expected(t.source, Key(DecisionText, id));
    }
  }

  // ---- The repositories

  class Repos {
    var source: Source
    var docs: map<Key, Doc>

    function Now(): State
      reads this
    {
      State(source, docs)
    }

    constructor (rooms: set<string>)
      ensures Now() == Run(rooms, [])
    {
      source, docs := Source(rooms, map[], map[], map[], map[], map[]), map[];
    }

    method IndexDocument(key: Key, doc: Doc)
      modifies this`docs
      ensures docs == Index(old(docs), key, doc)
    {
      if key in docs {
        docs := docs[key := docs[key].(content := doc.content, containerId := doc.containerId)];
      } else {
        docs := docs[key := doc];
      }
    }

    method InsertVersion(id: string, v: Version) returns (r: Result<(), Refusal>)
      modifies this
      ensures match CreateVersion(old(Now()), id, v)
              case Ok(t) => Now() == t && r == Ok(())
              case Err(e) => Now() == old(Now()) && r == Err(e)
    {
      if id in source.versions || v.artifactId !in source.artifacts {
        return Err(IntegrityError);
      }
      if exists other <- source.versions :: source.versions[other].artifactId == v.artifactId
                                            && source.versions[other].number == v.number {
        return Err(IntegrityError);
      }
      if source.artifacts[v.artifactId] !in source.rooms {
        return Err(IntegrityError);
      }
      source := source.(versions := source.versions[id := v]);
      docs := WithoutVersionsOf(docs, source.versions, v.artifactId);
      IndexDocument(Key(ArtifactVersion, id), VersionDoc(source, v));
      r := Ok(());
    }

    method InsertItem(kind: Kind, id: string, item: Item) returns (r: Result<(), Refusal>)
      requires !kind.ArtifactVersion?
      modifies this
      ensures match CreateItem(old(Now()), kind, id, item)
              case Ok(t) => Now() == t && r == Ok(())
              case Err(e) => Now() == old(Now()) && r == Err(e)
    {
      if id in ItemsOf(source, kind) || item.roomId !in source.rooms {
        return Err(IntegrityError);
      }
      source := WithItem(source, kind, id, item);
      IndexDocument(Key(kind, id), ItemDoc(item));
      r := Ok(());
    }

    method RewriteTask(id: string, given: Item) returns (r: Result<(), Refusal>)
      modifies this
      ensures match UpdateTask(old(Now()), id, given)
              case Ok(t) => Now() == t && r == Ok(())
              case Err(e) => Now() == old(Now()) && r == Err(e)
    {
      var key := Key(TaskTitle, id);
      if key !in docs && given.roomId !in source.rooms {
        return Err(IntegrityError);
      }
      if id in source.tasks {
        source := source.(tasks := source.tasks[id := source.tasks[id].(text := given.text)]);
      }
      IndexDocument(key, ItemDoc(given));
      r := Ok(());
    }

    method FillIndex()
      modifies this`docs
      ensures Now() == Backfill(old(Now()))
    {
      docs := InsertOrIgnore(docs, SelectVersions(source));
      docs := InsertOrIgnore(docs, SelectItems(source, TaskTitle));
      docs := InsertOrIgnore(docs, SelectItems(source, AgentOutput));
      docs := InsertOrIgnore(docs, SelectItems(source, DecisionText));
    }
  }
}
