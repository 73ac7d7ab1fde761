/**
 Writing assertions over the room's projection (OntologyRepo.materialize_in_transaction in
 src/multiplayer/db/repositories.py): one row per source object, rewritten only by a later, different account
 of it and never once a person reviewed it.
 */
module Ontology {
  import opened Prelude

  datatype Key = Key(roomId: string, kind: string, sourceId: string)

  /** What one pass asserts about a source object; its id is a function of the key. */
  datatype Entity = Entity(key: Key, text: string, properties: string, evidence: string, sequence: int, reviewed: bool)

  datatype Row = Row(text: string, properties: string, evidence: string, sequence: int, reviewed: bool, stale: Option<int>)

  predicate Differs(row: Row, e: Entity) {
    row.text != e.text || row.properties != e.properties
  }

  /** The WHERE clause of the conflict update. */
  predicate Rewrites(row: Row, e: Entity) {
    e.sequence > row.sequence && Differs(row, e) && !row.reviewed
  }

  predicate Writes(rows: map<Key, Row>, e: Entity) {
    e.key in rows ==> Rewrites(rows[e.key], e)
  }

  function Upsert(rows: map<Key, Row>, e: Entity): map<Key, Row> {
    if e.key !in rows then rows[e.key := Row(e.text, e.properties, e.evidence, e.sequence, e.reviewed, None)]
    else if Rewrites(rows[e.key], e) then
      rows[e.key := Row(e.text, e.properties, e.evidence, e.sequence, false, None)]
    else rows
  }

  /** _reconcile_reviewed: a reviewed row stands before this account and disagrees with it. */
  predicate Disagrees(rows: map<Key, Row>, e: Entity) {
    e.key in rows && rows[e.key].reviewed && rows[e.key].sequence < e.sequence && Differs(rows[e.key], e)
  }

  function Materialize(rows: map<Key, Row>, batch: seq<Entity>): map<Key, Row> {
    if batch == [] then rows else Upsert(Materialize(rows, batch[..|batch| - 1]), batch[|batch| - 1])
  }

  function Written(rows: map<Key, Row>, batch: seq<Entity>): nat {
    if batch == [] then 0
    else
      var before := batch[..|batch| - 1];
      Written(rows, before) + if Writes(Materialize(rows, before), batch[|batch| - 1]) then 1 else 0
  }

  function Reconciled(rows: map<Key, Row>, batch: seq<Entity>): seq<Key> {
    if batch == [] then []
    else
      var before := batch[..|batch| - 1];
      var e := batch[|batch| - 1];
      Reconciled(rows, before) + if Disagrees(Materialize(rows, batch), e) then [e.key] else []
  }

  class OntologyRepo {
    var rows: map<Key, Row>

    constructor ()
      ensures rows == map[]
    {
      rows := map[];
    }

    method MaterializeBatch(batch: seq<Entity>) returns (written: nat, reconciled: seq<Key>)
      modifies this
      ensures rows == Materialize(old(rows), batch)
      ensures written == Written(old(rows), batch) && reconciled == Reconciled(old(rows), batch)
    {
      written, reconciled := 0, [];
      for i := 0 to |batch|
        invariant rows == Materialize(old(rows), batch[..i])
        invariant written == Written(old(rows), batch[..i]) && reconciled == Reconciled(old(rows), batch[..i])
      {
        assert batch[..i + 1][..i] == batch[..i];
        var e := batch[i];
        if e.key !in rows {
          rows := rows[e.key := Row(e.text, e.properties, e.evidence, e.sequence, e.reviewed, None)];
          written := written + 1;
        } else if e.sequence > rows[e.key].sequence && Differs(rows[e.key], e) && !rows[e.key].reviewed {
          rows := rows[e.key := Row(e.text, e.properties, e.evidence, e.sequence, false, None)];
          written := written + 1;
        }
        if Disagrees(rows, e) {
          reconciled := reconciled + [e.key];
        }
      }
      assert batch[..|batch|] == batch;
    }
  }

  // ---- Over any run of passes

  /** Rows only move forward in the room's order, and a reviewed row does not move. */
  ghost predicate Forward(before: map<Key, Row>, after: map<Key, Row>) {
    forall k <- before :: && k in after && before[k].sequence <= after[k].sequence
                          && (before[k].reviewed ==> after[k] == before[k])
                          && (before[k].sequence == after[k].sequence ==> after[k] == before[k])
  }

  lemma {:induction false} MaterializeIsForward(rows: map<Key, Row>, batch: seq<Entity>)
    ensures Forward(rows, Materialize(rows, batch))
  {
    if batch != [] {
      MaterializeIsForward(rows, batch[..|batch| - 1]);
    }
  }

  function Passes(rows: map<Key, Row>, batches: seq<seq<Entity>>): map<Key, Row> {
    if batches == [] then rows else Materialize(Passes(rows, batches[..|batches| - 1]), batches[|batches| - 1])
  }

  lemma {:induction false} EveryRunIsForward(rows: map<Key, Row>, batches: seq<seq<Entity>>)
    ensures Forward(rows, Passes(rows, batches))
  {
    if batches != [] {
      EveryRunIsForward(rows, batches[..|batches| - 1]);
      MaterializeIsForward(Passes(rows, batches[..|batches| - 1]), batches[|batches| - 1]);
    }
  }

  // ---- A second pass

  /** A batch writes nothing exactly when each of its accounts meets a row that is no older, or agrees, or is reviewed. */
  lemma {:induction false} WritesNothingIff(rows: map<Key, Row>, batch: seq<Entity>)
    ensures Written(rows, batch) == 0 <==> forall e <- batch :: !Writes(rows, e)
    ensures Written(rows, batch) == 0 ==> Materialize(rows, batch) == rows
  {
    if batch != [] {
      var n := |batch| - 1;
      assert batch == batch[..n] + [batch[n]];
      WritesNothingIff(rows, batch[..n]);
    }
  }

  predicate Disagree(a: Entity, b: Entity) {
    a.text != b.text || a.properties != b.properties
  }

  /** An account of an object that comes after a later, different account of it. */
  predicate OutOfOrder(batch: seq<Entity>, i: nat, j: nat)
    requires i < j < |batch|
  {
    batch[i].key == batch[j].key && batch[j].sequence < batch[i].sequence && Disagree(batch[i], batch[j])
  }

  ghost predicate Consistent(batch: seq<Entity>) {
    forall i, j :: 0 <= i < j < |batch| ==> !OutOfOrder(batch, i, j)
  }

  /** A batch without such a pair leaves no account it would still write. */
  lemma {:induction false} ConsistentBatchSettles(rows: map<Key, Row>, batch: seq<Entity>)
    requires Consistent(batch)
    ensures forall e <- batch :: !Writes(Materialize(rows, batch), e)
  {
    if batch != [] {
      var n := |batch| - 1;
      var before := Materialize(rows, batch[..n]);
      forall i, j | 0 <= i < j < n ensures !OutOfOrder(batch[..n], i, j) {
        assert !OutOfOrder(batch, i, j);
      }
      ConsistentBatchSettles(rows, batch[..n]);
      forall e | e in batch ensures !Writes(Materialize(rows, batch), e) {
        var i :| 0 <= i < |batch| && batch[i] == e;
        if i < n {
          assert e == batch[..n][i] && !Writes(before, e) && !OutOfOrder(batch, i, n);
        }
      }
    }
  }

  /** Materializing a consistent batch twice leaves the rows of once, and the second pass writes nothing. */
  lemma MaterializeTwice(rows: map<Key, Row>, batch: seq<Entity>)
    requires Consistent(batch)
    ensures var once := Materialize(rows, batch);
            Materialize(once, batch) == once && Written(once, batch) == 0
  {
    ConsistentBatchSettles(rows, batch);
    WritesNothingIff(Materialize(rows, batch), batch);
  }

  /** The accounts at the chosen places. */
  function Selection(batch: seq<Entity>, keep: nat -> bool): (r: seq<Entity>)
  {
    if batch == [] then []
    else Selection(batch[..|batch| - 1], keep) + if keep(|batch| - 1) then [batch[|batch| - 1]] else []
  }

  predicate StandsBefore(batch: seq<Entity>, b: nat, e: Entity)
    requires b <= |batch|
  {
    exists a :: 0 <= a < b && batch[a] == e
  }

  /** Each account of a selection stands in the batch, behind those selected before it. */
  lemma {:induction false} SelectedFrom(batch: seq<Entity>, keep: nat -> bool, j: nat) returns (b: nat)
    requires j < |Selection(batch, keep)|
    ensures b < |batch| && batch[b] == Selection(batch, keep)[j]
    ensures forall i :: 0 <= i < j ==> StandsBefore(batch, b, Selection(batch, keep)[i])
  {
    var n := |batch| - 1;
    var chosen, before := Selection(batch, keep), Selection(batch[..n], keep);
    if j < |before| {
      b := SelectedFrom(batch[..n], keep, j);
      forall i | 0 <= i < j ensures StandsBefore(batch, b, chosen[i]) {
        assert StandsBefore(batch[..n], b, before[i]);
        var a :| 0 <= a < b && batch[..n][a] == before[i];
        assert batch[a] == chosen[i];
      }
    } else {
      b := n;
      forall i | 0 <= i < j ensures StandsBefore(batch, b, chosen[i]) {
        var a := SelectedFrom(batch[..n], keep, i);
        assert batch[a] == chosen[i];
      }
    }
  }

  lemma SelectionIsConsistent(batch: seq<Entity>, keep: nat -> bool)
    requires Consistent(batch)
    ensures Consistent(Selection(batch, keep))
  {
    var chosen := Selection(batch, keep);
    forall i, j | 0 <= i < j < |chosen| ensures !OutOfOrder(chosen, i, j) {
      var b := SelectedFrom(batch, keep, j);
      assert StandsBefore(batch, b, chosen[i]);
      var a :| 0 <= a < b && batch[a] == chosen[i];
      assert !OutOfOrder(batch, a, b);
    }
  }

  lemma {:induction false} SelectNone(batch: seq<Entity>, keep: nat -> bool)
    requires forall k | 0 <= k < |batch| :: !keep(k)
    ensures Selection(batch, keep) == []
  {
    if batch != [] {
      SelectNone(batch[..|batch| - 1], keep);
    }
  }

  lemma {:induction false} SelectOne(batch: seq<Entity>, keep: nat -> bool, i: nat)
    requires i < |batch| && forall k | 0 <= k < |batch| :: keep(k) <==> k == i
    ensures Selection(batch, keep) == [batch[i]]
  {
    if i == |batch| - 1 {
      SelectNone(batch[..i], keep);
    } else {
      SelectOne(batch[..|batch| - 1], keep, i);
    }
  }

  lemma {:induction false} SelectTwo(batch: seq<Entity>, keep: nat -> bool, i: nat, j: nat)
    requires i < j < |batch| && forall k | 0 <= k < |batch| :: keep(k) <==> k == i || k == j
    ensures Selection(batch, keep) == [batch[i], batch[j]]
  {
    if j == |batch| - 1 {
      SelectOne(batch[..j], keep, i);
    } else {
      SelectTwo(batch[..|batch| - 1], keep, i, j);
    }
  }

  /** A second pass writes nothing. */
  predicate Quiet(rows: map<Key, Row>, batch: seq<Entity>) {
    Written(Materialize(rows, batch), batch) == 0
  }

  /**
   Whatever the rows are and whichever of a batch's accounts a pass makes, the same pass again writes nothing:
   exactly when no account of an object comes after a later, different account of it.
   */
  lemma QuietIffConsistent(batch: seq<Entity>)
    ensures (forall rows: map<Key, Row>, keep: nat -> bool :: Quiet(rows, Selection(batch, keep))) <==> Consistent(batch)
  {
    if Consistent(batch) {
      forall rows: map<Key, Row>, keep: nat -> bool ensures Quiet(rows, Selection(batch, keep)) {
        SelectionIsConsistent(batch, keep);
        MaterializeTwice(rows, Selection(batch, keep));
      }
    } else {
      var i, j :| 0 <= i < j < |batch| && OutOfOrder(batch, i, j);
      var a, b := batch[i], batch[j];
      var keep := k => k == i || k == j;
      var row := Row(a.text, a.properties, a.evidence, b.sequence - 1, false, None);
      SelectTwo(batch, keep, i, j);
      DisorderRewrites(a.key, a, b, row);
      assert !Quiet(map[a.key := row], Selection(batch, keep));
    }
  }

  /**
   Over a row that stands earlier and already agrees with the later account, a batch that gives the later account
   first lets the earlier one rewrite the row, and a second pass writes the later one; a third writes nothing.
   */
  lemma DisorderRewrites(key: Key, later: Entity, earlier: Entity, row: Row)
    requires later.key == earlier.key == key && row.sequence < earlier.sequence < later.sequence && !row.reviewed
    requires !Differs(row, later) && Differs(row, earlier)
    ensures var once := Materialize(map[key := row], [later, earlier]);
            && once[key].sequence == earlier.sequence
            && Written(once, [later, earlier]) == 1
            && var twice := Materialize(once, [later, earlier]);
               twice[key].sequence == later.sequence && Written(twice, [later, earlier]) == 0
  {
    var rows := map[key := row];
    TwoSteps(rows, later, earlier);
    var once := Upsert(rows, earlier);
    TwoSteps(once, later, earlier);
    var twice := Upsert(once, later);
    TwoSteps(twice, later, earlier);
  }

  lemma TwoSteps(rows: map<Key, Row>, a: Entity, b: Entity)
    ensures Materialize(rows, [a, b]) == Upsert(Upsert(rows, a), b)
    ensures Written(rows, [a, b]) == (if Writes(rows, a) then 1 else 0) + (if Writes(Upsert(rows, a), b) then 1 else 0)
  {
    assert [a, b][..1] == [a] && [a][..0] == [];
    assert Materialize(rows, [a]) == Upsert(rows, a);
    assert Written(rows, [a]) == if Writes(rows, a) then 1 else 0;
  }

  /** For one batch as a whole such a pair may still do no harm, where a yet later account agrees with the first. */
  lemma DisorderMayBeHarmless(rows: map<Key, Row>, a: Entity, b: Entity, c: Entity)
    requires a.key == b.key == c.key && b.sequence < a.sequence < c.sequence && Disagree(a, b) && !Disagree(a, c)
    ensures OutOfOrder([a, b, c], 0, 1) && Quiet(rows, [a, b, c])
  {
    var batch := [a, b, c];
    assert batch[..0] == [] && batch[..1] == [a] && batch[..2] == [a, b] && batch[..3] == batch;
    OneStep(rows, batch, 0);
    OneStep(rows, batch, 1);
    OneStep(rows, batch, 2);
    assert Materialize(rows, batch) == Upsert(Upsert(Upsert(rows, a), b), c);
    hide Materialize;
    WritesNothingIff(Materialize(rows, batch), batch);
    hide Written;
    HarmlessUpserts(rows, a, b, c);
    hide Upsert, Writes;
  }

  lemma HarmlessUpserts(rows: map<Key, Row>, a: Entity, b: Entity, c: Entity)
    requires a.key == b.key == c.key && b.sequence < a.sequence < c.sequence && !Disagree(a, c)
    ensures var once := Upsert(Upsert(Upsert(rows, a), b), c);
            !Writes(once, a) && !Writes(once, b) && !Writes(once, c)
  {
  }

  // ---- Exactly when a second pass writes, for given rows

  /** Account i agreed with an older, unreviewed row and was skipped. */
  predicate Skipped(rows: map<Key, Row>, batch: seq<Entity>, i: nat)
    requires i < |batch|
  {
    var before, e := Materialize(rows, batch[..i]), batch[i];
    e.key in before && !before[e.key].reviewed && before[e.key].sequence < e.sequence && !Differs(before[e.key], e)
  }

  predicate WrittenAt(rows: map<Key, Row>, batch: seq<Entity>, j: nat)
    requires j < |batch|
  {
    Writes(Materialize(rows, batch[..j]), batch[j])
  }

  /** The last account of its object that the pass wrote. */
  predicate LastWritten(rows: map<Key, Row>, batch: seq<Entity>, j: nat)
    requires j < |batch|
  {
    WrittenAt(rows, batch, j)
    && forall k | j < k < |batch| :: batch[k].key == batch[j].key ==> !WrittenAt(rows, batch, k)
  }

  /** Account i was skipped, and the earlier, different account j of its object had the last word. */
  predicate LostTo(rows: map<Key, Row>, batch: seq<Entity>, i: nat, j: nat)
    requires i < j < |batch|
  {
    Skipped(rows, batch, i) && LastWritten(rows, batch, j) && OutOfOrder(batch, i, j)
  }

  lemma OneStep(rows: map<Key, Row>, batch: seq<Entity>, i: nat)
    requires i < |batch|
    ensures Materialize(rows, batch[..i + 1]) == Upsert(Materialize(rows, batch[..i]), batch[i])
  {
    assert batch[..i + 1][..i] == batch[..i];
  }

  lemma {:induction false} PrefixIsForward(rows: map<Key, Row>, batch: seq<Entity>, n: nat, m: nat)
    requires n <= m <= |batch|
    ensures Forward(Materialize(rows, batch[..n]), Materialize(rows, batch[..m]))
    decreases m
  {
    if n < m {
      PrefixIsForward(rows, batch, n, m - 1);
      OneStep(rows, batch, m - 1);
    }
  }

  /** The rows after n accounts of the batch. */
  function At(rows: map<Key, Row>, batch: seq<Entity>, n: nat): map<Key, Row>
    requires n <= |batch|
  {
    Materialize(rows, batch[..n])
  }

  lemma UnlessWritten(rows: map<Key, Row>, batch: seq<Entity>, i: nat, key: Key)
    requires i < |batch| && !(batch[i].key == key && WrittenAt(rows, batch, i))
    ensures var before, after := At(rows, batch, i), At(rows, batch, i + 1);
            (key in after <==> key in before) && (key in before ==> after[key] == before[key])
  {
    OneStep(rows, batch, i);
  }

  /** Between two points at which an object's row differs, one account wrote it last. */
  lemma {:induction false} SomeoneWrote(rows: map<Key, Row>, batch: seq<Entity>, n: nat, m: nat, key: Key) returns (j: nat)
    requires n <= m <= |batch| && key in At(rows, batch, n) && key in At(rows, batch, m)
    requires At(rows, batch, n)[key] != At(rows, batch, m)[key]
    ensures n <= j < m && batch[j].key == key && WrittenAt(rows, batch, j)
    ensures forall k | j < k < m :: batch[k].key == key ==> !WrittenAt(rows, batch, k)
    ensures key in At(rows, batch, j + 1) && At(rows, batch, j + 1)[key] == At(rows, batch, m)[key]
    decreases m
  {
    hide At, WrittenAt;
    if batch[m - 1].key == key && WrittenAt(rows, batch, m - 1) {
      j := m - 1;
    } else {
      UnlessWritten(rows, batch, m - 1, key);
      j := SomeoneWrote(rows, batch, n, m - 1, key);
    }
  }

  lemma {:induction false} NobodyWrote(rows: map<Key, Row>, batch: seq<Entity>, n: nat, m: nat, key: Key)
    requires n <= m <= |batch| && key in Materialize(rows, batch[..n])
    requires forall k | n <= k < m :: batch[k].key == key ==> !WrittenAt(rows, batch, k)
    ensures key in Materialize(rows, batch[..m])
    ensures Materialize(rows, batch[..m])[key] == Materialize(rows, batch[..n])[key]
    decreases m
  {
    if n < m {
      NobodyWrote(rows, batch, n, m - 1, key);
      UnlessWritten(rows, batch, m - 1, key);
    }
  }

  /** New, or later and different over a row nobody reviewed. */
  predicate TakesOver(rows: map<Key, Row>, e: Entity) {
    e.key !in rows || (&& rows[e.key].sequence < e.sequence && !rows[e.key].reviewed
                       && (rows[e.key].text != e.text || rows[e.key].properties != e.properties))
  }

  /** The account, column by column; only a first account may come reviewed. */
  predicate Says(row: Row, e: Entity, first: bool) {
    && row.text == e.text && row.properties == e.properties && row.evidence == e.evidence && row.sequence == e.sequence
    && row.reviewed == (first && e.reviewed) && row.stale == None
  }

  lemma {:induction false} NobodyAdded(rows: map<Key, Row>, batch: seq<Entity>, n: nat, m: nat, key: Key)
    requires n <= m <= |batch| && key !in At(rows, batch, n)
    requires forall k | n <= k < m :: batch[k].key == key ==> !WrittenAt(rows, batch, k)
    ensures key !in At(rows, batch, m)
    decreases m
  {
    if n < m {
      NobodyAdded(rows, batch, n, m - 1, key);
      UnlessWritten(rows, batch, m - 1, key);
    }
  }

  /**
   After a pass an object's row says, column by column, the last account that took the row over; an object none of whose
   accounts did, has the row it had, or none.
   */
  lemma LastWordStands(rows: map<Key, Row>, batch: seq<Entity>, j: nat, key: Key)
    requires j < |batch| && batch[j].key == key
    ensures WrittenAt(rows, batch, j) <==> TakesOver(At(rows, batch, j), batch[j])
    ensures LastWritten(rows, batch, j) ==>
              var after := Materialize(rows, batch);
              key in after && Says(after[key], batch[j], key !in At(rows, batch, j))
    ensures (forall k :: 0 <= k < |batch| && batch[k].key == key ==> !WrittenAt(rows, batch, k)) ==>
              var after := Materialize(rows, batch);
              (key in after <==> key in rows) && (key in rows ==> after[key] == rows[key])
  {
    assert batch[..|batch|] == batch && batch[..0] == [];
    OneStep(rows, batch, j);
    if LastWritten(rows, batch, j) {
      NobodyWrote(rows, batch, j + 1, |batch|, key);
    }
    if forall k :: 0 <= k < |batch| && batch[k].key == key ==> !WrittenAt(rows, batch, k) {
      if key in rows {
        NobodyWrote(rows, batch, 0, |batch|, key);
      } else {
        NobodyAdded(rows, batch, 0, |batch|, key);
      }
    }
  }

  /** A reviewed row that is older than this account and says otherwise. */
  predicate Overrules(rows: map<Key, Row>, e: Entity) {
    && e.key in rows && rows[e.key].reviewed && rows[e.key].sequence < e.sequence
    && (rows[e.key].text != e.text || rows[e.key].properties != e.properties)
  }

  lemma OverrulesStays(rows: map<Key, Row>, e: Entity, next: Entity)
    requires e.key in rows
    ensures Overrules(Upsert(rows, next), e) <==> Overrules(rows, e)
  {
  }

  lemma {:induction false} AccountsHaveRows(rows: map<Key, Row>, batch: seq<Entity>)
    ensures forall e <- batch :: e.key in Materialize(rows, batch)
  {
    if batch != [] {
      var n := |batch| - 1;
      AccountsHaveRows(rows, batch[..n]);
      assert batch == batch[..n] + [batch[n]];
    }
  }

  /** The objects a pass reports are exactly those whose row, as it leaves them, a person's review holds against an account. */
  lemma {:induction false} ReconciledIff(rows: map<Key, Row>, batch: seq<Entity>, key: Key)
    ensures key in Reconciled(rows, batch) <==> exists e <- batch :: e.key == key && Overrules(Materialize(rows, batch), e)
  {
    if batch != [] {
      var n := |batch| - 1;
      var few, last := batch[..n], batch[n];
      ReconciledIff(rows, few, key);
      AccountsHaveRows(rows, few);
      assert batch == few + [last];
      forall e <- few ensures Overrules(Materialize(rows, batch), e) <==> Overrules(Materialize(rows, few), e) {
        OverrulesStays(Materialize(rows, few), e, last);
      }
      assert Disagrees(Materialize(rows, batch), last) <==> Overrules(Materialize(rows, batch), last);
      hide Materialize, Overrules, Disagrees;
    }
  }

  /**
   A second pass over given rows writes exactly when the first skipped an account as agreeing with an older row, and
   then let an earlier, different account of the same object have the last word.
   */
  lemma SecondPassWritesIff(rows: map<Key, Row>, batch: seq<Entity>)
    ensures !Quiet(rows, batch) <==> exists i, j :: 0 <= i < j < |batch| && LostTo(rows, batch, i, j)
  {
    var once := Materialize(rows, batch);
    WritesNothingIff(once, batch);
    hide Materialize, Writes, LostTo;
    if !Quiet(rows, batch) {
      var e :| e in batch && Writes(once, e);
      var i :| 0 <= i < |batch| && batch[i] == e;
      var j := Overtaken(rows, batch, i);
    }
    if i, j :| 0 <= i < j < |batch| && LostTo(rows, batch, i, j) {
      LostIsWritten(rows, batch, i, j);
      assert batch[i] in batch;
    }
  }

  lemma LostIsWritten(rows: map<Key, Row>, batch: seq<Entity>, i: nat, j: nat)
    requires i < j < |batch| && LostTo(rows, batch, i, j)
    ensures Writes(Materialize(rows, batch), batch[i])
  {
    assert batch[..|batch|] == batch;
    PrefixIsForward(rows, batch, i, j);
    OneStep(rows, batch, j);
    NobodyWrote(rows, batch, j + 1, |batch|, batch[i].key);
  }

  lemma Overtaken(rows: map<Key, Row>, batch: seq<Entity>, i: nat) returns (j: nat)
    requires i < |batch| && Writes(Materialize(rows, batch), batch[i])
    ensures i < j < |batch| && LostTo(rows, batch, i, j)
  {
    var once, key := Materialize(rows, batch), batch[i].key;
    assert batch[..|batch|] == batch;
    OneStep(rows, batch, i);
    PrefixIsForward(rows, batch, i, i + 1);
    PrefixIsForward(rows, batch, i + 1, |batch|);
    j := SomeoneWrote(rows, batch, i + 1, |batch|, key);
    OneStep(rows, batch, j);
  }

  // ---- Exactly when a second pass may write, for one batch alone

  /** An account that a row does not take which another account left. */
  predicate Passed(e: Entity, left: Entity) {
    e.sequence <= left.sequence || !Disagree(e, left)
  }

  predicate Among(batch: seq<Entity>, w: seq<nat>, key: Key, n: nat) {
    n <= |batch| && forall t :: 0 <= t < |w| ==> w[t] < n && batch[w[t]].key == key
  }

  predicate Follows(w: seq<nat>, t: nat, u: nat) {
    t + 1 == u < |w|
  }

  /** The accounts of w stand in order, each later than those before it, and disagreeing with the one before it. */
  predicate Climbs(batch: seq<Entity>, w: seq<nat>, key: Key, n: nat)
    requires Among(batch, w, key, n)
  {
    && (forall t, u :: 0 <= t < u < |w| ==> w[t] < w[u] && batch[w[t]].sequence < batch[w[u]].sequence)
    && (forall t, u :: 0 <= t < u < |w| && Follows(w, t, u) ==> Disagree(batch[w[t]], batch[w[u]]))
  }

  /** Which of w is the last before place k. */
  predicate LastBefore(w: seq<nat>, t: nat, k: nat) {
    t < |w| && w[t] < k && (t + 1 < |w| ==> k < w[t + 1])
  }

  /** Every other account of the object, once w has begun, is no later than the last of w before it or agrees with it. */
  predicate PassesOthers(batch: seq<Entity>, w: seq<nat>, key: Key, n: nat)
    requires Among(batch, w, key, n)
  {
    forall k, t :: 0 <= k < n && 0 <= t < |w| && batch[k].key == key && LastBefore(w, t, k) ==> Passed(batch[k], batch[w[t]])
  }

  /** An account before place j that is no earlier than account j. */
  predicate High(batch: seq<Entity>, j: nat, k: nat) {
    k < j < |batch| && batch[k].key == batch[j].key && batch[j].sequence <= batch[k].sequence
  }

  /** The accounts before j that are no earlier all agree, and not with j: one row can agree with them all. */
  predicate MayBegin(batch: seq<Entity>, j: nat)
    requires j < |batch|
  {
    && (forall k :: 0 <= k < j && High(batch, j, k) ==> Disagree(batch[k], batch[j]))
    && (forall k, l :: 0 <= k < j && 0 <= l < j && High(batch, j, k) && High(batch, j, l) ==> !Disagree(batch[k], batch[l]))
  }

  /** The places of one object's accounts among the first n that a pass may write, over some row. */
  predicate Rewriting(batch: seq<Entity>, w: seq<nat>, key: Key, n: nat) {
    && w != [] && Among(batch, w, key, n)
    && Climbs(batch, w, key, n) && PassesOthers(batch, w, key, n) && MayBegin(batch, w[0])
  }

  /** Account i is later than the last account such a pass writes of its object, and disagrees with it. */
  predicate Overtakes(batch: seq<Entity>, w: seq<nat>, i: nat) {
    && i < |batch| && Rewriting(batch, w, batch[i].key, |batch|)
    && batch[w[|w| - 1]].sequence < batch[i].sequence && Disagree(batch[i], batch[w[|w| - 1]])
  }

  /** The row stands as account e left it. */
  predicate LeftBy(row: Row, e: Entity) {
    row.sequence == e.sequence && !Differs(row, e) && !row.reviewed
  }

  // ---- Such accounts are written over some row

  /** Just earlier than the first of w, agreeing with the accounts before it that are no earlier. */
  ghost predicate Ready(row: Row, batch: seq<Entity>, j: nat)
    requires j < |batch|
  {
    && row.sequence == batch[j].sequence - 1 && !row.reviewed && Differs(row, batch[j])
    && forall k :: 0 <= k < j && High(batch, j, k) ==> !Differs(row, batch[k])
  }

  lemma SomeRowIsReady(batch: seq<Entity>, j: nat) returns (row: Row)
    requires j < |batch| && MayBegin(batch, j)
    ensures Ready(row, batch, j)
  {
    var e := batch[j];
    if k :| 0 <= k < j && High(batch, j, k) {
      row := Row(batch[k].text, batch[k].properties, "", e.sequence - 1, false, None);
    } else {
      row := Row(e.text + "x", e.properties, "", e.sequence - 1, false, None);
      assert |row.text| != |e.text|;
    }
  }

  /** What the row is after n accounts, t of w being among them. */
  ghost predicate Along(rows: map<Key, Row>, batch: seq<Entity>, w: seq<nat>, key: Key, n: nat, t: nat) {
    && n <= |batch| && t <= |w| && w != [] && w[0] < |batch| && (forall u :: 0 <= u < |w| ==> w[u] < |batch|)
    && (t > 0 ==> w[t - 1] < n) && (t < |w| ==> n <= w[t])
    && key in At(rows, batch, n)
    && if t == 0 then Ready(At(rows, batch, n)[key], batch, w[0]) else LeftBy(At(rows, batch, n)[key], batch[w[t - 1]])
  }

  lemma AlongOne(rows: map<Key, Row>, batch: seq<Entity>, w: seq<nat>, key: Key, n: nat, t: nat)
    requires Rewriting(batch, w, key, |batch|) && n < |batch| && Along(rows, batch, w, key, n, t)
    ensures Along(rows, batch, w, key, n + 1, if t < |w| && w[t] == n then t + 1 else t)
  {
    var row, e := At(rows, batch, n)[key], batch[n];
    if t < |w| && w[t] == n {
      OneStep(rows, batch, n);
      assert t > 0 ==> Follows(w, t - 1, t) && Disagree(batch[w[t - 1]], batch[w[t]]);
    } else {
      if e.key == key {
        if t == 0 {
          assert n < w[0] && (High(batch, w[0], n) ==> !Differs(row, e));
        } else {
          assert LastBefore(w, t - 1, n);
          assert Passed(e, batch[w[t - 1]]);
        }
      }
      UnlessWritten(rows, batch, n, key);
    }
  }

  lemma {:induction false} AlongAll(rows: map<Key, Row>, batch: seq<Entity>, w: seq<nat>, key: Key, n: nat) returns (t: nat)
    requires Rewriting(batch, w, key, |batch|) && n <= |batch|
    requires key in rows && Ready(rows[key], batch, w[0])
    ensures Along(rows, batch, w, key, n, t)
  {
    hide Ready, At;
    if n == 0 {
      t := 0;
      assert At(rows, batch, 0) == rows by {
        AtStart(rows, batch);
      }
    } else {
      var before := AlongAll(rows, batch, w, key, n - 1);
      hide Rewriting, Along;
      AlongOne(rows, batch, w, key, n - 1, before);
      t := if before < |w| && w[before] == n - 1 then before + 1 else before;
    }
  }

  lemma AtStart(rows: map<Key, Row>, batch: seq<Entity>)
    ensures At(rows, batch, 0) == rows && At(rows, batch, |batch|) == Materialize(rows, batch)
  {
    assert batch[..0] == [] && batch[..|batch|] == batch;
  }

  lemma OvertakenIsWritten(batch: seq<Entity>, w: seq<nat>, i: nat) returns (rows: map<Key, Row>)
    requires Overtakes(batch, w, i)
    ensures !Quiet(rows, batch)
  {
    var key := batch[i].key;
    var row := SomeRowIsReady(batch, w[0]);
    rows := map[key := row];
    var t := AlongAll(rows, batch, w, key, |batch|);
    AtStart(rows, batch);
    assert t == |w|;
    assert Writes(Materialize(rows, batch), batch[i]);
    WritesNothingIff(Materialize(rows, batch), batch);
  }

  // ---- And a pass that is followed by another write has written such accounts

  /** What the first n accounts did to an object's row, w being those that were written. */
  ghost predicate Traces(rows: map<Key, Row>, batch: seq<Entity>, w: seq<nat>, key: Key, n: nat)
    requires n <= |batch|
  {
    if w == [] then
      && (key in At(rows, batch, n) <==> key in rows) && (key in rows ==> At(rows, batch, n)[key] == rows[key])
      && forall k :: 0 <= k < n && batch[k].key == key ==> key in rows && !Writes(rows, batch[k])
    else
      && Rewriting(batch, w, key, n)
      && key in At(rows, batch, n) && LeftBy(At(rows, batch, n)[key], batch[w[|w| - 1]])
  }

  lemma FirstTraced(rows: map<Key, Row>, batch: seq<Entity>, key: Key, n: nat)
    requires n < |batch| && Traces(rows, batch, [], key, n) && batch[n].key == key && WrittenAt(rows, batch, n)
    requires key in At(rows, batch, n + 1) && !At(rows, batch, n + 1)[key].reviewed
    requires key in rows ==> !rows[key].reviewed
    ensures Traces(rows, batch, [n], key, n + 1)
  {
    OneStep(rows, batch, n);
    forall k | 0 <= k < n && High(batch, n, k) ensures Disagree(batch[k], batch[n]) && !Differs(rows[key], batch[k]) {
    }
  }

  lemma LastBeforeOn(w: seq<nat>, n: nat, t: nat, k: nat)
    requires LastBefore(w + [n], t, k) && k <= n
    ensures LastBefore(w, t, k)
  {
    var x := w + [n];
    assert x[|w|] == n && (t < |w| ==> x[t] == w[t]) && (t + 1 < |w| ==> x[t + 1] == w[t + 1]);
  }

  lemma PassesOn(batch: seq<Entity>, w: seq<nat>, key: Key, n: nat)
    requires Among(batch, w, key, n) && PassesOthers(batch, w, key, n) && Among(batch, w + [n], key, n + 1)
    ensures PassesOthers(batch, w + [n], key, n + 1)
  {
    var x := w + [n];
    hide Passed;
    forall k, t | 0 <= k < n + 1 && 0 <= t < |x| && batch[k].key == key && LastBefore(x, t, k)
      ensures Passed(batch[k], batch[x[t]])
    {
      LastBeforeOn(w, n, t, k);
      hide LastBefore;
    }
  }

  lemma StillClimbs(batch: seq<Entity>, w: seq<nat>, key: Key, n: nat)
    requires w != [] && Among(batch, w, key, n) && Climbs(batch, w, key, n) && Among(batch, w + [n], key, n + 1)
    requires batch[w[|w| - 1]].sequence < batch[n].sequence && Disagree(batch[w[|w| - 1]], batch[n])
    ensures Climbs(batch, w + [n], key, n + 1)
  {
    var x, last := w + [n], |w| - 1;
    hide Disagree;
    forall t, u | 0 <= t < u < |x|
      ensures x[t] < x[u] && batch[x[t]].sequence < batch[x[u]].sequence
      ensures Follows(x, t, u) ==> Disagree(batch[x[t]], batch[x[u]])
    {
      if u < |w| {
        assert x[t] == w[t] && x[u] == w[u] && (Follows(x, t, u) ==> Follows(w, t, u));
      } else {
        assert x[u] == n && x[t] == w[t] && batch[w[t]].sequence <= batch[w[last]].sequence;
      }
    }
  }

  lemma ClimbsOn(batch: seq<Entity>, w: seq<nat>, key: Key, n: nat)
    requires Rewriting(batch, w, key, n) && n < |batch| && batch[n].key == key
    requires batch[w[|w| - 1]].sequence < batch[n].sequence && Disagree(batch[w[|w| - 1]], batch[n])
    ensures Rewriting(batch, w + [n], key, n + 1)
  {
    var x := w + [n];
    assert x[0] == w[0] && x[|x| - 1] == n && forall t | 0 <= t < |w| :: x[t] == w[t];
    assert Among(batch, x, key, n + 1);
    hide Passed, Disagree, MayBegin, PassesOthers, Climbs;
    StillClimbs(batch, w, key, n);
    PassesOn(batch, w, key, n);
  }

  lemma NextTraced(rows: map<Key, Row>, batch: seq<Entity>, w: seq<nat>, key: Key, n: nat)
    requires n < |batch| && w != [] && Traces(rows, batch, w, key, n) && batch[n].key == key && WrittenAt(rows, batch, n)
    ensures Traces(rows, batch, w + [n], key, n + 1)
  {
    OneStep(rows, batch, n);
    assert batch[w[|w| - 1]].sequence < batch[n].sequence && Disagree(batch[w[|w| - 1]], batch[n]);
    assert key in At(rows, batch, n + 1) && LeftBy(At(rows, batch, n + 1)[key], batch[n]);
    hide At, WrittenAt, LeftBy;
    ClimbsOn(batch, w, key, n);
    hide Rewriting;
    assert (w + [n])[|w + [n]| - 1] == n;
  }

  lemma UntracedKeeps(rows: map<Key, Row>, batch: seq<Entity>, w: seq<nat>, key: Key, n: nat)
    requires n < |batch| && Traces(rows, batch, w, key, n) && !(batch[n].key == key && WrittenAt(rows, batch, n))
    ensures Traces(rows, batch, w, key, n + 1)
  {
    UnlessWritten(rows, batch, n, key);
    if w != [] {
      assert batch[n].key == key ==> Passed(batch[n], batch[w[|w| - 1]]);
      forall k, t | 0 <= k < n + 1 && 0 <= t && batch[k].key == key && LastBefore(w, t, k)
        ensures Passed(batch[k], batch[w[t]])
      {
      }
    }
  }

  lemma NeverReviewed(rows: map<Key, Row>, batch: seq<Entity>, key: Key, n: nat)
    requires n <= |batch| && key in At(rows, batch, |batch|) && !At(rows, batch, |batch|)[key].reviewed
    ensures key in rows ==> !rows[key].reviewed
    ensures key in At(rows, batch, n) ==> !At(rows, batch, n)[key].reviewed
  {
    AtStart(rows, batch);
    PrefixIsForward(rows, batch, n, |batch|);
    PrefixIsForward(rows, batch, 0, |batch|);
  }

  lemma TraceOneMore(rows: map<Key, Row>, batch: seq<Entity>, before: seq<nat>, key: Key, n: nat) returns (w: seq<nat>)
    requires n < |batch| && key in At(rows, batch, |batch|) && !At(rows, batch, |batch|)[key].reviewed
    requires Traces(rows, batch, before, key, n)
    ensures Traces(rows, batch, w, key, n + 1)
  {
    hide Traces, At, WrittenAt;
    w := before;
    if batch[n].key == key && WrittenAt(rows, batch, n) {
      NeverReviewed(rows, batch, key, n + 1);
      WrittenStands(rows, batch, n);
      if before == [] {
        FirstTraced(rows, batch, key, n);
        w := [n];
      } else {
        NextTraced(rows, batch, before, key, n);
        w := before + [n];
      }
    } else {
      UntracedKeeps(rows, batch, before, key, n);
    }
  }

  lemma {:induction false} TraceOf(rows: map<Key, Row>, batch: seq<Entity>, key: Key, n: nat) returns (w: seq<nat>)
    requires n <= |batch| && key in At(rows, batch, |batch|) && !At(rows, batch, |batch|)[key].reviewed
    ensures Traces(rows, batch, w, key, n)
  {
    if n == 0 {
      w := [];
      AtStart(rows, batch);
    } else {
      hide Traces, At;
      var before := TraceOf(rows, batch, key, n - 1);
      w := TraceOneMore(rows, batch, before, key, n - 1);
    }
  }

  lemma WrittenStands(rows: map<Key, Row>, batch: seq<Entity>, i: nat)
    requires i < |batch|
    ensures batch[i].key in At(rows, batch, i + 1)
  {
    OneStep(rows, batch, i);
  }

  lemma WrittenIsOvertaken(rows: map<Key, Row>, batch: seq<Entity>, i: nat) returns (w: seq<nat>)
    requires i < |batch| && Writes(Materialize(rows, batch), batch[i])
    ensures Overtakes(batch, w, i)
  {
    var key := batch[i].key;
    AtStart(rows, batch);
    PrefixIsForward(rows, batch, i + 1, |batch|);
    WrittenStands(rows, batch, i);
    w := TraceOf(rows, batch, key, |batch|);
  }

  /**
   One batch: whatever the rows are, a second pass writes nothing, exactly when no account is later than the last
   account that a pass may write of its object over some row, and disagrees with it.
   */
  lemma AlwaysQuietIff(batch: seq<Entity>)
    ensures (forall rows: map<Key, Row> :: Quiet(rows, batch)) <==> !exists w, i :: Overtakes(batch, w, i)
  {
    hide Overtakes;
    if w, i :| Overtakes(batch, w, i) {
      var rows := OvertakenIsWritten(batch, w, i);
      assert !Quiet(rows, batch);
    }
    if rows: map<Key, Row> :| !Quiet(rows, batch) {
      WritesNothingIff(Materialize(rows, batch), batch);
      var e :| e in batch && Writes(Materialize(rows, batch), e);
      var i :| 0 <= i < |batch| && batch[i] == e;
      var w := WrittenIsOvertaken(rows, batch, i);
      assert Overtakes(batch, w, i);
    }
  }

  // ---- How long it can go on

  /** The batch's accounts that are still later than their row. */
  function Behind(rows: map<Key, Row>, batch: seq<Entity>): set<nat> {
    set i: nat | i < |batch| && (batch[i].key in rows ==> rows[batch[i].key].sequence < batch[i].sequence)
  }

  function Again(rows: map<Key, Row>, batch: seq<Entity>, n: nat): map<Key, Row> {
    if n == 0 then rows else Materialize(Again(rows, batch, n - 1), batch)
  }

  lemma {:induction false} WrittenSomewhere(rows: map<Key, Row>, batch: seq<Entity>, n: nat) returns (j: nat)
    requires n <= |batch| && Written(rows, batch[..n]) > 0
    ensures j < n && WrittenAt(rows, batch, j)
  {
    assert batch[..n][..n - 1] == batch[..n - 1];
    if WrittenAt(rows, batch, n - 1) {
      j := n - 1;
    } else {
      j := WrittenSomewhere(rows, batch, n - 1);
    }
  }

  lemma SmallerSet(a: set<nat>, b: set<nat>, i: nat)
    requires a <= b && i in b && i !in a
    ensures |a| < |b|
  {
    assert b == (b - {i}) + {i} && a <= b - {i};
    SubsetIsNoLarger(a, b - {i});
  }

  lemma {:induction false} SubsetIsNoLarger(a: set<nat>, b: set<nat>)
    requires a <= b
    ensures |a| <= |b|
  {
    if a != {} {
      var x :| x in a;
      SubsetIsNoLarger(a - {x}, b - {x});
    }
  }

  /** A pass that writes leaves fewer accounts behind. */
  lemma WritingShrinks(rows: map<Key, Row>, batch: seq<Entity>)
    requires Written(rows, batch) > 0
    ensures |Behind(Materialize(rows, batch), batch)| < |Behind(rows, batch)|
  {
    assert batch[..|batch|] == batch && batch[..0] == [];
    var j := WrittenSomewhere(rows, batch, |batch|);
    OneStep(rows, batch, j);
    PrefixIsForward(rows, batch, 0, j);
    PrefixIsForward(rows, batch, j + 1, |batch|);
    MaterializeIsForward(rows, batch);
    SmallerSet(Behind(Materialize(rows, batch), batch), Behind(rows, batch), j);
  }

  function Below(n: nat): (r: set<nat>)
    ensures |r| == n && forall i: nat :: i in r <==> i < n
  {
    if n == 0 then {} else Below(n - 1) + {n - 1}
  }

  lemma BehindIsBounded(rows: map<Key, Row>, batch: seq<Entity>)
    ensures |Behind(rows, batch)| <= |batch|
  {
    SubsetIsNoLarger(Behind(rows, batch), Below(|batch|));
  }

  lemma {:induction false} QuietOrShrunk(rows: map<Key, Row>, batch: seq<Entity>, n: nat)
    ensures Written(Again(rows, batch, n), batch) == 0 || |Behind(Again(rows, batch, n), batch)| + n <= |batch|
  {
    if n == 0 {
      BehindIsBounded(rows, batch);
    } else {
      var before := Again(rows, batch, n - 1);
      QuietOrShrunk(rows, batch, n - 1);
      if Written(before, batch) == 0 {
        WritesNothingIff(before, batch);
      } else {
        WritingShrinks(before, batch);
      }
    }
  }

  /** However often a batch is materialized, no pass after the first |batch| writes anything. */
  lemma PassesFallQuiet(rows: map<Key, Row>, batch: seq<Entity>, n: nat)
    requires n >= |batch|
    ensures Written(Again(rows, batch, n), batch) == 0 && Again(rows, batch, n + 1) == Again(rows, batch, n)
  {
    var late := Again(rows, batch, n);
    QuietOrShrunk(rows, batch, n);
    if Written(late, batch) > 0 {
      WritingShrinks(late, batch);
    }
    WritesNothingIff(late, batch);
  }
}
