/** The content_objects table: compare-and-swap updates, the representation claim and the
    queries of the maintenance pass. */
module ContentRepository {
  import opened Basics
  import opened ContentModels

  /** The guard shared by the compare-and-swap updates. */
  predicate At(rows: Rows, id: ContentId, state: ContentState, revision: nat) {
    id in rows && rows[id].state == state && rows[id].revision == revision
  }

  predicate CanPublish(rows: Rows, id: ContentId, revision: nat) {
    At(rows, id, Creating, revision) && rows[id].sha256.Some? && rows[id].size.Some?
  }

  predicate CanInspect(rows: Rows, id: ContentId, revision: nat) {
    At(rows, id, Available, revision) && rows[id].inspection.None?
  }

  function NewRow(owner: string, origin: Option<Identity>, now: int): Row {
    Row(owner, origin, Creating, 1, None, None, None, None, None, None, now)
  }

  function StagedRow(row: Row, blob: StagedBlob, now: int): Row {
    row.(stagingKey := Some(blob.handle), sha256 := Some(blob.sha256), size := Some(blob.size),
         updatedAt := now, revision := row.revision + 1)
  }

  function PublishedRow(row: Row, key: StorageKey, now: int): Row {
    row.(state := Available, storageKey := Some(key), stagingKey := None,
         updatedAt := now, revision := row.revision + 1)
  }

  function FailedRow(row: Row, code: string, now: int): Row {
    row.(state := Failed, failureCode := Some(code), updatedAt := now, revision := row.revision + 1)
  }

  function InspectedRow(row: Row, inspection: string, now: int): Row {
    row.(inspection := Some(inspection), updatedAt := now, revision := row.revision + 1)
  }

  /** Expiry and deletion are performed outside this repository, within the transition table. */
  function RetiredRow(row: Row, target: ContentState, now: int): Row {
    row.(state := target, updatedAt := now, revision := row.revision + 1)
  }

  /** has_active_storage_reference */
  ghost predicate Referenced(rows: Rows, key: StorageKey) {
    exists id :: id in rows && rows[id].state == Available && rows[id].storageKey == Some(key)
  }

  /** A row that the unique index keeps from being inserted twice. */
  ghost predicate Claimed(rows: Rows, identity: Identity) {
    exists id :: id in rows && Active(rows[id].state) && rows[id].origin == Some(identity)
  }

  // ---- queries ----

  predicate Stale(row: Row, olderThan: int) {
    row.state == Creating && row.updatedAt <= olderThan
  }

  function StaleIds(rows: Rows, olderThan: int): set<ContentId> {
    set id | id in rows && Stale(rows[id], olderThan)
  }

  predicate Collectable(row: Row, olderThan: int) {
    && (row.state == Failed || row.state == Expired || row.state == Deleted)
    && row.updatedAt <= olderThan && row.storageKey.Some?
  }

  ghost predicate Distinct<T>(s: seq<T>) {
    forall i, j :: 0 <= i < j < |s| ==> s[i] != s[j]
  }

  /** The rows of a bounded query: the oldest candidates, each once. */
  ghost predicate OldestFirst(rows: Rows, candidates: set<ContentId>, limit: nat, ids: seq<ContentId>) {
    && Distinct(ids)
    && (forall i :: 0 <= i < |ids| ==> ids[i] in candidates && ids[i] in rows)
    && |ids| == (if |candidates| < limit then |candidates| else limit)
    && (forall i, j :: 0 <= i < j < |ids| ==> rows[ids[i]].updatedAt <= rows[ids[j]].updatedAt)
    && forall i, id :: 0 <= i < |ids| && id in candidates && id in rows && id !in ids ==>
         rows[ids[i]].updatedAt <= rows[id].updatedAt
  }

  lemma {:induction false} OldestExists(rows: Rows, ids: set<ContentId>)
    requires ids != {} && ids <= rows.Keys
    ensures exists id :: id in ids && forall o :: o in ids ==> rows[id].updatedAt <= rows[o].updatedAt
  {
    var x :| x in ids;
    if ids - {x} == {} {
      assert ids == {x};
    } else {
      OldestExists(rows, ids - {x});
      var m :| m in ids - {x} && forall o :: o in ids - {x} ==> rows[m].updatedAt <= rows[o].updatedAt;
      var best := if rows[x].updatedAt <= rows[m].updatedAt then x else m;
      assert best in ids && forall o :: o in ids ==> rows[best].updatedAt <= rows[o].updatedAt;
    }
  }

  /** A selection in progress: the picked rows, oldest first, and the rest, none of which is older. */
  ghost predicate Picked(rows: Rows, candidates: set<ContentId>, ids: seq<ContentId>, rest: set<ContentId>) {
    && candidates <= rows.Keys && rest <= candidates && |ids| + |rest| == |candidates| && Distinct(ids)
    && (forall id :: id in candidates ==> id in rest || id in ids)
    && (forall i :: 0 <= i < |ids| ==> ids[i] in candidates && ids[i] !in rest)
    && (forall i, id :: 0 <= i < |ids| && id in rest ==> rows[ids[i]].updatedAt <= rows[id].updatedAt)
    && (forall i, j :: 0 <= i < j < |ids| ==> rows[ids[i]].updatedAt <= rows[ids[j]].updatedAt)
  }

  lemma NothingPicked(rows: Rows, candidates: set<ContentId>)
    requires candidates <= rows.Keys
    ensures Picked(rows, candidates, [], candidates)
  {}

  lemma PickOne(rows: Rows, candidates: set<ContentId>, ids: seq<ContentId>, rest: set<ContentId>, id: ContentId)
    requires Picked(rows, candidates, ids, rest) && id in rest
    requires forall o :: o in rest ==> rows[id].updatedAt <= rows[o].updatedAt
    ensures Picked(rows, candidates, ids + [id], rest - {id})
  {
    assert forall o :: o in ids ==> o in ids + [id];
    assert id in ids + [id];
  }

  lemma PickedIsOldestFirst(rows: Rows, candidates: set<ContentId>, ids: seq<ContentId>, rest: set<ContentId>,
                            limit: nat)
    requires Picked(rows, candidates, ids, rest) && |ids| <= limit && (rest == {} || |ids| == limit)
    ensures OldestFirst(rows, candidates, limit, ids)
  {}

  /** Distinct sequences that list a whole set have its size. */
  lemma {:induction false} DistinctCounts<T>(s: seq<T>)
    requires Distinct(s)
    ensures |set x | x in s| == |s|
  {
    if s != [] {
      var init := s[..|s| - 1];
      DistinctCounts(init);
      var last := s[|s| - 1];
      assert (set x | x in s) == (set x | x in init) + {last};
      assert last !in init;
    }
  }

  lemma WholeSetListed<T>(s: seq<T>, xs: set<T>)
    requires Distinct(s) && |s| == |xs| && forall i :: 0 <= i < |s| ==> s[i] in xs
    ensures (set x | x in s) == xs
  {
    DistinctCounts(s);
    var listed := set x | x in s;
    var rest := xs - listed;
    assert xs == listed + rest;
    assert |xs| == |listed| + |rest|;
  }

  class PostgresContentRepository {
    var rows: Rows

    constructor ()
      ensures rows == map[]
    {
      rows := map[];
    }

    method Add(id: ContentId, row: Row) returns (added: bool)
      modifies this
      ensures added == (id !in old(rows))
      ensures rows == if added then old(rows)[id := row] else old(rows)
    {
      added := id !in rows;
      if added { rows := rows[id := row]; }
    }

    /** set_staged: a creating row at the expected revision gets the staged handle, hash and size. */
    method SetStaged(id: ContentId, expected: nat, blob: StagedBlob, now: int) returns (record: Option<Row>)
      modifies this
      ensures record.Some? <==> id in old(rows) && old(rows)[id].state == Creating && old(rows)[id].revision == expected
      ensures record.None? ==> rows == old(rows)
      ensures record.Some? ==>
        var r := old(rows)[id];
        && record.value == Row(r.owner, r.origin, Creating, expected + 1, Some(blob.sha256), Some(blob.size),
                               Some(blob.handle), r.storageKey, r.inspection, r.failureCode, now)
        && rows == old(rows)[id := record.value] && record.value == StagedRow(r, blob, now)
    {
      if !At(rows, id, Creating, expected) { return None; }
      rows := rows[id := StagedRow(rows[id], blob, now)];
      record := Some(rows[id]);
    }

    /** publish: a creating row at the expected revision that has hash and size becomes available under the key, and
        its staged handle is cleared. */
    method Publish(id: ContentId, expected: nat, key: StorageKey, now: int) returns (record: Option<Row>)
      modifies this
      ensures record.Some? <==> && id in old(rows) && old(rows)[id].state == Creating
                                && old(rows)[id].revision == expected
                                && old(rows)[id].sha256.Some? && old(rows)[id].size.Some?
      ensures record.None? ==> rows == old(rows)
      ensures record.Some? ==>
        var r := old(rows)[id];
        && record.value == Row(r.owner, r.origin, Available, expected + 1, r.sha256, r.size, None, Some(key),
                               r.inspection, r.failureCode, now)
        && rows == old(rows)[id := record.value] && record.value == PublishedRow(r, key, now)
    {
      if !CanPublish(rows, id, expected) { return None; }
      rows := rows[id := PublishedRow(rows[id], key, now)];
      record := Some(rows[id]);
    }

    /** mark_failed: a creating row at the expected revision fails with the code; its other columns stay. */
    method MarkFailed(id: ContentId, expected: nat, code: string, now: int) returns (record: Option<Row>)
      modifies this
      ensures record.Some? <==> id in old(rows) && old(rows)[id].state == Creating && old(rows)[id].revision == expected
      ensures record.None? ==> rows == old(rows)
      ensures record.Some? ==>
        var r := old(rows)[id];
        && record.value == Row(r.owner, r.origin, Failed, expected + 1, r.sha256, r.size, r.stagingKey, r.storageKey,
                               r.inspection, Some(code), now)
        && rows == old(rows)[id := record.value] && record.value == FailedRow(r, code, now)
    {
      if !At(rows, id, Creating, expected) { return None; }
      rows := rows[id := FailedRow(rows[id], code, now)];
      record := Some(rows[id]);
    }

    /** save_inspection: the first inspection of an available row at the expected revision is kept. */
    method SaveInspection(id: ContentId, expected: nat, inspection: string, now: int) returns (record: Option<Row>)
      modifies this
      ensures record.Some? <==> && id in old(rows) && old(rows)[id].state == Available
                                && old(rows)[id].revision == expected && old(rows)[id].inspection.None?
      ensures record.None? ==> rows == old(rows)
      ensures record.Some? ==>
        var r := old(rows)[id];
        && record.value == Row(r.owner, r.origin, Available, expected + 1, r.sha256, r.size, r.stagingKey, r.storageKey,
                               Some(inspection), r.failureCode, now)
        && rows == old(rows)[id := record.value] && record.value == InspectedRow(r, inspection, now)
    {
      if !CanInspect(rows, id, expected) { return None; }
      rows := rows[id := InspectedRow(rows[id], inspection, now)];
      record := Some(rows[id]);
    }

    /** The query shape shared by stale_creating and available_for_audit. */
    method Oldest(candidates: set<ContentId>, limit: nat) returns (ids: seq<ContentId>)
      requires candidates <= rows.Keys
      ensures OldestFirst(rows, candidates, limit, ids)
    {
      hide Picked;
      ids := [];
      var rest := candidates;
      NothingPicked(rows, candidates);
      while rest != {} && |ids| < limit
        invariant rest <= candidates && |ids| <= limit && Picked(rows, candidates, ids, rest)
        decreases rest
      {
        OldestExists(rows, rest);
        var id :| id in rest && forall o :: o in rest ==> rows[id].updatedAt <= rows[o].updatedAt;
        PickOne(rows, candidates, ids, rest, id);
        ids := ids + [id];
        rest := rest - {id};
      }
      PickedIsOldestFirst(rows, candidates, ids, rest, limit);
    }

    method HasActiveStorageReference(key: StorageKey) returns (b: bool)
      ensures b <==> exists id :: id in rows && rows[id].state == Available && rows[id].storageKey == Some(key)
      ensures b == Referenced(rows, key)
    {
      var found := set id | id in rows && rows[id].state == Available && rows[id].storageKey == Some(key);
      b := found != {};
      if b { var id :| id in found; } else { assert forall id :: id in rows ==> id !in found; }
    }
  }
}
