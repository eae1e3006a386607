/** One undisturbed ingest and one undisturbed maintenance pass over the repository and the store. */
module ContentMaintenance {
  import opened Basics
  import opened ContentModels
  import opened ContentRepository
  import opened ContentStore
  import ContentProtocol
  import ContentSafety

  /** What every stopped system leaves behind: intact blobs under their hashes, rows of a known shape, every
      available row backed by its blob, and staged files that are gone or exactly as recorded. */
  ghost predicate Consistent(sha: Bytes -> Digest, rows: Rows, staging: Staging, blobs: Blobs) {
    && (forall k :: k in blobs ==> sha(blobs[k]) == k.sha256)
    && (forall id :: id in rows ==> ContentSafety.RowOk(rows[id]) && ContentSafety.OwnHandle(id, rows[id]))
    && (forall id :: id in rows && rows[id].state == Available ==> Backed(sha, rows[id], blobs))
    && (forall id :: id in rows && rows[id].state == Creating ==> FileAsRecorded(sha, rows[id], staging))
  }

  predicate Backed(sha: Bytes -> Digest, row: Row, blobs: Blobs) {
    && row.sha256.Some? && row.size.Some? && row.storageKey == Some(StorageKey(row.sha256.value))
    && row.storageKey.value in blobs && Matches(sha, blobs[row.storageKey.value], row.sha256.value, row.size.value)
  }

  predicate FileAsRecorded(sha: Bytes -> Digest, row: Row, staging: Staging) {
    row.stagingKey.Some? && row.sha256.Some? && row.size.Some? && row.stagingKey.value in staging ==>
      Matches(sha, staging[row.stagingKey.value].data, row.sha256.value, row.size.value)
  }

  /** Every reachable state of the protocol, stopped there with whatever files it has, is consistent. */
  lemma StoppedSystemIsConsistent(sha: Bytes -> Digest, w: ContentProtocol.World, modifiedAt: Handle -> int)
    requires ContentSafety.Inv(sha, w)
    ensures Consistent(sha, w.rows, map h | h in w.staging :: StagedFile(w.staging[h].data, modifiedAt(h)), w.blobs)
  {
    forall id | id in w.rows
      ensures ContentSafety.RowOk(w.rows[id]) && ContentSafety.OwnHandle(id, w.rows[id])
      ensures w.rows[id].state == Available ==> Backed(sha, w.rows[id], w.blobs)
      ensures w.rows[id].state == Creating ==> ContentSafety.StagedClean(sha, w, w.rows[id])
    {
      ContentSafety.RowFacts(sha, w, id);
    }
  }

  /** No file is new or changed. */
  ghost predicate FilesShrink(staging: Staging, staging': Staging) {
    forall h :: h in staging' ==> h in staging && staging'[h] == staging[h]
  }

  ghost predicate Extends(sha: Bytes -> Digest, blobs: Blobs, blobs': Blobs) {
    && (forall k :: k in blobs ==> k in blobs' && blobs'[k] == blobs[k])
    && (forall k :: k in blobs' && k !in blobs ==> sha(blobs'[k]) == k.sha256)
  }

  lemma ExtendsItself(sha: Bytes -> Digest, blobs: Blobs)
    ensures Extends(sha, blobs, blobs)
  {}

  lemma ExtendsTransitively(sha: Bytes -> Digest, a: Blobs, b: Blobs, c: Blobs)
    requires Extends(sha, a, b) && Extends(sha, b, c)
    ensures Extends(sha, a, c)
  {}

  /** Settling one row, losing staging files and linking blobs under their hashes keep consistency. */
  lemma SettledKeepsConsistent(sha: Bytes -> Digest, rows: Rows, staging: Staging, blobs: Blobs,
                               id: ContentId, row: Row, staging': Staging, blobs': Blobs)
    requires Consistent(sha, rows, staging, blobs)
    requires row.state != Creating && ContentSafety.RowOk(row) && ContentSafety.OwnHandle(id, row)
    requires row.state == Available ==> Backed(sha, row, blobs')
    requires FilesShrink(staging, staging') && Extends(sha, blobs, blobs')
    ensures Consistent(sha, rows[id := row], staging', blobs')
  {
    var rows' := rows[id := row];
    forall r | r in rows' && rows'[r].state == Available ensures Backed(sha, rows'[r], blobs') {
      if r != id { assert Backed(sha, rows[r], blobs); }
    }
    forall r | r in rows' && rows'[r].state == Creating ensures FileAsRecorded(sha, rows'[r], staging') {
      assert FileAsRecorded(sha, rows[r], staging);
    }
  }

  lemma LostFileKeepsConsistent(sha: Bytes -> Digest, rows: Rows, staging: Staging, blobs: Blobs, h: Handle)
    requires Consistent(sha, rows, staging, blobs)
    ensures Consistent(sha, rows, staging - {h}, blobs)
  {
    forall id | id in rows && rows[id].state == Creating ensures FileAsRecorded(sha, rows[id], staging - {h}) {
      assert FileAsRecorded(sha, rows[id], staging);
    }
  }

  lemma UnreferencedBlobKeepsConsistent(sha: Bytes -> Digest, rows: Rows, staging: Staging, blobs: Blobs,
                                        key: StorageKey)
    requires Consistent(sha, rows, staging, blobs) && !Referenced(rows, key)
    ensures Consistent(sha, rows, staging, blobs - {key})
  {
    forall id | id in rows && rows[id].state == Available ensures Backed(sha, rows[id], blobs - {key}) {
      assert Backed(sha, rows[id], blobs);
    }
  }

  datatype MaintenanceResult = MaintenanceResult(
    recovered: nat, failedStale: nat, orphanStagingRemoved: nat, finalBlobsRemoved: nat, integrityErrors: nat)

  /** When an undisturbed recovery publishes: the row was staged and its payload can be finalized. */
  predicate CanRecover(sha: Bytes -> Digest, row: Row, staging: Staging, blobs: Blobs) {
    && row.stagingKey.Some? && row.sha256.Some? && row.size.Some?
    && CanFinalize(sha, staging, blobs, StagedBlob(row.stagingKey.value, row.sha256.value, row.size.value))
  }

  /** With an injective hash a creating row whose staging file is on disk can always be recovered. */
  lemma FileOnDiskRecovers(sha: Bytes -> Digest, rows: Rows, earlier: Staging, staging: Staging, blobs: Blobs,
                           id: ContentId)
    requires Consistent(sha, rows, staging, blobs) && Injective(sha)
    requires id in rows && rows[id].state == Creating && FileOnDisk(rows[id], earlier)
    requires forall h :: h in earlier && h.content == id ==> h in staging
    ensures CanRecover(sha, rows[id], staging, blobs)
  {
    assert ContentSafety.OwnHandle(id, rows[id]) && FileAsRecorded(sha, rows[id], staging);
  }

  lemma ConsistentBlobs(sha: Bytes -> Digest, rows: Rows, staging: Staging, blobs: Blobs)
    requires Consistent(sha, rows, staging, blobs)
    ensures forall k :: k in blobs ==> sha(blobs[k]) == k.sha256
  {}

  lemma SameHashSameBytes(sha: Bytes -> Digest, blobs: Blobs, input: Bytes)
    requires Injective(sha) && forall k :: k in blobs ==> sha(blobs[k]) == k.sha256
    ensures StorageKey(sha(input)) in blobs ==> blobs[StorageKey(sha(input))] == input
  {}

  predicate FileOnDisk(row: Row, staging: Staging) {
    row.stagingKey.Some? && row.stagingKey.value in staging
  }

  /** How many of the listed rows are available. */
  function AvailableAmong(rows: Rows, ids: seq<ContentId>): nat {
    if ids == [] then 0
    else AvailableAmong(rows, ids[..|ids| - 1])
         + var id := ids[|ids| - 1]; if id in rows && rows[id].state == Available then 1 else 0
  }

  /** Changing a row that is not listed does not change the count. */
  lemma {:induction false} AvailableAmongFrame(rows: Rows, rows': Rows, ids: seq<ContentId>)
    requires forall i :: 0 <= i < |ids| ==> ids[i] in rows && ids[i] in rows' && rows'[ids[i]] == rows[ids[i]]
    ensures AvailableAmong(rows', ids) == AvailableAmong(rows, ids)
  {
    if ids != [] { AvailableAmongFrame(rows, rows', ids[..|ids| - 1]); }
  }

  function AvailableOf(rows: Rows, ids: set<ContentId>): set<ContentId> {
    set id | id in ids && id in rows && rows[id].state == Available
  }

  function Listed(ids: seq<ContentId>): set<ContentId> { set id | id in ids }

  lemma ListedStep(rows: Rows, ids: seq<ContentId>)
    requires ids != [] && Distinct(ids)
    ensures var init, last := ids[..|ids| - 1], ids[|ids| - 1];
            && last !in Listed(init)
            && AvailableOf(rows, Listed(ids)) == AvailableOf(rows, Listed(init)) + AvailableOf(rows, {last})
  {
    var init, last := ids[..|ids| - 1], ids[|ids| - 1];
    assert ids == init + [last];
    assert Listed(ids) == Listed(init) + {last};
  }

  lemma {:induction false} AvailableAmongCounts(rows: Rows, ids: seq<ContentId>)
    requires Distinct(ids)
    ensures AvailableAmong(rows, ids) == |AvailableOf(rows, Listed(ids))|
  {
    if ids != [] {
      var init, last := ids[..|ids| - 1], ids[|ids| - 1];
      AvailableAmongCounts(rows, init);
      ListedStep(rows, ids);
      hide Listed;
      assert AvailableOf(rows, {last}) == if last in rows && rows[last].state == Available then {last} else {};
    }
  }

  /** A staging file that no creating row named when the pass began and that is old enough. */
  predicate Orphan(staging: Staging, known: set<Handle>, cutoff: int, h: Handle) {
    h in staging && h !in known && staging[h].modifiedAt <= cutoff
  }

  lemma OrphanEarlier(before: Staging, after: Staging, known: set<Handle>, cutoff: int, h: Handle)
    requires FilesShrink(before, after) && Orphan(after, known, cutoff, h)
    ensures Orphan(before, known, cutoff, h)
  {}

  /** known_staging_handles: the files that creating rows name. */
  function KnownHandles(rows: Rows): set<Handle> {
    set id | id in rows && rows[id].state == Creating && rows[id].stagingKey.Some? :: rows[id].stagingKey.value
  }

  function CandidateKeys(rows: Rows, olderThan: int): set<StorageKey> {
    set id | id in rows && Collectable(rows[id], olderThan) :: rows[id].storageKey.value
  }

  lemma OrphanElsewhere(staging: Staging, gone: set<Handle>, known: set<Handle>, cutoff: int, h: Handle)
    requires h !in gone
    ensures Orphan(staging - gone, known, cutoff, h) == Orphan(staging, known, cutoff, h)
  {}

  /** The orphans among the files that went. */
  function OrphansGone(before: Staging, after: Staging, known: set<Handle>, cutoff: int): set<Handle> {
    set h | h in before && h !in known && before[h].modifiedAt <= cutoff && h !in after
  }

  /** What a pass does to the staging files: one only goes if it is old and no creating row named it, or belongs to
      a stale row; those of the first kind are counted; and when the batch holds all files none of them is left. */
  ghost predicate FilesSwept(before: Staging, after: Staging, known: set<Handle>, stale: set<ContentId>, cutoff: int,
                             batchSize: nat, removed: nat) {
    && removed == |OrphansGone(before, after, known, cutoff)|
    && (forall h :: h in before && h !in after ==>
          (h !in known && before[h].modifiedAt <= cutoff) || h.content in stale)
    && (|before.Keys| <= batchSize ==> forall h :: h in after && after[h].modifiedAt <= cutoff ==> h in known)
  }

  /** Recovery takes named files only, so the orphans that went are those of the orphan phase. */
  lemma SweepsFiles(before: Staging, between: Staging, files: set<Handle>, after: Staging, known: set<Handle>,
                    stale: set<ContentId>, cutoff: int, batchSize: nat)
    requires OnlyFilesOf(before, between, stale, known) && after == between - files
    requires forall h :: h in files ==> Orphan(between, known, cutoff, h)
    requires |between.Keys| <= batchSize ==> forall h :: h in after ==> !Orphan(after, known, cutoff, h)
    ensures FilesSwept(before, after, known, stale, cutoff, batchSize, |files|)
  {
    assert OrphansGone(before, after, known, cutoff) == files;
    FewerFiles(before, between);
  }

  lemma FewerFiles(before: Staging, between: Staging)
    requires FilesShrink(before, between)
    ensures |between.Keys| <= |before.Keys|
  {
    assert between.Keys <= before.Keys;
    var rest := before.Keys - between.Keys;
    assert before.Keys == between.Keys + rest;
  }

  /** What a pass does to the blobs: each that goes is counted, is named by a row that has been retired for long enough
      and by no available one; and when the batch holds all such keys none of them is left. */
  ghost predicate BlobsSwept(before: Blobs, after: Blobs, rows: Rows, cutoff: int, batchSize: nat, removed: nat) {
    && removed == |before.Keys - after.Keys|
    && (forall k :: k in before && k !in after ==> k in CandidateKeys(rows, cutoff) && !Referenced(rows, k))
    && (|CandidateKeys(rows, cutoff)| <= batchSize ==>
          forall k :: k in after && k in CandidateKeys(rows, cutoff) ==> Referenced(rows, k))
  }

  lemma SweepsBlobs(sha: Bytes -> Digest, before: Blobs, between: Blobs, gone: set<StorageKey>, after: Blobs,
                    rows: Rows, cutoff: int, batchSize: nat)
    requires Extends(sha, before, between) && NewBlobsUsed(before, between, rows) && after == between - gone
    requires gone <= between.Keys && forall k :: k in gone ==> k in CandidateKeys(rows, cutoff) && !Referenced(rows, k)
    requires |CandidateKeys(rows, cutoff)| <= batchSize ==>
               forall k :: k in after && k in CandidateKeys(rows, cutoff) ==> Referenced(rows, k)
    ensures BlobsSwept(before, after, rows, cutoff, batchSize, |gone|)
  {
    hide CandidateKeys, Referenced, Extends, NewBlobsUsed;
    BlobsGone(sha, before, between, gone, after, rows);
    forall k | k in before && k !in after ensures k in CandidateKeys(rows, cutoff) && !Referenced(rows, k) {
      assert k in gone;
    }
  }

  lemma BlobsGone(sha: Bytes -> Digest, before: Blobs, between: Blobs, gone: set<StorageKey>, after: Blobs, rows: Rows)
    requires Extends(sha, before, between) && NewBlobsUsed(before, between, rows) && after == between - gone
    requires gone <= between.Keys && forall k :: k in gone ==> !Referenced(rows, k)
    ensures before.Keys - after.Keys == gone && forall k :: k in before && k !in after ==> k in gone
  {
    hide Referenced;
    forall k | k in gone ensures k in before {
      assert k in between && !Referenced(rows, k);
    }
    forall k | k in before && k !in after ensures k in gone {
      assert k in between;
    }
  }

  /** The keys and rows that the two phases are about. */
  lemma CandidatesMean(rows: Rows, cutoff: int)
    ensures forall id :: id in StaleIds(rows, cutoff) <==>
              id in rows && rows[id].state == Creating && rows[id].updatedAt <= cutoff
    ensures forall k :: k in CandidateKeys(rows, cutoff) <==>
              exists id :: id in rows && rows[id].state in {Failed, Expired, Deleted} && rows[id].updatedAt <= cutoff
                           && rows[id].storageKey == Some(k)
    ensures forall h :: h in KnownHandles(rows) <==>
              exists id :: id in rows && rows[id].state == Creating && rows[id].stagingKey == Some(h)
  {}

  /** Published or failed, and no longer creating. */
  predicate Settled(row: Row) { row.state == Available || row.state == Failed }

  /** Only these rows change, and a changed row is settled. */
  ghost predicate OnlySettles(before: Rows, after: Rows, ids: set<ContentId>) {
    && after.Keys == before.Keys
    && forall id :: id in after && after[id] != before[id] ==> id in ids && Settled(after[id])
  }

  /** All these rows are settled, and each was counted once as what it became. */
  ghost predicate AllSettled(after: Rows, ids: set<ContentId>, recovered: nat, failedStale: nat) {
    && (forall id :: id in ids ==> id in after && Settled(after[id]))
    && recovered + failedStale == |ids| && recovered == |AvailableOf(after, ids)|
  }

  /** Whichever of these rows had its payload on disk is available now. */
  ghost predicate NothingGivenUp(before: Rows, staging: Staging, after: Rows, ids: set<ContentId>) {
    forall id :: id in ids && id in before && FileOnDisk(before[id], staging) ==>
      id in after && after[id].state == Available
  }

  /** Every file that is gone belonged to one of these rows and was named by a row. */
  ghost predicate OnlyFilesOf(staging: Staging, staging': Staging, ids: set<ContentId>, named: set<Handle>) {
    FilesShrink(staging, staging') && forall h :: h in staging && h !in staging' ==> h.content in ids && h in named
  }

  /** Every blob that is new is in use. */
  ghost predicate NewBlobsUsed(blobs: Blobs, blobs': Blobs, rows: Rows) {
    forall k :: k in blobs' && k !in blobs ==> Referenced(rows, k)
  }

  lemma StillUsed(a: Blobs, b: Blobs, c: Blobs, rows: Rows, id: ContentId, rows': Rows)
    requires NewBlobsUsed(a, b, rows) && NewBlobsUsed(b, c, rows')
    requires id in rows && rows[id].state != Available && id in rows' && rows' == rows[id := rows'[id]]
    ensures NewBlobsUsed(a, c, rows')
  {
    forall k | k in c && k !in a ensures Referenced(rows', k) {
      if k in b {
        var r :| r in rows && rows[r].state == Available && rows[r].storageKey == Some(k);
        assert r in rows' && rows'[r] == rows[r];
      }
    }
  }

  /** What the recovery loop has done after some rows. */
  ghost predicate RecoveredSoFar(first: Rows, files: Staging, rows: Rows, staging: Staging, ids: seq<ContentId>,
                                 recovered: nat, injective: bool) {
    && OnlySettles(first, rows, Listed(ids)) && OnlyFilesOf(files, staging, Listed(ids), KnownHandles(first))
    && (forall id :: id in Listed(ids) ==> id in rows && Settled(rows[id]))
    && recovered == AvailableAmong(rows, ids)
    && (injective ==> NothingGivenUp(first, files, rows, Listed(ids)))
  }

  lemma OneMoreRecovered(first: Rows, files: Staging, rows: Rows, staging: Staging, ids: seq<ContentId>, recovered: nat,
                         injective: bool, id: ContentId, rows': Rows, staging': Staging)
    requires RecoveredSoFar(first, files, rows, staging, ids, recovered, injective) && id !in ids && id in rows
    requires id in rows' && rows' == rows[id := rows'[id]] && Settled(rows'[id])
    requires OnlyFilesOf(staging, staging', {id}, KnownHandles(first))
    requires injective && id in first && FileOnDisk(first[id], files) ==> rows'[id].state == Available
    ensures RecoveredSoFar(first, files, rows', staging', ids + [id],
                           recovered + (if rows'[id].state == Available then 1 else 0), injective)
  {
    hide FileOnDisk, OnlyFilesOf, OnlySettles, NothingGivenUp;
    var done := Listed(ids);
    assert Listed(ids + [id]) == done + {id} && id !in done;
    assert forall i :: i in ids ==> i in done;
    OneMoreCounted(rows, rows', ids, id);
    hide AvailableAmong, Listed;
    OneMoreSettled(first, rows, rows', done, id);
    OneMoreFiles(files, staging, staging', done, id, KnownHandles(first));
    hide KnownHandles;
    if injective { OneMoreKept(first, files, rows, rows', done, id); }
  }

  lemma OneMoreSettled(first: Rows, rows: Rows, rows': Rows, done: set<ContentId>, id: ContentId)
    requires OnlySettles(first, rows, done) && id in rows
    requires id in rows' && rows' == rows[id := rows'[id]] && Settled(rows'[id])
    ensures OnlySettles(first, rows', done + {id})
  {}

  lemma OneMoreFiles(files: Staging, staging: Staging, staging': Staging, done: set<ContentId>, id: ContentId,
                     named: set<Handle>)
    requires OnlyFilesOf(files, staging, done, named) && OnlyFilesOf(staging, staging', {id}, named)
    ensures OnlyFilesOf(files, staging', done + {id}, named)
  {}

  lemma OneMoreKept(first: Rows, files: Staging, rows: Rows, rows': Rows, done: set<ContentId>, id: ContentId)
    requires NothingGivenUp(first, files, rows, done) && id !in done && id in rows' && rows' == rows[id := rows'[id]]
    requires id in first && FileOnDisk(first[id], files) ==> rows'[id].state == Available
    ensures NothingGivenUp(first, files, rows', done + {id})
  {
    hide FileOnDisk;
  }

  lemma OneMoreCounted(rows: Rows, rows': Rows, ids: seq<ContentId>, id: ContentId)
    requires id in rows' && id !in ids && rows' == rows[id := rows'[id]] && forall i :: i in ids ==> i in rows
    ensures AvailableAmong(rows', ids + [id])
         == AvailableAmong(rows, ids) + (if rows'[id].state == Available then 1 else 0)
  {
    AvailableAmongFrame(rows, rows', ids);
    assert (ids + [id])[..|ids|] == ids;
  }

  lemma NothingRecovered(rows: Rows, staging: Staging, injective: bool)
    ensures RecoveredSoFar(rows, staging, rows, staging, [], 0, injective)
  {}

  /** When all listed rows have had their turn. */
  lemma AllRecovered(first: Rows, files: Staging, rows: Rows, staging: Staging, ids: seq<ContentId>, recovered: nat,
                     failedStale: nat, injective: bool)
    requires RecoveredSoFar(first, files, rows, staging, ids, recovered, injective)
    requires Distinct(ids) && recovered + failedStale == |ids|
    ensures OnlySettles(first, rows, Listed(ids)) && OnlyFilesOf(files, staging, Listed(ids), KnownHandles(first))
    ensures AllSettled(rows, Listed(ids), recovered, failedStale)
    ensures injective ==> NothingGivenUp(first, files, rows, Listed(ids))
  {
    hide OnlySettles, OnlyFilesOf, NothingGivenUp, AvailableAmong, KnownHandles;
    AvailableAmongCounts(rows, ids);
    DistinctCounts(ids);
  }

  lemma NothingNew(blobs: Blobs, rows: Rows)
    ensures NewBlobsUsed(blobs, blobs, rows)
  {}

  /** Rows that were settled name fewer files. */
  lemma FewerKnown(first: Rows, rows: Rows, staging: Staging, staging': Staging, id: ContentId, done: set<ContentId>)
    requires OnlySettles(first, rows, done) && OnlyFilesOf(staging, staging', {id}, KnownHandles(rows))
    ensures OnlyFilesOf(staging, staging', {id}, KnownHandles(first))
  {
    forall h | h in KnownHandles(rows) ensures h in KnownHandles(first) {
      var r :| r in rows && rows[r].state == Creating && rows[r].stagingKey == Some(h);
      assert first[r] == rows[r];
    }
  }

  /** A row that is not listed has not changed, and its files are still there. */
  lemma StillAsAtFirst(first: Rows, files: Staging, rows: Rows, staging: Staging, ids: seq<ContentId>, recovered: nat,
                       injective: bool, id: ContentId)
    requires RecoveredSoFar(first, files, rows, staging, ids, recovered, injective) && id in first && id !in ids
    ensures id in rows && rows[id] == first[id] && forall h :: h in files && h.content == id ==> h in staging
    ensures OnlySettles(first, rows, Listed(ids))
  {}

  /** What the audit finds wrong. */
  predicate Wrong(row: Row, blobs: Blobs) {
    || row.storageKey.None? || row.storageKey.value !in blobs
    || Some(row.storageKey.value.sha256) != row.sha256 || Some(|blobs[row.storageKey.value]|) != row.size
  }

  function Damaged(rows: Rows, blobs: Blobs, ids: set<ContentId>): set<ContentId> {
    set id | id in ids && id in rows && Wrong(rows[id], blobs)
  }

  lemma OneMoreAudited(rows: Rows, blobs: Blobs, ids: set<ContentId>, id: ContentId)
    requires id in rows && id !in ids
    ensures |Damaged(rows, blobs, ids + {id})|
         == |Damaged(rows, blobs, ids)| + (if Wrong(rows[id], blobs) then 1 else 0)
  {
    assert Damaged(rows, blobs, ids + {id})
        == Damaged(rows, blobs, ids) + (if Wrong(rows[id], blobs) then {id} else {});
  }

  /** In a consistent system the audit finds nothing. */
  lemma NothingDamaged(sha: Bytes -> Digest, rows: Rows, staging: Staging, blobs: Blobs, ids: set<ContentId>)
    requires Consistent(sha, rows, staging, blobs)
    requires forall id :: id in ids && id in rows ==> rows[id].state == Available
    ensures Damaged(rows, blobs, ids) == {}
  {
    forall id | id in ids && id in rows ensures !Wrong(rows[id], blobs) { assert Backed(sha, rows[id], blobs); }
  }

  class ContentServices {
    const repository: PostgresContentRepository
    const store: FilesystemContentStore

    constructor (repository: PostgresContentRepository, store: FilesystemContentStore)
      ensures this.repository == repository && this.store == store
    {
      this.repository := repository;
      this.store := store;
    }

    ghost predicate Ready()
      reads this, repository, store
    {
      store.chunkSize > 0 && Consistent(store.sha, repository.rows, store.staging, store.blobs)
    }

    /** An undisturbed ingest publishes exactly its input, unless its stream breaks off or a payload of another size
        already sits under the same hash; then the row fails, the staging file is gone and nothing else changed. */
    method Ingest(id: ContentId, token: string, owner: string, stream: seq<Bytes>, breaks: bool, now: int)
      returns (r: Option<ContentRef>)
      requires Ready() && id !in repository.rows && Handle(id, token) !in store.staging
      modifies repository, store
      ensures Ready()
      ensures var input := Concat(stream);
              var key := StorageKey(store.sha(input));
              && (r.Some? <==> !breaks && (key in old(store.blobs) ==> |old(store.blobs)[key]| == |input|))
              && (r.Some? ==>
                    && r.value == ContentRef(id, store.sha(input), |input|)
                    && key in store.blobs && store.blobs == old(store.blobs)[key := store.blobs[key]]
                    && (Injective(store.sha) ==> store.blobs[key] == input)
                    && repository.rows == old(repository.rows)[id := Row(owner, None, Available, 3, Some(key.sha256),
                         Some(|input|), None, Some(key), None, None, now)])
              && (r.None? ==> store.blobs == old(store.blobs))
      ensures Injective(store.sha) && !breaks ==> r.Some?
      ensures id in repository.rows && repository.rows == old(repository.rows)[id := repository.rows[id]]
      ensures r.None? ==>
                && repository.rows[id].state == Failed
                && repository.rows[id].failureCode == Some("content_creation_failed")
      ensures store.staging == old(store.staging)
    {
      hide Injective, Consistent;
      ConsistentBlobs(store.sha, repository.rows, store.staging, store.blobs);
      var _ := repository.Add(id, NewRow(owner, None, now));
      var staged := store.StageWrite(id, token, stream, breaks, now);
      if staged.Err? {
        var _ := repository.MarkFailed(id, 1, "content_creation_failed", now);
        r := None;
      } else {
        var _ := repository.SetStaged(id, 1, staged.value, now);
        r := Complete(id, staged.value, now);
        assert store.staging == old(store.staging);
        if Injective(store.sha) {
          SameHashSameBytes(store.sha, old(store.blobs), Concat(stream));
        }
      }
      assert repository.rows == old(repository.rows)[id := repository.rows[id]];
      SettledKeepsConsistent(store.sha, old(repository.rows), old(store.staging), old(store.blobs),
                             id, repository.rows[id], store.staging, store.blobs);
    }

    /** The second half of an undisturbed ingest: finalize and publish the staged payload, or clean up. */
    method Complete(id: ContentId, staged: StagedBlob, now: int) returns (r: Option<ContentRef>)
      requires store.chunkSize > 0 && forall k :: k in store.blobs ==> store.sha(store.blobs[k]) == k.sha256
      requires At(repository.rows, id, Creating, 2) && repository.rows[id].sha256 == Some(staged.sha256)
      requires repository.rows[id].size == Some(staged.size) && staged.handle in store.staging
      requires Matches(store.sha, store.staging[staged.handle].data, staged.sha256, staged.size)
      modifies repository, store
      ensures var key := StorageKey(staged.sha256);
              && (r.Some? <==> (key in old(store.blobs) ==> |old(store.blobs)[key]| == staged.size))
              && store.blobs == (if r.Some? && key !in old(store.blobs)
                                 then old(store.blobs)[key := old(store.staging)[staged.handle].data]
                                 else old(store.blobs))
              && (r.Some? ==> r.value == ContentRef(id, staged.sha256, staged.size))
              && var row := old(repository.rows)[id];
                 repository.rows == old(repository.rows)[id :=
                   if r.Some?
                   then Row(row.owner, row.origin, Available, 3, row.sha256, row.size, None, Some(key), row.inspection,
                            row.failureCode, now)
                   else Row(row.owner, row.origin, Failed, 3, row.sha256, row.size, row.stagingKey, row.storageKey,
                            row.inspection, Some("content_creation_failed"), now)]
      ensures store.staging == old(store.staging) - {staged.handle}
    {
      var final := store.Finalize(staged);
      if final.Ok? {
        var observed := store.Stat(final.value.key);
        assert observed == Some(final.value);
        var published := repository.Publish(id, 2, final.value.key, now);
        r := Some(ContentRef(id, published.value.sha256.value, published.value.size.value));
      } else {
        var _ := store.RemoveStaging(staged.handle);
        var _ := repository.MarkFailed(id, 2, "content_creation_failed", now);
        r := None;
      }
    }

    /** An undisturbed recovery of a creating row settles it: available if its payload can be finalized,
        failed otherwise, and nothing else changes but its own staging file and blob. */
    method Recover(id: ContentId, record: Row, now: int) returns (published: bool)
      requires Ready() && id in repository.rows && repository.rows[id] == record && record.state == Creating
      modifies repository, store
      ensures Ready()
      ensures published <==> CanRecover(store.sha, record, old(store.staging), old(store.blobs))
      ensures id in repository.rows && repository.rows == old(repository.rows)[id := repository.rows[id]]
      ensures published ==>
        && record.sha256.Some?
        && repository.rows[id] == Row(record.owner, record.origin, Available, record.revision + 1, record.sha256,
                                      record.size, None, Some(StorageKey(record.sha256.value)), record.inspection,
                                      record.failureCode, now)
      ensures !published ==>
        repository.rows[id] == Row(record.owner, record.origin, Failed, record.revision + 1, record.sha256, record.size,
                                   record.stagingKey, record.storageKey, record.inspection,
                                   Some(if record.stagingKey.None? || record.sha256.None? || record.size.None?
                                        then "stale_creating" else "staging_lost"), now)
      ensures OnlyFilesOf(old(store.staging), store.staging, {id}, KnownHandles(old(repository.rows)))
      ensures Extends(store.sha, old(store.blobs), store.blobs)
      ensures NewBlobsUsed(old(store.blobs), store.blobs, repository.rows)
    {
      assert ContentSafety.RowOk(record) && ContentSafety.OwnHandle(id, record);
      if record.stagingKey.None? || record.sha256.None? || record.size.None? {
        var _ := repository.MarkFailed(id, record.revision, "stale_creating", now);
        published := false;
      } else {
        var final := store.Finalize(StagedBlob(record.stagingKey.value, record.sha256.value, record.size.value));
        if final.Err? {
          var _ := repository.MarkFailed(id, record.revision, "staging_lost", now);
          published := false;
        } else {
          var observed := store.Stat(final.value.key);
          assert observed == Some(final.value);
          var row := repository.Publish(id, record.revision, final.value.key, now);
          published := true;
        }
      }
      SettledKeepsConsistent(store.sha, old(repository.rows), old(store.staging), old(store.blobs),
                             id, repository.rows[id], store.staging, store.blobs);
    }

    /** The recovery loop settles every listed row and counts the published ones. */
    method RecoverAll(ids: seq<ContentId>, now: int) returns (recovered: nat, failedStale: nat)
      requires Ready() && Distinct(ids)
      requires forall i :: 0 <= i < |ids| ==> ids[i] in repository.rows && repository.rows[ids[i]].state == Creating
      modifies repository, store
      ensures Ready()
      ensures OnlySettles(old(repository.rows), repository.rows, Listed(ids))
      ensures AllSettled(repository.rows, Listed(ids), recovered, failedStale)
      ensures Injective(store.sha) ==>
                NothingGivenUp(old(repository.rows), old(store.staging), repository.rows, Listed(ids))
      ensures OnlyFilesOf(old(store.staging), store.staging, Listed(ids), KnownHandles(old(repository.rows)))
      ensures Extends(store.sha, old(store.blobs), store.blobs)
      ensures NewBlobsUsed(old(store.blobs), store.blobs, repository.rows)
    {
      hide Consistent, CanRecover, Injective, FileOnDisk, RecoveredSoFar, OnlyFilesOf, Extends, NewBlobsUsed,
           KnownHandles;
      recovered, failedStale := 0, 0;
      ghost var injective := Injective(store.sha);
      NothingRecovered(repository.rows, store.staging, injective);
      ExtendsItself(store.sha, store.blobs);
      assert NewBlobsUsed(store.blobs, store.blobs, repository.rows) by { NothingNew(store.blobs, repository.rows); }
      for i := 0 to |ids|
        invariant Ready() && recovered + failedStale == i && Extends(store.sha, old(store.blobs), store.blobs)
        invariant NewBlobsUsed(old(store.blobs), store.blobs, repository.rows)
        invariant RecoveredSoFar(old(repository.rows), old(store.staging), repository.rows, store.staging, ids[..i],
                                 recovered, injective)
      {
        ghost var rows, staging, blobs := repository.rows, store.staging, store.blobs;
        var id := ids[i];
        StillAsAtFirst(old(repository.rows), old(store.staging), rows, staging, ids[..i], recovered, injective, id);
        if injective && FileOnDisk(rows[id], old(store.staging)) {
          FileOnDiskRecovers(store.sha, rows, old(store.staging), staging, store.blobs, id);
        }
        var published := Recover(id, repository.rows[id], now);
        StillUsed(old(store.blobs), blobs, store.blobs, rows, id, repository.rows);
        FewerKnown(old(repository.rows), rows, staging, store.staging, id, Listed(ids[..i]));
        OneMoreRecovered(old(repository.rows), old(store.staging), rows, staging, ids[..i], recovered, injective,
                         id, repository.rows, store.staging);
        ExtendsTransitively(store.sha, old(store.blobs), blobs, store.blobs);
        if published { recovered := recovered + 1; } else { failedStale := failedStale + 1; }
        assert ids[..i + 1] == ids[..i] + [id];
      }
      assert ids[..|ids|] == ids;
      AllRecovered(old(repository.rows), old(store.staging), repository.rows, store.staging, ids, recovered,
                   failedStale, injective);
    }

    /** A listed file is removed exactly when it is old and no creating row named it when the pass began. */
    method RemoveOrphan(h: Handle, known: set<Handle>, cutoff: int) returns (removed: bool)
      requires Ready()
      modifies store`staging
      ensures Ready()
      ensures removed <==> Orphan(old(store.staging), known, cutoff, h)
      ensures store.staging == if removed then old(store.staging) - {h} else old(store.staging)
    {
      removed := false;
      if h in store.staging && h !in known && store.staging[h].modifiedAt <= cutoff {
        LostFileKeepsConsistent(store.sha, repository.rows, store.staging, store.blobs, h);
        removed := store.RemoveStaging(h);
      }
    }

    /** The orphan phase removes exactly the orphans among the listed files and counts them. */
    method RemoveOrphans(entries: seq<Handle>, known: set<Handle>, cutoff: int)
      returns (removed: nat, ghost gone: set<Handle>)
      requires Ready() && Distinct(entries)
      modifies store`staging
      ensures Ready()
      ensures store.staging == old(store.staging) - gone && removed == |gone|
      ensures forall h :: h in gone <==> h in entries && Orphan(old(store.staging), known, cutoff, h)
    {
      hide Consistent, Orphan;
      removed, gone := 0, {};
      for i := 0 to |entries|
        invariant Ready()
        invariant store.staging == old(store.staging) - gone && removed == |gone|
        invariant forall h :: h in gone <==> h in entries[..i] && Orphan(old(store.staging), known, cutoff, h)
      {
        var h := entries[i];
        assert h !in entries[..i];
        OrphanElsewhere(old(store.staging), gone, known, cutoff, h);
        var ok := RemoveOrphan(h, known, cutoff);
        if ok {
          gone := gone + {h};
          removed := removed + 1;
        }
        assert entries[..i + 1] == entries[..i] + [h];
      }
      assert entries[..|entries|] == entries;
    }

    method CollectKey(key: StorageKey) returns (removed: bool)
      requires Ready()
      modifies store`blobs
      ensures Ready()
      ensures removed <==> key in old(store.blobs) && !Referenced(repository.rows, key)
      ensures store.blobs == if removed then old(store.blobs) - {key} else old(store.blobs)
    {
      var referenced := repository.HasActiveStorageReference(key);
      removed := false;
      if !referenced {
        UnreferencedBlobKeepsConsistent(store.sha, repository.rows, store.staging, store.blobs, key);
        removed := store.Remove(key);
        assert !removed ==> store.blobs == old(store.blobs);
      }
    }

    /** The collection phase removes a candidate blob exactly when no available row refers to it. */
    method Collect(keys: seq<StorageKey>) returns (removed: nat, ghost gone: set<StorageKey>)
      requires Ready()
      modifies store`blobs
      ensures Ready()
      ensures store.blobs == old(store.blobs) - gone && removed == |gone|
      ensures forall k :: k in gone <==> k in old(store.blobs) && k in keys && !Referenced(repository.rows, k)
    {
      hide Consistent, Referenced;
      removed, gone := 0, {};
      for i := 0 to |keys|
        invariant Ready()
        invariant store.blobs == old(store.blobs) - gone && removed == |gone|
        invariant forall k :: k in gone <==> k in old(store.blobs) && k in keys[..i] && !Referenced(repository.rows, k)
      {
        var ok := CollectKey(keys[i]);
        if ok {
          gone := gone + {keys[i]};
          removed := removed + 1;
        }
        assert keys[..i + 1] == keys[..i] + [keys[i]];
      }
      assert keys[..|keys|] == keys;
    }

    /** The audit counts exactly the listed rows without a storage key, without a blob, or whose blob's name or size
        differs. */
    method Audit(ids: seq<ContentId>) returns (errors: nat)
      requires Distinct(ids) && forall i :: 0 <= i < |ids| ==> ids[i] in repository.rows
      ensures errors == |Damaged(repository.rows, store.blobs, Listed(ids))|
    {
      errors := 0;
      for i := 0 to |ids|
        invariant errors == |Damaged(repository.rows, store.blobs, Listed(ids[..i]))|
      {
        assert Listed(ids[..i + 1]) == Listed(ids[..i]) + {ids[i]} && ids[i] !in Listed(ids[..i]);
        OneMoreAudited(repository.rows, store.blobs, Listed(ids[..i]), ids[i]);
        var row := repository.rows[ids[i]];
        if row.storageKey.None? {
          errors := errors + 1;
        } else {
          var observed := store.Stat(row.storageKey.value);
          if observed.None? || Some(observed.value.sha256) != row.sha256 || Some(observed.value.size) != row.size {
            errors := errors + 1;
          }
        }
      }
      assert ids[..|ids|] == ids;
    }

    /** The phases after recovery: orphan files, unreferenced blobs, audit. */
    method Sweep(known: set<Handle>, cutoff: int, gcCutoff: int, batchSize: nat)
      returns (orphans: nat, blobs: nat, errors: nat, ghost files: set<Handle>, ghost gone: set<StorageKey>)
      requires Ready()
      modifies store`staging, store`blobs
      ensures Ready() && errors == 0
      // exactly the listed orphans go, and all of them when the batch holds all files
      ensures store.staging == old(store.staging) - files && orphans == |files|
      ensures forall h :: h in files ==> Orphan(old(store.staging), known, cutoff, h)
      ensures |old(store.staging).Keys| <= batchSize ==>
                forall h :: h in store.staging ==> !Orphan(store.staging, known, cutoff, h)
      // exactly the listed unreferenced candidates go, and all of them when the batch holds all candidates
      ensures store.blobs == old(store.blobs) - gone && blobs == |gone| && gone <= old(store.blobs).Keys
      ensures forall k :: k in gone ==> k in CandidateKeys(repository.rows, gcCutoff) && !Referenced(repository.rows, k)
      ensures |CandidateKeys(repository.rows, gcCutoff)| <= batchSize ==>
                forall k :: k in store.blobs && k in CandidateKeys(repository.rows, gcCutoff) ==>
                  Referenced(repository.rows, k)
    {
      hide Consistent, Orphan, Referenced, CandidateKeys;
      var entries := store.ListStaging(batchSize);
      orphans, files := RemoveOrphans(entries, known, cutoff);
      if |old(store.staging).Keys| <= batchSize {
        WholeSetListed(entries, old(store.staging).Keys);
        forall h | h in store.staging ensures !Orphan(store.staging, known, cutoff, h) {
          OrphanElsewhere(old(store.staging), files, known, cutoff, h);
        }
      }
      var keys := Candidates(gcCutoff, batchSize);
      if |CandidateKeys(repository.rows, gcCutoff)| <= batchSize {
        WholeSetListed(keys, CandidateKeys(repository.rows, gcCutoff));
      }
      blobs, gone := Collect(keys);
      var available := set id | id in repository.rows && repository.rows[id].state == Available;
      var ids := repository.Oldest(available, batchSize);
      errors := Audit(ids);
      NothingDamaged(store.sha, repository.rows, store.staging, store.blobs, Listed(ids));
    }

    /** The first phase of a pass: the stale rows of the batch are recovered or failed. */
    method RecoverStale(now: int, cutoff: int, batchSize: nat) returns (recovered: nat, failedStale: nat)
      requires Ready()
      modifies repository, store
      ensures Ready()
      ensures OnlySettles(old(repository.rows), repository.rows, StaleIds(old(repository.rows), cutoff))
      ensures OnlyFilesOf(old(store.staging), store.staging, StaleIds(old(repository.rows), cutoff),
                          KnownHandles(old(repository.rows)))
      ensures Extends(store.sha, old(store.blobs), store.blobs)
      ensures NewBlobsUsed(old(store.blobs), store.blobs, repository.rows)
      ensures |StaleIds(old(repository.rows), cutoff)| <= batchSize ==>
                && AllSettled(repository.rows, StaleIds(old(repository.rows), cutoff), recovered, failedStale)
                && (Injective(store.sha) ==> NothingGivenUp(old(repository.rows), old(store.staging), repository.rows,
                                                            StaleIds(old(repository.rows), cutoff)))
    {
      hide Consistent, Injective, NothingGivenUp, AllSettled, KnownHandles, Extends, NewBlobsUsed;
      ghost var staleIds := StaleIds(repository.rows, cutoff);
      var stale := repository.Oldest(StaleIds(repository.rows, cutoff), batchSize);
      recovered, failedStale := RecoverAll(stale, now);
      if |staleIds| <= batchSize {
        WholeSetListed(stale, staleIds);
        assert Listed(stale) == staleIds;
      }
    }

    /** One maintenance pass running alone, from any stopping point. */
    method RunOnce(now: int, staleAfter: nat, gcGrace: nat, batchSize: nat) returns (result: MaintenanceResult)
      requires Ready() && staleAfter > 0 && gcGrace > 0 && 1 <= batchSize <= 1000
      modifies repository, store
      ensures Ready()
      // whatever the batch, only rows that have been creating for too long change, and each changed row is settled
      ensures OnlySettles(old(repository.rows), repository.rows, StaleIds(old(repository.rows), now - staleAfter))
      // when the batch is large enough every stale row is settled and counted once, and no payload on disk given up
      ensures |StaleIds(old(repository.rows), now - staleAfter)| <= batchSize ==>
                && AllSettled(repository.rows, StaleIds(old(repository.rows), now - staleAfter),
                              result.recovered, result.failedStale)
                && (Injective(store.sha) ==> NothingGivenUp(old(repository.rows), old(store.staging), repository.rows,
                                                            StaleIds(old(repository.rows), now - staleAfter)))
      ensures FilesSwept(old(store.staging), store.staging, KnownHandles(old(repository.rows)),
                         StaleIds(old(repository.rows), now - staleAfter), now - staleAfter, batchSize,
                         result.orphanStagingRemoved)
      ensures BlobsSwept(old(store.blobs), store.blobs, repository.rows, now - gcGrace, batchSize,
                         result.finalBlobsRemoved)
      ensures result.integrityErrors == 0
    {
      hide Consistent, Injective, Referenced, CandidateKeys, KnownHandles, Orphan, OnlySettles, AllSettled,
           NothingGivenUp, Extends, NewBlobsUsed, StaleIds, OnlyFilesOf, FilesSwept, BlobsSwept;
      var known := KnownHandles(repository.rows);
      var recovered, failedStale := RecoverStale(now, now - staleAfter, batchSize);
      ghost var staging, stored := store.staging, store.blobs;
      var orphans, blobs, errors, files, gone := Sweep(known, now - staleAfter, now - gcGrace, batchSize);
      SweepsFiles(old(store.staging), staging, files, store.staging, known,
                  StaleIds(old(repository.rows), now - staleAfter), now - staleAfter, batchSize);
      SweepsBlobs(store.sha, old(store.blobs), stored, gone, store.blobs, repository.rows, now - gcGrace, batchSize);
      result := MaintenanceResult(recovered, failedStale, orphans, blobs, errors);
    }

    /** gc_storage_candidates: at most `limit` distinct keys of old rows that are no longer active. */
    method Candidates(olderThan: int, limit: nat) returns (keys: seq<StorageKey>)
      ensures Distinct(keys) && forall i :: 0 <= i < |keys| ==> keys[i] in CandidateKeys(repository.rows, olderThan)
      ensures |keys| == var n := |CandidateKeys(repository.rows, olderThan)|; if n < limit then n else limit
    {
      hide CandidateKeys;
      keys := [];
      var all := CandidateKeys(repository.rows, olderThan);
      var rest := all;
      while rest != {} && |keys| < limit
        invariant rest <= all && |keys| <= limit && |keys| + |rest| == |all| && Distinct(keys)
        invariant forall i :: 0 <= i < |keys| ==> keys[i] in all && keys[i] !in rest
        decreases rest
      {
        var key :| key in rest;
        keys := keys + [key];
        rest := rest - {key};
      }
    }
  }
}
