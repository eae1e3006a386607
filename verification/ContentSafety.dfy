/** What every step of the content protocol keeps. The proof is rely/guarantee: each step
    guarantees Rely to the other tasks, and Rely is enough to keep every other task's facts. */
module ContentSafety {
  import opened Basics
  import opened ContentModels
  import opened ContentRepository
  import opened ContentProtocol

  /** The shape of a row in each lifecycle state. */
  predicate RowOk(row: Row) {
    && row.revision >= 1
    && row.sha256.Some? == row.size.Some?
    && (row.storageKey.Some? ==> row.sha256.Some? && row.storageKey.value == StorageKey(row.sha256.value))
    && match row.state
       case Creating => row.storageKey.None? && row.stagingKey.Some? == row.sha256.Some?
                        && row.revision == if row.sha256.Some? then 2 else 1
       case Available => row.storageKey.Some? && row.stagingKey.None?
       case Failed => row.storageKey.None?
       case Expired => row.storageKey.Some? && row.stagingKey.None?
       case Deleted => true
  }

  /** One committed change of a row. */
  predicate RowNext(a: Row, b: Row) {
    && b.revision == a.revision + 1
    && b.owner == a.owner && b.origin == a.origin
    && (a.state == b.state || CanTransition(a.state, b.state))
    && (a.sha256.Some? ==> b.sha256 == a.sha256 && b.size == a.size)
    && (a.state != Creating ==> b.storageKey == a.storageKey)
  }

  ghost predicate Evolves(rows: Rows, rows': Rows) {
    forall id :: id in rows ==> id in rows' && (rows'[id] == rows[id] || RowNext(rows[id], rows'[id]))
  }

  /** A staged payload that is either gone or closed and exactly as recorded. */
  predicate Clean(sha: Bytes -> Digest, w: World, blob: StagedBlob) {
    && blob.handle in w.handles
    && (blob.handle in w.staging ==>
          w.staging[blob.handle].writer.None? && Matches(sha, w.staging[blob.handle].data, blob.sha256, blob.size))
  }

  ghost predicate BlobsOk(sha: Bytes -> Digest, w: World) {
    forall k :: k in w.blobs ==> sha(w.blobs[k]) == k.sha256
  }

  /** The blob a row points at is present with the recorded size. */
  predicate Stored(w: World, row: Row) {
    row.storageKey.Some? && row.size.Some? && row.storageKey.value in w.blobs
    && |w.blobs[row.storageKey.value]| == row.size.value
  }

  /** A row names only staging files of its own content id. */
  predicate OwnHandle(id: ContentId, row: Row) {
    row.stagingKey.Some? ==> row.stagingKey.value.content == id
  }

  ghost predicate RowsOk(w: World) {
    forall id :: id in w.rows ==>
      RowOk(w.rows[id]) && OwnHandle(id, w.rows[id]) && (w.rows[id].state == Available ==> Stored(w, w.rows[id]))
  }

  predicate StagedClean(sha: Bytes -> Digest, w: World, row: Row) {
    row.stagingKey.Some? && row.sha256.Some? && row.size.Some? ==>
      Clean(sha, w, StagedBlob(row.stagingKey.value, row.sha256.value, row.size.value))
  }

  ghost predicate StagingOk(sha: Bytes -> Digest, w: World) {
    && (forall h :: h in w.staging ==> h in w.handles)
    && forall id :: id in w.rows && w.rows[id].state == Creating ==> StagedClean(sha, w, w.rows[id])
  }

  /** At most one active row per representation identity. */
  ghost predicate UniqueClaims(rows: Rows) {
    forall a, b | a in rows && b in rows && Active(rows[a].state) && Active(rows[b].state) ::
      rows[a].origin.Some? && rows[a].origin == rows[b].origin ==> a == b
  }

  /** Every derived row has exactly one relation, from its source, and nothing else has one. */
  ghost predicate Related(rows: Rows, relations: multiset<Relation>) {
    && (forall id :: id in rows && rows[id].origin.Some? ==> relations[Relation(rows[id].origin.value.source, id)] == 1)
    && forall r :: r in relations ==>
         r.target in rows && rows[r.target].origin.Some? && rows[r.target].origin.value.source == r.source
  }

  /** The storage key whose advisory lock a task holds. */
  function Held(task: Task): Option<StorageKey> {
    match task
    case Locked(job) => Some(job.Key())
    case Verified(job) => Some(job.Key())
    case Checking(key) => Some(key)
    case Removing(key) => Some(key)
    case Closing(key) => Some(key)
    case _ => None
  }

  ghost predicate LocksOk(w: World) {
    && (forall k :: k in w.locks ==> w.locks[k] in w.tasks && Held(w.tasks[w.locks[k]]) == Some(k))
    && forall t :: t in w.tasks && Held(w.tasks[t]).Some? ==>
         Held(w.tasks[t]).value in w.locks && w.locks[Held(w.tasks[t]).value] == t
  }

  ghost predicate JobOk(sha: Bytes -> Digest, w: World, job: Job) {
    && job.id in w.rows && w.rows[job.id].revision >= job.revision
    && (w.rows[job.id].revision == job.revision ==>
          w.rows[job.id].sha256 == Some(job.blob.sha256) && w.rows[job.id].size == Some(job.blob.size))
    && Clean(sha, w, job.blob)
    && (job.purpose.Ingesting? ==> Matches(sha, Concat(job.purpose.stream), job.blob.sha256, job.blob.size))
  }

  ghost predicate TaskOk(sha: Bytes -> Digest, w: World, t: TaskId, task: Task) {
    match task
    case Writing(id, handle, stream, next) =>
      && handle in w.handles && handle.content == id && next <= |stream|
      && (handle in w.staging ==> w.staging[handle] == File(Concat(stream[..next]), Some(t)))
    case Staged(id, stream, blob) =>
      Clean(sha, w, blob) && blob.handle.content == id && Matches(sha, Concat(stream), blob.sha256, blob.size)
    case Finalizing(job) => JobOk(sha, w, job)
    case Probed(job) => JobOk(sha, w, job)
    case Linked(job) => JobOk(sha, w, job)
    case Finalized(job) => JobOk(sha, w, job)
    case Locked(job) => JobOk(sha, w, job)
    case Verified(job) =>
      JobOk(sha, w, job) && job.Key() in w.blobs && |w.blobs[job.Key()]| == job.blob.size
    case Returned(ref, origin, source) =>
      && ref.id in w.rows && w.rows[ref.id].origin == origin
      && w.rows[ref.id].sha256 == Some(ref.sha256) && w.rows[ref.id].size == Some(ref.size)
      && w.rows[ref.id].state != Creating && w.rows[ref.id].state != Failed
      && (source.Some? ==> Matches(sha, Concat(source.value), ref.sha256, ref.size))
    case Removing(key) => !Referenced(w.rows, key)
    case _ => true
  }

  ghost predicate TasksOk(sha: Bytes -> Digest, w: World) {
    forall t :: t in w.tasks ==> TaskOk(sha, w, t, w.tasks[t])
  }

  ghost predicate Inv(sha: Bytes -> Digest, w: World) {
    && BlobsOk(sha, w) && RowsOk(w) && StagingOk(sha, w)
    && UniqueClaims(w.rows) && Related(w.rows, w.relations)
    && LocksOk(w) && TasksOk(sha, w)
  }

  /** Staging names are drawn once, and only its writer changes a file that stays. */
  ghost predicate StagingKept(w: World, w': World, actor: Option<TaskId>) {
    && w.handles <= w'.handles
    && forall h :: h in w.handles && h in w'.staging ==>
         h in w.staging && ((actor.Some? && w.staging[h].writer == actor) || w'.staging[h] == w.staging[h])
  }

  /** A key locked by another task keeps its lock and its blob and gains no reference. */
  ghost predicate LocksKept(w: World, w': World, actor: Option<TaskId>) {
    forall k :: k in w.locks && Some(w.locks[k]) != actor ==>
      && (k in w.blobs ==> k in w'.blobs && w'.blobs[k] == w.blobs[k])
      && (Referenced(w'.rows, k) ==> Referenced(w.rows, k))
  }

  /** Only the acting task starts, moves or ends. */
  ghost predicate OnlyActor(w: World, w': World, actor: Option<TaskId>) {
    forall t :: Some(t) != actor ==> (t in w'.tasks <==> t in w.tasks) && (t in w.tasks ==> w'.tasks[t] == w.tasks[t])
  }

  /** No task changes a row that has left the creating state. */
  ghost predicate PublishedKept(w: World, w': World, actor: Option<TaskId>) {
    actor.Some? ==>
      forall id :: id in w.rows && id in w'.rows && w.rows[id].state != Creating ==> w'.rows[id] == w.rows[id]
  }

  /** What the tasks other than the actor may rely on across a step. */
  ghost predicate Rely(w: World, w': World, actor: Option<TaskId>) {
    && Evolves(w.rows, w'.rows) && PublishedKept(w, w', actor) && StagingKept(w, w', actor)
    && LocksKept(w, w', actor) && OnlyActor(w, w', actor)
  }

  function Actor(e: Event): Option<TaskId> {
    match e
    case LoseStaging(_) => None
    case SaveInspection(_, _, _) => None
    case Retire(_, _, _) => None
    case _ => Some(e.t)
  }

  lemma CleanKept(sha: Bytes -> Digest, w: World, w': World, actor: Option<TaskId>, blob: StagedBlob)
    requires Clean(sha, w, blob) && StagingKept(w, w', actor)
    ensures Clean(sha, w', blob)
  {}

  lemma JobKept(sha: Bytes -> Digest, w: World, w': World, actor: Option<TaskId>, job: Job)
    requires JobOk(sha, w, job) && Evolves(w.rows, w'.rows) && StagingKept(w, w', actor)
    ensures JobOk(sha, w', job)
  {
    CleanKept(sha, w, w', actor, job.blob);
  }

  /** Rely keeps the facts of every task but the actor. */
  lemma RelyKeepsTask(sha: Bytes -> Digest, w: World, w': World, actor: Option<TaskId>, t: TaskId, task: Task)
    requires TaskOk(sha, w, t, task) && Rely(w, w', actor) && Some(t) != actor
    requires Held(task).Some? ==> Held(task).value in w.locks && w.locks[Held(task).value] == t
    ensures TaskOk(sha, w', t, task)
  {
    hide JobOk, Clean, OnlyActor, PublishedKept, Referenced;
    match task
    case Staged(_, _, blob) => CleanKept(sha, w, w', actor, blob);
    case Finalizing(job) => JobKept(sha, w, w', actor, job);
    case Probed(job) => JobKept(sha, w, w', actor, job);
    case Linked(job) => JobKept(sha, w, w', actor, job);
    case Finalized(job) => JobKept(sha, w, w', actor, job);
    case Locked(job) => JobKept(sha, w, w', actor, job);
    case Verified(job) => JobKept(sha, w, w', actor, job);
    case Returned(_, _, _) => ReturnedKept(sha, w, w', t, task);
    case _ => { hide Evolves; }
  }

  lemma ReturnedKept(sha: Bytes -> Digest, w: World, w': World, t: TaskId, task: Task)
    requires task.Returned? && TaskOk(sha, w, t, task) && Evolves(w.rows, w'.rows)
    ensures TaskOk(sha, w', t, task)
  {
    assert task.ref.id in w'.rows;
  }

  /** The facts about the shared tables and files alone. */
  ghost predicate Shared(sha: Bytes -> Digest, w: World) {
    BlobsOk(sha, w) && RowsOk(w) && StagingOk(sha, w) && UniqueClaims(w.rows) && Related(w.rows, w.relations)
  }

  /** A task returns a reference only to a row that is available at that moment. */
  predicate ReturnsAvailable(w: World, task: Task) {
    task.Returned? ==> task.ref.id in w.rows && w.rows[task.ref.id].state == Available
  }

  /** The acting task, if it goes on, has the facts of its new program point. */
  ghost predicate ActorOk(sha: Bytes -> Digest, w': World, actor: Option<TaskId>) {
    actor.Some? && actor.value in w'.tasks ==>
      TaskOk(sha, w', actor.value, w'.tasks[actor.value]) && ReturnsAvailable(w', w'.tasks[actor.value])
  }

  ghost predicate Keeps(sha: Bytes -> Digest, w: World, w': World, actor: Option<TaskId>) {
    Shared(sha, w') && LocksOk(w') && Rely(w, w', actor) && ActorOk(sha, w', actor)
  }

  lemma KeepsIsEnough(sha: Bytes -> Digest, w: World, w': World, actor: Option<TaskId>)
    requires Inv(sha, w) && Keeps(sha, w, w', actor)
    ensures Inv(sha, w')
  {
    forall t | t in w'.tasks ensures TaskOk(sha, w', t, w'.tasks[t]) {
      if Some(t) != actor {
        assert TaskOk(sha, w, t, w.tasks[t]);
        RelyKeepsTask(sha, w, w', actor, t, w.tasks[t]);
      }
    }
  }

  // ---- what the invariant says of one task and one row ----

  lemma TaskFacts(sha: Bytes -> Digest, w: World, t: TaskId)
    requires Inv(sha, w) && t in w.tasks
    ensures TaskOk(sha, w, t, w.tasks[t])
    ensures Held(w.tasks[t]).Some? ==> Held(w.tasks[t]).value in w.locks && w.locks[Held(w.tasks[t]).value] == t
  {}

  lemma RowFacts(sha: Bytes -> Digest, w: World, id: ContentId)
    requires Inv(sha, w) && id in w.rows
    ensures RowOk(w.rows[id]) && OwnHandle(id, w.rows[id]) && (w.rows[id].state == Available ==> Stored(w, w.rows[id]))
    ensures w.rows[id].state == Creating ==> StagedClean(sha, w, w.rows[id])
  {}

  lemma InvParts(sha: Bytes -> Digest, w: World)
    requires Inv(sha, w)
    ensures Shared(sha, w) && LocksOk(w)
    ensures forall h :: h in w.staging ==> h in w.handles
  {}

  // ---- locks ----

  /** A task that moves on without a lock, having released what it held. */
  lemma LocksAfterUnlock(w: World, w': World, t: TaskId)
    requires LocksOk(w) && w'.locks == w.Unlock(t).locks
    requires t in w'.tasks ==> Held(w'.tasks[t]).None?
    requires OnlyActor(w, w', Some(t))
    ensures LocksOk(w')
  {}

  /** A task that keeps what it held, or holds nothing before and after. */
  lemma LocksAfterMove(w: World, w': World, t: TaskId)
    requires LocksOk(w) && w'.locks == w.locks
    requires t in w'.tasks ==> Held(w'.tasks[t]) == if t in w.tasks then Held(w.tasks[t]) else None
    requires t in w.tasks && t !in w'.tasks ==> Held(w.tasks[t]).None?
    requires OnlyActor(w, w', Some(t))
    ensures LocksOk(w')
  {}

  lemma LocksAfterLock(w: World, w': World, t: TaskId, key: StorageKey)
    requires LocksOk(w) && t in w.tasks && Held(w.tasks[t]).None? && key !in w.locks
    requires w'.locks == w.locks[key := t] && t in w'.tasks && Held(w'.tasks[t]) == Some(key)
    requires OnlyActor(w, w', Some(t))
    ensures LocksOk(w')
  {}

  // ---- steps that change only the acting task and its locks ----

  ghost predicate SameShared(w: World, w': World) {
    w'.rows == w.rows && w'.relations == w.relations && w'.staging == w.staging && w'.handles == w.handles
    && w'.blobs == w.blobs
  }

  lemma LocalStep(sha: Bytes -> Digest, w: World, w': World, t: TaskId)
    requires Inv(sha, w) && SameShared(w, w') && OnlyActor(w, w', Some(t)) && LocksOk(w')
    requires t in w'.tasks ==> TaskOk(sha, w, t, w'.tasks[t]) && ReturnsAvailable(w, w'.tasks[t])
    ensures Keeps(sha, w, w', Some(t))
  {
    if t in w'.tasks { RelyKeepsNothingChanged(sha, w, w', t, w'.tasks[t]); }
  }

  lemma RelyKeepsNothingChanged(sha: Bytes -> Digest, w: World, w': World, t: TaskId, task: Task)
    requires SameShared(w, w') && TaskOk(sha, w, t, task)
    ensures TaskOk(sha, w', t, task)
  {}

  // ---- steps that change one row ----

  /** One row changes within its lifecycle; a row that becomes available does so under its lock. */
  ghost predicate RowUpdate(sha: Bytes -> Digest, w: World, w': World, id: ContentId, actor: Option<TaskId>) {
    && id in w.rows && id in w'.rows && w'.rows == w.rows[id := w'.rows[id]]
    && w'.relations == w.relations && w'.staging == w.staging && w'.handles == w.handles && w'.blobs == w.blobs
    && RowNext(w.rows[id], w'.rows[id]) && RowOk(w'.rows[id]) && OwnHandle(id, w'.rows[id])
    && (actor.Some? ==> w.rows[id].state == Creating)
    && (w'.rows[id].state == Available ==> Stored(w, w'.rows[id]))
    && (w'.rows[id].state == Creating ==> StagedClean(sha, w, w'.rows[id]))
    && (w'.rows[id].state == Available && w.rows[id].state != Available ==>
          w'.rows[id].storageKey.value in w.locks && Some(w.locks[w'.rows[id].storageKey.value]) == actor)
  }

  lemma RowStep(sha: Bytes -> Digest, w: World, w': World, id: ContentId, actor: Option<TaskId>)
    requires Shared(sha, w) && RowUpdate(sha, w, w', id, actor)
    requires OnlyActor(w, w', actor) && LocksOk(w') && ActorOk(sha, w', actor)
    ensures Keeps(sha, w, w', actor)
  {
    RowStepShared(sha, w, w', id, actor);
    RowStepLocks(sha, w, w', id, actor);
  }

  lemma RowStepLocks(sha: Bytes -> Digest, w: World, w': World, id: ContentId, actor: Option<TaskId>)
    requires RowUpdate(sha, w, w', id, actor)
    ensures LocksKept(w, w', actor)
  {
    forall k | k in w.locks && Some(w.locks[k]) != actor && Referenced(w'.rows, k) ensures Referenced(w.rows, k) {
      var r :| r in w'.rows && w'.rows[r].state == Available && w'.rows[r].storageKey == Some(k);
      assert r in w.rows && w.rows[r].state == Available && w.rows[r].storageKey == Some(k);
    }
  }

  lemma RowStepShared(sha: Bytes -> Digest, w: World, w': World, id: ContentId, actor: Option<TaskId>)
    requires Shared(sha, w) && RowUpdate(sha, w, w', id, actor)
    ensures Shared(sha, w')
  {
    UpdateClaims(w.rows, id, w'.rows[id], w.relations);
    forall r | r in w'.rows
      ensures RowOk(w'.rows[r]) && OwnHandle(r, w'.rows[r])
      ensures w'.rows[r].state == Available ==> Stored(w', w'.rows[r])
    {
      assert r != id ==> w'.rows[r] == w.rows[r];
    }
    forall r | r in w'.rows && w'.rows[r].state == Creating ensures StagedClean(sha, w', w'.rows[r]) {
      assert r != id ==> w'.rows[r] == w.rows[r] && StagedClean(sha, w, w.rows[r]);
    }
  }

  lemma UpdateClaims(rows: Rows, id: ContentId, row: Row, relations: multiset<Relation>)
    requires UniqueClaims(rows) && Related(rows, relations) && id in rows && RowNext(rows[id], row)
    ensures UniqueClaims(rows[id := row]) && Related(rows[id := row], relations)
  {
    hide UniqueClaims, Related;
    StaysUnique(rows, id, row);
    StaysRelated(rows, id, row, relations);
  }

  lemma StaysUnique(rows: Rows, id: ContentId, row: Row)
    requires UniqueClaims(rows) && id in rows && RowNext(rows[id], row)
    ensures UniqueClaims(rows[id := row])
  {
    assert row.origin == rows[id].origin && (Active(row.state) ==> Active(rows[id].state));
    hide RowNext;
  }

  lemma StaysRelated(rows: Rows, id: ContentId, row: Row, relations: multiset<Relation>)
    requires Related(rows, relations) && id in rows && RowNext(rows[id], row)
    ensures Related(rows[id := row], relations)
  {
    assert row.origin == rows[id].origin;
    hide RowNext;
  }

  // ---- steps that insert a row ----

  lemma InsertStep(sha: Bytes -> Digest, w: World, w': World, t: TaskId, id: ContentId, owner: string,
                   origin: Option<Identity>, now: int, stream: seq<Bytes>)
    requires Shared(sha, w) && LocksOk(w) && id !in w.rows && (origin.Some? ==> !Claimed(w.rows, origin.value))
    requires w' == Inserted(w, id, owner, origin, now).Run(t, Reserved(id, stream))
    requires t in w.tasks ==> Held(w.tasks[t]).None?
    ensures Keeps(sha, w, w', Some(t))
  {
    hide UniqueClaims, Related, LocksOk, RowsOk, StagingOk, Claimed, StagedClean, Referenced, Rely;
    InsertRely(w, w', t, id, owner, origin, now, stream);
    LocksAfterMove(w, w', t);
    InsertClaims(w.rows, id, NewRow(owner, origin, now));
    InsertRelations(w, w', id, owner, origin, now);
    InsertFiles(sha, w, w', id, owner, origin, now);
  }

  lemma InsertRely(w: World, w': World, t: TaskId, id: ContentId, owner: string, origin: Option<Identity>, now: int,
                   stream: seq<Bytes>)
    requires id !in w.rows && w' == Inserted(w, id, owner, origin, now).Run(t, Reserved(id, stream))
    ensures Rely(w, w', Some(t))
  {
    hide Referenced;
    InsertReferences(w, w', id, owner, origin, now);
  }

  lemma InsertFiles(sha: Bytes -> Digest, w: World, w': World, id: ContentId, owner: string, origin: Option<Identity>,
                    now: int)
    requires RowsOk(w) && StagingOk(sha, w) && id !in w.rows && w'.rows == w.rows[id := NewRow(owner, origin, now)]
    requires w'.staging == w.staging && w'.handles == w.handles && w'.blobs == w.blobs
    ensures RowsOk(w') && StagingOk(sha, w')
  {
    forall r | r in w'.rows && w'.rows[r].state == Creating ensures StagedClean(sha, w', w'.rows[r]) {
      assert r != id ==> w'.rows[r] == w.rows[r] && StagedClean(sha, w, w.rows[r]);
    }
  }

  lemma InsertReferences(w: World, w': World, id: ContentId, owner: string, origin: Option<Identity>, now: int)
    requires id !in w.rows && w'.rows == w.rows[id := NewRow(owner, origin, now)] && w'.blobs == w.blobs
    ensures LocksKept(w, w', None)
  {
    forall k | Referenced(w'.rows, k) ensures Referenced(w.rows, k) {
      var r :| r in w'.rows && w'.rows[r].state == Available && w'.rows[r].storageKey == Some(k);
      assert r in w.rows && w.rows[r].state == Available && w.rows[r].storageKey == Some(k);
    }
  }

  lemma InsertClaims(rows: Rows, id: ContentId, row: Row)
    requires UniqueClaims(rows) && id !in rows && (row.origin.Some? ==> !Claimed(rows, row.origin.value))
    ensures UniqueClaims(rows[id := row])
  {}

  lemma InsertRelations(w: World, w': World, id: ContentId, owner: string, origin: Option<Identity>, now: int)
    requires Related(w.rows, w.relations) && id !in w.rows
    requires w'.rows == w.rows[id := NewRow(owner, origin, now)]
    requires w'.relations == Inserted(w, id, owner, origin, now).relations
    ensures Related(w'.rows, w'.relations)
  {
    if origin.Some? {
      var added := Relation(origin.value.source, id);
      assert added !in w.relations;
      assert forall r :: w'.relations[r] == if r == added then 1 else w.relations[r];
    }
  }

  // ---- steps that change staging files ----

  /** Files are only added under new names, removed, or changed by their writer. */
  lemma StagingStep(sha: Bytes -> Digest, w: World, w': World, actor: Option<TaskId>)
    requires Shared(sha, w) && StagingKept(w, w', actor) && OnlyActor(w, w', actor) && LocksOk(w')
    requires w'.rows == w.rows && w'.relations == w.relations && w'.blobs == w.blobs
    requires forall h :: h in w'.staging ==> h in w'.handles
    requires ActorOk(sha, w', actor)
    ensures Keeps(sha, w, w', actor)
  {
    forall id | id in w'.rows && w'.rows[id].state == Creating ensures StagedClean(sha, w', w'.rows[id]) {
      var row := w.rows[id];
      assert StagedClean(sha, w, row);
      if row.stagingKey.Some? && row.sha256.Some? && row.size.Some? {
        CleanKept(sha, w, w', actor, StagedBlob(row.stagingKey.value, row.sha256.value, row.size.value));
      }
    }
  }

  // ---- steps that change a blob ----

  lemma LinkedKeeps(sha: Bytes -> Digest, w: World, w': World, t: TaskId, job: Job)
    requires Inv(sha, w) && w.Is(t, Probed(job)) && job.blob.handle in w.staging && job.Key() !in w.blobs
    requires w' == w.(blobs := w.blobs[job.Key() := w.staging[job.blob.handle].data]).Run(t, Linked(job))
    ensures Keeps(sha, w, w', Some(t))
  {
    hide Inv, UniqueClaims, Related, LocksOk, RowsOk, StagingOk, Referenced;
    InvParts(sha, w);
    TaskFacts(sha, w, t);
    LocksAfterMove(w, w', t);
    RowsStayStored(w, w', {});
    SharedSameFiles(sha, w, w');
  }

  lemma RemovedKeeps(sha: Bytes -> Digest, w: World, w': World, t: TaskId, key: StorageKey)
    requires Inv(sha, w) && w.Is(t, Removing(key))
    requires w' == w.(blobs := w.blobs - {key}).Run(t, Closing(key))
    ensures Keeps(sha, w, w', Some(t))
  {
    hide Inv, UniqueClaims, Related, LocksOk, RowsOk, StagingOk, Referenced;
    InvParts(sha, w);
    TaskFacts(sha, w, t);
    LocksAfterMove(w, w', t);
    RowsStayStored(w, w', {key});
    SharedSameFiles(sha, w, w');
  }

  lemma RowsStayStored(w: World, w': World, removed: set<StorageKey>)
    requires RowsOk(w) && w'.rows == w.rows && (forall k :: k in removed ==> !Referenced(w.rows, k))
    requires forall k :: k in w.blobs && k !in removed ==> k in w'.blobs && w'.blobs[k] == w.blobs[k]
    ensures RowsOk(w')
  {
    forall id | id in w'.rows && w'.rows[id].state == Available ensures Stored(w', w'.rows[id]) {
      assert Stored(w, w.rows[id]);
    }
  }

  lemma SharedSameFiles(sha: Bytes -> Digest, w: World, w': World)
    requires StagingOk(sha, w) && w'.rows == w.rows && w'.staging == w.staging && w'.handles == w.handles
    ensures StagingOk(sha, w')
  {
    forall id | id in w'.rows && w'.rows[id].state == Creating ensures StagedClean(sha, w', w'.rows[id]) {
      assert StagedClean(sha, w, w.rows[id]);
    }
  }

  // ---- every step ----

  /** A step that only moves the acting task, holding the same lock as before. */
  lemma MovedKeeps(sha: Bytes -> Digest, w: World, w': World, t: TaskId, task: Task)
    requires Inv(sha, w) && w' == w.Run(t, task) && TaskOk(sha, w, t, task) && ReturnsAvailable(w, task)
    requires Held(task) == if t in w.tasks then Held(w.tasks[t]) else None
    ensures Keeps(sha, w, w', Some(t))
  {
    hide Inv, Shared, LocksOk, Keeps;
    InvParts(sha, w);
    LocksAfterMove(w, w', t);
    LocalStep(sha, w, w', t);
  }

  /** A step that ends the acting task and its transaction. */
  lemma EndedKeeps(sha: Bytes -> Digest, w: World, w': World, t: TaskId)
    requires Inv(sha, w) && w' == w.Unlock(t).End(t)
    ensures Keeps(sha, w, w', Some(t))
  {
    hide Inv, Shared, LocksOk, Keeps;
    InvParts(sha, w);
    LocksAfterUnlock(w, w', t);
    LocalStep(sha, w, w', t);
  }

  /** A step that ends the transaction of the acting task, which goes on without a lock. */
  lemma ReleasedKeeps(sha: Bytes -> Digest, w: World, w': World, t: TaskId, next: Task)
    requires Inv(sha, w) && t in w.tasks && w' == w.Unlock(t).Run(t, next) && (next.Failing? || next.Marking?)
    ensures Keeps(sha, w, w', Some(t))
  {
    hide Inv, Shared, LocksOk, Keeps;
    InvParts(sha, w);
    LocksAfterUnlock(w, w', t);
    LocalStep(sha, w, w', t);
  }

  lemma RaisedKeeps(sha: Bytes -> Digest, w: World, w': World, t: TaskId)
    requires Inv(sha, w) && t in w.tasks && w' == Raised(w, t, w.tasks[t])
    ensures Keeps(sha, w, w', Some(t))
  {
    hide Inv, Keeps, Excepted;
    ExceptedCleansUp(w.tasks[t]);
    match Excepted(w.tasks[t])
    case Some(next) => ReleasedKeeps(sha, w, w', t, next);
    case None => EndedKeeps(sha, w, w', t);
  }

  lemma ExceptedCleansUp(task: Task)
    ensures Excepted(task).Some? ==> Excepted(task).value.Failing? || Excepted(task).value.Marking?
  {}

  lemma LockedKeeps(sha: Bytes -> Digest, w: World, w': World, t: TaskId, key: StorageKey, task: Task)
    requires Inv(sha, w) && t in w.tasks && Held(w.tasks[t]).None? && key !in w.locks
    requires Held(task) == Some(key) && TaskOk(sha, w, t, task)
    requires w' == w.(locks := w.locks[key := t]).Run(t, task)
    ensures Keeps(sha, w, w', Some(t))
  {
    hide Inv, Shared, LocksOk, Keeps;
    InvParts(sha, w);
    LocksAfterLock(w, w', t, key);
    LocalStep(sha, w, w', t);
  }

  lemma ClaimKeeps(sha: Bytes -> Digest, w: World, t: TaskId, now: int, w': World)
    requires Inv(sha, w) && ClaimStep(w, t, now, w')
    ensures Keeps(sha, w, w', Some(t))
  {
    hide Inv, Shared, LocksOk, Keeps;
    InvParts(sha, w);
    var c := w.tasks[t];
    if c.id !in w.rows && !Claimed(w.rows, c.identity) {
      InsertStep(sha, w, w', t, c.id, c.identity.owner, Some(c.identity), now, c.stream);
    } else {
      MovedKeeps(sha, w, w', t, Conflicted(c.id, c.identity, c.stream));
    }
  }

  lemma NextWithWinner(sha: Bytes -> Digest, w: World, t: TaskId, winner: ContentId, w': World)
    requires SelectWinnerStep(w, t, winner, w') && t in w'.tasks
    ensures TaskOk(sha, w, t, w'.tasks[t]) && ReturnsAvailable(w, w'.tasks[t])
  {
    hide JobOk, Clean, Matches;
  }

  /** A task that holds no lock just ends. */
  lemma FreeEndKeeps(sha: Bytes -> Digest, w: World, w': World, t: TaskId)
    requires Inv(sha, w) && t in w.tasks && Held(w.tasks[t]).None? && w' == w.End(t)
    ensures Keeps(sha, w, w', Some(t))
  {
    hide Inv, Shared, LocksOk, Keeps;
    InvParts(sha, w);
    LocksAfterMove(w, w', t);
    LocalStep(sha, w, w', t);
  }

  lemma SelectWinnerKeeps(sha: Bytes -> Digest, w: World, t: TaskId, winner: ContentId, w': World)
    requires Inv(sha, w) && SelectWinnerStep(w, t, winner, w')
    ensures Keeps(sha, w, w', Some(t))
  {
    hide Inv, Keeps, TaskOk, ReturnsAvailable;
    if t in w'.tasks {
      NextWithWinner(sha, w, t, winner, w');
      MovedKeeps(sha, w, w', t, w'.tasks[t]);
    } else {
      FreeEndKeeps(sha, w, w', t);
    }
  }

  lemma ProbeKeeps(sha: Bytes -> Digest, w: World, t: TaskId, w': World)
    requires Inv(sha, w) && ProbeStep(sha, w, t, w')
    ensures Keeps(sha, w, w', Some(t))
  {
    hide Inv, Shared, LocksOk, Keeps, JobOk;
    InvParts(sha, w);
    TaskFacts(sha, w, t);
    if w' == Raised(w, t, w.tasks[t]) { RaisedKeeps(sha, w, w', t); } else { MovedKeeps(sha, w, w', t, w'.tasks[t]); }
  }

  lemma LinkKeeps(sha: Bytes -> Digest, w: World, t: TaskId, w': World)
    requires Inv(sha, w) && LinkStep(sha, w, t, w')
    ensures Keeps(sha, w, w', Some(t))
  {
    hide Inv, Shared, LocksOk, Keeps, JobOk;
    InvParts(sha, w);
    TaskFacts(sha, w, t);
    var job := w.tasks[t].job;
    if job.blob.handle in w.staging && job.Key() !in w.blobs {
      LinkedKeeps(sha, w, w', t, job);
    } else if w' == Raised(w, t, w.tasks[t]) {
      RaisedKeeps(sha, w, w', t);
    } else {
      MovedKeeps(sha, w, w', t, Linked(job));
    }
  }

  lemma StatKeeps(sha: Bytes -> Digest, w: World, t: TaskId, w': World)
    requires Inv(sha, w) && StatStep(w, t, w')
    ensures Keeps(sha, w, w', Some(t))
  {
    hide Inv, Shared, LocksOk, Keeps, JobOk;
    InvParts(sha, w);
    TaskFacts(sha, w, t);
    if w' == Raised(w, t, w.tasks[t]) { RaisedKeeps(sha, w, w', t); } else { MovedKeeps(sha, w, w', t, w'.tasks[t]); }
  }

  lemma CheckReferencesKeeps(sha: Bytes -> Digest, w: World, t: TaskId, w': World)
    requires Inv(sha, w) && CheckReferencesStep(w, t, w')
    ensures Keeps(sha, w, w', Some(t))
  {
    hide Inv, Shared, LocksOk, Keeps;
    InvParts(sha, w);
    var key := w.tasks[t].key;
    if Referenced(w.rows, key) { EndedKeeps(sha, w, w', t); } else { MovedKeeps(sha, w, w', t, Removing(key)); }
  }

  lemma BeginRecoverKeeps(sha: Bytes -> Digest, w: World, t: TaskId, id: ContentId, w': World)
    requires Inv(sha, w) && BeginRecoverStep(w, t, id, w')
    ensures Keeps(sha, w, w', Some(t))
  {
    hide Inv, Shared, LocksOk, Keeps;
    InvParts(sha, w);
    RowFacts(sha, w, id);
    MovedKeeps(sha, w, w', t, w'.tasks[t]);
  }

  // ---- staging ----

  lemma StagingKeeps(sha: Bytes -> Digest, w: World, w': World, t: TaskId)
    requires Inv(sha, w) && t in w.tasks && StagingKept(w, w', Some(t)) && w'.locks == w.locks
    requires w'.rows == w.rows && w'.relations == w.relations && w'.blobs == w.blobs
    requires forall h :: h in w'.staging ==> h in w'.handles
    requires OnlyActor(w, w', Some(t)) && t in w'.tasks && TaskOk(sha, w', t, w'.tasks[t]) && !w'.tasks[t].Returned?
    requires Held(w.tasks[t]).None? && Held(w'.tasks[t]).None?
    ensures Keeps(sha, w, w', Some(t))
  {
    hide Inv, Shared, LocksOk, Keeps;
    InvParts(sha, w);
    LocksAfterMove(w, w', t);
    StagingStep(sha, w, w', Some(t));
  }

  lemma StageOpenKeeps(sha: Bytes -> Digest, w: World, t: TaskId, token: string, w': World)
    requires Inv(sha, w) && StageOpenStep(w, t, token, w')
    ensures Keeps(sha, w, w', Some(t))
  {
    hide Inv, Shared, LocksOk, Keeps;
    InvParts(sha, w);
    StagingKeeps(sha, w, w', t);
  }

  lemma StageChunkKeeps(sha: Bytes -> Digest, w: World, t: TaskId, w': World)
    requires Inv(sha, w) && StageChunkStep(w, t, w')
    ensures Keeps(sha, w, w', Some(t))
  {
    hide Inv, Shared, LocksOk, Keeps;
    InvParts(sha, w);
    TaskFacts(sha, w, t);
    ConcatStep(w.tasks[t].stream, w.tasks[t].next);
    StagingKeeps(sha, w, w', t);
  }

  lemma StageCloseKeeps(sha: Bytes -> Digest, w: World, t: TaskId, w': World)
    requires Inv(sha, w) && StageCloseStep(sha, w, t, w')
    ensures Keeps(sha, w, w', Some(t))
  {
    hide Inv, Shared, LocksOk, Keeps;
    InvParts(sha, w);
    TaskFacts(sha, w, t);
    ConcatWhole(w.tasks[t].stream);
    StagingKeeps(sha, w, w', t);
  }

  lemma UnlinkStagingKeeps(sha: Bytes -> Digest, w: World, t: TaskId, w': World)
    requires Inv(sha, w) && UnlinkStagingStep(w, t, w')
    ensures Keeps(sha, w, w', Some(t))
  {
    hide Inv, Shared, LocksOk, Keeps;
    InvParts(sha, w);
    TaskFacts(sha, w, t);
    JobKept(sha, w, w', Some(t), w.tasks[t].job);
    StagingKeeps(sha, w, w', t);
  }

  lemma CleanStagingKeeps(sha: Bytes -> Digest, w: World, t: TaskId, removed: bool, cancelled: bool, w': World)
    requires Inv(sha, w) && CleanStagingStep(w, t, removed, cancelled, w')
    ensures Keeps(sha, w, w', Some(t))
  {
    hide Inv, Shared, LocksOk, Keeps;
    InvParts(sha, w);
    StagingKeeps(sha, w, w', t);
  }

  lemma LoseStagingKeeps(sha: Bytes -> Digest, w: World, handle: Handle, w': World)
    requires Inv(sha, w) && LoseStagingStep(w, handle, w')
    ensures Keeps(sha, w, w', None)
  {
    hide Inv, Shared, LocksOk, Keeps;
    InvParts(sha, w);
    StagingStep(sha, w, w', None);
  }

  // ---- rows ----

  lemma RecordStagedKeeps(sha: Bytes -> Digest, w: World, t: TaskId, acknowledged: bool, now: int, w': World)
    requires Inv(sha, w) && RecordStagedStep(w, t, acknowledged, now, w')
    ensures Keeps(sha, w, w', Some(t))
  {
    hide Inv, Shared, LocksOk, Keeps;
    InvParts(sha, w);
    TaskFacts(sha, w, t);
    var id := w.tasks[t].id;
    RowFacts(sha, w, id);
    if acknowledged { LocksAfterMove(w, w', t); } else { LocksAfterUnlock(w, w', t); }
    RowStep(sha, w, w', id, Some(t));
  }

  lemma PublishKeeps(sha: Bytes -> Digest, w: World, t: TaskId, acknowledged: bool, now: int, w': World)
    requires Inv(sha, w) && PublishStep(w, t, acknowledged, now, w')
    ensures Keeps(sha, w, w', Some(t))
  {
    hide Inv, Shared, LocksOk, Keeps, RowUpdate, OnlyActor, ActorOk;
    InvParts(sha, w);
    PublishUpdates(sha, w, t, acknowledged, now, w');
    PublishUnlocks(w, t, acknowledged, now, w');
    LocksAfterUnlock(w, w', t);
    RowStep(sha, w, w', w.tasks[t].job.id, Some(t));
  }

  lemma PublishUnlocks(w: World, t: TaskId, acknowledged: bool, now: int, w': World)
    requires PublishStep(w, t, acknowledged, now, w')
    ensures OnlyActor(w, w', Some(t)) && w'.locks == w.Unlock(t).locks && (t in w'.tasks ==> Held(w'.tasks[t]).None?)
  {
    hide CanPublish, PublishedRow, OnlyActor, Excepted;
    if !acknowledged { VerifiedRaises(w.tasks[t].job); }
    assert w'.locks == w.Unlock(t).locks;
    if t in w'.tasks {
      MovedOnly(w, w', t, w'.tasks[t]);
    } else {
      EndedOnly(w, w', t);
    }
  }

  lemma VerifiedRaises(job: Job)
    ensures Excepted(Verified(job)) == PublishFailed(job)
    ensures PublishFailed(job).Some? ==> Held(PublishFailed(job).value).None?
  {}

  lemma MovedOnly(w: World, w': World, t: TaskId, task: Task)
    requires w'.tasks == w.tasks[t := task]
    ensures OnlyActor(w, w', Some(t))
  {}

  lemma EndedOnly(w: World, w': World, t: TaskId)
    requires w'.tasks == w.tasks - {t}
    ensures OnlyActor(w, w', Some(t))
  {}

  lemma PublishUpdates(sha: Bytes -> Digest, w: World, t: TaskId, acknowledged: bool, now: int, w': World)
    requires Inv(sha, w) && PublishStep(w, t, acknowledged, now, w')
    ensures RowUpdate(sha, w, w', w.tasks[t].job.id, Some(t)) && ActorOk(sha, w', Some(t))
  {
    hide Inv, Shared, LocksOk;
    InvParts(sha, w);
    TaskFacts(sha, w, t);
    var job := w.tasks[t].job;
    RowFacts(sha, w, job.id);
  }

  lemma MarkFailedKeeps(sha: Bytes -> Digest, w: World, t: TaskId, applied: bool, now: int, w': World)
    requires Inv(sha, w) && MarkFailedStep(w, t, applied, now, w')
    ensures Keeps(sha, w, w', Some(t))
  {
    hide Inv, Keeps, Marked;
    if applied && At(w.rows, w.tasks[t].id, Creating, w.tasks[t].revision) {
      MarkFailedAppliedKeeps(sha, w, t, now, w');
    } else {
      MarkFailedIdleKeeps(sha, w, t, applied, now, w');
    }
  }

  lemma MarkFailedIdleKeeps(sha: Bytes -> Digest, w: World, t: TaskId, applied: bool, now: int, w': World)
    requires Inv(sha, w) && MarkFailedStep(w, t, applied, now, w')
    requires !(applied && At(w.rows, w.tasks[t].id, Creating, w.tasks[t].revision))
    ensures Keeps(sha, w, w', Some(t))
  {
    hide Inv, Keeps;
    assert w' == Marked(w, t, w.tasks[t].final);
    match w.tasks[t].final
    case Some(key) => MovedKeeps(sha, w, w', t, Collecting(key));
    case None => FreeEndKeeps(sha, w, w', t);
  }

  lemma MarkFailedAppliedKeeps(sha: Bytes -> Digest, w: World, t: TaskId, now: int, w': World)
    requires Inv(sha, w) && MarkFailedStep(w, t, true, now, w')
    requires At(w.rows, w.tasks[t].id, Creating, w.tasks[t].revision)
    ensures Keeps(sha, w, w', Some(t))
  {
    hide Inv, Shared, LocksOk, Keeps, RowUpdate, ActorOk;
    InvParts(sha, w);
    LocksAfterMove(w, w', t);
    MarkFailedUpdates(sha, w, t, now, w');
    RowStep(sha, w, w', w.tasks[t].id, Some(t));
  }

  lemma MarkFailedUpdates(sha: Bytes -> Digest, w: World, t: TaskId, now: int, w': World)
    requires Inv(sha, w) && MarkFailedStep(w, t, true, now, w')
    requires At(w.rows, w.tasks[t].id, Creating, w.tasks[t].revision)
    ensures RowUpdate(sha, w, w', w.tasks[t].id, Some(t)) && ActorOk(sha, w', Some(t))
  {
    hide Inv, Shared, LocksOk;
    InvParts(sha, w);
    RowFacts(sha, w, w.tasks[t].id);
  }

  lemma EnvironmentRowKeeps(sha: Bytes -> Digest, w: World, id: ContentId, w': World)
    requires Inv(sha, w)
    requires || (exists inspection, now :: SaveInspectionStep(w, id, inspection, now, w'))
             || (exists target, now :: RetireStep(w, id, target, now, w'))
    ensures Keeps(sha, w, w', None)
  {
    hide Inv, Shared, LocksOk, Keeps;
    InvParts(sha, w);
    RowFacts(sha, w, id);
    RowStep(sha, w, w', id, None);
  }

  /** Every step keeps the invariant and guarantees Rely to the tasks that did not act. */
  lemma StepKeeps(sha: Bytes -> Digest, w: World, e: Event, w': World)
    requires Inv(sha, w) && Step(sha, w, e, w')
    ensures Inv(sha, w') && Rely(w, w', Actor(e)) && ActorOk(sha, w', Actor(e))
  {
    hide Inv, ReserveStep, BeginClaimStep, ClaimStep, SelectWinnerStep, StageOpenStep, StageChunkStep, StageCloseStep,
         RecordStagedStep, ProbeStep, LinkStep, UnlinkStagingStep, LockStep, StatStep, PublishStep, RaiseStep,
         CleanStagingStep, MarkFailedStep, BeginRecoverStep, BeginCollectStep, LockForRemovalStep, CheckReferencesStep,
         RemoveBlobStep, CommitRemovalStep, StopStep, LoseStagingStep, SaveInspectionStep, RetireStep,
         Shared, LocksOk, Rely, ActorOk;
    StepKeepsAll(sha, w, e, w');
    KeepsIsEnough(sha, w, w', Actor(e));
  }

  lemma StepKeepsAll(sha: Bytes -> Digest, w: World, e: Event, w': World)
    requires Inv(sha, w) && Step(sha, w, e, w')
    ensures Keeps(sha, w, w', Actor(e))
  {
    hide Inv, Keeps, ReserveStep, BeginClaimStep, ClaimStep, SelectWinnerStep, StageOpenStep, StageChunkStep,
         StageCloseStep, RecordStagedStep, ProbeStep, LinkStep, UnlinkStagingStep, LockStep, StatStep, PublishStep,
         RaiseStep, CleanStagingStep, MarkFailedStep, BeginRecoverStep, BeginCollectStep, LockForRemovalStep,
         CheckReferencesStep, RemoveBlobStep, CommitRemovalStep, StopStep, LoseStagingStep, SaveInspectionStep,
         RetireStep;
    match e
    case Reserve(t, id, owner, stream, now) => ReserveKeeps(sha, w, t, id, owner, stream, now, w');
    case BeginClaim(t, id, identity, stream) => BeginClaimKeeps(sha, w, t, id, identity, stream, w');
    case Claim(t, now) => ClaimKeeps(sha, w, t, now, w');
    case SelectWinner(t, winner) => SelectWinnerKeeps(sha, w, t, winner, w');
    case StageOpen(t, token) => StageOpenKeeps(sha, w, t, token, w');
    case StageChunk(t) => StageChunkKeeps(sha, w, t, w');
    case StageClose(t) => StageCloseKeeps(sha, w, t, w');
    case RecordStaged(t, acknowledged, now) => RecordStagedKeeps(sha, w, t, acknowledged, now, w');
    case Probe(t) => ProbeKeeps(sha, w, t, w');
    case Link(t) => LinkKeeps(sha, w, t, w');
    case UnlinkStaging(t) => UnlinkStagingKeeps(sha, w, t, w');
    case Lock(t) => LockKeeps(sha, w, t, w');
    case Stat(t) => StatKeeps(sha, w, t, w');
    case Publish(t, acknowledged, now) => PublishKeeps(sha, w, t, acknowledged, now, w');
    case Raise(t) => RaiseKeeps(sha, w, t, w');
    case CleanStaging(t, removed, cancelled) => CleanStagingKeeps(sha, w, t, removed, cancelled, w');
    case MarkFailed(t, applied, now) => MarkFailedKeeps(sha, w, t, applied, now, w');
    case BeginRecover(t, id) => BeginRecoverKeeps(sha, w, t, id, w');
    case BeginCollect(t, key) => BeginCollectKeeps(sha, w, t, key, w');
    case LockForRemoval(t) => LockForRemovalKeeps(sha, w, t, w');
    case CheckReferences(t) => CheckReferencesKeeps(sha, w, t, w');
    case RemoveBlob(t) => RemoveBlobKeeps(sha, w, t, w');
    case CommitRemoval(t) => StopKeeps(sha, w, t, w');
    case Stop(t) => StopKeeps(sha, w, t, w');
    case LoseStaging(handle) => LoseStagingKeeps(sha, w, handle, w');
    case SaveInspection(id, inspection, now) => EnvironmentRowKeeps(sha, w, id, w');
    case Retire(id, target, now) => EnvironmentRowKeeps(sha, w, id, w');
  }

  lemma ReserveKeeps(sha: Bytes -> Digest, w: World, t: TaskId, id: ContentId, owner: string, stream: seq<Bytes>,
                     now: int, w': World)
    requires Inv(sha, w) && ReserveStep(w, t, id, owner, stream, now, w')
    ensures Keeps(sha, w, w', Some(t))
  {
    hide Inv, Shared, LocksOk, Keeps;
    InvParts(sha, w);
    InsertStep(sha, w, w', t, id, owner, None, now, stream);
  }

  lemma BeginClaimKeeps(sha: Bytes -> Digest, w: World, t: TaskId, id: ContentId, identity: Identity,
                        stream: seq<Bytes>, w': World)
    requires Inv(sha, w) && BeginClaimStep(w, t, id, identity, stream, w')
    ensures Keeps(sha, w, w', Some(t))
  {
    hide Inv, Keeps;
    MovedKeeps(sha, w, w', t, Claiming(id, identity, stream));
  }

  lemma BeginCollectKeeps(sha: Bytes -> Digest, w: World, t: TaskId, key: StorageKey, w': World)
    requires Inv(sha, w) && BeginCollectStep(w, t, key, w')
    ensures Keeps(sha, w, w', Some(t))
  {
    hide Inv, Keeps;
    MovedKeeps(sha, w, w', t, Collecting(key));
  }

  lemma RaiseKeeps(sha: Bytes -> Digest, w: World, t: TaskId, w': World)
    requires Inv(sha, w) && RaiseStep(w, t, w')
    ensures Keeps(sha, w, w', Some(t))
  {
    hide Inv, Keeps;
    RaisedKeeps(sha, w, w', t);
  }

  lemma RemoveBlobKeeps(sha: Bytes -> Digest, w: World, t: TaskId, w': World)
    requires Inv(sha, w) && RemoveBlobStep(w, t, w')
    ensures Keeps(sha, w, w', Some(t))
  {
    hide Inv, Keeps;
    RemovedKeeps(sha, w, w', t, w.tasks[t].key);
  }

  lemma StopKeeps(sha: Bytes -> Digest, w: World, t: TaskId, w': World)
    requires Inv(sha, w) && (StopStep(w, t, w') || CommitRemovalStep(w, t, w'))
    ensures Keeps(sha, w, w', Some(t))
  {
    hide Inv, Keeps;
    EndedKeeps(sha, w, w', t);
  }

  lemma LockKeeps(sha: Bytes -> Digest, w: World, t: TaskId, w': World)
    requires Inv(sha, w) && LockStep(w, t, w')
    ensures Keeps(sha, w, w', Some(t))
  {
    hide Inv, Shared, LocksOk, Keeps, JobOk;
    InvParts(sha, w);
    TaskFacts(sha, w, t);
    LockedKeeps(sha, w, w', t, w.tasks[t].job.Key(), Locked(w.tasks[t].job));
  }

  lemma LockForRemovalKeeps(sha: Bytes -> Digest, w: World, t: TaskId, w': World)
    requires Inv(sha, w) && LockForRemovalStep(w, t, w')
    ensures Keeps(sha, w, w', Some(t))
  {
    hide Inv, Shared, LocksOk, Keeps;
    InvParts(sha, w);
    LockedKeeps(sha, w, w', t, w.tasks[t].key, Checking(w.tasks[t].key));
  }
}
