/** Content publication, failure cleanup, recovery and garbage collection as one interleaved
    protocol. Every committed transaction and every filesystem call is one step; any number of
    tasks run side by side and any of them may fail or stop between two steps. */
module ContentProtocol {
  import opened Basics
  import opened ContentModels
  import opened ContentRepository

  type TaskId = nat

  /** A staging file and the task that still has it open for writing, if any. */
  datatype File = File(data: Bytes, writer: Option<TaskId>)

  /** What a task that publishes works for: an ingest of some stream, or a recovery. */
  datatype Purpose = Ingesting(stream: seq<Bytes>) | Recovering

  datatype Job = Job(id: ContentId, revision: nat, blob: StagedBlob, purpose: Purpose) {
    function Key(): StorageKey { StorageKey(blob.sha256) }
  }

  /** The next thing a task will do, with its local variables. */
  datatype Task =
    | Claiming(id: ContentId, identity: Identity, stream: seq<Bytes>)   // about to insert the claim
    | Conflicted(id: ContentId, identity: Identity, stream: seq<Bytes>) // about to read the winner
    | Reserved(id: ContentId, stream: seq<Bytes>)                       // row committed at revision 1
    | Writing(id: ContentId, handle: Handle, stream: seq<Bytes>, next: nat)
    | Staged(id: ContentId, stream: seq<Bytes>, blob: StagedBlob)       // about to set_staged
    | Finalizing(job: Job)                                              // about to probe the staging file
    | Probed(job: Job)                                                  // staging verified, about to link
    | Linked(job: Job)                                                  // target in place, about to unlink
    | Finalized(job: Job)                                               // about to lock the storage key
    | Locked(job: Job)                                                  // about to stat under the lock
    | Verified(job: Job)                                                // about to publish and commit
    | Returned(ref: ContentRef, origin: Option<Identity>, source: Option<seq<Bytes>>)
    | Failing(id: ContentId, revision: nat, staged: Option<Handle>, final: Option<StorageKey>)
    | Marking(id: ContentId, revision: nat, code: string, final: Option<StorageKey>)
    | Collecting(key: StorageKey)                                       // about to lock for removal
    | Checking(key: StorageKey)                                         // lock held, references not read
    | Removing(key: StorageKey)                                         // no reference seen, about to unlink
    | Closing(key: StorageKey)                                          // unlinked, about to commit

  datatype World = World(
    rows: Rows,
    relations: multiset<Relation>,
    staging: map<Handle, File>,
    handles: set<Handle>,          // every staging name ever drawn; tokens are never drawn twice
    blobs: map<StorageKey, Bytes>,
    locks: map<StorageKey, TaskId>,
    tasks: map<TaskId, Task>)
  {
    function Run(t: TaskId, task: Task): World { this.(tasks := tasks[t := task]) }

    function End(t: TaskId): World { this.(tasks := tasks - {t}) }

    /** The end of a database transaction of task t: its advisory locks are released. */
    function Unlock(t: TaskId): World {
      this.(locks := map k | k in locks && locks[k] != t :: locks[k])
    }

    predicate Is(t: TaskId, task: Task) { t in tasks && tasks[t] == task }
  }

  const EMPTY := World(map[], multiset{}, map[], {}, map[], map[], map[])

  datatype Event =
    | Reserve(t: TaskId, id: ContentId, owner: string, stream: seq<Bytes>, now: int)
    | BeginClaim(t: TaskId, id: ContentId, identity: Identity, stream: seq<Bytes>)
    | Claim(t: TaskId, now: int)
    | SelectWinner(t: TaskId, winner: ContentId)
    | StageOpen(t: TaskId, token: string)
    | StageChunk(t: TaskId)
    | StageClose(t: TaskId)
    | RecordStaged(t: TaskId, acknowledged: bool, now: int)
    | Probe(t: TaskId)
    | Link(t: TaskId)
    | UnlinkStaging(t: TaskId)
    | Lock(t: TaskId)
    | Stat(t: TaskId)
    | Publish(t: TaskId, acknowledged: bool, now: int)
    | Raise(t: TaskId)
    | CleanStaging(t: TaskId, removed: bool, cancelled: bool)
    | MarkFailed(t: TaskId, applied: bool, now: int)
    | BeginRecover(t: TaskId, id: ContentId)
    | BeginCollect(t: TaskId, key: StorageKey)
    | LockForRemoval(t: TaskId)
    | CheckReferences(t: TaskId)
    | RemoveBlob(t: TaskId)
    | CommitRemoval(t: TaskId)
    | Stop(t: TaskId)
    | LoseStaging(handle: Handle)
    | SaveInspection(id: ContentId, inspection: string, now: int)
    | Retire(id: ContentId, target: ContentState, now: int)

  /** _verify_blob on the content-addressed target of a job. */
  predicate TargetVerifies(sha: Bytes -> Digest, w: World, job: Job) {
    job.Key() in w.blobs && Matches(sha, w.blobs[job.Key()], job.blob.sha256, job.blob.size)
  }

  /** Where an exception takes a publishing task: an ingest runs its cleanup with the local
      variables it has, a recovery whose finalize failed marks the row, and any other recovery
      just ends. The open transaction has been rolled back. */
  function Excepted(task: Task): Option<Task> {
    match task
    case Reserved(id, _) => Some(Failing(id, 1, None, None))
    case Writing(id, _, _, _) => Some(Failing(id, 1, None, None))
    case Staged(id, _, blob) => Some(Failing(id, 1, Some(blob.handle), None))
    case Finalizing(job) => Some(FinalizeFailed(job))
    case Probed(job) => Some(FinalizeFailed(job))
    case Linked(job) => Some(FinalizeFailed(job))
    case Finalized(job) => PublishFailed(job)
    case Locked(job) => PublishFailed(job)
    case Verified(job) => PublishFailed(job)
    case _ => None
  }

  function FinalizeFailed(job: Job): Task {
    if job.purpose.Recovering? then Marking(job.id, job.revision, "staging_lost", None)
    else Failing(job.id, job.revision, Some(job.blob.handle), None)
  }

  function PublishFailed(job: Job): Option<Task> {
    if job.purpose.Recovering? then None
    else Some(Failing(job.id, job.revision, Some(job.blob.handle), Some(job.Key())))
  }

  function Raised(w: World, t: TaskId, task: Task): World {
    match Excepted(task)
    case Some(next) => w.Unlock(t).Run(t, next)
    case None => w.Unlock(t).End(t)
  }

  /** The task after mark_failed: an ingest cleanup goes on to its blob if it has one. */
  function Marked(w: World, t: TaskId, final: Option<StorageKey>): World {
    match final
    case Some(key) => w.Run(t, Collecting(key))
    case None => w.End(t)
  }

  function Ref(id: ContentId, row: Row): ContentRef
    requires row.sha256.Some? && row.size.Some?
  {
    ContentRef(id, row.sha256.value, row.size.value)
  }

  /** Insertion of a new row and, when it is derived, of its relation in the same transaction. */
  function Inserted(w: World, id: ContentId, owner: string, origin: Option<Identity>, now: int): World {
    w.(rows := w.rows[id := NewRow(owner, origin, now)],
       relations := if origin.Some? then w.relations + multiset{Relation(origin.value.source, id)} else w.relations)
  }

  /** _publish_created: the row is inserted at revision 1 and committed. */
  predicate ReserveStep(w: World, t: TaskId, id: ContentId, owner: string, stream: seq<Bytes>, now: int, w': World) {
    && t !in w.tasks && id !in w.rows
    && w' == Inserted(w, id, owner, None, now).Run(t, Reserved(id, stream))
  }

  /** A derived representation is about to be claimed. */
  predicate BeginClaimStep(w: World, t: TaskId, id: ContentId, identity: Identity, stream: seq<Bytes>, w': World) {
    && t !in w.tasks
    && w' == w.Run(t, Claiming(id, identity, stream))
  }

  /** claim_representation: insert unless the content id or the active identity is taken; the relation
      commits with the row. */
  ghost predicate ClaimStep(w: World, t: TaskId, now: int, w': World) {
    && t in w.tasks && w.tasks[t].Claiming?
    && var c := w.tasks[t];
       if c.id !in w.rows && !Claimed(w.rows, c.identity)
       then w' == Inserted(w, c.id, c.identity.owner, Some(c.identity), now).Run(t, Reserved(c.id, c.stream))
       else w' == w.Run(t, Conflicted(c.id, c.identity, c.stream))
  }

  /** The claim lost: read the active winner, return it if it is available, poll again if it is still
      being created, fail if it is gone. */
  ghost predicate SelectWinnerStep(w: World, t: TaskId, winner: ContentId, w': World) {
    && t in w.tasks && w.tasks[t].Conflicted?
    && var c := w.tasks[t];
       if Claimed(w.rows, c.identity) then
         && winner in w.rows && Active(w.rows[winner].state) && w.rows[winner].origin == Some(c.identity)
         && if w.rows[winner].state == Available
            then && w.rows[winner].sha256.Some? && w.rows[winner].size.Some?
                 && w' == w.Run(t, Returned(Ref(winner, w.rows[winner]), Some(c.identity), None))
            else w' == w.Run(t, Claiming(c.id, c.identity, c.stream))
       else w' == w.End(t)
  }

  /** stage_write: create the staging file under a newly drawn name. */
  predicate StageOpenStep(w: World, t: TaskId, token: string, w': World) {
    && t in w.tasks && w.tasks[t].Reserved?
    && var handle := Handle(w.tasks[t].id, token);
       && handle !in w.handles
       && w' == w.(staging := w.staging[handle := File([], Some(t))], handles := w.handles + {handle})
                 .Run(t, Writing(w.tasks[t].id, handle, w.tasks[t].stream, 0))
  }

  /** stage_write: one chunk goes to the digest and to the file, which may have been removed meanwhile. */
  predicate StageChunkStep(w: World, t: TaskId, w': World) {
    && t in w.tasks && w.tasks[t].Writing? && w.tasks[t].next < |w.tasks[t].stream|
    && var c := w.tasks[t];
       var staging := if c.handle !in w.staging then w.staging
                      else var file := w.staging[c.handle];
                           w.staging[c.handle := file.(data := file.data + c.stream[c.next])];
       w' == w.(staging := staging).Run(t, c.(next := c.next + 1))
  }

  /** stage_write: close the file and return its digest and size. */
  predicate StageCloseStep(sha: Bytes -> Digest, w: World, t: TaskId, w': World) {
    && t in w.tasks && w.tasks[t].Writing? && w.tasks[t].next == |w.tasks[t].stream|
    && var c := w.tasks[t];
       var staging := if c.handle in w.staging
                      then w.staging[c.handle := w.staging[c.handle].(writer := None)]
                      else w.staging;
       var input := Concat(c.stream);
       w' == w.(staging := staging).Run(t, Staged(c.id, c.stream, StagedBlob(c.handle, sha(input), |input|)))
  }

  /** set_staged and commit; an unacknowledged commit raises although it took effect. */
  predicate RecordStagedStep(w: World, t: TaskId, acknowledged: bool, now: int, w': World) {
    && t in w.tasks && w.tasks[t].Staged?
    && var c := w.tasks[t];
       && At(w.rows, c.id, Creating, 1)
       && var after := w.(rows := w.rows[c.id := StagedRow(w.rows[c.id], c.blob, now)]);
          w' == if acknowledged then after.Run(t, Finalizing(Job(c.id, 2, c.blob, Ingesting(c.stream))))
                else Raised(after, t, c)
  }

  /** finalize: probe the staging file, or accept an already verified target when it is gone. */
  predicate ProbeStep(sha: Bytes -> Digest, w: World, t: TaskId, w': World) {
    && t in w.tasks && w.tasks[t].Finalizing?
    && var job := w.tasks[t].job;
       w' == if job.blob.handle in w.staging then
               if Matches(sha, w.staging[job.blob.handle].data, job.blob.sha256, job.blob.size)
               then w.Run(t, Probed(job)) else Raised(w, t, w.tasks[t])
             else if TargetVerifies(sha, w, job) then w.Run(t, Finalized(job))
             else Raised(w, t, w.tasks[t])
  }

  /** finalize: link the staging file to its target, or verify the target that is already there. */
  predicate LinkStep(sha: Bytes -> Digest, w: World, t: TaskId, w': World) {
    && t in w.tasks && w.tasks[t].Probed?
    && var job := w.tasks[t].job;
       w' == if job.blob.handle in w.staging && job.Key() !in w.blobs then
               w.(blobs := w.blobs[job.Key() := w.staging[job.blob.handle].data]).Run(t, Linked(job))
             else if TargetVerifies(sha, w, job) then w.Run(t, Linked(job))
             else Raised(w, t, w.tasks[t])
  }

  /** finalize: remove the staging name. */
  predicate UnlinkStagingStep(w: World, t: TaskId, w': World) {
    && t in w.tasks && w.tasks[t].Linked?
    && w' == w.(staging := w.staging - {w.tasks[t].job.blob.handle}).Run(t, Finalized(w.tasks[t].job))
  }

  /** lock_storage_key before publication. */
  predicate LockStep(w: World, t: TaskId, w': World) {
    && t in w.tasks && w.tasks[t].Finalized? && w.tasks[t].job.Key() !in w.locks
    && w' == w.(locks := w.locks[w.tasks[t].job.Key() := t]).Run(t, Locked(w.tasks[t].job))
  }

  /** stat under the lock, compared with the finalized blob. */
  predicate StatStep(w: World, t: TaskId, w': World) {
    && t in w.tasks && w.tasks[t].Locked?
    && var job := w.tasks[t].job;
       w' == if job.Key() in w.blobs && |w.blobs[job.Key()]| == job.blob.size
             then w.Run(t, Verified(job)) else Raised(w, t, w.tasks[t])
  }

  /** publish and commit, which releases the lock; an unacknowledged commit raises although it took effect. */
  predicate PublishStep(w: World, t: TaskId, acknowledged: bool, now: int, w': World) {
    && t in w.tasks && w.tasks[t].Verified?
    && var job := w.tasks[t].job;
       && CanPublish(w.rows, job.id, job.revision)
       && var row := PublishedRow(w.rows[job.id], job.Key(), now);
          var after := w.(rows := w.rows[job.id := row]);
          w' == if !acknowledged then Raised(after, t, w.tasks[t])
                else if job.purpose.Recovering? then after.Unlock(t).End(t)
                else after.Unlock(t).Run(t, Returned(Ref(job.id, row), row.origin, Some(job.purpose.stream)))
  }

  /** Any operation of a publishing task may raise. */
  predicate RaiseStep(w: World, t: TaskId, w': World) {
    && t in w.tasks && Excepted(w.tasks[t]).Some?
    && w' == Raised(w, t, w.tasks[t])
  }

  /** _cleanup_failed: remove the staging file, ignoring errors. */
  predicate CleanStagingStep(w: World, t: TaskId, removed: bool, cancelled: bool, w': World) {
    && t in w.tasks && w.tasks[t].Failing?
    && var c := w.tasks[t];
       var staging := if removed && c.staged.Some? then w.staging - {c.staged.value} else w.staging;
       var code := if cancelled then "cancelled" else "content_creation_failed";
       w' == w.(staging := staging).Run(t, Marking(c.id, c.revision, code, c.final))
  }

  /** mark_failed and commit, ignoring errors. */
  predicate MarkFailedStep(w: World, t: TaskId, applied: bool, now: int, w': World) {
    && t in w.tasks && w.tasks[t].Marking?
    && var c := w.tasks[t];
       var rows := if applied && At(w.rows, c.id, Creating, c.revision)
                   then w.rows[c.id := FailedRow(w.rows[c.id], c.code, now)] else w.rows;
       w' == Marked(w.(rows := rows), t, c.final)
  }

  /** _recover reads a stale creating row. */
  predicate BeginRecoverStep(w: World, t: TaskId, id: ContentId, w': World) {
    && t !in w.tasks && id in w.rows && w.rows[id].state == Creating
    && var row := w.rows[id];
       w' == if row.stagingKey.None? || row.sha256.None? || row.size.None?
             then w.Run(t, Marking(id, row.revision, "stale_creating", None))
             else var blob := StagedBlob(row.stagingKey.value, row.sha256.value, row.size.value);
                  w.Run(t, Finalizing(Job(id, row.revision, blob, Recovering)))
  }

  /** A collector picks any key. */
  predicate BeginCollectStep(w: World, t: TaskId, key: StorageKey, w': World) {
    t !in w.tasks && w' == w.Run(t, Collecting(key))
  }

  /** lock_storage_key before removal. */
  predicate LockForRemovalStep(w: World, t: TaskId, w': World) {
    && t in w.tasks && w.tasks[t].Collecting? && w.tasks[t].key !in w.locks
    && w' == w.(locks := w.locks[w.tasks[t].key := t]).Run(t, Checking(w.tasks[t].key))
  }

  /** has_active_storage_reference under the lock. */
  ghost predicate CheckReferencesStep(w: World, t: TaskId, w': World) {
    && t in w.tasks && w.tasks[t].Checking?
    && w' == if Referenced(w.rows, w.tasks[t].key) then w.Unlock(t).End(t) else w.Run(t, Removing(w.tasks[t].key))
  }

  /** Unlink the blob under the lock. */
  predicate RemoveBlobStep(w: World, t: TaskId, w': World) {
    && t in w.tasks && w.tasks[t].Removing?
    && w' == w.(blobs := w.blobs - {w.tasks[t].key}).Run(t, Closing(w.tasks[t].key))
  }

  /** Commit, which releases the lock. */
  predicate CommitRemovalStep(w: World, t: TaskId, w': World) {
    && t in w.tasks && w.tasks[t].Closing?
    && w' == w.Unlock(t).End(t)
  }

  /** A process stops; its transaction is rolled back. */
  predicate StopStep(w: World, t: TaskId, w': World) {
    t in w.tasks && w' == w.Unlock(t).End(t)
  }

  /** Any staging file may disappear. */
  predicate LoseStagingStep(w: World, handle: Handle, w': World) {
    w' == w.(staging := w.staging - {handle})
  }

  /** save_inspection and commit. */
  predicate SaveInspectionStep(w: World, id: ContentId, inspection: string, now: int, w': World) {
    && id in w.rows && CanInspect(w.rows, id, w.rows[id].revision)
    && w' == w.(rows := w.rows[id := InspectedRow(w.rows[id], inspection, now)])
  }

  /** Expiry and deletion, within the transition table. */
  predicate RetireStep(w: World, id: ContentId, target: ContentState, now: int, w': World) {
    && id in w.rows && w.rows[id].state != Creating && CanTransition(w.rows[id].state, target)
    && w' == w.(rows := w.rows[id := RetiredRow(w.rows[id], target, now)])
  }

  ghost predicate Step(sha: Bytes -> Digest, w: World, e: Event, w': World) {
    match e
    case Reserve(t, id, owner, stream, now) => ReserveStep(w, t, id, owner, stream, now, w')
    case BeginClaim(t, id, identity, stream) => BeginClaimStep(w, t, id, identity, stream, w')
    case Claim(t, now) => ClaimStep(w, t, now, w')
    case SelectWinner(t, winner) => SelectWinnerStep(w, t, winner, w')
    case StageOpen(t, token) => StageOpenStep(w, t, token, w')
    case StageChunk(t) => StageChunkStep(w, t, w')
    case StageClose(t) => StageCloseStep(sha, w, t, w')
    case RecordStaged(t, acknowledged, now) => RecordStagedStep(w, t, acknowledged, now, w')
    case Probe(t) => ProbeStep(sha, w, t, w')
    case Link(t) => LinkStep(sha, w, t, w')
    case UnlinkStaging(t) => UnlinkStagingStep(w, t, w')
    case Lock(t) => LockStep(w, t, w')
    case Stat(t) => StatStep(w, t, w')
    case Publish(t, acknowledged, now) => PublishStep(w, t, acknowledged, now, w')
    case Raise(t) => RaiseStep(w, t, w')
    case CleanStaging(t, removed, cancelled) => CleanStagingStep(w, t, removed, cancelled, w')
    case MarkFailed(t, applied, now) => MarkFailedStep(w, t, applied, now, w')
    case BeginRecover(t, id) => BeginRecoverStep(w, t, id, w')
    case BeginCollect(t, key) => BeginCollectStep(w, t, key, w')
    case LockForRemoval(t) => LockForRemovalStep(w, t, w')
    case CheckReferences(t) => CheckReferencesStep(w, t, w')
    case RemoveBlob(t) => RemoveBlobStep(w, t, w')
    case CommitRemoval(t) => CommitRemovalStep(w, t, w')
    case Stop(t) => StopStep(w, t, w')
    case LoseStaging(handle) => LoseStagingStep(w, handle, w')
    case SaveInspection(id, inspection, now) => SaveInspectionStep(w, id, inspection, now, w')
    case Retire(id, target, now) => RetireStep(w, id, target, now, w')
  }

  /** A run from the empty system: ws[i] is the state before event es[i]. */
  ghost predicate IsRun(sha: Bytes -> Digest, ws: seq<World>, es: seq<Event>) {
    && |ws| == |es| + 1
    && ws[0] == EMPTY
    && forall i :: 0 <= i < |es| ==> Step(sha, ws[i], es[i], ws[i + 1])
  }
}
