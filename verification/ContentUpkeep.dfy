/** Cleanup, collection and recovery that nobody disturbs do their work, from whatever state the others left. */
module ContentUpkeep {
  import opened Basics
  import opened ContentModels
  import opened ContentRepository
  import opened ContentProtocol
  import opened ContentProgress

  /** Some available row names the blob. */
  ghost predicate Used(rows: Rows, key: StorageKey) {
    exists id :: id in rows && rows[id].state == Available && rows[id].storageKey == Some(key)
  }

  predicate NoLocks(w: World, t: TaskId) { forall k :: k in w.locks ==> w.locks[k] != t }

  lemma LockAndUnlock(w: World, locked: map<StorageKey, TaskId>, t: TaskId, key: StorageKey)
    requires NoLocks(w, t) && key !in w.locks && locked == w.locks[key := t]
    ensures (map k | k in locked && locked[k] != t :: locked[k]) == w.locks
  {}

  /** A run of one event. */
  lemma LeadsBy(sha: Bytes -> Digest, w: World, e: Event, w': World) returns (es: seq<Event>)
    requires Step(sha, w, e, w')
    ensures Leads(sha, w, es, w')
  {
    hide Step;
    es := LeadsOn(sha, w, [], w, e, w');
  }

  // ---- collection ----

  lemma LocksForRemoval(sha: Bytes -> Digest, w: World, t: TaskId, key: StorageKey)
    requires w.Is(t, Collecting(key)) && key !in w.locks
    ensures Step(sha, w, LockForRemoval(t), w.(locks := w.locks[key := t]).Run(t, Checking(key)))
  {}

  lemma ChecksUsed(sha: Bytes -> Digest, w: World, t: TaskId, key: StorageKey)
    requires w.Is(t, Checking(key)) && Used(w.rows, key)
    ensures Step(sha, w, CheckReferences(t), w.Unlock(t).End(t))
  {
    assert Referenced(w.rows, key);
  }

  lemma ChecksUnused(sha: Bytes -> Digest, w: World, t: TaskId, key: StorageKey)
    requires w.Is(t, Checking(key)) && !Used(w.rows, key)
    ensures Step(sha, w, CheckReferences(t), w.Run(t, Removing(key)))
  {
    assert !Referenced(w.rows, key);
  }

  lemma Removes(sha: Bytes -> Digest, w: World, t: TaskId, key: StorageKey)
    requires w.Is(t, Removing(key))
    ensures var w' := w.(blobs := w.blobs - {key}).Run(t, Closing(key));
            Step(sha, w, RemoveBlob(t), w') && Step(sha, w', CommitRemoval(t), w'.Unlock(t).End(t))
  {}

  /** What a collector leaves of the blobs. */
  ghost function Kept(w: World, key: StorageKey): map<StorageKey, Bytes> {
    if Used(w.rows, key) then w.blobs else w.blobs - {key}
  }

  /** A collector removes the blob exactly when no available row names it, and changes nothing else. */
  lemma CollectorRuns(sha: Bytes -> Digest, w: World, t: TaskId, key: StorageKey) returns (es: seq<Event>)
    requires w.Is(t, Collecting(key)) && key !in w.locks && NoLocks(w, t)
    ensures Leads(sha, w, es, w.(blobs := Kept(w, key), tasks := w.tasks - {t}))
  {
    hide Step, Used, Leads;
    var checking := w.(locks := w.locks[key := t]).Run(t, Checking(key));
    LocksForRemoval(sha, w, t, key);
    es := LeadsBy(sha, w, LockForRemoval(t), checking);
    LockAndUnlock(w, checking.locks, t, key);
    if Used(w.rows, key) {
      ChecksUsed(sha, checking, t, key);
      Ends(w, checking, t, w.blobs);
      es := LeadsOn(sha, w, es, checking, CheckReferences(t), w.(blobs := w.blobs, tasks := w.tasks - {t}));
    } else {
      var more := RemoverRuns(sha, w, checking, t, key);
      es := LeadsTo(sha, w, es, checking, more, w.(blobs := w.blobs - {key}, tasks := w.tasks - {t}));
    }
  }

  lemma RemoverRuns(sha: Bytes -> Digest, w: World, checking: World, t: TaskId, key: StorageKey)
    returns (es: seq<Event>)
    requires checking == w.(locks := checking.locks).Run(t, Checking(key)) && !Used(w.rows, key)
    requires (map k | k in checking.locks && checking.locks[k] != t :: checking.locks[k]) == w.locks
    ensures Leads(sha, checking, es, w.(blobs := w.blobs - {key}, tasks := w.tasks - {t}))
  {
    hide Step, Used, Leads;
    var removing := checking.Run(t, Removing(key));
    var closing := removing.(blobs := removing.blobs - {key}).Run(t, Closing(key));
    ChecksUnused(sha, checking, t, key);
    es := LeadsBy(sha, checking, CheckReferences(t), removing);
    Removes(sha, removing, t, key);
    es := LeadsOn(sha, checking, es, removing, RemoveBlob(t), closing);
    Ends(w, closing, t, w.blobs - {key});
    es := LeadsOn(sha, checking, es, closing, CommitRemoval(t), w.(blobs := w.blobs - {key}, tasks := w.tasks - {t}));
  }

  lemma Ends(w: World, v: World, t: TaskId, blobs: map<StorageKey, Bytes>)
    requires v.rows == w.rows && v.relations == w.relations && v.staging == w.staging && v.handles == w.handles
    requires v.blobs == blobs && v.tasks - {t} == w.tasks - {t}
    requires (map k | k in v.locks && v.locks[k] != t :: v.locks[k]) == w.locks
    ensures v.Unlock(t).End(t) == w.(blobs := blobs, tasks := w.tasks - {t})
  {}

  /** The same from the choice of the key on. */
  lemma UndisturbedCollection(sha: Bytes -> Digest, w: World, t: TaskId, key: StorageKey) returns (es: seq<Event>)
    requires t !in w.tasks && key !in w.locks && NoLocks(w, t)
    ensures Leads(sha, w, es, w.(blobs := Kept(w, key)))
  {
    var begun := w.Run(t, Collecting(key));
    assert Step(sha, w, BeginCollect(t, key), begun);
    hide Step;
    var more := CollectorRuns(sha, begun, t, key);
    assert begun.tasks - {t} == w.tasks;
    es := LeadsBy(sha, w, BeginCollect(t, key), begun);
    es := LeadsTo(sha, w, es, begun, more, w.(blobs := Kept(w, key)));
  }

  /** Two runs, one after the other. */
  lemma {:induction false} LeadsTo(sha: Bytes -> Digest, w: World, es: seq<Event>, mid: World, more: seq<Event>,
                                   w': World)
    returns (all: seq<Event>)
    requires Leads(sha, w, es, mid) && Leads(sha, mid, more, w')
    ensures all == es + more && Leads(sha, w, all, w')
    decreases |more|
  {
    hide Step;
    if more == [] {
      all := es + more;
      assert all == es;
    } else {
      var init, last := more[..|more| - 1], more[|more| - 1];
      var v :| Leads(sha, mid, init, v) && Step(sha, v, last, w');
      all := LeadsTo(sha, w, es, mid, init, v);
      all := LeadsOn(sha, w, all, v, last, w');
      assert all == es + more;
    }
  }

  // ---- cleanup of a failed ingest ----

  /** The rows after mark_failed: a creating row at the task's revision is failed, any other stays. */
  function FailedRows(rows: Rows, id: ContentId, revision: nat, code: string, now: int): Rows {
    if id in rows && rows[id].state == Creating && rows[id].revision == revision
    then var r := rows[id];
         rows[id := Row(r.owner, r.origin, Failed, revision + 1, r.sha256, r.size, r.stagingKey, r.storageKey,
                        r.inspection, Some(code), now)]
    else rows
  }

  lemma FailingUsesNothing(rows: Rows, id: ContentId, revision: nat, code: string, now: int, key: StorageKey)
    ensures Used(FailedRows(rows, id, revision, code, now), key) <==> Used(rows, key)
  {
    var rows' := FailedRows(rows, id, revision, code, now);
    if Used(rows, key) {
      var r :| r in rows && rows[r].state == Available && rows[r].storageKey == Some(key);
      assert r in rows' && rows'[r].state == Available;
    }
  }

  lemma Marks(sha: Bytes -> Digest, w: World, t: TaskId, id: ContentId, revision: nat, code: string,
              final: Option<StorageKey>, now: int)
    requires w.Is(t, Marking(id, revision, code, final))
    ensures var failed := w.(rows := FailedRows(w.rows, id, revision, code, now));
            Step(sha, w, MarkFailed(t, true, now),
                 if final.Some? then failed.Run(t, Collecting(final.value)) else failed.End(t))
  {}

  /** A task that marks a row and, if there is one, collects a blob. */
  lemma MarkerRuns(sha: Bytes -> Digest, w: World, t: TaskId, now: int) returns (es: seq<Event>)
    requires t in w.tasks && w.tasks[t].Marking? && NoLocks(w, t)
    requires w.tasks[t].final.Some? ==> w.tasks[t].final.value !in w.locks
    ensures var m := w.tasks[t];
            Leads(sha, w, es, w.(rows := FailedRows(w.rows, m.id, m.revision, m.code, now), tasks := w.tasks - {t},
                                 blobs := if m.final.Some? then Kept(w, m.final.value) else w.blobs))
  {
    hide Step;
    var m := w.tasks[t];
    var failed := w.(rows := FailedRows(w.rows, m.id, m.revision, m.code, now));
    Marks(sha, w, t, m.id, m.revision, m.code, m.final, now);
    match m.final
    case None => es := LeadsBy(sha, w, MarkFailed(t, true, now), failed.End(t));
    case Some(key) =>
      var collecting := failed.Run(t, Collecting(key));
      es := LeadsBy(sha, w, MarkFailed(t, true, now), collecting);
      FailingUsesNothing(w.rows, m.id, m.revision, m.code, now, key);
      var more := CollectorRuns(sha, collecting, t, key);
      assert collecting.tasks - {t} == w.tasks - {t};
      es := LeadsTo(sha, w, es, collecting, more, failed.(blobs := Kept(w, key), tasks := w.tasks - {t}));
  }

  lemma KeptAlike(w: World, v: World, key: StorageKey)
    requires v.rows == w.rows && v.blobs == w.blobs
    ensures Kept(v, key) == Kept(w, key)
  {}

  lemma CleansStaging(sha: Bytes -> Digest, w: World, t: TaskId, cancelled: bool)
    requires t in w.tasks && w.tasks[t].Failing?
    ensures var f := w.tasks[t];
            var code := if cancelled then "cancelled" else "content_creation_failed";
            var staging := if f.staged.Some? then w.staging - {f.staged.value} else w.staging;
            Step(sha, w, CleanStaging(t, true, cancelled),
                 w.(staging := staging).Run(t, Marking(f.id, f.revision, code, f.final)))
  {}

  /** The cleanup of a failed ingest removes its staging file, fails its row unless that has moved on, and removes
      the blob it finalized exactly when no available row names it. */
  lemma UndisturbedCleanup(sha: Bytes -> Digest, w: World, t: TaskId, cancelled: bool, now: int)
    returns (es: seq<Event>)
    requires t in w.tasks && w.tasks[t].Failing? && NoLocks(w, t)
    requires w.tasks[t].final.Some? ==> w.tasks[t].final.value !in w.locks
    ensures var f := w.tasks[t];
            var code := if cancelled then "cancelled" else "content_creation_failed";
            Leads(sha, w, es, w.(rows := FailedRows(w.rows, f.id, f.revision, code, now), tasks := w.tasks - {t},
                                 staging := if f.staged.Some? then w.staging - {f.staged.value} else w.staging,
                                 blobs := if f.final.Some? then Kept(w, f.final.value) else w.blobs))
  {
    hide Step, Leads, FailedRows, Kept;
    var f := w.tasks[t];
    var code := if cancelled then "cancelled" else "content_creation_failed";
    var staging := if f.staged.Some? then w.staging - {f.staged.value} else w.staging;
    var cleaned := w.(staging := staging).Run(t, Marking(f.id, f.revision, code, f.final));
    CleansStaging(sha, w, t, cancelled);
    es := LeadsBy(sha, w, CleanStaging(t, true, cancelled), cleaned);
    var more := MarkerRuns(sha, cleaned, t, now);
    assert cleaned.tasks - {t} == w.tasks - {t};
    if f.final.Some? { KeptAlike(w, cleaned, f.final.value); }
    es := LeadsTo(sha, w, es, cleaned, more,
                  w.(rows := FailedRows(w.rows, f.id, f.revision, code, now), tasks := w.tasks - {t},
                     staging := staging, blobs := if f.final.Some? then Kept(w, f.final.value) else w.blobs));
  }

  /** An exception during publication leads to that cleanup, with what the ingest had by then: the staged file until
      the blob is finalized, and the blob after that. */
  lemma EarlyFailureIsCleanedUp(sha: Bytes -> Digest, w: World, t: TaskId, job: Job)
    requires job.purpose.Ingesting? && (w.Is(t, Finalizing(job)) || w.Is(t, Probed(job)) || w.Is(t, Linked(job)))
    ensures Step(sha, w, Raise(t), w.Unlock(t).Run(t, Failing(job.id, job.revision, Some(job.blob.handle), None)))
  {}

  lemma LateFailureIsCleanedUp(sha: Bytes -> Digest, w: World, t: TaskId, job: Job)
    requires job.purpose.Ingesting? && (w.Is(t, Finalized(job)) || w.Is(t, Locked(job)) || w.Is(t, Verified(job)))
    ensures Step(sha, w, Raise(t),
                 w.Unlock(t).Run(t, Failing(job.id, job.revision, Some(job.blob.handle), Some(job.Key()))))
  {}

  // ---- payloads that do not verify ----

  /** Where a publishing task goes when its payload does not verify: an ingest cleans up, a recovery fails the row. */
  function GivesUp(w: World, t: TaskId, job: Job): World {
    w.Unlock(t).Run(t, if job.purpose.Recovering? then Marking(job.id, job.revision, "staging_lost", None)
                       else Failing(job.id, job.revision, Some(job.blob.handle), None))
  }

  /** The bytes are not those that were recorded. */
  predicate Differs(sha: Bytes -> Digest, data: Bytes, blob: StagedBlob) {
    sha(data) != blob.sha256 || |data| != blob.size
  }

  /** A staged file that differs, or one that is gone without a right target, is given up and never linked. */
  lemma WrongFileIsGivenUp(sha: Bytes -> Digest, w: World, t: TaskId, job: Job)
    requires w.Is(t, Finalizing(job))
    requires if job.blob.handle in w.staging then Differs(sha, w.staging[job.blob.handle].data, job.blob)
             else job.Key() !in w.blobs || Differs(sha, w.blobs[job.Key()], job.blob)
    ensures forall w' :: Step(sha, w, Probe(t), w') <==> w' == GivesUp(w, t, job)
  {}

  /** A target that differs is never replaced and never published. */
  lemma WrongTargetIsGivenUp(sha: Bytes -> Digest, w: World, t: TaskId, job: Job)
    requires w.Is(t, Probed(job)) && job.Key() in w.blobs && Differs(sha, w.blobs[job.Key()], job.blob)
    ensures forall w' :: Step(sha, w, Link(t), w') <==> w' == GivesUp(w, t, job)
  {}

  /** A blob that is gone or has another size under the lock is not published. */
  lemma WrongBlobIsNotPublished(sha: Bytes -> Digest, w: World, t: TaskId, job: Job)
    requires w.Is(t, Locked(job)) && (job.Key() in w.blobs ==> |w.blobs[job.Key()]| != job.blob.size)
    ensures forall w' :: Step(sha, w, Stat(t), w') ==>
              && w'.rows == w.rows && w'.blobs == w.blobs
              && (t in w'.tasks ==> w'.tasks[t].Failing? && w'.tasks[t].final == Some(job.Key()))
  {}

  // ---- recovery ----

  /** A stale row as it was staged. */
  predicate StagedAs(row: Row, blob: StagedBlob) {
    && row.state == Creating && row.stagingKey == Some(blob.handle)
    && row.sha256 == Some(blob.sha256) && row.size == Some(blob.size)
  }

  predicate NeverStaged(row: Row) { row.stagingKey.None? || row.sha256.None? || row.size.None? }

  lemma BeginsToMark(sha: Bytes -> Digest, w: World, t: TaskId, id: ContentId)
    requires t !in w.tasks && id in w.rows && w.rows[id].state == Creating && NeverStaged(w.rows[id])
    ensures Step(sha, w, BeginRecover(t, id), w.Run(t, Marking(id, w.rows[id].revision, "stale_creating", None)))
  {}

  /** The recovery of a row that was never staged fails it. */
  lemma UnstagedRowFails(sha: Bytes -> Digest, w: World, t: TaskId, id: ContentId, now: int) returns (es: seq<Event>)
    requires t !in w.tasks && NoLocks(w, t) && id in w.rows && w.rows[id].state == Creating && NeverStaged(w.rows[id])
    ensures Leads(sha, w, es, w.(rows := FailedRows(w.rows, id, w.rows[id].revision, "stale_creating", now)))
  {
    hide Step, Leads, FailedRows;
    var revision := w.rows[id].revision;
    var marking := w.Run(t, Marking(id, revision, "stale_creating", None));
    BeginsToMark(sha, w, t, id);
    es := LeadsBy(sha, w, BeginRecover(t, id), marking);
    var more := MarkerRuns(sha, marking, t, now);
    assert marking.tasks - {t} == w.tasks;
    es := LeadsTo(sha, w, es, marking, more, w.(rows := FailedRows(w.rows, id, revision, "stale_creating", now)));
  }

  /** The recovery of a row whose payload is neither staged nor stored fails it. */
  lemma LostPayloadFails(sha: Bytes -> Digest, w: World, t: TaskId, id: ContentId, blob: StagedBlob, now: int)
    returns (es: seq<Event>)
    requires t !in w.tasks && NoLocks(w, t) && id in w.rows && StagedAs(w.rows[id], blob) && blob.handle !in w.staging
    requires var key := StorageKey(blob.sha256);
             key in w.blobs ==> sha(w.blobs[key]) != blob.sha256 || |w.blobs[key]| != blob.size
    ensures Leads(sha, w, es, w.(rows := FailedRows(w.rows, id, w.rows[id].revision, "staging_lost", now)))
  {
    hide Step, Leads, FailedRows;
    var revision := w.rows[id].revision;
    var job := Job(id, revision, blob, Recovering);
    var marking := w.Run(t, Marking(id, revision, "staging_lost", None));
    LosesPayload(sha, w, t, id, job);
    es := LeadsBy(sha, w, BeginRecover(t, id), w.Run(t, Finalizing(job)));
    es := LeadsOn(sha, w, es, w.Run(t, Finalizing(job)), Probe(t), marking);
    var more := MarkerRuns(sha, marking, t, now);
    assert marking.tasks - {t} == w.tasks;
    es := LeadsTo(sha, w, es, marking, more, w.(rows := FailedRows(w.rows, id, revision, "staging_lost", now)));
  }

  lemma LosesPayload(sha: Bytes -> Digest, w: World, t: TaskId, id: ContentId, job: Job)
    requires t !in w.tasks && NoLocks(w, t) && id in w.rows && StagedAs(w.rows[id], job.blob)
    requires job.id == id && job.revision == w.rows[id].revision && job.purpose.Recovering?
    requires job.blob.handle !in w.staging && !TargetVerifies(sha, w, job)
    ensures Step(sha, w, BeginRecover(t, id), w.Run(t, Finalizing(job)))
    ensures Step(sha, w.Run(t, Finalizing(job)), Probe(t), w.Run(t, Marking(id, job.revision, "staging_lost", None)))
  {
    var probing := w.Run(t, Finalizing(job));
    var marking := Marking(id, job.revision, "staging_lost", None);
    assert !TargetVerifies(sha, probing, job);
    assert probing.tasks[t := marking] == w.tasks[t := marking];
    assert probing.Unlock(t).locks == w.locks;
    assert probing.Unlock(t).Run(t, marking) == w.Run(t, marking);
  }

  /** The world of a recovery on its way, otherwise as in w. */
  function OnTheWay(w: World, t: TaskId, blob: StagedBlob, linked: bool, file: bool, locked: bool, task: Task): World
    requires blob.handle in w.staging
  {
    var key := StorageKey(blob.sha256);
    w.(staging := if file then w.staging else w.staging - {blob.handle},
       blobs := if linked && key !in w.blobs then w.blobs[key := w.staging[blob.handle].data] else w.blobs,
       locks := if locked then w.locks[key := t] else w.locks,
       tasks := w.tasks[t := task])
  }

  /** Its payload is on disk as recorded, and under its hash is nothing or the same. */
  ghost predicate Recoverable(sha: Bytes -> Digest, w: World, t: TaskId, id: ContentId, blob: StagedBlob) {
    && t !in w.tasks && NoLocks(w, t) && StorageKey(blob.sha256) !in w.locks
    && id in w.rows && StagedAs(w.rows[id], blob) && blob.handle in w.staging
    && Matches(sha, w.staging[blob.handle].data, blob.sha256, blob.size)
    && (StorageKey(blob.sha256) in w.blobs ==> Matches(sha, w.blobs[StorageKey(blob.sha256)], blob.sha256, blob.size))
  }

  lemma RecoveryBegins(sha: Bytes -> Digest, w: World, t: TaskId, id: ContentId, blob: StagedBlob, job: Job)
    requires Recoverable(sha, w, t, id, blob) && job == Job(id, w.rows[id].revision, blob, Recovering)
    ensures Step(sha, w, BeginRecover(t, id),
                 OnTheWay(w, t, blob, false, true, false, Finalizing(job)))
  {}

  lemma RecoveryProbes(sha: Bytes -> Digest, w: World, t: TaskId, id: ContentId, blob: StagedBlob, job: Job)
    requires Recoverable(sha, w, t, id, blob) && job == Job(id, w.rows[id].revision, blob, Recovering)
    ensures Step(sha, OnTheWay(w, t, blob, false, true, false, Finalizing(job)), Probe(t),
                 OnTheWay(w, t, blob, false, true, false, Probed(job)))
  {
    assert w.tasks[t := Finalizing(job)][t := Probed(job)] == w.tasks[t := Probed(job)];
  }

  lemma RecoveryLinks(sha: Bytes -> Digest, w: World, t: TaskId, id: ContentId, blob: StagedBlob, job: Job)
    requires Recoverable(sha, w, t, id, blob) && job == Job(id, w.rows[id].revision, blob, Recovering)
    ensures Step(sha, OnTheWay(w, t, blob, false, true, false, Probed(job)), Link(t),
                 OnTheWay(w, t, blob, true, true, false, Linked(job)))
  {
    assert w.tasks[t := Probed(job)][t := Linked(job)] == w.tasks[t := Linked(job)];
  }

  lemma RecoveryUnlinks(sha: Bytes -> Digest, w: World, t: TaskId, id: ContentId, blob: StagedBlob, job: Job)
    requires Recoverable(sha, w, t, id, blob) && job == Job(id, w.rows[id].revision, blob, Recovering)
    ensures Step(sha, OnTheWay(w, t, blob, true, true, false, Linked(job)), UnlinkStaging(t),
                 OnTheWay(w, t, blob, true, false, false, Finalized(job)))
  {
    assert w.tasks[t := Linked(job)][t := Finalized(job)] == w.tasks[t := Finalized(job)];
  }

  lemma RecoveryLocks(sha: Bytes -> Digest, w: World, t: TaskId, id: ContentId, blob: StagedBlob, job: Job)
    requires Recoverable(sha, w, t, id, blob) && job == Job(id, w.rows[id].revision, blob, Recovering)
    ensures Step(sha, OnTheWay(w, t, blob, true, false, false, Finalized(job)), Lock(t),
                 OnTheWay(w, t, blob, true, false, true, Locked(job)))
  {
    assert w.tasks[t := Finalized(job)][t := Locked(job)] == w.tasks[t := Locked(job)];
  }

  lemma RecoveryStats(sha: Bytes -> Digest, w: World, t: TaskId, id: ContentId, blob: StagedBlob, job: Job)
    requires Recoverable(sha, w, t, id, blob) && job == Job(id, w.rows[id].revision, blob, Recovering)
    ensures Step(sha, OnTheWay(w, t, blob, true, false, true, Locked(job)), Stat(t),
                 OnTheWay(w, t, blob, true, false, true, Verified(job)))
  {
    assert w.tasks[t := Locked(job)][t := Verified(job)] == w.tasks[t := Verified(job)];
  }

  /** What a recovery leaves: the row published, its blob in place, its staging name used up. */
  function Recovered(w: World, id: ContentId, blob: StagedBlob, now: int): World
    requires id in w.rows && blob.handle in w.staging
  {
    var r, key := w.rows[id], StorageKey(blob.sha256);
    w.(rows := w.rows[id := Row(r.owner, r.origin, Available, r.revision + 1, r.sha256, r.size, None, Some(key),
                                r.inspection, r.failureCode, now)],
       staging := w.staging - {blob.handle},
       blobs := if key in w.blobs then w.blobs else w.blobs[key := w.staging[blob.handle].data])
  }

  lemma RecoveryPublishes(sha: Bytes -> Digest, w: World, t: TaskId, id: ContentId, blob: StagedBlob, job: Job,
                          now: int)
    requires Recoverable(sha, w, t, id, blob) && job == Job(id, w.rows[id].revision, blob, Recovering)
    ensures Step(sha, OnTheWay(w, t, blob, true, false, true, Verified(job)), Publish(t, true, now),
                 Recovered(w, id, blob, now))
  {
    var v, c := OnTheWay(w, t, blob, true, false, true, Verified(job)), Recovered(w, id, blob, now);
    LockAndUnlock(w, v.locks, t, job.Key());
    assert v.tasks - {t} == w.tasks;
    var row := PublishedRow(v.rows[id], job.Key(), now);
    assert v.(rows := v.rows[id := row]).Unlock(t).End(t) == c;
    hide Matches;
    assert PublishStep(v, t, true, now, c);
  }

  /** The recovery of a staged row whose payload is on disk publishes it. */
  lemma UndisturbedRecovery(sha: Bytes -> Digest, w: World, t: TaskId, id: ContentId, blob: StagedBlob, now: int)
    returns (es: seq<Event>)
    requires Recoverable(sha, w, t, id, blob)
    ensures Leads(sha, w, es, Recovered(w, id, blob, now))
  {
    var job := Job(id, w.rows[id].revision, blob, Recovering);
    RecoveryBegins(sha, w, t, id, blob, job);
    RecoveryProbes(sha, w, t, id, blob, job);
    RecoveryLinks(sha, w, t, id, blob, job);
    RecoveryUnlinks(sha, w, t, id, blob, job);
    RecoveryLocks(sha, w, t, id, blob, job);
    RecoveryStats(sha, w, t, id, blob, job);
    RecoveryPublishes(sha, w, t, id, blob, job, now);
    assert blob.handle in w.staging && id in w.rows;
    hide Step, OnTheWay, Recoverable, Recovered, Leads;
    es := LeadsBy(sha, w, BeginRecover(t, id), OnTheWay(w, t, blob, false, true, false, Finalizing(job)));
    es := LeadsOn(sha, w, es, OnTheWay(w, t, blob, false, true, false, Finalizing(job)), Probe(t),
                  OnTheWay(w, t, blob, false, true, false, Probed(job)));
    es := LeadsOn(sha, w, es, OnTheWay(w, t, blob, false, true, false, Probed(job)), Link(t),
                  OnTheWay(w, t, blob, true, true, false, Linked(job)));
    es := LeadsOn(sha, w, es, OnTheWay(w, t, blob, true, true, false, Linked(job)), UnlinkStaging(t),
                  OnTheWay(w, t, blob, true, false, false, Finalized(job)));
    es := LeadsOn(sha, w, es, OnTheWay(w, t, blob, true, false, false, Finalized(job)), Lock(t),
                  OnTheWay(w, t, blob, true, false, true, Locked(job)));
    es := LeadsOn(sha, w, es, OnTheWay(w, t, blob, true, false, true, Locked(job)), Stat(t),
                  OnTheWay(w, t, blob, true, false, true, Verified(job)));
    es := LeadsOn(sha, w, es, OnTheWay(w, t, blob, true, false, true, Verified(job)), Publish(t, true, now),
                  Recovered(w, id, blob, now));
  }
}
