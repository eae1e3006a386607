/** An ingest that nobody disturbs gets through the protocol, from whatever state the others left. */
module ContentProgress {
  import opened Basics
  import opened ContentModels
  import opened ContentRepository
  import opened ContentProtocol

  /** A sequence of events that takes one world to another. */
  ghost predicate Leads(sha: Bytes -> Digest, w: World, es: seq<Event>, w': World)
    decreases |es|
  {
    if es == [] then w == w'
    else
      var init, last := es[..|es| - 1], es[|es| - 1];
      exists mid :: Leads(sha, w, init, mid) && Step(sha, mid, last, w')
  }

  lemma LeadsOn(sha: Bytes -> Digest, w: World, es: seq<Event>, mid: World, e: Event, w': World)
    returns (on: seq<Event>)
    requires Leads(sha, w, es, mid) && Step(sha, mid, e, w')
    ensures on == es + [e] && Leads(sha, w, on, w')
  {
    hide Step;
    on := es + [e];
    assert on[..|on| - 1] == es;
  }

  /** One ingest: who, what and under which names; a derived representation has an origin. */
  datatype Ingest = Ingest(t: TaskId, id: ContentId, owner: string, origin: Option<Identity>, stream: seq<Bytes>,
                           handle: Handle, sha256: Digest, now: int) {
    function Input(): Bytes { Concat(stream) }

    function Key(): StorageKey { StorageKey(sha256) }

    function Blob(): StagedBlob { StagedBlob(handle, sha256, |Input()|) }

    function Work(): Job { Job(id, 2, Blob(), Ingesting(stream)) }

    function Created(): Row { NewRow(owner, origin, now) }

    function Recorded(): Row { StagedRow(Created(), Blob(), now) }

    function Available(): Row { PublishedRow(Recorded(), Key(), now) }

    /** The relation that a derived row brings. */
    function Relations(): multiset<Relation> {
      if origin.Some? then multiset{Relation(origin.value.source, id)} else multiset{}
    }
  }

  /** The world of the ingest, otherwise as in w: its row, the file it has on disk, whether its blob is in
      place, whether it holds the lock, and its task. */
  function During(w: World, i: Ingest, row: Row, file: Option<File>, blob: bool, locked: bool, task: Task): World {
    World(w.rows[i.id := row], w.relations + i.Relations(),
          if file.Some? then w.staging[i.handle := file.value] else w.staging,
          w.handles + {i.handle},
          if blob && i.Key() !in w.blobs then w.blobs[i.Key() := i.Input()] else w.blobs,
          if locked then w.locks[i.Key() := i.t] else w.locks,
          w.tasks[i.t := task])
  }

  /** The situation in which an ingest is undisturbed: new names, a free lock, and under its hash nothing or a
      blob that verifies. */
  ghost predicate Clear(sha: Bytes -> Digest, w: World, i: Ingest) {
    && i.sha256 == sha(i.Input())
    && i.t !in w.tasks && i.id !in w.rows && i.handle.content == i.id
    && i.handle !in w.handles && i.handle !in w.staging
    && i.Key() !in w.locks && (forall k :: k in w.locks ==> w.locks[k] != i.t)
    && (i.Key() in w.blobs ==> Matches(sha, w.blobs[i.Key()], i.sha256, |i.Input()|))
    && (i.origin.Some? ==>
          && i.owner == i.origin.value.owner
          && forall r :: r in w.rows && Active(w.rows[r].state) ==> w.rows[r].origin != i.origin)
  }

  function Midway(w: World, i: Ingest, n: nat): World
    requires n <= |i.stream|
  {
    During(w, i, i.Created(), Some(File(Concat(i.stream[..n]), Some(i.t))), false, false,
           Writing(i.id, i.handle, i.stream, n))
  }

  function Begun(w: World, i: Ingest): World {
    Inserted(w, i.id, i.owner, i.origin, i.now).Run(i.t, Reserved(i.id, i.stream))
  }

  lemma Reserves(sha: Bytes -> Digest, w: World, i: Ingest)
    requires Clear(sha, w, i) && i.origin.None?
    ensures Step(sha, w, Reserve(i.t, i.id, i.owner, i.stream, i.now), Begun(w, i))
  {}

  lemma Claims(sha: Bytes -> Digest, w: World, i: Ingest)
    requires Clear(sha, w, i) && i.origin.Some?
    ensures var claiming := w.Run(i.t, Claiming(i.id, i.origin.value, i.stream));
            && Step(sha, w, BeginClaim(i.t, i.id, i.origin.value, i.stream), claiming)
            && Step(sha, claiming, Claim(i.t, i.now), Begun(w, i))
  {
    var claiming := w.Run(i.t, Claiming(i.id, i.origin.value, i.stream));
    assert !Claimed(w.rows, i.origin.value);
    assert claiming.tasks[i.t := Reserved(i.id, i.stream)] == Begun(w, i).tasks;
  }

  /** A plain ingest reserves its row; a derived one claims its identity first. */
  lemma Begins(sha: Bytes -> Digest, w: World, i: Ingest) returns (es: seq<Event>)
    requires Clear(sha, w, i)
    ensures Leads(sha, w, es, Begun(w, i))
  {
    hide Step, Clear, Inserted;
    if i.origin.None? {
      Reserves(sha, w, i);
      es := LeadsOn(sha, w, [], w, Reserve(i.t, i.id, i.owner, i.stream, i.now), Begun(w, i));
    } else {
      Claims(sha, w, i);
      var claiming := w.Run(i.t, Claiming(i.id, i.origin.value, i.stream));
      es := LeadsOn(sha, w, [], w, BeginClaim(i.t, i.id, i.origin.value, i.stream), claiming);
      es := LeadsOn(sha, w, es, claiming, Claim(i.t, i.now), Begun(w, i));
    }
  }

  lemma Opens(sha: Bytes -> Digest, w: World, i: Ingest)
    requires Clear(sha, w, i)
    ensures Step(sha, Begun(w, i), StageOpen(i.t, i.handle.token), Midway(w, i, 0))
  {
    assert i.stream[..0] == [];
    assert Begun(w, i).tasks[i.t := Writing(i.id, i.handle, i.stream, 0)] == Midway(w, i, 0).tasks;
    assert Handle(i.id, i.handle.token) == i.handle;
    assert w.relations + multiset{} == w.relations;
  }

  lemma WritesOne(sha: Bytes -> Digest, w: World, i: Ingest, n: nat)
    requires n < |i.stream|
    ensures Step(sha, Midway(w, i, n), StageChunk(i.t), Midway(w, i, n + 1))
  {
    var a, b := Midway(w, i, n), Midway(w, i, n + 1);
    ConcatStep(i.stream, n);
    var file := a.staging[i.handle];
    assert a.staging[i.handle := file.(data := file.data + i.stream[n])] == b.staging;
    assert a.tasks[i.t := a.tasks[i.t].(next := n + 1)] == b.tasks;
  }

  lemma {:induction false} WritesAll(sha: Bytes -> Digest, w: World, i: Ingest, n: nat) returns (es: seq<Event>)
    requires Clear(sha, w, i) && n <= |i.stream|
    ensures Leads(sha, w, es, Midway(w, i, n))
  {
    hide Step, Clear;
    if n == 0 {
      es := Begins(sha, w, i);
      Opens(sha, w, i);
      es := LeadsOn(sha, w, es, Begun(w, i), StageOpen(i.t, i.handle.token), Midway(w, i, 0));
    } else {
      es := WritesAll(sha, w, i, n - 1);
      WritesOne(sha, w, i, n - 1);
      es := LeadsOn(sha, w, es, Midway(w, i, n - 1), StageChunk(i.t), Midway(w, i, n));
    }
  }

  function Closed(w: World, i: Ingest): World {
    During(w, i, i.Created(), Some(File(i.Input(), None)), false, false, Staged(i.id, i.stream, i.Blob()))
  }

  function Linking(w: World, i: Ingest, linked: bool): World {
    During(w, i, i.Recorded(), Some(File(i.Input(), None)), linked, false,
       if linked then Linked(i.Work()) else Finalizing(i.Work()))
  }

  function Holding(w: World, i: Ingest, locked: bool): World {
    During(w, i, i.Recorded(), None, true, locked, if locked then Locked(i.Work()) else Finalized(i.Work()))
  }

  /** What the ingest leaves: a published row of revision 3, its blob, its staging name used up. */
  function Done(w: World, i: Ingest): World {
    During(w, i, i.Available(), None, true, false,
       Returned(ContentRef(i.id, i.sha256, |i.Input()|), i.origin, Some(i.stream)))
  }

  lemma Closes(sha: Bytes -> Digest, w: World, i: Ingest)
    requires Clear(sha, w, i)
    ensures Step(sha, Midway(w, i, |i.stream|), StageClose(i.t), Closed(w, i))
  {
    ConcatWhole(i.stream);
    var a, b := Midway(w, i, |i.stream|), Closed(w, i);
    assert a.staging[i.handle := a.staging[i.handle].(writer := None)] == b.staging;
    assert a.tasks[i.t := b.tasks[i.t]] == b.tasks;
  }

  lemma Records(sha: Bytes -> Digest, w: World, i: Ingest)
    ensures Step(sha, Closed(w, i), RecordStaged(i.t, true, i.now), Linking(w, i, false))
  {
    var b, c := Closed(w, i), Linking(w, i, false);
    assert b.tasks[i.t := c.tasks[i.t]] == c.tasks;
    assert b.rows[i.id := i.Recorded()] == c.rows;
  }

  function Probing(w: World, i: Ingest): World { Linking(w, i, false).Run(i.t, Probed(i.Work())) }

  lemma Probes(sha: Bytes -> Digest, w: World, i: Ingest)
    requires Clear(sha, w, i)
    ensures Step(sha, Linking(w, i, false), Probe(i.t), Probing(w, i))
  {}

  lemma Links(sha: Bytes -> Digest, w: World, i: Ingest)
    requires Clear(sha, w, i)
    ensures Step(sha, Probing(w, i), Link(i.t), Linking(w, i, true))
  {
    assert Probing(w, i).tasks[i.t := Linked(i.Work())] == Linking(w, i, true).tasks;
  }

  lemma Unlinks(sha: Bytes -> Digest, w: World, i: Ingest)
    requires Clear(sha, w, i)
    ensures Step(sha, Linking(w, i, true), UnlinkStaging(i.t), Holding(w, i, false))
  {
    var b, c := Linking(w, i, true), Holding(w, i, false);
    assert b.tasks[i.t := c.tasks[i.t]] == c.tasks;
    assert b.staging - {i.handle} == c.staging;
  }

  lemma Locks(sha: Bytes -> Digest, w: World, i: Ingest)
    requires Clear(sha, w, i)
    ensures Step(sha, Holding(w, i, false), Lock(i.t), Holding(w, i, true))
  {
    assert Holding(w, i, false).tasks[i.t := Locked(i.Work())] == Holding(w, i, true).tasks;
  }

  function Verifying(w: World, i: Ingest): World { Holding(w, i, true).Run(i.t, Verified(i.Work())) }

  lemma Stats(sha: Bytes -> Digest, w: World, i: Ingest)
    requires Clear(sha, w, i)
    ensures Step(sha, Holding(w, i, true), Stat(i.t), Verifying(w, i))
  {}

  lemma Publishes(sha: Bytes -> Digest, w: World, i: Ingest)
    requires Clear(sha, w, i)
    ensures Step(sha, Verifying(w, i), Publish(i.t, true, i.now), Done(w, i))
  {
    hide During, Clear;
    var v, c := Verifying(w, i), Done(w, i);
    LastWorld(sha, w, i);
    var row := PublishedRow(v.rows[i.id], i.Key(), i.now);
    assert v.(rows := v.rows[i.id := row]).Unlock(i.t).Run(i.t, c.tasks[i.t]) == c;
    assert PublishStep(v, i.t, true, i.now, c);
  }

  /** Before and after the publication. */
  lemma LastWorld(sha: Bytes -> Digest, w: World, i: Ingest)
    requires Clear(sha, w, i)
    ensures var v, c := Verifying(w, i), Done(w, i);
            && i.id in v.rows && v.rows[i.id] == i.Recorded() && i.t in v.tasks && v.tasks[i.t] == Verified(i.Work())
            && i.t in c.tasks
            && c.tasks[i.t] == Returned(ContentRef(i.id, i.sha256, |i.Input()|), i.origin, Some(i.stream))
            && c.rows == v.rows[i.id := i.Available()] && c.tasks == v.tasks[i.t := c.tasks[i.t]]
            && c.locks == (map k | k in v.locks && v.locks[k] != i.t :: v.locks[k])
            && c.relations == v.relations && c.staging == v.staging && c.handles == v.handles && c.blobs == v.blobs
  {
    LastUnlock(sha, w, i);
    hide Clear;
  }

  lemma LastUnlock(sha: Bytes -> Digest, w: World, i: Ingest)
    requires Clear(sha, w, i)
    ensures (map k | k in Verifying(w, i).locks && Verifying(w, i).locks[k] != i.t :: Verifying(w, i).locks[k])
         == w.locks
  {
    assert Verifying(w, i).locks == w.locks[i.Key() := i.t];
  }

  /** From any such state of the system the ingest can run to its end, and ends with its row published. */
  lemma UndisturbedIngestPublishes(sha: Bytes -> Digest, w: World, i: Ingest) returns (es: seq<Event>)
    requires Clear(sha, w, i)
    ensures Leads(sha, w, es, Done(w, i))
    ensures var w' := Done(w, i);
            var key := StorageKey(sha(Concat(i.stream)));
            && w'.rows == w.rows[i.id := Row(i.owner, i.origin, Available, 3, Some(key.sha256),
                                             Some(|Concat(i.stream)|), None, Some(key), None, None, i.now)]
            && w'.relations == w.relations + i.Relations() && w'.staging == w.staging && w'.locks == w.locks
            && w'.blobs == (if key in w.blobs then w.blobs else w.blobs[key := Concat(i.stream)])
            && w'.tasks == w.tasks[i.t := Returned(ContentRef(i.id, key.sha256, |Concat(i.stream)|), i.origin,
                                                   Some(i.stream))]
  {
    DoneSpelled(sha, w, i);
    hide Step, Clear, Leads, During;
    es := WritesAll(sha, w, i, |i.stream|);
    Closes(sha, w, i);
    es := LeadsOn(sha, w, es, Midway(w, i, |i.stream|), StageClose(i.t), Closed(w, i));
    Records(sha, w, i);
    es := LeadsOn(sha, w, es, Closed(w, i), RecordStaged(i.t, true, i.now), Linking(w, i, false));
    Probes(sha, w, i);
    es := LeadsOn(sha, w, es, Linking(w, i, false), Probe(i.t), Probing(w, i));
    Links(sha, w, i);
    es := LeadsOn(sha, w, es, Probing(w, i), Link(i.t), Linking(w, i, true));
    Unlinks(sha, w, i);
    es := LeadsOn(sha, w, es, Linking(w, i, true), UnlinkStaging(i.t), Holding(w, i, false));
    Locks(sha, w, i);
    es := LeadsOn(sha, w, es, Holding(w, i, false), Lock(i.t), Holding(w, i, true));
    Stats(sha, w, i);
    es := LeadsOn(sha, w, es, Holding(w, i, true), Stat(i.t), Verifying(w, i));
    Publishes(sha, w, i);
    es := LeadsOn(sha, w, es, Verifying(w, i), Publish(i.t, true, i.now), Done(w, i));
  }

  lemma DoneSpelled(sha: Bytes -> Digest, w: World, i: Ingest)
    requires Clear(sha, w, i)
    ensures var w' := Done(w, i);
            var key := StorageKey(sha(Concat(i.stream)));
            && w'.rows == w.rows[i.id := Row(i.owner, i.origin, Available, 3, Some(key.sha256),
                                             Some(|Concat(i.stream)|), None, Some(key), None, None, i.now)]
            && w'.relations == w.relations + i.Relations() && w'.staging == w.staging && w'.locks == w.locks
            && w'.blobs == (if key in w.blobs then w.blobs else w.blobs[key := Concat(i.stream)])
            && w'.tasks == w.tasks[i.t := Returned(ContentRef(i.id, key.sha256, |Concat(i.stream)|), i.origin,
                                                   Some(i.stream))]
  {}
}
