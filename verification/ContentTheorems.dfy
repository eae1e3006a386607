/** What holds over whole runs of the content protocol, for every interleaving. */
module ContentTheorems {
  import opened Basics
  import opened ContentModels
  import opened ContentRepository
  import opened ContentProtocol
  import opened ContentSafety

  /** Every reachable state satisfies the invariant, and every step is one its witnesses may rely on. */
  lemma {:induction false} Reachable(sha: Bytes -> Digest, ws: seq<World>, es: seq<Event>, i: nat)
    requires IsRun(sha, ws, es) && i < |ws|
    ensures Inv(sha, ws[i])
    ensures i < |es| ==> Rely(ws[i], ws[i + 1], Actor(es[i]))
  {
    hide Step, Rely;
    if i == 0 {
      EmptyIsConsistent(sha);
    } else {
      Reachable(sha, ws, es, i - 1);
      assert Step(sha, ws[i - 1], es[i - 1], ws[i - 1 + 1]);
      StepKeeps(sha, ws[i - 1], es[i - 1], ws[i]);
    }
    if i < |es| {
      StepKeeps(sha, ws[i], es[i], ws[i + 1]);
    }
  }

  lemma EmptyIsConsistent(sha: Bytes -> Digest)
    ensures Inv(sha, EMPTY)
  {}

  /** The bytes a row's storage key names are present and have exactly the row's hash and size. */
  ghost predicate Intact(sha: Bytes -> Digest, w: World, row: Row) {
    && row.sha256.Some? && row.size.Some?
    && row.storageKey == Some(StorageKey(row.sha256.value))
    && row.storageKey.value in w.blobs
    && sha(w.blobs[row.storageKey.value]) == row.sha256.value && |w.blobs[row.storageKey.value]| == row.size.value
  }

  /** In every reachable interleaving, stopped at any step and whatever staging files are lost, every
      available row names a present blob with exactly its hash and size. No assumption about the hash. */
  lemma AvailableContentIsIntact(sha: Bytes -> Digest, ws: seq<World>, es: seq<Event>, i: nat, id: ContentId)
    requires IsRun(sha, ws, es) && i < |ws|
    requires id in ws[i].rows && ws[i].rows[id].state == Available
    ensures Intact(sha, ws[i], ws[i].rows[id])
  {
    Reachable(sha, ws, es, i);
    assert RowOk(ws[i].rows[id]) && Stored(ws[i], ws[i].rows[id]);
  }

  // ---- row histories ----

  /** How many steps between states i and j committed a change of a row. */
  ghost function Changes(ws: seq<World>, id: ContentId, i: nat, j: nat): nat
    requires i <= j < |ws|
    decreases j - i
  {
    if i == j then 0
    else Changes(ws, id, i, j - 1)
         + if id in ws[j - 1].rows && id in ws[j].rows && ws[j].rows[id] != ws[j - 1].rows[id] then 1 else 0
  }

  /** From one state of a run to a later one a row stays, its revision rises by exactly one per committed
      change, its state path follows the transition table, its identity never changes, and from the moment
      it has a hash and size, or a storage key, these never change. */
  lemma {:induction false} RowHistory(sha: Bytes -> Digest, ws: seq<World>, es: seq<Event>, id: ContentId,
                                      i: nat, j: nat)
    requires IsRun(sha, ws, es) && i <= j < |ws| && id in ws[i].rows
    ensures id in ws[j].rows
    ensures ws[j].rows[id].revision == ws[i].rows[id].revision + Changes(ws, id, i, j)
    ensures Reaches(ws[i].rows[id].state, ws[j].rows[id].state)
    ensures ws[j].rows[id].origin == ws[i].rows[id].origin && ws[j].rows[id].owner == ws[i].rows[id].owner
    ensures ws[i].rows[id].sha256.Some? ==>
              ws[j].rows[id].sha256 == ws[i].rows[id].sha256 && ws[j].rows[id].size == ws[i].rows[id].size
    ensures ws[i].rows[id].state != Creating ==> ws[j].rows[id].storageKey == ws[i].rows[id].storageKey
    ensures Changes(ws, id, i, j) == 0 ==> ws[j].rows[id] == ws[i].rows[id]
    decreases j - i
  {
    hide Step, Inv;
    if i < j {
      RowHistory(sha, ws, es, id, i, j - 1);
      Reachable(sha, ws, es, j - 1);
      assert Evolves(ws[j - 1].rows, ws[j].rows);
      ReachesIsClosure(ws[i].rows[id].state, ws[j - 1].rows[id].state, ws[j].rows[id].state);
    }
  }

  /** Competing publishers, failers and inspectors of one revision of one row have at most one winner. */
  lemma OneWinnerPerRevision(sha: Bytes -> Digest, ws: seq<World>, es: seq<Event>, id: ContentId, i: nat, j: nat)
    requires IsRun(sha, ws, es) && i < |es| && j < |es|
    requires id in ws[i].rows && id in ws[j].rows && ws[i].rows[id].revision == ws[j].rows[id].revision
    requires id in ws[i + 1].rows && ws[i + 1].rows[id] != ws[i].rows[id]
    requires id in ws[j + 1].rows && ws[j + 1].rows[id] != ws[j].rows[id]
    ensures i == j
  {
    hide Step;
    if i != j {
      var a, b := if i < j then i else j, if i < j then j else i;
      assert Changes(ws, id, a, a + 1) == Changes(ws, id, a, a) + 1;
      RowHistory(sha, ws, es, id, a, a + 1);
      RowHistory(sha, ws, es, id, a + 1, b);
    }
  }

  /** Nothing but expiry or deletion takes a row out of the available state: a late cleanup, a competing
      recovery or a collector never un-publishes it. */
  lemma OnlyRetirementUnpublishes(sha: Bytes -> Digest, w: World, e: Event, w': World, id: ContentId)
    requires Inv(sha, w) && Step(sha, w, e, w') && id in w.rows && w.rows[id].state == Available
    ensures id in w'.rows
    ensures w'.rows[id].state == Available || (e.Retire? && e.id == id)
  {
    hide Inv, Step;
    StepKeeps(sha, w, e, w');
    assert id in w'.rows;
    if Actor(e).None? { EnvironmentEvents(sha, w, e, w', id); }
  }

  lemma EnvironmentEvents(sha: Bytes -> Digest, w: World, e: Event, w': World, id: ContentId)
    requires Step(sha, w, e, w') && Actor(e).None? && id in w.rows
    ensures id in w'.rows && (w'.rows[id].state == w.rows[id].state || (e.Retire? && e.id == id))
  {}

  // ---- ingest round trip ----

  /** If an ingest returned a reference, its hash and size are those of the concatenated input chunks, and
      while the row is available its storage key names bytes with that hash and size. */
  lemma IngestReturnsItsInput(sha: Bytes -> Digest, ws: seq<World>, es: seq<Event>, i: nat, t: TaskId)
    requires IsRun(sha, ws, es) && i < |ws|
    requires t in ws[i].tasks && ws[i].tasks[t].Returned? && ws[i].tasks[t].source.Some?
    ensures var task := ws[i].tasks[t];
            && sha(Concat(task.source.value)) == task.ref.sha256 && |Concat(task.source.value)| == task.ref.size
            && task.ref.id in ws[i].rows
            && (ws[i].rows[task.ref.id].state == Available ==>
                  && Intact(sha, ws[i], ws[i].rows[task.ref.id])
                  && ws[i].rows[task.ref.id].sha256 == Some(task.ref.sha256)
                  && ws[i].rows[task.ref.id].size == Some(task.ref.size))
  {
    Reachable(sha, ws, es, i);
    var task := ws[i].tasks[t];
    assert TaskOk(sha, ws[i], t, task);
    if ws[i].rows[task.ref.id].state == Available {
      AvailableContentIsIntact(sha, ws, es, i, task.ref.id);
    }
  }

  /** With an injective hash, reading the stored key while the row is available yields the input bytes,
      also when concurrent finalizers shared the blob or it was removed and linked again meanwhile. */
  lemma IngestRoundTrip(sha: Bytes -> Digest, ws: seq<World>, es: seq<Event>, i: nat, t: TaskId)
    requires IsRun(sha, ws, es) && i < |ws| && Injective(sha)
    requires t in ws[i].tasks && ws[i].tasks[t].Returned? && ws[i].tasks[t].source.Some?
    requires ws[i].tasks[t].ref.id in ws[i].rows && ws[i].rows[ws[i].tasks[t].ref.id].state == Available
    ensures var row := ws[i].rows[ws[i].tasks[t].ref.id];
            && row.storageKey.Some? && row.storageKey.value in ws[i].blobs
            && ws[i].blobs[row.storageKey.value] == Concat(ws[i].tasks[t].source.value)
  {
    hide IsRun;
    IngestReturnsItsInput(sha, ws, es, i, t);
  }

  // ---- derived representations ----

  /** In every reachable state a representation identity has at most one active row, and every derived row
      has exactly one relation, the one from its source. */
  lemma OneActiveRepresentation(sha: Bytes -> Digest, ws: seq<World>, es: seq<Event>, i: nat)
    requires IsRun(sha, ws, es) && i < |ws|
    ensures var rows, relations := ws[i].rows, ws[i].relations;
            && (forall a, b ::
                  (&& a in rows && b in rows && rows[a].origin.Some? && rows[a].origin == rows[b].origin
                   && rows[a].state in {Creating, Available} && rows[b].state in {Creating, Available}) ==> a == b)
            && (forall id :: id in rows && rows[id].origin.Some? ==>
                  relations[Relation(rows[id].origin.value.source, id)] == 1)
            && (forall r :: r in relations ==>
                  r.target in rows && rows[r.target].origin.Some? && rows[r.target].origin.value.source == r.source)
  {
    hide IsRun;
    Reachable(sha, ws, es, i);
    assert UniqueClaims(ws[i].rows) && Related(ws[i].rows, ws[i].relations);
  }

  /** Callers that returned for one identity, the publisher among them, have the same content id as long as
      the rows they returned are still available. */
  lemma CallersAgree(sha: Bytes -> Digest, ws: seq<World>, es: seq<Event>, i: nat, t: TaskId, u: TaskId)
    requires IsRun(sha, ws, es) && i < |ws|
    requires t in ws[i].tasks && ws[i].tasks[t].Returned? && u in ws[i].tasks && ws[i].tasks[u].Returned?
    requires ws[i].tasks[t].origin.Some? && ws[i].tasks[t].origin == ws[i].tasks[u].origin
    requires forall r :: r in {ws[i].tasks[t].ref.id, ws[i].tasks[u].ref.id} && r in ws[i].rows ==>
               ws[i].rows[r].state == Available
    ensures ws[i].tasks[t].ref == ws[i].tasks[u].ref
  {
    Reachable(sha, ws, es, i);
    assert TaskOk(sha, ws[i], t, ws[i].tasks[t]) && TaskOk(sha, ws[i], u, ws[i].tasks[u]);
  }

  /** A caller that returns at step j for an identity whose earlier returned row is still available gets
      that very row. */
  lemma LaterCallerGetsTheWinner(sha: Bytes -> Digest, ws: seq<World>, es: seq<Event>, j: nat, t: TaskId, u: TaskId)
    requires IsRun(sha, ws, es) && j < |es|
    requires t in ws[j + 1].tasks && ws[j + 1].tasks[t].Returned? && ws[j + 1].tasks[t].origin.Some?
    requires ws[j + 1].tasks[t].ref.id in ws[j + 1].rows && ws[j + 1].rows[ws[j + 1].tasks[t].ref.id].state == Available
    requires u in ws[j + 1].tasks && ws[j + 1].tasks[u].Returned?
    requires ws[j + 1].tasks[u].origin == ws[j + 1].tasks[t].origin
    requires u in ws[j].tasks && !ws[j].tasks[u].Returned?
    ensures ws[j + 1].tasks[u].ref == ws[j + 1].tasks[t].ref
  {
    hide Step;
    Reachable(sha, ws, es, j);
    StepKeeps(sha, ws[j], es[j], ws[j + 1]);
    assert Actor(es[j]) == Some(u) && ReturnsAvailable(ws[j + 1], ws[j + 1].tasks[u]);
    CallersAgree(sha, ws, es, j + 1, t, u);
  }

  // ---- what a claim comes to ----

  /** An identity that no active row has. */
  ghost predicate Unclaimed(rows: Rows, identity: Identity) {
    forall r :: r in rows && Active(rows[r].state) ==> rows[r].origin != Some(identity)
  }

  /** A claim of a free identity under a free id inserts the row and its relation and goes on to write; a claim of
      a taken one changes nothing and goes on to read the winner. Such a step is always possible. */
  lemma ClaimOutcome(sha: Bytes -> Digest, w: World, t: TaskId, now: int)
    requires t in w.tasks && w.tasks[t].Claiming?
    ensures var c := w.tasks[t];
            forall w' :: Step(sha, w, Claim(t, now), w') <==>
              w' == if c.id !in w.rows && Unclaimed(w.rows, c.identity)
                    then w.(rows := w.rows[c.id := Row(c.identity.owner, Some(c.identity), Creating, 1, None, None,
                                                       None, None, None, None, now)],
                            relations := w.relations + multiset{Relation(c.identity.source, c.id)},
                            tasks := w.tasks[t := Reserved(c.id, c.stream)])
                    else w.(tasks := w.tasks[t := Conflicted(c.id, c.identity, c.stream)])
  {
    UnclaimedIsNotClaimed(w.rows, w.tasks[t].identity);
    hide Claimed, Unclaimed;
  }

  lemma UnclaimedIsNotClaimed(rows: Rows, identity: Identity)
    ensures Unclaimed(rows, identity) <==> !Claimed(rows, identity)
  {}

  /** In every reachable state a caller whose claim lost to an available row gets exactly that row, whichever row
      the query picks; one that lost to a row still being created claims again; and one whose winner is gone ends. */
  lemma LoserGetsTheWinner(sha: Bytes -> Digest, ws: seq<World>, es: seq<Event>, i: nat, t: TaskId, id: ContentId)
    requires IsRun(sha, ws, es) && i < |ws| && t in ws[i].tasks && ws[i].tasks[t].Conflicted?
    requires id in ws[i].rows && Active(ws[i].rows[id].state) && ws[i].rows[id].origin == Some(ws[i].tasks[t].identity)
    ensures var w, c, row := ws[i], ws[i].tasks[t], ws[i].rows[id];
            var next := w.(tasks := w.tasks[t :=
                             if row.state == Available && row.sha256.Some? && row.size.Some?
                             then Returned(ContentRef(id, row.sha256.value, row.size.value), Some(c.identity), None)
                             else Claiming(c.id, c.identity, c.stream)]);
            && (row.state == Available ==> row.sha256.Some? && row.size.Some?)
            && (forall winner, w' :: Step(sha, w, SelectWinner(t, winner), w') <==> winner == id && w' == next)
  {
    Reachable(sha, ws, es, i);
    var w := ws[i];
    assert RowOk(w.rows[id]) && UniqueClaims(w.rows);
    hide Inv;
    assert Claimed(w.rows, w.tasks[t].identity);
    forall winner, w' | Step(sha, w, SelectWinner(t, winner), w') ensures winner == id {}
  }

  lemma LoserWithoutWinnerEnds(sha: Bytes -> Digest, w: World, t: TaskId)
    requires t in w.tasks && w.tasks[t].Conflicted? && Unclaimed(w.rows, w.tasks[t].identity)
    ensures forall winner, w' :: Step(sha, w, SelectWinner(t, winner), w') <==> w' == w.(tasks := w.tasks - {t})
  {
    UnclaimedIsNotClaimed(w.rows, w.tasks[t].identity);
    hide Claimed, Unclaimed;
  }
}
