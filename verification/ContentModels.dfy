/** Content resource values and lifecycle: states, transition table and committed rows. */
module ContentModels {
  import opened Basics

  datatype ContentState = Creating | Available | Failed | Expired | Deleted

  /** The lifecycle transition table. */
  predicate CanTransition(current: ContentState, target: ContentState) {
    match current
    case Creating => target == Available || target == Failed
    case Available => target == Expired || target == Deleted
    case Failed => target == Deleted
    case Expired => target == Deleted
    case Deleted => false
  }

  /** The table, pair by pair. */
  lemma TransitionTable(a: ContentState, b: ContentState)
    ensures CanTransition(a, b) <==>
              (a, b) in {(Creating, Available), (Creating, Failed), (Available, Expired), (Available, Deleted),
                         (Failed, Deleted), (Expired, Deleted)}
  {}

  /** A state path of zero or more table transitions. */
  predicate Reaches(current: ContentState, target: ContentState) {
    || current == target
    || CanTransition(current, target)
    || (target == Deleted && (current == Creating || current == Available))
    || (current == Creating && target == Expired)
  }

  /** Reaches is the reflexive and transitive closure of the transition table, and no more. */
  lemma ReachesIsClosure(a: ContentState, b: ContentState, c: ContentState)
    ensures Reaches(a, a)
    ensures Reaches(a, b) && CanTransition(b, c) ==> Reaches(a, c)
    ensures Reaches(a, c) && a != c ==> exists m :: CanTransition(a, m) && Reaches(m, c)
    ensures Reaches(a, b) && Reaches(b, c) ==> Reaches(a, c)
  {
    if Reaches(a, c) && a != c {
      var m := if CanTransition(a, c) then c else Available;
      assert CanTransition(a, m) && Reaches(m, c);
    }
  }

  datatype ContentId = ContentId(value: string)

  datatype Digest = Digest(hex: string)

  /** A staging file name: staging/<content id>/<random token>.part */
  datatype Handle = Handle(content: ContentId, token: string)

  /** A content-addressed blob name: sha256/<first two digits>/<digest>. */
  datatype StorageKey = StorageKey(sha256: Digest)

  datatype Kind = Raw | Text | Markdown | Structured | Binary

  /** The columns of the unique index over active derived representations. */
  datatype Identity = Identity(
    owner: string,
    source: ContentId,
    capability: string,
    producerRevision: string,
    profileRevision: string,
    parametersHash: Digest,
    kind: Kind,
    schemaRevision: string)

  datatype Relation = Relation(source: ContentId, target: ContentId)

  datatype StagedBlob = StagedBlob(handle: Handle, sha256: Digest, size: nat)

  datatype StoredBlob = StoredBlob(key: StorageKey, sha256: Digest, size: nat)

  datatype ContentRef = ContentRef(id: ContentId, sha256: Digest, size: nat)

  /** One committed row of content_objects. */
  datatype Row = Row(
    owner: string,
    origin: Option<Identity>,
    state: ContentState,
    revision: nat,
    sha256: Option<Digest>,
    size: Option<nat>,
    stagingKey: Option<Handle>,
    storageKey: Option<StorageKey>,
    inspection: Option<string>,
    failureCode: Option<string>,
    updatedAt: int)

  type Rows = map<ContentId, Row>

  predicate Active(state: ContentState) {
    state == Creating || state == Available
  }

  /** Whether the bytes have the recorded integrity metadata. */
  predicate Matches(sha: Bytes -> Digest, data: Bytes, sha256: Digest, size: nat) {
    sha(data) == sha256 && |data| == size
  }

  ghost predicate Injective(sha: Bytes -> Digest) {
    forall a: Bytes, b: Bytes :: sha(a) == sha(b) ==> a == b
  }
}
