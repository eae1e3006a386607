/** The content-addressed filesystem store, as used by one process at a time. */
module ContentStore {
  import opened Basics
  import opened ContentModels

  datatype StagedFile = StagedFile(data: Bytes, modifiedAt: int)

  type Staging = map<Handle, StagedFile>

  type Blobs = map<StorageKey, Bytes>

  datatype StoreError = NotFound | IntegrityFailure | AlreadyExists | StreamBroken

  /** Whether a present blob has the expected hash and size. */
  predicate Verifies(sha: Bytes -> Digest, blobs: Blobs, blob: StagedBlob) {
    StorageKey(blob.sha256) in blobs && Matches(sha, blobs[StorageKey(blob.sha256)], blob.sha256, blob.size)
  }

  /** When finalize succeeds: the staging file is as recorded and its target is free or already right, or
      the staging file is gone and the target is right. */
  predicate CanFinalize(sha: Bytes -> Digest, staging: Staging, blobs: Blobs, blob: StagedBlob) {
    if blob.handle in staging
    then && Matches(sha, staging[blob.handle].data, blob.sha256, blob.size)
         && (StorageKey(blob.sha256) !in blobs || Verifies(sha, blobs, blob))
    else Verifies(sha, blobs, blob)
  }

  class FilesystemContentStore {
    const sha: Bytes -> Digest
    const chunkSize: nat
    var staging: Staging
    var blobs: Blobs

    constructor (sha: Bytes -> Digest, chunkSize: nat)
      requires chunkSize > 0
      ensures this.sha == sha && this.chunkSize == chunkSize && staging == map[] && blobs == map[]
    {
      this.sha := sha;
      this.chunkSize := chunkSize;
      staging := map[];
      blobs := map[];
    }

    /** Reading a file chunk by chunk hashes and counts exactly its bytes. */
    method DigestFile(data: Bytes) returns (digest: Digest, size: nat)
      requires chunkSize > 0
      ensures digest == sha(data) && size == |data|
    {
      var fed: Bytes := [];
      size := 0;
      while size < |data|
        invariant size <= |data| && fed == data[..size]
      {
        var end := if size + chunkSize < |data| then size + chunkSize else |data|;
        fed := fed + data[size..end];
        size := end;
      }
      assert fed == data;
      digest := sha(fed);
    }

    /** stage_write: the whole stream is written under a new name and digested on the way; if the stream breaks off
        with an error the partial file is removed again. */
    method StageWrite(id: ContentId, token: string, stream: seq<Bytes>, breaks: bool, now: int)
      returns (r: Result<StagedBlob, StoreError>)
      modifies this`staging
      ensures r.Ok? <==> Handle(id, token) !in old(staging) && !breaks
      ensures r.Err? ==> staging == old(staging)
      ensures r.Ok? ==>
        && r.value == StagedBlob(Handle(id, token), sha(Concat(stream)), |Concat(stream)|)
        && staging == old(staging)[Handle(id, token) := StagedFile(Concat(stream), now)]
    {
      var handle := Handle(id, token);
      if handle in staging {
        return Err(AlreadyExists);
      }
      staging := staging[handle := StagedFile([], now)];
      var fed: Bytes := [];
      var size := 0;
      for i := 0 to |stream|
        invariant fed == Concat(stream[..i]) && size == |fed|
        invariant staging == old(staging)[handle := StagedFile(fed, now)]
      {
        ConcatStep(stream, i);
        if stream[i] != [] {
          fed := fed + stream[i];
          size := size + |stream[i]|;
          staging := staging[handle := StagedFile(staging[handle].data + stream[i], now)];
        }
      }
      ConcatWhole(stream);
      if breaks {
        staging := staging - {handle};
        assert staging == old(staging);
        return Err(StreamBroken);
      }
      r := Ok(StagedBlob(handle, sha(fed), size));
    }

    method StatStaging(handle: Handle) returns (r: Option<StagedBlob>)
      requires chunkSize > 0
      ensures r == if handle in staging
                   then Some(StagedBlob(handle, sha(staging[handle].data), |staging[handle].data|)) else None
    {
      if handle !in staging {
        return None;
      }
      var digest, size := DigestFile(staging[handle].data);
      r := Some(StagedBlob(handle, digest, size));
    }

    /** _verify_blob: the size is compared first, the hash only when it matches. */
    method VerifyBlob(blob: StagedBlob) returns (ok: bool)
      requires chunkSize > 0
      ensures ok == Verifies(sha, blobs, blob)
    {
      var key := StorageKey(blob.sha256);
      if key !in blobs || |blobs[key]| != blob.size {
        return false;
      }
      var digest, _ := DigestFile(blobs[key]);
      ok := digest == blob.sha256;
    }

    method Finalize(blob: StagedBlob) returns (r: Result<StoredBlob, StoreError>)
      requires chunkSize > 0
      modifies this`staging, this`blobs
      ensures r.Ok? <==> CanFinalize(sha, old(staging), old(blobs), blob)
      ensures r.Ok? ==>
                && r.value == StoredBlob(StorageKey(blob.sha256), blob.sha256, blob.size)
                && staging == old(staging) - {blob.handle}
                && Verifies(sha, blobs, blob)
                && blobs == old(blobs)[StorageKey(blob.sha256) := blobs[StorageKey(blob.sha256)]]
                && (StorageKey(blob.sha256) in old(blobs) ==> blobs == old(blobs))
                && (StorageKey(blob.sha256) !in old(blobs) ==>
                      && blob.handle in old(staging)
                      && blobs[StorageKey(blob.sha256)] == old(staging)[blob.handle].data)
      ensures r.Err? ==> staging == old(staging) && blobs == old(blobs)
    {
      var observed := StatStaging(blob.handle);
      var key := StorageKey(blob.sha256);
      if observed.None? {
        var ok := VerifyBlob(blob);
        if ok {
          assert staging - {blob.handle} == staging;
          return Ok(StoredBlob(key, blob.sha256, blob.size));
        }
        return Err(NotFound);
      }
      if observed.value.sha256 != blob.sha256 || observed.value.size != blob.size {
        return Err(IntegrityFailure);
      }
      if key !in blobs {
        blobs := blobs[key := staging[blob.handle].data];
      } else {
        var ok := VerifyBlob(blob);
        if !ok {
          return Err(IntegrityFailure);
        }
      }
      staging := staging - {blob.handle};
      r := Ok(StoredBlob(key, blob.sha256, blob.size));
    }

    /** stat trusts the name for the hash and reads only the size. */
    method Stat(key: StorageKey) returns (r: Option<StoredBlob>)
      ensures r == if key in blobs then Some(StoredBlob(key, key.sha256, |blobs[key]|)) else None
    {
      r := if key in blobs then Some(StoredBlob(key, key.sha256, |blobs[key]|)) else None;
    }

    /** list_staging: at most `limit` of the files present, each once. The listing order is not modelled. */
    method ListStaging(limit: nat) returns (handles: seq<Handle>)
      ensures forall i, j :: 0 <= i < j < |handles| ==> handles[i] != handles[j]
      ensures forall i :: 0 <= i < |handles| ==> handles[i] in staging
      ensures |handles| == if |staging.Keys| < limit then |staging.Keys| else limit
    {
      handles := [];
      var rest := staging.Keys;
      while rest != {} && |handles| < limit
        invariant rest <= staging.Keys && |handles| <= limit && |handles| + |rest| == |staging.Keys|
        invariant forall i :: 0 <= i < |handles| ==> handles[i] in staging && handles[i] !in rest
        invariant forall i, j :: 0 <= i < j < |handles| ==> handles[i] != handles[j]
      {
        var h :| h in rest;
        handles := handles + [h];
        rest := rest - {h};
      }
    }

    method Remove(key: StorageKey) returns (removed: bool)
      modifies this`blobs
      ensures removed == (key in old(blobs)) && blobs == old(blobs) - {key}
    {
      removed := key in blobs;
      blobs := blobs - {key};
    }

    method RemoveStaging(handle: Handle) returns (removed: bool)
      modifies this`staging
      ensures removed == (handle in old(staging)) && staging == old(staging) - {handle}
    {
      removed := handle in staging;
      staging := staging - {handle};
    }
  }
}
