# Web Access: verified protocols

Web Access is a backend that searches, retrieves and stores web content for agents and programs. This project
models the parts of it that are hard to get right and proves, with Dafny, what they promise. Four components are
modelled, and two loops.

- **Content publication, recovery and collection** (`ContentModels`, `ContentRepository`, `ContentStore`,
  `ContentProtocol`, `ContentSafety`, `ContentTheorems`, `ContentProgress`, `ContentUpkeep`, `ContentMaintenance`).
  The committed table, the staging files, the content-addressed blobs and the advisory locks are one shared state;
  every committed transaction and every filesystem call is one step. Any number of ingests, derived-representation claims, failure cleanups,
  recoveries and collectors interleave; each may raise or stop between two steps, a commit may take effect and still
  raise, and any staging file may vanish at any time. The proof is a rely/guarantee argument: an invariant over the
  shared state and over each task's local variables, and a guarantee that each step gives to all the other tasks.
  The repository, the store, an undisturbed ingest and an undisturbed maintenance pass are also modelled as classes
  with the same row functions.
- **Redis flow control** (`FlowControl`, `FlowSafety`, `FlowTheorems`, `FlowTighter`, `FlowFaster`, `FlowTiming`,
  `FlowRelease`). The Lua scripts are methods on a class and equal functions on the Redis state; runs are sequences of requests, clock ticks and state losses. The
  admission bound is proved against an ideal bucket that is never lost and never expires. The bound turns out to
  depend on how the quarantine rounds to milliseconds, and the exact condition is proved.
- **Paged reading** (`Utf8`, `ContentPaging`, `Base64Url`, `Json`, `CursorCodec`, `ContentReading`). The incremental
  UTF-8 decoder, the page reader over an arbitrarily chunked stream, canonical base64url, the JSON claims and the
  signed cursor, up to the statement that following cursors reads exactly the text.
- **Search attempts** (`SearchFlight`, `SearchFlightTheorems`, `SearchFlightLimits`, `SearchAttempts`). Cache and single-flight lease as an
  interleaved state machine; the billable attempt loop and its evidence rows as a class.
- **Bounded response body** (`BodyStream`) and **PDF content size** (`PdfTraversal`).

SHA-256 and the HMAC are parameters: arbitrary functions, assumed injective (SHA-256) or of 32 bytes (HMAC) only
where a statement says so. Clocks, random tokens, network answers, deadlines and Redis or database faults are
parameters of the steps. `dafny verify dfyconfig.toml` checks everything.

Assumptions, taken from the systems the code uses: a commit is visible before its advisory lock is released, and a
blob removal finishes before that; Lua scripts are atomic; server time does not go back; random tokens and ids are
not drawn twice. Expiry and deletion of rows happen within the transition table.

## Findings

- The admission bound does not always hold across a state loss. The quarantine is rounded to the nearest millisecond,
  so it can end a fraction of a millisecond before an emptied bucket would have refilled, and then twice the capacity
  is admitted within one quarantine. `FlowTheorems.GlobalBoundIffCovered` gives the exact condition for the global
  bucket, `FlowTheorems.PrincipalBoundIffCovered` for every principal's where the global bucket is not smaller, as in
  the default settings, `FlowTighter.PrincipalBoundIffBurstCovered` where the global bucket is smaller and not faster,
  and `FlowFaster.PrincipalBoundIffCoveredFaster` where it is smaller but faster; `FlowTheorems.ShortQuarantineExists` and
  `FlowFaster.FasterGlobalExample` are examples and `FlowSafety.CoversWhen` names conditions that avoid it.
- A stored search result does not always serve the later callers, even while Redis answers, nothing expires and the
  put is stored. A cache lookup that meets an unreadable payload deletes the key with a second command, which can come
  after another caller has stored a good result there; the deletion removes it and the slow caller goes to the
  provider again. `SearchFlightLimits.UnreadableEntryAllowsSecondCall` is such a run,
  `SearchFlightTheorems.OneStoredSuccessServesAll` the exact condition at the moment of success, and
  `SearchFlightLimits.StoredSuccessServesAllFromTheStart` the exact condition at the start.
- A cursor is not readable for every owner that the decoder accepts: 128 supplementary characters make it longer than
  2048 characters. `CursorCodec.RoundTripExactly` gives the exact condition; every owner in the configured alphabet,
  indeed every owner without supplementary characters, is fine.
- The PDF content traversal also refuses content within the byte limit if it has to look at more than 10 000 values;
  `PdfTraversal.RawContentBytes` states both conditions as an equivalence and `PdfTraversal.WideArrayIsRefused` shows
  an array without any bytes.

## Model

| member | source | states |
|---|---|---|
| `ContentModels.ReachesIsClosure` | src/web_access/domain/content/models.py:55-65 | `Reaches`, used for state paths, is exactly the reflexive transitive closure of the transition table |
| `ContentModels.TransitionTable` | src/web_access/domain/content/models.py:55-65 | the six allowed transitions and no other |
| `ContentRepository.PostgresContentRepository.Add` | src/web_access/infrastructure/database/content.py:99-100 | inserts a row unless the id is taken |
| `ContentRepository.PostgresContentRepository.SetStaged` | src/web_access/infrastructure/database/content.py:142-171 | applies exactly to a creating row at the expected revision; handle, hash, size and time change, the revision rises by one, every other column and row stays |
| `ContentRepository.PostgresContentRepository.Publish` | src/web_access/infrastructure/database/content.py:173-202 | applies exactly to a creating row at the expected revision that has hash and size; it becomes available under the key without a staged handle, every other column and row stays |
| `ContentRepository.PostgresContentRepository.MarkFailed` | src/web_access/infrastructure/database/content.py:204-225 | applies exactly to a creating row at the expected revision; it fails with the code, every other column and row stays |
| `ContentRepository.PostgresContentRepository.SaveInspection` | src/web_access/infrastructure/database/content.py:227-254 | the first inspection of an available row at the expected revision is kept, every other column and row stays |
| `ContentRepository.PostgresContentRepository.Oldest` | src/web_access/infrastructure/database/content.py:256-271 | a bounded query returns distinct candidates, the oldest ones, as many as there are up to the limit, in order of age |
| `ContentRepository.PostgresContentRepository.HasActiveStorageReference` | src/web_access/infrastructure/database/content.py:307-316 | true exactly when some available row names the key |
| `ContentRepository.WholeSetListed` | src/web_access/application/content/maintenance.py:47-59 | a duplicate-free listing as long as the candidate set lists the whole set, so a large enough batch misses nothing |
| `ContentStore.FilesystemContentStore.DigestFile` | src/web_access/infrastructure/content/filesystem.py:141-154 | reading in chunks digests and counts exactly the file's bytes |
| `ContentStore.FilesystemContentStore.StageWrite` | src/web_access/infrastructure/content/filesystem.py:107-139 | the new file holds the concatenated stream, and hash and size are those of the stream; no other file changes, and a stream that breaks off leaves no file |
| `ContentStore.FilesystemContentStore.StatStaging` | src/web_access/infrastructure/content/filesystem.py:141-154 | hash and size of the present file, or nothing |
| `ContentStore.FilesystemContentStore.VerifyBlob` | src/web_access/infrastructure/content/filesystem.py:243-250 | true exactly when the blob is present with the expected hash and size |
| `ContentStore.FilesystemContentStore.Finalize` | src/web_access/infrastructure/content/filesystem.py:156-181 | succeeds exactly when the staged file is as recorded and its target is free or right, or the file is gone and the target right; then the target is right and never overwritten |
| `ContentStore.FilesystemContentStore.Stat` | src/web_access/infrastructure/content/filesystem.py:263-268 | presence and size of a blob under its name |
| `ContentStore.FilesystemContentStore.ListStaging` | src/web_access/infrastructure/content/filesystem.py:194-215 | distinct present files, all of them when they fit the limit |
| `ContentStore.FilesystemContentStore.Remove` | src/web_access/infrastructure/content/filesystem.py:273-281 | removes that blob and says whether it was there |
| `ContentStore.FilesystemContentStore.RemoveStaging` | src/web_access/infrastructure/content/filesystem.py:183-192 | removes that file and says whether it was there |
| `ContentSafety.StepKeeps` | src/web_access/application/content/service.py:152-241 | every step of every task, including faults, lost acknowledgements and environment steps, keeps the invariant and gives the other tasks what they rely on |
| `ContentSafety.RelyKeepsTask` | src/web_access/application/content/service.py:166-210 | what a task knows through its local variables survives any step of any other task |
| `ContentSafety.PublishKeeps` | src/web_access/application/content/service.py:190-202 | publication under the storage-key lock keeps the invariant also when its commit is not acknowledged |
| `ContentSafety.LinkKeeps` | src/web_access/infrastructure/content/filesystem.py:156-181 | concurrent finalizers of one blob keep it intact |
| `ContentSafety.RemovedKeeps` | src/web_access/application/content/service.py:232-241 | removing a blob under the lock after the reference check takes no blob from an available row |
| `ContentSafety.MarkFailedKeeps` | src/web_access/application/content/service.py:212-231 | late or repeated cleanup keeps the invariant |
| `ContentSafety.ClaimKeeps` | src/web_access/infrastructure/database/content.py:108-140 | the claim inserts row and relation only when the identity is free |
| `ContentTheorems.Reachable` | src/web_access/application/content/service.py:152-241 | the invariant holds in every state of every run |
| `ContentTheorems.AvailableContentIsIntact` | src/web_access/application/content/service.py:176-241 | in every reachable interleaving every available row's storage key names a present blob with exactly that row's hash and size |
| `ContentTheorems.RowHistory` | src/web_access/infrastructure/database/content.py:142-254 | over any part of a run a row stays, its revision rises by one per committed change, its state path follows the table, and hash, size and storage key never change once set |
| `ContentTheorems.OneWinnerPerRevision` | src/web_access/infrastructure/database/content.py:142-254 | two changes of one row at the same revision are the same change |
| `ContentTheorems.OnlyRetirementUnpublishes` | src/web_access/application/content/service.py:212-241 | no step but expiry or deletion takes a row out of the available state |
| `ContentTheorems.IngestReturnsItsInput` | src/web_access/application/content/service.py:166-204 | a returned reference has the hash and size of the concatenated input, and so has the stored blob while the row is available |
| `ContentTheorems.IngestRoundTrip` | src/web_access/infrastructure/content/filesystem.py:107-181 | with an injective hash the stored key yields the input bytes while the row is available, whatever shares the blob |
| `ContentTheorems.OneActiveRepresentation` | alembic/versions/0003_content_core.py:96-113 | in every reachable state an identity has at most one active row, and a derived row exactly one relation, to its source |
| `ContentTheorems.ClaimOutcome` | src/web_access/infrastructure/database/content.py:108-140 | a claim of a free identity inserts exactly the new row and its relation and goes on to write; of a taken one it changes nothing and reads the winner; it is always possible |
| `ContentTheorems.LoserGetsTheWinner` | src/web_access/application/content/service.py:396-415 | in every reachable state a caller whose claim lost to an available row gets exactly that row's id, hash and size, and one that lost to a row still being created claims again; the step exists |
| `ContentTheorems.LoserWithoutWinnerEnds` | src/web_access/infrastructure/database/content.py:108-140 | a caller whose winner is gone ends with nothing changed |
| `ContentTheorems.CallersAgree` | src/web_access/application/content/service.py:396-415 | callers that returned for one identity have the same reference while the rows they returned are available |
| `ContentTheorems.LaterCallerGetsTheWinner` | src/web_access/application/content/service.py:396-415 | a caller returning while an earlier returned row is available gets that row |
| `ContentProgress.UndisturbedIngestPublishes` | src/web_access/application/content/service.py:152-202 | from whatever state the others left, an ingest or a derived representation with new names, a free identity, a free lock and no wrong blob under its hash has a run through all the steps that ends with exactly its row published, its relation, its blob and its reference returned, and everything else as it was |
| `ContentUpkeep.UndisturbedCollection` | src/web_access/application/content/service.py:232-241 | a collector removes the blob exactly when no available row names it, and changes nothing else |
| `ContentUpkeep.UndisturbedCleanup` | src/web_access/application/content/service.py:212-241 | a cleanup removes the staged file, fails the row unless it has moved on, and removes the finalized blob exactly when no available row names it |
| `ContentUpkeep.EarlyFailureIsCleanedUp` | src/web_access/application/content/service.py:203-210 | an exception before the blob is finalized leads to that cleanup with the staged file |
| `ContentUpkeep.LateFailureIsCleanedUp` | src/web_access/application/content/service.py:203-210 | an exception after it leads to that cleanup with the staged file and the blob |
| `ContentUpkeep.WrongFileIsGivenUp` | src/web_access/infrastructure/content/filesystem.py:156-166 | a staged file that differs from what was recorded, or one that is gone without a right target, is given up |
| `ContentUpkeep.WrongTargetIsGivenUp` | src/web_access/infrastructure/content/filesystem.py:168-179 | an existing target that differs is neither replaced nor published |
| `ContentUpkeep.WrongBlobIsNotPublished` | src/web_access/application/content/service.py:191-195 | a blob that is gone or has another size under the lock is not published |
| `ContentUpkeep.UnstagedRowFails` | src/web_access/application/content/maintenance.py:103-117 | an undisturbed recovery fails a row that was never staged |
| `ContentUpkeep.LostPayloadFails` | src/web_access/application/content/maintenance.py:118-133 | it fails a row whose payload is neither staged nor stored |
| `ContentUpkeep.UndisturbedRecovery` | src/web_access/application/content/maintenance.py:118-149 | it publishes a row whose payload is on disk, with exactly its columns, blob and file as they should be |
| `ContentMaintenance.StoppedSystemIsConsistent` | src/web_access/application/content/maintenance.py:45-149 | every reachable state, stopped there, meets the precondition of the maintenance pass |
| `ContentMaintenance.FileOnDiskRecovers` | src/web_access/application/content/maintenance.py:103-149 | with an injective hash a stale row whose staged file is on disk can be recovered |
| `ContentMaintenance.ContentServices.Ingest` | src/web_access/application/content/service.py:130-210 | undisturbed, ingest publishes exactly its input unless the stream breaks off or a blob of another size sits under the same hash; then the row fails and nothing else remains |
| `ContentMaintenance.ContentServices.Complete` | src/web_access/application/content/service.py:190-241 | the staged payload is published with its bytes as the blob, exactly when no blob of another size sits under its hash; otherwise the row fails, and the staging file is gone either way |
| `ContentMaintenance.ContentServices.Recover` | src/web_access/application/content/maintenance.py:103-149 | a stale row becomes available exactly when its payload can be finalized and failed with the right code otherwise, column by column; only its own file goes, and only a blob in use is new |
| `ContentMaintenance.ContentServices.RecoverAll` | src/web_access/application/content/maintenance.py:53-59 | every listed row is settled, recovered and failed counts are exact, no other row changes |
| `ContentMaintenance.ContentServices.RemoveOrphans` | src/web_access/application/content/maintenance.py:61-66 | exactly the listed old files that no creating row named are removed, and counted |
| `ContentMaintenance.ContentServices.Candidates` | src/web_access/infrastructure/database/content.py:282-299 | distinct storage keys of old inactive rows, all of them when they fit the limit |
| `ContentMaintenance.ContentServices.Collect` | src/web_access/application/content/maintenance.py:72-78 | exactly the listed blobs that no available row names are removed, and counted |
| `ContentMaintenance.ContentServices.Audit` | src/web_access/application/content/maintenance.py:80-93 | counts exactly the listed rows without a storage key, without a blob, or whose blob has another name or size |
| `ContentMaintenance.NothingDamaged` | src/web_access/application/content/maintenance.py:80-93 | in a consistent system there are none |
| `ContentMaintenance.CandidatesMean` | src/web_access/infrastructure/database/content.py:256-299 | which rows are stale, which keys are collectable and which files are known |
| `ContentMaintenance.ContentServices.RecoverStale` | src/web_access/application/content/maintenance.py:47-59 | only stale rows change and only their files go; when they fit the batch each is settled and counted once, and none whose payload is on disk is given up |
| `ContentMaintenance.ContentServices.Sweep` | src/web_access/application/content/maintenance.py:61-93 | the phases after recovery remove exactly the orphans and unreferenced candidates listed, all of them when they fit the batch |
| `ContentMaintenance.ContentServices.RunOnce` | src/web_access/application/content/maintenance.py:45-101 | from any stopping point a pass running alone settles every stale row when they fit the batch and counts each as what it became; only stale rows change; no staged payload on disk is given up; the removed orphans and the removed blobs are exactly counted, nothing else goes, and when they fit the batch none of them is left |
| `FlowControl.FlowScripts.EnterGeneration` | src/web_access/infrastructure/search/admission.py:40-53 | a missing or foreign marker starts a quarantined generation, a current one stays |
| `FlowControl.FlowScripts.TokenBucket` | src/web_access/infrastructure/search/admission.py:31-93 | the script, statement by statement, is the admission step of the statements about runs |
| `FlowControl.FlowScripts.ConcurrencyAcquire` | src/web_access/infrastructure/search/admission.py:95-127 | the script, statement by statement, is the lease step of the statements about runs |
| `FlowControl.FlowScripts.ConcurrencyRelease` | src/web_access/infrastructure/search/admission.py:129-131 | the token is out of the set, every other lease as it was |
| `FlowRelease.GivenBackIsGone` | src/web_access/infrastructure/search/admission.py:129-131 | after any number of reached releases the set and the clients' leases are without exactly those tokens, and nothing else changed |
| `FlowRelease.RoomIsGranted` | src/web_access/infrastructure/search/admission.py:95-131 | outside quarantine a new request after releases is granted exactly when fewer than the limit are live without them |
| `FlowRelease.OneReturnMakesRoom` | src/web_access/infrastructure/search/admission.py:95-131 | giving back one live lease makes room for the next, for every limit |
| `FlowSafety.QuarantineIsShared` | src/web_access/bootstrap/lifespan.py:371-381 | both limiters quarantine equally long, and never shorter than a lease |
| `FlowSafety.TimesAreRounded` | src/web_access/bootstrap/lifespan.py:371-381 | quarantine, lease and key life are the longest horizon, the lease and twice the refill, rounded to milliseconds |
| `FlowSafety.RoundIsNearest` | src/web_access/infrastructure/search/admission.py:216-238 | rounding goes to the nearest integer and, halfway, to the even one |
| `FlowSafety.TtlFills` | src/web_access/infrastructure/search/admission.py:216-225 | a bucket untouched for its key's time to live is full |
| `FlowSafety.CoversWhen` | src/web_access/infrastructure/search/admission.py:211-238 | when the rounded quarantine is long enough for a bucket |
| `FlowSafety.ChargesBothOrNeither` | src/web_access/infrastructure/search/admission.py:73-92 | an admission takes one unit from both buckets, each of which held one; any other answer takes nothing; no other bucket and no lease changes |
| `FlowSafety.WindowBound` | src/web_access/infrastructure/search/admission.py:58-64 | admissions paid by a bucket are at most capacity plus refill in every window |
| `FlowSafety.StepKeepsBucket` | src/web_access/infrastructure/search/admission.py:31-93 | through every request, tick and state loss the real bucket never holds more than the ideal one outside quarantine |
| `FlowSafety.StepKeepsLeases` | src/web_access/infrastructure/search/admission.py:95-131 | through every step every unexpired lease outside quarantine is in the server's set |
| `FlowTheorems.AdmissionsAreBounded` | src/web_access/infrastructure/search/admission.py:31-93 | in every run, through any losses, and in every window, global and per-principal admissions are at most capacity plus refill, if the rounded quarantine covers the bucket |
| `FlowTheorems.LeasesAreBounded` | src/web_access/infrastructure/search/admission.py:95-127 | across any clients and losses, unexpired unreleased leases never exceed the global limit |
| `FlowTheorems.ShortQuarantineOverAdmits` | src/web_access/infrastructure/search/admission.py:211-238 | with a shorter quarantine a concrete run admits twice the capacity within one quarantine |
| `FlowTheorems.GlobalBoundIffCovered` | src/web_access/infrastructure/search/admission.py:31-93 | the global bound holds of all runs and windows exactly when the rounded quarantine covers the refill |
| `FlowTheorems.ShortQuarantineOverAdmitsPrincipal` | src/web_access/infrastructure/search/admission.py:211-238 | with a shorter quarantine and a global bucket that is not smaller a concrete run admits one principal twice its capacity |
| `FlowTheorems.PrincipalBoundIffCovered` | src/web_access/infrastructure/search/admission.py:31-93 | if the global bucket is not smaller, every principal's bound holds of all runs and windows exactly when the rounded quarantine covers the refill |
| `FlowTighter.StepKeepsTight` | src/web_access/infrastructure/search/admission.py:31-93 | with a tighter global bucket, through every request, tick and state loss, the real global bucket never holds more than a principal's ideal one outside quarantine |
| `FlowTighter.ShortQuarantineLetsBurstsPass` | src/web_access/infrastructure/search/admission.py:211-238 | with a global bucket that is not larger and a quarantine that gives a principal less than it holds, enough losses take a principal over its bound |
| `FlowTighter.BoundNeedsBurst` | src/web_access/infrastructure/search/admission.py:211-238 | with a global bucket that is not larger, every principal's bound needs a quarantine that gives a principal as much as the global bucket holds |
| `FlowTighter.PrincipalBoundIffBurstCovered` | src/web_access/infrastructure/search/admission.py:31-93 | if the global bucket is neither larger nor faster, every principal's bound holds of all runs and windows exactly when the rounded quarantine gives a principal as much as the global bucket holds |
| `FlowTheorems.CoveredPrincipalsAreBounded` | src/web_access/infrastructure/search/admission.py:31-93 | a quarantine that refills a principal's bucket is enough for every principal's bound, whatever the global bucket is |
| `FlowFaster.OneDrip` | src/web_access/infrastructure/search/admission.py:58-64 | taking all there is every millisecond, neither bucket overflows, and the principal's level comes down to the global one |
| `FlowFaster.DrainsToTheMark` | src/web_access/infrastructure/search/admission.py:31-93 | out of quarantine with a smaller but faster global bucket a run exists that gives a principal its capacity and all its refill, to the last unit |
| `FlowFaster.TwoRoundsExceed` | src/web_access/infrastructure/search/admission.py:211-238 | with a short quarantine two such rounds take the principal over its bound |
| `FlowFaster.PrincipalBoundIffCoveredFaster` | src/web_access/infrastructure/search/admission.py:31-93 | with a smaller but faster global bucket and a rational rate, every principal's bound holds of all runs and windows exactly when the rounded quarantine covers the refill |
| `FlowFaster.FasterGlobalExample` | src/web_access/infrastructure/search/admission.py:211-238 | settings whose quarantine makes up for a global burst and still breaks a principal's bound |
| `FlowTheorems.ShortQuarantineExists` | src/web_access/infrastructure/search/admission.py:211-238 | valid settings with a short quarantine exist |
| `FlowTiming.RetryDelayIsExact` | src/web_access/infrastructure/search/admission.py:76-86 | a limited request is admitted after the returned milliseconds and not one earlier, and each earlier try is told the remaining time |
| `FlowTiming.QuarantineDelayIsExact` | src/web_access/infrastructure/search/admission.py:54-56 | a quarantined request is told exactly how long the quarantine lasts |
| `FlowTiming.FutureUpdateGainsNothing` | src/web_access/infrastructure/search/admission.py:58-64 | a bucket written by a clock ahead gains nothing until then |
| `FlowTiming.ExpiryIsInvisible` | src/web_access/infrastructure/search/admission.py:88-91 | every request of every run is answered as by a server whose bucket and lease keys never expire |
| `Utf8.DecodesExactlyUtf8` | src/web_access/application/content/service.py:624-644 | the decoder accepts exactly the encodings of texts and returns the text |
| `Utf8.KnownEncodings` | src/web_access/application/content/service.py:655-657 | one character of each length |
| `Utf8.DrainMore` | src/web_access/application/content/service.py:631-644 | decoding is independent of the chunk boundaries |
| `ContentPaging.PageIsDetermined` | src/web_access/application/content/service.py:621-657 | on valid text the page contract leaves one possible result |
| `ContentPaging.ReadUtf8Chunk` | src/web_access/application/content/service.py:621-657 | for every chunking: the rest of the text if it fits, otherwise exactly max_chars characters and the offset behind them; an error only for an offset out of range or bytes that are not UTF-8 |
| `Base64Url.DecodesExactlyEncodings` | src/web_access/infrastructure/content/cursor.py:80-89 | decoding accepts a string exactly when it is the encoding of the returned bytes |
| `Base64Url.SymbolTable` | src/web_access/infrastructure/content/cursor.py:80-81 | the URL-safe alphabet in its order |
| `Base64Url.EncodedAlphabet` | src/web_access/infrastructure/content/cursor.py:80-81 | an encoding uses only that alphabet |
| `Base64Url.KnownEncodings` | src/web_access/infrastructure/content/cursor.py:80-81 | the vectors of section 10 of RFC 4648 without padding, and one with minus and underline |
| `Base64Url.EncodedLength` | src/web_access/infrastructure/content/cursor.py:80-81 | the length of an encoding |
| `Json.LoadInvertsDump` | src/web_access/infrastructure/content/cursor.py:26-38 | reading a written flat object gives it back, for all strings and integers |
| `Json.BlanksAreSkipped` | src/web_access/infrastructure/content/cursor.py:57-57 | blanks before an object do not matter |
| `Json.LastValueWins` | src/web_access/infrastructure/content/cursor.py:57-57 | a repeated key takes its last value |
| `Json.RefusedForms` | src/web_access/infrastructure/content/cursor.py:57-57 | raw control characters are refused and a leading zero ends a number |
| `Json.KnownEscapes` | src/web_access/infrastructure/content/cursor.py:26-38 | how some characters are written |
| `CursorCodec.PayloadSpelled` | src/web_access/infrastructure/content/cursor.py:26-38 | the payload text, key by key |
| `CursorCodec.ClaimsMean` | src/web_access/infrastructure/content/cursor.py:57-77 | exactly which objects are read as which claims, with every bound |
| `CursorCodec.WrongSignatureIsRefused` | src/web_access/infrastructure/content/cursor.py:52-54 | a payload under any other signature is refused as tampered with |
| `CursorCodec.NoDotIsRefused` | src/web_access/infrastructure/content/cursor.py:45-51 | a text without a dot is refused as malformed |
| `CursorCodec.AcceptsExactlySigned` | src/web_access/infrastructure/content/cursor.py:42-77 | a cursor is accepted with some claims exactly when it fits and is the one signed form of a payload with these claims |
| `CursorCodec.DecodeInvertsEncode` | src/web_access/infrastructure/content/cursor.py:26-77 | decoding inverts encoding exactly for acceptable claims whose cursor fits |
| `CursorCodec.PayloadLength` | src/web_access/infrastructure/content/cursor.py:26-38 | the payload's length from the escaped owner and the digits |
| `CursorCodec.RoundTripExactly` | src/web_access/infrastructure/content/cursor.py:26-77 | the round trip holds exactly when escaped owner and numbers have at most 1436 characters together |
| `CursorCodec.RoundTrip` | src/web_access/infrastructure/content/cursor.py:26-77 | it holds for all owners of basic-plane characters and 64-bit numbers |
| `CursorCodec.SupplementaryOwnerDoesNotFit` | src/web_access/infrastructure/content/cursor.py:42-44 | cursors of an owner of 128 supplementary characters are refused |
| `ContentReading.Read` | src/web_access/application/content/service.py:496-565 | refused exactly for a page size out of range, a cursor that does not decode, and one whose owner, content id or revision differs; otherwise the page and next cursor owed for any chunking |
| `ContentReading.BadReadsAreRefused` | src/web_access/application/content/service.py:496-565 | an accepted cursor beyond the end, and remaining bytes that are not text, are errors of their own |
| `ContentReading.CursorsArePersonal` | src/web_access/application/content/service.py:533-538 | a cursor issued to one subject is accepted for another exactly when owner, content id and revision agree |
| `ContentReading.ReadFrom` | src/web_access/application/content/service.py:496-565 | a read at a character boundary of valid text returns exactly the following characters and a cursor to the next boundary |
| `ContentReading.FollowingCursors` | src/web_access/application/content/service.py:496-565 | following cursors: every read succeeds, all pages but the last are full, each cursor points to a character boundary, the pages concatenate to the text, complete exactly when no cursor is returned, after at most as many reads as characters |
| `SearchFlight.RedisKeys.TrySet` | src/web_access/infrastructure/search/cache.py:97-102 | the key is taken exactly when no unexpired key is there |
| `SearchFlight.RedisKeys.Release` | src/web_access/infrastructure/search/cache.py:24-29 | the key goes only if it carries the caller's token |
| `SearchFlight.RedisKeys.Fetch` | src/web_access/infrastructure/search/cache.py:42-52 | hit, miss or corrupt, as the unexpired key says |
| `SearchFlight.RedisKeys.Delete` | src/web_access/infrastructure/search/cache.py:53-57 | the second command of a corrupt lookup: whatever is under the key by then is gone |
| `SearchFlight.RedisKeys.Put` | src/web_access/infrastructure/search/cache.py:59-67 | the value is there until its time to live ends |
| `SearchFlight.StepKeepsExclusive` | src/web_access/application/search/service.py:261-331 | every event, with errors, lost answers and expiry, keeps each unexpired holder's key in place |
| `SearchFlight.OneUnexpiredHolder` | src/web_access/infrastructure/search/cache.py:91-108 | in every reachable world at most one caller per identity holds an unexpired token-bearing lease |
| `SearchFlight.ReleaseSparesSuccessor` | src/web_access/infrastructure/search/cache.py:110-119 | a release, by an expired holder too, leaves every other unexpired holder's key |
| `SearchFlightTheorems.OneProviderCallAtATime` | src/web_access/application/search/service.py:261-331 | while Redis answers and nothing expires at most one caller per identity is at the provider, unreadable entries included |
| `SearchFlightTheorems.OneStoredSuccessServesAll` | src/web_access/application/search/service.py:261-331 | once a result is cached, then in every answered, unexpired continuation the entry stays, nobody is at the provider and every unfinished or later caller ends with that value unless itself stopped, if and only if no caller of that identity is at that moment about to delete an unreadable entry |
| `SearchFlightTheorems.NewcomerIsServed` | src/web_access/application/search/service.py:261-273 | a caller that comes while a result is cached returns it after one lookup |
| `SearchFlightTheorems.WaiterIsServed` | src/web_access/application/search/service.py:274-284 | one that waited returns it after its second lookup, and releases the lease if it holds it |
| `SearchFlightTheorems.WithoutResult` | src/web_access/application/search/service.py:281-296 | without a cached result a caller with a lease goes to the provider, and one that gave up waiting is told so |
| `SearchFlightTheorems.ErrorsDegrade` | src/web_access/application/search/service.py:261-360 | Redis errors, a failed provider call, a failed put and a stop end as what they are, and the lease goes |
| `SearchFlightLimits.LateDeletionAllowsSecondCall` | src/web_access/infrastructure/search/cache.py:42-57 | a caller about to delete takes away whatever is cached by then and, with the lease free, goes to the provider |
| `SearchFlightLimits.UnreadableEntryAllowsSecondCall` | src/web_access/infrastructure/search/cache.py:42-57 | from any start with an unreadable entry and a free lease: a run with every command answered, nothing expired and the put stored, in which a second provider call follows the stored success |
| `SearchFlightLimits.StoredSuccessServesAllFromTheStart` | src/web_access/application/search/service.py:261-331 | every stored success of every such run serves all, if and only if there is at the start no unreadable entry under the identity, or a left-over lease that keeps everybody from the provider |
| `SearchFlightLimits.ExpiredLeaseAllowsSecondCall` | src/web_access/infrastructure/search/cache.py:91-108 | the no-expiry condition is needed: once the lease of a caller at the provider has run out, the next caller joins it there |
| `SearchAttempts.EvidenceOnlyGrows` | src/web_access/infrastructure/search/usage.py:57-114 | under any committed commands in any order rows stay, stages never go back and recorded outcomes stay |
| `SearchAttempts.SearchItemExecutor.StartAttempt` | src/web_access/infrastructure/search/usage.py:24-55 | the pre_dispatch row and the answer, each with its exact condition, for commits that are made, lost or cut |
| `SearchAttempts.SearchItemExecutor.MarkStage` | src/web_access/infrastructure/search/usage.py:57-114 | the guarded update, column by column, and the answer, each with its exact condition |
| `SearchAttempts.SearchItemExecutor.Prepare` | src/web_access/application/search/service.py:453-476 | dispatch is allowed exactly when usage is configured, the key is new and in range and both commits are made, and then the row is committed at dispatch_possible |
| `SearchAttempts.SearchItemExecutor.Succeed` | src/web_access/application/search/service.py:532-543 | success exactly when the completed row is committed; otherwise response lost, or a stop |
| `SearchAttempts.SearchItemExecutor.Fail` | src/web_access/application/search/service.py:507-531 | with the record committed it retries exactly a retryable error with attempts left, a billable one only before dispatch, and records stage, code and reason |
| `SearchAttempts.SearchItemExecutor.Attempt` | src/web_access/application/search/service.py:452-545 | at most one call, backed by evidence; with the accounting working its exact next step for every ending of the call |
| `SearchAttempts.SearchItemExecutor.ExecuteAttempts` | src/web_access/application/search/service.py:389-546 | calls are attempts 1, 2, ... up to the maximum, each billable one preceded by a committed dispatch_possible row, all but the last rightly retried; no exit hides a possibly sent request; and with the accounting working the outcome and the number of calls are exactly the expected ones |
| `SearchAttempts.RetriesUntilAnswered` | src/web_access/application/search/service.py:401-530 | if the attempts before the k-th fail retryably before dispatch and the k-th answers, the loop makes k calls and returns that answer |
| `SearchAttempts.TurnedMeans` | src/web_access/application/search/service.py:409-451 | what an item that is not admitted is told |
| `SearchAttempts.AtMostOneSent` | src/web_access/application/search/service.py:634-640 | a billable item has at most one possibly sent request, the last, and then never ends with a before_dispatch error |
| `BodyStream.Decompressor.Decompress` | src/web_access/infrastructure/retrieval/fetcher.py:40-46 | the decoder's contract for a call with an output cap |
| `BodyStream.Decompressor.Flush` | src/web_access/infrastructure/retrieval/fetcher.py:40-46 | all pending input processed, all remaining output returned |
| `BodyStream.BodyReader.DecodeChunk` | src/web_access/infrastructure/retrieval/fetcher.py:193-217 | unless it fails, nothing of the chunk is left unconsumed behind the cap, and all bounds hold |
| `BodyStream.BodyReader.Finish` | src/web_access/infrastructure/retrieval/fetcher.py:177-185 | the tail completes the decoded output of a complete stream within the bounds |
| `BodyStream.BodyReader.Body` | src/web_access/infrastructure/retrieval/fetcher.py:158-191 | if the stream ends normally the yielded bytes are the complete decoded output, with wire, entity and ratio within their bounds; a closed, complete body within the bounds at each chunk always ends normally |
| `BodyStream.RatioMeans` | src/web_access/infrastructure/retrieval/fetcher.py:213-217 | the ratio check lets through exactly entities of at most the ratio times the wire bytes |
| `PdfTraversal.ReachableIsLeast` | src/web_access/workers/pdf_parser.py:152-175 | the reachable references are the least set closed under reference |
| `PdfTraversal.Expand` | src/web_access/workers/pdf_parser.py:159-174 | one round keeps counted, pending and unvisited parts equal to the whole |
| `PdfTraversal.ReferencedStreamCounts` | src/web_access/workers/pdf_parser.py:148-175 | a reference to a stream has that stream's bytes |
| `PdfTraversal.DanglingReferenceIsEmpty` | src/web_access/workers/pdf_parser.py:148-175 | a missing object, or one that is again a reference, has none |
| `PdfTraversal.SharedStreamCountsOnce` | src/web_access/workers/pdf_parser.py:162-166 | two references to one stream count it once |
| `PdfTraversal.WideArrayIsRefused` | src/web_access/workers/pdf_parser.py:157-161 | an array of at least 10 000 values without streams is over the cap although it has no bytes |
| `PdfTraversal.RawContentBytes` | src/web_access/workers/pdf_parser.py:152-175 | on every graph, cyclic ones included: the result is within the limit exactly when all reachable streams together are and at most 10 000 values are looked at, and then it is their exact size, each reference counted once |

## Left out

- `FlowFaster.PrincipalBoundIffCoveredFaster`: a global bucket that is smaller than a principal's and refills more than its capacity less one within a single millisecond; there the bound lies between two conditions (`CoveredPrincipalsAreBounded` is enough, `BoundNeedsBurst` is needed), and which one is exact depends on how much of the refill is lost between two milliseconds.
- `FlowControl.FlowScripts.TokenBucket`: tokens are exact reals; the rounding of stored floating-point tokens by Lua and Redis is not modelled.
- `ContentMaintenance.ContentServices.RunOnce`: one pass running alone; passes that interleave with other tasks are covered by the protocol steps and their invariant instead. The row-lock options of the stale query are not modelled.
- `ContentRepository.PostgresContentRepository.Oldest`: ties in age are broken in any way, and no row is locked by somebody else.
- `CursorCodec.AcceptsExactlySigned`: payloads outside the modelled JSON are refused, among them a version written as `1.0`, which Python's json reads as a number equal to 1.
- `ContentMaintenance.ContentServices.Ingest`: an ingest running alone; interleaved ingests are protocol steps.
- `ContentStore.FilesystemContentStore.ListStaging`: the listing order, and files removed while they are being listed.
- `ContentStore.FilesystemContentStore.Finalize`: symbolic links, directory permissions and unlink errors of the filesystem; a failing unlink is an exception step of the protocol.
- `ContentMaintenance.ContentServices.Collect`: a blob finalized for a row that never published has no row with a storage key and is outside collection; no claim is made that no blob leaks.
- `Json.LoadInvertsDump`: reading is modelled for flat objects of strings, integers and literals; nested values, fractions and exponents, lone surrogates, a byte order mark and UTF-16 or UTF-32 payloads, which Python's json may read, are refused.
- `ContentReading.Read`: binary content, scopes, expiry and the list of representations.
- `BodyStream.BodyReader.Body`: the ratio is compared over exact reals; the size of a read and the inactivity timer are left to the arriving chunks and the way the stream ends.
- `BodyStream.Decompressor.Decompress`: the decoder is described by its contract, not by the deflate format.
- `SearchAttempts.SearchItemExecutor.ExecuteAttempts`: other items' transactions between the steps of one item, which never touch its keys; their effect on the table is in `EvidenceOnlyGrows`. The public outcome when a deadline strikes during accounting after dispatch, and exceptions other than unavailability that escape from the accounting itself.
- `SearchAttempts.SearchItemExecutor.Attempt`: the release of the concurrency slot is taken to succeed.
- `SearchFlight.OneUnexpiredHolder`: loss of the Redis state; a key goes only by expiry or release.
- The disabled cache mode and the hashing of query fields into a cache identity.
- The polling of `acquire` in the concurrency limiter, its local semaphores, and retry delays rounded to whole seconds.
- The redirect loop of the fetcher, charset and media type detection, URL and DNS policy.
- `native_parse` apart from its representation claims, and the HTML, CSV, XML, JSON and PDF parsers.
- REST and MCP transports, authentication, configuration, batch aggregation, health, metrics and tracing.
