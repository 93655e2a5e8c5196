# Document hub: verified models

Dafny 4.11 models of the parts of the document hub that move user data between
browsers, its database and Google Drive, with proofs of what they keep. Check
everything with `dafny verify dfyconfig.toml`.

## What is modelled

**Managed mutations** (`FileHistory`, `FileMutation`, `Mutation*`). Save,
restore, replay, finalize and prune of one Drive-backed file. `FileMutation` is
a state machine whose steps are what one request does between two awaits; any
number of requests, crashes, reconciliation calls and outside writers
interleave, and the reconciliation worker may find an operation unfinishable and
store FAILED. `MutationInvariant` holds what every run keeps; `MutationSafety`
(over `MutationAdmission` and `MutationOrder`), `MutationIdempotence`,
`MutationHistory`, `MutationProgress` and `MutationOrphans` hold the main results.
`MutationService` gives `save` and `restoreVersion` as threads of updates and
proves each thread to be part of a run of the machine; `MutationTables` does
the same for the finalizer and the prune. A revision token stands for the
storage revision and the provider version id together, so the unique index on
a file's revisions (packages/database/prisma/schema.prisma:409) is one on tokens.

Statements about runs name the assumptions they need: `AtomicReplaces` (the
provider write lands on the revision the adapter's check read), `KnownRevisions`
(a request names a revision already handed out), `NoOutsideWrites`, `RowsKept`
(no operation is finalized again after its row was pruned). `ONE_WRITER` is the
first two, `QUIET` all four. The finalizer is one step: its transaction is
Serializable and updates the file's row before it inserts
(packages/database/src/file-mutation-finalizer.ts:58-80, 166), so overlapping
ones run as if one after the other, or one fails with a conflict, which the
worker does not take for a refusal and which leaves the operation as it was.

The adapter itself compares and then writes
(apps/api/src/storage/google-drive-storage.provider.ts:104-111), so the machine
has the two as separate steps, and `StaleWriteBreaksSafety` shows that safety
needs `AtomicReplaces`; `WriteOpensTwoIff` says exactly when one write breaks
it. A preserve that bumps the revision is an outside write.

**The editor** (`TextEditor`, `EditorPersistence`). The text editor with its
undo history, generation counter and operation id, and one session of it
against the coordinator with any number of tries in flight, late or lost.

**Migration to Drive** (`DriveMigration`, `Migration*`). Workers claim a row
with a lease, upload or resume, verify, register and cut over; rows may be
blocked, fail, be compensated and rolled back. Updates between claim and cutover
are keyed by row alone, so leases exclude nobody; the results are about what
the gates keep anyway. A digest is taken to determine the bytes. In all
threads `calm` (undisturbed) means that nothing happens at awaits and no call
throws.

**The resumable uploader** (`ResumableUpload`). Nested loops with a chunk of
lookahead against a server that may do anything but report bytes it does not
hold or complete without a declared total. Requests without progress are counted
per chunk, not in a row, as the source counts them.

**The upload saga** (`UploadSaga`, `UploadService`). Idempotency key, remote put,
registration in one transaction, compensation.

**Walks and trees** (`FolderWalk`, `FolderMembership`, `DriveCatalog`, `Subtree`,
`TrashPurge`). The two downward walks, the upward membership test and their
agreement; the purge of a trashed subtree.

**Schedulers and refinements** (`UploadQueue`, `UploadTail`, `KeysetPaging`).

## What the proofs found

* docs/file-storage-and-engine-architecture.md:950-954 says that rerunning the
  finalizer cannot create duplicate metadata. It can, after the operation's row
  was pruned (packages/database/src/file-mutation-finalizer.ts:47): see
  `RefinalizeCreatesIffPruned` and `LateFinalizationDuplicates`. The model
  follows the code. Without that, `OneRevisionPerOperation` and
  `SequencesAgree` hold.
* Two saves whose adapters both compare before either writes end up with one
  revision; the unique index refuses the second row, and the worker stores
  FAILED for a mutation whose bytes were written (`StaleWriteIsRefused`). With
  atomic writes and known revisions this never happens (`MarkedIsNeverRefused`).
* A request that ends between its PENDING record and its stored result, by a
  crash or by any error but a conflict, blocks its file for good: the worker only
  logs PENDING records, and every later mutation of the file is refused
  (`CrashOrphans`, `OrphanBlocksForever`).
* A retry after a lost answer sends new text under the old operation id; the
  replay does not compare texts, and the answer replaces what the user typed
  (`ChangedRetryLosesText`). Going back to the old baseline during a save loses
  text too (`GoingBackLosesText`). `AcknowledgementLosesTextIff` says that there
  is no third way.
* The orphan branch of the migration stores an object whose bytes were found
  different, and a resumed row compares only sizes (`OrphanInstallsOtherBytes`).
* If the registration transaction of an upload commits and its answer is lost,
  compensation deletes the object of a registered node
  (`LostCommitDeletesRegisteredObject`).
* The membership test denies a file that the live listing shows if more than
  1000 other folders come before the root in breadth-first order of the file's
  ancestors (`IsWithinStorageFolder`, `ListedFileIsDenied`). In a tree that can
  be listed that needs parents outside the tree (`InsideIsMember`); how wide the
  tree is plays no part.
* A trashed subtree with one file that ever had a migration row can never be
  finalized, because that row's foreign keys restrict the deletion of the file
  and its version (packages/database/prisma/schema.prisma:751-752), although
  the storage objects are deleted first (`FinishableIff`,
  `MigratedFileIsNeverPurged`).
* A trashed root that hangs below its own descendant can never be finalized,
  although its storage objects are deleted first (`DeleteNodes`).
* An empty source never uploads successfully by the resumable path (`Upload`).

## Model

| member | source | states |
|---|---|---|
| FileHistory.InsertKeepsHistory | packages/database/src/file-mutation-finalizer.ts:58-95 | a new row under the incremented sequence keeps: as many sequences issued as rows ever created, live rows unchanged since creation, the newest `limit` rows all present |
| FileHistory.FinalizedKeepsHistory | packages/database/src/file-mutation-finalizer.ts:26-166 | one finalizer transaction keeps that history invariant, whether it refuses, adopts a row or creates one or two |
| FileHistory.RemovableIffOld | apps/api/src/file-save/file-save-coordinator.ts:262-264 | the rows a prune selects are exactly the live rows older than the newest `limit` ever created |
| FileHistory.DeleteKeepsHistory | apps/api/src/file-save/file-save-coordinator.ts:265-272 | deleting a selected row keeps the history invariant even if other rows were added since it was selected |
| FileHistory.EmptyOnlyBeforeFirstRow | packages/database/src/file-mutation-finalizer.ts:50-53 | a file has no rows only if none was ever created, so the INITIAL row is written at most once and first |
| MutationTables.Tables.Finalize | packages/database/src/file-mutation-finalizer.ts:26-166 | the step-by-step finalizer, rolled back where the unique index on a file's revisions refuses an insert, equals the atomic one; it refuses exactly in the five error cases and returns the sequence of the operation's own row |
| MutationTables.Tables.Prune | apps/api/src/file-save/file-save-coordinator.ts:262-273 | the prune loop removes exactly the selected rows whose release succeeded and goes on after failures |
| MutationTables.PruneSparesNewest | apps/api/src/file-save/file-save-coordinator.ts:262-273 | whichever releases fail, no prune touches one of the newest `limit` rows |
| MutationInvariant.RunKeepsInv | apps/api/src/file-save/file-save-coordinator.ts:61-112 | over every run: one request owns each open record, writes have distinct operations in rising revisions, results are set with the write, audits and events once each for completed operations only |
| MutationInvariant.RefusedIffTaken | packages/database/prisma/schema.prisma:409-409 | the finalizer refuses an operation past its write if and only if another live row already has its revision |
| MutationSafety.AtMostOneOpenWrite | apps/api/src/file-save/file-save-coordinator.ts:65-97 | over every interleaving of saves, restores, crashes, reconciliation and outside writers with atomic writes and known revisions, no two mutations are past their provider write and not COMPLETED, although the unresolved check and the record creation are separate steps |
| MutationSafety.RunKeepsSafe | apps/api/src/file-save/file-save-coordinator.ts:169-177 | the inductive reason: every admitted request that can still write names a revision older than any open write, results and rows are ordered by write, and the unique index refuses no marked operation |
| MutationSafety.WriteOpensTwoIff | apps/api/src/storage/google-drive-storage.provider.ts:104-111 | from any state with at most one open write, a provider write, stale or not, leaves two exactly if another written mutation is not yet COMPLETED |
| MutationSafety.MarkedIsNeverRefused | packages/database/src/file-mutation-finalizer.ts:38-97 | in every such run the finalizer refuses no operation that has a result, however late, and the worker never stores FAILED over one |
| MutationSafety.StaleWriteIsRefused | apps/worker/src/file-mutation-reconciliation/file-mutation-reconciliation.service.ts:12-97 | a concrete run in which two stale writes give two operations one revision, the second row is refused by the unique index, and the worker stores FAILED for a mutation whose bytes were written |
| MutationOrder.SafeIsNeverRefused | packages/database/prisma/schema.prisma:409-409 | in a state those runs reach no live row of another operation has the revision of a marked one |
| MutationOrder.StepKeepsOrder | apps/api/src/file-save/file-save-coordinator.ts:83-97 | each step keeps the order of results, rows and writes behind it |
| MutationSafety.StaleWriteBreaksSafety | apps/api/src/storage/google-drive-storage.provider.ts:104-115 | the adapter's check-then-write is not enough: a concrete run in which both writes land after both checks leaves two open writes |
| MutationSafety.GuessedRevisionBreaksSafety | apps/api/src/file-save/file-save-coordinator.ts:71-81 | a concrete run with atomic writes in which a request names a revision not yet handed out, and two open writes result |
| MutationIdempotence.StepMoves | apps/api/src/file-save/file-save-coordinator.ts:86-107 | a record only moves PENDING to PROVIDER_WRITTEN to COMPLETED or PENDING to FAILED, and its other fields stay, whoever steps; the one other move is the worker's FAILED after the finalizer threw for good |
| MutationIdempotence.ResultFixed | apps/api/src/file-save/file-save-coordinator.ts:156-167 | once set, a result revision never changes in any continuation |
| MutationIdempotence.AnswersAgree | apps/api/src/file-save/file-save-coordinator.ts:114-129 | all successful answers for one operation id, however far apart, name the same revision |
| MutationIdempotence.WrittenAtMostOnce | apps/api/src/file-save/file-save-coordinator.ts:86-94 | one operation id writes to the provider at most once: exactly once if it has a result, never if it is FAILED without one |
| MutationIdempotence.OneAuditOneEvent | packages/database/src/file-mutation-finalizer.ts:115-150 | after any number of finalizer calls an operation has exactly one audit row and one outbox event if COMPLETED, none before its first finalization |
| MutationIdempotence.OneRevisionPerOperation | packages/database/src/file-mutation-finalizer.ts:47-96 | over every run that finalizes no operation again after its row was pruned, with stale writes and outside writers: a COMPLETED operation has exactly one revision row ever created, one never finalized has none |
| MutationIdempotence.SequencesAgree | packages/database/src/file-mutation-finalizer.ts:47-57 | in those runs every finalizer call for an operation, now or after any further run, finds the same sequence |
| MutationIdempotence.RefinalizeCreatesIffPruned | packages/database/src/file-mutation-finalizer.ts:47-96 | finalizing a COMPLETED operation again changes nothing if and only if its row is still there or a live row has its revision; otherwise it creates exactly one more row |
| MutationIdempotence.SequencesCountCreations | packages/database/src/file-mutation-finalizer.ts:58-81 | over every run `revisionSequence` counts the rows ever created, so sequences are distinct and gap-free |
| MutationHistory.HistoryIsProviderOrder | apps/api/src/file-save/file-save-coordinator.ts:83-97 | without outside writers: row order is provider-write order, completed operations record the revision of their own write, each managed row expected the revision of the row before it, and a file without history first gets an INITIAL row for the revision before its first save |
| MutationHistory.RunKeepsHistory | apps/api/src/file-save/file-save-coordinator.ts:83-97 | the invariant behind it, kept by every step of every request and of reconciliation |
| MutationProgress.UndisturbedMutationSucceeds | apps/api/src/file-save/file-save-coordinator.ts:61-101 | a save or a restore that names the current revision with no open mutation, FAILED ones allowed, answers with the revision it minted, is COMPLETED with it under its own newest row, and leaves only the newest `limit` rows |
| MutationProgress.UndisturbedAnswers | apps/api/src/file-save/file-save-coordinator.ts:61-101 | left alone, such a request can end in no other way |
| MutationProgress.UndisturbedRestoreSucceeds | apps/api/src/files/file-history.service.ts:50-109 | a restore of a live row ends so, and the newest row is a RestoredVersion of the revision its own write minted |
| MutationProgress.RepeatIsAnswered | apps/api/src/file-save/file-save-coordinator.ts:114-129 | a repeat of a COMPLETED mutation gets its result at once and changes nothing, a restore only while its source row is live; one that names another kind or revision is refused |
| MutationProgress.WorkerFinishes | apps/worker/src/file-mutation-reconciliation/file-mutation-reconciliation.service.ts:90-92 | in every safe state the worker completes an operation whose request died after its result was stored: one row, one audit row, one event, and no further write |
| MutationProgress.RepeatFinishes | apps/api/src/file-save/file-save-coordinator.ts:120-123 | a repeat of such a request does the same and answers with the stored result |
| MutationProgress.StaleCheckFails | apps/api/src/storage/google-drive-storage.provider.ts:104-107 | a write that the adapter's check refuses stores FAILED and writes nothing |
| MutationOrphans.OrphanBlocksForever | apps/api/src/file-save/file-save-coordinator.ts:169-177 | in every run from a state with a PENDING record that no request owns, the record stays as it is, and no request that arrives gets past the check for unresolved mutations |
| MutationOrphans.CrashOrphans | apps/api/src/file-save/file-save-coordinator.ts:101-112 | a request that dies between its record and its stored result, or ends there with any error but a conflict, leaves such a record |
| MutationOrphans.OnlyOwnerMovesOn | apps/worker/src/file-mutation-reconciliation/file-mutation-reconciliation.service.ts:84-88 | a PENDING record is moved on by the request that owns it and by nobody else, not even the worker |
| MutationProgress.PruneKeepsNewest | apps/api/src/file-save/file-save-coordinator.ts:262-273 | a prune whose releases succeed leaves exactly rows of the newest `limit` |
| MutationProgress.LateFinalizationDuplicates | packages/database/src/file-mutation-finalizer.ts:47-96 | a concrete run, two saves with a limit of one row and a late finalizer call, in which one operation gets a second revision row |
| MutationService.FileMutations.SaveFile | apps/api/src/file-save/file-save-coordinator.ts:61-112 | the coordinator's `save`, with other requests moving at every await and crashes allowed, is part of a run of the protocol machine that keeps what its steps kept; undisturbed it is its own steps and no others, and if it names the current revision with no open mutation it answers with the revision its own write minted and is COMPLETED |
| MutationService.FileMutations.RestoreVersion | apps/api/src/files/file-history.service.ts:50-109 | `restoreVersion` likewise, a swallowed creation error included, for a source row that is live |
| MutationService.FileMutations.CheckUnresolved | apps/api/src/file-save/file-save-coordinator.ts:169-177 | a request goes on iff no other operation is PENDING or PROVIDER_WRITTEN; FAILED and COMPLETED ones do not count |
| MutationService.FileMutations.CheckRevision | apps/api/src/file-save/file-save-coordinator.ts:71-81 | a request, save or restore, goes on iff the provider's revision is the one it names |
| MutationService.FileMutations.ReplayOperation | apps/api/src/file-save/file-save-coordinator.ts:114-129 | nothing is found iff the operation id is unknown; a record of another kind or revision is an error, a COMPLETED one its result, a PENDING or FAILED one an error, a written one is finished first |
| MutationService.FileMutations.BeginOperation | apps/api/src/file-save/file-save-coordinator.ts:131-154 | the PENDING record is created iff the operation id is new; a duplicate goes back to the replay check |
| MutationService.FileMutations.WriteProvider | apps/api/src/storage/google-drive-storage.provider.ts:106-111 | the provider write mints the next revision and is logged as the operation's write |
| MutationService.FileMutations.Finalize | apps/api/src/file-save/file-save-coordinator.ts:97-97 | the finalizer call is one step of the machine and moves the request on iff the finalizer does not refuse |
| MutationService.FileMutations.Prune | apps/api/src/file-save/file-save-coordinator.ts:262-273 | the prune after a save visits exactly the removable rows in order and comes to an answer unless the thread dies; undisturbed it deletes exactly those |
| MutationService.AnswerIsDurable | apps/api/src/file-save/file-save-coordinator.ts:97-100 | every answer a thread gives is the stored result of an operation written exactly once |
| MutationService.ThreadsHaveOneOpenWrite | apps/api/src/file-save/file-save-coordinator.ts:61-112 | any mix of threads with atomic writes and known revisions has at most one open write |
| MutationService.ThreadsKeepProviderOrder | apps/api/src/file-save/file-save-coordinator.ts:61-112 | any mix of threads without outside writers has its history in provider order |
| TextEditor.TextFileEditor.ChangeValue | apps/web/src/TextFileEditor.tsx:126-136 | typing pushes the old text, forgets redo, keeps at most a hundred undo entries, and counts a generation iff the editor is dirty |
| TextEditor.TextFileEditor.Undo | apps/web/src/TextFileEditor.tsx:138-144 | undo swaps the text with the top of the stack, including buttons and generation |
| TextEditor.TextFileEditor.Redo | apps/web/src/TextFileEditor.tsx:145-151 | redo likewise |
| TextEditor.GenerationTellsText | apps/web/src/useEditorPersistence.ts:96-101 | after any number of edits of a dirty text an unchanged generation means that nothing but that text and the baseline was ever shown |
| TextEditor.TextFileEditor.RequestSave | apps/web/src/useEditorPersistence.ts:103-112 | a save is sent iff the editor is dirty and neither saving nor in conflict, with the shown text, its generation, and the operation id of a failed earlier try if there is one |
| TextEditor.TextFileEditor.OnSaved | apps/web/src/TextFileEditor.tsx:156-170 | an answer always moves baseline and base revision to what was stored and drops the operation id; the text and stacks are replaced iff no generation was counted since the save |
| TextEditor.TextFileEditor.DiscardAndView | apps/web/src/TextFileEditor.tsx:180-191 | discarding shows the baseline, empties both stacks, counts a generation and calls the editor clean |
| TextEditor.RedoTakesBackUndo | apps/web/src/TextFileEditor.tsx:138-151 | redo after undo restores text, both stacks and both buttons |
| TextEditor.UndoTakesBackRedo | apps/web/src/TextFileEditor.tsx:138-151 | undo after redo does too |
| TextEditor.UndoRestoresText | apps/web/src/TextFileEditor.tsx:126-144 | up to a hundred changes are undone one by one to the text before them |
| EditorPersistence.RunKeepsInv | apps/web/src/useEditorPersistence.ts:86-128 | over every run of tries, retries, late and lost answers: generations determine texts, requests are ordered by operation, and old requests can no longer write |
| EditorPersistence.AcknowledgementLosesTextIff | apps/web/src/useEditorPersistence.ts:113-119 | an acknowledged save takes away visible text if and only if no generation was counted and either the user is back on the old baseline and something else is stored, or another try of the operation with another text was the one stored |
| EditorPersistence.TypingIsNeverLost | apps/web/src/useEditorPersistence.ts:92-128 | with unchanged retries and no return to the old baseline: the text stays, and it is the stored one and clean, or dirty exactly if it differs from what is stored |
| EditorPersistence.GoingBackLosesText | apps/web/src/useEditorPersistence.ts:96-101 | for any two texts, a run in which going back to the old text during a save loses it |
| EditorPersistence.ChangedRetryLosesText | apps/api/src/file-save/file-save-coordinator.ts:114-129 | for any three texts, a run in which a lost answer, more typing and a retry replace the newer text by the older and call the editor clean |
| EditorPersistence.AcknowledgedIsBase | apps/web/src/TextFileEditor.tsx:156-170 | whatever happened meanwhile, an acknowledgement leaves the editor on the revision and content of the answer, ready to save again |
| EditorPersistence.NextSaveIsStoredIff | apps/api/src/file-save/file-save-coordinator.ts:71-101 | in every run, after an acknowledgement and any further edits the next save is sent with the text shown, and stored iff nobody has written since the acknowledged revision |
| EditorPersistence.RetryKeepsOperation | apps/web/src/useEditorPersistence.ts:103-128 | after a lost answer or any failure but a conflict, and any edits, the next save goes out under the operation id and base revision of the failed try |
| EditorPersistence.FinishedRetryIsAnswered | apps/api/src/file-save/file-save-coordinator.ts:114-129 | a try whose operation was written gets the stored answer once the operation is finished, and writes nothing |
| EditorPersistence.ConflictStopsSaving | apps/web/src/useEditorPersistence.ts:103-128 | after a conflict no amount of typing, undo or redo sends a save |
| EditorPersistence.TryWritesIff | apps/api/src/file-save/file-save-coordinator.ts:61-129 | the server writes a try iff its operation id is new, no other mutation is open and the base revision is current; a conflict is answered iff the revision is outdated or not the one the operation first named |
| EditorPersistence.ServedKeepsInv | apps/api/src/file-save/file-save-coordinator.ts:61-129 | serving any try, late or repeated, keeps the invariant |
| MigrationSafety.RunKeepsInv | apps/api/src/drive/drive-file-migration.service.ts:312-503 | over every interleaving of workers, taken or cleared leases, crashes and rollbacks: rows name objects uploaded for them, tokens are single-use, and what a token's holder registered is remembered |
| MigrationSafety.VerifiedRecordIsOwn | apps/api/src/drive/drive-file-migration.service.ts:755-824 | a row VERIFIED under a lease token with a record names the record that token's holder registered itself |
| MigrationSafety.BackingChangesOnlyThroughGate | apps/api/src/drive/drive-file-migration.service.ts:793-924 | a step changes the file's backing only as a cutover of a LOCAL file, on the row's source version, with no active editor, to the worker's own verified object, or as a rollback to exactly what the cutover found; a file on a Drive record is never repointed |
| MigrationSafety.CutoverInstallsOwn | apps/api/src/drive/drive-file-migration.service.ts:797-905 | a cutover that changes the backing installs the object its own worker registered |
| MigrationSafety.RollbackRestores | apps/api/src/drive/drive-file-migration.service.ts:536-590 | a rollback that changes the backing gives back the fields the cutover replaced |
| MigrationSafety.LeasesDoNotExclude | apps/api/src/drive/drive-file-migration.service.ts:926-955 | a concrete run in which recording BLOCKED clears a running lease and two workers hold the same row |
| MigrationContents.RemoteHoldsSourceBytes | apps/api/src/drive/drive-file-migration.service.ts:387-464 | in runs that store no uncompared orphan, a row's object always holds the bytes of its source version, and so does the object of a file on Drive |
| MigrationContents.OrphanTrueIffCompared | apps/api/src/drive/drive-file-migration.service.ts:476-483 | storing an orphan's name keeps that if and only if its bytes had been compared |
| MigrationContents.OrphanInstallsOtherBytes | apps/api/src/drive/drive-file-migration.service.ts:476-483 | for any two contents of one length, a run with one orphan and a resumed row whose cutover installs the wrong bytes |
| MigrationContents.RunTrue | apps/api/src/drive/drive-file-migration.service.ts:387-464 | the invariant behind it over every such run |
| MigrationService.DriveFileMigrations.MigrateFile | apps/api/src/drive/drive-file-migration.service.ts:312-503 | the worker thread, with anything happening at its awaits and errors at any of them, is part of a run of the migration machine and comes to its end; undisturbed it moves the file to Drive if and only if its metadata and bytes are sound, it is LOCAL without an editor, the row is claimable, the delivered bytes or the resumed object fit and no other file has the object, and otherwise leaves exactly one row: BLOCKED, unchanged under another's lease, or FAILED, without the name of a missing object, with that of a live one |
| MigrationService.MissingObjectIsForgotten | apps/api/src/drive/drive-file-migration.service.ts:488-502 | after an undisturbed try whose row names an object that is gone the row is FAILED and names none, so the next try uploads afresh and moves the file |
| MigrationService.LiveObjectIsKept | apps/api/src/drive/drive-file-migration.service.ts:488-502 | an object that is still there keeps its name, whatever else that try found wrong |
| MigrationService.ThreadsInstallSourceBytes | apps/api/src/drive/drive-file-migration.service.ts:387-464 | any mix of threads that stored no uncompared orphan has rows and a file whose objects hold the source bytes |
| MigrationService.DriveFileMigrations.Claim | apps/api/src/drive/drive-file-migration.service.ts:646-753 | a lease is given iff the row is not COMPLETED and no protected lease still runs by the claimer's clock |
| MigrationService.DriveFileMigrations.RecordBlocked | apps/api/src/drive/drive-file-migration.service.ts:926-955 | BLOCKED is written with no lease left, whoever held it |
| MigrationService.DriveFileMigrations.CompareDigest | apps/api/src/drive/drive-file-migration.service.ts:411-420 | the upload goes on iff the streamed bytes are those of the source version |
| MigrationService.DriveFileMigrations.VerifyRemote | apps/api/src/drive/drive-file-migration.service.ts:995-1018 | the remote check passes iff the attributes Drive reports and the size agree; bytes are not looked at |
| MigrationService.DriveFileMigrations.RegisterVerified | apps/api/src/drive/drive-file-migration.service.ts:755-791 | registration goes through iff the row exists and no other file has the record; the row is then VERIFIED under the worker's token and names its object |
| MigrationService.DriveFileMigrations.Cutover | apps/api/src/drive/drive-file-migration.service.ts:793-924 | the cutover points the file at the row's record iff the row is VERIFIED under the worker's token and the file is LOCAL on the claimed version without an editor; it ends COMPLETED, STALE, BLOCKED or throws exactly as the row, the current version, the editor and the backing say, and otherwise the file stays |
| MigrationService.DriveFileMigrations.Compensate | apps/api/src/drive/drive-file-migration.service.ts:464-487 | the catch block goes on iff there was nothing to delete or it was deleted; otherwise the row is FAILED without a lease and keeps the orphan's name |
| MigrationService.DriveFileMigrations.RollBack | apps/api/src/drive/drive-file-migration.service.ts:505-590 | a rollback thread, with anything happening between its lookups, the digest check and its transaction, leaves the file LOCAL on the version it read and the row ROLLED_BACK when done; undisturbed it is done iff that row is COMPLETED, the local bytes are intact and the file is on the row's record, and else changes neither file nor rows |
| ResumableUpload.Uploader.Upload | apps/api/src/drive/google-drive.provider.ts:590-767 | if a file is returned the server holds exactly the source and has answered with that file; always: requests carry the source's own bytes, chunks have the 8 MiB layout, at most two chunks are buffered, an empty or aborted upload yields no file; a server that keeps its word but stalls up to three times per 8 MiB, loses answers or is late to create the file still gets every non-empty source through |
| ResumableUpload.Uploader.SendChunk | apps/api/src/drive/google-drive.provider.ts:633-730 | a chunk ends within its length plus three requests, accepted in full, completed, or failed; without a declared total it is never completed, and up to three requests without progress do not fail it |
| ResumableUpload.Uploader.SendRest | apps/api/src/drive/google-drive.provider.ts:643-729 | the server's answers determine the outcome: a lost answer or a server error leads to one status query, unless aborted, and what is reported becomes an accepted position between cursor and end that the server really holds, a completion, or a rejection |
| ResumableUpload.Uploader.AskOffset | apps/api/src/drive/google-drive.provider.ts:658-678 | a status query is used only if its position lies between cursor and end |
| ResumableUpload.Uploader.QueryUploadStatus | apps/api/src/drive/google-drive.provider.ts:603-631 | a status is the reported position, which is held, the reported file, or an error, as the server answers |
| ResumableUpload.Uploader.Consume | apps/api/src/drive/google-drive.provider.ts:732-750 | cutting one value of the stream loses, repeats and reorders nothing, and never buffers more than two chunks |
| ResumableUpload.Uploader.PutAside | apps/api/src/drive/google-drive.provider.ts:743-748 | a full chunk is held back until there are bytes after it, and the one held back before is sent at a multiple of 8 MiB |
| ResumableUpload.Uploader.SendLast | apps/api/src/drive/google-drive.provider.ts:759-767 | the last chunk declares the true total; a file comes only from a completed upload, and never for an empty source |
| ResumableUpload.Uploader.Finish | apps/api/src/drive/google-drive.provider.ts:753-761 | what is left over becomes the last chunk, 1 to 8 MiB for a non-empty source, and every layout promise still holds |
| ResumableUpload.HeldIsSource | apps/api/src/drive/google-drive.provider.ts:643-656 | whatever late, partial or repeated requests a server stores, it holds a prefix of the source |
| UploadSaga.RunKeepsInv | apps/api/src/drive/drive-upload.service.ts:250-373 | over every interleaving of requests, crashes and failing calls: each key has one claimant, one put and one object, and each object is where its request's progress says |
| UploadSaga.OnePutPerKey | apps/api/src/drive/drive-upload.service.ts:280-329 | put is called at most once per idempotency key |
| UploadSaga.ObjectEndsInOneWayIff | apps/api/src/drive/drive-upload.service.ts:320-346 | when its request has answered and the catch block's database calls went through, an object is registered, removed or reported, exactly one of them, if and only if its registration did not commit without an acknowledgement |
| UploadSaga.LostCommitDeletesRegisteredObject | apps/api/src/drive/drive-upload.service.ts:340-372 | a concrete run in which a lost acknowledgement makes compensation delete the object of a registered node |
| UploadSaga.AnswersAgree | apps/api/src/drive/drive-upload.service.ts:266-285 | all requests for a key that are answered with a node get the same node |
| UploadSaga.DecisionsAreFinal | apps/api/src/drive/drive-upload.service.ts:621-635 | a key that has SUCCEEDED or FAILED never changes again |
| UploadSaga.LaterRequestsGetNode | apps/api/src/drive/drive-upload.service.ts:266-285 | in every run, once a key has SUCCEEDED with a node it keeps it, and every later request for it that is not rejected for another user or file can only be answered with that node |
| UploadSaga.ReplayAnswers | apps/api/src/drive/drive-upload.service.ts:266-285 | a request for a used key is answered at once, with a node iff the key has SUCCEEDED with that node |
| UploadService.DriveUploads.ProcessFile | apps/api/src/drive/drive-upload.service.ts:250-373 | the request thread, with others moving at every await and any call throwing, is part of a run of the upload machine and answers a node only if the key has succeeded with it; undisturbed a fresh key gets one new object under one new node, and a used one its node iff it has SUCCEEDED with one, a refusal otherwise, and no table changes |
| UploadService.DriveUploads.BeginOperation | apps/api/src/drive/drive-upload.service.ts:394-440 | the operation is created iff the key is new; otherwise nothing changes and the answer is a node iff the key has SUCCEEDED with that node |
| UploadService.DriveUploads.RegisterUpload | apps/api/src/drive/drive-upload.service.ts:442-569 | registration links the object to a fresh node and answers with it, or hands the object to compensation with the tables unchanged or with a commit nobody acknowledged |
| UploadService.DriveUploads.Compensate | apps/api/src/drive/drive-upload.service.ts:571-614 | which of its calls go through decides how compensation ends: the object deleted with its key FAILED, or, when the deletion or the update after it throws, reported by an audit row with its key FAILED; a call that throws later leaves neither, and a registration that had committed stays |
| UploadService.CatchEndsHere | apps/api/src/drive/drive-upload.service.ts:571-635 | whichever step ends the catch block, the object has ended in one of those ways |
| FolderWalk.DownIffUp | apps/api/src/drive/drive.service.ts:1507-1570 | with a parent relation consistent in both directions, the downward closure of the root contains a file that is not trashed iff its parents lead up to the root |
| FolderWalk.AllReachesLive | apps/api/src/drive/drive.service.ts:1472-1477 | the sync's listing with trashed files reaches the same live files as the live listing |
| FolderWalk.WalkIsComplete | apps/api/src/drive/drive.service.ts:1461-1550 | when a downward walk has nothing pending it has visited and found exactly the closure, cycles included |
| FolderWalk.ListLiveStorageFiles | apps/api/src/drive/drive.service.ts:1507-1550 | the live listing succeeds iff at most 1000 folders and 5000 files lie below, and is then exactly those files |
| FolderMembership.IsWithinStorageFolder | apps/api/src/drive/drive.service.ts:1552-1570 | the answer is yes iff at most 1000 folders are met before the root in breadth-first order of the ancestors, and an error iff a folder that cannot be fetched is met before that |
| FolderMembership.OrderIsFixed | apps/api/src/drive/drive.service.ts:1557-1567 | that order is fixed: of two climbs the shorter is the beginning of the longer |
| FolderMembership.MembershipIsRight | apps/api/src/drive/drive.service.ts:1552-1570 | in a consistent Drive the test is right about every file, unless more than 1000 different folders lie beside the root |
| FolderMembership.InsideIsMember | apps/api/src/drive/drive.service.ts:1507-1570 | a file of a tree that can be listed is never denied if all its ways up stay below the root |
| FolderMembership.ListedFileIsDenied | apps/api/src/drive/drive.service.ts:1562-1563 | a consistent Drive whose root lists one file, a child of the root, and the test denies that file because 1001 other parents come before the root |
| DriveCatalog.Catalog.SyncProviderFiles | apps/api/src/drive/drive.service.ts:1461-1505 | a sync rewrites exactly the rows below the root, disconnects the integration's other rows and leaves other integrations alone |
| DriveCatalog.Catalog.PrepareDriveFileForImport | apps/api/src/drive/drive.service.ts:761-811 | an import is accepted iff the file is live, no folder, and the root is met above it; in a consistent Drive without more than 1000 folders beside the root: iff the root lies above it |
| DriveCatalog.ListedIsImportable | apps/api/src/drive/drive.service.ts:1507-1570 | for files whose ways up stay inside a listable tree, listed and importable are the same |
| DriveCatalog.WalksAgree | apps/api/src/drive/drive.service.ts:1461-1570 | after a sync a live file is CONNECTED iff the live listing contains it iff its parents lead up to the root |
| DriveCatalog.NothingElseConnected | apps/api/src/drive/drive.service.ts:1494-1503 | no trashed file and no file outside stays CONNECTED |
| Subtree.QuerySubtree | packages/trash/src/index.ts:239-256 | the recursive query ends on cyclic data and yields one row, with its depth, for each node of the descendant closure and no other |
| Subtree.PathUnique | packages/trash/src/index.ts:243-253 | a node is reached by one path only |
| TrashPurge.SortedKeepsRows | packages/trash/src/index.ts:267-269 | the sort by falling depth keeps the rows, each once |
| TrashPurge.DeleteNodes | packages/trash/src/index.ts:176-178 | the deepest-first deletions go through iff the root does not hang below one of its own descendants, and then exactly the closure is gone |
| TrashPurge.RefusedIffRootBelow | packages/trash/src/index.ts:176-178 | at each deletion no remaining node has the deleted one as parent, except the root below itself |
| TrashPurge.StorageKeys | packages/trash/src/index.ts:258-272 | the plan names each version's key below the root once and no other |
| TrashPurge.TrashPurgeEngine.DeleteStorageObjects | packages/trash/src/index.ts:119-131 | under every schedule of the workers each key is begun at most once, in order, nothing else is deleted, and success means all are gone; a failure is reported when it happens, while other workers may go on |
| TrashPurge.TrashPurgeEngine.Claim | packages/trash/src/index.ts:84-117 | a claim succeeds iff authorized, rooted, ACTIVE or PURGING, and the root still belongs to the operation |
| TrashPurge.TrashPurgeEngine.Finalize | packages/trash/src/index.ts:133-237 | the transaction commits iff the operation is claimable and PURGING, no file below the root has a migration row and the root is not below itself; it then purges exactly the subtree, its files and the operations rooted in it, of which those that had ended keep their status, and otherwise changes nothing |
| TrashPurge.FinishableIff | packages/trash/src/index.ts:73-237 | after any number of stopped runs a purge can still commit iff no file below its root was ever migrated and the root is not below itself |
| TrashPurge.MigratedFileIsNeverPurged | packages/database/prisma/schema.prisma:751-752 | a claimable trashed file with a migration row whose storage object is deleted and which no run ever purges |
| TrashPurge.TrashPurgeEngine.Purge | packages/trash/src/index.ts:73-82 | a purge that comes through deletes exactly the closure with files and objects; one that does not leaves all as it was or a state another run takes over; undisturbed it comes through iff it is authorized, claimable, no file below is named by a migration row and the root is not below itself |
| TrashPurge.RerunEndsAlike | packages/trash/src/index.ts:73-82 | after any number of stopped runs, a run that comes through ends in the same tables and storage as the first would have |
| TrashPurge.InterruptedAgain | packages/trash/src/index.ts:73-82 | stopped runs add up to a stopped run |
| UploadQueue.Queue.Run | apps/web/src/upload-queue.ts:40-93 | under every schedule: uploads begin once each and in order, never more than the limit at once, none after an authorization failure; in the end each queued item has the status its own upload ended with or, if never begun, the authorization message |
| UploadQueue.Queue.Move | apps/web/src/upload-queue.ts:57-76 | any move of any worker keeps that and uses up work |
| UploadTail.WritingShifts | apps/api/src/drive/drive-upload-stream.ts:191-195 | a ring write forgets as many oldest bytes as it adds newest ones, wrapped or not |
| UploadTail.TrimmingForgetsNothing | apps/api/src/files/file-validation.service.ts:243-246 | trimming after each chunk keeps the same tail as trimming once |
| UploadTail.StreamingValidation.Transform | apps/api/src/files/file-validation.service.ts:228-249 | the concatenating validator knows the first 8192 and the last 1 MiB of all bytes received |
| UploadTail.DriveUploadValidation.RecordTail | apps/api/src/drive/drive-upload-stream.ts:184-196 | the ring remembers the last 1 MiB after any chunk |
| UploadTail.DriveUploadValidation.ReadTail | apps/api/src/drive/drive-upload-stream.ts:198-201 | the read-out is the last min(n, 1 MiB) bytes, the same as the concatenating tail |
| UploadTail.DriveUploadValidation.Transform | apps/api/src/drive/drive-upload-stream.ts:108-131 | a chunk is accepted iff it fits and, if it completes the first 4100 bytes, their signature is right |
| UploadTail.DriveUploadValidation.Validate | apps/api/src/drive/drive-upload-stream.ts:108-159 | for every chunking the verdict depends on the bytes only: size, signature of the first 4100, archive end in the last 1 MiB |
| KeysetPaging.ListPage | apps/api/src/admin/admin.service.ts:618-635 | a page is the first `limit` rows past the cursor, and has a next cursor iff a row is left |
| KeysetPaging.FindMany | apps/api/src/admin/admin.service.ts:115-134 | the query returns the first rows past the cursor in falling order of time and id |
| KeysetPaging.SteadyRowsSeenOnce | apps/api/src/admin/admin.service.ts:95-135 | while rows come and go between pages: nothing is seen twice, everything seen was there, and rows present throughout are seen |
| KeysetPaging.ListEnds | apps/api/src/admin/admin.service.ts:358-379 | with only newer rows added, the list ends within the pages the first table fills |
| KeysetPaging.FollowCursors | apps/api/src/admin/admin.service.ts:460-507 | following the cursors of an unchanged table gives every row exactly once, in order, for every limit of at least 1 |

## Left out

- Authorization, tokens, connection handling, configuration, logging, error texts and user interface rendering.
- Engine internals: contents are opaque values that are only compared.
- Real streams and hashing: a stream is a sequence of chunks, a digest determines its bytes; a source stream that throws is one of the aborts.
- Starting and aborting a resumable session, and whether the abort reaches Drive.
- Reconciliation: the selection and batching of stale operations, and the log entries for PENDING ones; its finalizer call and its FAILED are two steps here, at any time and in any order with others.
- Catalog freshness (`driveVersion`) after a late finalizer call: nothing is claimed about it.
- Saving a copy: only the row that an upload or a copy starts its history with is modelled.
- Migration inventory, status counts and the audit rows of migrations; the MD5 comparison of a fetched object appears only as an error that may occur, name, type, trash and parent as one flag.
- Uploads: the choice of a free name, the comparison of a repeated request with the first and the parse of the multipart body; name and parent conflicts appear as refusals of the registration transaction. Creating native documents.
- Folder walks: entries without an id, provider errors in mid-walk and changes of the tree during a walk; linked node names.
- Trash purge: editor sessions, permissions, audit rows, byte counts; changes of the subtree between the two queries of one run.
- Upload queue: progress values; item ids are taken to be distinct, as the queue's constructor makes them.
- Upload validation: file type detection and archive markers are functions of the prefix and of the tail; the concatenating validator's verdict is not modelled, only what it knows.
- Pagination: the JSON and base64url coding of cursors, invalid cursors, and the search and role filters (a table is the set of matching rows).
- Recovery drafts: a restore of any draft text is a step of the editor, where drafts are kept is not modelled. Saves that wait for a missing base revision or edit permission.
- ResumableUpload.Uploader.SendChunk: a completion always advances the cursor position to the end of the chunk, where the source leaves it when a status query reports the file; nothing reads it afterwards.
