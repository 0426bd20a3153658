# Desktop image search: a verified model of its backup, indexing and sharing protocols

The application keeps a library of pictures searchable, lets phones back pictures up into it, and receives
pictures shared from a phone. This project models the parts of it that run over time and proves what they
keep. It is checked with `dafny verify dfyconfig.toml`.

Code that changes things in place is a class here with the same fields: `PairingStore.Database` (one map per SQL
table), `PairingService.MobilePairingService`, `TransferService.MobileTransferService` over a `Disk`,
`AssetUploadStream.TransferAssetUploadStream`, `IndexService.Indexer`, `InstantShareSession.SessionRegistry` and
`InstantShareReceiver.ShareService`. Every method is proved equal to a function on the whole state, and the
theorems are about those functions and about every run of them.

**Mobile backup.** `PairingStore` is the relational store, `StoreIntegrity` its referential integrity (the code
turns on no foreign keys), `PairingService`/`PairingProofs` the pairing steps with the resolver thread as a later
step of its own, `TransferService`/`TransferProofs` the transfer handlers and the library directory,
`AssetUploadStream` the chunks an upload arrives in with their running digest, `BackupStateMachine` the
transition table and its lossy stored form, `CollisionNames` the collision suffixes.
`PairingAnswers` and `TransferAnswers` say exactly when each answer is given and what it leaves in the rows.
`BackupSystem` puts them together as one state machine, in which the process may also end and start again on the
same database; `BackupRuns` has the theorems about runs, `BackupOrigins` those about what each row and status goes
back to.

**Index and search.** `IndexPipeline` models one indexing pass and the recovery of an index with its file table,
`IndexBuild` the passes of a whole build, `IndexFates` what becomes of each file whatever fails, `IndexAppend` an
append call, `Indexer.dfy` the class that runs them, `IndexRuns` every run including passes cut off between their
commits, `IndexSearch` the query.

**Instant share.** `InstantShareSession` is the session registry with its timers, `InstantShareReceiver` the
orchestrator and the request handlers, `InstantShareProofs` their runs, `InstantShareAnswers` who may send what and
every answer.

**Encodings.** `DerUtf8String` is the DER coding of the device id, `ChunkedDownload` the data-channel framing.

## Assumptions

Claims, resolutions of a mismatch and image requests are atomic, as the in-progress flag, the second look at the active
session and the separate guard and counter calls require; the orchestrator is present.
Row ids and session ids handed out were never used before (row ids are autoincrement keys, session ids random); a
file row's picture does not change; paths have no aliases.
The theorems about pairing records, session rows, counts and files ask no more of a run than this
(`BackupSystem.Fresh`), and those about files and counts not even that. Soundness of the store also asks that a
repair strands nobody (`BackupSystem.Enabled`), finality of a status that no stop of that session comes too late
(`BackupSystem.Timely`); `InstantShareProofs.EnabledAt` asks for right counts. These are exact conditions, below.

## Where the code does less than it promises

Each promise is stated with the exact condition under which it is kept, and with a concrete input that breaks it
(module `Findings`, unless another is named).

| promise | kept exactly when | broken by |
|---|---|---|
| repair keeps the store sound | `StoreIntegrity.RepairSoundIff`: the folder is still bound and nobody is stranded | `BackupRuns.RepairAfterDeletionLosesSession`, a run |
| a new pairing is usable | `StoreIntegrity.PairedSessionUsableIff`: no stale binding, which no run of this version leaves | `StaleBindingLosesSession`, a database of an older version |
| a failed upload leaves no file | `TransferProofs.UnstoredUploadLeaves`: it fails before the file is placed | `LateFailureLeavesFile` |
| a finished session keeps its status | `BackupSystem.StatusesStepIff`: stop is pressed while transferring, or when already stopped | `LateStopOverwritesCompleted` |
| recovery is crash-safe | `IndexPipeline.CrashInRecoveryKeepsIff`: no file of the folder was indexed | `CrashInRecoveryLosesFile` |
| append keeps index and table together | `IndexAppend.AppendKeepsIff`: every file the call indexes is of the folder, or in its own folder's index already; files of the folder alone are enough (`IndexAppend.AppendOfOwnFilesKeeps`) | `AppendAcrossFoldersLosesFile` |
| a moved file stays findable | `IndexRuns.RenameKeepsIff`: the rename raises, or no indexed file leaves the folder whose index has it | `MovedFileIsLost` |
| a build goes through all files | `IndexBuild.BuildGoesThroughIff`: no page before the last is without a readable file while holding a picture; fewer than a hundred unreadable files are enough (`IndexBuild.FewUnreadableGoThrough`) | `UnreadablePageStopsBuild` |
| only files that cannot be embedded are given up | `IndexFates.ReadableGivenUpIff`: something of the file's page was embedded | `BusyPoolGivesUpGoodFile` |
| a batch keeps to its count | `InstantShareProofs.ImageKeepsBatchIff`: the sender sends a right count | `InstantShareProofs.UncountedBatchOverruns`, `InstantShareProofs.ChangedCountOverruns` |
| a text taken ends its session | `InstantShareAnswers.TextEndsDoneIff`: it was not yet delivering, and no stray count is left to fill | `InstantShareAnswers.StrayCountHoldsText` |
| the decoder reads DER only | `DerUtf8String.ReencodesIff`: the length was minimal | `LongLengthIsAccepted` |
| chunk offsets fit 32 bits | `ChunkedDownload.OffsetsFitIff`: at most 2^32 bytes | `LargeFileOverflows` |
| messages keep to 16 KiB | `ChunkedDownload.MessagesFitIff`: the file leaves room for the header | `FullChunkExceedsMessage` |

## Model

| member | source | states |
|---|---|---|
| `BackupRuns.EveryRunIsSound` | dt_image_search/mobile/mobile_pairing_store.py:178-382 | after every run from an empty store, restarts included, integrity, disk/record agreement and pairing agreement hold, every session is found by its transfer context with a folder state, and no binding is stale |
| `BackupSystem.EveryStepOk` | dt_image_search/mobile/mobile_pairing_service.py:347-864 | every step keeps the invariant, moves each pairing record by at most one table transition, keeps decisions, changes no existing file, and only a restart forgets records; statuses keep their order if and only if the step is not a late stop |
| `BackupRuns.FilesAreForever` | dt_image_search/mobile/mobile_transfer_service.py:952-1051 | no run, whatever it does and from whatever state, changes or removes a file that was in the library |
| `BackupRuns.DecisionsAreFinal` | dt_image_search/mobile/mobile_pairing_service.py:404-454 | over every run with fresh session ids, restarts included and whatever becomes of the store, a completed record is the same and a stopped session is stopped as long as it is remembered |
| `BackupRuns.InsertedAtMostOnce` | dt_image_search/mobile/mobile_pairing_service.py:621-691 | over any run with fresh session ids, unsafe repairs included, a session id is inserted into the session table at most once, also after its row was deleted |
| `BackupRuns.TerminalStatusIsFinal` | dt_image_search/mobile/mobile_transfer_service.py:591-648 | a completed, failed or stopped session keeps its status for the rest of every run in which no stop of that session comes too late, or is deleted for good |
| `BackupRuns.TransferredCountIsExact` | dt_image_search/mobile/mobile_pairing_store.py:628-689 | over every run whatever, while a session is transferring its count equals the uploads answered stored or skipped since the last accepted start |
| `BackupRuns.StoredStaysSkipped` | dt_image_search/mobile/mobile_transfer_service.py:373-455 | an upload once stored is skipped at any later time at which its session is still transferring, repairs in between included, unless the asset was stored anew, and then changes only the count |
| `BackupRuns.RetryIsAnsweredFromRecord` | dt_image_search/mobile/mobile_pairing_service.py:404-418 | any later retry of a claim in an accepted, stopped or mismatched session gets the payload stored then, and changes nothing |
| `BackupRuns.LateResolutionIsVoid` | dt_image_search/mobile/mobile_pairing_service.py:683-691 | at any time after its session was closed, replaced or ended with the process, a resolution changes neither store nor record nor result |
| `BackupRuns.NeverActiveAgain` | dt_image_search/mobile/mobile_pairing_service.py:224-327 | over every run with fresh session ids a session once closed or replaced is never active again |
| `BackupRuns.SettledStaysSettled` | dt_image_search/mobile/mobile_pairing_service.py:404-547 | such an active session keeps its record until a new session, its closing or a restart, and a mismatched one until its resolution |
| `BackupSystem.InsertionNeedsUndecided` | dt_image_search/mobile/mobile_pairing_service.py:621-691 | a step adds a session row only by accepting that session, which was undecided before, is completed after, and starts as paired, whatever the store is like |
| `BackupSystem.StatusesStepIff` | dt_image_search/mobile/mobile_folder_controller.py:246-285 | a step respects the status order if and only if it is not a stop of a session that is neither transferring nor stopped |
| `BackupRuns.RepairAfterDeletionLosesSession` | dt_image_search/mobile/mobile_pairing_service.py:631-675 | a run with fresh ids from a sound state: claim with another device, folder deleted, user continues; repair does not raise and the accepted session is invisible to transfers |
| `BackupOrigins.InsertedByCode` | dt_image_search/mobile/mobile_pairing_service.py:434-461 | over every run with fresh ids, a session that reached the session table was claimed in that run with the code on the screen while at least a second of its life was left |
| `BackupOrigins.CanceledNeverStored` | dt_image_search/mobile/mobile_pairing_service.py:819-853 | after the user cancels, or cannot be asked, the session is stored neither then nor by anything that follows in any run |
| `BackupOrigins.OnlyItsDeviceIsTold` | dt_image_search/mobile/mobile_pairing_service.py:585-605 | once a device is paired, no other device is told the state of the session, over every run, and that device is told what was recorded |
| `BackupOrigins.StatusHasCause` | dt_image_search/mobile/mobile_transfer_service.py:118-786 | a session gets a status only by its cause: started, reported complete with nothing failed, failed, or stopped, for this session and with a proof |
| `BackupOrigins.EveryStatusWasCaused` | dt_image_search/mobile/mobile_transfer_service.py:118-786 | over every run whatever, the status of every session had its cause in that run |
| `BackupSystem.AcceptedStoreSound` | dt_image_search/mobile/mobile_pairing_service.py:621-675 | the database half of an acceptance keeps the store sound and adds exactly the session row, unless a repair conflict raises |
| `BackupSystem.AcceptanceLinks` | dt_image_search/mobile/mobile_pairing_service.py:607-753 | session row and completed record appear together or not at all, and name the same device and folder |
| `PairingStore.Database.InsertFolder` | dt_image_search/model/dts_db.py:68-82 | adds the folder unless its path is known |
| `PairingStore.Database.DeleteMobileDeviceData` | dt_image_search/mobile/mobile_pairing_store.py:794-840 | the four deletes, in order, remove everything of the folders and of the devices bound to them |
| `PairingStore.Database.DeleteFolders` | dt_image_search/model/dts_db.py:149-171 | device data of the folders first, then the folder rows |
| `PairingStore.Database.GetOrCreateMobileFolder` | dt_image_search/mobile/mobile_pairing_store.py:178-243 | reuses the joined folder, or cleans stale rows, picks a free path and binds it |
| `PairingStore.Database.MoveAssetRows` | dt_image_search/mobile/mobile_pairing_store.py:307-355 | copies every asset row of the previous device to the replacement, overwriting on conflict |
| `PairingStore.Database.RepairMobileFolderDeviceBinding` | dt_image_search/mobile/mobile_pairing_store.py:274-382 | the whole repair: raises before any change on a conflict, else moves assets, sessions and binding and deletes the previous device |
| `PairingStore.Database.InsertMobileBackupSession` | dt_image_search/mobile/mobile_pairing_store.py:385-422 | inserts a paired session, raising on a known id |
| `PairingStore.Database.GetMobileTransferContext` | dt_image_search/mobile/mobile_pairing_store.py:425-460 | the joins of session, device, folder and binding |
| `PairingStore.Database.UpdateMobileTransferState` | dt_image_search/mobile/mobile_pairing_store.py:628-669 | session status and counters by id and device, binding state by device |
| `PairingStore.JoinedFolderIs` | dt_image_search/mobile/mobile_pairing_store.py:178-205 | with unique bindings the join finds the one folder bound to the device |
| `StoreIntegrity.SessionsSurviveJoins` | dt_image_search/mobile/mobile_pairing_store.py:425-460 | under integrity no session is lost by the inner joins and the left join finds its binding |
| `StoreIntegrity.TransferStateReadBack` | dt_image_search/mobile/mobile_pairing_store.py:628-669 | the state written by device id is the one read back by folder id, and no other device sees a change |
| `StoreIntegrity.NoStaleRows` | dt_image_search/mobile/mobile_pairing_store.py:199-214 | under integrity the stale-row branch has nothing to do |
| `StoreIntegrity.DeviceKept` | dt_image_search/mobile/mobile_pairing_store.py:147-175 | inserting or overwriting a device row keeps integrity |
| `StoreIntegrity.AssetKept` | dt_image_search/mobile/mobile_pairing_store.py:582-625 | recording an asset of a device whose session is found keeps integrity |
| `StoreIntegrity.OneMoreKept` | dt_image_search/mobile/mobile_pairing_store.py:672-689 | counting a transfer keeps integrity |
| `StoreIntegrity.DeletionIsExact` | dt_image_search/mobile/mobile_pairing_store.py:794-840 | deleting folders removes exactly the rows of the devices bound to them and touches no other |
| `StoreIntegrity.DeletionLeavesNoTrace` | dt_image_search/mobile/mobile_pairing_store.py:794-840 | also in an unsound store nothing left mentions a deleted folder or a device bound to one, and all else stays |
| `StoreIntegrity.FolderForKept` | dt_image_search/mobile/mobile_pairing_store.py:178-243 | without repair the folder is bound to the device, nothing raises, and other rows are unchanged |
| `StoreIntegrity.RepairIsLossless` | dt_image_search/mobile/mobile_pairing_store.py:295-382 | repair hands over exactly the assets and sessions, keeps their paths and folders, leaves no mention of the previous device |
| `StoreIntegrity.RepairedSessionIsFound` | dt_image_search/mobile/mobile_pairing_store.py:357-370 | also in an unsound store every session of the previous device is found for the replacement in the repaired folder |
| `StoreIntegrity.RepairSoundIff` | dt_image_search/mobile/mobile_pairing_service.py:631-675 | an acceptance that repairs keeps integrity if and only if the folder is still bound and no device is stranded |
| `StoreIntegrity.PairedSessionUsableIff` | dt_image_search/mobile/mobile_pairing_store.py:199-243 | a session paired without repair is found by transfers if and only if there was no stale binding |
| `CollisionNames.FirstFree` | dt_image_search/mobile/mobile_transfer_service.py:1080-1092 | the least free number from a start, found within one try more than there are names |
| `CollisionNames.FirstFreeUnique` | dt_image_search/mobile/mobile_transfer_service.py:1080-1092 | any number with all before it taken and itself free is that one |
| `CollisionNames.TakenRunIsShort` | dt_image_search/mobile/mobile_transfer_service.py:1085-1092 | a run of taken numbered names is no longer than the set of names |
| `CollisionNames.NumberedInjective` | dt_image_search/mobile/mobile_transfer_service.py:1088 | different numbers give different names |
| `CollisionNames.FindFreeNumber` | dt_image_search/mobile/mobile_pairing_store.py:871-877 | the suffix loop ends within that bound at the first free number |
| `CollisionNames.ConflictSafePathIsFree` | dt_image_search/mobile/mobile_transfer_service.py:1080-1092 | the chosen path is unused and is the wanted one exactly when that was free |
| `CollisionNames.ResolveConflictSafePath` | instant_sharing/delivery.py:135-157 | the loop of the delivery service and of the transfer service computes it |
| `CollisionNames.SuffixIsExtension` | dt_image_search/mobile/mobile_transfer_service.py:1080-1092 | the extension kept is what follows the last dot, unless the dot starts or ends the name |
| `CollisionNames.NumberBeforeExtension` | dt_image_search/mobile/mobile_transfer_service.py:1080-1092 | a number goes between stem and extension |
| `CollisionNames.UniqueFolderPathIsFree` | dt_image_search/mobile/mobile_pairing_store.py:856-877 | the chosen folder path is unused and starts with the base name |
| `CollisionNames.UniqueFolderPathIs` | dt_image_search/mobile/mobile_pairing_store.py:856-877 | the device name alone if and only if it is free, else with eight characters of the device id, else numbered |
| `CollisionNames.FindUniqueFolderPath` | dt_image_search/mobile/mobile_pairing_store.py:856-877 | the two plain candidates and the suffix loop compute it |
| `BackupStateMachine.StoredStringRoundTrip` | dt_image_search/mobile/mobile_backup_state_machine.py:104-129 | reading back the stored string gives the state exactly for completed pairing and running, completed or failed transfer |
| `BackupStateMachine.EventDecidesTarget` | dt_image_search/mobile/mobile_backup_state_machine.py:44-70 | where an event leads is decided by the event alone, and in which states it is legal |
| `BackupStateMachine.ResolverIgnoresStoredString` | dt_image_search/mobile/mobile_backup_state_machine.py:132-145 | with the callers' fallbacks the resolver never raises and gives what the machine gives from any state where the event is legal |
| `BackupStateMachine.ReplayFollowsMachine` | dt_image_search/mobile/mobile_backup_state_machine.py:44-145 | replaying a legal run of transfer events through the stored string ends in the string of the machine's state |
| `BackupStateMachine.ReplayIsTotal` | dt_image_search/mobile/mobile_backup_state_machine.py:132-145 | replay never raises and its last string depends on the last event alone |
| `PairingService.MobilePairingService.RefreshToken` | dt_image_search/mobile/mobile_pairing_service.py:272-284 | rotates the token of both platforms, or raises |
| `PairingService.MobilePairingService.CloseActiveSession` | dt_image_search/mobile/mobile_pairing_service.py:290-327 | records a stop unless accepted and clears the active session |
| `PairingService.MobilePairingService.StoreAcceptance` | dt_image_search/mobile/mobile_pairing_service.py:621-675 | the device, folder or repair, and session statements in order |
| `PairingService.MobilePairingService.CompletePairingAcceptance` | dt_image_search/mobile/mobile_pairing_service.py:607-753 | refuses inactive sessions, else store, result and record together |
| `PairingService.MobilePairingService.CompletePairingStopped` | dt_image_search/mobile/mobile_pairing_service.py:756-799 | records the stop of an active session only |
| `PairingService.MobilePairingService.HandlePairingRequest` | dt_image_search/mobile/mobile_pairing_service.py:347-547 | every branch of a claim, with its answer and its whole effect |
| `PairingService.MobilePairingService.ResolveBackupAgainMismatch` | dt_image_search/mobile/mobile_pairing_service.py:809-864 | the resolver thread's end: stop or acceptance |
| `PairingService.MobilePairingService.HandlePairingStateRequest` | dt_image_search/mobile/mobile_pairing_service.py:549-605 | the stored payload, for the right device only |
| `PairingProofs.NoIgnoredTransition` | dt_image_search/mobile/mobile_pairing_service.py:1187-1202 | stopping and accepting the active session are always table transitions, and accepting ends completed |
| `PairingProofs.StartedOk` | dt_image_search/mobile/mobile_pairing_service.py:224-270 | starting keeps record and result in step and is the initial state |
| `PairingProofs.RefreshedOk` | dt_image_search/mobile/mobile_pairing_service.py:272-284 | refreshing keeps the invariant and every record |
| `PairingProofs.RefreshRotates` | dt_image_search/mobile/mobile_pairing_session.py:137-154 | one token for both platforms, generation up by one, full lifetime; refused exactly when completed |
| `PairingProofs.ClosedOk` | dt_image_search/mobile/mobile_pairing_service.py:290-327 | closing is a legal transition for the record and keeps the invariant |
| `PairingProofs.ClaimedOk` | dt_image_search/mobile/mobile_pairing_service.py:347-547 | every claim moves the record legally, keeps decisions and keeps record and result in step |
| `PairingProofs.ResolvedOk` | dt_image_search/mobile/mobile_pairing_service.py:809-864 | every resolution does |
| `PairingAnswers.ClaimAnswersIff` | dt_image_search/mobile/mobile_pairing_service.py:375-461 | for a question still open, exactly when each answer is given: a payload for a complete claim of the open session with the code on the screen in time, 403 for a wrong code in time, 410 for a late one, 400 and 404 for the rest |
| `PairingAnswers.UnentitledChangesNothing` | dt_image_search/mobile/mobile_pairing_service.py:434-461 | a claim without the right code in time changes no table and, except that a late one is remembered as expired, nothing else |
| `PairingAnswers.OtherDeviceIsAsked` | dt_image_search/mobile/mobile_pairing_service.py:468-527 | a right code from another device than the one expected stores nothing, answers mismatched and starts the question to the user |
| `PairingAnswers.ClaimPairsIff` | dt_image_search/mobile/mobile_pairing_service.py:404-547 | in a sound store a claim pairs if and only if its code is right and in time and no other device is expected; then device row with the key of that code, own folder, session and record are there and no other row is touched |
| `PairingAnswers.CodeLives` | dt_image_search/mobile/mobile_pairing_session.py:13-80 | a code just drawn pairs if and only if at most 899 seconds have passed |
| `PairingAnswers.RefreshedCodeCounts` | dt_image_search/mobile/mobile_pairing_session.py:137-154 | after a refresh only the new code pairs, on both platforms, for as long |
| `PairingAnswers.ClosedRefuses` | dt_image_search/mobile/mobile_pairing_service.py:290-327 | after closing every claim is refused and changes nothing; what was not accepted is recorded as stopped |
| `PairingAnswers.CancelStores` | dt_image_search/mobile/mobile_pairing_service.py:819-853 | cancel and a failed question store nothing and stop an open session |
| `PairingAnswers.ContinueTakesFolder` | dt_image_search/mobile/mobile_pairing_service.py:631-675 | continue pairs the device with the chosen folder if and only if it has no other; the device expected is gone |
| `PairingAnswers.NewFolderLeavesExpected` | dt_image_search/mobile/mobile_pairing_service.py:631-675 | backing up in a new folder pairs the device with its own folder and leaves the expected device its rows and its folder |
| `PairingAnswers.StateIsToldIff` | dt_image_search/mobile/mobile_pairing_service.py:583-605 | a state is told if and only if the session is remembered and has no device or this one; it is what the record says |
| `TransferService.MobileTransferService.CollectBody` | dt_image_search/mobile/mobile_transfer_service.py:964-986 | reads until the content length is reached, the body ends or the disk is full; the temporary file holds the part read |
| `TransferService.MobileTransferService.WriteAssetToFolder` | dt_image_search/mobile/mobile_transfer_service.py:952-999 | the streamed file under its final path, or nothing |
| `TransferService.MobileTransferService.MoveStagedAssetToFolder` | dt_image_search/mobile/mobile_transfer_service.py:1002-1051 | the staged file under its final path after size and digest checks |
| `TransferService.MobileTransferService.GetAssetRecordsBySignatures` | dt_image_search/mobile/mobile_pairing_store.py:532-579 | the records of the device for a list of signatures |
| `TransferService.MobileTransferService.HandleAssetExistence` | dt_image_search/mobile/mobile_transfer_service.py:216-299 | the candidates whose signature has a record with a file |
| `TransferService.MobileTransferService.HandleStartRequest` | dt_image_search/mobile/mobile_transfer_service.py:118-214 | accepts paired or transferring sessions with a proof, resets the counters |
| `TransferService.MobileTransferService.HandleCompleteRequest` | dt_image_search/mobile/mobile_transfer_service.py:566-675 | the final status and counters |
| `TransferService.MobileTransferService.HandleStreamError` | dt_image_search/mobile/mobile_transfer_service.py:677-758 | marks an admitted session failed |
| `TransferService.MobileTransferService.FindStored` | dt_image_search/mobile/mobile_transfer_service.py:373-455 | whether signature or version says the asset is stored |
| `TransferService.MobileTransferService.StoreAndRecord` | dt_image_search/mobile/mobile_transfer_service.py:457-564 | places the file, records and counts it, or marks the transfer failed |
| `TransferService.MobileTransferService.HandleAssetUpload` | dt_image_search/mobile/mobile_transfer_service.py:301-564 | the whole upload on tables and disk |
| `TransferProofs.UploadNeverOverwrites` | dt_image_search/mobile/mobile_transfer_service.py:952-1051 | no upload changes or removes a file already there |
| `TransferProofs.UnstoredUploadLeaves` | dt_image_search/mobile/mobile_transfer_service.py:457-538 | an upload not stored adds no record, and no file if and only if it fails before the file is placed; short bodies leave nothing |
| `TransferProofs.StoredUploadAdds` | dt_image_search/mobile/mobile_transfer_service.py:457-564 | a stored upload adds one file with the content received at an unused path and one record of it |
| `TransferProofs.UploadKeepsSound` | dt_image_search/mobile/mobile_transfer_service.py:301-564 | disk and records agree after every upload with an honest digest |
| `BackupSystem.ArrivedHonest` | dt_image_search/mobile/transport/asset_upload_stream.py:36-51 | what the transport hands on carries the digest of its file, so an upload needs no assumption about it |
| `AssetUploadStream.TransferAssetUploadStream.AppendChunk` | dt_image_search/mobile/transport/asset_upload_stream.py:121-161 | the accepted chunk is appended to the right upload's file; refusals change nothing; file, digest and length stay in step |
| `AssetUploadStream.TransferAssetUploadStream.Complete` | dt_image_search/mobile/transport/asset_upload_stream.py:163-174 | the payload has the bytes received, their length and their digest |
| `TransferProofs.StoredUploadSoundIff` | dt_image_search/mobile/mobile_transfer_service.py:1002-1051 | they agree after a stored upload if and only if the supplied digest was right |
| `TransferProofs.ExistenceMatchesUpload` | dt_image_search/mobile/mobile_transfer_service.py:257-285 | the batch existence check reports an asset if and only if its upload would be skipped by signature |
| `TransferProofs.HitCandidatesAre` | dt_image_search/mobile/mobile_pairing_store.py:532-579 | the batch lookup finds exactly what single lookups find |
| `TransferProofs.DeletionKeepsSound` | dt_image_search/model/dts_db.py:149-171 | deleting folders keeps disk and records in agreement |
| `TransferProofs.RepairKeepsSound` | dt_image_search/mobile/mobile_pairing_store.py:295-382 | after repair every moved record still names its file with size and digest |
| `TransferProofs.HandlersMoveLegally` | dt_image_search/mobile/mobile_transfer_service.py:142-182 | start, completion and stream error move the status forward only |
| `TransferProofs.FailureKept` | dt_image_search/mobile/mobile_transfer_service.py:760-786 | marking a transfer failed keeps integrity and every binding's device |
| `TransferProofs.UploadMovesLegally` | dt_image_search/mobile/mobile_transfer_service.py:522-564 | so does an upload |
| `TransferProofs.StopRespectsOrderIff` | dt_image_search/mobile/mobile_folder_controller.py:246-285 | the desktop's stop respects the status order if and only if the session was transferring or stopped |
| `TransferAnswers.StartIff` | dt_image_search/mobile/mobile_transfer_service.py:118-214 | a start is accepted if and only if the session is paired or running, its device and folder are there and the proof holds; the row then runs from zero with the total announced |
| `TransferAnswers.CompletionIff` | dt_image_search/mobile/mobile_transfer_service.py:566-675 | a running session with a proof ends completed if and only if nothing failed and it was not stopped; counts are the phone's, the total stays |
| `TransferAnswers.StreamErrorIff` | dt_image_search/mobile/mobile_transfer_service.py:677-758 | a broken stream fails exactly a running session with a proof |
| `TransferAnswers.StopIff` | dt_image_search/mobile/mobile_folder_controller.py:246-285 | the stop button stops a session found whatever its status |
| `TransferAnswers.UploadAnswersIff` | dt_image_search/mobile/mobile_transfer_service.py:301-564 | exactly when an upload is rejected, refused, skipped, stored or fails: skipped if and only if a record of the device has its digest, size and time and a file, or its version of the asset is recorded with a file |
| `TransferAnswers.UploadRows` | dt_image_search/mobile/mobile_transfer_service.py:457-564 | what each answer does to the tables: nothing, one more counted, a record besides, or the session failed |
| `TransferAnswers.StoredRecordIs` | dt_image_search/mobile/mobile_transfer_service.py:522-564 | the record has the version sent, the size and digest of what was received, and of a staged file the digest announced |
| `TransferAnswers.StoredUnderMonth` | dt_image_search/mobile/mobile_transfer_service.py:1080-1092 | the file lies in the directory of its month under the name sent, or with the first free number before its extension |
| `TransferAnswers.EditedIsStored` | dt_image_search/mobile/mobile_transfer_service.py:415-455 | an asset sent again with a new version and new content is stored beside the old file and its record has the new version |
| `IndexPipeline.ProcessImageBatch` | dt_image_search/index/image_processor.py:29-73 | pictures and files stay aligned; with no readable picture or a failed stack all lists are lost |
| `IndexService.Indexer.CollectFeatures` | dt_image_search/index/dts_index.py:288-335 | features and ids of all batches aligned row by row, unreadable files retired, and when the pass is clean |
| `IndexService.Indexer.TakeBatch` | dt_image_search/index/dts_index.py:298-330 | one batch: features of the readable files in order, the others retired unless marking fails |
| `IndexService.Indexer.AddToIndex` | dt_image_search/index/dts_index.py:260-350 | every outcome of a pass with its whole effect on index and table |
| `IndexService.Indexer.UpdateIndexed` | dt_image_search/index/dts_index.py:346-350 | the rows become indexed under their own ids |
| `IndexService.Indexer.PendingFiles` | dt_image_search/model/dts_db.py:350-356 | the first pending ids of the folder in rising order, up to the limit |
| `IndexService.Indexer.NextPass` | dt_image_search/index/dts_index.py:385-420 | one page of the pending files in order; success takes at least one of them out of pending, and with nothing failing a pass moves the build on as its page decides |
| `IndexService.Indexer.BuildIndex` | dt_image_search/index/dts_index.py:354-448 | terminates within as many passes as files were pending whenever no unindexed file has a clip index, keeps agreement if there was one, leaves nothing pending unless a pass failed or the model went away, runs no pass after that, reports every pass but a failed last one with the number of files the folder had; with nothing failing exactly the files the page recursion names stay pending, the others are indexed if readable and given up if not |
| `IndexService.Indexer.AppendToIndex` | dt_image_search/index/dts_index.py:452-506 | the slices of a hundred paths one after the other, with every answer |
| `IndexService.Indexer.InsertFile` | dt_image_search/model/dts_db.py:174-190 | a new pending row, or a retired one of the same folder and path made pending |
| `IndexService.Indexer.DeleteFilesByIds` | dt_image_search/model/dts_db.py:367-374 | deletes in batches of twenty exactly the given rows |
| `IndexService.Indexer.RenameFile` | dt_image_search/model/dts_db.py:264-281 | drops the rows at the new path and moves the old one there; with two rows for the old path it raises and changes nothing |
| `IndexPipeline.PendingAreUnindexed` | dt_image_search/index/dts_index.py:398-399 | where no unindexed file has a clip index, the filter keeps the whole page of pending files and the continue branch is dead |
| `IndexPipeline.SuccessfulPassRetiresSome` | dt_image_search/index/dts_index.py:288-350 | a pass that reports success strictly shrinks the pending set |
| `IndexPipeline.AddKeepsAgreement` | dt_image_search/index/dts_index.py:260-350 | index and table agree after every outcome of a pass |
| `IndexPipeline.CommitKeepsIff` | dt_image_search/index/dts_index.py:336-350 | a commit keeps agreement if and only if each file belongs to the folder or its own index has it |
| `IndexPipeline.RetireKeepsIff` | dt_image_search/model/dts_db.py:310-335 | retiring keeps agreement if and only if no indexed file is retired |
| `IndexPipeline.RecoveryKeeps` | dt_image_search/index/dts_index.py:168-185 | recovery keeps agreement |
| `IndexPipeline.IndexCreatedKeeps` | dt_image_search/index/dts_index.py:100-105 | creating a missing index keeps agreement |
| `IndexPipeline.IndexLostKeepsIff` | dt_image_search/index/dts_index.py:524-543 | an index file removed or emptied before the rows are dealt with keeps agreement if and only if the folder had no indexed file |
| `IndexPipeline.WithoutFolderKeeps` | dt_image_search/index/dts_index.py:524-543 | a finished folder deletion keeps agreement |
| `IndexPipeline.CrashInRecoveryKeepsIff` | dt_image_search/index/dts_index.py:168-185 | recovery stopped after moving the file away, or after writing the empty one, keeps agreement if and only if the folder had no indexed file |
| `IndexPipeline.CrashAfterIndexWriteKeeps` | dt_image_search/index/dts_index.py:336-350 | stopping between index write and row updates keeps it |
| `IndexPipeline.CleanPassSucceedsIff` | dt_image_search/index/dts_index.py:330-350 | without faults a pass succeeds if and only if some picture was readable or none of the files is a picture |
| `IndexPipeline.UnreadablePageGivenUp` | dt_image_search/index/dts_index.py:330-345 | a page without a readable picture is retired as a whole and fails the pass if it holds a picture |
| `IndexPipeline.AddedCoversReadable` | dt_image_search/index/dts_index.py:283-330 | the batches cover the page: without faults exactly the readable files are added |
| `IndexBuild.PlainPass` | dt_image_search/index/dts_index.py:260-350 | a pass with nothing failing indexes the readable, gives up what shares a batch with them, leaves batches without any, and succeeds unless the page blocks |
| `IndexBuild.NothingLeftIff` | dt_image_search/index/dts_index.py:385-436 | the page recursion leaves nothing if and only if no page before its last blocks |
| `IndexBuild.BuildGoesThroughIff` | dt_image_search/index/dts_index.py:385-436 | a build with nothing failing leaves no file pending if and only if no page before its last is without a readable file while holding a picture |
| `IndexBuild.FewUnreadableGoThrough` | dt_image_search/index/dts_index.py:385-436 | with fewer than a hundred unreadable files pending, a build indexes all readable ones and gives up the others |
| `IndexFates.PassFate` | dt_image_search/index/dts_index.py:288-350 | what becomes of each file of a page whatever fails: all given up if nothing was embedded, else indexed, given up or left pending as its picture, its batch and the writes decide |
| `IndexFates.ReadableGivenUpIff` | dt_image_search/index/dts_index.py:296-335 | a readable file is given up by a pass if and only if nothing of its page was embedded |
| `IndexFates.PassEndsIff` | dt_image_search/index/dts_index.py:260-350 | exactly when a pass reports success or failure, or raises |
| `IndexFates.RecoveryMakesPending` | dt_image_search/index/dts_index.py:168-185 | after a corrupt index the folder has an empty one and all its files but those given up are pending without clip index; nothing else changes |
| `IndexFates.RebuiltAfterDamage` | dt_image_search/index/dts_index.py:168-448 | a build after that, with nothing failing and fewer than a hundred unreadable files, indexes every readable file that was pending or indexed before the damage |
| `IndexAppend.AppendKeepsIff` | dt_image_search/index/dts_index.py:452-506 | a call keeps index and table together if and only if every file it indexes is of the folder or in its own folder's index already |
| `IndexAppend.AppendOfOwnFilesKeeps` | dt_image_search/index/dts_index.py:452-506 | when every row its paths find is of the folder, a call keeps index and table together whatever fails |
| `IndexAppend.AppendIndexes` | dt_image_search/index/dts_index.py:452-506 | a call indexes exactly the files it commits and moves no row |
| `IndexAppend.PlainAppendCommits` | dt_image_search/index/dts_index.py:462-490 | with nothing failing it commits exactly the waiting, readable rows its paths find, whatever their folder |
| `IndexAppend.SliceAnswersIff` | dt_image_search/index/dts_index.py:470-490 | with nothing failing a slice is answered with success if and only if nothing waits, something is readable, or nothing is a picture |
| `IndexRuns.IndexAndTableAgree` | dt_image_search/index/dts_index.py:168-350 | after every run, also with passes cut off between commits and index files lost from folders without indexed files: own id and own embedding for every indexed file, no foreign embedding, no clip index elsewhere, and folder and path unique together |
| `IndexRuns.ClipsAlwaysOwn` | dt_image_search/model/db_schema.sql:30 | after any run whatever an indexed file carries its own id as clip index, and folder and path are unique together |
| `IndexRuns.ClipsAlwaysClear` | dt_image_search/model/dts_db.py:174-190 | after any run in which passes get pending files, of whatever folder, with files moved and indexes lost, a file that is not indexed has no clip index |
| `IndexRuns.CutPassKeeps` | dt_image_search/index/dts_index.py:343-350 | a pass cut off after any number of its row updates keeps agreement |
| `IndexRuns.RenameKeepsIff` | dt_image_search/model/dts_db.py:264-281 | a rename keeps agreement if and only if it raises or no indexed file leaves its index |
| `IndexRuns.WithFileKeeps` | dt_image_search/model/dts_db.py:174-190 | inserting a file keeps agreement |
| `IndexRuns.InsertedFileCounts` | dt_image_search/model/dts_db.py:174-190 | an inserted path has a row of the folder that is not given up, a new one pending; other rows stay |
| `IndexSearch.SortedIsStableSort` | dt_image_search/index/dts_index.py:96-98 | falling scores, same hits, equal scores in the order reported |
| `IndexSearch.ShownIsSound` | dt_image_search/index/dts_index.py:56-73 | the list falls, shows no file twice, only indexed files of the folder, each with its best fetched score |
| `IndexSearch.FetchedIsShownOrBeaten` | dt_image_search/index/dts_index.py:56-73 | a fetched live file is shown or lost to a full list of scores at least as high |
| `IndexSearch.SearchIsExact` | dt_image_search/index/dts_index.py:56-98 | with index and table in agreement about the folder searched each file shows its own score and no file left out beats one shown |
| `IndexSearch.Dedupe` | dt_image_search/index/dts_index.py:65-67 | the comprehension with the seen set keeps the first hit of each id |
| `IndexSearch.FilesByClipIndices` | dt_image_search/model/dts_db.py:338-348 | a path for a clip index exactly when an indexed row of the folder has it |
| `IndexSearch.LookupAgrees` | dt_image_search/model/dts_db.py:338-348 | where clip indexes are own ids, the row with a clip index is the row with that id |
| `IndexSearch.QueryIndex` | dt_image_search/index/dts_index.py:56-73 | in any state with own clip indexes the query shows the first hundred live deduplicated hits, nothing for a missing folder or corrupt index, and raises without an index |
| `InstantShareSession.SessionRegistry.Bootstrap` | instant_sharing/session.py:67-88 | returns a known session, refuses above the limit, else adds one |
| `InstantShareSession.SessionRegistry.Transition` | instant_sharing/session.py:116-133 | moves along the table only and schedules cleanup at the end |
| `InstantShareSession.CleanupTakesOnlyFinished` | instant_sharing/session.py:151-160 | a timer that fires removes a finished session and no live one |
| `InstantShareSession.BootedOk` | instant_sharing/session.py:67-88 | live sessions stay within the limit |
| `InstantShareSession.MovedOk` | instant_sharing/session.py:116-133 | timers are listed and run exactly for the finished sessions held |
| `InstantShareSession.TransitionsRaiseRank` | instant_sharing/session.py:26-41 | every transition raises the rank, and the top rank is exactly the finished states |
| `InstantShareSession.SessionsMoveAtMostFiveTimes` | instant_sharing/session.py:26-41 | no path in the transition graph repeats a state or has more than five steps |
| `InstantShareReceiver.ShareService.HandleConnectionConfig` | instant_sharing/orchestrator.py:30-40 | bootstraps and queues |
| `InstantShareReceiver.ShareService.HandleRevisitTransfer` | instant_sharing/orchestrator.py:97-127 | bootstraps, moves on, sets the count whenever one is given |
| `InstantShareReceiver.ShareService.HandleTransferReceived` | instant_sharing/orchestrator.py:72-95 | sets the count once, counts, moves on, and says whether the batch is complete |
| `InstantShareReceiver.ShareService.HandleDeliveryComplete` | instant_sharing/orchestrator.py:129-156 | delivers and finishes a complete batch |
| `InstantShareReceiver.ShareService.FailSession` | instant_sharing/orchestrator.py:158-172 | the wanted end state or else failed |
| `InstantShareReceiver.ShareService.ReceiveImage` | instant_sharing/transfer_server.py:119-169 | the guards in order, then the write |
| `InstantShareReceiver.ShareService.DoTransferImage` | instant_sharing/https_tls_server.py:151-228 | the whole image request |
| `InstantShareReceiver.ShareService.DoTransferText` | instant_sharing/https_tls_server.py:94-148 | the whole text request |
| `InstantShareProofs.ImageKeepsBatchIff` | instant_sharing/https_tls_server.py:163-228 | an image request keeps counter, files, count and state in order if and only if the sender sends a right count |
| `InstantShareProofs.CountChangesIff` | instant_sharing/orchestrator.py:72-127 | after the first image the count changes if and only if a revisiting sender sends a different one |
| `InstantShareProofs.DoneExactlyAtTheLast` | instant_sharing/orchestrator.py:129-150 | a live batch becomes done if and only if the request wrote its last image |
| `InstantShareProofs.DoneRefuses` | instant_sharing/transfer_server.py:129-145 | a done batch refuses every image before writing, whatever it carries |
| `InstantShareProofs.UncountedBatchOverruns` | instant_sharing/https_tls_server.py:201-206 | without a count the batch is done after one image and the next is written all the same |
| `InstantShareProofs.ChangedCountOverruns` | instant_sharing/orchestrator.py:116-120 | a raised count lets a revisiting sender write more than first announced |
| `InstantShareProofs.RegistryAlwaysSafe` | instant_sharing/session.py:60-160 | registry safety on every run, whatever the senders do |
| `InstantShareProofs.EveryRunIsOk` | instant_sharing/https_tls_server.py:151-228 | on every run with right counts each image session has exactly its counted files, never more than announced, and is done only with all |
| `InstantShareProofs.FirstCountStands` | instant_sharing/orchestrator.py:72-127 | from the first image on, whatever all other senders do, the count stands, counter and files agree, and no more than the count is written |
| `InstantShareProofs.FirstImageStarts` | instant_sharing/orchestrator.py:72-95 | the first image written starts a batch of the count that stands then, its own or one from a request whose delivery failed, done at once if and only if it is the only one |
| `InstantShareProofs.DoneOnceAtTheLast` | instant_sharing/orchestrator.py:129-150 | over every run of a batch a live session is done after a step if and only if all its images are then written, and a done one never changes |
| `InstantShareProofs.DoneStands` | instant_sharing/transfer_server.py:129-145 | until its timer fires a done batch stays as it is: done once, nothing written after |
| `InstantShareAnswers.UntrustedIsRefused` | instant_sharing/https_tls_server.py:105-187 | a session known and not trusted is refused, an unknown one without a well-formed request too, and nothing changes |
| `InstantShareAnswers.WrittenOnlyIfPermitted` | instant_sharing/https_tls_server.py:151-228 | over every run no more files are written for a session than it had trusted requests and well-formed revisits |
| `InstantShareAnswers.ImageWrittenIff` | instant_sharing/https_tls_server.py:151-228 | an image is written if and only if the request is let in, the session takes images and has room in its count, and body and disk are good; then it is one file |
| `InstantShareAnswers.TextTakenIff` | instant_sharing/https_tls_server.py:94-148 | a text is taken if and only if the request is let in, the session takes text, and it can be read and delivered |
| `InstantShareAnswers.TextEndsDoneIff` | instant_sharing/orchestrator.py:129-156 | a text taken leaves its session done if and only if it was, or it was not yet delivering and has no count that one text does not fill |
| `InstantShareAnswers.StrayCountHoldsText` | instant_sharing/orchestrator.py:97-156 | an image request sent to a text session by mistake leaves a count that keeps the session from being done |
| `InstantShareAnswers.ConfigStartsIff` | instant_sharing/orchestrator.py:30-40 | a configuration starts a session exactly once and exactly while there is room |
| `InstantShareAnswers.HandshakeNegotiatesIff` | instant_sharing/orchestrator.py:42-70 | a handshake moves on exactly a session that has not negotiated; a second one is refused |
| `InstantShareAnswers.FailEndsIff` | instant_sharing/orchestrator.py:158-172 | failing ends a live session if and only if it was more than bootstrapped, as wanted where its state allows it, else as failed |
| `DerUtf8String.EncodeUtf8String` | dt_image_search/identity/device_identity.py:431-443 | the encoder's loop computes the big-endian length |
| `DerUtf8String.RoundTripIff` | dt_image_search/identity/device_identity.py:431-467 | decoding an encoding with any octets behind it gives the text back if and only if it is shorter than 256^127 octets |
| `DerUtf8String.EncodesIff` | dt_image_search/identity/device_identity.py:439-443 | the encoder raises exactly from 256^255 octets on |
| `DerUtf8String.LengthIsShortest` | dt_image_search/identity/device_identity.py:439-443 | the length octets are the shortest (ITU-T X.690, sections 8.1.3 and 10.1) |
| `DerUtf8String.ReservedOctetIff` | dt_image_search/identity/device_identity.py:443 | the reserved initial octet 0xFF appears exactly for 127 or 255 length octets, never below 256^126 |
| `DerUtf8String.ReencodesIff` | dt_image_search/identity/device_identity.py:446-467 | what the decoder accepts encodes back to the octets read if and only if their length was minimal |
| `ChunkedDownload.SendChunks` | instant_sharing/webrtc_peer.py:268-292 | announces the estimate and sends that many chunks unless the channel closes or an offset does not fit |
| `ChunkedDownload.CountCovers` | instant_sharing/webrtc_peer.py:58-61 | offsets are exact multiples, chunks at most 16384 bytes and not empty, and together they cover the file |
| `ChunkedDownload.OffsetsFitIff` | instant_sharing/webrtc_peer.py:284-286 | every offset fits 32 bits if and only if the file is at most 2^32 bytes |
| `ChunkedDownload.MessagesFitIff` | instant_sharing/webrtc_peer.py:25-29 | header and chunk keep to the message size if and only if the file is at most 16376 bytes |
| `ChunkedDownload.AnyOrderRebuilds` | instant_sharing/webrtc_peer.py:283-292 | written at their offsets in any order, even repeatedly, the chunks rebuild the file |
| `Findings.StaleBindingLosesSession` | dt_image_search/mobile/mobile_pairing_store.py:199-243 | a binding without folder costs the new session its device row |
| `Findings.LateFailureLeavesFile` | dt_image_search/mobile/mobile_transfer_service.py:988-999 | a failing time stamp leaves the file behind |
| `Findings.LateStopOverwritesCompleted` | dt_image_search/mobile/mobile_folder_controller.py:246-285 | a late stop overwrites a completed status |
| `Findings.CrashInRecoveryLosesFile` | dt_image_search/index/dts_index.py:168-185 | recovery stopped half-way leaves an indexed file no index holds |
| `Findings.AppendAcrossFoldersLosesFile` | dt_image_search/index/dts_index.py:470-490 | an append call with a path of another folder marks the file indexed and leaves it in no index of its own |
| `Findings.MovedFileIsLost` | dt_image_search/model/dts_db.py:264-281 | a file moved to another folder is in no index of it |
| `Findings.BusyPoolGivesUpGoodFile` | dt_image_search/index/dts_index.py:286-335 | a worker pool that takes no work for a moment costs a good picture its place in the index |
| `Findings.UnreadablePageStopsBuild` | dt_image_search/index/dts_index.py:330-436 | a build over a hundred broken pictures a1.png to a100.png and the good a101.png ends with the good one pending |
| `Findings.LongLengthIsAccepted` | dt_image_search/identity/device_identity.py:446-467 | a two-octet length for one octet of text is accepted |
| `Findings.FullChunkExceedsMessage` | instant_sharing/webrtc_peer.py:25-29 | a full chunk with header is 16392 bytes |
| `Findings.LargeFileOverflows` | instant_sharing/webrtc_peer.py:284-286 | the last chunk of a file of 2^32 + 1 bytes has offset 2^32 |

## Left out

- Sockets, HTTP and TLS servers, mDNS, USB and WebRTC transports, telemetry, dialogs, Qt models and windows: no provable core of their own.
- Cryptography: the trust proof is a boolean, the digest an arbitrary function of the content, and the trust key the text it is derived from.
- Parsing and validation of request fields, and the sanitizing of names: `wellFormed`, the base name, the month directory and the file name are parameters.
- Timestamps other than token expiry, which nothing modelled reads back; the age of a client's capabilities; listings for the user interface.
- `shutdown` of the pairing service inside a process that goes on; the end of the process is the `Restart` step.
- Trailing-slash variants of folder paths, which the caller expands before `PairingStore.Database.DeleteFolders`; backslash conversion.
- AssetUploadStream.TransferAssetUploadStream.AppendChunk: writing to the staged file does not fail; the trust key that travels with an upload is left out.
- Cleaning up a staged file after its upload was handled.
- A session closed between the store writes of an acceptance and its second look at the active session, and other interleavings inside one claim, one resolution, one image request or one indexing pass, and two writers on one folder's index.
- Folder-wide renames (`rename_files_in_folder`): they repeat the single rename for every row below a path.
- IndexService.Indexer.BuildIndex: files are not inserted or removed while it runs, and its progress record leaves out the fields that repeat others.
- IndexService.Indexer.AppendToIndex: which row the database returns for a path that several folders have is a parameter.
- IndexSearch.SearchIsExact: scores are real numbers, so rounding and NaN are not modelled.
- InstantShareReceiver.ShareService.ReceiveImage: delivery either writes one whole file or fails; the file's name is chosen by the loop in `CollisionNames` and its content is not followed.
- InstantShareReceiver.ShareService.HandleTrustHandshake: the trust exchange itself; whether a session is trusted is part of each request.
- Delivery of images to the clipboard instead of a file, and the receiver without an orchestrator.
- Lifecycle events published by the orchestrator: they repeat the session's state.
- DerUtf8String.EncodeUtf8String: text is its UTF-8 octets; which octet strings are valid is a parameter of the decoder.
- The containment check of `_resolve_output_path`: with one directory and a sanitized name it has nothing to refuse.
- Case-insensitive and link-following file systems.
