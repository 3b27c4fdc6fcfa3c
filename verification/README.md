# Verification of the updater service

A Dafny model of the update orchestration: the protocol between the entry service, the workers,
the timeout monitor and the message network; the resumable parallel downloader with the range
endpoint it talks to; the crash-safe replacement of a config file; the lease registry of worker
nodes; and the bounded health check. `dafny verify dfyconfig.toml` checks everything.

The claim that ties the parts together: an update is applied and healthy, or rolled back, or
visibly failed; it is never half-done and never done twice. What the code does not guarantee is
stated as exactly: each such property comes with the condition under which it holds, proved in
both directions, and where it helps with a run in which it fails.

## How the model is built

| file | part of the system |
|---|---|
| `Operations.dfy` | statuses, the rank guard in its Go and SQL forms, the `operations` table, message order |
| `Protocol.dfy` | the state machine: one label per actor move, every fault and timing decision in the label |
| `ProtocolInvariant.dfy` | the inductive invariant: bounds on row, reports and files at each handler position |
| `ProtocolTheorems.dfy` | what every run guarantees |
| `ProtocolProgress.dfy` | what runs do achieve: results count, online nodes get commands, executions end as their calls say |
| `ProtocolCounterexamples.dfy` | two complete runs that contradict a reading of the documentation, and one to each outcome |
| `WorkerHandler.dfy`, `EntryServer.dfy` | the handlers as they are written, with all other actors moving between any two calls; proved to follow the state machine |
| `Deployer.dfy` | Backup, Apply, Rollback on a disk that records every intermediate state |
| `Chunks.dfy`, `RangeServer.dfy`, `ChunkFetch.dfy` | chunk arithmetic in int64, Range headers as text, the fetch loop on an array, the state file |
| `Downloader.dfy`, `DownloaderTheorems.dfy` | goroutines, mutex, crashes and resumes as a state machine, and what holds of it |
| `NodeRegistry.dfy` | leases, instance fencing, draining, and the sender of heartbeats |
| `HealthCheck.dfy` | the backoff with its int64 wrap-around, the probe loop |
| `Composition.dfy` | where the parts meet: table, disk and downloader behind the protocol's steps |

A schedule is a sequence of labels and a step is a total function of state and label, so "for
every schedule" ranges over all interleavings, faults and message losses. Messages are never
removed from the network: never delivering one is loss, delivering it again is duplication, and
any order is allowed. The monitor may strike any row in the four statuses it names at any time.
One worker owns the config files of its host, and only workers publish results.
`Reachable` means: occurs in some run from a state without operations.

The parts meet at the handler's positions, and `Composition.dfy` proves it for the table, the files
and the download: a write of the protocol is the guarded UPDATE; its backup, apply and restore steps
are those of the deployer on a disk, at every crash point; and in a run whose download steps are
those of the downloader, SUCCEEDED means that the uploaded bytes are in place. The dispatch reads a
row of the registry as it may be at that moment, whose instance is never empty because no statement
of `NodeTable` can store an empty one. The health step succeeds only after a successful probe, which
is the contract of `WaitUntilHealthy`.

The repository's SQL driver reports changed rows, not matched rows, so a refresh of FAILED within
one microsecond reports nothing affected; the model keeps that.

Where the documentation and the code disagree, the model follows the code:

- `docs/architecture.md:93` says that the reaper fails non-terminal operations. It names four
  statuses only; `ReaperNeverFailsIt` is a run that stays non-terminal under every schedule, and
  `StrandedIff` and `StuckForeverIff` say exactly when that happens.
- `docs/architecture.md:86` lists FAILED as terminal. It is left exactly when its owner starts a
  rollback (`FailedIsLeftOnlyByRollback`); `FailedIsFinalIff` says exactly when it is final.
- FAILED does not mean that the old config is back. `FailedLeavesOldConfigIff`,
  `FirstDeploymentIsNotUndone` and `FaultLeavesOldConfigIff` say exactly when it is.
- `docs/client-to-entry.md:101` promises 404 to an upload for an unknown operation. The repository
  passes on the driver's own error, so the hook answers with an internal error.

## Model

| member | source | states |
|---|---|---|
| Operations.RanksAgree | internal/operation/mariadb_op.go:100-203 | the SQL CASE and the Go switch give every status the same rank, and unknown text ranks below all |
| Operations.OperationTable.Create | internal/operation/mariadb_op.go:20-48 | an id is inserted once; a second insert changes nothing |
| Operations.OperationTable.AdvanceStatus | internal/operation/mariadb_op.go:87-157 | unknown status rejected; otherwise the row alone changes, in status and time alone, and exactly when its rank is lower or it refreshes the same outcome; "updated" is reported exactly when the table changed |
| Operations.OperationTable.ClaimForExecution | internal/operation/mariadb_op.go:204-243 | the claim succeeds exactly from DISPATCHED and moves only that row to RUNNING |
| Operations.OperationTable.ReapTimedOut | internal/operation/timeout_monitor.go:45-75 | exactly the rows in the four statuses older than the cutoff become FAILED, all others stay |
| Operations.WritersGrowRank | internal/operation/mariadb_op.go:100-133 | every kind of write raises the rank or leaves the status, and repeating a write changes nothing |
| Operations.ApplyAllIsMaximal | internal/operation/mariadb_op.go:100-133 | folding any results into a status ends at an element of maximal rank |
| Operations.OrderIndependentIff | internal/entry/handler.go:387-394 | all deliveries of the same messages, permuted and duplicated, end alike if and only if SUCCEEDED and FAILED do not tie at the top |
| ProtocolInvariant.WriteKeepsStatus | internal/worker/handler.go:175-237 | every status write, confirmed, refused or failing, lands within the bounds of the handler's next position; giving up strands a row only through a database error |
| ProtocolInvariant.ClaimKeeps | internal/worker/handler.go:44-58 | a claim that lands makes the worker the first and only owner, also when it is reported as an error |
| ProtocolInvariant.ActKeepsActive | internal/worker/handler.go:60-122 | each handler action keeps row, published results, attempts and files within the bounds of the next position, or ends the execution |
| ProtocolInvariant.RunKeepsInv | internal/worker/handler.go:17-122 | the invariant holds after every schedule of all actors |
| ProtocolTheorems.StepGrowsRank | internal/operation/timeout_monitor.go:52-74 | no step of any actor, guarded or not, lowers a rank or swaps statuses of equal rank |
| ProtocolTheorems.StatusTraceIsIncreasing | internal/operation/mariadb_op.go:100-203 | in every run the number of status changes is bounded by the gain in rank, at most 11 minus the starting rank |
| ProtocolTheorems.StatusChangeCauses | internal/entry/handler.go:387-394 | every status change is a dispatch, a delivery of a published result, a reap, a claim, or a guarded write by the owner |
| ProtocolTheorems.FinalOutcomesStay | internal/operation/mariadb_op.go:107-132 | SUCCEEDED, ROLLED_BACK and ROLLBACK_FAILED are absorbing in every run, which the rank guard alone does not give |
| ProtocolTheorems.FailedIsLeftOnlyByRollback | internal/worker/handler.go:266-277 | FAILED is left if and only if the owner's write of ROLLING_BACK takes effect |
| ProtocolTheorems.FailedIsFinalIff | internal/operation/operation.go:23-29 | FAILED stays under every schedule if and only if no worker is on its way from a failed or running health check into a rollback |
| ProtocolTheorems.AbandonedFailureIsFinal | internal/operation/operation.go:23-29 | a FAILED operation nobody executes stays FAILED under every schedule |
| ProtocolTheorems.ReportsAreExclusive | internal/worker/handler.go:100-119 | an operation with a SUCCEEDED report has no FAILED or rollback report |
| ProtocolTheorems.DeliveryOrderIsIrrelevant | internal/entry/handler.go:387-394 | for results of a real run, no permutation or duplication of deliveries matters |
| ProtocolTheorems.AtMostOnce | internal/operation/mariadb_op.go:204-243 | at most one dispatch, command, claim, backup and apply per operation, one executor, and only by the instance the command names |
| ProtocolTheorems.SoleWriterWindow | internal/worker/handler.go:175-237 | from BACKUP_CREATED until HEALTH_CHECKING is written, no other actor changes the status over any number of steps, and the two guards in between pass |
| ProtocolTheorems.GuardRefusesOnlyTimedOut | internal/worker/handler.go:175-381 | the only handler write the guard can refuse is BACKUP_CREATED, if and only if the operation was timed out; a started rollback is never refused |
| ProtocolTheorems.FailedEarlyTouchesNothing | internal/worker/handler.go:175-177 | an operation failed or timed out before its backup is never backed up or applied, and no config file changes |
| ProtocolTheorems.SuccessIsEndToEnd | internal/worker/handler.go:100-119 | when SUCCEEDED is published the config has the digest stored at upload, the container was restarted on it and probed healthy afterwards at a configured URL, other configs are as found |
| ProtocolTheorems.RollbackRestores | internal/worker/handler.go:294-351 | when an operation becomes ROLLED_BACK all configs are as at receipt of the command, and the container was restarted and probed on them at a configured URL; backup names may repeat |
| ProtocolTheorems.NeverHalfDone | internal/worker/handler.go:207-215 | at every moment of an execution the configs are the old ones or those with the staged file in place |
| ProtocolTheorems.FailedLeavesOldConfigIff | internal/worker/handler.go:87-119 | an unfaulted operation that ends FAILED, or can still become so, and had a config before has left it in place if and only if the handler did not end by reporting success, or the staged file had the same bytes |
| ProtocolTheorems.FirstDeploymentIsNotUndone | internal/worker/handler.go:179-197 | with no config before, no rollback is ever tried, and the new config stays if and only if Apply had put it there, whatever the ending |
| ProtocolTheorems.FaultLeavesOldConfigIff | internal/worker/handler.go:256-303 | the same for endings by a crash or a database error: decided by the position of the handler, except around a rollback, where it is whether Apply or Rollback had replaced the file |
| ProtocolTheorems.OldConfigIff | internal/worker/handler.go:207-253 | however an execution ends unfinished, the configs are those found at receipt if and only if the staged file is not in place or holds the same bytes |
| ProtocolTheorems.NoStrandedOperation | internal/operation/timeout_monitor.go:52-74 | without crash or database error while giving up, an operation nobody executes is pending, terminal or reapable |
| ProtocolTheorems.FaultFreeRunsStrandNothing | internal/worker/handler.go:385-431 | the same as a statement about schedules |
| ProtocolTheorems.StrandedIff | internal/worker/handler.go:266-431 | a step strands an operation if and only if it is a crash in an unreaped status or a database error in the last write of a handler giving up |
| ProtocolTheorems.StuckForeverIff | internal/operation/timeout_monitor.go:58-72 | a stranded operation stays so under every schedule if and only if no FAILED report can still release it |
| ProtocolTheorems.ExecutionIsNeverResumed | internal/operation/mariadb_op.go:210-218 | an execution that ended or crashed is never taken up again |
| ProtocolProgress.DeliveryLands | internal/entry/handler.go:387-394 | a delivered result that the database takes leaves the row at its rank or above, and at the result itself if the row was below |
| ProtocolProgress.DeliveriesEndHighest | internal/entry/handler.go:387-394 | any schedule of deliveries ends at the highest result delivered, or at the status the row had |
| ProtocolProgress.DeliverySchedulesAgree | internal/entry/handler.go:387-394 | two schedules that deliver the same results of a real run, permuted and repeated, end in the same status |
| ProtocolProgress.DispatchingIff | internal/entry/handler.go:424-430 | the hook goes on to dispatch if and only if the row it read is ONLINE, and keeps that row's instance |
| ProtocolProgress.CommandsGoToOnlineNodes | internal/entry/handler.go:419-471 | in every run each command names the instance of a row that was read as ONLINE, and nothing is dispatched otherwise |
| ProtocolProgress.ExecutionEnds | internal/worker/handler.go:17-122 | 21 actions of its worker end every execution for good, whatever anybody else does |
| ProtocolProgress.ProgressMustBePublished | internal/worker/handler.go:60-100 | RUNNING or TRANSFERRED that cannot be published ends the execution at once, with row and host as they were; otherwise it goes on |
| ProtocolProgress.UpdateEndsAsCallsSay | internal/worker/handler.go:79-363 | amid all other actors, an execution that is not timed out ends SUCCEEDED, FAILED, ROLLED_BACK or ROLLBACK_FAILED exactly as the outcomes of its eight calls, the catalog and the presence of an old config say |
| ProtocolProgress.RollbackEndsAsCallsSay | internal/worker/handler.go:266-363 | a rollback that starts ends ROLLED_BACK if and only if Rollback, Restart and the second probe succeed and there is a health URL, and ROLLBACK_FAILED otherwise; failing notes on the way do not matter |
| ProtocolProgress.RollbackFailsForAReason | internal/worker/handler.go:280-343 | in every run with every fault, ROLLBACK_FAILED is preceded by a failure of Rollback, of its Restart or of its probe, or there is no health URL |
| ProtocolProgress.EveryOutcomeCanHappen | internal/worker/handler.go:17-122 | from every fresh operation in every reachable state there is a run, from upload to delivery, to the outcome of its calls |
| ProtocolCounterexamples.OutcomesOccur | internal/operation/operation.go:23-29 | each of the four terminal statuses is reached by some run |
| ProtocolCounterexamples.ReaperNeverFailsIt | internal/operation/timeout_monitor.go:58-72 | a run after which an operation is non-terminal under every continuation |
| ProtocolCounterexamples.FailedButDeployed | internal/worker/handler.go:235-253 | the exception of FailedLeavesOldConfigIff occurs: a run that ends FAILED for good with the new config in place, restarted and healthy |
| WorkerHandler.Server.HandleCommand | internal/worker/handler.go:17-122 | a command for another instance or an unknown operation changes nothing; any other ends with the worker idle and the operation, if owned, ended and not stranded unless faulted |
| WorkerHandler.Server.TransferAndUpdate | internal/worker/handler.go:79-122 | ends idle; SUCCEEDED is published only when the staged file is in place with its digest, restarted on and healthy, ROLLED_BACK and ROLLBACK_FAILED only when the row says so |
| WorkerHandler.Server.ExecuteUpdate | internal/worker/handler.go:147-254 | publishes nothing; true means one backup, one apply, and the staged file in place, restarted on and healthy; false with a backup path means that path holds the old config, false without one that an old config is still in place |
| WorkerHandler.Server.RollbackOperation | internal/worker/handler.go:256-363 | ends idle; publishes nothing but FAILED and the rollback's results, and ROLLED_BACK only when the row says so and all configs are as at receipt, restarted on and healthy |
| WorkerHandler.Server.MarkRollbackFailed | internal/worker/handler.go:365-383 | ends idle; ROLLBACK_FAILED is published only if the row holds it, and nothing else is |
| WorkerHandler.Server.FailOperation | internal/worker/handler.go:385-431 | ends idle; FAILED is published only if the row holds it, and nothing else is |
| WorkerHandler.Server.AdvanceStatus | internal/worker/server.go:104-131 | the write the handler makes at its position: true means the row holds the status, false may follow a write that took effect; nothing is published |
| EntryServer.Server.OnUploadCreate | internal/entry/server.go:115-137 | a known operation passes if and only if it is pending and the lookup worked, and then nothing was dispatched, claimed or reported |
| EntryServer.Server.OnUploadFinish | internal/entry/server.go:139-204 | nothing happens unless the upload is the first and is hashed and stored; then its metadata is stored, and success means exactly that the node was ONLINE, the write was confirmed and the command left |
| EntryServer.Server.Dispatch | internal/entry/handler.go:419-471 | a node that is not ONLINE gets no command and the operation is not dispatched; an ONLINE one gets one command, for its row's instance and describing exactly the upload; success if and only if write and flush were confirmed |
| EntryServer.Server.HandleResult | internal/entry/handler.go:372-417 | unless the database fails, the row ends at the result's rank or above, and at the result if it was below; late, repeated or lower results and unknown operations change nothing, and a final outcome never moves |
| Deployer.CopyFile | internal/fileops/deploy.go:170-207 | only the destination is touched at every moment; it succeeds if and only if there is a source and no file operation fails, and leaves a complete synced copy |
| Deployer.Install | internal/fileops/deploy.go:44-68 | temp, sync, rename: at every moment the destination is the old file or the complete new one; success under the same exact condition |
| Deployer.Backup | internal/fileops/deploy.go:20-71 | a missing target is no error; it succeeds if and only if no file operation fails; the backup path holds its previous content or a complete copy, at every moment |
| Deployer.Apply | internal/fileops/deploy.go:72-120 | the target is the old file or the complete staged one at every moment, and unchanged on failure; it succeeds if and only if there is a staged file and no file operation fails |
| Deployer.Rollback | internal/fileops/deploy.go:121-169 | the target is the old file or the complete backup at every moment, and unchanged on failure; it succeeds if and only if there is a backup and no file operation fails |
| Deployer.UpdateThenRollback | internal/worker/handler.go:179-303 | backup, apply, rollback is the identity on the target, whichever of them fails half way; without a failure the new file was in place in between |
| Deployer.SurvivesPowerLoss | internal/fileops/deploy.go:201-222 | because copies are synced before they are renamed, a power loss leaves old or new bytes at the target, also when it undoes renames, since no directory is ever synced |
| Chunks.PlanIsPlan | internal/filetransfer/downloader.go:198-212 | for every size, 0 included, and chunk size the chunks are a gap-free ordered cover with the right total |
| Chunks.PlanIsOrdered | internal/filetransfer/downloader.go:198-212 | distinct chunks are disjoint, ordered and inside the file |
| Chunks.PlanCovers | internal/filetransfer/downloader.go:511-516 | every byte lies in a chunk |
| Chunks.PlanSizes | internal/filetransfer/downloader.go:198-212 | every chunk but the last has exactly the chunk size, the last at most that, and there are no more chunks than needed |
| Chunks.InitChunks | internal/filetransfer/downloader.go:198-212 | in int64 the loop computes the plan if and only if rounding the size up to whole chunks fits; beyond that it panics, or for enormous chunks plans nothing |
| Chunks.PendingChunks | internal/filetransfer/downloader.go:518-526 | exactly the chunks not completed, in order, which is what the downloader's queue starts with |
| RangeServer.RangeRoundTrip | internal/filetransfer/downloader.go:350 | a Range header printed by the downloader is scanned back exactly, and rejected if and only if a number overflows int64 |
| RangeServer.HandleServeFile | internal/entry/handler.go:231-293 | the whole file if and only if there is no header, 416 if and only if no range that starts inside the file can be read, otherwise the bytes from first to last; well formed if and only if the range is not reversed |
| RangeServer.WellFormedIff | internal/entry/handler.go:269-292 | the answer is well formed if and only if the range is not reversed |
| RangeServer.SatisfiableIsServedIff | internal/entry/handler.go:245-293 | of the ranges RFC 9110 calls satisfiable exactly the closed ones with int64 numbers are served, with the bytes they select; open-ended, suffix and overflowing ones get 416 |
| RangeServer.ChunksAreServedExactly | internal/entry/handler.go:269-292 | each chunk of each plan gets exactly its bytes, never 416 |
| ChunkFetch.DownloadChunk | internal/filetransfer/downloader.go:336-401 | only source bytes of the range are ever written; success means all of them were, and it comes whenever nothing fails |
| ChunkFetch.DownloadChunkWithRetry | internal/filetransfer/downloader.go:284-334 | the same over at most MaxRetries + 1 attempts; an uncancelled failure worth a retry means exactly that many, and one good attempt among them is enough |
| ChunkFetch.StateFile.LoadOrInit | internal/filetransfer/downloader.go:188-225 | the persisted state is kept only for the expected size, otherwise a fresh plan replaces it, which is one if and only if the chunk arithmetic fits int64 |
| ChunkFetch.StateFile.MarkChunkComplete | internal/filetransfer/downloader.go:265-282 | one flag is set if and only if the state can be read and saved and has the chunk, otherwise nothing changes; no flag is cleared; it panics only when the state file is missing |
| DownloaderTheorems.GoKeepsInv | internal/filetransfer/downloader.go:135-169 | every goroutine step keeps pool, mutex, queue and progress consistent |
| DownloaderTheorems.PoolFinishes | internal/filetransfer/downloader.go:171-176 | all goroutines gone without an error means every chunk is marked and the part file is the source |
| DownloaderTheorems.DownloadIsCorrect | internal/filetransfer/downloader.go:67-186 | success means the destination is the served file, for every interleaving, retry and history of crashes and resumes |
| DownloaderTheorems.EveryCrashPointIsResumable | internal/filetransfer/downloader.go:147-159 | at every crash point each completed chunk's bytes are in the part file |
| DownloaderTheorems.DestinationIsNeverPartial | internal/filetransfer/downloader.go:452-454 | the destination holds what it held or the whole file |
| DownloaderTheorems.HonestDigestNeverRejected | internal/filetransfer/downloader.go:439-445 | against the digest of the served file verification never fails |
| DownloaderTheorems.SuccessIsVerified | internal/filetransfer/downloader.go:434-454 | success implies the expected digest even when removals fail |
| DownloaderTheorems.ChunksAreTakenOnce | internal/filetransfer/downloader.go:120-153 | over any schedule of the goroutines each queued chunk is received once or is still waiting, and no other chunk is ever received |
| DownloaderTheorems.ChunksAreHeldOnce | internal/filetransfer/downloader.go:126-153 | in every run no chunk is held by two goroutines or held while queued, and the mutex has one holder |
| DownloaderTheorems.FailsIff | internal/filetransfer/downloader.go:135-159 | a goroutine gives up if and only if it is cancelled, meets a permanent error, breaks off with no attempt left or cannot update the state file |
| DownloaderTheorems.RetryHappens | internal/filetransfer/downloader.go:295-330 | while attempts are left, an error worth a retry starts the chunk again and fails nothing |
| DownloaderTheorems.FailureNeedsAllRetries | internal/filetransfer/downloader.go:284-334 | over every schedule without cancellation, permanent errors and failing state files, a download fails only if the fetches of some chunk broke off MaxRetries + 1 times |
| DownloaderTheorems.PoolCanFinish | internal/filetransfer/downloader.go:126-171 | the goroutines never deadlock: from every reachable state they can be brought to their end |
| DownloaderTheorems.DownloadCanSucceed | internal/filetransfer/downloader.go:67-186 | from any disk that crashes may have left, with any parameters, some run ends in success with the served file |
| DownloaderTheorems.ResumeQueuesOnlyPending | internal/filetransfer/downloader.go:88-131 | a resume queues exactly the chunks not marked and keeps the bytes it finds |
| DownloaderTheorems.MismatchStartsOver | internal/filetransfer/downloader.go:434-454 | after a digest mismatch the download fails, state and part file are gone and the destination is as it was |
| DownloaderTheorems.NoSenderBlocks | internal/filetransfer/downloader.go:133-159 | no goroutine is ever stuck on the error channel |
| DownloaderTheorems.FlagsAreNeverLost | internal/filetransfer/downloader.go:265-282 | however goroutines interleave their read-modify-writes of the state file, no completed flag is lost |
| DownloaderTheorems.FinalisationIff | internal/filetransfer/downloader.go:447-454 | finalisation keeps the crash/resume invariant if and only if the state file was really removed or the file is empty |
| DownloaderTheorems.LeftoverIsRightIff | internal/filetransfer/downloader.go:447-454 | a later download that finds every chunk marked is right, under every schedule, if and only if the part file it finds, padded or cut, is the source |
| DownloaderTheorems.LeftoverStateYieldsZeros | internal/filetransfer/downloader.go:447-454 | without a digest that download does report success |
| DownloaderTheorems.FailedRemovalPoisons | internal/filetransfer/downloader.go:447-454 | it happens: from an empty directory and for every non-empty file, one failing removal makes the next unchecked download replace the file by zeros |
| NodeRegistry.NodeTable.Register | internal/node/repository.go:65-124 | upsert of this row alone: ONLINE with a new lease, or still DRAINING; messages without ids are rejected |
| NodeRegistry.NodeTable.Heartbeat | internal/node/repository.go:125-170 | renews exactly the current instance's row; "stale" is reported exactly when nothing changed |
| NodeRegistry.NodeTable.Goodbye | internal/node/repository.go:171-212 | ends the lease of exactly the current instance, keeping DRAINING |
| NodeRegistry.NodeTable.MarkExpired | internal/node/repository.go:213-238 | exactly the expired rows change |
| NodeRegistry.NodeTable.SetDraining | internal/node/repository.go:239-289 | makes any but an OFFLINE row DRAINING, or ONLINE again, and tells missing, offline and done apart |
| NodeRegistry.RenewedNodeStaysUp | internal/entry/handler.go:600-628 | a node renewed less than a lease before every tick, and not leaving, is never OFFLINE in any history |
| NodeRegistry.SilentNodeGoesDown | internal/node/repository.go:213-238 | after a renewal at t and silence, the node is not ONLINE after any tick at or after t + lease |
| NodeRegistry.DrainingIsSticky | internal/node/repository.go:92-228 | DRAINING survives restarts, goodbyes and expiry; only an undrain ends it |
| NodeRegistry.OfflineNeedsRenewal | internal/node/repository.go:250-257 | OFFLINE is left only by a registration or a heartbeat of the instance |
| NodeRegistry.StaleInstanceIsFenced | internal/node/repository.go:142-188 | messages of a non-current instance change nothing |
| NodeRegistry.DepartedStaysDownIff | internal/node/repository.go:171-264 | after its goodbye a node stays down under every history without a renewal if and only if it was not DRAINING |
| NodeRegistry.UndrainRevivesDepartedNode | internal/node/repository.go:239-264 | the exception: an undrain after a goodbye makes the node ONLINE until the next tick |
| NodeRegistry.LateRegistrationTakesOver | internal/node/repository.go:65-124 | a late registration of an old instance takes the node; the live instance's heartbeats and goodbyes then change nothing, and it has the row back if and only if the last registration is its own |
| NodeRegistry.SendHeartbeats | internal/heartbeat/heartbeat.go:83-111 | a registration at once and at every tick, a heartbeat after each of the latter, a goodbye last and only last |
| NodeRegistry.SteadySenderIsAttended | internal/heartbeat/heartbeat.go:83-111 | registrations sent at that cadence, processed within a delay up to a number of losses in a row, keep the lease at every tick if misses + 1 intervals and the delay are less than a lease |
| NodeRegistry.SteadySenderStaysUp | internal/entry/handler.go:600-628 | such a node is never OFFLINE from its first registration on |
| HealthCheck.Delay | internal/retry/backoff.go:10-26 | the initial delay, uncapped, for retries up to 0; min(initial * 2^n, max) whenever the doubling reaches the cap before it overflows |
| HealthCheck.DelayIsExactIff | internal/retry/backoff.go:10-26 | for each positive int64 initial delay and cap, min(initial * 2^n, max) for all n if and only if the doubling reaches the cap before it overflows; otherwise some delay is negative |
| HealthCheck.SafeCapIff | internal/retry/backoff.go:10-26 | a cap is safe for all initial delays below 2^62 if and only if it is at most 2^62 |
| HealthCheck.WaitUntilHealthy | internal/healthcheck/checker.go:34-83 | healthy if and only if a permitted probe succeeds before the deadline; unhealthy only after all MaxRetries + 1 probes |
| HealthCheck.BackoffIsBounded | internal/healthcheck/checker.go:59-71 | the pauses add up to the capped geometric sum |
| Composition.WriteIsTheUpdate | internal/operation/mariadb_op.go:87-157 | without a database error the protocol's write and its report are those of the guarded UPDATE |
| Composition.DeliverStep | internal/entry/handler.go:372-417 | the guarded UPDATE on the whole table is the protocol's delivery of a result |
| Composition.WriteStep | internal/worker/server.go:104-131 | the guarded UPDATE on the whole table is the handler's status write, and reports what the handler sees |
| Composition.ClaimStep | internal/operation/mariadb_op.go:204-243 | the compare-and-set on the table is the handler's claim, and decides whether it executes |
| Composition.MonitorStep | internal/operation/timeout_monitor.go:45-75 | the monitor's UPDATE is the protocol's strike on exactly the rows older than the cutoff |
| Composition.BackupStep | internal/fileops/deploy.go:20-71 | the deployer's Backup on a disk is the protocol's backup step |
| Composition.ApplyStep | internal/fileops/deploy.go:72-120 | the deployer's Apply on a disk is the protocol's apply step, and a crash at any moment of it is the protocol's crash |
| Composition.RestoreStep | internal/fileops/deploy.go:121-169 | the same for Rollback |
| Composition.UploadedBytesAreDeployed | internal/worker/handler.go:79-119 | in a run whose downloads are the downloader's, the config at the SUCCEEDED report is the upload byte for byte, restarted on and healthy |

## Left out

- HTTP routing, JSON, OpenAPI, logging, configuration and migrations: no property beyond plumbing.
- The tus upload library, the NATS client, the SQL driver, the Docker command line and the HTTP
  client are nondeterministic calls or atomic table and network operations.
- Elasticsearch indexing and search: best effort, and the monitor never indexes.
- SHA-256 is an arbitrary function; nothing is claimed about collisions. Success is stated for
  digests in the protocol, and for bytes where the downloader is composed with it.
- WorkerHandler.Server.HandleCommand: a command for an existing operation is one the entry service
  published; nothing authenticates commands on the message network, and forged ones are not modelled.
- The downloader's state machine plans with unbounded integers; `InitChunks` says exactly when the
  int64 arithmetic gives the same plan.
- The random jitter of the downloader's retry delay and its classification of errors: a failure is
  retryable or not by choice of the environment.
- Power loss during a download: the downloader does not sync, only process crashes are covered.
- The age of a row in the protocol: the monitor may strike at any time, which includes every clock;
  `ReapTimedOut` has the exact cutoff.
- Trimming of identifiers, the parsed start time, address, version and capabilities of a node row.
- Collation: identifiers are compared exactly, the tables compare them without case.
- The health URL is a yes/no property of a service; overrides from the environment are not modelled.
- The three longest Go functions of the worker are split into methods called in sequence; order and
  branches are the source's.
- internal/services BackupFile and ReplaceConfig: not used by the worker.
