# SigmaOS: a verified model of its background services

The project models the parts of SigmaOS that must stay right through crashes, expired leases and concurrent workers:
the downloader, the indexer, the photo worker (photostaff) and the backup command. Each database call is one atomic
step. What a call does to the rows it touches is a function; a class with the tables as fields refines it; and a state
machine lets any number of workers, recovery passes and users take these steps in any order, crash, lose their lease
and come back. The theorems are about every run of such a machine, or every input of a loop.

## Layout

| module | models |
|---|---|
| Base | options, bytes, saturating arithmetic |
| Segments | segment lists of a download: planning, acceptance, received bytes |
| DownloadRows, DownloadDb, Reservations | the downloader's rows, its tables as a class, and space reservations |
| SpaceAccounts | every history of calls by any workers for any tasks: pools and the balance of reserved and received |
| Publication | all runs that publish one download: workers, recovery passes, user requests |
| Transfer, SegmentLoop | all runs that fetch one file: writes, syncs, checkpoints, power loss, resume, removal of the partial; the segment loop |
| Delivery | transfer and publication as one machine, with power failures |
| ContentRange | the `Content-Range` header (section 14.4 of RFC 9110) |
| Paths, TextOrder | path texts, the ancestor test, the order of texts |
| Watcher | pending paths of the file watcher |
| IndexQueue, IndexRequests | the index queue and all runs over one queue key |
| IndexFiles, Scanner | index rows with their content, and the scan that keeps them equal to the tree |
| PhotoRows, PhotoScan, PhotoDb, PhotoProtocol, PhotoWorker | one photo job: rows, what a scan must find, the tables as a class with the discovery loop, all runs, and the worker's own code over the tables |
| BoundedRead | reading a stream into a bounded buffer |
| ManifestPaths, Manifest, Backup | manifest paths, making and checking a manifest, one backup run |

## What is assumed

- SQLite transactions are atomic; times are integers; identities (device, inode, size, times) are opaque values.
- Publication: a worker has at most one live run of a task, because worker ids are not epochs. A recovery pass reads
  the journal, the task and both file identities at one instant; `SplitReadLosesFile` and `StaleFailUndoesCompletion`
  are runs that go wrong without this. The program removes a cancelled partial by name and without its lock. The machine
  lets it do so only while nobody holds that lock: `UnlinkExact` shows that this is exactly what the invariant needs, and
  `StaleCancelLosesFile` is a run in which a worker that lost its lease removes the partial of another. Nobody removes
  the file at the target; inode numbers are not reused; the API neither moves a completed task on nor deletes a task that
  has a journal row.
- Power failures: one ends every process, may undo a rename until the directory is synced, and leaves anything in place
  of bytes that are not synced; what is synced survives.
- Transfer: one source version per transfer. Stored segment rows are resumed without comparing validators, and
  `SourceChangeMixes` shows what happens otherwise. The program lets a single stream resume whatever rows there are; the
  machine lets it do so only if the rows leave no gap, which `SingleResumeExact` shows to be the exact condition, and
  `MixedModesGoWrong` is a run outside it. A partial can be removed while the database still counts its bytes. The program
  starts on such a partial without a reset; the machine lets a run start there only if nothing is counted, which
  `StartOnEmptyExact` and `PlanOnEmptyExact` show to be the exact condition, and `StartOnEmptyGoesWrong` and
  `PlanOnEmptyGoesWrong` are runs outside it.
- Delivery: the assumptions of both machines and no others. `StaleProgressGoesWrong` is a run of workers, recovery and a
  user that reaches a removed partial with counted bytes.
- Space accounts: a segmented run reserves before it stores cursors, and stores each cursor from where it last stored it,
  as `SegmentLoop` shows the loop to do.
- Index requests: one sequential indexer. `TwoWorkersLoseARequest` is a run of two that loses a request.
- Index rows: an identity pins a file's content, extraction settings are fixed, every row has an identity.
- Scans (indexer and photos): the tree does not change while it is scanned; generation ids are fresh.
- Photo jobs: no other job of the library writes its assets meanwhile. `ForeignWriteExact` says exactly which such
  write costs a completed medium its asset.
- Manifests: the hash is any function that yields 64 lower-case hexadecimal characters; no injectivity is needed.

## Where an expected property needs a condition

- The overflow flag of `read_bounded` in tail mode also rises when the whole stream is a single chunk of exactly
  `limit` bytes (`BoundedRead.ReadBounded`). No chunk is longer than the 8192-byte buffer, so this cannot happen to the
  one caller in tail mode, whose limit is 16384 (`BoundedRead.TailFlagExact`).
- `reserve_space` adds with saturation, so its bound fails for a reported free space of `u64::MAX` and only then
  (`Reservations.SaturationExact`).
- A reservation may outlive its run: `recover_unpublished` keeps it, and until the next run reserves, new segment rows
  and the old reservation need not add up to the total (`SpaceAccounts.ReplanUnbalances`). After any history they do
  exactly if no reservation is left or it is of the right size (`SpaceAccounts.PlansBalanceExactly`), and always from a
  grant for the segments until the next plan or single-stream grant (`SpaceAccounts.HistoriesBalance`).
- A run that starts on a missing or empty partial keeps counted bytes equal to the source exactly if none are counted
  (`Transfer.StartOnEmptyExact`, `Transfer.PlanOnEmptyExact`). The API resets the count only when it requeues a cancelled
  task or one with a wrong checksum, so a failed task can come back with bytes counted and no file
  (`Delivery.StaleProgress`).
- `fail_recovery` and `recover_unpublished` do not look at the target; they are safe exactly when the journaled file is
  not there (`Publication.DropJournalExact`).
- A file whose row is cached at its present identity but not ready is not read again by a rescan
  (`IndexFiles.RescanFreshensExactly`, with `StaleBodyStays` as an instance).

## Model

| member | source | states |
|---|---|---|
| `Segments.TilesReadings` | apps/downloader/src/download.rs:1055-1067 | reading a list front to back accepts exactly the lists whose segments are adjacent, ordered and fill the range |
| `Segments.AcceptedReceived` | apps/downloader/src/download.rs:633-670 | an accepted list has received at most the total, and the total exactly when no segment is pending |
| `Segments.AdvanceCursor` | apps/downloader/src/db.rs:571-612 | moving one cursor inside its segment keeps the list accepted and changes the received bytes by that move |
| `Segments.PlanSegments` | apps/downloader/src/download.rs:1028-1053 | for every total and prefix: non-empty adjacent segments tiling the file, at most 4096, MiB-multiple chunks except the last and the prefix, received bytes equal to the smaller of prefix and total |
| `Segments.AddChunks` | apps/downloader/src/download.rs:1040-1052 | the loop adds adjacent chunks up to the end of the file, all of one length but the last, and counts nothing as received |
| `Segments.SegmentsCoverTotal` | apps/downloader/src/download.rs:1055-1067 | the loop accepts a list if and only if it tiles the file |
| `Reservations.GrantKeepsBound` | apps/downloader/src/db.rs:614-652 | after a grant no pool holds more than the free space of its latest grant less the minimum, unless that free space read as the largest 64-bit number |
| `Reservations.SaturationExact` | apps/downloader/src/db.rs:638-641 | the saturating test equals the exact test except when the free space is the largest 64-bit number |
| `Reservations.ShrinkKeepsBound` | apps/downloader/src/db.rs:571-612 | shrinking or dropping one reservation keeps every pool within its room |
| `Reservations.KeepKeepsBound` | apps/downloader/src/db.rs:361-381 | dropping any set of reservations keeps every pool within its room |
| `Reservations.CheckpointKeepsBalance` | apps/downloader/src/db.rs:571-612 | a forward checkpoint of balanced rows keeps reserved plus received equal to the total and only gives space back; `SpaceAccounts` establishes the balance |
| `DownloadDb.OperationIdInjective` | apps/downloader/src/download.rs:373-381 | two tasks never share an operation id |
| `DownloadDb.Db.RecoverExpired` | apps/downloader/src/db.rs:361-381 | exactly the running tasks without a journal and with a lapsed lease go back to the queue, and the count returned is theirs |
| `DownloadDb.Db.Claim` | apps/downloader/src/db.rs:397-415 | claims the claimable task that is first in wake-up order, or reports that there is none; no other task changes |
| `DownloadDb.Db.ExtendLease` | apps/downloader/src/db.rs:326-345 | extends the lease of an owned task only |
| `DownloadDb.Db.ResetTransfer` | apps/downloader/src/db.rs:492-512 | drops segments, progress and reservation of an owned task, and nothing of any other |
| `DownloadDb.Db.ReplaceSegments` | apps/downloader/src/db.rs:534-569 | replaces the segment rows of an owned task only |
| `DownloadDb.Db.CheckpointSegment` | apps/downloader/src/db.rs:571-612 | moves one cursor of an owned task, sets received bytes to the sum over the rows and its reservation to what is missing, and changes no other reservation |
| `DownloadDb.Db.SumOthers` | apps/downloader/src/db.rs:633-637 | the loop adds up exactly the other tasks' reservations in the pool |
| `DownloadDb.Db.ReserveSpace` | apps/downloader/src/db.rs:614-652 | refused exactly when the lease is lost, a number is too large, or request, minimum and other reservations exceed the free space; otherwise recorded for this task only, and the pool bound holds |
| `DownloadDb.Db.BeginPublish` | apps/downloader/src/db.rs:654-682 | writes the journal row of an owned task only |
| `DownloadDb.Db.FinalizePublish` | apps/downloader/src/db.rs:698-771 | succeeds exactly if the journal row matches or the same operation has completed already; completes the task with one operation row |
| `DownloadDb.Db.RecoverUnpublished` | apps/downloader/src/db.rs:773-794 | releases the task and drops its journal unless its lease is live |
| `DownloadDb.Db.FailRecovery` | apps/downloader/src/db.rs:796-814 | fails the task and drops its journal and reservation |
| `DownloadDb.Db.FinishControl` | apps/downloader/src/db.rs:816-836 | pauses or cancels a task its worker still runs |
| `DownloadDb.Db.FailOrRetry` | apps/downloader/src/db.rs:838-872 | requeues or fails a task its worker still runs, and says which |
| `DownloadDb.Db.RequeueOwned` | apps/downloader/src/db.rs:874-894 | releases every task of the worker and no other |
| `DownloadDb.Db.RequestControl` | packages/db/src/repositories/downloads.ts:367-383 | records a request for a running task; a cancellation is not taken back |
| `DownloadDb.Db.ForgetProgress` | packages/db/src/repositories/downloads.ts:292-296 | a reset drops rows, progress and reservation of that task only, within the pool bound |
| `SpaceAccounts.Accounts.Serve` | apps/downloader/src/db.rs:534-652 | any sequence of calls by any workers for any tasks is a history of the machine and leaves the tables as that history does; so every pool is within the room of its latest grant, and every task whose segments were granted space, with no later plan or single-stream grant that took effect, has reserved plus received equal to the total as long as it has rows and a reservation |
| `SpaceAccounts.HistoriesBalance` | apps/downloader/src/db.rs:534-652 | the same of every history of the machine |
| `SpaceAccounts.CheckpointsBalance` | apps/downloader/src/db.rs:571-612 | after every history, an owned forward checkpoint leaves received equal to the sum over the rows, and exactly the missing bytes reserved if there is a reservation |
| `SpaceAccounts.PlansBalanceExactly` | apps/downloader/src/db.rs:534-569 | after every history, a plan that takes effect leaves the task balanced if and only if no reservation is left over or it is exactly what the plan misses |
| `SpaceAccounts.HistoriesKeepInv` | apps/downloader/src/db.rs:326-894 | the invariant behind these holds after every call of every history, for exactly the tasks that the history has settled |
| `SpaceAccounts.StepInv` | apps/downloader/src/db.rs:326-894 | each single call keeps it |
| `SpaceAccounts.GrantInv` | apps/downloader/src/download.rs:633-646 | a grant for the stored rows settles its task within the pool's room |
| `SpaceAccounts.StoreInv` | apps/downloader/src/download.rs:762-833 | a checkpoint keeps it, and the missing bytes are what is reserved |
| `SpaceAccounts.Accounts.Perform` | apps/downloader/src/download.rs:591-706 | each single call leaves the tables as the machine's call does, and settles or unsettles exactly the task that the machine's call does |
| `SpaceAccounts.Accounts.Plan` | apps/downloader/src/download.rs:612-630 | the planner's list is a plan of the machine, and storing it is the machine's call: an owned task loses its grant with its rows, and anything else changes nothing |
| `SpaceAccounts.Accounts.ReserveSegments` | apps/downloader/src/download.rs:633-646 | is the machine's call: a grant reserves exactly what the stored rows miss, a refusal changes nothing |
| `SpaceAccounts.Accounts.StoreCursor` | apps/downloader/src/download.rs:762-833 | an owned forward checkpoint of the run's own segment is the machine's call, and leaves reserved plus received equal to the total if there is a reservation |
| `SpaceAccounts.CheckpointRow` | apps/downloader/src/db.rs:571-612 | the rows a run remembers stay the stored rows, and stay balanced |
| `SpaceAccounts.AfterKeeps` | apps/downloader/src/db.rs:654-894 | publication, recovery, failure and control calls keep one task's rows in order |
| `SpaceAccounts.ReplanUnbalances` | apps/downloader/src/db.rs:773-794 | a history for a file of one MiB after which they are not: a single stream reserves and journals, recovery releases the task, and another run plans segments |
| `Publication.RunsAreSafe` | apps/downloader/src/download.rs:172-386 | over all runs with crashes, power failures, expired leases, cancellations and recovery: a file renamed to its target stays there, unless a power failure undoes a rename not yet synced, and is journaled under its identity or its task is completed; a completed task has no journal and one operation row |
| `Publication.RunsKeepInv` | apps/downloader/src/download.rs:891-951 | the invariant behind it holds after every step of every run |
| `Publication.StepInv` | apps/downloader/src/download.rs:352-386 | each single step of worker, recovery pass or user keeps it |
| `Publication.RenameInv` | apps/downloader/src/storage.rs:223-241 | the rename that never replaces keeps it |
| `Publication.SyncInv` | apps/downloader/src/storage.rs:235-237 | so does the sync of the directory, after which no failure undoes the rename |
| `Publication.OutageInv` | apps/downloader/src/storage.rs:223-237 | so does a power failure, whether or not it undoes an unsynced rename |
| `Publication.LookInv` | apps/downloader/src/download.rs:891-951 | so does a recovery pass whichever files it finds |
| `Publication.FinalizeInv` | apps/downloader/src/db.rs:698-771 | so does finalization by the worker or by recovery |
| `Publication.ReleaseRowInv` | apps/downloader/src/db.rs:773-794 | so does releasing a task whose file was never renamed |
| `Publication.ClaimInv` | apps/downloader/src/db.rs:397-415 | so does a claim by another worker |
| `Publication.CompletedForever` | apps/downloader/src/db.rs:698-771 | once completed, task, target and its one operation row never change again |
| `Publication.CompletedStep` | apps/downloader/src/db.rs:773-836 | no single step changes a completed task |
| `Publication.DropJournalExact` | apps/downloader/src/db.rs:773-814 | dropping a journal row loses no file if and only if the target is not the journaled file |
| `Publication.UnlinkExact` | apps/downloader/src/download.rs:224-243 | removing an existing partial keeps the invariant if and only if no run short of its rename and no pass holds its lock |
| `Publication.StaleCancelLosesFile` | apps/downloader/src/download.rs:880-889 | a run of the program in which a worker without a lease removes another worker's partial, after which a file is published that no journal row and no completed task accounts for |
| `Publication.StoppingInv` | apps/downloader/src/download.rs:224-243 | a run that saw a control request gives up its lock before it unlinks and before it finishes, and may crash in between |
| `Publication.SplitReadLosesFile` | apps/downloader/src/download.rs:891-951 | a run in which reading the two identities at different instants loses a published file |
| `Publication.StaleFailUndoesCompletion` | apps/downloader/src/db.rs:796-814 | a run in which acting on an old look turns a completed task into a failed one |
| `Transfer.TransferIsFaithful` | apps/downloader/src/download.rs:591-834 | over all runs of writes, syncs, checkpoints, power losses, stops, resumes, resets and removals of the partial: as long as there is a partial, every byte the database counts is durable and equals the source; and what reaches publication is the whole source |
| `Transfer.RunsKeepInv` | apps/downloader/src/download.rs:388-834 | the invariant behind it holds after every step of every run |
| `Transfer.StepInv` | apps/downloader/src/download.rs:388-834 | each single step keeps it |
| `Transfer.FinishedRowsAreACopy` | apps/downloader/src/download.rs:591-706 | when every cursor is at its end the durable file equals a sequential copy |
| `Transfer.ArrivedIsSource` | apps/downloader/src/download.rs:809-833 | when every segment has arrived the file is the source |
| `Transfer.StoreCursorInv` | apps/downloader/src/db.rs:571-612 | a checkpoint claims only synced bytes |
| `Transfer.OpenInv` | apps/downloader/src/download.rs:631-632 | giving the file its length keeps every byte that the stored rows claim |
| `Transfer.CountRowsInv` | apps/downloader/src/download.rs:633-671 | a run that resumes from stored rows counts nothing that is not on disk, also when it ends between the two |
| `Transfer.PlanInv` | apps/downloader/src/download.rs:601-630 | keeping rows, keeping a prefix and planning anew claim only what is held |
| `Transfer.ResetInv` | apps/downloader/src/db.rs:492-512 | so does a crash between the reset of the progress and the new plan |
| `Transfer.ForgetInv` | apps/api/src/routes/downloads.ts:185-196 | so do the removal of the partial, which leaves the count, and the reset when a task is tried again |
| `Transfer.StartSingleInv` | apps/downloader/src/download.rs:388-495 | a single stream resumes only behind durable source bytes, also over segment rows that leave no gap |
| `Transfer.PlanTransfer` | apps/downloader/src/download.rs:612-630 | a first segmented run keeps exactly the single stream's prefix |
| `Transfer.SingleResumeExact` | apps/downloader/src/download.rs:388-495 | resuming a segmented file as one stream at its received count yields the source, for every file the rows allow, if and only if the rows are one unbroken prefix |
| `Transfer.MixedModesGoWrong` | apps/downloader/src/download.rs:396-416 | a run whose rows leave a gap, after which the program's single stream publishes a file other than the source |
| `Transfer.StartOnEmptyExact` | apps/downloader/src/download.rs:396-409 | a single stream started on an empty partial keeps the invariant if and only if nothing is counted |
| `Transfer.PlanOnEmptyExact` | apps/downloader/src/download.rs:612-630 | and so does a plan for segments |
| `Transfer.StartOnEmptyGoesWrong` | apps/downloader/src/download.rs:396-409 | a run of the program that starts a single stream there with a byte counted, loses power and publishes a file other than the source |
| `Transfer.PlanOnEmptyGoesWrong` | apps/downloader/src/download.rs:612-632 | a run that plans segments there, ends after giving the file its length, and is resumed as one stream over the zeros |
| `Transfer.SourceChangeMixes` | apps/downloader/src/download.rs:591-706 | a run in which a source replaced between two attempts yields a file that is neither version |
| `SegmentLoop.Download.DownloadSegment` | apps/downloader/src/download.rs:707-834 | the loop's execution, under any events, is a run of the transfer machine that touches only its segment; without error and without a stop the segment is stored and durable |
| `Delivery.DeliveredIsSource` | apps/downloader/src/download.rs:269-386 | over all runs of workers, recovery passes, users and power failures, with the count of a removed partial left as the program leaves it: the file at the target of a completed task is the one a run renamed there and is byte for byte the source |
| `Delivery.RunsKeepInv` | apps/downloader/src/download.rs:269-386 | the invariant behind it holds after every step of every run |
| `Delivery.StepInv` | apps/downloader/src/download.rs:269-386 | each single step keeps it |
| `Delivery.ReadyIsAlone` | apps/downloader/src/storage.rs:128-157 | while a run has a file ready, nobody else removes the partial, takes its lock or has one |
| `Delivery.LoseInv` | apps/downloader/src/download.rs:591-834 | a power failure that ends every process, and may undo a rename not yet synced, keeps it |
| `Delivery.BackInv` | apps/downloader/src/storage.rs:223-237 | a rename that is undone puts back a partial that is wholly the source, whatever the rows count |
| `Delivery.RetryInv` | apps/api/src/routes/downloads.ts:185-196 | requeueing a task with a reset of its progress keeps it |
| `Delivery.NoneOwns` | apps/downloader/src/db.rs:492-612 | between the rename and its sync no run still transferring owns the task, so none of its stores takes effect |
| `Delivery.StaleProgress` | apps/downloader/src/download.rs:224-243 | a run of the machine in which a cancelled worker removes the partial and crashes, recovery fails the task and the user requeues it: the count is left and the file is gone |
| `Delivery.StaleProgressGoesWrong` | apps/downloader/src/download.rs:396-409 | from there the program's next single stream, cut by a power failure, ends in the publication of a file other than the source |
| `ContentRange.ValueOfPrint` | apps/downloader/src/download.rs:1161-1176 | decimal printing and reading are inverse |
| `ContentRange.ParsePrintU64` | apps/downloader/src/download.rs:1161-1176 | every 64-bit number survives printing and parsing |
| `ContentRange.ParsePrint` | apps/downloader/src/download.rs:1161-1176 | parsing inverts printing for every start <= end < total |
| `ContentRange.ParseExact` | apps/downloader/src/download.rs:1161-1176 | a header is accepted as a range if and only if it spells that range and the range is within bounds |
| `ContentRange.SegmentResponseExact` | apps/downloader/src/download.rs:722-755 | a response is accepted for a segment if and only if it is partial content whose header spells exactly the remaining bytes, and these lie in the file |
| `ContentRange.SegmentResponseAccepted` | apps/downloader/src/download.rs:1139-1159 | the header a correct server sends for those bytes is accepted |
| `Paths.AncestorIsPrefix` | apps/indexer/src/watcher.rs:134-140 | the text test decides the component prefix relation |
| `Paths.TextInjective` | apps/indexer/src/watcher.rs:113-120 | distinct paths have distinct texts |
| `Paths.AncestorTransitive` | apps/indexer/src/watcher.rs:134-140 | the ancestor test is transitive |
| `Paths.AncestorAntisymmetric` | apps/indexer/src/watcher.rs:134-140 | and antisymmetric |
| `Watcher.PendingIsTopmost` | apps/indexer/src/watcher.rs:122-132 | folding events gives exactly the events that no other event covers, sorted and without repetition |
| `Watcher.PendingIsAntichain` | apps/indexer/src/watcher.rs:122-132 | no pending path covers another |
| `Watcher.PendingCovers` | apps/indexer/src/service.rs:281-310 | the pending paths cover exactly what the events cover |
| `Watcher.PendingIsCanonical` | apps/indexer/src/service.rs:281-310 | the result depends only on the set of events, not their order or number |
| `Watcher.AnyCovers` | apps/indexer/src/watcher.rs:122-126 | finds out whether a pending path covers the candidate |
| `Watcher.RetainOthers` | apps/indexer/src/watcher.rs:127-129 | keeps exactly the paths that the candidate does not cover |
| `Watcher.PendingPaths.MergeAncestor` | apps/indexer/src/watcher.rs:122-132 | the in-place update keeps the list equal to the fold of all events so far |
| `Watcher.PendingPaths.Take` | apps/indexer/src/service.rs:276-313 | hands out the fold of all events and starts anew |
| `IndexQueue.DownloadedIsEnqueue` | apps/downloader/src/db.rs:753-761 | the downloader's own upsert equals an incremental, non-recursive enqueue at priority 50 on every row |
| `IndexQueue.CoalesceIsJoin` | apps/indexer/src/db.rs:866-890 | repeated enqueues of a key compute the join of recursive, kind and priority, and the generation counts them |
| `IndexQueue.CoalesceOrder` | apps/indexer/src/db.rs:866-890 | in whatever order they come |
| `IndexQueue.QueueDb.Enqueue` | apps/indexer/src/db.rs:866-890 | upserts the one row of the key |
| `IndexQueue.QueueDb.Claim` | apps/indexer/src/db.rs:366-416 | requeues lapsed rows, then claims the first ready row in order, or reports that none is ready |
| `IndexQueue.QueueDb.Complete` | apps/indexer/src/db.rs:444-453 | deletes the row only if id, generation and worker still match |
| `IndexRequests.NoRequestIsLost` | apps/indexer/src/service.rs:200-247 | over all runs with re-enqueues during a scan, lapsed leases, retries and clean-up of failed rows: each request has a row that covers it, or a scan claimed after it and covering it finished cleanly |
| `IndexRequests.RunsKeepInv` | apps/indexer/src/service.rs:113-143 | the invariant behind it holds after every step of every run |
| `IndexRequests.StepInv` | apps/indexer/src/db.rs:366-493 | each single step keeps it |
| `IndexRequests.CompleteInv` | apps/indexer/src/db.rs:444-453 | completion keeps it |
| `IndexRequests.DropInv` | apps/indexer/src/db.rs:660-701 | clean-up of failed rows keeps it |
| `IndexRequests.TwoWorkersLoseARequest` | apps/indexer/src/db.rs:660-701 | a run of two indexers in which the clean-up loses a request |
| `IndexFiles.CacheAgrees` | apps/indexer/src/db.rs:525-701 | after every sequence of calls a ready or skipped row has exactly one content row, equal to the extraction at its identity, and no content row is orphaned |
| `IndexFiles.PublishKeepsCache` | apps/indexer/src/db.rs:525-577 | publishing keeps this |
| `IndexFiles.ErrorKeepsCache` | apps/indexer/src/db.rs:579-627 | recording an extraction error keeps this and alters no stored body |
| `IndexFiles.TouchKeepsCache` | apps/indexer/src/db.rs:629-646 | so does touching a generation |
| `IndexFiles.DeleteKeepsCache` | apps/indexer/src/db.rs:892-942 | so does deleting any set of rows |
| `IndexFiles.ProcessKeepsCache` | apps/indexer/src/scanner.rs:285-393 | so does processing a file, whether cached, read or failing |
| `IndexFiles.RescanFreshensExactly` | apps/indexer/src/scanner.rs:285-393 | a rescan leaves the row ready or skipped exactly unless it was cached at that identity in another state; a cached row's content is not touched |
| `IndexFiles.StaleBodyStays` | apps/indexer/src/db.rs:579-627 | a history after which a rescan leaves a body of an older identity |
| `IndexFiles.IndexDb.Publish` | apps/indexer/src/db.rs:525-577 | the tables after it are those of the specification |
| `IndexFiles.IndexDb.RecordExtractionError` | apps/indexer/src/db.rs:579-627 | the same, and it writes only file rows |
| `IndexFiles.IndexDb.Touch` | apps/indexer/src/db.rs:629-646 | the same |
| `IndexFiles.IndexDb.RemovePath` | apps/indexer/src/db.rs:648-658 | removes exactly the selected rows with their content and counts them |
| `IndexFiles.IndexDb.CleanupGeneration` | apps/indexer/src/db.rs:660-701 | removes exactly the rows under the path that the generation did not reach, and counts them |
| `IndexFiles.IndexDb.Process` | apps/indexer/src/scanner.rs:285-393 | the tables after it are those of the specification, and it reports a failure exactly when there was one |
| `Scanner.LeavesExact` | apps/indexer/src/scanner.rs:82-234 | the traversal's leaves are exactly the regular files with no ignored directory above them |
| `Scanner.LeavesMeaning` | apps/indexer/src/scanner.rs:82-234 | and so are their path texts |
| `Scanner.CleanupExact` | apps/indexer/src/db.rs:660-701 | after the clean-up the rows under the target are exactly the scanned files at their identities, the others are as before |
| `Scanner.Scan.Run` | apps/indexer/src/scanner.rs:82-234 | a successful recursive scan leaves exactly the traversal's leaves under the target, each at its present identity; an error or a stop between any two entries removes no row; rows outside are untouched |
| `Scanner.ScanDirectory` | apps/indexer/src/scanner.rs:143-234 | from a tree: after a successful recursive scan a path under the target has a row if and only if it is a regular file with no ignored directory above it, at its present identity; a scan that fails or is stopped removes no row; rows outside are untouched |
| `Scanner.ExactlyIndexable` | apps/indexer/src/scanner.rs:143-234 | rows that are the leaves of a recursive scan are exactly the indexable files |
| `Scanner.Scan.Traverse` | apps/indexer/src/scanner.rs:147-208 | unless it is stopped, the work list is worked off: every leaf is finished or in flight, or a failure is on record |
| `Scanner.Scan.Drain` | apps/indexer/src/scanner.rs:209-211 | then every leaf is finished |
| `Scanner.Scan.Cleanup` | apps/indexer/src/scanner.rs:229-233 | the clean-up leaves exactly the leaves under the target |
| `Scanner.Scan.Visit` | apps/indexer/src/scanner.rs:166-206 | one entry moves from the work still to be listed to the queue, the pending set or the finished files, and none is dropped |
| `Scanner.Scan.Start` | apps/indexer/src/scanner.rs:188-205 | a file joins the set of pending files, and one of them is finished when the set is full; no file is dropped |
| `Scanner.Scan.List` | apps/indexer/src/scanner.rs:156-208 | the whole listing of a directory is visited, unless the scan is stopped |
| `Scanner.IgnoredAncestor` | apps/indexer/src/scanner.rs:252-267 | returns the shortest prefix that ends in an ignored name, or nothing exactly if there is none |
| `Scanner.ScanPath` | apps/indexer/src/scanner.rs:94-141 | what a scan of a single path does when it is ignored, a file, missing or unreadable |
| `PhotoRows.OwnerExcludesRecovery` | apps/photostaff/src/db.rs:1014-1040 | at no instant may both a worker and recovery resolve a journal row |
| `PhotoScan.ChildAt` | apps/photostaff/src/worker.rs:259-300 | a listed name is what discovery takes it for: links, unreadable folders and other files are passed over |
| `PhotoScan.DoneIsExact` | apps/photostaff/src/worker.rs:239-307 | once no directory entry is open, the entries are exactly what the library holds |
| `PhotoDb.Db.ClaimJob` | apps/photostaff/src/db.rs:301-328 | takes the job over exactly if it is queued, due or lapsed, and reopens what was in progress |
| `PhotoDb.Db.ClaimEntry` | apps/photostaff/src/db.rs:355-379 | finds the first claimable entry of the kind in text order, or there is none |
| `PhotoDb.Db.AddScanEntry` | apps/photostaff/src/db.rs:381-405 | adds an entry once, sidecars as completed, for the owner only |
| `PhotoDb.Db.CompleteEntry` | apps/photostaff/src/db.rs:407-429 | completes an entry and counts it, for the owner only |
| `PhotoDb.Db.SkipEntry` | apps/photostaff/src/db.rs:481-491 | skips an entry, for the owner only |
| `PhotoDb.Db.MarkCurrentIfUnchanged` | apps/photostaff/src/db.rs:530-557 | moves a ready, unchanged asset to the job's generation, and says whether it did |
| `PhotoDb.Db.BeginPublish` | apps/photostaff/src/db.rs:688-710 | opens a journal row, refused while the path has one or the lease is lost |
| `PhotoDb.Db.AbortJournal` | apps/photostaff/src/db.rs:764-796 | resolves a row at most once, by its owner or by recovery of a job nobody holds |
| `PhotoDb.Db.CompletePublish` | apps/photostaff/src/db.rs:904-1012 | the same with asset, entry and counters, and says whether this call did it |
| `PhotoDb.Db.FinishJob` | apps/photostaff/src/db.rs:817-842 | refused while an entry is open; a full scan drops exactly the library's assets of other generations |
| `PhotoDb.AddChildren` | apps/photostaff/src/worker.rs:259-302 | the inner loop gives every child that counts its entry and leaves the others alone |
| `PhotoDb.ListDirectory` | apps/photostaff/src/worker.rs:247-305 | one turn settles its directory, or stops with entries a later run can go on from |
| `PhotoDb.DiscoverNext` | apps/photostaff/src/worker.rs:239-305 | the next open directory is settled, or there is none, or the loop stops with sound entries |
| `PhotoDb.Discover` | apps/photostaff/src/worker.rs:239-307 | undisturbed, from whatever entries an earlier run left, a discovery that returns without error ends with exactly the library's entries; one that stops early keeps them sound; it terminates |
| `PhotoProtocol.FinishedScans` | apps/photostaff/src/db.rs:817-842 | over all runs with crashes and re-claims: a job that finishes has exactly the library's entries, none open; every completed medium keeps its asset; only assets of the library without a completed entry are deleted |
| `PhotoProtocol.JournalsResolveOnce` | apps/photostaff/src/worker.rs:628-673 | over all runs: each publication begun is in flight, completed once or aborted once, never two of these; one per path; the processed counter is the number of completions |
| `PhotoProtocol.FencedOut` | apps/photostaff/src/db.rs:1014-1029 | from the moment a worker no longer holds the job until it claims it again, the run is row for row the run in which it does nothing |
| `PhotoProtocol.ClaimFences` | apps/photostaff/src/db.rs:301-339 | in particular after another worker's claim |
| `PhotoProtocol.StaleStep` | apps/photostaff/src/db.rs:1014-1029 | no step of a worker that does not hold the job reaches a row |
| `PhotoProtocol.OtherStep` | apps/photostaff/src/worker.rs:310-541 | no step of another worker depends on what it remembers |
| `PhotoProtocol.RunsKeepInv` | apps/photostaff/src/worker.rs:157-541 | the invariant behind these holds after every step of every run |
| `PhotoProtocol.StepInv` | apps/photostaff/src/worker.rs:157-541 | each single step keeps it |
| `PhotoProtocol.CloseDirectoryInv` | apps/photostaff/src/worker.rs:303-305 | a directory is completed only with all its children entered |
| `PhotoProtocol.CompleteMarkedInv` | apps/photostaff/src/worker.rs:389-403 | a medium completed without publication has an asset of the job's generation |
| `PhotoProtocol.Completion` | apps/photostaff/src/db.rs:904-1012 | completing a publication keeps it, whoever does it |
| `PhotoProtocol.Abortion` | apps/photostaff/src/db.rs:764-796 | and so does aborting one |
| `PhotoProtocol.ForeignWriteExact` | apps/photostaff/src/db.rs:817-842 | a write by another job costs a completed medium its asset at the end of a scan if and only if the scan is full and the row then carries another generation of the library |
| `PhotoWorker.Service.RunJob` | apps/photostaff/src/worker.rs:98-130 | with any other workers, recovery and the clock at work between any two of its calls, what the worker does is a run of the protocol and leaves the tables as that run does; it ends with a job finished well from the rows just before its last step, with the job given back, idle because no job could be claimed, or with the process over |
| `PhotoWorker.Service.Work` | apps/photostaff/src/worker.rs:157-237 | initialization, discovery, processing and the end of a job end in an error or in a scan finished well, measured against the rows just before the last step of the run |
| `PhotoWorker.Service.Turn` | apps/photostaff/src/worker.rs:174-193 | others go on and the lease may be renewed; the worker's own place does not change |
| `PhotoWorker.Service.Initialize` | apps/photostaff/src/worker.rs:171 | the scan starts with its root entered, once, or the run has lost its lease |
| `PhotoWorker.Service.Discover` | apps/photostaff/src/worker.rs:239-307 | the loop leaves discovery only when no directory can be claimed |
| `PhotoWorker.Service.ListDirectory` | apps/photostaff/src/worker.rs:247-305 | a directory is closed only after each of its names was looked at |
| `PhotoWorker.Service.ProcessEntries` | apps/photostaff/src/worker.rs:310-359 | it ends without error only with no medium under way |
| `PhotoWorker.Service.Advance` | apps/photostaff/src/worker.rs:361-541 | each medium goes through open, compare, process, publish, abort and fail in the protocol's order, interleaved with the others in any way |
| `PhotoWorker.Service.FinishJob` | apps/photostaff/src/db.rs:817-842 | a job that is finished is finished well |
| `PhotoWorker.Service.GiveBack` | apps/photostaff/src/worker.rs:119-128 | after an error or at shutdown the worker no longer holds the job |
| `PhotoWorker.Service.RecoverJournals` | apps/photostaff/src/worker.rs:628-673 | recovery only takes the protocol's recovery steps, whatever others do meanwhile |
| `PhotoWorker.Service.RecoverRow` | apps/photostaff/src/worker.rs:628-673 | without error the row is resolved, or its job is in other hands again |
| `BoundedRead.ReadBounded` | apps/photostaff/src/command.rs:218-256 | for every chunking: exactly the first bytes up to the limit with overflow if and only if there were more, or exactly the last ones, whose flag also rises for a single chunk of exactly the limit |
| `BoundedRead.TailFlagExact` | apps/photostaff/src/command.rs:145-152 | with a limit above the buffer size the tail flag, too, is set if and only if there were more bytes |
| `BoundedRead.ReadLimited` | apps/indexer/src/extractor.rs:261-282 | for every chunking: the same bytes and flag as the prefix mode |
| `ManifestPaths.NormalShape` | apps/backup/src/backup.ts:504-516 | the normal form of a path is its climbs above the start, then names only |
| `ManifestPaths.ResolveExact` | apps/backup/src/backup.ts:504-516 | a manifest path is accepted if and only if it is relative and no beginning of it climbs above the staging directory; then it leads to a proper path below it |
| `ManifestPaths.ResolveText` | apps/backup/src/backup.ts:402-420 | the text recorded for a path leads back to that path |
| `Manifest.Collector.Walk` | apps/backup/src/backup.ts:402-420 | the recursive walk adds exactly the checksums of the directory to the record |
| `Manifest.SumsExact` | apps/backup/src/backup.ts:402-420 | the record has a key for exactly the regular files reached through directories, save the manifest, with their hashes |
| `Manifest.CreateManifest` | apps/backup/src/backup.ts:387-399 | a manifest lists the roots, the database and those checksums |
| `Manifest.ValidateManifest` | apps/backup/src/backup.ts:465-502 | accepts a manifest if and only if roots, database entry, every hash, every path and every file are in order |
| `Manifest.AcceptsExactly` | apps/backup/src/backup.ts:465-502 | a manifest made from a staging directory with the database is accepted, under the same roots, by exactly the copies that hold every listed file with the same hash |
| `Manifest.FaithfulCopyAccepted` | apps/backup/src/backup.ts:465-502 | in particular by a faithful copy |
| `Backup.RunWithRetry` | apps/backup/src/backup.ts:526-532 | returns the first attempt that exits with zero, or the last one allowed |
| `Backup.RetriedExact` | apps/backup/src/backup.ts:526-532 | it succeeds if and only if one of the allowed attempts does |
| `Backup.CheckRoots` | apps/backup/src/backup.ts:144-154 | each root is found mounted or missing, once |
| `Backup.SaveRoots` | apps/backup/src/backup.ts:165-184 | each root is saved or failed, once, each failure with its code, and ids and totals are those of the saved roots |
| `Backup.UniqueExact` | apps/backup/src/backup.ts:199 | repeated ids are dropped, and nothing else |
| `Backup.RunBackup` | apps/backup/src/backup.ts:105-243 | completes if and only if no root failed, every snapshot taken is visible, the weekly upkeep went through and neither lock nor row was lost; otherwise it reports each failed root once with its code, or stops |

## Left out

- HTTP, DNS, TLS, redirects and probing: a validated range response is taken to deliver the source's bytes.
- SQL text and the write-ahead log: tables are maps and each database call is one step.
- Timestamps as text, and the retry delays (`retry_delay`), which no other property depends on.
- Path normalisation against mount points in apps/downloader/src/storage.rs, file locks and `openat2`: only "one lock on the partial" and "rename never replaces" are kept.
- Deletion of download tasks by the API, and the concurrency limit of the downloader.
- `copy_legacy_batch`, reconciliation scheduling and watcher set-up in the indexer; rows of old schemas without an identity.
- Paths with a backslash, which the indexer rewrites, and names that are not valid text.
- Photo metadata, derivatives and their clean-up, sidecar matching (its result is part of the opaque source identity), photo space reservations and phase texts.
- Changes of the photo library setting while a job runs, which delete all assets at once.
- The heartbeat rows of workers and the phase texts of jobs.
- The lock, the database snapshot and the copying of the trash directory in a backup, restoring itself, and the search for the manifest file.
- A restic runner that throws instead of returning an exit code.
- `Backup.RunBackup`: does not model the code and text recorded for a run that stops.
- `Transfer.StartSingleInv`: does not cover a resume over segment rows with a gap, nor a start on an empty partial with bytes counted, for which it is false; `Transfer.SingleResumeExact` and `Transfer.MixedModesGoWrong` cover the one, `Transfer.StartOnEmptyExact` and `Transfer.StartOnEmptyGoesWrong` the other.
- `Transfer.PlanInv`: does not cover a plan on an empty partial with bytes counted, for which it is false; `Transfer.PlanOnEmptyExact` and `Transfer.PlanOnEmptyGoesWrong` cover it.
- `Publication.RunsAreSafe`: does not cover the removal of a partial whose lock is held, for which it is false; `Publication.UnlinkExact` and `Publication.StaleCancelLosesFile` cover it.
