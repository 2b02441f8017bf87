/** The rows of one photo job and what each database call does to them (apps/photostaff/src/db.rs). */
module PhotoRows {
  import opened Base
  import opened Paths

  type Time = int
  type Worker = nat

  datatype JobStatus = Queued | Running | Retrying | Done | Broken

  datatype Job = Job(
    status: JobStatus,
    worker: Option<Worker>,
    lease: Option<Time>,
    retryAt: Option<Time>,
    retries: nat,
    fullScan: bool,
    generation: nat,
    library: nat,
    scanned: nat,
    processed: nat,
    failed: nat)

  datatype EntryKind = Directory | Media | Sidecar

  datatype EntryStatus = Pending | Processing | Completed | Failed | Skipped

  /** `retryAt` is set on a failed entry that may be tried again. */
  datatype Entry = Entry(kind: EntryKind, status: EntryStatus, retryAt: Option<Time>)

  /** `source` stands for the identities of the media file and its sidecar. */
  datatype Asset = Asset(generation: nat, library: nat, ready: bool, source: nat)

  datatype Record = Record(path: Path, source: nat)

  /** One job, its scan entries, its publication journal, and the asset table. */
  datatype Store = Store(
    job: Job,
    entries: map<Path, Entry>,
    journal: map<nat, Record>,
    assets: map<Path, Asset>)

  // ----- fences

  /** `ensure_job_owned`. */
  predicate Owned(job: Job, worker: Worker, now: Time) {
    job.status == Running && job.worker == Some(worker) && job.lease.Some? && job.lease.value > now
  }

  /** `job_recoverable`. */
  predicate Recoverable(job: Job, now: Time) {
    job.status != Running || job.lease.None? || job.lease.value <= now
  }

  /** At no instant may both a worker and recovery resolve a journal. */
  lemma OwnerExcludesRecovery(job: Job, worker: Worker, now: Time)
    ensures !(Owned(job, worker, now) && Recoverable(job, now))
  {}

  /** Who may resolve a journal row: its owner, or recovery. */
  predicate MayResolve(job: Job, worker: Option<Worker>, now: Time) {
    match worker
    case Some(w) => Owned(job, w, now)
    case None => Recoverable(job, now)
  }

  // ----- the job

  predicate Claimable(job: Job, now: Time) {
    || job.status == Queued
    || (job.status == Retrying && job.retryAt.Some? && job.retryAt.value <= now)
    || (job.status == Running && (job.lease.None? || job.lease.value <= now))
  }

  /** Entries that were being processed go back to `pending`. */
  function Reopened(entries: map<Path, Entry>): map<Path, Entry> {
    map p | p in entries :: if entries[p].status == Processing then entries[p].(status := Pending) else entries[p]
  }

  function ClaimJob(s: Store, worker: Worker, now: Time, until: Time): Store {
    if !Claimable(s.job, now) then s
    else s.(job := s.job.(status := Running, worker := Some(worker), lease := Some(until), retryAt := None), entries := Reopened(s.entries))
  }

  /** What a claim that picks another job does to this one. */
  function RequeueExpired(s: Store, now: Time): Store {
    if s.job.status == Running && (s.job.lease.None? || s.job.lease.value <= now)
    then s.(job := s.job.(status := Queued, worker := None, lease := None))
    else s
  }

  function RenewLease(s: Store, worker: Worker, until: Time): Store {
    if s.job.status == Running && s.job.worker == Some(worker) then s.(job := s.job.(lease := Some(until))) else s
  }

  predicate Unfinished(e: Entry) { e.status == Pending || e.status == Processing }

  predicate AllFinished(entries: map<Path, Entry>) { forall p | p in entries :: !Unfinished(entries[p]) }

  /** Assets of the job's library that its scan generation did not reach. */
  predicate Outdated(job: Job, asset: Asset) {
    job.fullScan && asset.library == job.library && asset.generation != job.generation
  }

  function FinishJob(s: Store, worker: Worker, now: Time): Store {
    if !Owned(s.job, worker, now) || !AllFinished(s.entries) then s
    else s.(job := s.job.(status := Done, worker := None, lease := None, retryAt := None),
            assets := map p | p in s.assets && !Outdated(s.job, s.assets[p]) :: s.assets[p])
  }

  function RetryOrFailJob(s: Store, worker: Worker, retry: Option<Time>): Store {
    if s.job.worker != Some(worker) then s
    else s.(job := s.job.(status := if retry.Some? then Retrying else Broken, retries := s.job.retries + 1, retryAt := retry,
                          worker := None, lease := None))
  }

  function ReleaseWorker(s: Store, worker: Worker): Store {
    if s.job.worker != Some(worker) then s
    else s.(entries := Reopened(s.entries),
            job := if s.job.status == Running then s.job.(status := Queued, worker := None, lease := None) else s.job)
  }

  // ----- entries

  function InitializeScan(s: Store, worker: Worker, now: Time, root: Path): Store {
    if !Owned(s.job, worker, now) || root in s.entries then s
    else s.(entries := s.entries[root := Entry(Directory, Pending, None)])
  }

  predicate EntryClaimable(e: Entry, now: Time) {
    e.status == Pending || (e.status == Failed && e.retryAt.Some? && e.retryAt.value <= now)
  }

  function ClaimEntry(s: Store, worker: Worker, now: Time, path: Path): Store {
    if !Owned(s.job, worker, now) || path !in s.entries || !EntryClaimable(s.entries[path], now) then s
    else s.(entries := s.entries[path := s.entries[path].(status := Processing)])
  }

  function AddEntry(s: Store, worker: Worker, now: Time, path: Path, kind: EntryKind): Store {
    if !Owned(s.job, worker, now) || path in s.entries then s
    else s.(entries := s.entries[path := Entry(kind, if kind == Sidecar then Completed else Pending, None)])
  }

  function SetStatus(entries: map<Path, Entry>, path: Path, status: EntryStatus, retryAt: Option<Time>): map<Path, Entry> {
    if path in entries then entries[path := entries[path].(status := status, retryAt := retryAt)] else entries
  }

  function CompleteEntry(s: Store, worker: Worker, now: Time, path: Path, processed: bool): Store {
    if !Owned(s.job, worker, now) then s
    else s.(entries := SetStatus(s.entries, path, Completed, None),
            job := s.job.(scanned := s.job.scanned + 1, processed := s.job.processed + if processed then 1 else 0))
  }

  function SkipEntry(s: Store, worker: Worker, now: Time, path: Path): Store {
    if !Owned(s.job, worker, now) || path !in s.entries then s
    else s.(entries := s.entries[path := s.entries[path].(status := Skipped)])
  }

  function FailEntry(s: Store, worker: Worker, now: Time, path: Path, retry: Option<Time>): Store {
    if !Owned(s.job, worker, now) then s
    else s.(entries := SetStatus(s.entries, path, Failed, retry), job := s.job.(failed := s.job.failed + 1))
  }

  // ----- assets and publication

  predicate Unchanged(s: Store, path: Path, source: nat) {
    path in s.assets && s.assets[path].ready && s.assets[path].source == source
  }

  function MarkCurrent(s: Store, worker: Worker, now: Time, path: Path, source: nat): Store {
    if !Owned(s.job, worker, now) || !Unchanged(s, path, source) then s
    else s.(assets := s.assets[path := s.assets[path].(generation := s.job.generation)])
  }

  function RecordFailedAsset(s: Store, worker: Worker, now: Time, path: Path, source: nat): Store {
    if !Owned(s.job, worker, now) then s
    else s.(assets := s.assets[path := Asset(s.job.generation, s.job.library, false, source)])
  }

  predicate InFlight(journal: map<nat, Record>, path: Path) { exists op | op in journal :: journal[op].path == path }

  function BeginPublish(s: Store, worker: Worker, now: Time, operation: nat, record: Record): Store {
    if !Owned(s.job, worker, now) || InFlight(s.journal, record.path) then s
    else s.(journal := s.journal[operation := record])
  }

  function AbortJournal(s: Store, worker: Option<Worker>, now: Time, operation: nat, requeue: bool): Store {
    if operation !in s.journal || !MayResolve(s.job, worker, now) then s
    else
      var path := s.journal[operation].path;
      s.(journal := s.journal - {operation},
         entries := if requeue && path in s.entries then s.entries[path := s.entries[path].(status := Pending)] else s.entries)
  }

  function CompletePublish(s: Store, worker: Option<Worker>, now: Time, operation: nat): Store {
    if operation !in s.journal || !MayResolve(s.job, worker, now) then s
    else
      var record := s.journal[operation];
      s.(assets := s.assets[record.path := Asset(s.job.generation, s.job.library, true, record.source)],
         entries := SetStatus(s.entries, record.path, Completed, None),
         job := s.job.(scanned := s.job.scanned + 1, processed := s.job.processed + 1),
         journal := s.journal - {operation})
  }
}
