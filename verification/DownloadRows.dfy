/** The rows one download task owns, and what each database call does to them
    (apps/downloader/src/db.rs). A call that changes several tasks at once is given here by its
    effect on each of them. */
module DownloadRows {
  import opened Base
  import opened Segments

  type Time = int
  type Worker = nat

  datatype Status = Queued | Running | Paused | Cancelled | Failed | Completed

  datatype Control = Pause | Cancel

  /** What identifies a file on disk: device, inode number and length. */
  datatype FileId = FileId(device: nat, inode: nat, size: nat)

  datatype Task = Task(
    status: Status,
    worker: Option<Worker>,
    lease: Option<Time>,
    control: Option<Control>,
    createdAt: Time,
    retryAt: Option<Time>,
    retries: nat,
    received: int,
    total: Option<nat>,
    pool: nat,
    operation: Option<string>)

  datatype Journal = Journal(operation: string, worker: Worker, file: FileId)

  /** `operations` counts the `file_operations` rows that carry the task's operation id. */
  datatype Row = Row(
    task: Task,
    journal: Option<Journal>,
    operations: nat,
    segments: seq<Segment>,
    reserved: Option<nat>)

  predicate Owned(task: Task, worker: Worker) {
    task.status == Running && task.worker == Some(worker) && task.control == None
  }

  predicate LeaseLive(task: Task, now: Time) {
    task.status == Running && task.lease.Some? && task.lease.value > now
  }

  function ReleasedStatus(control: Option<Control>): Status {
    match control
    case None => Queued
    case Some(Pause) => Paused
    case Some(Cancel) => Cancelled
  }

  /** The task leaves its worker and takes the status its pending control request asks for. */
  function Release(task: Task): Task {
    task.(status := ReleasedStatus(task.control), worker := None, lease := None, control := None)
  }

  // ----- leases

  predicate Expired(row: Row, now: Time) {
    row.task.status == Running && row.journal == None && (row.task.lease.None? || row.task.lease.value <= now)
  }

  function RecoverExpired(row: Row, now: Time): Row {
    var task := if Expired(row, now) then Release(row.task) else row.task;
    row.(task := task, reserved := if task.status == Running then row.reserved else None)
  }

  predicate Claimable(row: Row, now: Time) {
    row.task.status == Queued && row.journal == None && (row.task.retryAt.None? || row.task.retryAt.value <= now)
  }

  function Claim(row: Row, worker: Worker, until: Time): Row {
    row.(task := row.task.(status := Running, worker := Some(worker), lease := Some(until), retryAt := None, control := None))
  }

  function ExtendLease(row: Row, worker: Worker, until: Time): Row {
    if Owned(row.task, worker) then row.(task := row.task.(lease := Some(until))) else row
  }

  // ----- transfer

  function Progress(row: Row, worker: Worker, received: nat, total: Option<nat>, until: Time): Row {
    if Owned(row.task, worker) then row.(task := row.task.(received := received, total := total, lease := Some(until)))
    else row
  }

  function ResetTransfer(row: Row, worker: Worker): Row {
    if Owned(row.task, worker) then
      row.(task := row.task.(received := 0, total := None), segments := [], reserved := None)
    else row
  }

  function ReplaceSegments(row: Row, worker: Worker, segments: seq<Segment>): Row {
    if Owned(row.task, worker) then row.(segments := segments) else row
  }

  /** `UPDATE download_segments SET next_byte = ? WHERE start_byte = ?`. */
  function MoveCursor(segments: seq<Segment>, start: nat, next: nat): (r: seq<Segment>)
    ensures |r| == |segments|
  {
    seq(|segments|, i requires 0 <= i < |segments| =>
      if segments[i].start == start then segments[i].(next := next) else segments[i])
  }

  function Checkpoint(row: Row, worker: Worker, start: nat, next: nat, total: nat, until: Time): Row {
    if !Owned(row.task, worker) then row
    else
      var segments := MoveCursor(row.segments, start, next);
      var received := Received(segments);
      row.(task := row.task.(received := received, total := Some(total), lease := Some(until)),
           segments := segments,
           reserved := if row.reserved.Some? then Some(if total - received > 0 then total - received else 0) else None)
  }

  // ----- publication

  function BeginPublish(row: Row, journal: Journal): Row {
    if Owned(row.task, journal.worker) then row.(journal := Some(journal)) else row
  }

  /** The journal row matches and the task becomes `completed`; otherwise nothing changes. */
  function Finalize(row: Row, journal: Journal): Row {
    if row.journal == Some(journal) then
      row.(task := row.task.(status := Completed, received := journal.file.size, total := Some(journal.file.size),
                             worker := None, lease := None, control := None, retryAt := None,
                             operation := Some(journal.operation)),
           journal := None,
           operations := if row.operations == 0 then 1 else row.operations,
           segments := [],
           reserved := None)
    else row
  }

  /** What `finalize_publish` returns: success also when the same operation already completed the task. */
  predicate FinalizeSucceeds(row: Row, journal: Journal) {
    row.journal == Some(journal) || (row.task.status == Completed && row.task.operation == Some(journal.operation))
  }

  function RecoverUnpublished(row: Row, now: Time): Row {
    if LeaseLive(row.task, now) then row else row.(task := Release(row.task), journal := None)
  }

  function FailRecovery(row: Row): Row {
    row.(task := row.task.(status := Failed, worker := None, lease := None), journal := None, reserved := None)
  }

  // ----- the end of a run

  function FinishControl(row: Row, worker: Worker, cancelled: bool): Row {
    if row.task.status == Running && row.task.worker == Some(worker) then
      row.(task := row.task.(status := if cancelled then Cancelled else Paused, worker := None, lease := None, control := None),
           reserved := None)
    else row
  }

  /** `retry` is the wake-up time of a retryable error with retries left. */
  function FailOrRetry(row: Row, worker: Worker, retry: Option<Time>): Row {
    if row.task.status == Running && row.task.worker == Some(worker) then
      row.(task := row.task.(status := if retry.Some? then Queued else Failed, retries := row.task.retries + (if retry.Some? then 1 else 0),
                             retryAt := retry, worker := None, lease := None, control := None),
           reserved := None)
    else row
  }

  function RequeueOwned(row: Row, worker: Worker): Row {
    var task := if row.task.status == Running && row.task.worker == Some(worker) then Release(row.task) else row.task;
    row.(task := task, reserved := if task.worker.None? then None else row.reserved)
  }

  // ----- requests from the API (packages/db/src/repositories/downloads.ts)

  function RequestControl(row: Row, request: Control): Row {
    if row.task.status != Running then row
    else row.(task := row.task.(control := Some(if row.task.control == Some(Cancel) then Cancel else request)))
  }

  /** `transitionDownloadTask` without a progress reset. */
  function Transition(row: Row, from: set<Status>, to: Status): Row {
    if row.task.status !in from then row
    else row.(task := row.task.(status := to, worker := None, lease := None, control := None, retryAt := None))
  }

  /** What `resetProgress` adds: everything transferred and reserved is forgotten. */
  function Forget(row: Row): Row {
    row.(task := row.task.(received := 0, total := None, retries := 0), segments := [], reserved := None)
  }
}
