/** The publication protocol of one download task: journal row, no-replace rename, finalize, recovery
    (apps/downloader/src/download.rs). Any number of workers and recovery passes take interleaved steps,
    any of them may stop for good between two steps, and leases expire as time passes. */
module Publication {
  import opened Base
  import opened DownloadRows

  /** How far a `run_task` execution has come. */
  datatype Stage =
    | Claimed                   // the row was claimed
    | Checked                   // the target was seen to be absent
    | Transferring              // holds the lock on the partial file and may write to it
    | Ready(file: FileId)       // the partial's identity was taken for publication
    | Journaled(file: FileId)   // the journal row was written
    | Renamed(file: FileId)     // the partial was renamed to the target
    | Stopping(cancel: bool)    // a control request was seen; `run_task` is over and its lock is gone
    | Unlinked                  // and the partial was removed by name

  /** A live run; `lock` is the inode whose exclusive lock it holds. */
  datatype Run = Run(worker: Worker, stage: Stage, lock: Option<nat>)

  /** A live recovery pass over the task's journal row, after it has looked at the row and the files. */
  datatype Pass =
    | Finalizing(journal: Journal)                      // the target carried the journal's identity
    | Waiting(journal: Journal, cancel: bool)           // only the partial did
    | Locked(journal: Journal, cancel: bool)            // and its lock was taken and the identity seen again
    | Unlinking(journal: Journal)                       // the row was released; a cancelled partial goes away
  {
    predicate HoldsLock() { Locked? || Unlinking? }
  }

  /** `published` remembers the file a run renamed to the target, and `durable` whether the directory has been synced
      since; the program keeps no such variables. */
  datatype State = State(
    now: Time,
    row: Row,
    partial: Option<FileId>,
    target: Option<FileId>,
    nextInode: nat,
    runs: map<nat, Run>,
    passes: map<nat, Pass>,
    published: Option<FileId>,
    durable: bool)

  datatype Step =
    | Tick(elapsed: nat)
    | ClaimTask(run: nat, worker: Worker, until: Time)
    | CheckTarget(run: nat)
    | LockPartial(run: nat, device: nat)
    | WritePartial(run: nat, size: nat)
    | TakeIdentity(run: nat)
    | WriteJournal(run: nat, operation: string)
    | Rename(run: nat)
    | SyncTarget(run: nat)
    | FinalizeRun(run: nat, operation: string)
    | Heartbeat(worker: Worker, until: Time)
    | FailRun(run: nat, retry: Option<Time>)
    | SeeControl(run: nat)
    | UnlinkRun(run: nat)
    | StopRun(run: nat)
    | CrashRun(run: nat)
    | RequeueWorker(worker: Worker)
    | ExpireLeases
    | Look(pass: nat)
    | SyncPass(pass: nat)
    | FinalizePass(pass: nat)
    | LockPass(pass: nat)
    | ReleasePass(pass: nat)
    | UnlinkPass(pass: nat)
    | CrashPass(pass: nat)
    | AskControl(request: Control)
    | UserTransition(from: set<Status>, to: Status)
    | UserUnlink
    | OccupyTarget(device: nat, size: nat)
    | Outage(size: nat, undo: bool)

  predicate LockFree(s: State, inode: nat) {
    && (forall r | r in s.runs :: s.runs[r].lock != Some(inode))
    && (forall p | p in s.passes :: s.passes[p].HoldsLock() ==> s.passes[p].journal.file.inode != inode)
  }

  /** Nobody holds the partial's lock: a run that still has a lock has renamed its file, and no pass has one. */
  predicate PartialFree(s: State) {
    && (forall r | r in s.runs :: s.runs[r].lock.Some? ==> s.runs[r].stage.Renamed?)
    && (forall p | p in s.passes :: !s.passes[p].HoldsLock())
  }

  /** Which steps can be taken. The comments name the assumptions that are not checks of the program. */
  predicate Enabled(s: State, step: Step) {
    match step
    case Tick(_) => true
    case ClaimTask(run, worker, until) =>
      && run !in s.runs && Claimable(s.row, s.now)
      // Worker ids are not epochs: a worker does not claim a task it is still running.
      && (forall r | r in s.runs :: s.runs[r].worker != worker)
    case CheckTarget(run) => run in s.runs && s.runs[run].stage == Claimed && s.target == None
    case LockPartial(run, _) =>
      run in s.runs && s.runs[run].stage == Checked && (s.partial.Some? ==> LockFree(s, s.partial.value.inode))
    case WritePartial(run, _) => run in s.runs && s.runs[run].stage == Transferring && s.partial.Some?
    case TakeIdentity(run) => run in s.runs && s.runs[run].stage == Transferring && s.partial.Some?
    case WriteJournal(run, operation) =>
      run in s.runs && s.runs[run].stage.Ready? && Owned(s.row.task, s.runs[run].worker)
    case Rename(run) => run in s.runs && s.runs[run].stage.Journaled? && s.partial.Some? && s.target == None
    // `publish` syncs the directory after the rename and before it returns; so does recovery before it finalizes.
    case SyncTarget(run) => run in s.runs && s.runs[run].stage.Renamed?
    case FinalizeRun(run, operation) => run in s.runs && s.runs[run].stage.Renamed? && s.durable
    case Heartbeat(_, _) => true
    case FailRun(run, _) => run in s.runs
    // The request is read without comparing the worker: a run that lost its lease sees it too.
    case SeeControl(run) => run in s.runs && s.row.task.control.Some? && !s.runs[run].stage.Unlinked?
    // The program unlinks by name and takes no lock; see `UnlinkExact` and `StaleCancelLosesFile`.
    case UnlinkRun(run) => run in s.runs && s.runs[run].stage == Stopping(true) && PartialFree(s)
    case StopRun(run) => run in s.runs && (s.runs[run].stage.Stopping? || s.runs[run].stage.Unlinked?)
    case CrashRun(run) => run in s.runs
    case RequeueWorker(worker) => forall r | r in s.runs :: s.runs[r].worker != worker
    case ExpireLeases => true
    // The journal row, the task row and both identities are read at one instant.
    case Look(pass) => pass !in s.passes && s.row.journal.Some?
    case SyncPass(pass) => pass in s.passes && s.passes[pass].Finalizing?
    case FinalizePass(pass) => pass in s.passes && s.passes[pass].Finalizing? && s.durable
    case LockPass(pass) =>
      && pass in s.passes && s.passes[pass].Waiting?
      && s.partial == Some(s.passes[pass].journal.file) && LockFree(s, s.partial.value.inode)
    case ReleasePass(pass) => pass in s.passes && s.passes[pass].Locked?
    case UnlinkPass(pass) => pass in s.passes && s.passes[pass].Unlinking?
    case CrashPass(pass) => pass in s.passes
    case AskControl(_) => true
    // A transition never starts from `completed`.
    case UserTransition(from, to) => Completed !in from && to != Completed && to != Running
    // The API unlinks by name as well.
    case UserUnlink => PartialFree(s)
    // Somebody else creates a file under the target's name; nobody removes one.
    case OccupyTarget(_, _) => s.target == None
    // A power failure ends every process, and may undo a rename that was not synced.
    case Outage(_, undo) => undo ==> s.published.Some? && !s.durable
  }

  function SetStage(s: State, run: nat, stage: Stage): State
    requires run in s.runs
  {
    s.(runs := s.runs[run := s.runs[run].(stage := stage)])
  }

  function EndRun(s: State, run: nat): State { s.(runs := s.runs - {run}) }

  function EndPass(s: State, pass: nat): State { s.(passes := s.passes - {pass}) }

  /** Rows and names stay, processes do not. The directory's changes reach the disk in order, so with a rename whatever
      happened to the partial's name afterwards is undone too. */
  function PowerOff(s: State, size: nat, undo: bool): State {
    var off := s.(runs := map[], passes := map[], durable := true);
    if undo then off.(partial := s.published, target := None, published := None)
    else off.(partial := if s.partial.Some? then Some(s.partial.value.(size := size)) else None)
  }

  /** `remove_partial` in the run that saw a cancel request. */
  function Unlink(s: State, run: nat): State
    requires run in s.runs
  {
    SetStage(s.(partial := None), run, Unlinked)
  }

  /** Whether the request that a stopping run saw was a cancellation. */
  predicate Cancels(stage: Stage) { stage.Unlinked? || stage == Stopping(true) }

  /** One iteration of `recover_publish_journals`, up to its first decision. */
  function LookAtJournal(s: State, pass: nat): State
    requires s.row.journal.Some?
  {
    var j := s.row.journal.value;
    if s.target == Some(j.file) then s.(passes := s.passes[pass := Finalizing(j)])
    else if LeaseLive(s.row.task, s.now) then s
    else if s.target == None && s.partial == Some(j.file) then
      s.(passes := s.passes[pass := Waiting(j, s.row.task.control == Some(Cancel))])
    else s.(row := FailRecovery(s.row))
  }

  function Apply(s: State, step: Step): State
    requires Enabled(s, step)
  {
    match step
    case Tick(elapsed) => s.(now := s.now + elapsed)
    case ClaimTask(run, worker, until) =>
      s.(row := Claim(s.row, worker, until), runs := s.runs[run := Run(worker, Claimed, None)])
    case CheckTarget(run) => SetStage(s, run, Checked)
    case LockPartial(run, device) =>
      var file := if s.partial.Some? then s.partial.value else FileId(device, s.nextInode, 0);
      s.(partial := Some(file),
         nextInode := if s.partial.Some? then s.nextInode else s.nextInode + 1,
         runs := s.runs[run := s.runs[run].(stage := Transferring, lock := Some(file.inode))])
    case WritePartial(run, size) => s.(partial := Some(s.partial.value.(size := size)))
    case TakeIdentity(run) => SetStage(s, run, Ready(s.partial.value))
    case WriteJournal(run, operation) =>
      var file := s.runs[run].stage.file;
      SetStage(s.(row := BeginPublish(s.row, Journal(operation, s.runs[run].worker, file))), run, Journaled(file))
    case Rename(run) =>
      SetStage(s.(partial := None, target := s.partial, published := s.partial, durable := false), run, Renamed(s.runs[run].stage.file))
    case SyncTarget(_) => s.(durable := true)
    case FinalizeRun(run, operation) =>
      EndRun(s.(row := Finalize(s.row, Journal(operation, s.runs[run].worker, s.runs[run].stage.file))), run)
    case Heartbeat(worker, until) => s.(row := ExtendLease(s.row, worker, until))
    case FailRun(run, retry) => EndRun(s.(row := FailOrRetry(s.row, s.runs[run].worker, retry)), run)
    case SeeControl(run) =>
      s.(runs := s.runs[run := Run(s.runs[run].worker, Stopping(s.row.task.control == Some(Cancel)), None)])
    case UnlinkRun(run) => Unlink(s, run)
    case StopRun(run) => EndRun(s.(row := FinishControl(s.row, s.runs[run].worker, Cancels(s.runs[run].stage))), run)
    case CrashRun(run) => EndRun(s, run)
    case RequeueWorker(worker) => s.(row := RequeueOwned(s.row, worker))
    case ExpireLeases => s.(row := RecoverExpired(s.row, s.now))
    case Look(pass) => LookAtJournal(s, pass)
    case SyncPass(_) => s.(durable := true)
    case FinalizePass(pass) => EndPass(s.(row := Finalize(s.row, s.passes[pass].journal)), pass)
    case LockPass(pass) => s.(passes := s.passes[pass := Locked(s.passes[pass].journal, s.passes[pass].cancel)])
    case ReleasePass(pass) =>
      var released := s.(row := RecoverUnpublished(s.row, s.now));
      if !LeaseLive(s.row.task, s.now) && s.passes[pass].cancel then
        released.(passes := s.passes[pass := Unlinking(s.passes[pass].journal)])
      else EndPass(released, pass)
    case UnlinkPass(pass) => EndPass(s.(partial := None), pass)
    case CrashPass(pass) => EndPass(s, pass)
    case AskControl(request) => s.(row := RequestControl(s.row, request))
    case UserTransition(from, to) => s.(row := Transition(s.row, from, to))
    case UserUnlink => s.(partial := None)
    case OccupyTarget(device, size) =>
      s.(target := Some(FileId(device, s.nextInode, size)), nextInode := s.nextInode + 1)
    case Outage(size, undo) => PowerOff(s, size, undo)
  }

  /** A run of the whole system, as the steps it takes. */
  predicate Feasible(s: State, steps: seq<Step>)
    decreases |steps|
  {
    steps == [] || (Enabled(s, steps[0]) && Feasible(Apply(s, steps[0]), steps[1..]))
  }

  function Final(s: State, steps: seq<Step>): State
    requires Feasible(s, steps)
    decreases |steps|
  {
    if steps == [] then s else Final(Apply(s, steps[0]), steps[1..])
  }

  /** A task nobody has started: any old partial may lie around, and any file may already sit at the target. */
  predicate Init(s: State) {
    && s.row.task.status != Completed && s.row.journal == None && s.row.operations == 0
    && s.runs == map[] && s.passes == map[] && s.published == None && s.durable
    && (s.partial.Some? ==> s.partial.value.inode < s.nextInode)
    && (s.target.Some? ==> s.target.value.inode < s.nextInode)
    && (s.partial.Some? && s.target.Some? ==> s.partial.value.inode != s.target.value.inode)
  }

  // ----- what is claimed

  /** A published file is still at the target and is either journaled under its identity or completed. */
  ghost predicate NeverLost(s: State) {
    s.published.Some? ==>
      && s.target == s.published
      && (s.row.task.status == Completed || (s.row.journal.Some? && s.row.journal.value.file == s.published.value))
  }

  /** A completed task has published a file, has no journal row and exactly one operation row. */
  ghost predicate CompletedOnce(s: State) {
    s.row.task.status == Completed ==> s.published.Some? && s.row.journal == None && s.row.operations == 1
  }

  // ----- the invariant

  ghost predicate Fresh(s: State) {
    && (s.partial.Some? ==> s.partial.value.inode < s.nextInode)
    && (s.target.Some? ==> s.target.value.inode < s.nextInode)
    && (s.row.journal.Some? ==> s.row.journal.value.file.inode < s.nextInode)
    && (forall r | r in s.runs :: s.runs[r].lock.Some? ==> s.runs[r].lock.value < s.nextInode)
    && (forall p | p in s.passes :: s.passes[p].journal.file.inode < s.nextInode)
  }

  ghost predicate Rows(s: State) {
    && NeverLost(s) && CompletedOnce(s)
    && (s.row.task.status != Completed ==> s.row.operations == 0)
    && (s.row.task.status == Completed ==> s.durable)
  }

  /** A file at the target that no run renamed there shares its inode with nothing the task knows. */
  ghost predicate ForeignTarget(s: State) {
    && (s.partial.Some? && s.target.Some? ==> s.partial.value.inode != s.target.value.inode)
    && (s.published.None? && s.target.Some? ==>
          && (s.row.journal.Some? ==> s.row.journal.value.file.inode != s.target.value.inode)
          && (forall p | p in s.passes :: s.passes[p].journal.file.inode != s.target.value.inode)
          && (forall r | r in s.runs :: s.runs[r].lock != Some(s.target.value.inode)))
  }

  ghost predicate RunHolds(s: State, run: Run) {
    match run.stage
    case Claimed => run.lock == None
    case Checked => run.lock == None
    case Transferring => s.partial.Some? && run.lock == Some(s.partial.value.inode)
    case Ready(file) => s.partial == Some(file) && run.lock == Some(file.inode)
    case Journaled(file) =>
      && s.partial == Some(file) && run.lock == Some(file.inode)
      && ((s.row.journal.Some? && s.row.journal.value.file == file) || (s.published.None? && s.target.Some?))
    case Renamed(file) => s.published == Some(file) && run.lock == Some(file.inode)
    case Stopping(_) => run.lock == None
    case Unlinked => run.lock == None
  }

  ghost predicate RunsHold(s: State) {
    && (forall r | r in s.runs :: RunHolds(s, s.runs[r]))
    && (forall r, q | r in s.runs && q in s.runs && r != q :: s.runs[r].worker != s.runs[q].worker)
    && (forall r, q | r in s.runs && q in s.runs && r != q ::
          s.runs[r].lock.Some? ==> s.runs[r].lock != s.runs[q].lock)
    // Once a journal row exists, no run that has yet to write one still owns the task.
    && (s.row.journal.Some? ==>
          forall r | r in s.runs :: (s.runs[r].stage.Journaled? || s.runs[r].stage.Renamed?
                                     || s.runs[r].stage.Stopping? || s.runs[r].stage.Unlinked?
                                     || s.row.task.worker != Some(s.runs[r].worker)))
  }

  ghost predicate PassHolds(s: State, pass: Pass) {
    match pass
    case Finalizing(j) => s.published == Some(j.file)
    case Waiting(_, _) => true
    case Locked(j, _) => s.partial == Some(j.file)
    case Unlinking(j) => s.partial == Some(j.file)
  }

  ghost predicate PassesHold(s: State) {
    && (forall p | p in s.passes :: PassHolds(s, s.passes[p]))
    && (forall p | p in s.passes && s.passes[p].HoldsLock() ::
          && (forall r | r in s.runs :: s.runs[r].lock != Some(s.passes[p].journal.file.inode))
          && (forall q | q in s.passes && q != p && s.passes[q].HoldsLock() ::
                s.passes[q].journal.file.inode != s.passes[p].journal.file.inode))
    // A partial created after publication is none of the files recovery is looking for.
    && (s.published.Some? && s.partial.Some? ==>
          forall p | p in s.passes :: s.passes[p].journal.file.inode != s.partial.value.inode)
  }

  ghost predicate Inv(s: State) {
    Fresh(s) && Rows(s) && ForeignTarget(s) && RunsHold(s) && PassesHold(s)
  }

  lemma InitInv(s: State)
    requires Init(s)
    ensures Inv(s)
  {}

  // ----- every step keeps the invariant

  lemma TickInv(s: State, step: Step)
    requires Inv(s) && step.Tick? && Enabled(s, step)
    ensures Inv(Apply(s, step))
  {}

  /** The task row may change freely as long as it neither completes nor gains an owner. */
  lemma TaskChangeInv(s: State, row: Row)
    requires Inv(s)
    requires row.journal == s.row.journal && row.operations == s.row.operations
    requires row.task.status == Completed <==> s.row.task.status == Completed
    requires row.task.worker == s.row.task.worker || row.task.worker == None
    ensures Inv(s.(row := row))
  {}

  lemma EndRunInv(s: State, run: nat)
    requires Inv(s)
    ensures Inv(EndRun(s, run))
  {}

  lemma EndPassInv(s: State, pass: nat)
    requires Inv(s)
    ensures Inv(EndPass(s, pass))
  {}

  lemma UnlinkInv(s: State)
    requires Inv(s) && PartialFree(s)
    ensures Inv(s.(partial := None))
  {}

  /** Removing an existing partial keeps the invariant exactly when nobody holds its lock. */
  lemma UnlinkExact(s: State)
    requires Inv(s) && s.partial.Some?
    ensures Inv(s.(partial := None)) <==> PartialFree(s)
  {
    if PartialFree(s) {
      UnlinkInv(s);
    }
    var gone := s.(partial := None);
    if Inv(gone) {
      forall r | r in s.runs && s.runs[r].lock.Some?
        ensures s.runs[r].stage.Renamed?
      {
        assert RunHolds(gone, gone.runs[r]);
      }
      forall p | p in s.passes
        ensures !s.passes[p].HoldsLock()
      {
        assert PassHolds(gone, gone.passes[p]);
      }
    }
  }

  /** A run leaves `run_task`: its lock goes, its place among the runs stays. */
  lemma StoppingInv(s: State, run: nat, stage: Stage)
    requires Inv(s) && run in s.runs && (stage.Stopping? || stage.Unlinked?)
    ensures Inv(s.(runs := s.runs[run := Run(s.runs[run].worker, stage, None)]))
  {
    StoppingRuns(s, run, stage);
    StoppingRest(s, run, stage);
  }

  lemma StoppingRuns(s: State, run: nat, stage: Stage)
    requires Inv(s) && run in s.runs && (stage.Stopping? || stage.Unlinked?)
    ensures RunsHold(s.(runs := s.runs[run := Run(s.runs[run].worker, stage, None)]))
  {}

  lemma StoppingRest(s: State, run: nat, stage: Stage)
    requires Inv(s) && run in s.runs && (stage.Stopping? || stage.Unlinked?)
    ensures var t := s.(runs := s.runs[run := Run(s.runs[run].worker, stage, None)]);
            Fresh(t) && Rows(t) && ForeignTarget(t) && PassesHold(t)
  {}

  lemma ClaimRuns(s: State, step: Step)
    requires Inv(s) && step.ClaimTask? && Enabled(s, step)
    ensures RunsHold(Apply(s, step))
  {}

  lemma ClaimFiles(s: State, step: Step)
    requires Inv(s) && step.ClaimTask? && Enabled(s, step)
    ensures Fresh(Apply(s, step)) && Rows(Apply(s, step)) && ForeignTarget(Apply(s, step))
  {}

  lemma ClaimPasses(s: State, step: Step)
    requires Inv(s) && step.ClaimTask? && Enabled(s, step)
    ensures PassesHold(Apply(s, step))
  {}

  lemma ClaimInv(s: State, step: Step)
    requires Inv(s) && step.ClaimTask? && Enabled(s, step)
    ensures Inv(Apply(s, step))
  {
    ClaimRuns(s, step);
    ClaimFiles(s, step);
    ClaimPasses(s, step);
  }

  lemma StageRuns(s: State, run: nat, stage: Stage)
    requires Inv(s) && run in s.runs
    requires RunHolds(s, s.runs[run].(stage := stage))
    requires s.runs[run].stage.Claimed? || s.runs[run].stage.Checked? || s.runs[run].stage.Transferring?
    ensures RunsHold(SetStage(s, run, stage))
  {}

  lemma StageRest(s: State, run: nat, stage: Stage)
    requires Inv(s) && run in s.runs
    requires RunHolds(s, s.runs[run].(stage := stage))
    requires s.runs[run].stage.Claimed? || s.runs[run].stage.Checked? || s.runs[run].stage.Transferring?
    ensures Fresh(SetStage(s, run, stage)) && Rows(SetStage(s, run, stage)) && ForeignTarget(SetStage(s, run, stage))
    ensures PassesHold(SetStage(s, run, stage))
  {}

  /** A run moves on without touching files or rows. */
  lemma StageInv(s: State, run: nat, stage: Stage)
    requires Inv(s) && run in s.runs
    requires RunHolds(s, s.runs[run].(stage := stage))
    requires s.runs[run].stage.Claimed? || s.runs[run].stage.Checked? || s.runs[run].stage.Transferring?
    ensures Inv(SetStage(s, run, stage))
  {
    StageRuns(s, run, stage);
    StageRest(s, run, stage);
  }

  lemma CreatePartialInv(s: State, device: nat)
    requires Inv(s) && s.partial == None
    ensures Inv(s.(partial := Some(FileId(device, s.nextInode, 0)), nextInode := s.nextInode + 1))
  {}

  lemma TakeLockInv(s: State, run: nat)
    requires Inv(s) && run in s.runs && s.runs[run].stage == Checked
    requires s.partial.Some? && LockFree(s, s.partial.value.inode)
    ensures Inv(s.(runs := s.runs[run := s.runs[run].(stage := Transferring, lock := Some(s.partial.value.inode))]))
  {}

  /** Nobody holds the lock of a file that was not there. */
  lemma NewIsFree(s: State)
    requires Inv(s)
    ensures LockFree(s, s.nextInode)
  {
    forall r | r in s.runs
      ensures s.runs[r].lock != Some(s.nextInode)
    {
      assert RunHolds(s, s.runs[r]);
    }
    forall p | p in s.passes && s.passes[p].HoldsLock()
      ensures s.passes[p].journal.file.inode != s.nextInode
    {
      assert PassHolds(s, s.passes[p]);
    }
  }

  lemma LockPartialInv(s: State, step: Step)
    requires Inv(s) && step.LockPartial? && Enabled(s, step)
    ensures Inv(Apply(s, step))
  {
    if s.partial.Some? {
      TakeLockInv(s, step.run);
    } else {
      var made := s.(partial := Some(FileId(step.device, s.nextInode, 0)), nextInode := s.nextInode + 1);
      CreatePartialInv(s, step.device);
      NewIsFree(s);
      TakeLockInv(made, step.run);
      assert Apply(s, step) == made.(runs := made.runs[step.run := made.runs[step.run].(stage := Transferring, lock := Some(s.nextInode))]);
    }
  }

  lemma WritePartialInv(s: State, run: nat, size: nat)
    requires Inv(s) && run in s.runs && s.runs[run].stage == Transferring
    ensures s.partial.Some? && Inv(s.(partial := Some(s.partial.value.(size := size))))
  {
    assert RunHolds(s, s.runs[run]);
  }

  lemma WriteJournalRuns(s: State, step: Step)
    requires Inv(s) && step.WriteJournal? && Enabled(s, step)
    ensures RunsHold(Apply(s, step))
  {}

  lemma WriteJournalFiles(s: State, step: Step)
    requires Inv(s) && step.WriteJournal? && Enabled(s, step)
    ensures Fresh(Apply(s, step)) && Rows(Apply(s, step)) && ForeignTarget(Apply(s, step))
  {}

  lemma WriteJournalPasses(s: State, step: Step)
    requires Inv(s) && step.WriteJournal? && Enabled(s, step)
    ensures PassesHold(Apply(s, step))
  {}

  lemma WriteJournalInv(s: State, step: Step)
    requires Inv(s) && step.WriteJournal? && Enabled(s, step)
    ensures Inv(Apply(s, step))
  {
    WriteJournalRuns(s, step);
    WriteJournalFiles(s, step);
    WriteJournalPasses(s, step);
  }

  lemma RenameRuns(s: State, step: Step)
    requires Inv(s) && step.Rename? && Enabled(s, step)
    ensures RunsHold(Apply(s, step))
  {}

  lemma RenameFiles(s: State, step: Step)
    requires Inv(s) && step.Rename? && Enabled(s, step)
    ensures Fresh(Apply(s, step)) && Rows(Apply(s, step)) && ForeignTarget(Apply(s, step))
  {}

  lemma RenamePasses(s: State, step: Step)
    requires Inv(s) && step.Rename? && Enabled(s, step)
    ensures PassesHold(Apply(s, step))
  {}

  lemma RenameInv(s: State, step: Step)
    requires Inv(s) && step.Rename? && Enabled(s, step)
    ensures Inv(Apply(s, step))
  {
    RenameRuns(s, step);
    RenameFiles(s, step);
    RenamePasses(s, step);
  }

  lemma FinalizeInv(s: State, j: Journal)
    requires Inv(s) && s.published == Some(j.file) && s.durable
    ensures Inv(s.(row := Finalize(s.row, j)))
  {}

  lemma OccupyTargetInv(s: State, step: Step)
    requires Inv(s) && step.OccupyTarget? && Enabled(s, step)
    ensures Inv(Apply(s, step))
  {}

  lemma FinalizeRunInv(s: State, step: Step)
    requires Inv(s) && step.FinalizeRun? && Enabled(s, step)
    ensures Inv(Apply(s, step))
  {
    var run := step.run;
    assert RunHolds(s, s.runs[run]);
    var j := Journal(step.operation, s.runs[run].worker, s.runs[run].stage.file);
    FinalizeInv(s, j);
    EndRunInv(s.(row := Finalize(s.row, j)), run);
  }

  lemma FailRunInv(s: State, step: Step)
    requires Inv(s) && step.FailRun? && Enabled(s, step)
    ensures Inv(Apply(s, step))
  {
    var row := FailOrRetry(s.row, s.runs[step.run].worker, step.retry);
    TaskChangeInv(s, row);
    EndRunInv(s.(row := row), step.run);
  }

  lemma StopRunInv(s: State, step: Step)
    requires Inv(s) && step.StopRun? && Enabled(s, step)
    ensures Inv(Apply(s, step))
  {
    var row := FinishControl(s.row, s.runs[step.run].worker, Cancels(s.runs[step.run].stage));
    TaskChangeInv(s, row);
    EndRunInv(s.(row := row), step.run);
  }

  lemma UnlinkRunInv(s: State, step: Step)
    requires Inv(s) && step.UnlinkRun? && Enabled(s, step)
    ensures Inv(Apply(s, step))
  {
    UnlinkInv(s);
    assert RunHolds(s, s.runs[step.run]);
    StoppingInv(s.(partial := None), step.run, Unlinked);
  }

  lemma StageStepInv(s: State, step: Step)
    requires Inv(s) && (step.CheckTarget? || step.TakeIdentity?) && Enabled(s, step)
    ensures Inv(Apply(s, step))
  {
    assert RunHolds(s, s.runs[step.run]);
    StageInv(s, step.run, if step.CheckTarget? then Checked else Ready(s.partial.value));
  }

  lemma SyncInv(s: State)
    requires Inv(s)
    ensures Inv(s.(durable := true))
  {}

  predicate RunStep(step: Step) {
    || step.CheckTarget? || step.WritePartial? || step.TakeIdentity? || step.SyncTarget? || step.FinalizeRun? || step.FailRun?
    || step.SeeControl? || step.UnlinkRun? || step.StopRun? || step.CrashRun?
  }

  lemma RunStepInv(s: State, step: Step)
    requires Inv(s) && Enabled(s, step) && RunStep(step)
    ensures Inv(Apply(s, step))
  {
    if step.CheckTarget? || step.TakeIdentity? {
      StageStepInv(s, step);
    } else if step.WritePartial? {
      WritePartialInv(s, step.run, step.size);
    } else if step.SyncTarget? {
      SyncInv(s);
    } else if step.FinalizeRun? {
      FinalizeRunInv(s, step);
    } else if step.FailRun? {
      FailRunInv(s, step);
    } else if step.SeeControl? {
      StoppingInv(s, step.run, Stopping(s.row.task.control == Some(Cancel)));
    } else if step.UnlinkRun? {
      UnlinkRunInv(s, step);
    } else if step.StopRun? {
      StopRunInv(s, step);
    } else {
      EndRunInv(s, step.run);
    }
  }

  /** Dropping the journal row is harmless while nothing has been published. */
  lemma DropJournalInv(s: State, row: Row)
    requires Inv(s) && s.published.None?
    requires row.journal == None && row.operations == s.row.operations && row.task.status != Completed
    requires forall r | r in s.runs :: s.runs[r].stage.Journaled? ==> s.target.Some?
    ensures Inv(s.(row := row))
  {}

  lemma AddPassPasses(s: State, pass: nat, added: Pass)
    requires Inv(s) && pass !in s.passes && s.row.journal == Some(added.journal)
    requires added.Waiting? || (added.Finalizing? && s.target == Some(added.journal.file))
    ensures PassesHold(s.(passes := s.passes[pass := added]))
  {}

  lemma AddPassRest(s: State, pass: nat, added: Pass)
    requires Inv(s) && pass !in s.passes && s.row.journal == Some(added.journal)
    requires added.Waiting? || (added.Finalizing? && s.target == Some(added.journal.file))
    ensures Fresh(s.(passes := s.passes[pass := added])) && Rows(s.(passes := s.passes[pass := added]))
    ensures ForeignTarget(s.(passes := s.passes[pass := added])) && RunsHold(s.(passes := s.passes[pass := added]))
  {}

  lemma AddPassInv(s: State, pass: nat, added: Pass)
    requires Inv(s) && pass !in s.passes && s.row.journal == Some(added.journal)
    requires added.Waiting? || (added.Finalizing? && s.target == Some(added.journal.file))
    ensures Inv(s.(passes := s.passes[pass := added]))
  {
    AddPassPasses(s, pass, added);
    AddPassRest(s, pass, added);
  }

  lemma LookInv(s: State, step: Step)
    requires Inv(s) && step.Look? && Enabled(s, step)
    ensures Inv(Apply(s, step))
  {
    var j := s.row.journal.value;
    if s.target == Some(j.file) {
      AddPassInv(s, step.pass, Finalizing(j));
    } else if LeaseLive(s.row.task, s.now) {
    } else if s.target == None && s.partial == Some(j.file) {
      AddPassInv(s, step.pass, Waiting(j, s.row.task.control == Some(Cancel)));
    } else {
      assert forall r | r in s.runs :: RunHolds(s, s.runs[r]);
      DropJournalInv(s, FailRecovery(s.row));
    }
  }

  lemma LockPassPasses(s: State, step: Step)
    requires Inv(s) && step.LockPass? && Enabled(s, step)
    ensures PassesHold(Apply(s, step))
  {}

  lemma LockPassRest(s: State, step: Step)
    requires Inv(s) && step.LockPass? && Enabled(s, step)
    ensures Fresh(Apply(s, step)) && Rows(Apply(s, step)) && ForeignTarget(Apply(s, step)) && RunsHold(Apply(s, step))
  {}

  lemma LockPassInv(s: State, step: Step)
    requires Inv(s) && step.LockPass? && Enabled(s, step)
    ensures Inv(Apply(s, step))
  {
    LockPassPasses(s, step);
    LockPassRest(s, step);
  }

  lemma ReleaseRowInv(s: State, pass: nat)
    requires Inv(s) && pass in s.passes && s.passes[pass].Locked?
    ensures Inv(s.(row := RecoverUnpublished(s.row, s.now)))
  {
    assert PassHolds(s, s.passes[pass]);
    assert s.published.None?;
    if !LeaseLive(s.row.task, s.now) {
      forall r | r in s.runs ensures !s.runs[r].stage.Journaled? {
        assert RunHolds(s, s.runs[r]);
      }
      DropJournalInv(s, RecoverUnpublished(s.row, s.now));
    }
  }

  lemma UnlinkingInv(s: State, pass: nat)
    requires Inv(s) && pass in s.passes && s.passes[pass].Locked?
    ensures Inv(s.(passes := s.passes[pass := Unlinking(s.passes[pass].journal)]))
  {}

  lemma UnlinkPassInv(s: State, pass: nat)
    requires Inv(s) && pass in s.passes && s.passes[pass].Unlinking?
    ensures Inv(EndPass(s.(partial := None), pass))
  {
    EndPassInv(s, pass);
    assert PassHolds(s, s.passes[pass]);
    forall q | q in s.passes && q != pass ensures !s.passes[q].HoldsLock() {
      assert PassHolds(s, s.passes[q]);
    }
    forall r | r in s.runs && s.runs[r].lock.Some? ensures s.runs[r].stage.Renamed? {
      assert RunHolds(s, s.runs[r]);
    }
    UnlinkInv(EndPass(s, pass));
  }

  predicate PassStep(step: Step) {
    step.SyncPass? || step.FinalizePass? || step.ReleasePass? || step.UnlinkPass? || step.CrashPass?
  }

  predicate TaskStep(step: Step) {
    step.Heartbeat? || step.RequeueWorker? || step.ExpireLeases? || step.AskControl? || step.UserTransition?
  }

  predicate FileStep(step: Step) {
    || step.ClaimTask? || step.LockPartial? || step.WriteJournal? || step.Rename? || step.OccupyTarget? || step.Look?
    || step.LockPass?
  }

  lemma FileStepInv(s: State, step: Step)
    requires Inv(s) && Enabled(s, step) && FileStep(step)
    ensures Inv(Apply(s, step))
  {
    if step.ClaimTask? {
      ClaimInv(s, step);
    } else if step.LockPartial? {
      LockPartialInv(s, step);
    } else if step.WriteJournal? {
      WriteJournalInv(s, step);
    } else if step.Rename? {
      RenameInv(s, step);
    } else if step.OccupyTarget? {
      OccupyTargetInv(s, step);
    } else if step.Look? {
      LookInv(s, step);
    } else {
      LockPassInv(s, step);
    }
  }

  lemma FinalizePassInv(s: State, step: Step)
    requires Inv(s) && step.FinalizePass? && Enabled(s, step)
    ensures Inv(Apply(s, step))
  {
    var j := s.passes[step.pass].journal;
    assert PassHolds(s, s.passes[step.pass]);
    FinalizeInv(s, j);
    EndPassInv(s.(row := Finalize(s.row, j)), step.pass);
  }

  lemma ReleasePassInv(s: State, step: Step)
    requires Inv(s) && step.ReleasePass? && Enabled(s, step)
    ensures Inv(Apply(s, step))
  {
    var released := s.(row := RecoverUnpublished(s.row, s.now));
    ReleaseRowInv(s, step.pass);
    EndPassInv(released, step.pass);
    UnlinkingInv(released, step.pass);
  }

  lemma PassStepInv(s: State, step: Step)
    requires Inv(s) && Enabled(s, step) && PassStep(step)
    ensures Inv(Apply(s, step))
  {
    if step.SyncPass? {
      SyncInv(s);
    } else if step.FinalizePass? {
      FinalizePassInv(s, step);
    } else if step.ReleasePass? {
      ReleasePassInv(s, step);
    } else if step.UnlinkPass? {
      UnlinkPassInv(s, step.pass);
    } else {
      EndPassInv(s, step.pass);
    }
  }

  lemma TaskStepKeeps(s: State, step: Step)
    requires Enabled(s, step) && TaskStep(step)
    ensures var row := Apply(s, step).row;
            && Apply(s, step) == s.(row := row)
            && row.journal == s.row.journal && row.operations == s.row.operations
            && (row.task.status == Completed <==> s.row.task.status == Completed)
            && (row.task.worker == s.row.task.worker || row.task.worker == None)
  {}

  lemma TaskStepInv(s: State, step: Step)
    requires Inv(s) && Enabled(s, step) && TaskStep(step)
    ensures Inv(Apply(s, step))
  {
    TaskStepKeeps(s, step);
    TaskChangeInv(s, Apply(s, step).row);
  }

  /** A power failure loses no published file: one whose rename is undone is the journaled partial again. */
  lemma OutageInv(s: State, step: Step)
    requires Inv(s) && step.Outage? && Enabled(s, step)
    ensures Inv(Apply(s, step))
  {}

  lemma UserUnlinkInv(s: State, step: Step)
    requires Inv(s) && step.UserUnlink? && Enabled(s, step)
    ensures Inv(Apply(s, step))
  {
    UnlinkInv(s);
  }

  lemma StepInv(s: State, step: Step)
    requires Inv(s) && Enabled(s, step)
    ensures Inv(Apply(s, step))
  {
    if PassStep(step) {
      PassStepInv(s, step);
    } else if TaskStep(step) {
      TaskStepInv(s, step);
    } else if FileStep(step) {
      FileStepInv(s, step);
    } else if RunStep(step) {
      RunStepInv(s, step);
    } else if step.Tick? {
      TickInv(s, step);
    } else if step.UserUnlink? {
      UserUnlinkInv(s, step);
    } else {
      OutageInv(s, step);
    }
  }

  lemma {:induction false} RunsKeepInv(s: State, steps: seq<Step>)
    requires Inv(s) && Feasible(s, steps)
    ensures Inv(Final(s, steps))
    decreases |steps|
  {
    if steps != [] {
      StepInv(s, steps[0]);
      RunsKeepInv(Apply(s, steps[0]), steps[1..]);
    }
  }

  /** Whatever the interleaving, the crashes and the expired leases: no published file is lost,
      and a completed task has exactly one operation row and no journal row. */
  lemma RunsAreSafe(s: State, steps: seq<Step>)
    requires Init(s) && Feasible(s, steps)
    ensures NeverLost(Final(s, steps)) && CompletedOnce(Final(s, steps))
  {
    InitInv(s);
    RunsKeepInv(s, steps);
  }

  /** No recovery pass waits to release a completed task. */
  lemma NoneToRelease(s: State)
    requires Inv(s) && s.row.task.status == Completed
    ensures forall p | p in s.passes :: !s.passes[p].Locked?
  {
    forall p | p in s.passes
      ensures PassHolds(s, s.passes[p])
    {}
  }

  lemma CompletedStep(s: State, step: Step)
    requires Inv(s) && Enabled(s, step) && s.row.task.status == Completed
    ensures Apply(s, step).row.task == s.row.task && Apply(s, step).target == s.target
  {
    if PassStep(step) {
      NoneToRelease(s);
      CompletedPassStep(s, step);
    } else if RunStep(step) {
      CompletedRunStep(s, step);
    } else if FileStep(step) {
      CompletedFileStep(s, step);
    }
  }

  lemma CompletedPassStep(s: State, step: Step)
    requires Inv(s) && Enabled(s, step) && s.row.task.status == Completed && PassStep(step) && !step.ReleasePass?
    ensures Apply(s, step).row.task == s.row.task && Apply(s, step).target == s.target
  {}

  lemma CompletedRunStep(s: State, step: Step)
    requires Inv(s) && Enabled(s, step) && s.row.task.status == Completed && RunStep(step)
    ensures Apply(s, step).row.task == s.row.task && Apply(s, step).target == s.target
  {}

  lemma CompletedFileStep(s: State, step: Step)
    requires Inv(s) && Enabled(s, step) && s.row.task.status == Completed && FileStep(step)
    ensures Apply(s, step).row.task == s.row.task && Apply(s, step).target == s.target
  {}

  /** `completed` is final: no later step of any worker, pass or user changes the task or its file. */
  lemma {:induction false} CompletedForever(s: State, steps: seq<Step>)
    requires Inv(s) && s.row.task.status == Completed && Feasible(s, steps)
    ensures Final(s, steps).row.task == s.row.task
    ensures Final(s, steps).target == s.target && Final(s, steps).row.operations == 1
    decreases |steps|
  {
    if steps != [] {
      StepInv(s, steps[0]);
      CompletedStep(s, steps[0]);
      CompletedForever(Apply(s, steps[0]), steps[1..]);
    }
  }

  /** Neither `fail_recovery` nor `recover_unpublished` looks at the files. Called on a task with a journal row,
      each keeps the published file safe exactly when the target does not carry the journal's identity. */
  lemma DropJournalExact(s: State)
    requires Inv(s) && s.row.journal.Some?
    ensures NeverLost(s.(row := FailRecovery(s.row))) <==> s.target != Some(s.row.journal.value.file)
    ensures !LeaseLive(s.row.task, s.now) ==>
              (NeverLost(s.(row := RecoverUnpublished(s.row, s.now))) <==> s.target != Some(s.row.journal.value.file))
  {}

  // ----- runs that need the assumptions

  lemma {:induction false} Extend(s: State, steps: seq<Step>, step: Step)
    requires Feasible(s, steps) && Enabled(Final(s, steps), step)
    ensures Feasible(s, steps + [step]) && Final(s, steps + [step]) == Apply(Final(s, steps), step)
    decreases |steps|
  {
    if steps == [] {
      assert steps + [step] == [step];
      assert [step][1..] == [];
    } else {
      Extend(Apply(s, steps[0]), steps[1..], step);
      assert (steps + [step])[1..] == steps[1..] + [step];
    }
  }

  const NEW_TASK: Row :=
    Row(Task(Queued, None, None, None, 0, None, 0, 0, None, 0, None), None, 0, [], None)
  const NEW_STATE: State := State(0, NEW_TASK, None, None, 0, map[], map[], None, true)

  /** Worker 1 writes its journal row; its lease has run out. */
  lemma JournaledRun() returns (steps: seq<Step>)
    ensures Init(NEW_STATE) && Feasible(NEW_STATE, steps)
    ensures var s := Final(NEW_STATE, steps);
            && s.runs == map[0 := Run(1, Journaled(FileId(0, 0, 0)), Some(0))] && s.passes == map[]
            && s.row.journal == Some(Journal("op", 1, FileId(0, 0, 0))) && s.partial == Some(FileId(0, 0, 0))
            && s.target == None && s.published == None && s.now == 0
            && s.row.task.status == Running && s.row.task.lease == Some(0) && s.row.task.control == None
  {
    Extend(NEW_STATE, [], ClaimTask(0, 1, 0));
    steps := [] + [ClaimTask(0, 1, 0)];
    Extend(NEW_STATE, steps, CheckTarget(0));
    steps := steps + [CheckTarget(0)];
    Extend(NEW_STATE, steps, LockPartial(0, 0));
    steps := steps + [LockPartial(0, 0)];
    Extend(NEW_STATE, steps, TakeIdentity(0));
    steps := steps + [TakeIdentity(0)];
    Extend(NEW_STATE, steps, WriteJournal(0, "op"));
    steps := steps + [WriteJournal(0, "op")];
  }

  /** A pass that sees the target in one state and the partial in another finds the journaled file nowhere. */
  predicate FileUnseen(first: State, second: State) {
    && first.row.journal.Some? && first.target == None
    && second.partial != Some(first.row.journal.value.file)
    && !LeaseLive(second.row.task, second.now)
  }

  /** Were the two identities read at different instants, a rename in between would make recovery fail a task
      whose file is already at its target. */
  lemma SplitReadLosesFile() returns (steps: seq<Step>)
    ensures Feasible(NEW_STATE, steps) && Feasible(NEW_STATE, steps + [Rename(0)])
    ensures FileUnseen(Final(NEW_STATE, steps), Final(NEW_STATE, steps + [Rename(0)]))
    ensures var after := Final(NEW_STATE, steps + [Rename(0)]); !NeverLost(after.(row := FailRecovery(after.row)))
  {
    steps := JournaledRun();
    Extend(NEW_STATE, steps, Rename(0));
  }

  /** Worker 1 lost its lease; worker 2 has journaled its file when a cancellation is asked for, and both the run that
      holds the lock and the one that lost its lease are alive. */
  ghost predicate StaleCancel(s: State) {
    && s.runs == map[0 := Run(1, Stopping(true), None), 1 := Run(2, Journaled(FileId(0, 0, 0)), Some(0))] && s.passes == map[]
    && s.row.journal == Some(Journal("op", 2, FileId(0, 0, 0))) && s.partial == Some(FileId(0, 0, 0)) && s.target == None
    && s.published == None && s.nextInode == 1 && s.now == 0
    && s.row.task.status == Running && s.row.task.worker == Some(2) && s.row.task.lease == Some(0)
    && s.row.task.retryAt == None && s.row.operations == 0
  }

  lemma StaleCancelRun() returns (steps: seq<Step>)
    ensures Init(NEW_STATE) && Feasible(NEW_STATE, steps)
    ensures StaleCancel(Final(NEW_STATE, steps))
  {
    Extend(NEW_STATE, [], ClaimTask(0, 1, 0));
    steps := [] + [ClaimTask(0, 1, 0)];
    Extend(NEW_STATE, steps, ExpireLeases);
    steps := steps + [ExpireLeases];
    Extend(NEW_STATE, steps, ClaimTask(1, 2, 0));
    steps := steps + [ClaimTask(1, 2, 0)];
    Extend(NEW_STATE, steps, CheckTarget(1));
    steps := steps + [CheckTarget(1)];
    Extend(NEW_STATE, steps, LockPartial(1, 0));
    steps := steps + [LockPartial(1, 0)];
    steps := StaleCancelEnd(steps);
  }

  lemma StaleCancelEnd(early: seq<Step>) returns (steps: seq<Step>)
    requires Feasible(NEW_STATE, early)
    requires var s := Final(NEW_STATE, early);
             && s.runs == map[0 := Run(1, Claimed, None), 1 := Run(2, Transferring, Some(0))] && s.passes == map[]
             && s.row.journal == None && s.partial == Some(FileId(0, 0, 0)) && s.target == None
             && s.published == None && s.nextInode == 1 && s.now == 0
             && s.row.task.status == Running && s.row.task.worker == Some(2) && s.row.task.lease == Some(0)
             && s.row.task.control == None && s.row.task.retryAt == None && s.row.operations == 0
    ensures Feasible(NEW_STATE, steps) && StaleCancel(Final(NEW_STATE, steps))
  {
    steps := early;
    Extend(NEW_STATE, steps, TakeIdentity(1));
    steps := steps + [TakeIdentity(1)];
    Extend(NEW_STATE, steps, WriteJournal(1, "op"));
    steps := steps + [WriteJournal(1, "op")];
    steps := CancelSeen(steps);
  }

  lemma CancelSeen(early: seq<Step>) returns (steps: seq<Step>)
    requires Feasible(NEW_STATE, early)
    requires var s := Final(NEW_STATE, early);
             && s.runs == map[0 := Run(1, Claimed, None), 1 := Run(2, Journaled(FileId(0, 0, 0)), Some(0))] && s.passes == map[]
             && s.row.journal == Some(Journal("op", 2, FileId(0, 0, 0))) && s.partial == Some(FileId(0, 0, 0)) && s.target == None
             && s.published == None && s.nextInode == 1 && s.now == 0
             && s.row.task.status == Running && s.row.task.worker == Some(2) && s.row.task.lease == Some(0)
             && s.row.task.control == None && s.row.task.retryAt == None && s.row.operations == 0
    ensures Feasible(NEW_STATE, steps) && StaleCancel(Final(NEW_STATE, steps))
  {
    steps := early;
    Extend(NEW_STATE, steps, AskControl(Cancel));
    steps := steps + [AskControl(Cancel)];
    Extend(NEW_STATE, steps, SeeControl(0));
    steps := steps + [SeeControl(0)];
  }

  /** The stale run unlinks the partial that the other run is about to rename. Recovery then finds no file and fails the
      task, a third run starts a new partial, and the second run renames that one. */
  lemma AfterStaleUnlink(s: State) returns (steps: seq<Step>)
    requires StaleCancel(s)
    ensures Feasible(Unlink(s, 0), steps) && !NeverLost(Final(Unlink(s, 0), steps))
  {
    var t := Unlink(s, 0);
    Extend(t, [], StopRun(0));
    steps := [] + [StopRun(0)];
    Extend(t, steps, Look(0));
    steps := steps + [Look(0)];
    steps := StartOver(t, steps);
  }

  lemma StartOver(t: State, early: seq<Step>) returns (steps: seq<Step>)
    requires Feasible(t, early)
    requires var s := Final(t, early);
             && s.runs == map[1 := Run(2, Journaled(FileId(0, 0, 0)), Some(0))] && s.passes == map[]
             && s.row.journal == None && s.partial == None && s.target == None && s.published == None && s.nextInode == 1
             && s.row.task.status == Failed && s.now == 0
    ensures Feasible(t, steps) && !NeverLost(Final(t, steps))
  {
    steps := early;
    Extend(t, steps, UserTransition({Failed}, Queued));
    steps := steps + [UserTransition({Failed}, Queued)];
    Extend(t, steps, ClaimTask(2, 3, 0));
    steps := steps + [ClaimTask(2, 3, 0)];
    steps := RenameOther(t, steps);
  }

  lemma RenameOther(t: State, early: seq<Step>) returns (steps: seq<Step>)
    requires Feasible(t, early)
    requires var s := Final(t, early);
             && s.runs == map[1 := Run(2, Journaled(FileId(0, 0, 0)), Some(0)), 2 := Run(3, Claimed, None)] && s.passes == map[]
             && s.row.journal == None && s.partial == None && s.target == None && s.published == None && s.nextInode == 1
             && s.row.task.status == Running
    ensures Feasible(t, steps) && !NeverLost(Final(t, steps))
  {
    steps := early;
    Extend(t, steps, CheckTarget(2));
    steps := steps + [CheckTarget(2)];
    Extend(t, steps, LockPartial(2, 0));
    steps := steps + [LockPartial(2, 0)];
    Extend(t, steps, Rename(1));
    steps := steps + [Rename(1)];
  }

  /** The program takes no lock before it unlinks. A run reaches a state in which the lock is held, and in which a stale
      run's unlink leads to a file at the target that no journal row and no completed task accounts for. */
  lemma StaleCancelLosesFile() returns (steps: seq<Step>, rest: seq<Step>)
    ensures Feasible(NEW_STATE, steps) && LosesFile(Final(NEW_STATE, steps), rest)
  {
    steps := StaleCancelRun();
    assert 1 in Final(NEW_STATE, steps).runs;
    rest := AfterStaleUnlink(Final(NEW_STATE, steps));
  }

  /** Run 0 is about to unlink while the lock is held, and after its unlink `rest` loses a file. */
  ghost predicate LosesFile(s: State, rest: seq<Step>) {
    && 0 in s.runs && s.runs[0].stage == Stopping(true) && !PartialFree(s)
    && Feasible(Unlink(s, 0), rest) && !NeverLost(Final(Unlink(s, 0), rest))
  }

  /** The run `steps` starts with `early`, at whose end a pass may look and see no file, and ends completed. */
  ghost predicate CompletesAfterLook(early: seq<Step>, steps: seq<Step>) {
    && Feasible(NEW_STATE, early) && Feasible(NEW_STATE, steps) && early <= steps
    && FileUnseen(Final(NEW_STATE, early), Final(NEW_STATE, early))
    && Final(NEW_STATE, steps).row.task.status == Completed
  }

  /** Were a pass to act on an old look, its `fail_recovery` would turn a completed task into a failed one. */
  lemma StaleFailUndoesCompletion() returns (early: seq<Step>, steps: seq<Step>)
    ensures CompletesAfterLook(early, steps)
    ensures FailRecovery(Final(NEW_STATE, steps).row).task.status == Failed
  {
    early := CancelledRun();
    steps := SecondAttempt(early);
  }

  /** The run dies, its task is cancelled and its partial removed; the journal row stays. */
  lemma CancelledRun() returns (steps: seq<Step>)
    ensures Feasible(NEW_STATE, steps) && CancelledState(Final(NEW_STATE, steps))
  {
    steps := JournaledRun();
    Extend(NEW_STATE, steps, CrashRun(0));
    steps := steps + [CrashRun(0)];
    steps := CancelDead(steps);
  }

  lemma CancelDead(early: seq<Step>) returns (steps: seq<Step>)
    requires Feasible(NEW_STATE, early)
    requires var s := Final(NEW_STATE, early);
             && s.row.journal.Some? && s.row.task.status == Running && s.target == None && s.runs == map[] && s.passes == map[] && s.now == 0
    ensures Feasible(NEW_STATE, steps) && CancelledState(Final(NEW_STATE, steps))
  {
    steps := early;
    Extend(NEW_STATE, steps, UserTransition({Running}, Cancelled));
    steps := steps + [UserTransition({Running}, Cancelled)];
    Extend(NEW_STATE, steps, UserUnlink);
    steps := steps + [UserUnlink];
  }

  predicate CancelledState(s: State) {
    && s.row.journal.Some? && s.row.task.status == Cancelled && s.target == None && s.partial == None
    && s.runs == map[] && s.passes == map[] && s.row.task.retryAt == None && s.now == 0
  }

  /** The task is failed by another pass, retried by its user and completed by worker 2. */
  lemma SecondAttempt(early: seq<Step>) returns (steps: seq<Step>)
    requires Feasible(NEW_STATE, early) && CancelledState(Final(NEW_STATE, early))
    ensures Feasible(NEW_STATE, steps) && early <= steps
    ensures Final(NEW_STATE, steps).row.task.status == Completed
  {
    steps := early;
    Extend(NEW_STATE, steps, Look(0));
    steps := steps + [Look(0)];
    Extend(NEW_STATE, steps, UserTransition({Failed}, Queued));
    steps := steps + [UserTransition({Failed}, Queued)];
    Extend(NEW_STATE, steps, ClaimTask(1, 2, 0));
    steps := steps + [ClaimTask(1, 2, 0)];
    steps := ThirdAttempt(steps);
  }

  lemma ThirdAttempt(early: seq<Step>) returns (steps: seq<Step>)
    requires Feasible(NEW_STATE, early)
    requires var s := Final(NEW_STATE, early);
             && s.row.journal.None? && s.row.task.status == Running && s.row.task.worker == Some(2) && s.row.task.control == None && s.target == None
             && s.partial == None && s.runs == map[1 := Run(2, Claimed, None)] && s.passes == map[]
    ensures Feasible(NEW_STATE, steps) && early <= steps
    ensures Final(NEW_STATE, steps).row.task.status == Completed
  {
    steps := early;
    Extend(NEW_STATE, steps, CheckTarget(1));
    steps := steps + [CheckTarget(1)];
    Extend(NEW_STATE, steps, LockPartial(1, 0));
    steps := steps + [LockPartial(1, 0)];
    Extend(NEW_STATE, steps, TakeIdentity(1));
    steps := steps + [TakeIdentity(1)];
    steps := PublishReady(steps);
  }

  lemma PublishReady(early: seq<Step>) returns (steps: seq<Step>)
    requires Feasible(NEW_STATE, early)
    requires var s := Final(NEW_STATE, early);
             && s.row.task.status == Running && s.row.task.worker == Some(2) && s.row.task.control == None && s.target == None
             && 1 in s.runs && s.runs[1].worker == 2 && s.runs[1].stage.Ready? && s.partial == Some(s.runs[1].stage.file)
    ensures Feasible(NEW_STATE, steps) && early <= steps
    ensures Final(NEW_STATE, steps).row.task.status == Completed
  {
    steps := early;
    Extend(NEW_STATE, steps, WriteJournal(1, "op"));
    steps := steps + [WriteJournal(1, "op")];
    Extend(NEW_STATE, steps, Rename(1));
    steps := steps + [Rename(1)];
    Extend(NEW_STATE, steps, SyncTarget(1));
    steps := steps + [SyncTarget(1)];
    Extend(NEW_STATE, steps, FinalizeRun(1, "op"));
    steps := steps + [FinalizeRun(1, "op")];
  }
}
