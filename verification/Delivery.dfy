/** Transfer and publication together: what is at the target of a completed task
    (apps/downloader/src/download.rs, apps/api/src/routes/downloads.ts). */
module Delivery {
  import opened Base
  import opened DownloadRows
  import P = Publication
  import T = Transfer

  /** `transfer.file` is the content of the partial file, `target` that of the file at the target. */
  datatype State = State(protocol: P.State, transfer: T.State, target: T.Bytes)

  datatype Step =
    | Protocol(step: P.Step)
    | Move(run: nat, move: T.Step)                // the run that holds the lock goes on with its transfer
    | Take(run: nat)                              // and takes the identity of the finished file
    | Retry(from: set<Status>, to: Status)        // a user's retry that resets the progress
    | Lose(image: T.Bytes, undo: bool)            // power fails: every process is gone, and what was not synced may be

  // ----- steps

  /** The run held the lock; its transfer ends with it. */
  predicate EndsTransfer(s: P.State, step: P.Step) {
    (step.FailRun? || step.SeeControl? || step.CrashRun?) && step.run in s.runs && s.runs[step.run].lock.Some?
  }

  /** The partial's name goes away; what is stored about it stays. */
  predicate Removes(step: P.Step) { step.UnlinkRun? || step.UnlinkPass? || step.UserUnlink? || step.Rename? }

  function TransferAfter(s: State, step: P.Step): T.State {
    if Removes(step) then s.transfer.(file := [], disk := [], stage := T.Idle)
    else if step.LockPartial? then s.transfer.(stage := T.Idle, shutdown := false)
    else if EndsTransfer(s.protocol, step) then s.transfer.(stage := T.Idle)
    else s.transfer
  }

  predicate InRun(move: T.Step) { !(move.Publish? || move.PowerLoss? || move.NewProcess? || move.Unlink? || move.Forget?) }

  /** The move changes what the database stores. */
  ghost predicate Stores(t: T.State, move: T.Step)
    requires T.Enabled(t, move)
  {
    T.Apply(t, move).rows != t.rows || T.Apply(t, move).received != t.received
  }

  ghost predicate Enabled(s: State, step: Step) {
    match step
    case Protocol(ps) => P.Enabled(s.protocol, ps) && !ps.WritePartial? && !ps.TakeIdentity? && !ps.Outage?
    case Move(run, move) =>
      && P.Enabled(s.protocol, P.WritePartial(run, 0)) && T.Enabled(s.transfer, move) && InRun(move)
      // Progress and rows are written for the task's owner only.
      && (Stores(s.transfer, move) ==> Owned(s.protocol.row.task, s.protocol.runs[run].worker))
    case Take(run) => P.Enabled(s.protocol, P.TakeIdentity(run)) && T.Enabled(s.transfer, T.Publish)
    case Retry(from, to) => P.Enabled(s.protocol, P.UserTransition(from, to)) && s.protocol.row.task.status in from
    case Lose(image, undo) => P.Enabled(s.protocol, P.Outage(|image|, undo)) && T.Survives(image, s.transfer.file, s.transfer.disk)
  }

  ghost function Apply(s: State, step: Step): State
    requires Enabled(s, step)
  {
    match step
    case Protocol(ps) =>
      State(P.Apply(s.protocol, ps), TransferAfter(s, ps), if ps.Rename? then s.transfer.file else s.target)
    case Move(run, move) =>
      var t := T.Apply(s.transfer, move);
      s.(protocol := P.Apply(s.protocol, P.WritePartial(run, |t.file|)), transfer := t)
    case Take(run) => s.(protocol := P.Apply(s.protocol, P.TakeIdentity(run)), transfer := T.Apply(s.transfer, T.Publish))
    case Retry(from, to) =>
      s.(protocol := P.Apply(s.protocol, P.UserTransition(from, to)), transfer := T.Apply(s.transfer, T.Forget))
    case Lose(image, undo) =>
      s.(protocol := P.Apply(s.protocol, P.Outage(|image|, undo)),
         transfer := if undo then Back(s.transfer, s.target) else T.Apply(s.transfer, T.PowerLoss(image)))
  }

  /** The file at the target is the partial again; it was synced before its rename. */
  function Back(t: T.State, target: T.Bytes): T.State { t.(file := target, disk := target, stage := T.Idle, shutdown := false) }

  ghost predicate Feasible(s: State, steps: seq<Step>)
    decreases |steps|
  {
    steps == [] || (Enabled(s, steps[0]) && Feasible(Apply(s, steps[0]), steps[1..]))
  }

  ghost function Final(s: State, steps: seq<Step>): State
    requires Feasible(s, steps)
    decreases |steps|
  {
    if steps == [] then s else Final(Apply(s, steps[0]), steps[1..])
  }

  /** A task nobody has started; an old partial may lie around, and counts for nothing. */
  ghost predicate Init(s: State) {
    && P.Init(s.protocol) && T.Init(s.transfer)
    && (s.protocol.partial.None? ==> s.transfer.file == [] && s.transfer.disk == [])
  }

  // ----- the invariant

  predicate IsReady(run: P.Run) { run.stage.Ready? || run.stage.Journaled? }

  /** A run whose file is ready for publication, or journaled, has the whole source in the partial. */
  ghost predicate ReadyIsSource(s: State) {
    forall r | r in s.protocol.runs && IsReady(s.protocol.runs[r]) :: s.transfer.stage.Publishing?
  }

  /** Until something is published, the transfer is in order and describes the partial. */
  ghost predicate Before(s: State) {
    && T.Inv(s.transfer) && ReadyIsSource(s)
    && (s.protocol.partial.None? ==> s.transfer.file == [] && s.transfer.disk == [])
  }

  /** Then the target has the source, and as long as the rename may be undone, so may the transfer be taken up again. */
  ghost predicate After(s: State) { s.target == s.transfer.src && (s.protocol.durable || T.RowsFit(s.transfer)) }

  ghost predicate Inv(s: State) { P.Inv(s.protocol) && if s.protocol.published.Some? then After(s) else Before(s) }

  /** The partial is removed while nobody transfers: what is stored now counts bytes that are gone. */
  lemma RemovedInv(t: T.State)
    requires T.Inv(t)
    ensures T.Inv(t.(file := [], disk := [], stage := T.Idle))
  {}

  /** An interrupted transfer keeps what it has stored. */
  lemma IdleInv(t: T.State, shutdown: bool)
    requires T.Inv(t)
    ensures T.Inv(t.(stage := T.Idle, shutdown := shutdown))
  {
    var u := t.(stage := T.Idle, shutdown := shutdown);
    if T.Claims(t) {
      assert forall k: nat | T.Held(t, k) :: T.Held(u, k);
      T.ClaimsCarry(t, u);
    }
  }

  /** A file that is wholly the source makes good whatever the rows count. */
  lemma BackInv(t: T.State)
    requires T.RowsFit(t)
    ensures T.Inv(Back(t, t.src))
  {
    var u := Back(t, t.src);
    assert forall k: nat | k < |t.src| :: T.Held(u, k);
    forall i, k: nat | 0 <= i < |u.rows| && u.rows[i].start <= k < u.rows[i].next
      ensures T.Held(u, k)
    {
      T.TileBounds(u.rows, |u.src|, i);
    }
  }

  /** Nothing but a rename publishes, and only a power failure takes it back. */
  lemma PublishedStays(p: P.State, step: P.Step)
    requires P.Enabled(p, step) && !step.Rename? && !step.Outage?
    ensures P.Apply(p, step).published == p.published
    ensures p.durable ==> P.Apply(p, step).durable
  {}

  /** The lock is held by one run: if a file is ready, no other run has a lock and no pass has one. */
  lemma OneHolder(p: P.State, r: nat)
    requires P.Inv(p) && p.published.None? && r in p.runs && IsReady(p.runs[r])
    ensures p.partial.Some? && p.runs[r].lock == Some(p.partial.value.inode)
    ensures forall q | q in p.runs && q != r :: p.runs[q].lock.None? && !IsReady(p.runs[q])
    ensures forall q | q in p.passes :: !p.passes[q].HoldsLock()
  {
    assert P.RunHolds(p, p.runs[r]);
    forall q | q in p.runs && q != r ensures p.runs[q].lock.None? && !IsReady(p.runs[q]) {
      assert P.RunHolds(p, p.runs[q]);
    }
    forall q | q in p.passes ensures !p.passes[q].HoldsLock() {
      assert P.PassHolds(p, p.passes[q]);
    }
  }

  /** Only taking the identity makes a file ready. */
  lemma ReadyBefore(p: P.State, step: P.Step, r: nat)
    requires P.Enabled(p, step) && !step.TakeIdentity?
    requires r in P.Apply(p, step).runs && IsReady(P.Apply(p, step).runs[r])
    ensures r in p.runs && IsReady(p.runs[r])
  {
    if P.FileStep(step) {
      ReadyBeforeFile(p, step, r);
    }
  }

  lemma ReadyBeforeFile(p: P.State, step: P.Step, r: nat)
    requires P.Enabled(p, step) && P.FileStep(step)
    requires r in P.Apply(p, step).runs && IsReady(P.Apply(p, step).runs[r])
    ensures r in p.runs && IsReady(p.runs[r])
  {}

  /** While a run has a file ready and keeps it, nobody else removes the partial, takes its lock or has one to give up. */
  lemma ReadyIsAlone(p: P.State, step: P.Step, r: nat)
    requires P.Inv(p) && p.published.None? && P.Enabled(p, step)
    requires r in p.runs && IsReady(p.runs[r]) && r in P.Apply(p, step).runs && IsReady(P.Apply(p, step).runs[r])
    ensures !Removes(step) && !step.LockPartial? && !EndsTransfer(p, step)
  {
    OneHolder(p, r);
    if Removes(step) {
      NotRemoved(p, step, r);
    } else if step.LockPartial? {
      NotLocked(p, step, r);
    } else if EndsTransfer(p, step) {
      NotEnded(p, step, r);
    }
  }

  lemma NotRemoved(p: P.State, step: P.Step, r: nat)
    requires P.Enabled(p, step) && r in p.runs && IsReady(p.runs[r]) && p.runs[r].lock.Some?
    requires forall q | q in p.passes :: !p.passes[q].HoldsLock()
    requires forall q | q in p.runs && q != r :: !IsReady(p.runs[q])
    ensures Removes(step) ==> step.Rename? && step.run == r
  {}

  lemma NotLocked(p: P.State, step: P.Step, r: nat)
    requires P.Enabled(p, step) && r in p.runs && p.partial.Some? && p.runs[r].lock == Some(p.partial.value.inode)
    ensures !step.LockPartial?
  {}

  lemma NotEnded(p: P.State, step: P.Step, r: nat)
    requires P.Enabled(p, step) && r in p.runs && forall q | q in p.runs && q != r :: p.runs[q].lock.None?
    requires r in P.Apply(p, step).runs && IsReady(P.Apply(p, step).runs[r])
    ensures !EndsTransfer(p, step)
  {}

  lemma PartialGone(p: P.State, step: P.Step)
    requires P.Enabled(p, step) && P.Apply(p, step).partial.None? && !step.Outage?
    ensures p.partial.None? || Removes(step)
  {}

  lemma TransferStepInv(s: State, ps: P.Step)
    requires T.Inv(s.transfer)
    ensures T.Inv(TransferAfter(s, ps))
  {
    RemovedInv(s.transfer);
    IdleInv(s.transfer, false);
    IdleInv(s.transfer, s.transfer.shutdown);
  }

  /** The protocol takes a step before anything is published. */
  lemma BeforeKept(s: State, ps: P.Step)
    requires Inv(s) && s.protocol.published.None? && Enabled(s, Protocol(ps)) && !ps.Rename?
    ensures Before(Apply(s, Protocol(ps)))
  {
    var p := s.protocol;
    var after := Apply(s, Protocol(ps));
    TransferStepInv(s, ps);
    forall r | r in after.protocol.runs && IsReady(after.protocol.runs[r])
      ensures after.transfer.stage.Publishing?
    {
      ReadyBefore(p, ps, r);
      ReadyIsAlone(p, ps, r);
    }
    if after.protocol.partial.None? {
      PartialGone(p, ps);
    }
  }

  /** Rows and counts outlive every step of the protocol. */
  lemma RowsStay(s: State, ps: P.Step)
    ensures TransferAfter(s, ps).rows == s.transfer.rows && TransferAfter(s, ps).received == s.transfer.received
    ensures TransferAfter(s, ps).src == s.transfer.src
  {}

  lemma RenameInv(s: State, ps: P.Step)
    requires Inv(s) && Enabled(s, Protocol(ps)) && ps.Rename?
    ensures Inv(Apply(s, Protocol(ps)))
  {
    P.StepInv(s.protocol, ps);
    assert P.RunHolds(s.protocol, s.protocol.runs[ps.run]);
    RowsStay(s, ps);
  }

  lemma ProtocolInv(s: State, ps: P.Step)
    requires Inv(s) && Enabled(s, Protocol(ps))
    ensures Inv(Apply(s, Protocol(ps)))
  {
    if ps.Rename? {
      RenameInv(s, ps);
    } else {
      P.StepInv(s.protocol, ps);
      PublishedStays(s.protocol, ps);
      if s.protocol.published.None? {
        BeforeKept(s, ps);
      } else {
        RowsStay(s, ps);
      }
    }
  }

  /** Nor is a file ready while a run still transfers. */
  lemma NoneReady(p: P.State, run: nat)
    requires P.Inv(p) && p.published.None? && run in p.runs && p.runs[run].stage.Transferring?
    ensures forall r | r in p.runs :: !IsReady(p.runs[r])
  {
    assert P.RunHolds(p, p.runs[run]);
    forall r | r in p.runs
      ensures P.RunHolds(p, p.runs[r])
    {}
  }

  /** Once a file is published and until its task is completed, no run that transfers has the task. */
  lemma NoneOwns(p: P.State, run: nat)
    requires P.Inv(p) && p.published.Some? && !p.durable && run in p.runs && p.runs[run].stage.Transferring?
    ensures !Owned(p.row.task, p.runs[run].worker)
  {
    assert P.NeverLost(p) && p.row.journal.Some?;
  }

  lemma SourceStays(t: T.State, move: T.Step)
    requires T.Enabled(t, move)
    ensures T.Apply(t, move).src == t.src
  {}

  lemma MoveInv(s: State, run: nat, move: T.Step)
    requires Inv(s) && Enabled(s, Move(run, move))
    ensures Inv(Apply(s, Move(run, move)))
  {
    var p, t := s.protocol, s.transfer;
    var write := P.WritePartial(run, |T.Apply(t, move).file|);
    P.StepInv(p, write);
    PublishedStays(p, write);
    SourceStays(t, move);
    if p.published.None? {
      T.StepInv(t, move);
      NoneReady(p, run);
    } else if !p.durable {
      NoneOwns(p, run);
    }
  }

  lemma TakeInv(s: State, run: nat)
    requires Inv(s) && Enabled(s, Take(run))
    ensures Inv(Apply(s, Take(run)))
  {
    P.StepInv(s.protocol, P.TakeIdentity(run));
    PublishedStays(s.protocol, P.TakeIdentity(run));
    if s.protocol.published.None? {
      T.StepInv(s.transfer, T.Publish);
    }
  }

  lemma RetryInv(s: State, from: set<Status>, to: Status)
    requires Inv(s) && Enabled(s, Retry(from, to))
    ensures Inv(Apply(s, Retry(from, to)))
  {
    P.StepInv(s.protocol, P.UserTransition(from, to));
    if s.protocol.published.None? {
      RetryBefore(s, from, to);
    }
  }

  lemma RetryBefore(s: State, from: set<Status>, to: Status)
    requires Before(s) && Enabled(s, Retry(from, to))
    ensures Before(Apply(s, Retry(from, to)))
  {
    T.ForgetInv(s.transfer, T.Forget);
  }

  lemma LoseInv(s: State, image: T.Bytes, undo: bool)
    requires Inv(s) && Enabled(s, Lose(image, undo))
    ensures Inv(Apply(s, Lose(image, undo)))
  {
    P.StepInv(s.protocol, P.Outage(|image|, undo));
    if undo {
      BackInv(s.transfer);
    } else if s.protocol.published.None? {
      T.StepInv(s.transfer, T.PowerLoss(image));
    }
  }

  lemma StepInv(s: State, step: Step)
    requires Inv(s) && Enabled(s, step)
    ensures Inv(Apply(s, step))
  {
    match step
    case Protocol(ps) => ProtocolInv(s, ps);
    case Move(run, move) => MoveInv(s, run, move);
    case Take(run) => TakeInv(s, run);
    case Retry(from, to) => RetryInv(s, from, to);
    case Lose(image, undo) => LoseInv(s, image, undo);
  }

  lemma StepSource(s: State, step: Step)
    requires Enabled(s, step)
    ensures Apply(s, step).transfer.src == s.transfer.src
  {
    if step.Move? {
      SourceStays(s.transfer, step.move);
    }
  }

  lemma {:induction false} RunsKeepInv(s: State, steps: seq<Step>)
    requires Inv(s) && Feasible(s, steps)
    ensures Inv(Final(s, steps)) && Final(s, steps).transfer.src == s.transfer.src
    decreases |steps|
  {
    if steps != [] {
      StepInv(s, steps[0]);
      StepSource(s, steps[0]);
      RunsKeepInv(Apply(s, steps[0]), steps[1..]);
    }
  }

  /** Over every run of workers, recovery passes, users and power failures: the file at the target of a completed task is
      the one a run renamed there, and it is byte for byte the source. */
  lemma DeliveredIsSource(s: State, steps: seq<Step>)
    requires Init(s) && Feasible(s, steps) && Final(s, steps).protocol.row.task.status == Completed
    ensures var t := Final(s, steps);
            t.protocol.published.Some? && t.protocol.target == t.protocol.published && t.target == s.transfer.src
  {
    P.InitInv(s.protocol);
    RunsKeepInv(s, steps);
  }

  // ----- a run that needs the guard

  lemma {:induction false} Extend(s: State, steps: seq<Step>, step: Step)
    requires Feasible(s, steps) && Enabled(Final(s, steps), step)
    ensures Feasible(s, steps + [step]) && Final(s, steps + [step]) == Apply(Final(s, steps), step)
    decreases |steps|
  {
    if steps == [] {
      assert steps + [step] == [step];
      assert [step][1..] == [];
    } else {
      Extend(Apply(s, steps[0]), steps[1..], step);
      assert (steps + [step])[1..] == steps[1..] + [step];
    }
  }

  /** The step can be taken and leads to `t`. */
  ghost predicate Leads(s: State, step: Step, t: State) { Enabled(s, step) && Apply(s, step) == t }

  lemma ExtendTo(s: State, steps: seq<Step>, step: Step, t: State)
    requires Feasible(s, steps) && Leads(Final(s, steps), step, t)
    ensures Feasible(s, steps + [step]) && Final(s, steps + [step]) == t
  {
    Extend(s, steps, step);
  }

  function Start(src: T.Bytes): State { At(P.NEW_TASK, map[], None, 0, T.Fresh(src)) }

  /** The states of the run: rows, live runs, the partial, the next inode and the transfer. */
  function At(row: Row, runs: map<nat, P.Run>, partial: Option<FileId>, next: nat, transfer: T.State): State {
    State(P.State(0, row, partial, None, next, runs, map[], None, true), transfer, [])
  }

  function One(stage: P.Stage, lock: Option<nat>): map<nat, P.Run> { map[0 := P.Run(1, stage, lock)] }

  function Two(stage: P.Stage, lock: Option<nat>): map<nat, P.Run> { map[1 := P.Run(2, stage, lock)] }

  const FILE: FileId := FileId(0, 0, 1)
  const CLAIMED: Row := DownloadRows.Claim(P.NEW_TASK, 1, 0)
  const JOURNALED: Row := BeginPublish(CLAIMED, Journal("op", 1, FILE))
  const ASKED: Row := RequestControl(JOURNALED, Cancel)
  const FAILED: Row := FailRecovery(ASKED)
  const RETRIED: Row := Transition(FAILED, {Failed}, Queued)
  const RECLAIMED: Row := DownloadRows.Claim(RETRIED, 2, 0)

  function Fetching(src: T.Bytes, file: T.Bytes, received: int, stage: T.Stage): T.State {
    T.State(src, file, if stage.Returned? || stage.Publishing? then file else [], [], received, stage, false)
  }

  /** One byte is counted, and there is no partial. */
  function Bare(src: T.Bytes): T.State { T.State(src, [], [], [], 1, T.Idle, false) }

  function Fetched(src: T.Bytes, stage: T.Stage): T.State { Fetching(src, src, 1, stage) }

  /** A run claims the task and locks a new partial. */
  lemma Locks1(src: T.Bytes)
    requires |src| == 1
    ensures Leads(Start(src), Protocol(P.ClaimTask(0, 1, 0)), At(CLAIMED, One(P.Claimed, None), None, 0, T.Fresh(src)))
  {}

  lemma Locks2(src: T.Bytes)
    requires |src| == 1
    ensures Leads(At(CLAIMED, One(P.Claimed, None), None, 0, T.Fresh(src)), Protocol(P.CheckTarget(0)), At(CLAIMED, One(P.Checked, None), None, 0, T.Fresh(src)))
  {}

  lemma Locks3(src: T.Bytes)
    requires |src| == 1
    ensures Leads(At(CLAIMED, One(P.Checked, None), None, 0, T.Fresh(src)), Protocol(P.LockPartial(0, 0)), At(CLAIMED, One(P.Transferring, Some(0)), Some(FileId(0, 0, 0)), 1, T.Fresh(src)))
  {}

  /** A single stream fetches the one byte. */
  lemma Fetches1(src: T.Bytes)
    requires |src| == 1
    ensures Leads(At(CLAIMED, One(P.Transferring, Some(0)), Some(FileId(0, 0, 0)), 1, T.Fresh(src)), Move(0, T.StartSingle(true)), At(CLAIMED, One(P.Transferring, Some(0)), Some(FileId(0, 0, 0)), 1, Fetching(src, [], 0, T.Single(0, false))))
  {}

  lemma Fetches2(src: T.Bytes)
    requires |src| == 1
    ensures Leads(At(CLAIMED, One(P.Transferring, Some(0)), Some(FileId(0, 0, 0)), 1, Fetching(src, [], 0, T.Single(0, false))), Move(0, T.WriteSingle(1)), At(CLAIMED, One(P.Transferring, Some(0)), Some(FILE), 1, Fetching(src, src, 0, T.Single(1, false))))
  {}

  lemma Fetches3(src: T.Bytes)
    requires |src| == 1
    ensures Leads(At(CLAIMED, One(P.Transferring, Some(0)), Some(FILE), 1, Fetching(src, src, 0, T.Single(1, false))), Move(0, T.EndSingle), At(CLAIMED, One(P.Transferring, Some(0)), Some(FILE), 1, Fetched(src, T.Returned(1))))
  {}

  /** It journals the file, and a cancellation is asked for. */
  lemma Journals1(src: T.Bytes)
    requires |src| == 1
    ensures Leads(At(CLAIMED, One(P.Transferring, Some(0)), Some(FILE), 1, Fetched(src, T.Returned(1))), Take(0), At(CLAIMED, One(P.Ready(FILE), Some(0)), Some(FILE), 1, Fetched(src, T.Publishing(1))))
  {}

  lemma Journals2(src: T.Bytes)
    requires |src| == 1
    ensures Leads(At(CLAIMED, One(P.Ready(FILE), Some(0)), Some(FILE), 1, Fetched(src, T.Publishing(1))), Protocol(P.WriteJournal(0, "op")), At(JOURNALED, One(P.Journaled(FILE), Some(0)), Some(FILE), 1, Fetched(src, T.Publishing(1))))
  {}

  lemma Journals3(src: T.Bytes)
    requires |src| == 1
    ensures Leads(At(JOURNALED, One(P.Journaled(FILE), Some(0)), Some(FILE), 1, Fetched(src, T.Publishing(1))), Protocol(P.AskControl(Cancel)), At(ASKED, One(P.Journaled(FILE), Some(0)), Some(FILE), 1, Fetched(src, T.Publishing(1))))
  {}

  /** The rename fails; the run sees the request, removes the partial and dies. */
  lemma Dies1(src: T.Bytes)
    requires |src| == 1
    ensures Leads(At(ASKED, One(P.Journaled(FILE), Some(0)), Some(FILE), 1, Fetched(src, T.Publishing(1))), Protocol(P.SeeControl(0)), At(ASKED, One(P.Stopping(true), None), Some(FILE), 1, Fetched(src, T.Publishing(1)).(stage := T.Idle)))
  {}

  lemma Dies2(src: T.Bytes)
    requires |src| == 1
    ensures Leads(At(ASKED, One(P.Stopping(true), None), Some(FILE), 1, Fetched(src, T.Publishing(1)).(stage := T.Idle)), Protocol(P.UnlinkRun(0)), At(ASKED, One(P.Unlinked, None), None, 1, Bare(src)))
  {}

  lemma Dies3(src: T.Bytes)
    requires |src| == 1
    ensures Leads(At(ASKED, One(P.Unlinked, None), None, 1, Bare(src)), Protocol(P.CrashRun(0)), At(ASKED, map[], None, 1, Bare(src)))
  {}

  /** Recovery finds no file and fails the task; its user tries again, which resets nothing. */
  lemma FailsAndRetries1(src: T.Bytes)
    requires |src| == 1
    ensures Leads(At(ASKED, map[], None, 1, Bare(src)), Protocol(P.Look(0)), At(FAILED, map[], None, 1, Bare(src)))
  {}

  lemma FailsAndRetries2(src: T.Bytes)
    requires |src| == 1
    ensures Leads(At(FAILED, map[], None, 1, Bare(src)), Protocol(P.UserTransition({Failed}, Queued)), At(RETRIED, map[], None, 1, Bare(src)))
  {}

  /** Another run has the task and the lock on a new partial. */
  lemma TakesOver1(src: T.Bytes)
    requires |src| == 1
    ensures Leads(At(RETRIED, map[], None, 1, Bare(src)), Protocol(P.ClaimTask(1, 2, 0)), At(RECLAIMED, Two(P.Claimed, None), None, 1, Bare(src)))
  {}

  lemma TakesOver2(src: T.Bytes)
    requires |src| == 1
    ensures Leads(At(RECLAIMED, Two(P.Claimed, None), None, 1, Bare(src)), Protocol(P.CheckTarget(1)), At(RECLAIMED, Two(P.Checked, None), None, 1, Bare(src)))
  {}

  lemma TakesOver3(src: T.Bytes)
    requires |src| == 1
    ensures Leads(At(RECLAIMED, Two(P.Checked, None), None, 1, Bare(src)), Protocol(P.LockPartial(1, 0)), At(RECLAIMED, Two(P.Transferring, Some(1)), Some(FileId(0, 1, 0)), 2, Bare(src)))
  {}

  lemma Locks(s: State, early: seq<Step>, src: T.Bytes) returns (steps: seq<Step>)
    requires |src| == 1 && Feasible(s, early) && Final(s, early) == Start(src)
    ensures Feasible(s, steps) && Final(s, steps) == At(CLAIMED, One(P.Transferring, Some(0)), Some(FileId(0, 0, 0)), 1, T.Fresh(src))
  {
    steps := early;
    Locks1(src);
    ExtendTo(s, steps, Protocol(P.ClaimTask(0, 1, 0)), At(CLAIMED, One(P.Claimed, None), None, 0, T.Fresh(src)));
    steps := steps + [Protocol(P.ClaimTask(0, 1, 0))];
    Locks2(src);
    ExtendTo(s, steps, Protocol(P.CheckTarget(0)), At(CLAIMED, One(P.Checked, None), None, 0, T.Fresh(src)));
    steps := steps + [Protocol(P.CheckTarget(0))];
    Locks3(src);
    ExtendTo(s, steps, Protocol(P.LockPartial(0, 0)), At(CLAIMED, One(P.Transferring, Some(0)), Some(FileId(0, 0, 0)), 1, T.Fresh(src)));
    steps := steps + [Protocol(P.LockPartial(0, 0))];
  }

  lemma Fetches(s: State, early: seq<Step>, src: T.Bytes) returns (steps: seq<Step>)
    requires |src| == 1 && Feasible(s, early) && Final(s, early) == At(CLAIMED, One(P.Transferring, Some(0)), Some(FileId(0, 0, 0)), 1, T.Fresh(src))
    ensures Feasible(s, steps) && Final(s, steps) == At(CLAIMED, One(P.Transferring, Some(0)), Some(FILE), 1, Fetched(src, T.Returned(1)))
  {
    steps := early;
    Fetches1(src);
    ExtendTo(s, steps, Move(0, T.StartSingle(true)), At(CLAIMED, One(P.Transferring, Some(0)), Some(FileId(0, 0, 0)), 1, Fetching(src, [], 0, T.Single(0, false))));
    steps := steps + [Move(0, T.StartSingle(true))];
    Fetches2(src);
    ExtendTo(s, steps, Move(0, T.WriteSingle(1)), At(CLAIMED, One(P.Transferring, Some(0)), Some(FILE), 1, Fetching(src, src, 0, T.Single(1, false))));
    steps := steps + [Move(0, T.WriteSingle(1))];
    Fetches3(src);
    ExtendTo(s, steps, Move(0, T.EndSingle), At(CLAIMED, One(P.Transferring, Some(0)), Some(FILE), 1, Fetched(src, T.Returned(1))));
    steps := steps + [Move(0, T.EndSingle)];
  }

  lemma Journals(s: State, early: seq<Step>, src: T.Bytes) returns (steps: seq<Step>)
    requires |src| == 1 && Feasible(s, early) && Final(s, early) == At(CLAIMED, One(P.Transferring, Some(0)), Some(FILE), 1, Fetched(src, T.Returned(1)))
    ensures Feasible(s, steps) && Final(s, steps) == At(ASKED, One(P.Journaled(FILE), Some(0)), Some(FILE), 1, Fetched(src, T.Publishing(1)))
  {
    steps := early;
    Journals1(src);
    ExtendTo(s, steps, Take(0), At(CLAIMED, One(P.Ready(FILE), Some(0)), Some(FILE), 1, Fetched(src, T.Publishing(1))));
    steps := steps + [Take(0)];
    Journals2(src);
    ExtendTo(s, steps, Protocol(P.WriteJournal(0, "op")), At(JOURNALED, One(P.Journaled(FILE), Some(0)), Some(FILE), 1, Fetched(src, T.Publishing(1))));
    steps := steps + [Protocol(P.WriteJournal(0, "op"))];
    Journals3(src);
    ExtendTo(s, steps, Protocol(P.AskControl(Cancel)), At(ASKED, One(P.Journaled(FILE), Some(0)), Some(FILE), 1, Fetched(src, T.Publishing(1))));
    steps := steps + [Protocol(P.AskControl(Cancel))];
  }

  lemma Dies(s: State, early: seq<Step>, src: T.Bytes) returns (steps: seq<Step>)
    requires |src| == 1 && Feasible(s, early) && Final(s, early) == At(ASKED, One(P.Journaled(FILE), Some(0)), Some(FILE), 1, Fetched(src, T.Publishing(1)))
    ensures Feasible(s, steps) && Final(s, steps) == At(ASKED, map[], None, 1, Bare(src))
  {
    steps := early;
    Dies1(src);
    ExtendTo(s, steps, Protocol(P.SeeControl(0)), At(ASKED, One(P.Stopping(true), None), Some(FILE), 1, Fetched(src, T.Publishing(1)).(stage := T.Idle)));
    steps := steps + [Protocol(P.SeeControl(0))];
    Dies2(src);
    ExtendTo(s, steps, Protocol(P.UnlinkRun(0)), At(ASKED, One(P.Unlinked, None), None, 1, Bare(src)));
    steps := steps + [Protocol(P.UnlinkRun(0))];
    Dies3(src);
    ExtendTo(s, steps, Protocol(P.CrashRun(0)), At(ASKED, map[], None, 1, Bare(src)));
    steps := steps + [Protocol(P.CrashRun(0))];
  }

  lemma FailsAndRetries(s: State, early: seq<Step>, src: T.Bytes) returns (steps: seq<Step>)
    requires |src| == 1 && Feasible(s, early) && Final(s, early) == At(ASKED, map[], None, 1, Bare(src))
    ensures Feasible(s, steps) && Final(s, steps) == At(RETRIED, map[], None, 1, Bare(src))
  {
    steps := early;
    FailsAndRetries1(src);
    ExtendTo(s, steps, Protocol(P.Look(0)), At(FAILED, map[], None, 1, Bare(src)));
    steps := steps + [Protocol(P.Look(0))];
    FailsAndRetries2(src);
    ExtendTo(s, steps, Protocol(P.UserTransition({Failed}, Queued)), At(RETRIED, map[], None, 1, Bare(src)));
    steps := steps + [Protocol(P.UserTransition({Failed}, Queued))];
  }

  lemma TakesOver(s: State, early: seq<Step>, src: T.Bytes) returns (steps: seq<Step>)
    requires |src| == 1 && Feasible(s, early) && Final(s, early) == At(RETRIED, map[], None, 1, Bare(src))
    ensures Feasible(s, steps) && Final(s, steps) == At(RECLAIMED, Two(P.Transferring, Some(1)), Some(FileId(0, 1, 0)), 2, Bare(src))
  {
    steps := early;
    TakesOver1(src);
    ExtendTo(s, steps, Protocol(P.ClaimTask(1, 2, 0)), At(RECLAIMED, Two(P.Claimed, None), None, 1, Bare(src)));
    steps := steps + [Protocol(P.ClaimTask(1, 2, 0))];
    TakesOver2(src);
    ExtendTo(s, steps, Protocol(P.CheckTarget(1)), At(RECLAIMED, Two(P.Checked, None), None, 1, Bare(src)));
    steps := steps + [Protocol(P.CheckTarget(1))];
    TakesOver3(src);
    ExtendTo(s, steps, Protocol(P.LockPartial(1, 0)), At(RECLAIMED, Two(P.Transferring, Some(1)), Some(FileId(0, 1, 0)), 2, Bare(src)));
    steps := steps + [Protocol(P.LockPartial(1, 0))];
  }

  /** A run has the task and the lock on an empty partial, and a byte of an earlier one is still counted. */
  lemma StaleProgress(src: T.Bytes) returns (steps: seq<Step>)
    requires |src| == 1
    ensures Init(Start(src)) && Feasible(Start(src), steps)
    ensures Final(Start(src), steps) == At(RECLAIMED, Two(P.Transferring, Some(1)), Some(FileId(0, 1, 0)), 2, Bare(src))
  {
    var s := Start(src);
    steps := [];
    steps := Locks(s, steps, src);
    steps := Fetches(s, steps, src);
    steps := Journals(s, steps, src);
    steps := Dies(s, steps, src);
    steps := FailsAndRetries(s, steps, src);
    steps := TakesOver(s, steps, src);
  }

  /** The program has no guard there: it starts its stream, and after a power failure another run publishes something else
      than the source. */
  lemma StaleProgressGoesWrong(src: T.Bytes, bad: Byte) returns (steps: seq<Step>, rest: seq<T.Step>)
    requires |src| == 1 && bad != src[0]
    ensures Init(Start(src)) && Feasible(Start(src), steps)
    ensures T.PublishesOther(T.StartingSingle(Final(Start(src), steps).transfer, true), rest, src)
  {
    steps := StaleProgress(src);
    rest := T.LoseFirst(T.StartingSingle(Bare(src), true), bad);
  }
}
