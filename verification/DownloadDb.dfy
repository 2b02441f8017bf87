/** The downloader's tables and the calls that change them (apps/downloader/src/db.rs). Each method is one
    transaction; what it does to a task is stated by the row functions of `DownloadRows`. */
module DownloadDb {
  import opened Base
  import opened Segments
  import opened DownloadRows
  import opened Reservations

  type TaskId = string

  datatype Outcome = Done | LeaseLost | NoSpace | TooLarge

  const I64_MAX: nat := 0x7FFF_FFFF_FFFF_FFFF

  function OperationId(id: TaskId): string { "download:" + id }

  lemma OperationIdInjective(a: TaskId, b: TaskId)
    ensures OperationId(a) == OperationId(b) ==> a == b
  {
    assert OperationId(a)[|"download:"|..] == a;
    assert OperationId(b)[|"download:"|..] == b;
  }

  /** `COALESCE(next_retry_at, created_at), created_at`. */
  predicate Before(a: Task, b: Task) {
    var wakeA := if a.retryAt.Some? then a.retryAt.value else a.createdAt;
    var wakeB := if b.retryAt.Some? then b.retryAt.value else b.createdAt;
    wakeA < wakeB || (wakeA == wakeB && a.createdAt < b.createdAt)
  }

  class Db {
    var tasks: map<TaskId, Task>
    var journal: map<TaskId, Journal>
    var operations: set<string>
    var segments: map<TaskId, seq<Segment>>
    var reservations: map<TaskId, Reservation>
    /** Room seen by each pool's latest granted reservation: free space less the minimum. */
    ghost var room: map<nat, Option<nat>>

    constructor ()
      ensures tasks == map[] && journal == map[] && operations == {} && segments == map[] && reservations == map[]
      ensures Bounded(reservations, room)
    {
      tasks, journal, operations, segments, reservations, room := map[], map[], {}, map[], map[], map[];
    }

    ghost function Slice(id: TaskId): Row
      requires id in tasks
      reads this
    {
      Row(tasks[id],
          if id in journal then Some(journal[id]) else None,
          if OperationId(id) in operations then 1 else 0,
          RowsOf(id),
          if id in reservations then Some(reservations[id].bytes) else None)
    }

    /** The task's row exists and the worker may write to it. */
    predicate Holds(id: TaskId, worker: Worker)
      reads this`tasks
    {
      id in tasks && Owned(tasks[id], worker)
    }

    /** A reservation belongs to a task and lies in that task's pool. */
    ghost predicate Linked()
      reads this`tasks, this`reservations
    {
      forall id | id in reservations :: id in tasks && reservations[id].pool == tasks[id].pool
    }

    /** Nothing changes for other tasks, and reservations stay with their tasks. */
    twostate predicate OthersKept(id: TaskId)
      reads this
    {
      && tasks.Keys == old(tasks.Keys)
      && (old(Linked()) ==> Linked())
      && forall o | o in tasks && o != id :: Slice(o) == old(Slice(o))
    }

    twostate predicate AllKept()
      reads this
    {
      && tasks.Keys == old(tasks.Keys)
      && (old(Linked()) ==> Linked())
      && forall o | o in tasks :: Slice(o) == old(Slice(o))
    }

    // ----- leases

    ghost function ExpiredTasks(now: Time): set<TaskId>
      reads this
    {
      set id | id in tasks && Expired(Slice(id), now)
    }

    method RecoverExpired(now: Time) returns (changed: nat)
      requires Bounded(reservations, room)
      modifies this`tasks, this`reservations
      ensures tasks.Keys == old(tasks.Keys) && (old(Linked()) ==> Linked())
      ensures forall id | id in tasks :: Slice(id) == DownloadRows.RecoverExpired(old(Slice(id)), now)
      ensures changed == |old(ExpiredTasks(now))|
      ensures Bounded(reservations, room)
    {
      var late := LateTasks(now);
      changed := |late|;
      ReleaseTasks(late);
      KeepRunning();
    }

    /** `DELETE FROM download_reservations` of tasks that do not run. */
    method KeepRunning()
      requires Bounded(reservations, room)
      modifies this`reservations
      ensures Bounded(reservations, room) && (old(Linked()) ==> Linked())
      ensures forall id | id in tasks ::
                Slice(id) == old(Slice(id)).(reserved := if tasks[id].status == Running then old(Slice(id)).reserved else None)
    {
      KeepReservations(set id | id in reservations && (id !in tasks || tasks[id].status == Running));
    }

    method LateTasks(now: Time) returns (late: set<TaskId>)
      ensures late == ExpiredTasks(now)
    {
      late := set id | id in tasks && id !in journal && tasks[id].status == Running
                       && (tasks[id].lease.None? || tasks[id].lease.value <= now);
    }

    method ReleaseTasks(ids: set<TaskId>)
      modifies this`tasks
      ensures tasks.Keys == old(tasks.Keys) && (old(Linked()) ==> Linked())
      ensures forall id | id in tasks :: Slice(id) == old(Slice(id)).(task := if id in ids then Release(old(tasks)[id]) else old(tasks)[id])
    {
      tasks := map id | id in tasks :: if id in ids then Release(tasks[id]) else tasks[id];
    }

    method Claim(worker: Worker, now: Time, until: Time) returns (claimed: Option<TaskId>)
      modifies this`tasks
      ensures claimed == None ==> AllKept() && forall id | id in tasks :: !Claimable(Slice(id), now)
      ensures claimed.Some? ==>
                var id := claimed.value;
                && id in old(tasks) && Claimable(old(Slice(id)), now) && OthersKept(id)
                && Slice(id) == DownloadRows.Claim(old(Slice(id)), worker, until)
                && forall o | o in old(tasks) && Claimable(old(Slice(o)), now) :: !Before(old(tasks[o]), old(tasks[id]))
      ensures reservations == old(reservations) && room == old(room)
    {
      claimed := None;
      var rest := tasks.Keys;
      while rest != {}
        invariant rest <= tasks.Keys
        invariant unchanged(this)
        invariant claimed.Some? ==> claimed.value in tasks && Claimable(Slice(claimed.value), now)
        invariant forall o | o in tasks && o !in rest && Claimable(Slice(o), now) ::
                    claimed.Some? && !Before(tasks[o], tasks[claimed.value])
        decreases rest
      {
        var id :| id in rest;
        rest := rest - {id};
        var task := tasks[id];
        if task.status == Queued && id !in journal && (task.retryAt.None? || task.retryAt.value <= now)
           && (claimed.None? || Before(task, tasks[claimed.value])) {
          claimed := Some(id);
        }
      }
      if claimed.Some? {
        var id := claimed.value;
        tasks := tasks[id := tasks[id].(status := Running, worker := Some(worker), lease := Some(until), retryAt := None, control := None)];
      }
    }

    method ExtendLease(id: TaskId, worker: Worker, until: Time) returns (owned: bool)
      modifies this`tasks
      ensures owned == old(Holds(id, worker)) && OthersKept(id)
      ensures id in old(tasks) ==> Slice(id) == DownloadRows.ExtendLease(old(Slice(id)), worker, until)
    {
      owned := Holds(id, worker);
      if owned { tasks := tasks[id := tasks[id].(lease := Some(until))]; }
    }

    // ----- transfer

    method ResetTransfer(id: TaskId, worker: Worker) returns (owned: bool)
      requires Bounded(reservations, room)
      modifies this`tasks, this`segments, this`reservations
      ensures owned == old(Holds(id, worker)) && OthersKept(id)
      ensures id in old(tasks) ==> Slice(id) == DownloadRows.ResetTransfer(old(Slice(id)), worker)
      ensures Bounded(reservations, room)
    {
      owned := Holds(id, worker);
      if owned {
        tasks := tasks[id := tasks[id].(received := 0, total := None)];
        segments := segments - {id};
        DropReservation(id);
      }
    }

    method ReplaceSegments(id: TaskId, worker: Worker, rows: seq<Segment>) returns (owned: bool)
      modifies this`segments
      ensures owned == Holds(id, worker) && OthersKept(id)
      ensures id in old(tasks) ==> Slice(id) == DownloadRows.ReplaceSegments(old(Slice(id)), worker, rows)
    {
      owned := Holds(id, worker);
      if owned { segments := segments[id := rows]; }
    }

    method CheckpointSegment(id: TaskId, worker: Worker, start: nat, next: nat, total: nat, until: Time) returns (owned: bool)
      modifies this`tasks, this`segments, this`reservations
      ensures owned == old(Holds(id, worker)) && OthersKept(id)
      ensures id in old(tasks) ==> Slice(id) == Checkpoint(old(Slice(id)), worker, start, next, total, until)
      ensures !owned || id !in old(reservations) ==> reservations == old(reservations)
      ensures id in old(reservations) ==>
                id in reservations && reservations == Resized(old(reservations), id, reservations[id].bytes)
    {
      owned := Holds(id, worker);
      if owned {
        StoreProgress(id, worker, start, next, total, until);
      }
    }

    /** The statements of a checkpoint that the owner goes on to. */
    method StoreProgress(id: TaskId, worker: Worker, start: nat, next: nat, total: nat, until: Time)
      requires Holds(id, worker)
      modifies this`tasks, this`segments, this`reservations
      ensures OthersKept(id) && Slice(id) == Checkpoint(old(Slice(id)), worker, start, next, total, until)
      ensures if id in old(reservations)
              then id in reservations && reservations == Resized(old(reservations), id, reservations[id].bytes)
              else reservations == old(reservations)
    {
      var received := StoreReceived(id, start, next, total, until);
      SetReservation(id, if total - received > 0 then total - received else 0);
    }

    method StoreReceived(id: TaskId, start: nat, next: nat, total: nat, until: Time) returns (received: int)
      requires id in tasks
      modifies this`tasks, this`segments
      ensures OthersKept(id) && received == Received(RowsOf(id))
      ensures Slice(id) == old(Slice(id)).(
                task := old(tasks[id]).(received := received, total := Some(total), lease := Some(until)),
                segments := MoveCursor(old(RowsOf(id)), start, next))
    {
      received := MoveSegment(id, start, next);
      tasks := tasks[id := tasks[id].(received := received, total := Some(total), lease := Some(until))];
    }

    function RowsOf(id: TaskId): seq<Segment>
      reads this`segments
    {
      if id in segments then segments[id] else []
    }

    /** The two statements of a checkpoint that touch the segment rows: move the cursor, then add up. */
    method MoveSegment(id: TaskId, start: nat, next: nat) returns (received: int)
      modifies this`segments
      ensures RowsOf(id) == MoveCursor(old(RowsOf(id)), start, next) && received == Received(RowsOf(id))
      ensures forall o | o != id :: RowsOf(o) == old(RowsOf(o))
    {
      if id in segments {
        segments := segments[id := MoveCursor(segments[id], start, next)];
      }
      received := Received(RowsOf(id));
    }

    /** `SELECT SUM(reserved_bytes) WHERE storage_pool_id = pool AND task_id <> id`. */
    method SumOthers(pool: nat, id: TaskId) returns (sum: nat)
      ensures sum == PoolTotal(reservations - {id}, pool)
    {
      sum := 0;
      var others := reservations - {id};
      var rest := others;
      while rest != map[]
        invariant sum + PoolTotal(rest, pool) == PoolTotal(others, pool)
        decreases |rest|
      {
        var k :| k in rest;
        PoolTotalSplit(rest, pool, k);
        sum := sum + if rest[k].pool == pool then rest[k].bytes else 0;
        rest := rest - {k};
      }
    }

    method ReserveSpace(id: TaskId, worker: Worker, required: nat, available: nat, minimumFree: nat) returns (outcome: Outcome)
      requires Bounded(reservations, room)
      requires required <= U64_MAX && minimumFree <= U64_MAX && available <= U64_MAX
      modifies this`reservations, this`room
      ensures outcome == LeaseLost <==> !Holds(id, worker)
      ensures outcome == NoSpace <==>
                && Holds(id, worker) && available < U64_MAX
                && required + minimumFree + PoolTotal(old(reservations) - {id}, tasks[id].pool) > available
      ensures outcome == TooLarge <==>
                && Holds(id, worker) && required > I64_MAX
                && (required + minimumFree + PoolTotal(old(reservations) - {id}, tasks[id].pool) <= available || available == U64_MAX)
      ensures outcome != Done ==> reservations == old(reservations) && room == old(room)
      ensures outcome == Done ==>
                && id in tasks && reservations == old(reservations)[id := Reservation(tasks[id].pool, required)]
                && room == old(room)[tasks[id].pool := Room(available, minimumFree)]
                && Slice(id) == old(Slice(id)).(reserved := Some(required))
      ensures OthersKept(id) && Bounded(reservations, room)
    {
      if !Holds(id, worker) { return LeaseLost; }
      var pool := tasks[id].pool;
      var others := SumOthers(pool, id);
      var needed := SatAdd(SatAdd(required, minimumFree), others);
      if needed > available { return NoSpace; }
      if required > I64_MAX { return TooLarge; }
      SaturationExact(required, minimumFree, others, available);
      GrantKeepsBound(reservations, id, pool, required, available, minimumFree, room);
      reservations := reservations[id := Reservation(pool, required)];
      room := room[pool := Room(available, minimumFree)];
      return Done;
    }

    /** `UPDATE download_reservations`, which does nothing if the task has none. */
    method SetReservation(id: TaskId, bytes: nat)
      requires id in tasks
      modifies this`reservations
      ensures OthersKept(id) && reservations == Resized(old(reservations), id, bytes)
      ensures Slice(id) == old(Slice(id)).(reserved := if id in old(reservations) then Some(bytes) else None)
    {
      if id in reservations {
        reservations := reservations[id := reservations[id].(bytes := bytes)];
      }
    }

    method DropReservation(id: TaskId)
      requires Bounded(reservations, room)
      modifies this`reservations
      ensures reservations == old(reservations) - {id}
      ensures Bounded(reservations, room)
    {
      if id in reservations {
        ShrinkKeepsBound(reservations, id, 0, room);
      } else {
        assert reservations - {id} == reservations;
      }
      reservations := reservations - {id};
    }

    method KeepReservations(kept: set<TaskId>)
      requires Bounded(reservations, room)
      modifies this`reservations
      ensures Bounded(reservations, room) && (old(Linked()) ==> Linked())
      ensures forall id | id in tasks :: Slice(id) == old(Slice(id)).(reserved := if id in kept then old(Slice(id)).reserved else None)
    {
      KeepKeepsBound(reservations, kept, room);
      reservations := Keep(reservations, kept);
    }

    // ----- publication

    method BeginPublish(id: TaskId, entry: Journal) returns (owned: bool)
      modifies this`journal
      ensures owned == Holds(id, entry.worker) && OthersKept(id)
      ensures id in old(tasks) ==> Slice(id) == DownloadRows.BeginPublish(old(Slice(id)), entry)
    {
      owned := Holds(id, entry.worker);
      if owned { journal := journal[id := entry]; }
    }

    method FinalizePublish(id: TaskId, entry: Journal) returns (ok: bool)
      requires entry.operation == OperationId(id) && Bounded(reservations, room)
      modifies this`tasks, this`journal, this`operations, this`segments, this`reservations
      ensures ok == (id in old(tasks) && FinalizeSucceeds(old(Slice(id)), entry)) && OthersKept(id)
      ensures id in old(tasks) ==> Slice(id) == Finalize(old(Slice(id)), entry)
      ensures Bounded(reservations, room)
    {
      // A journal row goes with its task.
      if id !in journal || journal[id] != entry || id !in tasks {
        return id in tasks && tasks[id].status == Completed && tasks[id].operation == Some(entry.operation);
      }
      forall o | o in tasks && o != id ensures OperationId(o) != entry.operation {
        OperationIdInjective(o, id);
      }
      operations := operations + {entry.operation};
      tasks := tasks[id := tasks[id].(status := Completed, received := entry.file.size, total := Some(entry.file.size),
                                      worker := None, lease := None, control := None, retryAt := None,
                                      operation := Some(entry.operation))];
      journal := journal - {id};
      segments := segments - {id};
      DropReservation(id);
      ok := true;
    }

    method RecoverUnpublished(id: TaskId, now: Time) returns (changed: bool)
      modifies this`tasks, this`journal
      ensures changed == (id in old(tasks) && !LeaseLive(old(tasks[id]), now)) && OthersKept(id)
      ensures id in old(tasks) ==> Slice(id) == DownloadRows.RecoverUnpublished(old(Slice(id)), now)
    {
      if id !in tasks { return false; }
      var task := tasks[id];
      changed := !(task.status == Running && task.lease.Some? && task.lease.value > now);
      if changed {
        tasks := tasks[id := task.(status := match task.control { case None => Queued case Some(Pause) => Paused case Some(Cancel) => Cancelled },
                                   worker := None, lease := None, control := None)];
        journal := journal - {id};
      }
    }

    method FailRecovery(id: TaskId)
      requires Bounded(reservations, room)
      modifies this`tasks, this`journal, this`reservations
      ensures OthersKept(id) && (id in old(tasks) ==> Slice(id) == DownloadRows.FailRecovery(old(Slice(id))))
      ensures Bounded(reservations, room)
    {
      journal := journal - {id};
      if id in tasks {
        tasks := tasks[id := tasks[id].(status := Failed, worker := None, lease := None)];
      }
      DropReservation(id);
    }

    // ----- the end of a run

    method FinishControl(id: TaskId, worker: Worker, cancelled: bool)
      requires Bounded(reservations, room)
      modifies this`tasks, this`reservations
      ensures OthersKept(id) && (id in old(tasks) ==> Slice(id) == DownloadRows.FinishControl(old(Slice(id)), worker, cancelled))
      ensures Bounded(reservations, room)
    {
      if id in tasks && tasks[id].status == Running && tasks[id].worker == Some(worker) {
        tasks := tasks[id := tasks[id].(status := if cancelled then Cancelled else Paused, control := None, worker := None, lease := None)];
        DropReservation(id);
      }
    }

    method FailOrRetry(id: TaskId, worker: Worker, retry: Option<Time>) returns (retrying: bool)
      requires Bounded(reservations, room)
      modifies this`tasks, this`reservations
      ensures OthersKept(id) && (id in old(tasks) ==> Slice(id) == DownloadRows.FailOrRetry(old(Slice(id)), worker, retry))
      ensures retrying <==> retry.Some? && id in old(tasks) && old(tasks[id].status) == Running && old(tasks[id].worker) == Some(worker)
      ensures Bounded(reservations, room)
    {
      retrying := false;
      if id in tasks && tasks[id].status == Running && tasks[id].worker == Some(worker) {
        tasks := tasks[id := tasks[id].(status := if retry.Some? then Queued else Failed,
                                        retries := tasks[id].retries + (if retry.Some? then 1 else 0),
                                        retryAt := retry, worker := None, lease := None, control := None)];
        DropReservation(id);
        retrying := retry.Some?;
      }
    }

    method RequeueOwned(worker: Worker)
      requires Bounded(reservations, room)
      modifies this`tasks, this`reservations
      ensures tasks.Keys == old(tasks.Keys) && (old(Linked()) ==> Linked())
      ensures forall id | id in tasks :: Slice(id) == DownloadRows.RequeueOwned(old(Slice(id)), worker)
      ensures Bounded(reservations, room)
    {
      ReleaseTasks(set id | id in tasks && tasks[id].status == Running && tasks[id].worker == Some(worker));
      KeepOwned();
    }

    /** `DELETE FROM download_reservations` of tasks without a worker. */
    method KeepOwned()
      requires Bounded(reservations, room)
      modifies this`reservations
      ensures Bounded(reservations, room) && (old(Linked()) ==> Linked())
      ensures forall id | id in tasks ::
                Slice(id) == old(Slice(id)).(reserved := if tasks[id].worker.Some? then old(Slice(id)).reserved else None)
    {
      KeepReservations(set id | id in reservations && (id !in tasks || tasks[id].worker.Some?));
    }

    // ----- requests from the API

    method RequestControl(id: TaskId, request: Control)
      modifies this`tasks
      ensures OthersKept(id) && (id in old(tasks) ==> Slice(id) == DownloadRows.RequestControl(old(Slice(id)), request))
    {
      if id in tasks && tasks[id].status == Running {
        tasks := tasks[id := tasks[id].(control := Some(if tasks[id].control == Some(Cancel) then Cancel else request))];
      }
    }

    method Transition(id: TaskId, from: set<Status>, to: Status) returns (moved: bool)
      modifies this`tasks
      ensures moved == (id in old(tasks) && old(tasks)[id].status in from) && OthersKept(id)
      ensures id in old(tasks) ==> Slice(id) == DownloadRows.Transition(old(Slice(id)), from, to)
    {
      moved := id in tasks && tasks[id].status in from;
      if moved {
        tasks := tasks[id := tasks[id].(status := to, worker := None, lease := None, control := None, retryAt := None)];
      }
    }

    /** What `transitionDownloadTask` adds for `resetProgress`. */
    method ForgetProgress(id: TaskId)
      requires id in tasks && Bounded(reservations, room)
      modifies this`tasks, this`segments, this`reservations
      ensures OthersKept(id) && Slice(id) == Forget(old(Slice(id))) && Bounded(reservations, room)
    {
      tasks := tasks[id := tasks[id].(received := 0, total := None, retries := 0)];
      segments := segments - {id};
      DropReservation(id);
    }
  }
}
