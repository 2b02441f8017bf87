/** Space and progress over whole histories: any calls of any workers for any tasks, in any order
    (apps/downloader/src/download.rs, apps/downloader/src/db.rs). The histories are runs of a machine over the rows of all
    tasks; the class at the end makes the calls on the tables and is proved to follow that machine. */
module SpaceAccounts {
  import opened Base
  import opened Segments
  import opened DownloadRows
  import opened Reservations
  import opened DownloadDb

  /** What a segmented run remembers once its space is granted: its worker, the total, and its segments as last stored. */
  datatype Grant = Grant(worker: Worker, total: nat, rows: seq<Segment>)

  /** The checkpoint is the run's own, goes forward, and stays in its segment. */
  predicate Fits(g: Grant, worker: Worker, segment: nat, next: nat) {
    g.worker == worker && segment < |g.rows| && g.rows[segment].next <= next <= g.rows[segment].end
  }

  function Advanced(g: Grant, segment: nat, next: nat): Grant
    requires segment < |g.rows|
  {
    g.(rows := g.rows[segment := g.rows[segment].(next := next)])
  }

  // ----- the rows of one task

  ghost predicate NonEmpty(rows: seq<Segment>) { forall i | 0 <= i < |rows| :: rows[i].start < rows[i].end }

  /** What is reserved and what is received make up the total. */
  ghost predicate Balanced(row: Row) {
    row.reserved.Some? && row.segments != [] ==>
      var total := row.segments[|row.segments| - 1].end;
      Tiles(row.segments, total) && row.reserved.Some? && row.reserved.value + Received(row.segments) == total
  }

  /** Exactly what the rows miss is reserved. */
  predicate Covered(row: Row, total: nat) { row.reserved.Some? && row.reserved.value + Received(row.segments) == total }

  predicate RunBy(task: Task, worker: Worker) { task.status == Running && task.worker == Some(worker) }

  /** `settled`: the latest grant was made for the present rows. A run that still has its task remembers these rows. */
  ghost predicate RowInv(row: Row, settled: bool, grant: Option<Grant>) {
    && NonEmpty(row.segments)
    && (settled ==> Balanced(row))
    && (grant.Some? && RunBy(row.task, grant.value.worker) ==>
          settled && row.segments == grant.value.rows && row.segments != [] && Tiles(row.segments, grant.value.total))
  }

  lemma DistinctStarts(rows: seq<Segment>, total: nat)
    requires NonEmpty(rows) && Tiles(rows, total)
    ensures forall i, j | 0 <= i < j < |rows| :: rows[i].start != rows[j].start
  {
    forall i, j | 0 <= i < j < |rows|
      ensures rows[i].start < rows[j].start
    {
      StartsGrow(rows, total, i, j);
    }
  }

  lemma {:induction false} StartsGrow(rows: seq<Segment>, total: nat, i: nat, j: nat)
    requires NonEmpty(rows) && Tiles(rows, total) && i < j < |rows|
    ensures rows[i].start < rows[j].start
    decreases j
  {
    assert rows[j].start == rows[j - 1].end;
    if i < j - 1 {
      StartsGrow(rows, total, i, j - 1);
    }
  }

  /** A forward checkpoint by the run that remembers the rows: they stay balanced, and space is only given back. */
  lemma CheckpointRow(row: Row, grant: Grant, i: nat, next: nat, until: Time)
    requires RowInv(row, true, Some(grant)) && Owned(row.task, grant.worker)
    requires i < |grant.rows| && grant.rows[i].next <= next <= grant.rows[i].end
    ensures var r := Checkpoint(row, grant.worker, grant.rows[i].start, next, grant.total, until);
            && RowInv(r, true, Some(Advanced(grant, i, next)))
            && (row.reserved.Some? ==> r.reserved.Some? && r.reserved.value <= row.reserved.value)
            && r.task.received == Received(r.segments)
  {
    var rows := row.segments;
    DistinctStarts(rows, grant.total);
    assert Consistent(row, grant.total);
    CheckpointKeepsBalance(row, grant.worker, i, next, grant.total, until);
    MoveCursorAt(rows, i, next);
  }

  /** A grant for what the rows miss balances them. */
  lemma GrantRow(row: Row, worker: Worker, total: nat)
    requires NonEmpty(row.segments) && row.segments != [] && Tiles(row.segments, total) && Received(row.segments) <= total
    ensures RowInv(row.(reserved := Some(total - Received(row.segments))), true, Some(Grant(worker, total, row.segments)))
  {}

  // ----- the machine

  /** The rows of every task, the room that the latest grant left in each pool, and what the granted runs remember. */
  datatype State = State(rows: map<TaskId, Row>, room: map<nat, Option<nat>>, grants: map<TaskId, Grant>)

  /** `Plan` and `Claim` carry what the program found: its plan, and the task it picked, if any. */
  datatype Call =
    | RecoverExpired(now: Time)
    | RequeueOwned(worker: Worker)
    | Claim(found: Option<TaskId>, worker: Worker, now: Time, until: Time)
    | ExtendLease(id: TaskId, worker: Worker, until: Time)
    | ResetTransfer(id: TaskId, worker: Worker)
    | Plan(id: TaskId, worker: Worker, total: nat, prefix: nat, plan: seq<Segment>)
    | ReserveSegments(id: TaskId, worker: Worker, total: nat, available: nat, minimumFree: nat)
    | ReserveSingle(id: TaskId, worker: Worker, required: nat, available: nat, minimumFree: nat)
    | StoreCursor(id: TaskId, worker: Worker, segment: nat, next: nat, until: Time)
    | BeginPublish(id: TaskId, journal: Journal)
    | FinalizePublish(id: TaskId, journal: Journal)
    | RecoverUnpublished(id: TaskId, now: Time)
    | FailRecovery(id: TaskId)
    | FinishControl(id: TaskId, worker: Worker, cancelled: bool)
    | FailOrRetry(id: TaskId, worker: Worker, retry: Option<Time>)
    | RequestControl(id: TaskId, request: Control)
    | Transition(id: TaskId, from: set<Status>, to: Status, reset: bool)

  predicate Relayed(call: Call) {
    || call.BeginPublish? || call.FinalizePublish? || call.RecoverUnpublished? || call.FailRecovery?
    || call.ExtendLease? || call.FinishControl? || call.FailOrRetry? || call.RequestControl?
  }

  function After(call: Call, row: Row): Row
    requires Relayed(call)
  {
    match call
    case BeginPublish(_, journal) => DownloadRows.BeginPublish(row, journal)
    case FinalizePublish(_, journal) => Finalize(row, journal)
    case RecoverUnpublished(_, now) => DownloadRows.RecoverUnpublished(row, now)
    case FailRecovery(_) => DownloadRows.FailRecovery(row)
    case ExtendLease(_, worker, until) => DownloadRows.ExtendLease(row, worker, until)
    case FinishControl(_, worker, cancelled) => DownloadRows.FinishControl(row, worker, cancelled)
    case FailOrRetry(_, worker, retry) => DownloadRows.FailOrRetry(row, worker, retry)
    case RequestControl(_, request) => DownloadRows.RequestControl(row, request)
  }

  lemma AfterKeeps(call: Call, row: Row, settled: bool, grant: Option<Grant>)
    requires Relayed(call) && RowInv(row, settled, grant)
    ensures RowInv(After(call, row), settled, grant)
  {}

  predicate InRange(call: Call) {
    match call
    case Plan(_, _, total, prefix, _) => total <= U64_MAX && prefix <= U64_MAX
    case ReserveSegments(_, _, total, available, minimumFree) => total <= U64_MAX && available <= U64_MAX && minimumFree <= U64_MAX
    case ReserveSingle(_, _, required, available, minimumFree) => required <= U64_MAX && available <= U64_MAX && minimumFree <= U64_MAX
    case FinalizePublish(id, journal) => journal.operation == OperationId(id)
    case Transition(_, _, to, _) => to != Running
    case _ => true
  }

  /** The reservation table, as the rows show it. */
  function TableOf(rows: map<TaskId, Row>): Table {
    map id | id in rows && rows[id].reserved.Some? :: Reservation(rows[id].task.pool, rows[id].reserved.value)
  }

  predicate Holds(s: State, id: TaskId, worker: Worker) { id in s.rows && Owned(s.rows[id].task, worker) }

  /** The test of `reserve_space` lets the request through. */
  ghost predicate Roomy(s: State, id: TaskId, required: nat, available: nat, minimumFree: nat)
    requires id in s.rows
  {
    Needed(required, minimumFree, PoolTotal(TableOf(s.rows) - {id}, s.rows[id].task.pool)) <= available && required <= I64_MAX
  }

  /** A segmented run reserves for rows that cover the total; others were reset before. */
  ghost predicate Granted(s: State, call: Call) {
    && call.ReserveSegments? && Holds(s, call.id, call.worker)
    && var rows := s.rows[call.id].segments;
       && rows != [] && Tiles(rows, call.total) && 0 <= Received(rows) <= call.total
       && Roomy(s, call.id, call.total - Received(rows), call.available, call.minimumFree)
  }

  ghost predicate GrantedSingle(s: State, call: Call) {
    call.ReserveSingle? && Holds(s, call.id, call.worker) && Roomy(s, call.id, call.required, call.available, call.minimumFree)
  }

  /** New rows, or a reservation of another size: whatever was granted before was for something else. */
  ghost predicate Unsettles(s: State, call: Call, id: TaskId) {
    (call.Plan? && call.id == id && Holds(s, id, call.worker)) || (GrantedSingle(s, call) && call.id == id)
  }

  /** A checkpoint that takes effect: by the run that was granted space, of one of its segments, and forward. */
  ghost predicate Stores(s: State, call: Call) {
    && call.StoreCursor? && Holds(s, call.id, call.worker) && call.id in s.grants
    && Fits(s.grants[call.id], call.worker, call.segment, call.next)
  }

  ghost predicate Enabled(s: State, call: Call) {
    && InRange(call)
    && (call.Plan? ==> NonEmpty(call.plan) && Tiles(call.plan, call.total) && Received(call.plan) == Min(call.prefix, call.total))
    && (call.Claim? ==>
          if call.found.Some? then call.found.value in s.rows && Claimable(s.rows[call.found.value], call.now)
          else forall id | id in s.rows :: !Claimable(s.rows[id], call.now))
  }

  function WithRow(s: State, id: TaskId, row: Row): State { s.(rows := s.rows[id := row]) }

  function Unremember(s: State, id: TaskId): State { s.(grants := s.grants - {id}) }

  ghost function Reserve(s: State, id: TaskId, required: nat, available: nat, minimumFree: nat): State
    requires id in s.rows
  {
    WithRow(s, id, s.rows[id].(reserved := Some(required))).(room := s.room[s.rows[id].task.pool := Room(available, minimumFree)])
  }

  /** What a granted segmented run leaves. */
  ghost function GrantTo(s: State, id: TaskId, worker: Worker, total: nat, available: nat, minimumFree: nat): State
    requires id in s.rows && Received(s.rows[id].segments) <= total
  {
    Reserve(s, id, total - Received(s.rows[id].segments), available, minimumFree)
    .(grants := s.grants[id := Grant(worker, total, s.rows[id].segments)])
  }

  function Moved(row: Row, from: set<Status>, to: Status, reset: bool): Row {
    if reset then Forget(DownloadRows.Transition(row, from, to)) else DownloadRows.Transition(row, from, to)
  }

  /** Calls about one task that has a row. */
  ghost function ApplyOne(s: State, call: Call): State
    requires !call.RecoverExpired? && !call.RequeueOwned? && !call.Claim? && call.id in s.rows
  {
    var id := call.id;
    var row := s.rows[id];
    match call
    case ResetTransfer(_, worker) =>
      if Owned(row.task, worker) then Unremember(WithRow(s, id, DownloadRows.ResetTransfer(row, worker)), id) else s
    case Plan(_, worker, _, _, plan) =>
      if Owned(row.task, worker) then Unremember(WithRow(s, id, ReplaceSegments(row, worker, plan)), id) else s
    case ReserveSegments(_, worker, total, available, minimumFree) =>
      if Granted(s, call) then GrantTo(s, id, worker, total, available, minimumFree) else s
    case ReserveSingle(_, _, required, available, minimumFree) =>
      if GrantedSingle(s, call) then Unremember(Reserve(s, id, required, available, minimumFree), id) else s
    case StoreCursor(_, worker, segment, next, until) =>
      if id in s.grants && Fits(s.grants[id], worker, segment, next) && Owned(row.task, worker) then
        WithRow(s, id, Checkpoint(row, worker, s.grants[id].rows[segment].start, next, s.grants[id].total, until))
        .(grants := s.grants[id := Advanced(s.grants[id], segment, next)])
      else s
    case Transition(_, from, to, reset) =>
      if row.task.status !in from then s
      else
        Unremember(WithRow(s, id, Moved(row, from, to, reset)), id)
    case _ => WithRow(s, id, After(call, row))
  }

  ghost function Apply(s: State, call: Call): State
    requires Enabled(s, call)
  {
    match call
    case RecoverExpired(now) => s.(rows := map id | id in s.rows :: DownloadRows.RecoverExpired(s.rows[id], now))
    case RequeueOwned(worker) => s.(rows := map id | id in s.rows :: DownloadRows.RequeueOwned(s.rows[id], worker))
    case Claim(found, worker, _, until) =>
      if found.None? then s
      else Unremember(WithRow(s, found.value, DownloadRows.Claim(s.rows[found.value], worker, until)), found.value)
    case _ => if call.id in s.rows then ApplyOne(s, call) else s
  }

  ghost predicate Feasible(s: State, calls: seq<Call>)
    decreases |calls|
  {
    calls == [] || (Enabled(s, calls[0]) && Feasible(Apply(s, calls[0]), calls[1..]))
  }

  ghost function Final(s: State, calls: seq<Call>): State
    requires Feasible(s, calls)
    decreases |calls|
  {
    if calls == [] then s else Final(Apply(s, calls[0]), calls[1..])
  }

  /** The state that the `k`-th call meets. */
  ghost function At(s: State, calls: seq<Call>, k: nat): State
    requires Feasible(s, calls) && k <= |calls|
    decreases |calls|
  {
    if k == 0 then s else At(Apply(s, calls[0]), calls[1..], k - 1)
  }

  /** Tasks with neither rows nor reservations. */
  ghost predicate Init(s: State) {
    s.grants == map[] && forall id | id in s.rows :: s.rows[id].segments == [] && s.rows[id].reserved == None
  }

  // ----- what every call keeps

  function GrantOf(s: State, id: TaskId): Option<Grant> { if id in s.grants then Some(s.grants[id]) else None }

  ghost predicate RowsOk(s: State, settled: set<TaskId>) {
    forall id | id in s.rows :: RowInv(s.rows[id], id in settled, GrantOf(s, id))
  }

  ghost predicate Inv(s: State, settled: set<TaskId>) { Bounded(TableOf(s.rows), s.room) && RowsOk(s, settled) }

  /** Which tasks have been granted space for their present rows, given those that had. */
  ghost function SettledAfter(s: State, call: Call, settled: set<TaskId>): set<TaskId> {
    if Granted(s, call) then settled + {call.id}
    else if call.Plan? || call.ReserveSingle? then (if Unsettles(s, call, call.id) then settled - {call.id} else settled)
    else settled
  }

  /** One row changes and its reservation does not grow. */
  lemma RowKeepsBound(rows: map<TaskId, Row>, id: TaskId, row: Row, room: map<nat, Option<nat>>)
    requires Bounded(TableOf(rows), room) && id in rows && row.task.pool == rows[id].task.pool
    requires row.reserved.Some? ==> rows[id].reserved.Some? && row.reserved.value <= rows[id].reserved.value
    ensures Bounded(TableOf(rows[id := row]), room)
  {
    var t := TableOf(rows);
    if id in t {
      ShrinkKeepsBound(t, id, if row.reserved.Some? then row.reserved.value else 0, room);
    }
    assert TableOf(rows[id := row]) == if row.reserved.Some? then Resized(t, id, row.reserved.value) else t - {id};
    if id !in t {
      assert t - {id} == t;
    }
  }

  lemma OneRow(s: State, t: State, id: TaskId, settled: set<TaskId>, after: set<TaskId>)
    requires RowsOk(s, settled) && id in t.rows && t.rows == s.rows[id := t.rows[id]]
    requires forall o | o != id :: (o in settled <==> o in after) && GrantOf(s, o) == GrantOf(t, o)
    requires RowInv(t.rows[id], id in after, GrantOf(t, id))
    ensures RowsOk(t, after)
  {
    forall o | o in t.rows
      ensures RowInv(t.rows[o], o in after, GrantOf(t, o))
    {
      if o != id {
        assert RowInv(s.rows[o], o in settled, GrantOf(s, o));
      }
    }
  }

  lemma ReserveKeepsBound(s: State, id: TaskId, required: nat, available: nat, minimumFree: nat)
    requires Bounded(TableOf(s.rows), s.room) && id in s.rows && available <= U64_MAX
    requires Roomy(s, id, required, available, minimumFree)
    ensures var t := Reserve(s, id, required, available, minimumFree); Bounded(TableOf(t.rows), t.room)
  {
    var pool := s.rows[id].task.pool;
    GrantKeepsBound(TableOf(s.rows), id, pool, required, available, minimumFree, s.room);
    assert TableOf(Reserve(s, id, required, available, minimumFree).rows) == TableOf(s.rows)[id := Reservation(pool, required)];
  }

  lemma GrantToBound(s: State, id: TaskId, worker: Worker, total: nat, available: nat, minimumFree: nat)
    requires Bounded(TableOf(s.rows), s.room) && id in s.rows && available <= U64_MAX && Received(s.rows[id].segments) <= total
    requires Roomy(s, id, total - Received(s.rows[id].segments), available, minimumFree)
    ensures var t := GrantTo(s, id, worker, total, available, minimumFree); Bounded(TableOf(t.rows), t.room)
  {
    ReserveKeepsBound(s, id, total - Received(s.rows[id].segments), available, minimumFree);
  }

  lemma GrantToRows(s: State, id: TaskId, worker: Worker, total: nat, available: nat, minimumFree: nat, settled: set<TaskId>)
    requires RowsOk(s, settled) && id in s.rows && NonEmpty(s.rows[id].segments)
    requires s.rows[id].segments != [] && Tiles(s.rows[id].segments, total) && Received(s.rows[id].segments) <= total
    ensures RowsOk(GrantTo(s, id, worker, total, available, minimumFree), settled + {id})
  {
    GrantRow(s.rows[id], worker, total);
    OneRow(s, GrantTo(s, id, worker, total, available, minimumFree), id, settled, settled + {id});
  }

  lemma GrantInv(s: State, call: Call, settled: set<TaskId>)
    requires Inv(s, settled) && Enabled(s, call) && Granted(s, call)
    ensures Inv(Apply(s, call), settled + {call.id})
  {
    GrantToBound(s, call.id, call.worker, call.total, call.available, call.minimumFree);
    assert RowInv(s.rows[call.id], call.id in settled, GrantOf(s, call.id));
    GrantToRows(s, call.id, call.worker, call.total, call.available, call.minimumFree, settled);
  }

  lemma SingleInv(s: State, call: Call, settled: set<TaskId>)
    requires Inv(s, settled) && Enabled(s, call) && GrantedSingle(s, call)
    ensures Inv(Apply(s, call), settled - {call.id})
  {
    var id := call.id;
    assert RowInv(s.rows[id], id in settled, GrantOf(s, id));
    ReserveKeepsBound(s, id, call.required, call.available, call.minimumFree);
    OneRow(s, Apply(s, call), id, settled, settled - {id});
  }

  lemma PlanInv(s: State, call: Call, settled: set<TaskId>)
    requires Inv(s, settled) && Enabled(s, call) && call.Plan? && Holds(s, call.id, call.worker)
    ensures Inv(Apply(s, call), settled - {call.id})
  {
    var id, t := call.id, Apply(s, call);
    RowKeepsBound(s.rows, id, t.rows[id], s.room);
    OneRow(s, t, id, settled, settled - {id});
  }

  lemma StoreInv(s: State, call: Call, settled: set<TaskId>)
    requires Inv(s, settled) && Enabled(s, call) && Stores(s, call)
    ensures Inv(Apply(s, call), settled)
    ensures Apply(s, call).rows[call.id].reserved.Some? ==> Covered(Apply(s, call).rows[call.id], s.grants[call.id].total)
  {
    var id, t := call.id, Apply(s, call);
    assert RowInv(s.rows[id], id in settled, GrantOf(s, id));
    CheckpointRow(s.rows[id], s.grants[id], call.segment, call.next, call.until);
    RowKeepsBound(s.rows, id, t.rows[id], s.room);
    OneRow(s, t, id, settled, settled);
    LastEnd(t.rows[id].segments, s.grants[id].total);
  }

  lemma LastEnd(rows: seq<Segment>, total: nat)
    requires rows != [] && Tiles(rows, total)
    ensures rows[|rows| - 1].end == total
  {}

  /** One row changes without growing its reservation, and what its run remembered is kept or forgotten. */
  lemma RowChangeInv(s: State, id: TaskId, row: Row, grants: map<TaskId, Grant>, settled: set<TaskId>)
    requires Inv(s, settled) && id in s.rows && row.task.pool == s.rows[id].task.pool
    requires row.reserved.Some? ==> row.reserved == s.rows[id].reserved
    requires grants == s.grants || grants == s.grants - {id}
    requires RowInv(row, id in settled, if id in grants then Some(grants[id]) else None)
    ensures Inv(WithRow(s, id, row).(grants := grants), settled)
  {
    RowKeepsBound(s.rows, id, row, s.room);
    OneRow(s, WithRow(s, id, row).(grants := grants), id, settled, settled);
  }

  lemma RelayedInv(s: State, call: Call, settled: set<TaskId>)
    requires Inv(s, settled) && Enabled(s, call) && Relayed(call) && call.id in s.rows
    ensures Inv(Apply(s, call), settled)
  {
    var id, row := call.id, s.rows[call.id];
    assert RowInv(row, id in settled, GrantOf(s, id));
    AfterKeeps(call, row, id in settled, GrantOf(s, id));
    RelayedRow(call, row);
    RowChangeInv(s, id, After(call, row), s.grants, settled);
    RelayedState(s, call);
  }

  lemma RelayedState(s: State, call: Call)
    requires Enabled(s, call) && Relayed(call) && call.id in s.rows
    ensures Apply(s, call) == WithRow(s, call.id, After(call, s.rows[call.id])).(grants := s.grants)
  {}

  lemma ForgetInv(s: State, call: Call, settled: set<TaskId>)
    requires Inv(s, settled) && Enabled(s, call) && (call.ResetTransfer? || call.Transition?) && call.id in s.rows
    ensures Inv(Apply(s, call), settled)
  {
    var id, t := call.id, Apply(s, call);
    assert RowInv(s.rows[id], id in settled, GrantOf(s, id));
    if t != s {
      RowChangeInv(s, id, t.rows[id], s.grants - {id}, settled);
    }
  }

  lemma RelayedRow(call: Call, row: Row)
    requires Relayed(call)
    ensures After(call, row).task.pool == row.task.pool
    ensures After(call, row).reserved.Some? ==> After(call, row).reserved == row.reserved
  {}

  lemma ClaimInv(s: State, call: Call, settled: set<TaskId>)
    requires Inv(s, settled) && Enabled(s, call) && call.Claim? && call.found.Some?
    ensures Inv(Apply(s, call), settled)
  {
    var id, t := call.found.value, Apply(s, call);
    assert RowInv(s.rows[id], id in settled, GrantOf(s, id));
    RowKeepsBound(s.rows, id, t.rows[id], s.room);
    OneRow(s, t, id, settled, settled);
  }

  /** The calls that go over all tasks drop reservations and give up owners, and nothing else. */
  lemma AllInv(s: State, call: Call, settled: set<TaskId>)
    requires Inv(s, settled) && Enabled(s, call) && (call.RecoverExpired? || call.RequeueOwned?)
    ensures Inv(Apply(s, call), settled)
  {
    var t := Apply(s, call);
    forall id | id in t.rows
      ensures RowInv(t.rows[id], id in settled, GrantOf(t, id))
    {
      assert RowInv(s.rows[id], id in settled, GrantOf(s, id));
      ReleasedRow(s.rows[id], call, id in settled, GrantOf(s, id));
    }
    forall id | id in t.rows
      ensures Released(s.rows[id], t.rows[id])
    {
      ReleasedRow(s.rows[id], call, false, None);
    }
    DropsKeepBound(s.rows, t.rows, s.room);
  }

  /** At most the owner and the reservation went. */
  predicate Released(before: Row, after: Row) {
    after.task.pool == before.task.pool && (after.reserved == before.reserved || after.reserved == None)
  }

  lemma ReleasedRow(row: Row, call: Call, settled: bool, grant: Option<Grant>)
    requires call.RecoverExpired? || call.RequeueOwned?
    ensures var after := if call.RecoverExpired? then DownloadRows.RecoverExpired(row, call.now)
                         else DownloadRows.RequeueOwned(row, call.worker);
            Released(row, after) && (RowInv(row, settled, grant) ==> RowInv(after, settled, grant))
  {}

  lemma DropsKeepBound(before: map<TaskId, Row>, after: map<TaskId, Row>, room: map<nat, Option<nat>>)
    requires Bounded(TableOf(before), room) && after.Keys == before.Keys
    requires forall id | id in after :: Released(before[id], after[id])
    ensures Bounded(TableOf(after), room)
  {
    var kept := set id | id in after && after[id].reserved.Some?;
    assert TableOf(after) == Keep(TableOf(before), kept);
    KeepKeepsBound(TableOf(before), kept, room);
  }

  lemma StepInv(s: State, call: Call, settled: set<TaskId>)
    requires Inv(s, settled) && Enabled(s, call)
    ensures Inv(Apply(s, call), SettledAfter(s, call, settled))
  {
    if call.RecoverExpired? || call.RequeueOwned? {
      AllInv(s, call, settled);
    } else if call.Claim? {
      if call.found.Some? {
        ClaimInv(s, call, settled);
      }
    } else if call.id in s.rows {
      OneInv(s, call, settled);
    }
  }

  lemma OneInv(s: State, call: Call, settled: set<TaskId>)
    requires Inv(s, settled) && Enabled(s, call)
    requires !call.RecoverExpired? && !call.RequeueOwned? && !call.Claim? && call.id in s.rows
    ensures Inv(Apply(s, call), SettledAfter(s, call, settled))
  {
    if Granted(s, call) {
      GrantInv(s, call, settled);
    } else if GrantedSingle(s, call) {
      SingleInv(s, call, settled);
    } else if call.Plan? && Holds(s, call.id, call.worker) {
      PlanInv(s, call, settled);
    } else if call.StoreCursor? && Apply(s, call) != s {
      StoreInv(s, call, settled);
    } else if Relayed(call) {
      RelayedInv(s, call, settled);
    } else if call.ResetTransfer? || call.Transition? {
      ForgetInv(s, call, settled);
    }
  }

  // ----- histories

  ghost function SettledFinal(s: State, calls: seq<Call>, settled: set<TaskId>): set<TaskId>
    requires Feasible(s, calls)
    decreases |calls|
  {
    if calls == [] then settled else SettledFinal(Apply(s, calls[0]), calls[1..], SettledAfter(s, calls[0], settled))
  }

  lemma {:induction false} HistoriesKeepInv(s: State, calls: seq<Call>, settled: set<TaskId>)
    requires Inv(s, settled) && Feasible(s, calls)
    ensures Inv(Final(s, calls), SettledFinal(s, calls, settled))
    decreases |calls|
  {
    if calls != [] {
      StepInv(s, calls[0], settled);
      HistoriesKeepInv(Apply(s, calls[0]), calls[1..], SettledAfter(s, calls[0], settled));
    }
  }

  lemma InitInv(s: State)
    requires Init(s)
    ensures Inv(s, {})
  {
    assert TableOf(s.rows) == map[];
  }

  /** The `i`-th call grants space for the rows of `id`, and no later call replaces them or reserves otherwise. */
  ghost predicate SettledAt(s: State, calls: seq<Call>, id: TaskId, i: nat)
    requires Feasible(s, calls)
  {
    && i < |calls| && Granted(At(s, calls, i), calls[i]) && calls[i].id == id
    && forall j | i < j < |calls| :: !Unsettles(At(s, calls, j), calls[j], id)
  }

  lemma {:induction false} StaysSettled(s: State, calls: seq<Call>, settled: set<TaskId>, id: TaskId)
    requires Feasible(s, calls) && id in settled && forall j | 0 <= j < |calls| :: !Unsettles(At(s, calls, j), calls[j], id)
    ensures id in SettledFinal(s, calls, settled)
    decreases |calls|
  {
    if calls != [] {
      var t, rest := Apply(s, calls[0]), calls[1..];
      assert !Unsettles(At(s, calls, 0), calls[0], id);
      forall j | 0 <= j < |rest|
        ensures !Unsettles(At(t, rest, j), rest[j], id)
      {
        assert !Unsettles(At(s, calls, j + 1), calls[j + 1], id);
      }
      StaysSettled(t, rest, SettledAfter(s, calls[0], settled), id);
    }
  }

  lemma {:induction false} BecomesSettled(s: State, calls: seq<Call>, settled: set<TaskId>, id: TaskId, i: nat)
    requires Feasible(s, calls) && SettledAt(s, calls, id, i)
    ensures id in SettledFinal(s, calls, settled)
    decreases |calls|
  {
    var t, rest := Apply(s, calls[0]), calls[1..];
    forall j | 0 <= j < |rest|
      ensures At(t, rest, j) == At(s, calls, j + 1)
    {}
    if i == 0 {
      forall j | 0 <= j < |rest|
        ensures !Unsettles(At(t, rest, j), rest[j], id)
      {
        assert !Unsettles(At(s, calls, j + 1), calls[j + 1], id);
      }
      StaysSettled(t, rest, SettledAfter(s, calls[0], settled), id);
    } else {
      forall j | i - 1 < j < |rest|
        ensures !Unsettles(At(t, rest, j), rest[j], id)
      {
        assert !Unsettles(At(s, calls, j + 1), calls[j + 1], id);
      }
      BecomesSettled(t, rest, SettledAfter(s, calls[0], settled), id, i - 1);
    }
  }

  /** After every history the pools are within the rooms of their latest grants; and a task that was granted space for its
      segments, with no later plan and no later single-stream grant, has reserved plus received equal to the total as long
      as it has rows and a reservation. */
  lemma HistoriesBalance(s: State, calls: seq<Call>)
    requires Init(s) && Feasible(s, calls)
    ensures Bounded(TableOf(Final(s, calls).rows), Final(s, calls).room)
    ensures forall id, i: nat | id in Final(s, calls).rows && SettledAt(s, calls, id, i) :: Balanced(Final(s, calls).rows[id])
  {
    InitInv(s);
    HistoriesKeepInv(s, calls, {});
    forall id, i: nat | id in Final(s, calls).rows && SettledAt(s, calls, id, i)
      ensures Balanced(Final(s, calls).rows[id])
    {
      BecomesSettled(s, calls, {}, id, i);
    }
  }

  /** After every history, a checkpoint that takes effect leaves exactly what is missing reserved, if anything is. */
  lemma CheckpointsBalance(s: State, calls: seq<Call>, call: Call)
    requires Init(s) && Feasible(s, calls) && Stores(Final(s, calls), call)
    ensures var t := Final(s, calls); var row := Apply(t, call).rows[call.id];
            && row.task.received == Received(row.segments)
            && (row.reserved.Some? ==> Covered(row, t.grants[call.id].total))
  {
    InitInv(s);
    HistoriesKeepInv(s, calls, {});
    StoreInv(Final(s, calls), call, SettledFinal(s, calls, {}));
  }

  /** After every history, a plan that takes effect leaves the task balanced exactly when no reservation is left over from
      an earlier run, or one of just the right size. */
  lemma PlansBalanceExactly(s: State, calls: seq<Call>, call: Call)
    requires Init(s) && Feasible(s, calls) && call.Plan? && call.plan != [] && Enabled(Final(s, calls), call)
    requires Holds(Final(s, calls), call.id, call.worker)
    ensures var row := Final(s, calls).rows[call.id];
            Balanced(Apply(Final(s, calls), call).rows[call.id]) <==>
            (row.reserved.Some? ==> row.reserved.value == SatSub(call.total, call.prefix))
  {
    LastEnd(call.plan, call.total);
  }

  // ----- a history that needs the condition

  lemma {:induction false} Extend(s: State, calls: seq<Call>, call: Call)
    requires Feasible(s, calls) && Enabled(Final(s, calls), call)
    ensures Feasible(s, calls + [call]) && Final(s, calls + [call]) == Apply(Final(s, calls), call)
    decreases |calls|
  {
    if calls == [] {
      assert calls + [call] == [call];
      assert [call][1..] == [];
    } else {
      Extend(Apply(s, calls[0]), calls[1..], call);
      assert (calls + [call])[1..] == calls[1..] + [call];
    }
  }

  /** A task nobody has started. */
  const NEW_ROW: Row := Row(Task(Queued, None, None, None, 0, None, 0, 0, None, 0, None), None, 0, [], None)
  const ONE_TASK: State := State(map["a" := NEW_ROW], map[], map[])

  ghost predicate OneRowIs(s: State, row: Row) { s.rows == map["a" := row] }

  /** A single-stream run reserves the whole file. */
  lemma SingleReserves() returns (calls: seq<Call>)
    ensures Init(ONE_TASK) && Feasible(ONE_TASK, calls)
    ensures OneRowIs(Final(ONE_TASK, calls), DownloadRows.Claim(NEW_ROW, 1, 0).(reserved := Some(MIB)))
  {
    Extend(ONE_TASK, [], Claim(Some("a"), 1, 0, 0));
    calls := [] + [Claim(Some("a"), 1, 0, 0)];
    var s, call := Final(ONE_TASK, calls), ReserveSingle("a", 1, MIB, MIB, 0);
    assert TableOf(s.rows) - {"a"} == map[];
    assert GrantedSingle(s, call);
    Extend(ONE_TASK, calls, call);
    calls := calls + [call];
  }

  /** It journals the file; recovery releases the task and leaves the reservation; another run claims the task and plans
      segments that keep what was received. Until that run reserves, its rows and the old reservation do not add up. */
  lemma ReplanUnbalances() returns (calls: seq<Call>)
    ensures Init(ONE_TASK) && Feasible(ONE_TASK, calls) && "a" in Final(ONE_TASK, calls).rows
    ensures !Balanced(Final(ONE_TASK, calls).rows["a"])
  {
    calls := SingleReserves();
    var journal := Journal(OperationId("a"), 1, FileId(0, 0, MIB));
    Extend(ONE_TASK, calls, BeginPublish("a", journal));
    calls := calls + [BeginPublish("a", journal)];
    Extend(ONE_TASK, calls, RecoverUnpublished("a", 0));
    calls := calls + [RecoverUnpublished("a", 0)];
    Extend(ONE_TASK, calls, Claim(Some("a"), 2, 0, 1));
    calls := calls + [Claim(Some("a"), 2, 0, 1)];
    calls := PlansWhole(calls);
  }

  lemma PlansWhole(early: seq<Call>) returns (calls: seq<Call>)
    requires Feasible(ONE_TASK, early)
    requires var s := Final(ONE_TASK, early); "a" in s.rows && Owned(s.rows["a"].task, 2) && s.rows["a"].reserved == Some(MIB)
    ensures Feasible(ONE_TASK, calls) && "a" in Final(ONE_TASK, calls).rows && !Balanced(Final(ONE_TASK, calls).rows["a"])
  {
    var rows := [Segment(0, MIB, MIB)];
    assert rows[1..] == [];
    assert Received(rows) == MIB;
    Extend(ONE_TASK, early, Plan("a", 2, MIB, MIB, rows));
    calls := early + [Plan("a", 2, MIB, MIB, rows)];
  }

  ghost predicate Covers(rows: seq<Segment>, total: nat) { rows != [] && Tiles(rows, total) && 0 <= Received(rows) <= total }

  lemma NotCovered(s: State, call: Call)
    requires call.ReserveSegments? && Enabled(s, call) && (call.id in s.rows ==> !Covers(s.rows[call.id].segments, call.total))
    ensures Apply(s, call) == s
  {}

  lemma Refused(s: State, call: Call, required: nat)
    requires call.ReserveSegments? && Enabled(s, call)
    requires call.id in s.rows ==> required == call.total - Received(s.rows[call.id].segments)
    requires !(Holds(s, call.id, call.worker) && Roomy(s, call.id, required, call.available, call.minimumFree))
    ensures Apply(s, call) == s
  {}

  lemma Allowed(s: State, call: Call, required: nat)
    requires call.ReserveSegments? && Enabled(s, call) && Holds(s, call.id, call.worker)
    requires Covers(s.rows[call.id].segments, call.total) && required == call.total - Received(s.rows[call.id].segments)
    requires Roomy(s, call.id, required, call.available, call.minimumFree)
    ensures Apply(s, call) == Reserve(s, call.id, required, call.available, call.minimumFree)
                              .(grants := s.grants[call.id := Grant(call.worker, call.total, s.rows[call.id].segments)])
  {}

  lemma TransitionState(s: State, call: Call)
    requires call.Transition? && Enabled(s, call)
    ensures call.id !in s.rows || s.rows[call.id].task.status !in call.from ==> Apply(s, call) == s
    ensures call.id in s.rows && s.rows[call.id].task.status in call.from ==>
              Apply(s, call) == Unremember(WithRow(s, call.id, Moved(s.rows[call.id], call.from, call.to, call.reset)), call.id)
  {}

  // ----- the calls on the tables

  /** The same call, save for what the program itself finds. */
  predicate Same(asked: Call, made: Call) {
    match asked
    case Claim(_, worker, now, until) => made.Claim? && made.worker == worker && made.now == now && made.until == until
    case Plan(id, worker, total, prefix, _) =>
      made.Plan? && made.id == id && made.worker == worker && made.total == total && made.prefix == prefix
    case _ => made == asked
  }

  class Accounts {
    const db: Db
    /** What the segmented runs that were granted space remember. */
    var grants: map<TaskId, Grant>
    /** The tasks that have been granted space for their present rows; the program keeps no such set. */
    ghost var settled: set<TaskId>

    constructor (db: Db)
      requires db.segments == map[] && db.reservations == map[]
      ensures this.db == db && grants == map[] && settled == {} && Valid() && Init(View())
    {
      this.db := db;
      grants, settled := map[], {};
      new;
      InitInv(View());
    }

    ghost function Rows(): map<TaskId, Row>
      reads db
    {
      map id | id in db.tasks :: db.Slice(id)
    }

    ghost function View(): State
      reads this`grants, db
    {
      State(Rows(), db.room, grants)
    }

    ghost predicate Valid()
      reads this, db
    {
      db.Linked() && Inv(View(), settled)
    }

    /** What the tables must satisfy for a call, and keep. */
    ghost predicate Ready()
      reads db
    {
      db.Linked() && Bounded(db.reservations, db.room)
    }

    /** The reservation table is what the rows show of it. */
    lemma TableIs()
      requires db.Linked()
      ensures TableOf(Rows()) == db.reservations
    {}

    twostate lemma OneChanged(id: TaskId)
      requires db.OthersKept(id) && id in db.tasks
      ensures Rows() == old(Rows())[id := db.Slice(id)]
    {}

    twostate lemma NoneChanged(id: TaskId)
      requires db.OthersKept(id) && (id in db.tasks ==> db.Slice(id) == old(db.Slice(id)))
      ensures Rows() == old(Rows())
    {}

    // ----- one call

    method RecoverExpired(now: Time)
      requires Ready()
      modifies db
      ensures db.Linked() && View() == Apply(old(View()), Call.RecoverExpired(now))
    {
      var _ := db.RecoverExpired(now);
      assert Rows() == Apply(old(View()), Call.RecoverExpired(now)).rows;
    }

    method RequeueOwned(worker: Worker)
      requires Ready()
      modifies db
      ensures db.Linked() && View() == Apply(old(View()), Call.RequeueOwned(worker))
    {
      db.RequeueOwned(worker);
      assert Rows() == Apply(old(View()), Call.RequeueOwned(worker)).rows;
    }

    method Claim(worker: Worker, now: Time, until: Time) returns (found: Option<TaskId>)
      requires Ready()
      modifies this`grants, db
      ensures db.Linked() && Enabled(old(View()), Call.Claim(found, worker, now, until))
      ensures View() == Apply(old(View()), Call.Claim(found, worker, now, until))
    {
      found := db.Claim(worker, now, until);
      if found.Some? {
        OneChanged(found.value);
        grants := grants - {found.value};
      } else {
        assert Rows() == old(Rows());
      }
    }

    method ResetTransfer(id: TaskId, worker: Worker)
      requires Ready()
      modifies this`grants, db
      ensures db.Linked() && View() == Apply(old(View()), Call.ResetTransfer(id, worker))
    {
      var owned := db.ResetTransfer(id, worker);
      if owned {
        OneChanged(id);
        grants := grants - {id};
      } else {
        NoneChanged(id);
      }
    }

    /** `plan_segments` and `replace_segments` of a first segmented run. */
    method Plan(id: TaskId, worker: Worker, total: nat, prefix: nat) returns (plan: seq<Segment>)
      requires Ready() && total <= U64_MAX && prefix <= U64_MAX
      modifies this`grants, db
      ensures db.Linked() && Enabled(old(View()), Call.Plan(id, worker, total, prefix, plan))
      ensures View() == Apply(old(View()), Call.Plan(id, worker, total, prefix, plan))
    {
      plan := PlanSegments(total, prefix);
      var owned := db.ReplaceSegments(id, worker, plan);
      if owned {
        OneChanged(id);
        grants := grants - {id};
      } else {
        NoneChanged(id);
      }
    }

    /** The stored rows, and whether they cover the total; others were reset before. */
    method Read(id: TaskId, total: nat) returns (covers: bool, rows: seq<Segment>)
      ensures rows == if id in db.segments then db.segments[id] else []
      ensures covers <==> Covers(rows, total)
    {
      rows := if id in db.segments then db.segments[id] else [];
      covers := SegmentsCoverTotal(rows, total);
      if covers {
        AcceptedReceived(rows, total);
      }
      covers := covers && rows != [];
    }

    /** `reserve_space`, in the machine's terms. */
    method ReserveSpace(id: TaskId, worker: Worker, required: nat, available: nat, minimumFree: nat) returns (granted: bool)
      requires Ready() && required <= U64_MAX && available <= U64_MAX && minimumFree <= U64_MAX
      modifies db
      ensures db.Linked() && grants == old(grants)
      ensures granted <==> old(Holds(View(), id, worker) && Roomy(View(), id, required, available, minimumFree))
      ensures View() == if granted then Reserve(old(View()), id, required, available, minimumFree) else old(View())
    {
      TableIs();
      if id in db.tasks {
        SaturationExact(required, minimumFree, PoolTotal(db.reservations - {id}, db.tasks[id].pool), available);
      }
      var outcome := db.ReserveSpace(id, worker, required, available, minimumFree);
      granted := outcome == Done;
      if granted {
        OneChanged(id);
      } else {
        NoneChanged(id);
      }
    }

    method ReserveSegments(id: TaskId, worker: Worker, total: nat, available: nat, minimumFree: nat)
      requires Ready() && total <= U64_MAX && available <= U64_MAX && minimumFree <= U64_MAX
      modifies this`grants, db
      ensures db.Linked()
      ensures View() == Apply(old(View()), Call.ReserveSegments(id, worker, total, available, minimumFree))
    {
      ghost var was, call := View(), Call.ReserveSegments(id, worker, total, available, minimumFree);
      var covers, rows := Read(id, total);
      assert id in was.rows ==> was.rows[id].segments == rows;
      if covers {
        var required := total - Received(rows);
        var granted := ReserveSpace(id, worker, required, available, minimumFree);
        if granted {
          grants := grants[id := Grant(worker, total, rows)];
          Allowed(was, call, required);
        } else {
          Refused(was, call, required);
        }
      } else {
        NotCovered(was, call);
      }
    }

    method ReserveSingle(id: TaskId, worker: Worker, required: nat, available: nat, minimumFree: nat)
      requires Ready() && required <= U64_MAX && available <= U64_MAX && minimumFree <= U64_MAX
      modifies this`grants, db
      ensures db.Linked()
      ensures View() == Apply(old(View()), Call.ReserveSingle(id, worker, required, available, minimumFree))
    {
      var granted := ReserveSpace(id, worker, required, available, minimumFree);
      if granted {
        grants := grants - {id};
      }
    }

    /** A checkpoint of a segment loop: its own segment, from where it last stored it, no further than its end. */
    method StoreCursor(id: TaskId, worker: Worker, segment: nat, next: nat, until: Time)
      requires Ready()
      modifies this`grants, db
      ensures db.Linked() && View() == Apply(old(View()), Call.StoreCursor(id, worker, segment, next, until))
      ensures var was := old(View());
              Inv(was, settled) && Stores(was, Call.StoreCursor(id, worker, segment, next, until)) ==>
                id in db.tasks && (db.Slice(id).reserved.Some? ==> Covered(db.Slice(id), was.grants[id].total))
    {
      ghost var was, call := View(), Call.StoreCursor(id, worker, segment, next, until);
      if Inv(was, settled) && Stores(was, call) {
        StoreInv(was, call, settled);
      }
      Checkpoint(id, worker, segment, next, until);
    }

    method Checkpoint(id: TaskId, worker: Worker, segment: nat, next: nat, until: Time)
      requires Ready()
      modifies this`grants, db
      ensures db.Linked() && View() == Apply(old(View()), Call.StoreCursor(id, worker, segment, next, until))
      ensures db.tasks.Keys == old(db.tasks.Keys)
    {
      if id in grants && Fits(grants[id], worker, segment, next) {
        var g := grants[id];
        var owned := db.CheckpointSegment(id, worker, g.rows[segment].start, next, g.total, until);
        if owned {
          OneChanged(id);
          grants := grants[id := Advanced(g, segment, next)];
        } else {
          NoneChanged(id);
        }
      }
    }

    /** A user moves the task on, with or without its progress. */
    method Transition(id: TaskId, from: set<Status>, to: Status, reset: bool)
      requires Ready() && to != Running
      modifies this`grants, db
      ensures db.Linked() && View() == Apply(old(View()), Call.Transition(id, from, to, reset))
    {
      ghost var was := View();
      TransitionState(was, Call.Transition(id, from, to, reset));
      var moved := Move(id, from, to, reset);
      if moved {
        OneChanged(id);
        grants := grants - {id};
      } else {
        NoneChanged(id);
      }
    }

    method Move(id: TaskId, from: set<Status>, to: Status, reset: bool) returns (moved: bool)
      requires Ready()
      modifies db
      ensures db.OthersKept(id) && db.Linked() && db.room == old(db.room)
      ensures moved == (id in old(db.tasks) && old(db.tasks)[id].status in from)
      ensures id in db.tasks && !moved ==> db.Slice(id) == old(db.Slice(id))
      ensures moved ==> db.Slice(id) == Moved(old(db.Slice(id)), from, to, reset)
    {
      moved := db.Transition(id, from, to);
      if moved && reset {
        db.ForgetProgress(id);
      }
    }

    /** The calls that change one task's rows and need nothing remembered. */
    method Relay(call: Call)
      requires Ready() && Relayed(call) && InRange(call)
      modifies db
      ensures db.OthersKept(call.id) && db.room == old(db.room)
      ensures call.id in old(db.tasks) ==> db.Slice(call.id) == After(call, old(db.Slice(call.id)))
    {
      match call
      case BeginPublish(id, journal) => var _ := db.BeginPublish(id, journal);
      case FinalizePublish(id, journal) => var _ := db.FinalizePublish(id, journal);
      case RecoverUnpublished(id, now) => var _ := db.RecoverUnpublished(id, now);
      case FailRecovery(id) => db.FailRecovery(id);
      case ExtendLease(id, worker, until) => var _ := db.ExtendLease(id, worker, until);
      case FinishControl(id, worker, cancelled) => db.FinishControl(id, worker, cancelled);
      case FailOrRetry(id, worker, retry) => var _ := db.FailOrRetry(id, worker, retry);
      case RequestControl(id, request) => db.RequestControl(id, request);
    }

    method Other(call: Call)
      requires Ready() && Relayed(call) && InRange(call)
      modifies db
      ensures db.Linked() && View() == Apply(old(View()), call)
    {
      Relay(call);
      if call.id in db.tasks {
        OneChanged(call.id);
        RelayedState(old(View()), call);
      } else {
        NoneChanged(call.id);
      }
    }

    /** Makes the call, and says what it found. */
    method Make(call: Call) returns (made: Call)
      requires Ready() && InRange(call)
      modifies this`grants, db
      ensures Same(call, made) && db.Linked() && Enabled(old(View()), made) && View() == Apply(old(View()), made)
    {
      made := call;
      match call
      case RecoverExpired(now) => RecoverExpired(now);
      case RequeueOwned(worker) => RequeueOwned(worker);
      case Claim(_, worker, now, until) =>
        var found := Claim(worker, now, until);
        made := Call.Claim(found, worker, now, until);
      case ResetTransfer(id, worker) => ResetTransfer(id, worker);
      case Plan(id, worker, total, prefix, _) =>
        var plan := Plan(id, worker, total, prefix);
        made := Call.Plan(id, worker, total, prefix, plan);
      case ReserveSegments(id, worker, total, available, minimumFree) => ReserveSegments(id, worker, total, available, minimumFree);
      case ReserveSingle(id, worker, required, available, minimumFree) => ReserveSingle(id, worker, required, available, minimumFree);
      case StoreCursor(id, worker, segment, next, until) => StoreCursor(id, worker, segment, next, until);
      case Transition(id, from, to, reset) => Transition(id, from, to, reset);
      case _ => Other(call);
    }

    method Perform(call: Call) returns (made: Call)
      requires Valid() && InRange(call)
      modifies this, db
      ensures Valid() && Same(call, made) && Enabled(old(View()), made)
      ensures View() == Apply(old(View()), made) && settled == SettledAfter(old(View()), made, old(settled))
    {
      TableIs();
      ghost var was := View();
      made := Make(call);
      StepInv(was, made, settled);
      settled := SettledAfter(was, made, settled);
    }

    /** Any sequence of calls is a history of the machine; the tables end as it does. */
    method Serve(calls: seq<Call>) returns (made: seq<Call>)
      requires Valid() && Init(View()) && forall i | 0 <= i < |calls| :: InRange(calls[i])
      modifies this, db
      ensures |made| == |calls| && forall i | 0 <= i < |calls| :: Same(calls[i], made[i])
      ensures Feasible(old(View()), made) && View() == Final(old(View()), made)
      ensures Bounded(db.reservations, db.room)
      ensures forall id, i: nat | id in db.tasks && SettledAt(old(View()), made, id, i) :: Balanced(db.Slice(id))
      ensures Valid()
    {
      ghost var start := View();
      made := [];
      var i := 0;
      while i < |calls|
        invariant i == |made| <= |calls| && Valid()
        invariant forall k | 0 <= k < i :: Same(calls[k], made[k])
        invariant Feasible(start, made) && View() == Final(start, made)
      {
        var one := Perform(calls[i]);
        Extend(start, made, one);
        made := made + [one];
        i := i + 1;
      }
      HistoriesBalance(start, made);
      TableIs();
    }
  }
}
