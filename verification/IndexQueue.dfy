/** The indexer's durable work queue (apps/indexer/src/db.rs): one row per root and path, coalescing requests,
    with leases, retries and a generation that fences every answer a worker gives. */
module IndexQueue {
  import opened Base
  import opened Paths

  type Time = int
  type Worker = nat

  datatype Key = Key(root: nat, path: string)

  datatype Kind = Incremental | Full | Manual

  datatype Status = Queued | Running | Retrying | Failed

  datatype Row = Row(
    id: nat,
    pool: Option<nat>,
    recursive: bool,
    kind: Kind,
    generation: nat,
    priority: int,
    status: Status,
    retries: nat,
    retryAt: Option<Time>,
    worker: Option<Worker>,
    lease: Option<Time>,
    createdAt: Time)

  type Queue = map<Key, Row>

  datatype Request = Request(pool: Option<nat>, recursive: bool, kind: Kind, priority: int)

  // ----- enqueue

  function MergedKind(old_: Kind, new_: Kind): Kind {
    if new_ == Manual then Manual else if old_ == Manual then old_ else if new_ == Full then Full else old_
  }

  /** `enqueue`: insert a row, or fold the request into the one that is there and queue it again. */
  function Upsert(row: Option<Row>, id: nat, request: Request, now: Time): Row {
    match row
    case None =>
      Row(id, request.pool, request.recursive, request.kind, 1, request.priority, Queued, 0, None, None, None, now)
    case Some(r) =>
      r.(pool := if request.pool.Some? then request.pool else r.pool,
         recursive := r.recursive || request.recursive,
         kind := MergedKind(r.kind, request.kind),
         generation := r.generation + 1,
         priority := if r.priority >= request.priority then r.priority else request.priority,
         status := Queued, retries := 0, retryAt := None, worker := None, lease := None)
  }

  /** The statement that `finalize_publish` runs for a downloaded file (apps/downloader/src/db.rs). */
  function UpsertDownloaded(row: Option<Row>, id: nat, pool: nat, now: Time): Row {
    match row
    case None => Row(id, Some(pool), false, Incremental, 1, 50, Queued, 0, None, None, None, now)
    case Some(r) =>
      r.(pool := Some(pool), generation := r.generation + 1,
         priority := if r.priority >= 50 then r.priority else 50,
         status := Queued, retries := 0, retryAt := None, worker := None, lease := None)
  }

  /** The downloader's own statement is an incremental, non-recursive enqueue of priority 50. */
  lemma DownloadedIsEnqueue(row: Option<Row>, id: nat, pool: nat, now: Time)
    ensures UpsertDownloaded(row, id, pool, now) == Upsert(row, id, Request(Some(pool), false, Incremental, 50), now)
  {}

  function Rank(kind: Kind): nat {
    match kind case Incremental => 0 case Full => 1 case Manual => 2
  }

  /** The row that a series of requests for one key leaves, when nothing takes it in between. */
  function Coalesce(requests: seq<Request>, id: nat, now: Time): (r: Row)
    requires requests != []
  {
    var last := requests[|requests| - 1];
    if |requests| == 1 then Upsert(None, id, last, now)
    else Upsert(Some(Coalesce(requests[..|requests| - 1], id, now)), id, last, now)
  }

  /** It is the join of the requests, and its generation counts them. */
  lemma {:induction false} CoalesceIsJoin(requests: seq<Request>, id: nat, now: Time)
    requires requests != []
    ensures var r := Coalesce(requests, id, now);
            && r.generation == |requests| && r.status == Queued && r.id == id
            && (r.recursive <==> exists i | 0 <= i < |requests| :: requests[i].recursive)
            && (exists i | 0 <= i < |requests| :: requests[i].kind == r.kind)
            && (exists i | 0 <= i < |requests| :: requests[i].priority == r.priority)
            && (forall i | 0 <= i < |requests| :: Rank(requests[i].kind) <= Rank(r.kind) && requests[i].priority <= r.priority)
  {
    var n := |requests| - 1;
    var last := requests[n];
    if n > 0 {
      var before := requests[..n];
      CoalesceIsJoin(before, id, now);
      var b, r := Coalesce(before, id, now), Coalesce(requests, id, now);
      forall i | 0 <= i < |requests| ensures Rank(requests[i].kind) <= Rank(r.kind) && requests[i].priority <= r.priority {
        assert i < n ==> requests[i] == before[i];
      }
      var k :| 0 <= k < n && before[k].kind == b.kind;
      var p :| 0 <= p < n && before[p].priority == b.priority;
      assert requests[k].kind == b.kind && requests[p].priority == b.priority;
      assert r.kind == b.kind || r.kind == last.kind;
      assert r.priority == b.priority || r.priority == last.priority;
      if b.recursive {
        var j :| 0 <= j < n && before[j].recursive;
        assert requests[j].recursive;
      }
      if j :| 0 <= j < |requests| && requests[j].recursive {
        assert j < n ==> before[j].recursive;
      }
    }
  }

  /** Requests may arrive in any order. */
  lemma CoalesceOrder(a: seq<Request>, b: seq<Request>, id: nat, now: Time)
    requires a != [] && multiset(a) == multiset(b)
    ensures b != [] && var x, y := Coalesce(a, id, now), Coalesce(b, id, now);
            x.recursive == y.recursive && x.kind == y.kind && x.priority == y.priority && x.generation == y.generation
  {
    assert |multiset(a)| == |a| && |multiset(b)| == |b|;
    CoalesceIsJoin(a, id, now);
    CoalesceIsJoin(b, id, now);
    Dominates(a, b, id, now);
    Dominates(b, a, id, now);
  }

  lemma Dominates(a: seq<Request>, b: seq<Request>, id: nat, now: Time)
    requires a != [] && b != [] && multiset(a) == multiset(b)
    ensures var x, y := Coalesce(a, id, now), Coalesce(b, id, now);
            (x.recursive ==> y.recursive) && Rank(x.kind) <= Rank(y.kind) && x.priority <= y.priority
  {
    CoalesceIsJoin(a, id, now);
    CoalesceIsJoin(b, id, now);
    var x := Coalesce(a, id, now);
    forall i | 0 <= i < |a| ensures exists j | 0 <= j < |b| :: b[j] == a[i] {
      assert a[i] in multiset(a);
      assert a[i] in b;
    }
    var k :| 0 <= k < |a| && a[k].kind == x.kind;
    var k' :| 0 <= k' < |b| && b[k'] == a[k];
    var p :| 0 <= p < |a| && a[p].priority == x.priority;
    var p' :| 0 <= p' < |b| && b[p'] == a[p];
    if x.recursive {
      var r :| 0 <= r < |a| && a[r].recursive;
      var r' :| 0 <= r' < |b| && b[r'] == a[r];
    }
  }

  // ----- the other statements

  /** Rows whose lease has run out go back to the queue; `claim` does this first. */
  function Requeue(q: Queue, now: Time): Queue {
    map k | k in q ::
      if q[k].status == Running && (q[k].lease.None? || q[k].lease.value <= now)
      then q[k].(status := Queued, worker := None, lease := None) else q[k]
  }

  predicate Ready(row: Row, now: Time) {
    row.status == Queued || (row.status == Retrying && row.retryAt.Some? && row.retryAt.value <= now)
  }

  function Claimed(row: Row, worker: Worker, until: Time): Row {
    row.(status := Running, worker := Some(worker), lease := Some(until), retryAt := None)
  }

  /** The fence of every answer: the same row, unchanged since the claim, still held by this worker. */
  predicate Matches(row: Row, id: nat, generation: nat, worker: Worker) {
    row.id == id && row.generation == generation && row.status == Running && row.worker == Some(worker)
  }

  function RenewLease(q: Queue, id: nat, generation: nat, worker: Worker, until: Time): Queue {
    map k | k in q :: if Matches(q[k], id, generation, worker) then q[k].(lease := Some(until)) else q[k]
  }

  function CompleteTask(q: Queue, id: nat, generation: nat, worker: Worker): Queue {
    map k | k in q && !Matches(q[k], id, generation, worker) :: q[k]
  }

  function RetryOrFail(q: Queue, id: nat, generation: nat, worker: Worker, retries: nat, retry: Option<Time>): Queue {
    map k | k in q ::
      if Matches(q[k], id, generation, worker)
      then q[k].(status := if retry.Some? then Retrying else Failed, retries := retries, retryAt := retry, worker := None, lease := None)
      else q[k]
  }

  /** `cleanup_generation` also drops the failed requests below the directory it has just scanned. */
  function DropFailed(q: Queue, root: nat, path: string): Queue {
    map k | k in q && !(k.root == root && q[k].status == Failed && SameOrAncestor(path, k.path)) :: q[k]
  }

  /** Highest priority first, then the longest waiting. */
  predicate Before(a: Row, b: Row) {
    var wakeA := if a.retryAt.Some? then a.retryAt.value else a.createdAt;
    var wakeB := if b.retryAt.Some? then b.retryAt.value else b.createdAt;
    a.priority > b.priority || (a.priority == b.priority && (wakeA < wakeB || (wakeA == wakeB && a.createdAt < b.createdAt)))
  }

  class QueueDb {
    var rows: Queue
    var nextId: nat

    constructor ()
      ensures rows == map[]
    {
      rows, nextId := map[], 0;
    }

    method Enqueue(key: Key, request: Request, now: Time)
      modifies this
      ensures rows == old(rows)[key := Upsert(if key in old(rows) then Some(old(rows)[key]) else None, old(nextId), request, now)]
      ensures nextId == old(nextId) + 1
    {
      if key in rows {
        var row := rows[key];
        var kind := row.kind;
        if request.kind == Manual { kind := Manual; }
        else if row.kind != Manual && request.kind == Full { kind := Full; }
        rows := rows[key := row.(pool := if request.pool.Some? then request.pool else row.pool,
                                 recursive := row.recursive || request.recursive, kind := kind,
                                 generation := row.generation + 1,
                                 priority := if request.priority > row.priority then request.priority else row.priority,
                                 status := Queued, retries := 0, retryAt := None, worker := None, lease := None)];
      } else {
        rows := rows[key := Row(nextId, request.pool, request.recursive, request.kind, 1, request.priority, Queued, 0, None, None, None, now)];
      }
      nextId := nextId + 1;
    }

    method Claim(worker: Worker, now: Time, until: Time) returns (claimed: Option<Key>)
      modifies this`rows
      ensures var q := Requeue(old(rows), now);
              match claimed
              case None => rows == q && forall k | k in q :: !Ready(q[k], now)
              case Some(key) =>
                && key in q && Ready(q[key], now) && rows == q[key := Claimed(q[key], worker, until)]
                && forall k | k in q && Ready(q[k], now) :: !Before(q[k], q[key])
    {
      rows := Requeue(rows, now);
      claimed := None;
      var rest := rows.Keys;
      while rest != {}
        invariant rest <= rows.Keys && rows == Requeue(old(rows), now)
        invariant claimed.Some? ==> claimed.value in rows && Ready(rows[claimed.value], now)
        invariant forall k | k in rows && k !in rest && Ready(rows[k], now) ::
                    claimed.Some? && !Before(rows[k], rows[claimed.value])
        decreases rest
      {
        var key :| key in rest;
        rest := rest - {key};
        if Ready(rows[key], now) && (claimed.None? || Before(rows[key], rows[claimed.value])) {
          claimed := Some(key);
        }
      }
      if claimed.Some? {
        var key := claimed.value;
        rows := rows[key := rows[key].(status := Running, worker := Some(worker), lease := Some(until), retryAt := None)];
      }
    }

    method Complete(id: nat, generation: nat, worker: Worker) returns (deleted: bool)
      modifies this`rows
      ensures rows == CompleteTask(old(rows), id, generation, worker)
      ensures deleted <==> exists k | k in old(rows) :: Matches(old(rows)[k], id, generation, worker)
    {
      var gone := set k | k in rows && rows[k].id == id && rows[k].generation == generation
                          && rows[k].status == Running && rows[k].worker == Some(worker);
      assert forall k | k in rows :: k in gone <==> Matches(rows[k], id, generation, worker);
      deleted := gone != {};
      rows := rows - gone;
    }
  }
}
