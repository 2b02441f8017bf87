/** Space reservations of a storage pool (apps/downloader/src/db.rs). */
module Reservations {
  import opened Base
  import opened Segments
  import opened DownloadRows

  datatype Reservation = Reservation(pool: nat, bytes: nat)

  type Table = map<string, Reservation>

  /** `SUM(reserved_bytes) WHERE storage_pool_id = pool`. */
  ghost function PoolTotal(t: Table, pool: nat): nat
    decreases |t|
  {
    if t == map[] then 0
    else
      var k :| k in t;
      (if t[k].pool == pool then t[k].bytes else 0) + PoolTotal(t - {k}, pool)
  }

  function Share(t: Table, pool: nat, k: string): nat {
    if k in t && t[k].pool == pool then t[k].bytes else 0
  }

  /** The sum does not depend on the order in which rows are added up. */
  lemma {:induction false} PoolTotalSplit(t: Table, pool: nat, k: string)
    ensures PoolTotal(t, pool) == Share(t, pool, k) + PoolTotal(t - {k}, pool)
    decreases |t|
  {
    if k !in t {
      assert t - {k} == t;
    } else {
      var first :| first in t && PoolTotal(t, pool) == Share(t, pool, first) + PoolTotal(t - {first}, pool);
      if first != k {
        PoolTotalSplit(t - {first}, pool, k);
        PoolTotalSplit(t - {k}, pool, first);
        assert t - {first} - {k} == t - {k} - {first};
        assert Share(t - {first}, pool, k) == Share(t, pool, k);
        assert Share(t - {k}, pool, first) == Share(t, pool, first);
      } else {
        assert PoolTotal(t - {first}, pool) == PoolTotal(t - {k}, pool);
      }
    }
  }

  lemma PoolTotalUpdate(t: Table, pool: nat, k: string, r: Reservation)
    ensures PoolTotal(t[k := r], pool) == PoolTotal(t - {k}, pool) + (if r.pool == pool then r.bytes else 0)
  {
    PoolTotalSplit(t[k := r], pool, k);
    assert t[k := r] - {k} == t - {k};
  }

  /** What a granted reservation leaves for its pool: the free space seen, less the configured minimum. Against a free
      space of `u64::MAX` the saturating sum tests nothing, and there is no bound. */
  function Room(available: nat, minimumFree: nat): Option<nat> {
    if minimumFree <= available < U64_MAX then Some(available - minimumFree) else None
  }

  /** Each pool's reservations stay within the room that its latest granted reservation left. */
  ghost predicate Bounded(t: Table, room: map<nat, Option<nat>>) {
    forall pool :: PoolTotal(t, pool) > 0 ==> pool in room && (room[pool].Some? ==> PoolTotal(t, pool) <= room[pool].value)
  }

  function Resized(t: Table, k: string, bytes: nat): Table { if k in t then t[k := t[k].(bytes := bytes)] else t }

  /** Rows may be deleted and may shrink. */
  lemma ShrinkKeepsBound(t: Table, k: string, bytes: nat, room: map<nat, Option<nat>>)
    requires Bounded(t, room) && k in t && bytes <= t[k].bytes
    ensures Bounded(Resized(t, k, bytes), room)
    ensures Bounded(t - {k}, room)
  {
    forall pool: nat
      ensures PoolTotal(Resized(t, k, bytes), pool) <= PoolTotal(t, pool)
      ensures PoolTotal(t - {k}, pool) <= PoolTotal(t, pool)
    {
      PoolTotalSplit(t, pool, k);
      PoolTotalUpdate(t, pool, k, t[k].(bytes := bytes));
    }
  }

  function Keep(t: Table, keep: set<string>): Table { map k | k in t && k in keep :: t[k] }

  lemma {:induction false} KeepTotal(t: Table, keep: set<string>, pool: nat)
    ensures PoolTotal(Keep(t, keep), pool) <= PoolTotal(t, pool)
    decreases |t|
  {
    if t == map[] {
      assert Keep(t, keep) == map[];
    } else {
      var k :| k in t;
      PoolTotalSplit(t, pool, k);
      PoolTotalSplit(Keep(t, keep), pool, k);
      KeepTotal(t - {k}, keep, pool);
      assert Keep(t, keep) - {k} == Keep(t - {k}, keep);
    }
  }

  lemma KeepKeepsBound(t: Table, keep: set<string>, room: map<nat, Option<nat>>)
    requires Bounded(t, room)
    ensures Bounded(Keep(t, keep), room)
  {
    forall pool: nat ensures PoolTotal(Keep(t, keep), pool) <= PoolTotal(t, pool) {
      KeepTotal(t, keep, pool);
    }
  }

  /** What `reserve_space` compares with the free space. */
  function Needed(required: nat, minimumFree: nat, others: nat): nat {
    SatAdd(SatAdd(required, minimumFree), others)
  }

  /** A granted reservation bounds its pool, unless the sum saturated against a free space of `u64::MAX`. */
  lemma GrantKeepsBound(t: Table, k: string, pool: nat, required: nat, available: nat, minimumFree: nat, room: map<nat, Option<nat>>)
    requires Bounded(t, room)
    requires Needed(required, minimumFree, PoolTotal(t - {k}, pool)) <= available <= U64_MAX
    ensures available < U64_MAX ==> minimumFree <= available
    ensures Bounded(t[k := Reservation(pool, required)], room[pool := Room(available, minimumFree)])
  {
    forall p: nat ensures PoolTotal(t - {k}, p) <= PoolTotal(t, p) {
      PoolTotalSplit(t, p, k);
    }
    forall p: nat
      ensures PoolTotal(t[k := Reservation(pool, required)], p) == PoolTotal(t - {k}, p) + (if p == pool then required else 0)
    {
      PoolTotalUpdate(t, p, k, Reservation(pool, required));
    }
  }

  /** Saturation is the only way to be granted more than there is, and only when the free space reads `u64::MAX`. */
  lemma SaturationExact(required: nat, minimumFree: nat, others: nat, available: nat)
    requires available <= U64_MAX
    ensures Needed(required, minimumFree, others) <= available <==>
            required + minimumFree + others <= available || available == U64_MAX
  {}

  // ----- progress and reservation of one task

  /** The rows of a segmented transfer: a tiling, and a reservation for exactly the bytes still missing. */
  ghost predicate Consistent(row: Row, total: nat) {
    && Tiles(row.segments, total)
    && (forall i, j | 0 <= i < j < |row.segments| :: row.segments[i].start != row.segments[j].start)
    && (row.reserved.Some? ==> row.reserved.value + Received(row.segments) == total)
  }

  lemma MoveCursorAt(segments: seq<Segment>, i: nat, next: nat)
    requires i < |segments|
    requires forall j | 0 <= j < |segments| && j != i :: segments[j].start != segments[i].start
    ensures MoveCursor(segments, segments[i].start, next) == segments[i := segments[i].(next := next)]
  {}

  /** A checkpoint inside its segment keeps `reserved + received == total`, and never enlarges the reservation
      of a cursor that moves forward. */
  lemma CheckpointKeepsBalance(row: Row, worker: Worker, i: nat, next: nat, total: nat, until: Time)
    requires Owned(row.task, worker) && Consistent(row, total)
    requires i < |row.segments| && row.segments[i].next <= next <= row.segments[i].end
    ensures var r := Checkpoint(row, worker, row.segments[i].start, next, total, until);
            && Consistent(r, total)
            && r.task.received == Received(row.segments) + next - row.segments[i].next
            && (row.reserved.Some? ==> r.reserved.Some? && r.reserved.value <= row.reserved.value
                                       && r.reserved.value + r.task.received == total)
  {
    MoveCursorAt(row.segments, i, next);
    TilesReadings(row.segments, 0, total);
    AdvanceCursor(row.segments, 0, total, i, next);
    var moved := row.segments[i := row.segments[i].(next := next)];
    TilesReadings(moved, 0, total);
    AcceptedReceived(moved, total);
  }
}
