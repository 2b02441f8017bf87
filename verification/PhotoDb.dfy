/** The tables of one photo job with the calls that change them (apps/photostaff/src/db.rs), and the discovery loop
    over them (apps/photostaff/src/worker.rs). */
module PhotoDb {
  import opened Base
  import opened Paths
  import R = PhotoRows
  import opened PhotoScan
  import opened TextOrder

  type Time = R.Time
  type Worker = R.Worker

  predicate Ready(entries: map<Path, R.Entry>, kind: R.EntryKind, now: Time, p: Path) {
    p in entries && entries[p].kind == kind && R.EntryClaimable(entries[p], now)
  }

  /** `ORDER BY path LIMIT 1`. */
  method First(paths: set<Path>) returns (first: Path)
    requires paths != {}
    ensures first in paths && forall p | p in paths :: Leq(Text(first), Text(p))
  {
    first :| first in paths;
    var rest := paths - {first};
    LeqReflexive(Text(first));
    while rest != {}
      invariant rest <= paths && first in paths
      invariant forall p | p in paths && p !in rest :: Leq(Text(first), Text(p))
      decreases rest
    {
      var q :| q in rest;
      LeqTotal(Text(first), Text(q));
      if !Leq(Text(first), Text(q)) {
        LeqReflexive(Text(q));
        forall p | p in paths && p !in rest
          ensures Leq(Text(q), Text(p))
        {
          LeqTransitive(Text(q), Text(first), Text(p));
        }
        first := q;
      }
      rest := rest - {q};
    }
  }

  class Db {
    var job: R.Job
    var entries: map<Path, R.Entry>
    var journal: map<nat, R.Record>
    var assets: map<Path, R.Asset>

    function View(): R.Store
      reads this
    {
      R.Store(job, entries, journal, assets)
    }

    /** The rows as other processes have left them. */
    method Reload(store: R.Store)
      modifies this
      ensures View() == store
    {
      job, entries, journal, assets := store.job, store.entries, store.journal, store.assets;
    }

    /** `claim_job`, as far as this job goes: an expired lease is taken back first. */
    method ClaimJob(worker: Worker, now: Time, until: Time) returns (claimed: bool)
      modifies this`job, this`entries
      ensures claimed == old(R.Claimable(job, now))
      ensures View() == R.ClaimJob(old(View()), worker, now, until)
    {
      claimed := R.Claimable(job, now);
      if claimed {
        if job.status == R.Running {
          job := job.(status := R.Queued, worker := None, lease := None);
        }
        job := job.(status := R.Running, worker := Some(worker), lease := Some(until), retryAt := None);
        entries := map p | p in entries :: if entries[p].status == R.Processing then entries[p].(status := R.Pending) else entries[p];
      }
    }

    method RenewLease(worker: Worker, until: Time) returns (renewed: bool)
      modifies this`job
      ensures renewed == old(job.status == R.Running && job.worker == Some(worker))
      ensures View() == R.RenewLease(old(View()), worker, until)
    {
      renewed := job.status == R.Running && job.worker == Some(worker);
      if renewed {
        job := job.(lease := Some(until));
      }
    }

    method InitializeScan(worker: Worker, now: Time, root: Path) returns (ok: bool)
      modifies this`entries
      ensures ok == R.Owned(job, worker, now)
      ensures View() == R.InitializeScan(old(View()), worker, now, root)
    {
      ok := R.Owned(job, worker, now);
      if ok && root !in entries {
        entries := entries[root := R.Entry(R.Directory, R.Pending, None)];
      }
    }

    /** `claim_entry`: the first path in text order among the entries of the kind that may be claimed, if there is one. */
    method ClaimEntry(kind: R.EntryKind, worker: Worker, now: Time) returns (ok: bool, found: Option<Path>)
      modifies this`entries
      ensures ok == R.Owned(job, worker, now)
      ensures !ok ==> found.None?
      ensures found.None? ==> entries == old(entries)
      ensures ok && found.None? ==> forall p | p in entries && entries[p].kind == kind :: !R.EntryClaimable(entries[p], now)
      ensures found.Some? ==> Ready(old(entries), kind, now, found.value)
      ensures found.Some? ==> forall p | Ready(old(entries), kind, now, p) :: Leq(Text(found.value), Text(p))
      ensures found.Some? ==> View() == R.ClaimEntry(old(View()), worker, now, found.value)
    {
      ok := R.Owned(job, worker, now);
      found := None;
      if ok {
        var ready := set p | p in entries && Ready(entries, kind, now, p);
        assert forall p | p in entries && entries[p].kind == kind :: R.EntryClaimable(entries[p], now) ==> p in ready;
        if ready != {} {
          var p := First(ready);
          found := Some(p);
          entries := entries[p := entries[p].(status := R.Processing)];
        }
      }
    }

    method AddScanEntry(path: Path, kind: R.EntryKind, worker: Worker, now: Time) returns (ok: bool)
      modifies this`entries
      ensures ok == R.Owned(job, worker, now)
      ensures View() == R.AddEntry(old(View()), worker, now, path, kind)
    {
      ok := R.Owned(job, worker, now);
      if ok && path !in entries {
        entries := entries[path := R.Entry(kind, if kind == R.Sidecar then R.Completed else R.Pending, None)];
      }
    }

    method CompleteEntry(path: Path, processed: bool, worker: Worker, now: Time) returns (ok: bool)
      modifies this`entries, this`job
      ensures ok == old(R.Owned(job, worker, now))
      ensures View() == R.CompleteEntry(old(View()), worker, now, path, processed)
    {
      ok := R.Owned(job, worker, now);
      if ok {
        if path in entries {
          entries := entries[path := entries[path].(status := R.Completed, retryAt := None)];
        }
        job := job.(scanned := job.scanned + 1);
        if processed {
          job := job.(processed := job.processed + 1);
        }
      }
    }

    method SkipEntry(path: Path, worker: Worker, now: Time) returns (ok: bool)
      modifies this`entries
      ensures ok == R.Owned(job, worker, now)
      ensures View() == R.SkipEntry(old(View()), worker, now, path)
    {
      ok := R.Owned(job, worker, now);
      if ok && path in entries {
        entries := entries[path := entries[path].(status := R.Skipped)];
      }
    }

    method FailEntry(path: Path, retry: Option<Time>, worker: Worker, now: Time) returns (ok: bool)
      modifies this`entries, this`job
      ensures ok == old(R.Owned(job, worker, now))
      ensures View() == R.FailEntry(old(View()), worker, now, path, retry)
    {
      ok := R.Owned(job, worker, now);
      if ok {
        if path in entries {
          entries := entries[path := entries[path].(status := R.Failed, retryAt := retry)];
        }
        job := job.(failed := job.failed + 1);
      }
    }

    method MarkCurrentIfUnchanged(path: Path, source: nat, worker: Worker, now: Time) returns (ok: bool, matched: bool)
      modifies this`assets
      ensures ok == R.Owned(job, worker, now)
      ensures matched == (ok && old(R.Unchanged(View(), path, source)))
      ensures View() == R.MarkCurrent(old(View()), worker, now, path, source)
    {
      ok := R.Owned(job, worker, now);
      matched := ok && path in assets && assets[path].ready && assets[path].source == source;
      if matched {
        assets := assets[path := assets[path].(generation := job.generation)];
      }
    }

    method RecordFailedAsset(path: Path, source: nat, worker: Worker, now: Time) returns (ok: bool)
      modifies this`assets
      ensures ok == R.Owned(job, worker, now)
      ensures View() == R.RecordFailedAsset(old(View()), worker, now, path, source)
    {
      ok := R.Owned(job, worker, now);
      if ok {
        assets := assets[path := R.Asset(job.generation, job.library, false, source)];
      }
    }

    method BeginPublish(operation: nat, record: R.Record, worker: Worker, now: Time) returns (ok: bool)
      modifies this`journal
      ensures ok == (R.Owned(job, worker, now) && !R.InFlight(old(journal), record.path))
      ensures View() == R.BeginPublish(old(View()), worker, now, operation, record)
    {
      ok := R.Owned(job, worker, now) && !exists op | op in journal :: journal[op].path == record.path;
      if ok {
        journal := journal[operation := record];
      }
    }

    /** `abort_journal_for_worker`: a row that is gone is no error. */
    method AbortJournal(operation: nat, requeue: bool, worker: Option<Worker>, now: Time) returns (ok: bool)
      modifies this`journal, this`entries
      ensures ok == old(operation !in journal || worker.None? || R.Owned(job, worker.value, now))
      ensures View() == R.AbortJournal(old(View()), worker, now, operation, requeue)
    {
      if operation !in journal {
        return true;
      }
      if worker.Some? {
        if !R.Owned(job, worker.value, now) {
          return false;
        }
      } else if !R.Recoverable(job, now) {
        return true;
      }
      var path := journal[operation].path;
      if requeue && path in entries {
        entries := entries[path := entries[path].(status := R.Pending)];
      }
      journal := journal - {operation};
      return true;
    }

    /** `complete_publish_transaction`. `done` tells whether this call resolved the row. */
    method CompletePublish(operation: nat, worker: Option<Worker>, now: Time) returns (ok: bool, done: bool)
      modifies this
      ensures done == old(operation in journal && R.MayResolve(job, worker, now))
      ensures ok == (done || operation !in old(journal))
      ensures View() == R.CompletePublish(old(View()), worker, now, operation)
    {
      if operation !in journal {
        return true, false;
      }
      if !R.MayResolve(job, worker, now) {
        return false, false;
      }
      var record := journal[operation];
      assets := assets[record.path := R.Asset(job.generation, job.library, true, record.source)];
      if record.path in entries {
        entries := entries[record.path := entries[record.path].(status := R.Completed, retryAt := None)];
      }
      job := job.(scanned := job.scanned + 1, processed := job.processed + 1);
      journal := journal - {operation};
      return true, true;
    }

    /** `finish_job`: refused while an entry is open; a full scan drops the assets its generation did not reach. */
    method FinishJob(worker: Worker, now: Time) returns (ok: bool)
      modifies this`job, this`assets
      ensures ok == old(R.Owned(job, worker, now) && R.AllFinished(entries))
      ensures View() == R.FinishJob(old(View()), worker, now)
    {
      ok := R.Owned(job, worker, now) && R.AllFinished(entries);
      if ok {
        if job.fullScan {
          assets := map p | p in assets && !(assets[p].library == job.library && assets[p].generation != job.generation) :: assets[p];
        }
        assert assets == R.FinishJob(old(View()), worker, now).assets;
        job := job.(status := R.Done, worker := None, lease := None, retryAt := None);
      }
    }

    method RetryOrFailJob(worker: Worker, retry: Option<Time>)
      modifies this`job
      ensures View() == R.RetryOrFailJob(old(View()), worker, retry)
    {
      if job.worker == Some(worker) {
        job := job.(status := if retry.Some? then R.Retrying else R.Broken, retries := job.retries + 1, retryAt := retry,
                    worker := None, lease := None);
      }
    }

    method ReleaseWorker(worker: Worker)
      modifies this`job, this`entries
      ensures View() == R.ReleaseWorker(old(View()), worker)
    {
      if job.worker == Some(worker) {
        entries := map p | p in entries :: if entries[p].status == R.Processing then entries[p].(status := R.Pending) else entries[p];
        if job.status == R.Running {
          job := job.(status := R.Queued, worker := None, lease := None);
        }
      }
    }
  }

  // ----- discovery

  /** Every path the library can hold. */
  function Universe(tree: Tree): set<Path> {
    {tree.root} + set d, n | d in tree.dirs && n in tree.dirs[d] :: d + [n]
  }

  lemma {:induction false} InUniverse(tree: Tree, p: Path)
    requires KindAt(tree, p).Some?
    ensures p in Universe(tree)
  {
    if p != tree.root {
      assert p == p[..|p| - 1] + [p[|p| - 1]];
    }
  }

  predicate IsSettled(e: R.Entry) { e.kind == R.Directory && !R.Unfinished(e) && e.status != R.Failed }

  function Settled(entries: map<Path, R.Entry>): set<Path> { set p | p in entries && IsSettled(entries[p]) }

  predicate NoDirectoryOpen(entries: map<Path, R.Entry>) {
    forall p | p in entries && entries[p].kind == R.Directory :: entries[p].status != R.Processing
  }

  /** Entries that discovery does not touch stay as they are. */
  predicate OthersKept(before: map<Path, R.Entry>, after: map<Path, R.Entry>) {
    forall p | p in before && before[p].kind != R.Directory :: p in after && after[p] == before[p]
  }

  /** The clock and the control flags as the calls of one run of the loop see them. */
  datatype Outside = Outside(now: nat -> Time, stop: nat -> bool)

  /** The inner loop: one entry for each child that discovery follows. */
  method AddChildren(db: Db, tree: Tree, dir: Path, worker: Worker, outside: Outside, first: nat) returns (ok: bool, calls: nat)
    requires Sound(tree, db.entries) && Closed(tree, db.entries)
    requires dir in db.entries && db.entries[dir].kind == R.Directory && dir in tree.dirs
    modifies db`entries
    ensures Sound(tree, db.entries) && Closed(tree, db.entries)
    ensures forall p | p in old(db.entries) :: p in db.entries && db.entries[p] == old(db.entries)[p]
    ensures forall p | p in db.entries && p !in old(db.entries) :: db.entries[p].status != R.Processing && !IsSettled(db.entries[p])
    ensures ok ==> Listed(tree, db.entries, dir, {})
  {
    calls := first;
    var todo := tree.dirs[dir].Keys;
    while todo != {}
      invariant todo <= tree.dirs[dir].Keys
      invariant Sound(tree, db.entries) && Closed(tree, db.entries)
      invariant forall p | p in old(db.entries) :: p in db.entries && db.entries[p] == old(db.entries)[p]
      invariant forall p | p in db.entries && p !in old(db.entries) :: db.entries[p].status != R.Processing && !IsSettled(db.entries[p])
      invariant Listed(tree, db.entries, dir, todo)
      decreases todo
    {
      if outside.stop(calls) {
        return false, calls;
      }
      var name :| name in todo;
      var kind := ChildKind(tree, name, tree.dirs[dir][name]);
      ghost var before := db.entries;
      if kind.Some? {
        ok := db.AddScanEntry(dir + [name], kind.value, worker, outside.now(calls));
        calls := calls + 1;
        if !ok {
          return false, calls;
        }
        ChildAt(tree, dir, name);
        if dir + [name] !in before {
          AddKeeps(tree, before, dir + [name], db.entries[dir + [name]]);
        }
      }
      todo := todo - {name};
    }
    ok := true;
  }

  /** One turn of the outer loop, for a directory already claimed: listed and completed, or skipped if it cannot be
      read. */
  method ListDirectory(db: Db, tree: Tree, dir: Path, worker: Worker, outside: Outside, first: nat) returns (ok: bool, calls: nat)
    requires Sound(tree, db.entries) && Closed(tree, db.entries)
    requires dir in db.entries && db.entries[dir].kind == R.Directory && db.entries[dir].status == R.Processing
    modifies db`entries, db`job
    ensures Sound(tree, db.entries) && Closed(tree, db.entries)
    ensures db.job == old(db.job).(scanned := db.job.scanned)
    ensures dir in db.entries && db.entries[dir].kind == R.Directory
    ensures ok ==> IsSettled(db.entries[dir])
    ensures forall p | p in old(db.entries) && p != dir :: p in db.entries && db.entries[p] == old(db.entries)[p]
    ensures forall p | p in db.entries && p !in old(db.entries) :: db.entries[p].status != R.Processing
  {
    calls := first;
    if dir !in tree.dirs {
      ok := db.SkipEntry(dir, worker, outside.now(calls));
      SetKeeps(tree, old(db.entries), dir, db.entries[dir]);
      return ok, calls + 1;
    }
    ok, calls := AddChildren(db, tree, dir, worker, outside, calls);
    if ok {
      ghost var listed := db.entries;
      ok := db.CompleteEntry(dir, false, worker, outside.now(calls));
      if ok {
        SetKeeps(tree, listed, dir, db.entries[dir]);
      }
      calls := calls + 1;
    }
  }

  lemma Progress(tree: Tree, before: map<Path, R.Entry>, after: map<Path, R.Entry>, dir: Path)
    requires Sound(tree, before) && dir in before && dir in after && !IsSettled(before[dir]) && IsSettled(after[dir])
    requires forall p | p in before && p != dir :: p in after && after[p] == before[p]
    ensures Universe(tree) - Settled(after) < Universe(tree) - Settled(before)
  {
    InUniverse(tree, dir);
    assert Settled(before) <= Settled(after);
    assert dir in Universe(tree) - Settled(before) && dir !in Universe(tree) - Settled(after);
  }

  /** One turn of the loop: the next open directory is claimed and listed. */
  method DiscoverNext(db: Db, tree: Tree, worker: Worker, outside: Outside, first: nat) returns (ok: bool, found: bool, calls: nat)
    requires Sound(tree, db.entries) && Closed(tree, db.entries)
    modifies db`entries, db`job
    ensures Sound(tree, db.entries) && Closed(tree, db.entries)
    ensures Keeps(old(db.entries), db.entries) && OthersKept(old(db.entries), db.entries)
    ensures db.job == old(db.job).(scanned := db.job.scanned)
    ensures ok && found ==> Universe(tree) - Settled(db.entries) < Universe(tree) - Settled(old(db.entries))
    ensures ok && found && NoDirectoryOpen(old(db.entries)) ==> NoDirectoryOpen(db.entries)
    ensures ok && !found ==> db.entries == old(db.entries) && (NoDirectoryOpen(db.entries) ==> DirectoriesDone(db.entries))
  {
    ghost var start := db.entries;
    var next: Option<Path>;
    ok, next := db.ClaimEntry(R.Directory, worker, outside.now(first));
    found, calls := next.Some?, first + 1;
    if !found {
      return;
    }
    var dir := next.value;
    SetKeeps(tree, start, dir, db.entries[dir]);
    if outside.stop(calls) {
      return false, true, calls;
    }
    ok, calls := ListDirectory(db, tree, dir, worker, outside, calls);
    if ok {
      Progress(tree, start, db.entries, dir);
    }
  }

  /** `discover`: whatever entries an earlier run left, it lists every open directory, and stops early only with
      entries from which a later run can go on. */
  method Discover(db: Db, tree: Tree, worker: Worker, outside: Outside) returns (ok: bool)
    requires Sound(tree, db.entries) && Closed(tree, db.entries)
    modifies db`entries, db`job
    ensures Sound(tree, db.entries) && Closed(tree, db.entries)
    ensures Keeps(old(db.entries), db.entries) && OthersKept(old(db.entries), db.entries)
    ensures db.job == old(db.job).(scanned := db.job.scanned)
    ensures ok && tree.root in old(db.entries) && NoDirectoryOpen(old(db.entries))
            ==> DirectoriesDone(db.entries) && Exact(tree, db.entries)
  {
    var calls, found := 0, true;
    ok := true;
    while ok && found
      invariant Sound(tree, db.entries) && Closed(tree, db.entries)
      invariant Keeps(old(db.entries), db.entries) && OthersKept(old(db.entries), db.entries)
      invariant db.job == old(db.job).(scanned := db.job.scanned)
      invariant ok && NoDirectoryOpen(old(db.entries)) ==> NoDirectoryOpen(db.entries)
      invariant ok && !found && NoDirectoryOpen(old(db.entries)) ==> DirectoriesDone(db.entries)
      decreases ok && found, Universe(tree) - Settled(db.entries)
    {
      ok, found, calls := DiscoverNext(db, tree, worker, outside, calls);
    }
    if ok && tree.root in old(db.entries) && NoDirectoryOpen(old(db.entries)) {
      DoneIsExact(tree, db.entries);
    }
  }
}
