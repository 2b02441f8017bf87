/** One backup run over all roots (apps/backup/src/backup.ts, `runBackup` and `runResticWithRetry`). */
module Backup {
  import opened Base

  type Id = nat

  datatype Kind = Daily | Weekly

  /** One execution of restic: its exit code and what its output says. `ids` are the snapshot ids printed by a backup,
      or those found in a listing. */
  datatype Output = Output(code: int, ids: seq<Id>, files: nat, bytes: nat)

  /** The commands of a run; a root is named by its place in the configuration. */
  datatype Command = BackupRoot(root: nat) | BackupState | Snapshots | Check | Prune

  /** The places where the run asks whether it still holds its lock. */
  datatype Point = AtStart | BeforeRoot(root: nat) | BeforeState | BeforeSnapshots | BeforeCheck | BeforePrune

  /** What the run meets: the lock, the mounts, the staging directory, restic's attempts, and whether its row is still
      open at the end. */
  datatype World = World(
    lease: Point -> bool,
    target: bool,
    ready: nat -> bool,
    staged: bool,
    attempt: (Command, nat) -> Output,
    retries: nat,
    open: bool)

  // ----- retries

  /** The first attempt from `k` on that exits with zero, or the last one. */
  function Retried(world: World, command: Command, k: nat): Output
    requires k <= world.retries
    decreases world.retries - k
  {
    if world.attempt(command, k).code == 0 || k == world.retries then world.attempt(command, k)
    else Retried(world, command, k + 1)
  }

  function Outcome(world: World, command: Command): Output { Retried(world, command, 0) }

  method RunWithRetry(world: World, command: Command) returns (result: Output)
    ensures result == Outcome(world, command)
  {
    result := world.attempt(command, 0);
    var attempt := 0;
    while result.code != 0 && attempt < world.retries
      invariant attempt <= world.retries && result == world.attempt(command, attempt)
      invariant Outcome(world, command) == Retried(world, command, attempt)
      decreases world.retries - attempt
    {
      attempt := attempt + 1;
      result := world.attempt(command, attempt);
    }
  }

  lemma {:induction false} RetriedExact(world: World, command: Command, k: nat)
    requires k <= world.retries
    ensures Retried(world, command, k).code == 0 <==> exists i :: k <= i <= world.retries && world.attempt(command, i).code == 0
    decreases world.retries - k
  {
    if world.attempt(command, k).code != 0 && k < world.retries {
      RetriedExact(world, command, k + 1);
    }
  }

  // ----- what each root comes to

  /** The root was mounted, restic saved it and printed a snapshot id. */
  predicate Saved(world: World, root: nat) {
    world.ready(root) && Outcome(world, BackupRoot(root)).code == 0 && Outcome(world, BackupRoot(root)).ids != []
  }

  /** The code recorded for a root that was not saved. */
  datatype Code = RootNotReady | BackupFailed | SnapshotIdMissing

  function Why(world: World, root: nat): Code {
    if !world.ready(root) then RootNotReady
    else if Outcome(world, BackupRoot(root)).code != 0 then BackupFailed
    else SnapshotIdMissing
  }

  /** Each failure is recorded with its code. */
  predicate Explained(world: World, failed: seq<nat>, codes: seq<Code>) {
    |codes| == |failed| && forall i | 0 <= i < |failed| :: codes[i] == Why(world, failed[i])
  }

  function Ids(world: World, roots: seq<nat>): seq<Id> {
    if roots == [] then [] else Ids(world, roots[..|roots| - 1]) + Outcome(world, BackupRoot(roots[|roots| - 1])).ids
  }

  function Files(world: World, roots: seq<nat>): nat {
    if roots == [] then 0 else Files(world, roots[..|roots| - 1]) + Outcome(world, BackupRoot(roots[|roots| - 1])).files
  }

  function Bytes(world: World, roots: seq<nat>): nat {
    if roots == [] then 0 else Bytes(world, roots[..|roots| - 1]) + Outcome(world, BackupRoot(roots[|roots| - 1])).bytes
  }

  lemma OneMore(world: World, roots: seq<nat>, root: nat)
    ensures Ids(world, roots + [root]) == Ids(world, roots) + Outcome(world, BackupRoot(root)).ids
    ensures Files(world, roots + [root]) == Files(world, roots) + Outcome(world, BackupRoot(root)).files
    ensures Bytes(world, roots + [root]) == Bytes(world, roots) + Outcome(world, BackupRoot(root)).bytes
  {
    assert (roots + [root])[..|roots|] == roots;
  }

  lemma {:induction false} IdsOf(world: World, roots: seq<nat>, root: nat, id: Id)
    requires root in roots && id in Outcome(world, BackupRoot(root)).ids
    ensures id in Ids(world, roots)
  {
    if roots[|roots| - 1] != root {
      IdsOf(world, roots[..|roots| - 1], root, id);
    }
  }

  /** How often a root is in a list. */
  function Count(list: seq<nat>, root: nat): nat {
    if list == [] then 0 else Count(list[..|list| - 1], root) + if list[|list| - 1] == root then 1 else 0
  }

  lemma CountMore(list: seq<nat>, root: nat)
    ensures forall r: nat :: Count(list + [root], r) == Count(list, r) + if r == root then 1 else 0
  {
    assert (list + [root])[..|list|] == list;
  }

  lemma {:induction false} CountPrefix(list: seq<nat>, k: nat, r: nat)
    requires k <= |list|
    ensures Count(list[..k], r) <= Count(list, r)
  {
    if k == |list| {
      assert list[..k] == list;
    } else {
      CountPrefix(list[..|list| - 1], k, r);
      assert list[..|list| - 1][..k] == list[..k];
    }
  }

  lemma CountTake(list: seq<nat>, k: nat)
    requires k < |list|
    ensures forall r: nat :: Count(list[..k + 1], r) == Count(list[..k], r) + if r == list[k] then 1 else 0
    ensures Count(list[..k + 1], list[k]) <= Count(list, list[k])
  {
    assert list[..k + 1][..k] == list[..k];
    CountPrefix(list, k + 1, list[k]);
  }

  /** Each of the first `n` roots is in exactly one of the two lists, once: saved, or failed. */
  ghost predicate Sorted(world: World, n: nat, saved: seq<nat>, failed: seq<nat>) {
    && (forall r: nat :: Count(saved, r) == if r < n && Saved(world, r) then 1 else 0)
    && (forall r: nat :: Count(failed, r) == if r < n && !Saved(world, r) then 1 else 0)
  }

  // ----- the two loops over the roots

  ghost predicate Checked(world: World, n: nat, ready: seq<nat>, missing: seq<nat>) {
    && (forall r: nat :: Count(ready, r) == if r < n && world.ready(r) then 1 else 0)
    && (forall r: nat :: Count(missing, r) == if r < n && !world.ready(r) then 1 else 0)
  }

  method CheckRoots(world: World, n: nat) returns (ready: seq<nat>, missing: seq<nat>, codes: seq<Code>)
    ensures Checked(world, n, ready, missing) && Explained(world, missing, codes)
  {
    ready, missing, codes := [], [], [];
    var i := 0;
    while i < n
      invariant i <= n
      invariant Checked(world, i, ready, missing) && Explained(world, missing, codes)
    {
      if world.ready(i) {
        CountMore(ready, i);
        ready := ready + [i];
      } else {
        CountMore(missing, i);
        missing, codes := missing + [i], codes + [RootNotReady];
      }
      i := i + 1;
    }
  }

  /** The mounted roots before the `k`-th have been sorted, the others wait. */
  ghost predicate SortedUpTo(world: World, n: nat, ready: seq<nat>, k: nat, saved: seq<nat>, failed: seq<nat>)
    requires k <= |ready|
  {
    && (forall r: nat :: Count(saved, r) == if Count(ready[..k], r) == 1 && Saved(world, r) then 1 else 0)
    && (forall r: nat :: Count(failed, r) == if r < n && (!world.ready(r) || (Count(ready[..k], r) == 1 && !Saved(world, r))) then 1 else 0)
  }

  lemma HasCount(list: seq<nat>, k: nat)
    requires k < |list|
    ensures Count(list, list[k]) >= 1
  {
    CountTake(list, k);
  }

  lemma NextRoot(world: World, n: nat, ready: seq<nat>, missing: seq<nat>, k: nat, saved: seq<nat>, failed: seq<nat>)
    requires k < |ready| && Checked(world, n, ready, missing) && SortedUpTo(world, n, ready, k, saved, failed)
    ensures Saved(world, ready[k]) ==> SortedUpTo(world, n, ready, k + 1, saved + [ready[k]], failed)
    ensures !Saved(world, ready[k]) ==> SortedUpTo(world, n, ready, k + 1, saved, failed + [ready[k]])
    ensures ready[k] < n && world.ready(ready[k])
  {
    HasCount(ready, k);
    CountTake(ready, k);
    CountMore(saved, ready[k]);
    CountMore(failed, ready[k]);
    assert Count(ready[..k], ready[k]) == 0;
  }

  lemma {:induction false} InList(list: seq<nat>, root: nat) returns (k: nat)
    requires Count(list, root) >= 1
    ensures k < |list| && list[k] == root
  {
    k := |list| - 1;
    if list[k] != root {
      k := InList(list[..k], root);
    }
  }

  lemma AllSorted(world: World, n: nat, ready: seq<nat>, missing: seq<nat>, saved: seq<nat>, failed: seq<nat>)
    requires Checked(world, n, ready, missing) && SortedUpTo(world, n, ready, |ready|, saved, failed)
    requires forall i | 0 <= i < |ready| :: world.lease(BeforeRoot(ready[i]))
    ensures Sorted(world, n, saved, failed)
    ensures forall r: nat | r < n && world.ready(r) :: world.lease(BeforeRoot(r))
  {
    assert ready[..|ready|] == ready;
    forall r: nat | r < n && world.ready(r)
      ensures world.lease(BeforeRoot(r))
    {
      var i := InList(ready, r);
    }
  }

  /** What the second loop accumulates. */
  datatype Tally = Tally(saved: seq<nat>, failed: seq<nat>, codes: seq<Code>, ids: seq<Id>, files: nat, bytes: nat)

  ghost predicate Adds(world: World, tally: Tally) {
    && Explained(world, tally.failed, tally.codes)
    && tally.ids == Ids(world, tally.saved)
    && tally.files == Files(world, tally.saved)
    && tally.bytes == Bytes(world, tally.saved)
  }

  /** The body of the second loop. */
  method SaveRoot(world: World, tally: Tally, root: nat) returns (next: Tally)
    requires world.ready(root) && Adds(world, tally)
    ensures Adds(world, next)
    ensures Saved(world, root) ==> next.saved == tally.saved + [root] && next.failed == tally.failed
    ensures !Saved(world, root) ==> next.saved == tally.saved && next.failed == tally.failed + [root]
  {
    var result := RunWithRetry(world, BackupRoot(root));
    if result.code != 0 {
      return tally.(failed := tally.failed + [root], codes := tally.codes + [BackupFailed]);
    }
    if result.ids == [] {
      return tally.(failed := tally.failed + [root], codes := tally.codes + [SnapshotIdMissing]);
    }
    OneMore(world, tally.saved, root);
    next := Tally(tally.saved + [root], tally.failed, tally.codes, tally.ids + result.ids, tally.files + result.files, tally.bytes + result.bytes);
  }

  method SaveRoots(world: World, n: nat, ready: seq<nat>, missing: seq<nat>, codes: seq<Code>) returns (held: bool, tally: Tally)
    requires Checked(world, n, ready, missing) && Explained(world, missing, codes)
    ensures held <==> forall r: nat | r < n && world.ready(r) :: world.lease(BeforeRoot(r))
    ensures held ==> Sorted(world, n, tally.saved, tally.failed)
    ensures Adds(world, tally)
  {
    tally := Tally([], missing, codes, [], 0, 0);
    var k := 0;
    while k < |ready|
      invariant k <= |ready|
      invariant SortedUpTo(world, n, ready, k, tally.saved, tally.failed)
      invariant forall i | 0 <= i < k :: world.lease(BeforeRoot(ready[i]))
      invariant Adds(world, tally)
    {
      NextRoot(world, n, ready, missing, k, tally.saved, tally.failed);
      if !world.lease(BeforeRoot(ready[k])) {
        return false, tally;
      }
      tally := SaveRoot(world, tally, ready[k]);
      k := k + 1;
    }
    AllSorted(world, n, ready, missing, tally.saved, tally.failed);
    held := true;
  }

  // ----- snapshot ids without repetition

  /** The order of first appearance is kept. */
  function Unique(ids: seq<Id>): seq<Id> {
    if ids == [] then []
    else
      var rest := Unique(ids[..|ids| - 1]);
      if ids[|ids| - 1] in rest then rest else rest + [ids[|ids| - 1]]
  }

  lemma {:induction false} UniqueExact(ids: seq<Id>)
    ensures forall id :: id in Unique(ids) <==> id in ids
    ensures forall i, j | 0 <= i < j < |Unique(ids)| :: Unique(ids)[i] != Unique(ids)[j]
  {
    if ids != [] {
      UniqueExact(ids[..|ids| - 1]);
      assert ids == ids[..|ids| - 1] + [ids[|ids| - 1]];
    }
  }

  method Deduplicate(ids: seq<Id>) returns (unique: seq<Id>)
    ensures unique == Unique(ids)
  {
    unique := [];
    var i := 0;
    while i < |ids|
      invariant i <= |ids| && unique == Unique(ids[..i])
    {
      assert ids[..i + 1][..i] == ids[..i];
      if ids[i] !in unique {
        unique := unique + [ids[i]];
      }
      i := i + 1;
    }
    assert ids[..i] == ids;
  }

  // ----- the whole run

  /** `Stopped` is a run that threw; the roots it had sorted by then are not reported. */
  datatype Report =
    | Completed(snapshots: seq<Id>, files: nat, bytes: nat)
    | RootsFailed(failed: seq<nat>, codes: seq<Code>, snapshots: seq<Id>, files: nat, bytes: nat)
    | Stopped

  predicate Works(world: World, command: Command) { Outcome(world, command).code == 0 }

  /** Everything up to the listing of snapshots went through: what the run then knows is what it saved. */
  ghost predicate Reached(world: World, n: nat) {
    && world.lease(AtStart) && world.target && world.staged
    && (forall r: nat | r < n && world.ready(r) :: world.lease(BeforeRoot(r)))
    && world.lease(BeforeState) && Works(world, BackupState) && Outcome(world, BackupState).ids != []
    && world.lease(BeforeSnapshots) && Works(world, Snapshots)
  }

  /** The ids of every root saved and of the state. */
  ghost predicate IsTaken(world: World, n: nat, id: Id) {
    || id in Outcome(world, BackupState).ids
    || exists r: nat :: r < n && Saved(world, r) && id in Outcome(world, BackupRoot(r)).ids
  }

  ghost predicate Visible(world: World, n: nat) {
    forall id | IsTaken(world, n, id) :: id in Outcome(world, Snapshots).ids
  }

  ghost predicate Maintained(world: World, kind: Kind) {
    kind == Weekly ==> world.lease(BeforeCheck) && Works(world, Check) && world.lease(BeforePrune) && Works(world, Prune)
  }

  lemma TakenExact(world: World, n: nat, saved: seq<nat>, failed: seq<nat>, id: Id)
    requires Sorted(world, n, saved, failed)
    ensures id in Unique(Ids(world, saved) + Outcome(world, BackupState).ids) <==> IsTaken(world, n, id)
  {
    UniqueExact(Ids(world, saved) + Outcome(world, BackupState).ids);
    if r: nat :| r < n && Saved(world, r) && id in Outcome(world, BackupRoot(r)).ids {
      var k := InList(saved, r);
      IdsOf(world, saved, r, id);
    }
    if id in Ids(world, saved) {
      var r := IdFrom(world, saved, id);
      HasIt(saved, r);
    }
  }

  lemma HasIt(list: seq<nat>, r: nat)
    requires r in list
    ensures Count(list, r) >= 1
  {
    var k :| 0 <= k < |list| && list[k] == r;
    HasCount(list, k);
  }

  lemma {:induction false} IdFrom(world: World, roots: seq<nat>, id: Id) returns (root: nat)
    requires id in Ids(world, roots)
    ensures root in roots && id in Outcome(world, BackupRoot(root)).ids
  {
    var last := roots[|roots| - 1];
    if id in Outcome(world, BackupRoot(last)).ids {
      root := last;
    } else {
      root := IdFrom(world, roots[..|roots| - 1], id);
    }
  }

  ghost predicate Holds(world: World, n: nat, snapshots: seq<Id>) {
    && (forall id :: id in snapshots <==> IsTaken(world, n, id))
    && (forall i, j | 0 <= i < j < |snapshots| :: snapshots[i] != snapshots[j])
  }

  lemma AllTaken(world: World, n: nat, saved: seq<nat>, failed: seq<nat>)
    requires Sorted(world, n, saved, failed)
    ensures Holds(world, n, Unique(Ids(world, saved) + Outcome(world, BackupState).ids))
  {
    UniqueExact(Ids(world, saved) + Outcome(world, BackupState).ids);
    forall id
      ensures id in Unique(Ids(world, saved) + Outcome(world, BackupState).ids) <==> IsTaken(world, n, id)
    {
      TakenExact(world, n, saved, failed, id);
    }
  }

  lemma NoneFailed(world: World, n: nat, saved: seq<nat>, failed: seq<nat>)
    requires Sorted(world, n, saved, failed)
    ensures failed == [] <==> forall r: nat | r < n :: Saved(world, r)
  {
    if failed != [] {
      HasCount(failed, 0);
    }
    forall r: nat | r < n && !Saved(world, r)
      ensures failed != []
    {
      var k := InList(failed, r);
    }
  }

  /** `runBackup`. It completes exactly when no root failed, every snapshot taken is listed afterwards, the weekly
      upkeep went through and neither the lock nor the row was lost; it reports failed roots exactly when all else up
      to the listing went through, and then each root that was not saved, once. */
  method RunBackup(world: World, n: nat, kind: Kind) returns (report: Report, ghost saved: seq<nat>)
    ensures report.Completed? <==>
              Reached(world, n) && Visible(world, n) && (forall r: nat | r < n :: Saved(world, r)) && Maintained(world, kind) && world.open
    ensures report.RootsFailed? <==> Reached(world, n) && Visible(world, n) && !forall r: nat | r < n :: Saved(world, r)
    ensures report.RootsFailed? ==> Sorted(world, n, saved, report.failed) && Explained(world, report.failed, report.codes)
    ensures report.Completed? ==> Sorted(world, n, saved, [])
    ensures !report.Stopped? ==>
              && Holds(world, n, report.snapshots)
              && report.files == Files(world, saved) + Outcome(world, BackupState).files
              && report.bytes == Bytes(world, saved) + Outcome(world, BackupState).bytes
  {
    report, saved := Stopped, [];
    if !world.lease(AtStart) || !world.target {
      return;
    }
    var ready, missing, codes := CheckRoots(world, n);
    if !world.staged {
      return;
    }
    var held, tally := SaveRoots(world, n, ready, missing, codes);
    saved := tally.saved;
    if !held || !world.lease(BeforeState) {
      return;
    }
    var state := RunWithRetry(world, BackupState);
    if state.code != 0 || state.ids == [] {
      return;
    }
    var snapshots := Deduplicate(tally.ids + state.ids);
    var files, bytes := tally.files + state.files, tally.bytes + state.bytes;
    AllTaken(world, n, tally.saved, tally.failed);
    NoneFailed(world, n, tally.saved, tally.failed);
    if !world.lease(BeforeSnapshots) {
      return;
    }
    var listing := RunWithRetry(world, Snapshots);
    if listing.code != 0 || exists i | 0 <= i < |snapshots| :: snapshots[i] !in listing.ids {
      return;
    }
    if tally.failed != [] {
      report := RootsFailed(tally.failed, tally.codes, snapshots, files, bytes);
      return;
    }
    var kept := Maintain(world, kind);
    if kept && world.open {
      report := Completed(snapshots, files, bytes);
    }
  }

  method Maintain(world: World, kind: Kind) returns (ok: bool)
    ensures ok <==> Maintained(world, kind)
  {
    if kind != Weekly {
      return true;
    }
    if !world.lease(BeforeCheck) {
      return false;
    }
    var checked := RunWithRetry(world, Check);
    if checked.code != 0 || !world.lease(BeforePrune) {
      return false;
    }
    var pruned := RunWithRetry(world, Prune);
    ok := pruned.code == 0;
  }
}
