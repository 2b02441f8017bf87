/** No index request is lost (apps/indexer/src/service.rs and db.rs): requests arrive at any time, scans run, fail,
    retry, crash and lose their leases, and clean directory scans drop the failed requests below them. */
module IndexRequests {
  import opened Base
  import opened Paths
  import opened IndexQueue

  /** A claimed task that a worker process is scanning. `claimedAt` is the step number of the claim. */
  datatype Scan = Scan(key: Key, id: nat, generation: nat, recursive: bool, retries: nat, worker: Worker, claimedAt: nat, clean: bool)

  /** An enqueue that happened at step `at`. */
  datatype Asked = Asked(key: Key, recursive: bool, at: nat)

  /** A scan that read everything it had to without an error. */
  datatype CleanScan = CleanScan(root: nat, path: string, recursive: bool, claimedAt: nat)

  /** `asked`, `finished`, `lastAsked` and the clock only record history; the program does not keep them. */
  datatype State = State(
    now: Time,
    queue: Queue,
    nextId: nat,
    scans: map<nat, Scan>,
    clock: nat,
    lastAsked: map<Key, nat>,
    asked: set<Asked>,
    finished: set<CleanScan>)

  datatype Step =
    | Tick(elapsed: nat)
    | Enqueue(key: Key, request: Request)
    | Claim(scan: nat, key: Key, worker: Worker, until: Time)
    | Renew(scan: nat, until: Time)
    | CleanReturn(scan: nat)          // the scan of a file, a missing path or a flat directory succeeded
    | Cleanup(scan: nat)              // a recursive directory scan succeeded and cleans up behind itself
    | Complete(scan: nat)
    | Fail(scan: nat, retry: Option<Time>)
    | Crash(scan: nat)

  /** `sequential`: a worker process claims its next task only after the last one is done, and there is one process. */
  ghost predicate Enabled(s: State, step: Step, sequential: bool) {
    match step
    case Tick(_) => true
    case Enqueue(_, _) => true
    case Claim(scan, key, worker, until) =>
      && (if sequential then s.scans == map[] else scan !in s.scans)
      && key in s.queue && Ready(Requeue(s.queue, s.now)[key], s.now)
    case Renew(scan, _) => scan in s.scans
    case CleanReturn(scan) => scan in s.scans
    case Cleanup(scan) => scan in s.scans && s.scans[scan].recursive
    case Complete(scan) => scan in s.scans && s.scans[scan].clean
    case Fail(scan, _) => scan in s.scans
    case Crash(scan) => scan in s.scans
  }

  function Finished(scan: Scan): CleanScan { CleanScan(scan.key.root, scan.key.path, scan.recursive, scan.claimedAt) }

  ghost function Apply(s: State, step: Step): State
    requires Enabled(s, step, false) || Enabled(s, step, true)
  {
    var t := s.(clock := s.clock + 1);
    match step
    case Tick(elapsed) => t.(now := s.now + elapsed)
    case Enqueue(key, request) =>
      t.(queue := s.queue[key := Upsert(if key in s.queue then Some(s.queue[key]) else None, s.nextId, request, s.now)],
         nextId := s.nextId + 1,
         lastAsked := s.lastAsked[key := s.clock],
         asked := s.asked + {Asked(key, request.recursive, s.clock)})
    case Claim(scan, key, worker, until) =>
      var q := Requeue(s.queue, s.now);
      t.(queue := q[key := Claimed(q[key], worker, until)],
         scans := s.scans[scan := Scan(key, q[key].id, q[key].generation, q[key].recursive, q[key].retries, worker, s.clock, false)])
    case Renew(scan, until) =>
      t.(queue := RenewLease(s.queue, s.scans[scan].id, s.scans[scan].generation, s.scans[scan].worker, until))
    case CleanReturn(scan) =>
      t.(scans := s.scans[scan := s.scans[scan].(clean := true)], finished := s.finished + {Finished(s.scans[scan])})
    case Cleanup(scan) =>
      t.(queue := DropFailed(s.queue, s.scans[scan].key.root, s.scans[scan].key.path),
         scans := s.scans[scan := s.scans[scan].(clean := true)], finished := s.finished + {Finished(s.scans[scan])})
    case Complete(scan) =>
      t.(queue := CompleteTask(s.queue, s.scans[scan].id, s.scans[scan].generation, s.scans[scan].worker), scans := s.scans - {scan})
    case Fail(scan, retry) =>
      t.(queue := RetryOrFail(s.queue, s.scans[scan].id, s.scans[scan].generation, s.scans[scan].worker, s.scans[scan].retries + 1, retry),
         scans := s.scans - {scan})
    case Crash(scan) => t.(scans := s.scans - {scan})
  }

  ghost predicate Feasible(s: State, steps: seq<Step>, sequential: bool)
    decreases |steps|
  {
    steps == [] || (Enabled(s, steps[0], sequential) && Feasible(Apply(s, steps[0]), steps[1..], sequential))
  }

  ghost function Final(s: State, steps: seq<Step>, sequential: bool): State
    requires Feasible(s, steps, sequential)
    decreases |steps|
  {
    if steps == [] then s else Final(Apply(s, steps[0]), steps[1..], sequential)
  }

  ghost predicate Init(s: State) {
    s.queue == map[] && s.scans == map[] && s.asked == {} && s.finished == {} && s.lastAsked == map[]
  }

  // ----- what is claimed

  /** The request's row is still there and will be scanned as deep as it asks. */
  ghost predicate Waiting(s: State, a: Asked) {
    a.key in s.queue && (a.recursive ==> s.queue[a.key].recursive)
  }

  /** The scan covers the request's path as deep as it asks. */
  predicate Covers(c: CleanScan, a: Asked) {
    && c.root == a.key.root
    && ((c.path == a.key.path && (a.recursive ==> c.recursive)) || (c.recursive && SameOrAncestor(c.path, a.key.path)))
  }

  /** A scan claimed after the request, and covering it, finished cleanly. */
  ghost predicate Served(s: State, a: Asked) {
    exists c | c in s.finished :: c.claimedAt > a.at && Covers(c, a)
  }

  ghost predicate NothingLost(s: State) { forall a | a in s.asked :: Waiting(s, a) || Served(s, a) }

  // ----- the invariant

  ghost predicate Accounted(s: State, a: Asked) {
    (Waiting(s, a) && a.key in s.lastAsked && a.at <= s.lastAsked[a.key]) || Served(s, a)
  }

  ghost predicate ScanFenced(s: State, scan: Scan) {
    && scan.claimedAt < s.clock && scan.id < s.nextId
    && (scan.clean ==> Finished(scan) in s.finished)
    && (forall k | k in s.queue && s.queue[k].id == scan.id :: k == scan.key)
    // The row has not been asked for again since the claim unless its generation says so.
    && (scan.key in s.queue && s.queue[scan.key].id == scan.id ==>
          && scan.key in s.lastAsked && s.queue[scan.key].generation >= scan.generation
          && (s.queue[scan.key].generation == scan.generation ==>
                s.lastAsked[scan.key] < scan.claimedAt && s.queue[scan.key].recursive == scan.recursive))
    // Whatever has failed had been asked for before this scan was claimed.
    && (forall k | k in s.queue && s.queue[k].status == Failed :: k in s.lastAsked && s.lastAsked[k] < scan.claimedAt)
  }

  /** The rows' own part of the invariant: ids are old and differ, and every row was asked for. */
  ghost predicate RowsOk(s: State) {
    && (forall k | k in s.queue :: s.queue[k].id < s.nextId && k in s.lastAsked && s.lastAsked[k] < s.clock)
    && (forall k, l | k in s.queue && l in s.queue && s.queue[k].id == s.queue[l].id :: k == l)
  }

  ghost predicate Inv(s: State) {
    && RowsOk(s)
    && (forall x, y | x in s.scans && y in s.scans :: x == y)
    && (forall x | x in s.scans :: ScanFenced(s, s.scans[x]))
    && (forall a | a in s.asked :: Accounted(s, a))
  }

  // ----- every step keeps the invariant

  lemma ServedStays(s: State, t: State, a: Asked)
    requires Served(s, a) && s.finished <= t.finished
    ensures Served(t, a)
  {}

  /** The queue's rows keep their keys, ids, depths and generations; none newly fails. */
  ghost predicate Quiet(s: State, t: State) {
    && t.queue.Keys == s.queue.Keys && t.lastAsked == s.lastAsked && t.nextId == s.nextId && t.asked == s.asked
    && s.finished <= t.finished && s.clock < t.clock
    && forall k | k in s.queue ::
         && t.queue[k].id == s.queue[k].id && t.queue[k].generation == s.queue[k].generation
         && t.queue[k].recursive == s.queue[k].recursive
         && (t.queue[k].status == Failed ==> s.queue[k].status == Failed || t.scans == map[])
  }

  lemma QuietAccounted(s: State, t: State)
    requires Inv(s) && Quiet(s, t)
    ensures forall a | a in t.asked :: Accounted(t, a)
  {
    forall a | a in t.asked ensures Accounted(t, a) {
      assert Accounted(s, a);
      if Served(s, a) { ServedStays(s, t, a); }
    }
  }

  lemma QuietInv(s: State, t: State)
    requires Inv(s) && Quiet(s, t) && t.scans.Keys <= s.scans.Keys
    requires forall x | x in t.scans :: t.scans[x] == s.scans[x].(clean := t.scans[x].clean)
    requires forall x | x in t.scans && t.scans[x].clean :: s.scans[x].clean || Finished(s.scans[x]) in t.finished
    ensures Inv(t)
  {
    QuietAccounted(s, t);
    forall x | x in t.scans ensures ScanFenced(t, t.scans[x]) {
      assert ScanFenced(s, s.scans[x]);
    }
  }

  lemma EnqueueFenced(s: State, step: Step, scan: Scan)
    requires Inv(s) && step.Enqueue? && Enabled(s, step, true) && ScanFenced(s, scan)
    ensures ScanFenced(Apply(s, step), scan)
  {}

  lemma EnqueueAccounted(s: State, step: Step, a: Asked)
    requires Inv(s) && step.Enqueue? && Enabled(s, step, true) && a in s.asked
    ensures Accounted(Apply(s, step), a)
  {
    assert Accounted(s, a);
    if Served(s, a) { ServedStays(s, Apply(s, step), a); }
  }

  lemma EnqueueRows(s: State, step: Step)
    requires RowsOk(s) && step.Enqueue? && Enabled(s, step, true)
    ensures RowsOk(Apply(s, step))
  {}

  lemma EnqueueInv(s: State, step: Step)
    requires Inv(s) && step.Enqueue? && Enabled(s, step, true)
    ensures Inv(Apply(s, step))
  {
    var t := Apply(s, step);
    EnqueueRows(s, step);
    forall x | x in t.scans ensures ScanFenced(t, t.scans[x]) {
      EnqueueFenced(s, step, s.scans[x]);
    }
    forall a | a in t.asked ensures Accounted(t, a) {
      if a in s.asked { EnqueueAccounted(s, step, a); }
    }
  }

  lemma ClaimInv(s: State, step: Step)
    requires Inv(s) && step.Claim? && Enabled(s, step, true)
    ensures Inv(Apply(s, step))
  {
    var t := Apply(s, step);
    ClaimQuiet(s, step);
    QuietAccounted(s, t);
    forall x | x in t.scans ensures ScanFenced(t, t.scans[x]) {
      assert t.scans[x].claimedAt == s.clock;
    }
  }

  lemma ClaimQuiet(s: State, step: Step)
    requires Inv(s) && step.Claim? && Enabled(s, step, true)
    ensures Quiet(s, Apply(s, step))
  {}

  /** Dropping rows is fine when every request they stood for has been served by now. */
  lemma DropInv(s: State, t: State, gone: set<Key>, c: CleanScan)
    requires Inv(s) && t.queue == s.queue - gone && gone <= s.queue.Keys
    requires t.lastAsked == s.lastAsked && t.nextId == s.nextId && t.asked == s.asked
    requires s.finished <= t.finished && c in t.finished && s.clock < t.clock
    requires t.scans.Keys <= s.scans.Keys
    requires forall x | x in t.scans :: t.scans[x] == s.scans[x].(clean := t.scans[x].clean)
    requires forall x | x in t.scans && t.scans[x].clean :: s.scans[x].clean || Finished(s.scans[x]) in t.finished
    requires forall k | k in gone :: k in s.lastAsked && s.lastAsked[k] < c.claimedAt && Covers(c, Asked(k, s.queue[k].recursive, 0))
    ensures Inv(t)
  {
    forall x | x in t.scans ensures ScanFenced(t, t.scans[x]) {
      assert ScanFenced(s, s.scans[x]);
    }
    forall a | a in t.asked ensures Accounted(t, a) {
      assert Accounted(s, a);
      if Served(s, a) {
        ServedStays(s, t, a);
      } else if a.key in gone {
        assert Covers(c, Asked(a.key, s.queue[a.key].recursive, 0));
        assert c.claimedAt > a.at && Covers(c, a);
      }
    }
  }

  lemma CleanupInv(s: State, step: Step)
    requires Inv(s) && step.Cleanup? && Enabled(s, step, true)
    ensures Inv(Apply(s, step))
  {
    var t, scan := Apply(s, step), s.scans[step.scan];
    assert ScanFenced(s, scan);
    var gone := set k | k in s.queue && k.root == scan.key.root && s.queue[k].status == Failed && SameOrAncestor(scan.key.path, k.path);
    assert t.queue == s.queue - gone;
    DropInv(s, t, gone, Finished(scan));
  }

  lemma CompleteInv(s: State, step: Step)
    requires Inv(s) && step.Complete? && Enabled(s, step, true)
    ensures Inv(Apply(s, step))
  {
    var t, scan := Apply(s, step), s.scans[step.scan];
    assert ScanFenced(s, scan);
    var gone := set k | k in s.queue && Matches(s.queue[k], scan.id, scan.generation, scan.worker);
    assert t.queue == s.queue - gone;
    DropInv(s, t, gone, Finished(scan));
  }

  lemma StepInv(s: State, step: Step)
    requires Inv(s) && Enabled(s, step, true)
    ensures Inv(Apply(s, step))
  {
    match step
    case Enqueue(_, _) => EnqueueInv(s, step);
    case Claim(_, _, _, _) => ClaimInv(s, step);
    case Cleanup(_) => CleanupInv(s, step);
    case Complete(_) => CompleteInv(s, step);
    case _ => QuietInv(s, Apply(s, step));
  }

  lemma {:induction false} RunsKeepInv(s: State, steps: seq<Step>)
    requires Inv(s) && Feasible(s, steps, true)
    ensures Inv(Final(s, steps, true))
    decreases |steps|
  {
    if steps != [] {
      StepInv(s, steps[0]);
      RunsKeepInv(Apply(s, steps[0]), steps[1..]);
    }
  }

  /** At every point of every run, each request made so far is still queued, or was served by a clean scan that was
      claimed after it and covers it. */
  lemma NoRequestIsLost(s: State, steps: seq<Step>)
    requires Init(s) && Feasible(s, steps, true)
    ensures NothingLost(Final(s, steps, true))
  {
    RunsKeepInv(s, steps);
    var t := Final(s, steps, true);
    forall a | a in t.asked ensures Waiting(t, a) || Served(t, a) {
      assert Accounted(t, a);
    }
  }

  // ----- a run that needs the assumption

  lemma {:induction false} Extend(s: State, steps: seq<Step>, step: Step)
    requires Feasible(s, steps, false) && Enabled(Final(s, steps, false), step, false)
    ensures Feasible(s, steps + [step], false) && Final(s, steps + [step], false) == Apply(Final(s, steps, false), step)
    decreases |steps|
  {
    if steps == [] {
      assert steps + [step] == [step];
      assert [step][1..] == [];
    } else {
      Extend(Apply(s, steps[0]), steps[1..], step);
      assert (steps + [step])[1..] == steps[1..] + [step];
    }
  }

  const EMPTY: State := State(0, map[], 0, map[], 0, map[], {}, {})
  const ROOT: Key := Key(0, ".")
  const FILE: Key := Key(0, "a")
  const DEEP: Request := Request(None, true, Full, 10)
  const FLAT: Request := Request(None, false, Incremental, 50)

  /** Worker 1 is scanning the root when a file below it is asked for. */
  lemma AskedDuringScan() returns (steps: seq<Step>)
    ensures Feasible(EMPTY, steps, false)
    ensures var t := Final(EMPTY, steps, false);
            && t.queue.Keys == {ROOT, FILE} && t.now == 0 && t.clock == 3 && t.nextId == 2 && t.finished == {}
            && t.queue[FILE] == Row(1, None, false, Incremental, 1, 50, Queued, 0, None, None, None, 0)
            && t.queue[ROOT].id == 0 && t.queue[ROOT].status == Running && t.queue[ROOT].lease == Some(30)
            && t.scans == map[0 := Scan(ROOT, 0, 1, true, 0, 1, 1, false)]
            && Asked(FILE, false, 2) in t.asked
  {
    Extend(EMPTY, [], Enqueue(ROOT, DEEP));
    steps := [] + [Enqueue(ROOT, DEEP)];
    Extend(EMPTY, steps, Claim(0, ROOT, 1, 30));
    steps := steps + [Claim(0, ROOT, 1, 30)];
    Extend(EMPTY, steps, Enqueue(FILE, FLAT));
    steps := steps + [Enqueue(FILE, FLAT)];
  }

  /** Worker 2 takes that request and fails for good. */
  lemma FailedDuringScan() returns (steps: seq<Step>)
    ensures Feasible(EMPTY, steps, false)
    ensures var t := Final(EMPTY, steps, false);
            && t.finished == {} && FILE in t.queue && t.queue[FILE].status == Failed && Asked(FILE, false, 2) in t.asked
            && t.scans == map[0 := Scan(ROOT, 0, 1, true, 0, 1, 1, false)]
  {
    steps := AskedDuringScan();
    Extend(EMPTY, steps, Claim(1, FILE, 2, 30));
    steps := steps + [Claim(1, FILE, 2, 30)];
    Extend(EMPTY, steps, Fail(1, None));
    steps := steps + [Fail(1, None)];
  }

  /** With two workers, a scan of the root can drop a request that arrived, and failed, while it was running. */
  lemma TwoWorkersLoseARequest() returns (steps: seq<Step>)
    ensures Init(EMPTY) && Feasible(EMPTY, steps, false) && !NothingLost(Final(EMPTY, steps, false))
  {
    steps := FailedDuringScan();
    Extend(EMPTY, steps, Cleanup(0));
    steps := steps + [Cleanup(0)];
    var t := Final(EMPTY, steps, false);
    assert t.finished == {CleanScan(0, ".", true, 1)};
    assert !Waiting(t, Asked(FILE, false, 2)) && !Served(t, Asked(FILE, false, 2));
  }
}
