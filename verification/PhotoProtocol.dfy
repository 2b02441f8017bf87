/** All runs of one photo job: workers that claim it, discover, process and publish its media, lose their lease,
    crash or stop at any point, and the recovery of publication journals
    (apps/photostaff/src/worker.rs; apps/photostaff/src/db.rs). */
module PhotoProtocol {
  import opened Base
  import opened Paths
  import opened PhotoRows
  import opened PhotoScan

  // ----- states

  /** How far `process_entry` is with one media entry. */
  datatype Stage = Opened | Marked | Journaled(operation: nat) | Aborted | Recorded

  datatype Flight = Flight(path: Path, stage: Stage)

  /** A directory being listed and the names still to be looked at. */
  datatype Listing = Listing(dir: Path, todo: set<Name>)

  /** What a worker is doing: claimed, in `discover`, in `process_entries`. */
  datatype Run = Starting | Discovering(listing: Option<Listing>) | Working(flights: map<nat, Flight>)

  /** `begun`, `completed`, `aborted` and `marked` record the journal rows ever made, how each was resolved, and
      the entries completed without publication. They are history only: no step depends on them, save that
      operation ids are fresh. */
  datatype State = State(
    now: Time,
    tree: Tree,
    store: Store,
    runs: map<Worker, Run>,
    begun: set<nat>,
    completed: multiset<nat>,
    aborted: multiset<nat>,
    marked: nat)

  datatype Step =
    | Tick(time: Time)
    | ClaimOther
    | Claim(worker: Worker, until: Time)
    | Renew(worker: Worker, until: Time)
    | Start(worker: Worker)
    | OpenDirectory(worker: Worker, path: Path)
    | SkipDirectory(worker: Worker)
    | AddChild(worker: Worker, name: Name)
    | CloseDirectory(worker: Worker)
    | BeginProcessing(worker: Worker)
    | OpenMedia(worker: Worker, flight: nat, path: Path)
    | Mark(worker: Worker, flight: nat, source: nat)
    | CompleteMarked(worker: Worker, flight: nat)
    | Begin(worker: Worker, flight: nat, operation: nat, source: nat)
    | CompleteOwned(worker: Worker, flight: nat)
    | AbortOwned(worker: Worker, flight: nat, requeue: bool)
    | RecordFailure(worker: Worker, flight: nat, source: nat)
    | FailMedia(worker: Worker, flight: nat)
    | Finish(worker: Worker)
    | Error(worker: Worker, retry: Option<Time>)
    | Crash(worker: Worker)
    | Release(worker: Worker)
    | RecoverComplete(operation: nat)
    | RecoverAbort(operation: nat)

  predicate Discovers(s: State, w: Worker) { w in s.runs && s.runs[w].Discovering? }

  predicate Lists(s: State, w: Worker) { Discovers(s, w) && s.runs[w].listing.Some? }

  predicate Works(s: State, w: Worker) { w in s.runs && s.runs[w].Working? }

  predicate Flies(s: State, w: Worker, f: nat) { Works(s, w) && f in s.runs[w].flights }

  function FlightOf(s: State, w: Worker, f: nat): Flight
    requires Flies(s, w, f)
  {
    s.runs[w].flights[f]
  }

  predicate ClaimableOf(s: State, path: Path, kind: EntryKind) {
    path in s.store.entries && s.store.entries[path].kind == kind && EntryClaimable(s.store.entries[path], s.now)
  }

  predicate Enabled(s: State, step: Step) {
    match step
    case Tick(time) => s.now <= time
    case ClaimOther => true
    case Claim(w, _) => w !in s.runs && Claimable(s.store.job, s.now)
    case Renew(w, _) => w in s.runs
    case Start(w) => w in s.runs && s.runs[w].Starting?
    case OpenDirectory(w, path) => Discovers(s, w) && s.runs[w].listing.None? && ClaimableOf(s, path, Directory)
    case SkipDirectory(w) => Lists(s, w) && s.runs[w].listing.value.dir !in s.tree.dirs
    case AddChild(w, name) => Lists(s, w) && s.runs[w].listing.value.dir in s.tree.dirs && name in s.runs[w].listing.value.todo
    case CloseDirectory(w) => Lists(s, w) && s.runs[w].listing.value.dir in s.tree.dirs && s.runs[w].listing.value.todo == {}
    case BeginProcessing(w) => Discovers(s, w) && s.runs[w].listing.None? && forall p | p in s.store.entries :: !ClaimableOf(s, p, Directory)
    case OpenMedia(w, f, path) => Works(s, w) && f !in s.runs[w].flights && ClaimableOf(s, path, Media)
    case Mark(w, f, _) => Flies(s, w, f) && FlightOf(s, w, f).stage.Opened?
    case CompleteMarked(w, f) => Flies(s, w, f) && FlightOf(s, w, f).stage.Marked?
    case Begin(w, f, op, _) => Flies(s, w, f) && FlightOf(s, w, f).stage.Opened? && op !in s.begun
    case CompleteOwned(w, f) => Flies(s, w, f) && FlightOf(s, w, f).stage.Journaled?
    case AbortOwned(w, f, _) => Flies(s, w, f) && FlightOf(s, w, f).stage.Journaled?
    case RecordFailure(w, f, _) => Flies(s, w, f) && (FlightOf(s, w, f).stage.Opened? || FlightOf(s, w, f).stage.Aborted?)
    case FailMedia(w, f) => Flies(s, w, f) && (FlightOf(s, w, f).stage.Opened? || FlightOf(s, w, f).stage.Recorded?)
    case Finish(w) => Works(s, w) && s.runs[w].flights == map[]
    case Error(_, _) => true
    case Crash(_) => true
    case Release(_) => true
    case RecoverComplete(_) => true
    case RecoverAbort(_) => true
  }

  // ----- steps

  predicate Holds(s: State, w: Worker) { Owned(s.store.job, w, s.now) }

  function EndRun(s: State, w: Worker): State { s.(runs := s.runs - {w}) }

  /** A fenced call: it writes and the run goes on, or it fails and the run ends. */
  function Fenced(s: State, w: Worker, store: Store, run: Run): State {
    if Holds(s, w) then s.(store := store, runs := s.runs[w := run]) else EndRun(s, w)
  }

  function WithFlight(s: State, w: Worker, f: nat, stage: Stage): Run
    requires Flies(s, w, f)
  {
    Working(s.runs[w].flights[f := FlightOf(s, w, f).(stage := stage)])
  }

  function WithoutFlight(s: State, w: Worker, f: nat): Run
    requires Flies(s, w, f)
  {
    Working(s.runs[w].flights - {f})
  }

  /** The names that a listing of `path` starts with. */
  function Names(tree: Tree, path: Path): set<Name> { if path in tree.dirs then tree.dirs[path].Keys else {} }

  function ApplyDiscover(s: State, step: Step): State
    requires Enabled(s, step) && DiscoverStep(step)
  {
    var w := step.worker;
    match step
    case Start(_) => Fenced(s, w, InitializeScan(s.store, w, s.now, s.tree.root), Discovering(None))
    case OpenDirectory(_, path) =>
      Fenced(s, w, ClaimEntry(s.store, w, s.now, path), Discovering(Some(Listing(path, Names(s.tree, path)))))
    case SkipDirectory(_) => Fenced(s, w, SkipEntry(s.store, w, s.now, s.runs[w].listing.value.dir), Discovering(None))
    case AddChild(_, name) =>
      var l := s.runs[w].listing.value;
      var rest := Discovering(Some(l.(todo := l.todo - {name})));
      var kind := if name in s.tree.dirs[l.dir] then ChildKind(s.tree, name, s.tree.dirs[l.dir][name]) else None;
      if kind.None? then s.(runs := s.runs[w := rest])
      else Fenced(s, w, AddEntry(s.store, w, s.now, l.dir + [name], kind.value), rest)
    case CloseDirectory(_) => Fenced(s, w, CompleteEntry(s.store, w, s.now, s.runs[w].listing.value.dir, false), Discovering(None))
    case BeginProcessing(_) => Fenced(s, w, s.store, Working(map[]))
  }

  /** The owner's completion of a publication; if its row is gone the call does nothing and succeeds. */
  function ApplyCompleteOwned(s: State, w: Worker, f: nat): State
    requires Flies(s, w, f) && FlightOf(s, w, f).stage.Journaled?
  {
    var op := FlightOf(s, w, f).stage.operation;
    if op !in s.store.journal then s.(runs := s.runs[w := WithoutFlight(s, w, f)])
    else if !Holds(s, w) then EndRun(s, w)
    else s.(store := CompletePublish(s.store, Some(w), s.now, op), completed := s.completed + multiset{op},
            runs := s.runs[w := WithoutFlight(s, w, f)])
  }

  function ApplyAbortOwned(s: State, w: Worker, f: nat, requeue: bool): State
    requires Flies(s, w, f) && FlightOf(s, w, f).stage.Journaled?
  {
    var op := FlightOf(s, w, f).stage.operation;
    if op !in s.store.journal then s.(runs := s.runs[w := WithFlight(s, w, f, Aborted)])
    else if !Holds(s, w) then EndRun(s, w)
    else s.(store := AbortJournal(s.store, Some(w), s.now, op, requeue), aborted := s.aborted + multiset{op},
            runs := s.runs[w := WithFlight(s, w, f, Aborted)])
  }

  function ApplyBegin(s: State, w: Worker, f: nat, op: nat, source: nat): State
    requires Flies(s, w, f)
  {
    var path := FlightOf(s, w, f).path;
    if !Holds(s, w) || InFlight(s.store.journal, path) then EndRun(s, w)
    else s.(store := BeginPublish(s.store, w, s.now, op, Record(path, source)), begun := s.begun + {op},
            runs := s.runs[w := WithFlight(s, w, f, Journaled(op))])
  }

  function ApplyCompleteMarked(s: State, w: Worker, f: nat): State
    requires Flies(s, w, f)
  {
    if !Holds(s, w) then EndRun(s, w)
    else s.(store := CompleteEntry(s.store, w, s.now, FlightOf(s, w, f).path, true), marked := s.marked + 1,
            runs := s.runs[w := WithoutFlight(s, w, f)])
  }

  function ApplyProcess(s: State, step: Step): State
    requires Enabled(s, step) && ProcessStep(step)
  {
    var w, f := step.worker, step.flight;
    match step
    case OpenMedia(_, _, path) =>
      Fenced(s, w, ClaimEntry(s.store, w, s.now, path), Working(s.runs[w].flights[f := Flight(path, Opened)]))
    case Mark(_, _, source) =>
      Fenced(s, w, MarkCurrent(s.store, w, s.now, FlightOf(s, w, f).path, source),
             WithFlight(s, w, f, if Unchanged(s.store, FlightOf(s, w, f).path, source) then Marked else Opened))
    case CompleteMarked(_, _) => ApplyCompleteMarked(s, w, f)
    case Begin(_, _, op, source) => ApplyBegin(s, w, f, op, source)
    case CompleteOwned(_, _) => ApplyCompleteOwned(s, w, f)
    case AbortOwned(_, _, requeue) => ApplyAbortOwned(s, w, f, requeue)
    case RecordFailure(_, _, source) =>
      Fenced(s, w, RecordFailedAsset(s.store, w, s.now, FlightOf(s, w, f).path, source), WithFlight(s, w, f, Recorded))
    case FailMedia(_, _) => Fenced(s, w, FailEntry(s.store, w, s.now, FlightOf(s, w, f).path, None), WithoutFlight(s, w, f))
  }

  function ApplyRecover(s: State, step: Step): State
    requires step.RecoverComplete? || step.RecoverAbort?
  {
    var op := step.operation;
    if op !in s.store.journal || !Recoverable(s.store.job, s.now) then s
    else if step.RecoverComplete? then s.(store := CompletePublish(s.store, None, s.now, op), completed := s.completed + multiset{op})
    else s.(store := AbortJournal(s.store, None, s.now, op, true), aborted := s.aborted + multiset{op})
  }

  function ApplyLease(s: State, step: Step): State
    requires step.Tick? || step.ClaimOther? || step.Claim? || step.Renew? || step.Finish? || step.Error? || step.Crash? || step.Release?
  {
    match step
    case Tick(time) => s.(now := time)
    case ClaimOther => s.(store := RequeueExpired(s.store, s.now))
    case Claim(w, until) => s.(store := ClaimJob(s.store, w, s.now, until), runs := s.runs[w := Starting])
    case Renew(w, until) => s.(store := RenewLease(s.store, w, until))
    case Finish(w) => EndRun(s.(store := FinishJob(s.store, w, s.now)), w)
    case Error(w, retry) => EndRun(s.(store := RetryOrFailJob(s.store, w, retry)), w)
    case Crash(w) => EndRun(s, w)
    case Release(w) => EndRun(s.(store := ReleaseWorker(s.store, w)), w)
  }

  predicate DiscoverStep(step: Step) {
    step.Start? || step.OpenDirectory? || step.SkipDirectory? || step.AddChild? || step.CloseDirectory? || step.BeginProcessing?
  }

  predicate ProcessStep(step: Step) {
    || step.OpenMedia? || step.Mark? || step.CompleteMarked? || step.Begin? || step.CompleteOwned? || step.AbortOwned?
    || step.RecordFailure? || step.FailMedia?
  }

  function Apply(s: State, step: Step): State
    requires Enabled(s, step)
  {
    if DiscoverStep(step) then ApplyDiscover(s, step)
    else if ProcessStep(step) then ApplyProcess(s, step)
    else if step.RecoverComplete? || step.RecoverAbort? then ApplyRecover(s, step)
    else ApplyLease(s, step)
  }

  // ----- runs

  ghost predicate Init(s: State) {
    && s.store.job.status == Queued && s.store.job.worker.None? && s.store.job.processed == 0
    && s.store.entries == map[] && s.store.journal == map[] && s.runs == map[]
    && s.begun == {} && s.completed == multiset{} && s.aborted == multiset{} && s.marked == 0
  }

  ghost predicate Feasible(s: State, steps: seq<Step>)
    decreases |steps|
  {
    steps == [] || (Enabled(s, steps[0]) && Feasible(Apply(s, steps[0]), steps[1..]))
  }

  ghost function Final(s: State, steps: seq<Step>): State
    requires Feasible(s, steps)
    decreases |steps|
  {
    if steps == [] then s else Final(Apply(s, steps[0]), steps[1..])
  }

  // ----- what every state keeps

  /** The asset row of `p` carries the job's scan generation. */
  predicate Current(st: Store, p: Path) { p in st.assets && st.assets[p].generation == st.job.generation }

  predicate EntryCurrent(st: Store, p: Path) {
    p in st.entries && st.entries[p].kind == Media && st.entries[p].status == Completed ==> Current(st, p)
  }

  predicate MediaAt(st: Store, p: Path) { p in st.entries && st.entries[p].kind == Media }

  ghost predicate StoreInv(tree: Tree, st: Store) {
    && Sound(tree, st.entries)
    && Closed(tree, st.entries)
    && (forall p :: EntryCurrent(st, p))
    && (forall op | op in st.journal :: MediaAt(st, st.journal[op].path))
  }

  ghost predicate FlightOk(st: Store, flight: Flight) {
    MediaAt(st, flight.path) && (flight.stage.Marked? ==> Current(st, flight.path))
  }

  ghost predicate ListingOk(tree: Tree, st: Store, l: Listing) {
    && l.dir in st.entries && st.entries[l.dir].kind == Directory
    && (l.dir in tree.dirs ==> Listed(tree, st.entries, l.dir, l.todo))
  }

  ghost predicate RunOk(tree: Tree, st: Store, run: Run) {
    match run
    case Starting => true
    case Discovering(listing) => tree.root in st.entries && (listing.Some? ==> ListingOk(tree, st, listing.value))
    case Working(flights) => tree.root in st.entries && forall f | f in flights :: FlightOk(st, flights[f])
  }

  function Rows(s: State, op: nat): nat { if op in s.store.journal then 1 else 0 }

  /** Every publication begun is in flight, completed or aborted, once and not twice, and `processed` counts the
      completions. */
  ghost predicate Ledger(s: State) {
    && (forall op :: s.completed[op] + s.aborted[op] + Rows(s, op) == if op in s.begun then 1 else 0)
    && s.store.job.processed == |s.completed| + s.marked
  }

  /** No two publications in flight are of one media path. */
  ghost predicate OnePerPath(journal: map<nat, Record>) {
    forall a, b | a in journal && b in journal && journal[a].path == journal[b].path :: a == b
  }

  ghost predicate Inv(s: State) {
    && StoreInv(s.tree, s.store)
    && (forall w | w in s.runs :: RunOk(s.tree, s.store, s.runs[w]))
    && Ledger(s)
    && OnePerPath(s.store.journal)
  }

  /** What no call takes back: entries and their kinds, and assets of the job's generation. */
  ghost predicate Grows(a: Store, b: Store) {
    && b.job.generation == a.job.generation
    && Keeps(a.entries, b.entries)
    && (forall p | Current(a, p) :: Current(b, p))
  }

  lemma RunKept(tree: Tree, a: Store, b: Store, run: Run)
    requires Grows(a, b) && RunOk(tree, a, run)
    ensures RunOk(tree, b, run)
  {
    match run
    case Starting =>
    case Discovering(listing) =>
      if listing.Some? && listing.value.dir in tree.dirs {
        ListedKept(tree, a.entries, b.entries, listing.value.dir, listing.value.todo);
      }
    case Working(flights) =>
      forall f | f in flights
        ensures FlightOk(b, flights[f])
      {
        assert FlightOk(a, flights[f]);
      }
  }

  // ----- changes of the rows

  /** Only the state of the job changes. */
  lemma JobChange(tree: Tree, st: Store, job: Job)
    requires StoreInv(tree, st) && job.generation == st.job.generation
    ensures StoreInv(tree, st.(job := job)) && Grows(st, st.(job := job))
  {
    var after := st.(job := job);
    forall p
      ensures EntryCurrent(after, p)
    {
      assert EntryCurrent(st, p);
    }
    forall op | op in after.journal
      ensures MediaAt(after, after.journal[op].path)
    {
      assert MediaAt(st, st.journal[op].path);
    }
  }

  /** One entry is added or given another status. */
  lemma EntriesChange(tree: Tree, st: Store, entries: map<Path, Entry>)
    requires StoreInv(tree, st)
    requires Sound(tree, entries) && Closed(tree, entries) && Keeps(st.entries, entries)
    requires forall p | p in entries && entries[p].kind == Media && entries[p].status == Completed
               :: Current(st, p) || (p in st.entries && st.entries[p].status == Completed)
    ensures StoreInv(tree, st.(entries := entries)) && Grows(st, st.(entries := entries))
  {
    var after := st.(entries := entries);
    forall p
      ensures EntryCurrent(after, p)
    {
      assert EntryCurrent(st, p);
    }
    forall op | op in after.journal
      ensures MediaAt(after, after.journal[op].path)
    {
      assert MediaAt(st, st.journal[op].path);
    }
  }

  lemma SetEntry(tree: Tree, st: Store, p: Path, e: Entry)
    requires StoreInv(tree, st) && p in st.entries && e.kind == st.entries[p].kind
    requires e.kind == Directory ==> DirectoryOk(tree, st.entries, p, e.status)
    requires e.kind == Media && e.status == Completed ==> Current(st, p)
    ensures StoreInv(tree, st.(entries := st.entries[p := e])) && Grows(st, st.(entries := st.entries[p := e]))
  {
    SetKeeps(tree, st.entries, p, e);
    EntriesChange(tree, st, st.entries[p := e]);
  }

  lemma AddedEntry(tree: Tree, st: Store, p: Path, e: Entry)
    requires StoreInv(tree, st) && p !in st.entries && KindAt(tree, p) == Some(e.kind)
    requires e.kind == Directory || e.kind == Media ==> e.status == Pending
    ensures StoreInv(tree, st.(entries := st.entries[p := e])) && Grows(st, st.(entries := st.entries[p := e]))
  {
    AddKeeps(tree, st.entries, p, e);
    EntriesChange(tree, st, st.entries[p := e]);
  }

  lemma ReopenedEntries(tree: Tree, st: Store)
    requires StoreInv(tree, st)
    ensures StoreInv(tree, st.(entries := Reopened(st.entries))) && Grows(st, st.(entries := Reopened(st.entries)))
  {
    ReopenKeeps(tree, st.entries);
    EntriesChange(tree, st, Reopened(st.entries));
  }

  /** Asset rows change so that those of the job's generation stay. */
  lemma AssetsChange(tree: Tree, st: Store, assets: map<Path, Asset>)
    requires StoreInv(tree, st)
    requires forall p | Current(st, p) :: p in assets && assets[p].generation == st.job.generation
    ensures StoreInv(tree, st.(assets := assets)) && Grows(st, st.(assets := assets))
  {
    var after := st.(assets := assets);
    forall p | Current(st, p)
      ensures Current(after, p)
    {}
    forall p
      ensures EntryCurrent(after, p)
    {
      assert EntryCurrent(st, p);
    }
    forall op | op in after.journal
      ensures MediaAt(after, after.journal[op].path)
    {
      assert MediaAt(st, st.journal[op].path);
    }
  }

  lemma JournalChange(tree: Tree, st: Store, journal: map<nat, Record>)
    requires StoreInv(tree, st) && forall op | op in journal :: MediaAt(st, journal[op].path)
    ensures StoreInv(tree, st.(journal := journal)) && Grows(st, st.(journal := journal))
  {
    var after := st.(journal := journal);
    forall p
      ensures EntryCurrent(after, p)
    {
      assert EntryCurrent(st, p);
    }
    forall op | op in after.journal
      ensures MediaAt(after, after.journal[op].path)
    {
      assert MediaAt(st, journal[op].path);
    }
  }

  lemma GrowsTransitive(a: Store, b: Store, c: Store)
    requires Grows(a, b) && Grows(b, c)
    ensures Grows(a, c)
  {}

  /** A step that neither opens nor resolves a journal row. */
  lemma PlainStep(s: State, st: Store, runs: map<Worker, Run>)
    requires Inv(s) && StoreInv(s.tree, st) && Grows(s.store, st)
    requires st.journal == s.store.journal && st.job.processed == s.store.job.processed
    requires forall w | w in runs :: RunOk(s.tree, st, runs[w]) || (w in s.runs && runs[w] == s.runs[w])
    ensures Inv(s.(store := st, runs := runs))
  {
    var after := s.(store := st, runs := runs);
    forall w | w in runs
      ensures RunOk(s.tree, st, runs[w])
    {
      if w in s.runs && runs[w] == s.runs[w] {
        RunKept(s.tree, s.store, st, runs[w]);
      }
    }
    forall op
      ensures after.completed[op] + after.aborted[op] + Rows(after, op) == if op in after.begun then 1 else 0
    {
      assert Rows(after, op) == Rows(s, op);
    }
  }

  lemma GrowsRefl(st: Store)
    ensures Grows(st, st)
  {}

  /** Steps that change no row. */
  lemma RunsOnly(s: State, runs: map<Worker, Run>)
    requires Inv(s)
    requires forall w | w in runs :: RunOk(s.tree, s.store, runs[w]) || (w in s.runs && runs[w] == s.runs[w])
    ensures Inv(s.(runs := runs))
  {
    GrowsRefl(s.store);
    PlainStep(s, s.store, runs);
    assert s.(runs := runs) == s.(store := s.store, runs := runs);
  }

  lemma EndRunInv(s: State, w: Worker)
    requires Inv(s)
    ensures Inv(EndRun(s, w))
  {
    RunsOnly(s, s.runs - {w});
  }

  /** A fenced call that neither opens nor resolves a journal row. */
  lemma FencedInv(s: State, w: Worker, st: Store, run: Run)
    requires Inv(s)
    requires Holds(s, w) ==>
               && StoreInv(s.tree, st) && Grows(s.store, st) && st.journal == s.store.journal
               && st.job.processed == s.store.job.processed && RunOk(s.tree, st, run)
    ensures Inv(Fenced(s, w, st, run))
  {
    if Holds(s, w) {
      PlainStep(s, st, s.runs[w := run]);
    } else {
      EndRunInv(s, w);
    }
  }

  // ----- discovery

  lemma StartInv(s: State, step: Step)
    requires Inv(s) && step.Start? && Enabled(s, step)
    ensures Inv(Apply(s, step))
  {
    var w, st := step.worker, InitializeScan(s.store, step.worker, s.now, s.tree.root);
    if Holds(s, w) {
      if s.tree.root !in s.store.entries {
        AddedEntry(s.tree, s.store, s.tree.root, Entry(Directory, Pending, None));
      } else {
        GrowsRefl(s.store);
      }
    }
    FencedInv(s, w, st, Discovering(None));
  }

  lemma OpenDirectoryInv(s: State, step: Step)
    requires Inv(s) && step.OpenDirectory? && Enabled(s, step)
    ensures Inv(Apply(s, step))
  {
    var w, path := step.worker, step.path;
    var st := ClaimEntry(s.store, w, s.now, path);
    if Holds(s, w) {
      SetEntry(s.tree, s.store, path, s.store.entries[path].(status := Processing));
      assert RunOk(s.tree, s.store, s.runs[w]);
    }
    FencedInv(s, w, st, Discovering(Some(Listing(path, Names(s.tree, path)))));
  }

  lemma SkipDirectoryInv(s: State, step: Step)
    requires Inv(s) && step.SkipDirectory? && Enabled(s, step)
    ensures Inv(Apply(s, step))
  {
    var w := step.worker;
    assert RunOk(s.tree, s.store, s.runs[w]);
    var dir := s.runs[w].listing.value.dir;
    SetEntry(s.tree, s.store, dir, s.store.entries[dir].(status := Skipped));
    FencedInv(s, w, SkipEntry(s.store, w, s.now, dir), Discovering(None));
  }

  lemma ListedMore(tree: Tree, entries: map<Path, Entry>, dir: Path, todo: set<Name>, name: Name)
    requires Listed(tree, entries, dir, todo)
    requires name in tree.dirs[dir] && ChildKind(tree, name, tree.dirs[dir][name]).Some? ==> dir + [name] in entries
    ensures Listed(tree, entries, dir, todo - {name})
  {}

  lemma AddChildInv(s: State, step: Step)
    requires Inv(s) && step.AddChild? && Enabled(s, step)
    ensures Inv(Apply(s, step))
  {
    var w, name := step.worker, step.name;
    assert RunOk(s.tree, s.store, s.runs[w]);
    var l := s.runs[w].listing.value;
    var rest := Discovering(Some(l.(todo := l.todo - {name})));
    var kind := if name in s.tree.dirs[l.dir] then ChildKind(s.tree, name, s.tree.dirs[l.dir][name]) else None;
    if kind.None? {
      ListedMore(s.tree, s.store.entries, l.dir, l.todo, name);
      RunsOnly(s, s.runs[w := rest]);
    } else {
      var path := l.dir + [name];
      var st := AddEntry(s.store, w, s.now, path, kind.value);
      ChildAt(s.tree, l.dir, name);
      if path in s.store.entries {
        GrowsRefl(s.store);
      } else {
        AddedEntry(s.tree, s.store, path, Entry(kind.value, if kind.value == Sidecar then Completed else Pending, None));
      }
      if Holds(s, w) {
        ListedKept(s.tree, s.store.entries, st.entries, l.dir, l.todo);
        ListedMore(s.tree, st.entries, l.dir, l.todo, name);
      }
      FencedInv(s, w, st, rest);
    }
  }

  lemma CloseDirectoryInv(s: State, step: Step)
    requires Inv(s) && step.CloseDirectory? && Enabled(s, step)
    ensures Inv(Apply(s, step))
  {
    var w := step.worker;
    assert RunOk(s.tree, s.store, s.runs[w]);
    var dir := s.runs[w].listing.value.dir;
    var mid := s.store.(entries := s.store.entries[dir := s.store.entries[dir].(status := Completed, retryAt := None)]);
    SetEntry(s.tree, s.store, dir, mid.entries[dir]);
    var job := s.store.job.(scanned := s.store.job.scanned + 1);
    JobChange(s.tree, mid, job);
    GrowsTransitive(s.store, mid, mid.(job := job));
    FencedInv(s, w, CompleteEntry(s.store, w, s.now, dir, false), Discovering(None));
  }

  lemma BeginProcessingInv(s: State, step: Step)
    requires Inv(s) && step.BeginProcessing? && Enabled(s, step)
    ensures Inv(Apply(s, step))
  {
    assert RunOk(s.tree, s.store, s.runs[step.worker]);
    GrowsRefl(s.store);
    FencedInv(s, step.worker, s.store, Working(map[]));
  }

  // ----- processing

  /** The run of `w` with one flight added, moved on or gone, over rows that grew. */
  lemma FlightsKept(s: State, w: Worker, st: Store, flights: map<nat, Flight>)
    requires Inv(s) && Works(s, w) && Grows(s.store, st)
    requires forall f | f in flights :: (f in s.runs[w].flights && flights[f] == s.runs[w].flights[f]) || FlightOk(st, flights[f])
    ensures RunOk(s.tree, st, Working(flights))
  {
    assert RunOk(s.tree, s.store, s.runs[w]);
    RunKept(s.tree, s.store, st, s.runs[w]);
  }

  lemma OpenMediaInv(s: State, step: Step)
    requires Inv(s) && step.OpenMedia? && Enabled(s, step)
    ensures Inv(Apply(s, step))
  {
    var w, path := step.worker, step.path;
    var st := ClaimEntry(s.store, w, s.now, path);
    if Holds(s, w) {
      SetEntry(s.tree, s.store, path, s.store.entries[path].(status := Processing));
      FlightsKept(s, w, st, s.runs[w].flights[step.flight := Flight(path, Opened)]);
    }
    FencedInv(s, w, st, Working(s.runs[w].flights[step.flight := Flight(path, Opened)]));
  }

  lemma FlightIsOk(s: State, w: Worker, f: nat)
    requires Inv(s) && Flies(s, w, f)
    ensures FlightOk(s.store, FlightOf(s, w, f))
  {
    assert RunOk(s.tree, s.store, s.runs[w]);
  }

  lemma MarkInv(s: State, step: Step)
    requires Inv(s) && step.Mark? && Enabled(s, step)
    ensures Inv(Apply(s, step))
  {
    var w, f := step.worker, step.flight;
    var path := FlightOf(s, w, f).path;
    var st := MarkCurrent(s.store, w, s.now, path, step.source);
    var stage := if Unchanged(s.store, path, step.source) then Marked else Opened;
    FlightIsOk(s, w, f);
    if Holds(s, w) {
      AssetsChange(s.tree, s.store, st.assets);
      assert st == s.store.(assets := st.assets);
      FlightsKept(s, w, st, WithFlight(s, w, f, stage).flights);
    }
    FencedInv(s, w, st, WithFlight(s, w, f, stage));
  }

  lemma RecordFailureInv(s: State, step: Step)
    requires Inv(s) && step.RecordFailure? && Enabled(s, step)
    ensures Inv(Apply(s, step))
  {
    var w, f := step.worker, step.flight;
    var st := RecordFailedAsset(s.store, w, s.now, FlightOf(s, w, f).path, step.source);
    FlightIsOk(s, w, f);
    if Holds(s, w) {
      AssetsChange(s.tree, s.store, st.assets);
      assert st == s.store.(assets := st.assets);
      FlightsKept(s, w, st, WithFlight(s, w, f, Recorded).flights);
    }
    FencedInv(s, w, st, WithFlight(s, w, f, Recorded));
  }

  lemma FailMediaInv(s: State, step: Step)
    requires Inv(s) && step.FailMedia? && Enabled(s, step)
    ensures Inv(Apply(s, step))
  {
    var w, f := step.worker, step.flight;
    var path := FlightOf(s, w, f).path;
    var st := FailEntry(s.store, w, s.now, path, None);
    FlightIsOk(s, w, f);
    if Holds(s, w) {
      var mid := s.store.(entries := st.entries);
      SetEntry(s.tree, s.store, path, st.entries[path]);
      JobChange(s.tree, mid, st.job);
      GrowsTransitive(s.store, mid, st);
      FlightsKept(s, w, st, WithoutFlight(s, w, f).flights);
    }
    FencedInv(s, w, st, WithoutFlight(s, w, f));
  }

  lemma RunsKept(s: State, st: Store, runs: map<Worker, Run>)
    requires Inv(s) && Grows(s.store, st)
    requires forall w | w in runs :: RunOk(s.tree, st, runs[w]) || (w in s.runs && runs[w] == s.runs[w])
    ensures forall w | w in runs :: RunOk(s.tree, st, runs[w])
  {
    forall w | w in runs
      ensures RunOk(s.tree, st, runs[w])
    {
      if w in s.runs && runs[w] == s.runs[w] {
        RunKept(s.tree, s.store, st, runs[w]);
      }
    }
  }

  lemma CompleteMarkedInv(s: State, w: Worker, f: nat)
    requires Inv(s) && Flies(s, w, f) && FlightOf(s, w, f).stage.Marked?
    ensures Inv(ApplyCompleteMarked(s, w, f))
  {
    if !Holds(s, w) {
      EndRunInv(s, w);
    } else {
      var path, after := FlightOf(s, w, f).path, ApplyCompleteMarked(s, w, f);
      FlightIsOk(s, w, f);
      var mid := s.store.(entries := after.store.entries);
      SetEntry(s.tree, s.store, path, mid.entries[path]);
      JobChange(s.tree, mid, after.store.job);
      GrowsTransitive(s.store, mid, after.store);
      FlightsKept(s, w, after.store, WithoutFlight(s, w, f).flights);
      RunsKept(s, after.store, after.runs);
      forall op
        ensures after.completed[op] + after.aborted[op] + Rows(after, op) == if op in after.begun then 1 else 0
      {
        assert Rows(after, op) == Rows(s, op);
      }
    }
  }

  /** The new row is the only one for its path, and it is counted once. */
  lemma BeginLedger(s: State, w: Worker, f: nat, op: nat, source: nat)
    requires Inv(s) && Flies(s, w, f) && op !in s.begun && Holds(s, w) && !InFlight(s.store.journal, FlightOf(s, w, f).path)
    ensures Ledger(ApplyBegin(s, w, f, op, source)) && OnePerPath(ApplyBegin(s, w, f, op, source).store.journal)
  {
    var after := ApplyBegin(s, w, f, op, source);
    forall o
      ensures after.completed[o] + after.aborted[o] + Rows(after, o) == if o in after.begun then 1 else 0
    {
      assert s.completed[o] + s.aborted[o] + Rows(s, o) == if o in s.begun then 1 else 0;
    }
  }

  lemma BeginInv(s: State, w: Worker, f: nat, op: nat, source: nat)
    requires Inv(s) && Flies(s, w, f) && FlightOf(s, w, f).stage.Opened? && op !in s.begun
    ensures Inv(ApplyBegin(s, w, f, op, source))
  {
    if !Holds(s, w) || InFlight(s.store.journal, FlightOf(s, w, f).path) {
      EndRunInv(s, w);
    } else {
      var after := ApplyBegin(s, w, f, op, source);
      FlightIsOk(s, w, f);
      JournalChange(s.tree, s.store, after.store.journal);
      assert after.store == s.store.(journal := after.store.journal);
      FlightsKept(s, w, after.store, WithFlight(s, w, f, Journaled(op)).flights);
      RunsKept(s, after.store, after.runs);
      BeginLedger(s, w, f, op, source);
    }
  }

  /** Resolving a row of the journal, by its owner or by recovery, leaves the rows in order. */
  lemma CompleteRows(s: State, resolver: Option<Worker>, op: nat)
    requires Inv(s) && op in s.store.journal && MayResolve(s.store.job, resolver, s.now)
    ensures var st := CompletePublish(s.store, resolver, s.now, op); StoreInv(s.tree, st) && Grows(s.store, st)
  {
    var st := CompletePublish(s.store, resolver, s.now, op);
    var path := s.store.journal[op].path;
    assert MediaAt(s.store, path);
    var a := s.store.(assets := st.assets);
    AssetsChange(s.tree, s.store, st.assets);
    var b := a.(entries := st.entries);
    SetEntry(s.tree, a, path, st.entries[path]);
    var c := b.(job := st.job);
    JobChange(s.tree, b, st.job);
    GrowsTransitive(s.store, a, b);
    GrowsTransitive(s.store, b, c);
    JournalChange(s.tree, c, st.journal);
    GrowsTransitive(s.store, c, st);
  }

  lemma AbortRows(s: State, resolver: Option<Worker>, op: nat, requeue: bool)
    requires Inv(s) && op in s.store.journal && MayResolve(s.store.job, resolver, s.now)
    ensures var st := AbortJournal(s.store, resolver, s.now, op, requeue); StoreInv(s.tree, st) && Grows(s.store, st)
  {
    var st := AbortJournal(s.store, resolver, s.now, op, requeue);
    var path := s.store.journal[op].path;
    assert MediaAt(s.store, path) && EntryCurrent(s.store, path);
    var a := s.store.(entries := st.entries);
    SetEntry(s.tree, s.store, path, st.entries[path]);
    assert st.entries == s.store.entries[path := st.entries[path]];
    JournalChange(s.tree, a, st.journal);
    GrowsTransitive(s.store, a, st);
  }

  lemma Completion(s: State, resolver: Option<Worker>, op: nat, runs: map<Worker, Run>)
    requires Inv(s) && op in s.store.journal && MayResolve(s.store.job, resolver, s.now)
    requires forall w | w in runs :: RunOk(s.tree, CompletePublish(s.store, resolver, s.now, op), runs[w]) || (w in s.runs && runs[w] == s.runs[w])
    ensures Inv(s.(store := CompletePublish(s.store, resolver, s.now, op), completed := s.completed + multiset{op}, runs := runs))
  {
    var after := s.(store := CompletePublish(s.store, resolver, s.now, op), completed := s.completed + multiset{op}, runs := runs);
    CompleteRows(s, resolver, op);
    RunsKept(s, after.store, runs);
    forall o
      ensures after.completed[o] + after.aborted[o] + Rows(after, o) == if o in after.begun then 1 else 0
    {
      assert s.completed[o] + s.aborted[o] + Rows(s, o) == if o in s.begun then 1 else 0;
    }
  }

  lemma Abortion(s: State, resolver: Option<Worker>, op: nat, requeue: bool, runs: map<Worker, Run>)
    requires Inv(s) && op in s.store.journal && MayResolve(s.store.job, resolver, s.now)
    requires forall w | w in runs :: RunOk(s.tree, AbortJournal(s.store, resolver, s.now, op, requeue), runs[w]) || (w in s.runs && runs[w] == s.runs[w])
    ensures Inv(s.(store := AbortJournal(s.store, resolver, s.now, op, requeue), aborted := s.aborted + multiset{op}, runs := runs))
  {
    var after := s.(store := AbortJournal(s.store, resolver, s.now, op, requeue), aborted := s.aborted + multiset{op}, runs := runs);
    AbortRows(s, resolver, op, requeue);
    RunsKept(s, after.store, runs);
    forall o
      ensures after.completed[o] + after.aborted[o] + Rows(after, o) == if o in after.begun then 1 else 0
    {
      assert s.completed[o] + s.aborted[o] + Rows(s, o) == if o in s.begun then 1 else 0;
    }
  }

  lemma CompleteOwnedInv(s: State, step: Step)
    requires Inv(s) && step.CompleteOwned? && Enabled(s, step)
    ensures Inv(Apply(s, step))
  {
    var w, f := step.worker, step.flight;
    var op := FlightOf(s, w, f).stage.operation;
    var run := WithoutFlight(s, w, f);
    if op !in s.store.journal {
      GrowsRefl(s.store);
      FlightsKept(s, w, s.store, run.flights);
      RunsOnly(s, s.runs[w := run]);
    } else if !Holds(s, w) {
      EndRunInv(s, w);
    } else {
      CompleteRows(s, Some(w), op);
      FlightsKept(s, w, CompletePublish(s.store, Some(w), s.now, op), run.flights);
      Completion(s, Some(w), op, s.runs[w := run]);
    }
  }

  lemma AbortOwnedInv(s: State, w: Worker, f: nat, requeue: bool)
    requires Inv(s) && Flies(s, w, f) && FlightOf(s, w, f).stage.Journaled?
    ensures Inv(ApplyAbortOwned(s, w, f, requeue))
  {
    var op := FlightOf(s, w, f).stage.operation;
    var run := WithFlight(s, w, f, Aborted);
    FlightIsOk(s, w, f);
    if op !in s.store.journal {
      GrowsRefl(s.store);
      FlightsKept(s, w, s.store, run.flights);
      RunsOnly(s, s.runs[w := run]);
    } else if !Holds(s, w) {
      EndRunInv(s, w);
    } else {
      AbortRows(s, Some(w), op, requeue);
      FlightsKept(s, w, AbortJournal(s.store, Some(w), s.now, op, requeue), run.flights);
      Abortion(s, Some(w), op, requeue, s.runs[w := run]);
    }
  }

  lemma RecoverInv(s: State, step: Step)
    requires Inv(s) && (step.RecoverComplete? || step.RecoverAbort?) && Enabled(s, step)
    ensures Inv(Apply(s, step))
  {
    var op := step.operation;
    if op in s.store.journal && Recoverable(s.store.job, s.now) {
      if step.RecoverComplete? {
        Completion(s, None, op, s.runs);
      } else {
        Abortion(s, None, op, true, s.runs);
      }
    }
  }

  // ----- leases

  lemma ReopenRows(tree: Tree, st: Store, job: Job)
    requires StoreInv(tree, st) && job.generation == st.job.generation
    ensures StoreInv(tree, st.(entries := Reopened(st.entries), job := job)) && Grows(st, st.(entries := Reopened(st.entries), job := job))
  {
    var mid := st.(entries := Reopened(st.entries));
    ReopenedEntries(tree, st);
    JobChange(tree, mid, job);
    GrowsTransitive(st, mid, mid.(job := job));
  }

  lemma ClaimInv(s: State, step: Step)
    requires Inv(s) && step.Claim? && Enabled(s, step)
    ensures Inv(Apply(s, step))
  {
    var st := ClaimJob(s.store, step.worker, s.now, step.until);
    ReopenRows(s.tree, s.store, st.job);
    PlainStep(s, st, s.runs[step.worker := Starting]);
  }

  lemma FinishRows(tree: Tree, st: Store, worker: Worker, now: Time)
    requires StoreInv(tree, st)
    ensures StoreInv(tree, FinishJob(st, worker, now)) && Grows(st, FinishJob(st, worker, now))
  {
    var after := FinishJob(st, worker, now);
    AssetsChange(tree, st, after.assets);
    var mid := st.(assets := after.assets);
    JobChange(tree, mid, after.job);
    GrowsTransitive(st, mid, after);
  }

  lemma JobOnly(s: State, job: Job, runs: map<Worker, Run>)
    requires Inv(s) && job.generation == s.store.job.generation && job.processed == s.store.job.processed
    requires forall w | w in runs :: w in s.runs && runs[w] == s.runs[w]
    ensures Inv(s.(store := s.store.(job := job), runs := runs))
  {
    JobChange(s.tree, s.store, job);
    PlainStep(s, s.store.(job := job), runs);
  }

  lemma LeaseInv(s: State, step: Step)
    requires Inv(s) && Enabled(s, step)
    requires step.Tick? || step.ClaimOther? || step.Renew? || step.Error? || step.Crash?
    ensures Inv(Apply(s, step))
  {
    var after := Apply(s, step);
    JobOnly(s, after.store.job, after.runs);
    assert after == s.(store := s.store.(job := after.store.job), runs := after.runs, now := after.now);
  }

  lemma FinishInv(s: State, step: Step)
    requires Inv(s) && Enabled(s, step) && step.Finish?
    ensures Inv(Apply(s, step))
  {
    FinishRows(s.tree, s.store, step.worker, s.now);
    PlainStep(s, FinishJob(s.store, step.worker, s.now), s.runs - {step.worker});
  }

  lemma ReleaseInv(s: State, step: Step)
    requires Inv(s) && Enabled(s, step) && step.Release?
    ensures Inv(Apply(s, step))
  {
    var st := ReleaseWorker(s.store, step.worker);
    if s.store.job.worker == Some(step.worker) {
      ReopenRows(s.tree, s.store, st.job);
      PlainStep(s, st, s.runs - {step.worker});
    } else {
      EndRunInv(s, step.worker);
    }
  }

  lemma StepInv(s: State, step: Step)
    requires Inv(s) && Enabled(s, step)
    ensures Inv(Apply(s, step))
  {
    match step
    case Claim(_, _) => ClaimInv(s, step);
    case Start(_) => StartInv(s, step);
    case OpenDirectory(_, _) => OpenDirectoryInv(s, step);
    case SkipDirectory(_) => SkipDirectoryInv(s, step);
    case AddChild(_, _) => AddChildInv(s, step);
    case CloseDirectory(_) => CloseDirectoryInv(s, step);
    case BeginProcessing(_) => BeginProcessingInv(s, step);
    case OpenMedia(_, _, _) => OpenMediaInv(s, step);
    case Mark(_, _, _) => MarkInv(s, step);
    case CompleteMarked(w, f) => CompleteMarkedInv(s, w, f);
    case Begin(w, f, op, source) => BeginInv(s, w, f, op, source);
    case CompleteOwned(_, _) => CompleteOwnedInv(s, step);
    case AbortOwned(w, f, requeue) => AbortOwnedInv(s, w, f, requeue);
    case RecordFailure(_, _, _) => RecordFailureInv(s, step);
    case FailMedia(_, _) => FailMediaInv(s, step);
    case Finish(_) => FinishInv(s, step);
    case Release(_) => ReleaseInv(s, step);
    case RecoverComplete(_) => RecoverInv(s, step);
    case RecoverAbort(_) => RecoverInv(s, step);
    case _ => LeaseInv(s, step);
  }

  lemma InitInv(s: State)
    requires Init(s)
    ensures Inv(s)
  {}

  lemma {:induction false} RunsKeepInv(s: State, steps: seq<Step>)
    requires Inv(s) && Feasible(s, steps)
    ensures Inv(Final(s, steps))
    decreases |steps|
  {
    if steps != [] {
      StepInv(s, steps[0]);
      RunsKeepInv(Apply(s, steps[0]), steps[1..]);
    }
  }

  // ----- the theorems

  /** What a job that has just finished looks like: its entries are the library, whatever crashes and claims came
      before, and the clean-up kept the asset of every completed medium and removed only assets without one. */
  ghost predicate FinishedWell(tree: Tree, before: Store, after: Store) {
    && Exact(tree, after.entries)
    && AllFinished(after.entries)
    && (forall p | MediaAt(after, p) && after.entries[p].status == Completed :: Current(after, p))
    && (forall p | p in before.assets && p !in after.assets
          :: !(MediaAt(after, p) && after.entries[p].status == Completed) && before.assets[p].library == before.job.library)
    && (after.job.fullScan ==> forall p | p in after.assets && after.assets[p].library == after.job.library :: Current(after, p))
    && (forall p | p in after.assets :: p in before.assets && after.assets[p] == before.assets[p])
  }

  lemma FinishesWell(s: State, w: Worker)
    requires Inv(s) && Enabled(s, Finish(w)) && Apply(s, Finish(w)).store.job.status == Done
    requires s.store.job.status != Done
    ensures FinishedWell(s.tree, s.store, Apply(s, Finish(w)).store)
  {
    assert RunOk(s.tree, s.store, s.runs[w]);
    var after := Apply(s, Finish(w)).store;
    assert AllFinished(s.store.entries);
    DoneIsExact(s.tree, s.store.entries);
    forall p | MediaAt(after, p) && after.entries[p].status == Completed
      ensures Current(after, p)
    {
      assert EntryCurrent(s.store, p);
    }
  }

  /** In every run of the protocol, a job that reaches the end of `finish_job` finished well. */
  lemma FinishedScans(s: State, steps: seq<Step>, w: Worker)
    requires Init(s) && Feasible(s, steps)
    requires var t := Final(s, steps); Enabled(t, Finish(w)) && t.store.job.status != Done && Apply(t, Finish(w)).store.job.status == Done
    ensures var t := Final(s, steps); FinishedWell(t.tree, t.store, Apply(t, Finish(w)).store)
  {
    InitInv(s);
    RunsKeepInv(s, steps);
    FinishesWell(Final(s, steps), w);
  }

  /** In every run, each publication begun is still in the journal, or was completed once, or aborted once, never
      two of these; there is one at a time per path; and `processed` is the number of completions. */
  lemma JournalsResolveOnce(s: State, steps: seq<Step>)
    requires Init(s) && Feasible(s, steps)
    ensures Ledger(Final(s, steps)) && OnePerPath(Final(s, steps).store.journal)
  {
    InitInv(s);
    RunsKeepInv(s, steps);
  }

  /** A foreign write to the asset of a completed medium, as another job of the same library makes it, costs the
      asset its place exactly when it carries another generation of this library and the scan is a full one. */
  lemma ForeignWriteExact(tree: Tree, st: Store, w: Worker, now: Time, p: Path, row: Asset)
    requires StoreInv(tree, st) && Owned(st.job, w, now) && AllFinished(st.entries)
    requires MediaAt(st, p) && st.entries[p].status == Completed
    ensures p in FinishJob(st, w, now).assets
    ensures p !in FinishJob(st.(assets := st.assets[p := row]), w, now).assets
            <==> st.job.fullScan && row.library == st.job.library && row.generation != st.job.generation
  {
    assert EntryCurrent(st, p);
  }

  // ----- fencing

  function WorkerOf(step: Step): Option<Worker> {
    match step
    case Tick(_) => None
    case ClaimOther => None
    case RecoverComplete(_) => None
    case RecoverAbort(_) => None
    case _ => Some(step.worker)
  }

  /** The states differ at most in what `w` remembers of its own run. */
  ghost predicate Alike(a: State, b: State, w: Worker) { EndRun(a, w) == EndRun(b, w) }

  /** Nothing that a worker does without owning the job reaches the rows. */
  lemma StaleStep(s: State, step: Step, w: Worker)
    requires Enabled(s, step) && WorkerOf(step) == Some(w) && !step.Claim? && s.store.job.worker != Some(w)
    ensures Alike(Apply(s, step), s, w)
  {
    if DiscoverStep(step) {
      assert !Holds(s, w);
      assert Apply(s, step).store == s.store;
    } else if ProcessStep(step) {
      assert !Holds(s, w);
      assert Apply(s, step).store == s.store;
    }
  }

  lemma SameRuns(a: map<Worker, Run>, b: map<Worker, Run>, v: Worker, run: Run, w: Worker)
    requires a - {w} == b - {w} && v != w
    ensures a[v := run] - {w} == b[v := run] - {w}
    ensures a - {v} - {w} == b - {v} - {w}
    ensures v in a <==> v in b
    ensures v in a ==> a[v] == b[v]
  {
    assert v in a <==> v in a - {w};
    assert v in b <==> v in b - {w};
    assert a - {v} - {w} == a - {w} - {v};
    assert b - {v} - {w} == b - {w} - {v};
    assert a[v := run] - {w} == (a - {w})[v := run];
    assert b[v := run] - {w} == (b - {w})[v := run];
  }

  /** What another worker does depends on nothing that `w` remembers. */
  lemma OtherDiscoverStep(a: State, b: State, step: Step, w: Worker)
    requires Alike(a, b, w) && Enabled(a, step) && DiscoverStep(step) && step.worker != w
    ensures Enabled(b, step) && Alike(Apply(a, step), Apply(b, step), w)
  {
    var v := step.worker;
    assert EndRun(a, w).runs == EndRun(b, w).runs;
    SameRuns(a.runs, b.runs, v, Starting, w);
    var x := Apply(a, step);
    if v in x.runs {
      SameRuns(a.runs, b.runs, v, x.runs[v], w);
    }
  }

  predicate JournalStep(step: Step) { step.Begin? || step.CompleteOwned? || step.AbortOwned? }

  lemma OtherJournalStep(a: State, b: State, step: Step, w: Worker)
    requires Alike(a, b, w) && Enabled(a, step) && ProcessStep(step) && step.worker != w
    requires JournalStep(step)
    ensures Enabled(b, step) && Alike(Apply(a, step), Apply(b, step), w)
  {
    var v := step.worker;
    assert EndRun(a, w).runs == EndRun(b, w).runs;
    SameRuns(a.runs, b.runs, v, Starting, w);
    var x := Apply(a, step);
    if v in x.runs {
      SameRuns(a.runs, b.runs, v, x.runs[v], w);
    }
  }

  lemma OtherMediaStep(a: State, b: State, step: Step, w: Worker)
    requires Alike(a, b, w) && Enabled(a, step) && ProcessStep(step) && step.worker != w
    requires !JournalStep(step)
    ensures Enabled(b, step) && Alike(Apply(a, step), Apply(b, step), w)
  {
    var v := step.worker;
    assert EndRun(a, w).runs == EndRun(b, w).runs;
    SameRuns(a.runs, b.runs, v, Starting, w);
    var x := Apply(a, step);
    if v in x.runs {
      SameRuns(a.runs, b.runs, v, x.runs[v], w);
    }
  }

  lemma OtherLeaseStep(a: State, b: State, step: Step, w: Worker)
    requires Alike(a, b, w) && Enabled(a, step) && WorkerOf(step) != Some(w) && !DiscoverStep(step) && !ProcessStep(step)
    ensures Enabled(b, step) && Alike(Apply(a, step), Apply(b, step), w)
  {
    assert EndRun(a, w).runs == EndRun(b, w).runs;
    if WorkerOf(step).Some? {
      SameRuns(a.runs, b.runs, step.worker, Starting, w);
    }
  }

  lemma OtherStep(a: State, b: State, step: Step, w: Worker)
    requires Alike(a, b, w) && Enabled(a, step) && WorkerOf(step) != Some(w)
    ensures Enabled(b, step) && Alike(Apply(a, step), Apply(b, step), w)
  {
    if DiscoverStep(step) {
      OtherDiscoverStep(a, b, step, w);
    } else if JournalStep(step) {
      OtherJournalStep(a, b, step, w);
    } else if ProcessStep(step) {
      OtherMediaStep(a, b, step, w);
    } else {
      OtherLeaseStep(a, b, step, w);
    }
  }

  /** Work on entries and assets does not change hands. */
  lemma DiscoverKeepsWorker(s: State, step: Step)
    requires Enabled(s, step) && DiscoverStep(step)
    ensures Apply(s, step).store.job.worker == s.store.job.worker
  {}

  lemma ProcessKeepsWorker(s: State, step: Step)
    requires Enabled(s, step) && ProcessStep(step)
    ensures Apply(s, step).store.job.worker == s.store.job.worker
  {}

  lemma StillFenced(s: State, step: Step, w: Worker)
    requires Enabled(s, step) && s.store.job.worker != Some(w) && !(step.Claim? && step.worker == w)
    ensures Apply(s, step).store.job.worker != Some(w)
  {
    if DiscoverStep(step) {
      DiscoverKeepsWorker(s, step);
    } else if ProcessStep(step) {
      ProcessKeepsWorker(s, step);
    }
  }

  /** The steps of everyone but `w`. */
  function Without(steps: seq<Step>, w: Worker): seq<Step> {
    if steps == [] then [] else (if WorkerOf(steps[0]) == Some(w) then [] else [steps[0]]) + Without(steps[1..], w)
  }

  predicate NoClaim(steps: seq<Step>, w: Worker) {
    forall i | 0 <= i < |steps| :: !(steps[i].Claim? && steps[i].worker == w)
  }

  /** Once `w` is not the job's worker, and until it claims the job again, the run is the same, row for row and for
      everyone else, as the run in which `w` does nothing at all. */
  lemma {:induction false} FencedOut(a: State, b: State, steps: seq<Step>, w: Worker)
    requires Feasible(a, steps) && NoClaim(steps, w) && a.store.job.worker != Some(w) && Alike(a, b, w)
    ensures Feasible(b, Without(steps, w))
    ensures Alike(Final(a, steps), Final(b, Without(steps, w)), w)
    decreases |steps|
  {
    if steps != [] {
      var step, rest := steps[0], steps[1..];
      assert NoClaim(rest, w);
      StillFenced(a, step, w);
      if WorkerOf(step) == Some(w) {
        StaleStep(a, step, w);
        FencedOut(Apply(a, step), b, rest, w);
        assert Without(steps, w) == Without(rest, w);
      } else {
        OtherStep(a, b, step, w);
        FencedOut(Apply(a, step), Apply(b, step), rest, w);
        assert Without(steps, w) == [step] + Without(rest, w);
        assert ([step] + Without(rest, w))[1..] == Without(rest, w);
      }
    }
  }

  /** In particular once another worker has claimed it. */
  lemma ClaimFences(s: State, step: Step, steps: seq<Step>, w: Worker)
    requires Enabled(s, step) && step.Claim? && step.worker != w
    requires Feasible(Apply(s, step), steps) && NoClaim(steps, w)
    ensures Feasible(Apply(s, step), Without(steps, w))
    ensures Final(Apply(s, step), steps).store == Final(Apply(s, step), Without(steps, w)).store
  {
    FencedOut(Apply(s, step), Apply(s, step), steps, w);
  }

  // ----- longer runs

  lemma {:induction false} Extend(s: State, steps: seq<Step>, step: Step)
    requires Feasible(s, steps) && Enabled(Final(s, steps), step)
    ensures Feasible(s, steps + [step]) && Final(s, steps + [step]) == Apply(Final(s, steps), step)
    decreases |steps|
  {
    if steps == [] {
      assert steps + [step] == [step];
      assert [step][1..] == [];
    } else {
      Extend(Apply(s, steps[0]), steps[1..], step);
      assert (steps + [step])[1..] == steps[1..] + [step];
    }
  }

  lemma TreeStays(s: State, step: Step)
    requires Enabled(s, step)
    ensures Apply(s, step).tree == s.tree
  {}

  /** A worker's run is its own: nobody else's step touches it. */
  lemma OthersKeepRun(s: State, step: Step, w: Worker)
    requires Enabled(s, step) && (WorkerOf(step) != Some(w) || step.Renew?)
    ensures w in Apply(s, step).runs <==> w in s.runs
    ensures w in s.runs ==> Apply(s, step).runs[w] == s.runs[w]
  {
    if DiscoverStep(step) {
      DiscoverRuns(s, step, w);
    } else if ProcessStep(step) {
      ProcessRuns(s, step, w);
    }
  }

  lemma DiscoverRuns(s: State, step: Step, w: Worker)
    requires Enabled(s, step) && DiscoverStep(step) && step.worker != w
    ensures w in Apply(s, step).runs <==> w in s.runs
    ensures w in s.runs ==> Apply(s, step).runs[w] == s.runs[w]
  {}

  lemma ProcessRuns(s: State, step: Step, w: Worker)
    requires Enabled(s, step) && ProcessStep(step) && step.worker != w
    ensures w in Apply(s, step).runs <==> w in s.runs
    ensures w in s.runs ==> Apply(s, step).runs[w] == s.runs[w]
  {}
}
