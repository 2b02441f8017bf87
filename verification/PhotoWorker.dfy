/** The photo worker's own code over the tables: one job from its claim to its end, while any other worker, recovery and
    the clock go on between any two of its calls (apps/photostaff/src/worker.rs). */
module PhotoWorker {
  import opened Base
  import opened Paths
  import R = PhotoRows
  import opened PhotoScan
  import opened PhotoDb
  import opened PhotoProtocol

  /** What opening, processing and publishing a medium come to. `source` is the identity that was read. */
  datatype Event =
    | Read(source: nat)          // the medium was opened, or processed without error
    | Refused(source: nat)       // an error that trying again will not mend
    | Changed                    // the source changed under a publication
    | Unavailable                // an error that ends the run

  /** What a run of the worker meets at its `k`-th call: the steps others have taken before it, whether it is told to stop,
      and what happens to its media. Its process ends, for whatever reason, after `length` calls. */
  datatype Outside = Outside(
    length: nat,
    others: nat -> seq<Step>,
    renewed: nat -> Option<Time>,
    stop: nat -> bool,
    pick: nat -> nat,
    event: nat -> Event)

  datatype Outcome = Finished | Failed | Killed | Idle

  /** A worker that still holds its job, with every entry finished, ends it well. */
  lemma FinishTells(s: State, w: Worker)
    requires Inv(s) && Enabled(s, Finish(w)) && R.Owned(s.store.job, w, s.now) && R.AllFinished(s.store.entries)
    ensures Apply(s, Finish(w)) == EndRun(s.(store := R.FinishJob(s.store, w, s.now)), w)
    ensures FinishedWell(s.tree, s.store, R.FinishJob(s.store, w, s.now))
  {
    FinishesWell(s, w);
  }

  class Service {
    const db: Db
    const worker: Worker
    const outside: Outside
    /** The whole system as the protocol sees it; its rows are those of `db`. */
    var world: State
    var calls: nat
    ghost const start: State
    ghost var taken: seq<Step>

    constructor (db: Db, worker: Worker, outside: Outside, world: State)
      requires Init(world) && db.View() == world.store
      ensures this.db == db && this.worker == worker && this.outside == outside && this.world == world && calls == 0
      ensures start == world && taken == [] && Valid()
    {
      this.db, this.worker, this.outside, this.world := db, worker, outside, world;
      calls, start, taken := 0, world, [];
    }

    ghost predicate Run()
      reads this
    {
      Init(start) && Feasible(start, taken) && world == Final(start, taken)
    }

    /** What has happened is a run of the protocol, and the tables are as that run leaves them. */
    ghost predicate Valid()
      reads this, db
    {
      Run() && db.View() == world.store
    }

    predicate RunIs(run: PhotoProtocol.Run)
      reads this
    {
      worker in world.runs && world.runs[worker] == run
    }

    /** The process has come to its end. */
    predicate Over()
      reads this
    {
      calls >= outside.length
    }

    /** The last step was `Finish`, taken on the rows `before`, and it left what a finished run should. */
    ghost predicate HasFinished(before: R.Store)
      reads this, db
    {
      && worker !in world.runs && taken != [] && taken[|taken| - 1] == Finish(worker)
      && Feasible(start, taken[..|taken| - 1]) && before == Final(start, taken[..|taken| - 1]).store
      && FinishedWell(world.tree, before, db.View())
    }

    twostate predicate Onward()
      reads this
    {
      old(taken) <= taken && world.tree == old(world.tree) && calls >= old(calls)
    }

    lemma Holds()
      requires Valid()
      ensures Inv(world)
    {
      InitInv(start);
      RunsKeepInv(start, taken);
    }

    /** The system takes a step. */
    method Take(step: Step)
      requires Run() && Enabled(world, step)
      modifies this`world, this`taken
      ensures Run() && world == Apply(old(world), step) && taken == old(taken) + [step]
    {
      Extend(start, taken, step);
      world := Apply(world, step);
      taken := taken + [step];
    }

    // ----- between two calls

    /** Others go on, and the lease may be renewed. The worker's own place does not change. */
    method Turn() returns (alive: bool)
      requires Valid()
      modifies this, db
      ensures Valid() && Onward()
      ensures worker in world.runs <==> worker in old(world.runs)
      ensures worker in world.runs ==> world.runs[worker] == old(world.runs)[worker]
      ensures alive ==> old(calls) < calls <= outside.length
      ensures !alive ==> Over()
    {
      if calls >= outside.length {
        return false;
      }
      var steps, i := outside.others(calls), 0;
      while i < |steps|
        invariant i <= |steps| && Run() && calls == old(calls)
        invariant old(taken) <= taken && world.tree == old(world.tree)
        invariant worker in world.runs <==> worker in old(world.runs)
        invariant worker in world.runs ==> world.runs[worker] == old(world.runs)[worker]
      {
        if WorkerOf(steps[i]) != Some(worker) && Enabled(world, steps[i]) {
          TreeStays(world, steps[i]);
          OthersKeepRun(world, steps[i], worker);
          Take(steps[i]);
        }
        i := i + 1;
      }
      db.Reload(world.store);
      Renew();
      calls := calls + 1;
      alive := true;
    }

    method Renew()
      requires Valid()
      modifies this`world, this`taken, db
      ensures Valid() && old(taken) <= taken && world.tree == old(world.tree) && world.runs == old(world.runs)
    {
      var until := outside.renewed(calls);
      if until.Some? && worker in world.runs {
        var _ := db.RenewLease(worker, until.value);
        Take(PhotoProtocol.Renew(worker, until.value));
      }
    }

    // ----- claim and discovery

    /** `claim_job`. */
    method Claim(until: Time) returns (alive: bool, claimed: bool)
      requires Valid() && worker !in world.runs
      modifies this, db
      ensures Valid() && Onward() && (!alive ==> Over() && !claimed)
      ensures claimed ==> RunIs(Starting)
      ensures !claimed ==> worker !in world.runs
      ensures alive && !claimed ==> !R.Claimable(db.job, world.now)
    {
      alive := Turn();
      if !alive {
        return false, false;
      }
      claimed := db.ClaimJob(worker, world.now, until);
      if claimed {
        Take(PhotoProtocol.Claim(worker, until));
      }
    }

    /** `initialize_scan`. */
    method Initialize() returns (ok: bool)
      requires Valid() && RunIs(Starting)
      modifies this, db
      ensures Valid() && Onward()
      ensures ok ==> RunIs(Discovering(None))
      ensures !ok ==> worker in world.runs
    {
      ok := Turn();
      if ok {
        ok := db.InitializeScan(worker, world.now, world.tree.root);
        if ok {
          Take(Start(worker));
        }
      }
    }

    /** The next directory, or the end of discovery when none is left. */
    method NextDirectory() returns (ok: bool, found: Option<Path>)
      requires Valid() && RunIs(Discovering(None))
      modifies this, db
      ensures Valid() && Onward() && worker in world.runs
      ensures ok ==> old(calls) < calls <= outside.length
      ensures ok && found.Some? ==> RunIs(Discovering(Some(Listing(found.value, Names(world.tree, found.value)))))
      ensures ok && found.None? ==> RunIs(Working(map[]))
    {
      found := None;
      ok := Turn();
      if ok {
        ok, found := db.ClaimEntry(R.Directory, worker, world.now);
        if ok {
          if found.Some? {
            Take(OpenDirectory(worker, found.value));
          } else {
            Take(BeginProcessing(worker));
          }
        }
      }
    }

    method AddOne(dir: Path, todo: set<Name>, name: Name) returns (ok: bool)
      requires Valid() && RunIs(Discovering(Some(Listing(dir, todo)))) && dir in world.tree.dirs && name in todo
      requires todo <= world.tree.dirs[dir].Keys
      modifies this, db
      ensures Valid() && Onward() && worker in world.runs
      ensures ok ==> RunIs(Discovering(Some(Listing(dir, todo - {name}))))
    {
      var kind := ChildKind(world.tree, name, world.tree.dirs[dir][name]);
      if kind.None? {
        Take(AddChild(worker, name));
        return true;
      }
      ok := Turn();
      if ok {
        ok := db.AddScanEntry(dir + [name], kind.value, worker, world.now);
        if ok {
          Take(AddChild(worker, name));
        }
      }
    }

    method SkipDirectory(dir: Path) returns (ok: bool)
      requires Valid() && RunIs(Discovering(Some(Listing(dir, {})))) && dir !in world.tree.dirs
      modifies this, db
      ensures Valid() && Onward() && worker in world.runs
      ensures ok ==> RunIs(Discovering(None))
    {
      ok := Turn();
      if ok {
        ok := db.SkipEntry(dir, worker, world.now);
        if ok {
          Take(PhotoProtocol.SkipDirectory(worker));
        }
      }
    }

    method CloseDirectory(dir: Path) returns (ok: bool)
      requires Valid() && RunIs(Discovering(Some(Listing(dir, {})))) && dir in world.tree.dirs
      modifies this, db
      ensures Valid() && Onward() && worker in world.runs
      ensures ok ==> RunIs(Discovering(None))
    {
      ok := Turn();
      if ok {
        ok := db.CompleteEntry(dir, false, worker, world.now);
        if ok {
          Take(PhotoProtocol.CloseDirectory(worker));
        }
      }
    }

    /** One turn of the outer loop of `discover`. */
    method ListDirectory(dir: Path) returns (ok: bool)
      requires Valid() && RunIs(Discovering(Some(Listing(dir, Names(world.tree, dir)))))
      modifies this, db
      ensures Valid() && Onward() && worker in world.runs
      ensures ok ==> RunIs(Discovering(None))
    {
      if dir !in world.tree.dirs {
        ok := SkipDirectory(dir);
        return;
      }
      var todo := world.tree.dirs[dir].Keys;
      while todo != {}
        invariant Valid() && Onward() && dir in world.tree.dirs && todo <= world.tree.dirs[dir].Keys
        invariant RunIs(Discovering(Some(Listing(dir, todo))))
        decreases todo
      {
        if outside.stop(calls) {
          return false;
        }
        var name :| name in todo;
        ok := AddOne(dir, todo, name);
        if !ok {
          return;
        }
        todo := todo - {name};
      }
      ok := CloseDirectory(dir);
    }

    /** `discover`, with others at work. */
    method Discover() returns (ok: bool)
      requires Valid() && RunIs(Discovering(None))
      modifies this, db
      ensures Valid() && Onward() && worker in world.runs
      ensures ok ==> RunIs(Working(map[]))
    {
      while true
        invariant Valid() && Onward() && RunIs(Discovering(None))
        decreases outside.length - calls
      {
        var found: Option<Path>;
        ok, found := NextDirectory();
        if !ok || found.None? {
          return;
        }
        if outside.stop(calls) {
          return false;
        }
        ok := ListDirectory(found.value);
        if !ok {
          return;
        }
      }
    }

    // ----- processing

    /** The next medium gets a place among the running ones, or there is none left. */
    method NextMedium(running: map<nat, Flight>) returns (ok: bool, flight: nat, found: Option<Path>)
      requires Valid() && RunIs(Working(running))
      modifies this, db
      ensures Valid() && Onward() && worker in world.runs
      ensures ok ==> old(calls) < calls <= outside.length
      ensures ok && found.None? ==> RunIs(Working(running))
      ensures ok && found.Some? ==> flight !in running && RunIs(Working(running[flight := Flight(found.value, Opened)]))
    {
      flight, found := 0, None;
      ok := Turn();
      if ok {
        ok, found := db.ClaimEntry(R.Media, worker, world.now);
        if ok && found.Some? {
          flight := Unused(running.Keys);
          Take(OpenMedia(worker, flight, found.value));
        }
      }
    }

    /** The medium cannot be opened, or its failure has been recorded. */
    method Fail(running: map<nat, Flight>, f: nat) returns (ok: bool)
      requires Valid() && RunIs(Working(running)) && f in running && (running[f].stage.Opened? || running[f].stage.Recorded?)
      modifies this`world, this`taken, db
      ensures Valid() && Onward() && worker in world.runs
      ensures ok ==> RunIs(Working(running - {f}))
    {
      ok := db.FailEntry(running[f].path, None, worker, world.now);
      if ok {
        Take(FailMedia(worker, f));
      }
    }

    /** `mark_current_if_unchanged`. */
    method Compare(running: map<nat, Flight>, f: nat, source: nat) returns (ok: bool, next: Flight)
      requires Valid() && RunIs(Working(running)) && f in running && running[f].stage.Opened?
      modifies this`world, this`taken, db
      ensures Valid() && Onward() && worker in world.runs && next.path == running[f].path
      ensures ok ==> RunIs(Working(running[f := next])) && (next.stage.Opened? || next.stage.Marked?)
    {
      var matched: bool;
      ok, matched := db.MarkCurrentIfUnchanged(running[f].path, source, worker, world.now);
      next := running[f].(stage := if matched then Marked else Opened);
      if ok {
        Take(Mark(worker, f, source));
      }
    }

    method CompleteMarked(running: map<nat, Flight>, f: nat) returns (ok: bool)
      requires Valid() && RunIs(Working(running)) && f in running && running[f].stage.Marked?
      modifies this`world, this`taken, db
      ensures Valid() && Onward() && worker in world.runs
      ensures ok ==> RunIs(Working(running - {f}))
    {
      ok := db.CompleteEntry(running[f].path, true, worker, world.now);
      if ok {
        Take(PhotoProtocol.CompleteMarked(worker, f));
      }
    }

    /** `begin_publish` under an operation id that was never used. */
    method Begin(running: map<nat, Flight>, f: nat, source: nat) returns (ok: bool, next: Flight)
      requires Valid() && RunIs(Working(running)) && f in running && running[f].stage.Opened?
      modifies this`world, this`taken, db
      ensures Valid() && Onward() && worker in world.runs && next.path == running[f].path
      ensures ok ==> RunIs(Working(running[f := next])) && next.stage.Journaled?
    {
      var op := Unused(world.begun);
      next := running[f].(stage := Journaled(op));
      ok := db.BeginPublish(op, R.Record(running[f].path, source), worker, world.now);
      if ok {
        Take(PhotoProtocol.Begin(worker, f, op, source));
      }
    }

    method Complete(running: map<nat, Flight>, f: nat) returns (ok: bool)
      requires Valid() && RunIs(Working(running)) && f in running && running[f].stage.Journaled?
      modifies this`world, this`taken, db
      ensures Valid() && Onward() && worker in world.runs
      ensures ok ==> RunIs(Working(running - {f}))
    {
      var done: bool;
      ok, done := db.CompletePublish(running[f].stage.operation, Some(worker), world.now);
      if ok {
        Take(CompleteOwned(worker, f));
      }
    }

    method Abort(running: map<nat, Flight>, f: nat, requeue: bool) returns (ok: bool)
      requires Valid() && RunIs(Working(running)) && f in running && running[f].stage.Journaled?
      modifies this`world, this`taken, db
      ensures Valid() && Onward() && worker in world.runs
      ensures ok ==> RunIs(Working(running[f := running[f].(stage := Aborted)]))
    {
      ok := db.AbortJournal(running[f].stage.operation, requeue, Some(worker), world.now);
      if ok {
        Take(AbortOwned(worker, f, requeue));
      }
    }

    method Record(running: map<nat, Flight>, f: nat, source: nat) returns (ok: bool)
      requires Valid() && RunIs(Working(running)) && f in running && (running[f].stage.Opened? || running[f].stage.Aborted?)
      modifies this`world, this`taken, db
      ensures Valid() && Onward() && worker in world.runs
      ensures ok ==> RunIs(Working(running[f := running[f].(stage := Recorded)]))
    {
      ok := db.RecordFailedAsset(running[f].path, source, worker, world.now);
      if ok {
        Take(RecordFailure(worker, f, source));
      }
    }

    /** `process_entry` up to its next call. `unseen` holds the media not yet compared with their assets. */
    method Advance(running: map<nat, Flight>, unseen: set<nat>, f: nat) returns (ok: bool, after: map<nat, Flight>, left: set<nat>)
      requires Valid() && RunIs(Working(running)) && f in running
      modifies this, db
      ensures Valid() && Onward() && worker in world.runs
      ensures ok ==> RunIs(Working(after)) && old(calls) < calls <= outside.length
    {
      after, left := running, unseen;
      ok := Turn();
      if !ok {
        return;
      }
      var event := outside.event(calls);
      match running[f].stage {
        case Opened =>
          if f in unseen {
            ok, after, left := Look(running, unseen, f, event);
          } else {
            ok, after := Process(running, f, event);
          }
        case Marked =>
          ok := CompleteMarked(running, f);
          after := running - {f};
        case Journaled(_) =>
          ok, after := Publish(running, f, event);
        case Aborted =>
          if event.Refused? {
            ok := Record(running, f, event.source);
            after := running[f := running[f].(stage := Recorded)];
          } else {
            ok := false;
          }
        case Recorded =>
          ok := Fail(running, f);
          after := running - {f};
      }
    }

    /** The medium is opened and compared. */
    method Look(running: map<nat, Flight>, unseen: set<nat>, f: nat, event: Event)
      returns (ok: bool, after: map<nat, Flight>, left: set<nat>)
      requires Valid() && RunIs(Working(running)) && f in running && running[f].stage.Opened?
      modifies this`world, this`taken, db
      ensures Valid() && Onward() && worker in world.runs && calls == old(calls)
      ensures ok ==> RunIs(Working(after))
    {
      ok, after, left := false, running, unseen - {f};
      match event
      case Read(source) =>
        var next: Flight;
        ok, next := Compare(running, f, source);
        after := running[f := next];
      case Refused(_) =>
        ok := Fail(running, f);
        after := running - {f};
      case Changed =>
      case Unavailable =>
    }

    /** The medium is processed, and its publication begins. */
    method Process(running: map<nat, Flight>, f: nat, event: Event) returns (ok: bool, after: map<nat, Flight>)
      requires Valid() && RunIs(Working(running)) && f in running && running[f].stage.Opened?
      modifies this`world, this`taken, db
      ensures Valid() && Onward() && worker in world.runs && calls == old(calls)
      ensures ok ==> RunIs(Working(after))
    {
      ok, after := false, running;
      match event
      case Read(source) =>
        var next: Flight;
        ok, next := Begin(running, f, source);
        after := running[f := next];
      case Refused(source) =>
        ok := Record(running, f, source);
        after := running[f := running[f].(stage := Recorded)];
      case Changed =>
      case Unavailable =>
    }

    /** The derivatives are in place, or the publication is given up. */
    method Publish(running: map<nat, Flight>, f: nat, event: Event) returns (ok: bool, after: map<nat, Flight>)
      requires Valid() && RunIs(Working(running)) && f in running && running[f].stage.Journaled?
      modifies this`world, this`taken, db
      ensures Valid() && Onward() && worker in world.runs && calls == old(calls)
      ensures ok ==> RunIs(Working(after))
    {
      if event.Read? {
        ok := Complete(running, f);
        after := running - {f};
      } else {
        ok := Abort(running, f, event.Changed?);
        after := running[f := running[f].(stage := Aborted)];
      }
    }

    /** `process_entries`: up to `concurrency` media at once, in any order of their calls. */
    method ProcessEntries(concurrency: nat) returns (ok: bool)
      requires Valid() && RunIs(Working(map[]))
      modifies this, db
      ensures Valid() && Onward() && worker in world.runs
      ensures ok ==> RunIs(Working(map[]))
    {
      var running: map<nat, Flight>, unseen: set<nat>, exhausted := map[], {}, false;
      while true
        invariant Valid() && Onward() && RunIs(Working(running))
        decreases outside.length - calls, if exhausted then 0 else 1
      {
        if outside.stop(calls) {
          return false;
        }
        if |running| < concurrency && !exhausted {
          var flight, found;
          ok, flight, found := NextMedium(running);
          if !ok {
            return;
          }
          if found.Some? {
            running, unseen := running[flight := Flight(found.value, Opened)], unseen + {flight};
          } else {
            exhausted := true;
          }
        } else if running == map[] {
          return true;
        } else {
          var f := outside.pick(calls);
          if f !in running {
            f :| f in running;
          }
          ok, running, unseen := Advance(running, unseen, f);
          if !ok {
            return;
          }
        }
      }
    }

    // ----- the job

    /** `run_job` up to `finish_job`. */
    method Work(concurrency: nat) returns (ok: bool, ghost before: R.Store)
      requires Valid() && RunIs(Starting)
      modifies this, db
      ensures Valid() && Onward()
      ensures ok ==> HasFinished(before)
      ensures !ok ==> worker in world.runs
    {
      before := db.View();
      ok := Initialize();
      if ok {
        ok := Discover();
      }
      if ok {
        ok := ProcessEntries(concurrency);
      }
      if ok {
        ok := Turn();
      }
      if ok {
        before := db.View();
        ghost var earlier := taken;
        ok := FinishJob();
        if ok {
          assert taken[..|taken| - 1] == earlier;
        }
      }
    }

    /** `finish_job` at the end of a run with no medium under way. */
    method FinishJob() returns (ok: bool)
      requires Valid() && RunIs(Working(map[]))
      modifies this, db
      ensures Valid() && Onward()
      ensures ok ==> worker !in world.runs && FinishedWell(world.tree, old(db.View()), db.View()) && taken == old(taken) + [Finish(worker)]
      ensures !ok ==> worker in world.runs
    {
      Holds();
      ghost var was := world;
      ok := db.FinishJob(worker, world.now);
      if ok {
        FinishTells(was, worker);
        Take(Finish(worker));
      }
    }

    /** `tick`: a job that cannot be finished is given back for another attempt, failed, or released at shutdown. A process
        that dies leaves what it had begun behind. */
    method RunJob(until: Time, concurrency: nat, retry: Option<Time>) returns (outcome: Outcome, ghost before: R.Store)
      requires Valid() && worker !in world.runs
      modifies this, db
      ensures Valid() && Onward()
      ensures outcome == Finished ==> HasFinished(before)
      ensures outcome == Idle ==> worker !in world.runs && !R.Claimable(db.job, world.now)
      ensures outcome == Killed ==> Over()
      ensures outcome == Outcome.Failed ==> worker !in world.runs && !(db.job.status == R.Running && db.job.worker == Some(worker))
    {
      before := db.View();
      var alive, claimed := Claim(until);
      if !claimed {
        return if alive then Idle else Killed, before;
      }
      var ok;
      ok, before := Work(concurrency);
      if ok {
        return Finished, before;
      }
      alive := Turn();
      if !alive {
        return Killed, before;
      }
      GiveBack(retry);
      return Outcome.Failed, before;
    }

    /** The job is given back after an error, or released at shutdown. */
    method GiveBack(retry: Option<Time>)
      requires Valid()
      modifies this`world, this`taken, db
      ensures Valid() && Onward() && worker !in world.runs
      ensures !(db.job.status == R.Running && db.job.worker == Some(worker))
    {
      if outside.stop(calls) {
        db.ReleaseWorker(worker);
        Take(Release(worker));
      } else {
        db.RetryOrFailJob(worker, retry);
        Take(Error(worker, retry));
      }
    }

    /** One row of `recover_journals`: it is completed or aborted, if its job is free by then. */
    method RecoverRow(operation: nat) returns (ok: bool)
      requires Valid()
      modifies this, db
      ensures Valid() && Onward()
      ensures ok ==> operation !in world.store.journal || !R.Recoverable(world.store.job, world.now)
    {
      ok := Turn();
      if ok {
        var event := outside.event(calls);
        if event.Unavailable? {
          return false;
        } else if event.Read? {
          var done: bool;
          ok, done := db.CompletePublish(operation, None, world.now);
          Take(RecoverComplete(operation));
        } else {
          ok := db.AbortJournal(operation, true, None, world.now);
          Take(RecoverAbort(operation));
        }
      }
    }

    /** `recover_journals`: every row found is resolved, if its job is free by then. */
    method RecoverJournals() returns (ok: bool)
      requires Valid()
      modifies this, db
      ensures Valid() && Onward()
    {
      var todo := if R.Recoverable(db.job, world.now) then db.journal.Keys else {};
      ok := true;
      while ok && todo != {}
        invariant Valid() && Onward()
        decreases todo
      {
        var operation :| operation in todo;
        ok := RecoverRow(operation);
        todo := todo - {operation};
      }
    }
  }

  /** An id that is not in use. */
  method Unused(used: set<nat>) returns (id: nat)
    ensures id !in used
  {
    id := 0;
    var rest := used;
    while rest != {}
      invariant rest <= used && forall x | x in used && x !in rest :: x < id
      decreases rest
    {
      var x :| x in rest;
      if id <= x {
        id := x + 1;
      }
      rest := rest - {x};
    }
  }
}
