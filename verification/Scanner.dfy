/** The scan of a directory (apps/indexer/src/scanner.rs): a work list of directories, a bounded set of files in
    flight, and the removal of whatever the scan did not reach. */
module Scanner {
  import opened Base
  import opened Paths
  import opened IndexFiles

  /** The tree under a root, as it stands while it is scanned. */
  datatype Node =
    | File(identity: Identity, read: Read)
    | Dir(opens: bool, lists: bool, entries: seq<Entry>)
    | Link
    | Other

  datatype Entry = Entry(name: Name, node: Node)

  const IGNORED: set<string> := {".git", ".zos", "node_modules", "dist", "coverage"}

  ghost predicate ValidEntries(entries: seq<Entry>)
    decreases entries, 0
  {
    && (forall i | 0 <= i < |entries| :: ValidName(entries[i].name) && ValidNode(entries[i].node))
    && (forall i, j | 0 <= i < j < |entries| :: entries[i].name != entries[j].name)
  }

  /** Names in a directory are proper and distinct. */
  ghost predicate ValidNode(node: Node)
    decreases node, 1
  {
    node.Dir? ==> ValidEntries(node.entries)
  }

  // ----- what a scan is meant to reach

  /** The node at a relative path. */
  function Find(node: Node, rel: Path): Option<Node>
    decreases |rel|
  {
    if rel == [] then Some(node)
    else if !node.Dir? then None
    else
      var child := Child(node.entries, rel[0]);
      if child.None? then None else Find(child.value, rel[1..])
  }

  function Child(entries: seq<Entry>, name: Name): Option<Node> {
    if entries == [] then None
    else if entries[0].name == name then Some(entries[0].node)
    else Child(entries[1..], name)
  }

  /** A regular file with no ignored directory above it. */
  predicate Indexable(node: Node, rel: Path) {
    && rel != [] && Find(node, rel).Some? && Find(node, rel).value.File?
    && forall i | 0 <= i < |rel| - 1 :: rel[i] !in IGNORED
  }

  // ----- the same files, as the traversal meets them

  type Leaf = (Path, Node)

  /** `deep` is off for a scan that is not recursive. */
  ghost function Leaves(dir: Path, entries: seq<Entry>, deep: bool): set<Leaf>
    decreases entries, 0
  {
    if entries == [] then {} else EntryLeaves(dir, entries[0], deep) + Leaves(dir, entries[1..], deep)
  }

  ghost function EntryLeaves(dir: Path, entry: Entry, deep: bool): set<Leaf>
    decreases entry, 1
  {
    var path := dir + [entry.name];
    match entry.node
    case File(_, _) => {(path, entry.node)}
    case Dir(_, _, entries) => if entry.name in IGNORED || !deep then {} else Leaves(path, entries, deep)
    case Link => {}
    case Other => {}
  }

  /** Every leaf is a file strictly below the directory. */
  lemma {:induction false} LeavesBelow(dir: Path, entries: seq<Entry>, deep: bool)
    ensures forall leaf | leaf in Leaves(dir, entries, deep) :: leaf.1.File? && |dir| < |leaf.0| && leaf.0[..|dir|] == dir
    decreases entries, 0
  {
    if entries != [] {
      EntryLeavesBelow(dir, entries[0], deep);
      LeavesBelow(dir, entries[1..], deep);
    }
  }

  lemma {:induction false} EntryLeavesBelow(dir: Path, entry: Entry, deep: bool)
    ensures forall leaf | leaf in EntryLeaves(dir, entry, deep) ::
              && leaf.1.File? && |dir| < |leaf.0| && leaf.0[..|dir|] == dir && leaf.0[|dir|] == entry.name
              && (entry.node.Dir? ==> |leaf.0| > |dir| + 1)
    decreases entry, 1
  {
    if entry.node.Dir? && entry.name !in IGNORED && deep {
      LeavesBelow(dir + [entry.name], entry.node.entries, deep);
      forall leaf | leaf in EntryLeaves(dir, entry, deep)
        ensures leaf.1.File? && |dir| + 1 < |leaf.0| && leaf.0[..|dir|] == dir && leaf.0[|dir|] == entry.name
      {
        assert leaf.0[..|dir| + 1] == dir + [entry.name];
        assert leaf.0[..|dir|] == leaf.0[..|dir| + 1][..|dir|];
      }
    }
  }

  /** What it takes for one entry of a directory to lead to the file at `rel`. */
  ghost predicate EntryHolds(entry: Entry, rel: Path, file: Node) {
    && rel != [] && rel[0] == entry.name && file.File?
    && (if |rel| == 1 then entry.node == file
        else entry.node.Dir? && entry.name !in IGNORED && Indexable(entry.node, rel[1..]) && Find(entry.node, rel[1..]) == Some(file))
  }

  lemma {:induction false} EntryLeafExact(dir: Path, entry: Entry, rel: Path, file: Node)
    requires ValidNode(entry.node)
    ensures (dir + rel, file) in EntryLeaves(dir, entry, true) <==> EntryHolds(entry, rel, file)
    decreases entry, 1
  {
    EntryLeavesBelow(dir, entry, true);
    var path := dir + [entry.name];
    if rel != [] && rel[0] == entry.name {
      assert dir + rel == path + rel[1..];
      assert |rel| == 1 ==> dir + rel == path;
      if entry.node.Dir? && entry.name !in IGNORED {
        LeavesExact(path, entry.node, rel[1..], file);
      }
    }
  }

  lemma {:induction false} EntriesExact(dir: Path, entries: seq<Entry>, rel: Path, file: Node)
    requires ValidEntries(entries)
    ensures (dir + rel, file) in Leaves(dir, entries, true) <==> exists i | 0 <= i < |entries| :: EntryHolds(entries[i], rel, file)
    decreases entries, 0
  {
    if entries != [] {
      EntryLeafExact(dir, entries[0], rel, file);
      var rest := entries[1..];
      assert ValidEntries(rest);
      EntriesExact(dir, rest, rel, file);
      if j :| 0 <= j < |rest| && EntryHolds(rest[j], rel, file) {
        assert EntryHolds(entries[j + 1], rel, file);
      }
      if j :| 0 <= j < |entries| && EntryHolds(entries[j], rel, file) {
        assert j > 0 ==> EntryHolds(rest[j - 1], rel, file);
      }
    }
  }

  lemma {:induction false} ChildExact(entries: seq<Entry>, i: nat)
    requires ValidEntries(entries) && i < |entries|
    ensures Child(entries, entries[i].name) == Some(entries[i].node)
  {
    if i > 0 {
      assert ValidEntries(entries[1..]);
      ChildExact(entries[1..], i - 1);
    }
  }

  lemma {:induction false} ChildFound(entries: seq<Entry>, name: Name) returns (i: nat)
    requires Child(entries, name).Some?
    ensures i < |entries| && entries[i] == Entry(name, Child(entries, name).value)
  {
    if entries[0].name == name {
      i := 0;
    } else {
      i := ChildFound(entries[1..], name);
      i := i + 1;
    }
  }

  /** The leaves met below a directory are its indexable files, each with its own node. */
  lemma {:induction false} LeavesExact(dir: Path, node: Node, rel: Path, file: Node)
    requires node.Dir? && ValidNode(node)
    ensures (dir + rel, file) in Leaves(dir, node.entries, true) <==> Indexable(node, rel) && Find(node, rel) == Some(file)
    decreases node, 0
  {
    EntriesExact(dir, node.entries, rel, file);
    if i :| 0 <= i < |node.entries| && EntryHolds(node.entries[i], rel, file) {
      ChildExact(node.entries, i);
      HeldIsIndexable(node, i, rel, file);
    }
    if Indexable(node, rel) && Find(node, rel) == Some(file) {
      var i := ChildFound(node.entries, rel[0]);
      IndexableIsHeld(node, i, rel, file);
    }
  }

  lemma HeldIsIndexable(node: Node, i: nat, rel: Path, file: Node)
    requires node.Dir? && i < |node.entries| && Child(node.entries, node.entries[i].name) == Some(node.entries[i].node)
    requires EntryHolds(node.entries[i], rel, file)
    ensures Indexable(node, rel) && Find(node, rel) == Some(file)
  {
    if |rel| > 1 {
      forall k | 0 <= k < |rel| - 1 ensures rel[k] !in IGNORED {
        assert k > 0 ==> rel[k] == rel[1..][k - 1];
      }
    }
  }

  lemma IndexableIsHeld(node: Node, i: nat, rel: Path, file: Node)
    requires node.Dir? && i < |node.entries|
    requires Indexable(node, rel) && Find(node, rel) == Some(file)
    requires node.entries[i] == Entry(rel[0], Child(node.entries, rel[0]).value)
    ensures EntryHolds(node.entries[i], rel, file)
  {
    if |rel| > 1 {
      forall k | 0 <= k < |rel[1..]| - 1 ensures rel[1..][k] !in IGNORED {
        assert rel[1..][k] == rel[k + 1];
      }
      assert rel[0] !in IGNORED;
    }
  }

  lemma {:induction false} FlatIsPart(dir: Path, entries: seq<Entry>)
    ensures Leaves(dir, entries, false) <= Leaves(dir, entries, true)
  {
    if entries != [] { FlatIsPart(dir, entries[1..]); }
  }

  /** Leaves are files at distinct, valid paths below the target. */
  ghost predicate GoodLeaves(target: Path, all: set<Leaf>) {
    && (forall a | a in all :: a.1.File? && SameOrAncestor(Text(target), Text(a.0)))
    && (forall a, b | a in all && b in all && Text(a.0) == Text(b.0) :: a == b)
  }

  lemma {:induction false} LeafPathsValid(dir: Path, entries: seq<Entry>, deep: bool)
    requires ValidPath(dir) && ValidEntries(entries)
    ensures forall leaf | leaf in Leaves(dir, entries, deep) :: ValidPath(leaf.0)
    decreases entries, 0
  {
    if entries != [] {
      var entry, rest := entries[0], entries[1..];
      assert ValidEntries(rest) && ValidName(entry.name) && ValidNode(entry.node);
      LeafPathsValid(dir, rest, deep);
      if entry.node.Dir? {
        LeafPathsValid(dir + [entry.name], entry.node.entries, deep);
      }
    }
  }

  lemma LeavesAreGood(target: Path, node: Node, deep: bool)
    requires ValidPath(target) && node.Dir? && ValidNode(node)
    ensures GoodLeaves(target, Leaves(target, node.entries, deep))
  {
    var all := Leaves(target, node.entries, deep);
    LeavesBelow(target, node.entries, deep);
    LeafPathsValid(target, node.entries, deep);
    FlatIsPart(target, node.entries);
    forall a | a in all ensures SameOrAncestor(Text(target), Text(a.0)) {
      AncestorIsPrefix(target, a.0);
    }
    forall a, b | a in all && b in all && Text(a.0) == Text(b.0) ensures a == b {
      TextInjective(a.0, b.0);
      var rel := a.0[|target|..];
      assert a.0 == target + rel;
      LeavesExact(target, node, rel, a.1);
      LeavesExact(target, node, rel, b.1);
    }
  }

  /** Said of texts: the leaves of a recursive scan are the indexable files below the target. */
  lemma LeavesMeaning(target: Path, node: Node, p: string)
    requires ValidPath(target) && node.Dir? && ValidNode(node)
    ensures (exists a | a in Leaves(target, node.entries, true) :: Text(a.0) == p) <==>
            (exists rel: Path :: Indexable(node, rel) && Text(target + rel) == p)
  {
    if a :| a in Leaves(target, node.entries, true) && Text(a.0) == p {
      LeavesBelow(target, node.entries, true);
      var rel := a.0[|target|..];
      assert a.0 == target + rel;
      LeavesExact(target, node, rel, a.1);
    }
    if rel: Path :| Indexable(node, rel) && Text(target + rel) == p {
      LeavesExact(target, node, rel, Find(node, rel).value);
      assert (target + rel, Find(node, rel).value) in Leaves(target, node.entries, true);
    }
  }

  // ----- what has been done so far

  /** `files` after the leaves in `done` were processed, from `before`. `clean` means that none of them failed. */
  ghost predicate Progress(before: map<string, FileRow>, files: map<string, FileRow>, target: Path, generation: Option<nat>,
                           done: set<Leaf>, clean: bool)
  {
    && before.Keys <= files.Keys
    && (forall p | p in files && !SameOrAncestor(Text(target), p) :: p in before && files[p] == before[p])
    && (clean ==> forall a | a in done :: a.1.File? && Text(a.0) in files && files[Text(a.0)].identity == a.1.identity
                                          && (generation.Some? ==> files[Text(a.0)].generation == generation))
    && (generation.Some? ==> forall p | p in files && files[p].generation == generation :: exists a | a in done :: Text(a.0) == p)
  }

  lemma ProgressStep(before: map<string, FileRow>, ix: Index, target: Path, generation: Option<nat>, all: set<Leaf>,
                     done: set<Leaf>, clean: bool, leaf: Leaf, newId: nat)
    requires Progress(before, ix.files, target, generation, done, clean)
    requires GoodLeaves(target, all) && done <= all && leaf in all
    ensures leaf.1.File?
    ensures Progress(before, ProcessFile(ix, Text(leaf.0), leaf.1.identity, leaf.1.read, generation, newId).files, target, generation,
                     done + {leaf}, clean && !ProcessFails(ix, Text(leaf.0), leaf.1.identity, leaf.1.read))
  {
    var path := Text(leaf.0);
    var files := ProcessFile(ix, path, leaf.1.identity, leaf.1.read, generation, newId).files;
    assert forall p | p in files && p != path :: p in ix.files && files[p] == ix.files[p];
    if clean && !ProcessFails(ix, path, leaf.1.identity, leaf.1.read) {
      forall a | a in done + {leaf}
        ensures Text(a.0) in files && files[Text(a.0)].identity == a.1.identity
                && (generation.Some? ==> files[Text(a.0)].generation == generation)
      {
        if a != leaf { assert Text(a.0) != path; }
      }
    }
    if generation.Some? {
      forall p | p in files && files[p].generation == generation ensures exists a | a in done + {leaf} :: Text(a.0) == p {
        if p == path {
          assert leaf in done + {leaf};
        } else {
          var a :| a in done && Text(a.0) == p;
          assert a in done + {leaf};
        }
      }
    }
  }

  /** What a clean scan that reached every leaf leaves after its clean-up. */
  lemma CleanupExact(before: map<string, FileRow>, ix: Index, target: Path, generation: nat, all: set<Leaf>)
    requires Progress(before, ix.files, target, Some(generation), all, true) && GoodLeaves(target, all)
    ensures var files := DeletePaths(ix, Unreached(ix, Text(target), generation)).files;
            && (forall p | p in files && SameOrAncestor(Text(target), p) :: exists a | a in all :: Text(a.0) == p)
            && (forall a | a in all :: a.1.File? && Text(a.0) in files && files[Text(a.0)].identity == a.1.identity)
            && (forall p | p in files && !SameOrAncestor(Text(target), p) :: p in before && files[p] == before[p])
            && (forall p | p in before && !SameOrAncestor(Text(target), p) :: p in files)
  {
    var files := DeletePaths(ix, Unreached(ix, Text(target), generation)).files;
    forall p | p in files && SameOrAncestor(Text(target), p) ensures exists a | a in all :: Text(a.0) == p {
      assert p !in Unreached(ix, Text(target), generation);
    }
  }

  // ----- the work list

  type Item = (Path, Node)

  ghost function ItemLeaves(item: Item, deep: bool): set<Leaf> {
    if item.1.Dir? then Leaves(item.0, item.1.entries, deep) else {}
  }

  ghost function QueueLeaves(queue: seq<Item>, deep: bool): set<Leaf> {
    if queue == [] then {} else ItemLeaves(queue[0], deep) + QueueLeaves(queue[1..], deep)
  }

  lemma {:induction false} QueueLeavesAppend(queue: seq<Item>, item: Item, deep: bool)
    ensures QueueLeaves(queue + [item], deep) == QueueLeaves(queue, deep) + ItemLeaves(item, deep)
  {
    if queue == [] {
      assert queue + [item] == [item];
    } else {
      QueueLeavesAppend(queue[1..], item, deep);
      assert (queue + [item])[1..] == queue[1..] + [item];
    }
  }

  ghost function Weight(entries: seq<Entry>): nat {
    if entries == [] then 0
    else (if entries[0].node.Dir? then 1 + Weight(entries[0].node.entries) else 0) + Weight(entries[1..])
  }

  ghost function QueueWeight(queue: seq<Item>): nat {
    if queue == [] then 0
    else 1 + (if queue[0].1.Dir? then Weight(queue[0].1.entries) else 0) + QueueWeight(queue[1..])
  }

  lemma {:induction false} QueueWeightAppend(queue: seq<Item>, item: Item)
    ensures QueueWeight(queue + [item]) == QueueWeight(queue) + 1 + (if item.1.Dir? then Weight(item.1.entries) else 0)
  {
    if queue == [] {
      assert queue + [item] == [item];
    } else {
      QueueWeightAppend(queue[1..], item);
      assert (queue + [item])[1..] == queue[1..] + [item];
    }
  }

  // ----- the scan

  ghost predicate IdsBelow(ix: Index, n: nat) { forall p | p in ix.files :: ix.files[p].id < n }

  lemma IdsStep(ix: Index, path: string, identity: Identity, read: Read, generation: Option<nat>, n: nat)
    requires IdsBelow(ix, n)
    ensures !UsedId(ix, n) && IdsBelow(ProcessFile(ix, path, identity, read, generation, n), n + 1)
  {}

  /** The reads of these leaves are what the extraction of their files gives. */
  ghost predicate ReadsAgree(all: set<Leaf>, x: Extraction) {
    forall a | a in all && a.1.File? && a.1.read.Extractable? :: a.1.read.e == x(Text(a.0), a.1.identity)
  }

  class Scan {
    const db: IndexDb
    const target: Path
    const recursive: bool
    const generation: Option<nat>
    const concurrency: nat
    /** Whether the scan is stopped, by a shutdown or a lost lease, at its `k`-th turn. */
    const stop: nat -> bool
    var turns: nat
    var nextId: nat
    /** Files whose processing has been started and not awaited yet. */
    var pending: set<Leaf>
    var failures: nat
    var complete: bool
    ghost const before: Index
    ghost const all: set<Leaf>
    ghost const x: Extraction
    ghost var done: set<Leaf>

    constructor (db: IndexDb, target: Path, recursive: bool, generation: nat, concurrency: nat, stop: nat -> bool, nextId: nat,
                 ghost all: set<Leaf>, ghost x: Extraction)
      requires GoodLeaves(target, all) && ReadsAgree(all, x) && Inv(db.View(), x) && IdsBelow(db.View(), nextId)
      requires forall p | p in db.files :: db.files[p].generation != Some(generation)
      ensures this.db == db && this.target == target && this.recursive == recursive && this.concurrency == concurrency
      ensures this.generation == if recursive then Some(generation) else None
      ensures this.all == all && this.x == x && before == db.View()
      ensures Valid() && done == {} && pending == {} && failures == 0 && complete
    {
      this.db, this.target, this.recursive, this.concurrency, this.nextId := db, target, recursive, concurrency, nextId;
      this.generation := if recursive then Some(generation) else None;
      this.stop, this.turns := stop, 0;
      this.all, this.x, this.before := all, x, db.View();
      pending, failures, complete, done := {}, 0, true, {};
    }

    /** What the processed files have made of the tables. */
    ghost predicate Sound()
      reads this`done, this`failures, this`nextId, db
    {
      && (generation.Some? <==> recursive)
      && GoodLeaves(target, all) && ReadsAgree(all, x) && done <= all
      && Progress(before.files, db.files, target, generation, done, failures == 0)
      && Inv(db.View(), x) && IdsBelow(db.View(), nextId)
    }

    ghost predicate Valid()
      reads this, db
    {
      Sound() && pending <= all
    }

    /** Everything found so far is processed, in flight, or still on the work list. */
    ghost predicate Reaches(rest: set<Leaf>)
      reads this
    {
      rest <= all && (complete ==> all <= done + pending + rest)
    }

    /** Waits for one of the files in flight. */
    method Await()
      requires Valid() && pending != {}
      modifies this`pending, this`failures, this`done, this`nextId, db
      ensures Valid() && pending < old(pending)
      ensures done + pending == old(done) + old(pending) && failures >= old(failures)
    {
      var leaf :| leaf in pending;
      Process(leaf);
      pending := pending - {leaf};
    }

    method Process(leaf: Leaf)
      requires Sound() && leaf in all
      modifies this`failures, this`done, this`nextId, db
      ensures Sound() && done == old(done) + {leaf} && failures >= old(failures)
    {
      var path := Text(leaf.0);
      ghost var was := db.View();
      ProgressStep(before.files, was, target, generation, all, done, failures == 0, leaf, nextId);
      IdsStep(was, path, leaf.1.identity, leaf.1.read, generation, nextId);
      ProcessKeepsCache(was, x, path, leaf.1.identity, leaf.1.read, generation, nextId);
      var failed := db.Process(path, leaf.1.identity, leaf.1.read, generation, nextId);
      done := done + {leaf};
      nextId := nextId + 1;
      if failed { failures := failures + 1; }
    }

    /** One directory entry: skip it, put it on the work list, or start processing it. */
    method Visit(directories: seq<Item>, dir: Path, entry: Entry, ghost rest: set<Leaf>) returns (longer: seq<Item>)
      requires Valid() && Reaches(QueueLeaves(directories, recursive) + EntryLeaves(dir, entry, recursive) + rest)
      requires failures == 0 ==> complete
      modifies this`pending, this`failures, this`done, this`nextId, this`complete, db
      ensures Valid() && Reaches(QueueLeaves(longer, recursive) + rest)
      ensures QueueWeight(longer) <= QueueWeight(directories) + if entry.node.Dir? then 1 + Weight(entry.node.entries) else 0
      ensures failures == 0 ==> complete
    {
      longer := directories;
      var path := dir + [entry.name];
      match entry.node
      case Link =>
      case Other =>
      case Dir(opens, _, entries) =>
        if entry.name in IGNORED || !recursive {
        } else if opens {
          longer := directories + [(path, entry.node)];
          QueueLeavesAppend(directories, (path, entry.node), recursive);
          QueueWeightAppend(directories, (path, entry.node));
          assert ItemLeaves((path, entry.node), recursive) == EntryLeaves(dir, entry, recursive);
        } else {
          complete := false;
          failures := failures + 1;
        }
      case File(_, _) =>
        assert EntryLeaves(dir, entry, recursive) == {(path, entry.node)};
        Start((path, entry.node), QueueLeaves(directories, recursive) + rest);
    }

    /** Starts processing a file, and waits when enough of them are in flight. */
    method Start(leaf: Leaf, ghost rest: set<Leaf>)
      requires Valid() && Reaches({leaf} + rest)
      requires failures == 0 ==> complete
      modifies this`pending, this`failures, this`done, this`nextId, db
      ensures Valid() && Reaches(rest)
      ensures failures == 0 ==> complete
    {
      ghost var found := done + pending + {leaf};
      pending := pending + {leaf};
      assert Sound() && done + pending == found;
      assert complete ==> all <= found + rest;
      if |pending| >= concurrency {
        Await();
        assert done + pending == found;
      }
    }

    /** `scan` on a directory, from the work list to the clean-up. `verified` is the final check that the source did not move. */
    method Run(node: Node, verified: bool) returns (ok: bool)
      requires Valid() && done == {} && pending == {} && failures == 0 && complete
      requires node.Dir? && ValidPath(target) && ValidNode(node) && all == Leaves(target, node.entries, recursive)
      modifies this, db
      ensures Inv(db.View(), x)
      // An error removes no row.
      ensures !ok || !recursive ==> before.files.Keys <= db.files.Keys
      // Rows outside the target are not touched.
      ensures forall p | p in db.files && !SameOrAncestor(Text(target), p) :: p in before.files && db.files[p] == before.files[p]
      ensures forall p | p in before.files && !SameOrAncestor(Text(target), p) :: p in db.files
      // After a recursive scan the rows below the target are exactly its indexable files, at their present identity.
      ensures ok && recursive ==>
                forall p | p in db.files && SameOrAncestor(Text(target), p) :: exists a | a in all :: Text(a.0) == p
      ensures ok ==> forall a | a in all :: a.1.File? && Text(a.0) in db.files && db.files[Text(a.0)].identity == a.1.identity
    {
      var stopped := Traverse(node);
      if stopped { return false; }
      stopped := Drain();
      if stopped || !verified || !complete || failures > 0 { return false; }
      if generation.Some? {
        Cleanup();
      }
      return true;
    }

    /** The loop over the work list of directories. */
    method Traverse(node: Node) returns (stopped: bool)
      requires Valid() && done == {} && pending == {} && failures == 0 && complete
      requires node.Dir? && all == Leaves(target, node.entries, recursive)
      modifies this`pending, this`failures, this`done, this`nextId, this`complete, this`turns, db
      ensures Valid() && (!stopped ==> Reaches({})) && (failures == 0 ==> complete)
    {
      var directories: seq<Item> := [(target, node)];
      assert QueueLeaves(directories, recursive) == all + QueueLeaves([], recursive) == all by {
        assert directories[1..] == [];
      }
      while directories != []
        invariant Valid() && Reaches(QueueLeaves(directories, recursive))
        invariant failures == 0 ==> complete
        decreases QueueWeight(directories)
      {
        stopped := Stopped();
        if stopped { return; }
        var (dir, item) := directories[0];
        directories := directories[1..];
        if !item.Dir? || !item.opens || !item.lists {
          complete := false;
          failures := failures + 1;
        } else {
          stopped, directories := List(directories, dir, item.entries);
          if stopped { return; }
        }
      }
      stopped := false;
    }

    /** Waits for the files still in flight. */
    method Drain() returns (stopped: bool)
      requires Valid() && Reaches({}) && (failures == 0 ==> complete)
      modifies this`pending, this`failures, this`done, this`nextId, this`turns, db
      ensures Valid() && (failures == 0 ==> complete)
      ensures !stopped && complete ==> done == all
    {
      while pending != {}
        invariant Valid() && Reaches({})
        invariant failures == 0 ==> complete
        decreases pending
      {
        stopped := Stopped();
        if stopped { return; }
        Await();
      }
      stopped := false;
    }

    /** `cleanup_generation`, after everything was reached without a failure. */
    method Cleanup()
      requires Valid() && done == all && failures == 0 && generation.Some?
      modifies db
      ensures Inv(db.View(), x)
      ensures forall p | p in db.files && !SameOrAncestor(Text(target), p) :: p in before.files && db.files[p] == before.files[p]
      ensures forall p | p in before.files && !SameOrAncestor(Text(target), p) :: p in db.files
      ensures forall p | p in db.files && SameOrAncestor(Text(target), p) :: exists a | a in all :: Text(a.0) == p
      ensures forall a | a in all :: a.1.File? && Text(a.0) in db.files && db.files[Text(a.0)].identity == a.1.identity
    {
      CleanupExact(before.files, db.View(), target, generation.value, all);
      DeleteKeepsCache(db.View(), x, Unreached(db.View(), Text(target), generation.value));
      var _ := db.CleanupGeneration(Text(target), generation.value);
    }

    /** The entries of one listed directory. */
    method List(directories: seq<Item>, dir: Path, entries: seq<Entry>) returns (stopped: bool, longer: seq<Item>)
      requires Valid() && Reaches(QueueLeaves(directories, recursive) + Leaves(dir, entries, recursive))
      requires failures == 0 ==> complete
      modifies this`pending, this`failures, this`done, this`nextId, this`complete, this`turns, db
      ensures Valid() && (!stopped ==> Reaches(QueueLeaves(longer, recursive)))
      ensures QueueWeight(longer) <= QueueWeight(directories) + Weight(entries)
      ensures failures == 0 ==> complete
    {
      longer := directories;
      for i := 0 to |entries|
        invariant Valid() && Reaches(QueueLeaves(longer, recursive) + Leaves(dir, entries[i..], recursive))
        invariant QueueWeight(longer) + Weight(entries[i..]) <= QueueWeight(directories) + Weight(entries)
        invariant failures == 0 ==> complete
      {
        stopped := Stopped();
        if stopped { return; }
        assert entries[i..][1..] == entries[i + 1..];
        longer := Visit(longer, dir, entries[i], Leaves(dir, entries[i + 1..], recursive));
      }
      stopped := false;
    }

    method Stopped() returns (stopped: bool)
      modifies this`turns
      ensures stopped == stop(old(turns)) && turns == old(turns) + 1
    {
      stopped, turns := stop(turns), turns + 1;
    }
  }

  /** The scan's row for `p`, if it has one, is that of an indexable file. */
  ghost predicate IsIndexable(node: Node, target: Path, p: string) {
    exists rel: Path :: Indexable(node, rel) && Text(target + rel) == p
  }

  /** `scan` on a directory. A recursive scan that succeeds leaves, under the target, exactly one row for each regular file
      with no ignored directory above it, at that file's present identity. One that fails, or is stopped, removes no row. */
  method ScanDirectory(db: IndexDb, target: Path, node: Node, recursive: bool, generation: nat, concurrency: nat, stop: nat -> bool,
                       nextId: nat, verified: bool, ghost x: Extraction) returns (ok: bool)
    requires ValidPath(target) && node.Dir? && ValidNode(node) && ReadsAgree(Leaves(target, node.entries, recursive), x)
    requires Inv(db.View(), x) && IdsBelow(db.View(), nextId)
    requires forall p | p in db.files :: db.files[p].generation != Some(generation)
    modifies db
    ensures Inv(db.View(), x)
    ensures !ok || !recursive ==> old(db.files).Keys <= db.files.Keys
    ensures forall p | !SameOrAncestor(Text(target), p) :: p in db.files <==> p in old(db.files)
    ensures forall p | p in db.files && !SameOrAncestor(Text(target), p) :: db.files[p] == old(db.files)[p]
    ensures ok && recursive ==> forall p | SameOrAncestor(Text(target), p) :: p in db.files <==> IsIndexable(node, target, p)
    ensures ok && recursive ==>
              forall rel: Path | Indexable(node, rel) ::
                Text(target + rel) in db.files && db.files[Text(target + rel)].identity == Find(node, rel).value.identity
  {
    LeavesAreGood(target, node, recursive);
    var scan := new Scan(db, target, recursive, generation, concurrency, stop, nextId, Leaves(target, node.entries, recursive), x);
    ok := scan.Run(node, verified);
    if ok && recursive {
      ExactlyIndexable(target, node, db.files);
    }
  }

  /** Rows that are the leaves of a recursive scan are the indexable files. */
  lemma ExactlyIndexable(target: Path, node: Node, files: map<string, FileRow>)
    requires ValidPath(target) && node.Dir? && ValidNode(node)
    requires forall p | p in files && SameOrAncestor(Text(target), p) ::
               exists a | a in Leaves(target, node.entries, true) :: Text(a.0) == p
    requires forall a | a in Leaves(target, node.entries, true) ::
               a.1.File? && Text(a.0) in files && files[Text(a.0)].identity == a.1.identity
    ensures forall p | SameOrAncestor(Text(target), p) :: p in files <==> IsIndexable(node, target, p)
    ensures forall rel: Path | Indexable(node, rel) ::
              Text(target + rel) in files && files[Text(target + rel)].identity == Find(node, rel).value.identity
  {
    forall p | SameOrAncestor(Text(target), p)
      ensures p in files <==> IsIndexable(node, target, p)
    {
      LeavesMeaning(target, node, p);
    }
    forall rel: Path | Indexable(node, rel)
      ensures Text(target + rel) in files && files[Text(target + rel)].identity == Find(node, rel).value.identity
    {
      LeavesExact(target, node, rel, Find(node, rel).value);
      assert (target + rel, Find(node, rel).value) in Leaves(target, node.entries, true);
    }
  }

  // ----- targets that are not directories to be traversed

  /** `ignored_ancestor`: the shortest leading part of the path that ends in an ignored name. */
  method IgnoredAncestor(path: Path) returns (ignored: Option<Path>)
    ensures ignored == None <==> forall i | 0 <= i < |path| :: path[i] !in IGNORED
    ensures ignored.Some? ==>
              && 0 < |ignored.value| <= |path| && ignored.value == path[..|ignored.value|]
              && path[|ignored.value| - 1] in IGNORED
              && forall i | 0 <= i < |ignored.value| - 1 :: path[i] !in IGNORED
  {
    var prefix: Path := [];
    for i := 0 to |path|
      invariant prefix == path[..i]
      invariant forall j | 0 <= j < i :: path[j] !in IGNORED
    {
      prefix := prefix + [path[i]];
      if path[i] in IGNORED { return Some(prefix); }
    }
    return None;
  }

  /** What opening the target as a file gives. */
  datatype Found = Regular(identity: Identity, read: Read) | Missing | Blocked

  /** `scan` for an ignored path, a file, or a path that is gone. */
  method ScanPath(db: IndexDb, target: Path, found: Found, recursive: bool, verified: bool, newId: nat) returns (ok: bool)
    modifies db
    ensures var was, text := old(db.View()), Text(target);
            if exists i | 0 <= i < |target| :: target[i] in IGNORED then
              && ok == verified
              && exists n | 0 < n <= |target| && target[n - 1] in IGNORED ::
                   && (forall i | 0 <= i < n - 1 :: target[i] !in IGNORED)
                   && db.View() == if ok then DeletePaths(was, Selected(was, Text(target[..n]), true)) else was
            else match found
              case Regular(identity, read) =>
                && ok == (verified && !ProcessFails(was, text, identity, read))
                && db.View() == ProcessFile(was, text, identity, read, None, newId)
              case Missing => ok == verified && db.View() == if ok then DeletePaths(was, Selected(was, text, recursive)) else was
              case Blocked => !ok && db.View() == was
  {
    var ignored := IgnoredAncestor(target);
    if ignored.Some? {
      if verified {
        var _ := db.RemovePath(Text(ignored.value), true);
      }
      return verified;
    }
    match found
    case Regular(identity, read) =>
      var failed := db.Process(Text(target), identity, read, None, newId);
      return verified && !failed;
    case Missing =>
      if verified {
        var _ := db.RemovePath(Text(target), recursive);
      }
      return verified;
    case Blocked => return false;
  }
}
