/** One root's index tables, `indexed_files` and `indexed_content_fts` (apps/indexer/src/db.rs), and the content cache
    they form: a file is extracted again only when its identity has changed. */
module IndexFiles {
  import opened Base
  import opened Paths

  datatype Identity = Identity(device: nat, inode: nat, size: nat, mtime: int, ctime: int)

  datatype Status = Ready | Skipped | Stale | Error

  datatype FileRow = FileRow(id: nat, identity: Identity, generation: Option<nat>, status: Status)

  datatype Extracted = Extracted(ready: bool, body: string)

  /** Rows by path, and the content rows of each file id. */
  datatype Index = Index(files: map<string, FileRow>, content: map<nat, seq<string>>)

  /** What a file's text is. An identity pins the content, so this depends on nothing else. */
  type Extraction = (string, Identity) -> Extracted

  // ----- the statements

  function Coalesce(generation: Option<nat>, before: Option<nat>): Option<nat> {
    if generation.Some? then generation else before
  }

  function RowId(ix: Index, path: string, newId: nat): nat { if path in ix.files then ix.files[path].id else newId }

  function PublishFile(ix: Index, path: string, identity: Identity, generation: Option<nat>, newId: nat, e: Extracted): Index {
    var id := RowId(ix, path, newId);
    var before := if path in ix.files then ix.files[path].generation else None;
    Index(ix.files[path := FileRow(id, identity, Coalesce(generation, before), if e.ready then Ready else Skipped)],
          ix.content[id := [e.body]])
  }

  function RecordError(ix: Index, path: string, identity: Identity, generation: Option<nat>, newId: nat): Index {
    if path in ix.files then
      var row := ix.files[path];
      ix.(files := ix.files[path := FileRow(row.id, identity, Coalesce(generation, row.generation), if row.id in ix.content then Stale else Error)])
    else ix.(files := ix.files[path := FileRow(newId, identity, generation, Error)])
  }

  function TouchGeneration(ix: Index, path: string, generation: nat): Index {
    if path in ix.files then ix.(files := ix.files[path := ix.files[path].(generation := Some(generation))]) else ix
  }

  function IdsOf(ix: Index, paths: set<string>): set<nat> { set p | p in paths && p in ix.files :: ix.files[p].id }

  /** `delete_ids` on the rows of the given paths. */
  function DeletePaths(ix: Index, paths: set<string>): Index {
    Index(ix.files - paths, ix.content - IdsOf(ix, paths))
  }

  /** `selected_ids` for a removed path. */
  function Selected(ix: Index, path: string, recursive: bool): set<string> {
    set p | p in ix.files && if recursive then SameOrAncestor(path, p) else p == path
  }

  /** `selected_ids` for the rows a scan generation did not reach. */
  function Unreached(ix: Index, path: string, generation: nat): set<string> {
    set p | p in ix.files && SameOrAncestor(path, p) && ix.files[p].generation != Some(generation)
  }

  // ----- what is claimed

  ghost predicate UsedId(ix: Index, id: nat) { exists p | p in ix.files :: ix.files[p].id == id }

  /** A ready or skipped row has exactly one content row, the extraction of the file at the recorded identity. */
  ghost predicate Fresh(ix: Index, x: Extraction) {
    forall p | p in ix.files && (ix.files[p].status == Ready || ix.files[p].status == Skipped) ::
      var row := ix.files[p];
      && row.id in ix.content && ix.content[row.id] == [x(p, row.identity).body]
      && (row.status == Ready <==> x(p, row.identity).ready)
  }

  /** No content row outlives its file, and a file never has two. */
  ghost predicate NoOrphans(ix: Index) {
    forall id | id in ix.content :: |ix.content[id]| == 1 && UsedId(ix, id)
  }

  ghost predicate Inv(ix: Index, x: Extraction) {
    && Fresh(ix, x) && NoOrphans(ix)
    && (forall p, q | p in ix.files && q in ix.files && ix.files[p].id == ix.files[q].id :: p == q)
  }

  lemma PublishKeepsCache(ix: Index, x: Extraction, path: string, identity: Identity, generation: Option<nat>, newId: nat)
    requires Inv(ix, x) && !UsedId(ix, newId)
    ensures Inv(PublishFile(ix, path, identity, generation, newId, x(path, identity)), x)
  {
    var r := PublishFile(ix, path, identity, generation, newId, x(path, identity));
    assert r.files[path].id == RowId(ix, path, newId);
    forall id | id in r.content ensures |r.content[id]| == 1 && UsedId(r, id) {
      if id != RowId(ix, path, newId) {
        assert UsedId(ix, id);
        var p :| p in ix.files && ix.files[p].id == id;
        assert p in r.files && r.files[p].id == id;
      }
    }
  }

  /** A failed extraction changes no stored body, and the row stops counting as fresh. */
  lemma ErrorKeepsCache(ix: Index, x: Extraction, path: string, identity: Identity, generation: Option<nat>, newId: nat)
    requires Inv(ix, x) && !UsedId(ix, newId)
    ensures Inv(RecordError(ix, path, identity, generation, newId), x)
    ensures RecordError(ix, path, identity, generation, newId).content == ix.content
  {
    var r := RecordError(ix, path, identity, generation, newId);
    forall id | id in r.content ensures UsedId(r, id) {
      assert UsedId(ix, id);
      var p :| p in ix.files && ix.files[p].id == id;
      assert p in r.files && r.files[p].id == id;
    }
  }

  lemma TouchKeepsCache(ix: Index, x: Extraction, path: string, generation: nat)
    requires Inv(ix, x)
    ensures Inv(TouchGeneration(ix, path, generation), x)
  {
    var r := TouchGeneration(ix, path, generation);
    forall id | id in r.content ensures UsedId(r, id) {
      assert UsedId(ix, id);
      var p :| p in ix.files && ix.files[p].id == id;
      assert p in r.files && r.files[p].id == id;
    }
  }

  lemma DeleteKeepsCache(ix: Index, x: Extraction, paths: set<string>)
    requires Inv(ix, x)
    ensures Inv(DeletePaths(ix, paths), x)
  {
    var r := DeletePaths(ix, paths);
    forall p | p in r.files ensures r.files[p].id !in IdsOf(ix, paths) {}
    forall id | id in r.content ensures UsedId(r, id) {
      assert UsedId(ix, id);
      var p :| p in ix.files && ix.files[p].id == id;
      assert p !in paths;
      assert p in r.files && r.files[p].id == id;
    }
  }

  // ----- whole histories

  /** One database call of any worker; extraction results are what `x` says about the identity they are stored under. */
  datatype Call =
    | Publish(path: string, identity: Identity, generation: Option<nat>, newId: nat)
    | Fail(path: string, identity: Identity, generation: Option<nat>, newId: nat)
    | Touch(path: string, reached: nat)
    | Remove(path: string, recursive: bool)
    | Cleanup(path: string, reached: nat)

  ghost function Run(ix: Index, calls: seq<Call>, x: Extraction): Index {
    if calls == [] then ix
    else
      var before := Run(ix, calls[..|calls| - 1], x);
      match calls[|calls| - 1]
      case Publish(path, identity, generation, newId) => PublishFile(before, path, identity, generation, newId, x(path, identity))
      case Fail(path, identity, generation, newId) => RecordError(before, path, identity, generation, newId)
      case Touch(path, generation) => TouchGeneration(before, path, generation)
      case Remove(path, recursive) => DeletePaths(before, Selected(before, path, recursive))
      case Cleanup(path, generation) => DeletePaths(before, Unreached(before, path, generation))
  }

  /** New ids are new. */
  ghost predicate FreshIds(ix: Index, calls: seq<Call>, x: Extraction) {
    forall n | 0 <= n < |calls| && (calls[n].Publish? || calls[n].Fail?) :: !UsedId(Run(ix, calls[..n], x), calls[n].newId)
  }

  /** Whatever calls were made, in whatever order: ready and skipped rows hold the extraction of their file at the
      recorded identity, and no content row is orphaned. */
  lemma {:induction false} CacheAgrees(calls: seq<Call>, x: Extraction)
    requires FreshIds(Index(map[], map[]), calls, x)
    ensures Inv(Run(Index(map[], map[]), calls, x), x)
  {
    var empty := Index(map[], map[]);
    if calls != [] {
      var n := |calls| - 1;
      var init, last := calls[..n], calls[n];
      forall m | 0 <= m < |init| && (init[m].Publish? || init[m].Fail?) ensures !UsedId(Run(empty, init[..m], x), init[m].newId) {
        assert init[..m] == calls[..m] && init[m] == calls[m];
      }
      CacheAgrees(init, x);
      var before := Run(empty, init, x);
      match last
      case Publish(path, identity, generation, newId) => PublishKeepsCache(before, x, path, identity, generation, newId);
      case Fail(path, identity, generation, newId) => ErrorKeepsCache(before, x, path, identity, generation, newId);
      case Touch(path, generation) => TouchKeepsCache(before, x, path, generation);
      case Remove(path, recursive) => DeleteKeepsCache(before, x, Selected(before, path, recursive));
      case Cleanup(path, generation) => DeleteKeepsCache(before, x, Unreached(before, path, generation));
    }
  }

  // ----- processing one file

  /** What reading a file gives: its text, an extractor error, or a file that cannot be read or changed meanwhile. */
  datatype Read = Extractable(e: Extracted) | Unextractable | Unreadable

  /** The test that lets `process_file` skip the extraction. */
  predicate Cached(ix: Index, path: string, identity: Identity) {
    path in ix.files && ix.files[path].identity == identity && ix.files[path].id in ix.content
  }

  function ProcessFile(ix: Index, path: string, identity: Identity, read: Read, generation: Option<nat>, newId: nat): Index {
    if read.Unreadable? then ix
    else if Cached(ix, path, identity) then
      if generation.Some? then TouchGeneration(ix, path, generation.value) else ix
    else if read.Extractable? then PublishFile(ix, path, identity, generation, newId, read.e)
    else RecordError(ix, path, identity, generation, newId)
  }

  /** Whether the outcome is counted as a failure. */
  predicate ProcessFails(ix: Index, path: string, identity: Identity, read: Read) {
    read.Unreadable? || (read.Unextractable? && !Cached(ix, path, identity))
  }

  lemma ProcessKeepsCache(ix: Index, x: Extraction, path: string, identity: Identity, read: Read, generation: Option<nat>, newId: nat)
    requires Inv(ix, x) && !UsedId(ix, newId) && (read.Extractable? ==> read.e == x(path, identity))
    ensures Inv(ProcessFile(ix, path, identity, read, generation, newId), x)
  {
    if !read.Unreadable? {
      if Cached(ix, path, identity) {
        if generation.Some? { TouchKeepsCache(ix, x, path, generation.value); }
      } else if read.Extractable? {
        PublishKeepsCache(ix, x, path, identity, generation, newId);
      } else {
        ErrorKeepsCache(ix, x, path, identity, generation, newId);
      }
    }
  }

  /** Processing an extractable file that is not cached as stale or in error leaves its row fresh. It is exactly the
      stale rows that keep their old body: with the identity of the failed attempt stored, they count as cached. */
  lemma RescanFreshensExactly(ix: Index, x: Extraction, path: string, identity: Identity, generation: Option<nat>, newId: nat)
    requires Inv(ix, x) && !UsedId(ix, newId)
    ensures var r := ProcessFile(ix, path, identity, Extractable(x(path, identity)), generation, newId);
            && path in r.files && r.files[path].identity == identity
            && ((r.files[path].status == Ready || r.files[path].status == Skipped) <==>
                !(Cached(ix, path, identity) && ix.files[path].status != Ready && ix.files[path].status != Skipped))
            && (Cached(ix, path, identity) ==> r.content == ix.content)
  {}

  /** A body that went stale stays: a file changed, its extraction failed once, and no later scan notices. */
  lemma StaleBodyStays(path: string, one: Identity, two: Identity, x: Extraction, generation: nat)
    requires one != two && x(path, one).body != x(path, two).body
    ensures var ix := Run(Index(map[], map[]), [Publish(path, one, None, 0), Fail(path, two, None, 1)], x);
            var r := ProcessFile(ix, path, two, Extractable(x(path, two)), Some(generation), 2);
            r.files[path].identity == two && r.content[r.files[path].id] != [x(path, two).body]
  {
    var empty := Index(map[], map[]);
    var calls := [Publish(path, one, None, 0), Fail(path, two, None, 1)];
    assert calls[..1] == [calls[0]] && [calls[0]][..0] == [];
    assert Run(empty, [], x) == empty;
    assert Run(empty, calls[..1], x) == PublishFile(empty, path, one, None, 0, x(path, one));
    assert Run(empty, calls, x) == RecordError(Run(empty, calls[..1], x), path, two, None, 1);
  }

  // ----- the tables in place

  class IndexDb {
    var files: map<string, FileRow>
    var content: map<nat, seq<string>>

    ghost function View(): Index
      reads this
    {
      Index(files, content)
    }

    constructor ()
      ensures View() == Index(map[], map[])
    {
      files, content := map[], map[];
    }

    method Publish(path: string, identity: Identity, generation: Option<nat>, newId: nat, e: Extracted)
      modifies this
      ensures View() == PublishFile(old(View()), path, identity, generation, newId, e)
    {
      var id, stored := newId, generation;
      if path in files {
        id := files[path].id;
        if generation.None? { stored := files[path].generation; }
      }
      files := files[path := FileRow(id, identity, stored, if e.ready then Ready else Skipped)];
      content := content - {id};
      content := content[id := [e.body]];
      assert content == old(content)[id := [e.body]];
    }

    method RecordExtractionError(path: string, identity: Identity, generation: Option<nat>, newId: nat)
      modifies this`files
      ensures View() == RecordError(old(View()), path, identity, generation, newId)
    {
      if path in files {
        var row := files[path];
        var status := if row.id in content then Stale else Error;
        files := files[path := row.(identity := identity, generation := if generation.Some? then generation else row.generation, status := status)];
      } else {
        files := files[path := FileRow(newId, identity, generation, Error)];
      }
    }

    method Touch(path: string, generation: nat)
      modifies this`files
      ensures View() == TouchGeneration(old(View()), path, generation)
    {
      if path in files { files := files[path := files[path].(generation := Some(generation))]; }
    }

    /** `delete_ids`: content first, then the row, one path after the other. */
    method Delete(paths: set<string>)
      requires paths <= files.Keys
      modifies this
      ensures View() == DeletePaths(old(View()), paths)
    {
      var rest := paths;
      while rest != {}
        invariant rest <= paths
        invariant files == old(files) - (paths - rest)
        invariant content == old(content) - IdsOf(old(View()), paths - rest)
        decreases rest
      {
        var p :| p in rest;
        assert p in files;
        assert paths - (rest - {p}) == (paths - rest) + {p};
        content := content - {files[p].id};
        files := files - {p};
        rest := rest - {p};
      }
      assert paths - rest == paths;
    }

    method RemovePath(path: string, recursive: bool) returns (removed: nat)
      modifies this
      ensures View() == DeletePaths(old(View()), Selected(old(View()), path, recursive))
      ensures removed == |Selected(old(View()), path, recursive)|
    {
      var gone := set p | p in files && if recursive then SameOrAncestor(path, p) else p == path;
      assert gone == Selected(View(), path, recursive);
      Delete(gone);
      removed := |gone|;
    }

    method CleanupGeneration(path: string, generation: nat) returns (removed: nat)
      modifies this
      ensures View() == DeletePaths(old(View()), Unreached(old(View()), path, generation))
      ensures removed == |Unreached(old(View()), path, generation)|
    {
      var gone := set p | p in files && SameOrAncestor(path, p) && files[p].generation != Some(generation);
      assert gone == Unreached(View(), path, generation);
      Delete(gone);
      removed := |gone|;
    }

    /** `process_file`: skip what is cached, otherwise extract and store the text or the error. */
    method Process(path: string, identity: Identity, read: Read, generation: Option<nat>, newId: nat) returns (failed: bool)
      modifies this
      ensures View() == ProcessFile(old(View()), path, identity, read, generation, newId)
      ensures failed == ProcessFails(old(View()), path, identity, read)
    {
      if read.Unreadable? { return true; }
      if path in files && files[path].identity == identity && files[path].id in content {
        if generation.Some? { Touch(path, generation.value); }
        return false;
      }
      match read
      case Extractable(e) =>
        Publish(path, identity, generation, newId, e);
        return false;
      case Unextractable =>
        RecordExtractionError(path, identity, generation, newId);
        return true;
    }
  }
}
