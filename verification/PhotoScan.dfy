/** What a photo scan looks for in a library, and when its entries are all of it
    (apps/photostaff/src/worker.rs, `discover`). */
module PhotoScan {
  import opened Base
  import opened Paths
  import opened PhotoRows

  /** What a directory listing says about one name. `opens` tells whether a sub-directory can be opened. */
  datatype Raw = Link | Folder(opens: bool) | Regular | Other

  /** `dirs` holds the listing of each directory that can be read, `media` the names with a media extension. */
  datatype Tree = Tree(root: Path, dirs: map<Path, map<Name, Raw>>, media: set<Name>)

  function LowerChar(c: char): char { if 'A' <= c <= 'Z' then (c as int + 32) as char else c }

  predicate SidecarName(name: Name) {
    |name| >= 4 && name[|name| - 4] == '.' && LowerChar(name[|name| - 3]) == 'x'
    && LowerChar(name[|name| - 2]) == 'm' && LowerChar(name[|name| - 1]) == 'p'
  }

  /** The kind of entry, if any, that discovery adds for a listed name. */
  function ChildKind(tree: Tree, name: Name, raw: Raw): Option<EntryKind> {
    match raw
    case Link => None
    case Folder(opens) => if opens then Some(Directory) else None
    case Regular => if name in tree.media then Some(Media) else if SidecarName(name) then Some(Sidecar) else None
    case Other => None
  }

  /** What the library holds at `p`: the root, and whatever a readable directory of it lists. */
  function KindAt(tree: Tree, p: Path): Option<EntryKind>
    decreases |p|
  {
    if p == tree.root then Some(Directory)
    else if |p| <= |tree.root| then None
    else
      var parent, name := p[..|p| - 1], p[|p| - 1];
      if KindAt(tree, parent) == Some(Directory) && parent in tree.dirs && name in tree.dirs[parent]
      then ChildKind(tree, name, tree.dirs[parent][name])
      else None
  }

  lemma RootShorter(tree: Tree, p: Path)
    requires KindAt(tree, p).Some?
    ensures |tree.root| <= |p| && (p != tree.root ==> |tree.root| < |p|)
  {}

  /** A name listed in a directory of the library is of the kind its listing says. */
  lemma ChildAt(tree: Tree, dir: Path, name: Name)
    requires KindAt(tree, dir) == Some(Directory) && dir in tree.dirs && name in tree.dirs[dir]
    ensures KindAt(tree, dir + [name]) == ChildKind(tree, name, tree.dirs[dir][name])
  {
    RootShorter(tree, dir);
    var p := dir + [name];
    assert p[..|p| - 1] == dir && p[|p| - 1] == name;
  }

  // ----- what the entries of a scan say

  predicate Sound(tree: Tree, entries: map<Path, Entry>) {
    forall p | p in entries :: KindAt(tree, p) == Some(entries[p].kind)
  }

  /** Every child of `dir` has its entry, save those still to come. */
  ghost predicate Listed(tree: Tree, entries: map<Path, Entry>, dir: Path, todo: set<Name>) {
    && dir in tree.dirs
    && (forall n | n in tree.dirs[dir] && n !in todo && ChildKind(tree, n, tree.dirs[dir][n]).Some? :: dir + [n] in entries)
  }

  ghost predicate DirectoryOk(tree: Tree, entries: map<Path, Entry>, dir: Path, status: EntryStatus) {
    match status
    case Completed => Listed(tree, entries, dir, {})
    case Skipped => dir !in tree.dirs
    case Failed => false
    case _ => true
  }

  ghost predicate Closed(tree: Tree, entries: map<Path, Entry>) {
    forall p | p in entries && entries[p].kind == Directory :: DirectoryOk(tree, entries, p, entries[p].status)
  }

  /** The entries are exactly what the library holds. */
  ghost predicate Exact(tree: Tree, entries: map<Path, Entry>) {
    forall p :: (p in entries <==> KindAt(tree, p).Some?) && (p in entries ==> KindAt(tree, p) == Some(entries[p].kind))
  }

  predicate DirectoriesDone(entries: map<Path, Entry>) {
    forall p | p in entries && entries[p].kind == Directory :: !Unfinished(entries[p])
  }

  lemma {:induction false} Reaches(tree: Tree, entries: map<Path, Entry>, p: Path)
    requires Closed(tree, entries) && Sound(tree, entries) && tree.root in entries && DirectoriesDone(entries)
    requires KindAt(tree, p).Some?
    ensures p in entries
    decreases |p|
  {
    if p != tree.root {
      var parent, name := p[..|p| - 1], p[|p| - 1];
      Reaches(tree, entries, parent);
      assert DirectoryOk(tree, entries, parent, entries[parent].status);
      assert parent + [name] == p;
    }
  }

  /** Once no directory is open, whatever happened in between, the entries are the whole library and nothing else. */
  lemma DoneIsExact(tree: Tree, entries: map<Path, Entry>)
    requires Closed(tree, entries) && Sound(tree, entries) && tree.root in entries && DirectoriesDone(entries)
    ensures Exact(tree, entries)
  {
    forall p | KindAt(tree, p).Some?
      ensures p in entries
    {
      Reaches(tree, entries, p);
    }
  }

  /** `b` keeps every entry of `a`, with its kind. */
  predicate Keeps(a: map<Path, Entry>, b: map<Path, Entry>) {
    forall p | p in a :: p in b && b[p].kind == a[p].kind
  }

  lemma ListedKept(tree: Tree, a: map<Path, Entry>, b: map<Path, Entry>, dir: Path, todo: set<Name>)
    requires Keeps(a, b) && Listed(tree, a, dir, todo)
    ensures Listed(tree, b, dir, todo)
  {}

  /** Adding an entry the library holds, not yet settled as a directory. */
  lemma AddKeeps(tree: Tree, entries: map<Path, Entry>, p: Path, e: Entry)
    requires Sound(tree, entries) && Closed(tree, entries)
    requires p !in entries && KindAt(tree, p) == Some(e.kind)
    requires e.kind == Directory ==> Unfinished(e)
    ensures Sound(tree, entries[p := e]) && Closed(tree, entries[p := e]) && Keeps(entries, entries[p := e])
  {
    var after := entries[p := e];
    forall q | q in after && after[q].kind == Directory
      ensures DirectoryOk(tree, after, q, after[q].status)
    {
      if q != p {
        assert DirectoryOk(tree, entries, q, entries[q].status);
        if entries[q].status == Completed {
          ListedKept(tree, entries, after, q, {});
        }
      }
    }
  }

  /** Giving an entry another status that its kind allows. */
  lemma SetKeeps(tree: Tree, entries: map<Path, Entry>, p: Path, e: Entry)
    requires Sound(tree, entries) && Closed(tree, entries)
    requires p in entries && entries[p].kind == e.kind
    requires e.kind == Directory ==> DirectoryOk(tree, entries, p, e.status)
    ensures Sound(tree, entries[p := e]) && Closed(tree, entries[p := e]) && Keeps(entries, entries[p := e])
  {
    var after := entries[p := e];
    forall q | q in after && after[q].kind == Directory
      ensures DirectoryOk(tree, after, q, after[q].status)
    {
      assert DirectoryOk(tree, entries, q, if q == p then e.status else entries[q].status);
      if after[q].status == Completed {
        ListedKept(tree, entries, after, q, {});
      }
    }
  }

  lemma ReopenKeeps(tree: Tree, entries: map<Path, Entry>)
    requires Sound(tree, entries) && Closed(tree, entries)
    ensures Sound(tree, Reopened(entries)) && Closed(tree, Reopened(entries)) && Keeps(entries, Reopened(entries))
  {
    var after := Reopened(entries);
    forall q | q in after && after[q].kind == Directory
      ensures DirectoryOk(tree, after, q, after[q].status)
    {
      assert DirectoryOk(tree, entries, q, entries[q].status);
      if after[q].status == Completed {
        ListedKept(tree, entries, after, q, {});
      }
    }
  }
}
