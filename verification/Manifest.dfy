/** The manifest of a backup: how its checksums are collected from the staging directory and how a restored copy is
    held against it (apps/backup/src/backup.ts). */
module Manifest {
  import opened Base
  import opened Paths
  import opened ManifestPaths

  type Content = seq<Byte>

  // ----- the staging directory

  datatype Node = File(content: Content) | Folder(children: seq<Child>) | Link | Special

  datatype Child = Child(name: Name, node: Node)

  ghost predicate Proper(children: seq<Child>)
    decreases children, 0
  {
    && (forall i | 0 <= i < |children| :: ValidName(children[i].name) && ProperNode(children[i].node))
    && (forall i, j | 0 <= i < j < |children| :: children[i].name != children[j].name)
  }

  ghost predicate ProperNode(node: Node)
    decreases node, 1
  {
    node.Folder? ==> Proper(node.children)
  }

  /** The regular file reached from a directory along `p`, through directories only. */
  function FileIn(children: seq<Child>, p: Path): Option<Content>
    decreases |p|, 0, |children|
  {
    if children == [] || p == [] then None
    else
      var last := children[|children| - 1];
      if last.name != p[0] then FileIn(children[..|children| - 1], p)
      else FileAt(last.node, p[1..])
  }

  function FileAt(node: Node, p: Path): Option<Content>
    decreases |p|, 1, 0
  {
    match node
    case File(content) => if p == [] then Some(content) else None
    case Folder(children) => FileIn(children, p)
    case Link => None
    case Special => None
  }

  // ----- collecting checksums

  const MANIFEST := "manifest.json"
  const DATABASE := "zos.sqlite"

  /** Only the manifest at the top is left out. */
  predicate Skipped(dir: Path, name: Name) { dir == [] && name == MANIFEST }

  function Sums(children: seq<Child>, dir: Path, hash: Content -> string): map<string, string>
    decreases children, 0
  {
    if children == [] then map[]
    else Sums(children[..|children| - 1], dir, hash) + ChildSums(children[|children| - 1], dir, hash)
  }

  function ChildSums(child: Child, dir: Path, hash: Content -> string): map<string, string>
    decreases child, 1
  {
    if Skipped(dir, child.name) then map[]
    else
      match child.node
      case File(content) => map[Text(dir + [child.name]) := hash(content)]
      case Folder(children) => Sums(children, dir + [child.name], hash)
      case Link => map[]
      case Special => map[]
  }

  lemma OneMoreChild(children: seq<Child>, i: nat, dir: Path, hash: Content -> string)
    requires i < |children|
    ensures Sums(children[..i + 1], dir, hash) == Sums(children[..i], dir, hash) + ChildSums(children[i], dir, hash)
  {
    assert children[..i + 1][..i] == children[..i];
  }

  lemma MergeAgain(a: map<string, string>, b: map<string, string>, c: map<string, string>)
    ensures (a + b) + c == a + (b + c)
  {}

  /** `collectChecksums`: a record filled by a recursive walk. */
  class Collector {
    var checksums: map<string, string>

    constructor ()
      ensures checksums == map[]
    {
      checksums := map[];
    }

    method Walk(children: seq<Child>, dir: Path, hash: Content -> string)
      modifies this
      ensures checksums == old(checksums) + Sums(children, dir, hash)
      decreases children, 0
    {
      var i := 0;
      while i < |children|
        invariant i <= |children|
        invariant checksums == old(checksums) + Sums(children[..i], dir, hash)
      {
        ghost var done := Sums(children[..i], dir, hash);
        WalkChild(children[i], dir, hash);
        OneMoreChild(children, i, dir, hash);
        MergeAgain(old(checksums), done, ChildSums(children[i], dir, hash));
        i := i + 1;
      }
      assert children[..i] == children;
    }

    method WalkChild(child: Child, dir: Path, hash: Content -> string)
      modifies this
      ensures checksums == old(checksums) + ChildSums(child, dir, hash)
      decreases child, 1
    {
      if dir == [] && child.name == MANIFEST {
        return;
      }
      match child.node
      case File(content) => checksums := checksums[Text(dir + [child.name]) := hash(content)];
      case Folder(children) => Walk(children, dir + [child.name], hash);
      case Link =>
      case Special =>
    }
  }

  lemma {:induction false} NameOf(children: seq<Child>, q: Path)
    requires q != [] && FileIn(children, q).Some?
    ensures exists i :: 0 <= i < |children| && children[i].name == q[0]
  {
    if children[|children| - 1].name != q[0] {
      NameOf(children[..|children| - 1], q);
    }
  }

  /** Every key of the record is the text of a file's path, with the hash of that file. */
  lemma {:induction false} KeyOf(children: seq<Child>, dir: Path, hash: Content -> string, key: string) returns (q: Path)
    requires Proper(children) && ValidPath(dir) && key in Sums(children, dir, hash)
    ensures q != [] && ValidPath(q) && key == Text(dir + q) && !Skipped(dir, q[0])
    ensures FileIn(children, q).Some? && Sums(children, dir, hash)[key] == hash(FileIn(children, q).value)
    decreases children, 0
  {
    var n := |children|;
    if key in ChildSums(children[n - 1], dir, hash) {
      q := ChildKeyOf(children[n - 1], dir, hash, key);
    } else {
      q := KeyOf(children[..n - 1], dir, hash, key);
      NameOf(children[..n - 1], q);
    }
  }

  lemma {:induction false} ChildKeyOf(child: Child, dir: Path, hash: Content -> string, key: string) returns (q: Path)
    requires ValidName(child.name) && ProperNode(child.node) && ValidPath(dir) && key in ChildSums(child, dir, hash)
    ensures q != [] && q[0] == child.name && ValidPath(q) && key == Text(dir + q) && !Skipped(dir, q[0])
    ensures FileAt(child.node, q[1..]).Some? && ChildSums(child, dir, hash)[key] == hash(FileAt(child.node, q[1..]).value)
    decreases child, 1
  {
    if child.node.File? {
      q := [child.name];
    } else {
      var rest := KeyOf(child.node.children, dir + [child.name], hash, key);
      q := [child.name] + rest;
      assert dir + [child.name] + rest == dir + q;
      assert q[1..] == rest;
    }
  }

  /** And every file, save the manifest at the top, has its key. */
  lemma {:induction false} InSums(children: seq<Child>, dir: Path, hash: Content -> string, q: Path)
    requires Proper(children) && ValidPath(dir) && q != [] && ValidPath(q) && !Skipped(dir, q[0]) && FileIn(children, q).Some?
    ensures Text(dir + q) in Sums(children, dir, hash)
    decreases children, 0
  {
    var n := |children|;
    if children[n - 1].name == q[0] {
      InChildSums(children[n - 1], dir, hash, q);
    } else {
      InSums(children[..n - 1], dir, hash, q);
    }
  }

  lemma {:induction false} InChildSums(child: Child, dir: Path, hash: Content -> string, q: Path)
    requires ValidName(child.name) && ProperNode(child.node) && ValidPath(dir) && q != [] && ValidPath(q) && q[0] == child.name
    requires !Skipped(dir, q[0]) && FileAt(child.node, q[1..]).Some?
    ensures Text(dir + q) in ChildSums(child, dir, hash)
    decreases child, 1
  {
    if child.node.File? {
      assert q == [child.name];
    } else {
      assert q[1..] != [];
      InSums(child.node.children, dir + [child.name], hash, q[1..]);
      assert dir + [child.name] + q[1..] == dir + q;
    }
  }

  /** The files a manifest lists. */
  predicate Listed(children: seq<Child>, q: Path) {
    q != [] && q[0] != MANIFEST && FileIn(children, q).Some?
  }

  /** The record holds each listed file's hash under its path's text, and nothing else. */
  lemma SumsExact(children: seq<Child>, hash: Content -> string, q: Path)
    requires Proper(children) && q != [] && ValidPath(q)
    ensures Text(q) in Sums(children, [], hash) <==> Listed(children, q)
    ensures Listed(children, q) ==> Sums(children, [], hash)[Text(q)] == hash(FileIn(children, q).value)
  {
    assert [] + q == q;
    if Listed(children, q) {
      InSums(children, [], hash, q);
    }
    if Text(q) in Sums(children, [], hash) {
      var found := KeyOf(children, [], hash, Text(q));
      assert [] + found == found;
      TextInjective(found, q);
    }
  }

  // ----- manifests

  datatype Root = Root(id: string, path: string)

  /** As parsed: a root that is not a record of two strings, and checksums that are not an object, are `None`. */
  datatype Manifest = Manifest(version: int, runId: string, roots: seq<Option<Root>>, database: string, checksums: Option<map<string, string>>)

  method CreateManifest(runId: string, roots: seq<Root>, staging: seq<Child>, hash: Content -> string) returns (m: Manifest)
    ensures m == Created(runId, roots, staging, hash)
  {
    var collector := new Collector();
    collector.Walk(staging, [], hash);
    assert map[] + Sums(staging, [], hash) == Sums(staging, [], hash);
    m := Manifest(1, runId, seq(|roots|, i requires 0 <= i < |roots| => Some(roots[i])), DATABASE, Some(collector.checksums));
  }

  function Created(runId: string, roots: seq<Root>, staging: seq<Child>, hash: Content -> string): Manifest {
    Manifest(1, runId, seq(|roots|, i requires 0 <= i < |roots| => Some(roots[i])), DATABASE, Some(Sums(staging, [], hash)))
  }

  // ----- validation

  /** What the restored side looks like: its roots, how it resolves a root's path, the hash, and the regular file, if
      any, found at a path below the manifest's directory. */
  datatype Restored = Restored(roots: seq<Root>, resolve: string -> string, hash: Content -> string, file: Path -> Option<Content>)

  predicate HexChar(c: char) { 'a' <= c <= 'f' || '0' <= c <= '9' }

  predicate ValidHash(h: string) { |h| == 64 && forall i | 0 <= i < |h| :: HexChar(h[i]) }

  function FindRoot(roots: seq<Root>, id: string): Option<Root> {
    if roots == [] then None else if roots[0].id == id then Some(roots[0]) else FindRoot(roots[1..], id)
  }

  predicate RootOk(r: Restored, root: Option<Root>) {
    && root.Some?
    && FindRoot(r.roots, root.value.id).Some?
    && r.resolve(FindRoot(r.roots, root.value.id).value.path) == r.resolve(root.value.path)
  }

  predicate EntryOk(r: Restored, key: string, expected: string) {
    && ValidHash(expected)
    && Resolve(key).Some?
    && r.file(Resolve(key).value).Some?
    && r.hash(r.file(Resolve(key).value).value) == expected
  }

  predicate EntriesOk(r: Restored, checksums: map<string, string>) {
    forall key | key in checksums :: EntryOk(r, key, checksums[key])
  }

  predicate Accepts(r: Restored, m: Manifest) {
    && m.version == 1 && m.runId != "" && m.database == DATABASE
    && (forall i | 0 <= i < |m.roots| :: RootOk(r, m.roots[i]))
    && m.checksums.Some? && m.database in m.checksums.value
    && EntriesOk(r, m.checksums.value)
  }

  method Find(roots: seq<Root>, id: string) returns (found: Option<Root>)
    ensures found == FindRoot(roots, id)
  {
    var i := 0;
    while i < |roots|
      invariant i <= |roots|
      invariant FindRoot(roots, id) == FindRoot(roots[i..], id)
    {
      if roots[i].id == id {
        return Some(roots[i]);
      }
      i := i + 1;
    }
    return None;
  }

  /** `validateManifest`: the first thing amiss ends it. */
  method ValidateManifest(m: Manifest, r: Restored) returns (ok: bool)
    ensures ok <==> Accepts(r, m)
  {
    if m.version != 1 || m.runId == "" || m.database != DATABASE {
      return false;
    }
    var i := 0;
    while i < |m.roots|
      invariant i <= |m.roots|
      invariant forall k | 0 <= k < i :: RootOk(r, m.roots[k])
    {
      if m.roots[i].None? {
        return false;
      }
      var configured := Find(r.roots, m.roots[i].value.id);
      if configured.None? || r.resolve(configured.value.path) != r.resolve(m.roots[i].value.path) {
        return false;
      }
      i := i + 1;
    }
    if m.checksums.None? || m.database !in m.checksums.value {
      return false;
    }
    ok := ValidateEntries(m.checksums.value, r);
  }

  method ValidateEntries(checksums: map<string, string>, r: Restored) returns (ok: bool)
    ensures ok <==> EntriesOk(r, checksums)
  {
    var todo := checksums.Keys;
    while todo != {}
      invariant todo <= checksums.Keys
      invariant forall key | key in checksums && key !in todo :: EntryOk(r, key, checksums[key])
      decreases todo
    {
      var key :| key in todo;
      if !ValidHash(checksums[key]) {
        return false;
      }
      var path := Resolve(key);
      if path.None? {
        return false;
      }
      var file := r.file(path.value);
      if file.None? || r.hash(file.value) != checksums[key] {
        return false;
      }
      todo := todo - {key};
    }
    return true;
  }

  // ----- round trip

  ghost predicate DistinctIds(roots: seq<Root>) { forall i, j | 0 <= i < j < |roots| :: roots[i].id != roots[j].id }

  lemma {:induction false} FindsItself(roots: seq<Root>, i: nat)
    requires DistinctIds(roots) && i < |roots|
    ensures FindRoot(roots, roots[i].id) == Some(roots[i])
  {
    if i > 0 {
      FindsItself(roots[1..], i - 1);
    }
  }

  /** The copy holds, at every listed path, a file with the same hash. */
  ghost predicate SameHashes(r: Restored, staging: seq<Child>) {
    forall q | ValidPath(q) && Listed(staging, q) :: r.file(q).Some? && r.hash(r.file(q).value) == r.hash(FileIn(staging, q).value)
  }

  lemma EntriesExact(r: Restored, staging: seq<Child>)
    requires Proper(staging) && forall c :: ValidHash(r.hash(c))
    ensures EntriesOk(r, Sums(staging, [], r.hash)) <==> SameHashes(r, staging)
  {
    var sums := Sums(staging, [], r.hash);
    if EntriesOk(r, sums) {
      forall q | ValidPath(q) && Listed(staging, q)
        ensures r.file(q).Some? && r.hash(r.file(q).value) == r.hash(FileIn(staging, q).value)
      {
        SumsExact(staging, r.hash, q);
        ResolveText(q);
        assert EntryOk(r, Text(q), sums[Text(q)]);
      }
    }
    if SameHashes(r, staging) {
      forall key | key in sums
        ensures EntryOk(r, key, sums[key])
      {
        var q := KeyOf(staging, [], r.hash, key);
        assert [] + q == q;
        assert Listed(staging, q);
        ResolveText(q);
      }
    }
  }

  /** A manifest made from a staging directory with the database in it is accepted, under the same roots, exactly by
      the copies that hold every listed file with the same hash: a missing or different file is always refused, and
      what the manifest does not list makes no difference. */
  lemma AcceptsExactly(runId: string, roots: seq<Root>, staging: seq<Child>, r: Restored)
    requires runId != "" && Proper(staging) && FileIn(staging, [DATABASE]).Some?
    requires DistinctIds(roots) && r.roots == roots && forall c :: ValidHash(r.hash(c))
    ensures Accepts(r, Created(runId, roots, staging, r.hash)) <==> SameHashes(r, staging)
  {
    var m := Created(runId, roots, staging, r.hash);
    forall i | 0 <= i < |m.roots|
      ensures RootOk(r, m.roots[i])
    {
      FindsItself(roots, i);
    }
    SumsExact(staging, r.hash, [DATABASE]);
    assert Text([DATABASE]) == DATABASE;
    EntriesExact(r, staging);
  }

  /** In particular by a faithful copy. */
  lemma FaithfulCopyAccepted(runId: string, roots: seq<Root>, staging: seq<Child>, r: Restored)
    requires runId != "" && Proper(staging) && FileIn(staging, [DATABASE]).Some?
    requires DistinctIds(roots) && r.roots == roots && forall c :: ValidHash(r.hash(c))
    requires forall q :: r.file(q) == FileIn(staging, q)
    ensures Accepts(r, Created(runId, roots, staging, r.hash))
  {
    AcceptsExactly(runId, roots, staging, r);
  }
}
