/** The paths of a backup manifest and where they lead below the staging directory (apps/backup/src/backup.ts,
    `resolveManifestPath`; normalisation as the `path` module of Node.js does it). */
module ManifestPaths {
  import opened Base
  import opened Paths

  /** The segments between slashes. */
  function Split(s: string): (segments: seq<string>)
    ensures segments != []
  {
    if s == "" then [""]
    else
      var rest := Split(s[1..]);
      if s[0] == '/' then [""] + rest else [[s[0]] + rest[0]] + rest[1..]
  }

  /** One segment after those already normalised. */
  function Walk(done: seq<string>, segment: string): seq<string> {
    if segment == "" || segment == "." then done
    else if segment != ".." then done + [segment]
    else if done != [] && done[|done| - 1] != ".." then done[..|done| - 1]
    else done + [".."]
  }

  function Normal(segments: seq<string>): seq<string> {
    if segments == [] then [] else Walk(Normal(segments[..|segments| - 1]), segments[|segments| - 1])
  }

  /** Where a manifest path leads below the staging directory, or nothing if it is refused. */
  function Resolve(text: string): Option<Path> {
    if text != "" && text[0] == '/' then None
    else
      var normal := Normal(Split(text));
      if normal != [] && normal[0] == ".." then None else Some(normal)
  }

  // ----- what normalisation means

  function Rise(segment: string): int {
    if segment == "" || segment == "." then 0 else if segment == ".." then -1 else 1
  }

  /** How deep below the start a walk along the segments ends. */
  function Depth(segments: seq<string>): int {
    if segments == [] then 0 else Depth(segments[..|segments| - 1]) + Rise(segments[|segments| - 1])
  }

  /** How far above the start it gets. */
  function Above(segments: seq<string>): nat {
    if segments == [] then 0
    else
      var before := Above(segments[..|segments| - 1]);
      if before < -Depth(segments) then -Depth(segments) else before
  }

  predicate IsName(segment: string) { segment != "" && segment != "." && segment != ".." }

  /** The normal form is as many climbs as the walk ever makes above its start, then names only. */
  lemma {:induction false} NormalShape(segments: seq<string>)
    ensures |Normal(segments)| == Depth(segments) + 2 * Above(segments)
    ensures 0 <= Depth(segments) + Above(segments)
    ensures forall i | 0 <= i < Above(segments) :: Normal(segments)[i] == ".."
    ensures forall i | Above(segments) <= i < |Normal(segments)| :: IsName(Normal(segments)[i])
  {
    if segments != [] {
      NormalShape(segments[..|segments| - 1]);
    }
  }

  /** How deep the walk is after its first `k` segments. */
  function DepthAt(segments: seq<string>, k: nat): int
    requires k <= |segments|
  {
    if k == 0 then 0 else DepthAt(segments, k - 1) + Rise(segments[k - 1])
  }

  lemma {:induction false} DepthAtPrefix(segments: seq<string>, n: nat, k: nat)
    requires k <= n <= |segments|
    ensures DepthAt(segments[..n], k) == DepthAt(segments, k)
  {
    if k > 0 {
      DepthAtPrefix(segments, n, k - 1);
    }
  }

  lemma {:induction false} DepthAtEnd(segments: seq<string>)
    ensures Depth(segments) == DepthAt(segments, |segments|)
  {
    if segments != [] {
      DepthAtEnd(segments[..|segments| - 1]);
      DepthAtPrefix(segments, |segments| - 1, |segments| - 1);
    }
  }

  /** Some beginning of the walk ends above its start. */
  ghost predicate Climbs(segments: seq<string>) { exists k: nat :: k <= |segments| && DepthAt(segments, k) < 0 }

  lemma {:induction false} AboveExact(segments: seq<string>)
    ensures Above(segments) > 0 <==> Climbs(segments)
  {
    DepthAtEnd(segments);
    if segments != [] {
      var n := |segments| - 1;
      AboveExact(segments[..n]);
      forall k: nat | k <= n
        ensures DepthAt(segments[..n], k) == DepthAt(segments, k)
      {
        DepthAtPrefix(segments, n, k);
      }
    }
  }

  lemma {:induction false} SegmentsHaveNoSlash(s: string)
    ensures forall i | 0 <= i < |Split(s)| :: '/' !in Split(s)[i]
  {
    if s != "" {
      SegmentsHaveNoSlash(s[1..]);
    }
  }

  lemma {:induction false} NormalFrom(segments: seq<string>)
    requires forall i | 0 <= i < |segments| :: '/' !in segments[i]
    ensures forall i | 0 <= i < |Normal(segments)| :: '/' !in Normal(segments)[i]
  {
    if segments != [] {
      NormalFrom(segments[..|segments| - 1]);
    }
  }

  lemma StartsWithClimb(segments: seq<string>)
    ensures Normal(segments) != [] && Normal(segments)[0] == ".." <==> Above(segments) > 0
  {
    NormalShape(segments);
  }

  lemma NamesOnly(segments: seq<string>)
    requires Above(segments) == 0 && forall i | 0 <= i < |segments| :: '/' !in segments[i]
    ensures ValidPath(Normal(segments)) && |Normal(segments)| == Depth(segments)
  {
    NormalShape(segments);
    NormalFrom(segments);
  }

  /** A manifest path is accepted exactly when it is relative and no beginning of it climbs above the staging
      directory; and then it leads to a proper path below it. */
  lemma ResolveExact(text: string)
    ensures Resolve(text).None? <==> (text != "" && text[0] == '/') || Climbs(Split(text))
    ensures Resolve(text).Some? ==> ValidPath(Resolve(text).value) && |Resolve(text).value| == Depth(Split(text))
  {
    var segments := Split(text);
    StartsWithClimb(segments);
    AboveExact(segments);
    if Above(segments) == 0 {
      SegmentsHaveNoSlash(text);
      NamesOnly(segments);
    }
  }

  // ----- texts of proper paths

  lemma {:induction false} SplitName(x: string)
    requires '/' !in x
    ensures Split(x) == [x]
  {
    if x != "" {
      assert x[0] in x;
      SplitName(x[1..]);
      assert [x[0]] + x[1..] == x;
    }
  }

  lemma {:induction false} SplitFirst(x: string, rest: string)
    requires '/' !in x
    ensures Split(x + "/" + rest) == [x] + Split(rest)
  {
    var s := x + "/" + rest;
    if x == "" {
      assert s[1..] == rest;
    } else {
      assert x[0] in x;
      SplitFirst(x[1..], rest);
      assert s[1..] == x[1..] + "/" + rest;
      assert ([x[1..]] + Split(rest))[1..] == Split(rest);
      assert [x[0]] + x[1..] == x;
    }
  }

  lemma {:induction false} SplitJoin(p: Path)
    requires p != [] && ValidPath(p)
    ensures Split(Join(p)) == p
  {
    if |p| == 1 {
      SplitName(p[0]);
    } else {
      SplitFirst(p[0], Join(p[1..]));
      SplitJoin(p[1..]);
    }
  }

  lemma {:induction false} NormalIsSame(p: Path)
    requires ValidPath(p)
    ensures Normal(p) == p
  {
    if p != [] {
      NormalIsSame(p[..|p| - 1]);
    }
  }

  /** The text of a proper path leads back to the path. */
  lemma ResolveText(p: Path)
    requires p != [] && ValidPath(p)
    ensures Resolve(Text(p)) == Some(p)
  {
    SplitJoin(p);
    NormalIsSame(p);
    assert ValidName(p[0]);
    FirstChar(p);
  }

  lemma FirstChar(p: Path)
    requires p != [] && ValidPath(p)
    ensures Join(p) != "" && Join(p)[0] != '/'
  {
    assert ValidName(p[0]);
    NoSlashAt(p[0], 0);
    assert Join(p)[0] == p[0][0];
  }
}
