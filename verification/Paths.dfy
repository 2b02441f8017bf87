/** Root-relative paths: their text form, and the ancestor test that the indexer applies to the text
    (apps/indexer/src/watcher.rs and the `path = ? OR substr(...)` conditions of apps/indexer/src/db.rs). */
module Paths {

  /** `is_same_or_ancestor`. */
  predicate SameOrAncestor(ancestor: string, path: string) {
    ancestor == "." || ancestor == path || (|ancestor| < |path| && ancestor <= path && path[|ancestor|] == '/')
  }

  lemma AncestorTransitive(a: string, b: string, c: string)
    requires SameOrAncestor(a, b) && SameOrAncestor(b, c)
    ensures SameOrAncestor(a, c)
  {
    if a != "." && b != "." && a != b && b != c {
      assert c[..|a|] == b[..|a|];
    }
  }

  lemma AncestorAntisymmetric(a: string, b: string)
    requires SameOrAncestor(a, b) && SameOrAncestor(b, a)
    ensures a == b
  {}

  // ----- component lists

  type Name = string
  type Path = seq<Name>

  /** A directory entry's name: not empty, no separator, not one of the dot names. */
  predicate ValidName(name: Name) { name != "" && '/' !in name && name != "." && name != ".." }

  predicate ValidPath(p: Path) { forall i | 0 <= i < |p| :: ValidName(p[i]) }

  function Join(p: Path): string
    requires p != []
  {
    if |p| == 1 then p[0] else p[0] + "/" + Join(p[1..])
  }

  /** The text form: components joined by slashes, or a dot for the root. */
  function Text(p: Path): string { if p == [] then "." else Join(p) }

  lemma NoSlashAt(x: string, i: nat)
    requires '/' !in x && i < |x|
    ensures x[i] != '/'
  {
    assert x[i] in x;
  }

  /** A text has only one part before its first slash. */
  lemma FirstPart(x: string, u: string, y: string, v: string)
    requires '/' !in x && '/' !in y && x + "/" + u == y + "/" + v
    ensures x == y && u == v
  {
    var s := x + "/" + u;
    assert s[|x|] == '/' && s[|y|] == '/';
    assert x == s[..|x|] && u == s[|x| + 1..] && v == s[|y| + 1..];
  }

  ghost predicate Under(a: string, b: string) { a == b || a + "/" <= b }

  lemma {:induction false} JoinUnder(a: Path, b: Path)
    requires a != [] && b != [] && ValidPath(a) && ValidPath(b)
    ensures Under(Join(a), Join(b)) <==> a <= b
  {
    if |a| == 1 {
      if |b| > 1 {
        assert Join(b)[|b[0]|] == '/';
        if Under(a[0], Join(b)) {
          FirstPart(a[0], Join(b)[|a[0]| + 1..], b[0], Join(b[1..]));
        }
        assert a <= b ==> a[0] == b[0];
        if a[0] == b[0] {
          assert a[0] + "/" <= Join(b);
          assert a == b[..1];
        }
      } else {
        if |a[0]| < |b[0]| { NoSlashAt(b[0], |a[0]|); }
        assert a[0] == b[0] ==> a == b;
      }
    } else {
      assert Join(a)[|a[0]|] == '/';
      if |b| == 1 {
        if |a[0]| < |b[0]| { NoSlashAt(b[0], |a[0]|); }
      } else {
        JoinUnder(a[1..], b[1..]);
        UnderTail(a[0], Join(a[1..]), b[0], Join(b[1..]));
        assert a <= b <==> a[0] == b[0] && a[1..] <= b[1..] by {
          if a[0] == b[0] && a[1..] <= b[1..] {
            assert a == [a[0]] + a[1..] && b == [b[0]] + b[1..];
          }
        }
      }
    }
  }

  lemma UnderTail(x: string, u: string, y: string, v: string)
    requires '/' !in x && '/' !in y
    ensures Under(x + "/" + u, y + "/" + v) <==> x == y && Under(u, v)
  {
    var a, b := x + "/" + u, y + "/" + v;
    if a == b {
      FirstPart(x, u, y, v);
    } else if a + "/" <= b {
      var rest := b[|a| + 1..];
      assert b == a + "/" + rest == x + "/" + (u + "/" + rest);
      FirstPart(x, u + "/" + rest, y, v);
      assert u + "/" <= v;
    }
    if x == y && u + "/" <= v {
      var rest := v[|u| + 1..];
      assert v == u + "/" + rest;
      assert b == a + "/" + rest;
    }
  }

  lemma JoinIsNotDot(p: Path)
    requires p != [] && ValidPath(p)
    ensures Join(p) != "."
  {
    if |p| > 1 {
      assert Join(p)[|p[0]|] == '/';
    }
  }

  lemma UnderIsAncestor(x: string, y: string)
    requires x != "."
    ensures Under(x, y) <==> SameOrAncestor(x, y)
  {
    if |x| < |y| && x <= y && y[|x|] == '/' {
      assert x + "/" == y[..|x| + 1];
    }
  }

  /** The text test decides the component prefix relation. */
  lemma AncestorIsPrefix(a: Path, b: Path)
    requires ValidPath(a) && ValidPath(b)
    ensures SameOrAncestor(Text(a), Text(b)) <==> a <= b
  {
    if a != [] {
      JoinIsNotDot(a);
      UnderIsAncestor(Text(a), Text(b));
      if b != [] {
        JoinUnder(a, b);
      } else {
        JoinNotAboveRoot(Join(a));
      }
    }
  }

  lemma JoinNotAboveRoot(x: string)
    requires x != "."
    ensures !Under(x, ".") || x == ""
  {}

  /** Distinct paths have distinct texts. */
  lemma TextInjective(a: Path, b: Path)
    requires ValidPath(a) && ValidPath(b) && Text(a) == Text(b)
    ensures a == b
  {
    AncestorIsPrefix(a, b);
    AncestorIsPrefix(b, a);
  }
}
