/** Coalescing of filesystem events before they are queued (`merge_ancestor`, apps/indexer/src/watcher.rs). */
module Watcher {
  import opened Paths
  import opened TextOrder

  ghost predicate Sorted(s: seq<string>) {
    forall i, j | 0 <= i < j < |s| :: Leq(s[i], s[j])
  }

  ghost predicate Distinct(s: seq<string>) {
    forall i, j | 0 <= i < j < |s| :: s[i] != s[j]
  }

  function Insert(s: seq<string>, x: string): seq<string> {
    if s == [] then [x]
    else if Leq(x, s[0]) then [x] + s
    else [s[0]] + Insert(s[1..], x)
  }

  function Sort(s: seq<string>): seq<string> {
    if s == [] then [] else Insert(Sort(s[..|s| - 1]), s[|s| - 1])
  }

  lemma {:induction false} InsertSorts(s: seq<string>, x: string)
    requires Sorted(s)
    ensures Sorted(Insert(s, x)) && multiset(Insert(s, x)) == multiset(s) + multiset{x}
  {
    if s != [] {
      assert s == [s[0]] + s[1..];
      if Leq(x, s[0]) {
        var r := Insert(s, x);
        forall i, j | 0 <= i < j < |r| ensures Leq(r[i], r[j]) {
          if i == 0 && j > 1 { LeqTransitive(x, s[0], s[j - 1]); }
        }
      } else {
        LeqTotal(x, s[0]);
        InsertSorts(s[1..], x);
        var t := Insert(s[1..], x);
        forall k | 0 <= k < |t| ensures Leq(s[0], t[k]) {
          assert t[k] in multiset(t);
        }
      }
    }
  }

  lemma {:induction false} SortSorts(s: seq<string>)
    ensures Sorted(Sort(s)) && multiset(Sort(s)) == multiset(s)
  {
    if s != [] {
      SortSorts(s[..|s| - 1]);
      InsertSorts(Sort(s[..|s| - 1]), s[|s| - 1]);
      assert s == s[..|s| - 1] + [s[|s| - 1]];
    }
  }

  lemma HasElement(s: seq<string>)
    ensures s != [] ==> exists x :: x in s
  {
    if s != [] { assert s[0] in s; }
  }

  /** A sorted list without repetitions is determined by its elements. */
  lemma {:induction false} SortedUnique(s: seq<string>, t: seq<string>)
    requires Sorted(s) && Sorted(t) && Distinct(s) && Distinct(t)
    requires forall x :: x in s <==> x in t
    ensures s == t
  {
    if s == [] {
      HasElement(t);
    } else {
      assert s[0] in t && t != [];
      assert t[0] in s;
      var i :| 0 <= i < |s| && s[i] == t[0];
      var j :| 0 <= j < |t| && t[j] == s[0];
      LeqReflexive(s[0]);
      LeqAntisymmetric(s[0], t[0]);
      forall x ensures x in s[1..] <==> x in t[1..] {
        assert x in s <==> x == s[0] || x in s[1..];
        assert x in t <==> x == t[0] || x in t[1..];
      }
      SortedUnique(s[1..], t[1..]);
      assert s == [s[0]] + s[1..] && t == [t[0]] + t[1..];
    }
  }

  // ----- merging one event

  predicate Covered(paths: seq<string>, candidate: string) {
    exists i | 0 <= i < |paths| :: SameOrAncestor(paths[i], candidate)
  }

  /** `Vec::retain(|existing| !is_same_or_ancestor(candidate, existing))`. */
  function Retain(paths: seq<string>, candidate: string): seq<string> {
    if paths == [] then []
    else
      var kept := Retain(paths[..|paths| - 1], candidate);
      var last := paths[|paths| - 1];
      if SameOrAncestor(candidate, last) then kept else kept + [last]
  }

  function Merge(paths: seq<string>, candidate: string): seq<string> {
    if Covered(paths, candidate) then paths else Sort(Retain(paths, candidate) + [candidate])
  }

  lemma {:induction false} RetainElements(paths: seq<string>, candidate: string)
    requires Distinct(paths)
    ensures Distinct(Retain(paths, candidate))
    ensures forall x :: x in Retain(paths, candidate) <==> x in paths && !SameOrAncestor(candidate, x)
  {
    if paths != [] {
      var init, last := paths[..|paths| - 1], paths[|paths| - 1];
      RetainElements(init, candidate);
      assert paths == init + [last];
      assert last !in init;
    }
  }

  lemma SortElements(s: seq<string>)
    ensures Sorted(Sort(s))
    ensures forall x :: x in Sort(s) <==> x in s
    ensures Distinct(s) ==> Distinct(Sort(s))
  {
    SortSorts(s);
    forall x ensures x in Sort(s) <==> x in s {
      assert x in s <==> x in multiset(s);
      assert x in Sort(s) <==> x in multiset(Sort(s));
    }
    if Distinct(s) {
      forall x | x in s ensures multiset(s)[x] == 1 { DistinctCounts(s, x); }
      CountsDistinct(Sort(s));
    }
  }

  lemma {:induction false} DistinctCounts(s: seq<string>, x: string)
    requires Distinct(s)
    ensures multiset(s)[x] <= 1
  {
    if s != [] {
      var init, last := s[..|s| - 1], s[|s| - 1];
      assert s == init + [last];
      assert last !in init;
      DistinctCounts(init, x);
    }
  }

  lemma CountsDistinct(s: seq<string>)
    requires forall x | x in s :: multiset(s)[x] == 1
    ensures Distinct(s)
  {
    forall i, j | 0 <= i < j < |s| ensures s[i] != s[j] {
      var a, b := s[..j], s[j..];
      assert s == a + b && multiset(s) == multiset(a) + multiset(b);
      assert a[i] in a && b[0] in b;
      assert multiset(a)[s[i]] > 0 && multiset(b)[s[j]] > 0;
      assert s[i] in s;
    }
  }

  // ----- folding a stream of events

  /** The paths pending after the events, merged in order of arrival. */
  function Pending(events: seq<string>): seq<string> {
    if events == [] then [] else Merge(Pending(events[..|events| - 1]), events[|events| - 1])
  }

  /** An event that no other event strictly covers. */
  ghost predicate Topmost(events: seq<string>, p: string) {
    p in events && forall e | e in events && SameOrAncestor(e, p) :: e == p
  }

  /** Every event lies below a topmost one. Ancestors get shorter, and the dot is above everything. */
  lemma {:induction false} TopmostAbove(events: seq<string>, e: string) returns (top: string)
    requires e in events
    ensures Topmost(events, top) && SameOrAncestor(top, e)
    decreases if e == "." then 0 else |e| + 1
  {
    if Topmost(events, e) {
      top := e;
    } else {
      var above :| above in events && SameOrAncestor(above, e) && above != e;
      top := TopmostAbove(events, above);
      AncestorTransitive(top, above, e);
    }
  }

  /** The pending list holds exactly the topmost events, in text order and once each. */
  lemma {:induction false} PendingIsTopmost(events: seq<string>)
    ensures Sorted(Pending(events)) && Distinct(Pending(events))
    ensures forall p :: p in Pending(events) <==> Topmost(events, p)
  {
    if events != [] {
      var before, last := events[..|events| - 1], events[|events| - 1];
      assert events == before + [last];
      PendingIsTopmost(before);
      var paths := Pending(before);
      if Covered(paths, last) {
        var i :| 0 <= i < |paths| && SameOrAncestor(paths[i], last);
        CoveredChangesNothing(before, last, paths[i]);
      } else {
        RetainElements(paths, last);
        var kept := Retain(paths, last);
        assert forall p :: p in kept + [last] <==> p in kept || p == last;
        LastIsNew(paths, last, kept);
        SortElements(kept + [last]);
        forall p ensures p in Pending(events) <==> Topmost(events, p) {
          UncoveredBecomesTopmost(before, last, paths, p);
        }
      }
    }
  }

  lemma LastIsNew(paths: seq<string>, last: string, kept: seq<string>)
    requires !Covered(paths, last) && Distinct(kept)
    requires forall x :: x in kept <==> x in paths && !SameOrAncestor(last, x)
    ensures Distinct(kept + [last])
  {
    assert last !in kept;
  }

  lemma CoveredChangesNothing(before: seq<string>, last: string, top: string)
    requires Topmost(before, top) && SameOrAncestor(top, last)
    ensures forall p :: Topmost(before + [last], p) <==> Topmost(before, p)
  {
    var events := before + [last];
    assert forall e :: e in events <==> e in before || e == last;
    forall p ensures Topmost(events, p) <==> Topmost(before, p) {
      if Topmost(before, p) && SameOrAncestor(last, p) {
        AncestorTransitive(top, last, p);
        assert top == p;
        AncestorAntisymmetric(last, p);
      }
      if Topmost(events, p) && p == last {
        assert top == last;
      }
    }
  }

  lemma UncoveredBecomesTopmost(before: seq<string>, last: string, paths: seq<string>, p: string)
    requires forall q :: q in paths <==> Topmost(before, q)
    requires !Covered(paths, last)
    ensures Topmost(before + [last], p) <==> p == last || (p in paths && !SameOrAncestor(last, p))
  {
    var events := before + [last];
    assert forall e :: e in events <==> e in before || e == last;
    forall e | e in before ensures !SameOrAncestor(e, last) {
      if SameOrAncestor(e, last) {
        var top := TopmostAbove(before, e);
        AncestorTransitive(top, e, last);
        assert top in paths;
        assert Covered(paths, last);
      }
    }
  }

  /** No pending path lies below another. */
  lemma PendingIsAntichain(events: seq<string>)
    ensures forall p, q | p in Pending(events) && q in Pending(events) && SameOrAncestor(p, q) :: p == q
  {
    PendingIsTopmost(events);
  }

  /** The pending paths cover exactly what the events cover. */
  lemma PendingCovers(events: seq<string>, path: string)
    ensures (exists p | p in Pending(events) :: SameOrAncestor(p, path)) <==> (exists e | e in events :: SameOrAncestor(e, path))
  {
    PendingIsTopmost(events);
    if e :| e in events && SameOrAncestor(e, path) {
      var top := TopmostAbove(events, e);
      AncestorTransitive(top, e, path);
      assert top in Pending(events);
    }
  }

  /** The result depends only on the set of events, not on their order or repetition. */
  lemma PendingIsCanonical(a: seq<string>, b: seq<string>)
    requires forall e :: e in a <==> e in b
    ensures Pending(a) == Pending(b)
  {
    PendingIsTopmost(a);
    PendingIsTopmost(b);
    forall p ensures p in Pending(a) <==> p in Pending(b) {
      assert Topmost(a, p) <==> Topmost(b, p);
    }
    SortedUnique(Pending(a), Pending(b));
  }

  lemma PendingAppend(events: seq<string>, candidate: string)
    ensures Pending(events + [candidate]) == Merge(Pending(events), candidate)
  {
    assert (events + [candidate])[..|events|] == events;
  }

  // ----- the list that the program changes in place

  method AnyCovers(paths: seq<string>, candidate: string) returns (covered: bool)
    ensures covered <==> Covered(paths, candidate)
  {
    for i := 0 to |paths|
      invariant forall j | 0 <= j < i :: !SameOrAncestor(paths[j], candidate)
    {
      if SameOrAncestor(paths[i], candidate) { return true; }
    }
    return false;
  }

  method RetainOthers(paths: seq<string>, candidate: string) returns (kept: seq<string>)
    ensures kept == Retain(paths, candidate)
  {
    kept := [];
    for i := 0 to |paths|
      invariant kept == Retain(paths[..i], candidate)
    {
      assert paths[..i + 1][..i] == paths[..i];
      if !SameOrAncestor(candidate, paths[i]) { kept := kept + [paths[i]]; }
    }
    assert paths[..|paths|] == paths;
  }

  class PendingPaths {
    var paths: seq<string>
    ghost var events: seq<string>

    ghost predicate Valid()
      reads this
    {
      paths == Pending(events)
    }

    constructor ()
      ensures Valid() && events == []
    {
      paths, events := [], [];
    }

    method MergeAncestor(candidate: string)
      requires Valid()
      modifies this
      ensures Valid() && events == old(events) + [candidate]
      ensures paths == Merge(old(paths), candidate)
    {
      PendingAppend(events, candidate);
      events := events + [candidate];
      var covered := AnyCovers(paths, candidate);
      if !covered {
        var kept := RetainOthers(paths, candidate);
        paths := Sort(kept + [candidate]);
      }
    }

    /** `std::mem::take` when the debounce timer fires: the paths to queue, and a fresh list. */
    method Take() returns (taken: seq<string>)
      requires Valid()
      modifies this
      ensures Valid() && events == [] && taken == Pending(old(events))
    {
      taken := paths;
      paths, events := [], [];
    }
  }
}
