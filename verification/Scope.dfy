/** The scope of a scan: a restriction to one subtree and a compacted list of excluded subtrees. */
module Scope {
  import opened Paths

  datatype ScanScope = ScanScope(restrict: Path, excludes: seq<Path>) {

    predicate IsExcluded(path: Path) {
      exists i :: 0 <= i < |excludes| && excludes[i] <= path
    }

    predicate Selected(path: Path) {
      restrict <= path && !IsExcluded(path)
    }

    predicate Relevant(path: Path) {
      (restrict <= path || path <= restrict) && !IsExcluded(path)
    }
  }

  // ----- The tests of a scope, as prefix tests on its paths -----

  ghost predicate Excludes(scope: ScanScope, path: Path) {
    exists e :: e in scope.excludes && e <= path
  }

  ghost predicate Selects(scope: ScanScope, path: Path) {
    scope.restrict <= path && forall e :: e in scope.excludes ==> !(e <= path)
  }

  /** On the way to the restriction, or in it. */
  ghost predicate Reaches(scope: ScanScope, path: Path) {
    (scope.restrict <= path || path <= scope.restrict) && forall e :: e in scope.excludes ==> !(e <= path)
  }

  lemma TestsMean(scope: ScanScope, path: Path)
    ensures scope.IsExcluded(path) <==> Excludes(scope, path)
    ensures scope.Selected(path) <==> Selects(scope, path)
    ensures scope.Relevant(path) <==> Reaches(scope, path)
  {
    if scope.IsExcluded(path) {
      var i :| 0 <= i < |scope.excludes| && scope.excludes[i] <= path;
      assert scope.excludes[i] in scope.excludes;
    }
  }

  /** Sorting and removing duplicates, one path at a time. */
  function InsertPath(paths: seq<Path>, x: Path): seq<Path> {
    if paths == [] then [x]
    else if paths[0] == x then paths
    else if Less(x, paths[0]) then [x] + paths
    else [paths[0]] + InsertPath(paths[1..], x)
  }

  function SortDedup(paths: seq<Path>): seq<Path> {
    if paths == [] then [] else InsertPath(SortDedup(paths[1..]), paths[0])
  }

  lemma {:induction false} InsertPathSorted(paths: seq<Path>, x: Path)
    requires Ascending(paths)
    ensures Ascending(InsertPath(paths, x))
    ensures forall y :: y in InsertPath(paths, x) <==> y == x || y in paths
  {
    if paths != [] {
      var head, tail := paths[0], paths[1..];
      assert paths == [head] + tail;
      Total(x, head);
      if x != head && Less(x, head) {
        forall i | 0 <= i < |paths|
          ensures Less(x, paths[i])
        {
          if i > 0 {
            Transitive(x, head, paths[i]);
          }
        }
      } else if x != head {
        InsertPathSorted(tail, x);
        forall j | 0 <= j < |InsertPath(tail, x)|
          ensures Less(head, InsertPath(tail, x)[j])
        {
          assert InsertPath(tail, x)[j] in InsertPath(tail, x);
        }
      }
    }
  }

  lemma {:induction false} SortDedupSorts(paths: seq<Path>)
    ensures Ascending(SortDedup(paths))
    ensures forall y :: y in SortDedup(paths) <==> y in paths
  {
    if paths != [] {
      SortDedupSorts(paths[1..]);
      InsertPathSorted(SortDedup(paths[1..]), paths[0]);
      assert paths == [paths[0]] + paths[1..];
    }
  }

  ghost predicate Antichain(paths: seq<Path>) {
    forall i, j :: 0 <= i < |paths| && 0 <= j < |paths| && i != j ==> !(paths[i] <= paths[j])
  }

  ghost predicate Covers(paths: seq<Path>, x: Path) {
    exists i :: 0 <= i < |paths| && paths[i] <= x
  }

  /** A later path without an ancestor in an antichain extends it. */
  lemma AppendIncomparable(paths: seq<Path>, x: Path)
    requires Ascending(paths) && Antichain(paths)
    requires forall i :: 0 <= i < |paths| ==> Less(paths[i], x) && !(paths[i] <= x)
    ensures Ascending(paths + [x]) && Antichain(paths + [x])
  {
    forall i | 0 <= i < |paths|
      ensures !(x <= paths[i])
    {
      if x <= paths[i] {
        PrefixFirst(x, paths[i]);
        Asymmetric(paths[i], x);
      }
    }
  }

  lemma CoversMore(paths: seq<Path>, more: seq<Path>, x: Path)
    requires Covers(paths, x) && paths <= more
    ensures Covers(more, x)
  {
    var i :| 0 <= i < |paths| && paths[i] <= x;
    assert more[i] <= x;
  }

  /** `ScanScope::new`: the excludes end up sorted, none below another; the scope selects exactly the paths
      that are in the restriction and at or below none of the given excludes. */
  method NewScope(restrict: Path, excludes: seq<Path>) returns (scope: ScanScope)
    ensures scope.restrict == restrict
    ensures Ascending(scope.excludes) && Antichain(scope.excludes)
    ensures forall x :: x in scope.excludes ==> x in excludes
    ensures forall path :: scope.IsExcluded(path) <==> exists e :: e in excludes && e <= path
    ensures forall path :: scope.Selected(path) <==> restrict <= path && forall e :: e in excludes ==> !(e <= path)
  {
    var sorted := SortDedup(excludes);
    SortDedupSorts(excludes);
    var compacted: seq<Path> := [];
    for k := 0 to |sorted|
      invariant Ascending(compacted) && Antichain(compacted)
      invariant forall i :: 0 <= i < |compacted| ==> exists j :: 0 <= j < k && sorted[j] == compacted[i]
      invariant forall j :: 0 <= j < k ==> Covers(compacted, sorted[j])
    {
      ghost var before := compacted;
      if !exists i :: 0 <= i < |compacted| && compacted[i] <= sorted[k] {
        AppendIncomparable(compacted, sorted[k]);
        compacted := compacted + [sorted[k]];
        assert compacted[|before|] <= sorted[k];
      }
      forall j | 0 <= j < k
        ensures Covers(compacted, sorted[j])
      {
        CoversMore(before, compacted, sorted[j]);
      }
    }
    scope := ScanScope(restrict, compacted);
    CompactedSelects(sorted, excludes, scope);
  }

  lemma CompactedSelects(sorted: seq<Path>, excludes: seq<Path>, scope: ScanScope)
    requires forall y :: y in sorted <==> y in excludes
    requires forall x :: x in scope.excludes ==> x in excludes
    requires forall j :: 0 <= j < |sorted| ==> Covers(scope.excludes, sorted[j])
    ensures forall path :: scope.Selected(path) <==> scope.restrict <= path && forall e :: e in excludes ==> !(e <= path)
    ensures forall path :: scope.IsExcluded(path) <==> exists e :: e in excludes && e <= path
  {
    forall path
      ensures scope.IsExcluded(path) <==> exists e :: e in excludes && e <= path
    {
      CoverageSame(sorted, scope.excludes, excludes, path);
    }
  }

  lemma CoverageSame(sorted: seq<Path>, compacted: seq<Path>, excludes: seq<Path>, path: Path)
    requires forall y :: y in sorted <==> y in excludes
    requires forall x :: x in compacted ==> x in excludes
    requires forall j :: 0 <= j < |sorted| ==> Covers(compacted, sorted[j])
    ensures Covers(compacted, path) <==> exists e :: e in excludes && e <= path
  {
    if Covers(compacted, path) {
      var i :| 0 <= i < |compacted| && compacted[i] <= path;
      assert compacted[i] in excludes;
    }
    if e :| e in excludes && e <= path {
      assert e in sorted;
      var j :| 0 <= j < |sorted| && sorted[j] == e;
      var k :| 0 <= k < |compacted| && compacted[k] <= sorted[j];
      assert compacted[k] <= path;
    }
  }
}
