/** Conflicts that stay unresolved hold back the actions that depend on them: everything below a conflict,
    and the removal of a directory that has a conflict inside. */
module Dependencies {
  import opened Integers
  import opened Paths
  import opened Wrappers
  import opened Entries
  import opened SortedMerge
  import opened Manifests
  import opened Actions
  import opened Convergence

  predicate ChangeRemovesDirectory(c: Change) {
    match c
    case Removed(e) => e.isDir
    case Modified(old_, new_) => old_.isDir && !new_.isDir
    case Added(_) => false
  }

  predicate RemovesDirectory(a: Action) {
    match a
    case Local(c) => ChangeRemovesDirectory(c)
    case Remote(c) => ChangeRemovesDirectory(c)
    case ResolvedLocal(_, _, c) => ChangeRemovesDirectory(c)
    case ResolvedRemote(_, _, c) => ChangeRemovesDirectory(c)
    case Identical(l, r) => ChangeRemovesDirectory(l) || ChangeRemovesDirectory(r)
    case Conflict(_, _) => false
  }

  predicate Below(p: Path, q: Path) {
    q <= p && p != q
  }

  ghost predicate IsConflictAt(actions: seq<Action>, c: Path) {
    exists a :: a in actions && a.Conflict? && ActionKey(a) == c
  }

  /** What must not be applied: it lies below a conflict, or removes a directory with one below. */
  ghost predicate Blocked(actions: seq<Action>, a: Action) {
    exists c :: IsConflictAt(actions, c) &&
      (Below(ActionKey(a), c) || (RemovesDirectory(a) && Below(c, ActionKey(a))))
  }

  // ----- The search among the sorted conflicts -----

  /** How many leading paths are at most `path`. */
  function PartitionPoint(paths: seq<Path>, path: Path): nat {
    if paths == [] || !AtMost(paths[0], path) then 0 else 1 + PartitionPoint(paths[1..], path)
  }

  lemma {:induction false} PartitionPointSplits(paths: seq<Path>, path: Path)
    requires Ascending(paths)
    ensures var n := PartitionPoint(paths, path);
      && n <= |paths|
      && (forall i :: 0 <= i < n ==> AtMost(paths[i], path))
      && (n < |paths| ==> Less(path, paths[n]))
  {
    if paths != [] {
      if AtMost(paths[0], path) {
        PartitionPointSplits(paths[1..], path);
      } else {
        Total(paths[0], path);
      }
    }
  }

  predicate FirstAfterIsBelow(paths: seq<Path>, path: Path) {
    var n := PartitionPoint(paths, path);
    n < |paths| && path <= paths[n]
  }

  /** Looking at the first path after `path` is enough: it is below `path` if any is. */
  lemma FirstAfterSuffices(paths: seq<Path>, path: Path)
    requires Ascending(paths)
    ensures FirstAfterIsBelow(paths, path) <==> exists j :: 0 <= j < |paths| && Below(paths[j], path)
  {
    var n := PartitionPoint(paths, path);
    PartitionPointSplits(paths, path);
    Irreflexive(path);
    if FirstAfterIsBelow(paths, path) {
      assert Below(paths[n], path);
    }
    if j :| 0 <= j < |paths| && Below(paths[j], path) {
      PrefixFirst(path, paths[j]);
      if j < n {
        Asymmetric(path, paths[j]);
        assert false;
      }
      if n < j {
        SubtreeContiguous(path, paths[n], paths[j]);
      }
    }
  }

  // ----- The filter -----

  ghost function Keep(actions: seq<Action>, a: Action): Option<Action> {
    if a.Conflict? || Blocked(actions, a) then None else Some(a)
  }

  ghost function Keeper(actions: seq<Action>): (f: Action -> Option<Action>)
    ensures forall a :: f(a) == Keep(actions, a)
  {
    (a: Action) => Keep(actions, a)
  }

  ghost function Skip(actions: seq<Action>, a: Action): Option<Path> {
    if !a.Conflict? && Blocked(actions, a) then Some(ActionKey(a)) else None
  }

  ghost function Skipper(actions: seq<Action>): (f: Action -> Option<Path>)
    ensures forall a :: f(a) == Skip(actions, a)
  {
    (a: Action) => Skip(actions, a)
  }

  predicate HasAncestorIn(path: Path, paths: set<Path>) {
    exists k :: 0 <= k < |path| && path[..k] in paths
  }

  /** The paths of the conflicts, in order. */
  method UnresolvedPaths(actions: seq<Action>) returns (paths: seq<Path>)
    requires SortedBy(ActionKey, actions)
    ensures Ascending(paths)
    ensures forall p :: p in paths <==> IsConflictAt(actions, p)
  {
    paths := [];
    for i := 0 to |actions|
      invariant Ascending(paths)
      invariant forall p :: p in paths ==> IsConflictAt(actions, p)
      invariant forall j :: 0 <= j < i && actions[j].Conflict? ==> ActionKey(actions[j]) in paths
      invariant forall k, j :: 0 <= k < |paths| && i <= j < |actions| ==> Less(paths[k], ActionKey(actions[j]))
    {
      if actions[i].Conflict? {
        paths := paths + [ActionKey(actions[i])];
      }
    }
  }

  lemma TestIsBlocked(actions: seq<Action>, paths: seq<Path>, a: Action)
    requires Ascending(paths) && forall p :: p in paths <==> IsConflictAt(actions, p)
    ensures HasAncestorIn(ActionKey(a), set p | p in paths) || (RemovesDirectory(a) && FirstAfterIsBelow(paths, ActionKey(a)))
      <==> Blocked(actions, a)
  {
    var path := ActionKey(a);
    FirstAfterSuffices(paths, path);
    if HasAncestorIn(path, set p | p in paths) {
      var k :| 0 <= k < |path| && path[..k] in paths;
      assert Below(path, path[..k]);
    }
    if c :| IsConflictAt(actions, c) && (Below(path, c) || (RemovesDirectory(a) && Below(c, path))) {
      assert c in paths;
      if Below(path, c) {
        assert path[..|c|] == c;
      }
    }
  }

  /** Whether the program holds an action back. */
  method IsHeldBack(ghost actions: seq<Action>, unresolvedPaths: seq<Path>, unresolvedSet: set<Path>, a: Action) returns (held: bool)
    requires Ascending(unresolvedPaths) && unresolvedSet == set p | p in unresolvedPaths
    requires forall p :: p in unresolvedPaths <==> IsConflictAt(actions, p)
    ensures held <==> Blocked(actions, a)
  {
    TestIsBlocked(actions, unresolvedPaths, a);
    var path := ActionKey(a);
    var belowUnresolved := HasAncestorIn(path, unresolvedSet);
    var removesUnresolvedSubtree := RemovesDirectory(a) && FirstAfterIsBelow(unresolvedPaths, path);
    held := belowUnresolved || removesUnresolvedSubtree;
  }

  /** Splits a plan into the actions to apply and the paths held back, both in order. */
  method FilterUnresolvedConflictDependencies(actions: seq<Action>) returns (active: seq<Action>, skipped: seq<Path>)
    requires SortedBy(ActionKey, actions)
    ensures active == FilterMap(Keeper(actions), actions)
    ensures skipped == FilterMap(Skipper(actions), actions)
  {
    var unresolvedPaths := UnresolvedPaths(actions);
    var unresolvedSet := set p | p in unresolvedPaths;
    active, skipped := [], [];
    ghost var keeper, skipper := Keeper(actions), Skipper(actions);
    assert actions[0..] == actions;
    for i := 0 to |actions|
      invariant active + FilterMap(keeper, actions[i..]) == FilterMap(keeper, actions)
      invariant skipped + FilterMap(skipper, actions[i..]) == FilterMap(skipper, actions)
    {
      var a := actions[i];
      FilterMapFrom(keeper, actions, i, active);
      FilterMapFrom(skipper, actions, i, skipped);
      ghost var before, skippedBefore := active, skipped;
      if !a.Conflict? {
        var held := IsHeldBack(actions, unresolvedPaths, unresolvedSet, a);
        if held {
          skipped := skipped + [ActionKey(a)];
        } else {
          active := active + [a];
        }
      }
      assert active == before + AsSeq(keeper(a));
      assert skipped == skippedBefore + AsSeq(skipper(a));
    }
  }

  // ----- What the filter guarantees -----

  /** Every action is applied, unresolved or skipped, and nothing is two of these. */
  lemma Partition(actions: seq<Action>, a: Action)
    requires SortedBy(ActionKey, actions) && a in actions
    ensures var active, skipped := FilterMap(Keeper(actions), actions), FilterMap(Skipper(actions), actions);
      && (a in active <==> !a.Conflict? && ActionKey(a) !in skipped)
      && (a.Conflict? ==> ActionKey(a) !in skipped)
  {
    FilterMapMembers(Keeper(actions), actions);
    FilterMapMembers(Skipper(actions), actions);
    if ActionKey(a) in FilterMap(Skipper(actions), actions) {
      var b :| b in actions && Skip(actions, b) == Some(ActionKey(a));
      SameKeySame(actions, a, b);
    }
  }

  lemma SameKeySame(actions: seq<Action>, a: Action, b: Action)
    requires SortedBy(ActionKey, actions) && a in actions && b in actions && ActionKey(a) == ActionKey(b)
    ensures a == b
  {
    var i :| 0 <= i < |actions| && actions[i] == a;
    var j :| 0 <= j < |actions| && actions[j] == b;
    Irreflexive(ActionKey(a));
    assert i == j;
  }

  /** No applied action lies below a conflict, and no applied removal of a directory has a conflict or a
      skipped action anywhere inside it. */
  lemma NothingAppliedDepends(actions: seq<Action>, a: Action, c: Path)
    requires SortedBy(ActionKey, actions) && a in FilterMap(Keeper(actions), actions)
    ensures IsConflictAt(actions, c) ==> !Below(ActionKey(a), c)
    ensures RemovesDirectory(a) && (IsConflictAt(actions, c) || c in FilterMap(Skipper(actions), actions)) ==> !Below(c, ActionKey(a))
  {
    FilterMapMembers(Keeper(actions), actions);
    FilterMapMembers(Skipper(actions), actions);
    assert a in actions && !Blocked(actions, a);
    if RemovesDirectory(a) && c in FilterMap(Skipper(actions), actions) && Below(c, ActionKey(a)) {
      var s :| s in actions && Skip(actions, s) == Some(c);
      var d :| IsConflictAt(actions, d) && (Below(c, d) || (RemovesDirectory(s) && Below(d, c)));
      SkippedInsideRemoved(actions, a, c, d);
    }
  }

  /** The conflict behind a skipped action inside a removed directory blocks the removal as well. */
  lemma SkippedInsideRemoved(actions: seq<Action>, a: Action, c: Path, d: Path)
    requires SortedBy(ActionKey, actions) && a in actions && !a.Conflict? && RemovesDirectory(a)
    requires IsConflictAt(actions, d) && Below(c, ActionKey(a)) && (Below(c, d) || Below(d, c))
    ensures Blocked(actions, a)
  {
    var path := ActionKey(a);
    if Below(d, c) {
      assert Below(d, path);
    } else if |d| <= |path| {
      PrefixesChain(d, path, c);
      if d == path {
        var b :| b in actions && b.Conflict? && ActionKey(b) == d;
        SameKeySame(actions, a, b);
      }
      assert Below(path, d);
    } else {
      PrefixesChain(path, d, c);
      assert Below(d, path);
    }
  }

  /** Applying only what the filter lets through still makes both sides equivalent at every path, but for
      the conflicts and the skipped paths, where both stay as they are. */
  lemma ConvergenceOfApplied(strong: bool, l0: Manifest, l1: Manifest, r0: Manifest, r1: Manifest, choices: Choices,
                             li: Path -> u64, ri: Path -> u64, p: Path)
    requires IsSide(strong, l0, l1) && IsSide(strong, r0, r1)
    requires forall q :: EquivalentAt(strong, At(l0, q), At(r0, q))
    ensures var plan := Plan(strong, l0, l1, r0, r1, choices);
      var active := FilterMap(Keeper(plan), plan);
      var l := Get(ApplySide(ToTree(l1), active, li), p);
      var r := Get(ApplySide(ToTree(r1), Reverse(active), ri), p);
      if IsConflictAt(plan, p) || p in FilterMap(Skipper(plan), plan) then l == At(l1, p) && r == At(r1, p)
      else EquivalentAt(strong, l, r)
  {
    var plan := Plan(strong, l0, l1, r0, r1, choices);
    var active := FilterMap(Keeper(plan), plan);
    PlanAt(strong, l0, l1, r0, r1, choices, p);
    FilterMapFind(ActionKey, ActionKey, Keeper(plan), plan, p);
    ApplyPlanAt(active, ToTree(l1), ToTree(r1), li, ri, p);
    ApplyPlanAt(plan, ToTree(l1), ToTree(r1), li, ri, p);
    ToTreeAt(l1, p);
    ToTreeAt(r1, p);
    ThreeWayConvergence(strong, l0, l1, r0, r1, choices, li, ri, p);
    FindMember(ActionKey, plan, p);
    var a := Find(ActionKey, plan, p);
    if a.Some? {
      Partition(plan, a.value);
      FilterMapMembers(Keeper(plan), plan);
      if IsConflictAt(plan, p) {
        var b :| b in plan && b.Conflict? && ActionKey(b) == p;
        SameKeySame(plan, a.value, b);
      }
    } else {
      FilterMapMembers(Skipper(plan), plan);
    }
  }

  // ----- The filter seen on the trees -----

  ghost predicate IsDirectory(e: Option<Entry>) {
    e.Some? && e.value.isDir
  }

  /** One side would lose the directory it has, or both have already replaced it in the same way; `l` and `r`
      are what the whole plan would leave. */
  ghost predicate LosesDirectory(strong: bool, s: PathState, l: Option<Entry>, r: Option<Entry>) {
    || (IsDirectory(s.l1) && !IsDirectory(l)) || (IsDirectory(s.r1) && !IsDirectory(r))
    || (Moved(s.l0, s.l1) && Moved(s.r0, s.r1) && EquivalentAt(strong, s.l1, s.r1) && IsDirectory(s.l0) && !IsDirectory(s.l1))
  }

  lemma RemovesDirectoryAt(strong: bool, s: PathState, p: Path, choices: Choices, li: Path -> u64, ri: Path -> u64)
    requires IsAt(s, p) && EquivalentAt(strong, s.l0, s.r0)
    ensures var a := Chosen(choices, Merged(strong, s));
      a.Some? ==>
        (RemovesDirectory(a.value) <==>
          LosesDirectory(strong, s, ResultOf(Directed(LocalChange, a), s.l1, li), ResultOf(Directed(RemoteChange, a), s.r1, ri)))
  {
  }

  lemma SkippedIffBlocked(actions: seq<Action>, p: Path)
    requires SortedBy(ActionKey, actions)
    ensures var a := Find(ActionKey, actions, p);
      p in FilterMap(Skipper(actions), actions) <==> a.Some? && !a.value.Conflict? && Blocked(actions, a.value)
  {
    FilterMapMembers(Skipper(actions), actions);
    FindMember(ActionKey, actions, p);
    var a := Find(ActionKey, actions, p);
    if p in FilterMap(Skipper(actions), actions) {
      var b :| b in actions && Skip(actions, b) == Some(p);
      SameKeySame(actions, a.value, b);
    }
    if a.Some? && !a.value.Conflict? && Blocked(actions, a.value) {
      assert Skip(actions, a.value) == Some(p);
    }
  }

  /** What is held back, read off the trees: an action that is not a conflict itself is skipped exactly when
      there is a conflict above it, or one below it and its directory would be lost. */
  lemma SkippedExactly(strong: bool, l0: Manifest, l1: Manifest, r0: Manifest, r1: Manifest, choices: Choices,
                       li: Path -> u64, ri: Path -> u64, p: Path)
    requires IsManifest(l0) && IsManifest(l1) && IsManifest(r0) && IsManifest(r1)
    requires EquivalentAt(strong, At(l0, p), At(r0, p))
    ensures var plan := Plan(strong, l0, l1, r0, r1, choices);
      var l := Get(ApplySide(ToTree(l1), plan, li), p);
      var r := Get(ApplySide(ToTree(r1), Reverse(plan), ri), p);
      var a := Find(ActionKey, plan, p);
      p in FilterMap(Skipper(plan), plan) <==>
        && a.Some? && !a.value.Conflict?
        && exists c :: IsConflictAt(plan, c) && c != p &&
             (c <= p || (p <= c && LosesDirectory(strong, StateAt(l0, l1, r0, r1, p), l, r)))
  {
    var plan := Plan(strong, l0, l1, r0, r1, choices);
    StateIsAt(l0, l1, r0, r1, p);
    PlanAt(strong, l0, l1, r0, r1, choices, p);
    ApplyPlanAt(plan, ToTree(l1), ToTree(r1), li, ri, p);
    ToTreeAt(l1, p);
    ToTreeAt(r1, p);
    RemovesDirectoryAt(strong, StateAt(l0, l1, r0, r1, p), p, choices, li, ri);
    SkippedIffBlocked(plan, p);
    FindMember(ActionKey, plan, p);
  }

  /** Applying what is left never takes away, from either side, a directory with a conflict or a skipped
      path anywhere inside it, and touches nothing below a conflict. */
  lemma ConflictsKeepTheirDirectories(strong: bool, l0: Manifest, l1: Manifest, r0: Manifest, r1: Manifest, choices: Choices,
                                      li: Path -> u64, ri: Path -> u64, p: Path, c: Path)
    requires IsManifest(l0) && IsManifest(l1) && IsManifest(r0) && IsManifest(r1)
    requires EquivalentAt(strong, At(l0, p), At(r0, p)) && c != p
    ensures var plan := Plan(strong, l0, l1, r0, r1, choices);
      var active, skipped := FilterMap(Keeper(plan), plan), FilterMap(Skipper(plan), plan);
      var l := Get(ApplySide(ToTree(l1), active, li), p);
      var r := Get(ApplySide(ToTree(r1), Reverse(active), ri), p);
      && (IsConflictAt(plan, c) && c <= p ==> l == At(l1, p) && r == At(r1, p))
      && ((IsConflictAt(plan, c) || c in skipped) && p <= c ==>
            (IsDirectory(At(l1, p)) ==> IsDirectory(l)) && (IsDirectory(At(r1, p)) ==> IsDirectory(r)))
  {
    var plan := Plan(strong, l0, l1, r0, r1, choices);
    var active := FilterMap(Keeper(plan), plan);
    StateIsAt(l0, l1, r0, r1, p);
    PlanAt(strong, l0, l1, r0, r1, choices, p);
    FilterMapFind(ActionKey, ActionKey, Keeper(plan), plan, p);
    ApplyPlanAt(active, ToTree(l1), ToTree(r1), li, ri, p);
    ToTreeAt(l1, p);
    ToTreeAt(r1, p);
    RemovesDirectoryAt(strong, StateAt(l0, l1, r0, r1, p), p, choices, li, ri);
    FindMember(ActionKey, plan, p);
    FindMember(ActionKey, active, p);
    var a := Find(ActionKey, active, p);
    if a.Some? {
      NothingAppliedDepends(plan, a.value, c);
    }
  }
}
