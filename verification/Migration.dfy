/** The plan that moves both snapshots to strong content digests: built from what the two sides have now,
    with the changes only saying which side moved. */
module Migration {
  import opened Integers
  import opened Paths
  import opened Wrappers
  import opened Entries
  import opened SortedMerge
  import opened Scope
  import opened Manifests
  import opened Actions
  import opened Convergence

  function MigrationChange(old_: Option<Entry>, new_: Option<Entry>): Option<Change> {
    match (old_, new_)
    case (None, None) => None
    case (None, Some(n)) => Some(Added(n))
    case (Some(o), None) => Some(Removed(o))
    case (Some(o), Some(n)) => Some(Modified(o, n))
  }

  /** An entry of the plan; `Unreachable` marks the arms that the program declares unreachable. */
  datatype Planned = Nothing | Planned(action: Action) | Unreachable

  function MigrationConflict(local: Option<Entry>, remote: Option<Entry>): Planned {
    match (local, remote)
    case (Some(l), Some(r)) => Planned(Conflict(Modified(r, l), Modified(l, r)))
    case (None, Some(r)) => Planned(Conflict(Removed(r), Modified(r, r)))
    case (Some(l), None) => Planned(Conflict(Modified(l, l), Removed(l)))
    case (None, None) => Unreachable
  }

  predicate Agree(local: Option<Entry>, remote: Option<Entry>) {
    match (local, remote)
    case (None, None) => true
    case (Some(l), Some(r)) => SameChange(true, Added(l), Added(r))
    case _ => false
  }

  function Row(local: Option<Entry>, remote: Option<Entry>, localChanged: bool, remoteChanged: bool): Planned {
    var equivalent := Agree(local, remote);
    if localChanged && !remoteChanged then
      match MigrationChange(remote, local)
      case Some(c) => Planned(Remote(c))
      case None => Nothing
    else if !localChanged && remoteChanged then
      match MigrationChange(local, remote)
      case Some(c) => Planned(Local(c))
      case None => Nothing
    else if localChanged && remoteChanged && equivalent then
      match (local, remote)
      case (Some(l), Some(r)) => Planned(Identical(Added(l), Added(r)))
      case (None, None) => Nothing
      case _ => Unreachable
    else if !equivalent then MigrationConflict(local, remote)
    else Nothing
  }

  /** No combination reaches an arm that the program calls unreachable. */
  lemma NeverUnreachable(local: Option<Entry>, remote: Option<Entry>, localChanged: bool, remoteChanged: bool)
    ensures !Row(local, remote, localChanged, remoteChanged).Unreachable?
  {
  }

  /** A path is left out exactly when both sides agree on it, and it is gone or neither side changed it. */
  lemma NothingIffSettled(local: Option<Entry>, remote: Option<Entry>, localChanged: bool, remoteChanged: bool)
    ensures Row(local, remote, localChanged, remoteChanged).Nothing? <==>
      EquivalentAt(true, local, remote) && (local.None? || (!localChanged && !remoteChanged))
  {
  }

  /** Every conflict of the plan can be resolved either way, and the resolution installs what the chosen
      direction says: the remote entry here, or the local entry there. */
  lemma ConflictsResolve(local: Option<Entry>, remote: Option<Entry>, localChanged: bool, remoteChanged: bool)
    requires var row := Row(local, remote, localChanged, remoteChanged); row.Planned? && row.action.Conflict?
    ensures var a := Row(local, remote, localChanged, remoteChanged).action;
      && ResolveAction(a, ToLocal).Some? && ResolveAction(a, ToRemote).Some?
      && LocalChange(ResolveAction(a, ToLocal).value) == MigrationChange(local, remote)
      && RemoteChange(ResolveAction(a, ToRemote).value) == MigrationChange(remote, local)
  {
  }

  // ----- The table over all paths -----

  function PathKey(p: Path): Path {
    p
  }

  datatype Inputs = Inputs(localChanges: seq<Change>, remoteChanges: seq<Change>, local: Manifest, remote: Manifest) {
    ghost predicate Valid() {
      && SortedBy(ChangeKey, localChanges) && SortedBy(ChangeKey, remoteChanges)
      && IsManifest(local) && IsManifest(remote)
    }

    function RowAt(p: Path): Planned {
      Row(At(local, p), At(remote, p), Find(ChangeKey, localChanges, p).Some?, Find(ChangeKey, remoteChanges, p).Some?)
    }

    function ActionAt(p: Path): Option<Action> {
      if RowAt(p).Planned? then Some(RowAt(p).action) else None
    }

    function Paths(): seq<Path> {
      SortDedup(Keys(EntryKey, local) + Keys(EntryKey, remote) + Keys(ChangeKey, localChanges) + Keys(ChangeKey, remoteChanges))
    }
  }

  function Keys<T>(key: T -> Path, xs: seq<T>): (ks: seq<Path>)
    ensures |ks| == |xs| && forall i :: 0 <= i < |xs| ==> ks[i] == key(xs[i])
  {
    seq(|xs|, i requires 0 <= i < |xs| => key(xs[i]))
  }

  function Planner(inputs: Inputs): (f: Path -> Option<Action>)
    ensures forall p :: f(p) == inputs.ActionAt(p)
  {
    (p: Path) => inputs.ActionAt(p)
  }

  method BuildMigrationActions(inputs: Inputs) returns (actions: seq<Action>)
    requires inputs.Valid()
    ensures actions == FilterMap(Planner(inputs), inputs.Paths())
  {
    var paths := inputs.Paths();
    ghost var planner := Planner(inputs);
    actions := [];
    assert paths[0..] == paths;
    for i := 0 to |paths|
      invariant actions + FilterMap(planner, paths[i..]) == FilterMap(planner, paths)
    {
      var l := BinarySearch(EntryKey, inputs.local, paths[i]);
      var local := if l.Some? then Some(inputs.local[l.value]) else None;
      var r := BinarySearch(EntryKey, inputs.remote, paths[i]);
      var remote := if r.Some? then Some(inputs.remote[r.value]) else None;
      var localChange := BinarySearch(ChangeKey, inputs.localChanges, paths[i]);
      var remoteChange := BinarySearch(ChangeKey, inputs.remoteChanges, paths[i]);
      FilterMapFrom(planner, paths, i, actions);
      ghost var before := actions;
      var row := Row(local, remote, localChange.Some?, remoteChange.Some?);
      if row.Planned? {
        actions := actions + [row.action];
      }
      assert actions == before + AsSeq(planner(paths[i]));
    }
  }

  // ----- What the plan does -----

  lemma KeysMember<T(!new)>(key: T -> Path, xs: seq<T>, p: Path)
    ensures p in Keys(key, xs) <==> Find(key, xs, p).Some?
  {
  }

  lemma RowKeepsPath(inputs: Inputs, p: Path)
    ensures inputs.ActionAt(p).Some? ==> ActionKey(inputs.ActionAt(p).value) == p
  {
    FindMember(EntryKey, inputs.local, p);
    FindMember(EntryKey, inputs.remote, p);
  }

  lemma PathsCoverRows(inputs: Inputs, p: Path)
    ensures SortedBy(PathKey, inputs.Paths())
    ensures inputs.ActionAt(p).Some? ==> Find(PathKey, inputs.Paths(), p) == Some(p)
  {
    var all := Keys(EntryKey, inputs.local) + Keys(EntryKey, inputs.remote) + Keys(ChangeKey, inputs.localChanges) + Keys(ChangeKey, inputs.remoteChanges);
    SortDedupSorts(all);
    KeysMember(EntryKey, inputs.local, p);
    KeysMember(EntryKey, inputs.remote, p);
    KeysMember(ChangeKey, inputs.localChanges, p);
    KeysMember(ChangeKey, inputs.remoteChanges, p);
    FindMember(PathKey, inputs.Paths(), p);
    if inputs.ActionAt(p).Some? {
      assert p in all;
      assert p in inputs.Paths() && PathKey(p) == p;
    }
  }

  /** The plan is sorted, and at every path it has exactly the action of the table: none or one. */
  lemma MigrationAt(inputs: Inputs, p: Path)
    ensures var actions := FilterMap(Planner(inputs), inputs.Paths());
      SortedBy(ActionKey, actions) && Find(ActionKey, actions, p) == inputs.ActionAt(p)
  {
    PathsCoverRows(inputs, p);
    forall q | q in inputs.Paths() && Planner(inputs)(q).Some?
      ensures ActionKey(Planner(inputs)(q).value) == PathKey(q)
    {
      RowKeepsPath(inputs, q);
    }
    FilterMapFind(PathKey, ActionKey, Planner(inputs), inputs.Paths(), p);
    FindMember(PathKey, inputs.Paths(), p);
  }

  function MigrationPlan(inputs: Inputs, choices: Choices): seq<Action> {
    ResolveAll(FilterMap(Planner(inputs), inputs.Paths()), choices)
  }

  /** Choosing keeps the actions of the plan at their paths, because none of its conflicts is unresolvable. */
  lemma ChosenKeepsPath(inputs: Inputs, choices: Choices, p: Path)
    requires inputs.ActionAt(p).Some?
    ensures var d := Decide(choices, inputs.ActionAt(p).value); d.Some? && ActionKey(d.value) == p
  {
    FindMember(EntryKey, inputs.local, p);
    FindMember(EntryKey, inputs.remote, p);
  }

  lemma MigrationPlanAt(inputs: Inputs, choices: Choices, p: Path)
    ensures var plan := MigrationPlan(inputs, choices);
      SortedBy(ActionKey, plan) && Find(ActionKey, plan, p) == Chosen(choices, inputs.ActionAt(p))
  {
    var actions := FilterMap(Planner(inputs), inputs.Paths());
    MigrationAt(inputs, p);
    forall a | a in actions && Decider(choices)(a).Some?
      ensures ActionKey(Decider(choices)(a).value) == ActionKey(a)
    {
      var i :| 0 <= i < |actions| && actions[i] == a;
      FindAt(ActionKey, actions, i);
      MigrationAt(inputs, ActionKey(a));
      ChosenKeepsPath(inputs, choices, ActionKey(a));
    }
    FilterMapFind(ActionKey, ActionKey, Decider(choices), actions, p);
  }

  /** One row, applied: unless it is a conflict left unresolved, both sides end up equivalent. */
  lemma RowConverges(local: Option<Entry>, remote: Option<Entry>, localChanged: bool, remoteChanged: bool, p: Path,
                     choices: Choices, li: Path -> u64, ri: Path -> u64)
    requires (local.Some? ==> local.value.path == p) && (remote.Some? ==> remote.value.path == p)
    requires Hashed(true, local) && Hashed(true, remote)
    ensures var row := Row(local, remote, localChanged, remoteChanged);
      var a := Chosen(choices, if row.Planned? then Some(row.action) else None);
      var l := ResultOf(Directed(LocalChange, a), local, li);
      var r := ResultOf(Directed(RemoteChange, a), remote, ri);
      if a.Some? && a.value.Conflict? then l == local && r == remote else EquivalentAt(true, l, r)
  {
  }

  /** Migration converges whatever the old snapshots were: once everything is hashed, applying the plan
      makes both sides equivalent at every path without an unresolved conflict. */
  lemma MigrationConverges(inputs: Inputs, choices: Choices, li: Path -> u64, ri: Path -> u64, p: Path)
    requires Hashed(true, At(inputs.local, p)) && Hashed(true, At(inputs.remote, p))
    ensures var plan := MigrationPlan(inputs, choices);
      var l := Get(ApplySide(ToTree(inputs.local), plan, li), p);
      var r := Get(ApplySide(ToTree(inputs.remote), Reverse(plan), ri), p);
      var a := Find(ActionKey, plan, p);
      if a.Some? && a.value.Conflict? then l == At(inputs.local, p) && r == At(inputs.remote, p)
      else EquivalentAt(true, l, r)
  {
    MigrationPlanAt(inputs, choices, p);
    ApplyPlanAt(MigrationPlan(inputs, choices), ToTree(inputs.local), ToTree(inputs.remote), li, ri, p);
    ToTreeAt(inputs.local, p);
    ToTreeAt(inputs.remote, p);
    FindMember(EntryKey, inputs.local, p);
    FindMember(EntryKey, inputs.remote, p);
    RowConverges(At(inputs.local, p), At(inputs.remote, p), Find(ChangeKey, inputs.localChanges, p).Some?,
                 Find(ChangeKey, inputs.remoteChanges, p).Some?, p, choices, li, ri);
  }

  // ----- Which side wins -----

  /** What a change leaves, as the user is shown it. */
  function Left(c: Change): Option<Entry> {
    match c
    case Added(e) => Some(e)
    case Removed(_) => None
    case Modified(_, e) => Some(e)
  }

  /** What it starts from. */
  function Had(c: Change): Option<Entry> {
    match c
    case Added(_) => None
    case Removed(e) => Some(e)
    case Modified(e, _) => Some(e)
  }

  /** An action that shows both sides shows each as it is, and a conflict as if it came from the other one, or
      from itself when the other has nothing there. */
  ghost predicate Shows(a: Action, local: Option<Entry>, remote: Option<Entry>) {
    && (a.Conflict? || a.Identical? ==> Left(a.local) == local && Left(a.remote) == remote)
    && (a.Identical? ==> Had(a.local) == Had(a.remote) == None)
    && (a.Conflict? ==>
          && Had(a.local) == (if remote.Some? then remote else local)
          && Had(a.remote) == (if local.Some? then local else remote))
  }

  lemma RowOutcome(local: Option<Entry>, remote: Option<Entry>, mine: bool, theirs: bool, p: Path,
                   choices: Choices, li: Path -> u64, ri: Path -> u64)
    requires (local.Some? ==> local.value.path == p) && (remote.Some? ==> remote.value.path == p)
    ensures var row := Row(local, remote, mine, theirs);
      var a := Chosen(choices, if row.Planned? then Some(row.action) else None);
      var divided := mine == theirs && !EquivalentAt(true, local, remote);
      && ResultOf(Directed(LocalChange, a), local, li) ==
           (if (theirs && !mine) || (divided && choices(p) == Some(ToLocal)) then Received(remote, li) else local)
      && ResultOf(Directed(RemoteChange, a), remote, ri) ==
           (if (mine && !theirs) || (divided && choices(p) == Some(ToRemote)) then Received(local, ri) else remote)
      && (a.Some? && a.value.Conflict? <==> divided && choices(p).None?)
      && (a.Some? ==> Shows(a.value, local, remote))
  {
  }

  /** Who wins a migration, at every path and for all inputs. Where only one side has a change, that side
      keeps its entry and the other receives it. Where both have one, or neither, and the entries are not
      equivalent, the plan shows the user a conflict of both; until the user chooses both sides keep theirs, and
      then the chosen direction installs the other entry. Anywhere else nothing happens. */
  lemma MigrationOutcome(inputs: Inputs, choices: Choices, li: Path -> u64, ri: Path -> u64, p: Path)
    ensures var plan := MigrationPlan(inputs, choices);
      var local, remote := At(inputs.local, p), At(inputs.remote, p);
      var mine, theirs := Find(ChangeKey, inputs.localChanges, p).Some?, Find(ChangeKey, inputs.remoteChanges, p).Some?;
      var divided := mine == theirs && !EquivalentAt(true, local, remote);
      var a := Find(ActionKey, plan, p);
      && Get(ApplySide(ToTree(inputs.local), plan, li), p) ==
           (if (theirs && !mine) || (divided && choices(p) == Some(ToLocal)) then Received(remote, li) else local)
      && Get(ApplySide(ToTree(inputs.remote), Reverse(plan), ri), p) ==
           (if (mine && !theirs) || (divided && choices(p) == Some(ToRemote)) then Received(local, ri) else remote)
      && (a.Some? && a.value.Conflict? <==> divided && choices(p).None?)
      && (a.Some? ==> Shows(a.value, local, remote))
  {
    MigrationPlanAt(inputs, choices, p);
    ApplyPlanAt(MigrationPlan(inputs, choices), ToTree(inputs.local), ToTree(inputs.remote), li, ri, p);
    ToTreeAt(inputs.local, p);
    ToTreeAt(inputs.remote, p);
    FindMember(EntryKey, inputs.local, p);
    FindMember(EntryKey, inputs.remote, p);
    RowOutcome(At(inputs.local, p), At(inputs.remote, p), Find(ChangeKey, inputs.localChanges, p).Some?,
               Find(ChangeKey, inputs.remoteChanges, p).Some?, p, choices, li, ri);
  }
}
