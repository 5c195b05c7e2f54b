/** After a sync the two trees agree: the main results about the three-way merge. */
module Convergence {
  import opened Integers
  import opened Paths
  import opened Wrappers
  import opened Entries
  import opened SortedMerge
  import opened Manifests
  import opened Actions

  /** What equal trees share at a path: presence, target, kind, mode unless both are symlinks, time unless
      they are directories, and the contents of files. Contents agree by digest; only in weak mode, and only
      when a digest is missing, a checksum will do. */
  ghost predicate EquivalentAt(strong: bool, a: Option<Entry>, b: Option<Entry>) {
    match (a, b)
    case (None, None) => true
    case (Some(x), Some(y)) =>
      && x.target == y.target && x.isDir == y.isDir
      && (x.target.None? ==> x.mode == y.mode)
      && (!x.isDir ==> x.mtime == y.mtime)
      && (!x.isDir && x.target.None? ==>
            || (x.digest.Some? && x.digest == y.digest)
            || (!strong && (x.digest.None? || y.digest.None?) && x.checksum == y.checksum))
    case _ => false
  }

  /** An entry that a scan found unchanged keeps the content hashes of the snapshot. */
  ghost predicate Carried(old_: Option<Entry>, new_: Option<Entry>) {
    old_.Some? && new_.Some? && !Moved(old_, new_) ==>
      new_.value.checksum == old_.value.checksum && new_.value.digest == old_.value.digest
  }

  /** In strong mode every file has a digest. */
  ghost predicate Hashed(strong: bool, e: Option<Entry>) {
    strong && e.Some? && !e.value.isDir && e.value.target.None? ==> e.value.digest.Some?
  }

  /** A side: the snapshot both sides agreed on last time, and the manifest of the present scan. */
  ghost predicate IsSide(strong: bool, old_: Manifest, new_: Manifest) {
    IsManifest(old_) && IsManifest(new_) &&
    forall p :: Carried(At(old_, p), At(new_, p)) && Hashed(strong, At(new_, p))
  }

  /** The plan of a run: changes of both sides, merged, with the user's choices applied. */
  function Plan(strong: bool, l0: Manifest, l1: Manifest, r0: Manifest, r1: Manifest, choices: Choices): seq<Action> {
    ResolveAll(BuildActions(strong, ChangesOf(l0, l1), ChangesOf(r0, r1)), choices)
  }

  // ----- One path -----

  /** What both sides have at one path: in the snapshots, and now. */
  datatype PathState = PathState(l0: Option<Entry>, r0: Option<Entry>, l1: Option<Entry>, r1: Option<Entry>)

  ghost predicate IsAt(s: PathState, p: Path) {
    && (s.l0.Some? ==> s.l0.value.path == p) && (s.r0.Some? ==> s.r0.value.path == p)
    && (s.l1.Some? ==> s.l1.value.path == p) && (s.r1.Some? ==> s.r1.value.path == p)
  }

  ghost predicate Agreed(strong: bool, s: PathState) {
    && EquivalentAt(strong, s.l0, s.r0)
    && Carried(s.l0, s.l1) && Carried(s.r0, s.r1)
    && Hashed(strong, s.l1) && Hashed(strong, s.r1)
  }

  function Merged(strong: bool, s: PathState): Option<Action> {
    Create(strong, Pair(ChangeOf(Pair(s.l0, s.l1)), ChangeOf(Pair(s.r0, s.r1))))
  }

  function Chosen(choices: Choices, a: Option<Action>): Option<Action> {
    if a.None? then None else Decide(choices, a.value)
  }

  /** The result on a side that is handed the action `mine`. */
  function ResultOf(mine: Option<Change>, now: Option<Entry>, inodes: Path -> u64): Option<Entry> {
    if mine.Some? then Outcome(mine.value, inodes) else now
  }

  function RemoteChange(a: Action): Option<Change> {
    LocalChange(ReverseAction(a))
  }

  function Directed(side: Action -> Option<Change>, a: Option<Action>): Option<Change> {
    if a.None? then None else side(a.value)
  }

  /** At one path: unless a conflict is left unresolved there, both sides end up equivalent. */
  lemma ConvergesAt(strong: bool, s: PathState, p: Path, choices: Choices, li: Path -> u64, ri: Path -> u64)
    requires IsAt(s, p) && Agreed(strong, s)
    ensures var a := Chosen(choices, Merged(strong, s));
      var l := ResultOf(Directed(LocalChange, a), s.l1, li);
      var r := ResultOf(Directed(RemoteChange, a), s.r1, ri);
      && (a.None? <==> Merged(strong, s).None?)
      && (a.None? || !a.value.Conflict? ==> EquivalentAt(strong, l, r))
      && (a.Some? && a.value.Conflict? ==> l == s.l1 && r == s.r1)
  {
  }

  /** A resolved conflict gives both sides what the losing side did not have: resolving towards the
      local side installs the remote entry, and the other way round. */
  lemma ResolvedConflictTakesChosenSide(strong: bool, s: PathState, p: Path, choices: Choices, li: Path -> u64, ri: Path -> u64)
    requires IsAt(s, p) && Agreed(strong, s)
    requires Merged(strong, s).Some? && Merged(strong, s).value.Conflict? && choices(p).Some?
    ensures var a := Chosen(choices, Merged(strong, s));
      var l := ResultOf(Directed(LocalChange, a), s.l1, li);
      var r := ResultOf(Directed(RemoteChange, a), s.r1, ri);
      if choices(p).value.ToLocal? then
        r == s.r1 && l == (if s.r1.Some? then Some(s.r1.value.(ino := li(p))) else None)
      else
        l == s.l1 && r == (if s.l1.Some? then Some(s.l1.value.(ino := ri(p))) else None)
  {
  }

  /** For any snapshots at all, a conflict can be resolved exactly when the path is in both snapshots
      or in neither; otherwise the program reaches an arm it calls unreachable. */
  lemma ResolvableIffSameBaseline(strong: bool, s: PathState, resolution: Resolution)
    requires Merged(strong, s).Some? && Merged(strong, s).value.Conflict?
    ensures ResolveAction(Merged(strong, s).value, resolution).Some? <==> (s.l0.Some? <==> s.r0.Some?)
  {
  }

  /** Such a conflict exists: an entry missing from one snapshot, modified here and added there. */
  lemma UnresolvableConflict(strong: bool, e: Entry, resolution: Resolution)
    requires e.isDir && !e.IsSymlink() && e.mode < 0xFFFF_FFFE
    ensures var s := PathState(Some(e), None, Some(e.(mode := e.mode + 1)), Some(e.(mode := e.mode + 2)));
      && Merged(strong, s) == Some(Conflict(Modified(e, e.(mode := e.mode + 1)), Added(e.(mode := e.mode + 2))))
      && ResolveAction(Merged(strong, s).value, resolution).None?
  {
  }

  /** A resolved conflict can be resolved again, either way, with the same result as the first time. */
  lemma ResolveAgain(a: Action, first: Resolution, second: Resolution)
    requires a.Conflict? && ResolveAction(a, first).Some?
    ensures ResolveAction(ResolveAction(a, first).value, second) == ResolveAction(a, second)
    ensures ResolveAction(a, second).Some?
  {
  }

  // ----- Whole manifests -----

  function StateAt(l0: Manifest, l1: Manifest, r0: Manifest, r1: Manifest, p: Path): PathState {
    PathState(At(l0, p), At(r0, p), At(l1, p), At(r1, p))
  }

  lemma StateIsAt(l0: Manifest, l1: Manifest, r0: Manifest, r1: Manifest, p: Path)
    ensures IsAt(StateAt(l0, l1, r0, r1, p), p)
  {
    FindMember(EntryKey, l0, p);
    FindMember(EntryKey, l1, p);
    FindMember(EntryKey, r0, p);
    FindMember(EntryKey, r1, p);
  }

  lemma MergedAt(strong: bool, l0: Manifest, l1: Manifest, r0: Manifest, r1: Manifest, p: Path)
    requires IsManifest(l0) && IsManifest(l1) && IsManifest(r0) && IsManifest(r1)
    ensures var actions := BuildActions(strong, ChangesOf(l0, l1), ChangesOf(r0, r1));
      SortedBy(ActionKey, actions) && Find(ActionKey, actions, p) == Merged(strong, StateAt(l0, l1, r0, r1, p))
  {
    ChangesAt(l0, l1, p);
    ChangesAt(r0, r1, p);
    ActionsAt(strong, ChangesOf(l0, l1), ChangesOf(r0, r1), p);
  }

  /** Resolving keeps actions at their paths. */
  lemma DecideKeepsKey(strong: bool, s: PathState, p: Path, choices: Choices)
    requires IsAt(s, p) && Merged(strong, s).Some?
    ensures var d := Decide(choices, Merged(strong, s).value);
      ActionKey(Merged(strong, s).value) == p && (d.Some? ==> ActionKey(d.value) == p)
  {
  }

  lemma PlanAt(strong: bool, l0: Manifest, l1: Manifest, r0: Manifest, r1: Manifest, choices: Choices, p: Path)
    requires IsManifest(l0) && IsManifest(l1) && IsManifest(r0) && IsManifest(r1)
    ensures var plan := Plan(strong, l0, l1, r0, r1, choices);
      SortedBy(ActionKey, plan) &&
      Find(ActionKey, plan, p) == Chosen(choices, Merged(strong, StateAt(l0, l1, r0, r1, p)))
  {
    var actions := BuildActions(strong, ChangesOf(l0, l1), ChangesOf(r0, r1));
    MergedAt(strong, l0, l1, r0, r1, p);
    forall a | a in actions && Decider(choices)(a).Some?
      ensures ActionKey(Decider(choices)(a).value) == ActionKey(a)
    {
      var i :| 0 <= i < |actions| && actions[i] == a;
      var q := ActionKey(a);
      FindAt(ActionKey, actions, i);
      MergedAt(strong, l0, l1, r0, r1, q);
      StateIsAt(l0, l1, r0, r1, q);
      DecideKeepsKey(strong, StateAt(l0, l1, r0, r1, q), q, choices);
    }
    FilterMapFind(ActionKey, ActionKey, Decider(choices), actions, p);
  }

  lemma {:induction false} ReverseThenLocal(actions: seq<Action>)
    ensures FilterMap(LocalChange, Reverse(actions)) == FilterMap(RemoteChange, actions)
  {
    if actions != [] {
      ReverseThenLocal(actions[1..]);
      assert Reverse(actions)[0] == ReverseAction(actions[0]);
      assert Reverse(actions)[1..] == Reverse(actions[1..]);
    }
  }

  /** What applying a plan does at one path, here and on the peer. */
  lemma ApplyPlanAt(plan: seq<Action>, l: Tree, r: Tree, li: Path -> u64, ri: Path -> u64, p: Path)
    requires SortedBy(ActionKey, plan)
    ensures var a := Find(ActionKey, plan, p);
      && Get(ApplySide(l, plan, li), p) == ResultOf(Directed(LocalChange, a), Get(l, p), li)
      && Get(ApplySide(r, Reverse(plan), ri), p) == ResultOf(Directed(RemoteChange, a), Get(r, p), ri)
  {
    FilterMapFind(ActionKey, ChangeKey, LocalChange, plan, p);
    ApplyAllAt(l, FilterMap(LocalChange, plan), li, p);
    ReverseThenLocal(plan);
    FilterMapFind(ActionKey, ChangeKey, RemoteChange, plan, p);
    ApplyAllAt(r, FilterMap(RemoteChange, plan), ri, p);
  }

  /** Three-way convergence. From equivalent snapshots, applying the plan here and its reversal on the
      peer makes the two trees equivalent at every path without an unresolved conflict, and leaves both
      untouched at the others. */
  lemma ThreeWayConvergence(strong: bool, l0: Manifest, l1: Manifest, r0: Manifest, r1: Manifest, choices: Choices,
                            li: Path -> u64, ri: Path -> u64, p: Path)
    requires IsSide(strong, l0, l1) && IsSide(strong, r0, r1)
    requires forall q :: EquivalentAt(strong, At(l0, q), At(r0, q))
    ensures var plan := Plan(strong, l0, l1, r0, r1, choices);
      var l := Get(ApplySide(ToTree(l1), plan, li), p);
      var r := Get(ApplySide(ToTree(r1), Reverse(plan), ri), p);
      var a := Find(ActionKey, plan, p);
      if a.Some? && a.value.Conflict? then l == At(l1, p) && r == At(r1, p)
      else EquivalentAt(strong, l, r)
  {
    var s := StateAt(l0, l1, r0, r1, p);
    StateIsAt(l0, l1, r0, r1, p);
    PlanAt(strong, l0, l1, r0, r1, choices, p);
    ApplyPlanAt(Plan(strong, l0, l1, r0, r1, choices), ToTree(l1), ToTree(r1), li, ri, p);
    ToTreeAt(l1, p);
    ToTreeAt(r1, p);
    ConvergesAt(strong, s, p, choices, li, ri);
  }

  // ----- Which side wins -----

  /** What a side gets from the other one: the entry there, with an inode of its own. */
  function Received(e: Option<Entry>, inodes: Path -> u64): Option<Entry> {
    if e.Some? then Some(e.value.(ino := inodes(e.value.path))) else None
  }

  /** Both sides changed the path, and what they have now is not equivalent, or only one had it before. */
  ghost predicate Divided(strong: bool, s: PathState) {
    Moved(s.l0, s.l1) && Moved(s.r0, s.r1) && (!EquivalentAt(strong, s.l1, s.r1) || s.l0.Some? != s.r0.Some?)
  }

  /** The side that went from `mine0` to `mine1` takes over what the other has: only the other one changed,
      or the two are divided and the user chose that direction. */
  ghost predicate TakesOver(mine: bool, theirs: bool, divided: bool, chosen: bool) {
    theirs && (!mine || (divided && chosen))
  }

  lemma OutcomeHere(strong: bool, s: PathState, p: Path, choices: Choices, li: Path -> u64)
    requires IsAt(s, p) && (choices(p).None? || (s.l0.Some? <==> s.r0.Some?))
    ensures ResultOf(Directed(LocalChange, Chosen(choices, Merged(strong, s))), s.l1, li) ==
      if TakesOver(Moved(s.l0, s.l1), Moved(s.r0, s.r1), Divided(strong, s), choices(p) == Some(ToLocal)) then Received(s.r1, li) else s.l1
  {
  }

  lemma OutcomeThere(strong: bool, s: PathState, p: Path, choices: Choices, ri: Path -> u64)
    requires IsAt(s, p) && (choices(p).None? || (s.l0.Some? <==> s.r0.Some?))
    ensures ResultOf(Directed(RemoteChange, Chosen(choices, Merged(strong, s))), s.r1, ri) ==
      if TakesOver(Moved(s.r0, s.r1), Moved(s.l0, s.l1), Divided(strong, s), choices(p) == Some(ToRemote)) then Received(s.l1, ri) else s.r1
  {
  }

  lemma AsksWhenDivided(strong: bool, s: PathState, p: Path, choices: Choices)
    requires IsAt(s, p) && (choices(p).None? || (s.l0.Some? <==> s.r0.Some?))
    ensures var a := Chosen(choices, Merged(strong, s));
      && (a.Some? && a.value.Conflict? <==> Divided(strong, s) && choices(p).None?)
      && (a.Some? && (a.value.Conflict? || a.value.Identical?) ==>
            ChangeOf(Pair(s.l0, s.l1)) == Some(a.value.local) && ChangeOf(Pair(s.r0, s.r1)) == Some(a.value.remote))
  {
  }

  /** Who wins, at every path. Where only one side changed, it keeps its entry and the other receives it.
      Where both did and the results are not equivalent, or only one snapshot has the path, the plan asks the
      user; until the user chooses both keep theirs, and then the chosen direction installs the entry of the
      other side. Anywhere else nothing happens. */
  lemma MergeOutcome(strong: bool, l0: Manifest, l1: Manifest, r0: Manifest, r1: Manifest, choices: Choices,
                     li: Path -> u64, ri: Path -> u64, p: Path)
    requires IsManifest(l0) && IsManifest(l1) && IsManifest(r0) && IsManifest(r1)
    requires choices(p).None? || (At(l0, p).Some? <==> At(r0, p).Some?)
    ensures var plan := Plan(strong, l0, l1, r0, r1, choices);
      var mine, theirs := Moved(At(l0, p), At(l1, p)), Moved(At(r0, p), At(r1, p));
      var divided := mine && theirs && (!EquivalentAt(strong, At(l1, p), At(r1, p)) || At(l0, p).Some? != At(r0, p).Some?);
      var a := Find(ActionKey, plan, p);
      && Get(ApplySide(ToTree(l1), plan, li), p) ==
           (if theirs && (!mine || (divided && choices(p) == Some(ToLocal))) then Received(At(r1, p), li) else At(l1, p))
      && Get(ApplySide(ToTree(r1), Reverse(plan), ri), p) ==
           (if mine && (!theirs || (divided && choices(p) == Some(ToRemote))) then Received(At(l1, p), ri) else At(r1, p))
      && (a.Some? && a.value.Conflict? <==> divided && choices(p).None?)
      && (a.Some? && (a.value.Conflict? || a.value.Identical?) ==>
            && Find(ChangeKey, ChangesOf(l0, l1), p) == Some(a.value.local)
            && Find(ChangeKey, ChangesOf(r0, r1), p) == Some(a.value.remote))
  {
    ChangesAt(l0, l1, p);
    ChangesAt(r0, r1, p);
    var s := StateAt(l0, l1, r0, r1, p);
    StateIsAt(l0, l1, r0, r1, p);
    PlanAt(strong, l0, l1, r0, r1, choices, p);
    ApplyPlanAt(Plan(strong, l0, l1, r0, r1, choices), ToTree(l1), ToTree(r1), li, ri, p);
    ToTreeAt(l1, p);
    ToTreeAt(r1, p);
    OutcomeHere(strong, s, p, choices, li);
    OutcomeThere(strong, s, p, choices, ri);
    AsksWhenDivided(strong, s, p, choices);
  }

  // ----- The plan from the other side -----

  lemma FromTheOtherSideAt(strong: bool, l: Option<Change>, r: Option<Change>, p: Path)
    requires (l.Some? ==> ChangeKey(l.value) == p) && (r.Some? ==> ChangeKey(r.value) == p)
    ensures var here, there := Create(strong, Pair(l, r)), Create(strong, Pair(r, l));
      && (here.Some? <==> there.Some?)
      && (here.Some? ==> there.value == ReverseAction(here.value) && ActionKey(there.value) == ActionKey(here.value) == p)
  {
  }

  /** Reversing the plan for the peer gives exactly the plan that the peer would have built from the same
      changes: the merge favours neither side. */
  lemma ReverseIsThePeersPlan(strong: bool, lc: seq<Change>, rc: seq<Change>)
    requires SortedBy(ChangeKey, lc) && SortedBy(ChangeKey, rc)
    ensures Reverse(BuildActions(strong, lc, rc)) == BuildActions(strong, rc, lc)
  {
    var here, there := BuildActions(strong, lc, rc), BuildActions(strong, rc, lc);
    ActionsAt(strong, lc, rc, []);
    ActionsAt(strong, rc, lc, []);
    forall i | 0 <= i < |here|
      ensures ActionKey(ReverseAction(here[i])) == ActionKey(here[i])
    {
      PeersAction(strong, lc, rc, ActionKey(here[i]));
      FindAt(ActionKey, here, i);
    }
    MapFind(ActionKey, ActionKey, ReverseAction, here, Reverse(here), []);
    forall p
      ensures Find(ActionKey, Reverse(here), p) == Find(ActionKey, there, p)
    {
      MapFind(ActionKey, ActionKey, ReverseAction, here, Reverse(here), p);
      PeersAction(strong, lc, rc, p);
    }
    SortedExtensional(ActionKey, Reverse(here), there);
  }

  lemma PeersAction(strong: bool, lc: seq<Change>, rc: seq<Change>, p: Path)
    requires SortedBy(ChangeKey, lc) && SortedBy(ChangeKey, rc)
    ensures var here, there := Find(ActionKey, BuildActions(strong, lc, rc), p), Find(ActionKey, BuildActions(strong, rc, lc), p);
      && (here.Some? <==> there.Some?)
      && (here.Some? ==> there.value == ReverseAction(here.value) && ActionKey(there.value) == ActionKey(here.value))
  {
    ActionsAt(strong, lc, rc, p);
    ActionsAt(strong, rc, lc, p);
    FindMember(ChangeKey, lc, p);
    FindMember(ChangeKey, rc, p);
    FromTheOtherSideAt(strong, Find(ChangeKey, lc, p), Find(ChangeKey, rc, p), p);
  }
}
