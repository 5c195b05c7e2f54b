/** The three-way merge: actions built from the changes of two sides, conflict resolution, reversal for
    the peer, and the convergence of the two trees. */
module Actions {
  import opened Integers
  import opened Paths
  import opened Wrappers
  import opened Entries
  import opened SortedMerge
  import opened Manifests

  /** `Local` and `ResolvedLocal` are applied on this side, `Remote` and `ResolvedRemote` on the peer. */
  datatype Action =
    | Local(change: Change)
    | Remote(change: Change)
    | Conflict(local: Change, remote: Change)
    | ResolvedLocal(local: Change, remote: Change, change: Change)
    | ResolvedRemote(local: Change, remote: Change, change: Change)
    | Identical(local: Change, remote: Change)

  function ActionKey(a: Action): Path {
    match a
    case Local(c) => c.Path()
    case Remote(c) => c.Path()
    case Conflict(l, _) => l.Path()
    case ResolvedLocal(_, _, c) => c.Path()
    case ResolvedRemote(_, _, c) => c.Path()
    case Identical(l, _) => l.Path()
  }

  /** `Action::create` and `create_strong`, on one pair of the joined change lists. */
  function Create(strong: bool, pair: Pair<Change>): Option<Action> {
    match pair
    case Pair(Some(l), None) => Some(Remote(l))
    case Pair(None, Some(r)) => Some(Local(r))
    case Pair(Some(l), Some(r)) => Some(if SameChange(strong, l, r) then Identical(l, r) else Conflict(l, r))
    case Pair(None, None) => None
  }

  function Creator(strong: bool): (f: Pair<Change> -> Option<Action>)
    ensures forall pair :: f(pair) == Create(strong, pair)
  {
    (pair: Pair<Change>) => Create(strong, pair)
  }

  function BuildActions(strong: bool, localChanges: seq<Change>, remoteChanges: seq<Change>): seq<Action> {
    FilterMap(Creator(strong), Join(ChangeKey, localChanges, remoteChanges))
  }

  // ----- Reversal -----

  function ReverseAction(a: Action): Action {
    match a
    case Local(c) => Remote(c)
    case Remote(c) => Local(c)
    case Conflict(l, r) => Conflict(r, l)
    case ResolvedLocal(l, r, c) => ResolvedRemote(l, r, c)
    case ResolvedRemote(l, r, c) => ResolvedLocal(l, r, c)
    case Identical(l, r) => Identical(r, l)
  }

  /** The plan as the peer sees it. */
  function Reverse(actions: seq<Action>): seq<Action> {
    seq(|actions|, i requires 0 <= i < |actions| => ReverseAction(actions[i]))
  }

  lemma ReverseInvolution(actions: seq<Action>)
    ensures Reverse(Reverse(actions)) == actions
  {
  }

  // ----- Resolution -----

  datatype Resolution = ToLocal | ToRemote

  /** `resolve_action`; `None` marks the arms that the program declares unreachable. */
  function ResolveAction(a: Action, resolution: Resolution): Option<Action> {
    if a.Conflict? || a.ResolvedLocal? || a.ResolvedRemote? then
      match (resolution, a.local, a.remote)
      case (ToLocal, Added(l), Added(r)) => Some(ResolvedLocal(a.local, a.remote, Modified(l, r)))
      case (ToLocal, Removed(_), Modified(_, r)) => Some(ResolvedLocal(a.local, a.remote, Added(r)))
      case (ToLocal, Modified(_, l), Modified(_, r)) => Some(ResolvedLocal(a.local, a.remote, Modified(l, r)))
      case (ToLocal, Modified(_, l), Removed(_)) => Some(ResolvedLocal(a.local, a.remote, Removed(l)))
      case (ToRemote, Added(l), Added(r)) => Some(ResolvedRemote(a.local, a.remote, Modified(r, l)))
      case (ToRemote, Modified(_, l), Removed(_)) => Some(ResolvedRemote(a.local, a.remote, Added(l)))
      case (ToRemote, Modified(_, l), Modified(_, r)) => Some(ResolvedRemote(a.local, a.remote, Modified(r, l)))
      case (ToRemote, Removed(_), Modified(_, r)) => Some(ResolvedRemote(a.local, a.remote, Removed(r)))
      case _ => None
    else Some(a)
  }

  /** The user's choices; a conflict without one stays unresolved. */
  type Choices = Path -> Option<Resolution>

  function Decide(choices: Choices, a: Action): Option<Action> {
    if !a.Conflict? || choices(ActionKey(a)).None? then Some(a)
    else ResolveAction(a, choices(ActionKey(a)).value)
  }

  function Decider(choices: Choices): (f: Action -> Option<Action>)
    ensures forall a :: f(a) == Decide(choices, a)
  {
    (a: Action) => Decide(choices, a)
  }

  function ResolveAll(actions: seq<Action>, choices: Choices): seq<Action> {
    FilterMap(Decider(choices), actions)
  }

  // ----- Application -----

  function LocalChange(a: Action): Option<Change> {
    match a
    case Local(c) => Some(c)
    case ResolvedLocal(_, _, c) => Some(c)
    case _ => None
  }

  /** A side applies the actions directed at it. */
  function ApplySide(tree: Tree, actions: seq<Action>, inodes: Path -> u64): Tree {
    ApplyAll(tree, FilterMap(LocalChange, actions), inodes)
  }

  // ----- Path by path -----

  lemma CreateKeepsKey(strong: bool, pair: Pair<Change>)
    requires Create(strong, pair).Some?
    requires pair.left.Some? && pair.right.Some? ==> ChangeKey(pair.left.value) == ChangeKey(pair.right.value)
    ensures ActionKey(Create(strong, pair).value) == PairKey(ChangeKey)(pair)
  {
  }

  lemma ActionsAt(strong: bool, lc: seq<Change>, rc: seq<Change>, p: Path)
    requires SortedBy(ChangeKey, lc) && SortedBy(ChangeKey, rc)
    ensures SortedBy(ActionKey, BuildActions(strong, lc, rc))
    ensures Find(ActionKey, BuildActions(strong, lc, rc), p) ==
      Create(strong, Pair(Find(ChangeKey, lc, p), Find(ChangeKey, rc, p)))
  {
    JoinIsOuterJoin(ChangeKey, lc, rc, p);
    JoinPairsAgree(ChangeKey, lc, rc);
    forall pair | pair in Join(ChangeKey, lc, rc) && Create(strong, pair).Some?
      ensures ActionKey(Create(strong, pair).value) == PairKey(ChangeKey)(pair)
    {
      CreateKeepsKey(strong, pair);
    }
    FilterMapFind(PairKey(ChangeKey), ActionKey, Creator(strong), Join(ChangeKey, lc, rc), p);
  }

}
