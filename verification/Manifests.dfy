/** Changes between two manifests, and manifests assembled from scans and snapshots. */
module Manifests {
  import opened Integers
  import opened Paths
  import opened Wrappers
  import opened Entries
  import opened SortedMerge
  import opened Scope
  import opened Sequences

  ghost predicate IsManifest(entries: Manifest) {
    SortedBy(EntryKey, entries)
  }

  function At(entries: Manifest, p: Path): Option<Entry> {
    Find(EntryKey, entries, p)
  }

  // ----- Changes -----

  /** What a comparison of two scans notices at a path: that the entry came or went, and a difference in
      target, kind, mode unless it is a symlink, and size, time or inode unless it is a directory. */
  ghost predicate Moved(old_: Option<Entry>, new_: Option<Entry>) {
    match (old_, new_)
    case (None, None) => false
    case (Some(a), Some(b)) =>
      || a.target != b.target || a.isDir != b.isDir
      || (a.target.None? && a.mode != b.mode)
      || (!a.isDir && (a.size != b.size || a.mtime != b.mtime || a.ino != b.ino))
    case _ => true
  }

  function ChangeOf(pair: Pair<Entry>): Option<Change> {
    match pair
    case Pair(Some(a), None) => Some(Removed(a))
    case Pair(None, Some(b)) => Some(Added(b))
    case Pair(Some(a), Some(b)) => if a.Same(b) then None else Some(Modified(a, b))
    case Pair(None, None) => None
  }

  function ChangesOf(old_: Manifest, new_: Manifest): seq<Change> {
    FilterMap(ChangeOf, Join(EntryKey, old_, new_))
  }

  class ChangesIterator {
    const it: MatchSorted<Entry>

    ghost function Rest(): seq<Change>
      requires it.Valid()
      reads it
    {
      FilterMap(ChangeOf, it.Rest())
    }

    constructor (old_: Manifest, new_: Manifest)
      ensures fresh(it) && it.Valid() && Rest() == ChangesOf(old_, new_)
    {
      it := new MatchSorted(EntryKey, old_, new_);
    }

    /** The next change; entries that are the same on both sides are passed over. */
    method Next() returns (item: Option<Change>)
      requires it.Valid()
      modifies it
      ensures it.Valid()
      ensures item.None? ==> old(Rest()) == [] && Rest() == []
      ensures item.Some? ==> old(Rest()) == [item.value] + Rest()
    {
      ghost var target := Rest();
      while true
        invariant it.Valid() && Rest() == target
        decreases |it.Rest()|
      {
        ghost var before := it.Rest();
        var x := it.Next();
        if x.None? {
          return None;
        }
        assert before[0] == x.value && before[1..] == it.Rest();
        match x.value
        case Pair(Some(a), None) => return Some(Removed(a));
        case Pair(None, Some(b)) => return Some(Added(b));
        case Pair(Some(a), Some(b)) =>
          if !a.Same(b) {
            return Some(Modified(a, b));
          }
        case Pair(None, None) =>
      }
    }
  }

  /** All changes, collected from the iterator. */
  method CollectChanges(old_: Manifest, new_: Manifest) returns (changes: seq<Change>)
    ensures changes == ChangesOf(old_, new_)
  {
    var it := new ChangesIterator(old_, new_);
    changes := [];
    while true
      invariant it.it.Valid() && fresh(it.it)
      invariant changes + it.Rest() == ChangesOf(old_, new_)
      decreases |it.Rest()|
    {
      var x := it.Next();
      if x.None? {
        break;
      }
      Associate(changes, [x.value], it.Rest());
      changes := changes + [x.value];
    }
  }

  /** A pair with two sides has one path. */
  lemma {:induction false} JoinPairsAgree<T(!new)>(key: T -> Path, xs: seq<T>, ys: seq<T>)
    ensures forall pair :: pair in Join(key, xs, ys) && pair.left.Some? && pair.right.Some? ==>
      key(pair.left.value) == key(pair.right.value)
    decreases |xs| + |ys|
  {
    if xs != [] || ys != [] {
      if ys == [] || (xs != [] && Less(key(xs[0]), key(ys[0]))) {
        JoinPairsAgree(key, xs[1..], ys);
      } else if xs == [] || Less(key(ys[0]), key(xs[0])) {
        JoinPairsAgree(key, xs, ys[1..]);
      } else {
        Total(key(xs[0]), key(ys[0]));
        JoinPairsAgree(key, xs[1..], ys[1..]);
      }
    }
  }

  lemma ChangeKeepsKey(pair: Pair<Entry>)
    requires ChangeOf(pair).Some?
    requires pair.left.Some? && pair.right.Some? ==> EntryKey(pair.left.value) == EntryKey(pair.right.value)
    ensures ChangeKey(ChangeOf(pair).value) == PairKey(EntryKey)(pair)
  {
  }

  /** At every path, the change is determined by what the two manifests have there: there is one exactly
      where they differ in something a scan notices, and it holds what each of them has. */
  lemma ChangesAt(old_: Manifest, new_: Manifest, p: Path)
    requires IsManifest(old_) && IsManifest(new_)
    ensures SortedBy(ChangeKey, ChangesOf(old_, new_))
    ensures var c := Find(ChangeKey, ChangesOf(old_, new_), p);
      && (c.Some? <==> Moved(At(old_, p), At(new_, p)))
      && (c.Some? ==>
            match c.value
            case Added(b) => At(old_, p) == None && At(new_, p) == Some(b)
            case Removed(a) => At(old_, p) == Some(a) && At(new_, p) == None
            case Modified(a, b) => At(old_, p) == Some(a) && At(new_, p) == Some(b))
    ensures Find(ChangeKey, ChangesOf(old_, new_), p) == ChangeOf(Pair(At(old_, p), At(new_, p)))
  {
    JoinIsOuterJoin(EntryKey, old_, new_, p);
    JoinPairsAgree(EntryKey, old_, new_);
    forall pair | pair in Join(EntryKey, old_, new_) && ChangeOf(pair).Some?
      ensures ChangeKey(ChangeOf(pair).value) == PairKey(EntryKey)(pair)
    {
      ChangeKeepsKey(pair);
    }
    FilterMapFind(PairKey(EntryKey), ChangeKey, ChangeOf, Join(EntryKey, old_, new_), p);
  }

  // ----- Trees and the application of changes -----

  type Tree = map<Path, Entry>

  function Get(tree: Tree, p: Path): Option<Entry> {
    if p in tree then Some(tree[p]) else None
  }

  function ToTree(entries: Manifest): Tree {
    if entries == [] then map[] else ToTree(entries[1..])[entries[0].path := entries[0]]
  }

  lemma {:induction false} ToTreeAt(entries: Manifest, p: Path)
    ensures Get(ToTree(entries), p) == At(entries, p)
  {
    if entries != [] {
      ToTreeAt(entries[1..], p);
    }
  }

  /** What a change leaves at its path; a new file gets an inode of its own. */
  function Outcome(c: Change, inodes: Path -> u64): Option<Entry> {
    match c
    case Removed(_) => None
    case Added(e) => Some(e.(ino := inodes(e.path)))
    case Modified(_, e) => Some(e.(ino := inodes(e.path)))
  }

  function ApplyChange(tree: Tree, c: Change, inodes: Path -> u64): Tree {
    match Outcome(c, inodes)
    case Some(e) => tree[c.Path() := e]
    case None => tree - {c.Path()}
  }

  function ApplyAll(tree: Tree, changes: seq<Change>, inodes: Path -> u64): Tree
    decreases |changes|
  {
    if changes == [] then tree else ApplyAll(ApplyChange(tree, changes[0], inodes), changes[1..], inodes)
  }

  /** Applying changes of distinct paths acts path by path. */
  lemma {:induction false} ApplyAllAt(tree: Tree, changes: seq<Change>, inodes: Path -> u64, p: Path)
    requires SortedBy(ChangeKey, changes)
    ensures Get(ApplyAll(tree, changes, inodes), p) ==
      match Find(ChangeKey, changes, p)
      case Some(c) => Outcome(c, inodes)
      case None => Get(tree, p)
    decreases |changes|
  {
    if changes != [] {
      TailAfterHead(ChangeKey, changes);
      ApplyAllAt(ApplyChange(tree, changes[0], inodes), changes[1..], inodes, p);
      if changes[0].Path() == p {
        NotFoundBefore(ChangeKey, p, changes[1..], p);
      }
    }
  }

  /** Patching the old manifest with its changes gives the new one, up to inodes and to what a scan does not
      notice: every path is present in both or in neither. */
  lemma DiffThenPatch(old_: Manifest, new_: Manifest, inodes: Path -> u64, p: Path)
    requires IsManifest(old_) && IsManifest(new_)
    ensures var patched := Get(ApplyAll(ToTree(old_), ChangesOf(old_, new_), inodes), p);
      && (patched.Some? <==> At(new_, p).Some?)
      && (patched.Some? ==>
            !Moved(patched, At(new_, p)) || patched.value == At(new_, p).value.(ino := inodes(p)))
  {
    ChangesAt(old_, new_, p);
    ApplyAllAt(ToTree(old_), ChangesOf(old_, new_), inodes, p);
    ToTreeAt(old_, p);
    FindMember(EntryKey, new_, p);
  }

  // ----- Replacing the scoped part of a manifest -----

  method ReplaceScope(entries: Manifest, scope: ScanScope, current: Manifest) returns (replaced: Manifest)
    requires IsManifest(entries) && IsManifest(current)
    requires forall e :: e in current ==> scope.Selected(e.path)
    ensures IsManifest(replaced)
    ensures forall p :: At(replaced, p) == if scope.Selected(p) then At(current, p) else At(entries, p)
  {
    var kept := Retain(entries, (e: Entry) => !scope.Selected(e.path));
    var all := kept + current;
    replaced := SortBy(EntryKey, all);
    forall i, j | 0 <= i < j < |all|
      ensures EntryKey(all[i]) != EntryKey(all[j])
    {
      if i < |kept| <= j {
        assert all[i] in kept && all[j] in current;
      } else {
        Irreflexive(EntryKey(all[j]));
      }
    }
    SortByFind(EntryKey, all, []);
    forall p
      ensures At(replaced, p) == if scope.Selected(p) then At(current, p) else At(entries, p)
    {
      SortByFind(EntryKey, all, p);
      FindAppend(EntryKey, kept, current, p);
      FindMember(EntryKey, entries, p);
      FindMember(EntryKey, current, p);
      FindMember(EntryKey, kept, p);
    }
  }

  method Retain(entries: Manifest, keep: Entry -> bool) returns (kept: Manifest)
    requires IsManifest(entries)
    ensures IsManifest(kept)
    ensures forall e :: e in kept ==> keep(e)
    ensures forall p ::
      At(kept, p) == if At(entries, p).Some? && keep(At(entries, p).value) then At(entries, p) else None
  {
    var f := (e: Entry) => if keep(e) then Some(e) else None;
    kept := FilterMap(f, entries);
    FilterMapFind(EntryKey, EntryKey, f, entries, []);
    forall p
      ensures At(kept, p) == if At(entries, p).Some? && keep(At(entries, p).value) then At(entries, p) else None
    {
      FilterMapFind(EntryKey, EntryKey, f, entries, p);
    }
    forall e | e in kept
      ensures keep(e)
    {
      var i :| 0 <= i < |kept| && kept[i] == e;
      FindAt(EntryKey, kept, i);
      assert At(kept, e.path) == Some(e);
      assert At(entries, e.path) == Some(e);
    }
  }
}
