/** From a snapshot and a fresh scan to the baseline, the changes and the hashed current manifest that one
    side of the merge starts from. */
module Baselines {
  import opened Integers
  import opened Paths
  import opened Wrappers
  import opened Entries
  import opened SortedMerge
  import opened Scope
  import opened Manifests
  import opened Convergence
  import opened Hashing
  import Pool

  datatype ScanContext = ScanContext(changes: seq<Change>, current: Manifest, migrationNeeded: bool)

  function Inherit(e: Entry, old_: Entry): Entry {
    e.(checksum := old_.checksum, digest := old_.digest)
  }

  function Restricted(scope: ScanScope): (f: Entry -> Option<Entry>)
    ensures forall e :: f(e) == if scope.Selected(e.path) then Some(e) else None
  {
    (e: Entry) => if scope.Selected(e.path) then Some(e) else None
  }

  function InScope(scope: ScanScope, entries: Manifest): Manifest {
    FilterMap(Restricted(scope), entries)
  }

  lemma InScopeAt(scope: ScanScope, entries: Manifest, p: Path)
    requires IsManifest(entries)
    ensures IsManifest(InScope(scope, entries))
    ensures At(InScope(scope, entries), p) == if scope.Selected(p) then At(entries, p) else None
  {
    FilterMapFind(EntryKey, EntryKey, Restricted(scope), entries, p);
    FindMember(EntryKey, entries, p);
  }

  /** A file is read when all are, or when the scan noticed a difference to the snapshot. */
  ghost predicate MustHash(old_: Option<Entry>, scanned: Option<Entry>, migrate: bool) {
    scanned.Some? && !scanned.value.isDir && scanned.value.target.None? && (migrate || Moved(old_, scanned))
  }

  /** What the current manifest must hold at a path: what the scan saw there, but a file that was read with
      the hashes of its contents, and anything else that is unchanged with the hashes of the snapshot. */
  ghost function CurrentAt(old_: Option<Entry>, scanned: Option<Entry>, contents: Contents, migrate: bool): Option<Entry> {
    if scanned.None? then None
    else
      var e, read := scanned.value, contents(scanned.value.path);
      if MustHash(old_, scanned, migrate) && read.Ok? then
        Some(e.(checksum := read.value.checksum, digest := Some(read.value.digest)))
      else if old_.Some? && !Moved(old_, scanned) then Some(e.(checksum := old_.value.checksum, digest := old_.value.digest))
      else scanned
  }

  function NewEntry(c: Change): Option<Entry> {
    match c
    case Added(e) => Some(e)
    case Modified(_, e) => Some(e)
    case Removed(_) => None
  }

  function HashChange(contents: Contents, c: Change): Change {
    match c
    case Added(e) => Added(HashEntry(contents, e))
    case Modified(o, e) => Modified(o, HashEntry(contents, e))
    case Removed(_) => c
  }

  function Carried(old_: Manifest, changes: seq<Change>, e: Entry): Entry {
    if Find(ChangeKey, changes, e.path).None? && At(old_, e.path).Some? then Inherit(e, At(old_, e.path).value) else e
  }

  function Carry(old_: Manifest, changes: seq<Change>): (f: Entry -> Entry)
    ensures forall e :: f(e) == Carried(old_, changes, e)
  {
    (e: Entry) => Carried(old_, changes, e)
  }

  function Hasher(contents: Contents): (f: Entry -> Entry)
    ensures forall e :: f(e) == HashEntry(contents, e)
  {
    (e: Entry) => HashEntry(contents, e)
  }

  function ChangeHasher(contents: Contents): (f: Change -> Change)
    ensures forall c :: f(c) == HashChange(contents, c)
  {
    (c: Change) => HashChange(contents, c)
  }

  function Refreshed(changes: seq<Change>, e: Entry): Entry {
    var c := Find(ChangeKey, changes, e.path);
    if c.Some? && NewEntry(c.value).Some? then NewEntry(c.value).value else e
  }

  function Refresher(changes: seq<Change>): (f: Entry -> Entry)
    ensures forall e :: f(e) == Refreshed(changes, e)
  {
    (e: Entry) => Refreshed(changes, e)
  }

  ghost predicate IsMap<A, B>(f: A -> B, xs: seq<A>, ys: seq<B>) {
    |ys| == |xs| && forall i :: 0 <= i < |xs| ==> ys[i] == f(xs[i])
  }

  /** Entries without a change keep the hashes of the snapshot. */
  method InheritHashes(old_: Manifest, changes: seq<Change>, scanned: Manifest) returns (current: Manifest)
    requires IsManifest(old_) && SortedBy(ChangeKey, changes)
    ensures IsMap(Carry(old_, changes), scanned, current)
  {
    current := scanned;
    for i := 0 to |scanned|
      invariant |current| == |scanned|
      invariant forall j :: i <= j < |scanned| ==> current[j] == scanned[j]
      invariant forall j :: 0 <= j < i ==> current[j] == Carry(old_, changes)(scanned[j])
    {
      var c := BinarySearch(ChangeKey, changes, current[i].path);
      if c.None? {
        var o := BinarySearch(EntryKey, old_, current[i].path);
        if o.Some? {
          current := current[i := Inherit(current[i], old_[o.value])];
        }
      }
    }
  }

  function EntryPart(e: Entry): Option<Entry> {
    if e.IsFile() then Some(e) else None
  }

  function EntryPut(e: Entry, hashed: Entry): Entry {
    hashed
  }

  function ChangePart(c: Change): Option<Entry> {
    var e := NewEntry(c);
    if e.Some? && e.value.IsFile() then e else None
  }

  function ChangePut(c: Change, hashed: Entry): Change {
    match c
    case Added(_) => Added(hashed)
    case Modified(o, _) => Modified(o, hashed)
    case Removed(_) => c
  }

  /** Hashes every file. */
  method HashManifest(contents: Contents, entries: Manifest, limit: nat, schedule: Pool.Schedule) returns (r: Result<Manifest, Failure>)
    requires limit > 0
    ensures r.Ok? <==> forall j :: 0 <= j < |entries| ==> IsReadable(contents, EntryPart, entries[j])
    ensures r.Ok? ==> IsMap(Hasher(contents), entries, r.value)
    ensures r.Err? ==> exists i: nat ::
      (IsFirstUnreadable(contents, EntryPart, entries, i) && r.error == contents(entries[i].path).error)
  {
    r := HashFiles(contents, EntryPart, EntryPut, entries, limit, schedule);
  }

  /** Hashes the files that were added or modified. */
  method HashChanges(contents: Contents, changes: seq<Change>, limit: nat, schedule: Pool.Schedule) returns (r: Result<seq<Change>, Failure>)
    requires limit > 0
    ensures r.Ok? <==> forall j :: 0 <= j < |changes| ==> IsReadable(contents, ChangePart, changes[j])
    ensures r.Ok? ==> IsMap(ChangeHasher(contents), changes, r.value)
    ensures r.Err? ==> exists i: nat ::
      (IsFirstUnreadable(contents, ChangePart, changes, i) && r.error == contents(changes[i].Path()).error)
  {
    r := HashFiles(contents, ChangePart, ChangePut, changes, limit, schedule);
  }

  lemma RefreshedKeepsPath(changes: seq<Change>, e: Entry)
    ensures Refreshed(changes, e).path == e.path
  {
    FindMember(ChangeKey, changes, e.path);
  }

  lemma RefreshMore(changes: seq<Change>, k: nat, e: Entry)
    requires SortedBy(ChangeKey, changes) && k < |changes|
    ensures Refreshed(changes[..k + 1], e) ==
      if e.path == changes[k].Path() && NewEntry(changes[k]).Some? then NewEntry(changes[k]).value
      else Refreshed(changes[..k], e)
  {
    assert changes[..k + 1] == changes[..k] + [changes[k]];
    FindAppend(ChangeKey, changes[..k], [changes[k]], e.path);
    assert [changes[k]][1..] == [];
    if e.path == changes[k].Path() {
      FindMember(ChangeKey, changes[..k], e.path);
      Irreflexive(e.path);
    }
  }

  /** A path is at the place where it is found, and nowhere else. */
  lemma OnlyThere(entries: Manifest, p: Path)
    requires IsManifest(entries)
    ensures forall i, j :: 0 <= i < |entries| && 0 <= j < |entries| && entries[i].path == p == entries[j].path ==> i == j
    ensures At(entries, p).None? ==> forall j :: 0 <= j < |entries| ==> entries[j].path != p
  {
    FindMember(EntryKey, entries, p);
    Irreflexive(p);
    forall j | 0 <= j < |entries| && At(entries, p).None?
      ensures entries[j].path != p
    {
      assert EntryKey(entries[j]) != p;
    }
    forall i, j | 0 <= i < j < |entries|
      ensures !(entries[i].path == p == entries[j].path)
    {
      assert Less(EntryKey(entries[i]), EntryKey(entries[j]));
    }
  }

  /** Copies the entries of the changes into the manifest. */
  method RefreshEntries(changes: seq<Change>, entries: Manifest) returns (current: Manifest)
    requires IsManifest(entries) && SortedBy(ChangeKey, changes)
    ensures IsMap(Refresher(changes), entries, current)
  {
    current := entries;
    assert changes[..0] == [];
    for k := 0 to |changes|
      invariant IsMap(Refresher(changes[..k]), entries, current)
    {
      var n := NewEntry(changes[k]);
      forall j | 0 <= j < |entries|
        ensures current[j].path == entries[j].path
        ensures Refreshed(changes[..k + 1], entries[j]) ==
          if entries[j].path == changes[k].Path() && n.Some? then n.value else current[j]
      {
        RefreshedKeepsPath(changes[..k], entries[j]);
        RefreshMore(changes, k, entries[j]);
      }
      if n.Some? {
        assert n.value.path == changes[k].Path();
        var i := BinarySearch(EntryKey, current, n.value.path);
        OnlyThere(current, n.value.path);
        if i.Some? {
          current := current[i.value := n.value];
        }
      }
    }
    assert changes[..|changes|] == changes;
  }

  // ----- The whole computation -----

  /** A run in strong mode migrates when the snapshot has no digests, or lacks that of a file. */
  ghost predicate NeedsMigration(strong: bool, format: SnapshotFormat, old_: Manifest) {
    strong && (format == LegacyV1 || exists e :: e in old_ && !e.isDir && e.target.None? && e.digest.None?)
  }

  /** The manifest after hashing has at each path what the scan saw there, hashed or with inherited hashes. */
  lemma CurrentAtPath(old_: Manifest, scanned: Manifest, contents: Contents, carried: Manifest, p: Path)
    requires IsManifest(old_) && IsManifest(scanned)
    requires IsMap(Carry(old_, ChangesOf(old_, scanned)), scanned, carried)
    ensures IsManifest(carried)
    ensures At(carried, p) ==
      if At(scanned, p).None? then None
      else if At(old_, p).Some? && At(old_, p).value.Same(At(scanned, p).value) then Some(Inherit(At(scanned, p).value, At(old_, p).value))
      else At(scanned, p)
  {
    MapFind(EntryKey, EntryKey, Carry(old_, ChangesOf(old_, scanned)), scanned, carried, p);
    ChangesAt(old_, scanned, p);
    FindMember(EntryKey, scanned, p);
  }

  lemma MigratedAt(old_: Manifest, scanned: Manifest, contents: Contents, carried: Manifest, current: Manifest, p: Path)
    requires IsManifest(old_) && IsManifest(scanned)
    requires IsMap(Carry(old_, ChangesOf(old_, scanned)), scanned, carried) && IsMap(Hasher(contents), carried, current)
    ensures IsManifest(current)
    ensures At(current, p) == CurrentAt(At(old_, p), At(scanned, p), contents, true)
    ensures (MustHash(At(old_, p), At(scanned, p), true) ==> contents(p).Ok?) ==> Hashed(true, At(current, p))
  {
    CurrentAtPath(old_, scanned, contents, carried, p);
    MapFind(EntryKey, EntryKey, Hasher(contents), carried, current, p);
    FindMember(EntryKey, scanned, p);
  }

  lemma RefreshedAt(old_: Manifest, scanned: Manifest, contents: Contents, carried: Manifest, changes: seq<Change>, current: Manifest, p: Path)
    requires IsManifest(old_) && IsManifest(scanned)
    requires IsMap(Carry(old_, ChangesOf(old_, scanned)), scanned, carried)
    requires IsMap(ChangeHasher(contents), ChangesOf(old_, scanned), changes) && IsMap(Refresher(changes), carried, current)
    ensures SortedBy(ChangeKey, changes) && IsManifest(current)
    ensures At(current, p) == CurrentAt(At(old_, p), At(scanned, p), contents, false)
    ensures Find(ChangeKey, changes, p) == ChangeOf(Pair(At(old_, p), At(current, p)))
  {
    CurrentAtPath(old_, scanned, contents, carried, p);
    ChangesAt(old_, scanned, p);
    MapFind(ChangeKey, ChangeKey, ChangeHasher(contents), ChangesOf(old_, scanned), changes, p);
    forall j | 0 <= j < |carried|
      ensures EntryKey(current[j]) == EntryKey(carried[j])
    {
      RefreshedKeepsPath(changes, carried[j]);
    }
    MapFind(EntryKey, EntryKey, Refresher(changes), carried, current, p);
    FindMember(EntryKey, scanned, p);
    FindMember(EntryKey, carried, p);
  }

  /** Without a migration this side is a proper input of the merge: unchanged entries carry the hashes of
      the snapshot, and in strong mode every file has a digest. */
  lemma RefreshedIsSide(strong: bool, format: SnapshotFormat, old_: Manifest, scanned: Manifest, current: Manifest, contents: Contents)
    requires IsManifest(old_) && IsManifest(current) && !NeedsMigration(strong, format, old_)
    requires forall p :: At(current, p) == CurrentAt(At(old_, p), At(scanned, p), contents, false)
    requires forall p :: MustHash(At(old_, p), At(scanned, p), false) ==> contents(p).Ok?
    ensures IsSide(strong, old_, current)
  {
    forall p
      ensures Convergence.Carried(At(old_, p), At(current, p)) && Hashed(strong, At(current, p))
    {
      FindMember(EntryKey, old_, p);
      FindMember(EntryKey, scanned, p);
      assert MustHash(At(old_, p), At(scanned, p), false) ==> contents(p).Ok?;
      assert At(current, p) == CurrentAt(At(old_, p), At(scanned, p), contents, false);
    }
  }

  ghost predicate AllRead(must: Path -> bool, contents: Contents) {
    forall p :: must(p) ==> contents(p).Ok?
  }

  /** `p` is the first path, in path order, that must be read and cannot be. */
  ghost predicate FailsFirst(must: Path -> bool, contents: Contents, p: Path) {
    must(p) && contents(p).Err? && forall q :: must(q) && Less(q, p) ==> contents(q).Ok?
  }

  /** `part` finds in `xs` exactly the files that must be read, each at its path. */
  ghost predicate FindsFiles<T(!new)>(key: T -> Path, part: Part<T>, xs: seq<T>, must: Path -> bool) {
    && SortedBy(key, xs)
    && (forall x :: x in xs && part(x).Some? ==> part(x).value.IsFile() && part(x).value.path == key(x))
    && (forall p :: must(p) <==> Find(key, xs, p).Some? && part(Find(key, xs, p).value).Some?)
  }

  lemma ReadableByPath<T(!new)>(key: T -> Path, part: Part<T>, xs: seq<T>, must: Path -> bool, contents: Contents)
    requires FindsFiles(key, part, xs, must)
    ensures (forall j :: 0 <= j < |xs| ==> IsReadable(contents, part, xs[j])) <==> AllRead(must, contents)
  {
    forall j | 0 <= j < |xs| && AllRead(must, contents)
      ensures IsReadable(contents, part, xs[j])
    {
      FindAt(key, xs, j);
      assert xs[j] in xs;
      assert must(key(xs[j])) <==> part(xs[j]).Some?;
    }
    forall p | must(p) && (forall j :: 0 <= j < |xs| ==> IsReadable(contents, part, xs[j]))
      ensures contents(p).Ok?
    {
      FindMember(key, xs, p);
      var j :| 0 <= j < |xs| && xs[j] == Find(key, xs, p).value;
      assert IsReadable(contents, part, xs[j]);
    }
  }

  lemma FirstByPath<T(!new)>(key: T -> Path, part: Part<T>, xs: seq<T>, must: Path -> bool, contents: Contents, i: nat)
    requires FindsFiles(key, part, xs, must) && IsFirstUnreadable(contents, part, xs, i)
    ensures FailsFirst(must, contents, key(xs[i]))
  {
    FindAt(key, xs, i);
    assert xs[i] in xs;
    assert must(key(xs[i]));
    forall q | must(q) && Less(q, key(xs[i]))
      ensures contents(q).Ok?
    {
      FindMember(key, xs, q);
      var j :| 0 <= j < |xs| && xs[j] == Find(key, xs, q).value;
      Asymmetric(q, key(xs[i]));
      assert j < i;
      assert IsReadable(contents, part, xs[j]);
    }
  }

  ghost function Must(old_: Manifest, scanned: Manifest, migrate: bool): (f: Path -> bool)
    ensures forall p :: f(p) == MustHash(At(old_, p), At(scanned, p), migrate)
  {
    (p: Path) => MustHash(At(old_, p), At(scanned, p), migrate)
  }

  lemma ManifestFindsFiles(old_: Manifest, scanned: Manifest, contents: Contents, carried: Manifest)
    requires IsManifest(old_) && IsManifest(scanned)
    requires IsMap(Carry(old_, ChangesOf(old_, scanned)), scanned, carried)
    ensures FindsFiles(EntryKey, EntryPart, carried, Must(old_, scanned, true))
  {
    CurrentAtPath(old_, scanned, contents, carried, []);
    forall p
      ensures Must(old_, scanned, true)(p) <==> At(carried, p).Some? && EntryPart(At(carried, p).value).Some?
    {
      CurrentAtPath(old_, scanned, contents, carried, p);
    }
  }

  lemma ChangesFindFiles(old_: Manifest, scanned: Manifest)
    requires IsManifest(old_) && IsManifest(scanned)
    ensures FindsFiles(ChangeKey, ChangePart, ChangesOf(old_, scanned), Must(old_, scanned, false))
  {
    ChangesAt(old_, scanned, []);
    forall p
      ensures Must(old_, scanned, false)(p) <==>
        Find(ChangeKey, ChangesOf(old_, scanned), p).Some? && ChangePart(Find(ChangeKey, ChangesOf(old_, scanned), p).value).Some?
    {
      ChangesAt(old_, scanned, p);
    }
  }

  /** What one side computes, path by path. */
  ghost predicate IsContext(context: ScanContext, old_: Manifest, scanned: Manifest, format: SnapshotFormat, strong: bool, contents: Contents) {
    && IsManifest(context.current) && SortedBy(ChangeKey, context.changes)
    && context.migrationNeeded == NeedsMigration(strong, format, old_)
    && (forall p :: At(context.current, p) == CurrentAt(At(old_, p), At(scanned, p), contents, context.migrationNeeded))
    && (!context.migrationNeeded ==>
          context.changes == ChangesOf(old_, context.current) && IsSide(strong, old_, context.current))
    && (context.migrationNeeded ==>
          context.changes == ChangesOf(old_, scanned) && forall p :: Hashed(true, At(context.current, p)))
  }

  /** With a migration: every file is hashed. */
  method Migrate(old_: Manifest, scanned: Manifest, carried: Manifest, contents: Contents, limit: nat, schedule: Pool.Schedule)
    returns (r: Result<Manifest, Failure>)
    requires IsManifest(old_) && IsManifest(scanned) && limit > 0
    requires IsMap(Carry(old_, ChangesOf(old_, scanned)), scanned, carried)
    ensures r.Ok? <==> AllRead(Must(old_, scanned, true), contents)
    ensures r.Ok? ==> IsManifest(r.value) && forall p ::
      At(r.value, p) == CurrentAt(At(old_, p), At(scanned, p), contents, true) && Hashed(true, At(r.value, p))
    ensures r.Err? ==> exists p :: FailsFirst(Must(old_, scanned, true), contents, p) && contents(p) == Err(r.error)
  {
    r := HashManifest(contents, carried, limit, schedule);
    ManifestFindsFiles(old_, scanned, contents, carried);
    ReadableByPath(EntryKey, EntryPart, carried, Must(old_, scanned, true), contents);
    if r.Err? {
      ghost var i: nat :| IsFirstUnreadable(contents, EntryPart, carried, i) && r.error == contents(carried[i].path).error;
      FirstByPath(EntryKey, EntryPart, carried, Must(old_, scanned, true), contents, i);
    } else {
      MigratedAt(old_, scanned, contents, carried, r.value, []);
      forall p
        ensures At(r.value, p) == CurrentAt(At(old_, p), At(scanned, p), contents, true) && Hashed(true, At(r.value, p))
      {
        MigratedAt(old_, scanned, contents, carried, r.value, p);
        assert Must(old_, scanned, true)(p) ==> contents(p).Ok?;
      }
    }
  }

  lemma RefreshedEverywhere(old_: Manifest, scanned: Manifest, contents: Contents, carried: Manifest, changes: seq<Change>, current: Manifest)
    requires IsManifest(old_) && IsManifest(scanned)
    requires IsMap(Carry(old_, ChangesOf(old_, scanned)), scanned, carried)
    requires IsMap(ChangeHasher(contents), ChangesOf(old_, scanned), changes) && IsMap(Refresher(changes), carried, current)
    ensures IsManifest(current) && changes == ChangesOf(old_, current)
    ensures forall p :: At(current, p) == CurrentAt(At(old_, p), At(scanned, p), contents, false)
  {
    RefreshedAt(old_, scanned, contents, carried, changes, current, []);
    forall p
      ensures At(current, p) == CurrentAt(At(old_, p), At(scanned, p), contents, false)
      ensures Find(ChangeKey, changes, p) == Find(ChangeKey, ChangesOf(old_, current), p)
    {
      RefreshedAt(old_, scanned, contents, carried, changes, current, p);
      ChangesAt(old_, current, p);
    }
    ChangesAt(old_, current, []);
    SortedExtensional(ChangeKey, changes, ChangesOf(old_, current));
  }

  /** Hashes what changed, or fails at the first path that cannot be read. */
  method ReadChanges(old_: Manifest, scanned: Manifest, contents: Contents, limit: nat, schedule: Pool.Schedule)
    returns (r: Result<seq<Change>, Failure>)
    requires IsManifest(old_) && IsManifest(scanned) && limit > 0
    ensures r.Ok? <==> AllRead(Must(old_, scanned, false), contents)
    ensures r.Ok? ==> IsMap(ChangeHasher(contents), ChangesOf(old_, scanned), r.value)
    ensures r.Err? ==> exists p :: FailsFirst(Must(old_, scanned, false), contents, p) && contents(p) == Err(r.error)
  {
    var changes := ChangesOf(old_, scanned);
    r := HashChanges(contents, changes, limit, schedule);
    ChangesFindFiles(old_, scanned);
    ReadableByPath(ChangeKey, ChangePart, changes, Must(old_, scanned, false), contents);
    if r.Err? {
      ghost var i: nat :| IsFirstUnreadable(contents, ChangePart, changes, i) && r.error == contents(changes[i].Path()).error;
      FirstByPath(ChangeKey, ChangePart, changes, Must(old_, scanned, false), contents, i);
    }
  }

  /** Without one: only what changed is hashed, and copied into the manifest. */
  method Refresh(old_: Manifest, scanned: Manifest, carried: Manifest, contents: Contents, limit: nat, schedule: Pool.Schedule)
    returns (r: Result<seq<Change>, Failure>, current: Manifest)
    requires IsManifest(old_) && IsManifest(scanned) && limit > 0
    requires IsMap(Carry(old_, ChangesOf(old_, scanned)), scanned, carried)
    ensures r.Ok? <==> AllRead(Must(old_, scanned, false), contents)
    ensures r.Ok? ==> IsManifest(current) && r.value == ChangesOf(old_, current) && forall p ::
      At(current, p) == CurrentAt(At(old_, p), At(scanned, p), contents, false)
    ensures r.Err? ==> exists p :: FailsFirst(Must(old_, scanned, false), contents, p) && contents(p) == Err(r.error)
  {
    r := ReadChanges(old_, scanned, contents, limit, schedule);
    current := carried;
    if r.Ok? {
      ChangesAt(old_, scanned, []);
      CurrentAtPath(old_, scanned, contents, carried, []);
      MapFind(ChangeKey, ChangeKey, ChangeHasher(contents), ChangesOf(old_, scanned), r.value, []);
      current := RefreshEntries(r.value, carried);
      RefreshedEverywhere(old_, scanned, contents, carried, r.value, current);
    }
  }

  /** The baseline of one side: it is computed if and only if every file that must be read can be, and
      otherwise fails with the error of the first one in path order, on every schedule of the workers. */
  method OldAndChanges(loaded: Manifest, format: SnapshotFormat, scan: Manifest, scope: ScanScope, strong: bool, contents: Contents,
                       limit: nat, schedule: Pool.Schedule)
    returns (r: Result<ScanContext, Failure>)
    requires IsManifest(loaded) && IsManifest(scan) && limit > 0
    ensures var old_, scanned := InScope(scope, loaded), InScope(scope, scan);
      var must := Must(old_, scanned, NeedsMigration(strong, format, old_));
      && (r.Ok? <==> AllRead(must, contents))
      && (r.Ok? ==> IsContext(r.value, old_, scanned, format, strong, contents))
      && (r.Err? ==> exists p :: FailsFirst(must, contents, p) && contents(p) == Err(r.error))
  {
    var scanned := InScope(scope, scan);
    var old_ := InScope(scope, loaded);
    InScopeAt(scope, scan, []);
    InScopeAt(scope, loaded, []);
    var changes := CollectChanges(old_, scanned);
    ChangesAt(old_, scanned, []);
    var carried := InheritHashes(old_, changes, scanned);
    var migrationNeeded := strong && (format.LegacyV1? || exists i :: 0 <= i < |old_| && old_[i].IsFile() && old_[i].digest.None?);
    if migrationNeeded {
      var hashed := Migrate(old_, scanned, carried, contents, limit, schedule);
      r := if hashed.Ok? then Ok(ScanContext(changes, hashed.value, true)) else Err(hashed.error);
    } else {
      var hashed, current := Refresh(old_, scanned, carried, contents, limit, schedule);
      if hashed.Err? {
        return Err(hashed.error);
      }
      ChangesAt(old_, current, []);
      RefreshedIsSide(strong, format, old_, scanned, current, contents) by {
        forall p
          ensures MustHash(At(old_, p), At(scanned, p), false) ==> contents(p).Ok?
        {
          assert Must(old_, scanned, false)(p) ==> contents(p).Ok?;
        }
      }
      r := Ok(ScanContext(hashed.value, current, false));
    }
  }
}
