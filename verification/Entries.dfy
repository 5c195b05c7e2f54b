/** Manifest entries, changes between manifests, and the comparisons between them. */
module Entries {
  import opened Integers
  import opened Paths
  import opened Wrappers

  /** A BLAKE2b-256 content digest. */
  type ContentDigest = d: seq<byte> | |d| == 32 witness seq(32, _ => 0)

  datatype Entry = Entry(
    path: Path,
    size: u64,
    mtime: i64,
    ino: u64,
    mode: u32,
    target: Option<string>,
    isDir: bool,
    checksum: u32,
    digest: Option<ContentDigest>)
  {
    predicate IsSymlink() {
      target.Some?
    }

    predicate IsFile() {
      !isDir && !IsSymlink()
    }

    /** Whether a scan saw the same thing at the same path: modes of symlinks and identities of
        directories are not compared, and content hashes are not known yet. */
    predicate Same(other: Entry) {
      && (IsSymlink() || mode == other.mode)
      && target == other.target
      && isDir == other.isDir
      && (isDir || (size == other.size && mtime == other.mtime && ino == other.ino))
    }
  }

  type Manifest = seq<Entry>

  /** The formats of the snapshot file: without and with content digests. */
  datatype SnapshotFormat = LegacyV1 | V2

  datatype Change = Added(entry: Entry) | Removed(entry: Entry) | Modified(old_: Entry, new_: Entry) {
    function Path(): Paths.Path {
      match this
      case Added(e) => e.path
      case Removed(e) => e.path
      case Modified(_, e) => e.path
    }
  }

  /** File contents agree: by digest when both sides have one, else, in weak mode, by checksum. */
  predicate SameFile(strong: bool, a: Entry, b: Entry) {
    if a.digest.Some? && b.digest.Some? then a.digest == b.digest else !strong && a.checksum == b.checksum
  }

  /** Two entries that need no synchronization: everything but inodes and sizes is compared. */
  predicate Equivalent(strong: bool, a: Entry, b: Entry) {
    && ((a.IsSymlink() && b.IsSymlink()) || a.mode == b.mode)
    && a.target == b.target
    && a.isDir == b.isDir
    && (a.isDir || a.mtime == b.mtime)
    && (a.IsFile() ==> SameFile(strong, a, b))
  }

  /** `same` and `same_strong` on the changes of the two sides. */
  predicate SameChange(strong: bool, x: Change, y: Change) {
    match (x, y)
    case (Removed(_), Removed(_)) => true
    case (Added(d1), Added(d2)) => Equivalent(strong, d1, d2)
    case (Modified(_, d1), Modified(_, d2)) => Equivalent(strong, d1, d2)
    case _ => false
  }

  function EntryKey(e: Entry): Path {
    e.path
  }

  function ChangeKey(c: Change): Path {
    c.Path()
  }
}
