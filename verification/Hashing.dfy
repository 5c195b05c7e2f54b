/** Content hashing: the files of a list of entries or changes are hashed by the worker pool, and their
    places in the list take the results. */
module Hashing {
  import opened Integers
  import opened Paths
  import opened Wrappers
  import opened Entries
  import Pool

  datatype Hashes = Hashes(checksum: u32, digest: ContentDigest)

  type Failure = string

  /** What reading the files gives. */
  type Contents = Path -> Result<Hashes, Failure>

  predicate Readable(contents: Contents, e: Entry) {
    e.IsFile() ==> contents(e.path).Ok?
  }

  function HashEntry(contents: Contents, e: Entry): Entry {
    match contents(e.path)
    case Ok(h) => if e.IsFile() then e.(checksum := h.checksum, digest := Some(h.digest)) else e
    case Err(_) => e
  }

  // ----- One run of the pool -----

  datatype Item = Item(index: nat, entry: Entry)

  function Compute(contents: Contents, item: Item): Result<Item, Failure> {
    if Readable(contents, item.entry) then Ok(item.(entry := HashEntry(contents, item.entry)))
    else Err(contents(item.entry.path).error)
  }

  function Worker(contents: Contents): (f: Item -> Result<Item, Failure>)
    ensures forall item :: f(item) == Compute(contents, item)
  {
    (item: Item) => Compute(contents, item)
  }

  method HashWork(contents: Contents, work: seq<Item>, limit: nat, schedule: Pool.Schedule)
    returns (r: Result<seq<Item>, Failure>)
    requires limit > 0
    ensures r == Pool.Sequential(Worker(contents), work)
  {
    ghost var peak, told, overtaken;
    r, peak, told, overtaken := Pool.RunBlockingWithLimit(work, limit, Worker(contents), "cancelled", schedule);
  }

  // ----- Lists with files in them -----

  /** The file in an element, if it has one to hash. */
  type Part<!T> = T -> Option<Entry>

  /** An element with its file replaced. */
  type Put<!T> = (T, Entry) -> T

  ghost predicate IsReadable<T>(contents: Contents, part: Part<T>, x: T) {
    part(x).Some? ==> Readable(contents, part(x).value)
  }

  function HashPart<T>(contents: Contents, part: Part<T>, put: Put<T>, x: T): T {
    if part(x).Some? then put(x, HashEntry(contents, part(x).value)) else x
  }

  /** `work` lists the files of the first `n` elements, in order. */
  ghost predicate IsWork<T>(part: Part<T>, xs: seq<T>, n: nat, work: seq<Item>) {
    && n <= |xs|
    && (forall k :: 0 <= k < |work| ==> work[k].index < n && part(xs[work[k].index]) == Some(work[k].entry))
    && (forall k, m :: 0 <= k < m < |work| ==> work[k].index < work[m].index)
    && (forall j :: 0 <= j < n && part(xs[j]).Some? ==> exists k :: 0 <= k < |work| && work[k].index == j)
  }

  /** Element `i` is the first one whose file cannot be read. */
  ghost predicate IsFirstUnreadable<T>(contents: Contents, part: Part<T>, xs: seq<T>, i: nat) {
    i < |xs| && !IsReadable(contents, part, xs[i]) && forall j :: 0 <= j < i ==> IsReadable(contents, part, xs[j])
  }

  lemma WorkGrows<T>(part: Part<T>, xs: seq<T>, n: nat, work: seq<Item>)
    requires IsWork(part, xs, n, work) && n < |xs|
    ensures part(xs[n]).None? ==> IsWork(part, xs, n + 1, work)
    ensures part(xs[n]).Some? ==> IsWork(part, xs, n + 1, work + [Item(n, part(xs[n]).value)])
  {
    if part(xs[n]).Some? {
      var more := work + [Item(n, part(xs[n]).value)];
      forall j | 0 <= j < n + 1 && part(xs[j]).Some?
        ensures exists k :: 0 <= k < |more| && more[k].index == j
      {
        if j < n {
          var k :| 0 <= k < |work| && work[k].index == j;
          assert more[k].index == j;
        } else {
          assert more[|work|].index == j;
        }
      }
    }
  }

  /** When the pool fails, it fails with the error of the first unreadable file of the list. */
  lemma WorkFails<T>(contents: Contents, part: Part<T>, xs: seq<T>, work: seq<Item>)
    requires IsWork(part, xs, |xs|, work) && Pool.Sequential(Worker(contents), work).Err?
    ensures exists i: nat ::
      (IsFirstUnreadable(contents, part, xs, i) && Pool.Sequential(Worker(contents), work).error == contents(part(xs[i]).value.path).error)
  {
    Pool.SequentialErr(Worker(contents), work);
    var low := Pool.FirstFailure(Worker(contents), work);
    var i := work[low].index;
    forall j | 0 <= j < i
      ensures IsReadable(contents, part, xs[j])
    {
      if part(xs[j]).Some? {
        var k :| 0 <= k < |work| && work[k].index == j;
        assert k < low;
        assert Worker(contents)(work[k]).Ok?;
      }
    }
    assert IsFirstUnreadable(contents, part, xs, i);
  }

  lemma WorkSucceeds<T>(contents: Contents, part: Part<T>, xs: seq<T>, work: seq<Item>, done: seq<Item>)
    requires IsWork(part, xs, |xs|, work) && Pool.Sequential(Worker(contents), work) == Ok(done)
    ensures |done| == |work| && forall k :: 0 <= k < |work| ==>
      done[k] == Item(work[k].index, HashEntry(contents, work[k].entry))
    ensures forall j :: 0 <= j < |xs| ==> IsReadable(contents, part, xs[j])
  {
    Pool.SequentialOk(Worker(contents), work, done);
    forall j | 0 <= j < |xs|
      ensures IsReadable(contents, part, xs[j])
    {
      if part(xs[j]).Some? {
        var k :| 0 <= k < |work| && work[k].index == j;
        assert Worker(contents)(work[k]).Ok?;
      }
    }
  }

  /** The list after the first `n` results were put in place. */
  ghost predicate IsPut<T>(contents: Contents, part: Part<T>, put: Put<T>, xs: seq<T>, work: seq<Item>, n: nat, ys: seq<T>) {
    && |ys| == |xs| && n <= |work|
    && (forall k :: 0 <= k < |work| ==> work[k].index < |xs|)
    && (forall k :: 0 <= k < n ==> ys[work[k].index] == HashPart(contents, part, put, xs[work[k].index]))
    && (forall j :: 0 <= j < |xs| && (forall k :: 0 <= k < n ==> work[k].index != j) ==> ys[j] == xs[j])
  }

  /** Hashes every file of a list, or fails with the error of the first one that cannot be read. A file gets
      the hashes of its contents and keeps everything else; whatever is not a file stays as it is. */
  method HashFiles<T>(contents: Contents, part: Part<T>, put: Put<T>, xs: seq<T>, limit: nat, schedule: Pool.Schedule)
    returns (r: Result<seq<T>, Failure>)
    requires limit > 0
    ensures r.Ok? <==> forall j :: 0 <= j < |xs| ==> IsReadable(contents, part, xs[j])
    ensures r.Ok? ==> |r.value| == |xs| && forall j :: 0 <= j < |xs| ==>
      match part(xs[j])
      case None => r.value[j] == xs[j]
      case Some(e) =>
        if e.isDir || e.target.Some? then r.value[j] == put(xs[j], e)
        else
          && contents(e.path).Ok?
          && var h := contents(e.path).value;
             r.value[j] == put(xs[j], e.(checksum := h.checksum, digest := Some(h.digest)))
    ensures r.Err? ==> exists i: nat :: IsFirstUnreadable(contents, part, xs, i) && r.error == contents(part(xs[i]).value.path).error
  {
    var work: seq<Item> := [];
    for i := 0 to |xs|
      invariant IsWork(part, xs, i, work)
    {
      WorkGrows(part, xs, i, work);
      if part(xs[i]).Some? {
        work := work + [Item(i, part(xs[i]).value)];
      }
    }
    var results := HashWork(contents, work, limit, schedule);
    if results.Err? {
      WorkFails(contents, part, xs, work);
      return Err(results.error);
    }
    WorkSucceeds(contents, part, xs, work, results.value);
    var ys := xs;
    for k := 0 to |results.value|
      invariant IsPut(contents, part, put, xs, work, k, ys)
    {
      var j := results.value[k].index;
      ys := ys[j := put(ys[j], results.value[k].entry)];
    }
    return Ok(ys);
  }
}
