/** The tree scan: one-directory jobs that carry a rule range, run by a bounded scheduler in any
    completion order, against the specification "the most specific rule wins". */
module Scan {
  import opened Paths
  import opened Rules
  import opened Scope
  import opened Wrappers

  /** Special files are devices, pipes and sockets; a mount is a directory of another file system, and what is
      foreign a file or a symbolic link of another one. */
  datatype Kind = File | Symlink | Directory | Special | Mount | Foreign

  datatype Access = Stat | List | ReadLink

  datatype ScanError = Unreadable(path: Path) | SpecialFile(path: Path) | Boundary(path: Path)

  type Tree = map<Path, Kind>

  /** Paths are relative to the base, whose own path is empty. `ignored` matches base names; `fails` says
      which accesses to the file system fail. */
  datatype Context = Context(tree: Tree, rules: Locations, scope: ScanScope, ignored: Name -> bool, fails: (Access, Path) -> bool)

  datatype ScanJob = ScanJob(path: Path, pft: ParentFromTo)

  ghost predicate Valid(ctx: Context) {
    && [] in ctx.tree && ctx.tree[[]].Directory?
    && (forall p :: p in ctx.tree && p != [] ==> Parent(p) in ctx.tree && ctx.tree[Parent(p)].Directory?)
    && Sorted(ctx.rules) && ctx.rules != [] && ctx.rules[0].path == []
  }

  // ----- Specification -----

  /** The most specific rule for `p` is an include. */
  ghost predicate Included(rules: Locations, p: Path) {
    exists k: nat :: IsLongestPrefix(rules, p, k) && rules[k].Include?
  }

  ghost predicate IncludedBelow(rules: Locations, p: Path) {
    exists i :: 0 <= i < |rules| && p < rules[i].path && rules[i].Include?
  }

  /** What a scan must report. */
  ghost predicate Wanted(ctx: Context, p: Path) {
    && p in ctx.tree && p != [] && !ctx.tree[p].Foreign?
    && Included(ctx.rules, p)
    && Selects(ctx.scope, p)
    && forall i :: 0 <= i < |p| ==> !ctx.ignored(p[i])
  }

  // ----- What the jobs decide, as predicates -----

  ghost predicate Enters(ctx: Context, d: Path) {
    && Reaches(ctx.scope, d)
    && (Included(ctx.rules, d) || exists i :: 0 <= i < |ctx.rules| && d <= ctx.rules[i].path)
  }

  ghost predicate Considers(ctx: Context, c: Path)
    requires c != []
  {
    && !Excludes(ctx.scope, c) && !ctx.ignored(c[|c| - 1])
    && (Included(ctx.rules, c) || IncludedBelow(ctx.rules, c))
  }

  ghost predicate Descends(ctx: Context, c: Path)
    requires c != [] && c in ctx.tree
  {
    Considers(ctx, c) && ctx.tree[c].Directory?
  }

  ghost predicate Reports(ctx: Context, c: Path)
    requires c != [] && c in ctx.tree
  {
    Considers(ctx, c) && Included(ctx.rules, c) && Selects(ctx.scope, c) && !ctx.tree[c].Foreign?
  }

  /** `d` is a directory for which the scheduler is given a job. */
  ghost predicate Scheduled(ctx: Context, d: Path)
    decreases |d|
  {
    d in ctx.tree && ctx.tree[d].Directory? &&
    (d == [] || (Scheduled(ctx, Parent(d)) && Enters(ctx, Parent(d)) && Descends(ctx, d)))
  }

  /** `c` is an entry of directory `d`. */
  ghost predicate IsEntry(ctx: Context, d: Path, c: Path) {
    c in ctx.tree && c != [] && Parent(c) == d
  }

  ghost predicate Sends(ctx: Context, d: Path, c: Path) {
    IsEntry(ctx, d, c) && Enters(ctx, d) && Reports(ctx, c)
  }

  ghost predicate Spawns(ctx: Context, d: Path, c: Path) {
    IsEntry(ctx, d, c) && Enters(ctx, d) && Descends(ctx, c)
  }

  // ----- What makes a job fail -----

  /** Examining entry `c` of a directory can end in `error`. */
  ghost predicate EntryError(ctx: Context, c: Path, error: ScanError)
    requires c != [] && c in ctx.tree
  {
    && !Excludes(ctx.scope, c) && !ctx.ignored(c[|c| - 1]) && error.path == c
    && match error
       case Unreadable(_) => ctx.fails(Stat, c) || (Reports(ctx, c) && ctx.tree[c].Symlink? && ctx.fails(ReadLink, c))
       case SpecialFile(_) => Considers(ctx, c) && ctx.tree[c].Special? && Selects(ctx.scope, c)
       case Boundary(_) => Considers(ctx, c) && ctx.tree[c].Mount? && Reaches(ctx.scope, c)
  }

  ghost predicate JobError(ctx: Context, d: Path, error: ScanError) {
    Enters(ctx, d) &&
    ((error == Unreadable(d) && ctx.fails(List, d)) || (exists c :: IsEntry(ctx, d, c) && EntryError(ctx, c, error)))
  }

  ghost predicate JobFails(ctx: Context, d: Path) {
    exists error :: JobError(ctx, d, error)
  }

  // ----- The walk reaches exactly what is wanted -----

  /** On the way down to an included path, every directory is included itself or has an include below it. */
  lemma IncludeVisibleFromAbove(rules: Locations, d: Path, p: Path)
    requires Sorted(rules) && rules != [] && rules[0].path == []
    requires d <= p && Included(rules, p)
    ensures Included(rules, d) || IncludedBelow(rules, d)
  {
  }

  lemma {:induction false} AncestorIsDirectory(ctx: Context, p: Path, n: nat)
    requires Valid(ctx) && p in ctx.tree && n < |p|
    ensures p[..n] in ctx.tree && ctx.tree[p[..n]].Directory?
    decreases |p|
  {
    if n < |p| - 1 {
      AncestorIsDirectory(ctx, Parent(p), n);
      assert Parent(p)[..n] == p[..n];
    }
  }

  lemma WantedPathEnters(ctx: Context, p: Path, n: nat)
    requires Valid(ctx) && Wanted(ctx, p) && n < |p|
    ensures Enters(ctx, p[..n])
    ensures n > 0 ==> p[..n] in ctx.tree && Descends(ctx, p[..n])
  {
    var d := p[..n];
    AncestorIsDirectory(ctx, p, n);
    IncludeVisibleFromAbove(ctx.rules, d, p);
    if |d| <= |ctx.scope.restrict| {
      PrefixesChain(d, ctx.scope.restrict, p);
    } else {
      PrefixesChain(ctx.scope.restrict, d, p);
    }
    if IncludedBelow(ctx.rules, d) {
      var i :| 0 <= i < |ctx.rules| && d < ctx.rules[i].path && ctx.rules[i].Include?;
      assert d <= ctx.rules[i].path;
    }
    assert n > 0 ==> d[|d| - 1] == p[n - 1];
  }

  lemma {:induction false} WantedPathScheduled(ctx: Context, p: Path, n: nat)
    requires Valid(ctx) && Wanted(ctx, p) && n < |p|
    ensures Scheduled(ctx, p[..n])
    decreases n
  {
    AncestorIsDirectory(ctx, p, n);
    if n > 0 {
      WantedPathScheduled(ctx, p, n - 1);
      WantedPathEnters(ctx, p, n - 1);
      WantedPathEnters(ctx, p, n);
      assert Parent(p[..n]) == p[..n - 1];
    }
  }

  lemma {:induction false} ScheduledNamesNotIgnored(ctx: Context, d: Path)
    requires Scheduled(ctx, d)
    ensures forall i :: 0 <= i < |d| ==> !ctx.ignored(d[i])
    decreases |d|
  {
    if d != [] {
      ScheduledNamesNotIgnored(ctx, Parent(d));
    }
  }

  lemma WantedIsSent(ctx: Context, p: Path)
    requires Valid(ctx) && Wanted(ctx, p)
    ensures Scheduled(ctx, Parent(p)) && Sends(ctx, Parent(p), p)
  {
    WantedPathScheduled(ctx, p, |p| - 1);
    WantedPathEnters(ctx, p, |p| - 1);
  }

  lemma SentIsWanted(ctx: Context, p: Path)
    requires Valid(ctx) && p != [] && Scheduled(ctx, Parent(p)) && Sends(ctx, Parent(p), p)
    ensures Wanted(ctx, p)
  {
    ScheduledNamesNotIgnored(ctx, Parent(p));
    assert forall i :: 0 <= i < |p| - 1 ==> p[i] == Parent(p)[i];
  }

  /** The pruned walk reports a path exactly when the specification wants it. */
  lemma WantedIffSent(ctx: Context, p: Path)
    requires Valid(ctx)
    ensures Wanted(ctx, p) <==> p != [] && Scheduled(ctx, Parent(p)) && Sends(ctx, Parent(p), p)
  {
    if Wanted(ctx, p) {
      WantedIsSent(ctx, p);
    } else if p != [] && Scheduled(ctx, Parent(p)) && Sends(ctx, Parent(p), p) {
      SentIsWanted(ctx, p);
    }
  }

  // ----- One directory -----

  /** The directory whose range a job carries: the parent of its own path. */
  function RangeOwner(path: Path): Path {
    if path == [] then [] else Parent(path)
  }

  ghost predicate JobTracks(ctx: Context, job: ScanJob) {
    Tracks(ctx.rules, RangeOwner(job.path), job.pft)
  }

  ghost predicate AllTrack(ctx: Context, jobs: seq<ScanJob>) {
    forall i :: 0 <= i < |jobs| ==> JobTracks(ctx, jobs[i])
  }

  ghost predicate Distinct(paths: seq<Path>) {
    forall i, j :: 0 <= i < j < |paths| ==> paths[i] != paths[j]
  }

  ghost predicate DistinctJobs(jobs: seq<ScanJob>) {
    forall i, j :: 0 <= i < j < |jobs| ==> jobs[i].path != jobs[j].path
  }

  ghost predicate HasJob(jobs: seq<ScanJob>, path: Path) {
    exists i :: 0 <= i < |jobs| && jobs[i].path == path
  }

  /** The entries of a directory, in whatever order the file system lists them. */
  method ReadDir(ctx: Context, d: Path) returns (entries: seq<Path>)
    ensures Distinct(entries)
    ensures forall c :: c in entries <==> IsEntry(ctx, d, c)
  {
    entries := [];
    var left := set c | c in ctx.tree.Keys && c != [] && Parent(c) == d;
    while left != {}
      invariant Distinct(entries)
      invariant forall c :: c in entries ==> c !in left
      invariant forall c :: IsEntry(ctx, d, c) <==> c in left || c in entries
      decreases left
    {
      var c :| c in left;
      left := left - {c};
      entries := entries + [c];
    }
  }

  datatype Verdict = Verdict(report: bool, descend: bool)

  /** The tests for one entry of the directory that `pft` tracks. */
  method ExamineEntry(ctx: Context, dir: Path, pft: ParentFromTo, path: Path) returns (r: Result<Verdict, ScanError>)
    requires Valid(ctx) && Tracks(ctx.rules, dir, pft) && IsEntry(ctx, dir, path)
    ensures r.Ok? ==> r.value == Verdict(Reports(ctx, path), Descends(ctx, path)) && forall error :: !EntryError(ctx, path, error)
    ensures r.Err? ==> EntryError(ctx, path, r.error)
  {
    TestsMean(ctx.scope, path);
    if ctx.scope.IsExcluded(path) || ctx.ignored(path[|path| - 1]) {
      return Ok(Verdict(false, false));
    }
    if ctx.fails(Stat, path) {
      return Err(Unreadable(path));
    }
    assert dir == path[..|path| - 1];
    var k := FindParent(path, ctx.rules, pft, dir);
    var childPft := NarrowParentFromTo(pft, path, ctx.rules, dir);
    var location := ctx.rules[k];
    var hasDescendantIncludes := AnyIncludeBelow(ctx.rules, path, childPft);
    LongestPrefixDecides(ctx.rules, path, k);
    if location.Exclude? && !hasDescendantIncludes {
      return Ok(Verdict(false, false));
    }
    var kind := ctx.tree[path];
    if kind.Special? {
      return if ctx.scope.Selected(path) then Err(SpecialFile(path)) else Ok(Verdict(false, false));
    }
    if kind.Mount? && ctx.scope.Relevant(path) {
      return Err(Boundary(path));
    }
    if location.Exclude? {
      return Ok(Verdict(false, kind.Directory?));
    }
    if ctx.scope.Selected(path) && kind.Symlink? && ctx.fails(ReadLink, path) {
      return Err(Unreadable(path));
    }
    r := Ok(Verdict(ctx.scope.Selected(path) && !kind.Foreign?, kind.Directory?));
  }

  lemma LongestPrefixDecides(rules: Locations, path: Path, k: nat)
    requires Sorted(rules) && IsLongestPrefix(rules, path, k)
    ensures Included(rules, path) <==> rules[k].Include?
  {
    if m: nat :| IsLongestPrefix(rules, path, m) && rules[m].Include? {
      LongestPrefixUnique(rules, path, k, m);
    }
  }

  method AnyIncludeBelow(rules: Locations, path: Path, range: ParentFromTo) returns (found: bool)
    requires Tracks(rules, path, range)
    ensures found <==> IncludedBelow(rules, path)
  {
    var i := range.from;
    while i <= range.to
      invariant range.from <= i <= range.to + 1
      invariant forall j :: range.from <= j < i ==> !(rules[j].Include? && rules[j].path != path)
    {
      if rules[i].Include? && rules[i].path != path {
        assert path < rules[i].path;
        return true;
      }
      i := i + 1;
    }
    found := false;
  }

  datatype Found = Found(sent: seq<Path>, jobs: seq<ScanJob>)

  /** Examines the entries of a directory in the given order, up to the first error. */
  method ScanEntries(ctx: Context, dir: Path, pft: ParentFromTo, entries: seq<Path>) returns (r: Result<Found, ScanError>)
    requires Valid(ctx) && Tracks(ctx.rules, dir, pft)
    requires Distinct(entries) && forall i :: 0 <= i < |entries| ==> IsEntry(ctx, dir, entries[i])
    ensures r.Ok? ==> Distinct(r.value.sent) && forall c :: c in r.value.sent <==> c in entries && IsEntry(ctx, dir, c) && Reports(ctx, c)
    ensures r.Ok? ==> DistinctJobs(r.value.jobs) && AllTrack(ctx, r.value.jobs)
    ensures r.Ok? ==> forall c :: HasJob(r.value.jobs, c) <==> c in entries && IsEntry(ctx, dir, c) && Descends(ctx, c)
    ensures r.Ok? ==> forall c, error :: c in entries && IsEntry(ctx, dir, c) ==> !EntryError(ctx, c, error)
    ensures r.Err? ==> exists c :: IsEntry(ctx, dir, c) && EntryError(ctx, c, r.error)
  {
    var sent: seq<Path>, jobs: seq<ScanJob> := [], [];
    for i := 0 to |entries|
      invariant Distinct(sent) && DistinctJobs(jobs) && AllTrack(ctx, jobs)
      invariant forall c :: c in sent <==> c in entries[..i] && IsEntry(ctx, dir, c) && Reports(ctx, c)
      invariant forall c :: HasJob(jobs, c) <==> c in entries[..i] && IsEntry(ctx, dir, c) && Descends(ctx, c)
      invariant forall c, error :: c in entries[..i] && IsEntry(ctx, dir, c) ==> !EntryError(ctx, c, error)
    {
      var c := entries[i];
      NextEntry(entries, i);
      var verdict := ExamineEntry(ctx, dir, pft, c);
      if verdict.Err? {
        return Err(verdict.error);
      }
      if verdict.value.descend {
        jobs := AddJob(ctx, jobs, ScanJob(c, pft));
      }
      if verdict.value.report {
        sent := sent + [c];
      }
    }
    assert entries[..|entries|] == entries;
    r := Ok(Found(sent, jobs));
  }

  lemma NextEntry(entries: seq<Path>, i: nat)
    requires i < |entries| && Distinct(entries)
    ensures entries[i] !in entries[..i]
    ensures forall c :: c in entries[..i + 1] <==> c in entries[..i] || c == entries[i]
  {
  }

  /** Scans one directory: what it sends, and the jobs for the directories below it. */
  method ScanOneDirectory(ctx: Context, job: ScanJob) returns (r: Result<Found, ScanError>)
    requires Valid(ctx) && Scheduled(ctx, job.path) && JobTracks(ctx, job)
    ensures r.Ok? ==> Distinct(r.value.sent) && forall c :: c in r.value.sent <==> Sends(ctx, job.path, c)
    ensures r.Ok? ==> DistinctJobs(r.value.jobs) && AllTrack(ctx, r.value.jobs)
    ensures r.Ok? ==> forall c :: HasJob(r.value.jobs, c) <==> Spawns(ctx, job.path, c)
    ensures r.Ok? ==> !JobFails(ctx, job.path)
    ensures r.Err? ==> JobError(ctx, job.path, r.error)
  {
    TestsMean(ctx.scope, job.path);
    if ctx.scope.IsExcluded(job.path) || !ctx.scope.Relevant(job.path) {
      return Ok(Found([], []));
    }
    var pft := NarrowParentFromTo(job.pft, job.path, ctx.rules, RangeOwner(job.path));
    EntersByRange(ctx, job.path, pft);
    if ctx.rules[pft.parent].Exclude? && pft.from > pft.to {
      return Ok(Found([], []));
    }
    if ctx.fails(List, job.path) {
      return Err(Unreadable(job.path));
    }
    var entries := ReadDir(ctx, job.path);
    r := ScanEntries(ctx, job.path, pft, entries);
  }

  /** The directory test of the program, read off the narrowed range. */
  lemma EntersByRange(ctx: Context, d: Path, pft: ParentFromTo)
    requires Valid(ctx) && Tracks(ctx.rules, d, pft) && Reaches(ctx.scope, d)
    ensures Enters(ctx, d) <==> ctx.rules[pft.parent].Include? || pft.from <= pft.to
  {
    LongestPrefixDecides(ctx.rules, d, pft.parent);
    if pft.from <= pft.to {
      assert d <= ctx.rules[pft.from].path;
    }
  }

  method AddJob(ctx: Context, jobs: seq<ScanJob>, job: ScanJob) returns (more: seq<ScanJob>)
    requires DistinctJobs(jobs) && !HasJob(jobs, job.path) && JobTracks(ctx, job)
    requires forall i :: 0 <= i < |jobs| ==> JobTracks(ctx, jobs[i])
    ensures DistinctJobs(more) && forall c :: HasJob(more, c) <==> HasJob(jobs, c) || c == job.path
    ensures forall i :: 0 <= i < |more| ==> JobTracks(ctx, more[i])
  {
    more := jobs + [job];
    forall c
      ensures HasJob(more, c) <==> HasJob(jobs, c) || c == job.path
    {
      if i :| 0 <= i < |jobs| && jobs[i].path == c {
        assert more[i].path == c;
      }
      assert more[|jobs|] == job;
    }
  }

  // ----- The scheduler -----

  /** Inserts a job by path; the children of a directory are queued in path order. */
  function InsertJob(jobs: seq<ScanJob>, x: ScanJob): seq<ScanJob> {
    if jobs == [] then [x]
    else if Less(x.path, jobs[0].path) then [x] + jobs
    else [jobs[0]] + InsertJob(jobs[1..], x)
  }

  function SortJobs(jobs: seq<ScanJob>): seq<ScanJob> {
    if jobs == [] then [] else InsertJob(SortJobs(jobs[1..]), jobs[0])
  }

  ghost function PathSeq(jobs: seq<ScanJob>): seq<Path> {
    seq(|jobs|, i requires 0 <= i < |jobs| => jobs[i].path)
  }

  /** The paths of a list of jobs, each as often as it occurs. */
  ghost function PathsOf(jobs: seq<ScanJob>): multiset<Path> {
    multiset(PathSeq(jobs))
  }

  lemma PathsOfAppend(a: seq<ScanJob>, b: seq<ScanJob>)
    ensures PathsOf(a + b) == PathsOf(a) + PathsOf(b)
  {
    assert PathSeq(a + b) == PathSeq(a) + PathSeq(b);
  }

  lemma PathsOfOne(x: ScanJob)
    ensures PathsOf([x]) == multiset{x.path}
  {
  }

  lemma PathsOfRemove(jobs: seq<ScanJob>, k: nat)
    requires k < |jobs|
    ensures PathsOf(jobs) == PathsOf(jobs[..k] + jobs[k + 1..]) + multiset{jobs[k].path}
  {
    var before, after := PathSeq(jobs[..k]), PathSeq(jobs[k + 1..]);
    assert PathSeq(jobs[..k] + jobs[k + 1..]) == before + after;
    assert PathSeq(jobs) == before + ([jobs[k].path] + after);
  }

  lemma {:induction false} DistinctCounts(paths: seq<Path>)
    requires Distinct(paths)
    ensures forall c :: multiset(paths)[c] == if c in paths then 1 else 0
  {
    if paths != [] {
      DistinctCounts(paths[1..]);
      assert paths == [paths[0]] + paths[1..];
    }
  }

  lemma PathsOfDistinct(jobs: seq<ScanJob>)
    requires DistinctJobs(jobs)
    ensures forall c :: PathsOf(jobs)[c] == if HasJob(jobs, c) then 1 else 0
  {
    var paths := PathSeq(jobs);
    DistinctCounts(paths);
    forall c
      ensures c in paths <==> HasJob(jobs, c)
    {
      if i :| 0 <= i < |jobs| && jobs[i].path == c {
        assert paths[i] == c;
      }
      if i :| 0 <= i < |paths| && paths[i] == c {
        assert jobs[i].path == c;
      }
    }
  }

  lemma {:induction false} InsertJobPermutes(jobs: seq<ScanJob>, x: ScanJob)
    ensures PathsOf(InsertJob(jobs, x)) == PathsOf(jobs) + multiset{x.path}
  {
    if jobs == [] {
      PathsOfOne(x);
    } else if Less(x.path, jobs[0].path) {
      PathsOfOne(x);
      PathsOfAppend([x], jobs);
    } else {
      InsertJobPermutes(jobs[1..], x);
      PathsOfAppend([jobs[0]], InsertJob(jobs[1..], x));
      PathsOfAppend([jobs[0]], jobs[1..]);
      assert jobs == [jobs[0]] + jobs[1..];
    }
  }

  ghost predicate AscendingJobs(jobs: seq<ScanJob>) {
    forall i, j :: 0 <= i < j < |jobs| ==> Less(jobs[i].path, jobs[j].path)
  }

  lemma {:induction false} InsertJobAscends(jobs: seq<ScanJob>, x: ScanJob)
    requires AscendingJobs(jobs) && !HasJob(jobs, x.path)
    ensures AscendingJobs(InsertJob(jobs, x))
    ensures forall i :: 0 <= i < |InsertJob(jobs, x)| ==> InsertJob(jobs, x)[i] == x || InsertJob(jobs, x)[i] in jobs
  {
    if jobs != [] {
      var head, tail := jobs[0], jobs[1..];
      Total(x.path, head.path);
      assert jobs[0].path != x.path;
      if Less(x.path, head.path) {
        forall i | 0 < i < |jobs|
          ensures Less(x.path, jobs[i].path)
        {
          Transitive(x.path, head.path, jobs[i].path);
        }
      } else {
        assert forall i :: 0 <= i < |tail| ==> tail[i] == jobs[i + 1];
        InsertJobAscends(tail, x);
      }
    }
  }

  /** The children of a directory are queued in path order. */
  lemma {:induction false} SortJobsAscends(jobs: seq<ScanJob>)
    requires DistinctJobs(jobs)
    ensures AscendingJobs(SortJobs(jobs))
    ensures forall i :: 0 <= i < |SortJobs(jobs)| ==> SortJobs(jobs)[i] in jobs
  {
    if jobs != [] {
      SortJobsAscends(jobs[1..]);
      assert jobs == [jobs[0]] + jobs[1..];
      InsertJobAscends(SortJobs(jobs[1..]), jobs[0]);
    }
  }

  lemma {:induction false} InsertJobTracks(ctx: Context, jobs: seq<ScanJob>, x: ScanJob)
    requires AllTrack(ctx, jobs) && JobTracks(ctx, x)
    ensures AllTrack(ctx, InsertJob(jobs, x))
  {
    if jobs != [] {
      InsertJobTracks(ctx, jobs[1..], x);
    }
  }

  lemma {:induction false} SortJobsPermutes(ctx: Context, jobs: seq<ScanJob>)
    requires AllTrack(ctx, jobs)
    ensures PathsOf(SortJobs(jobs)) == PathsOf(jobs)
    ensures AllTrack(ctx, SortJobs(jobs))
  {
    if jobs != [] {
      SortJobsPermutes(ctx, jobs[1..]);
      InsertJobPermutes(SortJobs(jobs[1..]), jobs[0]);
      PathsOfOne(jobs[0]);
      PathsOfAppend([jobs[0]], jobs[1..]);
      assert jobs == [jobs[0]] + jobs[1..];
      InsertJobTracks(ctx, SortJobs(jobs[1..]), jobs[0]);
    }
  }

  /** All directories the scheduler has been given: queued, active or finished. */
  ghost function Known(pending: seq<ScanJob>, active: seq<ScanJob>, done: set<Path>): multiset<Path> {
    PathsOf(pending) + PathsOf(active) + multiset(done)
  }

  /** Every known directory is a scheduled one and is known once; it is the base or an entry of a
      finished directory, and the entries that finished directories spawned are known. */
  ghost predicate Consistent(ctx: Context, known: multiset<Path>, done: set<Path>) {
    && [] in known
    && (forall d :: d in known ==> known[d] == 1 && Scheduled(ctx, d) && (d == [] || Parent(d) in done))
    && (forall d, c :: d in done && Spawns(ctx, d, c) ==> c in known)
  }

  ghost predicate SentSoFar(ctx: Context, sent: seq<Path>, done: set<Path>) {
    Distinct(sent) && forall p :: p in sent <==> p != [] && Parent(p) in done && Sends(ctx, Parent(p), p)
  }

  lemma StartKeepsKnown(pending: seq<ScanJob>, active: seq<ScanJob>, done: set<Path>)
    requires pending != []
    ensures Known(pending[1..], active + [pending[0]], done) == Known(pending, active, done)
  {
    PathsOfAppend(active, [pending[0]]);
    PathsOfAppend([pending[0]], pending[1..]);
    PathsOfOne(pending[0]);
    assert pending == [pending[0]] + pending[1..];
  }

  lemma FinishMovesKnown(pending: seq<ScanJob>, active: seq<ScanJob>, done: set<Path>, k: nat, children: seq<ScanJob>)
    requires k < |active| && active[k].path !in done
    ensures Known(pending + children, active[..k] + active[k + 1..], done + {active[k].path})
         == Known(pending, active, done) + PathsOf(children)
  {
    PathsOfRemove(active, k);
    PathsOfAppend(pending, children);
    assert multiset(done + {active[k].path}) == multiset(done) + multiset{active[k].path};
  }

  /** Finishing directory `d` makes known exactly the directories it spawned. */
  lemma FinishKeepsConsistent(ctx: Context, known: multiset<Path>, done: set<Path>, d: Path, children: multiset<Path>)
    requires Consistent(ctx, known, done) && d in known && d !in done
    requires forall c :: children[c] == if Spawns(ctx, d, c) then 1 else 0
    ensures Consistent(ctx, known + children, done + {d})
  {
  }

  lemma FinishKeepsSent(ctx: Context, sent: seq<Path>, done: set<Path>, d: Path, out: seq<Path>)
    requires SentSoFar(ctx, sent, done) && d !in done
    requires Distinct(out) && forall c :: c in out <==> Sends(ctx, d, c)
    ensures SentSoFar(ctx, sent + out, done + {d})
  {
    forall i, j | 0 <= i < j < |sent + out|
      ensures (sent + out)[i] != (sent + out)[j]
    {
      if i < |sent| <= j {
        assert sent[i] in sent && out[j - |sent|] in out;
      }
    }
  }

  /** When nothing is queued or active, every scheduled directory is finished. */
  lemma {:induction false} AllScheduledDone(ctx: Context, known: multiset<Path>, done: set<Path>, d: Path)
    requires Consistent(ctx, known, done) && known == multiset(done) && Scheduled(ctx, d)
    ensures d in done
    decreases |d|
  {
    if d != [] {
      AllScheduledDone(ctx, known, done, Parent(d));
      assert Spawns(ctx, Parent(d), d);
    } else {
      assert [] in known;
    }
  }

  /** What holds between two completions. */
  ghost predicate SchedulerState(ctx: Context, pending: seq<ScanJob>, active: seq<ScanJob>, sent: seq<Path>, done: set<Path>) {
    && AllTrack(ctx, pending) && AllTrack(ctx, active)
    && Consistent(ctx, Known(pending, active, done), done)
    && SentSoFar(ctx, sent, done)
  }

  lemma AllTrackMoves(ctx: Context, pending: seq<ScanJob>, active: seq<ScanJob>, k: nat, children: seq<ScanJob>)
    requires AllTrack(ctx, pending) && AllTrack(ctx, active) && AllTrack(ctx, children) && k < |active|
    ensures AllTrack(ctx, pending + children) && AllTrack(ctx, active[..k] + active[k + 1..])
  {
  }

  lemma StartKeepsState(ctx: Context, pending: seq<ScanJob>, active: seq<ScanJob>, sent: seq<Path>, done: set<Path>)
    requires SchedulerState(ctx, pending, active, sent, done) && pending != []
    ensures SchedulerState(ctx, pending[1..], active + [pending[0]], sent, done)
  {
    StartKeepsKnown(pending, active, done);
  }

  datatype Progress = Progress(pending: seq<ScanJob>, active: seq<ScanJob>, sent: seq<Path>)

  /** The active job `k` finishes: its directory is done, its results are sent, its children queued. */
  method FinishJob(ctx: Context, pending: seq<ScanJob>, active: seq<ScanJob>, sent: seq<Path>, ghost done: set<Path>, k: nat)
    returns (r: Result<Progress, ScanError>)
    requires Valid(ctx) && SchedulerState(ctx, pending, active, sent, done) && k < |active|
    ensures active[k].path in ctx.tree.Keys - done && Scheduled(ctx, active[k].path)
    ensures r.Ok? ==> |r.value.active| == |active| - 1 && !JobFails(ctx, active[k].path)
    ensures r.Ok? ==> SchedulerState(ctx, r.value.pending, r.value.active, r.value.sent, done + {active[k].path})
    ensures r.Ok? ==> pending <= r.value.pending && AscendingJobs(r.value.pending[|pending|..])
    ensures r.Err? ==> JobError(ctx, active[k].path, r.error)
  {
    var job := active[k];
    ghost var known := Known(pending, active, done);
    PathsOfRemove(active, k);
    assert job.path in known && job.path !in done;
    var found := ScanOneDirectory(ctx, job);
    if found.Err? {
      return Err(found.error);
    }
    var children := SortJobs(found.value.jobs);
    SortJobsPermutes(ctx, found.value.jobs);
    SortJobsAscends(found.value.jobs);
    PathsOfDistinct(found.value.jobs);
    FinishKeepsConsistent(ctx, known, done, job.path, PathsOf(children));
    FinishKeepsSent(ctx, sent, done, job.path, found.value.sent);
    FinishMovesKnown(pending, active, done, k, children);
    AllTrackMoves(ctx, pending, active, k, children);
    r := Ok(Progress(pending + children, active[..k] + active[k + 1..], sent + found.value.sent));
  }

  /** `runs` lists the finished directories, each once. */
  ghost predicate Logs(runs: seq<Path>, done: set<Path>) {
    Distinct(runs) && forall d :: d in runs <==> d in done
  }

  lemma LogRun(runs: seq<Path>, done: set<Path>, d: Path)
    requires Logs(runs, done) && d !in done
    ensures Logs(runs + [d], done + {d})
  {
  }

  /** No scheduled directory fails. */
  ghost predicate AllReadable(ctx: Context) {
    forall d :: Scheduled(ctx, d) ==> !JobFails(ctx, d)
  }

  /** Runs jobs until none is left or one fails, at most `limit` at a time; which active job finishes next
      is arbitrary. It succeeds if and only if no scheduled directory fails, in every order; then each of
      them has run exactly once. */
  method RunScanScheduler(ctx: Context, initial: ScanJob, limit: nat)
    returns (r: Result<seq<Path>, ScanError>, peak: nat, ghost runs: seq<Path>)
    requires Valid(ctx) && limit > 0
    requires initial.path == [] && JobTracks(ctx, initial)
    ensures r.Ok? <==> AllReadable(ctx)
    ensures r.Ok? ==> Distinct(r.value) && forall p :: p in r.value <==> Wanted(ctx, p)
    ensures r.Err? ==> exists d :: Scheduled(ctx, d) && JobError(ctx, d, r.error)
    ensures peak <= limit
    ensures Distinct(runs) && forall d :: (d in runs ==> Scheduled(ctx, d)) && (r.Ok? && Scheduled(ctx, d) ==> d in runs)
  {
    var pending, active := [initial], [];
    var sent: seq<Path> := [];
    peak, runs := 0, [];
    ghost var done: set<Path> := {};
    PathsOfOne(initial);
    assert Known(pending, active, done) == multiset{initial.path};
    while pending != [] || active != []
      invariant |active| <= limit && peak <= limit
      invariant SchedulerState(ctx, pending, active, sent, done)
      invariant Logs(runs, done)
      invariant forall d :: d in done ==> Scheduled(ctx, d) && !JobFails(ctx, d)
      decreases ctx.tree.Keys - done
    {
      while |active| < limit && pending != []
        invariant |active| <= limit
        invariant pending != [] || active != []
        invariant SchedulerState(ctx, pending, active, sent, done)
        decreases |pending|
      {
        StartKeepsState(ctx, pending, active, sent, done);
        active, pending := active + [pending[0]], pending[1..];
      }
      if |active| > peak {
        peak := |active|;
      }
      // Completion order is arbitrary.
      var k: nat :| k < |active|;
      ghost var d := active[k].path;
      var finished := FinishJob(ctx, pending, active, sent, done, k);
      if finished.Err? {
        assert JobFails(ctx, d);
        return Err(finished.error), peak, runs;
      }
      pending, active, sent := finished.value.pending, finished.value.active, finished.value.sent;
      LogRun(runs, done, d);
      done, runs := done + {d}, runs + [d];
    }
    SchedulerResult(ctx, Known(pending, active, done), sent, done);
    r := Ok(sent);
  }

  lemma SchedulerResult(ctx: Context, known: multiset<Path>, sent: seq<Path>, done: set<Path>)
    requires Valid(ctx) && Consistent(ctx, known, done) && known == multiset(done) && SentSoFar(ctx, sent, done)
    ensures forall d :: d in done <==> Scheduled(ctx, d)
    ensures forall p :: p in sent <==> Wanted(ctx, p)
  {
    forall d
      ensures d in done <==> Scheduled(ctx, d)
    {
      if Scheduled(ctx, d) {
        AllScheduledDone(ctx, known, done, d);
      }
      assert d in done ==> d in known;
    }
    forall p
      ensures p in sent <==> Wanted(ctx, p)
    {
      WantedIffSent(ctx, p);
    }
  }

  /** A whole scan: nothing when the restriction itself is excluded, otherwise all that is wanted, provided
      that the base can be read and no directory on the way fails. */
  method ScanTree(ctx: Context, limit: nat) returns (r: Result<seq<Path>, ScanError>)
    requires Valid(ctx) && limit > 0
    ensures r.Ok? <==>
      Excludes(ctx.scope, ctx.scope.restrict) || (!ctx.fails(Stat, []) && AllReadable(ctx))
    ensures r.Ok? ==> Distinct(r.value) && forall p :: p in r.value <==> Wanted(ctx, p)
  {
    TestsMean(ctx.scope, ctx.scope.restrict);
    if ctx.scope.IsExcluded(ctx.scope.restrict) {
      ghost var e :| e in ctx.scope.excludes && e <= ctx.scope.restrict;
      forall p
        ensures !Wanted(ctx, p)
      {
        assert ctx.scope.restrict <= p ==> e <= p;
      }
      return Ok([]);
    }
    if ctx.fails(Stat, []) {
      return Err(Unreadable([]));
    }
    InitialRange(ctx.rules);
    var peak;
    ghost var runs;
    r, peak, runs := RunScanScheduler(ctx, ScanJob([], ParentFromTo(0, 0, |ctx.rules| - 1)), limit);
  }
}
