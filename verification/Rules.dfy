/** Include and exclude rules: their canonical form, and the index range over the sorted rules that
    a scan narrows on its way down the tree. */
module Rules {
  import opened Paths

  datatype Location = Include(path: Path) | Exclude(path: Path)

  type Locations = seq<Location>

  /** A component of a rule's path as written: `.` is still present. */
  datatype Component = CurDir | Named(name: Name)

  datatype RawLocation = RawLocation(isInclude: bool, components: seq<Component>)

  ghost predicate Sorted(rules: Locations) {
    forall i, j :: 0 <= i < j < |rules| ==> Less(rules[i].path, rules[j].path)
  }

  // ----- Canonical rules -----

  /** Pushing a root starts the path afresh. */
  function Push(path: Path, name: Name): Path {
    if name.Root? then [Root] else path + [name]
  }

  function Canonical(components: seq<Component>): Path {
    if components == [] then []
    else
      var init, last := Canonical(components[..|components| - 1]), components[|components| - 1];
      if last.CurDir? then init else Push(init, last.name)
  }

  method CanonicalRelativePath(components: seq<Component>) returns (canonical: Path)
    ensures canonical == Canonical(components)
  {
    canonical := [];
    for i := 0 to |components|
      invariant canonical == Canonical(components[..i])
    {
      assert components[..i + 1][..i] == components[..i];
      if components[i] != CurDir {
        canonical := Push(canonical, components[i].name);
      }
    }
    assert components[..|components|] == components;
  }

  /** A root only comes first. */
  ghost predicate WellFormed(path: Path) {
    forall i :: 0 < i < |path| ==> !path[i].Root?
  }

  ghost predicate Rootless(components: seq<Component>) {
    forall i :: 0 <= i < |components| ==> components[i] != Named(Root)
  }

  /** A canonical path is well formed; without a root it holds exactly the named components, in order. */
  lemma {:induction false} CanonicalIsWellFormed(components: seq<Component>)
    ensures WellFormed(Canonical(components))
    ensures Rootless(components) ==> Canonical(components) == Names(components)
  {
    if components != [] {
      CanonicalIsWellFormed(components[..|components| - 1]);
    }
  }

  /** With a root in it, it is the last root and the named components after that. */
  lemma {:induction false} LastRootStartsAfresh(components: seq<Component>, k: nat)
    requires k < |components| && components[k] == Named(Root) && Rootless(components[k + 1..])
    ensures Canonical(components) == [Root] + Names(components[k + 1..])
  {
    var n := |components| - 1;
    if k < n {
      var rest := components[k + 1..];
      assert rest[n - k - 1] == components[n] && components[..n][k + 1..] == rest[..n - k - 1];
      assert forall i :: 0 <= i < n - k - 1 ==> components[..n][k + 1..][i] == rest[i];
      LastRootStartsAfresh(components[..n], k);
    }
  }

  function Names(components: seq<Component>): Path {
    if components == [] then []
    else
      Names(components[..|components| - 1]) + if components[|components| - 1].CurDir? then [] else [components[|components| - 1].name]
  }

  function ToLocation(raw: RawLocation): Location {
    if raw.isInclude then Include(Canonical(raw.components)) else Exclude(Canonical(raw.components))
  }

  /** The ordered map from path to rule: a sorted sequence in which a later rule replaces an earlier one. */
  function Insert(winners: Locations, x: Location): Locations {
    if winners == [] then [x]
    else if winners[0].path == x.path then [x] + winners[1..]
    else if Less(x.path, winners[0].path) then [x] + winners
    else [winners[0]] + Insert(winners[1..], x)
  }

  lemma {:induction false} InsertKeepsSorted(winners: Locations, x: Location)
    requires Sorted(winners)
    ensures Sorted(Insert(winners, x))
    ensures forall y :: y in Insert(winners, x) <==> y == x || (y in winners && y.path != x.path)
  {
    if winners != [] {
      var head, tail := winners[0], winners[1..];
      assert winners == [head] + tail;
      Total(x.path, head.path);
      if x.path == head.path {
        Irreflexive(x.path);
      } else if Less(x.path, head.path) {
        forall i | 0 <= i < |winners|
          ensures Less(x.path, winners[i].path) && winners[i].path != x.path
        {
          if i > 0 {
            Transitive(x.path, head.path, winners[i].path);
          }
          Irreflexive(x.path);
        }
      } else {
        InsertKeepsSorted(tail, x);
        forall j | 0 <= j < |Insert(tail, x)|
          ensures Less(head.path, Insert(tail, x)[j].path)
        {
          assert Insert(tail, x)[j] in Insert(tail, x);
        }
      }
    }
  }

  /** The canonical rules of a list: for each path the last rule that names it. */
  function Winners(raw: seq<RawLocation>): Locations {
    if raw == [] then [] else Insert(Winners(raw[..|raw| - 1]), ToLocation(raw[|raw| - 1]))
  }

  method Canonicalize(raw: seq<RawLocation>) returns (winners: Locations)
    ensures winners == Winners(raw)
  {
    winners := [];
    for i := 0 to |raw|
      invariant winners == Winners(raw[..i])
    {
      var path := CanonicalRelativePath(raw[i].components);
      var canonical := if raw[i].isInclude then Include(path) else Exclude(path);
      assert raw[..i + 1][..i] == raw[..i];
      winners := Insert(winners, canonical);
    }
    assert raw[..|raw|] == raw;
  }

  /** Rule `i` is the last one in `raw` for its path. */
  ghost predicate IsLastFor(raw: seq<RawLocation>, i: nat) {
    i < |raw| && forall j :: i < j < |raw| ==> ToLocation(raw[j]).path != ToLocation(raw[i]).path
  }

  /** `x` is the last rule in `raw` for its path. */
  ghost predicate Wins(raw: seq<RawLocation>, x: Location) {
    exists i: nat :: IsLastFor(raw, i) && ToLocation(raw[i]) == x
  }

  lemma LastForInit(raw: seq<RawLocation>, i: nat)
    requires i + 1 < |raw|
    ensures var n := |raw| - 1;
      IsLastFor(raw, i) <==> IsLastFor(raw[..n], i) && ToLocation(raw[n]).path != ToLocation(raw[i]).path
  {
  }

  lemma WinsStep(raw: seq<RawLocation>, x: Location)
    requires raw != []
    ensures var init, last := raw[..|raw| - 1], ToLocation(raw[|raw| - 1]);
      Wins(raw, x) <==> x == last || (Wins(init, x) && x.path != last.path)
  {
    var n := |raw| - 1;
    var init, last := raw[..n], ToLocation(raw[n]);
    assert IsLastFor(raw, n);
    if Wins(raw, x) && x != last {
      var i: nat :| IsLastFor(raw, i) && ToLocation(raw[i]) == x;
      LastForInit(raw, i);
    }
    if Wins(init, x) && x.path != last.path {
      var i: nat :| IsLastFor(init, i) && ToLocation(init[i]) == x;
      LastForInit(raw, i);
    }
  }

  /** Canonical rules are strictly sorted, and hold exactly the last rule given for each path. */
  lemma {:induction false} CanonicalRulesAreLastWinners(raw: seq<RawLocation>)
    ensures Sorted(Winners(raw))
    ensures forall x :: x in Winners(raw) <==> Wins(raw, x)
  {
    if raw != [] {
      var init, last := raw[..|raw| - 1], ToLocation(raw[|raw| - 1]);
      CanonicalRulesAreLastWinners(init);
      InsertKeepsSorted(Winners(init), last);
      forall x
        ensures x in Winners(raw) <==> Wins(raw, x)
      {
        WinsStep(raw, x);
      }
    }
  }

  function ToRaw(x: Location): RawLocation {
    RawLocation(x.Include?, seq(|x.path|, i requires 0 <= i < |x.path| => Named(x.path[i])))
  }

  lemma {:induction false} CanonicalOfPath(path: Path, components: seq<Component>)
    requires WellFormed(path) && |components| == |path| && forall i :: 0 <= i < |path| ==> components[i] == Named(path[i])
    ensures Canonical(components) == path
  {
    if path != [] {
      var n := |path| - 1;
      CanonicalOfPath(path[..n], components[..n]);
      assert path == path[..n] + [path[n]];
    }
  }

  lemma ToRawBack(x: Location)
    requires WellFormed(x.path)
    ensures ToLocation(ToRaw(x)) == x
  {
    CanonicalOfPath(x.path, ToRaw(x).components);
  }

  lemma {:induction false} InsertLast(rules: Locations, x: Location)
    requires forall i :: 0 <= i < |rules| ==> Less(rules[i].path, x.path)
    ensures Insert(rules, x) == rules + [x]
  {
    if rules != [] {
      Asymmetric(rules[0].path, x.path);
      InsertLast(rules[1..], x);
      assert rules == [rules[0]] + rules[1..];
      assert rules + [x] == [rules[0]] + (rules[1..] + [x]);
    }
  }

  lemma {:induction false} WinnersOfSorted(raw: seq<RawLocation>, rules: Locations)
    requires Sorted(rules) && |raw| == |rules|
    requires forall i :: 0 <= i < |raw| ==> raw[i] == ToRaw(rules[i]) && WellFormed(rules[i].path)
    ensures Winners(raw) == rules
  {
    if raw != [] {
      var n := |raw| - 1;
      WinnersOfSorted(raw[..n], rules[..n]);
      ToRawBack(rules[n]);
      InsertLast(rules[..n], rules[n]);
      assert rules == rules[..n] + [rules[n]];
    }
  }

  /** Canonicalizing canonical rules changes nothing. */
  lemma CanonicalizeIdempotent(raw: seq<RawLocation>)
    ensures var rules := Winners(raw);
      Winners(seq(|rules|, i requires 0 <= i < |rules| => ToRaw(rules[i]))) == rules
  {
    var rules := Winners(raw);
    CanonicalRulesAreLastWinners(raw);
    forall i | 0 <= i < |rules|
      ensures WellFormed(rules[i].path)
    {
      assert rules[i] in rules;
      var j: nat :| IsLastFor(raw, j) && ToLocation(raw[j]) == rules[i];
      CanonicalIsWellFormed(raw[j].components);
    }
    WinnersOfSorted(seq(|rules|, i requires 0 <= i < |rules| => ToRaw(rules[i])), rules);
  }

  /** Rule `i` of `raw` decides `path`: no rule has a longer prefix of it, and no later rule has the same. */
  ghost predicate Decides(raw: seq<RawLocation>, i: nat, path: Path) {
    && i < |raw| && ToLocation(raw[i]).path <= path
    && (forall j :: 0 <= j < |raw| && ToLocation(raw[j]).path <= path ==> |ToLocation(raw[j]).path| <= |ToLocation(raw[i]).path|)
    && (forall j :: i < j < |raw| ==> ToLocation(raw[j]).path != ToLocation(raw[i]).path)
  }

  /** `rules[k]` has the longest prefix of `path` among the rules. */
  ghost predicate IsLongestPrefix(rules: Locations, path: Path, k: nat) {
    && k < |rules| && rules[k].path <= path
    && forall j :: 0 <= j < |rules| && rules[j].path <= path ==> |rules[j].path| <= |rules[k].path|
  }

  /** Canonicalizing preserves the decision for every path. */
  lemma CanonicalizePreservesDecisions(raw: seq<RawLocation>, i: nat, path: Path)
    requires Decides(raw, i, path)
    ensures exists k: nat :: IsLongestPrefix(Winners(raw), path, k) && Winners(raw)[k] == ToLocation(raw[i])
  {
    var rules := Winners(raw);
    CanonicalRulesAreLastWinners(raw);
    assert IsLastFor(raw, i) && Wins(raw, ToLocation(raw[i]));
    var k: nat :| k < |rules| && rules[k] == ToLocation(raw[i]);
    forall j | 0 <= j < |rules| && rules[j].path <= path
      ensures |rules[j].path| <= |rules[k].path|
    {
      assert rules[j] in rules;
      var m: nat :| IsLastFor(raw, m) && ToLocation(raw[m]) == rules[j];
    }
    assert IsLongestPrefix(rules, path, k);
  }

  /** A rule written for the base itself comes first, and is a prefix of every path. */
  lemma {:induction false} RootRuleFirst(raw: seq<RawLocation>, i: nat)
    requires i < |raw| && ToLocation(raw[i]).path == [] && IsLastFor(raw, i)
    ensures var rules := Winners(raw);
      rules != [] && rules[0] == ToLocation(raw[i])
  {
    var rules := Winners(raw);
    CanonicalRulesAreLastWinners(raw);
    assert Wins(raw, ToLocation(raw[i]));
    var k: nat :| k < |rules| && rules[k] == ToLocation(raw[i]);
    assert k == 0 || Less(rules[0].path, rules[k].path);
  }

  // ----- The narrowing index range -----

  datatype ParentFromTo = ParentFromTo(parent: nat, from: nat, to: nat)

  /** `[from, to]` holds exactly the rules at or below `path`; it is empty when `from > to`. */
  ghost predicate IsSubtreeRange(rules: Locations, path: Path, from: int, to: int) {
    0 <= from <= to + 1 <= |rules| &&
    forall i :: 0 <= i < |rules| ==> (from <= i <= to <==> path <= rules[i].path)
  }

  ghost predicate Tracks(rules: Locations, path: Path, pft: ParentFromTo) {
    IsSubtreeRange(rules, path, pft.from, pft.to) && IsLongestPrefix(rules, path, pft.parent)
  }

  /** The longest prefixes are unique among sorted rules. */
  lemma LongestPrefixUnique(rules: Locations, path: Path, i: nat, j: nat)
    requires Sorted(rules) && IsLongestPrefix(rules, path, i) && IsLongestPrefix(rules, path, j)
    ensures i == j
  {
    assert rules[i].path == path[..|rules[i].path|] == rules[j].path;
    Irreflexive(rules[i].path);
  }

  /** Among sorted rules, those below a path form one block. */
  lemma SubtreeBlock(rules: Locations, path: Path, i: nat, j: nat, k: nat)
    requires Sorted(rules) && i <= j <= k < |rules| && path <= rules[i].path && path <= rules[k].path
    ensures path <= rules[j].path
  {
    PrefixFirst(path, rules[i].path);
    if path != rules[i].path && i < j {
      Transitive(path, rules[i].path, rules[j].path);
    }
    SubtreeContiguous(path, rules[j].path, rules[k].path);
  }

  /** The initial range covers all rules, and the root rule is the parent of the base. */
  lemma InitialRange(rules: Locations)
    requires Sorted(rules) && rules != [] && rules[0].path == []
    ensures Tracks(rules, [], ParentFromTo(0, 0, |rules| - 1))
  {
  }

  /** Past the first rule after the block, no rule is below the path. */
  lemma RangeEnds(rules: Locations, path: Path, from: nat, to: nat)
    requires Sorted(rules) && from <= to < |rules| && path <= rules[from].path
    requires to + 1 == |rules| || !(path <= rules[to + 1].path) ||
      forall i :: 0 <= i < |rules| && path <= rules[i].path ==> i <= to
    ensures forall i :: to < i < |rules| ==> !(path <= rules[i].path)
  {
    forall i | to < i < |rules|
      ensures !(path <= rules[i].path)
    {
      if path <= rules[i].path {
        SubtreeBlock(rules, path, from, to + 1, i);
      }
    }
  }

  /** Narrows the range of `dir` to that of `path`, which is `dir` itself or one of its entries. */
  method NarrowParentFromTo(pft: ParentFromTo, path: Path, rules: Locations, ghost dir: Path)
    returns (narrowed: ParentFromTo)
    requires Sorted(rules) && Tracks(rules, dir, pft)
    requires dir <= path && |path| <= |dir| + 1
    ensures Tracks(rules, path, narrowed)
  {
    var parent, from, to := pft.parent, pft.from, pft.to;
    forall i | 0 <= i < |rules| && path <= rules[i].path
      ensures pft.from <= i <= pft.to
    {
      assert dir <= rules[i].path;
    }
    while from <= to && !(path <= rules[from].path)
      invariant pft.from <= from <= to + 1
      invariant forall i :: 0 <= i < |rules| && path <= rules[i].path ==> from <= i <= to
      decreases pft.to - from
    {
      from := from + 1;
    }
    if from <= to {
      var parentTo := to;
      to := from;
      while to < parentTo && path <= rules[to + 1].path
        invariant from <= to <= parentTo
        invariant forall i :: from <= i <= to ==> path <= rules[i].path
        decreases parentTo - to
      {
        to := to + 1;
      }
      RangeEnds(rules, path, from, to);
    }
    if from <= to && rules[from].path == path {
      parent := from;
    }
    narrowed := ParentFromTo(parent, from, to);
    NarrowedParent(rules, dir, pft, path, narrowed);
  }

  lemma NarrowedParent(rules: Locations, dir: Path, pft: ParentFromTo, path: Path, narrowed: ParentFromTo)
    requires Sorted(rules) && Tracks(rules, dir, pft)
    requires dir <= path && |path| <= |dir| + 1
    requires IsSubtreeRange(rules, path, narrowed.from, narrowed.to)
    requires narrowed.parent ==
      if narrowed.from <= narrowed.to && rules[narrowed.from].path == path then narrowed.from else pft.parent
    ensures IsLongestPrefix(rules, path, narrowed.parent)
  {
    forall j | 0 <= j < |rules| && rules[j].path <= path
      ensures |rules[j].path| <= |rules[narrowed.parent].path|
    {
      if rules[j].path == path {
        // The rule for `path` itself is the first rule of its range.
        if narrowed.from < j {
          PrefixFirst(path, rules[narrowed.from].path);
          Asymmetric(rules[narrowed.from].path, path);
          assert false;
        }
      } else {
        PrefixesChain(rules[j].path, dir, path);
      }
    }
  }

  /** The rule that decides an entry of the directory that `pft` tracks. */
  method FindParent(path: Path, rules: Locations, pft: ParentFromTo, ghost dir: Path) returns (k: nat)
    requires Sorted(rules) && Tracks(rules, dir, pft)
    requires dir < path && |path| == |dir| + 1
    ensures IsLongestPrefix(rules, path, k)
  {
    var from := pft.from;
    while from <= pft.to && from < |rules|
      invariant pft.from <= from
      invariant forall i :: pft.from <= i < from && i <= pft.to ==> rules[i].path != path
      decreases pft.to - from
    {
      if rules[from].path == path {
        return from;
      }
      from := from + 1;
    }
    k := pft.parent;
    forall j | 0 <= j < |rules| && rules[j].path <= path
      ensures |rules[j].path| <= |rules[k].path|
    {
      PrefixesChain(if rules[j].path == path then dir else rules[j].path, dir, path);
    }
  }
}
