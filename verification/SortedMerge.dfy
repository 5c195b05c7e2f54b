/** Merging two streams that are sorted by path: the pairing iterator, and what it computes. */
module SortedMerge {
  import opened Paths
  import opened Wrappers

  ghost predicate SortedBy<T>(key: T -> Path, xs: seq<T>) {
    forall i, j :: 0 <= i < j < |xs| ==> Less(key(xs[i]), key(xs[j]))
  }

  /** The element at a path, if there is one. */
  function Find<T>(key: T -> Path, xs: seq<T>, p: Path): Option<T> {
    if xs == [] then None
    else if key(xs[0]) == p then Some(xs[0])
    else Find(key, xs[1..], p)
  }

  lemma {:induction false} FindMember<T>(key: T -> Path, xs: seq<T>, p: Path)
    ensures Find(key, xs, p).Some? ==> Find(key, xs, p).value in xs && key(Find(key, xs, p).value) == p
    ensures Find(key, xs, p).None? ==> forall x :: x in xs ==> key(x) != p
  {
    if xs != [] {
      FindMember(key, xs[1..], p);
      assert xs == [xs[0]] + xs[1..];
    }
  }

  lemma {:induction false} FindAt<T>(key: T -> Path, xs: seq<T>, i: nat)
    requires SortedBy(key, xs) && i < |xs|
    ensures Find(key, xs, key(xs[i])) == Some(xs[i])
  {
    if i > 0 {
      Irreflexive(key(xs[0]));
      assert Less(key(xs[0]), key(xs[i]));
      FindAt(key, xs[1..], i - 1);
    }
  }

  /** Everything in `xs` comes after `p`. */
  ghost predicate After<T>(key: T -> Path, p: Path, xs: seq<T>) {
    forall i :: 0 <= i < |xs| ==> Less(p, key(xs[i]))
  }

  lemma TailAfterHead<T>(key: T -> Path, xs: seq<T>)
    requires SortedBy(key, xs) && xs != []
    ensures SortedBy(key, xs[1..]) && After(key, key(xs[0]), xs[1..])
  {
  }

  lemma {:induction false} NotFoundBefore<T>(key: T -> Path, p: Path, xs: seq<T>, q: Path)
    requires After(key, p, xs) && AtMost(q, p)
    ensures Find(key, xs, q) == None
  {
    if xs != [] {
      assert Less(p, key(xs[0]));
      if q == key(xs[0]) {
        Irreflexive(q);
        Asymmetric(p, q);
      }
      NotFoundBefore(key, p, xs[1..], q);
    }
  }

  /** Changing elements but not their paths changes what is found at each path. */
  lemma {:induction false} MapFind<A, B>(keyA: A -> Path, keyB: B -> Path, f: A -> B, xs: seq<A>, ys: seq<B>, p: Path)
    requires SortedBy(keyA, xs) && |ys| == |xs|
    requires forall i :: 0 <= i < |xs| ==> ys[i] == f(xs[i]) && keyB(ys[i]) == keyA(xs[i])
    ensures SortedBy(keyB, ys)
    ensures Find(keyB, ys, p) == if Find(keyA, xs, p).Some? then Some(f(Find(keyA, xs, p).value)) else None
  {
    if xs != [] {
      MapFind(keyA, keyB, f, xs[1..], ys[1..], p);
    }
  }

  /** A sorted sequence is determined by what is found at each path. */
  lemma {:induction false} SortedExtensional<T(!new)>(key: T -> Path, xs: seq<T>, ys: seq<T>)
    requires SortedBy(key, xs) && SortedBy(key, ys)
    requires forall p :: Find(key, xs, p) == Find(key, ys, p)
    ensures xs == ys
  {
    if xs == [] && ys != [] {
      HeadsAgree(key, ys, xs);
    } else if xs != [] {
      HeadsAgree(key, xs, ys);
      forall p
        ensures Find(key, xs[1..], p) == Find(key, ys[1..], p)
      {
        assert Find(key, xs, p) == Find(key, ys, p);
        if p == key(xs[0]) {
          NotFoundBefore(key, p, xs[1..], p);
          NotFoundBefore(key, p, ys[1..], p);
        }
      }
      SortedExtensional(key, xs[1..], ys[1..]);
    }
  }

  lemma HeadsAgree<T(!new)>(key: T -> Path, xs: seq<T>, ys: seq<T>)
    requires SortedBy(key, xs) && SortedBy(key, ys) && xs != []
    requires forall p :: Find(key, xs, p) == Find(key, ys, p)
    ensures ys != [] && xs[0] == ys[0]
  {
    var k := key(xs[0]);
    assert Find(key, xs, k) == Find(key, ys, k);
    FindMember(key, ys, k);
    var h := key(ys[0]);
    assert Find(key, xs, h) == Find(key, ys, h);
    FindMember(key, xs, h);
    var i :| 0 <= i < |xs| && key(xs[i]) == h;
    var j :| 0 <= j < |ys| && key(ys[j]) == k;
    if i > 0 && j > 0 {
      Asymmetric(k, h);
      assert false;
    }
  }

  // ----- Pairing -----

  datatype Pair<+T> = Pair(left: Option<T>, right: Option<T>)

  function KeyOfPair<T>(key: T -> Path, pair: Pair<T>): Path {
    if pair.left.Some? then key(pair.left.value) else if pair.right.Some? then key(pair.right.value) else []
  }

  function PairKey<T(!new)>(key: T -> Path): (pairKey: Pair<T> -> Path)
    ensures forall pair :: pairKey(pair) == KeyOfPair(key, pair)
  {
    (pair: Pair<T>) => KeyOfPair(key, pair)
  }

  /** All pairs the iterator yields for `xs` and `ys`. */
  function Join<T>(key: T -> Path, xs: seq<T>, ys: seq<T>): seq<Pair<T>>
    decreases |xs| + |ys|
  {
    if xs == [] && ys == [] then []
    else if ys == [] || (xs != [] && Less(key(xs[0]), key(ys[0]))) then
      [Pair(Some(xs[0]), None)] + Join(key, xs[1..], ys)
    else if xs == [] || Less(key(ys[0]), key(xs[0])) then
      [Pair(None, Some(ys[0]))] + Join(key, xs, ys[1..])
    else
      [Pair(Some(xs[0]), Some(ys[0]))] + Join(key, xs[1..], ys[1..])
  }

  /** Two cursors over sorted sequences. */
  class MatchSorted<T(==)> {
    const it1: seq<T>
    const it2: seq<T>
    const key: T -> Path
    var i: nat
    var j: nat

    ghost predicate Valid()
      reads this
    {
      i <= |it1| && j <= |it2|
    }

    /** The pairs still to come. */
    ghost function Rest(): seq<Pair<T>>
      requires Valid()
      reads this
    {
      Join(key, it1[i..], it2[j..])
    }

    constructor (key: T -> Path, xs: seq<T>, ys: seq<T>)
      ensures Valid() && Rest() == Join(key, xs, ys)
      ensures this.key == key && it1 == xs && it2 == ys && i == j == 0
    {
      this.key, it1, it2, i, j := key, xs, ys, 0, 0;
      new;
      assert it1[0..] == xs && it2[0..] == ys;
    }

    method Next() returns (item: Option<Pair<T>>)
      requires Valid()
      modifies this
      ensures Valid()
      ensures item.None? <==> old(Rest()) == []
      ensures item.None? ==> Rest() == []
      ensures item.Some? ==> old(Rest()) == [item.value] + Rest()
      ensures item.Some? ==> i + j > old(i + j)
    {
      var x := if i < |it1| then Some(it1[i]) else None;
      var y := if j < |it2| then Some(it2[j]) else None;
      if x.None? && y.None? {
        return None;
      }
      if y.None? || (x.Some? && Less(key(x.value), key(y.value))) {
        item, i := Some(Pair(x, None)), i + 1;
      } else if x.None? || Less(key(y.value), key(x.value)) {
        item, j := Some(Pair(None, y)), j + 1;
      } else {
        item, i, j := Some(Pair(x, y)), i + 1, j + 1;
      }
    }
  }

  lemma FindConsOther<T>(key: T -> Path, x: T, xs: seq<T>, p: Path)
    ensures Find(key, [x] + xs, p) == if key(x) == p then Some(x) else Find(key, xs, p)
  {
  }

  lemma SortedCons<T>(key: T -> Path, x: T, xs: seq<T>)
    requires SortedBy(key, xs) && After(key, key(x), xs)
    ensures SortedBy(key, [x] + xs)
  {
  }

  lemma AfterCons<T>(key: T -> Path, p: Path, x: T, xs: seq<T>)
    requires Less(p, key(x)) && After(key, p, xs)
    ensures After(key, p, [x] + xs)
  {
  }

  /** A lower bound of both inputs is a lower bound of the pairs. */
  lemma {:induction false} JoinAfter<T(!new)>(key: T -> Path, p: Path, xs: seq<T>, ys: seq<T>)
    requires After(key, p, xs) && After(key, p, ys)
    ensures After(PairKey(key), p, Join(key, xs, ys))
    decreases |xs| + |ys|
  {
    if xs != [] || ys != [] {
      if ys == [] || (xs != [] && Less(key(xs[0]), key(ys[0]))) {
        JoinAfter(key, p, xs[1..], ys);
        AfterCons(PairKey(key), p, Pair(Some(xs[0]), None), Join(key, xs[1..], ys));
      } else if xs == [] || Less(key(ys[0]), key(xs[0])) {
        JoinAfter(key, p, xs, ys[1..]);
        AfterCons(PairKey(key), p, Pair(None, Some(ys[0])), Join(key, xs, ys[1..]));
      } else {
        JoinAfter(key, p, xs[1..], ys[1..]);
        AfterCons(PairKey(key), p, Pair(Some(xs[0]), Some(ys[0])), Join(key, xs[1..], ys[1..]));
      }
    }
  }

  lemma AfterSelf<T>(key: T -> Path, p: Path, xs: seq<T>)
    requires xs != [] && SortedBy(key, xs) && Less(p, key(xs[0]))
    ensures After(key, p, xs)
  {
    forall i | 0 <= i < |xs|
      ensures Less(p, key(xs[i]))
    {
      if i > 0 {
        Transitive(p, key(xs[0]), key(xs[i]));
      }
    }
  }

  /** On sorted inputs the iterator yields exactly the full outer join, in path order: at every path
      one pair of what each side has there, and no pair where neither side has anything. */
  lemma {:induction false} JoinIsOuterJoin<T(!new)>(key: T -> Path, xs: seq<T>, ys: seq<T>, p: Path)
    requires SortedBy(key, xs) && SortedBy(key, ys)
    ensures SortedBy(PairKey(key), Join(key, xs, ys))
    ensures Find(PairKey(key), Join(key, xs, ys), p) ==
      if Find(key, xs, p).None? && Find(key, ys, p).None? then None
      else Some(Pair(Find(key, xs, p), Find(key, ys, p)))
    decreases |xs| + |ys|
  {
    if xs != [] || ys != [] {
      if ys == [] || (xs != [] && Less(key(xs[0]), key(ys[0]))) {
        var k := key(xs[0]);
        TailAfterHead(key, xs);
        JoinIsOuterJoin(key, xs[1..], ys, p);
        if ys != [] {
          AfterSelf(key, k, ys);
        }
        NotFoundBefore(key, k, ys, k);
        JoinStep(key, k, Pair(Some(xs[0]), None), xs[1..], ys, p);
      } else if xs == [] || Less(key(ys[0]), key(xs[0])) {
        var k := key(ys[0]);
        TailAfterHead(key, ys);
        JoinIsOuterJoin(key, xs, ys[1..], p);
        if xs != [] {
          AfterSelf(key, k, xs);
        }
        NotFoundBefore(key, k, xs, k);
        JoinStep(key, k, Pair(None, Some(ys[0])), xs, ys[1..], p);
      } else {
        Total(key(xs[0]), key(ys[0]));
        TailAfterHead(key, xs);
        TailAfterHead(key, ys);
        JoinIsOuterJoin(key, xs[1..], ys[1..], p);
        JoinStep(key, key(xs[0]), Pair(Some(xs[0]), Some(ys[0])), xs[1..], ys[1..], p);
      }
    }
  }

  lemma JoinStep<T(!new)>(key: T -> Path, k: Path, pair: Pair<T>, xs: seq<T>, ys: seq<T>, p: Path)
    requires PairKey(key)(pair) == k && After(key, k, xs) && After(key, k, ys)
    requires SortedBy(PairKey(key), Join(key, xs, ys))
    ensures SortedBy(PairKey(key), [pair] + Join(key, xs, ys))
    ensures Find(PairKey(key), [pair] + Join(key, xs, ys), p) ==
      if k == p then Some(pair) else Find(PairKey(key), Join(key, xs, ys), p)
  {
    JoinAfter(key, k, xs, ys);
    SortedCons(PairKey(key), pair, Join(key, xs, ys));
    FindConsOther(PairKey(key), pair, Join(key, xs, ys), p);
  }

  /** The standard search in a sorted sequence. */
  method BinarySearch<T>(key: T -> Path, xs: seq<T>, p: Path) returns (r: Option<nat>)
    requires SortedBy(key, xs)
    ensures r.Some? ==> r.value < |xs| && key(xs[r.value]) == p && Find(key, xs, p) == Some(xs[r.value])
    ensures r.None? ==> Find(key, xs, p).None?
  {
    var lo: nat, hi: nat := 0, |xs|;
    while lo < hi
      invariant lo <= hi <= |xs|
      invariant forall i :: 0 <= i < lo ==> Less(key(xs[i]), p)
      invariant forall i :: hi <= i < |xs| ==> Less(p, key(xs[i]))
    {
      var mid: nat := lo + (hi - lo) / 2;
      if key(xs[mid]) == p {
        FindAt(key, xs, mid);
        return Some(mid);
      }
      Total(key(xs[mid]), p);
      if Less(key(xs[mid]), p) {
        forall i | 0 <= i <= mid
          ensures Less(key(xs[i]), p)
        {
          if i < mid {
            Transitive(key(xs[i]), key(xs[mid]), p);
          }
        }
        lo := mid + 1;
      } else {
        forall i | mid <= i < |xs|
          ensures Less(p, key(xs[i]))
        {
          if mid < i {
            Transitive(p, key(xs[mid]), key(xs[i]));
          }
        }
        hi := mid;
      }
    }
    FindMember(key, xs, p);
    Irreflexive(p);
    r := None;
  }

  // ----- Filtering -----

  function FilterMap<A, B>(f: A -> Option<B>, xs: seq<A>): seq<B> {
    if xs == [] then []
    else (if f(xs[0]).Some? then [f(xs[0]).value] else []) + FilterMap(f, xs[1..])
  }

  ghost predicate KeepsKey<A(!new), B>(keyA: A -> Path, keyB: B -> Path, f: A -> Option<B>, xs: seq<A>) {
    forall x :: x in xs && f(x).Some? ==> keyB(f(x).value) == keyA(x)
  }

  lemma {:induction false} FilterMapAfter<A(!new), B>(keyA: A -> Path, keyB: B -> Path, f: A -> Option<B>, xs: seq<A>, p: Path)
    requires After(keyA, p, xs) && KeepsKey(keyA, keyB, f, xs)
    ensures After(keyB, p, FilterMap(f, xs))
  {
    if xs != [] {
      assert xs[0] in xs && forall x :: x in xs[1..] ==> x in xs;
      FilterMapAfter(keyA, keyB, f, xs[1..], p);
    }
  }

  /** Filtering a sorted sequence element by element keeps it sorted, and acts path by path. */
  lemma {:induction false} FilterMapFind<A(!new), B>(keyA: A -> Path, keyB: B -> Path, f: A -> Option<B>, xs: seq<A>, p: Path)
    requires SortedBy(keyA, xs) && KeepsKey(keyA, keyB, f, xs)
    ensures SortedBy(keyB, FilterMap(f, xs))
    ensures Find(keyB, FilterMap(f, xs), p) ==
      if Find(keyA, xs, p).Some? then f(Find(keyA, xs, p).value) else None
  {
    if xs != [] {
      var head, tail := xs[0], xs[1..];
      assert head in xs && forall x :: x in tail ==> x in xs;
      TailAfterHead(keyA, xs);
      FilterMapFind(keyA, keyB, f, tail, p);
      FilterMapAfter(keyA, keyB, f, tail, keyA(head));
      if keyA(head) == p {
        NotFoundBefore(keyA, p, tail, p);
      }
      if f(head).Some? {
        SortedCons(keyB, f(head).value, FilterMap(f, tail));
        FindConsOther(keyB, f(head).value, FilterMap(f, tail), p);
      } else {
        assert [] + FilterMap(f, tail) == FilterMap(f, tail);
      }
    }
  }

  function AsSeq<B>(o: Option<B>): seq<B> {
    if o.Some? then [o.value] else []
  }

  /** Moving one element over from what is left to what is done. */
  lemma FilterMapFrom<A, B>(f: A -> Option<B>, xs: seq<A>, i: nat, done: seq<B>)
    requires i < |xs| && done + FilterMap(f, xs[i..]) == FilterMap(f, xs)
    ensures (done + AsSeq(f(xs[i]))) + FilterMap(f, xs[i + 1..]) == FilterMap(f, xs)
  {
  }

  lemma {:induction false} FilterMapMembers<A(!new), B(!new)>(f: A -> Option<B>, xs: seq<A>)
    ensures forall y :: y in FilterMap(f, xs) <==> exists x :: x in xs && f(x) == Some(y)
  {
    if xs != [] {
      FilterMapMembers(f, xs[1..]);
      assert xs == [xs[0]] + xs[1..];
    }
  }

  // ----- Sorting -----

  /** Inserts after every element that does not come later. */
  function InsertBy<T>(key: T -> Path, xs: seq<T>, x: T): seq<T> {
    if xs == [] then [x]
    else if Less(key(x), key(xs[0])) then [x] + xs
    else [xs[0]] + InsertBy(key, xs[1..], x)
  }

  function SortBy<T>(key: T -> Path, xs: seq<T>): seq<T> {
    if xs == [] then [] else InsertBy(key, SortBy(key, xs[..|xs| - 1]), xs[|xs| - 1])
  }

  ghost predicate DistinctKeys<T>(key: T -> Path, xs: seq<T>) {
    forall i, j :: 0 <= i < j < |xs| ==> key(xs[i]) != key(xs[j])
  }

  lemma {:induction false} InsertByAfter<T>(key: T -> Path, p: Path, xs: seq<T>, x: T)
    requires After(key, p, xs) && Less(p, key(x))
    ensures After(key, p, InsertBy(key, xs, x))
  {
    if xs != [] {
      InsertByAfter(key, p, xs[1..], x);
    }
  }

  lemma {:induction false} InsertByFind<T>(key: T -> Path, xs: seq<T>, x: T, p: Path)
    requires SortedBy(key, xs) && Find(key, xs, key(x)) == None
    ensures SortedBy(key, InsertBy(key, xs, x))
    ensures Find(key, InsertBy(key, xs, x), p) == if key(x) == p then Some(x) else Find(key, xs, p)
  {
    if xs != [] {
      var head, tail := xs[0], xs[1..];
      Total(key(x), key(head));
      if Less(key(x), key(head)) {
        AfterSelf(key, key(x), xs);
        SortedCons(key, x, xs);
        FindConsOther(key, x, xs, p);
      } else {
        TailAfterHead(key, xs);
        InsertByFind(key, tail, x, p);
        InsertByAfter(key, key(head), tail, x);
        SortedCons(key, head, InsertBy(key, tail, x));
        FindConsOther(key, head, InsertBy(key, tail, x), p);
      }
    }
  }

  lemma {:induction false} FindAppend<T>(key: T -> Path, xs: seq<T>, ys: seq<T>, p: Path)
    ensures Find(key, xs + ys, p) == if Find(key, xs, p).Some? then Find(key, xs, p) else Find(key, ys, p)
  {
    if xs == [] {
      assert xs + ys == ys;
    } else {
      FindAppend(key, xs[1..], ys, p);
      assert (xs + ys)[1..] == xs[1..] + ys;
    }
  }

  /** Sorting elements of distinct paths keeps what is found at every path. */
  lemma {:induction false} SortByFind<T>(key: T -> Path, xs: seq<T>, p: Path)
    requires DistinctKeys(key, xs)
    ensures SortedBy(key, SortBy(key, xs))
    ensures Find(key, SortBy(key, xs), p) == Find(key, xs, p)
  {
    if xs != [] {
      var init, last := xs[..|xs| - 1], xs[|xs| - 1];
      SortByFind(key, init, key(last));
      SortByFind(key, init, p);
      FindMember(key, init, key(last));
      InsertByFind(key, SortBy(key, init), last, p);
      assert xs == init + [last];
      FindAppend(key, init, [last], p);
      assert [last][1..] == [];
    }
  }
}
