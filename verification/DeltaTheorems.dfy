/** What the delta engine promises, proved about `Greedy`, which `Delta.CompareStream` computes.
    The window over a file at offset p is `BlockAt(file, window, p)`, cut like a source block. */
module DeltaTheorems {
  import opened Adler
  import opened Integers
  import opened Sequences
  import opened Delta
  import opened Wrappers

  ghost predicate IsBlockOf(source: seq<byte>, window: nat, bytes: seq<byte>) {
    exists k: nat :: Start(k, window) <= |source| && BlockAt(source, window, Start(k, window)) == bytes
  }

  /** The `k`-th source block has the hashes of `bytes`. */
  ghost predicate IsTwin(h: Hasher, source: seq<byte>, window: nat, bytes: seq<byte>, k: nat) {
    Start(k, window) <= |source| && SameHashes(h, BlockAt(source, window, Start(k, window)), bytes)
  }

  ghost predicate IsLastTwin(h: Hasher, source: seq<byte>, window: nat, bytes: seq<byte>, k: nat) {
    IsTwin(h, source, window, bytes, k) && forall j: nat :: IsTwin(h, source, window, bytes, j) ==> j <= k
  }

  ghost predicate HasTwin(h: Hasher, source: seq<byte>, window: nat, bytes: seq<byte>) {
    exists k: nat :: IsTwin(h, source, window, bytes, k)
  }

  /** The last source block with the hashes of `bytes`, if there is one, is `bytes`. */
  ghost predicate NoFalseTwin(h: Hasher, source: seq<byte>, window: nat, bytes: seq<byte>) {
    forall k: nat :: IsLastTwin(h, source, window, bytes, k) ==> BlockAt(source, window, Start(k, window)) == bytes
  }

  /** `good` holds of every window that a comparison looks at from offset `at` on: after a `hit` it goes on
      behind the window, otherwise at the next byte. */
  ghost predicate AlongTheWay(hit: seq<byte> -> bool, good: seq<byte> -> bool, window: nat, file: seq<byte>, at: nat)
    requires window > 0 && at <= |file|
    decreases |file| - at
  {
    var w := BlockAt(file, window, at);
    good(w) && (at < |file| ==> AlongTheWay(hit, good, window, file, if hit(w) then at + |w| else at + 1))
  }

  /** No collision where the comparison looks: no window that it compares has a false twin. Windows that
      start inside a copied block are not compared. */
  ghost predicate NoCollision(h: Hasher, source: seq<byte>, window: nat, file: seq<byte>)
    requires window > 0
  {
    AlongTheWay(w => HasTwin(h, source, window, w), w => NoFalseTwin(h, source, window, w), window, file, 0)
  }

  // ----- Lookups in a signature -----

  /** A lookup finds the last of the source blocks with the window's hashes, and fails exactly when
      there is none: the rolling checksum never hides a block that matches. */
  lemma LookupFindsLastBlock(sig: Signature, source: seq<byte>, h: Hasher, bytes: seq<byte>)
    requires Describes(sig, source, h)
    ensures Lookup(sig, h, bytes).Some? ==>
      var i := Lookup(sig, h, bytes).value;
      && i <= |source| && SameHashes(h, BlockAt(source, sig.window, i), bytes)
      && (exists k: nat :: Start(k, sig.window) == i)
      && (forall k: nat :: Start(k, sig.window) <= |source| ==>
            SameHashes(h, BlockAt(source, sig.window, Start(k, sig.window)), bytes) ==> Start(k, sig.window) <= i)
    ensures Lookup(sig, h, bytes).None? ==>
      forall k: nat :: Start(k, sig.window) <= |source| ==>
        !SameHashes(h, BlockAt(source, sig.window, Start(k, sig.window)), bytes)
  {
    var n: nat :| Indexes(sig.chunks, source, sig.window, h, n) &&
                  |source| < Start(n, sig.window) <= |source| + sig.window;
    forall k: nat | Start(k, sig.window) <= |source|
      ensures k < n
    {
      if n < k {
        StartMonotone(n, k, sig.window);
      }
    }
    var c := Checksum(bytes).Hash();
    if Lookup(sig, h, bytes).Some? {
      assert IsIndexed(source, sig.window, h, n, c, h(bytes), sig.chunks[c][h(bytes)]);
    }
  }

  /** A block that is found for a window equals the window. */
  ghost predicate IsTrue(look: Matcher, source: seq<byte>, window: nat, bytes: seq<byte>) {
    look(bytes).Some? ==> OpBytes(FromSource(look(bytes).value), source, window) == bytes
  }

  /** From offset `at` on, every block that the comparison finds equals the window it is found for. */
  ghost predicate FoundEqual(look: Matcher, source: seq<byte>, window: nat, file: seq<byte>, at: nat)
    requires window > 0 && at <= |file|
  {
    AlongTheWay(w => look(w).Some?, w => IsTrue(look, source, window, w), window, file, at)
  }

  /** The answer for a window is its last twin, and none exactly when it has no twin. */
  ghost predicate IsTwinAnswer(answer: Option<nat>, h: Hasher, source: seq<byte>, window: nat, bytes: seq<byte>) {
    match answer
    case None => !HasTwin(h, source, window, bytes)
    case Some(offset) => exists k: nat :: IsLastTwin(h, source, window, bytes, k) && Start(k, window) == offset
  }

  lemma LookupIsLastTwin(sig: Signature, source: seq<byte>, h: Hasher, bytes: seq<byte>)
    requires Describes(sig, source, h)
    ensures IsTwinAnswer(Lookup(sig, h, bytes), h, source, sig.window, bytes)
  {
    LookupFindsLastBlock(sig, source, h, bytes);
    if Lookup(sig, h, bytes).Some? {
      var k: nat :| Start(k, sig.window) == Lookup(sig, h, bytes).value;
      forall j: nat | IsTwin(h, source, sig.window, bytes, j)
        ensures j <= k
      {
        if k < j {
          StartMonotone(k, j, sig.window);
          StartStep(k, sig.window);
        }
      }
      assert IsLastTwin(h, source, sig.window, bytes, k);
    }
  }

  lemma TrueTwin(answer: Option<nat>, h: Hasher, source: seq<byte>, window: nat, bytes: seq<byte>)
    requires IsTwinAnswer(answer, h, source, window, bytes)
    requires NoFalseTwin(h, source, window, bytes)
    ensures answer.Some? <==> HasTwin(h, source, window, bytes)
    ensures answer.Some? ==> OpBytes(FromSource(answer.value), source, window) == bytes
  {
    if answer.Some? {
      var k: nat :| IsLastTwin(h, source, window, bytes, k) && Start(k, window) == answer.value;
      assert IsTwin(h, source, window, bytes, k);
    }
  }

  lemma {:induction false} AlongTheSameWay(hit: seq<byte> -> bool, good: seq<byte> -> bool, otherHit: seq<byte> -> bool, otherGood: seq<byte> -> bool,
                                           window: nat, file: seq<byte>, at: nat)
    requires window > 0 && at <= |file| && AlongTheWay(hit, good, window, file, at)
    requires forall w :: (hit(w) <==> otherHit(w)) && (good(w) ==> otherGood(w))
    ensures AlongTheWay(otherHit, otherGood, window, file, at)
    decreases |file| - at
  {
    if at < |file| {
      var w := BlockAt(file, window, at);
      AlongTheSameWay(hit, good, otherHit, otherGood, window, file, if hit(w) then at + |w| else at + 1);
    }
  }

  /** Without collisions every match of the comparison is a true one. */
  lemma NoCollisionMakesMatchesTrue(sig: Signature, source: seq<byte>, h: Hasher, file: seq<byte>)
    requires Describes(sig, source, h) && NoCollision(h, source, sig.window, file)
    ensures FoundEqual(MatcherOf(sig, h), source, sig.window, file, 0)
  {
    var look := MatcherOf(sig, h);
    forall w
      ensures HasTwin(h, source, sig.window, w) <==> look(w).Some?
      ensures NoFalseTwin(h, source, sig.window, w) ==> IsTrue(look, source, sig.window, w)
    {
      LookupIsLastTwin(sig, source, h, w);
      if NoFalseTwin(h, source, sig.window, w) {
        TrueTwin(look(w), h, source, sig.window, w);
      }
    }
    AlongTheSameWay(w => HasTwin(h, source, sig.window, w), w => NoFalseTwin(h, source, sig.window, w),
                    w => look(w).Some?, w => IsTrue(look, source, sig.window, w), sig.window, file, 0);
  }

  // ----- One step of the comparison -----

  lemma WindowAt(file: seq<byte>, window: nat, at: nat)
    requires at <= |file|
    ensures var w := BlockAt(file, window, at);
      && |w| == Min(window, |file| - at)
      && w + file[at + |w|..] == file[at..]
      && file[at..][..Min(window, |file[at..]|)] == w
      && file[at..][|w|..] == file[at + |w|..]
      && (at < |file| ==> file[at..][1..] == file[at + 1..])
  {
  }

  /** What `g` computes at offset `at` of the file when no block matches there, */
  lemma GreedyMiss(look: Matcher, window: nat, cap: nat, g: Comparison, pending: seq<byte>, file: seq<byte>, at: nat)
    requires window > 0 && IsGreedy(look, window, cap, g) && at < |file|
    requires look(BlockAt(file, window, at)).None?
    ensures var p := pending + [file[at]];
      g(pending, file[at..]) == Due(p, cap) + g(Kept(p, cap), file[at + 1..])
  {
    WindowAt(file, window, at);
    assert Unfold(pending, file[at..]) && Unfold(Kept(pending + [file[at]], cap), file[at..][1..]);
  }

  /** when one matches, */
  lemma GreedyMatch(look: Matcher, window: nat, cap: nat, g: Comparison, pending: seq<byte>, file: seq<byte>, at: nat)
    requires window > 0 && IsGreedy(look, window, cap, g) && at < |file|
    requires look(BlockAt(file, window, at)).Some?
    ensures var w := BlockAt(file, window, at);
      && 0 < |w| <= |file| - at
      && w + file[at + |w|..] == file[at..]
      && g(pending, file[at..]) ==
           Flush(pending) + ([FromSource(look(w).value)] + g([], file[at + |w|..]))
  {
    var w, rem := BlockAt(file, window, at), file[at..];
    WindowAt(file, window, at);
    GreedyMatchUnfold(look, window, cap, pending, rem, w);
    assert Unfold(pending, rem) && Unfold([], rem[|w|..]);
  }

  lemma GreedyMatchUnfold(look: Matcher, window: nat, cap: nat, pending: seq<byte>, rem: seq<byte>, w: seq<byte>)
    requires window > 0 && w != [] && |w| <= |rem| && w == rem[..Min(window, |rem|)] && look(w).Some?
    ensures Greedy(look, window, cap, pending, rem) ==
      Flush(pending) + ([FromSource(look(w).value)] + Greedy(look, window, cap, [], rem[|w|..]))
  {
  }

  /** and at the end of the file, where the empty window may match the empty last block. */
  lemma GreedyEnd(look: Matcher, window: nat, cap: nat, g: Comparison, pending: seq<byte>)
    requires window > 0 && IsGreedy(look, window, cap, g)
    ensures g(pending, []) ==
      Flush(pending) + (if look([]).Some? then [FromSource(look([]).value)] else [])
  {
    assert Unfold(pending, []);
    var noBytes: seq<byte> := [];
    assert noBytes[..Min(window, |noBytes|)] == [];
    var last := if look([]).Some? then [FromSource(look([]).value)] else [];
    assert Flush(pending) + last + [] == Flush(pending) + last;
  }

  // ----- Round trip -----

  /** Bytes emitted as a literal, or kept pending, are the pending bytes. */
  lemma RestoredMiss(p: seq<byte>, cap: nat, more: seq<DeltaOp>, rest: seq<byte>, source: seq<byte>, window: nat)
    requires Restored(more, source, window) == Kept(p, cap) + rest
    ensures Restored(Due(p, cap) + more, source, window) == p + rest
  {
    RestoredAppend(Due(p, cap), more, source, window);
    assert [Literal(p)][1..] == [];
    assert Restored(Due(p, cap), source, window) + Kept(p, cap) == p;
    Associate(Restored(Due(p, cap), source, window), Kept(p, cap), rest);
  }

  lemma RestoredFlush(pending: seq<byte>, more: seq<DeltaOp>, source: seq<byte>, window: nat)
    ensures Restored(Flush(pending) + more, source, window) == pending + Restored(more, source, window)
  {
    RestoredAppend(Flush(pending), more, source, window);
    assert [Literal(pending)][1..] == [];
  }

  /** A copied block follows the pending bytes. */
  lemma RestoredMatch(pending: seq<byte>, op: DeltaOp, more: seq<DeltaOp>, w: seq<byte>, rest: seq<byte>,
                      source: seq<byte>, window: nat)
    requires OpBytes(op, source, window) == w && Restored(more, source, window) == [] + rest
    ensures Restored(Flush(pending) + ([op] + more), source, window) == pending + (w + rest)
  {
    RestoredFlush(pending, [op] + more, source, window);
    assert ([op] + more)[1..] == more;
    assert [] + rest == rest;
  }

  lemma MoveByte(pending: seq<byte>, file: seq<byte>, at: nat)
    requires at < |file|
    ensures (pending + [file[at]]) + file[at + 1..] == pending + file[at..]
  {
  }

  lemma {:induction false} RoundTripFrom(look: Matcher, source: seq<byte>, window: nat, cap: nat, g: Comparison,
                                         pending: seq<byte>, file: seq<byte>, at: nat)
    requires window > 0 && at <= |file| && FoundEqual(look, source, window, file, at) && IsGreedy(look, window, cap, g)
    ensures Restored(g(pending, file[at..]), source, window) == pending + file[at..]
    decreases |file| - at
  {
    var w := BlockAt(file, window, at);
    var found := look(w);
    if at == |file| {
      assert file[at..] == [] && w == [];
      GreedyEnd(look, window, cap, g, pending);
      RestoredFlush(pending, if found.Some? then [FromSource(found.value)] else [], source, window);
      assert found.Some? ==> [FromSource(found.value)][1..] == [];
    } else if found.None? {
      var p := pending + [file[at]];
      GreedyMiss(look, window, cap, g, pending, file, at);
      RoundTripFrom(look, source, window, cap, g, Kept(p, cap), file, at + 1);
      RestoredMiss(p, cap, g(Kept(p, cap), file[at + 1..]), file[at + 1..], source, window);
      MoveByte(pending, file, at);
    } else {
      var rest := file[at + |w|..];
      GreedyMatch(look, window, cap, g, pending, file, at);
      RoundTripFrom(look, source, window, cap, g, [], file, at + |w|);
      RestoredMatch(pending, FromSource(found.value), g([], rest), w, rest, source, window);
    }
  }

  /** Restoring what the comparison emits, against the source that was signed, gives the file. */
  lemma RoundTrip(sig: Signature, source: seq<byte>, h: Hasher, cap: nat, file: seq<byte>)
    requires Describes(sig, source, h) && NoCollision(h, source, sig.window, file)
    ensures Restored(Greedy(MatcherOf(sig, h), sig.window, cap, [], file), source, sig.window) == file
  {
    NoCollisionMakesMatchesTrue(sig, source, h, file);
    RoundTripFrom(MatcherOf(sig, h), source, sig.window, cap,
                  (pending, rem) => Greedy(MatcherOf(sig, h), sig.window, cap, pending, rem), [], file, 0);
    assert file[0..] == file && [] + file == file;
  }

  ghost predicate LookupsInRange(look: Matcher, source: seq<byte>) {
    forall bytes :: look(bytes).Some? ==> look(bytes).value <= |source|
  }

  lemma {:induction false} OffsetsInRangeFrom(look: Matcher, source: seq<byte>, window: nat, cap: nat, g: Comparison,
                                              pending: seq<byte>, file: seq<byte>, at: nat)
    requires at <= |file| && window > 0 && LookupsInRange(look, source) && IsGreedy(look, window, cap, g)
    ensures InRange(g(pending, file[at..]), source)
    decreases |file| - at
  {
    var w := BlockAt(file, window, at);
    if at == |file| {
      assert file[at..] == [];
      GreedyEnd(look, window, cap, g, pending);
    } else if look(w).None? {
      GreedyMiss(look, window, cap, g, pending, file, at);
      OffsetsInRangeFrom(look, source, window, cap, g, Kept(pending + [file[at]], cap), file, at + 1);
    } else {
      GreedyMatch(look, window, cap, g, pending, file, at);
      OffsetsInRangeFrom(look, source, window, cap, g, [], file, at + |w|);
    }
  }

  /** Whether or not hashes collide, every copied offset lies inside the source, so that `Restore`
      cannot panic. */
  lemma OffsetsInRange(sig: Signature, source: seq<byte>, h: Hasher, cap: nat, file: seq<byte>)
    requires Describes(sig, source, h)
    ensures InRange(Greedy(MatcherOf(sig, h), sig.window, cap, [], file), source)
  {
    forall bytes | Lookup(sig, h, bytes).Some?
      ensures Lookup(sig, h, bytes).value <= |source|
    {
      LookupFindsLastBlock(sig, source, h, bytes);
    }
    OffsetsInRangeFrom(MatcherOf(sig, h), source, sig.window, cap, (pending, rem) => Greedy(MatcherOf(sig, h), sig.window, cap, pending, rem), [], file, 0);
    assert file[0..] == file;
  }

  /** The whole pipeline, on any schedule of reads and writes: sign the source, compare the modified file,
      restore with either routine. Seeking restores the modified file or reports a write that took nothing;
      the slice routine never fails, and restores the file exactly when no write was cut short. */
  method SyncFile(source: Reader, modified: Reader, block: array<byte>, h: Hasher, slice: Sink, seek: Sink)
    returns (delta: Delta, result: Result<(), Error>)
    requires block.Length > 0 && source != modified && slice != seek
    requires source.rest == source.data && modified.rest == modified.data
    requires slice.contents == seek.contents == []
    requires NoCollision(h, source.data, block.Length, modified.data)
    modifies source`rest, modified`rest, block, slice, seek
    ensures Restored(delta.blocks, source.data, block.Length) == modified.data
    ensures slice.contents == modified.data <==> slice.refused == old(slice.refused)
    ensures result.Ok? <==> seek.stalls == old(seek.stalls)
    ensures result.Ok? ==> seek.contents == modified.data
    ensures result.Err? ==> result.error == WriteZero
  {
    var sig := ComputeSignature(source, block, h);
    var compared := Compare(sig, modified, block, h);
    delta := compared.value;
    RoundTrip(sig, source.data, h, USIZE_MAX, modified.data);
    OffsetsInRange(sig, source.data, h, USIZE_MAX, modified.data);
    var restored := Restore(slice, source.data, delta);
    assert [] + modified.data == modified.data;
    result := RestoreSeek(seek, source, block, delta);
  }

  // ----- Literals -----

  ghost predicate BlocksFound(look: Matcher, source: seq<byte>, window: nat) {
    forall bytes :: IsBlockOf(source, window, bytes) ==> look(bytes).Some?
  }

  /** A lookup finds every block of the source, collisions or not. */
  lemma SignatureFindsBlocks(sig: Signature, source: seq<byte>, h: Hasher)
    requires Describes(sig, source, h)
    ensures BlocksFound(MatcherOf(sig, h), source, sig.window)
  {
    forall bytes | IsBlockOf(source, sig.window, bytes)
      ensures Lookup(sig, h, bytes).Some?
    {
      LookupFindsLastBlock(sig, source, h, bytes);
      var k: nat :| Start(k, sig.window) <= |source| && BlockAt(source, sig.window, Start(k, sig.window)) == bytes;
      assert SameHashes(h, BlockAt(source, sig.window, Start(k, sig.window)), bytes);
    }
  }

  ghost predicate Misses(isBlock: seq<byte> -> bool, window: nat, file: seq<byte>, from: nat, to: nat) {
    forall p: nat :: from <= p < to && p <= |file| ==> !isBlock(BlockAt(file, window, p))
  }

  /** The bytes of the file that an operation stands for: those of a literal, or one window. */
  function Consumed(op: DeltaOp, window: nat, file: seq<byte>, at: nat): nat {
    if op.Literal? then |op.bytes| else if at <= |file| then |BlockAt(file, window, at)| else 0
  }

  /** Walking `ops` over the file from offset `at` to its end: every literal carries the bytes of the file
      that are there, and lies only at offsets whose window is not a block of the source. */
  ghost predicate OnlyMisses(ops: seq<DeltaOp>, isBlock: seq<byte> -> bool, window: nat, file: seq<byte>, at: nat) {
    if ops == [] then at == |file|
    else
      var n := Consumed(ops[0], window, file, at);
      && at + n <= |file|
      && (ops[0].Literal? ==> ops[0].bytes == file[at..at + n] && Misses(isBlock, window, file, at, at + n))
      && OnlyMisses(ops[1..], isBlock, window, file, at + n)
  }

  lemma OnlyMissesCons(op: DeltaOp, more: seq<DeltaOp>, isBlock: seq<byte> -> bool, window: nat, file: seq<byte>, at: nat)
    requires var n := Consumed(op, window, file, at);
      && at + n <= |file|
      && (op.Literal? ==> op.bytes == file[at..at + n] && Misses(isBlock, window, file, at, at + n))
      && OnlyMisses(more, isBlock, window, file, at + n)
    ensures OnlyMisses([op] + more, isBlock, window, file, at)
  {
    assert ([op] + more)[1..] == more;
  }

  /** The pending bytes are those just before `at`, none of them at a block of the source. */
  ghost predicate Trails(pending: seq<byte>, isBlock: seq<byte> -> bool, window: nat, file: seq<byte>, at: nat) {
    && |pending| <= at <= |file| && pending == file[at - |pending|..at]
    && Misses(isBlock, window, file, at - |pending|, at)
  }

  lemma OnlyMissesFlush(pending: seq<byte>, more: seq<DeltaOp>, isBlock: seq<byte> -> bool, window: nat, file: seq<byte>, at: nat)
    requires Trails(pending, isBlock, window, file, at) && OnlyMisses(more, isBlock, window, file, at)
    ensures OnlyMisses(Flush(pending) + more, isBlock, window, file, at - |pending|)
  {
    if pending == [] {
      assert Flush(pending) + more == more;
    } else {
      OnlyMissesCons(Literal(pending), more, isBlock, window, file, at - |pending|);
    }
  }

  lemma OnlyMissesDue(p: seq<byte>, cap: nat, more: seq<DeltaOp>, isBlock: seq<byte> -> bool, window: nat, file: seq<byte>, at: nat)
    requires Trails(p, isBlock, window, file, at) && OnlyMisses(more, isBlock, window, file, at - |Kept(p, cap)|)
    ensures OnlyMisses(Due(p, cap) + more, isBlock, window, file, at - |p|)
  {
    if |p| >= cap {
      OnlyMissesCons(Literal(p), more, isBlock, window, file, at - |p|);
    } else {
      assert Due(p, cap) + more == more;
    }
  }

  /** One more byte trails when the window at it is not a block; the bytes kept of it trail as well. */
  lemma TrailsMore(pending: seq<byte>, cap: nat, isBlock: seq<byte> -> bool, window: nat, file: seq<byte>, at: nat)
    requires Trails(pending, isBlock, window, file, at) && at < |file| && !isBlock(BlockAt(file, window, at))
    ensures var p := pending + [file[at]];
      Trails(p, isBlock, window, file, at + 1) && Trails(Kept(p, cap), isBlock, window, file, at + 1)
  {
    assert pending + [file[at]] == file[at - |pending|..at + 1];
  }

  lemma NothingTrails(isBlock: seq<byte> -> bool, window: nat, file: seq<byte>, at: nat)
    requires at <= |file|
    ensures Trails([], isBlock, window, file, at)
  {
  }

  lemma MatchCovers(offset: nat, pending: seq<byte>, more: seq<DeltaOp>, isBlock: seq<byte> -> bool, window: nat, file: seq<byte>, at: nat)
    requires Trails(pending, isBlock, window, file, at)
    requires OnlyMisses(more, isBlock, window, file, at + |BlockAt(file, window, at)|)
    ensures OnlyMisses(Flush(pending) + ([FromSource(offset)] + more), isBlock, window, file, at - |pending|)
  {
    OnlyMissesCons(FromSource(offset), more, isBlock, window, file, at);
    OnlyMissesFlush(pending, [FromSource(offset)] + more, isBlock, window, file, at);
  }

  lemma EndCovers(pending: seq<byte>, found: Option<nat>, isBlock: seq<byte> -> bool, window: nat, file: seq<byte>)
    requires Trails(pending, isBlock, window, file, |file|)
    ensures OnlyMisses(Flush(pending) + (if found.Some? then [FromSource(found.value)] else []), isBlock, window, file, |file| - |pending|)
  {
    if found.Some? {
      MatchCovers(found.value, pending, [], isBlock, window, file, |file|);
      assert [FromSource(found.value)] + [] == [FromSource(found.value)];
    } else {
      OnlyMissesFlush(pending, [], isBlock, window, file, |file|);
    }
  }

  lemma {:induction false} MissCovers(look: Matcher, isBlock: seq<byte> -> bool, window: nat, cap: nat, g: Comparison,
                                      pending: seq<byte>, file: seq<byte>, at: nat)
    requires window > 0 && at < |file| && (forall bytes :: isBlock(bytes) ==> look(bytes).Some?) && IsGreedy(look, window, cap, g)
    requires Trails(pending, isBlock, window, file, at) && look(BlockAt(file, window, at)).None?
    ensures OnlyMisses(g(pending, file[at..]), isBlock, window, file, at - |pending|)
    decreases |file| - at, 0
  {
    var p := pending + [file[at]];
    GreedyMiss(look, window, cap, g, pending, file, at);
    TrailsMore(pending, cap, isBlock, window, file, at);
    LiteralsAreMissesFrom(look, isBlock, window, cap, g, Kept(p, cap), file, at + 1);
    OnlyMissesDue(p, cap, g(Kept(p, cap), file[at + 1..]), isBlock, window, file, at + 1);
  }

  lemma {:induction false} FoundCovers(look: Matcher, isBlock: seq<byte> -> bool, window: nat, cap: nat, g: Comparison,
                                       pending: seq<byte>, file: seq<byte>, at: nat)
    requires window > 0 && at < |file| && (forall bytes :: isBlock(bytes) ==> look(bytes).Some?) && IsGreedy(look, window, cap, g)
    requires Trails(pending, isBlock, window, file, at) && look(BlockAt(file, window, at)).Some?
    ensures OnlyMisses(g(pending, file[at..]), isBlock, window, file, at - |pending|)
    decreases |file| - at, 0
  {
    var w := BlockAt(file, window, at);
    GreedyMatch(look, window, cap, g, pending, file, at);
    NothingTrails(isBlock, window, file, at + |w|);
    LiteralsAreMissesFrom(look, isBlock, window, cap, g, [], file, at + |w|);
    MatchCovers(look(w).value, pending, g([], file[at + |w|..]), isBlock, window, file, at);
  }

  lemma {:induction false} LiteralsAreMissesFrom(look: Matcher, isBlock: seq<byte> -> bool, window: nat, cap: nat, g: Comparison,
                                                 pending: seq<byte>, file: seq<byte>, at: nat)
    requires window > 0 && at <= |file| && (forall bytes :: isBlock(bytes) ==> look(bytes).Some?) && IsGreedy(look, window, cap, g)
    requires Trails(pending, isBlock, window, file, at)
    ensures OnlyMisses(g(pending, file[at..]), isBlock, window, file, at - |pending|)
    decreases |file| - at, 1
  {
    var w := BlockAt(file, window, at);
    if at == |file| {
      assert file[at..] == [] && w == [];
      GreedyEnd(look, window, cap, g, pending);
      EndCovers(pending, look(w), isBlock, window, file);
    } else if look(w).None? {
      MissCovers(look, isBlock, window, cap, g, pending, file, at);
    } else {
      FoundCovers(look, isBlock, window, cap, g, pending, file, at);
    }
  }

  /** Greedy completeness, with or without collisions: the operations cover the file from end to end, and
      no literal byte was emitted at an offset where the remaining window is a block of the source. */
  lemma LiteralsAreMisses(sig: Signature, source: seq<byte>, h: Hasher, cap: nat, file: seq<byte>)
    requires Describes(sig, source, h)
    ensures OnlyMisses(Greedy(MatcherOf(sig, h), sig.window, cap, [], file), w => IsBlockOf(source, sig.window, w), sig.window, file, 0)
  {
    SignatureFindsBlocks(sig, source, h);
    LiteralsAreMissesFrom(MatcherOf(sig, h), w => IsBlockOf(source, sig.window, w), sig.window, cap,
                          (pending, rem) => Greedy(MatcherOf(sig, h), sig.window, cap, pending, rem), [], file, 0);
    assert file[0..] == file;
  }

  /** From offset `at` on, the file is full source blocks in any order and number, then optionally the
      source's short last block. */
  ghost predicate MadeOfBlocks(file: seq<byte>, at: nat, source: seq<byte>, window: nat)
    requires window > 0
    decreases |file| - at
  {
    at >= |file| ||
    (IsBlockOf(source, window, BlockAt(file, window, at)) && MadeOfBlocks(file, at + window, source, window))
  }

  ghost predicate NoLiterals(ops: seq<DeltaOp>) {
    forall k :: 0 <= k < |ops| ==> ops[k].FromSource?
  }

  lemma {:induction false} NoLiteralsFrom(look: Matcher, source: seq<byte>, window: nat, cap: nat, g: Comparison,
                                          file: seq<byte>, at: nat)
    requires at <= |file| && window > 0 && BlocksFound(look, source, window) && IsGreedy(look, window, cap, g)
    requires MadeOfBlocks(file, at, source, window)
    ensures NoLiterals(g([], file[at..]))
    decreases |file| - at
  {
    var w := BlockAt(file, window, at);
    if at == |file| {
      assert file[at..] == [];
      GreedyEnd(look, window, cap, g, []);
    } else {
      GreedyMatch(look, window, cap, g, [], file, at);
      WindowAt(file, window, at);
      NoLiteralsFrom(look, source, window, cap, g, file, at + |w|);
    }
  }

  /** A file made of source blocks is described without a single literal byte, collisions or not. */
  lemma BlocksNeedNoLiterals(sig: Signature, source: seq<byte>, h: Hasher, cap: nat, file: seq<byte>)
    requires Describes(sig, source, h) && MadeOfBlocks(file, 0, source, sig.window)
    ensures NoLiterals(Greedy(MatcherOf(sig, h), sig.window, cap, [], file))
  {
    SignatureFindsBlocks(sig, source, h);
    NoLiteralsFrom(MatcherOf(sig, h), source, sig.window, cap, (pending, rem) => Greedy(MatcherOf(sig, h), sig.window, cap, pending, rem), file, 0);
    assert file[0..] == file;
  }

  lemma {:induction false} OwnBlocksFrom(source: seq<byte>, window: nat, k: nat)
    requires window > 0
    ensures MadeOfBlocks(source, Start(k, window), source, window)
    decreases |source| - Start(k, window)
  {
    if Start(k, window) < |source| {
      StartStep(k, window);
      OwnBlocksFrom(source, window, k + 1);
    }
  }

  /** An unchanged file is described by copies alone. */
  lemma UnchangedFileNeedsNoLiterals(sig: Signature, source: seq<byte>, h: Hasher, cap: nat)
    requires Describes(sig, source, h)
    ensures NoLiterals(Greedy(MatcherOf(sig, h), sig.window, cap, [], source))
  {
    OwnBlocksFrom(source, sig.window, 0);
    BlocksNeedNoLiterals(sig, source, h, cap, source);
  }

  /** Every literal that `CompareStream` emits has between one byte and the cap, or one when the cap is zero; and
      none is cut short of that to start another. */
  lemma LiteralLengths(sig: Signature, h: Hasher, maxLiteralBytes: nat, file: seq<byte>)
    requires sig.window > 0
    ensures var cap := if maxLiteralBytes == 0 then 1 else maxLiteralBytes;
      var ops := Greedy(MatcherOf(sig, h), sig.window, cap, [], file);
      forall k :: 0 <= k < |ops| && ops[k].Literal? ==>
        && 1 <= |ops[k].bytes| <= cap
        && (k + 1 < |ops| && ops[k + 1].Literal? ==> |ops[k].bytes| == cap)
  {
    GreedyChunked(MatcherOf(sig, h), sig.window, if maxLiteralBytes == 0 then 1 else maxLiteralBytes, [], file);
  }

  ghost predicate NoAdjacentLiterals(ops: seq<DeltaOp>) {
    forall k :: 0 <= k < |ops| - 1 ==> ops[k].FromSource? || ops[k + 1].FromSource?
  }

  lemma {:induction false} NoAdjacentFrom(look: Matcher, window: nat, cap: nat, g: Comparison,
                                          pending: seq<byte>, file: seq<byte>, at: nat)
    requires window > 0 && IsGreedy(look, window, cap, g) && at <= |file| && |pending| + |file| - at < cap
    ensures NoAdjacentLiterals(g(pending, file[at..]))
    decreases |file| - at
  {
    var w := BlockAt(file, window, at);
    if at == |file| {
      assert file[at..] == [];
      GreedyEnd(look, window, cap, g, pending);
    } else if look(w).None? {
      var p := pending + [file[at]];
      GreedyMiss(look, window, cap, g, pending, file, at);
      NoAdjacentFrom(look, window, cap, g, p, file, at + 1);
      assert Due(p, cap) + g(p, file[at + 1..]) == g(p, file[at + 1..]);
    } else {
      GreedyMatch(look, window, cap, g, pending, file, at);
      NoAdjacentFrom(look, window, cap, g, [], file, at + |w|);
    }
  }

  /** In a delta of a file below the address-space limit, literals between two copies are never split. */
  lemma LiteralsNeverAdjacent(sig: Signature, h: Hasher, file: seq<byte>)
    requires sig.window > 0 && |file| < USIZE_MAX
    ensures NoAdjacentLiterals(Greedy(MatcherOf(sig, h), sig.window, USIZE_MAX, [], file))
  {
    NoAdjacentFrom(MatcherOf(sig, h), sig.window, USIZE_MAX, (pending, rem) => Greedy(MatcherOf(sig, h), sig.window, USIZE_MAX, pending, rem), [], file, 0);
    assert file[0..] == file;
  }
}
