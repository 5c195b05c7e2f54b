/** The rsync-style delta engine: signatures, comparison and restoration.

    Each imperative method is tied to a function of the byte contents alone, so the result
    cannot depend on how a reader splits its data into short reads. `DeltaTheorems` proves
    what those functions promise. */
module Delta {
  import opened Adler
  import opened Integers
  import opened Sequences
  import opened Wrappers

  type Digest = seq<byte>

  /** The strong hash (BLAKE2b-256, RFC 7693) is a parameter: no property below needs more of it
      than the explicit absence of a collision. */
  type Hasher = seq<byte> -> Digest

  datatype Error = InvalidInput | OutOfRange | WriteZero

  /** Rolling checksum, then strong digest, then the offset of a source block. */
  datatype Signature = Signature(window: nat, chunks: map<nat, map<Digest, nat>>)

  datatype DeltaOp = FromSource(offset: nat) | Literal(bytes: seq<byte>)

  datatype Delta = Delta(blocks: seq<DeltaOp>, window: nat)

  const USIZE_MAX: nat := 0xFFFF_FFFF_FFFF_FFFF

  // ----- Readers -----

  /** A seekable stream over fixed contents, of which `rest` has not been read. `Read` returns any
      positive count that fits, and zero exactly at the end of the data or for an empty range. */
  class Reader {
    const data: seq<byte>
    var rest: seq<byte>

    constructor (contents: seq<byte>)
      ensures data == contents && rest == contents
    {
      data, rest := contents, contents;
    }

    method Read(buf: array<byte>, lo: nat, hi: nat) returns (n: nat)
      requires lo <= hi <= buf.Length
      modifies this`rest, buf
      ensures n <= hi - lo && n <= |old(rest)|
      ensures n == 0 <==> lo == hi || old(rest) == []
      ensures buf[..] == old(buf[..lo]) + old(rest)[..n] + old(buf[lo + n..])
      ensures rest == old(rest)[n..]
    {
      if lo == hi || rest == [] {
        assert buf[..] == old(buf[..lo]) + [] + old(buf[lo..]);
        return 0;
      }
      n :| 1 <= n <= hi - lo && n <= |rest|;
      forall k | 0 <= k < n {
        buf[lo + k] := rest[k];
      }
      rest := rest[n..];
    }

    method Seek(offset: nat)
      modifies this`rest
      ensures rest == if offset <= |data| then data[offset..] else []
    {
      rest := if offset <= |data| then data[offset..] else [];
    }
  }

  // ----- Writers -----

  /** A stream that accepts any part of what it is offered, from none to all of it. `refused` counts the
      bytes it did not take, `stalls` the offers of which it took nothing. */
  class Sink {
    var contents: seq<byte>
    var refused: nat
    var stalls: nat

    constructor ()
      ensures contents == [] && refused == stalls == 0
    {
      contents, refused, stalls := [], 0, 0;
    }

    method Write(bytes: seq<byte>) returns (n: nat)
      modifies this
      ensures n <= |bytes| && contents == old(contents) + bytes[..n]
      ensures refused == old(refused) + (|bytes| - n)
      ensures stalls == old(stalls) + if n == 0 && bytes != [] then 1 else 0
    {
      n :| 0 <= n <= |bytes|;
      contents := contents + bytes[..n];
      refused := refused + (|bytes| - n);
      stalls := stalls + if n == 0 && bytes != [] then 1 else 0;
    }

    /** Offers what is left again, until all is taken or nothing of an offer is. */
    method WriteAll(bytes: seq<byte>) returns (ok: bool)
      modifies this
      ensures stalls == old(stalls) + if ok then 0 else 1
      ensures ok ==> contents == old(contents) + bytes
    {
      var rest := bytes;
      while rest != []
        invariant contents + rest == old(contents) + bytes && stalls == old(stalls)
        decreases |rest|
      {
        ghost var before := contents;
        var n := Write(rest);
        if n == 0 {
          return false;
        }
        Associate(before, rest[..n], rest[n..]);
        assert rest == rest[..n] + rest[n..];
        rest := rest[n..];
      }
      return true;
    }
  }

  function Min(a: nat, b: nat): nat {
    if a <= b then a else b
  }

  /** Reads until `buf[..upTo]` is full or the data ends. */
  method Fill(r: Reader, buf: array<byte>, upTo: nat) returns (j: nat)
    requires 0 < upTo <= buf.Length
    modifies r`rest, buf
    ensures j == Min(upTo, |old(r.rest)|)
    ensures buf[..j] == old(r.rest)[..j]
    ensures r.rest == old(r.rest)[j..]
  {
    j := 0;
    ghost var rest := r.rest;
    while j < upTo
      invariant j <= upTo && j <= |rest|
      invariant buf[..j] == rest[..j]
      invariant r.rest == rest[j..]
    {
      ghost var before := buf[..j];
      var n := r.Read(buf, j, upTo);
      if n == 0 {
        break;
      }
      assert buf[..j + n] == before + rest[j..][..n];
      assert rest[j..][n..] == rest[j + n..];
      j := j + n;
    }
  }

  /** A read into the single slot `at`. */
  method ReadByte(r: Reader, buf: array<byte>, at: nat) returns (n: nat)
    requires at < buf.Length
    modifies r`rest, buf
    ensures n == Min(1, |old(r.rest)|)
    ensures n == 0 ==> buf[..] == old(buf[..]) && r.rest == old(r.rest)
    ensures n == 1 ==> buf[..] == old(buf[..])[at := old(r.rest)[0]] && r.rest == old(r.rest)[1..]
  {
    ghost var before, rest := buf[..], r.rest;
    n := r.Read(buf, at, at + 1);
    if n == 1 {
      assert rest[..1] == [rest[0]];
    }
  }

  // ----- Signatures -----

  function Start(k: nat, window: nat): nat {
    k * window
  }

  /** The source block that starts at `offset`: short, or empty, at the end of the source. */
  function BlockAt(source: seq<byte>, window: nat, offset: nat): seq<byte>
    requires offset <= |source|
  {
    source[offset..Min(offset + window, |source|)]
  }

  ghost predicate SameHashes(h: Hasher, x: seq<byte>, y: seq<byte>) {
    Checksum(x).Hash() == Checksum(y).Hash() && h(x) == h(y)
  }

  function Lookup(sig: Signature, h: Hasher, bytes: seq<byte>): Option<nat> {
    var c := Checksum(bytes).Hash();
    if c in sig.chunks && h(bytes) in sig.chunks[c] then Some(sig.chunks[c][h(bytes)]) else None
  }

  /** `offset` is one of the first `n` block starts and the block there hashes to (c, d). */
  ghost predicate IsIndexed(source: seq<byte>, window: nat, h: Hasher, n: nat, c: nat, d: Digest, offset: nat) {
    offset <= |source| &&
    Checksum(BlockAt(source, window, offset)).Hash() == c && h(BlockAt(source, window, offset)) == d &&
    exists k: nat :: k < n && Start(k, window) == offset
  }

  /** The chunk index describes exactly the first `n` blocks; of several blocks with equal hashes
      the last one is recorded. */
  ghost predicate Indexes(chunks: map<nat, map<Digest, nat>>, source: seq<byte>, window: nat, h: Hasher, n: nat) {
    && (forall c, d :: c in chunks && d in chunks[c] ==> IsIndexed(source, window, h, n, c, d, chunks[c][d]))
    && (forall k: nat :: k < n && Start(k, window) <= |source| ==>
          var b := BlockAt(source, window, Start(k, window));
          Checksum(b).Hash() in chunks && h(b) in chunks[Checksum(b).Hash()] &&
          Start(k, window) <= chunks[Checksum(b).Hash()][h(b)])
  }

  /** `sig` is the signature of `source`: every block start up to and including the end of the
      source is indexed, and nothing else is. */
  ghost predicate Describes(sig: Signature, source: seq<byte>, h: Hasher) {
    sig.window > 0 &&
    exists n: nat :: Indexes(sig.chunks, source, sig.window, h, n) && |source| < Start(n, sig.window) <= |source| + sig.window
  }

  lemma StartStep(k: nat, window: nat)
    ensures Start(k + 1, window) == Start(k, window) + window
  {
  }

  lemma {:induction false} StartMonotone(j: nat, k: nat, window: nat)
    requires j < k && window > 0
    ensures Start(j, window) + window <= Start(k, window)
    decreases k
  {
    StartStep(k - 1, window);
    if j < k - 1 {
      StartMonotone(j, k - 1, window);
    }
  }

  /** Inserts into the inner map for `c`, creating it when it is missing. */
  function Record(chunks: map<nat, map<Digest, nat>>, c: nat, d: Digest, offset: nat): map<nat, map<Digest, nat>> {
    var inner: map<Digest, nat> := if c in chunks then chunks[c] else map[];
    chunks[c := inner[d := offset]]
  }

  /** The chunk index after the first `n` blocks. */
  function IndexOf(source: seq<byte>, window: nat, h: Hasher, n: nat): map<nat, map<Digest, nat>> {
    if n == 0 || Start(n - 1, window) > |source| then map[]
    else
      var b := BlockAt(source, window, Start(n - 1, window));
      Record(IndexOf(source, window, h, n - 1), Checksum(b).Hash(), h(b), Start(n - 1, window))
  }

  /** Recording block `n` extends the index by exactly that block. */
  lemma IndexesInsert(chunks: map<nat, map<Digest, nat>>, source: seq<byte>, window: nat, h: Hasher, n: nat)
    requires window > 0 && Start(n, window) <= |source|
    requires Indexes(chunks, source, window, h, n)
    ensures var b := BlockAt(source, window, Start(n, window));
      Indexes(Record(chunks, Checksum(b).Hash(), h(b), Start(n, window)), source, window, h, n + 1)
  {
    var b := BlockAt(source, window, Start(n, window));
    var updated := Record(chunks, Checksum(b).Hash(), h(b), Start(n, window));
    forall c, d | c in updated && d in updated[c]
      ensures IsIndexed(source, window, h, n + 1, c, d, updated[c][d])
    {
      if c == Checksum(b).Hash() && d == h(b) {
        assert Start(n, window) == updated[c][d];
      } else {
        assert IsIndexed(source, window, h, n, c, d, chunks[c][d]);
        var k: nat :| k < n && Start(k, window) == updated[c][d];
        assert k < n + 1;
      }
    }
    forall k: nat | k < n + 1 && Start(k, window) <= |source|
      ensures var b' := BlockAt(source, window, Start(k, window));
        Checksum(b').Hash() in updated && h(b') in updated[Checksum(b').Hash()] &&
        Start(k, window) <= updated[Checksum(b').Hash()][h(b')]
    {
      if k < n {
        StartMonotone(k, n, window);
      }
    }
  }

  /** The index built block by block describes exactly those blocks. */
  lemma {:induction false} IndexOfIndexes(source: seq<byte>, window: nat, h: Hasher, n: nat)
    requires window > 0 && (n > 0 ==> Start(n - 1, window) <= |source|)
    ensures Indexes(IndexOf(source, window, h, n), source, window, h, n)
  {
    if n > 0 {
      if n > 1 {
        StartMonotone(n - 2, n - 1, window);
      }
      IndexOfIndexes(source, window, h, n - 1);
      IndexesInsert(IndexOf(source, window, h, n - 1), source, window, h, n - 1);
    }
  }

  lemma IndexOfDescribes(source: seq<byte>, window: nat, h: Hasher, n: nat)
    requires n > 0 && Start(n - 1, window) <= |source| < Start(n - 1, window) + window
    ensures Describes(Signature(window, IndexOf(source, window, h, n)), source, h)
  {
    StartStep(n - 1, window);
    IndexOfIndexes(source, window, h, n);
  }

  /** Block `n` is the one at which the reader reports the end of the source. */
  ghost predicate IsLast(source: seq<byte>, window: nat, n: nat) {
    Start(n, window) <= |source| < Start(n, window) + window
  }

  /** The bytes read at block `n` are that source block, and leave the reader at the next one. */
  lemma SignatureStep(source: seq<byte>, window: nat, h: Hasher, n: nat, filled: seq<byte>)
    requires window > 0 && Start(n, window) <= |source|
    requires var i := Start(n, window);
      filled == source[i..][..Min(window, |source| - i)]
    ensures var i := Start(n, window);
      && IndexOf(source, window, h, n + 1) == Record(IndexOf(source, window, h, n), Checksum(filled).Hash(), h(filled), i)
      && source[i..][|filled|..] == source[i + |filled|..]
      && (|filled| == window ==> i + |filled| == Start(n + 1, window) <= |source|)
      && (|filled| < window ==> IsLast(source, window, n))
  {
    var i := Start(n, window);
    assert filled == BlockAt(source, window, i);
    StartStep(n, window);
  }

  /** Builds the signature block by block, ending with the short (possibly empty) block at which
      the reader reports the end of the data. */
  method ComputeSignature(r: Reader, block: array<byte>, h: Hasher) returns (sig: Signature)
    requires block.Length > 0
    modifies r`rest, block
    ensures sig.window == block.Length
    ensures Describes(sig, old(r.rest), h)
  {
    var window := block.Length;
    var chunks: map<nat, map<Digest, nat>> := map[];
    var i := 0;
    var eof := false;
    ghost var source := r.rest;
    ghost var n: nat := 0;
    while !eof
      invariant chunks == IndexOf(source, window, h, n)
      invariant !eof ==> i == Start(n, window) <= |source| && r.rest == source[i..]
      invariant eof ==> n > 0 && IsLast(source, window, n - 1)
      decreases !eof, |r.rest|
    {
      var j := Fill(r, block, window);
      if j < window {
        eof := true;
      }
      var filled := block[..j];
      SignatureStep(source, window, h, n, filled);
      chunks := Record(chunks, Checksum(filled).Hash(), h(filled), i);
      i := i + |filled|;
      n := n + 1;
    }
    sig := Signature(window, chunks);
    IndexOfDescribes(source, window, h, n);
  }

  // ----- Comparison -----

  function Flush(pending: seq<byte>): seq<DeltaOp> {
    if pending == [] then [] else [Literal(pending)]
  }

  /** How a signature answers for a window: the offset of a matching source block, if there is one. */
  type Matcher = seq<byte> -> Option<nat>

  function MatcherOf(sig: Signature, h: Hasher): Matcher {
    bytes => Lookup(sig, h, bytes)
  }

  /** The comparison as a function of the bytes: `rem` are the bytes from the left edge of the window
      to the end of the file, `pending` the literal bytes not emitted yet. */
  function Greedy(look: Matcher, window: nat, cap: nat, pending: seq<byte>, rem: seq<byte>): seq<DeltaOp>
    requires window > 0
    decreases |rem|
  {
    var w := rem[..Min(window, |rem|)];
    var found := look(w);
    if found.None? && w != [] then
      Due(pending + [rem[0]], cap) + Greedy(look, window, cap, Kept(pending + [rem[0]], cap), rem[1..])
    else
      Flush(pending) + (if found.Some? then [FromSource(found.value)] else []) +
      (if w == [] then [] else Greedy(look, window, cap, [], rem[|w|..]))
  }

  /** Pending literal bytes are emitted once there are `cap` of them. */
  function Due(pending: seq<byte>, cap: nat): seq<DeltaOp> {
    if |pending| >= cap then [Literal(pending)] else []
  }

  function Kept(pending: seq<byte>, cap: nat): seq<byte> {
    if |pending| >= cap then [] else pending
  }

  /** Every literal has between one and `cap` bytes, and a literal with another one behind it is full: pending
      bytes are cut at the cap and nowhere else. */
  ghost predicate Chunked(ops: seq<DeltaOp>, cap: nat) {
    forall k :: 0 <= k < |ops| && ops[k].Literal? ==>
      && 1 <= |ops[k].bytes| <= cap
      && (k + 1 < |ops| && ops[k + 1].Literal? ==> |ops[k].bytes| == cap)
  }

  lemma ChunkedCons(op: DeltaOp, more: seq<DeltaOp>, cap: nat)
    requires Chunked(more, cap)
    requires op.Literal? ==> 1 <= |op.bytes| <= cap && (more == [] || more[0].FromSource? || |op.bytes| == cap)
    ensures Chunked([op] + more, cap)
  {
  }

  lemma ChunkedDue(p: seq<byte>, more: seq<DeltaOp>, cap: nat)
    requires Chunked(more, cap) && 0 < |p| <= cap
    ensures Chunked(Due(p, cap) + more, cap)
  {
    if |p| >= cap {
      ChunkedCons(Literal(p), more, cap);
    } else {
      assert Due(p, cap) + more == more;
    }
  }

  lemma ChunkedFlush(pending: seq<byte>, more: seq<DeltaOp>, cap: nat)
    requires Chunked(more, cap) && |pending| < cap && (more == [] || more[0].FromSource?)
    ensures Chunked(Flush(pending) + more, cap)
  {
    if pending == [] {
      assert Flush(pending) + more == more;
    } else {
      ChunkedCons(Literal(pending), more, cap);
    }
  }

  /** What the comparison emits at a match, or at the end of the file. */
  lemma GreedyFlushes(look: Matcher, window: nat, cap: nat, pending: seq<byte>, rem: seq<byte>, w: seq<byte>)
    requires window > 0 && w == rem[..Min(window, |rem|)] && (look(w).Some? || w == [])
    ensures var more := if w == [] then [] else Greedy(look, window, cap, [], rem[|w|..]);
      Greedy(look, window, cap, pending, rem) == Flush(pending) + (if look(w).Some? then [FromSource(look(w).value)] + more else [])
  {
  }

  lemma {:induction false} GreedyChunked(look: Matcher, window: nat, cap: nat, pending: seq<byte>, rem: seq<byte>)
    requires window > 0 && |pending| < cap
    ensures Chunked(Greedy(look, window, cap, pending, rem), cap)
    decreases |rem|
  {
    var w := rem[..Min(window, |rem|)];
    var found := look(w);
    if found.None? && w != [] {
      var p := pending + [rem[0]];
      GreedyChunked(look, window, cap, Kept(p, cap), rem[1..]);
      ChunkedDue(p, Greedy(look, window, cap, Kept(p, cap), rem[1..]), cap);
    } else {
      GreedyFlushes(look, window, cap, pending, rem, w);
      var more: seq<DeltaOp> := [];
      if w != [] {
        more := Greedy(look, window, cap, [], rem[|w|..]);
        GreedyChunked(look, window, cap, [], rem[|w|..]);
      }
      if found.Some? {
        ChunkedCons(FromSource(found.value), more, cap);
        ChunkedFlush(pending, [FromSource(found.value)] + more, cap);
      } else {
        ChunkedFlush(pending, [], cap);
      }
    }
  }

  /** The window's bytes, oldest first, in the circular buffer. */
  function Ring(block: seq<byte>, oldest: nat, len: nat): seq<byte>
    requires oldest < |block| && len <= |block|
  {
    if oldest + len <= |block| then block[oldest..oldest + len]
    else block[oldest..] + block[..oldest + len - |block|]
  }

  function Wrap(position: nat, size: nat): nat {
    if position < size then position else position - size
  }

  /** Below twice the buffer size, the program's `%` is one conditional subtraction. */
  lemma ModIsWrap(position: nat, size: nat)
    requires 0 < size && position < size + size
    ensures position % size == Wrap(position, size)
  {
  }

  lemma RingDropOldest(block: seq<byte>, oldest: nat, len: nat)
    requires oldest < |block| && 0 < len <= |block|
    ensures |Ring(block, oldest, len)| == len && Ring(block, oldest, len)[0] == block[oldest]
    ensures Ring(block, Wrap(oldest + 1, |block|), len - 1) == Ring(block, oldest, len)[1..]
  {
    var n := |block|;
    if oldest + len <= n {
      assert oldest + 1 < n ==> block[oldest..oldest + len][1..] == block[oldest + 1..oldest + len];
    } else if oldest + 1 < n {
      assert (block[oldest..] + block[..oldest + len - n])[1..] == block[oldest + 1..] + block[..oldest + len - n];
    } else {
      assert (block[oldest..] + block[..len - 1])[1..] == block[..len - 1];
    }
  }

  lemma RingReplaceOldest(block: seq<byte>, oldest: nat, x: byte)
    requires oldest < |block|
    ensures |Ring(block, oldest, |block|)| == |block|
    ensures Ring(block[oldest := x], Wrap(oldest + 1, |block|), |block|) == Ring(block, oldest, |block|)[1..] + [x]
  {
  }

  /** Looks the window up by its rolling hash first and its strong digest second. */
  method MatchingIndex(oldest: nat, len: nat, sig: Signature, block: array<byte>, hash: Rolling, h: Hasher)
    returns (found: Option<nat>)
    requires block.Length == sig.window && oldest < sig.window && len <= sig.window
    requires hash == Checksum(Ring(block[..], oldest, len))
    ensures found == Lookup(sig, h, Ring(block[..], oldest, len))
  {
    ghost var w := Ring(block[..], oldest, len);
    if oldest + len > sig.window {
      assert w == block[oldest..] + block[..oldest + len - sig.window];
    } else {
      assert w == block[oldest..oldest + len];
    }
    if hash.Hash() in sig.chunks {
      var digest;
      if oldest + len > sig.window {
        ModIsWrap(oldest + len, sig.window);
        digest := h(block[oldest..] + block[..(oldest + len) % sig.window]);
      } else {
        digest := h(block[oldest..oldest + len]);
      }
      if digest in sig.chunks[hash.Hash()] {
        return Some(sig.chunks[hash.Hash()][digest]);
      }
    }
    found := None;
  }

  /** Moves the window's left edge one byte to the right: the slot of the oldest byte takes the next
      byte of the file or, at the end of the data, the window shrinks. `n` is what the read returned. */
  method Slide(r: Reader, block: array<byte>, oldest: nat, len: nat, hash: Rolling)
    returns (n: nat, newOldest: nat, newLen: nat, newHash: Rolling)
    requires oldest < block.Length && len <= block.Length && (len < block.Length ==> r.rest == [])
    requires hash == Checksum(Ring(block[..], oldest, len))
    modifies r`rest, block
    ensures n == Min(1, |old(r.rest)|) && r.rest == old(r.rest)[n..]
    ensures newLen == if n > 0 then len else if len > 0 then len - 1 else 0
    ensures newOldest < block.Length
    ensures len > 0 ==>
      var w := old(Ring(block[..], oldest, len));
      var w' := w[1..] + old(r.rest)[..n];
      w != [] && w[0] == old(block[oldest]) &&
      Ring(block[..], newOldest, newLen) == w' && newHash == Checksum(w')
  {
    ghost var bytes, rest := block[..], r.rest;
    ghost var w := Ring(bytes, oldest, len);
    newLen, newHash := len, hash.Remove(len, block[oldest]);
    ModIsWrap(oldest + 1, block.Length);
    newOldest := (oldest + 1) % block.Length;
    n := ReadByte(r, block, oldest);
    if len > 0 {
      RingDropOldest(bytes, oldest, len);
      RemoveOldest(w);
    }
    if n > 0 {
      newHash := newHash.Update(block[oldest]);
      RingReplaceOldest(bytes, oldest, rest[0]);
      AppendNewest(w[1..], rest[0]);
      assert rest[..1] == [rest[0]];
    } else if len > 0 {
      newLen := len - 1;
      assert w[1..] + rest[..0] == w[1..];
    }
  }

  /** The comparison of the remaining bytes, as a function of (pending, rem). The loops below carry it
      as a value, which keeps its definition out of their proofs: only `Unfold` gives access to it. */
  type Comparison = (seq<byte>, seq<byte>) -> seq<DeltaOp>

  ghost predicate Unfold(pending: seq<byte>, rem: seq<byte>) {
    true
  }

  ghost predicate IsGreedy(look: Matcher, window: nat, cap: nat, g: Comparison)
    requires window > 0
  {
    forall pending, rem {:trigger Unfold(pending, rem)} ::
      Unfold(pending, rem) ==> g(pending, rem) == Greedy(look, window, cap, pending, rem)
  }

  /** The comparison state the program has reached: what it emitted, followed by the comparison of the
      bytes not consumed yet, is the comparison `target` of the whole file. */
  ghost predicate OnTrack(g: Comparison, target: seq<DeltaOp>, ops: seq<DeltaOp>, pending: seq<byte>, rem: seq<byte>) {
    ops + g(pending, rem) == target
  }

  lemma SplitRest(x: seq<byte>, rest: seq<byte>, n: nat)
    requires n <= |rest|
    ensures (x + rest[..n]) + rest[n..] == x + rest
  {
  }

  lemma OnTrackMiss(look: Matcher, window: nat, cap: nat, g: Comparison, target: seq<DeltaOp>,
                    ops: seq<DeltaOp>, pending: seq<byte>, w: seq<byte>, rest: seq<byte>, n: nat)
    requires window > 0 && 0 < |w| <= window && (|w| < window ==> rest == [])
    requires look(w).None? && n <= |rest|
    requires IsGreedy(look, window, cap, g) && OnTrack(g, target, ops, pending, w + rest)
    ensures var p := pending + [w[0]];
      OnTrack(g, target, if |p| >= cap then ops + [Literal(p)] else ops, Kept(p, cap), (w[1..] + rest[..n]) + rest[n..])
  {
    var rem := w + rest;
    var p := pending + [w[0]];
    assert rem[..Min(window, |rem|)] == w;
    assert rem[1..] == w[1..] + rest;
    SplitRest(w[1..], rest, n);
    assert Unfold(pending, rem) && Unfold(Kept(p, cap), rem[1..]);
    Associate(ops, Due(p, cap), g(Kept(p, cap), rem[1..]));
    assert |p| < cap ==> ops + Due(p, cap) == ops;
  }

  /** What is emitted when the window matches, or when it is empty and the file is read. */
  function EmitMatch(ops: seq<DeltaOp>, pending: seq<byte>, found: Option<nat>): seq<DeltaOp> {
    var flushed := if pending == [] then ops else ops + [Literal(pending)];
    if found.Some? then flushed + [FromSource(found.value)] else flushed
  }

  lemma OnTrackMatch(look: Matcher, window: nat, cap: nat, g: Comparison, target: seq<DeltaOp>,
                     ops: seq<DeltaOp>, pending: seq<byte>, w: seq<byte>, rest: seq<byte>)
    requires window > 0 && |w| <= window && (|w| < window ==> rest == [])
    requires w == [] || look(w).Some?
    requires IsGreedy(look, window, cap, g) && OnTrack(g, target, ops, pending, w + rest)
    ensures var emitted := EmitMatch(ops, pending, look(w));
      if w == [] then emitted == target else OnTrack(g, target, emitted, [], rest)
  {
    var rem := w + rest;
    assert rem[..Min(window, |rem|)] == w;
    assert rem[|w|..] == rest;
    assert Unfold(pending, rem) && Unfold([], rest);
    var found := look(w);
    var last := if found.Some? then [FromSource(found.value)] else [];
    var tail := if w == [] then [] else g([], rest);
    assert g(pending, rem) == Flush(pending) + last + tail;
    Associate(ops, Flush(pending) + last, tail);
    Associate(ops, Flush(pending), last);
    assert ops + Flush(pending) + last == EmitMatch(ops, pending, found);
    assert EmitMatch(ops, pending, found) + [] == EmitMatch(ops, pending, found);
  }

  /** The inner loop: from a full (or final, shorter) window, moves on byte by byte to the next block
      of the source, or to the end of the file. */
  method SeekMatch(sig: Signature, r: Reader, block: array<byte>, len: nat, cap: nat, h: Hasher,
                   ghost g: Comparison, ghost target: seq<DeltaOp>, emitted: seq<DeltaOp>)
    returns (blockLen: nat, ops: seq<DeltaOp>)
    requires sig.window > 0 && block.Length == sig.window && len <= sig.window
    requires len < sig.window ==> r.rest == []
    requires IsGreedy(MatcherOf(sig, h), sig.window, cap, g) && OnTrack(g, target, emitted, [], block[..len] + r.rest)
    modifies r`rest, block
    ensures |r.rest| <= |old(r.rest)| && blockLen <= len
    ensures if blockLen == 0 then ops == target
            else OnTrack(g, target, ops, [], r.rest)
  {
    ghost var look := MatcherOf(sig, h);
    ops := emitted;
    var pending := [];
    var blockOldest: nat := 0;
    blockLen := len;
    assert block[..len] == Ring(block[..], 0, len);
    var hash := Checksum(block[..len]);
    while true
      invariant blockOldest < sig.window && blockLen <= len
      invariant blockLen < sig.window ==> r.rest == []
      invariant hash == Checksum(Ring(block[..], blockOldest, blockLen))
      invariant OnTrack(g, target, ops, pending, Ring(block[..], blockOldest, blockLen) + r.rest)
      invariant |r.rest| <= |old(r.rest)|
      decreases blockLen + |r.rest|
    {
      ghost var w, rest := Ring(block[..], blockOldest, blockLen), r.rest;
      var found := MatchingIndex(blockOldest, blockLen, sig, block, hash, h);
      if found.Some? {
        OnTrackMatch(look, sig.window, cap, g, target, ops, pending, w, rest);
        if pending != [] {
          ops := ops + [Literal(pending)];
          pending := [];
        }
        ops := ops + [FromSource(found.value)];
        break;
      }
      var oldest := block[blockOldest];
      var n, newOldest, newLen;
      n, newOldest, newLen, hash := Slide(r, block, blockOldest, blockLen, hash);
      if n == 0 && blockLen == 0 {
        OnTrackMatch(look, sig.window, cap, g, target, ops, pending, w, rest);
        break;
      }
      OnTrackMiss(look, sig.window, cap, g, target, ops, pending, w, rest, n);
      pending := pending + [oldest];
      if |pending| >= cap {
        ops := ops + [Literal(pending)];
        pending := [];
      }
      blockOldest, blockLen := newOldest, newLen;
    }
    if pending != [] {
      ops := ops + [Literal(pending)];
      pending := [];
    }
  }

  /** Slides the window over the file, refilling it after each match, until it is empty. */
  method CompareStream(sig: Signature, r: Reader, block: array<byte>, maxLiteralBytes: nat, h: Hasher)
    returns (result: Result<(), Error>, ops: seq<DeltaOp>)
    modifies r`rest, block
    ensures result.Ok? <==> sig.window > 0 && block.Length == sig.window
    ensures result.Err? ==> result.error == InvalidInput && ops == [] && r.rest == old(r.rest)
    ensures result.Ok? ==>
      var cap := if maxLiteralBytes == 0 then 1 else maxLiteralBytes;
      ops == Greedy(MatcherOf(sig, h), sig.window, cap, [], old(r.rest)) && Chunked(ops, cap)
  {
    ops := [];
    if sig.window == 0 || block.Length != sig.window {
      return Err(InvalidInput), ops;
    }
    var cap := if maxLiteralBytes < 1 then 1 else maxLiteralBytes;
    ghost var g: Comparison := (pending, rem) => Greedy(MatcherOf(sig, h), sig.window, cap, pending, rem);
    ghost var target := Greedy(MatcherOf(sig, h), sig.window, cap, [], r.rest);
    GreedyChunked(MatcherOf(sig, h), sig.window, cap, [], r.rest);
    var blockLen: nat := 1;
    assert [] + target == target;
    while blockLen > 0
      invariant if blockLen == 0 then ops == target
                else OnTrack(g, target, ops, [], r.rest)
      decreases |r.rest|, blockLen > 0
    {
      ghost var rest := r.rest;
      var j := Fill(r, block, sig.window);
      assert rest == block[..j] + r.rest;
      blockLen, ops := SeekMatch(sig, r, block, j, cap, h, g, target, ops);
    }
    result := Ok(());
  }

  /** Comparison into one delta, with no bound on literal lengths that a file can reach. */
  method Compare(sig: Signature, r: Reader, block: array<byte>, h: Hasher) returns (result: Result<Delta, Error>)
    modifies r`rest, block
    ensures result.Ok? <==> sig.window > 0 && block.Length == sig.window
    ensures result.Err? ==> result.error == InvalidInput
    ensures result.Ok? ==>
      result.value == Delta(Greedy(MatcherOf(sig, h), sig.window, USIZE_MAX, [], old(r.rest)), sig.window)
  {
    var outcome, ops := CompareStream(sig, r, block, USIZE_MAX, h);
    match outcome
    case Ok(_) => result := Ok(Delta(ops, sig.window));
    case Err(e) => result := Err(e);
  }

  // ----- Restoration -----

  /** The bytes one operation stands for. */
  function OpBytes(op: DeltaOp, source: seq<byte>, window: nat): seq<byte> {
    match op
    case FromSource(offset) => if offset <= |source| then BlockAt(source, window, offset) else []
    case Literal(bytes) => bytes
  }

  function Restored(ops: seq<DeltaOp>, source: seq<byte>, window: nat): seq<byte> {
    if ops == [] then [] else OpBytes(ops[0], source, window) + Restored(ops[1..], source, window)
  }

  /** No operation copies from beyond the end of the source. */
  ghost predicate InRange(ops: seq<DeltaOp>, source: seq<byte>) {
    forall k :: 0 <= k < |ops| && ops[k].FromSource? ==> ops[k].offset <= |source|
  }

  lemma {:induction false} RestoredAppend(xs: seq<DeltaOp>, ys: seq<DeltaOp>, source: seq<byte>, window: nat)
    ensures Restored(xs + ys, source, window) == Restored(xs, source, window) + Restored(ys, source, window)
  {
    if xs == [] {
      assert xs + ys == ys;
    } else {
      RestoredAppend(xs[1..], ys, source, window);
      assert (xs + ys)[0] == xs[0] && (xs + ys)[1..] == xs[1..] + ys;
      Associate(OpBytes(xs[0], source, window), Restored(xs[1..], source, window), Restored(ys, source, window));
    }
  }

  lemma RestoredPrefix(ops: seq<DeltaOp>, k: nat, source: seq<byte>, window: nat)
    requires k < |ops|
    ensures Restored(ops[..k + 1], source, window) == Restored(ops[..k], source, window) + OpBytes(ops[k], source, window)
  {
    assert ops[..k + 1] == ops[..k] + [ops[k]];
    RestoredAppend(ops[..k], [ops[k]], source, window);
    assert [ops[k]][1..] == [];
  }

  /** Restores from a slice, one write per operation, whose counts are ignored. Slicing past the end of the
      source panics in the program; here that is the error `OutOfRange`. */
  method Restore(w: Sink, source: seq<byte>, delta: Delta) returns (result: Result<(), Error>)
    modifies w
    ensures result.Ok? <==> InRange(delta.blocks, source)
    ensures result.Err? ==> result.error == OutOfRange
    ensures result.Ok? ==>
      |w.contents| + w.refused == |old(w.contents)| + |Restored(delta.blocks, source, delta.window)| + old(w.refused)
    ensures result.Ok? ==>
      (w.contents == old(w.contents) + Restored(delta.blocks, source, delta.window) <==> w.refused == old(w.refused))
  {
    for k := 0 to |delta.blocks|
      invariant InRange(delta.blocks[..k], source) && w.refused >= old(w.refused)
      invariant |w.contents| + w.refused == |old(w.contents)| + |Restored(delta.blocks[..k], source, delta.window)| + old(w.refused)
      invariant w.refused == old(w.refused) ==> w.contents == old(w.contents) + Restored(delta.blocks[..k], source, delta.window)
    {
      RestoredPrefix(delta.blocks, k, source, delta.window);
      Associate(old(w.contents), Restored(delta.blocks[..k], source, delta.window), OpBytes(delta.blocks[k], source, delta.window));
      var n;
      match delta.blocks[k]
      case FromSource(i) =>
        if i + delta.window <= |source| {
          n := w.Write(source[i..i + delta.window]);
        } else if i <= |source| {
          n := w.Write(source[i..]);
        } else {
          return Err(OutOfRange);
        }
      case Literal(bytes) =>
        n := w.Write(bytes);
    }
    assert delta.blocks[..|delta.blocks|] == delta.blocks;
    result := Ok(());
  }

  /** Fills `buf[..window]` from the stream, stopping when it is full or the data ends. */
  method FillFromSource(s: Reader, buf: array<byte>, window: nat) returns (n: nat)
    requires 0 < window <= buf.Length
    modifies s`rest, buf
    ensures n == Min(window, |old(s.rest)|)
    ensures buf[..n] == old(s.rest)[..n]
  {
    ghost var rest := s.rest;
    n := 0;
    while true
      invariant n < window && n <= |rest|
      invariant buf[..n] == rest[..n]
      invariant s.rest == rest[n..]
      decreases window - n
    {
      ghost var before := buf[..n];
      var count := s.Read(buf, n, window);
      if count == 0 {
        break;
      }
      assert buf[..n + count] == before + rest[n..][..count];
      assert rest[n..][count..] == rest[n + count..];
      n := n + count;
      if n == window {
        break;
      }
    }
  }

  /** Restores from a seekable stream through a buffer, whatever the short reads and short writes. */
  method RestoreSeek(w: Sink, s: Reader, buf: array<byte>, delta: Delta) returns (result: Result<(), Error>)
    modifies w, s`rest, buf
    ensures result.Ok? <==> 0 < delta.window <= buf.Length && w.stalls == old(w.stalls)
    ensures result.Ok? ==> w.contents == old(w.contents) + Restored(delta.blocks, s.data, delta.window)
    ensures result.Err? ==> result.error == if 0 < delta.window <= buf.Length then WriteZero else InvalidInput
  {
    if delta.window == 0 || buf.Length < delta.window {
      return Err(InvalidInput);
    }
    for k := 0 to |delta.blocks|
      invariant w.contents == old(w.contents) + Restored(delta.blocks[..k], s.data, delta.window)
      invariant w.stalls == old(w.stalls)
    {
      RestoredPrefix(delta.blocks, k, s.data, delta.window);
      Associate(old(w.contents), Restored(delta.blocks[..k], s.data, delta.window), OpBytes(delta.blocks[k], s.data, delta.window));
      var ok;
      match delta.blocks[k] {
      case FromSource(i) =>
        s.Seek(i);
        var n := FillFromSource(s, buf, delta.window);
        assert buf[..n] == OpBytes(delta.blocks[k], s.data, delta.window);
        ok := w.WriteAll(buf[..n]);
      case Literal(bytes) =>
        ok := w.WriteAll(bytes);
      }
      if !ok {
        return Err(WriteZero);
      }
    }
    assert delta.blocks[..|delta.blocks|] == delta.blocks;
    result := Ok(());
  }
}
