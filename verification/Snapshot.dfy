/** The two formats of the snapshot file: a headerless sequence of entries without digests, and one behind
    a magic number and a version. Integers are little-endian and of fixed width, sequences and strings are
    preceded by their length in eight bytes, options and booleans by one byte. */
module Snapshot {
  import opened Integers
  import opened Sequences
  import opened Wrappers
  import opened Entries

  type Bytes = seq<byte>

  // ----- Integers -----

  function Pow256(k: nat): (r: nat)
    ensures r > 0
  {
    if k == 0 then 1 else 256 * Pow256(k - 1)
  }

  function Le(n: nat, k: nat): (bytes: Bytes)
    ensures |bytes| == k
  {
    if k == 0 then [] else [n % 256] + Le(n / 256, k - 1)
  }

  function FromLe(bytes: Bytes): nat {
    if bytes == [] then 0 else bytes[0] + 256 * FromLe(bytes[1..])
  }

  lemma {:induction false} LeRoundTrip(n: nat, k: nat)
    requires n < Pow256(k)
    ensures FromLe(Le(n, k)) == n
  {
    if k > 0 {
      LeRoundTrip(n / 256, k - 1);
      assert Le(n, k)[1..] == Le(n / 256, k - 1);
    }
  }

  lemma {:induction false} FromLeRoundTrip(bytes: Bytes)
    ensures FromLe(bytes) < Pow256(|bytes|) && Le(FromLe(bytes), |bytes|) == bytes
  {
    if bytes != [] {
      FromLeRoundTrip(bytes[1..]);
      var tail := FromLe(bytes[1..]);
      assert FromLe(bytes) % 256 == bytes[0] && FromLe(bytes) / 256 == tail;
    }
  }

  lemma Widths()
    ensures Pow256(4) == 0x1_0000_0000 && Pow256(8) == 0x1_0000_0000_0000_0000
  {
    assert Pow256(1) == 0x100;
    assert Pow256(2) == 0x1_0000;
    assert Pow256(3) == 0x100_0000;
    assert Pow256(5) == 0x100_0000_0000;
    assert Pow256(6) == 0x1_0000_0000_0000;
    assert Pow256(7) == 0x100_0000_0000_0000;
  }

  // ----- Entries -----

  predicate IsTail(b: byte) {
    0x80 <= b <= 0xBF
  }

  /** The length of the character that starts `bytes`, by the syntax of section 4 of RFC 3629; zero when
      there is none. */
  function CharLength(bytes: Bytes): (n: nat)
    ensures n <= |bytes|
  {
    if |bytes| >= 1 && bytes[0] <= 0x7F then 1
    else if |bytes| >= 2 && 0xC2 <= bytes[0] <= 0xDF && IsTail(bytes[1]) then 2
    else if |bytes| >= 3 && 0xE0 <= bytes[0] <= 0xEF && IsTail(bytes[1]) && IsTail(bytes[2])
      && (bytes[0] == 0xE0 ==> bytes[1] >= 0xA0) && (bytes[0] == 0xED ==> bytes[1] <= 0x9F) then 3
    else if |bytes| >= 4 && 0xF0 <= bytes[0] <= 0xF4 && IsTail(bytes[1]) && IsTail(bytes[2]) && IsTail(bytes[3])
      && (bytes[0] == 0xF0 ==> bytes[1] >= 0x90) && (bytes[0] == 0xF4 ==> bytes[1] <= 0x8F) then 4
    else 0
  }

  predicate IsUtf8(bytes: Bytes) {
    bytes == [] || (CharLength(bytes) > 0 && IsUtf8(bytes[CharLength(bytes)..]))
  }

  /** The numbers of characters: section 3 of RFC 3629 leaves out the surrogates. */
  predicate IsCharacter(c: int) {
    0 <= c <= 0xD7FF || 0xE000 <= c <= 0x10FFFF
  }

  /** The table of that section: how many bytes a character takes, and how its bits are spread over them. */
  function Utf8(c: int): Bytes
    requires IsCharacter(c)
  {
    if c < 0x80 then [c]
    else if c < 0x800 then [0xC0 + c / 0x40, 0x80 + c % 0x40]
    else if c < 0x1_0000 then [0xE0 + c / 0x40 / 0x40, 0x80 + c / 0x40 % 0x40, 0x80 + c % 0x40]
    else [0xF0 + c / 0x40 / 0x40 / 0x40, 0x80 + c / 0x40 / 0x40 % 0x40, 0x80 + c / 0x40 % 0x40, 0x80 + c % 0x40]
  }

  type Characters = cs: seq<int> | forall i :: 0 <= i < |cs| ==> IsCharacter(cs[i]) witness []

  function Encoded(cs: Characters): Bytes {
    if cs == [] then [] else Utf8(cs[0]) + Encoded(cs[1..])
  }

  lemma CharacterRead(c: int, rest: Bytes)
    requires IsCharacter(c)
    ensures CharLength(Utf8(c) + rest) == |Utf8(c)|
  {
  }

  /** The low bits of a byte, after its leading mark. */
  function Bits(b: byte, mark: int): int {
    b as int - mark
  }

  /** The character that the first bytes stand for. */
  function Decoded(bytes: Bytes): int
    requires CharLength(bytes) > 0
  {
    match CharLength(bytes)
    case 1 => bytes[0]
    case 2 => Bits(bytes[0], 0xC0) * 0x40 + Bits(bytes[1], 0x80)
    case 3 => (Bits(bytes[0], 0xE0) * 0x40 + Bits(bytes[1], 0x80)) * 0x40 + Bits(bytes[2], 0x80)
    case _ => ((Bits(bytes[0], 0xF0) * 0x40 + Bits(bytes[1], 0x80)) * 0x40 + Bits(bytes[2], 0x80)) * 0x40 + Bits(bytes[3], 0x80)
  }

  lemma LowBits(high: int, low: int)
    requires 0 <= low < 0x40
    ensures (high * 0x40 + low) / 0x40 == high && (high * 0x40 + low) % 0x40 == low
  {
  }

  lemma CharacterWritten(bytes: Bytes)
    requires CharLength(bytes) > 0
    ensures IsCharacter(Decoded(bytes)) && Utf8(Decoded(bytes)) == bytes[..CharLength(bytes)]
  {
    var n := CharLength(bytes);
    if n == 2 {
      LowBits(Bits(bytes[0], 0xC0), Bits(bytes[1], 0x80));
    } else if n == 3 {
      LowBits(Bits(bytes[0], 0xE0), Bits(bytes[1], 0x80));
      LowBits(Bits(bytes[0], 0xE0) * 0x40 + Bits(bytes[1], 0x80), Bits(bytes[2], 0x80));
    } else if n == 4 {
      var high := Bits(bytes[0], 0xF0) * 0x40 + Bits(bytes[1], 0x80);
      LowBits(Bits(bytes[0], 0xF0), Bits(bytes[1], 0x80));
      LowBits(high, Bits(bytes[2], 0x80));
      LowBits(high * 0x40 + Bits(bytes[2], 0x80), Bits(bytes[3], 0x80));
    }
  }

  lemma {:induction false} EncodedIsUtf8(cs: Characters)
    ensures IsUtf8(Encoded(cs))
  {
    if cs != [] {
      EncodedIsUtf8(cs[1..]);
      CharacterRead(cs[0], Encoded(cs[1..]));
      assert Encoded(cs)[|Utf8(cs[0])|..] == Encoded(cs[1..]);
    }
  }

  lemma {:induction false} Utf8IsEncoded(bytes: Bytes) returns (cs: Characters)
    requires IsUtf8(bytes)
    ensures Encoded(cs) == bytes
  {
    if bytes == [] {
      cs := [];
    } else {
      var n := CharLength(bytes);
      var rest := Utf8IsEncoded(bytes[n..]);
      CharacterWritten(bytes);
      cs := [Decoded(bytes)] + rest;
      assert cs[1..] == rest;
      assert bytes == bytes[..n] + bytes[n..];
    }
  }

  /** The test on bytes accepts exactly the encodings of sequences of characters: no overlong form, no
      surrogate, nothing beyond the last character and no sequence cut short. */
  lemma Utf8IsExact(bytes: Bytes)
    ensures IsUtf8(bytes) <==> exists cs: Characters :: Encoded(cs) == bytes
  {
    if IsUtf8(bytes) {
      var cs := Utf8IsEncoded(bytes);
    }
    if cs: Characters :| Encoded(cs) == bytes {
      EncodedIsUtf8(cs);
    }
  }

  /** What fits an in-memory string: it is encoded in UTF-8, and its length is a 64-bit number. */
  type Text = s: Bytes | |s| < 0x1_0000_0000_0000_0000 && IsUtf8(s) witness []

  /** An entry as it is stored: paths are encoded strings. */
  datatype Stored = Stored(path: Text, size: u64, mtime: i64, ino: u64, mode: u32, target: Option<Text>, isDir: bool,
                           checksum: u32, digest: Option<ContentDigest>)

  type Sized<T> = es: seq<T> | |es| < 0x1_0000_0000_0000_0000 witness []

  type StoredEntries = Sized<Stored>

  function PutU64(n: u64): Bytes {
    Le(n, 8)
  }

  function PutU32(n: u32): Bytes {
    Le(n, 4)
  }

  function PutI64(n: i64): Bytes {
    Le(if n < 0 then n + 0x1_0000_0000_0000_0000 else n, 8)
  }

  function PutText(s: Text): Bytes {
    PutU64(|s|) + s
  }

  function PutBool(b: bool): Bytes {
    [if b then 1 else 0]
  }

  function PutTarget(t: Option<Text>): Bytes {
    if t.None? then [0] else [1] + PutText(t.value)
  }

  function PutDigest(d: Option<ContentDigest>): Bytes {
    if d.None? then [0] else [1] + d.value
  }

  function PutEntry(format: SnapshotFormat, e: Stored): Bytes {
    PutText(e.path) + (PutU64(e.size) + (PutI64(e.mtime) + (PutU64(e.ino) + (PutU32(e.mode) + (PutTarget(e.target) +
    (PutBool(e.isDir) + (PutU32(e.checksum) + (if format.V2? then PutDigest(e.digest) else []))))))))
  }

  function PutMany<T>(put: T -> Bytes, es: seq<T>): Bytes {
    if es == [] then [] else put(es[0]) + PutMany(put, es[1..])
  }

  function EntryWriter(format: SnapshotFormat): (put: Stored -> Bytes)
    ensures forall e :: put(e) == PutEntry(format, e)
  {
    (e: Stored) => PutEntry(format, e)
  }

  function PutCounted<T>(put: T -> Bytes, es: Sized<T>): Bytes {
    PutU64(|es|) + PutMany(put, es)
  }

  function PutVector(format: SnapshotFormat, es: StoredEntries): Bytes {
    PutCounted(EntryWriter(format), es)
  }

  // ----- Reading: each reader takes its part off the front -----

  datatype Parsed<+T> = Parsed(value: T, rest: Bytes)

  type Read<+T> = Option<Parsed<T>>

  function GetLe(k: nat, bs: Bytes): Read<nat> {
    if |bs| < k then None else Some(Parsed(FromLe(bs[..k]), bs[k..]))
  }

  function GetU64(bs: Bytes): Read<u64> {
    var r := GetLe(8, bs);
    if r.None? then None
    else
      FromLeRoundTrip(bs[..8]);
      Widths();
      var n: u64 := r.value.value;
      Some(Parsed(n, r.value.rest))
  }

  function GetU32(bs: Bytes): Read<u32> {
    var r := GetLe(4, bs);
    if r.None? then None
    else
      FromLeRoundTrip(bs[..4]);
      Widths();
      var n: u32 := r.value.value;
      Some(Parsed(n, r.value.rest))
  }

  function GetI64(bs: Bytes): Read<i64> {
    var r := GetU64(bs);
    if r.None? then None
    else
      var n: int := r.value.value;
      var i: i64 := if n < 0x8000_0000_0000_0000 then n else n - 0x1_0000_0000_0000_0000;
      Some(Parsed(i, r.value.rest))
  }

  function GetText(bs: Bytes): Read<Text> {
    var n := GetU64(bs);
    if n.None? || |n.value.rest| < n.value.value || !IsUtf8(n.value.rest[..n.value.value]) then None
    else
      var text: Text := n.value.rest[..n.value.value];
      Some(Parsed(text, n.value.rest[n.value.value..]))
  }

  function GetBool(bs: Bytes): Read<bool> {
    if bs == [] || bs[0] > 1 then None else Some(Parsed(bs[0] == 1, bs[1..]))
  }

  function GetTarget(bs: Bytes): Read<Option<Text>> {
    if bs == [] || bs[0] > 1 then None
    else if bs[0] == 0 then Some(Parsed(None, bs[1..]))
    else
      var t := GetText(bs[1..]);
      if t.None? then None else Some(Parsed(Some(t.value.value), t.value.rest))
  }

  function GetDigest(bs: Bytes): Read<Option<ContentDigest>> {
    if bs == [] || bs[0] > 1 then None
    else if bs[0] == 0 then Some(Parsed(None, bs[1..]))
    else if |bs| < 33 then None
    else
      var digest: ContentDigest := bs[1..33];
      Some(Parsed(Some(digest), bs[33..]))
  }

  function GetEntry(format: SnapshotFormat, bs: Bytes): Read<Stored> {
    var path := GetText(bs);
    if path.None? then None
    else
      var size := GetU64(path.value.rest);
      if size.None? then None
      else
        var mtime := GetI64(size.value.rest);
        if mtime.None? then None
        else
          var ino := GetU64(mtime.value.rest);
          if ino.None? then None
          else
            var mode := GetU32(ino.value.rest);
            if mode.None? then None
            else
              var target := GetTarget(mode.value.rest);
              if target.None? then None
              else
                var isDir := GetBool(target.value.rest);
                if isDir.None? then None
                else
                  var checksum := GetU32(isDir.value.rest);
                  if checksum.None? then None
                  else
                    var digest := if format.V2? then GetDigest(checksum.value.rest) else Some(Parsed(None, checksum.value.rest));
                    if digest.None? then None
                    else
                      Some(Parsed(Stored(path.value.value, size.value.value, mtime.value.value, ino.value.value, mode.value.value,
                                         target.value.value, isDir.value.value, checksum.value.value, digest.value.value),
                                  digest.value.rest))
  }

  function GetMany<T>(get: Bytes -> Read<T>, n: nat, bs: Bytes): Read<seq<T>> {
    if n == 0 then Some(Parsed([], bs))
    else
      var e := get(bs);
      if e.None? then None
      else
        var es := GetMany(get, n - 1, e.value.rest);
        if es.None? then None else Some(Parsed([e.value.value] + es.value.value, es.value.rest))
  }

  function EntryReader(format: SnapshotFormat): (get: Bytes -> Read<Stored>)
    ensures forall bs :: get(bs) == GetEntry(format, bs)
  {
    (bs: Bytes) => GetEntry(format, bs)
  }

  function GetCounted<T>(get: Bytes -> Read<T>, bs: Bytes): Read<seq<T>> {
    var n := GetU64(bs);
    if n.None? then None else GetMany(get, n.value.value, n.value.rest)
  }

  function GetVector(format: SnapshotFormat, bs: Bytes): Read<seq<Stored>> {
    GetCounted(EntryReader(format), bs)
  }

  // ----- Each reader is the exact inverse of its writer -----

  lemma SplitAt(front: Bytes, rest: Bytes)
    ensures (front + rest)[..|front|] == front && (front + rest)[|front|..] == rest
  {
  }

  lemma LeInverse(k: nat, bs: Bytes, n: nat, rest: Bytes)
    requires n < Pow256(k)
    ensures GetLe(k, bs) == Some(Parsed(n, rest)) <==> bs == Le(n, k) + rest
  {
    var front := Le(n, k);
    if bs == front + rest {
      SplitAt(front, rest);
      LeRoundTrip(n, k);
    }
    if GetLe(k, bs) == Some(Parsed(n, rest)) {
      FromLeRoundTrip(bs[..k]);
      assert bs == bs[..k] + bs[k..];
    }
  }

  lemma U64Inverse(bs: Bytes, n: u64, rest: Bytes)
    ensures GetU64(bs) == Some(Parsed(n, rest)) <==> bs == PutU64(n) + rest
  {
    Widths();
    LeInverse(8, bs, n, rest);
  }

  lemma U32Inverse(bs: Bytes, n: u32, rest: Bytes)
    ensures GetU32(bs) == Some(Parsed(n, rest)) <==> bs == PutU32(n) + rest
  {
    Widths();
    LeInverse(4, bs, n, rest);
  }

  lemma I64Inverse(bs: Bytes, n: i64, rest: Bytes)
    ensures GetI64(bs) == Some(Parsed(n, rest)) <==> bs == PutI64(n) + rest
  {
    Widths();
    var u: u64 := if n < 0 then n + 0x1_0000_0000_0000_0000 else n;
    U64Inverse(bs, u, rest);
  }

  lemma TextInverse(bs: Bytes, t: Text, rest: Bytes)
    ensures GetText(bs) == Some(Parsed(t, rest)) <==> bs == PutText(t) + rest
  {
    U64Inverse(bs, |t|, t + rest);
    Associate(PutU64(|t|), t, rest);
    var n := GetU64(bs);
    if n.Some? && |n.value.rest| >= n.value.value {
      assert n.value.rest == n.value.rest[..n.value.value] + n.value.rest[n.value.value..];
    }
    if bs == PutText(t) + rest {
      assert (t + rest)[..|t|] == t && (t + rest)[|t|..] == rest;
    }
  }

  lemma BoolInverse(bs: Bytes, b: bool, rest: Bytes)
    ensures GetBool(bs) == Some(Parsed(b, rest)) <==> bs == PutBool(b) + rest
  {
  }

  lemma TargetInverse(bs: Bytes, t: Option<Text>, rest: Bytes)
    ensures GetTarget(bs) == Some(Parsed(t, rest)) <==> bs == PutTarget(t) + rest
  {
    if bs != [] {
      assert bs == [bs[0]] + bs[1..];
    }
    if t.Some? {
      Associate([1], PutText(t.value), rest);
      if bs != [] {
        TextInverse(bs[1..], t.value, rest);
      }
    }
  }

  lemma DigestInverse(bs: Bytes, d: Option<ContentDigest>, rest: Bytes)
    ensures GetDigest(bs) == Some(Parsed(d, rest)) <==> bs == PutDigest(d) + rest
  {
  }

  function PutLast(format: SnapshotFormat, e: Stored): Bytes {
    if format.V2? then PutDigest(e.digest) else []
  }

  /** The bytes of an entry in front of others, grouped from the right. */
  function Before(format: SnapshotFormat, e: Stored, rest: Bytes): Bytes {
    PutText(e.path) + (PutU64(e.size) + (PutI64(e.mtime) + (PutU64(e.ino) + (PutU32(e.mode) + (PutTarget(e.target) +
    (PutBool(e.isDir) + (PutU32(e.checksum) + (PutLast(format, e) + rest))))))))
  }

  lemma RegroupEntry(format: SnapshotFormat, e: Stored, rest: Bytes)
    ensures PutEntry(format, e) + rest == Before(format, e, rest)
  {
  }

  /** What a format can hold of an entry. */
  function Erase(format: SnapshotFormat, e: Stored): Stored {
    if format.V2? then e else e.(digest := None)
  }

  lemma LastInverse(format: SnapshotFormat, bs: Bytes, e: Stored, rest: Bytes)
    requires e == Erase(format, e)
    ensures (if format.V2? then GetDigest(bs) else Some(Parsed(None, bs))) == Some(Parsed(e.digest, rest))
      <==> bs == PutLast(format, e) + rest
  {
    DigestInverse(bs, e.digest, rest);
    assert [] + rest == rest;
  }

  lemma EntryWritten(format: SnapshotFormat, e: Stored, rest: Bytes)
    requires e == Erase(format, e)
    ensures GetEntry(format, Before(format, e, rest)) == Some(Parsed(e, rest))
  {
    var t9 := PutLast(format, e) + rest;
    var t8 := PutU32(e.checksum) + t9;
    var t7 := PutBool(e.isDir) + t8;
    var t6 := PutTarget(e.target) + t7;
    var t5 := PutU32(e.mode) + t6;
    var t4 := PutU64(e.ino) + t5;
    var t3 := PutI64(e.mtime) + t4;
    var t2 := PutU64(e.size) + t3;
    TextInverse(PutText(e.path) + t2, e.path, t2);
    U64Inverse(t2, e.size, t3);
    I64Inverse(t3, e.mtime, t4);
    U64Inverse(t4, e.ino, t5);
    U32Inverse(t5, e.mode, t6);
    TargetInverse(t6, e.target, t7);
    BoolInverse(t7, e.isDir, t8);
    U32Inverse(t8, e.checksum, t9);
    LastInverse(format, t9, e, rest);
  }

  lemma EntryRead(format: SnapshotFormat, bs: Bytes)
    ensures GetEntry(format, bs).Some? ==>
      var e := GetEntry(format, bs).value.value;
      e == Erase(format, e) && bs == Before(format, e, GetEntry(format, bs).value.rest)
  {
    if GetEntry(format, bs).Some? {
      var e, rest := GetEntry(format, bs).value.value, GetEntry(format, bs).value.rest;
      var t2 := GetText(bs).value.rest;
      var t3 := GetU64(t2).value.rest;
      var t4 := GetI64(t3).value.rest;
      var t5 := GetU64(t4).value.rest;
      var t6 := GetU32(t5).value.rest;
      var t7 := GetTarget(t6).value.rest;
      var t8 := GetBool(t7).value.rest;
      var t9 := GetU32(t8).value.rest;
      TextInverse(bs, e.path, t2);
      U64Inverse(t2, e.size, t3);
      I64Inverse(t3, e.mtime, t4);
      U64Inverse(t4, e.ino, t5);
      U32Inverse(t5, e.mode, t6);
      TargetInverse(t6, e.target, t7);
      BoolInverse(t7, e.isDir, t8);
      U32Inverse(t8, e.checksum, t9);
      LastInverse(format, t9, e, rest);
    }
  }

  lemma EntryInverse(format: SnapshotFormat, bs: Bytes, e: Stored, rest: Bytes)
    ensures GetEntry(format, bs) == Some(Parsed(e, rest)) <==> e == Erase(format, e) && bs == PutEntry(format, e) + rest
  {
    RegroupEntry(format, e, rest);
    EntryRead(format, bs);
    if e == Erase(format, e) {
      EntryWritten(format, e, rest);
    }
  }

  ghost predicate Fits(format: SnapshotFormat, es: seq<Stored>) {
    forall i :: 0 <= i < |es| ==> es[i] == Erase(format, es[i])
  }

  /** `get` reads exactly what `put` writes for the values in `ok`. */
  ghost predicate Inverse<T(!new)>(get: Bytes -> Read<T>, put: T -> Bytes, ok: T -> bool) {
    forall bs, e, rest :: get(bs) == Some(Parsed(e, rest)) <==> ok(e) && bs == put(e) + rest
  }

  lemma {:induction false} ManyInverse<T(!new)>(get: Bytes -> Read<T>, put: T -> Bytes, ok: T -> bool, n: nat, bs: Bytes, es: seq<T>, rest: Bytes)
    requires Inverse(get, put, ok) && n == |es|
    ensures GetMany(get, n, bs) == Some(Parsed(es, rest)) <==> (forall i :: 0 <= i < n ==> ok(es[i])) && bs == PutMany(put, es) + rest
    decreases n
  {
    if n == 0 {
      assert [] + rest == rest;
    } else {
      var tail := PutMany(put, es[1..]) + rest;
      Associate(put(es[0]), PutMany(put, es[1..]), rest);
      assert es == [es[0]] + es[1..];
      ManyInverse(get, put, ok, n - 1, tail, es[1..], rest);
      assert get(bs) == Some(Parsed(es[0], tail)) <==> ok(es[0]) && bs == put(es[0]) + tail;
      if get(bs).Some? {
        ManyInverse(get, put, ok, n - 1, get(bs).value.rest, es[1..], rest);
      }
      assert (forall i :: 0 <= i < n ==> ok(es[i])) <==> ok(es[0]) && forall i :: 0 <= i < n - 1 ==> ok(es[1..][i]);
    }
  }

  lemma {:induction false} ManyCount<T>(get: Bytes -> Read<T>, n: nat, bs: Bytes)
    ensures GetMany(get, n, bs).Some? ==> |GetMany(get, n, bs).value.value| == n
    decreases n
  {
    if n > 0 && get(bs).Some? {
      ManyCount(get, n - 1, get(bs).value.rest);
    }
  }

  lemma CountedInverse<T(!new)>(get: Bytes -> Read<T>, put: T -> Bytes, ok: T -> bool, bs: Bytes, es: Sized<T>, rest: Bytes)
    requires Inverse(get, put, ok)
    ensures GetCounted(get, bs) == Some(Parsed(es, rest)) <==> (forall i :: 0 <= i < |es| ==> ok(es[i])) && bs == PutCounted(put, es) + rest
  {
    var n := GetU64(bs);
    var tail := PutMany(put, es) + rest;
    Associate(PutU64(|es|), PutMany(put, es), rest);
    U64Inverse(bs, |es|, tail);
    ManyInverse(get, put, ok, |es|, tail, es, rest);
    if n.Some? {
      ManyCount(get, n.value.value, n.value.rest);
      U64Inverse(bs, n.value.value, n.value.rest);
      if n.value.value == |es| {
        ManyInverse(get, put, ok, |es|, n.value.rest, es, rest);
      }
    }
  }

  lemma VectorInverse(format: SnapshotFormat, bs: Bytes, es: StoredEntries, rest: Bytes)
    ensures GetVector(format, bs) == Some(Parsed(es, rest)) <==> Fits(format, es) && bs == PutVector(format, es) + rest
  {
    var get, put, ok := EntryReader(format), EntryWriter(format), (e: Stored) => e == Erase(format, e);
    forall bs, e, rest
      ensures get(bs) == Some(Parsed(e, rest)) <==> ok(e) && bs == put(e) + rest
    {
      EntryInverse(format, bs, e, rest);
    }
    CountedInverse(get, put, ok, bs, es, rest);
  }

  lemma VectorCount(format: SnapshotFormat, bs: Bytes)
    ensures GetVector(format, bs).Some? ==> |GetVector(format, bs).value.value| < 0x1_0000_0000_0000_0000
  {
    if GetU64(bs).Some? {
      ManyCount(EntryReader(format), GetU64(bs).value.value, GetU64(bs).value.rest);
    }
  }

  // ----- The file -----

  /** `DUETSNP` and a zero byte. */
  const MAGIC: Bytes := [0x44, 0x55, 0x45, 0x54, 0x53, 0x4E, 0x50, 0x00]

  const VERSION_V2: byte := 2

  datatype Loaded = Loaded(entries: seq<Stored>, format: SnapshotFormat)

  datatype DecodeError = TruncatedHeader | UnsupportedVersion(version: byte) | Malformed | TrailingBytes

  function Finish(read: Read<seq<Stored>>, format: SnapshotFormat): Result<Loaded, DecodeError> {
    if read.None? then Err(Malformed)
    else if read.value.rest != [] then Err(TrailingBytes)
    else Ok(Loaded(read.value.value, format))
  }

  function DecodeEntries(contents: Bytes): Result<Loaded, DecodeError> {
    if MAGIC <= contents then
      if |contents| == |MAGIC| then Err(TruncatedHeader)
      else if contents[|MAGIC|] != VERSION_V2 then Err(UnsupportedVersion(contents[|MAGIC|]))
      else Finish(GetVector(V2, contents[|MAGIC| + 1..]), V2)
    else Finish(GetVector(LegacyV1, contents), LegacyV1)
  }

  function Encode(format: SnapshotFormat, es: StoredEntries): Bytes {
    if format.V2? then (MAGIC + [VERSION_V2]) + PutVector(V2, es) else PutVector(LegacyV1, es)
  }

  class Writer {
    var contents: Bytes

    constructor ()
      ensures contents == []
    {
      contents := [];
    }

    method WriteAll(bytes: Bytes)
      modifies this
      ensures contents == old(contents) + bytes
    {
      contents := contents + bytes;
    }

    method WriteVector(es: StoredEntries, format: SnapshotFormat)
      modifies this
      ensures contents == old(contents) + PutVector(format, es)
    {
      WriteAll(PutU64(|es|));
      ghost var put := EntryWriter(format);
      assert es[0..] == es;
      Associate(old(contents), PutU64(|es|), PutMany(put, es));
      for i := 0 to |es|
        invariant contents + PutMany(put, es[i..]) == old(contents) + PutVector(format, es)
      {
        assert es[i..][0] == es[i] && es[i..][1..] == es[i + 1..];
        Associate(contents, PutEntry(format, es[i]), PutMany(put, es[i + 1..]));
        WriteAll(PutEntry(format, es[i]));
      }
    }

    method WriteEntries(es: StoredEntries, format: SnapshotFormat)
      modifies this
      ensures contents == old(contents) + Encode(format, es)
    {
      if format.LegacyV1? {
        var legacy: StoredEntries := Erased(es);
        ErasedSame(es);
        WriteVector(legacy, LegacyV1);
      } else {
        WriteAll(MAGIC);
        WriteAll([VERSION_V2]);
        WriteVector(es, V2);
        Associate(old(contents), MAGIC, [VERSION_V2]);
        Associate(old(contents), MAGIC + [VERSION_V2], PutVector(V2, es));
      }
    }
  }

  /** The entries as the legacy format keeps them. */
  function Erased(es: StoredEntries): (r: StoredEntries)
    ensures |r| == |es| && Fits(LegacyV1, r)
  {
    seq(|es|, i requires 0 <= i < |es| => Erase(LegacyV1, es[i]))
  }

  lemma {:induction false} SameWrites<T>(put: T -> Bytes, xs: seq<T>, ys: seq<T>)
    requires |xs| == |ys| && forall i :: 0 <= i < |xs| ==> put(xs[i]) == put(ys[i])
    ensures PutMany(put, xs) == PutMany(put, ys)
  {
    if xs != [] {
      SameWrites(put, xs[1..], ys[1..]);
    }
  }

  /** Digests are not written in the legacy format. */
  lemma ErasedSame(es: StoredEntries)
    ensures PutVector(LegacyV1, Erased(es)) == PutVector(LegacyV1, es)
  {
    SameWrites(EntryWriter(LegacyV1), Erased(es), es);
  }

  /** The magic number, read as the count of a legacy snapshot. */
  const MAGIC_COUNT: u64 := 0x0050_4E53_5445_5544

  lemma MagicIsCount()
    ensures MAGIC == PutU64(MAGIC_COUNT)
  {
    assert Le(0, 0) == [];
    assert Le(0x00, 1) == [0x00];
    assert Le(0x0050, 2) == [0x50, 0x00];
    assert Le(0x00_504E, 3) == [0x4E, 0x50, 0x00];
    assert Le(0x0050_4E53, 4) == [0x53, 0x4E, 0x50, 0x00];
    assert Le(0x00_504E_5354, 5) == [0x54, 0x53, 0x4E, 0x50, 0x00];
    assert Le(0x0050_4E53_5445, 6) == [0x45, 0x54, 0x53, 0x4E, 0x50, 0x00];
    assert Le(0x00_504E_5354_4555, 7) == [0x55, 0x45, 0x54, 0x53, 0x4E, 0x50, 0x00];
  }

  lemma LeInjective(m: nat, n: nat, k: nat)
    requires m < Pow256(k) && n < Pow256(k) && Le(m, k) == Le(n, k)
    ensures m == n
  {
    LeRoundTrip(m, k);
    LeRoundTrip(n, k);
  }

  lemma PrefixOfSameLength(a: Bytes, b: Bytes, rest: Bytes)
    requires |a| == |b|
    ensures a <= b + rest <==> a == b
  {
  }

  lemma PrefixIsCount(n: u64, rest: Bytes)
    ensures MAGIC <= PutU64(n) + rest <==> n == MAGIC_COUNT
  {
    MagicIsCount();
    Widths();
    PrefixOfSameLength(PutU64(MAGIC_COUNT), PutU64(n), rest);
    if PutU64(MAGIC_COUNT) == PutU64(n) {
      LeInjective(MAGIC_COUNT, n, 8);
    }
  }

  /** A legacy snapshot is taken for a version 2 one exactly when it has that many entries. */
  lemma LegacyTakenForV2(es: StoredEntries)
    ensures MAGIC <= Encode(LegacyV1, es) <==> |es| == MAGIC_COUNT
  {
    PrefixIsCount(|es|, PutMany(EntryWriter(LegacyV1), es));
  }

  lemma FinishWritten(format: SnapshotFormat, es: StoredEntries)
    requires Fits(format, es)
    ensures Finish(GetVector(format, PutVector(format, es)), format) == Ok(Loaded(es, format))
  {
    assert PutVector(format, es) + [] == PutVector(format, es);
    VectorInverse(format, PutVector(format, es), es, []);
  }

  /** Decoding what was written in version 2 returns the same entries. */
  lemma RoundTripV2(es: StoredEntries)
    ensures DecodeEntries(Encode(V2, es)) == Ok(Loaded(es, V2))
  {
    HeaderInFront(PutVector(V2, es));
    FinishWritten(V2, es);
  }

  lemma HeaderInFront(payload: Bytes)
    ensures var contents := (MAGIC + [VERSION_V2]) + payload;
      MAGIC <= contents && |contents| > |MAGIC| && contents[|MAGIC|] == VERSION_V2 && contents[|MAGIC| + 1..] == payload
  {
  }

  /** Decoding what was written in the legacy format returns the entries without their digests, if and
      only if their number is not the magic one. */
  lemma RoundTripLegacy(es: StoredEntries)
    ensures DecodeEntries(Encode(LegacyV1, es)) == Ok(Loaded(Erased(es), LegacyV1)) <==> |es| != MAGIC_COUNT
  {
    LegacyTakenForV2(es);
    ErasedSame(es);
    FinishWritten(LegacyV1, Erased(es));
  }

  lemma FinishInverse(format: SnapshotFormat, payload: Bytes)
    requires Finish(GetVector(format, payload), format).Ok?
    ensures var loaded := Finish(GetVector(format, payload), format).value;
      && loaded.format == format && |loaded.entries| < 0x1_0000_0000_0000_0000 && Fits(format, loaded.entries)
      && payload == PutVector(format, loaded.entries)
  {
    VectorCount(format, payload);
    VectorInverse(format, payload, GetVector(format, payload).value.value, []);
  }

  /** Where the payload of a version 2 snapshot starts, and that more input does not move it. */
  lemma Header(contents: Bytes, more: Bytes)
    requires MAGIC <= contents && |contents| > |MAGIC|
    ensures contents == (MAGIC + [contents[|MAGIC|]]) + contents[|MAGIC| + 1..]
    ensures MAGIC <= contents + more && (contents + more)[|MAGIC|] == contents[|MAGIC|]
    ensures (contents + more)[|MAGIC| + 1..] == contents[|MAGIC| + 1..] + more
  {
  }

  lemma NoHeader(contents: Bytes, more: Bytes)
    requires !(MAGIC <= contents) && |contents| >= |MAGIC|
    ensures !(MAGIC <= contents + more)
  {
  }

  /** Nothing else is accepted: whatever decodes is exactly what writing the result gives. */
  lemma OnlyWritesDecode(contents: Bytes)
    requires DecodeEntries(contents).Ok?
    ensures var loaded := DecodeEntries(contents).value;
      && |loaded.entries| < 0x1_0000_0000_0000_0000 && Fits(loaded.format, loaded.entries)
      && contents == Encode(loaded.format, loaded.entries)
  {
    if MAGIC <= contents {
      Header(contents, []);
      FinishInverse(V2, contents[|MAGIC| + 1..]);
    } else {
      FinishInverse(LegacyV1, contents);
    }
  }

  lemma FinishMore(format: SnapshotFormat, payload: Bytes, more: Bytes)
    requires Finish(GetVector(format, payload), format).Ok? && more != []
    ensures Finish(GetVector(format, payload + more), format) == Err(TrailingBytes)
    ensures |payload| >= 8
  {
    FinishInverse(format, payload);
    VectorInverse(format, payload + more, GetVector(format, payload).value.value, more);
  }

  /** Truncated or trailing input is rejected: no snapshot is a proper prefix of another one. */
  lemma NoSnapshotInsideAnother(contents: Bytes, more: Bytes)
    requires DecodeEntries(contents).Ok? && more != []
    ensures DecodeEntries(contents + more) == Err(TrailingBytes)
  {
    if MAGIC <= contents {
      Header(contents, more);
      FinishMore(V2, contents[|MAGIC| + 1..], more);
    } else {
      FinishMore(LegacyV1, contents, more);
      NoHeader(contents, more);
    }
  }

  /** A snapshot with a path that is not UTF-8 is rejected as malformed, in either format. */
  lemma InvalidPathIsRejected(format: SnapshotFormat, path: Bytes, rest: Bytes, count: u64)
    requires |path| < 0x1_0000_0000_0000_0000 && !IsUtf8(path) && 0 < count && count != MAGIC_COUNT
    ensures var body := PutU64(count) + (PutU64(|path|) + (path + rest));
      DecodeEntries(if format.V2? then (MAGIC + [VERSION_V2]) + body else body) == Err(Malformed)
  {
    var entry := PutU64(|path|) + (path + rest);
    var body := PutU64(count) + entry;
    U64Inverse(body, count, entry);
    U64Inverse(entry, |path|, path + rest);
    assert (path + rest)[..|path|] == path;
    assert GetEntry(format, entry) == None;
    if format.V2? {
      HeaderInFront(body);
    } else {
      PrefixIsCount(count, entry);
    }
  }

  // ----- The bytes themselves -----

  lemma {:induction false} LeZero(k: nat)
    ensures Le(0, k) == seq(k, _ => 0)
  {
    if k > 0 {
      LeZero(k - 1);
    }
  }

  lemma SmallU64(n: byte)
    ensures PutU64(n) == [n, 0, 0, 0, 0, 0, 0, 0]
  {
    LeZero(7);
    assert Le(n, 8) == [n] + Le(0, 7);
  }

  lemma SmallU32(n: byte)
    ensures PutU32(n) == [n, 0, 0, 0]
  {
    LeZero(3);
    assert Le(n, 4) == [n] + Le(0, 3);
  }

  lemma MinusTwo()
    ensures PutI64(-2) == [0xFE, 0xFF, 0xFF, 0xFF, 0xFF, 0xFF, 0xFF, 0xFF]
  {
    assert Le(0, 0) == [];
    assert Le(0xFF, 1) == [0xFF];
    assert Le(0xFFFF, 2) == [0xFF, 0xFF];
    assert Le(0xFF_FFFF, 3) == [0xFF, 0xFF, 0xFF];
    assert Le(0xFFFF_FFFF, 4) == [0xFF, 0xFF, 0xFF, 0xFF];
    assert Le(0xFF_FFFF_FFFF, 5) == [0xFF, 0xFF, 0xFF, 0xFF, 0xFF];
    assert Le(0xFFFF_FFFF_FFFF, 6) == [0xFF, 0xFF, 0xFF, 0xFF, 0xFF, 0xFF];
    assert Le(0xFF_FFFF_FFFF_FFFF, 7) == [0xFF, 0xFF, 0xFF, 0xFF, 0xFF, 0xFF, 0xFF];
  }

  lemma AsciiIsText(c: byte)
    requires c <= 0x7F
    ensures IsUtf8([c]) && PutText([c]) == [1, 0, 0, 0, 0, 0, 0, 0, c]
  {
    assert [c][1..] == [];
    SmallU64(1);
  }

  /** The entry `a`, a symbolic link to `b` with a different value in every field, byte by byte. */
  lemma EntryLayout(digest: ContentDigest)
    ensures IsUtf8([0x61]) && IsUtf8([0x62])
    ensures var e := Stored([0x61], 2, -2, 3, 4, Some([0x62]), false, 5, Some(digest));
      var layout: Bytes -> Bytes := last =>
        [1, 0, 0, 0, 0, 0, 0, 0, 0x61] + ([2, 0, 0, 0, 0, 0, 0, 0] + ([0xFE, 0xFF, 0xFF, 0xFF, 0xFF, 0xFF, 0xFF, 0xFF] +
        ([3, 0, 0, 0, 0, 0, 0, 0] + ([4, 0, 0, 0] + (([1] + [1, 0, 0, 0, 0, 0, 0, 0, 0x62]) + ([0] + ([5, 0, 0, 0] + last)))))));
      && PutEntry(LegacyV1, e) == layout([])
      && PutEntry(V2, e) == layout([1] + digest)
      && PutEntry(V2, e.(digest := None)) == layout([0])
  {
    SmallU64(2);
    SmallU64(3);
    SmallU32(4);
    SmallU32(5);
    MinusTwo();
    AsciiIsText(0x61);
    AsciiIsText(0x62);
  }

  /** The two kinds of file, byte by byte: the version 2 header in front, and the number of entries. */
  lemma FileLayout(es: StoredEntries, e: Stored)
    requires es == [e]
    ensures Encode(LegacyV1, es) == [1, 0, 0, 0, 0, 0, 0, 0] + PutEntry(LegacyV1, e)
    ensures Encode(V2, es) ==
      [0x44, 0x55, 0x45, 0x54, 0x53, 0x4E, 0x50, 0x00, 2] + ([1, 0, 0, 0, 0, 0, 0, 0] + PutEntry(V2, e))
  {
    SmallU64(1);
    ManyOfOne(EntryWriter(LegacyV1), es);
    ManyOfOne(EntryWriter(V2), es);
  }

  lemma ManyOfOne<T>(put: T -> Bytes, es: seq<T>)
    requires |es| == 1
    ensures PutMany(put, es) == put(es[0])
  {
    assert es[1..] == [];
    assert put(es[0]) + [] == put(es[0]);
  }

  /** A header without a version, and any version but the second one, are told apart from damage. */
  lemma HeaderErrors(version: byte, rest: Bytes)
    ensures var magic: Bytes := [0x44, 0x55, 0x45, 0x54, 0x53, 0x4E, 0x50, 0x00];
      && DecodeEntries(magic) == Err(TruncatedHeader)
      && (version != 2 ==> DecodeEntries(magic + ([version] + rest)) == Err(UnsupportedVersion(version)))
  {
  }
}
