// Adler-32 as section 2.2 of RFC 1950 defines it, together with the two rolling
// operations that the delta engine applies to its sliding window.
module Adler {
  import opened Integers

  const BASE := 65521

  /** The running pair of sums; `Hash` packs it into the 32-bit checksum. */
  datatype Rolling = Rolling(a: nat, b: nat) {

    function Hash(): nat {
      b * 65536 + a
    }

    /** Appends `x` to the right end of the hashed bytes. */
    function Update(x: byte): Rolling {
      var a' := (a + x) % BASE;
      Rolling(a', (b + a') % BASE)
    }

    /** Takes `x` out of the first sum and what it added up to out of the second. */
    function Drop(weight: int, x: byte): Rolling {
      Rolling((a - x) % BASE, (b - weight) % BASE)
    }

    /** Drops `x`, the leftmost of `size` hashed bytes. */
    function Remove(size: nat, x: byte): Rolling {
      Drop(1 + size * x, x)
    }
  }

  /** The checksum of a whole buffer: the sums start at (1, 0). */
  function Checksum(bytes: seq<byte>): Rolling {
    if bytes == [] then Rolling(1, 0) else Checksum(bytes[..|bytes| - 1]).Update(bytes[|bytes| - 1])
  }

  lemma ModSame(x: int, y: int, k: int)
    requires x == y + BASE * k
    ensures x % BASE == y % BASE
  {
  }

  lemma ModPlus(x: int, y: int)
    ensures (x % BASE + y) % BASE == (x + y) % BASE
  {
    ModSame(x + y, x % BASE + y, x / BASE);
  }

  /** The first sum after one removal and one update, in either order. */
  lemma FirstSumCommutes(a: int, y: int, x: int)
    ensures ((a - y) % BASE + x) % BASE == ((a + x) % BASE - y) % BASE
  {
    ModPlus(a - y, x);
    ModPlus(a + x, -y);
  }

  /** The second sum after one removal (of weight `w`) and one update, in either order. */
  lemma SecondSumCommutes(a: int, b: int, w: int, y: int, x: int)
    ensures ((b - w) % BASE + ((a - y) % BASE + x) % BASE) % BASE == ((b + (a + x) % BASE) % BASE - (w + y)) % BASE
  {
    ModPlus(a - y, x);
    var i, j, k := (a - y + x) / BASE, (b - w) / BASE, (a + x) / BASE;
    var l := (b + (a + x) % BASE) / BASE;
    ModSame((b - w) % BASE + (a - y + x) % BASE, (b + (a + x) % BASE) % BASE - (w + y), k + l - i - j);
  }

  lemma DropCommutesWithUpdate(r: Rolling, w: int, y: byte, x: byte)
    ensures r.Drop(w, y).Update(x) == r.Update(x).Drop(w + y, y)
  {
    FirstSumCommutes(r.a, y, x);
    SecondSumCommutes(r.a, r.b, w, y, x);
  }

  /** Appending on the right commutes with dropping on the left. */
  lemma RemoveCommutesWithUpdate(r: Rolling, size: nat, y: byte, x: byte)
    ensures r.Remove(size, y).Update(x) == r.Update(x).Remove(size + 1, y)
  {
    DropCommutesWithUpdate(r, 1 + size * y, y, x);
    assert (size + 1) * y == size * y + y;
  }

  /** Sliding the window by one byte: removing the oldest byte from the rolling pair
      leaves exactly the checksum of the remaining bytes. */
  lemma {:induction false} RemoveOldest(bytes: seq<byte>)
    requires bytes != []
    ensures Checksum(bytes[1..]) == Checksum(bytes).Remove(|bytes|, bytes[0])
  {
    var n := |bytes|;
    var init := bytes[..n - 1];
    var last: int := bytes[n - 1];
    if n == 1 {
      assert Checksum(init) == Rolling(1, 0);
      ModPlus(1 + last, -last);
      ModPlus(1 + last, -1 - last);
    } else {
      RemoveOldest(init);
      assert bytes[1..][..n - 2] == init[1..];
      RemoveCommutesWithUpdate(Checksum(init), n - 1, bytes[0], last);
    }
  }

  lemma AppendNewest(bytes: seq<byte>, x: byte)
    ensures Checksum(bytes + [x]) == Checksum(bytes).Update(x)
  {
  }

  /** The first sum of the RFC, without the modulus: one and all bytes. */
  function FirstSum(bytes: seq<byte>): nat {
    if bytes == [] then 1 else FirstSum(bytes[..|bytes| - 1]) + bytes[|bytes| - 1]
  }

  /** The second one: the first sum after every byte. */
  function SecondSum(bytes: seq<byte>): nat {
    if bytes == [] then 0 else SecondSum(bytes[..|bytes| - 1]) + FirstSum(bytes)
  }

  /** Reducing at every byte gives the two sums modulo the largest prime below 65536, the second one in the
      upper half of the checksum. */
  lemma {:induction false} ChecksumIsAdler32(bytes: seq<byte>)
    ensures Checksum(bytes).Hash() == SecondSum(bytes) % 65521 * 65536 + FirstSum(bytes) % 65521
    ensures Checksum(bytes) == Rolling(FirstSum(bytes) % 65521, SecondSum(bytes) % 65521)
  {
    if bytes != [] {
      var init, last := bytes[..|bytes| - 1], bytes[|bytes| - 1];
      ChecksumIsAdler32(init);
      ModPlus(FirstSum(init), last);
      ModPlus(SecondSum(init), FirstSum(bytes) % BASE);
      ModPlus(FirstSum(bytes), SecondSum(init));
    }
  }
}
