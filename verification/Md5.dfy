/** MD5's buffering and padding, over any compression function. */
module Md5 {

  type Byte = int
  type Bytes = seq<Byte>

  datatype Hash = Hash(a: int, b: int, c: int, d: int)

  const INITIAL := Hash(0x67452301, 0xefcdab89, 0x98badcfe, 0x10325476)

  const TWO32: nat := 0x1_0000_0000
  const TWO64: nat := 0x1_0000_0000_0000_0000

  // --------------------------------------------- what is to be computed

  /** The compression function over the whole blocks of `x`, in order. */
  function Fold(f: (Hash, Bytes) -> Hash, h: Hash, x: Bytes): Hash
    decreases |x|
  {
    if |x| < 64 then h else Fold(f, f(h, x[..64]), x[64..])
  }

  /** What is left over after the whole blocks. */
  function Tail(x: Bytes): (t: Bytes)
    ensures |t| == |x| % 64
    decreases |x|
  {
    if |x| < 64 then x else Tail(x[64..])
  }

  function Zeros(n: nat): Bytes { seq(n, _ => 0) }

  /** `n` bytes of a number, the lowest first. */
  function LittleEndian(x: nat, n: nat): (r: Bytes)
    ensures |r| == n
  {
    if n == 0 then [] else [x % 256] + LittleEndian(x / 256, n - 1)
  }

  /** What follows `n` bytes of message: a one bit, zeros up to 56 bytes of a block, and the length. */
  function Padding(n: nat, length: Bytes): Bytes { [0x80] + Zeros((119 - n % 64) % 64) + length }

  /** The message padded with its length in bits, modulo 2^64. */
  function Padded(msg: Bytes): Bytes { msg + Padding(|msg|, LittleEndian(8 * |msg| % TWO64, 8)) }

  function Digest(f: (Hash, Bytes) -> Hash, msg: Bytes): Hash { Fold(f, INITIAL, Padded(msg)) }

  // ------------------------------------------------------------ how it goes on

  /** Only the left over bytes and the hash so far matter for what comes next. */
  lemma {:induction false} FoldGoesOn(f: (Hash, Bytes) -> Hash, h: Hash, x: Bytes, y: Bytes)
    ensures Fold(f, h, x + y) == Fold(f, Fold(f, h, x), Tail(x) + y)
    ensures Tail(x + y) == Tail(Tail(x) + y)
    decreases |x|
  {
    if |x| >= 64 {
      assert (x + y)[..64] == x[..64] && (x + y)[64..] == x[64..] + y;
      FoldGoesOn(f, f(h, x[..64]), x[64..], y);
    }
  }

  lemma FoldBlock(f: (Hash, Bytes) -> Hash, h: Hash, b: Bytes, rest: Bytes)
    requires |b| == 64
    ensures Fold(f, h, b + rest) == Fold(f, f(h, b), rest) && Tail(b + rest) == Tail(rest)
  {
    assert (b + rest)[..64] == b && (b + rest)[64..] == rest;
  }

  function Power256(n: nat): (r: nat)
    ensures r > 0
  {
    if n == 0 then 1 else 256 * Power256(n - 1)
  }

  lemma {:induction false} LittleEndianSplits(q: nat, r: nat, m: nat, n: nat)
    requires r < Power256(m)
    ensures LittleEndian(q * Power256(m) + r, m + n) == LittleEndian(r, m) + LittleEndian(q, n)
  {
    if m > 0 {
      var t := q * Power256(m - 1);
      assert q * Power256(m) == 256 * t;
      assert (256 * t + r) % 256 == r % 256 && (256 * t + r) / 256 == t + r / 256;
      LittleEndianSplits(q, r / 256, m - 1, n);
    }
  }

  /** The two words that hold the length are its 64 bits. */
  lemma LengthWords(count: nat)
    requires count < TWO64
    ensures LittleEndian(8 * count % TWO32, 4) + LittleEndian(count / 0x2000_0000 % TWO32, 4)
            == LittleEndian(8 * count % TWO64, 8)
  {
    var hi, mid, lo := count / 0x2000_0000 / TWO32, count / 0x2000_0000 % TWO32, count % 0x2000_0000;
    assert count == hi * TWO32 * 0x2000_0000 + mid * 0x2000_0000 + lo;
    assert 8 * count == hi * TWO64 + mid * TWO32 + 8 * lo;
    assert 8 * count % TWO64 == mid * TWO32 + 8 * lo;
    assert 8 * count % TWO32 == 8 * lo;
    assert Power256(4) == TWO32;
    LittleEndianSplits(mid, 8 * lo, 4, 4);
  }

  lemma WrapKeepsOffset(n: nat)
    ensures n % TWO64 % 64 == n % 64
  {
    assert n == n / TWO64 * TWO64 + n % TWO64;
  }

  lemma WrapKeepsBits(n: nat)
    ensures 8 * (n % TWO64) % TWO64 == 8 * n % TWO64
  {
    assert 8 * n == 8 * (n / TWO64) * TWO64 + 8 * (n % TWO64);
  }

  lemma WrapAdds(n: nat, m: nat)
    ensures (n % TWO64 + m) % TWO64 == (n + m) % TWO64
  {
  }

  lemma OneMoreBlock(f: (Hash, Bytes) -> Hash, h: Hash, tail: Bytes, length: Bytes)
    requires |tail| < 56 && |length| == 8
    ensures Fold(f, h, tail + Padding(|tail|, length)) == f(h, tail + [0x80] + Zeros(55 - |tail|) + length)
  {
    var b := tail + [0x80] + Zeros(55 - |tail|) + length;
    assert tail + Padding(|tail|, length) == b + [];
    FoldBlock(f, h, b, []);
  }

  lemma TwoMoreBlocks(f: (Hash, Bytes) -> Hash, h: Hash, tail: Bytes, length: Bytes)
    requires 56 <= |tail| < 64 && |length| == 8
    ensures Fold(f, h, tail + Padding(|tail|, length)) == f(f(h, tail + [0x80] + Zeros(63 - |tail|)), Zeros(56) + length)
  {
    var b, c := tail + [0x80] + Zeros(63 - |tail|), Zeros(56) + length;
    assert Zeros(119 - |tail|) == Zeros(63 - |tail|) + Zeros(56);
    assert tail + Padding(|tail|, length) == b + c;
    FoldBlock(f, h, b, c);
    assert c == c + [];
    FoldBlock(f, f(h, b), c, []);
  }

  lemma PaddingGoesOn(f: (Hash, Bytes) -> Hash, msg: Bytes, length: Bytes)
    ensures Fold(f, INITIAL, msg + Padding(|msg|, length))
            == Fold(f, Fold(f, INITIAL, msg), Tail(msg) + Padding(|Tail(msg)|, length))
  {
    assert Padding(|msg|, length) == Padding(|Tail(msg)|, length);
    FoldGoesOn(f, INITIAL, msg, Padding(|msg|, length));
  }

  // ------------------------------------------------------------- the context

  class Context {
    const f: (Hash, Bytes) -> Hash
    var hash: Hash
    const block: array<Byte>
    var count: nat
    ghost var msg: Bytes

    /** `msg` is what has been given so far; its whole blocks are in the hash. */
    ghost predicate Valid()
      reads this, block
    {
      && block.Length == 64 && count == |msg| % TWO64
      && hash == Fold(f, INITIAL, msg) && block[..|Tail(msg)|] == Tail(msg)
    }

    constructor Init(f: (Hash, Bytes) -> Hash)
      ensures Valid() && msg == [] && this.f == f && fresh(block)
    {
      this.f := f;
      hash, count, msg := INITIAL, 0, [];
      block := new Byte[64];
    }

    method Put(at: nat, data: Bytes)
      requires at + |data| <= block.Length
      modifies block
      ensures block[..at] == old(block[..at]) && block[at..at + |data|] == data
    {
      forall i | 0 <= i < |data| { block[at + i] := data[i]; }
    }

    method Update(data: Bytes)
      requires Valid()
      modifies this, block
      ensures Valid() && msg == old(msg) + data
    {
      WrapKeepsOffset(|msg|);
      WrapAdds(|msg|, |data|);
      FoldGoesOn(f, INITIAL, msg, data);
      var off := count % 64;
      count := (count + |data|) % TWO64;
      Absorb(off, data, Tail(msg));
      msg := msg + data;
    }

    /** Bytes into the buffer that holds `tail`, and whole blocks into the hash. */
    method Absorb(off: nat, data: Bytes, ghost tail: Bytes)
      requires block.Length == 64 && off == |tail| < 64 && block[..off] == tail
      modifies this`hash, block
      ensures hash == Fold(f, old(hash), tail + data) && block[..|Tail(tail + data)|] == Tail(tail + data)
    {
      var avail := 64 - off;
      if avail > |data| {
        Put(off, data);
        assert block[..off + |data|] == tail + data;
        return;
      }
      Put(off, data[..avail]);
      assert block[..] == tail + data[..avail];
      hash := f(hash, block[..]);
      assert tail + data == tail + data[..avail] + data[avail..];
      FoldBlock(f, old(hash), tail + data[..avail], data[avail..]);
      WholeBlocks(data[avail..]);
    }

    method WholeBlocks(data: Bytes)
      requires block.Length == 64
      modifies this`hash, block
      ensures hash == Fold(f, old(hash), data) && block[..|Tail(data)|] == Tail(data)
    {
      var rest := data;
      while |rest| >= 64
        invariant Fold(f, hash, rest) == Fold(f, old(hash), data) && Tail(rest) == Tail(data)
      {
        Put(0, rest[..64]);
        assert block[..] == rest[..64];
        hash := f(hash, block[..]);
        rest := rest[64..];
      }
      Put(0, rest);
      assert block[..|rest|] == rest;
    }

    /** Padding, length and the last one or two blocks; the context is wiped. */
    method Final() returns (out: Hash)
      requires Valid()
      modifies this, block
      ensures out == Digest(f, old(msg))
      ensures hash == Hash(0, 0, 0, 0) && count == 0 && block[..] == Zeros(64)
    {
      WrapKeepsOffset(|msg|);
      WrapKeepsBits(|msg|);
      LengthWords(count);
      var length := LittleEndian(8 * count % TWO32, 4) + LittleEndian(count / 0x2000_0000 % TWO32, 4);
      PaddingGoesOn(f, msg, length);
      Finish(count % 64, length, Tail(msg));
      out := hash;
      Put(0, Zeros(64));
      assert block[..] == Zeros(64);
      hash, count := Hash(0, 0, 0, 0), 0;
    }

    method Finish(off: nat, length: Bytes, ghost tail: Bytes)
      requires block.Length == 64 && off == |tail| < 64 && block[..off] == tail && |length| == 8
      modifies this`hash, block
      ensures hash == Fold(f, old(hash), tail + Padding(off, length))
    {
      Put(off, [0x80]);
      assert block[..off + 1] == tail + [0x80];
      var p := off + 1;
      if 56 < p {
        TwoMoreBlocks(f, hash, tail, length);
        Put(p, Zeros(64 - p));
        assert block[..] == tail + [0x80] + Zeros(63 - off);
        hash := f(hash, block[..]);
        p := 0;
      } else {
        OneMoreBlock(f, hash, tail, length);
      }
      Put(p, Zeros(56 - p));
      ghost var front := block[..56];
      assert front == if p == 0 then Zeros(56) else tail + [0x80] + Zeros(55 - off);
      Put(56, length);
      assert block[..] == front + length;
      hash := f(hash, block[..]);
    }
  }
}
