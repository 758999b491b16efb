/** The block loops of cbc.c and pcbc.c, on stretches of memory. */
module CipherLoops {
  import opened BlockModes
  import opened ScatterWalk

  /** The stretches do not overlap, or are the same. */
  predicate Apart(s: nat, d: nat, n: nat) { s == d || s + n <= d || d + n <= s }

  lemma ChainGrows(p: Coder, iv: Bytes, data: Bytes, x: Bytes)
    requires p.size > 0 && Whole(p.size, |data|) && |x| == p.size
    ensures var iv1 := ChainIv(p, iv, data); var o := p.step(iv1, x);
            && Chain(p, iv, data + x) == Chain(p, iv, data) + o.block
            && ChainIv(p, iv, data + x) == o.iv
  {
    var iv1 := ChainIv(p, iv, data);
    ChainSplits(p, iv, data, x);
    assert x[..p.size] == x && x[p.size..] == [];
    assert p.step(iv1, x).block + [] == p.step(iv1, x).block;
  }

  /** Stretches grow block by block. */
  ghost predicate DoneTo(p: Coder, iv0: Bytes, data: Bytes, m0: Bytes, m: Bytes, d: nat, k: nat, iv: Bytes) {
    && k <= |data| && Whole(p.size, k) && p.IsIv(iv) && iv == ChainIv(p, iv0, data[..k])
    && Wrote(m0, m, Range(d, k), Chain(p, iv0, data[..k]))
  }

  /**
    The segment routines, and those in place that go forwards: each block is read from the
    source, worked on together with the iv, and stored.  What is left over is less than a block.
   */
  method Forwards(p: Coder, m: array<Byte>, s: nat, d: nat, n: nat, iv0: Bytes) returns (iv: Bytes, left: nat)
    requires Good(p) && p.IsIv(iv0) && p.size <= n
    requires s + n <= m.Length && d + n <= m.Length && Apart(s, d, n)
    modifies m
    ensures left < p.size && left <= n
    ensures DoneTo(p, iv0, old(m[s..s + n]), old(m[..]), m[..], d, n - left, iv)
  {
    ghost var data := m[s..s + n];
    var k := 0;
    iv := iv0;
    left := n;
    while left >= p.size
      invariant k == n - left && DoneTo(p, iv0, data, old(m[..]), m[..], d, k, iv) && m[s + k..s + n] == data[k..]
    {
      var k' := k + p.size;
      iv := NextBlock(p, m, s, d, iv, iv0, data, old(m[..]), k, k');
      k, left := k', left - p.size;
    }
  }

  method NextBlock(p: Coder, m: array<Byte>, s: nat, d: nat, iv: Bytes, ghost iv0: Bytes, ghost data: Bytes,
                   ghost m0: Bytes, k: nat, ghost k': nat) returns (iv': Bytes)
    requires Good(p) && k' == k + p.size <= |data| && s + |data| <= m.Length && d + |data| <= m.Length
    requires Apart(s, d, |data|)
    requires DoneTo(p, iv0, data, m0, m[..], d, k, iv) && m[s + k..s + |data|] == data[k..]
    modifies m
    ensures DoneTo(p, iv0, data, m0, m[..], d, k', iv') && m[s + k'..s + |data|] == data[k'..]
  {
    ghost var m1, x := m[..], data[k..k + p.size];
    BlockThere(m1, s, data, k, p.size);
    iv' := OneBlock(p, m, s + k, d + k, iv);
    StoreMore(p, iv0, data, m0, m1, m[..], d, k, iv);
    StepIsBlocks(p, iv, x);
    RestThere(m1, m[..], s, d, data, k, p.step(iv, x).block);
  }

  lemma BlockThere(m: Bytes, s: nat, data: Bytes, k: nat, size: nat)
    requires k + size <= |data| && s + |data| <= |m| && m[s + k..s + |data|] == data[k..]
    ensures m[s + k..s + k + size] == data[k..k + size]
    ensures m[s + k + size..s + |data|] == data[k + size..]
  {
    SliceOf(m, s + k, s + |data|, data[k..], size);
    assert data[k..][..size] == data[k..k + size] && data[k..][size..] == data[k + size..];
  }

  lemma RestThere(m1: Bytes, m2: Bytes, s: nat, d: nat, data: Bytes, k: nat, block: Bytes)
    requires k + |block| <= |data| && s + |data| <= |m1| && Apart(s, d, |data|) && m1[s + k..s + |data|] == data[k..]
    requires Wrote(m1, m2, Range(d + k, |block|), block)
    ensures m2[s + k + |block|..s + |data|] == data[k + |block|..]
  {
    var lo, hi := s + k + |block|, s + |data|;
    assert m1[lo..hi] == data[k + |block|..] by { BlockThere(m1, s, data, k, |block|); }
    assert m2[lo..hi] == m1[lo..hi] by { Elsewhere(m1, m2, d + k, block, lo, hi); }
  }

  method OneBlock(p: Coder, m: array<Byte>, s: nat, d: nat, iv: Bytes) returns (iv': Bytes)
    requires Good(p) && p.IsIv(iv) && s + p.size <= m.Length && d + p.size <= m.Length
    modifies m
    ensures var o := p.step(iv, old(m[s..s + p.size]));
            iv' == o.iv && Wrote(old(m[..]), m[..], Range(d, p.size), o.block)
  {
    var x := m[s..s + p.size];
    StepIsBlocks(p, iv, x);
    var o := p.step(iv, x);
    iv' := o.iv;
    Store(m, d, o.block);
  }

  lemma SliceOf(m: Bytes, lo: nat, hi: nat, data: Bytes, j: nat)
    requires lo <= hi <= |m| && m[lo..hi] == data && j <= |data|
    ensures m[lo..lo + j] == data[..j] && m[lo + j..hi] == data[j..]
  {
  }

  lemma StoreMore(p: Coder, iv0: Bytes, data: Bytes, m0: Bytes, m1: Bytes, m2: Bytes, d: nat, k: nat, iv: Bytes)
    requires Good(p) && k + p.size <= |data| && DoneTo(p, iv0, data, m0, m1, d, k, iv)
    requires Wrote(m1, m2, Range(d + k, p.size), p.step(iv, data[k..k + p.size]).block)
    ensures DoneTo(p, iv0, data, m0, m2, d, k + p.size, p.step(iv, data[k..k + p.size]).iv)
  {
    var x := data[k..k + p.size];
    StepIsBlocks(p, iv, x);
    assert data[..k + p.size] == data[..k] + x;
    ChainGrows(p, iv0, data[..k], x);
    RangeDistinct(d, k + p.size);
    assert Range(d, k + p.size) == Range(d, k) + Range(d + k, p.size);
    WroteMore(m0, m1, m2, Range(d, k), Range(d + k, p.size), Chain(p, iv0, data[..k]), p.step(iv, x).block);
  }

  /** Storing at one stretch leaves another alone. */
  lemma Elsewhere(m: Bytes, m': Bytes, a: nat, bytes: Bytes, lo: nat, hi: nat)
    requires Wrote(m, m', Range(a, |bytes|), bytes) && lo <= hi <= |m| && (hi <= a || a + |bytes| <= lo)
    ensures m'[lo..hi] == m[lo..hi]
  {
    forall i | lo <= i < hi ensures m'[i] == m[i] {
      RangeHas(a, |bytes|, i);
    }
  }

  lemma {:induction false} RangeDistinct(a: nat, n: nat)
    ensures Distinct(Range(a, n))
    decreases n
  {
    if n > 0 {
      RangeDistinct(a + 1, n - 1);
      assert Range(a, n)[1..] == Range(a + 1, n - 1);
      RangeHas(a + 1, n - 1, a);
    }
  }

  // ------------------------------------------------------ backwards in place

  /** The remainder of `n` divided by `size`. */
  function LeftOver(size: nat, n: nat): (r: nat)
    requires size > 0
    ensures r < size && r <= n && Whole(size, n - r)
    decreases n
  {
    if n < size then n else LeftOver(size, n - size)
  }

  lemma WroteBefore(m: Bytes, m1: Bytes, m2: Bytes, a: seq<nat>, b: seq<nat>, x: Bytes, y: Bytes)
    requires Wrote(m, m1, b, y) && Wrote(m1, m2, a, x) && Distinct(a + b)
    ensures Wrote(m, m2, a + b, x + y)
  {
    DistinctSplits(a, b);
    forall i | 0 <= i < |b| ensures m2[b[i]] == y[i] {
      assert b[i] in b;
    }
  }

  /** From offset `q` on, `m` holds the plain text of `data[q..k]`. */
  ghost predicate TailDone(p: Coder, iv: Bytes, data: Bytes, m0: Bytes, m: Bytes, s: nat, q: nat, k: nat) {
    q <= k <= |data| && Wrote(m0, m, Range(s + q, k - q), Chain(p, iv, data[q..k]))
  }

  lemma PlainFirst(c: Cipher, prev: Bytes, data: Bytes, q: nat, k: nat)
    requires c.size > 0 && q + c.size <= k <= |data|
    ensures var p, x := CoderOf(c, CbcDecrypt), data[q..q + c.size];
            Chain(p, prev, data[q..k]) == c.xor(c.decrypt(x), prev) + Chain(p, x, data[q + c.size..k])
  {
    assert data[q..k][..c.size] == data[q..q + c.size] && data[q..k][c.size..] == data[q + c.size..k];
  }

  /** One block more at the front; `prev` is the ciphertext before it. */
  lemma TailGrows(c: Cipher, prev: Bytes, data: Bytes, m0: Bytes, m1: Bytes, m2: Bytes, s: nat, q: nat, k: nat)
    requires Laws(c) && q + c.size <= k <= |data| && c.IsBlock(prev)
    requires TailDone(CoderOf(c, CbcDecrypt), data[q..q + c.size], data, m0, m1, s, q + c.size, k)
    requires Wrote(m1, m2, Range(s + q, c.size), c.xor(c.decrypt(data[q..q + c.size]), prev))
    ensures TailDone(CoderOf(c, CbcDecrypt), prev, data, m0, m2, s, q, k)
  {
    var p, x := CoderOf(c, CbcDecrypt), data[q..q + c.size];
    PlainFirst(c, prev, data, q, k);
    RangeDistinct(s + q, k - q);
    assert Range(s + q, k - q) == Range(s + q, c.size) + Range(s + q + c.size, k - q - c.size);
    WroteBefore(m0, m1, m2, Range(s + q, c.size), Range(s + q + c.size, k - q - c.size),
                c.xor(c.decrypt(x), prev), Chain(p, x, data[q + c.size..k]));
  }

  lemma {:induction false} LastIsIv(c: Cipher, iv0: Bytes, data: Bytes)
    requires Laws(c) && Whole(c.size, |data|) && data != []
    ensures ChainIv(CoderOf(c, CbcDecrypt), iv0, data) == data[|data| - c.size..]
    decreases |data|
  {
    var rest := data[c.size..];
    if rest == [] {
      assert data[..c.size] == data;
    } else {
      LastIsIv(c, data[..c.size], rest);
    }
  }

  lemma SliceSlice(m: Bytes, s: nat, n: nat, lo: nat, hi: nat)
    requires s + n <= |m| && lo <= hi <= n
    ensures m[s..s + n][lo..hi] == m[s + lo..s + hi]
  {
    var l, r := m[s..s + n][lo..hi], m[s + lo..s + hi];
    forall i | 0 <= i < hi - lo ensures l[i] == r[i] {
      assert m[s..s + n][lo + i] == m[s + lo + i];
    }
  }

  /** Ciphertext before offset `q` has not been reached yet. */
  lemma NotReached(m0: Bytes, m: Bytes, s: nat, n: nat, q: nat, bytes: Bytes, lo: nat, hi: nat)
    requires s + n <= |m0| && Wrote(m0, m, Range(s + q, |bytes|), bytes) && lo <= hi <= q && hi <= n
    ensures |m| == |m0| && m[s + lo..s + hi] == m0[s..s + n][lo..hi]
  {
    Elsewhere(m0, m, s + q, bytes, s + lo, s + hi);
    SliceSlice(m0, s, n, lo, hi);
  }

  /** The block at offset `q` of the stretch, and the plain text after it. */
  ghost predicate Reached(c: Cipher, m0: Bytes, m: Bytes, s: nat, n: nat, q: nat, k: nat) {
    && s + n <= |m0| && q + c.size <= k <= n
    && (var data := m0[s..s + n]; TailDone(CoderOf(c, CbcDecrypt), data[q..q + c.size], data, m0, m, s, q + c.size, k))
  }

  lemma DecipheredIsBlock(c: Cipher, x: Bytes, prev: Bytes)
    requires Laws(c) && c.IsBlock(x) && c.IsBlock(prev)
    ensures c.IsBlock(c.xor(c.decrypt(x), prev))
  {
    assert c.Keeps(x);
    assert c.XorKeeps(c.decrypt(x), prev);
  }

  /** The block at `q` is still ciphertext, and so is what is before it. */
  lemma StillCipher(c: Cipher, m0: Bytes, m: Bytes, s: nat, n: nat, q: nat, k: nat, lo: nat, hi: nat)
    requires Reached(c, m0, m, s, n, q, k) && lo <= hi <= q + c.size
    ensures |m| == |m0| && m[s + lo..s + hi] == m0[s..s + n][lo..hi]
  {
    var data := m0[s..s + n];
    var plain := Chain(CoderOf(c, CbcDecrypt), data[q..q + c.size], data[q + c.size..k]);
    NotReached(m0, m, s, n, q + c.size, plain, lo, hi);
  }

  method PlainBlock(c: Cipher, m: array<Byte>, s: nat, q: nat, prev: Bytes, ghost n: nat, ghost m0: Bytes, ghost k: nat)
    requires Laws(c) && c.IsBlock(prev) && Reached(c, m0, m[..], s, n, q, k)
    modifies m
    ensures TailDone(CoderOf(c, CbcDecrypt), prev, m0[s..s + n], m0, m[..], s, q, k)
  {
    ghost var m1, data := m[..], m0[s..s + n];
    ghost var x := data[q..q + c.size];
    StillCipher(c, m0, m1, s, n, q, k, q, q + c.size);
    DecipheredIsBlock(c, x, prev);
    Store(m, s + q, c.xor(c.decrypt(m[s + q..s + q + c.size]), prev));
    TailGrows(c, prev, data, m0, m1, m[..], s, q, k);
  }

  method PrevBlock(c: Cipher, m: array<Byte>, s: nat, q: nat, ghost n: nat, ghost m0: Bytes, ghost k: nat) returns (prev: Bytes)
    requires c.size <= q && Reached(c, m0, m[..], s, n, q, k)
    ensures prev == m0[s..s + n][q - c.size..q]
  {
    StillCipher(c, m0, m[..], s, n, q, k, q - c.size, q);
    prev := m[s + q - c.size..s + q];
  }

  /** One block back. */
  method StepBack(c: Cipher, m: array<Byte>, s: nat, q: nat, ghost n: nat, ghost m0: Bytes, ghost k: nat)
    requires Laws(c) && c.size <= q && Reached(c, m0, m[..], s, n, q, k)
    modifies m
    ensures Reached(c, m0, m[..], s, n, q - c.size, k)
  {
    var prev := PrevBlock(c, m, s, q, n, m0, k);
    PlainBlock(c, m, s, q, prev, n, m0, k);
  }

  method BackToFirst(c: Cipher, m: array<Byte>, s: nat, q0: nat, ghost n: nat, ghost m0: Bytes, ghost k: nat)
    requires Laws(c) && Whole(c.size, q0) && Reached(c, m0, m[..], s, n, q0, k)
    modifies m
    ensures Reached(c, m0, m[..], s, n, 0, k)
  {
    var q: nat := q0;
    while q > 0
      invariant Whole(c.size, q) && Reached(c, m0, m[..], s, n, q, k)
    {
      StepBack(c, m, s, q, n, m0, k);
      q := q - c.size;
    }
  }

  /** CBC decryption in place: from the last block to the first, so that each still finds the one before it. */
  method Backwards(c: Cipher, m: array<Byte>, s: nat, n: nat, iv0: Bytes) returns (iv: Bytes, left: nat)
    requires Laws(c) && c.IsBlock(iv0) && c.size <= n && s + n <= m.Length
    modifies m
    ensures left < c.size && left <= n
    ensures DoneTo(CoderOf(c, CbcDecrypt), iv0, old(m[s..s + n]), old(m[..]), m[..], s, n - left, iv)
  {
    left := LeftOver(c.size, n);
    var k := n - left;
    var q: nat := k - c.size;
    iv := m[s + q..s + q + c.size];
    ghost var m0 := m[..];
    LastOne(c, m0, s, n, k, iv0);
    BackToFirst(c, m, s, q, n, m0, k);
    PlainBlock(c, m, s, 0, iv0, n, m0, k);
    AllDone(c, iv0, m0[s..s + n], m0, m[..], s, k, iv);
  }

  lemma AllDone(c: Cipher, iv0: Bytes, data: Bytes, m0: Bytes, m1: Bytes, s: nat, k: nat, iv: Bytes)
    requires k <= |data| && TailDone(CoderOf(c, CbcDecrypt), iv0, data, m0, m1, s, 0, k)
    requires c.IsBlock(iv) && iv == ChainIv(CoderOf(c, CbcDecrypt), iv0, data[..k]) && Whole(c.size, k)
    ensures DoneTo(CoderOf(c, CbcDecrypt), iv0, data, m0, m1, s, k, iv)
  {
    assert data[0..k] == data[..k];
  }

  lemma LastOne(c: Cipher, m0: Bytes, s: nat, n: nat, k: nat, iv0: Bytes)
    requires Laws(c) && s + n <= |m0| && c.size <= k <= n && Whole(c.size, k)
    ensures Reached(c, m0, m0, s, n, k - c.size, k)
    ensures ChainIv(CoderOf(c, CbcDecrypt), iv0, m0[s..s + n][..k]) == m0[s + k - c.size..s + k]
  {
    var data := m0[s..s + n];
    LastIsIv(c, iv0, data[..k]);
    SliceSlice(m0, s, n, k - c.size, k);
    assert data[..k][k - c.size..] == data[k - c.size..k];
  }
}
