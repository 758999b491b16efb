/** CBC and PCBC over a block cipher that is left open, on flat byte strings. */
module BlockModes {

  type Byte = bv8
  type Bytes = seq<Byte>

  datatype Cipher = Cipher(size: nat, encrypt: Bytes -> Bytes, decrypt: Bytes -> Bytes, xor: (Bytes, Bytes) -> Bytes) {
    predicate IsBlock(x: Bytes) { |x| == size }
    ghost predicate Keeps(x: Bytes) { IsBlock(x) ==> IsBlock(encrypt(x)) && IsBlock(decrypt(x)) }
    ghost predicate Undoes(x: Bytes) { IsBlock(x) ==> decrypt(encrypt(x)) == x }
    ghost predicate XorKeeps(x: Bytes, y: Bytes) { IsBlock(x) && IsBlock(y) ==> IsBlock(xor(x, y)) }
    ghost predicate XorSwaps(x: Bytes, y: Bytes) { IsBlock(x) && IsBlock(y) ==> xor(x, y) == xor(y, x) }
    ghost predicate XorTwice(x: Bytes, y: Bytes) { IsBlock(x) && IsBlock(y) ==> xor(xor(x, y), y) == x }
  }

  /** Blocks of the cipher stay blocks, and xor is commutative and undoes itself. */
  ghost predicate Laws(c: Cipher) {
    && c.size > 0 && (forall x :: c.Keeps(x)) && (forall x, y :: c.XorKeeps(x, y))
    && (forall x, y :: c.XorSwaps(x, y)) && (forall x, y :: c.XorTwice(x, y))
  }

  datatype Mode = CbcEncrypt | CbcDecrypt | PcbcEncrypt | PcbcDecrypt

  datatype Out = Out(block: Bytes, iv: Bytes)

  /** One block: the output, and the iv for the next. */
  function Step(c: Cipher, mode: Mode, iv: Bytes, x: Bytes): Out {
    match mode
    case CbcEncrypt => var y := c.encrypt(c.xor(iv, x)); Out(y, y)
    case CbcDecrypt => Out(c.xor(c.decrypt(x), iv), x)
    case PcbcEncrypt => var y := c.encrypt(c.xor(iv, x)); Out(y, c.xor(y, x))
    case PcbcDecrypt => var y := c.xor(c.decrypt(x), iv); Out(y, c.xor(x, y))
  }

  /**
    A mode with its cipher: the size of a block and of what is carried from one to the next,
    the iv, and what is done with each block.
   */
  datatype Coder = Coder(size: nat, ivSize: nat, step: (Bytes, Bytes) -> Out) {
    predicate IsBlock(x: Bytes) { |x| == size }
    predicate IsIv(iv: Bytes) { |iv| == ivSize }
    ghost predicate Keeps(iv: Bytes, x: Bytes) {
      IsIv(iv) && IsBlock(x) ==> IsBlock(step(iv, x).block) && IsIv(step(iv, x).iv)
    }
  }

  ghost predicate Good(p: Coder) { p.size > 0 && forall iv, x :: p.Keeps(iv, x) }

  lemma StepIsBlocks(p: Coder, iv: Bytes, x: Bytes)
    requires Good(p) && p.IsIv(iv) && p.IsBlock(x)
    ensures p.IsBlock(p.step(iv, x).block) && p.IsIv(p.step(iv, x).iv)
  {
    assert p.Keeps(iv, x);
  }

  function CoderOf(c: Cipher, mode: Mode): Coder { Coder(c.size, c.size, (iv, x) => Step(c, mode, iv, x)) }

  lemma CoderIsGood(c: Cipher, mode: Mode)
    requires Laws(c)
    ensures Good(CoderOf(c, mode))
  {
    forall iv, x ensures CoderOf(c, mode).Keeps(iv, x) {
      if c.IsBlock(iv) && c.IsBlock(x) {
        assert c.XorKeeps(iv, x) && c.Keeps(c.xor(iv, x)) && c.Keeps(x);
        assert c.XorKeeps(c.decrypt(x), iv) && c.XorKeeps(c.encrypt(c.xor(iv, x)), x);
        assert c.XorKeeps(x, c.xor(c.decrypt(x), iv));
      }
    }
  }

  /** The whole blocks of `data`, in order. */
  function Chain(p: Coder, iv: Bytes, data: Bytes): Bytes
    decreases |data|
  {
    if p.size == 0 || |data| < p.size then []
    else var o := p.step(iv, data[..p.size]); o.block + Chain(p, o.iv, data[p.size..])
  }

  /** The iv left for more. */
  function ChainIv(p: Coder, iv: Bytes, data: Bytes): Bytes
    decreases |data|
  {
    if p.size == 0 || |data| < p.size then iv
    else ChainIv(p, p.step(iv, data[..p.size]).iv, data[p.size..])
  }

  /** Is `n` a whole number of blocks? */
  predicate Whole(size: nat, n: nat)
    decreases n
  {
    n == 0 || (0 < size <= n && Whole(size, n - size))
  }

  lemma {:induction false} WholeAdds(size: nat, m: nat, n: nat)
    requires Whole(size, m) && Whole(size, n)
    ensures Whole(size, m + n)
    decreases m
  {
    if m > 0 { WholeAdds(size, m - size, n); }
  }

  lemma {:induction false} ChainLength(p: Coder, iv: Bytes, data: Bytes)
    requires Good(p) && p.IsIv(iv) && Whole(p.size, |data|)
    ensures |Chain(p, iv, data)| == |data| && p.IsIv(ChainIv(p, iv, data))
    decreases |data|
  {
    if data != [] {
      assert p.Keeps(iv, data[..p.size]);
      ChainLength(p, p.step(iv, data[..p.size]).iv, data[p.size..]);
    }
  }

  /** Working through whole blocks in two goes is the same as in one. */
  lemma {:induction false} ChainSplits(p: Coder, iv: Bytes, x: Bytes, y: Bytes)
    requires p.size > 0 && Whole(p.size, |x|)
    ensures var iv1 := ChainIv(p, iv, x);
            && Chain(p, iv, x + y) == Chain(p, iv, x) + Chain(p, iv1, y)
            && ChainIv(p, iv, x + y) == ChainIv(p, iv1, y)
    decreases |x|
  {
    if x == [] {
      assert x + y == y;
    } else {
      assert (x + y)[..p.size] == x[..p.size] && (x + y)[p.size..] == x[p.size..] + y;
      ChainSplits(p, p.step(iv, x[..p.size]).iv, x[p.size..], y);
    }
  }

  // -------------------------------------------------------------- inverses

  function Inverse(mode: Mode): Mode {
    match mode
    case CbcEncrypt => CbcDecrypt
    case CbcDecrypt => CbcEncrypt
    case PcbcEncrypt => PcbcDecrypt
    case PcbcDecrypt => PcbcEncrypt
  }

  lemma StepUndone(c: Cipher, mode: Mode, iv: Bytes, x: Bytes)
    requires Laws(c) && (forall z :: c.Undoes(z)) && (mode.CbcEncrypt? || mode.PcbcEncrypt?)
    requires c.IsBlock(iv) && c.IsBlock(x)
    ensures var o := Step(c, mode, iv, x); Step(c, Inverse(mode), iv, o.block) == Out(x, o.iv)
  {
    assert c.XorKeeps(iv, x) && c.Undoes(c.xor(iv, x));
    assert c.XorSwaps(iv, x) && c.XorTwice(x, iv);
  }

  /** Decryption gives the text back and leaves the same iv. */
  lemma {:induction false} ChainUndone(c: Cipher, mode: Mode, iv: Bytes, data: Bytes)
    requires Laws(c) && (forall z :: c.Undoes(z)) && (mode.CbcEncrypt? || mode.PcbcEncrypt?)
    requires c.IsBlock(iv) && Whole(c.size, |data|)
    ensures var p, q := CoderOf(c, mode), CoderOf(c, Inverse(mode)); var out := Chain(p, iv, data);
            Chain(q, iv, out) == data && ChainIv(q, iv, out) == ChainIv(p, iv, data)
    decreases |data|
  {
    if data != [] {
      var x, rest := data[..c.size], data[c.size..];
      var o := Step(c, mode, iv, x);
      var tail := Chain(CoderOf(c, mode), o.iv, rest);
      StepUndone(c, mode, iv, x);
      CoderIsGood(c, mode);
      assert CoderOf(c, mode).Keeps(iv, x);
      ChainUndone(c, mode, o.iv, rest);
      assert (o.block + tail)[..c.size] == o.block && (o.block + tail)[c.size..] == tail;
    }
  }
}
