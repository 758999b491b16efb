/** LRW through the scatter walk: what is carried from block to block is the index and its mask. */
module LrwWalk {
  import opened BlockModes
  import opened ScatterWalk
  import opened CipherLoops
  import opened CipherWalk
  import opened BlockField
  import Lrw

  // ----------------------------------------------------------- what is carried

  /** The index of the last block and its mask; before the first block, the index of that. */
  datatype Tweak = Tweak(iv: Block, t: Block, started: bool)

  function Packed(w: Tweak): (s: Bytes)
    ensures |s| == 33
  {
    w.iv + w.t + [if w.started then 1 else 0]
  }

  function Unpacked(s: Bytes): Tweak
    requires |s| == 33
  {
    Tweak(s[..16], s[16..32], s[32] != 0)
  }

  lemma PackedBack(w: Tweak)
    ensures Unpacked(Packed(w)) == w
  {
    assert Packed(w)[..16] == w.iv && Packed(w)[16..32] == w.t;
  }

  // ------------------------------------------------------------- what is done

  /** The field, how an index is read and counted up, the cipher in one direction, and the prepared multiples of key2. */
  datatype Key = Key(o: GfTables.Ops<Block>, bits: Block -> Coefficients, inc: Block -> Block,
                     fn: Block -> Block, mulinc: seq<Block>) {
    ghost predicate Counts(b: Block) { bits(inc(b)) == Lrw.Inc(bits(b)) }
  }

  ghost predicate Prepared(k: Key, key2: Block) {
    GfTables.Laws(k.o) && (forall b :: k.Counts(b)) && Lrw.IsMulinc(k.o, k.mulinc, key2)
  }

  /** As the code does it: bytes from the highest to the lowest. */
  function RealKey(fn: Block -> Block, mulinc: seq<Block>): Key {
    Key(OnBlocks(), b => Bits(b), b => BlockOf(Lrw.Inc(Bits(b))), fn, mulinc)
  }

  lemma RealKeyPrepared(fn: Block -> Block, mulinc: seq<Block>, key2: Block)
    requires Lrw.IsMulinc(OnBlocks(), mulinc, key2)
    ensures Prepared(RealKey(fn, mulinc), key2)
  {
    BlockLaws();
    forall b ensures RealKey(fn, mulinc).Counts(b) { BitsOfBlock(Lrw.Inc(Bits(b))); }
  }

  /** Before every block but the first the index is counted up and the mask moved along. */
  function Turned(k: Key, w: Tweak): Tweak {
    if !w.started then w.(started := true)
    else Tweak(k.inc(w.iv), k.o.add(w.t, Multiple(k, Lrw.TrailingOnes(k.bits(w.iv)))), true)
  }

  /** Past the end of the table the code finds whatever is there. */
  function Multiple(k: Key, i: nat): Block { if i < |k.mulinc| then k.mulinc[i] else k.o.zero }

  function Round(k: Key, t: Block, x: Block): Block { Lrw.Masked(k.o, k.fn, t, x) }

  function Step(k: Key, s: Bytes, x: Bytes): Out {
    if |s| == 33 && |x| == 16 then
      var w := Turned(k, Unpacked(s));
      Out(Round(k, w.t, x), Packed(w))
    else Out(x, s)
  }

  function LrwCoder(k: Key): Coder { Coder(16, 33, (s, x) => Step(k, s, x)) }

  lemma LrwIsGood(k: Key)
    ensures Good(LrwCoder(k))
  {
    forall s, x ensures LrwCoder(k).Keeps(s, x) {}
  }

  // ---------------------------------------------------------- blocks and bytes

  function Blocks(data: Bytes): seq<Block> {
    if |data| < 16 then [] else [data[..16]] + Blocks(data[16..])
  }

  function Joined(bs: seq<Block>): Bytes { if bs == [] then [] else bs[0] + Joined(bs[1..]) }

  lemma {:induction false} BlocksOfJoined(bs: seq<Block>)
    ensures Blocks(Joined(bs)) == bs && |Joined(bs)| == 16 * |bs|
  {
    if bs != [] {
      BlocksOfJoined(bs[1..]);
      assert Joined(bs)[..16] == bs[0] && Joined(bs)[16..] == Joined(bs[1..]);
    }
  }

  lemma {:induction false} JoinedBlocks(data: Bytes)
    ensures |Blocks(data)| == |data| / 16 && Joined(Blocks(data)) == data[..|data| - LeftOver(16, |data|)]
    decreases |data|
  {
    if |data| >= 16 {
      var rest := data[16..];
      JoinedBlocks(rest);
      assert Blocks(data)[1..] == Blocks(rest);
      assert data[..|data| - LeftOver(16, |data|)] == data[..16] + rest[..|rest| - LeftOver(16, |rest|)];
    }
  }

  /** The bytes of the whole blocks, each masked with key2 times its index. */
  ghost function CryptedBytes(k: Key, key2: Block, iv: Coefficients, data: Bytes): Bytes {
    Joined(Lrw.Crypted(k.o, k.fn, Lrw.MaskOf(k.o, key2, iv), 0, Blocks(data)))
  }

  // --------------------------------------------------------------- the masks

  /** From one block to the next the index is counted up, and the mask moved along as the table says. */
  ghost predicate Moves(k: Key, index: nat -> Coefficients, mask: nat -> Block, n: nat) {
    && index(n + 1) == Lrw.Inc(index(n))
    && mask(n + 1) == k.o.add(mask(n), Multiple(k, Lrw.TrailingOnes(index(n))))
  }

  /** What is carried before block `n`. */
  ghost predicate AtBlock(k: Key, index: nat -> Coefficients, mask: nat -> Block, n: nat, w: Tweak) {
    var last := if n == 0 then 0 else n - 1;
    w.started == (n > 0) && k.bits(w.iv) == index(last) && w.t == mask(last)
  }

  lemma TurnsTo(k: Key, index: nat -> Coefficients, mask: nat -> Block, n: nat, w: Tweak) returns (w': Tweak)
    requires (forall b :: k.Counts(b)) && AtBlock(k, index, mask, n, w) && (n > 0 ==> Moves(k, index, mask, n - 1))
    ensures w' == Turned(k, w) && w'.t == mask(n) && AtBlock(k, index, mask, n + 1, w')
  {
    w' := Turned(k, w);
    assert k.Counts(w.iv);
  }

  // ----------------------------------------------------------- block by block

  /** What becomes of the blocks, and what is carried after them. */
  function Rounds(k: Key, w: Tweak, bs: seq<Block>): seq<Block>
    decreases |bs|
  {
    if bs == [] then [] else [Round(k, Turned(k, w).t, bs[0])] + Rounds(k, Turned(k, w), bs[1..])
  }

  function After(k: Key, w: Tweak, bs: seq<Block>): Tweak
    decreases |bs|
  {
    if bs == [] then w else After(k, Turned(k, w), bs[1..])
  }

  lemma ChainFirst(p: Coder, s: Bytes, data: Bytes)
    requires 0 < p.size <= |data|
    ensures var o := p.step(s, data[..p.size]);
            && Chain(p, s, data) == o.block + Chain(p, o.iv, data[p.size..])
            && ChainIv(p, s, data) == ChainIv(p, o.iv, data[p.size..])
  {
  }

  lemma StepIs(k: Key, w: Tweak, x: Block)
    ensures LrwCoder(k).step(Packed(w), x) == Out(Round(k, Turned(k, w).t, x), Packed(Turned(k, w)))
  {
    PackedBack(w);
  }

  lemma RoundsFirst(k: Key, w: Tweak, data: Bytes)
    requires |data| >= 16
    ensures Joined(Rounds(k, w, Blocks(data)))
            == Round(k, Turned(k, w).t, data[..16]) + Joined(Rounds(k, Turned(k, w), Blocks(data[16..])))
    ensures After(k, w, Blocks(data)) == After(k, Turned(k, w), Blocks(data[16..]))
  {
    assert Blocks(data)[1..] == Blocks(data[16..]);
    var rest := Rounds(k, Turned(k, w), Blocks(data[16..]));
    assert Rounds(k, w, Blocks(data))[1..] == rest;
  }

  ghost predicate ChainsAs(p: Coder, s: Bytes, data: Bytes, out: Bytes, s': Bytes) {
    Chain(p, s, data) == out && ChainIv(p, s, data) == s'
  }

  /** The chain of bytes is the blocks one after the other. */
  lemma {:induction false} ChainIsRounds(k: Key, w: Tweak, data: Bytes)
    ensures ChainsAs(LrwCoder(k), Packed(w), data, Joined(Rounds(k, w, Blocks(data))), Packed(After(k, w, Blocks(data))))
    decreases |data|
  {
    if |data| >= 16 {
      StepIs(k, w, data[..16]);
      ChainFirst(LrwCoder(k), Packed(w), data);
      ChainIsRounds(k, Turned(k, w), data[16..]);
      RoundsFirst(k, w, data);
    }
  }

  lemma CryptedOne(k: Key, mask: nat -> Block, n: nat, bs: seq<Block>)
    requires bs != []
    ensures Lrw.Crypted(k.o, k.fn, mask, n, bs) == [Round(k, mask(n), bs[0])] + Lrw.Crypted(k.o, k.fn, mask, n + 1, bs[1..])
  {
  }

  /** Each block gets the mask of its index, though the mask is only moved along. */
  lemma {:induction false} RoundsMask(k: Key, index: nat -> Coefficients, mask: nat -> Block, n: nat, to: nat,
                                      w: Tweak, bs: seq<Block>)
    requires (forall b :: k.Counts(b)) && AtBlock(k, index, mask, n, w) && to == n + |bs|
    requires forall m: nat :: m + 1 < to ==> Moves(k, index, mask, m)
    ensures Rounds(k, w, bs) == Lrw.Crypted(k.o, k.fn, mask, n, bs) && AtBlock(k, index, mask, to, After(k, w, bs))
    decreases |bs|
  {
    if bs != [] {
      var w1 := TurnsTo(k, index, mask, n, w);
      CryptedOne(k, mask, n, bs);
      RoundsMask(k, index, mask, n + 1, to, w1, bs[1..]);
    }
  }

  /** Does the index stay below 2^128 for `n` blocks? */
  predicate Fits(iv: seq<bool>, n: nat) { Lrw.ValueOf(iv) + n <= GfTables.Pow2(|iv|) }

  lemma NotLast(iv: seq<bool>, n: nat)
    requires Fits(iv, n + 2)
    ensures !Lrw.AllOnes(Lrw.Plus(iv, n))
  {
    Lrw.NotFull(iv, n);
  }

  ghost function IndexOf(iv: Coefficients): nat -> Coefficients { (n: nat) => Lrw.Plus(iv, n) }

  /** The products of key2 and the indices do move so. */
  lemma MasksMove(k: Key, key2: Block, iv: Coefficients, n: nat)
    requires Prepared(k, key2) && Fits(iv, n + 2)
    ensures Moves(k, IndexOf(iv), Lrw.MaskOf(k.o, key2, iv), n)
  {
    NotLast(iv, n);
    Lrw.MaskAdvances(k.o, k.mulinc, key2, Lrw.Plus(iv, n));
  }

  // ------------------------------------------------------------ a whole request

  /** In memory as others see it, `bytes` were put into the first of the `n` bytes of the list, and nothing else changed. */
  ghost predicate Put(f: Buffers, m0: Bytes, m1: Bytes, dst: Walk, n: nat, bytes: Bytes) {
    Ok(dst) && n <= |Rest(dst)| && Wrote(Visible(f, m0), Visible(f, m1), Ahead(dst, n)[..n - LeftOver(16, n)], bytes)
  }

  /** What a request from the start puts out, and the index it leaves. */
  lemma RequestMasks(k: Key, key2: Block, w: Tweak, x: Bytes, s': Bytes) returns (w': Tweak)
    requires Prepared(k, key2) && !w.started && w.t == GfTables.Times(k.o, k.bits(w.iv), key2)
    requires Fits(k.bits(w.iv), |x| / 16) && s' == ChainIv(LrwCoder(k), Packed(w), x)
    ensures Chain(LrwCoder(k), Packed(w), x) == CryptedBytes(k, key2, k.bits(w.iv), x)
    ensures |s'| == 33 && w' == Unpacked(s') && LeftAt(k, k.bits(w.iv), |x|, w'.iv)
  {
    var iv := k.bits(w.iv);
    JoinedBlocks(x);
    ChainIsRounds(k, w, x);
    w' := AllMasked(k, key2, iv, w, Blocks(x));
    PackedBack(w');
  }

  lemma AllMasked(k: Key, key2: Block, iv: Coefficients, w: Tweak, bs: seq<Block>) returns (w': Tweak)
    requires Prepared(k, key2) && !w.started && k.bits(w.iv) == iv && w.t == GfTables.Times(k.o, iv, key2) && Fits(iv, |bs|)
    ensures Rounds(k, w, bs) == Lrw.Crypted(k.o, k.fn, Lrw.MaskOf(k.o, key2, iv), 0, bs)
    ensures w' == After(k, w, bs) && k.bits(w'.iv) == if bs == [] then iv else Lrw.Plus(iv, |bs| - 1)
  {
    w' := After(k, w, bs);
    forall m: nat | m + 1 < |bs| ensures Moves(k, IndexOf(iv), Lrw.MaskOf(k.o, key2, iv), m) { MasksMove(k, key2, iv, m); }
    RoundsMask(k, IndexOf(iv), Lrw.MaskOf(k.o, key2, iv), 0, |bs|, w, bs);
  }

  /** The index left by a request of `n` bytes is that of its last block. */
  ghost predicate LeftAt(k: Key, iv: Coefficients, n: nat, iv': Block) {
    k.bits(iv') == if n < 16 then iv else Lrw.Plus(iv, n / 16 - 1)
  }

  /**
    Encryption or decryption of a request: the first mask is multiplied out, the others follow
    from it, from chunk to chunk of the walk.  The destination gets every whole block of the
    source masked with key2 times its index, and the index of the last one is left.
   */
  method Crypt(k: Key, ts: seq<seq<Block>>, ghost key2: Block, m: array<Byte>, f: Buffers, alignMask: nat,
               src: seq<Seg>, dst: seq<Seg>, nbytes: nat, iv: Block) returns (r: Result, iv': Block)
    requires Prepared(k, key2) && |ts| == 16 && GfMultiply.AreTables(k.o, GfMultiply.Bbe, ts, key2)
    requires src != [] && dst != [] && Room(f, 16, m.Length) && Ready(f, m[..], Start(src), Start(dst), nbytes)
    requires Fits(k.bits(iv), nbytes / 16)
    modifies m
    ensures r.Success? <==> LeftOver(16, nbytes) == 0
    ensures Put(f, old(m[..]), m[..], Start(dst), nbytes,
                CryptedBytes(k, key2, k.bits(iv), Read(old(m[..]), Ahead(Start(src), nbytes))))
    ensures LeftAt(k, k.bits(iv), nbytes, iv')
  {
    ghost var m0, x := m[..], Read(m[..], Ahead(Start(src), nbytes));
    var t := GfMultiply.Multiply64k(k.o, GfMultiply.Bbe, ts, key2, k.bits(iv), GfMultiply.Bytes(GfMultiply.Bbe, k.bits(iv)));
    var w := Tweak(iv, t, false);
    var s;
    r, s := Walked(k, m, f, alignMask, src, dst, nbytes, Packed(w));
    ghost var w' := RequestMasks(k, key2, w, x, s);
    iv' := Unpacked(s).iv;
  }

  method Walked(k: Key, m: array<Byte>, f: Buffers, alignMask: nat, src: seq<Seg>, dst: seq<Seg>, nbytes: nat, s: Bytes)
    returns (r: Result, s': Bytes)
    requires |s| == 33 && src != [] && dst != [] && Room(f, 16, m.Length) && Ready(f, m[..], Start(src), Start(dst), nbytes)
    modifies m
    ensures r.Success? <==> LeftOver(16, nbytes) == 0
    ensures var x := Read(old(m[..]), Ahead(Start(src), nbytes));
            && s' == ChainIv(LrwCoder(k), s, x)
            && Put(f, old(m[..]), m[..], Start(dst), nbytes, Chain(LrwCoder(k), s, x))
  {
    var walker := new Walker(m, f, alignMask, src, dst, nbytes, s);
    LrwIsGood(k);
    r := walker.Crypt(Straight(LrwCoder(k)));
    assert Ahead(Start(src), nbytes)[..nbytes] == Ahead(Start(src), nbytes);
    s' := walker.iv;
  }

  lemma WholeBlocks(data: Bytes)
    requires LeftOver(16, |data|) == 0
    ensures Joined(Blocks(data)) == data
  {
    JoinedBlocks(data);
  }

  lemma BlocksUndone(enc: Key, dec: Key, key2: Block, iv: Coefficients, bs: seq<Block>, cs: seq<Block>)
    requires GfTables.Laws(enc.o) && dec.o == enc.o && (forall x :: dec.fn(enc.fn(x)) == x)
    requires cs == Lrw.Crypted(enc.o, enc.fn, Lrw.MaskOf(enc.o, key2, iv), 0, bs)
    ensures CryptedBytes(dec, key2, iv, Joined(cs)) == Joined(bs)
  {
    Lrw.CryptedUndone(enc.o, enc.fn, dec.fn, Lrw.MaskOf(enc.o, key2, iv), 0, bs);
    BlocksOfJoined(cs);
  }

  /** Decryption undoes encryption. */
  lemma BytesUndone(enc: Key, dec: Key, key2: Block, iv: Coefficients, data: Bytes)
    requires GfTables.Laws(enc.o) && dec.o == enc.o && (forall x :: dec.fn(enc.fn(x)) == x) && LeftOver(16, |data|) == 0
    ensures CryptedBytes(dec, key2, iv, CryptedBytes(enc, key2, iv, data)) == data
  {
    var bs := Blocks(data);
    BlocksUndone(enc, dec, key2, iv, bs, Lrw.Crypted(enc.o, enc.fn, Lrw.MaskOf(enc.o, key2, iv), 0, bs));
    WholeBlocks(data);
  }

  /** In the field itself the mask of a block is the polynomial product of key2 and its index, reduced. */
  lemma MaskInField(k: Key, key2: Block, iv: Coefficients, n: nat)
    requires k.o == OnBlocks()
    ensures Bits(Lrw.MaskOf(k.o, key2, iv)(n)) == Gf128.Reduce(Gf128.Product(Lrw.Binary(Lrw.ValueOf(iv) + n, 128), Bits(key2)))
  {
    TimesTransports(Lrw.Plus(iv, n), key2);
    Lrw.MaskIsProduct(Bits(key2), iv, n);
  }
}
