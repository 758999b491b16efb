/** The field on blocks of sixteen bytes, the last byte holding the lowest coefficients, as `be128` is used. */
module BlockField {
  import opened GfTables
  import GfMultiply
  import Gf128
  import BlockModes

  type Byte = BlockModes.Byte
  type Coefficients = GfMultiply.Coefficients
  type Block = b: BlockModes.Bytes | |b| == 16 witness seq(16, _ => 0)

  // ---------------------------------------------------------------- one byte

  function Mask(m: nat): Byte
    requires m < 8
  {
    if m == 0 then 1 else if m == 1 then 2 else if m == 2 then 4 else if m == 3 then 8
    else if m == 4 then 16 else if m == 5 then 32 else if m == 6 then 64 else 128
  }

  predicate BitAt(b: Byte, m: nat)
    requires m < 8
  {
    Has(b, Mask(m))
  }

  predicate Has(b: Byte, k: Byte) { b & k != 0 }

  function BitsOf(b: Byte): seq<bool> { seq(8, m requires 0 <= m < 8 => BitAt(b, m)) }

  function Weight(c: bool, w: Byte): Byte { if c then w else 0 }

  function Gathered(c0: bool, c1: bool, c2: bool, c3: bool, c4: bool, c5: bool, c6: bool, c7: bool): Byte {
    Weight(c0, 1) | Weight(c1, 2) | Weight(c2, 4) | Weight(c3, 8)
    | Weight(c4, 16) | Weight(c5, 32) | Weight(c6, 64) | Weight(c7, 128)
  }

  function ByteOf(c: seq<bool>): Byte
    requires |c| == 8
  {
    Gathered(c[0], c[1], c[2], c[3], c[4], c[5], c[6], c[7])
  }

  lemma GatheredBit(c0: bool, c1: bool, c2: bool, c3: bool, c4: bool, c5: bool, c6: bool, c7: bool, m: nat)
    requires m < 8
    ensures BitAt(Gathered(c0, c1, c2, c3, c4, c5, c6, c7), m)
            == if m == 0 then c0 else if m == 1 then c1 else if m == 2 then c2 else if m == 3 then c3
               else if m == 4 then c4 else if m == 5 then c5 else if m == 6 then c6 else c7
  {
  }

  lemma BitsOfByte(c: seq<bool>)
    requires |c| == 8
    ensures BitsOf(ByteOf(c)) == c
  {
    forall m | 0 <= m < 8 ensures BitAt(ByteOf(c), m) == c[m] {
      GatheredBit(c[0], c[1], c[2], c[3], c[4], c[5], c[6], c[7], m);
    }
  }

  lemma ByteOfBits(b: Byte)
    ensures ByteOf(BitsOf(b)) == b
  {
    EightMasks(b);
  }

  lemma EightMasks(b: Byte)
    ensures b == Gathered(b & 1 != 0, b & 2 != 0, b & 4 != 0, b & 8 != 0,
                          b & 16 != 0, b & 32 != 0, b & 64 != 0, b & 128 != 0)
  {
    assert b == (b & 1) | (b & 2) | (b & 4) | (b & 8) | (b & 16) | (b & 32) | (b & 64) | (b & 128);
  }

  // ------------------------------------------------------------- sixteen bytes

  function Bits(b: Block): Coefficients { seq(128, j requires 0 <= j < 128 => BitsOf(b[15 - j / 8])[j % 8]) }

  function BlockOf(c: Coefficients): Block {
    seq(16, p requires 0 <= p < 16 => ByteOf(c[8 * (15 - p)..8 * (15 - p) + 8]))
  }

  lemma BitsOfBlock(c: Coefficients)
    ensures Bits(BlockOf(c)) == c
  {
    SameCoefficients(Bits(BlockOf(c)), c, BlockOf(c));
  }

  lemma SameCoefficients(d: Coefficients, c: Coefficients, b: Block)
    requires b == BlockOf(c) && d == Bits(b)
    ensures d == c
  {
    forall j | 0 <= j < 128 ensures d[j] == c[j] { BitOfBlock(d, c, b, j); }
  }

  lemma BitOfBlock(d: Coefficients, c: Coefficients, b: Block, j: nat)
    requires j < 128 && b == BlockOf(c) && d == Bits(b)
    ensures d[j] == c[j]
  {
    var i, m := j / 8, j % 8;
    BitFrom(b, j, 15 - i, m);
    ByteFrom(c, b, i);
    BitsOfByte(c[8 * i..8 * i + 8]);
  }

  lemma ByteFrom(c: Coefficients, b: Block, i: nat)
    requires i < 16 && b == BlockOf(c)
    ensures b[15 - i] == ByteOf(c[8 * i..8 * i + 8])
  {
  }

  lemma BitFrom(b: Block, j: nat, p: nat, m: nat)
    requires j < 128 && p == 15 - j / 8 && m == j % 8
    ensures Bits(b)[j] == BitsOf(b[p])[m]
  {
  }

  lemma BlockOfBits(b: Block)
    ensures BlockOf(Bits(b)) == b
  {
    forall p | 0 <= p < 16 ensures BlockOf(Bits(b))[p] == b[p] { ByteBack(b, Bits(b), p); }
  }

  lemma ByteBack(b: Block, c: Coefficients, p: nat)
    requires p < 16 && c == Bits(b)
    ensures BlockOf(c)[p] == b[p]
  {
    ChunkOfBits(b, 15 - p);
    ByteBackFrom(c[8 * (15 - p)..8 * (15 - p) + 8], b[p]);
  }

  lemma ByteBackFrom(c: seq<bool>, b: Byte)
    requires c == BitsOf(b)
    ensures ByteOf(c) == b
  {
    ByteOfBits(b);
  }

  lemma ChunkOfBits(b: Block, i: nat)
    requires i < 16
    ensures Bits(b)[8 * i..8 * i + 8] == BitsOf(b[15 - i])
  {
    var c := Bits(b)[8 * i..8 * i + 8];
    forall m | 0 <= m < 8 ensures c[m] == BitsOf(b[15 - i])[m] {
      assert (8 * i + m) / 8 == i && (8 * i + m) % 8 == m;
    }
  }

  // ------------------------------------------------------------------ the field

  /** The operations of the field, on the bytes of its elements. */
  function OnBlocks(): Ops<Block> {
    Ops((x, y) => BlockOf(Gf128.Add(Bits(x), Bits(y))), BlockOf(Gf128.ZERO),
        x => BlockOf(Gf128.MulX(Bits(x))), x => BlockOf(Gf128.MulX8(GfMultiply.Bbe, Bits(x))))
  }

  function InField(): Ops<Coefficients> { Gf128.Field(GfMultiply.Bbe) }

  lemma Transports(x: Block, y: Block)
    ensures Bits(OnBlocks().add(x, y)) == InField().add(Bits(x), Bits(y))
    ensures Bits(OnBlocks().mulX(x)) == InField().mulX(Bits(x)) && Bits(OnBlocks().mulX8(x)) == InField().mulX8(Bits(x))
    ensures Bits(OnBlocks().zero) == InField().zero
  {
    BitsOfBlock(Gf128.Add(Bits(x), Bits(y)));
    BitsOfBlock(Gf128.MulX(Bits(x)));
    BitsOfBlock(Gf128.MulX8(GfMultiply.Bbe, Bits(x)));
    BitsOfBlock(Gf128.ZERO);
  }

  /** Blocks with the same coefficients are the same. */
  lemma SameBits(x: Block, y: Block)
    requires Bits(x) == Bits(y)
    ensures x == y
  {
    BlockOfBits(x);
    BlockOfBits(y);
  }

  lemma {:induction false} PowTransports(x: Block, n: nat)
    ensures Bits(Pow(OnBlocks(), x, n)) == Pow(InField(), Bits(x), n)
  {
    if n > 0 {
      PowTransports(x, n - 1);
      Transports(Pow(OnBlocks(), x, n - 1), x);
    }
  }

  /** A product of blocks is the product of what they stand for. */
  lemma {:induction false} TimesTransports(c: seq<bool>, g: Block)
    ensures Bits(Times(OnBlocks(), c, g)) == Times(InField(), c, Bits(g))
  {
    Transports(g, g);
    if c != [] {
      TimesTransports(c[1..], g);
      var rest := Times(OnBlocks(), c[1..], g);
      Transports(rest, rest);
      Transports(Scale(OnBlocks(), c[0], g), OnBlocks().mulX(rest));
    }
  }

  lemma AddsBlocks(x: Block, y: Block, z: Block)
    ensures var o := OnBlocks(); o.Join(x, y, z) && o.Swaps(x, y) && o.Zero(x) && o.Twice(x)
  {
    var o, i := OnBlocks(), InField();
    Gf128.LawsHold(GfMultiply.Bbe);
    Transports(x, y);
    Transports(y, x);
    Transports(y, z);
    Transports(x, x);
    Transports(x, o.zero);
    Transports(o.add(x, y), z);
    Transports(x, o.add(y, z));
    assert i.Join(Bits(x), Bits(y), Bits(z)) && i.Swaps(Bits(x), Bits(y)) && i.Zero(Bits(x)) && i.Twice(Bits(x));
    SameBits(o.add(o.add(x, y), z), o.add(x, o.add(y, z)));
    SameBits(o.add(x, y), o.add(y, x));
    SameBits(o.add(x, o.zero), x);
    SameBits(o.add(x, x), o.zero);
  }

  lemma MulXAddsBlocks(x: Block, y: Block)
    ensures OnBlocks().Adds(x, y)
  {
    var o := OnBlocks();
    Gf128.LawsHold(GfMultiply.Bbe);
    Transports(x, y);
    Transports(y, x);
    Transports(o.add(x, y), x);
    Transports(o.mulX(x), o.mulX(y));
    assert InField().Adds(Bits(x), Bits(y));
    SameBits(o.mulX(o.add(x, y)), o.add(o.mulX(x), o.mulX(y)));
  }

  lemma EightOnBlocks(x: Block)
    ensures OnBlocks().Eight(x)
  {
    var o := OnBlocks();
    Gf128.LawsHold(GfMultiply.Bbe);
    Transports(x, x);
    PowTransports(x, 8);
    assert InField().Eight(Bits(x));
    SameBits(o.mulX8(x), Pow(o, x, 8));
  }

  lemma MulXZero()
    ensures OnBlocks().mulX(OnBlocks().zero) == OnBlocks().zero
  {
    var o := OnBlocks();
    Gf128.LawsHold(GfMultiply.Bbe);
    Transports(o.zero, o.zero);
    SameBits(o.mulX(o.zero), o.zero);
  }

  /** So blocks obey the laws of the field. */
  lemma BlockLaws()
    ensures Laws(OnBlocks())
  {
    var o := OnBlocks();
    forall x, y, z ensures o.Join(x, y, z) { AddsBlocks(x, y, z); }
    forall x, y ensures o.Swaps(x, y) { AddsBlocks(x, y, x); }
    forall x ensures o.Zero(x) { AddsBlocks(x, x, x); }
    forall x ensures o.Twice(x) { AddsBlocks(x, x, x); }
    forall x, y ensures o.Adds(x, y) { MulXAddsBlocks(x, y); }
    forall x ensures o.Eight(x) { EightOnBlocks(x); }
    MulXZero();
  }

  predicate OneBit(k: Byte) { k == 1 || k == 2 || k == 4 || k == 8 || k == 16 || k == 32 || k == 64 || k == 128 }

  lemma MaskIsOneBit(m: nat)
    requires m < 8
    ensures OneBit(Mask(m))
  {
  }

  lemma MaskedXor(a: Byte, b: Byte, c: Byte, k: Byte)
    requires OneBit(k) && c == a ^ b
    ensures Has(c, k) == (Has(a, k) != Has(b, k))
  {
  }

  lemma XoredBits(a: Byte, b: Byte, c: Byte, m: nat)
    requires m < 8 && c == a ^ b
    ensures BitAt(c, m) == (BitAt(a, m) != BitAt(b, m))
  {
    MaskIsOneBit(m);
    MaskedXor(a, b, c, Mask(m));
  }

  lemma XorBits8(a: Byte, b: Byte, c: Byte, m: nat)
    requires m < 8 && c == a ^ b
    ensures BitsOf(c)[m] == (BitsOf(a)[m] != BitsOf(b)[m])
  {
    XoredBits(a, b, c, m);
  }

  function Xored(x: Block, y: Block): Block { seq(16, p requires 0 <= p < 16 => x[p] ^ y[p]) }

  lemma XoredBit(x: Block, y: Block, j: nat)
    requires j < 128
    ensures Bits(Xored(x, y))[j] == (Bits(x)[j] != Bits(y)[j])
  {
    var p, m := 15 - j / 8, j % 8;
    BitFrom(x, j, p, m);
    BitFrom(y, j, p, m);
    BitFrom(Xored(x, y), j, p, m);
    XoredAt(x, y, p, m);
  }

  lemma XoredAt(x: Block, y: Block, p: nat, m: nat)
    requires p < 16 && m < 8
    ensures BitsOf(Xored(x, y)[p])[m] == (BitsOf(x[p])[m] != BitsOf(y[p])[m])
  {
    XorBits8(x[p], y[p], Xored(x, y)[p], m);
  }

  /** Adding is the exclusive or of the bytes. */
  lemma AddIsXor(x: Block, y: Block)
    ensures OnBlocks().add(x, y) == Xored(x, y)
  {
    Transports(x, y);
    forall j | 0 <= j < 128 ensures Bits(Xored(x, y))[j] == Gf128.Add(Bits(x), Bits(y))[j] { XoredBit(x, y, j); }
    SameBits(OnBlocks().add(x, y), Xored(x, y));
  }
}
