// Camellia as the kernel computes it, and as section 2 of RFC 3713 defines it.
//
// The kernel's key setup absorbs the whitening keys kw2 and kw4 into the round keys,
// carries them through the FL layers, moves the key addition to the end of the round
// function and undoes half of the P permutation in advance.  The fast cipher on that
// table is proved equal to the plain cipher on the raw subkeys, for arbitrary
// substitution tables and any number of six-round groups (three for 128-bit keys,
// four for longer ones).
module Camellia {
  import opened CamelliaSchedule
  import opened CamelliaDecrypt

  /** A 32-bit word as its bits, the most significant first. */
  type Word = w: seq<bool> | |w| == 32 witness seq(32, _ => false)

  /** A 64-bit half of a block, or a subkey. */
  datatype Half = Half(l: Word, r: Word)

  /** The four substitution tables, read at bytes. */
  datatype Tables = Tables(sp1110: seq<bool> -> Word, sp0222: seq<bool> -> Word,
                           sp3033: seq<bool> -> Word, sp4404: seq<bool> -> Word)

  function XorW(x: Word, y: Word): Word { seq(32, i requires 0 <= i < 32 => x[i] != y[i]) }
  function AndW(x: Word, y: Word): Word { seq(32, i requires 0 <= i < 32 => x[i] && y[i]) }
  function OrW(x: Word, y: Word): Word { seq(32, i requires 0 <= i < 32 => x[i] || y[i]) }
  function NotW(x: Word): Word { seq(32, i requires 0 <= i < 32 => !x[i]) }

  function RR8(x: Word): Word { x[24..] + x[..24] }
  function RL8(x: Word): Word { x[8..] + x[..8] }
  function RL1(x: Word): Word { x[1..] + x[..1] }

  /** Byte `i` of a word, the most significant being 0. */
  function ByteOf(x: Word, i: nat): seq<bool>
    requires i < 4
  {
    x[8 * i..8 * i + 8]
  }

  function Xor(x: Half, y: Half): Half {
    Half(XorW(x.l, y.l), XorW(x.r, y.r))
  }

  const ZERO_WORD: Word := seq(32, _ => false)
  const ZERO := Half(ZERO_WORD, ZERO_WORD)

  // ------------------------------------------------------------ the pieces

  /** What the tables make of the right half of a round's input. */
  function SubRight(t: Tables, r: Word): Word {
    XorW(XorW(XorW(t.sp1110(ByteOf(r, 3)), t.sp0222(ByteOf(r, 0))), t.sp3033(ByteOf(r, 1))), t.sp4404(ByteOf(r, 2)))
  }

  /** What the tables make of the left half of a round's input. */
  function SubLeft(t: Tables, l: Word): Word {
    XorW(XorW(XorW(t.sp1110(ByteOf(l, 0)), t.sp0222(ByteOf(l, 1))), t.sp3033(ByteOf(l, 2))), t.sp4404(ByteOf(l, 3)))
  }

  /** The round function as used by the key schedule: the plain form. */
  function F(t: Tables, x: Half, k: Half): Half {
    var i := Xor(x, k);
    var yl, yr := SubRight(t, i.r), SubLeft(t, i.l);
    var yl1 := XorW(yl, yr);
    Half(yl1, XorW(RR8(yr), yl1))
  }

  /** The end of a fast round: the key is added before the last half of P. */
  function Mix(ir: Word, il: Word, k: Half, y: Half): Half {
    var il1 := XorW(il, k.l);
    var ir1 := XorW(ir, XorW(il1, k.r));
    Half(XorW(y.l, ir1), XorW(y.r, XorW(RR8(il1), ir1)))
  }

  /** One round of the fast cipher: `y` after mixing in `x`. */
  function RoundSM(t: Tables, x: Half, k: Half, y: Half): Half {
    Mix(SubRight(t, x.r), SubLeft(t, x.l), k, y)
  }

  function FL(x: Half, k: Half): Half {
    var r := XorW(x.r, RL1(AndW(x.l, k.l)));
    Half(XorW(x.l, OrW(r, k.r)), r)
  }

  function FLInv(y: Half, k: Half): Half {
    var l := XorW(y.l, OrW(y.r, k.r));
    Half(l, XorW(y.r, RL1(AndW(l, k.l))))
  }

  /** How a difference passes backwards through FL, and forwards through its inverse. */
  function Carry(w: Half, k: Half): Half {
    var l := XorW(w.l, AndW(w.r, NotW(k.r)));
    Half(l, XorW(w.r, RL1(AndW(l, k.l))))
  }

  /** The inverse of the last half of P, applied to a key in advance. */
  function UndoP(k: Half): Half {
    var dw := RL8(XorW(k.l, k.r));
    Half(dw, XorW(k.l, dw))
  }

  // ------------------------------------------------------- facts about them

  lemma XorSame(x: Half, y: Half)
    ensures Xor(Xor(x, y), y) == x
  {
  }

  lemma RotationsSplit(a: Word, b: Word)
    ensures RR8(XorW(a, b)) == XorW(RR8(a), RR8(b))
    ensures RL1(XorW(a, b)) == XorW(RL1(a), RL1(b))
    ensures RR8(RL8(a)) == a
  {
  }

  /** The key comes out of a fast round as it went into the table. */
  lemma MixIs(a: Word, b: Word, k: Half, y: Half)
    ensures var ab := XorW(a, b);
            Mix(a, b, UndoP(k), y) == Xor(Xor(y, Half(ab, XorW(RR8(b), ab))), k)
  {
    var d := XorW(k.l, k.r);
    RotationsSplit(b, RL8(d));
    RotationsSplit(d, d);
  }

  lemma XorZero(x: Half)
    ensures Xor(x, ZERO) == x
  {
  }

  /** A fast round adds the plain round function, without key, and then the key. */
  lemma RoundIs(t: Tables, x: Half, k: Half, y: Half)
    ensures RoundSM(t, x, UndoP(k), y) == Xor(Xor(y, F(t, x, ZERO)), k)
  {
    XorZero(x);
    MixIs(SubRight(t, x.r), SubLeft(t, x.l), k, y);
  }

  /** The key may be added before the round function instead. */
  lemma KeyMoves(t: Tables, x: Half, k: Half)
    ensures F(t, x, k) == F(t, Xor(x, k), ZERO)
  {
    XorZero(Xor(x, k));
  }

  /** A fast round undoes itself, under any key. */
  lemma RoundTwice(t: Tables, x: Half, k: Half, y: Half)
    ensures RoundSM(t, x, k, RoundSM(t, x, k, y)) == y
  {
    var il := XorW(SubLeft(t, x.l), k.l);
    var ir := XorW(SubRight(t, x.r), XorW(il, k.r));
    XorSame(y, Half(ir, XorW(RR8(il), ir)));
  }

  /** A difference carried backwards through FL comes out as it was. */
  lemma CarryThroughFL(x: Half, w: Half, k: Half)
    ensures FL(Xor(x, Carry(w, k)), k) == Xor(FL(x, k), w)
  {
    var c := Carry(w, k);
    assert AndW(XorW(x.l, c.l), k.l) == XorW(AndW(x.l, k.l), AndW(c.l, k.l));
    RotationsSplit(AndW(x.l, k.l), AndW(c.l, k.l));
  }

  /** The inverse of FL turns a difference into the carried one. */
  lemma CarryThroughFLInv(y: Half, w: Half, k: Half)
    ensures FLInv(Xor(y, w), k) == Xor(FLInv(y, k), Carry(w, k))
  {
    var l, c := FLInv(y, k).l, Carry(w, k).l;
    assert FLInv(Xor(y, w), k).l == XorW(l, c);
    assert AndW(XorW(l, c), k.l) == XorW(AndW(l, k.l), AndW(c, k.l));
    RotationsSplit(AndW(l, k.l), AndW(c, k.l));
  }

  lemma CarryAdds(v: Half, w: Half, k: Half)
    ensures Carry(Xor(v, w), k) == Xor(Carry(v, k), Carry(w, k))
  {
    var a, b := Carry(v, k).l, Carry(w, k).l;
    assert Carry(Xor(v, w), k).l == XorW(a, b);
    assert AndW(XorW(a, b), k.l) == XorW(AndW(a, k.l), AndW(b, k.l));
    RotationsSplit(AndW(a, k.l), AndW(b, k.l));
  }

  lemma FLInverts(x: Half, k: Half)
    ensures FLInv(FL(x, k), k) == x && FL(FLInv(x, k), k) == x
  {
    assert XorW(XorW(x.l, OrW(FL(x, k).r, k.r)), OrW(FL(x, k).r, k.r)) == x.l;
    assert XorW(XorW(x.r, RL1(AndW(x.l, k.l))), RL1(AndW(x.l, k.l))) == x.r;
  }

  // ------------------------------------------------------- the laws together

  lemma XorLaws(x: Half, y: Half, z: Half)
    ensures Xor(Xor(x, y), z) == Xor(x, Xor(y, z)) && Xor(x, y) == Xor(y, x)
  {
  }

  function OpsOf(t: Tables): Ops<Half> {
    Ops((x, y) => Xor(x, y), x => F(t, x, ZERO), k => UndoP(k), (x, k, y) => RoundSM(t, x, k, y),
        (x, k) => FL(x, k), (y, k) => FLInv(y, k), (w, k) => Carry(w, k))
  }

  lemma LawsHold(t: Tables)
    ensures Laws(OpsOf(t))
  {
    var o := OpsOf(t);
    forall x, y, z ensures o.Join(x, y, z) { XorLaws(x, y, z); }
    forall x, y ensures o.Swaps(x, y) { XorLaws(x, y, x); }
    forall x, y ensures o.Twice(x, y) { XorSame(x, y); }
    forall x, k, y ensures o.RoundAdds(x, k, y) { RoundIs(t, x, k, y); }
    forall x, k, y ensures o.RoundTwice(x, k, y) { RoundTwice(t, x, k, y); }
    forall v, w, k ensures o.CarryAdds(v, w, k) { CarryAdds(v, w, k); }
    forall x, w, k ensures o.ThroughFl(x, w, k) { CarryThroughFL(x, w, k); }
    forall x, w, k ensures o.ThroughFlInv(x, w, k) { CarryThroughFLInv(x, w, k); }
    forall x, k ensures o.FlInverts(x, k) { FLInverts(x, k); }
  }

  /** A round of the plain cipher is a Feistel step with the round function and its key. */
  lemma PlainRoundIs(t: Tables, k: Half, d: Block<Half>)
    ensures PlainRound(OpsOf(t), k, d) == Block(Xor(d.b, F(t, d.a, k)), d.a)
  {
    KeyMoves(t, d.a, k);
  }

  /** With the kernel's own operations: its table cipher is Camellia, and its decryption the inverse. */
  lemma KernelIsCamellia(t: Tables, k: seq<Half>, raw: seq<Half>, groups: nat, m: Block<Half>)
    requires IsRaw(raw, groups) && IsTable(OpsOf(t), k, raw, groups)
    ensures Fast(OpsOf(t), k, groups, m) == Plain(OpsOf(t), raw, groups, m)
    ensures Back(OpsOf(t), k, groups, Plain(OpsOf(t), raw, groups, m)) == m
    ensures forall key, d :: PlainRound(OpsOf(t), key, d) == Block(Xor(d.b, F(t, d.a, key)), d.a)
  {
    forall key, d ensures PlainRound(OpsOf(t), key, d) == Block(Xor(d.b, F(t, d.a, key)), d.a) {
      PlainRoundIs(t, key, d);
    }
    LawsHold(t);
    FastIsPlain(OpsOf(t), k, raw, groups, m);
    BackUndoesPlain(OpsOf(t), k, raw, groups, m);
  }
}
