// Camellia's absorbed key table, the fast cipher on it, and the plain cipher on the raw
// subkeys.  All of it is written over the operations on 64-bit halves, and proved from
// the laws those operations obey.
module CamelliaSchedule {

  datatype Block<H> = Block(a: H, b: H)

  /** The operations on halves of a block. */
  datatype Ops<!H> = Ops(
    add: (H, H) -> H,          // exclusive or
    f: H -> H,                 // the round function without key
    undoP: H -> H,             // what key setup does to a key added at the end of a round
    round: (H, H, H) -> H,     // a fast round: left half, table key, right half
    fl: (H, H) -> H,
    flInv: (H, H) -> H,
    carry: (H, H) -> H)        // a difference taken back through fl
  {
    ghost predicate Join(x: H, y: H, z: H) { add(add(x, y), z) == add(x, add(y, z)) }
    ghost predicate Swaps(x: H, y: H) { add(x, y) == add(y, x) }
    ghost predicate Twice(x: H, y: H) { add(add(x, y), y) == x }
    ghost predicate RoundAdds(x: H, k: H, y: H) { round(x, undoP(k), y) == add(add(y, f(x)), k) }
    ghost predicate RoundTwice(x: H, k: H, y: H) { round(x, k, round(x, k, y)) == y }
    ghost predicate CarryAdds(v: H, w: H, k: H) { carry(add(v, w), k) == add(carry(v, k), carry(w, k)) }
    ghost predicate ThroughFl(x: H, w: H, k: H) { fl(add(x, carry(w, k)), k) == add(fl(x, k), w) }
    ghost predicate ThroughFlInv(x: H, w: H, k: H) { flInv(add(x, w), k) == add(flInv(x, k), carry(w, k)) }
    ghost predicate FlInverts(x: H, k: H) { flInv(fl(x, k), k) == x && fl(flInv(x, k), k) == x }
  }

  ghost predicate Laws<H(!new)>(o: Ops<H>) {
    && (forall x, y, z :: o.Join(x, y, z)) && (forall x, y :: o.Swaps(x, y)) && (forall x, y :: o.Twice(x, y))
    && (forall x, k, y :: o.RoundAdds(x, k, y)) && (forall x, k, y :: o.RoundTwice(x, k, y))
    && (forall v, w, k :: o.CarryAdds(v, w, k))
    && (forall x, w, k :: o.ThroughFl(x, w, k)) && (forall x, w, k :: o.ThroughFlInv(x, w, k))
    && (forall x, k :: o.FlInverts(x, k))
  }

  /**
    Raw subkeys: kw1, kw2, then for each six-round group its round keys, followed by the
    two FL keys unless it is the last, then kw3, kw4.
   */
  predicate IsRaw<H>(raw: seq<H>, groups: nat) {
    groups >= 1 && |raw| == 8 * groups + 2
  }

  // --------------------------------------------------------- plain cipher

  /** One round: the left half is mixed into the right one and the halves change places. */
  function PlainRound<H>(o: Ops<H>, k: H, d: Block<H>): Block<H> {
    Block(o.add(d.b, o.f(o.add(d.a, k))), d.a)
  }

  /** The rounds with the keys `raw[i..j]`. */
  function PlainRounds<H>(o: Ops<H>, raw: seq<H>, i: nat, j: nat, d: Block<H>): Block<H>
    requires i <= j <= |raw|
    decreases j - i
  {
    if i == j then d else PlainRounds(o, raw, i + 1, j, PlainRound(o, raw[i], d))
  }

  function Layer<H>(o: Ops<H>, d: Block<H>, k: H, kInv: H): Block<H> {
    Block(o.fl(d.a, k), o.flInv(d.b, kInv))
  }

  /** The plain cipher from group `g` on. */
  function PlainFrom<H>(o: Ops<H>, raw: seq<H>, groups: nat, g: nat, d: Block<H>): Block<H>
    requires IsRaw(raw, groups) && g < groups
    decreases groups - g
  {
    var d1 := PlainRounds(o, raw, 8 * g + 2, 8 * g + 8, d);
    if g == groups - 1 then d1
    else PlainFrom(o, raw, groups, g + 1, Layer(o, d1, raw[8 * g + 8], raw[8 * g + 9]))
  }

  /** Encryption as in section 2.3 of RFC 3713. */
  function Plain<H>(o: Ops<H>, raw: seq<H>, groups: nat, m: Block<H>): Block<H>
    requires IsRaw(raw, groups)
  {
    var d := PlainFrom(o, raw, groups, 0, Block(o.add(m.a, raw[0]), o.add(m.b, raw[1])));
    Block(o.add(d.b, raw[8 * groups]), o.add(d.a, raw[8 * groups + 1]))
  }

  // ------------------------------------------------------------ key table

  /** kw2 as it has been carried to group `g`. */
  function Kw2At<H>(o: Ops<H>, raw: seq<H>, groups: nat, g: nat): H
    requires IsRaw(raw, groups) && g < groups
  {
    if g == 0 then raw[1] else o.carry(Kw2At(o, raw, groups, g - 1), raw[8 * g + 1])
  }

  /** kw4 as it has been carried back to group `g`. */
  function Kw4At<H>(o: Ops<H>, raw: seq<H>, groups: nat, g: nat): H
    requires IsRaw(raw, groups) && g < groups
    decreases groups - g
  {
    if g == groups - 1 then raw[8 * groups + 1] else o.carry(Kw4At(o, raw, groups, g + 1), raw[8 * g + 8])
  }

  /** Round key `j` (0 to 5) of group `g` after absorbing kw2 and kw4. */
  function Absorbed<H>(o: Ops<H>, raw: seq<H>, groups: nat, g: nat, j: nat): H
    requires IsRaw(raw, groups) && g < groups && j < 6
  {
    o.add(raw[8 * g + 2 + j], if j % 2 == 0 then Kw4At(o, raw, groups, g) else Kw2At(o, raw, groups, g))
  }

  /** The key added at the end of round `j` of group `g`, before undoing P. */
  function EndKey<H>(o: Ops<H>, raw: seq<H>, groups: nat, g: nat, j: nat): H
    requires IsRaw(raw, groups) && g < groups && j < 6
  {
    if j == 0 then
      if g == 0 then Absorbed(o, raw, groups, 0, 1)
      else o.add(o.carry(Absorbed(o, raw, groups, g - 1, 5), raw[8 * g + 1]), Absorbed(o, raw, groups, g, 1))
    else if j < 5 then o.add(Absorbed(o, raw, groups, g, j - 1), Absorbed(o, raw, groups, g, j + 1))
    else if g == groups - 1 then Absorbed(o, raw, groups, g, 4)
    else o.add(Absorbed(o, raw, groups, g, 4), o.carry(Absorbed(o, raw, groups, g + 1, 0), raw[8 * g + 8]))
  }

  /** The first and last keys of the table. */
  function FirstKey<H>(o: Ops<H>, raw: seq<H>, groups: nat): H
    requires IsRaw(raw, groups)
  {
    o.add(o.add(raw[0], Kw4At(o, raw, groups, 0)), Absorbed(o, raw, groups, 0, 0))
  }

  function LastKey<H>(o: Ops<H>, raw: seq<H>, groups: nat): H
    requires IsRaw(raw, groups)
  {
    o.add(o.add(raw[8 * groups], Kw2At(o, raw, groups, groups - 1)), Absorbed(o, raw, groups, groups - 1, 5))
  }

  /** Is `k` the table that key setup makes of the raw subkeys?  Its entry 1 is not used. */
  ghost predicate IsTable<H>(o: Ops<H>, k: seq<H>, raw: seq<H>, groups: nat)
    requires IsRaw(raw, groups)
  {
    && |k| == 8 * groups + 1
    && k[0] == FirstKey(o, raw, groups) && k[8 * groups] == LastKey(o, raw, groups)
    && (forall g, j :: 0 <= g < groups && 0 <= j < 6 ==> k[8 * g + 2 + j] == o.undoP(EndKey(o, raw, groups, g, j)))
    && (forall g :: 0 <= g < groups - 1 ==> k[8 * g + 8] == raw[8 * g + 8] && k[8 * g + 9] == raw[8 * g + 9])
  }

  // ----------------------------------------------------------- fast cipher

  function FastRound<H>(o: Ops<H>, k: H, e: Block<H>): Block<H> {
    Block(o.round(e.a, k, e.b), e.a)
  }

  /** The rounds with the table entries `k[i..j]`. */
  function FastRounds<H>(o: Ops<H>, k: seq<H>, i: nat, j: nat, e: Block<H>): Block<H>
    requires i <= j <= |k|
    decreases j - i
  {
    if i == j then e else FastRounds(o, k, i + 1, j, FastRound(o, k[i], e))
  }

  function GroupRounds<H>(o: Ops<H>, k: seq<H>, g: nat, e: Block<H>): Block<H>
    requires 8 * g + 8 <= |k|
  {
    FastRounds(o, k, 8 * g + 2, 8 * g + 8, e)
  }

  /** The FL layer after group `g`. */
  function GroupLayer<H>(o: Ops<H>, k: seq<H>, g: nat, e: Block<H>): Block<H>
    requires 8 * g + 9 < |k|
  {
    Layer(o, e, k[8 * g + 8], k[8 * g + 9])
  }

  function FastFrom<H>(o: Ops<H>, k: seq<H>, groups: nat, g: nat, e: Block<H>): Block<H>
    requires |k| == 8 * groups + 1 && g < groups
    decreases groups - g
  {
    var e1 := GroupRounds(o, k, g, e);
    if g == groups - 1 then e1 else FastFrom(o, k, groups, g + 1, GroupLayer(o, k, g, e1))
  }

  /** Encryption as the kernel does it. */
  function Fast<H>(o: Ops<H>, k: seq<H>, groups: nat, m: Block<H>): Block<H>
    requires groups >= 1 && |k| == 8 * groups + 1
  {
    var e := FastFrom(o, k, groups, 0, Block(o.add(m.a, k[0]), m.b));
    Block(o.add(e.b, k[8 * groups]), e.a)
  }

  // ------------------------------------------------------ they are the same

  lemma AddBoth<H(!new)>(o: Ops<H>, a: H, b: H, w: H)
    requires Laws(o)
    ensures o.add(o.add(a, w), o.add(b, w)) == o.add(a, b)
  {
    assert o.Join(a, w, o.add(b, w));
    assert o.Swaps(w, o.add(b, w)) && o.Twice(b, w);
  }

  /** What the right half is ahead by when group `g` begins. */
  function Ahead<H>(o: Ops<H>, raw: seq<H>, groups: nat, g: nat): H
    requires IsRaw(raw, groups) && g < groups
  {
    if g == 0 then raw[1] else o.carry(raw[8 * g - 1], raw[8 * g + 1])
  }

  /** The whitening keys drop out of the table: inside a group the neighbours' raw keys are left, */
  lemma InnerKeyIs<H(!new)>(o: Ops<H>, raw: seq<H>, groups: nat, g: nat, j: nat)
    requires Laws(o)
    requires IsRaw(raw, groups) && g < groups && 0 < j < 5
    ensures EndKey(o, raw, groups, g, j) == o.add(raw[8 * g + 1 + j], raw[8 * g + 3 + j])
  {
    AddBoth(o, raw[8 * g + 1 + j], raw[8 * g + 3 + j],
            if j == 1 || j == 3 then Kw4At(o, raw, groups, g) else Kw2At(o, raw, groups, g));
  }

  /** at its start the previous group's last key has come through FL inverse, */
  lemma StartKeyIs<H(!new)>(o: Ops<H>, raw: seq<H>, groups: nat, g: nat)
    requires Laws(o)
    requires IsRaw(raw, groups) && g < groups
    ensures EndKey(o, raw, groups, g, 0) == o.add(Ahead(o, raw, groups, g), raw[8 * g + 3])
  {
    if g == 0 {
      assert o.Swaps(raw[3], raw[1]);
    } else {
      assert o.CarryAdds(raw[8 * g - 1], Kw2At(o, raw, groups, g - 1), raw[8 * g + 1]);
      AddBoth(o, Ahead(o, raw, groups, g), raw[8 * g + 3], Kw2At(o, raw, groups, g));
    }
  }

  /** What the left half must be ahead by when group `g` has been done, before any FL layer. */
  function Due<H>(o: Ops<H>, raw: seq<H>, groups: nat, g: nat): H
    requires IsRaw(raw, groups) && g < groups
  {
    if g == groups - 1 then raw[8 * groups + 1] else o.carry(raw[8 * g + 10], raw[8 * g + 8])
  }

  lemma NextKeyCarried<H(!new)>(o: Ops<H>, raw: seq<H>, groups: nat, g: nat)
    requires Laws(o)
    requires IsRaw(raw, groups) && g < groups - 1
    ensures o.carry(Absorbed(o, raw, groups, g + 1, 0), raw[8 * g + 8]) == o.add(Due(o, raw, groups, g), Kw4At(o, raw, groups, g))
  {
    var w := Kw4At(o, raw, groups, g + 1);
    assert Absorbed(o, raw, groups, g + 1, 0) == o.add(raw[8 * g + 10], w);
    assert o.CarryAdds(raw[8 * g + 10], w, raw[8 * g + 8]);
  }

  /** and at its end the next group's first key goes back through FL. */
  lemma FinishKeyIs<H(!new)>(o: Ops<H>, raw: seq<H>, groups: nat, g: nat)
    requires Laws(o)
    requires IsRaw(raw, groups) && g < groups
    ensures EndKey(o, raw, groups, g, 5) == o.add(raw[8 * g + 6], Due(o, raw, groups, g))
  {
    if g < groups - 1 {
      NextKeyCarried(o, raw, groups, g);
      AddBoth(o, raw[8 * g + 6], Due(o, raw, groups, g), Kw4At(o, raw, groups, g));
    }
  }

  /** What the left half is ahead by before round `j` of group `g`, and after the last one. */
  function LeftAhead<H>(o: Ops<H>, raw: seq<H>, groups: nat, g: nat, j: nat): H
    requires IsRaw(raw, groups) && g < groups && j <= 6
  {
    if j == 6 then Due(o, raw, groups, g) else raw[8 * g + 2 + j]
  }

  function RightAhead<H>(o: Ops<H>, raw: seq<H>, groups: nat, g: nat, j: nat): H
    requires IsRaw(raw, groups) && g < groups && j <= 6
  {
    if j == 0 then Ahead(o, raw, groups, g) else raw[8 * g + 1 + j]
  }

  lemma EndKeyIs<H(!new)>(o: Ops<H>, raw: seq<H>, groups: nat, g: nat, j: nat)
    requires Laws(o)
    requires IsRaw(raw, groups) && g < groups && j < 6
    ensures EndKey(o, raw, groups, g, j) == o.add(RightAhead(o, raw, groups, g, j), LeftAhead(o, raw, groups, g, j + 1))
  {
    if j == 0 {
      StartKeyIs(o, raw, groups, g);
    } else if j < 5 {
      InnerKeyIs(o, raw, groups, g, j);
    } else {
      FinishKeyIs(o, raw, groups, g);
    }
  }

  /** `e` runs ahead of `d` by the round keys still to come. */
  ghost predicate IsAhead<H>(o: Ops<H>, e: Block<H>, d: Block<H>, raw: seq<H>, groups: nat, g: nat, j: nat)
    requires IsRaw(raw, groups) && g < groups && j <= 6
  {
    e == Block(o.add(d.a, LeftAhead(o, raw, groups, g, j)), o.add(d.b, RightAhead(o, raw, groups, g, j)))
  }

  /** One round: the half that is ahead by `b` is ahead by `c` afterwards. */
  lemma RoundKeepsUp<H(!new)>(o: Ops<H>, d: Block<H>, a: H, b: H, c: H)
    requires Laws(o)
    ensures FastRound(o, o.undoP(o.add(b, c)), Block(o.add(d.a, a), o.add(d.b, b)))
            == Block(o.add(PlainRound(o, a, d).a, c), o.add(d.a, a))
  {
    var f := o.f(o.add(d.a, a));
    assert o.RoundAdds(o.add(d.a, a), o.add(b, c), o.add(d.b, b));
    assert o.Join(d.b, b, f) && o.Swaps(b, f) && o.Join(d.b, f, b);
    assert o.Swaps(b, c);
    assert o.Join(o.add(o.add(d.b, f), b), b, c) && o.Twice(o.add(d.b, f), b);
  }

  lemma NextKeepsUp<H(!new)>(o: Ops<H>, k: seq<H>, raw: seq<H>, groups: nat, g: nat, j: nat, d: Block<H>, e: Block<H>)
    requires Laws(o) && IsRaw(raw, groups) && g < groups && IsTable(o, k, raw, groups) && j < 6
    requires IsAhead(o, e, d, raw, groups, g, j)
    ensures IsAhead(o, FastRound(o, k[8 * g + 2 + j], e), PlainRound(o, raw[8 * g + 2 + j], d), raw, groups, g, j + 1)
  {
    EndKeyIs(o, raw, groups, g, j);
    RoundKeepsUp(o, d, raw[8 * g + 2 + j], RightAhead(o, raw, groups, g, j), LeftAhead(o, raw, groups, g, j + 1));
  }

  lemma {:induction false} RoundsKeepUp<H(!new)>(
    o: Ops<H>, k: seq<H>, raw: seq<H>, groups: nat, g: nat, j: nat, d: Block<H>, e: Block<H>)
    requires Laws(o) && IsRaw(raw, groups) && g < groups && IsTable(o, k, raw, groups) && j <= 6
    requires IsAhead(o, e, d, raw, groups, g, j)
    ensures IsAhead(o, FastRounds(o, k, 8 * g + 2 + j, 8 * g + 8, e), PlainRounds(o, raw, 8 * g + 2 + j, 8 * g + 8, d),
                    raw, groups, g, 6)
    decreases 6 - j
  {
    if j < 6 {
      var i := 8 * g + 2 + j;
      NextKeepsUp(o, k, raw, groups, g, j, d, e);
      RoundsKeepUp(o, k, raw, groups, g, j + 1, PlainRound(o, raw[i], d), FastRound(o, k[i], e));
    }
  }

  lemma LayerKeepsUp<H(!new)>(o: Ops<H>, d: Block<H>, e: Block<H>, k: seq<H>, raw: seq<H>, groups: nat, g: nat)
    requires Laws(o) && IsRaw(raw, groups) && g < groups - 1 && IsTable(o, k, raw, groups)
    requires IsAhead(o, e, d, raw, groups, g, 6)
    ensures IsAhead(o, Layer(o, e, k[8 * g + 8], k[8 * g + 9]), Layer(o, d, raw[8 * g + 8], raw[8 * g + 9]),
                    raw, groups, g + 1, 0)
  {
    assert o.ThroughFl(d.a, raw[8 * g + 10], raw[8 * g + 8]);
    assert o.ThroughFlInv(d.b, raw[8 * g + 7], raw[8 * g + 9]);
  }

  lemma {:induction false} FromKeepsUp<H(!new)>(
    o: Ops<H>, k: seq<H>, raw: seq<H>, groups: nat, g: nat, d: Block<H>, e: Block<H>)
    requires Laws(o) && IsRaw(raw, groups) && g < groups && IsTable(o, k, raw, groups)
    requires IsAhead(o, e, d, raw, groups, g, 0)
    ensures IsAhead(o, FastFrom(o, k, groups, g, e), PlainFrom(o, raw, groups, g, d), raw, groups, groups - 1, 6)
    decreases groups - g
  {
    RoundsKeepUp(o, k, raw, groups, g, 0, d, e);
    if g < groups - 1 {
      var i := 8 * g + 2;
      var d1, e1 := PlainRounds(o, raw, i, i + 6, d), GroupRounds(o, k, g, e);
      LayerKeepsUp(o, d1, e1, k, raw, groups, g);
      FromKeepsUp(o, k, raw, groups, g + 1, Layer(o, d1, raw[i + 6], raw[i + 7]), GroupLayer(o, k, g, e1));
    }
  }

  lemma OuterKeysAre<H(!new)>(o: Ops<H>, raw: seq<H>, groups: nat)
    requires Laws(o)
    requires IsRaw(raw, groups)
    ensures FirstKey(o, raw, groups) == o.add(raw[0], raw[2])
    ensures LastKey(o, raw, groups) == o.add(raw[8 * groups], raw[8 * groups - 1])
  {
    AddBoth(o, raw[0], raw[2], Kw4At(o, raw, groups, 0));
    AddBoth(o, raw[8 * groups], raw[8 * groups - 1], Kw2At(o, raw, groups, groups - 1));
  }

  lemma StartsAhead<H(!new)>(o: Ops<H>, m: Block<H>, k: seq<H>, raw: seq<H>, groups: nat)
    requires Laws(o) && IsRaw(raw, groups) && IsTable(o, k, raw, groups)
    ensures IsAhead(o, Block(o.add(m.a, k[0]), m.b), Block(o.add(m.a, raw[0]), o.add(m.b, raw[1])), raw, groups, 0, 0)
  {
    OuterKeysAre(o, raw, groups);
    assert o.Join(m.a, raw[0], raw[2]);
    assert o.Twice(m.b, raw[1]);
  }

  lemma EndsEven<H(!new)>(o: Ops<H>, d: Block<H>, k: seq<H>, raw: seq<H>, groups: nat)
    requires Laws(o) && IsRaw(raw, groups) && IsTable(o, k, raw, groups)
    ensures o.add(o.add(d.b, raw[8 * groups - 1]), k[8 * groups]) == o.add(d.b, raw[8 * groups])
  {
    OuterKeysAre(o, raw, groups);
    AddBoth(o, d.b, raw[8 * groups], raw[8 * groups - 1]);
  }

  /** The table cipher is Camellia: for all S-box tables, subkeys, group counts and blocks. */
  lemma FastIsPlain<H(!new)>(o: Ops<H>, k: seq<H>, raw: seq<H>, groups: nat, m: Block<H>)
    requires Laws(o) && IsRaw(raw, groups) && IsTable(o, k, raw, groups)
    ensures Fast(o, k, groups, m) == Plain(o, raw, groups, m)
  {
    var d, e := Block(o.add(m.a, raw[0]), o.add(m.b, raw[1])), Block(o.add(m.a, k[0]), m.b);
    assert IsAhead(o, e, d, raw, groups, 0, 0) by { StartsAhead(o, m, k, raw, groups); }
    FromKeepsUp(o, k, raw, groups, 0, d, e);
    EndsEven(o, PlainFrom(o, raw, groups, 0, d), k, raw, groups);
  }
}
