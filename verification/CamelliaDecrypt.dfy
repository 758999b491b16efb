/** Decryption runs the same table backwards and undoes encryption, whatever the table. */
module CamelliaDecrypt {
  import opened CamelliaSchedule

  /** The rounds with the table entries `k[j - 1]` down to `k[i]`. */
  function BackRounds<H>(o: Ops<H>, k: seq<H>, i: nat, j: nat, e: Block<H>): Block<H>
    requires i <= j <= |k|
    decreases j - i
  {
    if i == j then e else FastRound(o, k[i], BackRounds(o, k, i + 1, j, e))
  }

  function GroupRoundsBack<H>(o: Ops<H>, k: seq<H>, g: nat, e: Block<H>): Block<H>
    requires 8 * g + 8 <= |k|
  {
    BackRounds(o, k, 8 * g + 2, 8 * g + 8, e)
  }

  /** The FL layer after group `g`, met on the way back. */
  function GroupLayerBack<H>(o: Ops<H>, k: seq<H>, g: nat, e: Block<H>): Block<H>
    requires 8 * g + 9 < |k|
  {
    Layer(o, e, k[8 * g + 9], k[8 * g + 8])
  }

  /** From group `g` back to group 0. */
  function BackFrom<H>(o: Ops<H>, k: seq<H>, g: nat, e: Block<H>): Block<H>
    requires 8 * g + 8 <= |k|
    decreases g
  {
    var e1 := GroupRoundsBack(o, k, g, e);
    if g == 0 then e1 else BackFrom(o, k, g - 1, GroupLayerBack(o, k, g - 1, e1))
  }

  function Back<H>(o: Ops<H>, k: seq<H>, groups: nat, c: Block<H>): Block<H>
    requires groups >= 1 && |k| == 8 * groups + 1
  {
    var e := BackFrom(o, k, groups - 1, Block(o.add(c.a, k[8 * groups]), c.b));
    Block(o.add(e.b, k[0]), e.a)
  }

  function Swap<H>(e: Block<H>): Block<H> { Block(e.b, e.a) }

  lemma {:induction false} RoundsUndone<H(!new)>(o: Ops<H>, k: seq<H>, i: nat, j: nat, e: Block<H>)
    requires Laws(o) && i <= j <= |k|
    ensures BackRounds(o, k, i, j, Swap(FastRounds(o, k, i, j, e))) == Swap(e)
    decreases j - i
  {
    if i < j {
      RoundsUndone(o, k, i + 1, j, FastRound(o, k[i], e));
      assert o.RoundTwice(e.a, k[i], e.b);
    }
  }

  lemma LayerUndone<H(!new)>(o: Ops<H>, e: Block<H>, k: H, kInv: H)
    requires Laws(o)
    ensures Layer(o, Swap(Layer(o, e, k, kInv)), kInv, k) == Swap(e)
  {
    assert o.FlInverts(e.a, k);
    assert o.FlInverts(e.b, kInv);
  }

  lemma GroupUndone<H(!new)>(o: Ops<H>, k: seq<H>, g: nat, e: Block<H>)
    requires Laws(o) && 8 * g + 16 <= |k|
    ensures BackFrom(o, k, g + 1, Swap(GroupRounds(o, k, g + 1, GroupLayer(o, k, g, e)))) == BackFrom(o, k, g, Swap(e))
  {
    var h, e1 := g + 1, GroupLayer(o, k, g, e);
    RoundsUndone(o, k, 8 * h + 2, 8 * h + 8, e1);
    assert GroupRoundsBack(o, k, h, Swap(GroupRounds(o, k, h, e1))) == Swap(e1);
    LayerUndone(o, e, k[8 * g + 8], k[8 * g + 9]);
    assert GroupLayerBack(o, k, g, Swap(e1)) == Swap(e);
  }

  /** What is left to do once the rounds of group `g` are done. */
  function FastAfter<H>(o: Ops<H>, k: seq<H>, groups: nat, g: nat, e: Block<H>): Block<H>
    requires |k| == 8 * groups + 1 && g < groups
  {
    if g == groups - 1 then e else FastFrom(o, k, groups, g + 1, GroupLayer(o, k, g, e))
  }

  /** Running back from the last group retraces the run after group `g`. */
  lemma {:induction false} AfterUndone<H(!new)>(o: Ops<H>, k: seq<H>, groups: nat, g: nat, e: Block<H>)
    requires Laws(o) && g < groups && |k| == 8 * groups + 1
    ensures BackFrom(o, k, groups - 1, Swap(FastAfter(o, k, groups, g, e))) == BackFrom(o, k, g, Swap(e))
    decreases groups - g
  {
    if g < groups - 1 {
      GroupUndone(o, k, g, e);
      AfterUndone(o, k, groups, g + 1, GroupRounds(o, k, g + 1, GroupLayer(o, k, g, e)));
    }
  }

  /** Decryption gives the block back, for every table of whitening, round and FL keys. */
  lemma BackUndoesFast<H(!new)>(o: Ops<H>, k: seq<H>, groups: nat, m: Block<H>)
    requires Laws(o) && groups >= 1 && |k| == 8 * groups + 1
    ensures Back(o, k, groups, Fast(o, k, groups, m)) == m
  {
    var e := Block(o.add(m.a, k[0]), m.b);
    var e1 := GroupRounds(o, k, 0, e);
    var e' := FastAfter(o, k, groups, 0, e1);
    assert o.Twice(e'.b, k[8 * groups]);
    AfterUndone(o, k, groups, 0, e1);
    assert BackFrom(o, k, 0, Swap(e1)) == Swap(e) by { RoundsUndone(o, k, 2, 8, e); }
    assert o.Twice(m.a, k[0]);
  }

  /** So the kernel's decryption inverts Camellia itself. */
  lemma BackUndoesPlain<H(!new)>(o: Ops<H>, k: seq<H>, raw: seq<H>, groups: nat, m: Block<H>)
    requires Laws(o) && IsRaw(raw, groups) && IsTable(o, k, raw, groups)
    ensures Back(o, k, groups, Plain(o, raw, groups, m)) == m
  {
    FastIsPlain(o, k, raw, groups, m);
    BackUndoesFast(o, k, groups, m);
  }
}
