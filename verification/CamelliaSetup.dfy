/** Key setup as the kernel does it, in place on the subkey array, and the cipher on its result. */
module CamelliaSetup {
  import opened CamelliaSchedule
  import opened CamelliaDecrypt

  /** Entry `j` of the eight that begin with group `g`'s round keys; the last two are FL keys. */
  function At<H>(s: seq<H>, g: nat, j: nat): H
    requires 8 * g + 2 + j < |s|
  {
    s[8 * g + 2 + j]
  }

  function Odd(j: nat): bool { j == 1 || j == 3 || j == 5 }
  function Even(j: nat): bool { j == 0 || j == 2 || j == 4 }

  /** The groups below `upTo` have absorbed kw2 and those from `from` on kw4. */
  ghost predicate Absorbing<H>(o: Ops<H>, s: seq<H>, raw: seq<H>, groups: nat, upTo: nat, from: nat)
    requires IsRaw(raw, groups)
  {
    && |s| == |raw|
    && (forall g, j :: 0 <= g < groups && 0 <= j < 8 && 8 * g + 2 + j < 8 * groups ==>
          At(s, g, j) == if (Odd(j) && g < upTo) || (Even(j) && from <= g) then Absorbed(o, raw, groups, g, j)
                         else At(raw, g, j))
  }

  /** `s` after adding `w` to three round keys, every other one from entry `i`. */
  function AddThree<H>(o: Ops<H>, s: seq<H>, i: nat, w: H): (r: seq<H>)
    requires i + 4 < |s|
    ensures |r| == |s|
  {
    s[i := o.add(s[i], w)][i + 2 := o.add(s[i + 2], w)][i + 4 := o.add(s[i + 4], w)]
  }

  method AbsorbGroup<H>(o: Ops<H>, sub: array<H>, i: nat, w: H)
    requires i + 4 < sub.Length
    modifies sub
    ensures sub[..] == AddThree(o, old(sub[..]), i, w)
  {
    sub[i] := o.add(sub[i], w);
    sub[i + 2] := o.add(sub[i + 2], w);
    sub[i + 4] := o.add(sub[i + 4], w);
  }

  lemma GroupAbsorbsKw2<H>(o: Ops<H>, s: seq<H>, raw: seq<H>, groups: nat, g: nat)
    requires IsRaw(raw, groups) && g < groups && Absorbing(o, s, raw, groups, g, groups)
    ensures Absorbing(o, AddThree(o, s, 8 * g + 3, Kw2At(o, raw, groups, g)), raw, groups, g + 1, groups)
  {
    var r := AddThree(o, s, 8 * g + 3, Kw2At(o, raw, groups, g));
    forall h, j | 0 <= h < groups && 0 <= j < 8 && 8 * h + 2 + j < 8 * groups
      ensures At(r, h, j) == if Odd(j) && h < g + 1 then Absorbed(o, raw, groups, h, j) else At(raw, h, j)
    {
      assert At(s, h, j) == s[8 * h + 2 + j];
    }
  }

  lemma GroupAbsorbsKw4<H>(o: Ops<H>, s: seq<H>, raw: seq<H>, groups: nat, g: nat)
    requires IsRaw(raw, groups) && g < groups && Absorbing(o, s, raw, groups, groups, g + 1)
    ensures Absorbing(o, AddThree(o, s, 8 * g + 2, Kw4At(o, raw, groups, g)), raw, groups, groups, g)
  {
    var r := AddThree(o, s, 8 * g + 2, Kw4At(o, raw, groups, g));
    forall h, j | 0 <= h < groups && 0 <= j < 8 && 8 * h + 2 + j < 8 * groups
      ensures At(r, h, j) == if Odd(j) || (Even(j) && g <= h) then Absorbed(o, raw, groups, h, j) else At(raw, h, j)
    {
      assert At(s, h, j) == s[8 * h + 2 + j];
    }
  }

  lemma OutsideRounds<H>(o: Ops<H>, s: seq<H>, i: nat, x: H, raw: seq<H>, groups: nat, upTo: nat, from: nat)
    requires IsRaw(raw, groups) && Absorbing(o, s, raw, groups, upTo, from)
    requires i < |s| && (i < 2 || 8 * groups <= i)
    ensures Absorbing(o, s[i := x], raw, groups, upTo, from)
  {
    forall h, j | 0 <= h < groups && 0 <= j < 8 && 8 * h + 2 + j < 8 * groups
      ensures At(s[i := x], h, j) == At(s, h, j)
    {
    }
  }

  /** One turn of the first loop: the group absorbs the key, which is carried to the next group. */
  method AbsorbKw2Into<H>(o: Ops<H>, sub: array<H>, ghost raw: seq<H>, groups: nat, g: nat)
    requires IsRaw(raw, groups) && g < groups && Absorbing(o, sub[..], raw, groups, g, groups)
    requires sub[1] == Kw2At(o, raw, groups, g)
    modifies sub
    ensures Absorbing(o, sub[..], raw, groups, g + 1, groups)
    ensures sub[1] == Kw2At(o, raw, groups, if g + 1 < groups then g + 1 else g)
    ensures sub[0] == old(sub[0]) && sub[8 * groups] == old(sub[8 * groups])
    ensures sub[8 * groups + 1] == old(sub[8 * groups + 1])
  {
    GroupAbsorbsKw2(o, sub[..], raw, groups, g);
    AbsorbGroup(o, sub, 8 * g + 3, sub[1]);
    if g < groups - 1 {
      assert sub[8 * g + 9] == At(sub[..], g, 7);
      OutsideRounds(o, sub[..], 1, o.carry(sub[1], sub[8 * g + 9]), raw, groups, g + 1, groups);
      sub[1] := o.carry(sub[1], sub[8 * g + 9]);
    }
  }

  method AbsorbKw2<H>(o: Ops<H>, sub: array<H>, ghost raw: seq<H>, groups: nat)
    requires IsRaw(raw, groups) && sub[..] == raw
    modifies sub
    ensures Absorbing(o, sub[..], raw, groups, groups, groups)
    ensures sub[0] == raw[0] && sub[8 * groups + 1] == raw[8 * groups + 1]
    ensures sub[8 * groups] == o.add(raw[8 * groups], Kw2At(o, raw, groups, groups - 1))
  {
    for g := 0 to groups
      invariant Absorbing(o, sub[..], raw, groups, g, groups)
      invariant sub[0] == raw[0] && sub[8 * groups] == raw[8 * groups] && sub[8 * groups + 1] == raw[8 * groups + 1]
      invariant sub[1] == Kw2At(o, raw, groups, if g < groups then g else groups - 1)
    {
      AbsorbKw2Into(o, sub, raw, groups, g);
    }
    OutsideRounds(o, sub[..], 8 * groups, o.add(sub[8 * groups], sub[1]), raw, groups, groups, groups);
    sub[8 * groups] := o.add(sub[8 * groups], sub[1]);
  }

  method AbsorbKw4<H>(o: Ops<H>, sub: array<H>, ghost raw: seq<H>, groups: nat)
    requires IsRaw(raw, groups) && Absorbing(o, sub[..], raw, groups, groups, groups)
    requires sub[0] == raw[0] && sub[8 * groups + 1] == raw[8 * groups + 1]
    modifies sub
    ensures Absorbing(o, sub[..], raw, groups, groups, 0)
    ensures sub[0] == o.add(raw[0], Kw4At(o, raw, groups, 0))
    ensures sub[8 * groups] == old(sub[8 * groups])
  {
    var kw4 := sub[8 * groups + 1];
    for g := groups downto 0
      invariant Absorbing(o, sub[..], raw, groups, groups, g)
      invariant sub[0] == raw[0] && sub[8 * groups] == old(sub[8 * groups])
      invariant g > 0 ==> kw4 == Kw4At(o, raw, groups, g - 1)
      invariant g == 0 ==> kw4 == Kw4At(o, raw, groups, 0)
    {
      GroupAbsorbsKw4(o, sub[..], raw, groups, g);
      AbsorbGroup(o, sub, 8 * g + 2, kw4);
      if g > 0 {
        assert sub[8 * g] == At(sub[..], g - 1, 6);
        kw4 := o.carry(kw4, sub[8 * g]);
      }
    }
    OutsideRounds(o, sub[..], 0, o.add(sub[0], kw4), raw, groups, groups, 0);
    sub[0] := o.add(sub[0], kw4);
  }

  /** The key for the end of round `j` of group `g`, read off the absorbed subkeys. */
  function EndKeyOf<H>(o: Ops<H>, s: seq<H>, groups: nat, g: nat, j: nat): H
    requires |s| == 8 * groups + 2 && g < groups && j < 6
  {
    var i := 8 * g + 2 + j;
    if j == 0 then if g == 0 then s[i + 1] else o.add(o.carry(s[i - 3], s[i - 1]), s[i + 1])
    else if j < 5 then o.add(s[i - 1], s[i + 1])
    else if g == groups - 1 then s[i - 1] else o.add(s[i - 1], o.carry(s[i + 3], s[i + 1]))
  }

  lemma EndKeyOfAbsorbed<H>(o: Ops<H>, s: seq<H>, raw: seq<H>, groups: nat, g: nat, j: nat)
    requires IsRaw(raw, groups) && Absorbing(o, s, raw, groups, groups, 0) && g < groups && j < 6
    ensures EndKeyOf(o, s, groups, g, j) == EndKey(o, raw, groups, g, j)
  {
    var i := 8 * g + 2 + j;
    if j == 0 {
      assert At(s, g, 1) == s[i + 1];
      if g > 0 {
        assert At(s, g - 1, 5) == s[i - 3] && At(s, g - 1, 7) == s[i - 1];
      }
    } else if j < 5 {
      assert At(s, g, j - 1) == s[i - 1] && At(s, g, j + 1) == s[i + 1];
    } else {
      assert At(s, g, 4) == s[i - 1];
      if g < groups - 1 {
        assert At(s, g + 1, 0) == s[i + 3] && At(s, g, 6) == s[i + 1];
      }
    }
  }

  /** Entry `j` of group `g` in the table. */
  function EntryOf<H>(o: Ops<H>, s: seq<H>, groups: nat, g: nat, j: nat): H
    requires |s| == 8 * groups + 2 && g < groups && j < 8
  {
    if j < 6 then o.undoP(EndKeyOf(o, s, groups, g, j)) else s[8 * g + 2 + j]
  }

  /** The table entries below `n` are in place. */
  ghost predicate FilledTo<H>(o: Ops<H>, k: seq<H>, s: seq<H>, groups: nat, n: nat)
    requires |s| == 8 * groups + 2
  {
    forall g, j :: 0 <= g < groups && 0 <= j < 8 && 8 * g + 2 + j < n && n <= |k| ==>
                     At(k, g, j) == EntryOf(o, s, groups, g, j)
  }

  lemma FillNext<H>(o: Ops<H>, k: seq<H>, s: seq<H>, groups: nat, g: nat, j: nat)
    requires |s| == 8 * groups + 2 && g < groups && j < 8 && |k| == 8 * g + 2 + j
    requires FilledTo(o, k, s, groups, |k|)
    ensures FilledTo(o, k + [EntryOf(o, s, groups, g, j)], s, groups, |k| + 1)
  {
    var k' := k + [EntryOf(o, s, groups, g, j)];
    forall h, l | 0 <= h < groups && 0 <= l < 8 && 8 * h + 2 + l < |k'|
      ensures At(k', h, l) == EntryOf(o, s, groups, h, l)
    {
      if 8 * h + 2 + l < |k| {
        assert At(k', h, l) == At(k, h, l);
      } else {
        assert h == g && l == j;
      }
    }
  }

  method FillTable<H>(o: Ops<H>, sub: array<H>, groups: nat) returns (k: seq<H>)
    requires sub.Length == 8 * groups + 2 && groups >= 1
    ensures |k| == 8 * groups + 1
    ensures k[0] == o.add(sub[0], sub[2]) && k[8 * groups] == o.add(sub[8 * groups], sub[8 * groups - 1])
    ensures FilledTo(o, k, sub[..], groups, 8 * groups)
  {
    k := [o.add(sub[0], sub[2]), sub[1]];
    var g, j := 0, 0;
    while |k| < 8 * groups
      invariant k[0] == o.add(sub[0], sub[2])
      invariant 0 <= g && 0 <= j < 8 && |k| == 8 * g + 2 + j <= 8 * groups
      invariant FilledTo(o, k, sub[..], groups, |k|)
    {
      FillNext(o, k, sub[..], groups, g, j);
      k := k + [EntryOf(o, sub[..], groups, g, j)];
      if j < 7 { j := j + 1; } else { g, j := g + 1, 0; }
    }
    assert forall h, l :: 0 <= h < groups && 0 <= l < 8 && 8 * h + 2 + l < 8 * groups ==>
             At(k, h, l) == At(k + [o.add(sub[8 * groups], sub[8 * groups - 1])], h, l);
    k := k + [o.add(sub[8 * groups], sub[8 * groups - 1])];
  }

  /** Key setup from the raw subkeys. */
  method Setup<H>(o: Ops<H>, raw: seq<H>, groups: nat) returns (k: seq<H>)
    requires IsRaw(raw, groups)
    ensures IsTable(o, k, raw, groups)
  {
    var sub := new H[|raw|](i requires 0 <= i < |raw| => raw[i]);
    AbsorbKw2(o, sub, raw, groups);
    AbsorbKw4(o, sub, raw, groups);
    k := FillTable(o, sub, groups);
    TableIs(o, k, sub[..], raw, groups);
  }

  lemma TableIs<H>(o: Ops<H>, k: seq<H>, s: seq<H>, raw: seq<H>, groups: nat)
    requires IsRaw(raw, groups) && Absorbing(o, s, raw, groups, groups, 0) && |k| == 8 * groups + 1
    requires s[0] == o.add(raw[0], Kw4At(o, raw, groups, 0))
    requires s[8 * groups] == o.add(raw[8 * groups], Kw2At(o, raw, groups, groups - 1))
    requires k[0] == o.add(s[0], s[2]) && k[8 * groups] == o.add(s[8 * groups], s[8 * groups - 1])
    requires FilledTo(o, k, s, groups, 8 * groups)
    ensures IsTable(o, k, raw, groups)
  {
    assert s[2] == At(s, 0, 0) && s[8 * groups - 1] == At(s, groups - 1, 5);
    forall g, j | 0 <= g < groups && 0 <= j < 6
      ensures k[8 * g + 2 + j] == o.undoP(EndKey(o, raw, groups, g, j))
    {
      assert At(k, g, j) == EntryOf(o, s, groups, g, j);
      EndKeyOfAbsorbed(o, s, raw, groups, g, j);
    }
    forall g | 0 <= g < groups - 1
      ensures k[8 * g + 8] == raw[8 * g + 8] && k[8 * g + 9] == raw[8 * g + 9]
    {
      assert At(k, g, 6) == At(s, g, 6) && At(k, g, 7) == At(s, g, 7);
    }
  }

  /** A block through the table, group by group. */
  method Encrypt<H(!new)>(o: Ops<H>, k: seq<H>, ghost raw: seq<H>, groups: nat, m: Block<H>) returns (c: Block<H>)
    requires Laws(o) && IsRaw(raw, groups) && IsTable(o, k, raw, groups)
    ensures c == Plain(o, raw, groups, m)
  {
    var a, b := o.add(m.a, k[0]), m.b;
    ghost var e := FastFrom(o, k, groups, 0, Block(a, b));
    for g := 0 to groups
      invariant g < groups ==> FastFrom(o, k, groups, g, Block(a, b)) == e
      invariant g == groups ==> Block(a, b) == e
    {
      var i := 8 * g + 2;
      a, b := SixRounds(o, k, i, a, b);
      if g < groups - 1 {
        a, b := o.fl(a, k[i + 6]), o.flInv(b, k[i + 7]);
      }
    }
    c := Block(o.add(b, k[8 * groups]), a);
    FastIsPlain(o, k, raw, groups, m);
  }

  method GroupBack<H>(o: Ops<H>, k: seq<H>, g: nat, a0: H, b0: H) returns (a: H, b: H)
    requires 8 * g + 8 <= |k| && g > 0
    ensures Block(a, b) == GroupLayerBack(o, k, g - 1, GroupRoundsBack(o, k, g, Block(a0, b0)))
  {
    a, b := SixRoundsBack(o, k, 8 * g + 2, a0, b0);
    a, b := o.fl(a, k[8 * g + 1]), o.flInv(b, k[8 * g]);
  }

  lemma BackOneGroup<H>(o: Ops<H>, k: seq<H>, g: nat, h: nat, e: Block<H>, e1: Block<H>)
    requires 8 * g + 8 <= |k| && g == h + 1
    requires e1 == GroupLayerBack(o, k, h, GroupRoundsBack(o, k, g, e))
    ensures BackFrom(o, k, g, e) == BackFrom(o, k, h, e1)
  {
  }

  method BackStep<H>(o: Ops<H>, k: seq<H>, g: nat, a0: H, b0: H, ghost r: Block<H>) returns (a: H, b: H)
    requires 8 * g + 8 <= |k| && g > 0 && BackFrom(o, k, g, Block(a0, b0)) == r
    ensures BackFrom(o, k, g - 1, Block(a, b)) == r
  {
    a, b := GroupBack(o, k, g, a0, b0);
    BackOneGroup(o, k, g, g - 1, Block(a0, b0), Block(a, b));
  }

  method GroupsBack<H>(o: Ops<H>, k: seq<H>, last: nat, a0: H, b0: H, ghost r: Block<H>) returns (a: H, b: H)
    requires 8 * last + 8 <= |k| && BackFrom(o, k, last, Block(a0, b0)) == r
    ensures GroupRoundsBack(o, k, 0, Block(a, b)) == r
  {
    a, b := a0, b0;
    var g := last;
    while g > 0
      invariant 0 <= g <= last && BackFrom(o, k, g, Block(a, b)) == r
    {
      a, b := BackStep(o, k, g, a, b, r);
      g := g - 1;
    }
  }

  /** Decryption gives back any block whose cipher text it gets. */
  method Decrypt<H(!new)>(o: Ops<H>, k: seq<H>, ghost raw: seq<H>, groups: nat, c: Block<H>) returns (p: Block<H>)
    requires Laws(o) && IsRaw(raw, groups) && IsTable(o, k, raw, groups)
    ensures p == Back(o, k, groups, c) && forall m :: Plain(o, raw, groups, m) == c ==> p == m
  {
    var a, b := o.add(c.a, k[8 * groups]), c.b;
    a, b := GroupsBack(o, k, groups - 1, a, b, BackFrom(o, k, groups - 1, Block(a, b)));
    a, b := SixRoundsBack(o, k, 2, a, b);
    p := Block(o.add(b, k[0]), a);
    forall m | Plain(o, raw, groups, m) == c ensures p == m { BackUndoesPlain(o, k, raw, groups, m); }
  }

  method SixRoundsBack<H>(o: Ops<H>, k: seq<H>, i: nat, a0: H, b0: H) returns (a: H, b: H)
    requires i + 6 <= |k|
    ensures Block(a, b) == BackRounds(o, k, i, i + 6, Block(a0, b0))
  {
    a, b := a0, b0;
    assert BackRounds(o, k, i + 6, i + 6, Block(a0, b0)) == Block(a, b);
    b := o.round(a, k[i + 5], b);
    a := o.round(b, k[i + 4], a);
    assert BackRounds(o, k, i + 4, i + 6, Block(a0, b0)) == Block(a, b);
    b := o.round(a, k[i + 3], b);
    a := o.round(b, k[i + 2], a);
    assert BackRounds(o, k, i + 2, i + 6, Block(a0, b0)) == Block(a, b);
    b := o.round(a, k[i + 1], b);
    a := o.round(b, k[i], a);
  }

  method SixRounds<H>(o: Ops<H>, k: seq<H>, i: nat, a0: H, b0: H) returns (a: H, b: H)
    requires i + 6 <= |k|
    ensures Block(a, b) == FastRounds(o, k, i, i + 6, Block(a0, b0))
  {
    a, b := a0, b0;
    b := o.round(a, k[i], b);
    a := o.round(b, k[i + 1], a);
    assert FastRounds(o, k, i, i + 6, Block(a0, b0)) == FastRounds(o, k, i + 2, i + 6, Block(a, b));
    b := o.round(a, k[i + 2], b);
    a := o.round(b, k[i + 3], a);
    assert FastRounds(o, k, i, i + 6, Block(a0, b0)) == FastRounds(o, k, i + 4, i + 6, Block(a, b));
    b := o.round(a, k[i + 4], b);
    a := o.round(b, k[i + 5], a);
    assert FastRounds(o, k, i, i + 6, Block(a0, b0)) == FastRounds(o, k, i + 6, i + 6, Block(a, b));
  }
}
