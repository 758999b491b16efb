// The table multiplications of gf128mul.c.  In the `Bbe` layout the last byte of an element
// holds its lowest coefficients and the lowest of them is bit 0; in the `Lle` layout the
// first byte does and the lowest is bit 7.
module GfMultiply {
  import opened GfTables

  datatype Order = Bbe | Lle

  /** The bit of a byte that holds coefficient `m`, and the coefficient that bit `m` holds. */
  function Slot(order: Order, m: nat): nat
    requires m < 8
  {
    if order.Bbe? then m else 7 - m
  }

  /** The byte of an element that holds chunk `i` of its coefficients. */
  function Place(order: Order, i: nat): nat
    requires i < 16
  {
    if order.Bbe? then 15 - i else i
  }

  /** Eight coefficients as the bits of a byte. */
  function Layout(order: Order, c: seq<bool>): seq<bool>
    requires |c| == 8
  {
    seq(8, s requires 0 <= s < 8 => c[Slot(order, s)])
  }

  type Coefficients = a: seq<bool> | |a| == 128 witness seq(128, _ => false)

  function Chunk(a: Coefficients, i: nat): seq<bool>
    requires i < 16
  {
    a[8 * i..8 * i + 8]
  }

  /** The bytes of an element in memory. */
  function Bytes(order: Order, a: Coefficients): seq<nat> {
    seq(16, p requires 0 <= p < 16 => Value(Layout(order, Chunk(a, Place(order, p))), 8))
  }

  function PowersOf<E>(o: Ops<E>, order: Order, g: E): seq<E> {
    seq(8, s requires 0 <= s < 8 => Pow(o, g, Slot(order, s)))
  }

  /** Is `t` the table of all byte multiples of `g`? */
  ghost predicate IsTable<E>(o: Ops<E>, order: Order, t: seq<E>, g: E) {
    |t| == 256 && FilledTo(o, t, PowersOf(o, order, g), 8)
  }

  // ------------------------------------------------------ what a lookup gives

  lemma TimesOne<E(!new)>(o: Ops<E>, c: bool, g: E)
    requires Laws(o)
    ensures Times(o, [c], g) == Scale(o, c, g)
  {
    assert o.Zero(Scale(o, c, g));
    assert Times(o, [c][1..], g) == o.zero;
  }

  lemma {:induction false} SumUpwards<E(!new)>(o: Ops<E>, c: seq<bool>, g: E, n: nat)
    requires Laws(o) && |c| == 8 && n <= 8
    ensures Sum(o, Layout(Bbe, c), PowersOf(o, Bbe, g), n) == Times(o, c[..n], g)
  {
    if n > 0 {
      SumUpwards(o, c, g, n - 1);
      assert c[..n] == c[..n - 1] + [c[n - 1]];
      TimesSplits(o, c[..n - 1], [c[n - 1]], g);
      TimesOne(o, c[n - 1], g);
      PowScale(o, c[n - 1], g, n - 1);
    }
  }

  lemma {:induction false} SumDownwards<E(!new)>(o: Ops<E>, c: seq<bool>, g: E, n: nat)
    requires Laws(o) && |c| == 8 && n <= 8
    ensures Sum(o, Layout(Lle, c), PowersOf(o, Lle, g), n) == Pow(o, Times(o, c[8 - n..], g), 8 - n)
  {
    if n == 0 {
      PowZero(o, 8);
    } else {
      SumDownwards(o, c, g, n - 1);
      PowTimes(o, c, g, 8 - n);
      assert o.Swaps(Scale(o, c[8 - n], Pow(o, g, 8 - n)), Pow(o, Times(o, c[9 - n..], g), 9 - n));
    }
  }

  lemma PowTimes<E(!new)>(o: Ops<E>, c: seq<bool>, g: E, i: nat)
    requires Laws(o) && i < |c|
    ensures Pow(o, Times(o, c[i..], g), i)
            == o.add(Scale(o, c[i], Pow(o, g, i)), Pow(o, Times(o, c[i + 1..], g), i + 1))
  {
    var rest := Times(o, c[i + 1..], g);
    assert c[i..][1..] == c[i + 1..];
    PowAdds(o, Scale(o, c[i], g), o.mulX(rest), i);
    PowScale(o, c[i], g, i);
    PowPow(o, rest, 1, i);
    assert Pow(o, rest, 1) == o.mulX(Pow(o, rest, 0));
  }

  /** In either layout, looking a byte up multiplies its eight coefficients by `g`. */
  lemma LookUp<E(!new)>(o: Ops<E>, order: Order, t: seq<E>, g: E, c: seq<bool>)
    requires Laws(o) && IsTable(o, order, t, g) && |c| == 8
    ensures Value(Layout(order, c), 8) < 256
    ensures t[Value(Layout(order, c), 8)] == Times(o, c, g)
  {
    assert Pow2(8) == 256;
    EntryIsSum(o, Layout(order, c), PowersOf(o, order, g), 8);
    if order.Bbe? {
      SumUpwards(o, c, g, 8);
      assert c[..8] == c;
    } else {
      SumDownwards(o, c, g, 8);
      assert c[0..] == c;
    }
  }

  // ---------------------------------------------------------------- 4k tables

  /** The byte with only bit `s` set. */
  function Bit(s: nat): (v: nat)
    requires s < 8
    ensures 1 <= v <= 128
  {
    [1, 2, 4, 8, 16, 32, 64, 128][s]
  }

  lemma BitIsPow2(s: nat)
    requires s < 8
    ensures Bit(s) == Pow2(s)
  {
    assert Pow2(0) == 1 && Pow2(1) == 2 && Pow2(2) == 4 && Pow2(3) == 8;
    assert Pow2(4) == 16 && Pow2(5) == 32 && Pow2(6) == 64 && Pow2(7) == 128;
  }

  lemma PowersFromBits<E>(o: Ops<E>, t: seq<E>, pw: seq<E>)
    requires |t| == 256 && |pw| == 8 && forall s :: 0 <= s < 8 ==> t[Bit(s)] == pw[s]
    ensures PowersIn(t, pw, 0)
  {
    forall s | 0 <= s < 8 ensures Pow2(s) < 256 && t[Pow2(s)] == pw[s] {
      BitIsPow2(s);
    }
  }

  lemma BitsDiffer(order: Order, i: nat, m: nat)
    requires i < m < 8
    ensures Bit(Slot(order, i)) != Bit(Slot(order, m))
  {
  }

  /** The first `m` powers are at the bytes with one bit. */
  ghost predicate PowersTo<E(!new)>(o: Ops<E>, order: Order, g: E, t: seq<E>, m: nat)
    requires m <= 8
  {
    |t| == 256 && t[0] == o.zero && forall i :: 0 <= i < m ==> t[Bit(Slot(order, i))] == Pow(o, g, i)
  }

  lemma PutPower<E(!new)>(o: Ops<E>, order: Order, g: E, t: seq<E>, m: nat)
    requires 1 <= m < 8 && PowersTo(o, order, g, t, m)
    ensures PowersTo(o, order, g, t[Bit(Slot(order, m)) := o.mulX(t[Bit(Slot(order, m - 1))])], m + 1)
  {
    forall i | 0 <= i < m ensures Bit(Slot(order, i)) != Bit(Slot(order, m)) { BitsDiffer(order, i, m); }
  }

  lemma AllPowers<E(!new)>(o: Ops<E>, order: Order, g: E, t: seq<E>)
    requires PowersTo(o, order, g, t, 8)
    ensures PowersIn(t, PowersOf(o, order, g), 0)
  {
    forall s | 0 <= s < 8 ensures t[Bit(s)] == PowersOf(o, order, g)[s] {
      assert Slot(order, Slot(order, s)) == s;
    }
    PowersFromBits(o, t, PowersOf(o, order, g));
  }

  method PutPowers<E(!new)>(o: Ops<E>, order: Order, g: E, t: array<E>)
    requires t.Length == 256 && forall i :: 0 <= i < 256 ==> t[i] == o.zero
    modifies t
    ensures t[0] == o.zero && PowersIn(t[..], PowersOf(o, order, g), 0)
  {
    t[Bit(Slot(order, 0))] := g;
    for m := 1 to 8
      invariant PowersTo(o, order, g, t[..], m)
    {
      PutPower(o, order, g, t[..], m);
      t[Bit(Slot(order, m))] := o.mulX(t[Bit(Slot(order, m - 1))]);
    }
    AllPowers(o, order, g, t[..]);
  }

  method Init4k<E(!new)>(o: Ops<E>, order: Order, g: E) returns (t: seq<E>)
    requires Laws(o)
    ensures IsTable(o, order, t, g)
  {
    var a := new E[256](_ => o.zero);
    PutPowers(o, order, g, a);
    Fill(o, a, PowersOf(o, order, g));
    t := a[..];
  }

  /** Bytes from the highest down, each time multiplying what there is by the 8th power of x. */
  method Multiply4k<E(!new)>(o: Ops<E>, order: Order, t: seq<E>, ghost g: E, ghost a: Coefficients, ap: seq<nat>)
    returns (r: E)
    requires Laws(o) && IsTable(o, order, t, g) && ap == Bytes(order, a)
    ensures r == Times(o, a, g)
  {
    LookUp(o, order, t, g, Chunk(a, 15));
    r := t[ap[Place(order, 15)]];
    assert a[8 * 15..] == Chunk(a, 15);
    for i := 15 downto 0
      invariant r == Times(o, a[8 * i..], g)
    {
      LookUp(o, order, t, g, Chunk(a, i));
      ByteBelow(o, a, g, i, r);
      r := o.add(o.mulX8(r), t[ap[Place(order, i)]]);
    }
    assert a[0..] == a;
  }

  lemma ByteBelow<E(!new)>(o: Ops<E>, a: Coefficients, g: E, i: nat, r: E)
    requires Laws(o) && i < 15 && r == Times(o, a[8 * i + 8..], g)
    ensures o.add(o.mulX8(r), Times(o, Chunk(a, i), g)) == Times(o, a[8 * i..], g)
  {
    assert o.Eight(r);
    TimesSplits(o, Chunk(a, i), a[8 * i + 8..], g);
    assert a[8 * i..] == Chunk(a, i) + a[8 * i + 8..];
    assert o.Swaps(o.mulX8(r), Times(o, Chunk(a, i), g));
  }

  // --------------------------------------------------------------- 64k tables

  /** Sixteen tables, for `g` times the powers of x by eights. */
  ghost predicate AreTables<E>(o: Ops<E>, order: Order, ts: seq<seq<E>>, g: E) {
    forall i :: 0 <= i < |ts| ==> IsTable(o, order, ts[i], Pow(o, g, 8 * i))
  }

  lemma {:induction false} EntryOfPower<E(!new)>(o: Ops<E>, pw: seq<E>, s: nat, n: nat)
    requires Laws(o) && s < n <= |pw|
    ensures Pow2(s) < Pow2(n) && Entry(o, pw, Pow2(s), n) == pw[s]
  {
    Pow2Grows(s, n);
    if s == n - 1 {
      EntryUp(o, pw, 0, s);
    } else {
      EntryOfPower(o, pw, s, n - 1);
    }
  }

  /** Multiplying by the 8th power of x takes one table's powers to the next one's. */
  lemma NextPower<E(!new)>(o: Ops<E>, order: Order, g: E, t: seq<E>, s: nat)
    requires Laws(o) && IsTable(o, order, t, g) && s < 8
    ensures o.mulX8(t[Bit(s)]) == PowersOf(o, order, Pow(o, g, 8))[s]
  {
    var m := Slot(order, s);
    BitIsPow2(s);
    EntryOfPower(o, PowersOf(o, order, g), s, 8);
    assert o.Eight(Pow(o, g, m));
    PowPow(o, g, m, 8);
    PowPow(o, g, 8, m);
  }

  method PutShifted<E(!new)>(o: Ops<E>, order: Order, ghost g: E, last: seq<E>, t: array<E>)
    requires Laws(o) && IsTable(o, order, last, g)
    requires t.Length == 256 && forall i :: 0 <= i < 256 ==> t[i] == o.zero
    modifies t
    ensures t[0] == o.zero && PowersIn(t[..], PowersOf(o, order, Pow(o, g, 8)), 0)
  {
    ghost var pw := PowersOf(o, order, Pow(o, g, 8));
    for s := 8 downto 0
      invariant t[0] == o.zero
      invariant forall i :: s <= i < 8 ==> t[Bit(i)] == pw[i]
    {
      NextPower(o, order, g, last, s);
      t[Bit(s)] := o.mulX8(last[Bit(s)]);
    }
    PowersFromBits(o, t[..], pw);
  }

  method NextTable<E(!new)>(o: Ops<E>, order: Order, ghost g: E, last: seq<E>) returns (t: seq<E>)
    requires Laws(o) && IsTable(o, order, last, g)
    ensures IsTable(o, order, t, Pow(o, g, 8))
  {
    var a := new E[256](_ => o.zero);
    PutShifted(o, order, g, last, a);
    Fill(o, a, PowersOf(o, order, Pow(o, g, 8)));
    t := a[..];
  }

  method Init64k<E(!new)>(o: Ops<E>, order: Order, g: E) returns (ts: seq<seq<E>>)
    requires Laws(o)
    ensures |ts| == 16 && AreTables(o, order, ts, g)
  {
    var t := Init4k(o, order, g);
    ts := [t];
    ghost var n := 0;
    while |ts| < 16
      invariant |ts| <= 16 && n == 8 * |ts| - 8 && AreTables(o, order, ts, g)
      invariant IsTable(o, order, t, Pow(o, g, n))
    {
      PowPow(o, g, n, 8);
      t := NextTable(o, order, Pow(o, g, n), t);
      ts := ts + [t];
      n := n + 8;
    }
  }

  lemma NextByte<E(!new)>(o: Ops<E>, order: Order, t: seq<E>, g: E, a: Coefficients, i: nat)
    requires Laws(o) && i < 16 && IsTable(o, order, t, Pow(o, g, 8 * i))
    ensures var v := Value(Layout(order, Chunk(a, i)), 8);
            v < 256 && o.add(Times(o, a[..8 * i], g), t[v]) == Times(o, a[..8 * i + 8], g)
  {
    var low, high := a[..8 * i], Chunk(a, i);
    assert a[..8 * i + 8] == low + high;
    NextPart(o, order, t, g, low, high, 8 * i);
  }

  lemma NextPart<E(!new)>(o: Ops<E>, order: Order, t: seq<E>, g: E, low: seq<bool>, high: seq<bool>, n: nat)
    requires Laws(o) && n == |low| && |high| == 8 && IsTable(o, order, t, Pow(o, g, n))
    ensures var v := Value(Layout(order, high), 8); v < 256 && o.add(Times(o, low, g), t[v]) == Times(o, low + high, g)
  {
    LookUp(o, order, t, Pow(o, g, n), high);
    TimesShifts(o, high, g, n);
    TimesSplits(o, low, high, g);
  }

  method AddByte<E(!new)>(o: Ops<E>, order: Order, t: seq<E>, ghost g: E, ghost a: Coefficients, ap: seq<nat>, i: nat, r0: E)
    returns (r: E)
    requires Laws(o) && i < 16 && IsTable(o, order, t, Pow(o, g, 8 * i)) && ap == Bytes(order, a)
    requires r0 == Times(o, a[..8 * i], g)
    ensures r == Times(o, a[..8 * i + 8], g)
  {
    NextByte(o, order, t, g, a, i);
    r := o.add(r0, t[ap[Place(order, i)]]);
  }

  /** One lookup a byte, no multiplication. */
  method Multiply64k<E(!new)>(o: Ops<E>, order: Order, ts: seq<seq<E>>, ghost g: E, ghost a: Coefficients, ap: seq<nat>)
    returns (r: E)
    requires Laws(o) && |ts| == 16 && AreTables(o, order, ts, g) && ap == Bytes(order, a)
    ensures r == Times(o, a, g)
  {
    LookUp(o, order, ts[0], g, Chunk(a, 0));
    r := ts[0][ap[Place(order, 0)]];
    assert a[..8] == Chunk(a, 0);
    ghost var n := 8;
    for i := 1 to 16
      invariant n == 8 * i && r == Times(o, a[..n], g)
    {
      r := AddByte(o, order, ts[i], g, a, ap, i, r);
      n := 8 * i + 8;
    }
    assert a[..128] == a;
  }
}
