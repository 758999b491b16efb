// Multiplication by lookup tables, as gf128mul.c does it, over any operations that obey
// the laws of adding field elements and multiplying them by x.  A multiplier is given by
// its coefficients, the constant term first.
module GfTables {

  datatype Ops<!E> = Ops(add: (E, E) -> E, zero: E, mulX: E -> E, mulX8: E -> E) {
    ghost predicate Join(x: E, y: E, z: E) { add(add(x, y), z) == add(x, add(y, z)) }
    ghost predicate Swaps(x: E, y: E) { add(x, y) == add(y, x) }
    ghost predicate Zero(x: E) { add(x, zero) == x }
    ghost predicate Twice(x: E) { add(x, x) == zero }
    ghost predicate Adds(x: E, y: E) { mulX(add(x, y)) == add(mulX(x), mulX(y)) }
    ghost predicate Eight(x: E) { mulX8(x) == Pow(this, x, 8) }
  }

  ghost predicate Laws<E(!new)>(o: Ops<E>) {
    && (forall x, y, z :: o.Join(x, y, z)) && (forall x, y :: o.Swaps(x, y))
    && (forall x :: o.Zero(x)) && (forall x :: o.Twice(x))
    && (forall x, y :: o.Adds(x, y)) && (forall x :: o.Eight(x)) && o.mulX(o.zero) == o.zero
  }

  /** `x` times the `n`-th power of x. */
  function Pow<E>(o: Ops<E>, x: E, n: nat): E {
    if n == 0 then x else o.mulX(Pow(o, x, n - 1))
  }

  function Scale<E>(o: Ops<E>, c: bool, x: E): E { if c then x else o.zero }

  /** `g` times the polynomial with coefficients `c`. */
  function Times<E>(o: Ops<E>, c: seq<bool>, g: E): E {
    if c == [] then o.zero else o.add(Scale(o, c[0], g), o.mulX(Times(o, c[1..], g)))
  }

  // ---------------------------------------------------------- laws of Times

  lemma MiddleFour<E(!new)>(o: Ops<E>, a: E, b: E, c: E, d: E)
    requires Laws(o)
    ensures o.add(o.add(a, b), o.add(c, d)) == o.add(o.add(a, c), o.add(b, d))
  {
    assert o.Join(a, b, o.add(c, d)) && o.Join(b, c, d) && o.Swaps(b, c) && o.Join(c, b, d);
    assert o.Join(a, c, o.add(b, d));
  }

  lemma ZeroLeft<E(!new)>(o: Ops<E>, x: E)
    requires Laws(o)
    ensures o.add(o.zero, x) == x
  {
    assert o.Swaps(o.zero, x) && o.Zero(x);
  }

  lemma {:induction false} PowAdds<E(!new)>(o: Ops<E>, x: E, y: E, n: nat)
    requires Laws(o)
    ensures Pow(o, o.add(x, y), n) == o.add(Pow(o, x, n), Pow(o, y, n))
  {
    if n > 0 {
      PowAdds(o, x, y, n - 1);
      assert o.Adds(Pow(o, x, n - 1), Pow(o, y, n - 1));
    }
  }

  lemma {:induction false} PowZero<E(!new)>(o: Ops<E>, n: nat)
    requires Laws(o)
    ensures Pow(o, o.zero, n) == o.zero
  {
    if n > 0 { PowZero(o, n - 1); }
  }

  lemma {:induction false} PowPow<E>(o: Ops<E>, x: E, m: nat, n: nat)
    ensures Pow(o, Pow(o, x, m), n) == Pow(o, x, m + n)
  {
    if n > 0 { PowPow(o, x, m, n - 1); }
  }

  lemma PowScale<E(!new)>(o: Ops<E>, c: bool, x: E, n: nat)
    requires Laws(o)
    ensures Pow(o, Scale(o, c, x), n) == Scale(o, c, Pow(o, x, n))
  {
    PowZero(o, n);
  }

  /** Cutting the multiplier in two. */
  lemma {:induction false} TimesSplits<E(!new)>(o: Ops<E>, c: seq<bool>, d: seq<bool>, g: E)
    requires Laws(o)
    ensures Times(o, c + d, g) == o.add(Times(o, c, g), Pow(o, Times(o, d, g), |c|))
  {
    if c == [] {
      assert c + d == d;
      ZeroLeft(o, Times(o, d, g));
    } else {
      var rest, high := Times(o, c[1..], g), Pow(o, Times(o, d, g), |c| - 1);
      assert (c + d)[1..] == c[1..] + d;
      TimesSplits(o, c[1..], d, g);
      assert o.Adds(rest, high);
      assert o.Join(Scale(o, c[0], g), o.mulX(rest), o.mulX(high));
    }
  }

  /** A power of x may be moved from the product to the factor. */
  lemma {:induction false} TimesShifts<E(!new)>(o: Ops<E>, c: seq<bool>, g: E, n: nat)
    requires Laws(o)
    ensures Times(o, c, Pow(o, g, n)) == Pow(o, Times(o, c, g), n)
  {
    if c == [] {
      PowZero(o, n);
    } else {
      var rest := Times(o, c[1..], g);
      TimesShifts(o, c[1..], g, n);
      PowScale(o, c[0], g, n);
      PowAdds(o, Scale(o, c[0], g), o.mulX(rest), n);
      PowPow(o, rest, 1, n);
      PowPow(o, rest, n, 1);
      assert Pow(o, rest, 1) == o.mulX(Pow(o, rest, 0));
      assert Pow(o, Pow(o, rest, n), 1) == o.mulX(Pow(o, Pow(o, rest, n), 0));
    }
  }

  function XorBits(c: seq<bool>, d: seq<bool>): seq<bool>
    requires |c| == |d|
  {
    seq(|c|, i requires 0 <= i < |c| => c[i] != d[i])
  }

  /** Multiplication distributes over adding multipliers. */
  lemma {:induction false} TimesXor<E(!new)>(o: Ops<E>, c: seq<bool>, d: seq<bool>, g: E)
    requires Laws(o) && |c| == |d|
    ensures Times(o, XorBits(c, d), g) == o.add(Times(o, c, g), Times(o, d, g))
  {
    if c == [] {
      assert o.Zero(o.zero);
    } else {
      var x, y := Times(o, c[1..], g), Times(o, d[1..], g);
      assert XorBits(c, d)[1..] == XorBits(c[1..], d[1..]);
      TimesXor(o, c[1..], d[1..], g);
      assert o.Adds(x, y);
      ScaleXor(o, c[0], d[0], g);
      MiddleFour(o, Scale(o, c[0], g), o.mulX(x), Scale(o, d[0], g), o.mulX(y));
    }
  }

  lemma ScaleXor<E(!new)>(o: Ops<E>, c: bool, d: bool, g: E)
    requires Laws(o)
    ensures Scale(o, c != d, g) == o.add(Scale(o, c, g), Scale(o, d, g))
  {
    assert o.Zero(g) && o.Zero(o.zero) && o.Twice(g);
    ZeroLeft(o, g);
  }

  // ------------------------------------------------------- one byte's table

  function Pow2(n: nat): (r: nat)
    ensures r >= 1
  {
    if n == 0 then 1 else 2 * Pow2(n - 1)
  }

  lemma {:induction false} Pow2Grows(m: nat, n: nat)
    requires m < n
    ensures 2 * Pow2(m) <= Pow2(n)
  {
    if m < n - 1 { Pow2Grows(m, n - 1); }
  }

  /** The value of the low `n` bits of a byte whose bits, the least significant first, are `b`. */
  function Value(b: seq<bool>, n: nat): (v: nat)
    requires n <= |b|
    ensures v < Pow2(n)
  {
    if n == 0 then 0 else Value(b, n - 1) + if b[n - 1] then Pow2(n - 1) else 0
  }

  /** The sum of those of the first `n` powers whose bit is set. */
  function Sum<E>(o: Ops<E>, b: seq<bool>, pw: seq<E>, n: nat): E
    requires n <= |b| && n <= |pw|
  {
    if n == 0 then o.zero else o.add(Sum(o, b, pw, n - 1), Scale(o, b[n - 1], pw[n - 1]))
  }

  /** Entry `v` of the table that xor fills from the powers. */
  function Entry<E>(o: Ops<E>, pw: seq<E>, v: nat, n: nat): E
    requires n <= |pw| && v < Pow2(n)
  {
    if n == 0 then o.zero
    else if v < Pow2(n - 1) then Entry(o, pw, v, n - 1)
    else o.add(pw[n - 1], Entry(o, pw, v - Pow2(n - 1), n - 1))
  }

  lemma {:induction false} EntryIsSum<E(!new)>(o: Ops<E>, b: seq<bool>, pw: seq<E>, n: nat)
    requires Laws(o) && n <= |b| && n <= |pw|
    ensures Entry(o, pw, Value(b, n), n) == Sum(o, b, pw, n)
  {
    if n > 0 {
      EntryIsSum(o, b, pw, n - 1);
      var low := Sum(o, b, pw, n - 1);
      assert o.Zero(low) && o.Swaps(low, pw[n - 1]);
    }
  }

  lemma {:induction false} EntryZero<E>(o: Ops<E>, pw: seq<E>, n: nat)
    requires n <= |pw|
    ensures Entry(o, pw, 0, n) == o.zero
  {
    if n > 0 { EntryZero(o, pw, n - 1); }
  }

  lemma EntryUp<E(!new)>(o: Ops<E>, pw: seq<E>, k: nat, n: nat)
    requires Laws(o) && n < |pw| && k < Pow2(n)
    ensures Entry(o, pw, k, n + 1) == Entry(o, pw, k, n)
    ensures Entry(o, pw, Pow2(n) + k, n + 1) == o.add(pw[n], Entry(o, pw, k, n))
    ensures Entry(o, pw, Pow2(n), n + 1) == pw[n]
  {
    EntryZero(o, pw, n);
    assert o.Zero(pw[n]);
  }

  /** The powers of two from the `from`-th on still hold the powers of x. */
  ghost predicate PowersIn<E>(t: seq<E>, pw: seq<E>, from: nat)
    requires |t| == 256 && |pw| == 8
  {
    forall s :: from <= s < 8 ==> Pow2(s) < 256 && t[Pow2(s)] == pw[s]
  }

  ghost predicate FilledTo<E>(o: Ops<E>, t: seq<E>, pw: seq<E>, n: nat)
    requires |t| == 256 && |pw| == 8
  {
    n <= 8 && Pow2(n) <= 256 && forall v :: 0 <= v < Pow2(n) ==> t[v] == Entry(o, pw, v, n)
  }

  /** One power of two is added to all smaller entries. */
  method FillUp<E(!new)>(o: Ops<E>, t: array<E>, n: nat, j: nat, ghost pw: seq<E>)
    requires Laws(o) && t.Length == 256 && |pw| == 8 && n < 8 && j == Pow2(n) <= 128
    requires PowersIn(t[..], pw, n) && FilledTo(o, t[..], pw, n)
    modifies t
    ensures PowersIn(t[..], pw, n + 1) && FilledTo(o, t[..], pw, n + 1)
  {
    ghost var was := t[..];
    AddPower(o, t, j);
    FilledUp(o, was, t[..], pw, n, j);
  }

  /** The entry at `j` is added to those before it. */
  method AddPower<E>(o: Ops<E>, t: array<E>, j: nat)
    requires 1 <= j && j + j <= t.Length
    modifies t
    ensures IsDoubled(o, old(t[..]), t[..], j)
  {
    for k := 1 to j
      invariant forall v :: 0 <= v <= j ==> t[v] == old(t[v])
      invariant forall v :: 1 <= v < k ==> t[j + v] == o.add(old(t[j]), old(t[v]))
      invariant forall i :: j + k <= i < t.Length ==> t[i] == old(t[i])
    {
      t[j + k] := o.add(t[j], t[k]);
    }
  }

  ghost predicate IsDoubled<E>(o: Ops<E>, s: seq<E>, t: seq<E>, j: nat)
    requires 1 <= j && j + j <= |s|
  {
    && |t| == |s| && (forall v :: 0 <= v <= j ==> t[v] == s[v])
    && (forall v :: 1 <= v < j ==> t[j + v] == o.add(s[j], s[v]))
    && (forall i :: j + j <= i < |s| ==> t[i] == s[i])
  }

  lemma FilledUp<E(!new)>(o: Ops<E>, s: seq<E>, t: seq<E>, pw: seq<E>, n: nat, j: nat)
    requires Laws(o) && |s| == 256 && |pw| == 8 && n < 8 && j == Pow2(n) <= 128
    requires PowersIn(s, pw, n) && FilledTo(o, s, pw, n) && IsDoubled(o, s, t, j)
    ensures PowersIn(t, pw, n + 1) && FilledTo(o, t, pw, n + 1)
  {
    EntryUp(o, pw, 0, n);
    forall v | 0 <= v < j + j ensures t[v] == Entry(o, pw, v, n + 1) {
      EntryUp(o, pw, if v < j then v else v - j, n);
      if v > j { assert t[j + (v - j)] == o.add(s[j], s[v - j]); }
    }
    forall i | n < i < 8 ensures Pow2(i) < 256 && t[Pow2(i)] == pw[i] {
      Pow2Grows(n, i);
    }
  }

  /** The whole table from its powers. */
  method Fill<E(!new)>(o: Ops<E>, t: array<E>, ghost pw: seq<E>)
    requires Laws(o) && t.Length == 256 && |pw| == 8 && t[0] == o.zero && PowersIn(t[..], pw, 0)
    modifies t
    ensures FilledTo(o, t[..], pw, 8)
  {
    assert Pow2(1) == 2 && Pow2(8) == 256;
    EntryUp(o, pw, 0, 0);
    var j, n := 2, 1;
    while j < 256
      invariant 1 <= n <= 8 && j == Pow2(n) && FilledTo(o, t[..], pw, n) && PowersIn(t[..], pw, n)
      decreases 8 - n
    {
      if n < 7 { Pow2Grows(n, 7); }
      FillUp(o, t, n, j, pw);
      j, n := j + j, n + 1;
    }
  }
}
