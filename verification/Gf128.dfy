// The field of polynomials modulo x^128 + x^7 + x^2 + x + 1.  Elements are given by their
// coefficients; the two memory layouts differ only in where a coefficient is kept.
module Gf128 {
  import opened Common
  import opened GfTables
  import opened GfMultiply

  // ------------------------------------------------- product and long division

  /** The product of two polynomials, not reduced: shift and add. */
  function Product(a: seq<bool>, g: seq<bool>): (r: seq<bool>)
    ensures |r| == |a| + |g|
  {
    if a == [] then Zeros(|g|)
    else XorBits((if a[0] then g else Zeros(|g|)) + Zeros(|a|), [false] + Product(a[1..], g))
  }

  /** Is coefficient `i` of x^7 + x^2 + x + 1 set? */
  predicate Low(i: int) { i == 0 || i == 1 || i == 2 || i == 7 }

  /** `p` with `x^n (x^7 + x^2 + x + 1)` added. */
  function Fold(p: seq<bool>, n: nat): (r: seq<bool>)
    ensures |r| == |p|
  {
    seq(|p|, i requires 0 <= i < |p| => p[i] != Low(i - n))
  }

  /** Long division: the highest coefficient is replaced until 128 are left. */
  function Reduce(p: seq<bool>): Coefficients
    decreases |p|
  {
    var n := |p| - 1;
    if |p| <= 128 then p + Zeros(128 - |p|)
    else if p[n] then Reduce(Fold(p[..n], n - 128)) else Reduce(p[..n])
  }

  // -------------------------------------------------------- the code's steps

  function Add(x: Coefficients, y: Coefficients): Coefficients { XorBits(x, y) }

  const ZERO: Coefficients := Zeros(128)

  function MulX(p: Coefficients): Coefficients {
    seq(128, i requires 0 <= i < 128 => (i > 0 && p[i - 1]) != (p[127] && Low(i)))
  }

  /** The entries of the reduction tables for single bits, in the two layouts. */
  const XDA_BBE := [0x0087, 0x010e, 0x021c, 0x0438, 0x0870, 0x10e0, 0x21c0, 0x4380]
  const XDA_LLE := [0xe100, 0x7080, 0x3840, 0x1c20, 0x0e10, 0x0708, 0x0384, 0x01c2]

  function BitOf(n: nat, i: nat): bool {
    if i == 0 then n % 2 == 1 else BitOf(n / 2, i - 1)
  }

  /** Coefficient `i` of what the table adds for coefficient `120 + m`. */
  function TableBit(order: Order, m: nat, i: nat): bool
    requires m < 8
  {
    i < 16 && if order.Bbe? then BitOf(XDA_BBE[m], i) else BitOf(XDA_LLE[m], 15 - i)
  }

  /** Coefficient `i` of the table entry for the coefficients `p[128 - k..]`. */
  function Carried(order: Order, p: Coefficients, k: nat, i: nat): bool
    requires k <= 8
  {
    if k == 0 then false else Carried(order, p, k - 1, i) != (p[128 - k] && TableBit(order, 8 - k, i))
  }

  function MulX8(order: Order, p: Coefficients): Coefficients {
    seq(128, i requires 0 <= i < 128 => (i >= 8 && p[i - 8]) != Carried(order, p, 8, i))
  }

  // ------------------------------------------------------- the table is right

  function Shl(n: nat, k: nat): nat { if k == 0 then n else 2 * Shl(n, k - 1) }

  lemma {:induction false} BitOfShl(n: nat, k: nat, i: nat)
    ensures BitOf(Shl(n, k), i) == (i >= k && BitOf(n, i - k))
  {
    if k > 0 {
      if i > 0 {
        assert Shl(n, k) / 2 == Shl(n, k - 1);
        BitOfShl(n, k - 1, i - 1);
      }
    }
  }

  lemma Bits87(i: nat)
    requires i < 16
    ensures BitOf(0x87, i) == Low(i)
  {
    assert BitOf(0x87, 0) && BitOf(0x87, 1) && BitOf(0x87, 2) && !BitOf(0x87, 3);
    assert !BitOf(0x87, 4) && !BitOf(0x87, 5) && !BitOf(0x87, 6) && BitOf(0x87, 7);
    assert !BitOf(0x87, 8) && !BitOf(0x87, 9) && !BitOf(0x87, 10) && !BitOf(0x87, 11);
    assert !BitOf(0x87, 12) && !BitOf(0x87, 13) && !BitOf(0x87, 14) && !BitOf(0x87, 15);
  }

  lemma Bits1c2(i: nat)
    requires i < 16
    ensures BitOf(0x01c2, i) == (i == 1 || i == 6 || i == 7 || i == 8)
  {
    assert !BitOf(0x01c2, 0) && BitOf(0x01c2, 1) && !BitOf(0x01c2, 2) && !BitOf(0x01c2, 3);
    assert !BitOf(0x01c2, 4) && !BitOf(0x01c2, 5) && BitOf(0x01c2, 6) && BitOf(0x01c2, 7);
    assert BitOf(0x01c2, 8) && !BitOf(0x01c2, 9) && !BitOf(0x01c2, 10) && !BitOf(0x01c2, 11);
    assert !BitOf(0x01c2, 12) && !BitOf(0x01c2, 13) && !BitOf(0x01c2, 14) && !BitOf(0x01c2, 15);
  }

  /** Both tables hold the multiples of x^7 + x^2 + x + 1. */
  lemma TableIsRight(order: Order, m: nat, i: nat)
    requires m < 8
    ensures TableBit(order, m, i) == Low(i - m)
  {
    if i < 16 && order.Bbe? {
      assert Shl(0x87, 0) == 0x87 && Shl(0x87, 1) == 0x010e && Shl(0x87, 2) == 0x021c && Shl(0x87, 3) == 0x0438;
      assert Shl(0x87, 4) == 0x0870 && Shl(0x87, 5) == 0x10e0 && Shl(0x87, 6) == 0x21c0 && Shl(0x87, 7) == 0x4380;
      BitOfShl(0x87, m, i);
      if i >= m { Bits87(i - m); }
    } else if i < 16 {
      assert Shl(0x01c2, 0) == 0x01c2 && Shl(0x01c2, 1) == 0x0384 && Shl(0x01c2, 2) == 0x0708 && Shl(0x01c2, 3) == 0x0e10;
      assert Shl(0x01c2, 4) == 0x1c20 && Shl(0x01c2, 5) == 0x3840 && Shl(0x01c2, 6) == 0x7080 && Shl(0x01c2, 7) == 0xe100;
      BitOfShl(0x01c2, 7 - m, 15 - i);
      if 15 - i >= 7 - m { Bits1c2(8 + m - i); }
    }
  }

  // ---------------------------------------------------- eight steps are one

  function MulXPow(p: Coefficients, n: nat): Coefficients {
    if n == 0 then p else MulX(MulXPow(p, n - 1))
  }

  /** What has been added at coefficient `i` after `k` steps. */
  function Added(p: Coefficients, k: nat, i: int): bool
    requires k <= 8
  {
    if k == 0 then false else (p[128 - k] && Low(i)) != Added(p, k - 1, i - 1)
  }

  lemma {:induction false} NoneAddedHigh(p: Coefficients, k: nat, i: int)
    requires k <= 8 && (i >= 7 + k || i < 0)
    ensures !Added(p, k, i)
  {
    if k > 0 { NoneAddedHigh(p, k - 1, i - 1); }
  }

  lemma {:induction false} StepsAdd(p: Coefficients, k: nat, i: nat)
    requires k <= 8 && i < 128
    ensures MulXPow(p, k)[i] == ((i >= k && p[i - k]) != Added(p, k, i))
  {
    if k > 0 {
      StepsAdd(p, k - 1, 127);
      NoneAddedHigh(p, k - 1, 127);
      if i > 0 {
        StepsAdd(p, k - 1, i - 1);
      } else {
        NoneAddedHigh(p, k - 1, -1);
      }
    }
  }

  lemma {:induction false} CarriedIsAdded(order: Order, p: Coefficients, k: nat, i: nat)
    requires k <= 8
    ensures Carried(order, p, k, i) == Added(p, k, i - (8 - k))
  {
    if k > 0 {
      CarriedIsAdded(order, p, k - 1, i);
      TableIsRight(order, 8 - k, i);
    }
  }

  lemma EightSteps(order: Order, p: Coefficients)
    ensures MulX8(order, p) == MulXPow(p, 8)
  {
    forall i | 0 <= i < 128 ensures MulX8(order, p)[i] == MulXPow(p, 8)[i] {
      StepsAdd(p, 8, i);
      CarriedIsAdded(order, p, 8, i);
    }
  }

  // --------------------------------------------------- product and reduction

  /** The operations in either layout. */
  function Field(order: Order): Ops<Coefficients> {
    Ops((x, y) => Add(x, y), ZERO, p => MulX(p), p => MulX8(order, p))
  }

  lemma {:induction false} PowIs(order: Order, p: Coefficients, n: nat)
    ensures Pow(Field(order), p, n) == MulXPow(p, n)
  {
    if n > 0 { PowIs(order, p, n - 1); }
  }

  lemma MulXAdds(x: Coefficients, y: Coefficients)
    ensures MulX(Add(x, y)) == Add(MulX(x), MulX(y))
  {
  }

  lemma AddLaws(x: Coefficients, y: Coefficients, z: Coefficients)
    ensures Add(Add(x, y), z) == Add(x, Add(y, z)) && Add(x, y) == Add(y, x)
    ensures Add(x, ZERO) == x && Add(x, x) == ZERO
  {
  }

  lemma LawsHold(order: Order)
    ensures Laws(Field(order))
  {
    var o := Field(order);
    forall x, y, z ensures o.Join(x, y, z) { AddLaws(x, y, z); }
    forall x, y ensures o.Swaps(x, y) { AddLaws(x, y, x); }
    forall x ensures o.Zero(x) { AddLaws(x, x, x); }
    forall x ensures o.Twice(x) { AddLaws(x, x, x); }
    forall x, y ensures o.Adds(x, y) { MulXAdds(x, y); }
    forall x ensures o.Eight(x) {
      EightSteps(order, x);
      PowIs(order, x, 8);
    }
    assert MulX(ZERO) == ZERO;
  }

  lemma FoldBoth(p: seq<bool>, q: seq<bool>, n: nat)
    requires |p| == |q|
    ensures XorBits(Fold(p, n), Fold(q, n)) == XorBits(p, q)
    ensures XorBits(Fold(p, n), q) == XorBits(p, Fold(q, n)) == Fold(XorBits(p, q), n)
  {
  }

  /** Long division is linear. */
  lemma {:induction false} ReduceAdds(p: seq<bool>, q: seq<bool>)
    requires |p| == |q|
    ensures Reduce(XorBits(p, q)) == Add(Reduce(p), Reduce(q))
    decreases |p|
  {
    if |p| <= 128 {
      assert XorBits(p, q) + Zeros(128 - |p|) == XorBits(p + Zeros(128 - |p|), q + Zeros(128 - |p|));
    } else {
      ReduceIs(p);
      ReduceIs(q);
      ReduceIs(XorBits(p, q));
      StepAdds(p, q);
      ReduceAdds(Step(p), Step(q));
    }
  }

  /** One step of the division: the leading coefficient goes. */
  function Step(p: seq<bool>): (r: seq<bool>)
    requires |p| > 128
    ensures |r| == |p| - 1
  {
    var n := |p| - 1;
    if p[n] then Fold(p[..n], n - 128) else p[..n]
  }

  lemma ReduceIs(p: seq<bool>)
    requires |p| > 128
    ensures Reduce(p) == Reduce(Step(p))
  {
  }

  lemma StepAdds(p: seq<bool>, q: seq<bool>)
    requires |p| == |q| > 128
    ensures Step(XorBits(p, q)) == XorBits(Step(p), Step(q))
  {
    var n := |p| - 1;
    FoldBoth(p[..n], q[..n], n - 128);
    assert XorBits(p, q)[..n] == XorBits(p[..n], q[..n]);
  }

  lemma FoldShifts(p: seq<bool>, n: nat)
    ensures Fold([false] + p, n + 1) == [false] + Fold(p, n)
  {
    var l, r := Fold([false] + p, n + 1), [false] + Fold(p, n);
    forall i | 0 <= i < |l| ensures l[i] == r[i] {
      assert l[i] == (([false] + p)[i] != Low(i - (n + 1)));
      if i > 0 { assert r[i] == Fold(p, n)[i - 1] == (p[i - 1] != Low(i - 1 - n)); }
    }
  }

  /** Multiplying by x and reducing is one step of the code on the reduced polynomial. */
  lemma {:induction false} ReduceShifts(p: seq<bool>)
    requires |p| >= 128
    ensures Reduce([false] + p) == MulX(Reduce(p))
    decreases |p|
  {
    var n, p' := |p| - 1, [false] + p;
    if |p| == 128 {
      assert p'[..128] == [false] + p[..127];
      assert p + Zeros(0) == p;
      assert Reduce(p') == MulX(p);
    } else {
      assert p'[..n + 1] == [false] + p[..n];
      FoldShifts(p[..n], n - 128);
      ReduceShifts(if p[n] then Fold(p[..n], n - 128) else p[..n]);
    }
  }

  lemma {:induction false} ReducePads(p: Coefficients, n: nat)
    ensures Reduce(p + Zeros(n)) == p
  {
    if n == 0 {
      assert p + Zeros(0) == p;
    } else {
      assert (p + Zeros(n))[..128 + n - 1] == p + Zeros(n - 1);
      ReducePads(p, n - 1);
    }
  }

  /** What the code computes is the polynomial product, reduced. */
  lemma {:induction false} TimesIsProduct(order: Order, a: seq<bool>, g: Coefficients)
    ensures Times(Field(order), a, g) == Reduce(Product(a, g))
  {
    if a == [] {
      assert Zeros(128) + Zeros(0) == Zeros(128);
    } else {
      var head, rest := if a[0] then g else ZERO, Product(a[1..], g);
      TimesIsProduct(order, a[1..], g);
      ReduceAdds(head + Zeros(|a|), [false] + rest);
      ReducePads(head, |a|);
      ReduceShifts(rest);
    }
  }
}
