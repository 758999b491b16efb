// The LRW mode: block k is masked with key2 times the index I + k, and the next mask is
// found from the last by adding one of 128 prepared multiples of key2.
module Lrw {
  import opened Common
  import opened GfTables
  import opened GfMultiply
  import Gf128

  // ------------------------------------------------------------ the index

  /** The number with binary digits `v`, the least significant first. */
  function ValueOf(v: seq<bool>): nat {
    if v == [] then 0 else (if v[0] then 1 else 0) + 2 * ValueOf(v[1..])
  }

  /** The low `len` binary digits of `n`. */
  function Binary(n: nat, len: nat): (v: seq<bool>)
    ensures |v| == len
  {
    if len == 0 then [] else [n % 2 == 1] + Binary(n / 2, len - 1)
  }

  lemma {:induction false} BinaryOfValue(v: seq<bool>)
    ensures Binary(ValueOf(v), |v|) == v
  {
    if v != [] { BinaryOfValue(v[1..]); }
  }

  predicate AllOnes(v: seq<bool>) { forall i :: 0 <= i < |v| ==> v[i] }

  /** Counting up, with wrap-around. */
  function Inc(v: seq<bool>): (r: seq<bool>)
    ensures |r| == |v|
  {
    if v == [] then [] else if v[0] then [false] + Inc(v[1..]) else [true] + v[1..]
  }

  lemma {:induction false} IncIsPlusOne(n: nat, len: nat)
    ensures Inc(Binary(n, len)) == Binary(n + 1, len)
  {
    if len > 0 {
      if n % 2 == 1 {
        assert (n + 1) / 2 == n / 2 + 1;
        IncIsPlusOne(n / 2, len - 1);
      } else {
        assert (n + 1) / 2 == n / 2;
      }
    }
  }

  function Plus(v: seq<bool>, k: nat): (r: seq<bool>)
    ensures |r| == |v|
  {
    if k == 0 then v else Inc(Plus(v, k - 1))
  }

  /** Counting up `k` times adds `k`, modulo the size of the index. */
  lemma {:induction false} PlusIsSum(v: seq<bool>, k: nat)
    ensures Plus(v, k) == Binary(ValueOf(v) + k, |v|)
  {
    if k == 0 {
      BinaryOfValue(v);
    } else {
      PlusIsSum(v, k - 1);
      IncIsPlusOne(ValueOf(v) + k - 1, |v|);
    }
  }

  lemma {:induction false} IncAllOnes(v: seq<bool>)
    ensures AllOnes(v) ==> Inc(v) == Zeros(|v|)
    ensures !AllOnes(v) ==> Inc(v) != Zeros(|v|)
  {
    if v != [] {
      IncAllOnes(v[1..]);
      if v[0] {
        assert AllOnes(v) == AllOnes(v[1..]);
        assert Zeros(|v|)[1..] == Zeros(|v| - 1);
        assert ([false] + Inc(v[1..]))[1..] == Inc(v[1..]);
      } else {
        assert Inc(v)[0] && !Zeros(|v|)[0];
      }
    }
  }

  lemma {:induction false} IncJoins(lo: seq<bool>, hi: seq<bool>)
    ensures Inc(lo + hi) == Inc(lo) + if AllOnes(lo) then Inc(hi) else hi
  {
    if lo == [] {
      assert lo + hi == hi && Inc(lo) + Inc(hi) == Inc(hi);
    } else {
      assert (lo + hi)[1..] == lo[1..] + hi;
      IncJoins(lo[1..], hi);
      assert AllOnes(lo) == (lo[0] && AllOnes(lo[1..]));
    }
  }

  /** The index is kept in two 64-bit words; the high one counts when the low one becomes 0. */
  method Increment(hi: seq<bool>, lo: seq<bool>) returns (hi': seq<bool>, lo': seq<bool>)
    requires |hi| == |lo| == 64
    ensures |hi'| == |lo'| == 64 && lo' + hi' == Inc(lo + hi)
  {
    lo', hi' := Inc(lo), hi;
    if lo' == Zeros(64) {
      hi' := Inc(hi);
    }
    IncAllOnes(lo);
    IncJoins(lo, hi);
  }

  method Counted(iv: Coefficients) returns (iv': Coefficients)
    ensures iv' == Inc(iv)
  {
    assert iv[..64] + iv[64..] == iv;
    var hi, lo := Increment(iv[64..], iv[..64]);
    iv' := lo + hi;
  }

  // ------------------------------------------------------ what counting changes

  function TrailingOnes(v: seq<bool>): (n: nat)
    ensures n <= |v| && (n == |v| <==> AllOnes(v))
  {
    if v == [] || !v[0] then 0 else assert AllOnes(v) == AllOnes(v[1..]); 1 + TrailingOnes(v[1..])
  }

  /** `n` ones, then zeros. */
  function Ones(n: nat, len: nat): (v: seq<bool>)
    ensures |v| == len
  {
    seq(len, i => i < n)
  }

  /** An index and the next differ in the trailing ones and the zero above them. */
  lemma {:induction false} IncFlips(v: seq<bool>)
    requires !AllOnes(v)
    ensures XorBits(v, Inc(v)) == Ones(TrailingOnes(v) + 1, |v|)
  {
    if v[0] {
      assert AllOnes(v) == AllOnes(v[1..]);
      IncFlips(v[1..]);
      assert XorBits(v, Inc(v)) == [true] + XorBits(v[1..], Inc(v[1..]));
    }
  }

  lemma {:induction false} TrailingJoins(lo: seq<bool>, hi: seq<bool>)
    ensures TrailingOnes(lo + hi) == if AllOnes(lo) then |lo| + TrailingOnes(hi) else TrailingOnes(lo)
  {
    if lo == [] {
      assert lo + hi == hi;
    } else {
      assert (lo + hi)[1..] == lo[1..] + hi;
      TrailingJoins(lo[1..], hi);
      assert AllOnes(lo) == (lo[0] && AllOnes(lo[1..]));
    }
  }

  /** Counting the trailing ones word by word; 128 when there is no zero. */
  method GetIndex(v: Coefficients) returns (x: nat)
    ensures x == TrailingOnes(v)
  {
    x := 0;
    while x < 128
      invariant x <= 128 && x % 32 == 0 && TrailingOnes(v) == x + TrailingOnes(v[x..])
    {
      var word := v[x..x + 32];
      assert v[x..] == word + v[x + 32..];
      TrailingJoins(word, v[x + 32..]);
      if !AllOnes(word) {
        return x + TrailingOnes(word);
      }
      x := x + 32;
    }
  }

  // ---------------------------------------------------------------- the mode

  /** Key setup: key2 times 1, 11, 111, and so on in binary. */
  lemma OnesNext(i: nat, len: nat)
    requires i < len
    ensures Ones(i, len)[i := true] == Ones(i + 1, len)
  {
  }

  method MakeMulinc<E(!new)>(o: Ops<E>, ts: seq<seq<E>>, ghost key2: E) returns (mulinc: seq<E>)
    requires Laws(o) && |ts| == 16 && AreTables(o, Bbe, ts, key2)
    ensures IsMulinc(o, mulinc, key2)
  {
    mulinc := [];
    var tmp: Coefficients := Ones(0, 128);
    for i := 0 to 128
      invariant |mulinc| == i && tmp == Ones(i, 128)
      invariant forall j :: 0 <= j < i ==> mulinc[j] == Times(o, Ones(j + 1, 128), key2)
    {
      OnesNext(i, 128);
      tmp := tmp[i := true];
      var t := Multiply64k(o, Bbe, ts, key2, tmp, Bytes(Bbe, tmp));
      mulinc := mulinc + [t];
    }
  }

  function Masked<E>(o: Ops<E>, fn: E -> E, t: E, p: E): E { o.add(fn(o.add(t, p)), t) }

  /** Block by block, with rising indices; `mask` gives the mask of each index. */
  function Crypted<E>(o: Ops<E>, fn: E -> E, mask: nat -> E, index: nat, src: seq<E>): (dst: seq<E>)
    ensures |dst| == |src|
    decreases |src|
  {
    if src == [] then [] else [Masked(o, fn, mask(index), src[0])] + Crypted(o, fn, mask, index + 1, src[1..])
  }

  lemma {:induction false} CryptedGrows<E>(o: Ops<E>, fn: E -> E, mask: nat -> E, index: nat, src: seq<E>, p: E)
    ensures Crypted(o, fn, mask, index, src + [p])
            == Crypted(o, fn, mask, index, src) + [Masked(o, fn, mask(index + |src|), p)]
    decreases |src|
  {
    if src != [] {
      assert (src + [p])[1..] == src[1..] + [p];
      CryptedGrows(o, fn, mask, index + 1, src[1..], p);
    }
  }

  lemma CryptedNext<E>(o: Ops<E>, fn: E -> E, mask: nat -> E, src: seq<E>, n: nat)
    requires n < |src|
    ensures Crypted(o, fn, mask, 0, src[..n + 1]) == Crypted(o, fn, mask, 0, src[..n]) + [Masked(o, fn, mask(n), src[n])]
  {
    assert src[..n + 1] == src[..n] + [src[n]];
    CryptedGrows(o, fn, mask, 0, src[..n], src[n]);
  }

  /** The mask of block `k` is key2 times the index counted up `k` times. */
  ghost function MaskOf<E>(o: Ops<E>, key2: E, iv: Coefficients): nat -> E {
    (k: nat) => Times(o, Plus(iv, k), key2)
  }

  /** In the field itself: the polynomial product of key2 and the index, reduced. */
  lemma MaskIsProduct(key2: Coefficients, iv: Coefficients, k: nat)
    ensures MaskOf(Gf128.Field(Bbe), key2, iv)(k) == Gf128.Reduce(Gf128.Product(Binary(ValueOf(iv) + k, 128), key2))
  {
    PlusIsSum(iv, k);
    Gf128.TimesIsProduct(Bbe, Plus(iv, k), key2);
  }

  /** One step of the index takes the mask of one block to that of the next. */
  lemma NextMask<E(!new)>(o: Ops<E>, iv: Coefficients, key2: E)
    requires Laws(o) && !AllOnes(iv)
    ensures o.add(Times(o, iv, key2), Times(o, Ones(TrailingOnes(iv) + 1, 128), key2)) == Times(o, Inc(iv), key2)
  {
    IncFlips(iv);
    assert XorBits(iv, Ones(TrailingOnes(iv) + 1, 128)) == Inc(iv);
    TimesXor(o, iv, Ones(TrailingOnes(iv) + 1, 128), key2);
  }

  lemma {:induction false} FullIsAllOnes(v: seq<bool>)
    ensures ValueOf(v) < Pow2(|v|) && (AllOnes(v) <==> ValueOf(v) == Pow2(|v|) - 1)
  {
    if v != [] {
      FullIsAllOnes(v[1..]);
      assert AllOnes(v) == (v[0] && AllOnes(v[1..]));
    }
  }

  lemma {:induction false} ValueOfBinary(n: nat, len: nat)
    requires n < Pow2(len)
    ensures ValueOf(Binary(n, len)) == n
  {
    if len > 0 { ValueOfBinary(n / 2, len - 1); }
  }

  ghost predicate IsMulinc<E>(o: Ops<E>, mulinc: seq<E>, key2: E) {
    |mulinc| == 128 && forall i :: 0 <= i < 128 ==> mulinc[i] == Times(o, Ones(i + 1, 128), key2)
  }

  /** The index can be counted up as long as it does not reach 2^128. */
  lemma NotFull(iv: seq<bool>, k: nat)
    requires ValueOf(iv) + k + 1 < Pow2(|iv|)
    ensures !AllOnes(Plus(iv, k))
  {
    PlusIsSum(iv, k);
    ValueOfBinary(ValueOf(iv) + k, |iv|);
    FullIsAllOnes(Plus(iv, k));
  }

  /** Counting up comes to the index with no zero. */
  lemma ComesToFull(iv: seq<bool>, k: nat)
    requires ValueOf(iv) + k + 1 == Pow2(|iv|)
    ensures TrailingOnes(Plus(iv, k)) == |iv|
  {
    PlusIsSum(iv, k);
    ValueOfBinary(ValueOf(iv) + k, |iv|);
    FullIsAllOnes(Plus(iv, k));
  }

  ghost predicate InTable(iv: Coefficients, n: nat) { forall k :: 0 <= k < n ==> TrailingOnes(Plus(iv, k)) < |iv| }

  /**
    The code looks a multiple up for every block but the first, at the index of the lowest
    zero.  Its table of 128 has them all if and only if the index does not wrap.
   */
  lemma TableSuffices(iv: Coefficients, n: nat)
    ensures InTable(iv, n) <==> ValueOf(iv) + n < Pow2(|iv|)
  {
    FullIsAllOnes(iv);
    if ValueOf(iv) + n < Pow2(|iv|) {
      forall k | 0 <= k < n ensures TrailingOnes(Plus(iv, k)) < |iv| {
        NotFull(iv, k);
      }
    } else {
      ComesToFull(iv, Pow2(|iv|) - 1 - ValueOf(iv));
    }
  }

  lemma MaskAdvances<E(!new)>(o: Ops<E>, mulinc: seq<E>, key2: E, iv: Coefficients)
    requires Laws(o) && IsMulinc(o, mulinc, key2) && !AllOnes(iv)
    ensures TrailingOnes(iv) < 128
    ensures o.add(Times(o, iv, key2), mulinc[TrailingOnes(iv)]) == Times(o, Inc(iv), key2)
  {
    NextMask(o, iv, key2);
  }

  /** Counting the index up and moving the mask along to the next block. */
  method Advance<E(!new)>(o: Ops<E>, mulinc: seq<E>, ghost key2: E, iv: Coefficients, t: E)
    returns (iv': Coefficients, t': E)
    requires Laws(o) && IsMulinc(o, mulinc, key2) && !AllOnes(iv) && t == Times(o, iv, key2)
    ensures iv' == Inc(iv) && t' == Times(o, iv', key2)
  {
    MaskAdvances(o, mulinc, key2, iv);
    var x := GetIndex(iv);
    t' := o.add(t, mulinc[x]);
    iv' := Counted(iv);
  }

  /** All blocks, the mask of the first being given. */
  method CryptBlocks<E(!new)>(o: Ops<E>, fn: E -> E, mulinc: seq<E>, ghost key2: E, iv0: Coefficients, t0: E, src: seq<E>)
    returns (dst: seq<E>, iv: Coefficients)
    requires Laws(o) && IsMulinc(o, mulinc, key2) && src != []
    requires ValueOf(iv0) + |src| <= Pow2(|iv0|) && t0 == Times(o, iv0, key2)
    ensures dst == Crypted(o, fn, MaskOf(o, key2, iv0), 0, src) && iv == Plus(iv0, |src| - 1)
  {
    var t := t0;
    iv := iv0;
    dst := [Masked(o, fn, t, src[0])];
    assert src[..1] == [src[0]];
    for n := 1 to |src|
      invariant iv == Plus(iv0, n - 1) && t == Times(o, iv, key2)
      invariant dst == Crypted(o, fn, MaskOf(o, key2, iv0), 0, src[..n])
    {
      NotFull(iv0, n - 1);
      iv, t, dst := NextBlock(o, fn, mulinc, key2, iv0, iv, t, src, dst, n);
    }
    assert src[..|src|] == src;
  }

  method NextBlock<E(!new)>(o: Ops<E>, fn: E -> E, mulinc: seq<E>, ghost key2: E, ghost iv0: Coefficients,
                            iv: Coefficients, t: E, src: seq<E>, dst: seq<E>, n: nat)
    returns (iv': Coefficients, t': E, dst': seq<E>)
    requires Laws(o) && IsMulinc(o, mulinc, key2) && 0 < n < |src| && !AllOnes(iv)
    requires iv == Plus(iv0, n - 1) && t == Times(o, iv, key2)
    requires dst == Crypted(o, fn, MaskOf(o, key2, iv0), 0, src[..n])
    ensures iv' == Plus(iv0, n) && t' == Times(o, iv', key2)
    ensures dst' == Crypted(o, fn, MaskOf(o, key2, iv0), 0, src[..n + 1])
  {
    CryptedNext(o, fn, MaskOf(o, key2, iv0), src, n);
    iv', t' := Advance(o, mulinc, key2, iv, t);
    dst' := dst + [Masked(o, fn, t', src[n])];
  }

  /** Encryption and decryption, given the child cipher's direction as `fn`. */
  method Crypt<E(!new)>(o: Ops<E>, fn: E -> E, ts: seq<seq<E>>, mulinc: seq<E>, ghost key2: E, iv0: Coefficients, src: seq<E>)
    returns (dst: seq<E>, iv: Coefficients)
    requires Laws(o) && |ts| == 16 && AreTables(o, Bbe, ts, key2) && IsMulinc(o, mulinc, key2)
    requires ValueOf(iv0) + |src| <= Pow2(|iv0|)
    ensures dst == Crypted(o, fn, MaskOf(o, key2, iv0), 0, src)
    ensures iv == if src == [] then iv0 else Plus(iv0, |src| - 1)
  {
    dst, iv := [], iv0;
    if src != [] {
      var t := Multiply64k(o, Bbe, ts, key2, iv, Bytes(Bbe, iv));
      dst, iv := CryptBlocks(o, fn, mulinc, key2, iv0, t, src);
    }
  }

  /** Decryption undoes encryption. */
  lemma {:induction false} CryptedUndone<E(!new)>(
    o: Ops<E>, enc: E -> E, dec: E -> E, mask: nat -> E, index: nat, src: seq<E>)
    requires Laws(o) && forall x :: dec(enc(x)) == x
    ensures Crypted(o, dec, mask, index, Crypted(o, enc, mask, index, src)) == src
    decreases |src|
  {
    if src != [] {
      MaskedUndone(o, enc, dec, mask(index), src[0]);
      CryptedUndone(o, enc, dec, mask, index + 1, src[1..]);
    }
  }

  lemma MaskedUndone<E(!new)>(o: Ops<E>, enc: E -> E, dec: E -> E, t: E, p: E)
    requires Laws(o) && forall x :: dec(enc(x)) == x
    ensures Masked(o, dec, t, Masked(o, enc, t, p)) == p
  {
    var c := enc(o.add(t, p));
    TwiceGone(o, t, c);
    TwiceGone(o, t, p);
    assert o.Swaps(t, p) && o.Swaps(o.add(t, p), t);
  }

  lemma TwiceGone<E(!new)>(o: Ops<E>, t: E, x: E)
    requires Laws(o)
    ensures o.add(t, o.add(x, t)) == x
  {
    assert o.Swaps(t, o.add(x, t)) && o.Join(x, t, t) && o.Twice(t) && o.Zero(x);
  }
}
