// Walking over a scatter list: segments of memory, each beginning at some offset in its
// first page, visited page by page.  What is left of a walk is the sequence of addresses
// it has still to visit.
module ScatterWalk {
  import opened BlockModes

  const PAGE_SIZE: nat := 4096

  /** `page` is the address of the segment's first page. */
  datatype Seg = Seg(page: nat, offset: nat, length: nat)

  function End(s: Seg): nat { s.offset + s.length }

  /** The first segment is the one being visited; `offset` counts from its first page. */
  datatype Walk = Walk(sgs: seq<Seg>, offset: nat)

  function Range(a: nat, n: nat): seq<nat> { seq(n, i requires 0 <= i => a + i) }

  /** The addresses of a list, in order. */
  function Addresses(sgs: seq<Seg>): seq<nat> {
    if sgs == [] then [] else Range(sgs[0].page + sgs[0].offset, sgs[0].length) + Addresses(sgs[1..])
  }

  predicate Ok(w: Walk) {
    w.sgs != [] && w.sgs[0].offset <= w.offset <= End(w.sgs[0]) && forall i :: 0 <= i < |w.sgs| ==> w.sgs[i].length > 0
  }

  function Left(w: Walk): nat
    requires Ok(w)
  {
    End(w.sgs[0]) - w.offset
  }

  function Address(w: Walk): nat
    requires Ok(w)
  {
    w.sgs[0].page + w.offset
  }

  /** The addresses still to be visited. */
  function Rest(w: Walk): seq<nat>
    requires Ok(w)
  {
    Range(Address(w), Left(w)) + Addresses(w.sgs[1..])
  }

  /** The next `n` of them. */
  function Ahead(w: Walk, n: nat): seq<nat>
    requires Ok(w) && n <= |Rest(w)|
  {
    Rest(w)[..n]
  }

  /** The bytes that can be had before the page or the segment ends. */
  function PageLen(w: Walk): nat
    requires Ok(w)
  {
    var inPage := PAGE_SIZE - w.offset % PAGE_SIZE;
    if inPage > Left(w) then Left(w) else inPage
  }

  function Clamp(w: Walk, n: nat): nat
    requires Ok(w)
  {
    if n > PageLen(w) then PageLen(w) else n
  }

  function Start(sgs: seq<Seg>): Walk
    requires sgs != []
  {
    Walk(sgs, sgs[0].offset)
  }

  function Advance(w: Walk, n: nat): Walk { w.(offset := w.offset + n) }

  function RoundUp(offset: nat): nat { (offset + (PAGE_SIZE - 1)) / PAGE_SIZE * PAGE_SIZE }

  /** On to the next page, or to the next segment when this one has ended. */
  function PageDone(w: Walk): Walk
    requires Ok(w)
  {
    var w1 := w.(offset := RoundUp(w.offset));
    if w1.offset >= End(w.sgs[0]) then if |w.sgs| > 1 then Start(w.sgs[1..]) else w else w1
  }

  function Done(w: Walk, more: bool): Walk
    requires Ok(w)
  {
    if w.offset % PAGE_SIZE == 0 && more then PageDone(w) else w
  }

  // ------------------------------------------------------------ what they keep

  lemma {:induction false} StartsWithAll(sgs: seq<Seg>)
    requires sgs != [] && forall i :: 0 <= i < |sgs| ==> sgs[i].length > 0
    ensures Ok(Start(sgs)) && Rest(Start(sgs)) == Addresses(sgs)
  {
    assert Left(Start(sgs)) == sgs[0].length && Address(Start(sgs)) == sgs[0].page + sgs[0].offset;
  }

  lemma RangeCut(a: nat, n: nat, k: nat)
    requires k <= n
    ensures Range(a, n)[..k] == Range(a, k) && Range(a, n)[k..] == Range(a + k, n - k)
  {
  }

  /** Within a page the addresses are consecutive. */
  lemma AdvanceVisits(w: Walk, n: nat)
    requires Ok(w) && n <= PageLen(w)
    ensures Ok(Advance(w, n)) && n <= |Rest(w)|
    ensures Rest(w)[..n] == Range(Address(w), n) && Rest(Advance(w, n)) == Rest(w)[n..]
  {
    RangeCut(Address(w), Left(w), n);
  }

  lemma RoundUpIs(offset: nat)
    ensures RoundUp(offset) >= offset && (offset % PAGE_SIZE == 0 ==> RoundUp(offset) == offset)
  {
  }

  /** Going on to the next page or segment skips nothing. */
  lemma PageDoneKeeps(w: Walk)
    requires Ok(w) && (w.offset % PAGE_SIZE == 0 || w.offset == End(w.sgs[0])) && Rest(w) != []
    ensures Ok(PageDone(w)) && Rest(PageDone(w)) == Rest(w)
    ensures Left(w) == 0 ==> |PageDone(w).sgs| < |w.sgs| && Left(PageDone(w)) > 0
    ensures |PageDone(w).sgs| <= |w.sgs|
  {
    RoundUpIs(w.offset);
    if w.offset == End(w.sgs[0]) {
      assert Range(Address(w), 0) == [];
      assert |w.sgs| > 1;
      StartsWithAll(w.sgs[1..]);
    }
  }

  lemma DoneKeeps(w: Walk, more: bool)
    requires Ok(w) && (more ==> Rest(w) != [])
    ensures Ok(Done(w, more)) && Rest(Done(w, more)) == Rest(w)
  {
    if w.offset % PAGE_SIZE == 0 && more { PageDoneKeeps(w); }
  }

  // --------------------------------------------------------------- copying

  predicate InMemory(m: Bytes, addrs: seq<nat>) { forall i :: 0 <= i < |addrs| ==> addrs[i] < |m| }

  function Read(m: Bytes, addrs: seq<nat>): (r: Bytes)
    requires InMemory(m, addrs)
    ensures |r| == |addrs|
  {
    seq(|addrs|, i requires 0 <= i < |addrs| => m[addrs[i]])
  }

  predicate Distinct(addrs: seq<nat>) {
    addrs == [] || (addrs[0] !in addrs[1..] && Distinct(addrs[1..]))
  }

  lemma {:induction false} DistinctSplits(a: seq<nat>, b: seq<nat>)
    requires Distinct(a + b)
    ensures Distinct(a) && Distinct(b) && forall x :: x in a ==> x !in b
  {
    if a == [] {
      assert a + b == b;
    } else {
      assert (a + b)[1..] == a[1..] + b;
      DistinctSplits(a[1..], b);
      assert a[0] !in a[1..] + b;
    }
  }

  lemma RangeHas(a: nat, n: nat, x: nat)
    ensures x in Range(a, n) <==> a <= x < a + n
  {
    if a <= x < a + n { assert Range(a, n)[x - a] == x; }
  }

  /** `m'` is `m` with `bytes` written at `addrs`. */
  ghost predicate Wrote(m: Bytes, m': Bytes, addrs: seq<nat>, bytes: Bytes) {
    && |m'| == |m| && |addrs| == |bytes| && InMemory(m, addrs)
    && (forall i :: 0 <= i < |addrs| ==> m'[addrs[i]] == bytes[i])
    && (forall x :: 0 <= x < |m| && x !in addrs ==> m'[x] == m[x])
  }

  lemma WroteMore(m: Bytes, m1: Bytes, m2: Bytes, a: seq<nat>, b: seq<nat>, x: Bytes, y: Bytes)
    requires Wrote(m, m1, a, x) && Wrote(m1, m2, b, y) && Distinct(a + b)
    ensures Wrote(m, m2, a + b, x + y)
  {
    DistinctSplits(a, b);
    forall i | 0 <= i < |a| ensures m2[a[i]] == x[i] {
      assert a[i] in a;
    }
  }

  lemma ReadJoins(m: Bytes, a: seq<nat>, b: seq<nat>)
    requires InMemory(m, a + b)
    ensures InMemory(m, a) && InMemory(m, b) && Read(m, a + b) == Read(m, a) + Read(m, b)
  {
    assert forall i :: 0 <= i < |a| ==> (a + b)[i] == a[i];
    assert forall i :: 0 <= i < |b| ==> (a + b)[|a| + i] == b[i];
  }

  lemma Within(m: Bytes, addrs: seq<nat>, k: nat, n: nat)
    requires k <= n <= |addrs| && InMemory(m, addrs[..n])
    ensures InMemory(m, addrs[..k])
  {
    assert forall i :: 0 <= i < k ==> addrs[..k][i] == addrs[..n][i];
  }

  lemma PageEnds(w: Walk)
    requires Ok(w)
    ensures var w1 := Advance(w, PageLen(w)); w1.offset % PAGE_SIZE == 0 || w1.offset == End(w1.sgs[0])
  {
  }

  /** After a page: on to where the next bytes are. */
  lemma NextPage(w: Walk)
    requires Ok(w) && PageLen(w) < |Rest(w)|
    ensures var w1 := PageDone(Advance(w, PageLen(w)));
            Ok(w1) && Rest(w1) == Rest(w)[PageLen(w)..] && (PageLen(w) > 0 || |w1.sgs| < |w.sgs|)
  {
    AdvanceVisits(w, PageLen(w));
    PageEnds(w);
    PageDoneKeeps(Advance(w, PageLen(w)));
  }

  /** Copies `n` bytes out of the list, page by page. */
  method CopyIn(m: array<Byte>, w0: Walk, n: nat) returns (buf: Bytes, w: Walk)
    requires Ok(w0) && n <= |Rest(w0)| && InMemory(m[..], Ahead(w0, n))
    ensures Ok(w) && Rest(w) == Rest(w0)[n..] && buf == Read(m[..], Ahead(w0, n))
  {
    buf, w := [], w0;
    ghost var all := Rest(w0);
    while PageLen(w) < n - |buf|
      invariant Ok(w) && |buf| <= n && Rest(w) == all[|buf|..] && InMemory(m[..], all[..|buf|]) && buf == Read(m[..], all[..|buf|])
      decreases n - |buf|, |w.sgs|
    {
      buf := CopyPage(m, w, PageLen(w), all, n, buf);
      NextPage(w);
      w := PageDone(Advance(w, PageLen(w)));
    }
    var k := n - |buf|;
    AdvanceVisits(w, k);
    buf := CopyPage(m, w, k, all, n, buf);
    w := Advance(w, k);
  }

  method CopyPage(m: array<Byte>, w: Walk, len: nat, ghost all: seq<nat>, ghost n: nat, buf: Bytes) returns (buf': Bytes)
    requires Ok(w) && len <= PageLen(w) && |buf| + len <= n <= |all| && InMemory(m[..], all[..n])
    requires Rest(w) == all[|buf|..] && InMemory(m[..], all[..|buf|]) && buf == Read(m[..], all[..|buf|])
    ensures |buf'| == |buf| + len && InMemory(m[..], all[..|buf'|]) && buf' == Read(m[..], all[..|buf'|])
  {
    AdvanceVisits(w, len);
    ghost var piece := Range(Address(w), len);
    assert all[..|buf| + len] == all[..|buf|] + piece;
    Within(m[..], all, |buf| + len, n);
    ReadJoins(m[..], all[..|buf|], piece);
    buf' := buf + Read(m[..], Range(Address(w), len));
  }

  /** Stores bytes at consecutive addresses. */
  method Store(m: array<Byte>, a: nat, bytes: Bytes)
    requires bytes != [] ==> a + |bytes| <= m.Length
    modifies m
    ensures Wrote(old(m[..]), m[..], Range(a, |bytes|), bytes)
  {
    forall i | 0 <= i < |bytes| { m[a + i] := bytes[i]; }
    forall x: nat | x < m.Length && x !in Range(a, |bytes|) ensures m[x] == old(m[x]) {
      RangeHas(a, |bytes|, x);
    }
  }

  predicate Storable(m: Bytes, addrs: seq<nat>) { InMemory(m, addrs) && Distinct(addrs) }

  /** Copies `buf` into the list, page by page. */
  method CopyOut(m: array<Byte>, w0: Walk, buf: Bytes) returns (w: Walk)
    requires Ok(w0) && |buf| <= |Rest(w0)| && InMemory(m[..], Ahead(w0, |buf|)) && Distinct(Ahead(w0, |buf|))
    modifies m
    ensures Ok(w) && Rest(w) == Rest(w0)[|buf|..] && Wrote(old(m[..]), m[..], Ahead(w0, |buf|), buf)
  {
    w := w0;
    var k := 0;
    ghost var all := Rest(w0);
    while PageLen(w) < |buf| - k
      invariant Ok(w) && k <= |buf| && Rest(w) == all[k..] && Wrote(old(m[..]), m[..], all[..k], buf[..k])
      decreases |buf| - k, |w.sgs|
    {
      w, k := OnePage(m, old(m[..]), w, all, buf, k);
    }
    w := LastPage(m, old(m[..]), w, all, buf, k);
  }

  method LastPage(m: array<Byte>, ghost m0: Bytes, w: Walk, ghost all: seq<nat>, buf: Bytes, k: nat) returns (w': Walk)
    requires Ok(w) && |buf| <= |all| && Storable(m[..], all[..|buf|]) && k <= |buf| <= k + PageLen(w)
    requires Rest(w) == all[k..] && Wrote(m0, m[..], all[..k], buf[..k])
    modifies m
    ensures Ok(w') && Rest(w') == all[|buf|..] && Wrote(m0, m[..], all[..|buf|], buf)
  {
    var len := |buf| - k;
    AdvanceVisits(w, len);
    StorePage(m, m0, w, len, all, buf, k);
    w' := Advance(w, len);
    assert buf[..|buf|] == buf;
  }

  method OnePage(m: array<Byte>, ghost m0: Bytes, w: Walk, ghost all: seq<nat>, buf: Bytes, k: nat)
    returns (w': Walk, k': nat)
    requires Ok(w) && k + PageLen(w) < |buf| <= |all| && Storable(m[..], all[..|buf|])
    requires Rest(w) == all[k..] && Wrote(m0, m[..], all[..k], buf[..k])
    modifies m
    ensures Ok(w') && k' <= |buf| && (k < k' || (k == k' && |w'.sgs| < |w.sgs|))
    ensures Rest(w') == all[k'..] && Wrote(m0, m[..], all[..k'], buf[..k'])
  {
    var len := PageLen(w);
    k', w' := k + len, PageDone(Advance(w, len));
    NextPage(w);
    StorePage(m, m0, w, len, all, buf, k);
  }

  method StorePage(m: array<Byte>, ghost m0: Bytes, w: Walk, len: nat, ghost all: seq<nat>, buf: Bytes, k: nat)
    requires Ok(w) && len <= PageLen(w) && k + len <= |buf| <= |all| && Storable(m[..], all[..|buf|])
    requires Rest(w) == all[k..] && Wrote(m0, m[..], all[..k], buf[..k])
    modifies m
    ensures Wrote(m0, m[..], all[..k + len], buf[..k + len])
  {
    AdvanceVisits(w, len);
    ghost var m1, piece := m[..], Range(Address(w), len);
    assert all[..k + len] == all[..k] + piece;
    assert all[..|buf|] == all[..k + len] + all[k + len..|buf|];
    DistinctSplits(all[..k + len], all[k + len..|buf|]);
    assert len > 0 ==> all[..|buf|][k + len - 1] == Address(w) + len - 1;
    Store(m, Address(w), buf[k..k + len]);
    WroteMore(m0, m1, m[..], all[..k], piece, buf[..k], buf[k..k + len]);
    assert buf[..k + len] == buf[..k] + buf[k..k + len];
  }
}
