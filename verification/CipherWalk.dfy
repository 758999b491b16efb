/** The walk of blkcipher.c: chunk by chunk through two scatter lists, with the modes on top. */
module CipherWalk {
  import opened BlockModes
  import opened ScatterWalk
  import opened CipherLoops
  import opened WalkProgress

  /** Where the walk keeps its own buffers: a page, and two spots for one block each. */
  datatype Buffers = Buffers(page: nat, spotSrc: nat, spotDst: nat, size: nat)

  predicate Scratch(f: Buffers, x: nat) {
    || f.page <= x < f.page + PAGE_SIZE
    || f.spotSrc <= x < f.spotSrc + f.size || f.spotDst <= x < f.spotDst + f.size
  }

  /** Memory as others see it: without the walk's own buffers. */
  function Visible(f: Buffers, m: Bytes): (v: Bytes)
    ensures |v| == |m|
  {
    seq(|m|, x requires 0 <= x < |m| => if Scratch(f, x) then 0 else m[x])
  }

  predicate Clear(f: Buffers, addrs: seq<nat>) { forall i :: 0 <= i < |addrs| ==> !Scratch(f, addrs[i]) }

  lemma ScratchOnly(f: Buffers, m: Bytes, m': Bytes, a: nat, bytes: Bytes)
    requires Wrote(m, m', Range(a, |bytes|), bytes) && forall x :: a <= x < a + |bytes| ==> Scratch(f, x)
    ensures Visible(f, m') == Visible(f, m)
  {
    forall x: nat | x < |m| ensures Visible(f, m')[x] == Visible(f, m)[x] {
      RangeHas(a, |bytes|, x);
    }
  }

  lemma ClearIsVisible(f: Buffers, m: Bytes, addrs: seq<nat>)
    requires Clear(f, addrs) && InMemory(m, addrs)
    ensures Read(Visible(f, m), addrs) == Read(m, addrs)
  {
  }

  lemma WroteVisible(f: Buffers, m: Bytes, m': Bytes, addrs: seq<nat>, bytes: Bytes)
    requires Clear(f, addrs) && Wrote(m, m', addrs, bytes)
    ensures Wrote(Visible(f, m), Visible(f, m'), addrs, bytes)
  {
  }

  // ------------------------------------------------------- one chunk, three ways

  /** What is done along a walk: a mode of `cbc.c` or `pcbc.c`, or another that goes forwards. */
  datatype Engine = Modal(c: Cipher, mode: Mode) | Straight(p: Coder) {
    function Coder(): Coder { if Modal? then CoderOf(c, mode) else p }
  }

  ghost predicate Sound(e: Engine) { if e.Modal? then Laws(e.c) else Good(e.p) }

  lemma EngineIsGood(e: Engine)
    requires Sound(e)
    ensures Good(e.Coder())
  {
    if e.Modal? { CoderIsGood(e.c, e.mode); }
  }

  /** The buffers are somewhere, and the spots do not overlap. */
  predicate Room(f: Buffers, size: nat, length: nat) {
    && f.size == size && f.page + PAGE_SIZE <= length && f.spotSrc + size <= length && f.spotDst + size <= length
    && (f.spotSrc + size <= f.spotDst || f.spotDst + size <= f.spotSrc)
  }

  /** Two walks that can be taken for `n` bytes: over known memory, clear of the buffers. */
  ghost predicate Ready(f: Buffers, m: Bytes, inw: Walk, outw: Walk, n: nat) {
    && Ok(inw) && Ok(outw) && n <= |Rest(inw)| && n <= |Rest(outw)|
    && (var a, b := Ahead(inw, n), Ahead(outw, n);
        InMemory(m, a) && InMemory(m, b) && Lists(a, b) && Clear(f, a) && Clear(f, b))
  }

  lemma AheadLess(w: Walk, n: nat, k: nat)
    requires Ok(w) && k <= n <= |Rest(w)|
    ensures Ahead(w, n)[..k] == Ahead(w, k)
  {
  }

  lemma ReadyLess(f: Buffers, m: Bytes, inw: Walk, outw: Walk, n: nat, k: nat)
    requires Ready(f, m, inw, outw, n) && k <= n
    ensures Ready(f, m, inw, outw, k)
  {
    AheadLess(inw, n, k);
    AheadLess(outw, n, k);
    ListsBefore(Ahead(inw, n), Ahead(outw, n), k);
  }

  lemma ListsBefore(a: seq<nat>, b: seq<nat>, k: nat)
    requires Lists(a, b) && k <= |a| && k <= |b|
    ensures Lists(a[..k], b[..k])
  {
    assert b == b[..k] + b[k..];
    DistinctSplits(b[..k], b[k..]);
    if a != b {
      forall x | x in a[..k] ensures x !in b[..k] {
        assert x in a;
      }
    }
  }

  /** `k` bytes have been taken from one list, worked on, and put into the other. */
  ghost predicate Chunked(p: Coder, f: Buffers, m0: Bytes, m1: Bytes, a: seq<nat>, b: seq<nat>, iv: Bytes, iv': Bytes, k: nat)
    requires InMemory(m0, a)
  {
    && 0 < k <= |a| && k <= |b| && Whole(p.size, k)
    && (var x := Read(m0, a[..k]);
        iv' == ChainIv(p, iv, x) && Wrote(Visible(f, m0), Visible(f, m1), b[..k], Chain(p, iv, x)))
  }

  lemma NothingLeft(size: nat, left: nat)
    requires left < size && Whole(size, size - left)
    ensures left == 0
  {
  }

  lemma SpotsAreScratch(f: Buffers, n: nat)
    requires n <= PAGE_SIZE
    ensures forall x :: f.spotSrc <= x < f.spotSrc + f.size ==> Scratch(f, x)
    ensures forall x :: f.spotDst <= x < f.spotDst + f.size ==> Scratch(f, x)
    ensures forall x :: f.page <= x < f.page + n ==> Scratch(f, x)
  {
  }

  /** A block that is not in one piece is worked on in the spots. */
  method InSpots(p: Coder, m: array<Byte>, f: Buffers, x: Bytes, iv: Bytes) returns (y: Bytes, iv': Bytes)
    requires Good(p) && Room(f, p.size, m.Length) && p.IsIv(iv) && p.IsBlock(x)
    modifies m
    ensures y == Chain(p, iv, x) && iv' == ChainIv(p, iv, x) && |y| == p.size && Visible(f, m[..]) == old(Visible(f, m[..]))
  {
    PutInSpot(m, f, p.size, x);
    ghost var m1 := m[..];
    var left;
    iv', left := Forwards(p, m, f.spotSrc, f.spotDst, p.size, iv);
    NothingLeft(p.size, left);
    assert x[..p.size] == x;
    y := m[f.spotDst..f.spotDst + p.size];
    SpotHolds(f, p.size, m1, m[..], Chain(p, iv, x));
  }

  lemma SpotHolds(f: Buffers, size: nat, m1: Bytes, m2: Bytes, y: Bytes)
    requires Room(f, size, |m1|) && |y| == size && Wrote(m1, m2, Range(f.spotDst, size), y)
    ensures |m2| == |m1| && m2[f.spotDst..f.spotDst + size] == y && Visible(f, m2) == Visible(f, m1)
  {
    SpotsAreScratch(f, 0);
    StoredIs(m1, m2, f.spotDst, y);
    ScratchOnly(f, m1, m2, f.spotDst, y);
  }

  /** Into the first spot buffer. */
  method PutInSpot(m: array<Byte>, f: Buffers, size: nat, x: Bytes)
    requires Room(f, size, m.Length) && |x| == size
    modifies m
    ensures m[f.spotSrc..f.spotSrc + size] == x && Visible(f, m[..]) == old(Visible(f, m[..]))
  {
    ghost var m0 := m[..];
    SpotsAreScratch(f, 0);
    Store(m, f.spotSrc, x);
    ScratchOnly(f, m0, m[..], f.spotSrc, x);
    StoredIs(m0, m[..], f.spotSrc, x);
  }

  lemma StoredIs(m: Bytes, m': Bytes, a: nat, bytes: Bytes)
    requires Wrote(m, m', Range(a, |bytes|), bytes) && a + |bytes| <= |m|
    ensures m'[a..a + |bytes|] == bytes
  {
    assert forall i :: 0 <= i < |bytes| ==> Range(a, |bytes|)[i] == a + i;
  }

  method Slow(p: Coder, m: array<Byte>, f: Buffers, inw: Walk, outw: Walk, iv: Bytes)
    returns (inw': Walk, outw': Walk, iv': Bytes)
    requires Good(p) && Room(f, p.size, m.Length) && p.IsIv(iv) && Ready(f, m[..], inw, outw, p.size)
    modifies m
    ensures Ok(inw') && Ok(outw') && Rest(inw') == Rest(inw)[p.size..] && Rest(outw') == Rest(outw)[p.size..]
    ensures Chunked(p, f, old(m[..]), m[..], Ahead(inw, p.size), Ahead(outw, p.size), iv, iv', p.size)
  {
    var x, y;
    x, inw' := CopyIn(m, inw, p.size);
    y, iv' := InSpots(p, m, f, x, iv);
    ghost var m1 := m[..];
    outw' := CopyOut(m, outw, y);
    WroteVisible(f, m1, m[..], Ahead(outw, p.size), y);
    AheadLess(inw, p.size, p.size);
    AheadLess(outw, p.size, p.size);
    assert Whole(p.size, p.size - p.size);
  }

  /** Bytes within a page are in one piece. */
  lemma OnePiece(m: Bytes, w: Walk, n: nat)
    requires Ok(w) && n <= |Rest(w)| && InMemory(m, Ahead(w, n)) && 0 < n <= PageLen(w)
    ensures n <= PAGE_SIZE && Ahead(w, n) == Range(Address(w), n) && Address(w) + n <= |m|
    ensures Read(m, Ahead(w, n)) == m[Address(w)..Address(w) + n]
  {
    AdvanceVisits(w, n);
    assert Ahead(w, n)[n - 1] == Address(w) + n - 1;
  }

  lemma PiecesFit(f: Buffers, m: Bytes, inw: Walk, outw: Walk, n: nat)
    requires Ready(f, m, inw, outw, n) && 0 < n <= PageLen(inw) && n <= PageLen(outw)
    ensures Address(inw) + n <= |m| && Address(outw) + n <= |m| && n <= PAGE_SIZE
  {
    OnePiece(m, inw, n);
    OnePiece(m, outw, n);
  }

  /** In place, CBC decryption goes backwards and the rest forwards. */
  method InPlace(e: Engine, m: array<Byte>, s: nat, n: nat, iv: Bytes) returns (iv': Bytes, left: nat)
    requires Sound(e) && e.Coder().IsIv(iv) && e.Coder().size <= n && s + n <= m.Length
    modifies m
    ensures left < e.Coder().size && left <= n
    ensures DoneTo(e.Coder(), iv, old(m[s..s + n]), old(m[..]), m[..], s, n - left, iv')
  {
    if e.Modal? && e.mode.CbcDecrypt? {
      iv', left := Backwards(e.c, m, s, n, iv);
    } else {
      EngineIsGood(e);
      iv', left := Forwards(e.Coder(), m, s, s, n, iv);
    }
  }

  /** What the loops have done to a piece of the lists is a chunk of the walk. */
  lemma PieceIsChunk(p: Coder, f: Buffers, m0: Bytes, m1: Bytes, inw: Walk, outw: Walk, n: nat, k: nat, iv: Bytes, iv': Bytes)
    requires Ready(f, m0, inw, outw, n) && 0 < k <= n && n <= PageLen(inw) && n <= PageLen(outw)
    requires Address(inw) + n <= |m0| && Whole(p.size, k)
    requires var x := m0[Address(inw)..Address(inw) + n][..k];
             iv' == ChainIv(p, iv, x) && Wrote(Visible(f, m0), Visible(f, m1), Range(Address(outw), k), Chain(p, iv, x))
    ensures Chunked(p, f, m0, m1, Ahead(inw, n), Ahead(outw, n), iv, iv', k)
  {
    ReadyLess(f, m0, inw, outw, n, k);
    OnePiece(m0, inw, k);
    OnePiece(m0, outw, k);
    AheadLess(inw, n, k);
    AheadLess(outw, n, k);
    assert m0[Address(inw)..Address(inw) + n][..k] == m0[Address(inw)..Address(inw) + k];
  }

  method Fast(e: Engine, m: array<Byte>, f: Buffers, inw: Walk, outw: Walk, n: nat, iv: Bytes)
    returns (k: nat, iv': Bytes)
    requires Sound(e) && e.Coder().IsIv(iv) && Ready(f, m[..], inw, outw, n)
    requires e.Coder().size <= n <= PageLen(inw) && n <= PageLen(outw)
    modifies m
    ensures k <= n && Chunked(e.Coder(), f, old(m[..]), m[..], Ahead(inw, n), Ahead(outw, n), iv, iv', k)
  {
    var s, d, left := Address(inw), Address(outw), 0;
    ghost var m0 := m[..];
    PiecesFit(f, m0, inw, outw, n);
    PiecesApart(inw, outw, n);
    iv', left := OnPiece(e, m, s, d, n, iv);
    k := n - left;
    DoneIsChunk(e.Coder(), f, m0, m[..], inw, outw, n, k, iv, iv');
  }

  /** From one stretch of memory to another, or in place. */
  method OnPiece(e: Engine, m: array<Byte>, s: nat, d: nat, n: nat, iv: Bytes) returns (iv': Bytes, left: nat)
    requires Sound(e) && e.Coder().IsIv(iv) && e.Coder().size <= n && s + n <= m.Length && d + n <= m.Length && Apart(s, d, n)
    modifies m
    ensures left < e.Coder().size && left <= n
    ensures DoneTo(e.Coder(), iv, old(m[s..s + n]), old(m[..]), m[..], d, n - left, iv')
  {
    if s == d {
      iv', left := InPlace(e, m, s, n, iv);
    } else {
      EngineIsGood(e);
      iv', left := Forwards(e.Coder(), m, s, d, n, iv);
    }
  }

  lemma DoneIsChunk(p: Coder, f: Buffers, m0: Bytes, m1: Bytes, inw: Walk, outw: Walk, n: nat, k: nat, iv: Bytes, iv': Bytes)
    requires Ready(f, m0, inw, outw, n) && 0 < k <= n && n <= PageLen(inw) && n <= PageLen(outw)
    requires Address(inw) + n <= |m0| && DoneTo(p, iv, m0[Address(inw)..Address(inw) + n], m0, m1, Address(outw), k, iv')
    ensures Chunked(p, f, m0, m1, Ahead(inw, n), Ahead(outw, n), iv, iv', k)
  {
    var s, d := Address(inw), Address(outw);
    ReadyLess(f, m0, inw, outw, n, k);
    OnePiece(m0, outw, k);
    WroteVisible(f, m0, m1, Range(d, k), Chain(p, iv, m0[s..s + n][..k]));
    PieceIsChunk(p, f, m0, m1, inw, outw, n, k, iv, iv');
  }

  lemma PiecesApart(inw: Walk, outw: Walk, n: nat)
    requires Ok(inw) && Ok(outw) && 0 < n <= PageLen(inw) && n <= PageLen(outw)
    requires n <= |Rest(inw)| && n <= |Rest(outw)| && Lists(Ahead(inw, n), Ahead(outw, n))
    ensures Apart(Address(inw), Address(outw), n)
  {
    AdvanceVisits(inw, n);
    AdvanceVisits(outw, n);
    if Ahead(inw, n) == Ahead(outw, n) {
      assert Ahead(inw, n)[0] == Ahead(outw, n)[0];
    } else {
      RangesApart(Address(inw), Address(outw), n);
    }
  }

  lemma RangesApart(s: nat, d: nat, n: nat)
    requires n > 0 && forall x :: x in Range(s, n) ==> x !in Range(d, n)
    ensures s + n <= d || d + n <= s
  {
    RangeHas(s, n, s);
    RangeHas(d, n, s);
    RangeHas(s, n, d);
    RangeHas(d, n, d);
  }

  /** Bytes that are not aligned are worked on in the page. */
  method Copy(e: Engine, m: array<Byte>, f: Buffers, inw: Walk, outw: Walk, n: nat, iv: Bytes)
    returns (k: nat, iv': Bytes)
    requires Sound(e) && e.Coder().IsIv(iv) && Room(f, e.Coder().size, m.Length) && Ready(f, m[..], inw, outw, n)
    requires e.Coder().size <= n <= PageLen(inw) && n <= PageLen(outw)
    modifies m
    ensures k <= n && Chunked(e.Coder(), f, old(m[..]), m[..], Ahead(inw, n), Ahead(outw, n), iv, iv', k)
  {
    ghost var m0 := m[..];
    PiecesFit(f, m0, inw, outw, n);
    var y, x := [], m[Address(inw)..Address(inw) + n];
    y, iv' := InPage(e, m, f, x, iv);
    k := |y|;
    ghost var m1 := m[..];
    Store(m, Address(outw), y);
    CopiedIsChunk(e.Coder(), f, m0, m1, m[..], inw, outw, n, y, iv, iv');
  }

  lemma CopiedIsChunk(p: Coder, f: Buffers, m0: Bytes, m1: Bytes, m2: Bytes, inw: Walk, outw: Walk, n: nat, y: Bytes,
                      iv: Bytes, iv': Bytes)
    requires Ready(f, m0, inw, outw, n) && 0 < |y| <= n && n <= PageLen(inw) && n <= PageLen(outw)
    requires Visible(f, m1) == Visible(f, m0) && Wrote(m1, m2, Range(Address(outw), |y|), y) && Whole(p.size, |y|)
    requires Address(inw) + n <= |m0|
    requires var x := m0[Address(inw)..Address(inw) + n][..|y|]; y == Chain(p, iv, x) && iv' == ChainIv(p, iv, x)
    ensures Chunked(p, f, m0, m2, Ahead(inw, n), Ahead(outw, n), iv, iv', |y|)
  {
    ReadyLess(f, m0, inw, outw, n, |y|);
    OnePiece(m0, outw, |y|);
    WroteVisible(f, m1, m2, Range(Address(outw), |y|), y);
    PieceIsChunk(p, f, m0, m2, inw, outw, n, |y|, iv, iv');
  }

  method InPage(e: Engine, m: array<Byte>, f: Buffers, x: Bytes, iv: Bytes) returns (y: Bytes, iv': Bytes)
    requires Sound(e) && e.Coder().IsIv(iv) && Room(f, e.Coder().size, m.Length) && e.Coder().size <= |x| <= PAGE_SIZE
    modifies m
    ensures 0 < |y| <= |x| && Whole(e.Coder().size, |y|) && Visible(f, m[..]) == old(Visible(f, m[..]))
    ensures y == Chain(e.Coder(), iv, x[..|y|]) && iv' == ChainIv(e.Coder(), iv, x[..|y|])
  {
    ghost var m0, p := m[..], e.Coder();
    SpotsAreScratch(f, |x|);
    Store(m, f.page, x);
    ScratchOnly(f, m0, m[..], f.page, x);
    ghost var m1 := m[..];
    StoredIs(m0, m1, f.page, x);
    var left;
    iv', left := InPlace(e, m, f.page, |x|, iv);
    var k := |x| - left;
    SpotsAreScratch(f, k);
    y := m[f.page..f.page + k];
    StoredIs(m1, m[..], f.page, Chain(p, iv, x[..k]));
    ScratchOnly(f, m1, m[..], f.page, Chain(p, iv, x[..k]));
  }

  lemma ListsLater(a: seq<nat>, b: seq<nat>, k: nat)
    requires Lists(a, b) && k <= |a| && k <= |b|
    ensures Lists(a[k..], b[k..])
  {
    assert b == b[..k] + b[k..];
    DistinctSplits(b[..k], b[k..]);
    if a != b {
      forall x | x in a[k..] ensures x !in b[k..] {
        assert x in a;
      }
    }
  }

  predicate Aligned(alignMask: nat, w: Walk) { w.offset % (alignMask + 1) == 0 }

  /** Choosing how to get at the next bytes, and working on them. */
  method Piece(e: Engine, m: array<Byte>, f: Buffers, alignMask: nat, inw: Walk, outw: Walk, total: nat, iv: Bytes)
    returns (k: nat, inw': Walk, outw': Walk, iv': Bytes)
    requires Sound(e) && e.Coder().IsIv(iv) && Room(f, e.Coder().size, m.Length) && Ready(f, m[..], inw, outw, total)
    requires e.Coder().size <= total
    modifies m
    ensures k <= total && Ok(inw') && Ok(outw') && Rest(inw') == Rest(inw)[k..] && Rest(outw') == Rest(outw)[k..]
    ensures Chunked(e.Coder(), f, old(m[..]), m[..], Ahead(inw, total), Ahead(outw, total), iv, iv', k)
  {
    ghost var m0 := m[..];
    var n := Clamp(outw, Clamp(inw, total));
    ReadyLess(f, m0, inw, outw, total, if n < e.Coder().size then e.Coder().size else n);
    if n < e.Coder().size {
      EngineIsGood(e);
      inw', outw', iv' := Slow(e.Coder(), m, f, inw, outw, iv);
      k := e.Coder().size;
      ChunkedMore(e.Coder(), f, m0, m[..], inw, outw, k, total, iv, iv', k);
    } else {
      if Aligned(alignMask, inw) && Aligned(alignMask, outw) {
        k, iv' := Fast(e, m, f, inw, outw, n, iv);
      } else {
        k, iv' := Copy(e, m, f, inw, outw, n, iv);
      }
      ChunkedMore(e.Coder(), f, m0, m[..], inw, outw, n, total, iv, iv', k);
      AdvanceVisits(inw, k);
      AdvanceVisits(outw, k);
      inw', outw' := Advance(inw, k), Advance(outw, k);
    }
  }

  lemma ChunkedMore(p: Coder, f: Buffers, m0: Bytes, m1: Bytes, inw: Walk, outw: Walk, n: nat, total: nat,
                    iv: Bytes, iv': Bytes, k: nat)
    requires Ok(inw) && Ok(outw) && n <= total <= |Rest(inw)| && total <= |Rest(outw)| && InMemory(m0, Ahead(inw, total))
    requires InMemory(m0, Ahead(inw, n)) && Chunked(p, f, m0, m1, Ahead(inw, n), Ahead(outw, n), iv, iv', k)
    ensures Chunked(p, f, m0, m1, Ahead(inw, total), Ahead(outw, total), iv, iv', k)
  {
    assert Ahead(inw, n)[..k] == Ahead(inw, total)[..k] && Ahead(outw, n)[..k] == Ahead(outw, total)[..k];
  }

  lemma ReadyLater(f: Buffers, m: Bytes, m': Bytes, inw: Walk, outw: Walk, inw': Walk, outw': Walk, n: nat, k: nat)
    requires Ready(f, m, inw, outw, n) && |m'| == |m| && Ok(inw') && Ok(outw') && k <= n
    requires Rest(inw') == Rest(inw)[k..] && Rest(outw') == Rest(outw)[k..]
    ensures Ready(f, m', inw', outw', n - k)
    ensures Ahead(inw', n - k) == Ahead(inw, n)[k..] && Ahead(outw', n - k) == Ahead(outw, n)[k..]
  {
    assert Ahead(inw', n - k) == Ahead(inw, n)[k..] && Ahead(outw', n - k) == Ahead(outw, n)[k..];
    ListsLater(Ahead(inw, n), Ahead(outw, n), k);
  }

  lemma ChunkedIv(e: Engine, f: Buffers, m0: Bytes, m1: Bytes, a: seq<nat>, b: seq<nat>, iv: Bytes, iv': Bytes, k: nat)
    requires Sound(e) && e.Coder().IsIv(iv) && InMemory(m0, a) && Chunked(e.Coder(), f, m0, m1, a, b, iv, iv', k)
    ensures e.Coder().IsIv(iv')
  {
    EngineIsGood(e);
    ChainLength(e.Coder(), iv, Read(m0, a[..k]));
  }

  /** `total` bytes of list `a` have been worked on as one string and put into list `b`. */
  ghost predicate Crypted(p: Coder, f: Buffers, m0: Bytes, m1: Bytes, a: seq<nat>, b: seq<nat>, total: nat, iv: Bytes, iv': Bytes)
    requires InMemory(m0, a) && p.size > 0
  {
    && total <= |a| && total <= |b|
    && (var x, k := Read(m0, a[..total]), total - LeftOver(p.size, total);
        iv' == ChainIv(p, iv, x) && Wrote(Visible(f, m0), Visible(f, m1), b[..k], Chain(p, iv, x)))
  }

  lemma NoProgress(p: Coder, f: Buffers, m0: Bytes, a: seq<nat>, b: seq<nat>, iv: Bytes)
    requires Good(p) && p.IsIv(iv) && Lists(a, b) && InMemory(m0, a)
    ensures Progress(p, iv, Visible(f, m0), Visible(f, m0), a, b, 0, iv)
  {
    assert Read(Visible(f, m0), a[..0]) == [];
  }

  lemma ChunkProgress(p: Coder, f: Buffers, iv0: Bytes, m0: Bytes, m1: Bytes, m2: Bytes, a: seq<nat>, b: seq<nat>,
                      ra: seq<nat>, rb: seq<nat>, done: nat, k: nat, to: nat, iv: Bytes, iv': Bytes)
    requires Good(p) && p.IsIv(iv0) && Clear(f, a) && InMemory(m1, a) && done <= |a| && done <= |b|
    requires to == done + k && ra == a[done..] && rb == b[done..]
    requires Progress(p, iv0, Visible(f, m0), Visible(f, m1), a, b, done, iv)
    requires Chunked(p, f, m1, m2, ra, rb, iv, iv', k)
    ensures to <= |a| && to <= |b| && ra[k..] == a[to..] && rb[k..] == b[to..]
    ensures Progress(p, iv0, Visible(f, m0), Visible(f, m2), a, b, to, iv')
  {
    assert ra[..k] == a[done..to] && rb[..k] == b[done..to];
    ClearIsVisible(f, m1, a[done..to]);
    ProgressGrows(p, iv0, Visible(f, m0), Visible(f, m1), Visible(f, m2), a, b, done, k, iv);
  }

  lemma {:induction false} LeftOverLess(size: nat, n: nat, k: nat)
    requires size > 0 && Whole(size, k)
    ensures LeftOver(size, n + k) == LeftOver(size, n)
    decreases k
  {
    if k > 0 { LeftOverLess(size, n, k - size); }
  }

  lemma AllDone(p: Coder, f: Buffers, m0: Bytes, m1: Bytes, a: seq<nat>, b: seq<nat>, all: nat, done: nat, iv0: Bytes, iv: Bytes)
    requires Good(p) && Clear(f, a) && InMemory(m0, a) && done <= all <= |a| && all <= |b|
    requires all - done < p.size && LeftOver(p.size, all - done) == LeftOver(p.size, all)
    requires Progress(p, iv0, Visible(f, m0), Visible(f, m1), a, b, done, iv)
    ensures Crypted(p, f, m0, m1, a, b, all, iv0, iv)
  {
    var x, y := Read(m0, a[..done]), Read(m0, a[done..all]);
    assert a[..all] == a[..done] + a[done..all];
    ReadJoins(m0, a[..done], a[done..all]);
    ClearIsVisible(f, m0, a[..done]);
    ChainSplits(p, iv0, x, y);
    assert Chain(p, iv0, x) + [] == Chain(p, iv0, x);
  }

  datatype Result = Success | BadLength

  /** The bytes of a list after they have been stored. */
  lemma StoredReads(f: Buffers, m: Bytes, m': Bytes, b: seq<nat>, bytes: Bytes)
    requires Clear(f, b) && Wrote(Visible(f, m), Visible(f, m'), b, bytes)
    ensures InMemory(m', b) && Read(m', b) == bytes
  {
  }

  /** Decrypting from the list that was encrypted into, however either is cut up, gives the text back. */
  lemma RoundTrip(c: Cipher, mode: Mode, f: Buffers, m0: Bytes, m1: Bytes, m2: Bytes,
                  a: seq<nat>, b: seq<nat>, d: seq<nat>, total: nat, iv: Bytes, iv1: Bytes, iv2: Bytes)
    requires Laws(c) && (forall z :: c.Undoes(z)) && (mode.CbcEncrypt? || mode.PcbcEncrypt?) && c.IsBlock(iv)
    requires InMemory(m0, a) && InMemory(m1, b) && Clear(f, b) && Clear(f, d) && LeftOver(c.size, total) == 0
    requires Crypted(CoderOf(c, mode), f, m0, m1, a, b, total, iv, iv1)
    requires Crypted(CoderOf(c, Inverse(mode)), f, m1, m2, b, d, total, iv, iv2)
    ensures InMemory(m2, d[..total]) && Read(m2, d[..total]) == Read(m0, a[..total]) && iv2 == iv1
  {
    var x := Read(m0, a[..total]);
    StoredReads(f, m0, m1, b[..total], Chain(CoderOf(c, mode), iv, x));
    ChainUndone(c, mode, iv, x);
    StoredReads(f, m1, m2, d[..total], x);
  }

  /** Where a walk stands: the two positions, the bytes to go and the iv. */
  datatype State = State(inw: Walk, outw: Walk, total: nat, iv: Bytes)

  ghost predicate ValidState(f: Buffers, m: Bytes, s: State, p: Coder) {
    Room(f, p.size, |m|) && p.IsIv(s.iv) && Ready(f, m, s.inw, s.outw, s.total)
  }

  /** The walk that was in state `s0` with memory `m0` has come to `s` and `m`, `done` bytes on. */
  ghost predicate Underway(e: Engine, f: Buffers, m0: Bytes, s0: State, m: Bytes, s: State, done: nat) {
    && ValidState(f, m0, s0, e.Coder()) && ValidState(f, m, s, e.Coder()) && |m| == |m0| && done + s.total == s0.total
    && Ahead(s.inw, s.total) == Ahead(s0.inw, s0.total)[done..] && Ahead(s.outw, s.total) == Ahead(s0.outw, s0.total)[done..]
    && Progress(e.Coder(), s0.iv, Visible(f, m0), Visible(f, m),
                Ahead(s0.inw, s0.total), Ahead(s0.outw, s0.total), done, s.iv)
  }

  lemma StartsUnderway(e: Engine, f: Buffers, m: Bytes, s: State)
    requires Sound(e) && ValidState(f, m, s, e.Coder())
    ensures Underway(e, f, m, s, m, s, 0)
  {
    EngineIsGood(e);
    var a, b := Ahead(s.inw, s.total), Ahead(s.outw, s.total);
    NoProgress(e.Coder(), f, m, a, b, s.iv);
    assert a[0..] == a && b[0..] == b;
  }

  lemma StaysUnderway(e: Engine, f: Buffers, m0: Bytes, s0: State, m: Bytes, s: State, m': Bytes, s': State,
                      done: nat, k: nat, to: nat)
    requires Sound(e) && Underway(e, f, m0, s0, m, s, done) && ValidState(f, m', s', e.Coder())
    requires to + s'.total == s0.total && to == done + k
    requires Ahead(s'.inw, s'.total) == Ahead(s.inw, s.total)[k..] && Ahead(s'.outw, s'.total) == Ahead(s.outw, s.total)[k..]
    requires Chunked(e.Coder(), f, m, m', Ahead(s.inw, s.total), Ahead(s.outw, s.total), s.iv, s'.iv, k)
    ensures Underway(e, f, m0, s0, m', s', to)
  {
    EngineIsGood(e);
    ChunkProgress(e.Coder(), f, s0.iv, m0, m, m', Ahead(s0.inw, s0.total), Ahead(s0.outw, s0.total),
                  Ahead(s.inw, s.total), Ahead(s.outw, s.total),
                  done, k, to, s.iv, s'.iv);
  }

  lemma LessToGo(e: Engine, s: State, s': State, k: nat)
    requires Sound(e) && s.total == s'.total + k && 0 < k && Whole(e.Coder().size, k)
    ensures LeftOver(e.Coder().size, s'.total) == LeftOver(e.Coder().size, s.total) && s'.total < s.total
  {
    LeftOverLess(e.Coder().size, s'.total, k);
  }

  lemma EndsCrypted(e: Engine, f: Buffers, m0: Bytes, s0: State, m: Bytes, s: State, done: nat)
    requires Sound(e) && Underway(e, f, m0, s0, m, s, done) && s.total < e.Coder().size
    requires LeftOver(e.Coder().size, s.total) == LeftOver(e.Coder().size, s0.total)
    ensures Crypted(e.Coder(), f, m0, m, Ahead(s0.inw, s0.total), Ahead(s0.outw, s0.total), s0.total, s0.iv, s.iv)
  {
    EngineIsGood(e);
    AllDone(e.Coder(), f, m0, m, Ahead(s0.inw, s0.total), Ahead(s0.outw, s0.total), s0.total, done, s0.iv, s.iv);
  }

  method OneChunk(e: Engine, m: array<Byte>, f: Buffers, alignMask: nat, s: State) returns (k: nat, s': State)
    requires Sound(e) && ValidState(f, m[..], s, e.Coder()) && e.Coder().size <= s.total
    modifies m
    ensures ValidState(f, m[..], s', e.Coder()) && k <= s.total && s'.total == s.total - k
    ensures Ahead(s'.inw, s'.total) == Ahead(s.inw, s.total)[k..] && Ahead(s'.outw, s'.total) == Ahead(s.outw, s.total)[k..]
    ensures Chunked(e.Coder(), f, old(m[..]), m[..], Ahead(s.inw, s.total), Ahead(s.outw, s.total), s.iv, s'.iv, k)
  {
    var inw, outw, iv;
    k, inw, outw, iv := Piece(e, m, f, alignMask, s.inw, s.outw, s.total, s.iv);
    ChunkedIv(e, f, old(m[..]), m[..], Ahead(s.inw, s.total), Ahead(s.outw, s.total), s.iv, iv, k);
    var more := s.total > k;
    DoneKeeps(inw, more);
    DoneKeeps(outw, more);
    s' := State(Done(inw, more), Done(outw, more), s.total - k, iv);
    StateLater(e.Coder(), f, old(m[..]), m[..], s, s', k);
  }

  lemma StateLater(p: Coder, f: Buffers, m: Bytes, m': Bytes, s: State, s': State, k: nat)
    requires ValidState(f, m, s, p) && |m'| == |m| && Ok(s'.inw) && Ok(s'.outw) && p.IsIv(s'.iv)
    requires k <= s.total && s'.total == s.total - k && Rest(s'.inw) == Rest(s.inw)[k..] && Rest(s'.outw) == Rest(s.outw)[k..]
    ensures ValidState(f, m', s', p)
    ensures Ahead(s'.inw, s'.total) == Ahead(s.inw, s.total)[k..] && Ahead(s'.outw, s'.total) == Ahead(s.outw, s.total)[k..]
  {
    ReadyLater(f, m, m', s.inw, s.outw, s'.inw, s'.outw, s.total, k);
  }

  class Walker {
    const m: array<Byte>
    const f: Buffers
    const alignMask: nat
    var inw: Walk
    var outw: Walk
    var total: nat
    var iv: Bytes

    function View(): State
      reads this
    {
      State(inw, outw, total, iv)
    }

    ghost predicate Valid(p: Coder)
      reads this, m
    {
      ValidState(f, m[..], View(), p)
    }

    constructor (m: array<Byte>, f: Buffers, alignMask: nat, src: seq<Seg>, dst: seq<Seg>, nbytes: nat, iv: Bytes)
      requires src != [] && dst != []
      ensures this.m == m && this.f == f && this.alignMask == alignMask
      ensures inw == Start(src) && outw == Start(dst) && total == nbytes && this.iv == iv
    {
      this.m, this.f, this.alignMask := m, f, alignMask;
      inw, outw, total, this.iv := Start(src), Start(dst), nbytes, iv;
    }

    /** One chunk, and on to where the next one is. */
    method Chunk(e: Engine) returns (k: nat)
      requires Sound(e) && Valid(e.Coder()) && e.Coder().size <= total
      modifies this, m
      ensures Valid(e.Coder()) && total == old(total) - k
      ensures k <= old(total) && Ahead(inw, total) == old(Ahead(inw, total))[k..]
      ensures Ahead(outw, total) == old(Ahead(outw, total))[k..]
      ensures Chunked(e.Coder(), f, old(m[..]), m[..], old(Ahead(inw, total)), old(Ahead(outw, total)), old(iv), iv, k)
    {
      var s;
      k, s := OneChunk(e, m, f, alignMask, View());
      inw, outw, total, iv := s.inw, s.outw, s.total, s.iv;
    }

    /**
      A whole request: every byte of the whole blocks is visited once and in order, the
      destination gets what the mode makes of the source as one string, and the iv is left
      for the next request.  A request that is not whole blocks is refused at its tail.
     */
    method Crypt(e: Engine) returns (r: Result)
      requires Sound(e) && Valid(e.Coder())
      modifies this, m
      ensures r.Success? <==> LeftOver(e.Coder().size, old(total)) == 0
      ensures Crypted(e.Coder(), f, old(m[..]), m[..], old(Ahead(inw, total)), old(Ahead(outw, total)),
                      old(total), old(iv), iv)
    {
      ghost var m0, s0 := m[..], View();
      ghost var done: nat := 0;
      StartsUnderway(e, f, m0, s0);
      while total >= e.Coder().size
        invariant Underway(e, f, m0, s0, m[..], View(), done)
        invariant LeftOver(e.Coder().size, total) == LeftOver(e.Coder().size, s0.total)
        decreases total
      {
        ghost var m1, s1, from := m[..], View(), done;
        var k := Chunk(e);
        done := s0.total - total;
        StaysUnderway(e, f, m0, s0, m1, s1, m[..], View(), from, k, done);
        LessToGo(e, s1, View(), k);
      }
      EndsCrypted(e, f, m0, s0, m[..], View(), done);
      r := if total == 0 then Success else BadLength;
    }
  }
}
