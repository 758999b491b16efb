// Scatter/gather mapping of a request and the segment count it is sized by.
//
// `blk_rq_map_sg` merges adjacent memory pieces into as few entries as it can.
// Its caller provides as many entries as `blk_recalc_rq_segments` counted, and the
// counting merges by other, stricter rules.  That the entries suffice is proved from
// the minimality of the mapping: no allowed grouping has fewer groups.
module Segments {
  import opened Common

  const PAGE_SIZE := 4096

  /** One piece of memory: page frame number, offset in the page, length. */
  datatype Vec = Vec(pfn: nat, off: nat, len: nat)

  /** A bio: its pieces, those before `idx` being done. */
  datatype Bio = Bio(vecs: seq<Vec>, idx: nat)

  datatype Entry = Entry(pfn: nat, off: nat, len: nat)

  /**
    What a queue allows.  `window` tells addresses a segment may not span apart: it is
    the address or-ed with `seg_boundary_mask`.  The last three are the architecture's
    rules for merging in bus address space.
   */
  datatype Limits = Limits(cluster: bool, maxSize: nat, window: int -> int, bouncePfn: nat,
                           virtMergeable: (Vec, Vec) -> bool, oversize: nat -> bool, virtStart: Vec -> nat)

  function Phys(v: Vec): nat {
    v.pfn * PAGE_SIZE + v.off
  }

  /** May the piece `v` share a segment with the piece `p` just before it? */
  predicate Joins(l: Limits, p: Vec, v: Vec) {
    && l.cluster
    && Phys(p) + p.len == Phys(v)
    && l.window(Phys(p)) == l.window(Phys(v) + v.len - 1)
  }

  function Vecs(rq: seq<Bio>): seq<Vec>
    requires forall i :: 0 <= i < |rq| ==> rq[i].idx <= |rq[i].vecs|
  {
    if rq == [] then [] else Vecs(rq[..|rq| - 1]) + rq[|rq| - 1].vecs[rq[|rq| - 1].idx..]
  }

  // ---------------------------------------------------------------- mapping

  /** One turn of the mapping loop; `p` is the piece before `v`, if there are entries. */
  function MapOne(l: Limits, es: seq<Entry>, p: Vec, v: Vec): (r: seq<Entry>)
    ensures |es| <= |r| <= |es| + 1 && r != []
  {
    var k := |es| - 1;
    if es != [] && Joins(l, p, v) && es[k].len + v.len <= l.maxSize then
      es[k := es[k].(len := es[k].len + v.len)]
    else
      es + [Entry(v.pfn, v.off, v.len)]
  }

  function Last(vs: seq<Vec>): Vec {
    if vs == [] then Vec(0, 0, 0) else vs[|vs| - 1]
  }

  /** The entries the mapping makes of a sequence of pieces. */
  function Mapped(l: Limits, vs: seq<Vec>): (es: seq<Entry>)
    ensures |es| <= |vs| && (vs != [] ==> es != [])
  {
    if vs == [] then []
    else MapOne(l, Mapped(l, vs[..|vs| - 1]), Last(vs[..|vs| - 1]), vs[|vs| - 1])
  }

  lemma MappedSnoc(l: Limits, vs: seq<Vec>, v: Vec)
    ensures Mapped(l, vs + [v]) == MapOne(l, Mapped(l, vs), Last(vs), v)
  {
    assert (vs + [v])[..|vs|] == vs;
  }

  // --------------------------------------------------------------- counting

  /** The counters of the counting loop, after some pieces. */
  datatype Count = Count(phys: nat, hw: nat, segSize: nat, hwSize: nat, highPrev: bool)

  function NewHw(c: Count, l: Limits, v: Vec, high: bool): Count {
    Count(c.phys + 1, c.hw + 1, v.len, l.virtStart(v) + v.len, high)
  }

  /** One turn of the counting loop; `p` is the piece before `v`, if any. */
  function CountOne(l: Limits, c: Count, p: Vec, v: Vec): Count {
    var high := v.pfn > l.bouncePfn;
    if high || c.highPrev then NewHw(c, l, v, high)
    else if l.cluster && c.segSize + v.len <= l.maxSize && Joins(l, p, v) then
      if l.oversize(c.hwSize + v.len) then NewHw(c, l, v, high)
      else c.(segSize := c.segSize + v.len, hwSize := c.hwSize + v.len)
    else if l.virtMergeable(p, v) && !l.oversize(c.hwSize + v.len) then
      Count(c.phys + 1, c.hw, v.len, c.hwSize + v.len, high)
    else NewHw(c, l, v, high)
  }

  function Counted(l: Limits, vs: seq<Vec>): Count {
    if vs == [] then Count(0, 0, 0, 0, true)
    else CountOne(l, Counted(l, vs[..|vs| - 1]), Last(vs[..|vs| - 1]), vs[|vs| - 1])
  }

  lemma CountedSnoc(l: Limits, vs: seq<Vec>, v: Vec)
    ensures Counted(l, vs + [v]) == CountOne(l, Counted(l, vs), Last(vs), v)
  {
    assert (vs + [v])[..|vs|] == vs;
  }

  // --------------------------------------------------------------- grouping

  function Total(g: seq<Vec>): nat {
    if g == [] then 0 else Total(g[..|g| - 1]) + g[|g| - 1].len
  }

  function Flat(gs: seq<seq<Vec>>): seq<Vec> {
    if gs == [] then [] else Flat(gs[..|gs| - 1]) + gs[|gs| - 1]
  }

  /** Pieces that may be one segment. */
  predicate Group(l: Limits, g: seq<Vec>) {
    && g != []
    && (forall i :: 0 < i < |g| ==> Joins(l, g[i - 1], g[i]))
    && (|g| > 1 ==> Total(g) <= l.maxSize)
  }

  predicate Grouping(l: Limits, gs: seq<seq<Vec>>, vs: seq<Vec>) {
    Flat(gs) == vs && forall i :: 0 <= i < |gs| ==> Group(l, gs[i])
  }

  /** A grouping without its last piece. */
  function Shorter(gs: seq<seq<Vec>>): seq<seq<Vec>>
    requires gs != [] && gs[|gs| - 1] != []
  {
    var n, g := |gs| - 1, gs[|gs| - 1];
    if |g| == 1 then gs[..n] else gs[..n] + [g[..|g| - 1]]
  }

  lemma ShorterGroups(l: Limits, gs: seq<seq<Vec>>, vs: seq<Vec>)
    requires Grouping(l, gs, vs) && vs != []
    ensures gs != [] && Grouping(l, Shorter(gs), vs[..|vs| - 1])
    ensures var g := gs[|gs| - 1]; g[|g| - 1] == vs[|vs| - 1]
    ensures |gs[|gs| - 1]| > 1 ==> |vs| > 1 && Joins(l, vs[|vs| - 2], vs[|vs| - 1])
  {
    var n, g, ss := |gs| - 1, gs[|gs| - 1], Shorter(gs);
    assert Group(l, g);
    if |g| == 1 {
      assert vs == Flat(gs[..n]) + g;
    } else {
      assert ss[..n] == gs[..n] && ss[n] == g[..|g| - 1];
      assert vs[..|vs| - 1] == Flat(gs[..n]) + g[..|g| - 1];
      assert Joins(l, g[|g| - 2], g[|g| - 1]);
      assert Group(l, ss[n]);
    }
  }

  /**
    The mapping never falls behind a grouping: it has used fewer entries, or as many
    with no more in the last.
   */
  lemma {:induction false} MappedIsMinimal(l: Limits, vs: seq<Vec>, gs: seq<seq<Vec>>)
    requires Grouping(l, gs, vs)
    ensures var es := Mapped(l, vs);
            || |es| < |gs|
            || (|es| == |gs| && (vs != [] ==> es[|es| - 1].len <= Total(gs[|gs| - 1])))
    decreases |vs|
  {
    if vs != [] {
      ShorterGroups(l, gs, vs);
      MappedIsMinimal(l, vs[..|vs| - 1], Shorter(gs));
    } else if gs != [] {
      assert Group(l, gs[|gs| - 1]);
    }
  }

  // ------------------------------------------------ the count is a grouping

  /** The groups the counting loop has counted. */
  function CountGroups(l: Limits, vs: seq<Vec>): seq<seq<Vec>> {
    if vs == [] then []
    else
      var n := |vs| - 1;
      NextGroups(CountGroups(l, vs[..n]), Counted(l, vs).phys > Counted(l, vs[..n]).phys, vs[n])
  }

  lemma GroupingNew(l: Limits, hs: seq<seq<Vec>>, vs: seq<Vec>, v: Vec)
    requires Grouping(l, hs, vs)
    ensures Grouping(l, hs + [[v]], vs + [v])
    ensures Total([v]) == v.len
  {
    var gs := hs + [[v]];
    assert gs[..|hs|] == hs;
    assert [v][..0] == [];
    assert forall i :: 0 <= i < |gs| ==> Group(l, gs[i]);
  }

  lemma GroupingLonger(l: Limits, hs: seq<seq<Vec>>, vs: seq<Vec>, v: Vec)
    requires Grouping(l, hs, vs) && hs != []
    requires var g := hs[|hs| - 1]; g != [] && Joins(l, g[|g| - 1], v) && Total(g) + v.len <= l.maxSize
    ensures var g := hs[|hs| - 1];
            Grouping(l, hs[..|hs| - 1] + [g + [v]], vs + [v]) && Total(g + [v]) == Total(g) + v.len
  {
    var k, g := |hs| - 1, hs[|hs| - 1];
    var gs := hs[..k] + [g + [v]];
    assert gs[..k] == hs[..k];
    assert (g + [v])[..|g|] == g;
    assert Group(l, g);
    assert forall i :: 0 <= i < |gs| ==> Group(l, gs[i]);
    assert Flat(gs) == Flat(hs[..k]) + (g + [v]);
  }

  /** The groups and the counters agree: as many groups as segments, the last as long as the last segment. */
  predicate Agree(l: Limits, gs: seq<seq<Vec>>, vs: seq<Vec>, c: Count) {
    && Grouping(l, gs, vs) && |gs| == c.phys && c.hw <= c.phys
    && (if vs == [] then c.highPrev else gs != [] && EndsWith(gs[|gs| - 1], vs[|vs| - 1], c.segSize))
  }

  predicate EndsWith(g: seq<Vec>, v: Vec, n: nat) { g != [] && g[|g| - 1] == v && Total(g) == n }

  /** The groups after one more piece. */
  function NextGroups(hs: seq<seq<Vec>>, starts: bool, v: Vec): seq<seq<Vec>> {
    if starts || hs == [] then hs + [[v]] else hs[..|hs| - 1] + [hs[|hs| - 1] + [v]]
  }

  lemma AgreeNext(l: Limits, hs: seq<seq<Vec>>, vs: seq<Vec>, c: Count, v: Vec)
    requires Agree(l, hs, vs, c)
    ensures var c' := CountOne(l, c, Last(vs), v); Agree(l, NextGroups(hs, c'.phys > c.phys, v), vs + [v], c')
  {
    var c' := CountOne(l, c, Last(vs), v);
    if c'.phys > c.phys {
      GroupingNew(l, hs, vs, v);
    } else {
      GroupingLonger(l, hs, vs, v);
    }
  }

  lemma CountGroupsSnoc(l: Limits, vs: seq<Vec>, v: Vec)
    ensures var c := CountOne(l, Counted(l, vs), Last(vs), v);
            CountGroups(l, vs + [v]) == NextGroups(CountGroups(l, vs), c.phys > Counted(l, vs).phys, v)
  {
    assert (vs + [v])[..|vs|] == vs;
    CountedSnoc(l, vs, v);
  }

  lemma {:induction false} CountIsGrouping(l: Limits, vs: seq<Vec>)
    ensures Agree(l, CountGroups(l, vs), vs, Counted(l, vs))
    decreases |vs|
  {
    if vs == [] {
      assert Grouping(l, [], vs);
    } else {
      var ws, v := vs[..|vs| - 1], vs[|vs| - 1];
      assert vs == ws + [v];
      var hs, c := CountGroups(l, ws), Counted(l, ws);
      assert Agree(l, hs, ws, c) by { CountIsGrouping(l, ws); }
      var c' := CountOne(l, c, Last(ws), v);
      var gs := NextGroups(hs, c'.phys > c.phys, v);
      assert Agree(l, gs, vs, c') by { AgreeNext(l, hs, ws, c, v); }
      assert Counted(l, vs) == c' by { CountedSnoc(l, ws, v); }
      assert CountGroups(l, vs) == gs by { CountGroupsSnoc(l, ws, v); }
    }
  }

  /** The mapping needs no more entries than were counted, nor more than there are bus segments' parts. */
  lemma MapFitsCount(l: Limits, vs: seq<Vec>)
    ensures |Mapped(l, vs)| <= Counted(l, vs).phys
    ensures Counted(l, vs).hw <= Counted(l, vs).phys
  {
    CountIsGrouping(l, vs);
    MappedIsMinimal(l, vs, CountGroups(l, vs));
  }

  // --------------------------------------------------- what is mapped is right

  function EntryBytes(es: seq<Entry>): seq<int> {
    if es == [] then []
    else EntryBytes(es[..|es| - 1]) + Range(Phys(Vec(es[|es| - 1].pfn, es[|es| - 1].off, 0)), es[|es| - 1].len)
  }

  function VecBytes(vs: seq<Vec>): seq<int> {
    if vs == [] then [] else VecBytes(vs[..|vs| - 1]) + Range(Phys(vs[|vs| - 1]), vs[|vs| - 1].len)
  }

  function EntryPhys(e: Entry): nat {
    e.pfn * PAGE_SIZE + e.off
  }

  lemma RangeJoins(a: int, m: nat, n: nat)
    ensures Range(a, m) + Range(a + m, n) == Range(a, m + n)
  {
  }

  lemma MapOneCovers(l: Limits, es: seq<Entry>, p: Vec, v: Vec)
    requires es != [] ==> EntryPhys(es[|es| - 1]) + es[|es| - 1].len == Phys(p) + p.len
    ensures var r := MapOne(l, es, p, v);
            && EntryBytes(r) == EntryBytes(es) + Range(Phys(v), v.len)
            && EntryPhys(r[|r| - 1]) + r[|r| - 1].len == Phys(v) + v.len
  {
    var r := MapOne(l, es, p, v);
    if |r| == |es| {
      var k := |es| - 1;
      assert r[..k] == es[..k];
      RangeJoins(EntryPhys(es[k]), es[k].len, v.len);
      assert EntryBytes(r) == EntryBytes(es[..k]) + (Range(EntryPhys(es[k]), es[k].len) + Range(Phys(v), v.len));
    } else {
      assert r[..|es|] == es;
    }
  }

  /**
    The entries cover exactly the bytes of the pieces, in order, and the last entry ends
    where the last piece ends.
   */
  lemma {:induction false} MappedCovers(l: Limits, vs: seq<Vec>)
    ensures EntryBytes(Mapped(l, vs)) == VecBytes(vs)
    ensures vs != [] ==>
              var e, v := Mapped(l, vs)[|Mapped(l, vs)| - 1], vs[|vs| - 1];
              EntryPhys(e) + e.len == Phys(v) + v.len
    decreases |vs|
  {
    if vs != [] {
      var front, v := vs[..|vs| - 1], vs[|vs| - 1];
      MappedCovers(l, front);
      MapOneCovers(l, Mapped(l, front), Last(front), v);
      assert Mapped(l, vs) == MapOne(l, Mapped(l, front), Last(front), v);
      assert VecBytes(vs) == VecBytes(front) + Range(Phys(v), v.len);
    }
  }

  /** A piece, or an entry, within the size limit and within one window. */
  predicate Within(l: Limits, a: nat, n: nat) {
    0 < n <= l.maxSize && l.window(a) == l.window(a + n - 1)
  }

  /** If every piece keeps the queue's limits then every entry does. */
  lemma {:induction false} MappedObeysLimits(l: Limits, vs: seq<Vec>)
    requires forall i :: 0 <= i < |vs| ==> Within(l, Phys(vs[i]), vs[i].len)
    ensures forall e :: e in Mapped(l, vs) ==> Within(l, EntryPhys(e), e.len)
    decreases |vs|
  {
    if vs != [] {
      var n := |vs| - 1;
      MappedObeysLimits(l, vs[..n]);
      MappedCovers(l, vs[..n]);
      LimitsOne(l, Mapped(l, vs[..n]), Last(vs[..n]), vs[n]);
    }
  }

  lemma LimitsOne(l: Limits, es: seq<Entry>, p: Vec, v: Vec)
    requires forall e :: e in es ==> Within(l, EntryPhys(e), e.len)
    requires Within(l, Phys(v), v.len)
    requires es != [] ==> EntryPhys(es[|es| - 1]) + es[|es| - 1].len == Phys(p) + p.len && Within(l, Phys(p), p.len)
    ensures forall e :: e in MapOne(l, es, p, v) ==> Within(l, EntryPhys(e), e.len)
  {
    if es != [] { assert es[|es| - 1] in es; }
  }

  lemma {:induction false} MappedGrows(l: Limits, vs: seq<Vec>, k: nat)
    requires k <= |vs|
    ensures |Mapped(l, vs[..k])| <= |Mapped(l, vs)|
    decreases |vs|
  {
    if k < |vs| {
      var n := |vs| - 1;
      assert vs[..n][..k] == vs[..k];
      MappedGrows(l, vs[..n], k);
    } else {
      assert vs[..k] == vs;
    }
  }

  // ------------------------------------------------------------------- loops

  predicate WellFormed(rq: seq<Bio>) {
    forall i :: 0 <= i < |rq| ==> rq[i].idx <= |rq[i].vecs|
  }

  lemma {:induction false} VecsPrefix(rq: seq<Bio>, b: nat)
    requires WellFormed(rq) && b < |rq|
    ensures Vecs(rq[..b]) + rq[b].vecs[rq[b].idx..] <= Vecs(rq)
    decreases |rq|
  {
    var n := |rq| - 1;
    if b < n {
      assert rq[..n][..b] == rq[..b];
      VecsPrefix(rq[..n], b);
    } else {
      assert rq[..n] == rq[..b];
    }
  }

  lemma VecsStep(rq: seq<Bio>, b: nat)
    requires WellFormed(rq) && b < |rq|
    ensures Vecs(rq[..b + 1]) == Vecs(rq[..b]) + rq[b].vecs[rq[b].idx..]
  {
    assert rq[..b + 1][..b] == rq[..b];
  }

  /** Count the segments of a request; one without bios keeps the counts it had. */
  method RecalcSegments(l: Limits, rq: seq<Bio>, oldPhys: nat, oldHw: nat) returns (nrPhys: nat, nrHw: nat)
    requires WellFormed(rq)
    ensures rq == [] ==> nrPhys == oldPhys && nrHw == oldHw
    ensures rq != [] ==> nrPhys == Counted(l, Vecs(rq)).phys && nrHw == Counted(l, Vecs(rq)).hw
    ensures rq != [] ==> |Mapped(l, Vecs(rq))| <= nrPhys && nrHw <= nrPhys
  {
    if rq == [] { return oldPhys, oldHw; }
    var c, prev := Count(0, 0, 0, 0, true), Vec(0, 0, 0);
    for b := 0 to |rq|
      invariant c == Counted(l, Vecs(rq[..b])) && prev == Last(Vecs(rq[..b]))
    {
      VecsStep(rq, b);
      c, prev := CountBio(l, rq[b], c, prev, Vecs(rq[..b]));
    }
    assert rq[..|rq|] == rq;
    nrPhys, nrHw := c.phys, c.hw;
    MapFitsCount(l, Vecs(rq));
  }

  /** Count on over the pieces of one bio; `done` are those before it. */
  method CountBio(l: Limits, bio: Bio, c0: Count, p: Vec, ghost done: seq<Vec>) returns (c: Count, prev: Vec)
    requires bio.idx <= |bio.vecs| && c0 == Counted(l, done) && p == Last(done)
    ensures c == Counted(l, done + bio.vecs[bio.idx..]) && prev == Last(done + bio.vecs[bio.idx..])
  {
    c, prev := c0, p;
    ghost var now := done;
    for i := bio.idx to |bio.vecs|
      invariant UpTo(done, bio.vecs, bio.idx, i, now) && c == Counted(l, now) && prev == Last(now)
    {
      var v := bio.vecs[i];
      CountedSnoc(l, now, v);
      PieceNext(done, bio.vecs, bio.idx, i, now, done + bio.vecs[bio.idx..]);
      c := CountOne(l, c, prev, v);
      prev := v;
      now := now + [v];
    }
    UpToEnd(done, bio.vecs, bio.idx, now);
  }

  /** Add one piece to the entries made so far: to the last entry, or as a new one. */
  method MapPiece(l: Limits, sglist: array<Entry>, n: nat, prev: Vec, v: Vec) returns (nsegs: nat)
    requires n <= sglist.Length && |MapOne(l, sglist[..n], prev, v)| <= sglist.Length
    modifies sglist
    ensures n <= nsegs <= sglist.Length && sglist[..nsegs] == MapOne(l, old(sglist[..n]), prev, v)
    ensures forall i :: nsegs <= i < sglist.Length ==> sglist[i] == old(sglist[i])
  {
    nsegs := n;
    if n > 0 && Joins(l, prev, v) && sglist[n - 1].len + v.len <= l.maxSize {
      sglist[n - 1] := sglist[n - 1].(len := sglist[n - 1].len + v.len);
    } else {
      sglist[n] := Entry(v.pfn, v.off, v.len);
      nsegs := n + 1;
    }
  }

  lemma RoomForPiece(l: Limits, all: seq<Vec>, done: seq<Vec>, v: Vec)
    requires done + [v] <= all
    ensures |MapOne(l, Mapped(l, done), Last(done), v)| <= |Mapped(l, all)|
  {
    assert all[..|done + [v]|] == done + [v];
    MappedGrows(l, all, |done + [v]|);
    MappedSnoc(l, done, v);
  }

  /** The entries made of `vs`, and its last piece. */
  predicate IsMapped(l: Limits, es: seq<Entry>, vs: seq<Vec>, last: Vec) { es == Mapped(l, vs) && last == Last(vs) }

  method MapNext(l: Limits, sglist: array<Entry>, n: nat, prev: Vec, v: Vec, ghost now: seq<Vec>, ghost all: seq<Vec>)
    returns (nsegs: nat)
    requires now + [v] <= all && |Mapped(l, all)| <= sglist.Length
    requires n <= sglist.Length && IsMapped(l, sglist[..n], now, prev)
    modifies sglist
    ensures n <= nsegs <= sglist.Length && IsMapped(l, sglist[..nsegs], now + [v], v)
    ensures forall i :: nsegs <= i < sglist.Length ==> sglist[i] == old(sglist[i])
  {
    RoomForPiece(l, all, now, v);
    MappedSnoc(l, now, v);
    nsegs := MapPiece(l, sglist, n, prev, v);
  }

  /** `now` are the pieces before a bio and its own up to piece `i`. */
  predicate UpTo(done: seq<Vec>, vs: seq<Vec>, from: nat, i: nat, now: seq<Vec>) {
    from <= i <= |vs| && now == done + vs[from..i]
  }

  lemma PieceNext(done: seq<Vec>, vs: seq<Vec>, from: nat, i: nat, now: seq<Vec>, all: seq<Vec>)
    requires UpTo(done, vs, from, i, now) && i < |vs| && done + vs[from..] <= all
    ensures UpTo(done, vs, from, i + 1, now + [vs[i]]) && now + [vs[i]] <= all
  {
    assert vs[from..i + 1] == vs[from..i] + [vs[i]];
    assert vs[from..] == vs[from..i + 1] + vs[i + 1..];
  }

  lemma UpToEnd(done: seq<Vec>, vs: seq<Vec>, from: nat, now: seq<Vec>)
    requires UpTo(done, vs, from, |vs|, now)
    ensures now == done + vs[from..]
  {
    assert vs[from..|vs|] == vs[from..];
  }

  /** Map the pieces of one bio; `all` are the pieces of the request, `done` those before this bio. */
  method MapBio(l: Limits, bio: Bio, sglist: array<Entry>, n: nat, p: Vec, ghost done: seq<Vec>, ghost all: seq<Vec>)
    returns (nsegs: nat, prev: Vec)
    requires bio.idx <= |bio.vecs| && done + bio.vecs[bio.idx..] <= all
    requires |Mapped(l, all)| <= sglist.Length
    requires n <= sglist.Length && sglist[..n] == Mapped(l, done) && p == Last(done)
    modifies sglist
    ensures n <= nsegs <= sglist.Length && sglist[..nsegs] == Mapped(l, done + bio.vecs[bio.idx..])
    ensures prev == Last(done + bio.vecs[bio.idx..])
    ensures forall i :: nsegs <= i < sglist.Length ==> sglist[i] == old(sglist[i])
  {
    nsegs, prev := n, p;
    ghost var now := done;
    for i := bio.idx to |bio.vecs|
      invariant UpTo(done, bio.vecs, bio.idx, i, now)
      invariant n <= nsegs <= sglist.Length && IsMapped(l, sglist[..nsegs], now, prev)
      invariant forall i :: nsegs <= i < sglist.Length ==> sglist[i] == old(sglist[i])
    {
      PieceNext(done, bio.vecs, bio.idx, i, now, all);
      nsegs := MapNext(l, sglist, nsegs, prev, bio.vecs[i], now, all);
      prev := bio.vecs[i];
      now := now + [bio.vecs[i]];
    }
    UpToEnd(done, bio.vecs, bio.idx, now);
  }

  /** Map a request into a list that holds at least as many entries as were counted for it. */
  method MapSg(l: Limits, rq: seq<Bio>, sglist: array<Entry>) returns (nsegs: nat)
    requires WellFormed(rq) && sglist.Length >= Counted(l, Vecs(rq)).phys
    modifies sglist
    ensures nsegs <= sglist.Length && sglist[..nsegs] == Mapped(l, Vecs(rq))
    ensures EntryBytes(sglist[..nsegs]) == VecBytes(Vecs(rq))
    ensures forall i :: nsegs <= i < sglist.Length ==> sglist[i] == old(sglist[i])
  {
    ghost var all := Vecs(rq);
    MapFitsCount(l, all);
    nsegs := 0;
    var prev := Vec(0, 0, 0);
    for b := 0 to |rq|
      invariant nsegs <= sglist.Length && sglist[..nsegs] == Mapped(l, Vecs(rq[..b]))
      invariant prev == Last(Vecs(rq[..b]))
      invariant forall i :: nsegs <= i < sglist.Length ==> sglist[i] == old(sglist[i])
    {
      VecsPrefix(rq, b);
      VecsStep(rq, b);
      nsegs, prev := MapBio(l, rq[b], sglist, nsegs, prev, Vecs(rq[..b]), all);
    }
    assert rq[..|rq|] == rq;
    MappedCovers(l, all);
  }
}
