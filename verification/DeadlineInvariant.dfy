/** What every operation of the deadline scheduler keeps. */
module DeadlineInvariant {
  import opened Common
  import opened Deadline

  predicate IdsOnce(fifo: seq<Slot>) {
    fifo == [] || (fifo[0].id !in Ids(fifo[1..]) && IdsOnce(fifo[1..]))
  }

  /** Expiry times, none before `from`, do not decrease along the fifo and end by `limit`. */
  predicate ByExpiry(fifo: seq<Slot>, from: nat, limit: nat) {
    fifo == [] || (from <= fifo[0].expire <= limit && ByExpiry(fifo[1..], fifo[0].expire, limit))
  }

  /** The tree holds requests of one direction, no two at one sector. */
  predicate TreeOk(tree: map<nat, Rq>, write: bool) {
    && (forall x :: x in tree ==> tree[x].id == x && tree[x].write == write)
    && (forall x, y :: x in tree && y in tree && tree[x].sector == tree[y].sector ==> x == y)
  }

  predicate FifoOk(fifo: seq<Slot>, ids: set<nat>, limit: nat) {
    IdsOnce(fifo) && Ids(fifo) == ids && ByExpiry(fifo, 0, limit)
  }

  predicate NextIn(next: Option<nat>, ids: set<nat>) {
    next.Some? ==> next.value in ids
  }

  /** One side, while the request `extra`, if any, is in the fifo but out of the tree. */
  predicate SideBut(s: Side, write: bool, limit: nat, extra: set<nat>) {
    && TreeOk(s.tree, write) && s.tree.Keys !! extra
    && FifoOk(s.fifo, s.tree.Keys + extra, limit)
    && NextIn(s.next, s.tree.Keys + extra)
  }

  /** Tree and fifo of one side hold the same requests, and its next request is one of them. */
  predicate SideOk(s: Side, write: bool, limit: nat) {
    && TreeOk(s.tree, write)
    && FifoOk(s.fifo, s.tree.Keys, limit)
    && NextIn(s.next, s.tree.Keys)
  }

  /** The invariant; `now` is the time of the last operation. */
  predicate Inv(t: Tunables, d: Sched, now: nat) {
    && SideOk(d.rd, false, now + t.readExpire)
    && SideOk(d.wr, true, now + t.writeExpire)
    && d.rd.tree.Keys !! d.wr.tree.Keys
    && (d.rd.next.None? || d.wr.next.None?)
  }

  // ---------------------------------------------------------------- fifos

  lemma {:induction false} LaterFrom(fifo: seq<Slot>, from: nat, from': nat, limit: nat, limit': nat)
    requires ByExpiry(fifo, from, limit) && from' <= from && limit <= limit'
    ensures ByExpiry(fifo, from', limit')
  {
    if fifo != [] { LaterFrom(fifo[1..], fifo[0].expire, fifo[0].expire, limit, limit'); }
  }

  lemma {:induction false} WithoutKeeps(fifo: seq<Slot>, id: nat, from: nat, limit: nat)
    requires IdsOnce(fifo) && ByExpiry(fifo, from, limit)
    ensures Ids(Without(fifo, id)) == Ids(fifo) - {id}
    ensures IdsOnce(Without(fifo, id)) && ByExpiry(Without(fifo, id), from, limit)
    ensures id !in Ids(fifo) ==> Without(fifo, id) == fifo
  {
    if fifo != [] {
      if fifo[0].id == id {
        LaterFrom(fifo[1..], fifo[0].expire, from, limit, limit);
      } else {
        var rest := fifo[1..];
        WithoutKeeps(rest, id, fifo[0].expire, limit);
        var w := [fifo[0]] + Without(rest, id);
        assert w[1..] == Without(rest, id);
        assert fifo == [fifo[0]] + rest;
      }
    }
  }

  lemma {:induction false} AppendKeeps(fifo: seq<Slot>, from: nat, limit: nat, id: nat, expire: nat)
    requires IdsOnce(fifo) && ByExpiry(fifo, from, limit) && id !in Ids(fifo)
    requires from <= expire && limit <= expire
    ensures var w := fifo + [Slot(id, expire)];
            Ids(w) == Ids(fifo) + {id} && IdsOnce(w) && ByExpiry(w, from, expire)
  {
    var w := fifo + [Slot(id, expire)];
    if fifo == [] {
      assert w[1..] == [];
    } else {
      assert w[1..] == fifo[1..] + [Slot(id, expire)];
      AppendKeeps(fifo[1..], fifo[0].expire, limit, id, expire);
    }
  }

  lemma {:induction false} MoveBehindKeeps(fifo: seq<Slot>, id: nat, next: nat, from: nat, limit: nat)
    requires IdsOnce(fifo) && ByExpiry(fifo, from, limit) && next in Ids(fifo) && id != next
    ensures var w := MoveBehind(fifo, id, next);
            Ids(w) == Ids(fifo) + {id} && IdsOnce(w) && ByExpiry(w, from, limit)
  {
    var rest, w := fifo[1..], MoveBehind(fifo, id, next);
    if fifo[0].id == next {
      var s := Slot(id, fifo[0].expire);
      WithoutKeeps(rest, id, fifo[0].expire, limit);
      assert w[1..] == [s] + Without(rest, id) && w[1..][1..] == Without(rest, id);
    } else if fifo[0].id == id {
      LaterFrom(rest, fifo[0].expire, from, limit, limit);
      MoveBehindKeeps(rest, id, next, from, limit);
    } else {
      MoveBehindKeeps(rest, id, next, fifo[0].expire, limit);
      assert w[1..] == MoveBehind(rest, id, next);
    }
  }

  // ---------------------------------------------------------------- sides

  /** Leaving aside one request in the fifo, moving another out keeps a side well. */
  lemma MovedBut(s: Side, write: bool, limit: nat, extra: set<nat>, r: Rq)
    requires SideBut(s, write, limit, extra) && r.id in s.tree && s.tree[r.id] == r
    ensures SideBut(Moved(s, r), write, limit, extra)
  {
    WithoutKeeps(s.fifo, r.id, 0, limit);
    assert (s.tree - {r.id}).Keys + extra == s.tree.Keys + extra - {r.id};
  }

  lemma NoExtra(s: Side, write: bool, limit: nat)
    ensures SideBut(s, write, limit, {}) <==> SideOk(s, write, limit)
  {
    assert s.tree.Keys + {} == s.tree.Keys;
  }

  lemma MovedOk(s: Side, write: bool, limit: nat, r: Rq)
    requires SideOk(s, write, limit) && r.id in s.tree && s.tree[r.id] == r
    ensures SideOk(Moved(s, r), write, limit)
    ensures Moved(s, r).tree.Keys == s.tree.Keys - {r.id}
  {
    NoExtra(s, write, limit);
    MovedBut(s, write, limit, {}, r);
    NoExtra(Moved(s, r), write, limit);
  }

  predicate Vacant(s: Side, sector: nat) {
    forall x :: x in s.tree ==> s.tree[x].sector != sector
  }

  lemma MadeWayBut(s: Side, write: bool, limit: nat, extra: set<nat>, sector: nat)
    requires SideBut(s, write, limit, extra)
    ensures var (s', a) := MadeWay(s, sector);
            && SideBut(s', write, limit, extra) && Vacant(s', sector)
            && s'.tree == (if a.Some? then s.tree - {a.value.id} else s.tree)
            && (a.Some? ==> a.value.id in s.tree && s.tree[a.value.id] == a.value)
            && (a.None? ==> s' == s)
  {
    var a := At(s.tree, sector);
    if a.Some? { MovedBut(s, write, limit, extra, s.tree[a.value]); }
  }

  lemma AddedOk(s: Side, write: bool, limit: nat, r: Rq)
    requires SideOk(s, write, limit) && r.write == write && r.id !in s.tree
    ensures var (s', a) := AddedTo(s, r, limit);
            && SideOk(s', write, limit)
            && s'.tree.Keys == s.tree.Keys - (if a.Some? then {a.value.id} else {}) + {r.id}
            && (a.Some? ==> a.value.id in s.tree && s.tree[a.value.id] == a.value)
            && (a.None? ==> s'.next == s.next)
  {
    NoExtra(s, write, limit);
    MadeWayBut(s, write, limit, {}, r.sector);
    var (s1, a) := MadeWay(s, r.sector);
    NoExtra(s1, write, limit);
    AppendKeeps(s1.fifo, 0, limit, r.id, limit);
    assert Entered(s1, r).tree.Keys == s1.tree.Keys + {r.id};
  }

  lemma LeftTree(s: Side, write: bool, limit: nat, r: Rq)
    requires SideOk(s, write, limit) && r.id in s.tree && s.tree[r.id] == r
    ensures SideBut(s.(tree := s.tree - {r.id}), write, limit, {r.id})
  {
    assert (s.tree - {r.id}).Keys + {r.id} == s.tree.Keys;
  }

  lemma BackInTree(s: Side, write: bool, limit: nat, r: Rq)
    requires SideBut(s, write, limit, {r.id}) && r.write == write && Vacant(s, r.sector)
    ensures SideOk(Entered(s, r), write, limit) && Entered(s, r).tree.Keys == s.tree.Keys + {r.id}
  {
    assert Entered(s, r).tree.Keys == s.tree.Keys + {r.id};
  }

  /** A front merge takes the request out of the tree, makes way at its new sector, and puts it back. */
  lemma FrontOk(s: Side, write: bool, limit: nat, r: Rq, sector: nat)
    requires SideOk(s, write, limit) && r.id in s.tree && s.tree[r.id] == r && sector <= r.sector
    ensures var (s', a) := FrontMergedIn(s, r, sector);
            && SideOk(s', write, limit)
            && s'.tree.Keys == s.tree.Keys - (if a.Some? then {a.value.id} else {})
            && (a.Some? ==> a.value.id in s.tree && s.tree[a.value.id] == a.value && a.value.id != r.id)
            && (a.None? ==> s'.next == s.next)
  {
    var s0 := s.(tree := s.tree - {r.id});
    LeftTree(s, write, limit, r);
    MadeWayBut(s0, write, limit, {r.id}, sector);
    BackInTree(MadeWay(s0, sector).0, write, limit, FrontGrown(r, sector));
  }

  lemma BackOk(s: Side, write: bool, limit: nat, r: Rq, more: nat)
    requires SideOk(s, write, limit) && r.id in s.tree && s.tree[r.id] == r
    ensures SideOk(BackMergedIn(s, r, more), write, limit)
    ensures BackMergedIn(s, r, more).tree.Keys == s.tree.Keys
  {
    assert BackMergedIn(s, r, more).tree.Keys == s.tree.Keys;
  }

  lemma MergedTree(s: Side, write: bool, r: Rq, next: Rq, gap: nat)
    requires TreeOk(s.tree, write) && NextIn(s.next, s.tree.Keys) && r.id != next.id
    requires r.id in s.tree && s.tree[r.id] == r && next.id in s.tree && s.tree[next.id] == next
    ensures var s' := MergedIn(s, r, next, gap);
            && TreeOk(s'.tree, write) && s'.tree.Keys == s.tree.Keys - {next.id}
            && NextIn(s'.next, s'.tree.Keys) && (s'.next.Some? ==> s.next.Some?)
  {
    assert MergedIn(s, r, next, gap).tree.Keys == s.tree.Keys - {next.id};
  }

  lemma MergedFifo(s: Side, limit: nat, r: Rq, next: Rq, gap: nat)
    requires FifoOk(s.fifo, s.tree.Keys, limit) && r.id != next.id && r.id in s.tree && next.id in s.tree
    ensures FifoOk(MergedIn(s, r, next, gap).fifo, s.tree.Keys - {next.id}, limit)
  {
    var fifo := if ExpireOf(s.fifo, next.id) < ExpireOf(s.fifo, r.id)
                then MoveBehind(s.fifo, r.id, next.id) else s.fifo;
    MoveBehindKeeps(s.fifo, r.id, next.id, 0, limit);
    assert Ids(fifo) == s.tree.Keys;
    WithoutKeeps(fifo, next.id, 0, limit);
  }

  lemma MergedOk(s: Side, write: bool, limit: nat, r: Rq, next: Rq, gap: nat)
    requires SideOk(s, write, limit) && r.id != next.id
    requires r.id in s.tree && s.tree[r.id] == r && next.id in s.tree && s.tree[next.id] == next
    ensures var s' := MergedIn(s, r, next, gap);
            && SideOk(s', write, limit) && s'.tree.Keys == s.tree.Keys - {next.id}
            && (s'.next.Some? ==> s.next.Some?)
  {
    MergedTree(s, write, r, next, gap);
    MergedFifo(s, limit, r, next, gap);
  }

  // --------------------------------------------------------- the scheduler

  function Limit(t: Tunables, now: nat, write: bool): nat {
    now + Expire(t, write)
  }

  predicate Queued(d: Sched, r: Rq) {
    r.id in SideOf(d, r.write).tree && SideOf(d, r.write).tree[r.id] == r
  }

  predicate IsNew(d: Sched, id: nat) {
    id !in d.rd.tree && id !in d.wr.tree
  }

  lemma PutOk(t: Tunables, d: Sched, now: nat, write: bool, s: Side, moved: Option<Rq>, alias: bool)
    requires Inv(t, d, now) && SideOk(s, write, Limit(t, now, write))
    requires s.tree.Keys !! SideOf(d, !write).tree.Keys
    requires moved.None? && s.next.Some? ==> SideOf(d, write).next.Some?
    ensures Inv(t, Put(d, write, s, moved, alias), now)
  {
  }

  lemma LaterOk(t: Tunables, d: Sched, now: nat, now': nat)
    requires Inv(t, d, now) && now <= now'
    ensures Inv(t, d, now')
  {
    LaterFrom(d.rd.fifo, 0, 0, now + t.readExpire, now' + t.readExpire);
    LaterFrom(d.wr.fifo, 0, 0, now + t.writeExpire, now' + t.writeExpire);
  }
}
