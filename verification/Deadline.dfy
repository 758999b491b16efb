// The deadline I/O scheduler.  Each direction keeps the same requests in a tree
// ordered by sector and in a fifo ordered by expiry; dispatch follows the tree in
// batches and falls back to the fifo.
module Deadline {
  import opened Common

  datatype Rq = Rq(id: nat, write: bool, sector: nat, len: nat)

  /** A place in the fifo. */
  datatype Slot = Slot(id: nat, expire: nat)

  /** One direction: the requests in the sector tree, by id, the fifo, and the next request of a batch. */
  datatype Side = Side(tree: map<nat, Rq>, fifo: seq<Slot>, next: Option<nat>)

  /** A request handed to the dispatch queue, by a dispatch or to make way for one at its sector. */
  datatype Out = Out(rq: Rq, alias: bool)

  datatype Tunables = Tunables(readExpire: nat, writeExpire: nat, fifoBatch: nat, writesStarved: nat)

  datatype Sched = Sched(rd: Side, wr: Side, batching: nat, lastSector: nat, starved: nat, out: seq<Out>)

  function Init(): Sched {
    Sched(Side(map[], [], None), Side(map[], [], None), 0, 0, 0, [])
  }

  function SideOf(d: Sched, write: bool): Side {
    if write then d.wr else d.rd
  }

  function WithSide(d: Sched, write: bool, s: Side): Sched {
    if write then d.(wr := s) else d.(rd := s)
  }

  // -------------------------------------------------------------- one side

  /** Is `id` the first request after sector `from`, in sector order? */
  predicate IsAfter(tree: map<nat, Rq>, from: nat, id: nat) {
    && id in tree && from < tree[id].sector
    && forall x :: x in tree && from < tree[x].sector ==> tree[id].sector <= tree[x].sector
  }

  /** The request after the given sector, in sector order. */
  ghost function Latter(tree: map<nat, Rq>, from: nat): (r: Option<nat>)
    ensures r.Some? ==> IsAfter(tree, from, r.value)
    ensures r.None? ==> forall x :: x in tree ==> tree[x].sector <= from
  {
    if exists x :: IsAfter(tree, from, x) then
      var x :| IsAfter(tree, from, x); Some(x)
    else
      NoneAfter(tree, from); None
  }

  /** Some request is first after a sector unless there is none after it. */
  lemma {:induction false} NoneAfter(tree: map<nat, Rq>, from: nat)
    ensures (exists x :: IsAfter(tree, from, x)) || forall x :: x in tree ==> tree[x].sector <= from
    decreases |tree|
  {
    if y :| y in tree && tree[y].sector > from {
      var rest := tree - {y};
      assert |rest| < |tree| by { assert rest.Keys == tree.Keys - {y}; }
      NoneAfter(rest, from);
      assert forall w :: w in tree ==> w == y || w in rest;
      if x :| IsAfter(rest, from, x) {
        assert IsAfter(tree, from, if tree[y].sector < tree[x].sector then y else x);
      } else {
        assert IsAfter(tree, from, y);
      }
    }
  }

  /** The request at a sector, if there is one. */
  ghost function At(tree: map<nat, Rq>, sector: nat): (r: Option<nat>)
    ensures r.Some? ==> r.value in tree && tree[r.value].sector == sector
    ensures r.None? ==> forall x :: x in tree ==> tree[x].sector != sector
  {
    if exists x :: x in tree && tree[x].sector == sector then
      var x :| x in tree && tree[x].sector == sector; Some(x)
    else None
  }

  function Ids(fifo: seq<Slot>): set<nat> {
    if fifo == [] then {} else {fifo[0].id} + Ids(fifo[1..])
  }

  function Without(fifo: seq<Slot>, id: nat): seq<Slot> {
    if fifo == [] then []
    else if fifo[0].id == id then fifo[1..]
    else [fifo[0]] + Without(fifo[1..], id)
  }

  /** Move a queued request out: the batch goes on from it. */
  ghost function Moved(s: Side, r: Rq): Side {
    Side(s.tree - {r.id}, Without(s.fifo, r.id), Latter(s.tree, r.sector))
  }

  /** Make way at a sector: what is there, if anything, is moved out. */
  ghost function MadeWay(s: Side, sector: nat): (Side, Option<Rq>) {
    var a := At(s.tree, sector);
    if a.Some? then (Moved(s, s.tree[a.value]), Some(s.tree[a.value])) else (s, None)
  }

  function Entered(s: Side, r: Rq): Side {
    s.(tree := s.tree[r.id := r])
  }

  ghost function AddedTo(s: Side, r: Rq, expire: nat): (Side, Option<Rq>) {
    var (s1, a) := MadeWay(s, r.sector);
    (Entered(s1, r).(fifo := s1.fifo + [Slot(r.id, expire)]), a)
  }

  function FrontGrown(r: Rq, sector: nat): Rq
    requires sector <= r.sector
  {
    r.(sector := sector, len := r.len + (r.sector - sector))
  }

  /** A bio was put in front of `r`, which now starts at `sector`. */
  ghost function FrontMergedIn(s: Side, r: Rq, sector: nat): (Side, Option<Rq>)
    requires sector <= r.sector
  {
    var (s1, a) := MadeWay(s.(tree := s.tree - {r.id}), sector);
    (Entered(s1, FrontGrown(r, sector)), a)
  }

  function BackMergedIn(s: Side, r: Rq, more: nat): Side {
    Entered(s, r.(len := r.len + more))
  }

  function ExpireOf(fifo: seq<Slot>, id: nat): nat {
    if fifo == [] then 0 else if fifo[0].id == id then fifo[0].expire else ExpireOf(fifo[1..], id)
  }

  /** Put `id` right behind `next` in the fifo, with the same expiry. */
  function MoveBehind(fifo: seq<Slot>, id: nat, next: nat): seq<Slot> {
    if fifo == [] then []
    else if fifo[0].id == next then [fifo[0], Slot(id, fifo[0].expire)] + Without(fifo[1..], id)
    else if fifo[0].id == id then MoveBehind(fifo[1..], id, next)
    else [fifo[0]] + MoveBehind(fifo[1..], id, next)
  }

  /** `next` was merged into `r`, the request before it; a bio of length `gap` closed the gap. */
  ghost function MergedIn(s: Side, r: Rq, next: Rq, gap: nat): Side {
    var fifo := if ExpireOf(s.fifo, next.id) < ExpireOf(s.fifo, r.id)
                then MoveBehind(s.fifo, r.id, next.id) else s.fifo;
    Side(s.tree[r.id := r.(len := r.len + gap + next.len)] - {next.id},
         Without(fifo, next.id),
         if s.next == Some(next.id) then Latter(s.tree, next.sector) else s.next)
  }

  // --------------------------------------------------------- the scheduler

  /** Put a side back; a request moved out of it starts a new batch position and is sent. */
  function Put(d: Sched, write: bool, s: Side, moved: Option<Rq>, alias: bool): Sched {
    if moved.None? then WithSide(d, write, s)
    else
      var r, o := moved.value, SideOf(d, !write);
      WithSide(WithSide(d, write, s), !write, o.(next := None))
      .(lastSector := r.sector + r.len, out := d.out + [Out(r, alias)])
  }

  function Expire(t: Tunables, write: bool): nat {
    if write then t.writeExpire else t.readExpire
  }

  ghost function AddRequest(t: Tunables, d: Sched, r: Rq, now: nat): Sched {
    var (s, a) := AddedTo(SideOf(d, r.write), r, now + Expire(t, r.write));
    Put(d, r.write, s, a, true)
  }

  ghost function FrontMerged(d: Sched, r: Rq, sector: nat): Sched
    requires sector <= r.sector
  {
    var (s, a) := FrontMergedIn(SideOf(d, r.write), r, sector);
    Put(d, r.write, s, a, true)
  }

  function BackMerged(d: Sched, r: Rq, more: nat): Sched {
    Put(d, r.write, BackMergedIn(SideOf(d, r.write), r, more), None, true)
  }

  ghost function MergedRequests(d: Sched, r: Rq, next: Rq, gap: nat): Sched {
    Put(d, r.write, MergedIn(SideOf(d, r.write), r, next, gap), None, true)
  }

  /** The direction of the batch in progress, if there is a next request in one. */
  function BatchDir(d: Sched): Option<bool> {
    if d.wr.next.Some? then Some(true) else if d.rd.next.Some? then Some(false) else None
  }

  /** `batching`, once a next request that does not follow on from the last has ended the batch. */
  function Batched(t: Tunables, d: Sched): nat {
    var b := BatchDir(d);
    if b.Some? && SideOf(d, b.value).next.value in SideOf(d, b.value).tree
       && SideOf(d, b.value).tree[SideOf(d, b.value).next.value].sector != d.lastSector
    then d.batching + t.fifoBatch else d.batching
  }

  /** Which way a new batch goes: reads, unless writes have been starved long enough. */
  function Direction(t: Tunables, d: Sched): (Option<bool>, nat) {
    if d.rd.fifo != [] then
      if d.wr.fifo != [] then
        if d.starved >= t.writesStarved then (Some(true), 0) else (Some(false), d.starved + 1)
      else (Some(false), d.starved)
    else if d.wr.fifo != [] then (Some(true), 0)
    else (None, d.starved)
  }

  /** The first request of a new batch. */
  function FirstOf(s: Side, now: nat): nat
    requires s.fifo != []
  {
    if now > s.fifo[0].expire || s.next.None? then s.fifo[0].id else s.next.value
  }

  ghost function Send(d: Sched, write: bool, id: nat): Sched {
    var s := SideOf(d, write);
    if id in s.tree then Put(d, write, Moved(s, s.tree[id]), Some(s.tree[id]), false) else d
  }

  /** Dispatch one request; the result tells whether there was any. */
  ghost function DispatchRequests(t: Tunables, d: Sched, now: nat): (Sched, bool) {
    var b, n := BatchDir(d), Batched(t, d);
    if b.Some? && n < t.fifoBatch then
      (Send(d.(batching := n + 1), b.value, SideOf(d, b.value).next.value), true)
    else
      var (dir, starved) := Direction(t, d);
      if dir.Some? then
        (Send(d.(batching := 1, starved := starved), dir.value, FirstOf(SideOf(d, dir.value), now)), true)
      else (d.(batching := n), false)
  }
}
