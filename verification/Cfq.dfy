// The bookkeeping of the CFQ scheduler: a queue of requests for each process, those with
// requests in a service tree whose leftmost node is cached.
module Cfq {
  import opened Common
  import opened AsOrder
  import opened RequestLists

  /** One process's requests: by sector, by age, the one to serve next, and whether it is in the round robin. */
  datatype Group = Group(sort: seq<Rq>, fifo: seq<Rq>, next: Option<Rq>, onRr: bool)

  const NOTHING := Group([], [], None, false)

  /** `tree` lists the groups of the service tree from left to right; `left` caches the first. */
  datatype Cfq = Cfq(groups: map<nat, Group>, tree: seq<nat>, left: Option<nat>, busy: nat, out: seq<Rq>)

  function Init(): Cfq { Cfq(map[], [], None, 0, []) }

  function At(s: Cfq, q: nat): Group { if q in s.groups then s.groups[q] else NOTHING }

  function Put(s: Cfq, q: nat, g: Group): Cfq { s.(groups := s.groups[q := g]) }

  /** The better one of two requests, whatever `better` goes by. */
  function Pick(better: (Rq, Rq) -> bool, o1: Option<Rq>, o2: Option<Rq>): Option<Rq> {
    if o1.None? || o1 == o2 then o2 else if o2.None? || better(o1.value, o2.value) then o1 else o2
  }

  function Drop(t: seq<Rq>, r: Rq): seq<Rq> {
    var i := IndexOf(t, r); if i < |t| then Without(t, i) else t
  }

  // ------------------------------------------------------------ service tree

  function IndexIn(t: seq<nat>, q: nat): (i: nat)
    ensures i <= |t| && (i < |t| ==> t[i] == q) && (i == |t| ==> q !in t)
  {
    if t == [] || t[0] == q then 0 else 1 + IndexIn(t[1..], q)
  }

  function Erased(s: Cfq, q: nat): Cfq {
    var i := IndexIn(s.tree, q);
    if i == |s.tree| then s
    else s.(tree := s.tree[..i] + s.tree[i + 1..], left := if s.left == Some(q) then None else s.left)
  }

  /**
    Put a group into the tree, or elsewhere if it is there.  `pos` is where the descent ends
    up; it never turns right just when that is the far left.  `same`: the key is as it was.
   */
  function TreeAdded(s: Cfq, q: nat, pos: nat, same: bool): Cfq {
    if q in s.tree && same then s
    else
      var s1 := Erased(s, q);
      var p := if pos > |s1.tree| then |s1.tree| else pos;
      s1.(tree := s1.tree[..p] + [q] + s1.tree[p..], left := if p == 0 then Some(q) else s1.left)
  }

  /** The first group, which is cached from then on. */
  function First(s: Cfq): (Cfq, Option<nat>) {
    var left := if s.left.None? && s.tree != [] then Some(s.tree[0]) else s.left;
    (s.(left := left), left)
  }

  function RrAdded(s: Cfq, q: nat, pos: nat): Cfq {
    TreeAdded(Put(s, q, At(s, q).(onRr := true)).(busy := s.busy + 1), q, pos, false)
  }

  function RrDeleted(s: Cfq, q: nat): Cfq {
    Erased(Put(s, q, At(s, q).(onRr := false)), q).(busy := if s.busy > 0 then s.busy - 1 else 0)
  }

  function Resorted(s: Cfq, q: nat, pos: nat, same: bool): Cfq {
    if At(s, q).onRr then TreeAdded(s, q, pos, same) else s
  }

  // ----------------------------------------------------------------- requests

  /** A group without a request. */
  function Less(better: (Rq, Rq) -> bool, g: Group, r: Rq): Group {
    var i := IndexOf(g.sort, r);
    if i == |g.sort| then g
    else
      var next := if g.next == Some(r) then Pick(better, NextOf(g.sort, i), PrevOf(g.sort, i)) else g.next;
      g.(sort := Without(g.sort, i), fifo := Drop(g.fifo, r), next := next)
  }

  function Removed(better: (Rq, Rq) -> bool, s: Cfq, q: nat, r: Rq): Cfq {
    var g := Less(better, At(s, q), r);
    var s1 := Put(s, q, g);
    if g.onRr && g.sort == [] then RrDeleted(s1, q) else s1
  }

  function DispatchInserted(better: (Rq, Rq) -> bool, s: Cfq, q: nat, r: Rq): Cfq {
    Removed(better, s, q, r).(out := s.out + [r])
  }

  /** What is at the sector, if anything, is dispatched. */
  function MadeWay(better: (Rq, Rq) -> bool, s: Cfq, q: nat, sector: nat): Cfq {
    var t := At(s, q).sort;
    var i := Place(t, sector);
    if i < |t| && t[i].sector == sector then DispatchInserted(better, s, q, t[i]) else s
  }

  function Sorted(better: (Rq, Rq) -> bool, s: Cfq, q: nat, r: Rq, pos: nat): Cfq {
    var s1 := MadeWay(better, s, q, r.sector);
    var g := At(s1, q);
    var s2 := Put(s1, q, g.(sort := Inserted(g.sort, r)));
    var s3 := if g.onRr then s2 else RrAdded(s2, q, pos);
    Put(s3, q, At(s3, q).(next := Pick(better, g.next, Some(r))))
  }

  /** A new request. */
  function Added(better: (Rq, Rq) -> bool, s: Cfq, q: nat, r: Rq, pos: nat): Cfq {
    var s1 := Sorted(better, s, q, r, pos);
    var g := At(s1, q);
    Put(s1, q, g.(fifo := g.fifo + [r]))
  }

  function Swapped(t: seq<Rq>, r: Rq, r': Rq): seq<Rq> {
    var i := IndexOf(t, r); if i < |t| then t[i := r'] else t
  }

  /** A group whose request `r` has become `r'` and is out of the sector order. */
  function Lifted(g: Group, r: Rq, r': Rq): Group {
    Group(Drop(g.sort, r), Swapped(g.fifo, r, r'), if g.next == Some(r) then Some(r') else g.next, g.onRr)
  }

  /** A bio was put in front of `r`, which has become `r'`: it moves in the sector order. */
  function FrontMerged(better: (Rq, Rq) -> bool, s: Cfq, q: nat, r: Rq, r': Rq, pos: nat): Cfq {
    Sorted(better, Put(s, q, Lifted(At(s, q), r, r')), q, r', pos)
  }

  // ------------------------------------------------------------------ draining

  /** All requests of a group, `n` at most. */
  function Emptied(better: (Rq, Rq) -> bool, s: Cfq, q: nat, n: nat): Cfq
    decreases n
  {
    if n == 0 || At(s, q).next.None? then s
    else Emptied(better, DispatchInserted(better, s, q, At(s, q).next.value), q, n - 1)
  }

  /** Group after group, `n` at most. */
  function Drained(better: (Rq, Rq) -> bool, s: Cfq, n: nat): Cfq
    decreases n
  {
    var (s1, o) := First(s);
    if n == 0 || o.None? then s1 else Drained(better, Emptied(better, s1, o.value, |At(s1, o.value).sort|), n - 1)
  }
}
