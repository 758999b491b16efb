/** What every operation on the CFQ structures keeps, and that draining them empties them. */
module CfqInvariant {
  import opened Common
  import opened AsOrder
  import opened RequestLists
  import opened Cfq

  /**
    The sort list is in sector order with no sector twice, it and the fifo hold the same
    requests, and the next one is among them if there are any.
   */
  predicate GroupOk(g: Group) {
    && Ascending(g.sort) && NoTwice(g.sort) && NoTwice(g.fifo) && Elems(g.sort) == Elems(g.fifo)
    && (if g.next.None? then g.sort == [] else g.next.value in Elems(g.sort))
  }

  /** Each group is in the tree at most once, and the cached leftmost node is none or the first. */
  predicate TreeOk(s: Cfq) {
    NoTwice(s.tree) && s.busy == |s.tree| && (s.left.Some? ==> s.tree != [] && s.left.value == s.tree[0])
  }

  /** A group is flagged if and only if it is in the tree, and if and only if it has requests. */
  predicate LinkedAt(s: Cfq, q: nat) { At(s, q).onRr == (q in s.tree) && At(s, q).onRr == (At(s, q).sort != []) }

  ghost predicate InvBut(s: Cfq, but: nat) {
    TreeOk(s) && forall q :: q != but ==> GroupOk(At(s, q)) && LinkedAt(s, q)
  }

  ghost predicate Inv(s: Cfq) { TreeOk(s) && forall q :: GroupOk(At(s, q)) && LinkedAt(s, q) }

  // ------------------------------------------------------------------ the tree

  lemma {:induction false} OnceWithout(t: seq<nat>, i: nat)
    requires NoTwice(t) && i < |t|
    ensures NoTwice(t[..i] + t[i + 1..]) && forall x :: x in t[..i] + t[i + 1..] <==> x in t && x != t[i]
  {
    if i == 0 {
      assert t[..0] + t[1..] == t[1..];
    } else {
      var s := t[1..];
      var w := s[..i - 1] + s[i..];
      OnceWithout(s, i - 1);
      assert t[..i] + t[i + 1..] == [t[0]] + w && ([t[0]] + w)[1..] == w;
      assert t[i] == s[i - 1] && t[i] in s;
      forall x ensures x in [t[0]] + w <==> x in t && x != t[i] {
        assert x in [t[0]] + w <==> x == t[0] || x in w;
        assert x in t <==> x == t[0] || x in s;
      }
    }
  }

  lemma OnceWith(t: seq<nat>, p: nat, q: nat)
    requires NoTwice(t) && p <= |t| && q !in t
    ensures NoTwice(t[..p] + [q] + t[p..]) && forall x :: x in t[..p] + [q] + t[p..] <==> x in t || x == q
  {
    assert t == t[..p] + t[p..];
    NoTwiceMiddle(t[..p], q, t[p..]);
    assert forall x :: x in t <==> x in t[..p] || x in t[p..];
  }

  /** Taking a group out of the tree, with the count of groups. */
  lemma ErasedOk(s: Cfq, q: nat)
    requires TreeOk(s) && q in s.tree
    ensures TreeOk(Erased(s, q).(busy := s.busy - 1))
    ensures forall x :: x in Erased(s, q).tree <==> x in s.tree && x != q
  {
    OnceWithout(s.tree, IndexIn(s.tree, q));
  }

  lemma InsertedOk(s: Cfq, q: nat, pos: nat)
    requires TreeOk(s) && q !in s.tree
    ensures TreeOk(TreeAdded(s, q, pos, false).(busy := s.busy + 1))
    ensures forall x :: x in TreeAdded(s, q, pos, false).tree <==> x in s.tree || x == q
  {
    OnceWith(s.tree, if pos > |s.tree| then |s.tree| else pos, q);
  }

  /** Only the tree has changed, and not which groups are in it. */
  lemma TreeMoved(s: Cfq, s': Cfq)
    requires Inv(s) && TreeOk(s') && s'.groups == s.groups && forall x :: x in s'.tree <==> x in s.tree
    ensures Inv(s')
  {
    forall x ensures GroupOk(At(s', x)) && LinkedAt(s', x) {
      assert GroupOk(At(s, x)) && LinkedAt(s, x);
    }
  }

  lemma ResortedKeeps(s: Cfq, q: nat, pos: nat, same: bool)
    requires Inv(s)
    ensures Inv(Resorted(s, q, pos, same))
  {
    assert LinkedAt(s, q);
    if At(s, q).onRr && !same {
      MovedInTree(s, q, pos);
      TreeMoved(s, Resorted(s, q, pos, same));
    }
  }

  lemma MovedInTree(s: Cfq, q: nat, pos: nat)
    requires TreeOk(s) && q in s.tree
    ensures var s' := TreeAdded(s, q, pos, false); TreeOk(s') && forall x :: x in s'.tree <==> x in s.tree
  {
    ErasedOk(s, q);
    var s1 := Erased(s, q).(busy := s.busy - 1);
    InsertedOk(s1, q, pos);
    var s2 := TreeAdded(s, q, pos, false);
    assert s2.tree == TreeAdded(s1, q, pos, false).tree && s2.left == TreeAdded(s1, q, pos, false).left;
  }

  lemma FirstKeeps(s: Cfq)
    requires Inv(s)
    ensures var (s', o) := First(s);
            Inv(s') && (o.None? <==> s.tree == []) && (o.Some? ==> o.value == s.tree[0] && At(s, o.value).sort != [])
  {
    var (s', o) := First(s);
    TreeMoved(s, s');
    if o.Some? { assert LinkedAt(s, o.value); }
  }

  // ---------------------------------------------------------------- requests

  lemma LessLists(t: seq<Rq>, f: seq<Rq>, r: Rq)
    requires Ascending(t) && NoTwice(t) && NoTwice(f) && r in Elems(t) && r in Elems(f)
    ensures var i := IndexOf(t, r);
            && i < |t| && var t' := Without(t, i);
            && Ascending(t') && NoTwice(t') && Elems(t') == Elems(t) - {r} && Vacant(t', r.sector)
            && NoTwice(Drop(f, r)) && Elems(Drop(f, r)) == Elems(f) - {r}
  {
    ElemsAre(t);
    ElemsAre(f);
    var i := IndexOf(t, r);
    ElemsWithout(t, i);
    AscendingWithout(t, i);
    VacatedWithout(t, i);
    ElemsWithout(f, IndexOf(f, r));
  }

  lemma PickedRemains(better: (Rq, Rq) -> bool, t: seq<Rq>, i: nat)
    requires NoTwice(t) && i < |t|
    ensures var o := Pick(better, NextOf(t, i), PrevOf(t, i));
            if o.None? then Without(t, i) == [] else o.value in Elems(Without(t, i))
  {
    ElemsAre(Without(t, i));
    var o := Pick(better, NextOf(t, i), PrevOf(t, i));
    if o.Some? { NeighbourRemains(t, i, o.value); }
  }

  lemma LessOk(better: (Rq, Rq) -> bool, g: Group, r: Rq)
    requires GroupOk(g) && r in Elems(g.sort)
    ensures var g' := Less(better, g, r);
            && GroupOk(g') && g'.onRr == g.onRr && |g'.sort| == |g.sort| - 1 && Elems(g'.sort) == Elems(g.sort) - {r}
  {
    LessLists(g.sort, g.fifo, r);
    PickedRemains(better, g.sort, IndexOf(g.sort, r));
  }

  lemma PutKeeps(s: Cfq, q: nat, g: Group)
    requires InvBut(s, q)
    ensures InvBut(Put(s, q, g), q) && At(Put(s, q, g), q) == g && forall x :: x != q ==> At(Put(s, q, g), x) == At(s, x)
  {
    forall x | x != q ensures GroupOk(At(Put(s, q, g), x)) && LinkedAt(Put(s, q, g), x) {
      assert GroupOk(At(s, x)) && LinkedAt(s, x);
    }
  }

  /** A group leaves the tree. */
  lemma DeletedKeeps(s: Cfq, q: nat)
    requires InvBut(s, q) && q in s.tree
    ensures var s' := RrDeleted(s, q);
            && InvBut(s', q) && q !in s'.tree && At(s', q) == At(s, q).(onRr := false)
            && forall x :: x != q ==> At(s', x) == At(s, x)
  {
    ErasedOk(s, q);
    var s' := RrDeleted(s, q);
    assert s'.tree == Erased(s, q).tree && s'.left == Erased(s, q).left;
    forall x | x != q ensures GroupOk(At(s', x)) && LinkedAt(s', x) {
      assert GroupOk(At(s, x)) && LinkedAt(s, x);
    }
  }

  /** A group has lost a request, and leaves the tree if that was its last. */
  lemma LostOne(better: (Rq, Rq) -> bool, s: Cfq, q: nat, r: Rq)
    requires InvBut(s, q) && At(s, q).onRr == (q in s.tree)
    ensures var g, s' := Less(better, At(s, q), r), Removed(better, s, q, r);
            && InvBut(s', q) && At(s', q) == g.(onRr := g.onRr && g.sort != [])
            && s'.tree == (if g.onRr && g.sort == [] then Erased(s, q).tree else s.tree)
            && (g.onRr && g.sort == [] ==> q !in s'.tree)
            && forall x :: x != q ==> At(s', x) == At(s, x)
  {
    var g := Less(better, At(s, q), r);
    PutKeeps(s, q, g);
    if g.onRr && g.sort == [] { DeletedKeeps(Put(s, q, g), q); }
  }

  lemma RemovedKeeps(better: (Rq, Rq) -> bool, s: Cfq, q: nat, r: Rq)
    requires Inv(s) && r in Elems(At(s, q).sort)
    ensures var s' := Removed(better, s, q, r);
            && Inv(s') && |At(s', q).sort| == |At(s, q).sort| - 1 && Elems(At(s', q).sort) == Elems(At(s, q).sort) - {r}
            && (forall x :: x != q ==> At(s', x) == At(s, x))
            && s'.tree == (if |At(s, q).sort| > 1 then s.tree else Erased(s, q).tree)
  {
    assert GroupOk(At(s, q)) && LinkedAt(s, q);
    LessOk(better, At(s, q), r);
    LostOne(better, s, q, r);
    var s' := Removed(better, s, q, r);
    assert GroupOk(At(s', q)) && LinkedAt(s', q);
  }

  // ------------------------------------------------------------------ adding

  /**
    A group that is about to get `r` into its sector order.  `there`: the request is in the
    fifo already, because it is only being moved.
   */
  predicate Half(g: Group, r: Rq, there: bool) {
    && Ascending(g.sort) && NoTwice(g.sort) && NoTwice(g.fifo) && r !in Elems(g.sort)
    && Elems(g.fifo) == Elems(g.sort) + (if there then {r} else {})
    && (if g.next.None? then g.sort == [] else g.next.value in Elems(g.sort) + (if there then {r} else {}))
  }

  ghost predicate HalfInv(s: Cfq, q: nat, r: Rq, there: bool) {
    && InvBut(s, q) && Half(At(s, q), r, there)
    && At(s, q).onRr == (q in s.tree) && (At(s, q).sort != [] ==> At(s, q).onRr)
  }

  lemma HalfLess(better: (Rq, Rq) -> bool, g: Group, r: Rq, there: bool, a: Rq)
    requires Half(g, r, there) && a in Elems(g.sort)
    ensures var g' := Less(better, g, a);
            Half(g', r, there) && g'.onRr == g.onRr && Vacant(g'.sort, a.sector) && |g'.sort| < |g.sort|
  {
    LessLists(g.sort, g.fifo, a);
    PickedRemains(better, g.sort, IndexOf(g.sort, a));
  }

  lemma HalfRemoved(better: (Rq, Rq) -> bool, s: Cfq, q: nat, r: Rq, there: bool, a: Rq)
    requires HalfInv(s, q, r, there) && a in Elems(At(s, q).sort)
    ensures var s' := DispatchInserted(better, s, q, a);
            HalfInv(s', q, r, there) && Vacant(At(s', q).sort, a.sector) && |At(s', q).sort| < |At(s, q).sort|
  {
    HalfLess(better, At(s, q), r, there, a);
    ElemsAre(At(s, q).sort);
    LostOne(better, s, q, a);
    SentBut(Removed(better, s, q, a), q, s.out + [a]);
  }

  lemma SentBut(s: Cfq, q: nat, out: seq<Rq>)
    requires InvBut(s, q)
    ensures InvBut(s.(out := out), q)
  {
    forall x | x != q ensures GroupOk(At(s.(out := out), x)) && LinkedAt(s.(out := out), x) {
      assert GroupOk(At(s, x)) && LinkedAt(s, x);
    }
  }

  /** At most one request has to make way: after it no request is at the sector. */
  lemma MadeWayHalf(better: (Rq, Rq) -> bool, s: Cfq, q: nat, r: Rq, there: bool)
    requires HalfInv(s, q, r, there)
    ensures var s' := MadeWay(better, s, q, r.sector); HalfInv(s', q, r, there) && Vacant(At(s', q).sort, r.sector)
  {
    var t := At(s, q).sort;
    var i := Place(t, r.sector);
    PlaceTells(t, r.sector);
    if i < |t| && t[i].sector == r.sector {
      ElemsAre(t);
      HalfRemoved(better, s, q, r, there, t[i]);
    }
  }

  /** The group with `r` in its sector order. */
  lemma HalfInserted(better: (Rq, Rq) -> bool, g: Group, r: Rq, there: bool)
    requires Half(g, r, there) && Vacant(g.sort, r.sector)
    ensures var g' := Group(Inserted(g.sort, r), g.fifo, Pick(better, g.next, Some(r)), true);
            && Ascending(g'.sort) && NoTwice(g'.sort) && Elems(g'.sort) == Elems(g.fifo) + {r} && g'.sort != []
            && ((r in Elems(g.fifo)) == there) && g'.next.Some? && g'.next.value in Elems(g'.sort)
  {
    InsertedElems(g.sort, r);
    AscendingInserted(g.sort, r);
  }

  /** A new request: into the sector order and the fifo. */
  lemma AddedKeeps(better: (Rq, Rq) -> bool, s: Cfq, q: nat, r: Rq, pos: nat)
    requires Inv(s) && r !in Elems(At(s, q).sort)
    ensures Inv(Added(better, s, q, r, pos))
  {
    assert GroupOk(At(s, q)) && LinkedAt(s, q);
    MadeWayHalf(better, s, q, r, false);
    var s1 := MadeWay(better, s, q, r.sector);
    HalfInserted(better, At(s1, q), r, false);
    SortingDone(better, s1, q, r, false, pos);
    FifoGrows(At(s1, q).fifo, r);
    var s', g := Added(better, s, q, r, pos), At(s1, q);
    assert At(s', q) == Group(Inserted(g.sort, r), g.fifo + [r], Pick(better, g.next, Some(r)), true);
    OneMore(Sorted(better, s, q, r, pos), q, At(s', q));
  }

  /** Putting a good group back in place. */
  lemma OneMore(s: Cfq, q: nat, g: Group)
    requires InvBut(s, q) && q in s.tree && GroupOk(g) && g.onRr && g.sort != []
    ensures Inv(Put(s, q, g))
  {
    var s' := Put(s, q, g);
    forall x ensures GroupOk(At(s', x)) && LinkedAt(s', x) {
      if x != q { assert GroupOk(At(s, x)) && LinkedAt(s, x); }
    }
  }

  lemma SwappedElems(f: seq<Rq>, r: Rq, r': Rq)
    requires NoTwice(f) && r in Elems(f) && r' !in Elems(f)
    ensures NoTwice(Swapped(f, r, r')) && Elems(Swapped(f, r, r')) == Elems(f) - {r} + {r'}
  {
    ElemsAre(f);
    var i := IndexOf(f, r);
    var f' := Swapped(f, r, r');
    ElemsWithout(f, i);
    ElemsAre(Without(f, i));
    assert f' == f[..i] + [r'] + f[i + 1..];
    NoTwiceMiddle(f[..i], r', f[i + 1..]);
    ElemsAre(f');
    assert forall x :: x in f' <==> x in Without(f, i) || x == r';
  }

  lemma LiftedHalf(g: Group, r: Rq, r': Rq)
    requires GroupOk(g) && r in Elems(g.sort) && r' !in Elems(g.sort)
    ensures Half(Lifted(g, r, r'), r', true)
  {
    ElemsAre(g.sort);
    ElemsWithout(g.sort, IndexOf(g.sort, r));
    AscendingWithout(g.sort, IndexOf(g.sort, r));
    SwappedElems(g.fifo, r, r');
  }

  lemma SortedBack(better: (Rq, Rq) -> bool, s: Cfq, q: nat, r: Rq, pos: nat)
    requires HalfInv(s, q, r, true)
    ensures Inv(Sorted(better, s, q, r, pos))
  {
    MadeWayHalf(better, s, q, r, true);
    var s1 := MadeWay(better, s, q, r.sector);
    HalfInserted(better, At(s1, q), r, true);
    SortingDone(better, s1, q, r, true, pos);
    var s' := Sorted(better, s, q, r, pos);
    OneMore(s', q, At(s', q));
    assert Put(s', q, At(s', q)).groups == s'.groups;
  }

  /** A front merge: the request moves, and may push another out to the driver. */
  lemma FrontMergedKeeps(better: (Rq, Rq) -> bool, s: Cfq, q: nat, r: Rq, r': Rq, pos: nat)
    requires Inv(s) && r in Elems(At(s, q).sort) && r' !in Elems(At(s, q).sort)
    ensures Inv(FrontMerged(better, s, q, r, r', pos))
  {
    assert GroupOk(At(s, q)) && LinkedAt(s, q);
    LiftedHalf(At(s, q), r, r');
    HalfPut(s, q, Lifted(At(s, q), r, r'), r');
    SortedBack(better, Put(s, q, Lifted(At(s, q), r, r')), q, r', pos);
  }

  lemma HalfPut(s: Cfq, q: nat, h: Group, r: Rq)
    requires Inv(s) && Half(h, r, true) && h.onRr && At(s, q).onRr
    ensures HalfInv(Put(s, q, h), q, r, true)
  {
    assert LinkedAt(s, q);
    forall x | x != q ensures GroupOk(At(Put(s, q, h), x)) && LinkedAt(Put(s, q, h), x) {
      assert GroupOk(At(s, x)) && LinkedAt(s, x);
    }
  }

  lemma SortingDone(better: (Rq, Rq) -> bool, s1: Cfq, q: nat, r: Rq, there: bool, pos: nat)
    requires HalfInv(s1, q, r, there)
    ensures var g := At(s1, q);
            var s2 := Put(s1, q, g.(sort := Inserted(g.sort, r)));
            var s3 := if g.onRr then s2 else RrAdded(s2, q, pos);
            var s' := Put(s3, q, At(s3, q).(next := Pick(better, g.next, Some(r))));
            InvBut(s', q) && q in s'.tree && At(s', q) == Group(Inserted(g.sort, r), g.fifo, Pick(better, g.next, Some(r)), true)
  {
    var g := At(s1, q);
    var s2 := Put(s1, q, g.(sort := Inserted(g.sort, r)));
    if !g.onRr { InsertedOk(Put(s2, q, At(s2, q).(onRr := true)), q, pos); }
    var s3 := if g.onRr then s2 else RrAdded(s2, q, pos);
    var s' := Put(s3, q, At(s3, q).(next := Pick(better, g.next, Some(r))));
    forall x | x != q ensures GroupOk(At(s', x)) && LinkedAt(s', x) {
      assert GroupOk(At(s1, x)) && LinkedAt(s1, x);
    }
  }
}
