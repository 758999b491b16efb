/** CFQ's data as an object, its fields updated in place. */
module CfqQueue {
  import opened Common
  import opened AsOrder
  import opened RequestLists
  import opened Cfq
  import opened CfqInvariant
  import opened CfqRuns

  class CfqData {
    var groups: map<nat, Group>
    var tree: seq<nat>
    var left: Option<nat>
    var busy: nat
    var out: seq<Rq>
    const better: (Rq, Rq) -> bool

    function View(): Cfq
      reads this
    {
      Cfq(groups, tree, left, busy, out)
    }

    /** What every run of the structures keeps. */
    ghost predicate Valid()
      reads this
    {
      Inv(View())
    }

    constructor (better: (Rq, Rq) -> bool)
      ensures Valid() && View() == Init()
    {
      this.better := better;
      groups, tree, left, busy, out := map[], [], None, 0, [];
    }

    method Erase(q: nat)
      modifies this
      ensures View() == Erased(old(View()), q)
    {
      var i := IndexIn(tree, q);
      if i < |tree| {
        if left == Some(q) { left := None; }
        tree := tree[..i] + tree[i + 1..];
      }
    }

    method ServiceTreeAdd(q: nat, pos: nat, same: bool)
      modifies this
      ensures View() == TreeAdded(old(View()), q, pos, same)
    {
      if q in tree && same { return; }
      Erase(q);
      var p := if pos > |tree| then |tree| else pos;
      if p == 0 { left := Some(q); }
      tree := tree[..p] + [q] + tree[p..];
    }

    /** A group gets another place in the tree, if it has one. */
    method ResortRr(q: nat, pos: nat, same: bool)
      requires Valid()
      modifies this
      ensures Valid() && View() == Resorted(old(View()), q, pos, same) && forall x :: x in tree <==> x in old(tree)
    {
      assert LinkedAt(View(), q);
      if q in tree { MovedInTree(View(), q, pos); }
      ResortedKeeps(View(), q, pos, same);
      if At(View(), q).onRr { ServiceTreeAdd(q, pos, same); }
    }

    /** The leftmost group, looked up once and then cached; there is none only if no request is queued. */
    method RbFirst() returns (o: Option<nat>)
      requires Valid()
      modifies this`left
      ensures Valid() && left == o && First(View()) == (View(), o)
      ensures if tree == [] then o.None? && forall x :: At(View(), x).sort == []
              else o == Some(tree[0]) && At(View(), tree[0]).sort != []
    {
      FirstKeeps(View());
      if tree == [] { NoneBusy(View()); }
      if left.None? && tree != [] { left := Some(tree[0]); }
      o := left;
    }

    method AddRr(q: nat, pos: nat)
      modifies this
      ensures View() == RrAdded(old(View()), q, pos)
    {
      groups := groups[q := At(View(), q).(onRr := true)];
      busy := busy + 1;
      ServiceTreeAdd(q, pos, false);
    }

    method DelRr(q: nat)
      requires busy > 0
      modifies this
      ensures View() == RrDeleted(old(View()), q)
    {
      groups := groups[q := At(View(), q).(onRr := false)];
      Erase(q);
      busy := busy - 1;
    }

    /** A queued request goes. */
    method RemoveRequest(q: nat, r: Rq)
      requires Valid() && r in Elems(At(View(), q).sort)
      modifies this
      ensures Valid() && View() == Removed(better, old(View()), q, r)
      ensures Elems(At(View(), q).sort) == Elems(At(old(View()), q).sort) - {r}
      ensures q in tree <==> At(View(), q).sort != []
    {
      RemovedKeeps(better, View(), q, r);
      assert GroupOk(At(View(), q)) && LinkedAt(View(), q);
      Unlink(q, r);
      assert LinkedAt(View(), q);
    }

    method Unlink(q: nat, r: Rq)
      requires Less(better, At(View(), q), r).onRr ==> busy > 0
      modifies this
      ensures View() == Removed(better, old(View()), q, r)
    {
      groups := groups[q := Less(better, At(View(), q), r)];
      var g := At(View(), q);
      if g.onRr && g.sort == [] { DelRr(q); }
    }

    method DispatchInsert(q: nat, r: Rq)
      requires Less(better, At(View(), q), r).onRr ==> busy > 0
      modifies this
      ensures View() == DispatchInserted(better, old(View()), q, r)
    {
      Unlink(q, r);
      out := out + [r];
    }

    /** Until no request is at the sector of `r`, the one found there is dispatched. */
    method MakeWay(q: nat, r: Rq, ghost there: bool)
      requires HalfInv(View(), q, r, there)
      modifies this
      ensures View() == MadeWay(better, old(View()), q, r.sector)
      ensures HalfInv(View(), q, r, there) && Vacant(At(View(), q).sort, r.sector)
    {
      ghost var s := View();
      var t := At(View(), q).sort;
      var i := Place(t, r.sector);
      while i < |t| && t[i].sector == r.sector
        invariant HalfInv(View(), q, r, there) && t == At(View(), q).sort && i == Place(t, r.sector)
        invariant MadeWay(better, View(), q, r.sector) == MadeWay(better, s, q, r.sector)
        decreases |t|
      {
        ElemsAre(t);
        HalfRemoved(better, View(), q, r, there, t[i]);
        DispatchInsert(q, t[i]);
        t := At(View(), q).sort;
        i := Place(t, r.sector);
        PlaceTells(t, r.sector);
      }
      PlaceTells(t, r.sector);
    }

    /** Into the sector order. */
    method AddRqRb(q: nat, r: Rq, pos: nat, ghost there: bool)
      requires HalfInv(View(), q, r, there)
      modifies this
      ensures View() == Sorted(better, old(View()), q, r, pos)
    {
      MakeWay(q, r, there);
      var g := At(View(), q);
      groups := groups[q := g.(sort := Inserted(g.sort, r))];
      if !g.onRr { AddRr(q, pos); }
      groups := groups[q := At(View(), q).(next := Pick(better, g.next, Some(r)))];
    }

    method InsertRequest(q: nat, r: Rq, pos: nat)
      requires Valid() && r !in Elems(At(View(), q).sort)
      modifies this
      ensures Valid() && View() == Added(better, old(View()), q, r, pos)
    {
      AddedKeeps(better, View(), q, r, pos);
      assert GroupOk(At(View(), q)) && LinkedAt(View(), q);
      AddRqRb(q, r, pos, false);
      var g := At(View(), q);
      groups := groups[q := g.(fifo := g.fifo + [r])];
    }

    method MergedFront(q: nat, r: Rq, grown: Rq, pos: nat)
      requires Valid() && r in Elems(At(View(), q).sort) && grown !in Elems(At(View(), q).sort)
      modifies this
      ensures Valid() && View() == FrontMerged(better, old(View()), q, r, grown, pos)
    {
      FrontMergedKeeps(better, View(), q, r, grown, pos);
      assert GroupOk(At(View(), q)) && LinkedAt(View(), q);
      LiftedHalf(At(View(), q), r, grown);
      HalfPut(View(), q, Lifted(At(View(), q), r, grown), grown);
      groups := groups[q := Lifted(At(View(), q), r, grown)];
      AddRqRb(q, grown, pos, true);
    }

    /** Dispatch all requests of a group. */
    method ForcedDispatchGroup(q: nat)
      requires Valid()
      modifies this
      ensures Valid() && View() == Emptied(better, old(View()), q, |At(old(View()), q).sort|) && At(View(), q).sort == []
    {
      ghost var s0, n := View(), |At(View(), q).sort|;
      EmptiedKeeps(better, s0, q, n);
      while At(View(), q).next.Some?
        invariant Valid() && Emptied(better, View(), q, |At(View(), q).sort|) == Emptied(better, s0, q, n)
        decreases |At(View(), q).sort|
      {
        assert GroupOk(At(View(), q)) && LinkedAt(View(), q);
        var r := At(View(), q).next.value;
        DispatchKeeps(better, View(), q, r);
        DispatchInsert(q, r);
      }
      assert GroupOk(At(View(), q));
    }

    /** Dispatch everything; `sent` is what that amounts to. */
    method ForcedDispatch() returns (ghost sent: seq<Rq>)
      requires Valid()
      modifies this
      ensures Valid() && View() == Drained(better, old(View()), |old(tree)|)
      ensures busy == 0 && forall x :: At(View(), x).sort == []
      ensures out == old(out) + sent && Delivers(old(View()), old(tree), sent)
    {
      ghost var s0 := View();
      sent := DrainedKeeps(better, s0, |s0.tree|);
      NoneBusy(Drained(better, s0, |s0.tree|));
      FirstTwice(better, s0);
      var o := RbFirst();
      while o.Some?
        invariant FirstIs(View(), o) && Drained(better, View(), |tree|) == Drained(better, s0, |s0.tree|)
        decreases |tree|
      {
        DrainedNext(better, View(), o.value);
        ForcedDispatchGroup(o.value);
        FirstTwice(better, View());
        o := RbFirst();
      }
    }
  }

  /** `o` is the leftmost group, and cached. */
  ghost predicate FirstIs(s: Cfq, o: Option<nat>) { Inv(s) && First(s) == (s, o) && (o.None? <==> s.tree == []) }

  lemma DrainedNext(better: (Rq, Rq) -> bool, s: Cfq, q: nat)
    requires FirstIs(s, Some(q))
    ensures var s' := Emptied(better, s, q, |At(s, q).sort|);
            Drained(better, s', |s'.tree|) == Drained(better, s, |s.tree|) && |s'.tree| < |s.tree|
  {
    var _ := GroupDrained(better, s);
  }

  lemma FirstTwice(better: (Rq, Rq) -> bool, s: Cfq)
    requires Inv(s)
    ensures FirstIs(First(s).0, First(s).1)
    ensures Drained(better, First(s).0, |First(s).0.tree|) == Drained(better, s, |s.tree|)
  {
    FirstKeeps(s);
  }
}
