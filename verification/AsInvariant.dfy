/** What every step of the anticipatory scheduler keeps. */
module AsInvariant {
  import opened Common
  import opened AsOrder
  import opened RequestLists
  import opened Anticipatory

  function Members(f: seq<Slot>): seq<Rq> {
    if f == [] then [] else [f[0].rq] + Members(f[1..])
  }

  /**
    The tree is in sector order with no sector twice, tree and fifo hold the same requests,
    and the cached one is among them if there are any.
   */
  predicate SideOk(x: Side) {
    && Ascending(x.tree) && NoTwice(x.tree) && NoTwice(Members(x.fifo)) && Elems(x.tree) == Elems(Members(x.fifo))
    && (if x.next.None? then x.tree == [] else x.next.value in Elems(x.tree))
  }

  /** Some request of the context is with the driver. */
  predicate Awaited(out: seq<Out>, ioc: nat) {
    out != [] && (out[0].rq.ioc == ioc || Awaited(out[1..], ioc))
  }

  /** Batches, anticipation and the requests with the driver. */
  predicate FlagsOk(s: State) {
    FlagsAgree(s) && (s.wait.ioc.Some? && !s.wait.finished ==> Awaited(s.out, s.wait.ioc.value))
  }

  predicate FlagsAgree(s: State) {
    && s.nrDispatched == |s.out|
    && (s.batch.changed ==> s.nrDispatched >= 1 && !s.batch.newBatch)
    && (s.batch.newBatch ==> s.batch.dir == Sync)
    && (Waiting(s) ==> s.wait.ioc.Some?)
    && (s.wait.antic == WaitNext ==> s.wait.timer)
    && (s.wait.antic == WaitReq ==> !s.wait.finished)
  }

  predicate Inv(s: State) { SideOk(s.sync) && SideOk(s.async) && FlagsOk(s) }

  // -------------------------------------------------------------------- one side

  lemma {:induction false} NoTwiceDrop(f: seq<Slot>, r: Rq)
    requires NoTwice(Members(f))
    ensures NoTwice(Members(DropSlot(f, r))) && r !in Members(DropSlot(f, r))
    ensures forall x :: x in Members(DropSlot(f, r)) <==> x in Members(f) && x != r
  {
    if f != [] {
      NoTwiceDrop(f[1..], r);
      assert Members(f)[1..] == Members(f[1..]);
      if f[0].rq != r {
        var d := DropSlot(f[1..], r);
        assert ([f[0]] + d)[1..] == d;
        assert Members([f[0]] + d) == [f[0].rq] + Members(d);
      }
    }
  }

  lemma SideMovedKeeps(x: Side, r: Rq)
    requires SideOk(x) && r in Elems(x.tree)
    ensures SideOk(SideMoved(x, r)) && Elems(SideMoved(x, r).tree) == Elems(x.tree) - {r}
    ensures |SideMoved(x, r).tree| == |x.tree| - 1
  {
    ElemsAre(x.tree);
    var i := IndexOf(x.tree, r);
    ElemsWithout(x.tree, i);
    AscendingWithout(x.tree, i);
    ElemsDrop(x.fifo, r);
    var o := FindNext(End(r), x.tree, i);
    ElemsAre(Without(x.tree, i));
    if o.Some? { NeighbourRemains(x.tree, i, o.value); }
  }

  lemma ElemsDrop(f: seq<Slot>, r: Rq)
    requires NoTwice(Members(f))
    ensures NoTwice(Members(DropSlot(f, r))) && Elems(Members(DropSlot(f, r))) == Elems(Members(f)) - {r}
  {
    NoTwiceDrop(f, r);
    ElemsAre(Members(f));
    ElemsAre(Members(DropSlot(f, r)));
  }

  lemma {:induction false} MembersGrow(f: seq<Slot>, s: Slot)
    ensures Members(f + [s]) == Members(f) + [s.rq]
  {
    if f != [] {
      assert (f + [s])[1..] == f[1..] + [s];
      MembersGrow(f[1..], s);
    }
  }

  lemma EnteredKeeps(x: Side, r: Rq, expires: int)
    requires SideOk(x) && Vacant(x.tree, r.sector)
    ensures SideOk(Entered(x, r, expires))
  {
    AscendingInserted(x.tree, r);
    ElemsAre(x.tree);
    InsertedElems(x.tree, r);
    MembersGrow(x.fifo, Slot(r, expires));
    FifoGrows(Members(x.fifo), r);
  }
}
