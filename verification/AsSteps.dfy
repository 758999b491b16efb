/** Each step of the anticipatory scheduler, and when a dispatch may decline. */
module AsSteps {
  import opened Common
  import opened AsOrder
  import opened RequestLists
  import opened Anticipatory
  import opened AsInvariant

  lemma {:induction false} AwaitedGrows(out: seq<Out>, o: Out, c: nat)
    ensures Awaited(out + [o], c) <==> Awaited(out, c) || o.rq.ioc == c
  {
    if out != [] {
      assert (out + [o])[1..] == out[1..] + [o];
      AwaitedGrows(out[1..], o, c);
    }
  }

  lemma {:induction false} AwaitedWithout(out: seq<Out>, i: nat, c: nat)
    requires i < |out| && Awaited(out, c) && out[i].rq.ioc != c
    ensures Awaited(Without1(out, i), c)
  {
    if i == 0 {
      assert Without1(out, 0) == out[1..];
    } else {
      assert Without1(out, i)[1..] == Without1(out[1..], i - 1);
      if out[0].rq.ioc != c { AwaitedWithout(out[1..], i - 1, c); }
    }
  }

  function Other(d: Dir): Dir { if d == Sync then Async else Sync }

  /** A queued request of this direction. */
  predicate IsQueued(s: State, d: Dir, r: Rq) { r in Elems(SideOf(s, d).tree) }

  lemma MovedKeeps(s: State, d: Dir, r: Rq)
    requires Inv(s) && IsQueued(s, d, r)
    ensures Inv(Moved(s, d, r)) && Moved(s, d, r).wait.antic == Off && (Owed(s) ==> Owed(Moved(s, d, r)))
  {
    SideMovedKeeps(SideOf(s, d), r);
    AwaitedGrows(s.out, Out(r, d), r.ioc);
  }

  /** Moving a request never takes a wakeup away. */
  predicate Owed(s: State) { s.work || Waiting(s) || s.batch.changed }

  /** At most one request has to make way: after it no request is at the sector. */
  lemma MadeWayKeeps(s: State, d: Dir, sector: nat)
    requires Inv(s)
    ensures Inv(MadeWay(s, d, sector)) && Vacant(SideOf(MadeWay(s, d, sector), d).tree, sector)
    ensures Owed(s) ==> Owed(MadeWay(s, d, sector))
  {
    var tree := SideOf(s, d).tree;
    var i := Place(tree, sector);
    PlaceTells(tree, sector);
    if i < |tree| && tree[i].sector == sector {
      ElemsAre(tree);
      MovedKeeps(s, d, tree[i]);
      MovedVacates(SideOf(s, d), tree[i]);
    }
  }

  lemma MovedVacates(x: Side, r: Rq)
    requires SideOk(x) && r in x.tree
    ensures Vacant(SideMoved(x, r).tree, r.sector)
  {
    VacatedWithout(x.tree, IndexOf(x.tree, r));
  }

  lemma EnteringKeeps(s: State, d: Dir, r: Rq, expires: int) returns (s': State)
    requires Inv(s) && Vacant(SideOf(s, d).tree, r.sector)
    ensures s' == WithSide(s, d, Entered(SideOf(s, d), r, expires)) && Inv(s') && (Owed(s) ==> Owed(s'))
  {
    s' := WithSide(s, d, Entered(SideOf(s, d), r, expires));
    EnteredKeeps(SideOf(s, d), r, expires);
  }

  lemma StoppedKeeps(s: State, t: Tunables, r: Rq, now: int, hunch: bool)
    requires Inv(s)
    ensures Inv(StoppedFor(s, t, r, now, hunch)) && (Owed(s) ==> Owed(StoppedFor(s, t, r, now, hunch)))
  {
  }

  /** Once way has been made. */
  lemma EnteredAfter(s: State, t: Tunables, d: Dir, r: Rq, now: int, hunch: bool, s': State)
    requires Inv(s) && Vacant(SideOf(s, d).tree, r.sector) && s' == AddedAfter(s, t, d, r, now, hunch)
    ensures Inv(s') && (Owed(s) ==> Owed(s'))
  {
    var s1 := EnteringKeeps(s, d, r, now + FifoExpire(t, d));
    StoppedKeeps(s1, t, r, now, hunch);
  }

  lemma AddedKeeps(s: State, t: Tunables, d: Dir, r: Rq, now: int, hunch: bool)
    requires Inv(s)
    ensures Inv(Added(s, t, d, r, now, hunch))
    ensures Owed(s) ==> Owed(Added(s, t, d, r, now, hunch))
  {
    MadeWayKeeps(s, d, r.sector);
    EnteredAfter(MadeWay(s, d, r.sector), t, d, r, now, hunch, Added(s, t, d, r, now, hunch));
  }

  // ------------------------------------------------------------------- dispatch

  /** The same but for when the fifo was last looked at. */
  predicate Alike(x: Side, y: Side) { x == y.(lastCheck := x.lastCheck) }

  /** Declining, the scheduler waits for a request or for the timer, or for the last batch to end. */
  ghost predicate Declined(s: State, s': State) {
    && Alike(s'.sync, s.sync) && Alike(s'.async, s.async) && s'.out == s.out
    && (Queued(s) ==> Waiting(s') || s'.batch.changed)
    && (Waiting(s') ==> Waiting(s) || s.wait.antic == Off)
  }

  /** Going on, it has moved one queued request to the driver. */
  ghost predicate Went(s: State, s': State) {
    exists d, r :: IsQueued(s, d, r) && MovedOne(s, s', d, r)
  }

  ghost predicate MovedOne(s: State, s': State, d: Dir, r: Rq) {
    && s'.out == s.out + [Out(r, d)] && !Waiting(s')
    && Alike(SideOf(s', d), SideMoved(SideOf(s, d), r))
    && Alike(SideOf(s', Other(d)), SideOf(s, Other(d)))
  }

  ghost predicate Outcome(s: State, p: (State, bool)) {
    Inv(p.0) && if p.1 then Went(s, p.0) else Declined(s, p.0)
  }

  /** `s1` is `s` but for batch and time keeping, about to issue a request. */
  ghost predicate About(s: State, s1: State) {
    && SideOk(s1.sync) && SideOk(s1.async)
    && Alike(s1.sync, s.sync) && Alike(s1.async, s.async) && s1.out == s.out
    && AboutFlags(s1)
  }

  predicate AboutFlags(s: State) {
    && s.nrDispatched == |s.out| && !Waiting(s)
    && !(s.batch.changed && s.batch.newBatch) && (s.batch.newBatch ==> s.batch.dir == Sync)
    && (s.wait.ioc.Some? && !s.wait.finished ==> Awaited(s.out, s.wait.ioc.value))
  }

  lemma MovedWent(s: State, s2: State, d: Dir, r: Rq)
    requires Inv(s2) && IsQueued(s2, d, r) && Alike(s2.sync, s.sync) && Alike(s2.async, s.async) && s2.out == s.out
    ensures Outcome(s, (Moved(s2, d, r), true))
  {
    MovedKeeps(s2, d, r);
    assert IsQueued(s, d, r) && MovedOne(s, Moved(s2, d, r), d, r);
  }

  lemma ChangingDeclines(s: State, s1: State)
    requires About(s, s1) && s1.batch.changed && s1.nrDispatched > 0
    ensures Outcome(s, (s1, false))
  {
  }

  lemma BegunFlags(s1: State, t: Tunables, now: int)
    requires AboutFlags(s1)
    ensures FlagsOk(s1.(batch := Begun(s1.batch, t, now)))
  {
  }

  lemma IssuedTells(s: State, s1: State, t: Tunables, o: Option<Rq>, now: int)
    requires About(s, s1) && o.Some? && IsQueued(s1, s1.batch.dir, o.value)
    ensures Outcome(s, Issued(s1, t, o, now))
  {
    if s1.batch.changed && s1.nrDispatched > 0 {
      ChangingDeclines(s, s1);
      assert Issued(s1, t, o, now) == (s1, false);
    } else {
      var s2 := s1.(batch := Begun(s1.batch, t, now));
      BegunFlags(s1, t, now);
      MovedWent(s, s2, s1.batch.dir, o.value);
      assert Issued(s1, t, o, now) == (Moved(s2, s1.batch.dir, o.value), true);
    }
  }

  lemma OldestIsQueued(s: State, d: Dir)
    requires SideOk(SideOf(s, d)) && SideOf(s, d).fifo != []
    ensures Oldest(s, d).Some? && IsQueued(s, d, Oldest(s, d).value)
  {
    var x := SideOf(s, d);
    ElemsAre(Members(x.fifo));
    assert Members(x.fifo)[0] == x.fifo[0].rq;
  }

  lemma EmptyTogether(x: Side)
    requires SideOk(x)
    ensures x.fifo == [] <==> x.tree == []
    ensures x.next.None? <==> x.tree == []
  {
    assert x.fifo != [] ==> Members(x.fifo)[0] in Elems(Members(x.fifo));
    assert x.tree != [] ==> x.tree[0] in Elems(x.tree);
  }

  lemma ServedTells(s: State, s1: State, t: Tunables, o: Option<Rq>, now: int)
    requires About(s, s1) && o.Some? && IsQueued(s1, s1.batch.dir, o.value)
    ensures Outcome(s, Served(s1, t, o, now))
  {
    var x, e := SideOf(s1, s1.batch.dir), FifoExpire(t, s1.batch.dir);
    var s2 := WithSide(s1, s1.batch.dir, FifoLooked(x, e, now));
    if FifoExpired(x, e, now) {
      OldestIsQueued(s1, s1.batch.dir);
      IssuedTells(s, s2, t, Oldest(s1, s1.batch.dir), now);
    } else {
      IssuedTells(s, s2, t, o, now);
    }
  }

  lemma SwitchedTells(s: State, s1: State, t: Tunables, now: int)
    requires About(s, s1) && Queued(s1) && !s1.batch.changed
    ensures Outcome(s, Switched(s1, t, now))
  {
    if Reads(s1) && !(Writes(s1) && s1.batch.dir == Sync) {
      OldestIsQueued(s1, Sync);
      ServedTells(s, ToReads(s1, now), t, Oldest(s1, Sync), now);
    } else {
      OldestIsQueued(s1, Async);
      ServedTells(s, ToWrites(s1, now), t, Oldest(s1, Async), now);
    }
  }

  lemma WentOnTells(s: State, s1: State, t: Tunables, now: int)
    requires About(s, s1) && Queued(s1) && !s1.batch.changed
    ensures Outcome(s, WentOn(s1, t, SideOf(s1, s1.batch.dir).next, now))
  {
    var o := SideOf(s1, s1.batch.dir).next;
    if o.None? {
      SwitchedTells(s, s1, t, now);
    } else {
      var s2 := if Reads(s1) && !Writes(s1) then Extended(s1, t, now) else s1;
      assert About(s, s2) && IsQueued(s2, s2.batch.dir, o.value);
      ServedTells(s, s2, t, o, now);
      assert WentOn(s1, t, o, now) == Served(s2, t, o, now);
    }
  }

  lemma ReadsWentOnTells(s: State, t: Tunables, now: int, hunch: bool)
    requires Inv(s) && Queued(s) && !Waiting(s) && !s.batch.changed && s.batch.dir == Sync
    ensures Outcome(s, ReadsWentOn(s, t, now, hunch))
  {
    var s1 := s.(sync := FifoLooked(s.sync, t.syncExpire, now));
    assert About(s, s1);
    if FifoExpired(s.sync, t.syncExpire, now) {
      OldestIsQueued(s, Sync);
      IssuedTells(s, s1, t, Oldest(s, Sync), now);
    } else if CanAnticipate(s1, t, s.sync.next, now, hunch) {
      assert Inv(WaitForReq(s1)) && Declined(s, WaitForReq(s1));
    } else {
      WentOnTells(s, s1, t, now);
    }
  }

  lemma DispatchTells(s: State, t: Tunables, now: int, hunch: bool)
    requires Inv(s)
    ensures Outcome(s, Dispatched(s, t, now, hunch))
  {
    if Queued(s) && !Waiting(s) && !s.batch.changed {
      assert About(s, s);
      if Reads(s) && Writes(s) && BatchExpired(s, now) {
        SwitchedTells(s, s, t, now);
      } else if s.batch.dir == Sync && t.anticExpire != 0 {
        ReadsWentOnTells(s, t, now, hunch);
      } else {
        WentOnTells(s, s, t, now);
      }
    } else {
      assert Declined(s, s);
    }
  }
}
