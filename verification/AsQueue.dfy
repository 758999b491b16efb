/** The anticipatory scheduler as an object: `as_data`, its fields updated in place. */
module AsQueue {
  import opened Common
  import opened AsOrder
  import opened RequestLists
  import opened Anticipatory
  import opened AsInvariant
  import opened AsSteps
  import opened AsRuns

  lemma QueuedIn(x: Side, r: Rq)
    requires SideOk(x) && r in Elems(x.tree)
    ensures Vacant(SideMoved(x, r).tree, r.sector)
  {
    ElemsAre(x.tree);
    MovedVacates(x, r);
  }

  lemma AtPlace(s: State, d: Dir, sector: nat)
    ensures var t := SideOf(s, d).tree; var i := Place(t, sector); i < |t| ==> IsQueued(s, d, t[i])
  {
    ElemsAre(SideOf(s, d).tree);
  }

  lemma StaysVacant(s: State, d: Dir, sector: nat)
    requires Inv(s) && Vacant(SideOf(s, d).tree, sector)
    ensures MadeWay(s, d, sector) == s
  {
    PlaceTells(SideOf(s, d).tree, sector);
  }

  lemma DeclinedIsDue(s: State, t: Tunables, now: int, hunch: bool)
    requires Inv(s)
    ensures var (s', went) := Dispatched(s, t, now, hunch); !went && Queued(s') ==> WakeupDue(s')
  {
    AfterDispatchGood(s, t, now, hunch);
    OwedIsDue(Dispatched(s, t, now, hunch).0);
  }

  class AsData {
    var sync: Side
    var async: Side
    var batch: Batch
    var wait: Wait
    var work: bool
    var out: seq<Out>
    var nrDispatched: nat
    const tunables: Tunables

    function View(): State
      reads this
    {
      State(sync, async, batch, wait, work, out, nrDispatched)
    }

    /** What every run of the scheduler keeps. */
    ghost predicate Valid()
      reads this
    {
      Inv(View())
    }

    constructor (t: Tunables, now: int)
      ensures Valid() && View() == Init(now + t.syncBatch, if t.asyncBatch / 10 < 2 then 2 else t.asyncBatch / 10)
    {
      tunables := t;
      sync, async := EmptySide(), EmptySide();
      batch := Batch(Async, false, false, now + t.syncBatch, if t.asyncBatch / 10 < 2 then 2 else t.asyncBatch / 10, 0);
      wait, work, out, nrDispatched := Wait(Off, 0, false, None, false), false, [], 0;
    }

    method AnticStop()
      requires Valid()
      modifies this
      ensures Valid() && View() == Stopped(old(View())) && !Waiting(View())
    {
      if wait.antic == WaitReq || wait.antic == WaitNext {
        if wait.antic == WaitNext { wait := wait.(timer := false); }
        wait := wait.(antic := Finished);
        work := true;
      }
    }

    method SetSide(d: Dir, x: Side)
      modifies this
      ensures View() == WithSide(old(View()), d, x)
    {
      if d == Sync { sync := x; } else { async := x; }
    }

    /** The process to anticipate on, and one more request with the driver. */
    method Account(d: Dir, r: Rq)
      modifies this
      ensures View() == Accounted(old(View()), d, r)
    {
      wait := wait.(antic := Off);
      if d == Sync {
        wait := wait.(ioc := Some(r.ioc));
      } else {
        wait := wait.(ioc := None);
        if batch.left != 0 { batch := batch.(left := batch.left - 1); }
      }
      wait := wait.(finished := false);
      out := out + [Out(r, d)];
      nrDispatched := nrDispatched + 1;
    }

    /** A queued request goes to the driver. */
    method MoveToDispatch(d: Dir, r: Rq)
      requires Valid() && IsQueued(View(), d, r)
      modifies this
      ensures Valid() && View() == Moved(old(View()), d, r)
      ensures Vacant(SideOf(View(), d).tree, r.sector) && |SideOf(View(), d).tree| < |SideOf(old(View()), d).tree|
    {
      var x := SideOf(View(), d);
      MovedKeeps(View(), d, r);
      SideMovedKeeps(x, r);
      QueuedIn(x, r);
      AnticStop();
      SetSide(d, SideMoved(x, r));
      Account(d, r);
    }

    /** Until no request is at the sector, the one found there goes to the driver. */
    method MakeWay(d: Dir, sector: nat)
      requires Valid()
      modifies this
      ensures Valid() && View() == MadeWay(old(View()), d, sector) && Vacant(SideOf(View(), d).tree, sector)
    {
      ghost var s := View();
      var tree := SideOf(View(), d).tree;
      var i := Place(tree, sector);
      while i < |tree| && tree[i].sector == sector
        invariant Valid() && tree == SideOf(View(), d).tree && i == Place(tree, sector)
        invariant MadeWay(View(), d, sector) == MadeWay(s, d, sector)
        decreases |tree|
      {
        AtPlace(View(), d, sector);
        MoveToDispatch(d, tree[i]);
        StaysVacant(View(), d, sector);
        tree := SideOf(View(), d).tree;
        i := Place(tree, sector);
      }
      PlaceTells(tree, sector);
    }

    method AddRequest(d: Dir, r: Rq, now: int, hunch: bool)
      requires Valid()
      modifies this
      ensures Valid() && View() == Added(old(View()), tunables, d, r, now, hunch)
      ensures old(Owed(View())) ==> Owed(View())
    {
      AddedKeeps(View(), tunables, d, r, now, hunch);
      MakeWay(d, r.sector);
      EnterRequest(d, r, now, hunch);
    }

    method EnterRequest(d: Dir, r: Rq, now: int, hunch: bool)
      requires Valid() && Vacant(SideOf(View(), d).tree, r.sector)
      modifies this
      ensures Valid() && View() == AddedAfter(old(View()), tunables, d, r, now, hunch)
    {
      ghost var entered := EnteringKeeps(View(), d, r, now + FifoExpire(tunables, d));
      SetSide(d, Entered(SideOf(View(), d), r, now + FifoExpire(tunables, d)));
      if Waiting(View()) && CanBreak(View(), tunables, Some(r), now, hunch) {
        AnticStop();
      }
    }

    /** A request has ended: what was due when it did comes. */
    method CompletedRequest(i: nat, now: int, tunedBatch: nat)
      requires Valid() && i < |out|
      modifies this
      ensures Valid() && View() == Completed(old(View()), tunables, i, now, tunedBatch)
      ensures old(wait.antic == WaitReq && wait.ioc == Some(out[i].rq.ioc)) ==> wait.antic == WaitNext && wait.timer
      ensures old(batch.changed && |out| == 1) ==> work
      ensures old(WakeupDue(View())) ==> WakeupDue(View())
    {
      WakeupComes(View(), tunables, i, now, tunedBatch, false);
      CompletedKeeps(View(), tunables, i, now, tunedBatch);
      var o := out[i];
      LeaveDriver(i);
      BeginBatch(o.dir, now, tunedBatch);
      Answer(o.rq.ioc, now);
    }

    method LeaveDriver(i: nat)
      requires i < |out| == nrDispatched
      modifies this
      ensures View() == Left(old(View()), i)
    {
      if batch.changed && nrDispatched == 1 {
        work := true;
        batch := batch.(changed := false);
        if batch.dir == Sync { batch := batch.(newBatch := true); }
      }
      nrDispatched := nrDispatched - 1;
      out := Without1(out, i);
    }

    method BeginBatch(d: Dir, now: int, tunedBatch: nat)
      modifies this
      ensures View() == BatchBegun(old(View()), tunables, d, now, tunedBatch)
    {
      if batch.newBatch && batch.dir == d {
        batch := batch.(writes := tunedBatch, expires := now + tunables.syncBatch, newBatch := false);
      }
    }

    method Answer(ended: nat, now: int)
      modifies this
      ensures View() == Answered(old(View()), ended, now)
    {
      if wait.ioc == Some(ended) {
        wait := wait.(start := now, finished := true);
        if wait.antic == WaitReq { AnticWaitNext(); }
      }
    }

    method AnticWaitNext()
      modifies this
      ensures View() == WaitForNext(old(View()))
    {
      wait := wait.(timer := true, antic := WaitNext);
    }

    /** Anticipate: a wakeup is due from then on. */
    method AnticWaitReq()
      requires Valid() && wait.ioc.Some? && wait.antic == Off
      modifies this
      ensures Valid() && View() == WaitForReq(old(View())) && WakeupDue(View())
    {
      if wait.antic == Off {
        if wait.ioc.None? || wait.finished {
          AnticWaitNext();
        } else {
          wait := wait.(antic := WaitReq);
        }
      }
    }

    /** Has the oldest request of a direction waited too long?  It is queued then.  Remembers when it looked. */
    method LookAtFifo(d: Dir, now: int) returns (expired: bool)
      requires SideOk(SideOf(View(), d))
      modifies this
      ensures var x, e := SideOf(old(View()), d), FifoExpire(tunables, d);
              View() == WithSide(old(View()), d, FifoLooked(x, e, now)) && expired == FifoExpired(x, e, now)
      ensures SideOk(SideOf(View(), d))
      ensures expired ==> Oldest(View(), d).Some? && IsQueued(View(), d, Oldest(View(), d).value)
      ensures expired ==> now > SideOf(View(), d).fifo[0].expires
    {
      if SideOf(View(), d).fifo != [] { OldestIsQueued(View(), d); }
      var x := SideOf(View(), d);
      if Abs(now - x.lastCheck) < FifoExpire(tunables, d) { return false; }
      if d == Sync { sync := x.(lastCheck := now); } else { async := x.(lastCheck := now); }
      return x.fifo != [] && now > x.fifo[0].expires;
    }

    /** A queued request has been chosen.  `s` is the state in which dispatching began, here and below. */
    method Issue(o: Option<Rq>, now: int, ghost s: State) returns (went: bool)
      requires About(s, View()) && o.Some? && IsQueued(View(), batch.dir, o.value)
      modifies this
      ensures (View(), went) == Issued(old(View()), tunables, o, now)
      ensures Valid() && Outcome(s, (View(), went))
    {
      IssuedTells(s, View(), tunables, o, now);
      BegunFlags(View(), tunables, now);
      if batch.changed && nrDispatched > 0 { return false; }
      StartBatch(now);
      MoveToDispatch(batch.dir, o.value);
      return true;
    }

    /** The requests of the last batch are through: a new one starts. */
    method StartBatch(now: int)
      modifies this`batch
      ensures View() == old(View()).(batch := Begun(old(batch), tunables, now))
    {
      if batch.changed {
        if batch.dir == Async {
          batch := batch.(expires := now + tunables.asyncBatch);
        } else {
          batch := batch.(newBatch := true);
        }
        batch := batch.(changed := false);
      }
    }

    method Serve(o: Option<Rq>, now: int, ghost s: State) returns (went: bool)
      requires About(s, View()) && o.Some? && IsQueued(View(), batch.dir, o.value)
      modifies this
      ensures (View(), went) == Served(old(View()), tunables, o, now)
      ensures Valid() && Outcome(s, (View(), went))
    {
      ghost var s1 := View();
      var expired := LookAtFifo(batch.dir, now);
      if expired {
        OldestIsQueued(View(), batch.dir);
        went := Issue(Oldest(View(), batch.dir), now, s);
      } else {
        went := Issue(o, now, s);
      }
    }

    method BeginReads(now: int)
      modifies this
      ensures View() == ToReads(old(View()), now)
    {
      if batch.dir == Async { batch := batch.(changed := true); }
      batch := batch.(dir := Sync);
      sync := sync.(lastCheck := now);
    }

    method BeginWrites(now: int)
      modifies this
      ensures View() == ToWrites(old(View()), now)
    {
      if batch.dir == Sync { batch := batch.(changed := true, newBatch := false); }
      batch := batch.(dir := Async, left := batch.writes);
      async := async.(lastCheck := now);
    }

    method Switch(now: int, ghost s: State) returns (went: bool)
      requires About(s, View()) && Queued(View()) && !batch.changed
      modifies this
      ensures (View(), went) == Switched(old(View()), tunables, now)
      ensures Valid() && Outcome(s, (View(), went))
    {
      if Reads(View()) && !(Writes(View()) && batch.dir == Sync) {
        var o := Oldest(View(), Sync);
        OldestIsQueued(View(), Sync);
        BeginReads(now);
        went := Serve(o, now, s);
      } else {
        var o := Oldest(View(), Async);
        OldestIsQueued(View(), Async);
        BeginWrites(now);
        went := Serve(o, now, s);
      }
    }

    /** With no writes queued, reads may go on. */
    method Extend(now: int)
      modifies this`batch
      ensures View() == (if Reads(old(View())) && !Writes(old(View())) then Extended(old(View()), tunables, now) else old(View()))
    {
      if Reads(View()) && !Writes(View()) { batch := batch.(expires := now + tunables.syncBatch); }
    }

    method GoOn(o: Option<Rq>, now: int, ghost s: State) returns (went: bool)
      requires About(s, View()) && Queued(View()) && !batch.changed && o == SideOf(View(), batch.dir).next
      modifies this
      ensures (View(), went) == WentOn(old(View()), tunables, o, now)
      ensures Valid() && Outcome(s, (View(), went))
    {
      if o.None? {
        went := Switch(now, s);
      } else {
        Extend(now);
        went := Serve(o, now, s);
      }
    }

    method GoOnReading(now: int, hunch: bool, ghost s: State) returns (went: bool)
      requires Valid() && s == View() && Queued(s) && !Waiting(s) && !batch.changed && batch.dir == Sync
      modifies this
      ensures (View(), went) == ReadsWentOn(s, tunables, now, hunch)
      ensures Valid()
    {
      ReadsWentOnTells(s, tunables, now, hunch);
      var o := sync.next;
      var expired := LookAtFifo(Sync, now);
      if expired {
        OldestIsQueued(View(), Sync);
        went := Issue(Oldest(View(), Sync), now, s);
        return;
      }
      if CanAnticipate(View(), tunables, o, now, hunch) {
        AnticWaitReq();
        return false;
      }
      went := GoOn(o, now, s);
    }

    /** One queued request goes to the driver, or the scheduler waits for something that will come. */
    method DispatchRequest(now: int, hunch: bool) returns (went: bool)
      requires Valid()
      modifies this
      ensures (View(), went) == Dispatched(old(View()), tunables, now, hunch)
      ensures Valid() && Outcome(old(View()), (View(), went))
      ensures !went && Queued(View()) ==> WakeupDue(View())
    {
      ghost var s := View();
      DispatchTells(s, tunables, now, hunch);
      DeclinedIsDue(s, tunables, now, hunch);
      if !Queued(View()) || Waiting(View()) || batch.changed { return false; }
      if Reads(View()) && Writes(View()) && BatchExpired(View(), now) {
        went := Switch(now, s);
        return;
      }
      if batch.dir == Sync && tunables.anticExpire != 0 {
        went := GoOnReading(now, hunch, s);
      } else {
        went := GoOn(SideOf(View(), batch.dir).next, now, s);
      }
    }

    /** Every request of a direction, one after the other. */
    method Empty(d: Dir)
      requires Valid()
      modifies this
      ensures View() == Emptied(old(View()), d, |SideOf(old(View()), d).tree|) && Valid()
      ensures SideOf(View(), d).tree == [] && SideOf(View(), Other(d)) == SideOf(old(View()), Other(d))
    {
      ghost var s0, n := View(), |SideOf(View(), d).tree|;
      EmptiedKeeps(s0, d, n);
      while SideOf(View(), d).next.Some?
        invariant Valid() && Emptied(View(), d, |SideOf(View(), d).tree|) == Emptied(s0, d, n)
        decreases |SideOf(View(), d).tree|
      {
        MoveNext(d);
      }
    }

    method MoveNext(d: Dir)
      requires Valid() && SideOf(View(), d).next.Some?
      modifies this
      ensures Valid() && |SideOf(View(), d).tree| == |SideOf(old(View()), d).tree| - 1
      ensures Emptied(View(), d, |SideOf(View(), d).tree|) == Emptied(old(View()), d, |SideOf(old(View()), d).tree|)
    {
      NextMoved(View(), d);
      EmptiedIs(View(), d, |SideOf(View(), d).tree|);
      MoveToDispatch(d, SideOf(View(), d).next.value);
    }

    method ResetBatch()
      requires Valid()
      modifies this
      ensures Valid() && View() == Reset(old(View()))
    {
      batch := batch.(dir := Sync, changed := false, newBatch := false);
    }

    /** Every queued request goes to the driver. */
    method ForcedDispatch(now: int)
      requires Valid()
      modifies this
      ensures Valid() && View() == Drained(old(View()), now) && !Queued(View())
      ensures Given(out) == old(Given(out) + Elems(sync.tree) + Elems(async.tree))
      ensures |out| == old(|out| + |sync.tree| + |async.tree|)
    {
      DrainedKeeps(View(), now);
      ResetBatch();
      Empty(Sync);
      ResetKeeps(View(), Sync, now);
      SetSide(Sync, SideOf(View(), Sync).(lastCheck := now));
      Empty(Async);
      SetSide(Async, SideOf(View(), Async).(lastCheck := now));
    }

    /** The timer's function, also when it comes late: whoever waited is woken. */
    method AnticTimeout(mine: bool)
      requires Valid() && (mine ==> wait.timer)
      modifies this
      ensures Valid() && View() == TimedOut(old(View()), mine)
      ensures !Waiting(View()) && (old(WakeupDue(View())) ==> WakeupDue(View())) && (old(Waiting(View())) ==> work)
    {
      TimedOutKeeps(View(), mine);
      if mine { wait := wait.(timer := false); }
      if wait.antic == WaitReq || wait.antic == WaitNext {
        wait := wait.(antic := Finished);
        work := true;
      }
    }
  }
}
