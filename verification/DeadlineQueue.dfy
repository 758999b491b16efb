// The deadline scheduler as an object: `deadline_data`, its fields updated in place.
// Each method is proved to be the scheduler function of the same name.
module DeadlineQueues {
  import opened Common
  import opened Deadline
  import opened DeadlineInvariant
  import opened DeadlineRuns

  /** Find the request at a sector by going through the tree. */
  method Find(tree: map<nat, Rq>, sector: nat, ghost write: bool) returns (r: Option<nat>)
    requires TreeOk(tree, write)
    ensures r == At(tree, sector)
  {
    var left := tree.Keys;
    r := None;
    while left != {}
      invariant left <= tree.Keys
      invariant r.None? ==> forall x :: x in tree.Keys - left ==> tree[x].sector != sector
      invariant r.Some? ==> r.value in tree && tree[r.value].sector == sector
      decreases |left|
    {
      var x :| x in left;
      left := left - {x};
      if tree[x].sector == sector { r := Some(x); }
    }
    assert tree.Keys - left == tree.Keys;
  }

  /** Find the request after a sector by going through the tree. */
  method FindLatter(tree: map<nat, Rq>, from: nat, ghost write: bool) returns (r: Option<nat>)
    requires TreeOk(tree, write)
    ensures r == Latter(tree, from)
  {
    var left := tree.Keys;
    r := None;
    while left != {}
      invariant left <= tree.Keys
      invariant r.None? ==> forall x :: x in tree.Keys - left ==> tree[x].sector <= from
      invariant r.Some? ==>
                  && r.value in tree.Keys - left && tree[r.value].sector > from
                  && forall x :: x in tree.Keys - left && from < tree[x].sector ==> tree[r.value].sector <= tree[x].sector
      decreases |left|
    {
      var x :| x in left;
      left := left - {x};
      if tree[x].sector > from && (r.None? || tree[x].sector < tree[r.value].sector) { r := Some(x); }
    }
    assert tree.Keys - left == tree.Keys;
    assert r.Some? ==> IsAfter(tree, from, r.value);
  }

  lemma VacantAfter(s: Side, write: bool, r: Rq)
    requires TreeOk(s.tree, write) && r.id in s.tree && s.tree[r.id] == r
    ensures TreeOk(Moved(s, r).tree, write) && At(Moved(s, r).tree, r.sector) == None
  {
  }

  predicate NextQueued(s: Side) { s.next.Some? ==> s.next.value in s.tree }

  class DeadlineData {
    var rd: Side
    var wr: Side
    var batching: nat
    var lastSector: nat
    var starved: nat
    var out: seq<Out>
    const tunables: Tunables

    ghost function View(): Sched
      reads this
    {
      Sched(rd, wr, batching, lastSector, starved, out)
    }

    /** What every run keeps; `now` is the time of the last operation. */
    ghost predicate Valid(now: nat)
      reads this
    {
      Inv(tunables, View(), now)
    }

    constructor (t: Tunables)
      ensures View() == Init() && tunables == t && forall now :: Valid(now)
    {
      rd, wr := Side(map[], [], None), Side(map[], [], None);
      batching, lastSector, starved, out := 0, 0, 0, [];
      tunables := t;
    }

    function Lane(write: bool): Side
      reads this
    {
      if write then wr else rd
    }

    method SetSide(write: bool, s: Side)
      modifies this
      ensures View() == WithSide(old(View()), write, s)
    {
      if write { wr := s; } else { rd := s; }
    }

    /** Move a queued request to the dispatch queue: it is no longer queued, and the other requests are. */
    method MoveRequest(r: Rq, ghost now: nat)
      requires Valid(now) && Queued(View(), r)
      modifies this
      ensures Valid(now) && View() == Send(old(View()), r.write, r.id)
      ensures Lane(r.write).tree == old(Lane(r.write).tree) - {r.id} && Lane(!r.write).tree == old(Lane(!r.write).tree)
      ensures out == old(out) + [Out(r, false)]
    {
      SendOk(tunables, View(), now, r.write, r.id);
      SendOff(r, false);
    }

    method SendOff(r: Rq, alias: bool)
      requires Queued(View(), r) && TreeOk(Lane(r.write).tree, r.write)
      modifies this
      ensures View() == Put(old(View()), r.write, Moved(SideOf(old(View()), r.write), r), Some(r), alias)
    {
      var s := Lane(r.write);
      var next := FindLatter(s.tree, r.sector, r.write);
      if r.write { rd := rd.(next := None); } else { wr := wr.(next := None); }
      lastSector := r.sector + r.len;
      SetSide(r.write, Side(s.tree - {r.id}, Without(s.fifo, r.id), next));
      out := out + [Out(r, alias)];
    }

    /** Retry until no request is at the sector: one move is enough, since sectors are distinct. */
    method MakeWay(write: bool, sector: nat)
      requires TreeOk(Lane(write).tree, write)
      modifies this
      ensures var (s, a) := MadeWay(SideOf(old(View()), write), sector);
              View() == Put(old(View()), write, s, a, true)
    {
      var alias := Find(Lane(write).tree, sector, write);
      while alias.Some?
        invariant TreeOk(Lane(write).tree, write) && alias == At(Lane(write).tree, sector)
        invariant alias.Some? ==> View() == old(View())
        invariant alias.None? ==>
                    var (s, a) := MadeWay(SideOf(old(View()), write), sector);
                    View() == Put(old(View()), write, s, a, true)
        decreases if alias.Some? then 1 else 0
      {
        ghost var s := Lane(write);
        VacantAfter(s, write, s.tree[alias.value]);
        SendOff(Lane(write).tree[alias.value], true);
        alias := Find(Lane(write).tree, sector, write);
      }
    }

    /** Into the tree. */
    method AddRqRb(r: Rq)
      requires TreeOk(Lane(r.write).tree, r.write)
      modifies this
      ensures var (s, a) := MadeWay(SideOf(old(View()), r.write), r.sector);
              View() == Put(old(View()), r.write, Entered(s, r), a, true)
    {
      MakeWay(r.write, r.sector);
      SetSide(r.write, Entered(Lane(r.write), r));
    }

    method EnterRequest(r: Rq, now: nat)
      requires TreeOk(Lane(r.write).tree, r.write)
      modifies this
      ensures View() == Deadline.AddRequest(tunables, old(View()), r, now)
    {
      AddRqRb(r);
      var s := Lane(r.write);
      var expire := now + if r.write then tunables.writeExpire else tunables.readExpire;
      SetSide(r.write, s.(fifo := s.fifo + [Slot(r.id, expire)]));
    }

    method AddRequest(r: Rq, now: nat)
      requires Valid(now) && IsNew(View(), r.id)
      modifies this
      ensures Valid(now) && View() == Deadline.AddRequest(tunables, old(View()), r, now)
    {
      AddInv(tunables, View(), r, now);
      EnterRequest(r, now);
    }

    method Reposition(r: Rq, sector: nat)
      requires TreeOk(Lane(r.write).tree, r.write) && sector <= r.sector
      modifies this
      ensures View() == FrontMerged(old(View()), r, sector)
    {
      SetSide(r.write, Lane(r.write).(tree := Lane(r.write).tree - {r.id}));
      AddRqRb(FrontGrown(r, sector));
    }

    method FrontMergedRequest(r: Rq, sector: nat, ghost now: nat)
      requires Valid(now) && Queued(View(), r) && sector <= r.sector
      modifies this
      ensures Valid(now) && View() == FrontMerged(old(View()), r, sector)
    {
      FrontInv(tunables, View(), now, r, sector);
      Reposition(r, sector);
    }

    /** Pick a request of the batch in progress, or to start a new one: none only if none is queued. */
    method Pick(now: nat) returns (p: Option<(bool, nat)>)
      requires Valid(now)
      modifies this`batching, this`starved
      ensures Valid(now) && (p.Some? ==> p.value.1 in Lane(p.value.0).tree)
      ensures p.None? <==> rd.tree == map[] && wr.tree == map[]
      ensures var (q, n, st) := Picked(tunables, old(View()), now);
              p == q && View() == old(View()).(batching := n, starved := st)
    {
      PickedIsQueued(tunables, View(), now);
      p := Choose(now);
    }

    method Choose(now: nat) returns (p: Option<(bool, nat)>)
      requires NextQueued(rd) && NextQueued(wr)
      modifies this`batching, this`starved
      ensures var (q, n, st) := Picked(tunables, old(View()), now);
              p == q && View() == old(View()).(batching := n, starved := st)
    {
      var dir: Option<bool> := if wr.next.Some? then Some(true) else if rd.next.Some? then Some(false) else None;
      if dir.Some? {
        var s := Lane(dir.value);
        if lastSector != s.tree[s.next.value].sector { batching := batching + tunables.fifoBatch; }
        if batching < tunables.fifoBatch {
          batching := batching + 1;
          return Some((dir.value, s.next.value));
        }
      }
      dir := NewBatch();
      if dir.None? { return None; }
      batching := 1;
      var s := Lane(dir.value);
      if now > s.fifo[0].expire || s.next.None? {
        p := Some((dir.value, s.fifo[0].id));
      } else {
        p := Some((dir.value, s.next.value));
      }
    }

    /** Which way a new batch goes. */
    method NewBatch() returns (dir: Option<bool>)
      modifies this`starved
      ensures (dir, starved) == Direction(tunables, old(View())) && (dir.Some? ==> Lane(dir.value).fifo != [])
    {
      if rd.fifo != [] {
        if wr.fifo != [] {
          if starved >= tunables.writesStarved {
            starved := 0;
            return Some(true);
          }
          starved := starved + 1;
        }
        return Some(false);
      }
      if wr.fifo != [] {
        starved := 0;
        return Some(true);
      }
      return None;
    }

    method Dispatch(now: nat) returns (any: bool)
      requires Valid(now)
      modifies this
      ensures (View(), any) == DispatchRequests(tunables, old(View()), now)
      ensures Valid(now)
    {
      DispatchTells(tunables, View(), now);
      PickedIsQueued(tunables, View(), now);
      var p := Pick(now);
      any := p.Some?;
      if any { MoveRequest(Lane(p.value.0).tree[p.value.1], now); }
    }

    /** Forced draining: dispatch until there is nothing left; every pending request is sent. */
    method Drain(now: nat)
      requires Valid(now)
      modifies this
      ensures Valid(now) && rd.tree == map[] && wr.tree == map[] && rd.fifo == [] && wr.fifo == []
      ensures |out| == |old(out)| + Pending(old(View()))
    {
      var any := true;
      while any
        invariant Valid(now)
        invariant |out| + Pending(View()) == |old(out)| + Pending(old(View()))
        invariant !any ==> Pending(View()) == 0
        decreases any, Pending(View())
      {
        any := DispatchOne(now);
      }
      QueuedIffFifo(rd, false, now + tunables.readExpire);
      QueuedIffFifo(wr, true, now + tunables.writeExpire);
    }

    method DispatchOne(now: nat) returns (any: bool)
      requires Valid(now)
      modifies this
      ensures Valid(now)
      ensures any == (Pending(old(View())) > 0)
      ensures Pending(View()) == if any then Pending(old(View())) - 1 else 0
      ensures |out| == |old(out)| + if any then 1 else 0
    {
      DispatchTells(tunables, View(), now);
      if Pending(View()) > 0 { DispatchShrinks(tunables, View(), now); }
      PickedIsQueued(tunables, View(), now);
      any := Dispatch(now);
    }
  }
}
