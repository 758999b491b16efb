/** Whole runs of the deadline scheduler: nothing is lost, draining works, writes are not starved. */
module DeadlineRuns {
  import opened Common
  import opened Deadline
  import opened DeadlineInvariant

  datatype Step =
    | Add(r: Rq, now: nat)
    | Front(r: Rq, sector: nat)
    | Back(r: Rq, more: nat)
    | Merge(r: Rq, next: Rq, gap: nat)
    | Dispatch(now: nat)

  /** A scheduler with the time of its last timed operation, and all ids ever added or merged away. */
  datatype World = World(d: Sched, now: nat, added: set<nat>, merged: set<nat>)

  predicate Enabled(w: World, s: Step) {
    match s
    case Add(r, now) => r.id !in w.added && w.now <= now
    case Front(r, sector) => Queued(w.d, r) && sector <= r.sector
    case Back(r, _) => Queued(w.d, r)
    case Merge(r, next, gap) =>
      Queued(w.d, r) && Queued(w.d, next) && r.write == next.write && r.sector + r.len + gap == next.sector
      && r.id != next.id
    case Dispatch(now) => w.now <= now
  }

  ghost function Apply(t: Tunables, w: World, s: Step): World
    requires s.Front? ==> s.sector <= s.r.sector
  {
    match s
    case Add(r, now) => w.(d := AddRequest(t, w.d, r, now), now := now, added := w.added + {r.id})
    case Front(r, sector) => w.(d := FrontMerged(w.d, r, sector))
    case Back(r, more) => w.(d := BackMerged(w.d, r, more))
    case Merge(r, next, gap) => w.(d := MergedRequests(w.d, r, next, gap), merged := w.merged + {next.id})
    case Dispatch(now) => w.(d := DispatchRequests(t, w.d, now).0, now := now)
  }

  ghost predicate Valid(t: Tunables, w: World, run: seq<Step>)
    decreases |run|
  {
    run == [] || (Enabled(w, run[0]) && Valid(t, Apply(t, w, run[0]), run[1..]))
  }

  ghost function Run(t: Tunables, w: World, run: seq<Step>): World
    requires Valid(t, w, run)
    decreases |run|
  {
    if run == [] then w else Run(t, Apply(t, w, run[0]), run[1..])
  }

  const START := World(Init(), 0, {}, {})

  // ----------------------------------------------------------- conservation

  function Sent(out: seq<Out>): set<nat> {
    if out == [] then {} else Sent(out[..|out| - 1]) + {out[|out| - 1].rq.id}
  }

  predicate SentOnce(out: seq<Out>) {
    out == [] || (out[|out| - 1].rq.id !in Sent(out[..|out| - 1]) && SentOnce(out[..|out| - 1]))
  }

  /** Every request added is queued, sent or merged into another, in one way only. */
  predicate Balanced(w: World) {
    var queued := w.d.rd.tree.Keys + w.d.wr.tree.Keys;
    && SentOnce(w.d.out)
    && queued !! Sent(w.d.out) !! w.merged
    && queued + Sent(w.d.out) + w.merged == w.added
  }

  lemma SentMore(out: seq<Out>, o: Out)
    ensures Sent(out + [o]) == Sent(out) + {o.rq.id}
    ensures SentOnce(out + [o]) <==> SentOnce(out) && o.rq.id !in Sent(out)
  {
    assert (out + [o])[..|out|] == out;
  }

  /** A side was put back with one request sent off and some come in. */
  lemma PutBalances(w: World, write: bool, s: Side, moved: Option<Rq>, alias: bool, entering: set<nat>)
    requires Balanced(w) && entering !! w.added && w.d.rd.tree.Keys !! w.d.wr.tree.Keys
    requires moved.Some? ==> moved.value.id in SideOf(w.d, write).tree
    requires s.tree.Keys == SideOf(w.d, write).tree.Keys - (if moved.Some? then {moved.value.id} else {}) + entering
    ensures Balanced(w.(d := Put(w.d, write, s, moved, alias), added := w.added + entering))
  {
    var d' := Put(w.d, write, s, moved, alias);
    if moved.Some? { SentMore(w.d.out, Out(moved.value, alias)); }
    assert SideOf(d', write).tree == s.tree && SideOf(d', !write).tree == SideOf(w.d, !write).tree;
  }

  // --------------------------------------------------------------- dispatch

  lemma QueuedIffFifo(s: Side, write: bool, limit: nat)
    requires SideOk(s, write, limit)
    ensures s.fifo == [] <==> s.tree == map[]
    ensures s.fifo != [] ==> s.fifo[0].id in s.tree
  {
    if s.tree == map[] {
      assert Ids(s.fifo) == {};
    } else {
      var x :| x in s.tree.Keys;
      assert x in Ids(s.fifo);
    }
  }

  /** What a dispatch picks: a request of the side it is on. */
  lemma SendOk(t: Tunables, d: Sched, now: nat, write: bool, id: nat)
    requires Inv(t, d, now) && id in SideOf(d, write).tree
    ensures Inv(t, Send(d, write, id), now)
    ensures Send(d, write, id).out == d.out + [Out(SideOf(d, write).tree[id], false)]
  {
    var s := SideOf(d, write);
    MovedOk(s, write, Limit(t, now, write), s.tree[id]);
    PutOk(t, d, now, write, Moved(s, s.tree[id]), Some(s.tree[id]), false);
  }

  /** The request a dispatch picks, if any, and the counters it leaves. */
  function Picked(t: Tunables, d: Sched, now: nat): (Option<(bool, nat)>, nat, nat) {
    var b, n := BatchDir(d), Batched(t, d);
    if b.Some? && n < t.fifoBatch then (Some((b.value, SideOf(d, b.value).next.value)), n + 1, d.starved)
    else
      var (dir, starved) := Direction(t, d);
      if dir.Some? then (Some((dir.value, FirstOf(SideOf(d, dir.value), now))), 1, starved)
      else (None, n, d.starved)
  }

  lemma DispatchIs(t: Tunables, d: Sched, now: nat)
    ensures var (p, n, starved) := Picked(t, d, now);
            DispatchRequests(t, d, now)
            == if p.Some? then (Send(d.(batching := n, starved := starved), p.value.0, p.value.1), true)
               else (d.(batching := n), false)
  {
  }

  lemma PickedIsQueued(t: Tunables, d: Sched, now: nat)
    requires Inv(t, d, now)
    ensures var (p, n, starved) := Picked(t, d, now);
            && (p.Some? ==> p.value.1 in SideOf(d, p.value.0).tree)
            && (p.None? <==> d.rd.tree == map[] && d.wr.tree == map[])
            && DispatchRequests(t, d, now)
               == if p.Some? then (Send(d.(batching := n, starved := starved), p.value.0, p.value.1), true)
                  else (d.(batching := n), false)
  {
    DispatchIs(t, d, now);
    QueuedIffFifo(d.rd, false, now + t.readExpire);
    QueuedIffFifo(d.wr, true, now + t.writeExpire);
  }

  /** Dispatch sends exactly one queued request, unless nothing is queued. */
  lemma DispatchTells(t: Tunables, d: Sched, now: nat)
    requires Inv(t, d, now)
    ensures var (d', any) := DispatchRequests(t, d, now);
            && Inv(t, d', now)
            && (any <==> d.rd.tree != map[] || d.wr.tree != map[])
            && (any ==> exists r :: Queued(d, r) && d'.out == d.out + [Out(r, false)])
            && (!any ==> d'.out == d.out)
  {
    PickedIsQueued(t, d, now);
    var (p, n, starved) := Picked(t, d, now);
    if p.Some? {
      var d1 := d.(batching := n, starved := starved);
      SendOk(t, d1, now, p.value.0, p.value.1);
      assert Queued(d, SideOf(d, p.value.0).tree[p.value.1]);
    }
  }

  // ------------------------------------------------------------------ steps

  lemma SendBalances(t: Tunables, w: World, now: nat, write: bool, id: nat)
    requires Inv(t, w.d, now) && Balanced(w) && id in SideOf(w.d, write).tree
    ensures Balanced(w.(d := Send(w.d, write, id)))
  {
    assert SideOf(w.d, write).tree[id].id == id;
    SentBalances(w, write, id);
  }

  lemma SentBalances(w: World, write: bool, id: nat)
    requires Balanced(w) && w.d.rd.tree.Keys !! w.d.wr.tree.Keys
    requires id in SideOf(w.d, write).tree && SideOf(w.d, write).tree[id].id == id
    ensures Balanced(w.(d := Send(w.d, write, id)))
  {
    var s := SideOf(w.d, write);
    assert Moved(s, s.tree[id]).tree.Keys == s.tree.Keys - {id};
    PutBalances(w, write, Moved(s, s.tree[id]), Some(s.tree[id]), false, {});
    assert w.added + {} == w.added;
  }

  lemma DispatchBalances(t: Tunables, w: World, now: nat)
    requires Inv(t, w.d, now) && Balanced(w)
    ensures Balanced(w.(d := DispatchRequests(t, w.d, now).0))
  {
    PickedIsQueued(t, w.d, now);
    var (p, n, starved) := Picked(t, w.d, now);
    if p.Some? { SendBalances(t, w.(d := w.d.(batching := n, starved := starved)), now, p.value.0, p.value.1); }
  }

  lemma AddInv(t: Tunables, d: Sched, r: Rq, now: nat)
    requires Inv(t, d, now) && IsNew(d, r.id)
    ensures Inv(t, AddRequest(t, d, r, now), now)
  {
    var s, limit := SideOf(d, r.write), Limit(t, now, r.write);
    AddedOk(s, r.write, limit, r);
    var (s', a) := AddedTo(s, r, limit);
    PutOk(t, d, now, r.write, s', a, true);
    AddIs(t, d, r, now);
  }

  lemma AddIs(t: Tunables, d: Sched, r: Rq, now: nat)
    ensures var (s', a) := AddedTo(SideOf(d, r.write), r, Limit(t, now, r.write));
            AddRequest(t, d, r, now) == Put(d, r.write, s', a, true)
  {
  }

  lemma AddKeeps(t: Tunables, w: World, r: Rq, now: nat)
    requires Inv(t, w.d, now) && Balanced(w) && r.id !in w.added
    ensures Inv(t, AddRequest(t, w.d, r, now), now)
    ensures Balanced(w.(d := AddRequest(t, w.d, r, now), added := w.added + {r.id}))
  {
    AddInv(t, w.d, r, now);
    AddBalanced(t, w, r, now);
  }

  lemma AddBalanced(t: Tunables, w: World, r: Rq, now: nat)
    requires Inv(t, w.d, now) && Balanced(w) && r.id !in w.added
    ensures Balanced(w.(d := AddRequest(t, w.d, r, now), added := w.added + {r.id}))
  {
    var s, limit := SideOf(w.d, r.write), Limit(t, now, r.write);
    AddedOk(s, r.write, limit, r);
    var (s', a) := AddedTo(s, r, limit);
    AddIs(t, w.d, r, now);
    AddBalances(w, r, s', a);
  }

  lemma AddBalances(w: World, r: Rq, s: Side, a: Option<Rq>)
    requires Balanced(w) && r.id !in w.added && w.d.rd.tree.Keys !! w.d.wr.tree.Keys
    requires a.Some? ==> a.value.id in SideOf(w.d, r.write).tree
    requires s.tree.Keys == SideOf(w.d, r.write).tree.Keys - (if a.Some? then {a.value.id} else {}) + {r.id}
    ensures Balanced(w.(d := Put(w.d, r.write, s, a, true), added := w.added + {r.id}))
  {
    PutBalances(w, r.write, s, a, true, {r.id});
  }

  lemma FrontInv(t: Tunables, d: Sched, now: nat, r: Rq, sector: nat)
    requires Inv(t, d, now) && Queued(d, r) && sector <= r.sector
    ensures Inv(t, FrontMerged(d, r, sector), now)
  {
    var s := SideOf(d, r.write);
    FrontOk(s, r.write, Limit(t, now, r.write), r, sector);
    var (s', a) := FrontMergedIn(s, r, sector);
    PutOk(t, d, now, r.write, s', a, true);
  }

  lemma FrontKeeps(t: Tunables, w: World, r: Rq, sector: nat)
    requires Inv(t, w.d, w.now) && Balanced(w) && Queued(w.d, r) && sector <= r.sector
    ensures Inv(t, FrontMerged(w.d, r, sector), w.now)
    ensures Balanced(w.(d := FrontMerged(w.d, r, sector)))
  {
    FrontInv(t, w.d, w.now, r, sector);
    FrontKeys(t, w.d, w.now, r, sector);
    var (s', a) := FrontMergedIn(SideOf(w.d, r.write), r, sector);
    KeepsBalance(w, r.write, s', a);
  }

  lemma FrontKeys(t: Tunables, d: Sched, now: nat, r: Rq, sector: nat)
    requires Inv(t, d, now) && Queued(d, r) && sector <= r.sector
    ensures var s := SideOf(d, r.write); var (s', a) := FrontMergedIn(s, r, sector);
            && s'.tree.Keys == s.tree.Keys - (if a.Some? then {a.value.id} else {})
            && (a.Some? ==> a.value.id in s.tree)
  {
    FrontOk(SideOf(d, r.write), r.write, Limit(t, now, r.write), r, sector);
  }

  /** Nothing enters; what is moved out is sent. */
  lemma KeepsBalance(w: World, write: bool, s: Side, moved: Option<Rq>)
    requires Balanced(w) && w.d.rd.tree.Keys !! w.d.wr.tree.Keys
    requires moved.Some? ==> moved.value.id in SideOf(w.d, write).tree
    requires s.tree.Keys == SideOf(w.d, write).tree.Keys - (if moved.Some? then {moved.value.id} else {})
    ensures Balanced(w.(d := Put(w.d, write, s, moved, true)))
  {
    PutBalances(w, write, s, moved, true, {});
    assert w.added + {} == w.added;
  }

  lemma BackKeeps(t: Tunables, w: World, r: Rq, more: nat)
    requires Inv(t, w.d, w.now) && Balanced(w) && Queued(w.d, r)
    ensures Inv(t, BackMerged(w.d, r, more), w.now) && Balanced(w.(d := BackMerged(w.d, r, more)))
  {
    BackInv(t, w.d, w.now, r, more);
    KeepsBalance(w, r.write, BackMergedIn(SideOf(w.d, r.write), r, more), None);
  }

  lemma BackInv(t: Tunables, d: Sched, now: nat, r: Rq, more: nat)
    requires Inv(t, d, now) && Queued(d, r)
    ensures Inv(t, BackMerged(d, r, more), now)
    ensures BackMergedIn(SideOf(d, r.write), r, more).tree.Keys == SideOf(d, r.write).tree.Keys
  {
    var s := SideOf(d, r.write);
    BackOk(s, r.write, Limit(t, now, r.write), r, more);
    PutOk(t, d, now, r.write, BackMergedIn(s, r, more), None, true);
  }

  lemma MergeKeeps(t: Tunables, w: World, r: Rq, next: Rq, gap: nat)
    requires Inv(t, w.d, w.now) && Balanced(w) && Enabled(w, Merge(r, next, gap))
    ensures var w' := Apply(t, w, Merge(r, next, gap)); Inv(t, w'.d, w.now) && Balanced(w')
  {
    var s := SideOf(w.d, r.write);
    MergedOk(s, r.write, Limit(t, w.now, r.write), r, next, gap);
    var s' := MergedIn(s, r, next, gap);
    PutOk(t, w.d, w.now, r.write, s', None, true);
    MergeBalances(w, r.write, s', next.id);
  }

  lemma MergeBalances(w: World, write: bool, s: Side, id: nat)
    requires Balanced(w) && w.d.rd.tree.Keys !! w.d.wr.tree.Keys && id in SideOf(w.d, write).tree
    requires s.tree.Keys == SideOf(w.d, write).tree.Keys - {id}
    ensures Balanced(w.(d := Put(w.d, write, s, None, true), merged := w.merged + {id}))
  {
    var d' := Put(w.d, write, s, None, true);
    assert d'.rd.tree.Keys + d'.wr.tree.Keys == w.d.rd.tree.Keys + w.d.wr.tree.Keys - {id};
  }

  ghost predicate Good(t: Tunables, w: World) {
    Inv(t, w.d, w.now) && Balanced(w)
  }

  lemma StepKeeps(t: Tunables, w: World, s: Step)
    requires Good(t, w) && Enabled(w, s)
    ensures Good(t, Apply(t, w, s))
  {
    match s
    case Add(r, now) => LaterOk(t, w.d, w.now, now); AddKeeps(t, w, r, now);
    case Front(r, sector) => FrontKeeps(t, w, r, sector);
    case Back(r, more) => BackKeeps(t, w, r, more);
    case Merge(r, next, gap) => MergeKeeps(t, w, r, next, gap);
    case Dispatch(now) =>
      LaterOk(t, w.d, w.now, now);
      DispatchTells(t, w.d, now);
      DispatchBalances(t, w, now);
  }

  lemma {:induction false} RunKeeps(t: Tunables, w: World, run: seq<Step>)
    requires Good(t, w) && Valid(t, w, run)
    ensures Good(t, Run(t, w, run))
    decreases |run|
  {
    if run != [] {
      StepKeeps(t, w, run[0]);
      RunKeeps(t, Apply(t, w, run[0]), run[1..]);
    }
  }

  /** In every run tree and fifo agree, the batch's next request is queued, and no request is lost or doubled. */
  lemma RunsAreGood(t: Tunables, run: seq<Step>)
    requires Valid(t, START, run)
    ensures Good(t, Run(t, START, run))
  {
    assert Good(t, START) by {
      assert START.d.rd.tree.Keys == {} && START.d.wr.tree.Keys == {};
    }
    RunKeeps(t, START, run);
  }

  // --------------------------------------------------------------- draining

  function Pending(d: Sched): nat {
    |d.rd.tree| + |d.wr.tree|
  }

  lemma SendShrinks(d: Sched, write: bool, id: nat)
    requires id in SideOf(d, write).tree && SideOf(d, write).tree[id].id == id
    ensures Pending(Send(d, write, id)) == Pending(d) - 1
  {
    var tree := SideOf(d, write).tree;
    assert (tree - {id}).Keys == tree.Keys - {id};
    assert |tree - {id}| == |tree| - 1;
  }

  lemma DispatchShrinks(t: Tunables, d: Sched, now: nat)
    requires Inv(t, d, now) && Pending(d) > 0
    ensures DispatchRequests(t, d, now).1
    ensures Pending(DispatchRequests(t, d, now).0) == Pending(d) - 1
  {
    PickedIsQueued(t, d, now);
    var (p, n, starved) := Picked(t, d, now);
    SendShrinks(d.(batching := n, starved := starved), p.value.0, p.value.1);
  }

  /** The scheduler after `n` dispatches. */
  ghost function Dispatched(t: Tunables, d: Sched, now: nat, n: nat): Sched
    decreases n
  {
    if n == 0 then d else Dispatched(t, DispatchRequests(t, d, now).0, now, n - 1)
  }

  /**
    Dispatching until dispatch says there is nothing left empties trees and fifos, and
    sends each queued request: as many dispatches as requests, and then one that finds none.
   */
  lemma DrainingEmpties(t: Tunables, d: Sched, now: nat)
    requires Inv(t, d, now)
    ensures var d' := Dispatched(t, d, now, Pending(d));
            && Inv(t, d', now) && Pending(d') == 0 && d'.rd.fifo == [] && d'.wr.fifo == []
            && |d'.out| == |d.out| + Pending(d)
            && !DispatchRequests(t, d', now).1
  {
    var d' := Dispatched(t, d, now, Pending(d));
    Drains(t, d, now);
    DispatchTells(t, d', now);
    QueuedIffFifo(d'.rd, false, now + t.readExpire);
    QueuedIffFifo(d'.wr, true, now + t.writeExpire);
  }

  lemma DispatchOnce(t: Tunables, d: Sched, now: nat)
    requires Inv(t, d, now) && Pending(d) > 0
    ensures var d1 := DispatchRequests(t, d, now).0;
            Inv(t, d1, now) && Pending(d1) == Pending(d) - 1 && |d1.out| == |d.out| + 1
  {
    DispatchTells(t, d, now);
    DispatchShrinks(t, d, now);
  }

  /** The scheduler is left in `d'` when it is drained. */
  ghost predicate DrainsTo(t: Tunables, d: Sched, now: nat, d': Sched) {
    Inv(t, d', now) && Pending(d') == 0 && |d'.out| == |d.out| + Pending(d)
  }

  lemma DrainsOn(t: Tunables, d: Sched, now: nat, d': Sched)
    requires Inv(t, d, now) && Pending(d) > 0 && DrainsTo(t, DispatchRequests(t, d, now).0, now, d')
    ensures DrainsTo(t, d, now, d')
  {
    DispatchOnce(t, d, now);
  }

  lemma {:induction false} Drains(t: Tunables, d: Sched, now: nat)
    requires Inv(t, d, now)
    ensures DrainsTo(t, d, now, Dispatched(t, d, now, Pending(d)))
    decreases Pending(d)
  {
    if Pending(d) > 0 {
      var d1 := DispatchRequests(t, d, now).0;
      assert Inv(t, d1, now) && Pending(d1) == Pending(d) - 1 by { DispatchOnce(t, d, now); }
      Drains(t, d1, now);
      DrainsOn(t, d, now, Dispatched(t, d1, now, Pending(d1)));
      assert Dispatched(t, d, now, Pending(d)) == Dispatched(t, d1, now, Pending(d1));
    }
  }

  // ------------------------------------------------------------- starvation

  /** What a batch may still send, and the batches reads may still start, before a write must go. */
  function Allowance(t: Tunables, d: Sched): nat {
    var left := if d.batching < t.fifoBatch then t.fifoBatch - d.batching else 0;
    var batches := if d.starved < t.writesStarved then t.writesStarved - d.starved else 0;
    left + batches * Max1(t.fifoBatch)
  }

  function Max1(n: nat): nat {
    if n == 0 then 1 else n
  }

  lemma AllowanceBound(t: Tunables, d: Sched)
    ensures Allowance(t, d) <= (t.writesStarved + 1) * Max1(t.fifoBatch)
  {
    var batches := if d.starved < t.writesStarved then t.writesStarved - d.starved else 0;
    MulMono(batches, t.writesStarved, Max1(t.fifoBatch));
  }

  lemma MulMono(a: nat, b: nat, c: nat)
    requires a <= b
    ensures a * c <= b * c
  {
  }

  /** With a write pending, a dispatch that sends a read uses up some of the allowance. */
  lemma PickCosts(t: Tunables, d: Sched, now: nat)
    requires d.wr.fifo != []
    requires var (p, _, _) := Picked(t, d, now); p.Some? && !p.value.0
    ensures var (_, n, starved) := Picked(t, d, now);
            Allowance(t, d.(batching := n, starved := starved)) < Allowance(t, d)
  {
    if !(BatchDir(d).Some? && Batched(t, d) < t.fifoBatch) {
      var m := t.writesStarved - d.starved;
      assert (m - 1) * Max1(t.fifoBatch) == m * Max1(t.fifoBatch) - Max1(t.fifoBatch);
    }
  }

  lemma ReadCosts(t: Tunables, d: Sched, now: nat)
    requires d.wr.fifo != []
    requires var (p, _, _) := Picked(t, d, now); p.Some? && !p.value.0
    ensures Allowance(t, DispatchRequests(t, d, now).0) < Allowance(t, d)
  {
    DispatchIs(t, d, now);
    PickCosts(t, d, now);
  }

  /** Operations other than dispatch leave the allowance alone, whatever they send to make way. */
  lemma OthersCostNothing(t: Tunables, w: World, s: Step)
    requires Enabled(w, s) && !s.Dispatch?
    ensures Allowance(t, Apply(t, w, s).d) == Allowance(t, w.d)
  {
  }

  /** Every dispatch of the run finds a write pending and sends a read all the same. */
  ghost predicate ReadsOnly(t: Tunables, w: World, run: seq<Step>)
    decreases |run|
  {
    run == [] || (
      && Enabled(w, run[0])
      && (run[0].Dispatch? ==>
            w.d.wr.fifo != [] && var (p, _, _) := Picked(t, w.d, run[0].now); p.Some? && !p.value.0)
      && ReadsOnly(t, Apply(t, w, run[0]), run[1..]))
  }

  function Dispatches(run: seq<Step>): nat {
    if run == [] then 0 else (if run[0].Dispatch? then 1 else 0) + Dispatches(run[1..])
  }

  lemma {:induction false} ReadsUseAllowance(t: Tunables, w: World, run: seq<Step>)
    requires Good(t, w) && ReadsOnly(t, w, run)
    ensures Dispatches(run) <= Allowance(t, w.d)
    decreases |run|
  {
    if run != [] {
      var w' := Apply(t, w, run[0]);
      StepKeeps(t, w, run[0]);
      if run[0].Dispatch? {
        LaterOk(t, w.d, w.now, run[0].now);
        ReadCosts(t, w.d, run[0].now);
      } else {
        OthersCostNothing(t, w, run[0]);
      }
      ReadsUseAllowance(t, w', run[1..]);
    }
  }

  /**
    With a write pending throughout, at most this many dispatches in a row send reads,
    from any reachable state and whatever is added or merged in between.
   */
  lemma WritesAreNotStarved(t: Tunables, w: World, run: seq<Step>)
    requires Good(t, w) && ReadsOnly(t, w, run)
    ensures Dispatches(run) <= (t.writesStarved + 1) * Max1(t.fifoBatch)
  {
    ReadsUseAllowance(t, w, run);
    AllowanceBound(t, w.d);
  }

  // ------------------------------------------------ requests that make way

  lemma {:induction false} UnusedId(s: set<nat>) returns (id: nat)
    ensures id !in s && forall x :: x in s ==> x < id
    decreases s
  {
    if s == {} {
      id := 0;
    } else {
      var x :| x in s;
      var y := UnusedId(s - {x});
      id := if x < y then y else x + 1;
      assert forall z :: z in s ==> z == x || z in s - {x};
    }
  }

  predicate AllReads(out: seq<Out>, from: nat) {
    forall i :: from <= i < |out| ==> !out[i].rq.write
  }

  /** A read added at the sector of a queued read sends the latter, and the write still waits. */
  lemma AliasSends(t: Tunables, w: World, r: Rq) returns (r': Rq, w': World)
    requires Good(t, w) && w.d.wr.fifo != [] && Queued(w.d, r) && !r.write
    ensures r'.id !in w.added && Enabled(w, Add(r', w.now)) && w' == Apply(t, w, Add(r', w.now))
    ensures Good(t, w') && w'.d.wr.fifo != [] && Queued(w'.d, r') && !r'.write && w'.d.out == w.d.out + [Out(r, true)]
  {
    var id := UnusedId(w.added);
    r' := r.(id := id);
    w' := Apply(t, w, Add(r', w.now));
    StepKeeps(t, w, Add(r', w.now));
    AliasAt(w.d.rd, r);
    AliasEnters(t, w.d, r, r', w.now);
  }

  lemma AliasAt(s: Side, r: Rq)
    requires TreeOk(s.tree, false) && r.id in s.tree && s.tree[r.id] == r
    ensures At(s.tree, r.sector) == Some(r.id)
  {
  }

  lemma AliasEnters(t: Tunables, d: Sched, r: Rq, r': Rq, now: nat)
    requires !r.write && r.id in d.rd.tree && d.rd.tree[r.id] == r && At(d.rd.tree, r.sector) == Some(r.id)
    requires r' == r.(id := r'.id)
    ensures var d' := AddRequest(t, d, r', now);
            d'.wr.fifo == d.wr.fifo && Queued(d', r') && d'.out == d.out + [Out(r, true)]
  {
  }

  /**
    The bound counts dispatches.  Reads sent to make way for others at their sector are
    not bounded: any number can be sent by additions alone while a write waits.
   */
  lemma {:induction false} AliasesAreUnbounded(t: Tunables, w: World, r: Rq, n: nat) returns (run: seq<Step>)
    requires Good(t, w) && w.d.wr.fifo != [] && Queued(w.d, r) && !r.write
    ensures Valid(t, w, run) && Dispatches(run) == 0
    ensures var w' := Run(t, w, run);
            w'.d.wr.fifo != [] && |w'.d.out| == |w.d.out| + n && AllReads(w'.d.out, |w.d.out|)
    decreases n
  {
    if n == 0 {
      run := [];
    } else {
      var r', w1 := AliasSends(t, w, r);
      var rest := AliasesAreUnbounded(t, w1, r', n - 1);
      run := [Add(r', w.now)] + rest;
      assert run[1..] == rest;
      GrowsOnly(t, w1, rest);
    }
  }

  lemma {:induction false} GrowsOnly(t: Tunables, w: World, run: seq<Step>)
    requires Good(t, w) && Valid(t, w, run)
    ensures w.d.out <= Run(t, w, run).d.out
    decreases |run|
  {
    if run != [] {
      StepKeeps(t, w, run[0]);
      if run[0].Dispatch? {
        LaterOk(t, w.d, w.now, run[0].now);
        DispatchTells(t, w.d, run[0].now);
      }
      GrowsOnly(t, Apply(t, w, run[0]), run[1..]);
    }
  }
}
