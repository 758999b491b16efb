// The cached next request.  It is the best of all that are queued as long as no request is
// sent while another begins within it, and so if no request overlaps another.
module AsBest {
  import opened Common
  import opened AsOrder
  import opened RequestLists
  import opened Anticipatory
  import opened AsInvariant
  import opened AsSteps
  import opened AsRuns

  predicate Best(x: Side) { IsBest(x.last, x.tree, x.next) }

  predicate BothBest(s: State) { Best(s.sync) && Best(s.async) }

  // --------------------------------------------------------------- one request goes

  /** Exactly when the next request is the best after one has gone: it is enough to look at three. */
  lemma MovedBestIff(x: Side, r: Rq)
    requires SideOk(x) && r in Elems(x.tree)
    ensures var y := SideMoved(x, r); Best(y) <==> y.tree == [] || (y.next.Some? && Unbeaten(y.last, y.tree, y.next.value))
  {
    ElemsAre(x.tree);
    var i, y := IndexOf(x.tree, r), SideMoved(x, r);
    AscendingWithout(x.tree, i);
    FoundRemains(x.tree, i, End(r));
    if y.next.Some? { BestIffUnbeaten(y.last, y.tree, y.next.value); }
  }

  /** It is unless some request begins within the one that has gone. */
  lemma MovedBest(x: Side, r: Rq)
    requires SideOk(x) && r in Elems(x.tree) && !Overruns(x.tree, r)
    ensures Best(SideMoved(x, r))
  {
    ElemsAre(x.tree);
    BestAfter(x.tree, IndexOf(x.tree, r), End(r));
  }

  // ------------------------------------------------------------------------ steps

  /** From `s` to `s'` one request was sent, and another begins within it. */
  predicate Overrun(s: State, s': State) {
    && |s'.out| == |s.out| + 1
    && var o := s'.out[|s.out|]; Overruns(SideOf(s, o.dir).tree, o.rq)
  }

  lemma MadeWayBest(s: State, d: Dir, sector: nat)
    requires Inv(s) && BothBest(s) && !Overrun(s, MadeWay(s, d, sector))
    ensures BothBest(MadeWay(s, d, sector))
  {
    var tree := SideOf(s, d).tree;
    var i := Place(tree, sector);
    if i < |tree| && tree[i].sector == sector {
      ElemsAre(tree);
      MovedBest(SideOf(s, d), tree[i]);
    }
  }

  lemma EnteredBest(x: Side, r: Rq, expires: int)
    requires Best(x) && Vacant(x.tree, r.sector)
    ensures Best(Entered(x, r, expires))
  {
    BestGrows(x.last, x.tree, x.next, r);
  }

  lemma AddedBest(s: State, t: Tunables, d: Dir, r: Rq, now: int, hunch: bool)
    requires Inv(s) && BothBest(s) && !Overrun(s, Added(s, t, d, r, now, hunch))
    ensures BothBest(Added(s, t, d, r, now, hunch))
  {
    var s1 := MadeWay(s, d, r.sector);
    assert Added(s, t, d, r, now, hunch).out == s1.out;
    MadeWayBest(s, d, r.sector);
    MadeWayKeeps(s, d, r.sector);
    EnteredBest(SideOf(s1, d), r, now + FifoExpire(t, d));
  }

  lemma DispatchedBest(s: State, t: Tunables, now: int, hunch: bool)
    requires Inv(s) && BothBest(s) && !Overrun(s, Dispatched(s, t, now, hunch).0)
    ensures BothBest(Dispatched(s, t, now, hunch).0)
  {
    DispatchTells(s, t, now, hunch);
    var (s', went) := Dispatched(s, t, now, hunch);
    if went {
      var d, r :| IsQueued(s, d, r) && MovedOne(s, s', d, r);
      MovedBest(SideOf(s, d), r);
    }
  }

  lemma DrainedBest(s: State, now: int)
    requires Inv(s)
    ensures BothBest(Drained(s, now))
  {
    DrainedKeeps(s, now);
    EmptyTogether(Drained(s, now).sync);
    EmptyTogether(Drained(s, now).async);
  }

  /** A step that does not send a request while another begins within it; draining sends all. */
  predicate Clear(w: World, t: Tunables, x: Step)
    requires Enabled(w, x)
  {
    x.Force? || !Overrun(w.s, Apply(w, t, x).s)
  }

  lemma StepBest(w: World, t: Tunables, x: Step)
    requires Good(w) && BothBest(w.s) && Enabled(w, x) && Clear(w, t, x)
    ensures BothBest(Apply(w, t, x).s)
  {
    match x
    case Add(d, r, now, hunch) => AddedBest(w.s, t, d, r, now, hunch);
    case Dispatch(now, hunch) => DispatchedBest(w.s, t, now, hunch);
    case Work(now, hunch) => DispatchedBest(w.s.(work := false), t, now, hunch);
    case Complete(i, now, wb) => CompletedTells(w.s, t, i, now, wb);
    case Timer(mine) =>
    case Force(now) => DrainedBest(w.s, now);
  }

  predicate AllClear(w: World, t: Tunables, xs: seq<Step>)
    requires Possible(w, t, xs)
    decreases |xs|
  {
    xs == [] || (Clear(w, t, xs[0]) && AllClear(Apply(w, t, xs[0]), t, xs[1..]))
  }

  /** In every run that never sends a request while another begins within it, the cached requests stay the best. */
  lemma {:induction false} BestUnlessOverrun(w: World, t: Tunables, xs: seq<Step>)
    requires Good(w) && BothBest(w.s) && Possible(w, t, xs) && AllClear(w, t, xs)
    ensures BothBest(Run(w, t, xs).s)
    decreases |xs|
  {
    if xs != [] {
      StepGood(w, t, xs[0]);
      StepBest(w, t, xs[0]);
      BestUnlessOverrun(Apply(w, t, xs[0]), t, xs[1..]);
    }
  }

  // ----------------------------------------------------------------- without overlap

  /** In sector order, each ending before the next begins. */
  predicate Apart(t: seq<Rq>) {
    (t != [] ==> t[0].size > 0) && (|t| < 2 || (End(t[0]) <= t[1].sector && Apart(t[1..])))
  }

  lemma {:induction false} ApartMeans(t: seq<Rq>, i: nat, j: nat)
    requires Apart(t) && i < j < |t|
    ensures End(t[i]) <= t[j].sector && t[i].size > 0
    decreases |t|
  {
    if i > 0 {
      ApartMeans(t[1..], i - 1, j - 1);
    } else if j > 1 {
      ApartMeans(t[1..], 0, j - 1);
    }
  }

  lemma {:induction false} ApartWithout(t: seq<Rq>, i: nat)
    requires Apart(t) && i < |t|
    ensures Apart(Without(t, i))
  {
    if i == 0 {
      assert Without(t, 0) == t[1..];
    } else {
      ApartWithout(t[1..], i - 1);
      assert Without(t, i)[1..] == Without(t[1..], i - 1);
      if i == 1 && |t| > 2 { ApartMeans(t, 0, 2); }
    }
  }

  predicate BothApart(s: State) { Apart(s.sync.tree) && Apart(s.async.tree) }

  lemma MovedApart(x: Side, r: Rq)
    requires Apart(x.tree) && r in Elems(x.tree)
    ensures Apart(SideMoved(x, r).tree) && !Overruns(x.tree, r)
  {
    ElemsAre(x.tree);
    var i := IndexOf(x.tree, r);
    ApartWithout(x.tree, i);
    forall j | 0 <= j < |x.tree| ensures !(r.sector < x.tree[j].sector < End(r)) {
      if j < i { ApartMeans(x.tree, j, i); }
      if i < j { ApartMeans(x.tree, i, j); }
    }
  }

  /** A request that overlaps none of those queued. */
  predicate Fits(x: Side, r: Rq) { Apart(Inserted(x.tree, r)) }

  lemma FitsAlone(x: Side, r: Rq)
    requires Fits(x, r)
    ensures forall j :: 0 <= j < |x.tree| ==> x.tree[j].sector != r.sector
  {
    var i, t' := Place(x.tree, r.sector), Inserted(x.tree, r);
    forall j | 0 <= j < |x.tree| ensures x.tree[j].sector != r.sector {
      if j < i {
        ApartMeans(t', j, i);
      } else {
        ApartMeans(t', i, j + 1);
        assert t'[j + 1] == x.tree[j];
      }
    }
  }

  lemma AddedApart(s: State, t: Tunables, d: Dir, r: Rq, now: int, hunch: bool)
    requires BothApart(s) && Fits(SideOf(s, d), r)
    ensures BothApart(Added(s, t, d, r, now, hunch)) && !Overrun(s, Added(s, t, d, r, now, hunch))
  {
    FitsAlone(SideOf(s, d), r);
    assert MadeWay(s, d, r.sector) == s;
  }

  lemma DispatchedApart(s: State, t: Tunables, now: int, hunch: bool)
    requires Inv(s) && BothApart(s)
    ensures var s' := Dispatched(s, t, now, hunch).0; BothApart(s') && !Overrun(s, s')
  {
    DispatchTells(s, t, now, hunch);
    var (s', went) := Dispatched(s, t, now, hunch);
    if went {
      var d, r :| IsQueued(s, d, r) && MovedOne(s, s', d, r);
      MovedApart(SideOf(s, d), r);
    }
  }

  lemma WorkedApart(s: State, t: Tunables, now: int, hunch: bool)
    requires Inv(s) && BothApart(s)
    ensures var s' := Dispatched(s.(work := false), t, now, hunch).0; BothApart(s') && !Overrun(s, s')
  {
    DispatchedApart(s.(work := false), t, now, hunch);
  }

  lemma DrainedApart(s: State, now: int)
    requires Inv(s)
    ensures BothApart(Drained(s, now))
  {
    DrainedKeeps(s, now);
    EmptyTogether(Drained(s, now).sync);
    EmptyTogether(Drained(s, now).async);
  }

  lemma CompletedApart(s: State, t: Tunables, i: nat, now: int, writeBatch: nat)
    requires BothApart(s) && i < |s.out|
    ensures var s' := Completed(s, t, i, now, writeBatch); BothApart(s') && !Overrun(s, s')
  {
    CompletedTells(s, t, i, now, writeBatch);
    assert |Completed(s, t, i, now, writeBatch).out| == |Left(s, i).out| < |s.out|;
  }

  lemma TimedOutApart(s: State, mine: bool)
    requires BothApart(s)
    ensures var s' := TimedOut(s, mine); BothApart(s') && !Overrun(s, s')
  {
  }

  /** A step that adds no overlapping request. */
  predicate Spacious(w: World, x: Step) { x.Add? ==> Fits(SideOf(w.s, x.d), x.rq) }

  lemma StepApart(w: World, t: Tunables, x: Step)
    requires Good(w) && BothApart(w.s) && Enabled(w, x) && Spacious(w, x)
    ensures BothApart(Apply(w, t, x).s) && Clear(w, t, x)
  {
    match x
    case Add(d, r, now, hunch) => AddedApart(w.s, t, d, r, now, hunch);
    case Dispatch(now, hunch) => DispatchedApart(w.s, t, now, hunch);
    case Work(now, hunch) => WorkedApart(w.s, t, now, hunch);
    case Complete(i, now, wb) => CompletedApart(w.s, t, i, now, wb);
    case Timer(mine) => TimedOutApart(w.s, mine);
    case Force(now) => DrainedApart(w.s, now);
  }

  predicate AllSpacious(w: World, t: Tunables, xs: seq<Step>)
    requires Possible(w, t, xs)
    decreases |xs|
  {
    xs == [] || (Spacious(w, xs[0]) && AllSpacious(Apply(w, t, xs[0]), t, xs[1..]))
  }

  /** Where no request overlaps another none is sent while another begins within it. */
  lemma {:induction false} SpaciousIsClear(w: World, t: Tunables, xs: seq<Step>)
    requires Good(w) && BothApart(w.s) && Possible(w, t, xs) && AllSpacious(w, t, xs)
    ensures AllClear(w, t, xs)
    decreases |xs|
  {
    if xs != [] {
      StepGood(w, t, xs[0]);
      StepApart(w, t, xs[0]);
      SpaciousIsClear(Apply(w, t, xs[0]), t, xs[1..]);
    }
  }

  /** In every run without overlap the cached requests are the best of all that are queued. */
  lemma NextIsBest(t: Tunables, batchExpires: int, writeBatch: nat, xs: seq<Step>, d: Dir)
    requires Possible(World(Init(batchExpires, writeBatch), false), t, xs)
    requires AllSpacious(World(Init(batchExpires, writeBatch), false), t, xs)
    ensures var x := SideOf(Run(World(Init(batchExpires, writeBatch), false), t, xs).s, d); IsBest(x.last, x.tree, x.next)
  {
    var w := World(Init(batchExpires, writeBatch), false);
    SpaciousIsClear(w, t, xs);
    BestUnlessOverrun(w, t, xs);
  }

  // ------------------------------------------------------------- with overlap

  /** A long read, one that begins within it, and one just behind it. */
  function Long(): Rq { Rq(1, 100, 50, 0) }
  function Within(): Rq { Rq(2, 110, 8, 0) }
  function Behind(): Rq { Rq(3, 151, 8, 0) }

  /** With overlap the neighbours do not suffice: both may lie behind the end of a long request. */
  lemma OverlapMisleads(x: Side)
    requires x.tree == [Long(), Within(), Behind()]
    ensures var y := SideMoved(x, Long()); !IsBest(y.last, y.tree, y.next)
  {
    var t := x.tree;
    assert IndexOf(t, Long()) == 0 && FindNext(150, t, 0) == Some(Within());
    assert Without(t, 0)[1] == Behind() && Better(150, Behind(), Within());
  }

  lemma RunCons(w: World, t: Tunables, x: Step, xs: seq<Step>)
    requires Enabled(w, x) && Possible(Apply(w, t, x), t, xs)
    ensures Possible(w, t, [x] + xs) && Run(w, t, [x] + xs) == Run(Apply(w, t, x), t, xs)
  {
    assert ([x] + xs)[1..] == xs;
  }

  /** A state with only reads queued, nothing sent and nothing anticipated. */
  predicate Fresh(w: World, tree: seq<Rq>) {
    && w.s.sync.tree == tree && |w.s.sync.fifo| == |tree| && w.s.async == EmptySide()
    && w.s.batch.dir == Async && !w.s.batch.changed && w.s.wait.antic == Off && w.s.nrDispatched == 0
    && (tree != [] ==> w.s.sync.fifo[0].rq == tree[0])
  }

  /** A read beyond all that are queued. */
  lemma AddsBehind(w: World, t: Tunables, tree: seq<Rq>, r: Rq)
    requires Fresh(w, tree) && Place(tree, r.sector) == |tree| && r !in tree
    ensures Enabled(w, Add(Sync, r, 0, false)) && Fresh(Apply(w, t, Add(Sync, r, 0, false)), tree + [r])
  {
    ElemsAre(tree);
    assert Inserted(tree, r) == tree + [r];
  }

  lemma SendsOldest(w: World, t: Tunables, tree: seq<Rq>)
    requires Fresh(w, tree) && tree != []
    ensures var x, y := w.s.sync, SideMoved(w.s.sync, tree[0]);
            var z := Apply(w, t, Dispatch(0, false)).s.sync;
            z.tree == y.tree && z.next == y.next && z.last == y.last
  {
  }

  predicate Misled(w: World, t: Tunables, xs: seq<Step>) {
    Possible(w, t, xs) && var x := Run(w, t, xs).s.sync; !IsBest(x.last, x.tree, x.next)
  }

  lemma DispatchMisleads(w: World, t: Tunables)
    requires Fresh(w, [Long(), Within(), Behind()])
    ensures Misled(w, t, [Dispatch(0, false)])
  {
    SendsOldest(w, t, w.s.sync.tree);
    OverlapMisleads(w.s.sync);
    RunCons(w, t, Dispatch(0, false), []);
    assert [Dispatch(0, false)] + [] == [Dispatch(0, false)];
  }

  lemma ThirdMisleads(w: World, t: Tunables) returns (xs: seq<Step>)
    requires Fresh(w, [Long(), Within()])
    ensures Misled(w, t, xs)
  {
    var x := Add(Sync, Behind(), 0, false);
    AddsBehind(w, t, [Long(), Within()], Behind());
    DispatchMisleads(Apply(w, t, x), t);
    RunCons(w, t, x, [Dispatch(0, false)]);
    xs := [x] + [Dispatch(0, false)];
  }

  lemma SecondMisleads(w: World, t: Tunables) returns (xs: seq<Step>)
    requires Fresh(w, [Long()])
    ensures Misled(w, t, xs)
  {
    var x := Add(Sync, Within(), 0, false);
    AddsBehind(w, t, [Long()], Within());
    xs := ThirdMisleads(Apply(w, t, x), t);
    RunCons(w, t, x, xs);
    xs := [x] + xs;
  }

  /** Three reads and a dispatch, after which the cached read is not the best. */
  lemma OverlapRun(w: World, t: Tunables) returns (xs: seq<Step>)
    requires Fresh(w, [])
    ensures Misled(w, t, xs)
  {
    var x := Add(Sync, Long(), 0, false);
    AddsBehind(w, t, [], Long());
    xs := SecondMisleads(Apply(w, t, x), t);
    RunCons(w, t, x, xs);
    xs := [x] + xs;
  }

  ghost predicate EndsWithBest(t: Tunables, batchExpires: int, writeBatch: nat, xs: seq<Step>, overlap: bool) {
    var w := World(Init(batchExpires, writeBatch), false);
    Possible(w, t, xs) && (overlap || AllSpacious(w, t, xs)) ==>
      forall d :: var x := SideOf(Run(w, t, xs).s, d); IsBest(x.last, x.tree, x.next)
  }

  /** The cached requests are the best in all runs if and only if no overlapping requests are added. */
  lemma BestIffSpacious(overlap: bool)
    ensures (forall t, batchExpires, writeBatch, xs :: EndsWithBest(t, batchExpires, writeBatch, xs, overlap)) <==> !overlap
  {
    if overlap {
      var t := Tunables(0, 0, 0, 0, 0);
      var xs := OverlapRun(World(Init(0, 0), false), t);
      var x := SideOf(Run(World(Init(0, 0), false), t, xs).s, Sync);
      assert !IsBest(x.last, x.tree, x.next);
      assert !EndsWithBest(t, 0, 0, xs, true);
    } else {
      forall t, batchExpires, writeBatch, xs ensures EndsWithBest(t, batchExpires, writeBatch, xs, false) {
        var w := World(Init(batchExpires, writeBatch), false);
        if Possible(w, t, xs) && AllSpacious(w, t, xs) {
          forall d ensures var x := SideOf(Run(w, t, xs).s, d); IsBest(x.last, x.tree, x.next) {
            NextIsBest(t, batchExpires, writeBatch, xs, d);
          }
        }
      }
    }
  }
}
