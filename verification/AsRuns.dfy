/** Whole runs of the anticipatory scheduler: it never sleeps on queued requests without a wakeup to come. */
module AsRuns {
  import opened Common
  import opened AsOrder
  import opened RequestLists
  import opened Anticipatory
  import opened AsInvariant
  import opened AsSteps

  /** The flags, but for the request of context `ioc` that has just left. */
  predicate FlagsBut(s: State, ioc: nat) {
    && FlagsAgree(s)
    && (s.wait.ioc.Some? && s.wait.ioc.value != ioc && !s.wait.finished ==> Awaited(s.out, s.wait.ioc.value))
  }

  lemma LeftKeeps(s: State, i: nat)
    requires FlagsOk(s) && i < |s.out|
    ensures FlagsBut(Left(s, i), s.out[i].rq.ioc) && (Owed(s) ==> Owed(Left(s, i)))
  {
    if s.wait.ioc.Some? && !s.wait.finished && s.out[i].rq.ioc != s.wait.ioc.value {
      AwaitedWithout(s.out, i, s.wait.ioc.value);
    }
  }

  lemma BatchBegunKeeps(s: State, t: Tunables, d: Dir, now: int, writeBatch: nat, ioc: nat)
    requires FlagsBut(s, ioc)
    ensures FlagsBut(BatchBegun(s, t, d, now, writeBatch), ioc) && (Owed(s) ==> Owed(BatchBegun(s, t, d, now, writeBatch)))
  {
  }

  lemma AnsweredKeeps(s: State, ioc: nat, now: int)
    requires FlagsBut(s, ioc)
    ensures FlagsOk(Answered(s, ioc, now)) && (Owed(s) ==> Owed(Answered(s, ioc, now)))
  {
  }

  predicate SidesStay(s: State, s': State) { s'.sync == s.sync && s'.async == s.async }

  predicate WaitStays(s: State, s': State) {
    s'.wait.antic == s.wait.antic && s'.wait.timer == s.wait.timer && s'.wait.ioc == s.wait.ioc
  }

  lemma LeftTells(s: State, i: nat)
    requires i < |s.out|
    ensures var s' := Left(s, i);
            && SidesStay(s, s') && WaitStays(s, s')
            && (s.work || (s.batch.changed && s.nrDispatched == 1) ==> s'.work)
  {
  }

  lemma BatchBegunTells(s: State, t: Tunables, d: Dir, now: int, writeBatch: nat)
    ensures var s' := BatchBegun(s, t, d, now, writeBatch);
            SidesStay(s, s') && WaitStays(s, s') && s'.work == s.work
  {
  }

  lemma AnsweredTells(s: State, ioc: nat, now: int)
    ensures var s' := Answered(s, ioc, now);
            && SidesStay(s, s') && s'.work == s.work
            && (s.wait.antic == WaitReq && s.wait.ioc == Some(ioc) ==> s'.wait.antic == WaitNext && s'.wait.timer)
  {
  }

  lemma CompletedTells(s: State, t: Tunables, i: nat, now: int, writeBatch: nat)
    requires i < |s.out|
    ensures var s' := Completed(s, t, i, now, writeBatch);
            && SidesStay(s, s')
            && (s.work || (s.batch.changed && s.nrDispatched == 1) ==> s'.work)
            && (s.wait.antic == WaitReq && s.wait.ioc == Some(s.out[i].rq.ioc) ==>
                  s'.wait.antic == WaitNext && s'.wait.timer)
  {
    var s1 := Left(s, i);
    var s2 := BatchBegun(s1, t, s.out[i].dir, now, writeBatch);
    LeftTells(s, i);
    BatchBegunTells(s1, t, s.out[i].dir, now, writeBatch);
    AnsweredTells(s2, s.out[i].rq.ioc, now);
  }

  lemma CompletedKeeps(s: State, t: Tunables, i: nat, now: int, writeBatch: nat)
    requires Inv(s) && i < |s.out|
    ensures Inv(Completed(s, t, i, now, writeBatch)) && (Owed(s) ==> Owed(Completed(s, t, i, now, writeBatch)))
  {
    var o := s.out[i];
    LeftKeeps(s, i);
    BatchBegunKeeps(Left(s, i), t, o.dir, now, writeBatch, o.rq.ioc);
    AnsweredKeeps(BatchBegun(Left(s, i), t, o.dir, now, writeBatch), o.rq.ioc, now);
    CompletedTells(s, t, i, now, writeBatch);
  }

  lemma TimedOutKeeps(s: State, mine: bool)
    requires Inv(s) && (s.wait.antic == WaitNext || s.wait.antic == WaitReq || !mine || s.wait.timer)
    ensures Inv(TimedOut(s, mine)) && (Owed(s) ==> Owed(TimedOut(s, mine)))
  {
  }

  // ---------------------------------------------------------------- draining

  /** The requests with the driver. */
  function Given(out: seq<Out>): set<Rq> { if out == [] then {} else {out[0].rq} + Given(out[1..]) }

  lemma {:induction false} GivenGrows(out: seq<Out>, o: Out)
    ensures Given(out + [o]) == Given(out) + {o.rq}
  {
    if out != [] {
      assert (out + [o])[1..] == out[1..] + [o];
      GivenGrows(out[1..], o);
    }
  }

  /** One request of the direction has gone to the driver. */
  predicate OneGone(s: State, d: Dir, r: Rq, s1: State) {
    && |SideOf(s1, d).tree| == |SideOf(s, d).tree| - 1
    && Elems(SideOf(s, d).tree) == Elems(SideOf(s1, d).tree) + {r}
    && SideOf(s1, Other(d)) == SideOf(s, Other(d))
    && |s1.out| == |s.out| + 1 && Given(s1.out) == Given(s.out) + {r}
  }

  lemma GoesOut(s: State, d: Dir, r: Rq)
    requires SideOk(SideOf(s, d)) && r in Elems(SideOf(s, d).tree)
    ensures OneGone(s, d, r, Moved(s, d, r))
  {
    SideMovedKeeps(SideOf(s, d), r);
    GivenGrows(s.out, Out(r, d));
  }

  /** What is left after the next request has been moved. */
  lemma NextMoved(s: State, d: Dir)
    requires Inv(s) && SideOf(s, d).tree != []
    ensures SideOf(s, d).next.Some?
    ensures var r := SideOf(s, d).next.value; Inv(Moved(s, d, r)) && OneGone(s, d, r, Moved(s, d, r))
  {
    var r := SideOf(s, d).next.value;
    MovedKeeps(s, d, r);
    GoesOut(s, d, r);
  }

  /** All requests of the direction have gone to the driver. */
  predicate AllGone(s: State, d: Dir, e: State) {
    && SideOf(e, d).tree == [] && SideOf(e, Other(d)) == SideOf(s, Other(d))
    && |e.out| == |s.out| + |SideOf(s, d).tree| && Given(e.out) == Given(s.out) + Elems(SideOf(s, d).tree)
  }

  lemma OneMoreGone(s: State, d: Dir, r: Rq, s1: State, e: State)
    requires OneGone(s, d, r, s1) && AllGone(s1, d, e)
    ensures AllGone(s, d, e)
  {
  }

  lemma EmptiedIs(s: State, d: Dir, n: nat)
    requires n > 0 && SideOf(s, d).next.Some?
    ensures Emptied(s, d, n) == Emptied(Moved(s, d, SideOf(s, d).next.value), d, n - 1)
  {
  }

  lemma {:induction false} EmptiedKeeps(s: State, d: Dir, n: nat)
    requires Inv(s) && n == |SideOf(s, d).tree|
    ensures Inv(Emptied(s, d, n)) && AllGone(s, d, Emptied(s, d, n))
    decreases n
  {
    if n > 0 {
      var r := SideOf(s, d).next.value;
      NextMoved(s, d);
      EmptiedIs(s, d, n);
      var s1 := Moved(s, d, r);
      EmptiedKeeps(s1, d, n - 1);
      OneMoreGone(s, d, r, s1, Emptied(s1, d, n - 1));
    }
  }

  /** Forced dispatch leaves nothing queued, and gives each request to the driver once. */
  lemma DrainedKeeps(s: State, now: int)
    requires Inv(s)
    ensures Inv(Drained(s, now)) && !Queued(Drained(s, now))
    ensures |Drained(s, now).out| == |s.out| + |s.sync.tree| + |s.async.tree|
    ensures Given(Drained(s, now).out) == Given(s.out) + Elems(s.sync.tree) + Elems(s.async.tree)
  {
    ResetKeeps(s, Sync, now);
    var s0 := Reset(s);
    EmptiedKeeps(s0, Sync, |s.sync.tree|);
    ResetKeeps(Emptied(s0, Sync, |s.sync.tree|), Sync, now);
    var s1 := Looked(Emptied(s0, Sync, |s.sync.tree|), Sync, now);
    assert SideOf(s1, Async) == SideOf(s0, Other(Sync)) && SideOf(s1, Sync).tree == [];
    EmptiedKeeps(s1, Async, |s1.async.tree|);
    var s2 := Emptied(s1, Async, |s1.async.tree|);
    assert SideOf(s2, Other(Async)) == SideOf(s1, Sync);
    ResetKeeps(s2, Async, now);
    EmptyTogether(Looked(s2, Async, now).sync);
    EmptyTogether(Looked(s2, Async, now).async);
  }

  lemma ResetKeeps(s: State, d: Dir, now: int)
    requires Inv(s)
    ensures Inv(Reset(s)) && Inv(Looked(s, d, now))
  {
  }

  // -------------------------------------------------------------------- runs

  /** `asleep`: the last dispatch declined although requests were queued. */
  datatype World = World(s: State, asleep: bool)

  datatype Step =
    | Add(d: Dir, rq: Rq, now: int, hunch: bool)
    | Dispatch(now: int, hunch: bool)
    | Work(now: int, hunch: bool)
    | Complete(i: nat, now: int, writeBatch: nat)
    | Timer(mine: bool)
    | Force(now: int)

  predicate Enabled(w: World, x: Step) {
    match x
    case Add(d, r, _, _) => !IsQueued(w.s, d, r)
    case Dispatch(_, _) => true
    case Work(_, _) => w.s.work
    case Complete(i, _, _) => i < |w.s.out|
    case Timer(mine) => mine ==> w.s.wait.timer
    case Force(_) => true
  }

  function AfterDispatch(s: State, t: Tunables, now: int, hunch: bool): World {
    var (s', went) := Dispatched(s, t, now, hunch);
    World(s', !went && Queued(s'))
  }

  function Apply(w: World, t: Tunables, x: Step): World
    requires Enabled(w, x)
  {
    match x
    case Add(d, r, now, hunch) => World(Added(w.s, t, d, r, now, hunch), w.asleep)
    case Dispatch(now, hunch) => AfterDispatch(w.s, t, now, hunch)
    case Work(now, hunch) => AfterDispatch(w.s.(work := false), t, now, hunch)
    case Complete(i, now, wb) => World(Completed(w.s, t, i, now, wb), w.asleep)
    case Timer(mine) => World(TimedOut(w.s, mine), w.asleep)
    case Force(now) => World(Drained(w.s, now), false)
  }

  ghost predicate Good(w: World) { Inv(w.s) && (w.asleep ==> Owed(w.s)) }

  lemma AfterDispatchGood(s: State, t: Tunables, now: int, hunch: bool)
    requires Inv(s)
    ensures Good(AfterDispatch(s, t, now, hunch))
  {
    DispatchTells(s, t, now, hunch);
    var (s', went) := Dispatched(s, t, now, hunch);
    if !went {
      EmptyTogether(s.sync);
      EmptyTogether(s.async);
      EmptyTogether(s'.sync);
      EmptyTogether(s'.async);
    }
  }

  lemma StepGood(w: World, t: Tunables, x: Step)
    requires Good(w) && Enabled(w, x)
    ensures Good(Apply(w, t, x))
  {
    match x
    case Add(d, r, now, hunch) => AddedKeeps(w.s, t, d, r, now, hunch);
    case Dispatch(now, hunch) => AfterDispatchGood(w.s, t, now, hunch);
    case Work(now, hunch) => AfterDispatchGood(w.s.(work := false), t, now, hunch);
    case Complete(i, now, wb) => CompletedKeeps(w.s, t, i, now, wb);
    case Timer(mine) => TimedOutKeeps(w.s, mine);
    case Force(now) => DrainedKeeps(w.s, now);
  }

  predicate Possible(w: World, t: Tunables, xs: seq<Step>)
    decreases |xs|
  {
    xs == [] || (Enabled(w, xs[0]) && Possible(Apply(w, t, xs[0]), t, xs[1..]))
  }

  function Run(w: World, t: Tunables, xs: seq<Step>): World
    requires Possible(w, t, xs)
    decreases |xs|
  {
    if xs == [] then w else Run(Apply(w, t, xs[0]), t, xs[1..])
  }

  lemma {:induction false} RunsAreGood(w: World, t: Tunables, xs: seq<Step>)
    requires Good(w) && Possible(w, t, xs)
    ensures Good(Run(w, t, xs))
    decreases |xs|
  {
    if xs != [] {
      StepGood(w, t, xs[0]);
      RunsAreGood(Apply(w, t, xs[0]), t, xs[1..]);
    }
  }

  /** Something is under way that will run the queue again. */
  predicate WakeupDue(s: State) {
    || s.work
    || (s.wait.antic == WaitNext && s.wait.timer)
    || (s.wait.antic == WaitReq && s.wait.ioc.Some? && Awaited(s.out, s.wait.ioc.value))
    || (s.batch.changed && s.out != [])
  }

  /**
    In every run, whenever the last dispatch declined with requests queued, the queue will be
    run again: the work is scheduled, or the timer that ends the anticipation is pending, or a
    request of the process anticipated on, or of the last batch, is with the driver.
   */
  lemma NoLostWakeup(t: Tunables, batchExpires: int, writeBatch: nat, xs: seq<Step>)
    requires Possible(World(Init(batchExpires, writeBatch), false), t, xs)
    ensures var w := Run(World(Init(batchExpires, writeBatch), false), t, xs);
            && (w.asleep ==> WakeupDue(w.s))
            && (w.s.batch.changed ==> w.s.nrDispatched >= 1 && !w.s.batch.newBatch)
            && (Waiting(w.s) ==> w.s.wait.ioc.Some?)
  {
    RunsAreGood(World(Init(batchExpires, writeBatch), false), t, xs);
  }

  /**
    And what is due comes: the awaited request, when it ends, starts the timer; the last of the
    old batch schedules the work; the timer schedules the work; and the work runs the queue.
   */
  lemma WakeupComes(s: State, t: Tunables, i: nat, now: int, writeBatch: nat, mine: bool)
    requires Inv(s) && i < |s.out|
    ensures var s' := Completed(s, t, i, now, writeBatch);
            && (s.wait.antic == WaitReq && s.wait.ioc == Some(s.out[i].rq.ioc) ==>
                  s'.wait.antic == WaitNext && s'.wait.timer)
            && (s.batch.changed && |s.out| == 1 ==> s'.work)
            && (WakeupDue(s) ==> WakeupDue(s'))
    ensures Waiting(s) ==> TimedOut(s, mine).work
  {
    CompletedKeeps(s, t, i, now, writeBatch);
    CompletedTells(s, t, i, now, writeBatch);
    OwedIsDue(Completed(s, t, i, now, writeBatch));
  }

  lemma OwedIsDue(s: State)
    requires FlagsOk(s)
    ensures WakeupDue(s) <==> Owed(s)
  {
  }

  /** With nothing at the driver, a dispatch declines only to start the timer; after that it goes on. */
  lemma IdleOnlyForTheTimer(s: State, t: Tunables, now: int, hunch: bool)
    requires Inv(s) && Queued(s) && s.out == []
    ensures var (s', went) := Dispatched(s, t, now, hunch);
            && (went || (s'.wait.antic == WaitNext && s'.wait.timer))
            && (s.wait.antic == Finished ==> went)
  {
    DispatchTells(s, t, now, hunch);
  }
}
