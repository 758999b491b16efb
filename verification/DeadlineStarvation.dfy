/** Exactly when the number of reads sent before a waiting write is bounded. */
module DeadlineStarvation {
  import opened Deadline
  import opened DeadlineInvariant
  import opened DeadlineRuns

  /** Is there a request at the sector where this one is going to be?  That one will be sent to make way. */
  ghost predicate Aliases(w: World, s: Step) {
    || (s.Add? && At(SideOf(w.d, s.r.write).tree, s.r.sector).Some?)
    || (s.Front? && At(SideOf(w.d, s.r.write).tree - {s.r.id}, s.sector).Some?)
  }

  /** How many steps of a run send a request to make way. */
  ghost function AliasSteps(t: Tunables, w: World, run: seq<Step>): nat
    requires Valid(t, w, run)
    decreases |run|
  {
    if run == [] then 0 else (if Aliases(w, run[0]) then 1 else 0) + AliasSteps(t, Apply(t, w, run[0]), run[1..])
  }

  lemma OthersSend(t: Tunables, w: World, s: Step)
    requires Enabled(w, s) && !s.Dispatch?
    ensures |Apply(t, w, s).d.out| == |w.d.out| + if Aliases(w, s) then 1 else 0
  {
  }

  lemma ReadSends(t: Tunables, w: World, now: nat)
    requires Good(t, w) && w.now <= now && Picked(t, w.d, now).0.Some?
    ensures |DispatchRequests(t, w.d, now).0.out| == |w.d.out| + 1
  {
    LaterOk(t, w.d, w.now, now);
    DispatchTells(t, w.d, now);
    PickedIsQueued(t, w.d, now);
  }

  /** While dispatches send reads before a waiting write, they and the aliases are what reaches the driver. */
  lemma {:induction false} SentBefore(t: Tunables, w: World, run: seq<Step>)
    requires Good(t, w) && ReadsOnly(t, w, run)
    ensures Valid(t, w, run) && |Run(t, w, run).d.out| == |w.d.out| + Dispatches(run) + AliasSteps(t, w, run)
    decreases |run|
  {
    if run != [] {
      StepKeeps(t, w, run[0]);
      if run[0].Dispatch? {
        ReadSends(t, w, run[0].now);
      } else {
        OthersSend(t, w, run[0]);
      }
      SentBefore(t, Apply(t, w, run[0]), run[1..]);
    }
  }

  function Bound(t: Tunables): nat { (t.writesStarved + 1) * Max1(t.fifoBatch) }

  /** So in every run no more than the bound and one for each alias go before the write. */
  lemma BoundedButForAliases(t: Tunables, w: World, run: seq<Step>)
    requires Good(t, w) && ReadsOnly(t, w, run)
    ensures Valid(t, w, run) && |Run(t, w, run).d.out| <= |w.d.out| + Bound(t) + AliasSteps(t, w, run)
  {
    SentBefore(t, w, run);
    WritesAreNotStarved(t, w, run);
  }

  lemma {:induction false} NoDispatchReadsOnly(t: Tunables, w: World, run: seq<Step>)
    requires Valid(t, w, run) && Dispatches(run) == 0
    ensures ReadsOnly(t, w, run)
    decreases |run|
  {
    if run != [] { NoDispatchReadsOnly(t, Apply(t, w, run[0]), run[1..]); }
  }

  /** A read and a write, queued. */
  lemma OneOfEach(t: Tunables) returns (w: World, r: Rq)
    ensures Good(t, w) && w.d.wr.fifo != [] && Queued(w.d, r) && !r.write
  {
    RunsAreGood(t, []);
    r := Rq(0, false, 0, 8);
    var w1 := Apply(t, START, Add(r, 0));
    StepKeeps(t, START, Add(r, 0));
    StepKeeps(t, w1, Add(Rq(1, true, 0, 8), 0));
    w := Apply(t, w1, Add(Rq(1, true, 0, 8), 0));
  }

  /** All runs, or with `none` those in which nothing is sent to make way. */
  ghost predicate WriteWaits(t: Tunables, w: World, run: seq<Step>, none: bool) {
    Good(t, w) && ReadsOnly(t, w, run) && (none ==> Valid(t, w, run) && AliasSteps(t, w, run) == 0)
  }

  ghost predicate SendsAtMost(t: Tunables, w: World, run: seq<Step>, n: nat) {
    Valid(t, w, run) ==> |Run(t, w, run).d.out| <= |w.d.out| + n
  }

  /** The bound alone holds of all runs if and only if nothing is sent to make way. */
  lemma BoundedIffNoAliases(t: Tunables, none: bool)
    ensures (forall w, run :: WriteWaits(t, w, run, none) ==> SendsAtMost(t, w, run, Bound(t))) <==> none
  {
    if none {
      forall w, run | WriteWaits(t, w, run, true) ensures SendsAtMost(t, w, run, Bound(t)) {
        BoundedButForAliases(t, w, run);
      }
    } else {
      var w, r := OneOfEach(t);
      var run := AliasesAreUnbounded(t, w, r, Bound(t) + 1);
      NoDispatchReadsOnly(t, w, run);
      assert WriteWaits(t, w, run, false) && !SendsAtMost(t, w, run, Bound(t));
    }
  }
}
