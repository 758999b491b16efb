/** Whole runs of an ordered queue: its promises hold in every interleaving of its operations. */
module OrderedRuns {
  import opened OrderedQueue
  import opened OrderedHistory
  import opened OrderedInvariant
  import opened OrderedSteps
  import opened OrderedEntry
  import opened OrderedFetch

  datatype Step =
    | SAdd(r: Request, soft: bool, elvpriv: bool, where: Where, cs: seq<Choice>)
    | SDispatch(c: Choice)
    | SNext
    | SDequeue(r: Request)
    | SComplete(r: Request, err: int)
    | SChunk(err: int)
    | SRequeue(r: Request)
    | SCheck

  /**
    The steps callers may take.  File-system requests never go to the front
    (`start_ordered` relies on it) and special requests are not sorted.  With
    `disguised`, special requests may carry the hard-barrier flag.
   */
  predicate Enabled(q: Queue, s: Step, disguised: bool) {
    match s
    case SAdd(r, soft, elvpriv, where, cs) =>
      var w := EffectiveWhere(r, soft, elvpriv, where);
      && r.id.User? && r.id.n !in AddedIds(q.log)
      && (if r.fs then !w.Front? else !w.Sort?)
      && (w.Back? ==> IsDrain(q.sched, cs))
      && (r.hard && !r.fs ==> disguised)
    case SDispatch(c) => c.r in q.sched
    case SNext => true
    case SDequeue(r) => r in q.list && r.id in q.started
    case SComplete(r, _) => r in q.driver
    case SChunk(_) => q.ordseq.Active? && Bar in q.started && !q.ordseq.bar
    case SRequeue(r) => r in q.driver
    case SCheck => true
  }

  function Apply(q: Queue, s: Step): Queue
    requires s.SAdd? ==> s.r.id.User?
  {
    match s
    case SAdd(r, soft, elvpriv, where, cs) => Add(q, r, soft, elvpriv, where, cs)
    case SDispatch(c) => Dispatch(q, c)
    case SNext => NextTurn(q).0
    case SDequeue(r) => Dequeue(q, r)
    case SComplete(r, err) => Complete(q, r, err)
    case SChunk(err) => BarChunk(q, err)
    case SRequeue(r) => Requeue(q, r)
    case SCheck => CheckDrain(q)
  }

  predicate Valid(q: Queue, run: seq<Step>, disguised: bool)
    ensures Valid(q, run, disguised) ==> forall i :: 0 <= i < |run| && run[i].SAdd? ==> run[i].r.id.User?
    decreases |run|
  {
    run == [] || (Enabled(q, run[0], disguised) && Valid(Apply(q, run[0]), run[1..], disguised))
  }

  function Run(q: Queue, run: seq<Step>): Queue
    requires forall i :: 0 <= i < |run| && run[i].SAdd? ==> run[i].r.id.User?
    decreases |run|
  {
    if run == [] then q else Run(Apply(q, run[0]), run[1..])
  }

  /** One step more at the end of a run. */
  lemma {:induction false} RunMore(q: Queue, run: seq<Step>, x: Step, disguised: bool)
    requires Valid(q, run, disguised) && Enabled(Run(q, run), x, disguised)
    ensures Valid(q, run + [x], disguised) && Run(q, run + [x]) == Apply(Run(q, run), x)
    decreases |run|
  {
    if run == [] {
      assert run + [x] == [x] && [x][1..] == [];
    } else {
      assert (run + [x])[1..] == run[1..] + [x];
      RunMore(Apply(q, run[0]), run[1..], x, disguised);
    }
  }

  lemma InitHolds(pre: bool, post: bool)
    ensures Inv(Init(pre, post))
  {
    var q := Init(pre, post);
    assert FsOf(q.driver) == {};
    assert Held(q) == {};
    forall id: Id | !id.User? ensures !ProxyHeld(q, id) {}
  }

  /** Flags of requests not held may change freely. */
  lemma FlagsKeep(q: Queue, q': Queue, id: Id)
    requires Inv(q) && forall x :: x in Held(q) ==> x.id != id
    requires q' == q.(started := q.started - {id}, soft := q'.soft,
                      endSector := q'.endSector, boundary := q'.boundary)
    ensures Inv(q') && Held(q') == Held(q)
  {
    HeldSame(q, q');
    assert forall x :: x in q.driver || x in q.list || x in q.sched ==> x in Held(q);
    StillSeparated(q, q');
    Moved(q, q');
  }

  lemma PrepareKeeps(q: Queue, r: Request, soft: bool, where: Where)
    requires Inv(q) && r.id.User? && r.id.n !in AddedIds(q.log) && (r.hard ==> r.fs)
    ensures Inv(Prepare(q, r, soft, where)) && Entering(Prepare(q, r, soft, where), Stamped(q, r))
  {
    FlagsKeep(q, Prepare(q, r, soft, where), r.id);
  }

  lemma AddKeeps(q: Queue, r: Request, soft: bool, elvpriv: bool, where: Where, cs: seq<Choice>)
    requires Inv(q) && Enabled(q, SAdd(r, soft, elvpriv, where, cs), false)
    ensures Inv(Add(q, r, soft, elvpriv, where, cs))
  {
    var w := EffectiveWhere(r, soft, elvpriv, where);
    var rq, q0 := Stamped(q, r), Prepare(q, r, soft, w);
    PrepareKeeps(q, r, soft, w);
    AddIs(q, r, soft, elvpriv, where, cs);
    match w
    case Sort => SortKeeps(q0, rq);
    case Front => FrontKeeps(q0, rq);
    case Back => AddBackKeeps(q0, rq, cs);
  }

  lemma AddIs(q: Queue, r: Request, soft: bool, elvpriv: bool, where: Where, cs: seq<Choice>)
    requires r.id.User? && (r.hard ==> r.fs)
    ensures var w := EffectiveWhere(r, soft, elvpriv, where);
            var rq, q0, q' := Stamped(q, r), Prepare(q, r, soft, w), Add(q, r, soft, elvpriv, where, cs);
            && (w.Sort? ==> q' == Entered(q0.(sched := q0.sched + {rq}), rq))
            && (w.Front? ==> q' == Entered(q0.(list := [rq] + q0.list), rq))
  {
  }

  lemma AddBackKeeps(q: Queue, r: Request, cs: seq<Choice>)
    requires Inv(q) && Entering(q, r) && IsDrain(q.sched, cs)
    ensures var q1 := Drain(q, cs);
            Inv(q1.(list := q1.list + [r], ordcolor := if r.hard then !q.ordcolor else q.ordcolor,
                    log := Snoc(q.log, Added(r.id.n, r))))
  {
    var q1 := Drain(q, cs);
    DrainKeeps(q, cs);
    BackKeeps(q1, r);
    assert Entered(q1.(list := q1.list + [r]), r)
        == q1.(list := q1.list + [r], ordcolor := if r.hard then !q.ordcolor else q.ordcolor,
               log := Snoc(q.log, Added(r.id.n, r)));
  }

  /** Every step a caller may take keeps the invariant. */
  lemma StepKeeps(q: Queue, s: Step)
    requires Inv(q) && Enabled(q, s, false)
    ensures Inv(Apply(q, s))
  {
    match s
    case SAdd(r, soft, elvpriv, where, cs) => AddKeeps(q, r, soft, elvpriv, where, cs);
    case SDispatch(c) => DispatchKeeps(q, c);
    case SNext => NextTurnKeeps(q);
    case SDequeue(r) => DequeueKeeps(q, r);
    case SComplete(r, err) =>
      if r.id.User? { CompleteUserKeeps(q, r, err); } else { CompleteProxyKeeps(q, r, err); }
    case SChunk(err) => ChunkKeeps(q, err);
    case SRequeue(r) => RequeueKeeps(q, r);
    case SCheck => CheckDrainKeeps(q);
  }

  lemma {:induction false} RunKeeps(q: Queue, run: seq<Step>)
    requires Inv(q) && Valid(q, run, false)
    ensures Inv(Run(q, run))
    decreases |run|
  {
    if run != [] {
      StepKeeps(q, run[0]);
      RunKeeps(Apply(q, run[0]), run[1..]);
    }
  }

  // --------------------------------------------------------- the promises

  /** Every request and barrier of a run without disguised barriers is ordered as promised. */
  lemma RunsAreOrdered(pre: bool, post: bool, run: seq<Step>)
    requires Valid(Init(pre, post), run, false)
    ensures Ordered(Run(Init(pre, post), run).log)
  {
    InitHolds(pre, post);
    RunKeeps(Init(pre, post), run);
  }

  /** Is `p` what the log once was? */
  predicate WasOnce(p: Log, log: Log) {
    p == log || (log.Snoc? && WasOnce(p, log.prev))
  }

  /** In an ordered log, each event was allowed when it happened. */
  lemma {:induction false} OrderedAtEach(log: Log, p: Log, e: Event)
    requires Ordered(log) && WasOnce(Snoc(p, e), log)
    ensures EventOk(p, e)
  {
    if log != Snoc(p, e) { OrderedAtEach(log.prev, p, e); }
  }

  /** `ordseq` is 0 exactly when every barrier begun has ended. */
  lemma IdleIffAllEnded(pre: bool, post: bool, run: seq<Step>)
    requires Valid(Init(pre, post), run, false)
    ensures var q := Run(Init(pre, post), run);
            q.ordseq.Idle? <==> BegunIds(q.log) <= EndedIds(q.log)
  {
    InitHolds(pre, post);
    RunKeeps(Init(pre, post), run);
    var q := Run(Init(pre, post), run);
    if q.ordseq.Active? {
      assert q.orig in Held(q);
    }
  }

  /** In every run the request at the head of a busy list is classified correctly, and never late. */
  lemma HeadsAreInTurn(pre: bool, post: bool, run: seq<Step>)
    requires Valid(Init(pre, post), run, false)
    ensures var q := Run(Init(pre, post), run);
            q.ordseq.Active? && q.list != [] && Ranked(q.list[0]) ==>
              ReqSeq(q, q.list[0]) == TrueSeq(q, q.list[0]) >= CurSeq(q.ordseq)
  {
    InitHolds(pre, post);
    RunKeeps(Init(pre, post), run);
    var q := Run(Init(pre, post), run);
    if q.ordseq.Active? && q.list != [] && Ranked(q.list[0]) { HeadInTurn(q); }
  }
}
