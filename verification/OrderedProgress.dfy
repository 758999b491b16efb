/** An ordered sequence never stalls: with nothing at the driver, the next fetch makes progress. */
module OrderedProgress {
  import opened OrderedQueue
  import opened OrderedInvariant
  import opened OrderedSteps
  import opened OrderedEntry
  import opened OrderedFetch
  import opened OrderedRuns

  /** While draining with nothing at the driver, something to drain heads the list. */
  predicate Awake(q: Queue) {
    q.ordseq.Active? && !q.ordseq.drain && q.driver == {} ==>
      q.list != [] && ReqSeq(q, q.list[0]) <= DRAIN
  }

  lemma CheckWakes(q: Queue)
    requires Inv(q)
    ensures Awake(CheckDrain(q))
  {
    if CurSeq(q.ordseq) == DRAIN && q.driver == {} {
      DrainSeesAHead(q);
      assert FsOf(q.driver) == {};
    }
    CheckedWakes(q);
  }

  lemma CheckedWakes(q: Queue)
    requires CurSeq(q.ordseq) == DRAIN && q.driver == {} ==> q.list != [] && q.inFlight == 0
    ensures Awake(CheckDrain(q))
  {
  }

  lemma CompleteWakes(q: Queue, r: Request, err: int)
    requires Inv(q) && r in q.driver
    ensures Awake(Complete(q, r, err))
  {
    if r.id.User? {
      ReleasedKeeps(q, r);
      CheckWakes(Released(q, r));
    } else {
      assert q.ordseq.drain;
      EndedWakes(q, r, err);
    }
  }

  lemma EndedWakes(q: Queue, r: Request, err: int)
    requires !r.id.User? && q.ordseq.Active? && q.ordseq.drain
    ensures Awake(Complete(q, r, err))
  {
    var q1 := ElvCompleted(q.(driver := q.driver - {r}), r);
    assert q1.ordseq.Active? ==> q1.ordseq.drain;
    MarkedWakes(q1, ProxySeq(r.id), err);
  }

  lemma MarkedWakes(q: Queue, stage: nat, err: int)
    requires q.ordseq.Active? ==> q.ordseq.drain
    ensures Awake(CompleteSeq(q, stage, err))
  {
  }

  lemma RequeueWakes(q: Queue, r: Request)
    requires Inv(q) && r in q.driver
    ensures Awake(Requeue(q, r))
  {
  }

  /** While draining, the list holds the proxy barrier. */
  lemma BarQueued(q: Queue) returns (i: nat)
    requires ProxiesOk(q, User(0)) && OrigOk(q) && DriverOk(q) && ListOk(q)
    requires q.ordseq.Active? && !q.ordseq.drain
    ensures i < |q.list| && q.list[i].hard
  {
    assert ProxyHeld(q, Bar);
    var b :| (b in q.list || b in q.driver) && b.id == Bar;
    i :| 0 <= i < |q.list| && q.list[i] == b;
  }

  /** Nothing sorted passes the proxy barrier. */
  lemma DispatchWakes(q: Queue, c: Choice)
    requires Inv(q) && Awake(q) && c.r in q.sched
    ensures Awake(Dispatch(q, c))
  {
    if q.ordseq.Active? && !q.ordseq.drain {
      var i := BarQueued(q);
      DispatchKeepsHead(q, c, i);
    }
  }

  lemma DispatchKeepsHead(q: Queue, c: Choice, i: nat)
    requires i < |q.list| && q.list[i].hard
    ensures Dispatch(q, c).list[0] == q.list[0]
  {
    assert StopsAt(q, c.r, q.list[i]);
  }

  lemma {:induction false} DrainWakes(q: Queue, cs: seq<Choice>)
    requires Inv(q) && Awake(q) && IsDrain(q.sched, cs)
    ensures Awake(Drain(q, cs))
    decreases |cs|
  {
    if cs != [] {
      DispatchKeeps(q, cs[0]);
      DispatchWakes(q, cs[0]);
      DrainWakes(Dispatch(q, cs[0]), cs[1..]);
    }
  }

  lemma AddWakes(q: Queue, r: Request, soft: bool, elvpriv: bool, where: Where, cs: seq<Choice>)
    requires Inv(q) && Awake(q) && Enabled(q, SAdd(r, soft, elvpriv, where, cs), false)
    ensures Awake(Add(q, r, soft, elvpriv, where, cs))
  {
    var w := EffectiveWhere(r, soft, elvpriv, where);
    var q0 := Prepare(q, r, soft, w);
    assert w.Back? ==> Awake(Drain(q0, cs)) by {
      if w.Back? {
        PrepareKeeps(q, r, soft, w);
        DrainWakes(q0, cs);
      }
    }
    InsertWakes(q0, Stamped(q, r), w, cs);
    AddedWakes(q, r, soft, elvpriv, where, cs);
  }

  lemma AddedWakes(q: Queue, r: Request, soft: bool, elvpriv: bool, where: Where, cs: seq<Choice>)
    requires r.id.User?
    requires var w := EffectiveWhere(r, soft, elvpriv, where); Awake(Insert(Prepare(q, r, soft, w), Stamped(q, r), w, cs))
    ensures Awake(Add(q, r, soft, elvpriv, where, cs))
  {
  }

  lemma InsertWakes(q: Queue, r: Request, w: Where, cs: seq<Choice>)
    requires Awake(q) && (w.Back? ==> Awake(Drain(q, cs))) && (w.Front? ==> r.id.User? && !r.fs)
    ensures Awake(Insert(q, r, w, cs))
  {
  }

  lemma NextWakes(q: Queue)
    requires Inv(q) && Awake(q)
    ensures Awake(NextTurn(q).0)
  {
    if q.list != [] {
      DoOrderedKeeps(q);
      assert q.driver == {} ==> FsOf(q.driver) == {};
      TurnWakes(q);
    }
  }

  lemma TurnWakes(q: Queue)
    requires q.list != [] && Awake(q) && (q.driver == {} ==> q.inFlight == 0)
    requires var (q', o) := DoOrdered(q); o.Some? ==> Ready(q', o.value)
    ensures Awake(NextTurn(q).0)
  {
    OrderedWakes(q);
    var (q', o) := DoOrdered(q);
    if o.Some? && EmptyBarrier(o.value) {
      EndEmptyWakes(q', o.value);
    }
  }

  lemma OrderedWakes(q: Queue)
    requires q.list != [] && Awake(q) && (q.driver == {} ==> q.inFlight == 0)
    ensures Awake(DoOrdered(q).0)
  {
  }

  lemma EndEmptyWakes(q: Queue, r: Request)
    requires !r.id.User? && CurSeq(q.ordseq) == ProxySeq(r.id)
    ensures Awake(Complete(Dequeue(q, r), r, 0))
  {
    EndedWakes(Dequeue(q, r), r, 0);
  }

  lemma StepWakes(q: Queue, s: Step)
    requires Inv(q) && Awake(q) && Enabled(q, s, false)
    ensures Awake(Apply(q, s))
  {
    match s
    case SAdd(r, soft, elvpriv, where, cs) => AddWakes(q, r, soft, elvpriv, where, cs);
    case SDispatch(c) => DispatchWakes(q, c);
    case SNext => NextWakes(q);
    case SDequeue(r) =>
    case SComplete(r, err) => CompleteWakes(q, r, err);
    case SChunk(err) =>
    case SRequeue(r) => RequeueWakes(q, r);
    case SCheck => CheckWakes(q);
  }

  lemma {:induction false} RunWakes(q: Queue, run: seq<Step>)
    requires Inv(q) && Awake(q) && Valid(q, run, false)
    ensures Inv(Run(q, run)) && Awake(Run(q, run))
    decreases |run|
  {
    if run != [] {
      StepKeeps(q, run[0]);
      StepWakes(q, run[0]);
      RunWakes(Apply(q, run[0]), run[1..]);
    }
  }

  /** In every run, a sequence under way with nothing at the driver moves on at the next fetch. */
  lemma SequencesNeverStall(pre: bool, post: bool, run: seq<Step>)
    requires Valid(Init(pre, post), run, false)
    ensures var q := Run(Init(pre, post), run);
            q.ordseq.Active? && q.driver == {} ==> !NextTurn(q).1.Nothing?
  {
    InitHolds(pre, post);
    RunWakes(Init(pre, post), run);
    var q := Run(Init(pre, post), run);
    if q.ordseq.Active? && q.driver == {} {
      if q.ordseq.drain { StageAtHead(q); }
      HeadGoes(q);
    }
  }

  lemma HeadGoes(q: Queue)
    requires q.ordseq.Active? && q.list != [] && (Ranked(q.list[0]) ==> ReqSeq(q, q.list[0]) <= CurSeq(q.ordseq))
    ensures !NextTurn(q).1.Nothing?
  {
  }

  lemma StageQueued(q: Queue, id: Id) returns (i: nat)
    requires ProxyHeld(q, id) && q.driver == {}
    ensures i < |q.list| && q.list[i].id == id
  {
    var r :| (r in q.list || r in q.driver) && r.id == id;
    i :| 0 <= i < |q.list| && q.list[i] == r;
  }

  /** After draining, the proxy of the current stage is preceded by special requests only. */
  lemma StageAtHead(q: Queue)
    requires Inv(q) && q.ordseq.Active? && q.ordseq.drain && q.driver == {}
    ensures q.list != [] && (Ranked(q.list[0]) ==> ReqSeq(q, q.list[0]) <= CurSeq(q.ordseq))
  {
    StageHeads(q);
  }

  lemma StageHeads(q: Queue)
    requires ProxiesOk(q, User(0)) && Drained(q) && Sorted(Ends(q.log), q.list)
    requires q.ordseq.Active? && CurSeq(q.ordseq) != DRAIN && CurSeq(q.ordseq) != DONE && q.driver == {}
    ensures q.list != [] && (Ranked(q.list[0]) ==> ReqSeq(q, q.list[0]) <= CurSeq(q.ordseq))
  {
    var id := if CurSeq(q.ordseq) == PREFLUSH then PreFlush
              else if CurSeq(q.ordseq) == BAR then Bar else PostFlush;
    assert ProxyHeld(q, id);
    var i := StageQueued(q, id);
    assert q.list[0] in q.list;
    HeadBeforeProxy(q, i);
  }

  lemma HeadBeforeProxy(q: Queue, i: nat)
    requires i < |q.list| && !q.list[i].id.User? && Sorted(Ends(q.log), q.list)
    requires UserFs(q.list[0]) ==> q.list[0].epoch > Ends(q.log)
    ensures Ranked(q.list[0]) ==> ReqSeq(q, q.list[0]) <= ReqSeq(q, q.list[i])
  {
    assert i > 0 && Ranked(q.list[0]) ==> Key(Ends(q.log), q.list[0]) <= Key(Ends(q.log), q.list[i]);
  }
}
