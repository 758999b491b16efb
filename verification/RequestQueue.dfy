// The request queue as the block layer keeps it: one object whose fields each
// operation updates in place.  Every operation is proved to be the queue function
// of the same name, and the object is at all times what some run leads to, so what is
// proved of all runs holds of it.
module RequestQueues {
  import opened Common
  import opened OrderedQueue
  import opened OrderedHistory
  import opened OrderedInvariant
  import opened OrderedEntry
  import opened OrderedFetch
  import OrderedRuns
  import OrderedProgress

  const EIO: int := 5

  /** What the driver's preparation says of a request: it can go, must wait, or has failed. */
  datatype Prep = Fine | Defer | Kill

  // -------------------------------------------------------- fetching comes to an end

  /** A barrier not yet begun counts for the three proxies it may become, and one more. */
  function Weight(list: seq<Request>): nat {
    if list == [] then 0 else (if UserFs(list[0]) && list[0].hard then 4 else 1) + Weight(list[1..])
  }

  lemma {:induction false} WeightOfBoth(a: seq<Request>, b: seq<Request>)
    ensures Weight(a + b) == Weight(a) + Weight(b)
  {
    if a == [] {
      assert a + b == b;
    } else {
      assert (a + b)[1..] == a[1..] + b;
      WeightOfBoth(a[1..], b);
    }
  }

  lemma MarkKeepsList(q: Queue, stage: nat, err: int)
    ensures CompleteSeq(q, stage, err).list == q.list && CompleteSeq(q, stage, err).sched == q.sched
  {
  }

  lemma CompleteKeepsList(q: Queue, r: Request, err: int)
    ensures Complete(q, r, err).list == q.list && Complete(q, r, err).sched == q.sched
  {
    var q0 := q.(driver := q.driver - {r});
    var q1 := if r.id.User? then q0.(log := Snoc(q.log, Completed(r.id.n))) else q0;
    MarkKeepsList(if Account(q1, r) then q1.(inFlight := q1.inFlight - 1) else q1, DRAIN, 0);
    MarkKeepsList(ElvCompleted(q1, r), ProxySeq(r.id), err);
  }

  lemma BeginLightens(q: Queue)
    requires q.list != [] && UserFs(q.list[0]) && q.list[0].hard
    ensures Weight(Begin(q).list) < Weight(q.list) && Begin(q).sched == q.sched
  {
    var ps := Proxies(q.preMode, Posts(q), q.list[0]);
    WeightOfBoth(ps, q.list[1..]);
    assert |ps| <= 3 && forall i :: 0 <= i < |ps| ==> !ps[i].id.User?;
    LightAll(ps);
  }

  lemma {:induction false} LightAll(ps: seq<Request>)
    requires forall i :: 0 <= i < |ps| ==> !ps[i].id.User?
    ensures Weight(ps) == |ps|
  {
    if ps != [] { LightAll(ps[1..]); }
  }

  /** The head is decided on: if it may go, the list is no heavier than before. */
  predicate HeadLight(q: Queue)
    requires q.list != []
  {
    var (q', o) := DoOrdered(q);
    q'.sched == q.sched && Weight(q'.list) <= Weight(q.list) && (o.Some? ==> q'.list != [] && o.value == q'.list[0])
  }

  lemma HeadLightens(q: Queue)
    requires Inv(q) && q.list != []
    ensures HeadLight(q)
  {
    if q.ordseq.Idle? && IsBarrier(q.list[0]) {
      HeadIsUser(q);
      BeginLightens(q);
      MarkKeepsList(Begin(q), DRAIN, 0);
    }
  }

  lemma HeadIsUser(q: Queue)
    requires Inv(q) && q.list != [] && q.ordseq.Idle?
    ensures q.list[0].id.User?
  {
    assert q.list[0] in q.list;
    assert !ProxyHeld(q, q.list[0].id) || q.list[0].id.User?;
  }

  lemma HeadGone(q: Queue, err: int)
    requires q.list != []
    ensures var q' := Complete(Dequeue(q, q.list[0]), q.list[0], err);
            q'.sched == q.sched && Weight(q'.list) < Weight(q.list)
  {
    CompleteKeepsList(Dequeue(q, q.list[0]), q.list[0], err);
    assert Without(q.list, q.list[0]) == q.list[1..];
  }

  /** A turn of fetching: nothing is lost of the scheduler, and the list gets no heavier. */
  lemma TurnLightens(q: Queue)
    requires q.list != [] ==> HeadLight(q)
    ensures var (q', f) := NextTurn(q);
            && q'.sched == q.sched && Weight(q'.list) <= Weight(q.list)
            && (f.Again? ==> Weight(q'.list) < Weight(q.list))
  {
    if q.list != [] {
      var (q1, o) := DoOrdered(q);
      if o.Some? { HeadGone(q1, 0); }
    }
  }

  // -------------------------------------------------------------------- runs

  /** Does `run` lead from an empty queue to `q`? */
  ghost predicate LeadsTo(pre: bool, post: bool, run: seq<OrderedRuns.Step>, q: Queue) {
    OrderedRuns.Valid(Init(pre, post), run, false) && OrderedRuns.Run(Init(pre, post), run) == q
  }

  lemma LeadsOn(pre: bool, post: bool, run: seq<OrderedRuns.Step>, q: Queue, x: OrderedRuns.Step)
    requires LeadsTo(pre, post, run, q) && OrderedRuns.Enabled(q, x, false)
    ensures LeadsTo(pre, post, run + [x], OrderedRuns.Apply(q, x))
  {
    OrderedRuns.RunMore(Init(pre, post), run, x, false);
  }

  lemma LeadsToInv(pre: bool, post: bool, run: seq<OrderedRuns.Step>, q: Queue)
    requires LeadsTo(pre, post, run, q)
    ensures Inv(q)
  {
    OrderedRuns.InitHolds(pre, post);
    OrderedRuns.RunKeeps(Init(pre, post), run);
  }

  /** What a turn of fetching leads to: the list gets no heavier, and a request is given only if it may be. */
  lemma TurnOf(pre: bool, post: bool, run: seq<OrderedRuns.Step>, q: Queue)
    requires LeadsTo(pre, post, run, q)
    ensures var (q', f) := NextTurn(q);
            && LeadsTo(pre, post, run + [OrderedRuns.SNext], q')
            && q'.sched == q.sched && (f.Again? ==> Weight(q'.list) < Weight(q.list))
            && (f.Got? ==> Weight(q'.list) <= Weight(q.list) && IsGiven(q', f.r))
  {
    LeadsToInv(pre, post, run, q);
    if q.list != [] { HeadLightens(q); }
    TurnLightens(q);
    LeadsOn(pre, post, run, q, OrderedRuns.SNext);
    TurnGives(q);
  }

  /** `r` is at the head, marked as started, and the last event hands it out as those before allow. */
  ghost predicate IsGiven(q: Queue, r: Request) {
    && q.list != [] && r == q.list[0] && r.id in q.started && !EmptyBarrier(r) && q.log.Snoc?
    && if r.id.User? then q.log.last == Handed(r.id.n, r.fs) && (r.fs ==> MayHand(q.log.prev, r.id.n))
       else q.log.last == HandedProxy(r.id, BarId(q)) && MayHandProxy(q.log.prev, BarId(q))
  }

  lemma OrderedGives(q: Queue, r: Request)
    requires Ordered(HandOut(q, r).log) && q.list != [] && r == q.list[0] && !EmptyBarrier(r)
    ensures IsGiven(HandOut(q, r), r)
  {
  }

  lemma TurnGives(q: Queue)
    requires Inv(q)
    ensures var (q', f) := NextTurn(q); f.Got? ==> IsGiven(q', f.r)
  {
    var (q', f) := NextTurn(q);
    if f.Got? {
      assert Ordered(q'.log) by { NextTurnKeeps(q); }
      HeadLightens(q);
      OrderedGives(DoOrdered(q).0, f.r);
    }
  }

  /** The head is of a later stage than the one under way, and the driver has something to finish. */
  predicate MustWait(q: Queue) {
    q.list != [] && q.ordseq.Active? && ReqSeq(q, q.list[0]) > CurSeq(q.ordseq) && q.driver != {}
  }

  lemma BegunWaits(q: Queue)
    requires Inv(q) && q.list != [] && q.ordseq.Idle? && IsBarrier(q.list[0]) && q.inFlight != 0
    ensures MustWait(Begin(q))
  {
    assert q.driver == {} ==> FsOf(q.driver) == {};
    var q' := Begin(q);
    assert q'.list[0] == Proxies(q.preMode, Posts(q), q.list[0])[0];
  }

  lemma NothingMeans(q: Queue)
    requires q.list != [] && NextTurn(q).1.Nothing?
    ensures if q.ordseq.Idle? then IsBarrier(q.list[0]) && q.inFlight != 0 && NextTurn(q).0 == Begin(q)
            else ReqSeq(q, q.list[0]) > CurSeq(q.ordseq) && NextTurn(q).0 == q
  {
  }

  lemma DriverBusy(pre: bool, post: bool, run: seq<OrderedRuns.Step>, q: Queue)
    requires LeadsTo(pre, post, run, q) && q.ordseq.Active? && NextTurn(q).1.Nothing?
    ensures q.driver != {}
  {
    OrderedProgress.SequencesNeverStall(pre, post, run);
  }

  /** Nothing is given from a list that is not empty only if the head must wait. */
  lemma TurnWaits(pre: bool, post: bool, run: seq<OrderedRuns.Step>, q: Queue)
    requires LeadsTo(pre, post, run, q) && q.list != [] && NextTurn(q).1.Nothing?
    ensures MustWait(NextTurn(q).0)
  {
    NothingMeans(q);
    if q.ordseq.Idle? {
      LeadsToInv(pre, post, run, q);
      BegunWaits(q);
    } else {
      DriverBusy(pre, post, run, q);
    }
  }

  /** A request whose preparation failed is taken off the list and ended. */
  lemma KillOf(pre: bool, post: bool, run: seq<OrderedRuns.Step>, q: Queue)
    requires LeadsTo(pre, post, run, q) && q.list != [] && q.list[0].id in q.started
    ensures var r := q.list[0]; var q1 := Dequeue(q, r); var q2 := Complete(q1, r, -EIO);
            && LeadsTo(pre, post, run + [OrderedRuns.SDequeue(r)], q1)
            && LeadsTo(pre, post, run + [OrderedRuns.SDequeue(r)] + [OrderedRuns.SComplete(r, -EIO)], q2)
            && q2.sched == q.sched && Weight(q2.list) < Weight(q.list)
  {
    var r := q.list[0];
    LeadsOn(pre, post, run, q, OrderedRuns.SDequeue(r));
    LeadsOn(pre, post, run + [OrderedRuns.SDequeue(r)], Dequeue(q, r), OrderedRuns.SComplete(r, -EIO));
    HeadGone(q, -EIO);
  }

  // ---------------------------------------------------------------- draining

  lemma {:induction false} DrainOneMore(q: Queue, cs: seq<Choice>, c: Choice)
    ensures Drain(q, cs + [c]) == Dispatch(Drain(q, cs), c)
    decreases |cs|
  {
    if cs == [] {
      assert [c][1..] == [];
      assert Drain(q, [c]) == Drain(Dispatch(q, c), []);
      assert cs + [c] == [c];
    } else {
      assert (cs + [c])[1..] == cs[1..] + [c];
      DrainOneMore(Dispatch(q, cs[0]), cs[1..], c);
    }
  }

  lemma {:induction false} LeavesOneLess(sched: set<Request>, cs: seq<Choice>, rest: set<Request>, c: Choice)
    requires Leaves(sched, cs, rest) && c.r in rest
    ensures Leaves(sched, cs + [c], rest - {c.r})
    decreases |cs|
  {
    if cs == [] {
      assert Leaves(sched - {c.r}, [], rest - {c.r});
      assert (cs + [c])[1..] == [];
    } else {
      assert (cs + [c])[1..] == cs[1..] + [c];
      LeavesOneLess(sched - {cs[0].r}, cs[1..], rest, c);
    }
  }

  class RequestQueue {
    var sched: set<Request>
    var list: seq<Request>
    var driver: set<Request>
    var started: set<Id>
    var soft: set<Id>
    var inFlight: int
    var ordseq: OrdSeq
    var orderr: int
    var ordcolor: bool
    var orig: Request
    var endSector: nat
    var boundary: Option<Id>
    const preMode: bool
    const postMode: bool
    var log: Log
    ghost var history: seq<OrderedRuns.Step>

    ghost function View(): Queue
      reads this
    {
      Queue(sched, list, driver, started, soft, inFlight, ordseq, orderr, ordcolor, orig,
            endSector, boundary, preMode, postMode, log)
    }

    /** The queue is what its history, a run as proved ordered, leads to. */
    ghost predicate Valid()
      reads this
    {
      LeadsTo(preMode, postMode, history, View())
    }

    /** So all that is proved of runs holds of it. */
    lemma Promises()
      requires Valid()
      ensures Inv(View()) && Ordered(log)
    {
      LeadsToInv(preMode, postMode, history, View());
    }

    constructor (pre: bool, post: bool)
      ensures Valid() && View() == Init(pre, post) && history == []
    {
      history := [];
      sched, list, driver, started, soft := {}, [], {}, {}, {};
      inFlight, ordseq, orderr, ordcolor := 0, Idle, 0, false;
      orig := Request(User(0), true, true, true, 0, 0, false, 0);
      endSector, boundary := 0, None;
      preMode, postMode := pre, post;
      log := Empty;
    }

    // ------------------------------------------------------- the scheduler

    /** The backwards scan for where a sorted request goes. */
    method FindSortPos(r: Request) returns (k: nat)
      ensures k == SortPos(View(), r, |list|)
    {
      k := |list|;
      while k > 0
        invariant k <= |list|
        invariant SortPos(View(), r, |list|) == SortPos(View(), r, k)
      {
        var pos := list[k - 1];
        if r.write != pos.write { break; }
        if pos.hard || pos.id in soft || pos.id in started { break; }
        if r.sector >= endSector {
          if pos.sector < endSector {
            k := k - 1;
            continue;
          }
        } else {
          if pos.sector >= endSector { break; }
        }
        if r.sector >= pos.sector { break; }
        k := k - 1;
      }
    }

    // The methods that follow are parts of operations: they keep the fields in step with the
    // queue functions, and `history` is brought up to date by the operation they are part of.

    method DispatchSort(r: Request)
      requires r in sched
      modifies this
      ensures history == old(history) && View() == Dispatch(old(View()), Choice(r, true))
    {
      var k := FindSortPos(r);
      sched := sched - {r};
      list := list[..k] + [r] + list[k..];
    }

    method DispatchAddTail(r: Request)
      requires r in sched
      modifies this
      ensures history == old(history) && View() == Dispatch(old(View()), Choice(r, false))
    {
      sched := sched - {r};
      endSector := r.sector + r.len;
      boundary := Some(r.id);
      list := list + [r];
    }

    /** Forced dispatch: the scheduler gives up its requests in an order of its own. */
    method DrainElevator() returns (ghost cs: seq<Choice>)
      modifies this
      ensures history == old(history) && sched == {} && IsDrain(old(sched), cs) && View() == Drain(old(View()), cs)
    {
      cs := [];
      while sched != {}
        invariant history == old(history) && View() == Drain(old(View()), cs)
        invariant Leaves(old(sched), cs, sched)
        decreases |sched|
      {
        var r :| r in sched;
        var sort := *;
        DrainOneMore(old(View()), cs, Choice(r, sort));
        LeavesOneLess(old(sched), cs, sched, Choice(r, sort));
        cs := cs + [Choice(r, sort)];
        if sort { DispatchSort(r); } else { DispatchAddTail(r); }
      }
    }

    // -------------------------------------------------------------- adding

    method PrepareRequest(r: Request, isSoft: bool, w: Where)
      modifies this
      ensures history == old(history) && View() == Prepare(old(View()), r, isSoft, w)
    {
      started := started - {r.id};
      soft := if isSoft || w != Sort then soft + {r.id} else soft - {r.id};
      if (isSoft || r.hard) && r.fs {
        endSector := r.sector + r.len;
        boundary := Some(r.id);
      }
    }

    method InsertRequest(rq: Request, w: Where) returns (ghost cs: seq<Choice>)
      modifies this
      ensures w.Back? ==> IsDrain(old(sched), cs)
      ensures View() == Insert(old(View()), rq, w, cs)
      ensures history == old(history) && ordcolor == old(ordcolor) && log == old(log)
    {
      cs := [];
      match w {
        case Front =>
          list := [rq] + list;
        case Back =>
          cs := DrainElevator();
          DrainFrame(old(View()), cs);
          list := list + [rq];
        case Sort =>
          sched := sched + {rq};
      }
    }

    method AddRequest(r: Request, isSoft: bool, elvpriv: bool, where: Where) returns (ghost cs: seq<Choice>)
      requires Valid() && r.id.User? && r.id.n !in AddedIds(log) && (r.hard ==> r.fs)
      requires var w := EffectiveWhere(r, isSoft, elvpriv, where); if r.fs then !w.Front? else !w.Sort?
      modifies this
      ensures EffectiveWhere(r, isSoft, elvpriv, where).Back? ==> IsDrain(old(sched), cs)
      ensures Valid() && View() == Add(old(View()), r, isSoft, elvpriv, where, cs)
    {
      ghost var q := View();
      cs := EnterRequest(r, isSoft, elvpriv, where);
      LeadsOn(preMode, postMode, history, q, OrderedRuns.SAdd(r, isSoft, elvpriv, where, cs));
      history := history + [OrderedRuns.SAdd(r, isSoft, elvpriv, where, cs)];
    }

    method EnterRequest(r: Request, isSoft: bool, elvpriv: bool, where: Where) returns (ghost cs: seq<Choice>)
      requires r.id.User?
      modifies this
      ensures EffectiveWhere(r, isSoft, elvpriv, where).Back? ==> IsDrain(old(sched), cs)
      ensures history == old(history) && View() == Add(old(View()), r, isSoft, elvpriv, where, cs)
    {
      var rq, w := r.(color := ordcolor, epoch := Barriers(log)), where;
      if isSoft || r.hard {
        if w.Sort? { w := Back; }
      } else if !elvpriv && w.Sort? {
        w := Back;
      }
      PrepareRequest(r, isSoft, w);
      cs := InsertRequest(rq, w);
      Record(r, rq);
    }

    method Record(r: Request, rq: Request)
      requires r.id.User?
      modifies this
      ensures history == old(history)
      ensures View() == old(View()).(ordcolor := if r.hard then !old(ordcolor) else old(ordcolor),
                                     log := Snoc(old(log), Added(r.id.n, rq)))
    {
      if r.hard { ordcolor := !ordcolor; }
      log := Snoc(log, Added(r.id.n, rq));
    }

    // --------------------------------------------------------- completion

    method MarkSeq(stage: nat, err: int)
      modifies this
      ensures history == old(history) && View() == CompleteSeq(old(View()), stage, err)
    {
      if err != 0 && orderr == 0 { orderr := err; }
      ordseq := SetBit(ordseq, stage);
      log := Snoc(log, Marked(if orig.id.User? then orig.id.n else 0, stage, err));
      if CurSeq(ordseq) != DONE { return; }
      ordseq := Idle;
      log := Snoc(log, Ended(if orig.id.User? then orig.id.n else 0, orderr));
    }

    method Release(r: Request)
      modifies this
      ensures history == old(history) && View() == ElvCompleted(old(View()), r)
    {
      if r.id in started && r.fs { inFlight := inFlight - 1; }
      if ordseq != Idle {
        if inFlight == 0 && CurSeq(ordseq) == DRAIN && list != [] && ReqSeqOf(list[0]) > DRAIN {
          MarkSeq(DRAIN, 0);
        }
      }
    }

    /** The driver has done with a request. */
    method CompleteRequest(r: Request, err: int)
      requires Valid() && r in driver
      modifies this
      ensures Valid() && View() == Complete(old(View()), r, err)
    {
      LeadsOn(preMode, postMode, history, View(), OrderedRuns.SComplete(r, err));
      EndRequest(r, err);
      history := history + [OrderedRuns.SComplete(r, err)];
    }

    method EndRequest(r: Request, err: int)
      requires r in driver
      modifies this
      ensures history == old(history) && View() == Complete(old(View()), r, err)
    {
      driver := driver - {r};
      match r.id {
        case User(n) =>
          log := Snoc(log, Completed(n));
          Release(r);
        case PreFlush =>
          Release(r);
          MarkSeq(PREFLUSH, err);
        case Bar =>
          Release(r);
          MarkSeq(BAR, err);
        case PostFlush =>
          Release(r);
          MarkSeq(POSTFLUSH, err);
      }
    }

    function ReqSeqOf(r: Request): (s: nat)
      reads this
      ensures s == ReqSeq(View(), r)
    {
      if !r.id.User? then ProxySeq(r.id)
      else if !r.fs then DRAIN
      else if r.color == orig.color then DRAIN
      else DONE
    }

    /** The forwards scan for where a request of the given stage goes back. */
    method FindInsertPos(stage: nat) returns (p: nat)
      ensures p == InsertPos(View(), list, stage, 0)
    {
      p := 0;
      while p < |list| && !(stage <= ReqSeqOf(list[p]))
        invariant p <= |list|
        invariant InsertPos(View(), list, stage, 0) == InsertPos(View(), list, stage, p)
      {
        p := p + 1;
      }
    }

    /** A request goes back to where its stage puts it. */
    method RequeueRequest(r: Request)
      requires Valid() && r in driver
      modifies this
      ensures Valid() && View() == Requeue(old(View()), r)
    {
      LeadsOn(preMode, postMode, history, View(), OrderedRuns.SRequeue(r));
      PutBack(r);
      history := history + [OrderedRuns.SRequeue(r)];
    }

    method PutBack(r: Request)
      requires r in driver
      modifies this
      ensures history == old(history) && View() == Requeue(old(View()), r)
    {
      var p: nat := 0;
      if ordseq != Idle { p := FindInsertPos(ReqSeqOf(r)); }
      list := list[..p] + [r] + list[p..];
      LeaveDriver(r);
    }

    method LeaveDriver(r: Request)
      modifies this
      ensures history == old(history)
      ensures View() == old(View()).(driver := old(driver) - {r}, started := old(started) - {r.id}, soft := old(soft) + {r.id},
                                     inFlight := if Account(old(View()), r) then old(inFlight) - 1 else old(inFlight))
    {
      driver := driver - {r};
      if r.id in started && r.fs { inFlight := inFlight - 1; }
      started := started - {r.id};
      soft := soft + {r.id};
    }

    /** The driver takes a request it has been given. */
    method DequeueRequest(r: Request)
      requires Valid() && r in list && r.id in started
      modifies this
      ensures Valid() && View() == Dequeue(old(View()), r)
    {
      LeadsOn(preMode, postMode, history, View(), OrderedRuns.SDequeue(r));
      TakeOff(r);
      history := history + [OrderedRuns.SDequeue(r)];
    }

    method TakeOff(r: Request)
      modifies this
      ensures history == old(history) && View() == Dequeue(old(View()), r)
    {
      list := Without(list, r);
      driver := driver + {r};
      if r.id in started && r.fs { inFlight := inFlight + 1; }
    }

    // ------------------------------------------------------------ fetching

    /** The sequence is stacked at the head, last stage first. */
    method StackSequence(b: Request, post: bool) returns (stack: seq<Request>)
      requires list != []
      ensures stack == Proxies(preMode, post, b) + list[1..]
    {
      stack := list[1..];
      if post { stack := [Flush(PostFlush)] + stack; }
      stack := [BarProxy(b)] + stack;
      if preMode { stack := [Flush(PreFlush)] + stack; }
    }

    method BeginSequence()
      requires list != []
      modifies this
      ensures history == old(history) && View() == Begin(old(View()))
    {
      var b := list[0];
      var post := postMode && !EmptyBarrier(BarProxy(b));
      assert post == Posts(View());
      var stack := StackSequence(b, post);
      InitProxies(post);
      BecomeActive(b, stack, post);
    }

    method BecomeActive(b: Request, stack: seq<Request>, post: bool)
      modifies this
      ensures history == old(history)
      ensures View() == old(View()).(orderr := 0, orig := b, list := stack, ordseq := Active(false, !preMode, false, !post),
                                     log := BeginLog(old(log), if b.id.User? then b.id.n else 0, preMode, post))
    {
      orderr, orig, list := 0, b, stack;
      log := BeginLog(log, if b.id.User? then b.id.n else 0, preMode, post);
      ordseq := Active(false, !preMode, false, !post);
    }

    /** The proxies in use are set up afresh. */
    method InitProxies(post: bool)
      modifies this
      ensures history == old(history)
      ensures View() == old(View()).(started := old(started) - ProxyIds(preMode, post),
                                     soft := old(soft) + ProxyIds(preMode, post))
    {
      started, soft := started - {Bar}, soft + {Bar};
      if preMode { started, soft := started - {PreFlush}, soft + {PreFlush}; }
      if post { started, soft := started - {PostFlush}, soft + {PostFlush}; }
    }

    method StartSequence() returns (o: Option<Request>)
      requires list != []
      modifies this
      ensures history == old(history) && (View(), o) == StartOrdered(old(View()))
    {
      BeginSequence();
      if inFlight == 0 {
        o := Some(list[0]);
        MarkSeq(DRAIN, 0);
      } else {
        o := None;
      }
    }

    method DoOrderedHead() returns (o: Option<Request>)
      requires list != []
      modifies this
      ensures history == old(history) && (View(), o) == DoOrdered(old(View()))
    {
      var r := list[0];
      if ordseq == Idle {
        if !(r.fs && r.hard) { return Some(r); }
        o := StartSequence();
        return;
      }
      if !r.fs && r.id.User? { return Some(r); }
      if ReqSeqOf(r) > CurSeq(ordseq) { return None; }
      return Some(r);
    }

    method Give(r: Request)
      modifies this
      ensures history == old(history) && View() == HandOut(old(View()), r)
    {
      started := started + {r.id};
      if boundary == None || boundary == Some(r.id) {
        endSector := r.sector + r.len;
        boundary := None;
      }
      log := Snoc(log, if r.id.User? then Handed(r.id.n, r.fs)
                       else HandedProxy(r.id, if orig.id.User? then orig.id.n else 0));
    }

    /** One turn of fetching; an empty barrier's proxy is ended here, the driver must never see it. */
    method Turn() returns (f: Fetch)
      modifies this
      ensures history == old(history) && (View(), f) == NextTurn(old(View()))
    {
      if list == [] { return Nothing; }
      var o := DoOrderedHead();
      if o == None { return Nothing; }
      if EmptyBarrier(o.value) {
        TakeOff(o.value);
        EndRequest(o.value, 0);
        return Again;
      }
      Give(o.value);
      return Got(o.value);
    }

    /** The scheduler is asked for a request; it may decline, or dispatch any it holds, by either means. */
    method SchedulerTurn() returns (c: Option<Choice>)
      requires Valid()
      modifies this
      ensures Valid() && (c.None? ==> View() == old(View()))
      ensures c.Some? ==> c.value.r in old(sched) && View() == Dispatch(old(View()), c.value)
    {
      var declines, sort := *, *;
      if sched == {} || declines { return None; }
      var r :| r in sched;
      LeadsOn(preMode, postMode, history, View(), OrderedRuns.SDispatch(Choice(r, sort)));
      if sort { DispatchSort(r); } else { DispatchAddTail(r); }
      history := history + [OrderedRuns.SDispatch(Choice(r, sort))];
      return Some(Choice(r, sort));
    }

    /** A turn of fetching from the list: with nothing given the head must wait. */
    method FetchTurn() returns (f: Fetch)
      requires Valid() && list != []
      modifies this
      ensures Valid() && sched == old(sched)
      ensures match f
              case Nothing => MustWait(View())
              case Again => Weight(list) < old(Weight(list))
              case Got(r) => IsGiven(View(), r) && Weight(list) <= old(Weight(list))
    {
      TurnOf(preMode, postMode, history, View());
      if NextTurn(View()).1.Nothing? { TurnWaits(preMode, postMode, history, View()); }
      f := Turn();
      history := history + [OrderedRuns.SNext];
    }

    /**
      What the driver is given when it asks for the next request: turns of fetching and, with an
      empty list, of the scheduler, until a request can be given or none is to be had.  One whose
      preparation fails is ended.  A request is given only if everything it must follow is over;
      with requests on the list none is given only if the head must wait, or is not yet prepared.
     */
    method Next(prep: Request -> Prep) returns (o: Option<Request>)
      requires Valid()
      modifies this
      ensures Valid() && (o.Some? ==> IsGiven(View(), o.value) && prep(o.value) == Fine)
      ensures o.None? && list != [] ==> MustWait(View()) || (IsGiven(View(), list[0]) && prep(list[0]) == Defer)
    {
      while true
        invariant Valid()
        decreases |sched|, Weight(list)
      {
        if list == [] {
          var c := SchedulerTurn();
          if c == None { return None; }
        } else {
          var f := FetchTurn();
          match f {
            case Nothing => return None;
            case Again =>
            case Got(r) =>
              match prep(r) {
                case Fine => return Some(r);
                case Defer => return None;
                case Kill => EndUnprepared(r);
              }
          }
        }
      }
    }

    method EndUnprepared(r: Request)
      requires Valid() && list != [] && r == list[0] && r.id in started
      modifies this
      ensures Valid() && sched == old(sched) && Weight(list) < old(Weight(list))
    {
      KillOf(preMode, postMode, history, View());
      TakeOff(r);
      EndRequest(r, -EIO);
      history := history + [OrderedRuns.SDequeue(r)] + [OrderedRuns.SComplete(r, -EIO)];
    }
  }
}
