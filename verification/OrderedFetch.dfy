/** Fetching from an ordered queue: beginning a sequence, handing out, ending an empty barrier. */
module OrderedFetch {
  import opened OrderedQueue
  import opened OrderedHistory
  import opened OrderedInvariant
  import opened OrderedSteps

  // -------------------------------------------------------- the list head

  /**
    While a sequence runs, the colour bit is right about the request at the head,
    and that request is never one whose stage is already over.
   */
  lemma HeadInTurn(q: Queue)
    requires Inv(q) && q.ordseq.Active? && q.list != [] && Ranked(q.list[0])
    ensures ReqSeq(q, q.list[0]) == TrueSeq(q, q.list[0]) >= CurSeq(q.ordseq)
  {
    ColourIsRight(q, 0);
    var r := q.list[0];
    assert r in q.list;
    if !r.id.User? { assert ProxyHeld(q, r.id); }
  }

  /** A barrier at the head of an idle queue is the earliest one not ended. */
  lemma HeadEpoch(q: Queue)
    requires Inv(q) && q.ordseq.Idle? && q.list != [] && UserFs(q.list[0])
    ensures q.list[0].epoch == Ends(q.log)
  {
    var f, r := Ends(q.log), q.list[0];
    assert r in q.list;
    assert r.epoch > f ==> HasBarrier(q.list, f);
    forall p | 0 <= p < |q.list| && UserFs(q.list[p]) && q.list[p].hard && q.list[p].epoch == f
      ensures r.epoch <= f
    {
      assert p > 0 ==> Key(f, r) <= Key(f, q.list[p]);
    }
  }

  /** While draining, the drain check looks at a request, not at an empty list. */
  lemma DrainSeesAHead(q: Queue)
    requires Inv(q) && CurSeq(q.ordseq) == DRAIN
    ensures q.list != []
  {
    assert ProxyHeld(q, Bar);
  }

  // ------------------------------------------------------------ handing out

  ghost predicate Ready(q: Queue, r: Request) {
    && q.list != [] && r == q.list[0]
    && (UserFs(r) ==> r.epoch == Ends(q.log) && !r.hard)
    && (!r.id.User? ==> q.ordseq.Active? && CurSeq(q.ordseq) == ProxySeq(r.id))
  }

  /** No barrier added before a request of the current epoch is unfinished. */
  lemma EarlierBarriersEnded(q: Queue, r: Request)
    requires Inv(q) && r in q.list && UserFs(r) && r.epoch == Ends(q.log)
    ensures MayHand(q.log, r.id.n)
  {
    assert r in Held(q);
    forall b | b in BarrierIds(q.log) && AddedBefore(q.log, b, r.id.n) ensures b in EndedIds(q.log) {
      EpochsFollowOrder(q.log, b, r.id.n);
      RecordTells(q.log, b);
      assert forall x :: x in Held(q) ==> x.id != User(b);
      assert b in EndedIds(q.log) || HasId(q, b);
    }
  }

  /** Everything added before the running barrier is done once draining is over. */
  lemma EarlierRequestsDone(q: Queue)
    requires Inv(q) && q.ordseq.Active? && q.ordseq.drain
    ensures MayHandProxy(q.log, BarId(q))
  {
    var b := BarId(q);
    assert q.orig in Held(q);
    RecordTells(q.log, b);
    forall a | a in FsIds(q.log) && AddedBefore(q.log, a, b) ensures a in DoneIds(q.log) {
      EpochsFollowOrder(q.log, a, b);
      RecordTells(q.log, a);
      assert forall x :: x in Held(q) ==> x.id != User(a);
      assert a in DoneIds(q.log) || HasId(q, a);
    }
  }

  lemma HandOutPlaces(q: Queue, r: Request)
    requires Places(q) && Lined(q) && Ready(q, r)
    requires forall x :: x in q.sched || x in q.list ==> x.id == r.id ==> x == r
    ensures Places(HandOut(q, r)) && Lined(HandOut(q, r))
  {
    var q' := HandOut(q, r);
    assert Ends(q'.log) == Ends(q.log) && Barriers(q'.log) == Barriers(q.log);
    assert r in q.list;
    StillSeparated(q, q');
  }

  lemma HandOutRest(q: Queue, r: Request)
    requires Recorded(q) && Running(q, User(0)) && r in q.list
    ensures Recorded(HandOut(q, r)) && Running(HandOut(q, r), User(0))
  {
    var q' := HandOut(q, r);
    Quiet(q.log, q'.log.last);
    assert Ends(q'.log) == Ends(q.log) && Barriers(q'.log) == Barriers(q.log);
    HeldSame(q, q');
    forall id: Id | !id.User? ensures ProxyHeld(q', id) <==> ProxyHeld(q, id) {}
    forall n | n in AddedIds(q'.log) && n !in DoneIds(q'.log) ensures HasId(q', n) { assert HasId(q, n); }
  }

  lemma HandOutOrdered(q: Queue, r: Request)
    requires Inv(q) && Ready(q, r)
    ensures Ordered(HandOut(q, r).log)
  {
    assert r in q.list && r in Held(q);
    if UserFs(r) { EarlierBarriersEnded(q, r); }
    if !r.id.User? { EarlierRequestsDone(q); }
  }

  lemma OnlyOne(q: Queue, r: Request)
    requires Known(q) && r in q.list
    ensures forall x :: x in q.sched || x in q.list ==> x.id == r.id ==> x == r
  {
    assert r in Held(q);
    forall x | (x in q.sched || x in q.list) && x.id == r.id ensures x == r {
      assert x in Held(q);
      SameIdSame(q, r, x);
    }
  }

  lemma HandOutKeeps(q: Queue, r: Request)
    requires Inv(q) && Ready(q, r)
    ensures Inv(HandOut(q, r))
  {
    assert r in q.list;
    HandOutOrdered(q, r);
    OnlyOne(q, r);
    HandOutPlaces(q, r);
    HandOutRest(q, r);
  }

  // ------------------------------------------------- beginning a sequence

  /** The two logs tell the same about requests. */
  ghost predicate SameRequests(log: Log, log': Log) {
    && Ends(log') == Ends(log) && Barriers(log') == Barriers(log)
    && AddedIds(log') == AddedIds(log) && FsIds(log') == FsIds(log) && BarrierIds(log') == BarrierIds(log)
    && DoneIds(log') == DoneIds(log) && EndedIds(log') == EndedIds(log)
    && (forall n :: RecordOf(log', n) == RecordOf(log, n))
    && (Fresh(log) ==> Fresh(log')) && (Ordered(log) ==> Ordered(log'))
  }

  lemma BeginLogTells(log: Log, n: nat, pre: bool, post: bool)
    ensures SameRequests(log, BeginLog(log, n, pre, post))
    ensures BegunIds(BeginLog(log, n, pre, post)) == BegunIds(log) + {n}
  {
    var log0 := Snoc(log, Begun(n));
    assert SameRequests(log, log0) && BegunIds(log0) == BegunIds(log) + {n};
    var log1 := if post then log0 else Snoc(log0, Skipped(n, POSTFLUSH));
    assert SameRequests(log0, log1) && BegunIds(log1) == BegunIds(log0);
    var log2 := if pre then log1 else Snoc(log1, Skipped(n, PREFLUSH));
    assert SameRequests(log1, log2);
  }

  lemma BeginLogStages(log: Log, n: nat, pre: bool, post: bool)
    requires Unbegun(log) && n !in BegunIds(log)
    ensures var log' := BeginLog(log, n, pre, post);
            && Unbegun(log') && FirstError(log', n) == 0
            && Marks(log', n, DRAIN) == 0 && Marks(log', n, BAR) == 0
            && Marks(log', n, PREFLUSH) == (if pre then 0 else 1)
            && Marks(log', n, POSTFLUSH) == (if post then 0 else 1)
  {
    var log0 := Snoc(log, Begun(n));
    Quiet(log, Begun(n));
    assert FirstError(log0, n) == 0 && forall s :: Marks(log0, n, s) == 0;
    var log1 := if post then log0 else Snoc(log0, Skipped(n, POSTFLUSH));
    if !post { Reported(log0, Skipped(n, POSTFLUSH)); }
    assert FirstError(log1, n) == 0 && forall s :: Marks(log1, n, s) == if s == POSTFLUSH && !post then 1 else 0;
    if !pre { Reported(log1, Skipped(n, PREFLUSH)); }
  }

  ghost predicate AtBarrier(q: Queue) {
    Inv(q) && q.ordseq.Idle? && q.list != [] && UserFs(q.list[0]) && q.list[0].hard
  }

  /** Nothing but user requests is in an idle queue; those behind its head barrier come later. */
  ghost predicate IdleFacts(q: Queue) {
    && q.ordseq.Idle? && q.list != [] && UserFs(q.list[0]) && q.list[0].hard
    && (forall x :: x in q.list || x in q.driver ==> x.id.User?)
    && (forall x :: x in q.list[1..] <==> x in q.list && x != q.list[0])
    && (forall x :: x in q.list[1..] && UserFs(x) ==> x.epoch > Ends(q.log))
    && q.list[0].epoch == Ends(q.log) < Barriers(q.log)
  }

  lemma OnlyUsers(q: Queue)
    requires ProxiesOk(q, User(0)) && q.ordseq.Idle?
    ensures forall x :: x in q.list || x in q.driver ==> x.id.User?
  {
    forall x | x in q.list || x in q.driver ensures x.id.User? {
      assert !ProxyHeld(q, x.id) || x.id.User?;
    }
  }

  lemma BehindHead(f: nat, list: seq<Request>)
    requires Sorted(f, list) && IdsDiffer(list) && list != [] && UserFs(list[0]) && list[0].hard && list[0].epoch == f
    ensures forall x :: x in list[1..] <==> x in list && x != list[0]
    ensures forall x :: x in list[1..] && UserFs(x) ==> x.epoch > f
  {
    assert list == [list[0]] + list[1..];
    forall x | x in list[1..] ensures x != list[0] && (UserFs(x) ==> x.epoch > f) {
      var i :| 0 <= i < |list[1..]| && list[1..][i] == x;
      assert list[i + 1] == x;
      assert UserFs(x) ==> Key(f, list[0]) < Key(f, list[i + 1]);
    }
  }

  lemma IdleQueue(q: Queue)
    requires AtBarrier(q)
    ensures IdleFacts(q)
  {
    HeadEpoch(q);
    assert q.list[0] in q.list;
    OnlyUsers(q);
    BehindHead(Ends(q.log), q.list);
  }

  lemma ProxiesThenRest(f: nat, ps: seq<Request>, t: seq<Request>, b: Request, pre: bool, post: bool)
    requires ps == Proxies(pre, post, b)
    requires Sorted(f, t) && IdsDiffer(t)
    requires forall i :: 0 <= i < |t| ==> t[i].id.User? && (UserFs(t[i]) ==> t[i].epoch > f)
    ensures Sorted(f, ps + t) && IdsDiffer(ps + t)
  {
    assert forall i :: 0 <= i < |ps| ==> !ps[i].id.User? && Key(f, ps[i]) < 4 * f + 4;
    assert Sorted(f, ps) && IdsDiffer(ps);
    SortedJoin(f, ps, t, 4 * f + 4);
    IdsDifferJoin(ps, t);
  }

  lemma SortedJoin(f: nat, a: seq<Request>, b: seq<Request>, k: int)
    requires Sorted(f, a) && Sorted(f, b)
    requires forall i :: 0 <= i < |a| && Ranked(a[i]) ==> Key(f, a[i]) < k
    requires forall i :: 0 <= i < |b| && Ranked(b[i]) ==> k <= Key(f, b[i])
    ensures Sorted(f, a + b)
  {
    var s := a + b;
    assert forall i :: 0 <= i < |s| ==> s[i] == if i < |a| then a[i] else b[i - |a|];
  }

  lemma IdsDifferJoin(a: seq<Request>, b: seq<Request>)
    requires IdsDiffer(a) && IdsDiffer(b)
    requires (forall i :: 0 <= i < |a| ==> !a[i].id.User?) && forall i :: 0 <= i < |b| ==> b[i].id.User?
    ensures IdsDiffer(a + b)
  {
    var s := a + b;
    assert forall i :: 0 <= i < |s| ==> s[i] == if i < |a| then a[i] else b[i - |a|];
  }

  lemma BeginningLined(q: Queue)
    requires IdleFacts(q) && Lined(q) && IdsDiffer(q.list)
    ensures Lined(Begin(q)) && IdsDiffer(Begin(q).list)
  {
    var q', t := Begin(q), q.list[1..];
    assert Ends(q'.log) == Ends(q.log) && Barriers(q'.log) == Barriers(q.log) by {
      BeginLogTells(q.log, q.list[0].id.n, q.preMode, Posts(q));
    }
    assert forall i :: 0 <= i < |t| ==> t[i] == q.list[i + 1] && t[i] in t;
    ProxiesThenRest(Ends(q.log), Proxies(q.preMode, Posts(q), q.list[0]), t, q.list[0], q.preMode, Posts(q));
    StillSeparated(q, q');
  }

  /** The proxies and what was behind the barrier, and no proxy was there before. */
  lemma BegunList(q: Queue)
    requires IdleFacts(q)
    ensures forall x :: x in Begin(q).list <==> x in Proxies(q.preMode, Posts(q), q.list[0]) || x in q.list[1..]
    ensures forall x :: x in Proxies(q.preMode, Posts(q), q.list[0]) ==>
                          !x.id.User? && Shape(x) && x.id in ProxyIds(q.preMode, Posts(q))
    ensures forall x :: x in q.list || x in q.driver ==> x.id !in ProxyIds(q.preMode, Posts(q))
  {
  }

  lemma BeginningDistinct(q: Queue)
    requires IdleFacts(q) && Places(q) && IdsDiffer(Begin(q).list)
    ensures Distinct(Begin(q))
  {
    BegunList(q);
    assert q.list[0] in q.list;
  }

  lemma BeginningDriver(q: Queue)
    requires IdleFacts(q) && DriverOk(q) && Ends(Begin(q).log) == Ends(q.log)
    ensures DriverOk(Begin(q))
  {
    BegunList(q);
  }

  lemma BeginningList(q: Queue)
    requires IdleFacts(q) && ListOk(q) && Ends(Begin(q).log) == Ends(q.log) && Barriers(Begin(q).log) == Barriers(q.log)
    ensures ListOk(Begin(q))
  {
    BegunList(q);
  }

  lemma BeginningSched(q: Queue)
    requires IdleFacts(q) && SchedOk(q) && Barriers(Begin(q).log) == Barriers(q.log)
    ensures SchedOk(Begin(q))
  {
  }

  lemma BeginningPlaces(q: Queue)
    requires IdleFacts(q) && Places(q) && IdsDiffer(Begin(q).list)
    ensures Places(Begin(q))
  {
    BeginLogTells(q.log, q.list[0].id.n, q.preMode, Posts(q));
    BeginningDriver(q);
    BeginningList(q);
    BeginningSched(q);
    BeginningDistinct(q);
  }

  /** The proxies queued are those of the stages not skipped. */
  lemma BeginningProxies(q: Queue)
    requires IdleFacts(q)
    ensures ProxiesOk(Begin(q), User(0))
  {
    var q', ps := Begin(q), Proxies(q.preMode, Posts(q), q.list[0]);
    BegunList(q);
    forall id: Id | !id.User? ensures ProxyHeld(q', id) <==> !Bit(q'.ordseq, ProxySeq(id)) {
      var x := if id.Bar? then BarProxy(q.list[0]) else Flush(id);
      assert x in ps <==> !Bit(q'.ordseq, ProxySeq(id));
      assert forall y :: y in ps && y.id == id ==> y == x;
      assert x in ps ==> ProxyHeld(q', id);
    }
  }

  lemma BeginningStages(q: Queue)
    requires q.list != [] && q.list[0].id.User? && Unbegun(q.log) && q.list[0].id.n !in BegunIds(q.log)
    ensures StagesOk(Begin(q))
  {
    BeginLogStages(q.log, q.list[0].id.n, q.preMode, Posts(q));
    BeginLogTells(q.log, q.list[0].id.n, q.preMode, Posts(q));
  }

  lemma BeginningOrig(q: Queue)
    requires IdleFacts(q) && ListOk(q)
    ensures OrigOk(Begin(q))
  {
    BeginLogTells(q.log, q.list[0].id.n, q.preMode, Posts(q));
    assert q.list[0] in q.list;
  }

  lemma BeginningRunning(q: Queue)
    requires IdleFacts(q) && Running(q, User(0)) && ListOk(q) && q.list[0].id.n !in BegunIds(q.log)
    ensures Running(Begin(q), User(0))
  {
    BeginningProxies(q);
    BeginningStages(q);
    BeginningOrig(q);
  }

  lemma BeginningHeld(q: Queue)
    requires IdleFacts(q)
    ensures forall x :: x in Held(Begin(q)) <==> x in Proxies(q.preMode, Posts(q), q.list[0]) || x in Held(q)
  {
    BegunList(q);
  }

  lemma BeginningKnown(q: Queue)
    requires IdleFacts(q) && Known(q) && SameRequests(q.log, Begin(q).log)
    ensures Known(Begin(q))
  {
    var q' := Begin(q);
    BeginningHeld(q);
    forall r | r in Held(q')
      ensures match r.id
              case User(n) => n in AddedIds(q'.log) && n !in DoneIds(q'.log) && r == RecordOf(q'.log, n)
              case Bar => q'.ordseq.Active? && r == BarProxy(q'.orig)
              case _ => r == Flush(r.id)
    {
      if r !in Held(q) { assert r in Proxies(q.preMode, Posts(q), q.list[0]); }
    }
  }

  lemma BeginningKept(q: Queue)
    requires IdleFacts(q) && Kept(q) && SameRequests(q.log, Begin(q).log)
    ensures Kept(Begin(q))
  {
    BeginningHeld(q);
    var q' := Begin(q);
    forall n | n in AddedIds(q'.log) && n !in DoneIds(q'.log) ensures HasId(q', n) {
      assert HasId(q, n);
      var x :| x in Held(q) && x.id == User(n);
      assert x in Held(q');
    }
  }

  lemma BeginningRecorded(q: Queue)
    requires IdleFacts(q) && Recorded(q) && Ordered(q.log)
    ensures Recorded(Begin(q)) && Ordered(Begin(q).log)
  {
    BeginLogTells(q.log, q.list[0].id.n, q.preMode, Posts(q));
    BeginningKnown(q);
    BeginningKept(q);
  }

  lemma BeginningKeeps(q: Queue)
    requires AtBarrier(q)
    ensures Inv(Begin(q)) && IdleFacts(q)
  {
    IdleQueue(q);
    assert q.list[0] in q.list && q.list[0] in Held(q);
    BeginningLined(q);
    BeginningPlaces(q);
    BeginningRunning(q);
    BeginningRecorded(q);
  }

  /** With nothing in flight, all that precedes the barrier at the head is over. */
  lemma BeginningDrained(q: Queue)
    requires IdleFacts(q) && q.inFlight == |FsOf(q.driver)| == 0
    ensures Drained(Begin(q))
  {
    var q' := Begin(q);
    assert Ends(q'.log) == Ends(q.log) by { BeginLogTells(q.log, q.list[0].id.n, q.preMode, Posts(q)); }
    forall r | r in q'.list && UserFs(r) ensures r.epoch > Ends(q.log) { assert r in q.list[1..]; }
    forall r | r in q.driver ensures !UserFs(r) { assert r !in FsOf(q.driver); }
  }

  lemma StartKeeps(q: Queue)
    requires AtBarrier(q)
    ensures Inv(StartOrdered(q).0)
  {
    BeginningKeeps(q);
    if q.inFlight == 0 {
      BeginningDrained(q);
      Mark(Begin(q), User(0), DRAIN, 0);
    }
  }

  // --------------------------------------------------------- empty barriers

  lemma DropHeadPlaces(q: Queue)
    requires Places(q) && Lined(q) && q.list != [] && q.list[0].id.Bar?
    ensures var q' := q.(list := q.list[1..]);
            Places(q') && Lined(q') && forall x :: x in q'.list <==> x in q.list && x != q.list[0]
  {
    var q' := q.(list := q.list[1..]);
    assert q.list[1..] == q.list[..0] + q.list[0 + 1..];
    CutKeeps(Ends(q.log), q.list, 0);
    StillSeparated(q, q');
  }

  lemma DropHeadRecorded(q: Queue)
    requires Recorded(q) && q.list != [] && q.list[0].id.Bar?
    requires forall x :: x in q.list[1..] <==> x in q.list && x != q.list[0]
    ensures Recorded(q.(list := q.list[1..]))
  {
    var q' := q.(list := q.list[1..]);
    forall x | x in Held(q') ensures x in Held(q) {}
    forall n | n in AddedIds(q'.log) && n !in DoneIds(q'.log) ensures HasId(q', n) {
      assert HasId(q, n);
      var x :| x in Held(q) && x.id == User(n);
      assert x in Held(q');
    }
  }

  lemma DropHeadBar(q: Queue)
    requires Inv(q) && q.list != [] && q.list[0].id.Bar?
    ensures InvBut(q.(list := q.list[1..]), Bar)
  {
    var q' := q.(list := q.list[1..]);
    DropHeadPlaces(q);
    var r := q.list[0];
    assert r in Held(q) && ProxyHeld(q, Bar);
    forall id: Id | !id.User? ensures ProxyHeld(q', id) <==> ProxyHeld(q, id) && id != Bar {
      if ProxyHeld(q', id) {
        var x :| (x in q'.list || x in q'.driver) && x.id == id;
        assert x in Held(q);
      }
      if ProxyHeld(q, id) && id != Bar {
        var x :| (x in q.list || x in q.driver) && x.id == id;
        assert x in q'.list || x in q'.driver;
      }
    }
    DropHeadRecorded(q);
  }

  lemma EndEmptyIs(q: Queue)
    requires q.list != [] && q.list[0].id.Bar? && q.list[0] !in q.driver
    requires CurSeq(q.ordseq) == BAR
    ensures Complete(Dequeue(q, q.list[0]), q.list[0], 0) == CompleteSeq(q.(list := q.list[1..]), BAR, 0)
  {
    assert q.driver + {q.list[0]} - {q.list[0]} == q.driver;
    assert Without(q.list, q.list[0]) == q.list[1..];
  }

  /** The proxy of an empty barrier is ended on the queue. */
  lemma EndEmptyKeeps(q: Queue)
    requires Inv(q) && q.list != [] && q.list[0].id.Bar? && CurSeq(q.ordseq) == BAR
    ensures Inv(Complete(Dequeue(q, q.list[0]), q.list[0], 0))
  {
    assert q.list[0] in q.list;
    EndEmptyIs(q);
    DropHeadBar(q);
    Mark(q.(list := q.list[1..]), Bar, BAR, 0);
  }

  // ------------------------------------------------------------------ a turn

  lemma ReadyHead(q: Queue)
    requires Inv(q) && q.list != [] && (Ranked(q.list[0]) ==>
               if q.ordseq.Idle? then !IsBarrier(q.list[0]) else ReqSeq(q, q.list[0]) <= CurSeq(q.ordseq))
    ensures Ready(q, q.list[0])
  {
    var r := q.list[0];
    assert r in q.list;
    if q.ordseq.Idle? {
      assert !r.id.User? ==> !ProxyHeld(q, r.id);
      if UserFs(r) { HeadEpoch(q); }
    } else if Ranked(r) {
      HeadInTurn(q);
    }
  }

  lemma StartHead(q: Queue)
    requires q.list != []
    ensures var (q', o) := StartOrdered(q);
            o.Some? ==> q'.list != [] && o.value == q'.list[0] && q'.ordseq.Active?
                        && ReqSeq(q', o.value) == CurSeq(q'.ordseq)
  {
  }

  lemma DoOrderedKeeps(q: Queue)
    requires Inv(q) && q.list != []
    ensures var (q', o) := DoOrdered(q);
            Inv(q') && (o.Some? ==> q'.list != [] && o.value == q'.list[0] && Ready(q', o.value))
  {
    var r := q.list[0];
    assert r in q.list;
    if q.ordseq.Idle? && IsBarrier(r) {
      assert r.id.User? by { assert !ProxyHeld(q, r.id) || r.id.User?; }
      StartKeeps(q);
      StartHead(q);
      var (q', o) := StartOrdered(q);
      if o.Some? { ReadyHead(q'); }
    } else if DoOrdered(q).1.Some? {
      ReadyHead(q);
    }
  }

  /** One turn of fetching keeps the invariant. */
  lemma NextTurnKeeps(q: Queue)
    requires Inv(q)
    ensures Inv(NextTurn(q).0)
  {
    if q.list != [] {
      DoOrderedKeeps(q);
      var (q', o) := DoOrdered(q);
      if o.Some? {
        if EmptyBarrier(o.value) {
          EndEmptyKeeps(q');
        } else {
          HandOutKeeps(q', o.value);
        }
      }
    }
  }
}
