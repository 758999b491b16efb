/** Each operation of an ordered queue keeps the queue invariant. */
module OrderedSteps {
  import opened OrderedQueue
  import opened OrderedHistory
  import opened OrderedInvariant

  lemma {:induction false} WithoutCuts(s: seq<Request>, r: Request) returns (p: nat)
    requires r in s
    ensures p < |s| && s[p] == r && Without(s, r) == s[..p] + s[p + 1..]
  {
    if s[0] == r {
      p := 0;
    } else {
      var k := WithoutCuts(s[1..], r);
      p := k + 1;
      assert [s[0]] + (s[1..][..k] + s[1..][k + 1..]) == s[..p] + s[p + 1..];
    }
  }

  /** Events other than stage reports leave every barrier's stage record alone. */
  lemma Quiet(log: Log, e: Event)
    requires !e.Marked? && !e.Skipped? && !e.Chunk?
    ensures forall b, s :: Marks(Snoc(log, e), b, s) == Marks(log, b, s)
    ensures forall b :: FirstError(Snoc(log, e), b) == FirstError(log, b)
    ensures Unbegun(log) ==> Unbegun(Snoc(log, e))
  {
  }

  lemma Reported(log: Log, e: Event)
    requires Unbegun(log)
    requires e.Marked? || e.Skipped? || e.Chunk?
    requires e.b in BegunIds(log)
    ensures Unbegun(Snoc(log, e))
  {
    forall b | b !in BegunIds(Snoc(log, e))
      ensures (forall s :: Marks(Snoc(log, e), b, s) == 0) && FirstError(Snoc(log, e), b) == 0
    {
      assert b !in BegunIds(log) && b != e.b;
      assert FirstError(log, b) == 0;
    }
  }

  /** A user request leaves the driver. */
  function Released(q: Queue, r: Request): Queue
    requires r.id.User?
  {
    q.(driver := q.driver - {r},
       inFlight := if r.fs then q.inFlight - 1 else q.inFlight,
       log := Snoc(q.log, Completed(r.id.n)))
  }

  lemma ReleasedPlaces(q: Queue, r: Request)
    requires Places(q) && Lined(q) && r in q.driver && r.id.User?
    ensures Places(Released(q, r)) && Lined(Released(q, r))
  {
    var q' := Released(q, r);
    assert Ends(q'.log) == Ends(q.log) && Barriers(q'.log) == Barriers(q.log);
    assert FsOf(q'.driver) == FsOf(q.driver) - (if r.fs then {r} else {});
    forall k | Base(q') <= k < Barriers(q'.log) ensures HasBarrier(q'.list, k) { assert HasBarrier(q.list, k); }
  }

  lemma ReleasedRunning(q: Queue, r: Request)
    requires Running(q, User(0)) && r in q.driver && r.id.User?
    ensures Running(Released(q, r), User(0))
  {
    var q' := Released(q, r);
    assert forall id: Id :: !id.User? ==> (ProxyHeld(q, id) <==> ProxyHeld(q', id));
    Quiet(q.log, Completed(r.id.n));
  }

  /** A user request is let go of as it becomes done. */
  lemma Forgotten(q: Queue, q': Queue, r: Request)
    requires Known(q) && Kept(q)
    requires r in Held(q) && r.id.User? && Held(q') == Held(q) - {r}
    requires AddedIds(q'.log) == AddedIds(q.log) && DoneIds(q'.log) == DoneIds(q.log) + {r.id.n}
    requires forall n :: RecordOf(q'.log, n) == RecordOf(q.log, n)
    requires q'.orig == q.orig && forall x :: x in Held(q') && x.id.Bar? ==> q'.ordseq.Active?
    ensures Known(q') && Kept(q')
  {
    forall n | n in AddedIds(q'.log) && n !in DoneIds(q'.log) ensures HasId(q', n) {
      assert HasId(q, n);
      var x :| x in Held(q) && x.id == User(n);
      assert x in Held(q');
    }
  }

  lemma ReleasedHeld(q: Queue, r: Request)
    requires Distinct(q) && r in q.driver && r.id.User?
    ensures r in Held(q) && Held(Released(q, r)) == Held(q) - {r}
  {
  }

  lemma ReleasedHistory(q: Queue, r: Request)
    requires HistoryOk(q) && r.id.User? && r.id.n in AddedIds(q.log) && r.id.n !in BarrierIds(q.log)
    ensures HistoryOk(Released(q, r))
  {
  }

  lemma ReleasedRecorded(q: Queue, r: Request)
    requires Recorded(q) && Places(q) && r in q.driver && r.id.User?
    ensures Recorded(Released(q, r))
  {
    ReleasedHeld(q, r);
    assert r.id.n !in BarrierIds(q.log) by { RecordTells(q.log, r.id.n); }
    ReleasedHistory(q, r);
    Forgotten(q, Released(q, r), r);
  }

  // ------------------------------------------------------- marking a stage

  /** When the drain check succeeds, nothing that precedes the barrier is left. */
  lemma DrainIsOver(q: Queue)
    requires Inv(q) && DrainFinished(q)
    ensures Drained(q)
  {
    ColourIsRight(q, 0);
    var f := Ends(q.log);
    forall r | r in q.list && UserFs(r) ensures r.epoch > f {
      var j :| 0 <= j < |q.list| && q.list[j] == r;
      if j > 0 {
        assert Key(f, q.list[0]) <= Key(f, q.list[j]);
      }
    }
    forall r | r in q.driver ensures !UserFs(r) {
      assert r !in FsOf(q.driver);
    }
  }

  /** The queue can mark `stage`: it is next, and what it waits for is over. */
  ghost predicate Markable(q: Queue, gone: Id, stage: nat) {
    && InvBut(q, gone)
    && IsStage(stage) && CurSeq(q.ordseq) == stage
    && (if stage == DRAIN then gone.User? && Drained(q) else ProxySeq(gone) == stage)
  }

  lemma MarkAllowed(q: Queue, gone: Id, stage: nat, err: int)
    requires Markable(q, gone, stage)
    ensures MayMark(q.log, BarId(q), stage)
    ensures var log := Snoc(q.log, Marked(BarId(q), stage, err));
            && (forall s: nat :: IsStage(s) ==>
                  Marks(log, BarId(q), s) == if Bit(SetBit(q.ordseq, stage), s) then 1 else 0)
            && FirstError(log, BarId(q)) == if err != 0 && q.orderr == 0 then err else q.orderr
  {
    assert q.orig in Held(q);
  }

  lemma MarkOpenRunning(q: Queue, gone: Id, stage: nat, err: int)
    requires Markable(q, gone, stage) && CurSeq(SetBit(q.ordseq, stage)) != DONE
    ensures Running(CompleteSeq(q, stage, err), User(0))
  {
    var q' := CompleteSeq(q, stage, err);
    MarkAllowed(q, gone, stage, err);
    Reported(q.log, Marked(BarId(q), stage, err));
    assert Ends(q'.log) == Ends(q.log) && Barriers(q'.log) == Barriers(q.log);
    forall id: Id | !id.User?
      ensures ProxyHeld(q', id) <==> !Bit(q'.ordseq, ProxySeq(id))
    {
      assert ProxyHeld(q', id) <==> ProxyHeld(q, id);
    }
  }

  lemma MarkOpenRest(q: Queue, gone: Id, stage: nat, err: int)
    requires Markable(q, gone, stage) && CurSeq(SetBit(q.ordseq, stage)) != DONE
    ensures var q' := CompleteSeq(q, stage, err); Places(q') && Lined(q') && Recorded(q')
  {
    var q' := CompleteSeq(q, stage, err);
    assert Ends(q'.log) == Ends(q.log) && Barriers(q'.log) == Barriers(q.log);
    assert Held(q') == Held(q);
    forall r | r in q.driver || r in q.list ensures r.id != gone || r.id.User? {
      assert !gone.User? ==> !ProxyHeld(q, gone);
    }
    forall k | Base(q') <= k < Barriers(q'.log) ensures HasBarrier(q'.list, k) { assert HasBarrier(q.list, k); }
    forall n | n in AddedIds(q'.log) && n !in DoneIds(q'.log) ensures HasId(q', n) { assert HasId(q, n); }
  }

  lemma SortedLater(f: nat, t: seq<Request>)
    requires Sorted(f, t) && forall r :: r in t ==> r.id.User?
    ensures Sorted(f + 1, t)
  {
    forall i, j | 0 <= i < j < |t| && Ranked(t[i]) && Ranked(t[j])
      ensures Key(f + 1, t[i]) <= Key(f + 1, t[j]) && (t[i].hard ==> Key(f + 1, t[i]) < Key(f + 1, t[j]))
    {
      assert t[i] in t && t[j] in t;
      assert Key(f, t[i]) <= Key(f, t[j]);
    }
  }

  lemma MarkLastPlaces(q: Queue, gone: Id, stage: nat, err: int)
    requires Markable(q, gone, stage) && CurSeq(SetBit(q.ordseq, stage)) == DONE
    ensures var q' := CompleteSeq(q, stage, err); Places(q') && Lined(q')
  {
    var q' := CompleteSeq(q, stage, err);
    var f := Ends(q.log);
    assert Ends(q'.log) == f + 1 && Barriers(q'.log) == Barriers(q.log);
    assert forall r :: r in q.driver || r in q.list ==> r.id.User? by {
      forall r | r in q.driver || r in q.list ensures r.id.User? {
        if !r.id.User? { assert ProxyHeld(q, r.id); }
      }
    }
    assert Drained(q);
    forall k | Base(q') <= k < Barriers(q'.log) ensures HasBarrier(q'.list, k) { assert HasBarrier(q.list, k); }
    SortedLater(f, q.list);
  }

  lemma MarkLastRunning(q: Queue, gone: Id, stage: nat, err: int)
    requires Markable(q, gone, stage) && CurSeq(SetBit(q.ordseq, stage)) == DONE
    ensures Running(CompleteSeq(q, stage, err), User(0))
  {
    var q' := CompleteSeq(q, stage, err);
    Reported(q.log, Marked(BarId(q), stage, err));
    Quiet(Snoc(q.log, Marked(BarId(q), stage, err)), q'.log.last);
    forall id: Id | !id.User? ensures !ProxyHeld(q', id) {
      assert ProxyHeld(q', id) <==> ProxyHeld(q, id);
    }
  }

  lemma MarkLastRecorded(q: Queue, gone: Id, stage: nat, err: int)
    requires Recorded(q) && ProxiesOk(q, gone) && Distinct(q)
    requires SchedOk(q) && OrigOk(q) && q.ordseq.Active?
    requires IsStage(stage) && CurSeq(q.ordseq) == stage == (if gone.User? then DRAIN else ProxySeq(gone))
    requires CurSeq(SetBit(q.ordseq, stage)) == DONE
    ensures Recorded(CompleteSeq(q, stage, err))
  {
    var q' := CompleteSeq(q, stage, err);
    assert q.orig in Held(q);
    assert Held(q') == Held(q) - {q.orig};
    forall r | r in Held(q') ensures r.id.User? {
      if !r.id.User? { assert ProxyHeld(q, r.id); }
    }
    Forgotten(q, q', q.orig);
  }

  lemma MarkOrdered(q: Queue, gone: Id, stage: nat, err: int)
    requires Markable(q, gone, stage)
    ensures Ordered(CompleteSeq(q, stage, err).log)
  {
    MarkAllowed(q, gone, stage, err);
    if CurSeq(SetBit(q.ordseq, stage)) == DONE {
      var log := Snoc(q.log, Marked(BarId(q), stage, err));
      assert MayEnd(log, BarId(q), FirstError(log, BarId(q)));
    }
  }

  lemma MarkRunning(q: Queue, gone: Id, stage: nat, err: int)
    requires Markable(q, gone, stage)
    ensures Running(CompleteSeq(q, stage, err), User(0))
  {
    if CurSeq(SetBit(q.ordseq, stage)) != DONE {
      MarkOpenRunning(q, gone, stage, err);
    } else {
      MarkLastRunning(q, gone, stage, err);
    }
  }

  lemma MarkRest(q: Queue, gone: Id, stage: nat, err: int)
    requires Markable(q, gone, stage)
    ensures var q' := CompleteSeq(q, stage, err); Places(q') && Lined(q') && Recorded(q')
  {
    if CurSeq(SetBit(q.ordseq, stage)) != DONE {
      MarkOpenRest(q, gone, stage, err);
    } else {
      MarkLastPlaces(q, gone, stage, err);
      MarkLastRecorded(q, gone, stage, err);
    }
  }

  /** Marking the next stage keeps the invariant, whether or not it is the last. */
  lemma Mark(q: Queue, gone: Id, stage: nat, err: int)
    requires Markable(q, gone, stage)
    ensures Inv(CompleteSeq(q, stage, err))
  {
    MarkOrdered(q, gone, stage, err);
    MarkRunning(q, gone, stage, err);
    MarkRest(q, gone, stage, err);
  }

  lemma CheckDrainKeeps(q: Queue)
    requires Inv(q)
    ensures Inv(CheckDrain(q))
  {
    if DrainFinished(q) {
      DrainIsOver(q);
      Mark(q, User(0), DRAIN, 0);
    }
  }

  // -------------------------------------------------------- driver's steps

  lemma CompleteUserKeeps(q: Queue, r: Request, err: int)
    requires Inv(q) && r in q.driver && r.id.User?
    ensures Inv(Complete(q, r, err))
  {
    ReleasedKeeps(q, r);
    CheckDrainKeeps(Released(q, r));
  }

  lemma ReleasedKeeps(q: Queue, r: Request)
    requires Inv(q) && r in q.driver && r.id.User?
    ensures Inv(Released(q, r))
  {
    ReleasedPlaces(q, r);
    ReleasedRunning(q, r);
    ReleasedRecorded(q, r);
  }

  lemma DropProxyPlaces(q: Queue, r: Request)
    requires Places(q) && Lined(q) && r in q.driver && !r.id.User?
    ensures var q' := q.(driver := q.driver - {r}, inFlight := if r.fs then q.inFlight - 1 else q.inFlight);
            Places(q') && Lined(q')
  {
    var q' := q.(driver := q.driver - {r}, inFlight := if r.fs then q.inFlight - 1 else q.inFlight);
    assert FsOf(q'.driver) == FsOf(q.driver) - (if r.fs then {r} else {});
    forall k | Base(q') <= k < Barriers(q'.log) ensures HasBarrier(q'.list, k) { assert HasBarrier(q.list, k); }
  }

  lemma DropProxy(q: Queue, r: Request)
    requires Inv(q) && r in q.driver && !r.id.User?
    ensures var q' := q.(driver := q.driver - {r}, inFlight := if r.fs then q.inFlight - 1 else q.inFlight);
            InvBut(q', r.id)
  {
    var q' := q.(driver := q.driver - {r}, inFlight := if r.fs then q.inFlight - 1 else q.inFlight);
    DropProxyPlaces(q, r);
    assert r in Held(q);
    assert Held(q') == Held(q) - {r};
    assert ProxyHeld(q, r.id);
    forall id: Id | !id.User? ensures ProxyHeld(q', id) <==> ProxyHeld(q, id) && id != r.id {
      if ProxyHeld(q', id) {
        var x :| (x in q'.list || x in q'.driver) && x.id == id;
        assert x in Held(q) && x in Held(q');
      }
      if ProxyHeld(q, id) && id != r.id {
        var x :| (x in q.list || x in q.driver) && x.id == id;
        assert x in q'.list || x in q'.driver;
      }
    }
    forall n | n in AddedIds(q'.log) && n !in DoneIds(q'.log) ensures HasId(q', n) {
      assert HasId(q, n);
      var x :| x in Held(q) && x.id == User(n);
      assert x in Held(q');
    }
  }

  lemma CompleteProxyKeeps(q: Queue, r: Request, err: int)
    requires Inv(q) && r in q.driver && !r.id.User?
    ensures Inv(Complete(q, r, err))
  {
    var q' := q.(driver := q.driver - {r}, inFlight := if r.fs then q.inFlight - 1 else q.inFlight);
    DropProxy(q, r);
    assert ElvCompleted(q.(driver := q.driver - {r}), r) == q';
    Mark(q', r.id, ProxySeq(r.id), err);
  }

  /** Only the log grows, by an event that concerns no request, and what is held stays. */
  lemma SamePlaces(q: Queue, q': Queue)
    requires Places(q) && Lined(q) && Ends(q'.log) == Ends(q.log) && Barriers(q'.log) == Barriers(q.log)
    requires q'.sched == q.sched && q'.list == q.list && q'.driver == q.driver && q'.started == q.started
    requires q'.inFlight == q.inFlight && q'.ordseq == q.ordseq && q'.ordcolor == q.ordcolor && q'.orig == q.orig
    ensures Places(q') && Lined(q')
  {
    StillSeparated(q, q');
  }

  lemma ChunkRunning(q: Queue, err: int)
    requires Running(q, User(0)) && q.ordseq.Active?
    ensures Running(BarChunk(q, err), User(0))
  {
    var q' := BarChunk(q, err);
    Reported(q.log, Chunk(BarId(q), err));
    forall id: Id | !id.User? ensures ProxyHeld(q', id) <==> ProxyHeld(q, id) {}
  }

  lemma ChunkRecorded(q: Queue, err: int)
    requires Recorded(q)
    ensures Recorded(BarChunk(q, err))
  {
    var q' := BarChunk(q, err);
    assert Held(q') == Held(q);
    forall n | n in AddedIds(q'.log) && n !in DoneIds(q'.log) ensures HasId(q', n) { assert HasId(q, n); }
  }

  lemma ChunkKeeps(q: Queue, err: int)
    requires Inv(q) && q.ordseq.Active?
    ensures Inv(BarChunk(q, err))
  {
    SamePlaces(q, BarChunk(q, err));
    ChunkRunning(q, err);
    ChunkRecorded(q, err);
  }

  // ------------------------------------------------------- list surgery

  lemma CutKeeps(f: nat, s: seq<Request>, p: nat)
    requires Sorted(f, s) && IdsDiffer(s) && p < |s|
    ensures var t := s[..p] + s[p + 1..];
            Sorted(f, t) && IdsDiffer(t) && forall x :: x in t <==> x in s && x != s[p]
  {
    var t := s[..p] + s[p + 1..];
    forall x | x in s && x != s[p] ensures x in t {
      var i :| 0 <= i < |s| && s[i] == x;
      assert x == t[if i < p then i else i - 1];
    }
  }

  /** `r` belongs at position `p` of `s`. */
  ghost predicate Fits(f: nat, s: seq<Request>, p: nat, r: Request)
    requires p <= |s|
  {
    && (forall i :: 0 <= i < p && Ranked(s[i]) ==>
          Key(f, s[i]) <= Key(f, r) && (s[i].hard ==> Key(f, s[i]) < Key(f, r)))
    && (forall i :: p <= i < |s| && Ranked(s[i]) ==>
          Key(f, r) <= Key(f, s[i]) && (r.hard ==> Key(f, r) < Key(f, s[i])))
  }

  lemma InsertKeeps(f: nat, s: seq<Request>, p: nat, r: Request)
    requires Sorted(f, s) && IdsDiffer(s) && p <= |s|
    requires Ranked(r) ==> Fits(f, s, p, r)
    requires forall x :: x in s ==> x.id != r.id
    ensures var t := InsertAt(s, p, r);
            Sorted(f, t) && IdsDiffer(t) && forall x :: x in t <==> x in s || x == r
  {
    InsertHas(s, p, r);
    InsertSorted(f, s, p, r);
    InsertOnce(s, p, r);
  }

  lemma InsertSorted(f: nat, s: seq<Request>, p: nat, r: Request)
    requires Sorted(f, s) && p <= |s| && (Ranked(r) ==> Fits(f, s, p, r))
    ensures Sorted(f, InsertAt(s, p, r))
  {
    var t := InsertAt(s, p, r);
    forall i, j | 0 <= i < j < |t| && Ranked(t[i]) && Ranked(t[j])
      ensures Key(f, t[i]) <= Key(f, t[j]) && (t[i].hard ==> Key(f, t[i]) < Key(f, t[j]))
    {
      var i0, j0 := if i < p then i else i - 1, if j < p then j else j - 1;
      assert (i == p || t[i] == s[i0]) && (j == p || t[j] == s[j0]);
    }
  }

  lemma InsertOnce(s: seq<Request>, p: nat, r: Request)
    requires IdsDiffer(s) && p <= |s| && forall x :: x in s ==> x.id != r.id
    ensures IdsDiffer(InsertAt(s, p, r))
  {
    var t := InsertAt(s, p, r);
    forall i, j | 0 <= i < j < |t| ensures t[i].id != t[j].id {
      var i0, j0 := if i < p then i else i - 1, if j < p then j else j - 1;
      assert (i == p || t[i] == s[i0]) && (j == p || t[j] == s[j0]);
    }
  }

  lemma InsertHas(s: seq<Request>, p: nat, r: Request)
    requires p <= |s|
    ensures forall x :: x in InsertAt(s, p, r) <==> x in s || x == r
  {
    var t := InsertAt(s, p, r);
    forall x | x in s ensures x in t {
      var i :| 0 <= i < |s| && s[i] == x;
      assert x == t[if i < p then i else i + 1];
    }
    assert t[p] == r;
  }

  // --------------------------------------------------- moving a request

  /** A request moves to another place: what is held, and the sequence, stay. */
  lemma Moved(q: Queue, q': Queue)
    requires Recorded(q) && Running(q, User(0)) && Ordered(q.log)
    requires q'.log == q.log && q'.ordseq == q.ordseq && q'.orig == q.orig && q'.orderr == q.orderr
    requires Held(q') == Held(q)
    requires forall r: Request :: !r.id.User? ==> (r in q.list || r in q.driver <==> r in q'.list || r in q'.driver)
    requires q.ordseq.Active? && q.ordseq.drain ==> Drained(q')
    ensures Recorded(q') && Running(q', User(0)) && Ordered(q'.log)
  {
    forall id: Id | !id.User? ensures ProxyHeld(q', id) <==> ProxyHeld(q, id) {
      if ProxyHeld(q', id) {
        var x :| (x in q'.list || x in q'.driver) && x.id == id;
        assert x in q.list || x in q.driver;
      }
      if ProxyHeld(q, id) {
        var x :| (x in q.list || x in q.driver) && x.id == id;
        assert x in q'.list || x in q'.driver;
      }
    }
    forall n | n in AddedIds(q'.log) && n !in DoneIds(q'.log) ensures HasId(q', n) { assert HasId(q, n); }
  }

  lemma HeldSame(q: Queue, q': Queue)
    requires q'.ordseq == q.ordseq && q'.orig == q.orig
    requires forall r :: r in q.sched || r in q.driver || r in q.list <==> r in q'.sched || r in q'.driver || r in q'.list
    ensures Held(q') == Held(q)
  {
  }

  /** Barriers stay on the list. */
  lemma StillSeparated(q: Queue, q': Queue)
    requires Separated(q) && Base(q') >= Base(q) && Barriers(q'.log) == Barriers(q.log)
    requires forall r :: r in q.list && UserFs(r) && r.hard && r.epoch >= Base(q') ==> r in q'.list
    ensures Separated(q')
  {
    forall k | Base(q') <= k < Barriers(q'.log) ensures HasBarrier(q'.list, k) {
      assert HasBarrier(q.list, k);
      var b :| b in q.list && UserFs(b) && b.hard && b.epoch == k;
      assert b in q'.list;
    }
  }

  lemma DequeuePlaces(q: Queue, r: Request)
    requires Places(q) && r in q.list && r.id in q.started
    requires IdsDiffer(Dequeue(q, r).list) && forall x :: x in Dequeue(q, r).list <==> x in q.list && x != r
    ensures Places(Dequeue(q, r))
  {
    var q' := Dequeue(q, r);
    assert FsOf(q'.driver) == FsOf(q.driver) + (if r.fs then {r} else {});
  }

  lemma DequeueList(q: Queue, r: Request)
    requires Distinct(q) && Lined(q) && r in q.list
    ensures var t := Dequeue(q, r).list;
            Sorted(Ends(q.log), t) && IdsDiffer(t) && forall x :: x in t <==> x in q.list && x != r
  {
    var p := WithoutCuts(q.list, r);
    CutKeeps(Ends(q.log), q.list, p);
  }

  /** Requests have changed places: none is lost, proxies and barriers stay in line, and what was drained is. */
  ghost predicate Shifted(q: Queue, q': Queue) {
    && q'.log == q.log && q'.ordseq == q.ordseq && q'.orig == q.orig && q'.orderr == q.orderr
    && (forall r :: r in q.sched || r in q.driver || r in q.list <==> r in q'.sched || r in q'.driver || r in q'.list)
    && (forall r: Request :: !r.id.User? ==> (r in q.list || r in q.driver <==> r in q'.list || r in q'.driver))
    && (forall r :: r in q.list && UserFs(r) && r.hard ==> r in q'.list)
    && (q.ordseq.Active? && q.ordseq.drain ==> Drained(q'))
  }

  lemma ShiftKeeps(q: Queue, q': Queue)
    requires Inv(q) && Shifted(q, q') && Places(q') && Sorted(Ends(q.log), q'.list)
    ensures Inv(q') && Held(q') == Held(q)
  {
    StillSeparated(q, q');
    HeldSame(q, q');
    Moved(q, q');
  }

  lemma DequeueShifts(q: Queue, r: Request)
    requires ListOk(q) && r in q.list && r.id in q.started
    requires q.ordseq.Active? && q.ordseq.drain ==> Drained(q)
    requires forall x :: x in Dequeue(q, r).list <==> x in q.list && x != r
    ensures Shifted(q, Dequeue(q, r))
  {
  }

  lemma DequeueKeeps(q: Queue, r: Request)
    requires Inv(q) && r in q.list && r.id in q.started
    ensures Inv(Dequeue(q, r))
  {
    DequeueList(q, r);
    DequeuePlaces(q, r);
    DequeueShifts(q, r);
    ShiftKeeps(q, Dequeue(q, r));
  }

  /** A requeued request goes back to where it belongs. */
  lemma RequeueFits(q: Queue, r: Request)
    requires Inv(q) && r in q.driver
    ensures var p := if q.ordseq.Idle? then 0 else InsertPos(q, q.list, ReqSeq(q, r), 0);
            Ranked(r) ==> Fits(Ends(q.log), q.list, p, r)
  {
    if UserFs(r) {
      RequeueUserFits(q, r);
    } else if Ranked(r) {
      assert r in Held(q) && ProxyHeld(q, r.id);
      RequeueProxyFits(q, r, InsertPos(q, q.list, ProxySeq(r.id), 0));
    }
  }

  lemma RequeueUserFits(q: Queue, r: Request)
    requires DriverOk(q) && ListOk(q) && r in q.driver && UserFs(r)
    ensures Fits(Ends(q.log), q.list, 0, r)
    ensures q.ordseq.Active? && OrigOk(q) ==> InsertPos(q, q.list, ReqSeq(q, r), 0) == 0
  {
    var f := Ends(q.log);
    assert forall i :: 0 <= i < |q.list| && Ranked(q.list[i]) ==> q.list[i] in q.list && 4 * f <= Key(f, q.list[i]);
  }

  lemma {:induction false} NoBarrierBefore(q: Queue, r: Request, i: nat)
    requires Inv(q) && q.ordseq.Active? && ProxySeq(r.id) < DONE
    requires i <= |q.list| && forall k :: 0 <= k < i ==> ReqSeq(q, q.list[k]) < ProxySeq(r.id)
    ensures forall k :: 0 <= k < i ==> !(UserFs(q.list[k]) && q.list[k].hard)
  {
    if i > 0 {
      NoBarrierBefore(q, r, i - 1);
      ColourIsRight(q, i - 1);
      assert q.list[i - 1] in q.list;
    }
  }

  lemma RequeueAfter(q: Queue, r: Request, p: nat, i: nat)
    requires Inv(q) && q.ordseq.Active? && !r.id.User? && i < p == InsertPos(q, q.list, ProxySeq(r.id), 0)
    requires Ranked(q.list[i])
    ensures Key(Ends(q.log), q.list[i]) < Key(Ends(q.log), r)
  {
    NoBarrierBefore(q, r, p);
    ColourIsRight(q, i);
    assert q.list[i] in q.list;
  }

  lemma RequeueBefore(q: Queue, r: Request, p: nat)
    requires Inv(q) && q.ordseq.Active? && r in q.driver && !r.id.User?
    requires p == InsertPos(q, q.list, ProxySeq(r.id), 0) < |q.list|
    ensures Ranked(q.list[p]) && Key(Ends(q.log), r) < Key(Ends(q.log), q.list[p])
  {
    NoBarrierBefore(q, r, p);
    ColourIsRight(q, p);
    var h := q.list[p];
    assert h in q.list && h != r && h in Held(q) && r in Held(q);
  }

  lemma RequeueProxyFits(q: Queue, r: Request, p: nat)
    requires Inv(q) && q.ordseq.Active? && r in q.driver && !r.id.User?
    requires p == InsertPos(q, q.list, ProxySeq(r.id), 0)
    ensures Fits(Ends(q.log), q.list, p, r)
  {
    var f := Ends(q.log);
    forall i | 0 <= i < p && Ranked(q.list[i]) ensures Key(f, q.list[i]) < Key(f, r) {
      RequeueAfter(q, r, p, i);
    }
    forall i | p <= i < |q.list| && Ranked(q.list[i]) ensures Key(f, r) < Key(f, q.list[i]) {
      RequeueBefore(q, r, p);
      assert i > p ==> Key(f, q.list[p]) <= Key(f, q.list[i]);
    }
  }

  lemma RequeuePlaces(q: Queue, r: Request)
    requires Places(q) && r in q.driver
    requires IdsDiffer(Requeue(q, r).list) && forall x :: x in Requeue(q, r).list <==> x in q.list || x == r
    requires UserFs(r) ==> r.epoch <= Barriers(q.log)
    requires forall x :: x in q.list || x in q.driver ==> x.id == r.id ==> x == r
    ensures Places(Requeue(q, r))
  {
    var q' := Requeue(q, r);
    assert FsOf(q'.driver) == FsOf(q.driver) - (if r.fs then {r} else {});
  }

  lemma SameIdSame(q: Queue, r: Request, x: Request)
    requires Known(q) && r in Held(q) && x in Held(q) && r.id == x.id
    ensures r == x
  {
  }

  lemma RequeueList(q: Queue, r: Request)
    requires Inv(q) && r in q.driver
    ensures var t := Requeue(q, r).list;
            Sorted(Ends(q.log), t) && IdsDiffer(t) && forall x :: x in t <==> x in q.list || x == r
  {
    var p := if q.ordseq.Idle? then 0 else InsertPos(q, q.list, ReqSeq(q, r), 0);
    RequeueFits(q, r);
    forall x | x in q.list ensures x.id != r.id {
      if x.id == r.id { SameIdSame(q, r, x); }
    }
    InsertKeeps(Ends(q.log), q.list, p, r);
  }

  lemma RequeuedPlaces(q: Queue, r: Request)
    requires Inv(q) && r in q.driver
    requires IdsDiffer(Requeue(q, r).list) && forall x :: x in Requeue(q, r).list <==> x in q.list || x == r
    ensures Places(Requeue(q, r))
  {
    forall x | x in q.list || x in q.driver ensures x.id == r.id ==> x == r {
      if x.id == r.id { SameIdSame(q, r, x); }
    }
    if r.id.User? { assert r in Held(q); RecordTells(q.log, r.id.n); }
    RequeuePlaces(q, r);
  }

  lemma RequeueShifts(q: Queue, r: Request)
    requires r in q.driver && (q.ordseq.Active? && q.ordseq.drain ==> Drained(q))
    requires forall x :: x in Requeue(q, r).list <==> x in q.list || x == r
    ensures Shifted(q, Requeue(q, r))
  {
  }

  lemma RequeueKeeps(q: Queue, r: Request)
    requires Inv(q) && r in q.driver
    ensures Inv(Requeue(q, r))
  {
    RequeueList(q, r);
    RequeuedPlaces(q, r);
    RequeueShifts(q, r);
    ShiftKeeps(q, Requeue(q, r));
  }
}
