/** Requests enter the queue, reach the dispatch list and are fetched: the invariant is kept. */
module OrderedEntry {
  import opened OrderedQueue
  import opened OrderedHistory
  import opened OrderedInvariant
  import opened OrderedSteps

  // -------------------------------------------------------------- dispatch

  lemma FixedIsBehind(f: nat, t: seq<Request>, i: nat, p: nat)
    requires Sorted(f, t) && i < |t| && p < |t| && Ranked(t[i]) && Ranked(t[p])
    requires !t[i].hard && t[p].hard && Key(f, t[i]) <= Key(f, t[p])
    ensures i < p
  {
  }

  /** A file-system request of an earlier epoch has something fixed behind it. */
  lemma FixedBehind(q: Queue, i: nat)
    requires Inv(q) && i < |q.list| && UserFs(q.list[i]) && !q.list[i].hard
    requires q.list[i].epoch < Barriers(q.log)
    ensures exists p :: i < p < |q.list| && q.list[p].hard
  {
    var f, e := Ends(q.log), q.list[i].epoch;
    assert q.list[i] in q.list;
    if e >= Base(q) {
      assert HasBarrier(q.list, e);
      var b :| b in q.list && UserFs(b) && b.hard && b.epoch == e;
      var p :| 0 <= p < |q.list| && q.list[p] == b;
      FixedIsBehind(f, q.list, i, p);
    } else {
      assert ProxyHeld(q, Bar);
      var b :| (b in q.list || b in q.driver) && b.id == Bar;
      var p :| 0 <= p < |q.list| && q.list[p] == b;
      FixedIsBehind(f, q.list, i, p);
    }
  }

  lemma DispatchFits(q: Queue, r: Request, p: nat)
    requires Inv(q) && r in q.sched && p <= |q.list|
    requires forall i :: p <= i < |q.list| ==> !q.list[i].hard
    ensures Fits(Ends(q.log), q.list, p, r)
  {
    var f := Ends(q.log);
    forall i | 0 <= i < |q.list| && Ranked(q.list[i])
      ensures Key(f, q.list[i]) <= Key(f, r) && (q.list[i].hard ==> Key(f, q.list[i]) < Key(f, r))
    {
      assert q.list[i] in q.list;
      if !q.list[i].id.User? { assert ProxyHeld(q, q.list[i].id); }
    }
    forall i | p <= i < |q.list| && Ranked(q.list[i]) ensures Key(f, r) <= Key(f, q.list[i]) {
      assert q.list[i] in q.list;
      if q.list[i].epoch < Barriers(q.log) { FixedBehind(q, i); }
    }
  }

  lemma DispatchPlaces(q: Queue, c: Choice)
    requires Places(q) && c.r in q.sched && Ends(q.log) <= Barriers(q.log)
    requires var q' := Dispatch(q, c); IdsDiffer(q'.list) && forall x :: x in q'.list <==> x in q.list || x == c.r
    ensures Places(Dispatch(q, c))
  {
  }

  lemma NewToList(q: Queue, r: Request)
    requires Inv(q) && r in q.sched
    ensures forall x :: x in q.list ==> x.id != r.id
  {
    forall x | x in q.list ensures x.id != r.id {
      if x.id == r.id { SameIdSame(q, r, x); }
    }
  }

  /** Where a request goes in the list; nothing behind it is fixed. */
  lemma DispatchAt(q: Queue, c: Choice) returns (p: nat)
    ensures p <= |q.list| && Dispatch(q, c).list == InsertAt(q.list, p, c.r)
    ensures forall i :: p <= i < |q.list| ==> !q.list[i].hard
  {
    p := if c.sort then SortPos(q, c.r, |q.list|) else |q.list|;
  }

  lemma DispatchList(q: Queue, c: Choice)
    requires Inv(q) && c.r in q.sched
    ensures var t := Dispatch(q, c).list;
            Sorted(Ends(q.log), t) && IdsDiffer(t) && forall x :: x in t <==> x in q.list || x == c.r
  {
    var p := DispatchAt(q, c);
    DispatchFits(q, c.r, p);
    NewToList(q, c.r);
    InsertKeeps(Ends(q.log), q.list, p, c.r);
  }

  lemma DispatchShifts(q: Queue, c: Choice)
    requires c.r in q.sched && SchedOk(q) && (q.ordseq.Active? ==> Ends(q.log) < Barriers(q.log))
    requires q.ordseq.Active? && q.ordseq.drain ==> Drained(q)
    requires forall x :: x in Dispatch(q, c).list <==> x in q.list || x == c.r
    ensures Shifted(q, Dispatch(q, c))
  {
  }

  lemma DispatchKeeps(q: Queue, c: Choice)
    requires Inv(q) && c.r in q.sched
    ensures Inv(Dispatch(q, c)) && Held(Dispatch(q, c)) == Held(q)
  {
    DispatchList(q, c);
    DispatchPlaces(q, c);
    DispatchShifts(q, c);
    ShiftKeeps(q, Dispatch(q, c));
  }

  lemma DrainKeeps(q: Queue, cs: seq<Choice>)
    requires Inv(q) && IsDrain(q.sched, cs)
    ensures var q' := Drain(q, cs);
            && Inv(q') && q'.sched == {} && Held(q') == Held(q)
            && q'.log == q.log && q'.ordcolor == q.ordcolor && q'.started == q.started
            && q'.ordseq == q.ordseq && q'.driver == q.driver
  {
    DrainFrame(q, cs);
    DrainInv(q, cs, Drain(q, cs));
  }

  lemma {:induction false} DrainFrame(q: Queue, cs: seq<Choice>)
    ensures var q' := Drain(q, cs);
            && q'.log == q.log && q'.ordcolor == q.ordcolor && q'.started == q.started
            && q'.ordseq == q.ordseq && q'.driver == q.driver
            && (IsDrain(q.sched, cs) ==> q'.sched == {})
    decreases |cs|
  {
    if cs != [] { DrainFrame(Dispatch(q, cs[0]), cs[1..]); }
  }

  lemma {:induction false} DrainInv(q: Queue, cs: seq<Choice>, q': Queue)
    requires Inv(q) && IsDrain(q.sched, cs) && q' == Drain(q, cs)
    ensures Inv(q') && Held(q') == Held(q)
    decreases |cs|
  {
    if cs != [] {
      DispatchKeeps(q, cs[0]);
      DrainInv(Dispatch(q, cs[0]), cs[1..], q');
    }
  }

  // ---------------------------------------------------------------- adding

  /** A request enters: what was held before is untouched. */
  lemma Admitted(q: Queue, q': Queue, r: Request)
    requires Recorded(q) && Ordered(q.log) && r.id.User? && r.id.n !in AddedIds(q.log)
    requires r.epoch == Barriers(q.log) && q'.log == Snoc(q.log, Added(r.id.n, r))
    requires Held(q') == Held(q) + {r} && q'.ordseq == q.ordseq && q'.orig == q.orig
    ensures Recorded(q') && Ordered(q'.log)
  {
    forall n | n in AddedIds(q'.log) && n !in DoneIds(q'.log) ensures HasId(q', n) {
      if n == r.id.n {
        assert r in Held(q');
      } else {
        assert HasId(q, n);
        var x :| x in Held(q) && x.id == User(n);
        assert x in Held(q');
      }
    }
    IdsNest(q.log);
  }

  lemma AdmittedRunning(q: Queue, q': Queue, r: Request)
    requires Running(q, User(0)) && r.id.User? && r.epoch == Barriers(q.log)
    requires q'.log == Snoc(q.log, Added(r.id.n, r)) && q'.ordseq == q.ordseq && q'.orig == q.orig
    requires q'.orderr == q.orderr && q'.driver == q.driver
    requires forall x :: x in q'.list ==> x in q.list || x == r
    requires forall x :: x in q.list ==> x in q'.list
    ensures Running(q', User(0))
  {
    Quiet(q.log, Added(r.id.n, r));
    forall id: Id | !id.User? ensures ProxyHeld(q', id) <==> ProxyHeld(q, id) {
      if ProxyHeld(q', id) {
        var x :| (x in q'.list || x in q'.driver) && x.id == id;
        assert x in q.list || x in q.driver;
      }
      if ProxyHeld(q, id) {
        var x :| (x in q.list || x in q.driver) && x.id == id;
        assert x in q'.list || x in q'.driver;
      }
    }
  }

  /** A new request, stamped by the queue, and not a barrier in disguise. */
  ghost predicate Entering(q: Queue, r: Request) {
    && r.id.User? && r.id.n !in AddedIds(q.log)
    && r.epoch == Barriers(q.log) && r.color == q.ordcolor
    && (r.hard ==> r.fs)
    && r.id !in q.started
  }

  lemma NewToAll(q: Queue, r: Request)
    requires Known(q) && Entering(q, r)
    ensures forall x :: x in Held(q) ==> x.id != r.id
  {
  }

  function Entered(q: Queue, r: Request): Queue
    requires r.id.User?
  {
    q.(ordcolor := if r.hard then !q.ordcolor else q.ordcolor, log := Snoc(q.log, Added(r.id.n, r)))
  }

  lemma SortPlaces(q: Queue, r: Request)
    requires Places(q) && Lined(q) && Entering(q, r) && r.fs && !r.hard && r !in q.list && r !in q.driver
    requires q.ordseq.Active? ==> q.orig != r
    ensures var q' := Entered(q.(sched := q.sched + {r}), r); Places(q') && Lined(q')
  {
    var q' := Entered(q.(sched := q.sched + {r}), r);
    assert Ends(q'.log) == Ends(q.log) && Barriers(q'.log) == Barriers(q.log);
    StillSeparated(q, q');
  }

  lemma SortKeeps(q: Queue, r: Request)
    requires Inv(q) && Entering(q, r) && r.fs && !r.hard
    ensures Inv(Entered(q.(sched := q.sched + {r}), r))
  {
    var q' := Entered(q.(sched := q.sched + {r}), r);
    NewToAll(q, r);
    assert Held(q') == Held(q) + {r};
    SortPlaces(q, r);
    Admitted(q, q', r);
    AdmittedRunning(q, q', r);
  }

  /** A special request is pushed in front of everything. */
  lemma FrontPlaces(q: Queue, r: Request)
    requires Places(q) && Lined(q) && Entering(q, r) && !r.fs
    requires forall x :: x in q.list || x in q.driver || x in q.sched ==> x.id != r.id
    requires q.ordseq.Active? ==> q.orig != r
    ensures var q' := Entered(q.(list := [r] + q.list), r); Places(q') && Lined(q')
  {
    var q' := Entered(q.(list := [r] + q.list), r);
    assert Ends(q'.log) == Ends(q.log) && Barriers(q'.log) == Barriers(q.log);
    assert q'.list == InsertAt(q.list, 0, r);
    InsertKeeps(Ends(q.log), q.list, 0, r);
    StillSeparated(q, q');
  }

  lemma FrontKeeps(q: Queue, r: Request)
    requires Inv(q) && Entering(q, r) && !r.fs
    ensures Inv(Entered(q.(list := [r] + q.list), r))
  {
    var q' := Entered(q.(list := [r] + q.list), r);
    NewToAll(q, r);
    assert Held(q') == Held(q) + {r};
    FrontPlaces(q, r);
    Admitted(q, q', r);
    AdmittedRunning(q, q', r);
  }

  lemma AppendFits(q: Queue, r: Request)
    requires Inv(q) && Entering(q, r)
    ensures Ranked(r) ==> Fits(Ends(q.log), q.list, |q.list|, r)
  {
    forall i | 0 <= i < |q.list| && Ranked(q.list[i])
      ensures Key(Ends(q.log), q.list[i]) <= 4 * Barriers(q.log)
      ensures q.list[i].hard ==> Key(Ends(q.log), q.list[i]) < 4 * Barriers(q.log)
    {
      assert q.list[i] in q.list;
      if !q.list[i].id.User? { assert ProxyHeld(q, q.list[i].id); }
    }
  }

  lemma BackPlaces(q: Queue, r: Request)
    requires Places(q) && Separated(q) && Entering(q, r) && q.sched == {} && OrigOk(q)
    requires Ends(q.log) <= Barriers(q.log)
    requires forall x :: x in q.list || x in q.driver ==> x.id != r.id
    requires q.ordseq.Active? ==> q.orig != r
    ensures var q' := Entered(q.(list := q.list + [r]), r); Places(q') && Separated(q')
  {
    var q' := Entered(q.(list := q.list + [r]), r);
    assert Ends(q'.log) == Ends(q.log);
    assert Barriers(q'.log) == Barriers(q.log) + if r.hard then 1 else 0;
    forall k | Base(q') <= k < Barriers(q'.log) ensures HasBarrier(q'.list, k) {
      if k == Barriers(q.log) {
        assert r in q'.list;
      } else {
        assert HasBarrier(q.list, k);
        var b :| b in q.list && UserFs(b) && b.hard && b.epoch == k;
        assert b in q'.list;
      }
    }
  }

  lemma BackList(q: Queue, r: Request)
    requires Sorted(Ends(q.log), q.list) && IdsDiffer(q.list) && Known(q) && Entering(q, r)
    requires Ranked(r) ==> Fits(Ends(q.log), q.list, |q.list|, r)
    ensures Sorted(Ends(q.log), q.list + [r])
  {
    assert q.list + [r] == InsertAt(q.list, |q.list|, r);
    assert forall x :: x in q.list ==> x.id != r.id by {
      NewToAll(q, r);
      assert forall x :: x in q.list ==> x in Held(q);
    }
    InsertKeeps(Ends(q.log), q.list, |q.list|, r);
  }

  lemma BackAdmits(q: Queue, r: Request)
    requires Recorded(q) && Ordered(q.log) && Running(q, User(0)) && Entering(q, r) && q.sched == {}
    ensures var q' := Entered(q.(list := q.list + [r]), r); Recorded(q') && Ordered(q'.log) && Running(q', User(0))
  {
    var q' := Entered(q.(list := q.list + [r]), r);
    assert Held(q') == Held(q) + {r};
    Admitted(q, q', r);
    AdmittedRunning(q, q', r);
  }

  /** A request is appended to the list of a queue whose scheduler has been drained. */
  lemma BackKeeps(q: Queue, r: Request)
    requires Inv(q) && Entering(q, r) && q.sched == {}
    ensures Inv(Entered(q.(list := q.list + [r]), r))
  {
    NewToAll(q, r);
    AppendFits(q, r);
    BackList(q, r);
    BackPlaces(q, r);
    BackAdmits(q, r);
  }
}
