// Where the ordering promise fails.  `__elv_add_request` flips the colour for every
// request with the hard-barrier flag, but only file-system requests act as barriers.
// A special request that carries the flag makes requests after a barrier look as if
// they came before it.
module OrderedDisguise {
  import opened OrderedQueue
  import opened OrderedHistory
  import opened OrderedRuns

  // ------------------------------------------------- barriers in disguise

  function Barrier0(): Request { Request(User(0), true, true, true, 0, 8, false, 0) }
  function Special1(): Request { Request(User(1), false, true, true, 0, 0, true, 1) }
  function Write2(): Request { Request(User(2), true, false, true, 100, 8, false, 1) }

  function DisguiseRun(): seq<Step> {
    [SAdd(Barrier0(), false, true, Sort, []), SAdd(Special1(), false, true, Back, []),
     SAdd(Write2(), false, false, Sort, []),
     SNext, SDequeue(BarProxy(Barrier0())), SNext, SDequeue(Special1()), SNext]
  }

  /** Barrier 0 was added before request 2 and has not ended. */
  predicate StillOpen(log: Log) {
    0 in BarrierIds(log) && AddedBefore(log, 0, 2) && 0 !in EndedIds(log)
  }

  lemma StaysOpen(log: Log, e: Event)
    requires StillOpen(log) && !e.Ended?
    ensures StillOpen(Snoc(log, e))
  {
  }

  /** The given steps lead from `q` to `q'`. */
  ghost predicate Leads(q: Queue, steps: seq<Step>, q': Queue) {
    forall rest :: Valid(q', rest, true) ==>
      Valid(q, steps + rest, true) && Run(q, steps + rest) == Run(q', rest)
  }

  lemma LeadsOne(q: Queue, s: Step)
    requires Enabled(q, s, true)
    ensures Leads(q, [s], Apply(q, s))
  {
    forall rest | Valid(Apply(q, s), rest, true)
      ensures Valid(q, [s] + rest, true) && Run(q, [s] + rest) == Run(Apply(q, s), rest)
    {
      assert ([s] + rest)[1..] == rest;
    }
  }

  lemma LeadsOn(a: Queue, s: seq<Step>, b: Queue, t: seq<Step>, c: Queue)
    requires Leads(a, s, b) && Leads(b, t, c)
    ensures Leads(a, s + t, c)
  {
    forall rest | Valid(c, rest, true)
      ensures Valid(a, s + t + rest, true) && Run(a, s + t + rest) == Run(c, rest)
    {
      assert s + t + rest == s + (t + rest);
    }
  }

  lemma LeadsTwo(a: Queue, x: Step, b: Queue, y: Step, c: Queue)
    requires Enabled(a, x, true) && b == Apply(a, x) && Enabled(b, y, true) && c == Apply(b, y)
    ensures Leads(a, [x, y], c)
  {
    LeadsOne(a, x);
    LeadsOne(b, y);
    LeadsOn(a, [x], b, [y], c);
    assert [x] + [y] == [x, y];
  }

  lemma LeadsThree(a: Queue, x: Step, b: Queue, y: Step, c: Queue, z: Step, d: Queue)
    requires Enabled(a, x, true) && b == Apply(a, x) && Enabled(b, y, true) && c == Apply(b, y)
    requires Enabled(c, z, true) && d == Apply(c, z)
    ensures Leads(a, [x, y, z], d)
  {
    LeadsTwo(a, x, b, y, c);
    LeadsOne(c, z);
    LeadsOn(a, [x, y], c, [z], d);
    assert [x, y] + [z] == [x, y, z];
  }

  /** A request is added to a queue with nothing in the scheduler, at the end of its list. */
  lemma AddsLast(q: Queue, x: Step)
    requires x.SAdd? && x.r.id.User? && x.cs == [] && EffectiveWhere(x.r, x.soft, x.elvpriv, x.where).Back? && q.sched == {}
    ensures var q', r := Apply(q, x), Stamped(q, x.r);
            && q'.list == q.list + [r] && q'.sched == {} && q'.ordcolor == (q.ordcolor != r.hard)
            && q'.log == Snoc(q.log, Added(r.id.n, r)) && q'.started == q.started - {r.id} && q'.inFlight == q.inFlight
            && q'.ordseq == q.ordseq && q'.preMode == q.preMode && q'.postMode == q.postMode
  {
  }

  /** The barrier, the special request and the write are added: barrier and write get one colour. */
  lemma DisguiseAdded() returns (q: Queue)
    ensures Leads(Init(false, false), DisguiseRun()[..3], q)
    ensures q.list == [Barrier0(), Special1(), Write2()] && StillOpen(q.log)
    ensures q.inFlight == 0 && q.ordseq.Idle? && q.started == {} && !q.preMode && !q.postMode
  {
    var c0, run := Init(false, false), DisguiseRun();
    var c1 := Apply(c0, run[0]);
    var c2 := Apply(c1, run[1]);
    q := Apply(c2, run[2]);
    AddsLast(c0, run[0]);
    AddsLast(c1, run[1]);
    AddsLast(c2, run[2]);
    LeadsThree(c0, run[0], c1, run[1], c2, run[2], q);
    assert run[..3] == [run[0], run[1], run[2]];
  }

  function BegunLog(log: Log): Log {
    var l2 := Snoc(Snoc(Snoc(log, Begun(0)), Skipped(0, POSTFLUSH)), Skipped(0, PREFLUSH));
    Snoc(Snoc(l2, Marked(0, DRAIN, 0)), HandedProxy(Bar, 0))
  }

  lemma BegunStaysOpen(log: Log)
    requires StillOpen(log)
    ensures StillOpen(BegunLog(log))
  {
    var l0 := Snoc(log, Begun(0));
    var l1 := Snoc(l0, Skipped(0, POSTFLUSH));
    var l2 := Snoc(l1, Skipped(0, PREFLUSH));
    StaysOpen(log, Begun(0));
    StaysOpen(l0, Skipped(0, POSTFLUSH));
    StaysOpen(l1, Skipped(0, PREFLUSH));
    StaysOpen(l2, Marked(0, DRAIN, 0));
    StaysOpen(Snoc(l2, Marked(0, DRAIN, 0)), HandedProxy(Bar, 0));
  }

  /** The sequence begins, and the driver takes its proxy. */
  lemma DisguiseBegun(q: Queue) returns (q': Queue)
    requires q.list == [Barrier0(), Special1(), Write2()] && StillOpen(q.log)
    requires q.inFlight == 0 && q.ordseq.Idle? && q.started == {} && !q.preMode && !q.postMode
    ensures Leads(q, DisguiseRun()[3..5], q')
    ensures q'.list == [Special1(), Write2()] && q'.orig == Barrier0() && StillOpen(q'.log)
    ensures q'.ordseq == Active(true, true, false, true)
  {
    var c, p := Apply(q, SNext), BarProxy(Barrier0());
    assert q.list[1..] == [Special1(), Write2()];
    assert c.list == [p, Special1(), Write2()];
    assert c.log == BegunLog(q.log);
    BegunStaysOpen(q.log);
    q' := Apply(c, SDequeue(p));
    assert c.list[1..] == [Special1(), Write2()];
    LeadsTwo(q, SNext, c, SDequeue(p), q');
    assert DisguiseRun()[3..5] == [SNext, SDequeue(p)];
  }

  /** The special request goes out, and the write behind it is let through by its colour. */
  lemma DisguiseOvertakes(q: Queue) returns (q': Queue)
    requires q.list == [Special1(), Write2()] && q.orig == Barrier0() && StillOpen(q.log)
    requires q.ordseq == Active(true, true, false, true)
    ensures Leads(q, DisguiseRun()[5..], q')
    ensures !Ordered(q'.log)
  {
    var c := Apply(q, SNext);
    assert c.list == [Special1(), Write2()] && c.log == Snoc(q.log, Handed(1, false));
    var d := Apply(c, SDequeue(Special1()));
    assert c.list[1..] == [Write2()];
    q' := Apply(d, SNext);
    LeadsThree(q, SNext, c, SDequeue(Special1()), d, SNext, q');
    assert DisguiseRun()[5..] == [SNext, SDequeue(Special1()), SNext];
    assert q'.log == Snoc(c.log, Handed(2, true));
    assert StillOpen(c.log);
  }

  /** A special request with the hard-barrier flag flips the colour: a later write overtakes the barrier. */
  lemma DisguiseBreaksOrder()
    ensures Valid(Init(false, false), DisguiseRun(), true)
    ensures !Ordered(Run(Init(false, false), DisguiseRun()).log)
  {
    var run := DisguiseRun();
    var a := DisguiseAdded();
    var b := DisguiseBegun(a);
    var c := DisguiseOvertakes(b);
    LeadsOn(Init(false, false), run[..3], a, run[3..5], b);
    LeadsOn(Init(false, false), run[..3] + run[3..5], b, run[5..], c);
    assert run == run[..3] + run[3..5] + run[5..] + [];
    assert Valid(c, [], true);
  }

  /** A special request is added that poses as a barrier. */
  predicate Poses(s: Step) { s.SAdd? && s.r.hard && !s.r.fs }

  lemma {:induction false} Undisguised(q: Queue, run: seq<Step>, k: nat)
    requires Valid(q, run, true) && k <= |run| && forall i :: 0 <= i < k ==> !Poses(run[i])
    ensures Valid(q, run[..k], false)
    decreases k
  {
    if k > 0 {
      Undisguised(Apply(q, run[0]), run[1..], k - 1);
      assert run[..k][1..] == run[1..][..k - 1];
    }
  }

  /** Every run keeps the order up to the first request that poses as a barrier. */
  lemma OrderedUntilDisguised(pre: bool, post: bool, run: seq<Step>, k: nat)
    requires Valid(Init(pre, post), run, true) && k <= |run| && forall i :: 0 <= i < k ==> !Poses(run[i])
    ensures Valid(Init(pre, post), run[..k], false) && Ordered(Run(Init(pre, post), run[..k]).log)
  {
    Undisguised(Init(pre, post), run, k);
    RunsAreOrdered(pre, post, run[..k]);
  }

  /** The ordering promise holds of all runs exactly when no special request poses as a barrier. */
  lemma OrderedIffUndisguised(disguised: bool)
    ensures (forall pre, post, run :: Valid(Init(pre, post), run, disguised) ==> Ordered(Run(Init(pre, post), run).log))
            <==> !disguised
  {
    if disguised {
      DisguiseBreaksOrder();
    } else {
      forall pre, post, run | Valid(Init(pre, post), run, false) ensures Ordered(Run(Init(pre, post), run).log) {
        RunsAreOrdered(pre, post, run);
      }
    }
  }
}
