/** Whole runs of the CFQ structures, and forced dispatch. */
module CfqRuns {
  import opened Common
  import opened AsOrder
  import opened RequestLists
  import opened Cfq
  import opened CfqInvariant

  ghost predicate OthersSame(s: Cfq, s': Cfq, q: nat) { forall x :: x != q ==> At(s', x) == At(s, x) }

  /** One request to the driver: its group loses it, and leaves the tree with its last. */
  lemma DispatchKeeps(better: (Rq, Rq) -> bool, s: Cfq, q: nat, r: Rq)
    requires Inv(s) && r in Elems(At(s, q).sort)
    ensures Inv(DispatchInserted(better, s, q, r))
    ensures var s' := DispatchInserted(better, s, q, r);
            && |At(s', q).sort| == |At(s, q).sort| - 1 && Elems(At(s', q).sort) == Elems(At(s, q).sort) - {r}
            && OthersSame(s, s', q) && s'.tree == (if |At(s, q).sort| > 1 then s.tree else WithoutGroup(s.tree, q))
  {
    RemovedKeeps(better, s, q, r);
    TreeMoved(Removed(better, s, q, r), DispatchInserted(better, s, q, r));
  }

  function WithoutGroup(t: seq<nat>, q: nat): seq<nat> {
    var i := IndexIn(t, q); if i < |t| then t[..i] + t[i + 1..] else t
  }

  /** The next request of a group, dispatched. */
  function Once1(better: (Rq, Rq) -> bool, s: Cfq, q: nat): Cfq
    requires At(s, q).next.Some?
  {
    DispatchInserted(better, s, q, At(s, q).next.value)
  }

  lemma {:induction false} EmptiedKeeps(better: (Rq, Rq) -> bool, s: Cfq, q: nat, n: nat)
    requires Inv(s) && n == |At(s, q).sort|
    ensures Inv(Emptied(better, s, q, n)) && At(Emptied(better, s, q, n), q).sort == []
    ensures OthersSame(s, Emptied(better, s, q, n), q)
    ensures Emptied(better, s, q, n).tree == (if n > 0 then WithoutGroup(s.tree, q) else s.tree)
    decreases n
  {
    assert GroupOk(At(s, q));
    if n > 0 {
      DispatchKeeps(better, s, q, At(s, q).next.value);
      EmptiedKeeps(better, Once1(better, s, q), q, n - 1);
    }
  }

  /** Emptying a group sends each of its requests once. */
  lemma {:induction false} EmptiedSends(better: (Rq, Rq) -> bool, s: Cfq, q: nat, n: nat) returns (sent: seq<Rq>)
    requires Inv(s) && n == |At(s, q).sort|
    ensures Emptied(better, s, q, n).out == s.out + sent && NoTwice(sent) && Elems(sent) == Elems(At(s, q).sort)
    decreases n
  {
    assert GroupOk(At(s, q));
    if n == 0 {
      sent := [];
      assert s.out + [] == s.out;
    } else {
      var r := At(s, q).next.value;
      DispatchKeeps(better, s, q, r);
      var rest := EmptiedSends(better, Once1(better, s, q), q, n - 1);
      sent := [r] + rest;
      SentMore(s.out, r, rest, Elems(At(s, q).sort));
    }
  }

  lemma SentMore(out: seq<Rq>, r: Rq, rest: seq<Rq>, all: set<Rq>)
    requires NoTwice(rest) && r in all && Elems(rest) == all - {r}
    ensures NoTwice([r] + rest) && Elems([r] + rest) == all && out + [r] + rest == out + ([r] + rest)
  {
    ElemsAre(rest);
    assert ([r] + rest)[1..] == rest;
  }

  lemma JoinsUp(a: seq<Rq>, b: seq<Rq>, c: seq<Rq>)
    ensures a + b + c == a + (b + c)
  {
  }

  /** `sent` is, group by group, each request of the groups `t` once. */
  ghost predicate Delivers(s: Cfq, t: seq<nat>, sent: seq<Rq>)
    decreases |t|
  {
    if t == [] then sent == []
    else exists k :: 0 <= k <= |sent| && DeliversGroup(At(s, t[0]), sent[..k]) && Delivers(s, t[1..], sent[k..])
  }

  predicate DeliversGroup(g: Group, sent: seq<Rq>) { NoTwice(sent) && Elems(sent) == Elems(g.sort) }

  lemma {:induction false} DeliversSame(s: Cfq, s': Cfq, t: seq<nat>, sent: seq<Rq>)
    requires Delivers(s', t, sent) && forall x :: x in t ==> At(s', x) == At(s, x)
    ensures Delivers(s, t, sent)
    decreases |t|
  {
    if t != [] {
      var k :| 0 <= k <= |sent| && DeliversGroup(At(s', t[0]), sent[..k]) && Delivers(s', t[1..], sent[k..]);
      DeliversSame(s, s', t[1..], sent[k..]);
      assert DeliversGroup(At(s, t[0]), sent[..k]);
    }
  }

  /** One group: what its requests are, and what is left. */
  lemma GroupDrained(better: (Rq, Rq) -> bool, s: Cfq) returns (first: seq<Rq>)
    requires Inv(s) && s.tree != []
    ensures First(s).1 == Some(s.tree[0])
    ensures var s1 := First(s).0; var s2 := Emptied(better, s1, s.tree[0], |At(s1, s.tree[0]).sort|);
            && Inv(s2) && s2.tree == s.tree[1..] && OthersSame(s, s2, s.tree[0])
            && s2.out == s.out + first && DeliversGroup(At(s, s.tree[0]), first)
  {
    FirstKeeps(s);
    var s1, q := First(s).0, s.tree[0];
    EmptiedKeeps(better, s1, q, |At(s1, q).sort|);
    first := EmptiedSends(better, s1, q, |At(s1, q).sort|);
  }

  lemma DeliversMore(s: Cfq, t: seq<nat>, first: seq<Rq>, rest: seq<Rq>)
    requires t != [] && DeliversGroup(At(s, t[0]), first) && Delivers(s, t[1..], rest)
    ensures Delivers(s, t, first + rest)
  {
    var k := |first|;
    assert (first + rest)[..k] == first && (first + rest)[k..] == rest;
  }

  lemma NoneBusy(s: Cfq)
    requires Inv(s) && s.tree == []
    ensures s.busy == 0 && forall x :: At(s, x).sort == []
  {
    forall x ensures At(s, x).sort == [] { assert LinkedAt(s, x); }
  }

  /** Forced dispatch ends with everything sent, each request once, and no group busy. */
  lemma {:induction false} DrainedKeeps(better: (Rq, Rq) -> bool, s: Cfq, n: nat) returns (sent: seq<Rq>)
    requires Inv(s) && n == |s.tree|
    ensures Inv(Drained(better, s, n)) && Drained(better, s, n).tree == []
    ensures Drained(better, s, n).out == s.out + sent && Delivers(s, s.tree, sent)
    decreases n
  {
    if n == 0 {
      FirstKeeps(s);
      sent := [];
      assert s.out + [] == s.out;
    } else {
      var first := GroupDrained(better, s);
      var s1, q := First(s).0, s.tree[0];
      var s2 := Emptied(better, s1, q, |At(s1, q).sort|);
      var rest := DrainedKeeps(better, s2, n - 1);
      sent := first + rest;
      JoinsUp(s.out, first, rest);
      DeliversSame(s, s2, s.tree[1..], rest);
      DeliversMore(s, s.tree, first, rest);
    }
  }

  // ---------------------------------------------------------------------- runs

  /** Dispatching serves the next request of a busy group, or its oldest. */
  datatype Step =
    | Add(q: nat, rq: Rq, pos: nat)
    | FrontMerge(q: nat, rq: Rq, grown: Rq, pos: nat)
    | Remove(q: nat, rq: Rq)
    | Resort(q: nat, pos: nat, same: bool)
    | Serve(oldest: bool)
    | Keep(q: nat, oldest: bool)
    | Force

  predicate Enabled(s: Cfq, x: Step) {
    match x
    case Add(q, r, _) => r !in Elems(At(s, q).sort)
    case FrontMerge(q, r, r', _) => r in Elems(At(s, q).sort) && r' !in Elems(At(s, q).sort)
    case Remove(q, r) => r in Elems(At(s, q).sort)
    case Resort(_, _, _) => true
    case Serve(_) => s.busy > 0
    case Keep(q, _) => At(s, q).sort != []
    case Force => s.busy > 0
  }

  function Chosen(g: Group, oldest: bool): Option<Rq> { if oldest && g.fifo != [] then Some(g.fifo[0]) else g.next }

  function Served(better: (Rq, Rq) -> bool, s: Cfq, q: nat, oldest: bool): Cfq {
    var o := Chosen(At(s, q), oldest); if o.None? then s else DispatchInserted(better, s, q, o.value)
  }

  function Apply(better: (Rq, Rq) -> bool, s: Cfq, x: Step): Cfq {
    match x
    case Add(q, r, pos) => Added(better, s, q, r, pos)
    case FrontMerge(q, r, r', pos) => FrontMerged(better, s, q, r, r', pos)
    case Remove(q, r) => Removed(better, s, q, r)
    case Resort(q, pos, same) => Resorted(s, q, pos, same)
    case Serve(oldest) => var (s1, o) := First(s); if o.None? then s1 else Served(better, s1, o.value, oldest)
    case Keep(q, oldest) => Served(better, s, q, oldest)
    case Force => Drained(better, s, |s.tree|)
  }

  lemma ServedKeeps(better: (Rq, Rq) -> bool, s: Cfq, q: nat, oldest: bool)
    requires Inv(s) && At(s, q).sort != []
    ensures Inv(Served(better, s, q, oldest)) && |Served(better, s, q, oldest).out| == |s.out| + 1
  {
    var g := At(s, q);
    assert GroupOk(g);
    ElemsAre(g.fifo);
    DispatchKeeps(better, s, q, Chosen(g, oldest).value);
  }

  lemma StepKeeps(better: (Rq, Rq) -> bool, s: Cfq, x: Step)
    requires Inv(s) && Enabled(s, x)
    ensures Inv(Apply(better, s, x))
  {
    match x
    case Add(q, r, pos) => AddedKeeps(better, s, q, r, pos);
    case FrontMerge(q, r, r', pos) => FrontMergedKeeps(better, s, q, r, r', pos);
    case Remove(q, r) => RemovedKeeps(better, s, q, r);
    case Resort(q, pos, same) => ResortedKeeps(s, q, pos, same);
    case Serve(oldest) =>
      FirstKeeps(s);
      var (s1, o) := First(s);
      ServedKeeps(better, s1, o.value, oldest);
    case Keep(q, oldest) => ServedKeeps(better, s, q, oldest);
    case Force => var _ := DrainedKeeps(better, s, |s.tree|);
  }

  predicate Possible(better: (Rq, Rq) -> bool, s: Cfq, xs: seq<Step>)
    decreases |xs|
  {
    xs == [] || (Enabled(s, xs[0]) && Possible(better, Apply(better, s, xs[0]), xs[1..]))
  }

  function Run(better: (Rq, Rq) -> bool, s: Cfq, xs: seq<Step>): Cfq
    decreases |xs|
  {
    if xs == [] then s else Run(better, Apply(better, s, xs[0]), xs[1..])
  }

  lemma {:induction false} RunKeeps(better: (Rq, Rq) -> bool, s: Cfq, xs: seq<Step>)
    requires Inv(s) && Possible(better, s, xs)
    ensures Inv(Run(better, s, xs))
    decreases |xs|
  {
    if xs != [] {
      StepKeeps(better, s, xs[0]);
      RunKeeps(better, Apply(better, s, xs[0]), xs[1..]);
    }
  }

  /** In every reachable state flags, tree, count and pending requests agree, and draining sends everything once. */
  lemma RunsAreKept(better: (Rq, Rq) -> bool, xs: seq<Step>) returns (sent: seq<Rq>)
    requires Possible(better, Init(), xs)
    ensures var s := Run(better, Init(), xs);
            && Inv(s)
            && (var s' := Drained(better, s, |s.tree|);
                s'.out == s.out + sent && Delivers(s, s.tree, sent) && s'.busy == 0 && forall x :: At(s', x).sort == [])
  {
    RunKeeps(better, Init(), xs);
    var s := Run(better, Init(), xs);
    sent := DrainedKeeps(better, s, |s.tree|);
    NoneBusy(Drained(better, s, |s.tree|));
  }
}
