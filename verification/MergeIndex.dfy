// The elevator's merge index: a hash of the requests it holds, by the sector they end at,
// and the request merged into last.
module MergeIndex {
  import opened Common

  /** `epoch` counts the barriers queued before the request. */
  datatype Rq = Rq(sector: nat, size: nat, mergeable: bool, epoch: nat)

  const SLOTS: nat := 64

  type Table = h: seq<seq<nat>> | |h| == SLOTS witness seq(SLOTS, _ => [])

  /** `held`: the requests in the scheduler, by id. */
  datatype Index = Index(hash: Table, held: map<nat, Rq>, last: Option<nat>, epoch: nat)

  function Init(): Index { Index(seq(SLOTS, _ => []), map[], None, 0) }

  function End(r: Rq): nat { r.sector + r.size }

  function Slot(fn: nat -> nat, end: nat): (b: nat)
    ensures b < SLOTS
  {
    fn(end) % SLOTS
  }

  function Without(chain: seq<nat>, id: nat): seq<nat> {
    if chain == [] then [] else if chain[0] == id then Without(chain[1..], id) else [chain[0]] + Without(chain[1..], id)
  }

  lemma {:induction false} WithoutIs(chain: seq<nat>, id: nat)
    ensures forall x :: x in Without(chain, id) <==> x in chain && x != id
  {
    if chain != [] { WithoutIs(chain[1..], id); }
  }

  // ------------------------------------------------------------------ the hash

  function Unhashed(hash: Table, id: nat): Table {
    seq(SLOTS, b requires 0 <= b < SLOTS => Without(hash[b], id))
  }

  function Hashed(fn: nat -> nat, hash: Table, id: nat, end: nat): Table {
    hash[Slot(fn, end) := [id] + hash[Slot(fn, end)]]
  }

  /** Going along a chain: requests that may not be merged any more are dropped from it. */
  function Scanned(held: map<nat, Rq>, chain: seq<nat>, end: nat): (seq<nat>, Option<nat>) {
    if chain == [] then ([], None)
    else if chain[0] !in held || !held[chain[0]].mergeable then Scanned(held, chain[1..], end)
    else if End(held[chain[0]]) == end then (chain, Some(chain[0]))
    else var (rest, o) := Scanned(held, chain[1..], end); ([chain[0]] + rest, o)
  }

  function Found(fn: nat -> nat, s: Index, end: nat): (Index, Option<nat>) {
    var b := Slot(fn, end);
    var (chain, o) := Scanned(s.held, s.hash[b], end);
    (s.(hash := s.hash[b := chain]), o)
  }

  // --------------------------------------------------------------- operations

  function Inserted(fn: nat -> nat, s: Index, id: nat, r: Rq): Index {
    var s1 := s.(held := s.held[id := r]);
    if r.mergeable then s1.(hash := Hashed(fn, s.hash, id, End(r)), last := if s.last.None? then Some(id) else s.last)
    else s1
  }

  /** To the dispatch queue: out of the index. */
  function Dispatched(s: Index, id: nat): Index {
    Index(Unhashed(s.hash, id), s.held - {id}, if s.last == Some(id) then None else s.last, s.epoch)
  }

  /** A merge that did not fit: the request takes no more. */
  function Closed(s: Index, id: nat): Index
    requires id in s.held
  {
    s.(held := s.held[id := s.held[id].(mergeable := false)], last := if s.last == Some(id) then None else s.last)
  }

  function Repositioned(fn: nat -> nat, s: Index, id: nat): Index
    requires id in s.held
  {
    s.(hash := Hashed(fn, Unhashed(s.hash, id), id, End(s.held[id])))
  }

  function GrownBack(s: Index, id: nat, n: nat): Index
    requires id in s.held
  {
    s.(held := s.held[id := s.held[id].(size := s.held[id].size + n)])
  }

  /** A bio behind a request: its end moves. */
  function BackMerged(fn: nat -> nat, s: Index, id: nat, n: nat): Index
    requires id in s.held
  {
    Repositioned(fn, GrownBack(s, id, n), id).(last := Some(id))
  }

  function GrownFront(s: Index, id: nat, n: nat): Index
    requires id in s.held && n <= s.held[id].sector
  {
    s.(held := s.held[id := s.held[id].(sector := s.held[id].sector - n, size := s.held[id].size + n)])
  }

  /** A bio in front of a request: its end stays, and so does its place in the hash. */
  function FrontMerged(s: Index, id: nat, n: nat): Index
    requires id in s.held && n <= s.held[id].sector
  {
    GrownFront(s, id, n).(last := Some(id))
  }

  /** The request after `id` becomes part of it. */
  function Joined(fn: nat -> nat, s: Index, id: nat, next: nat): Index
    requires id in s.held && next in s.held && id != next
  {
    var s1 := Repositioned(fn, GrownBack(s, id, s.held[next].size), id);
    Index(Unhashed(s1.hash, next), s1.held - {next}, Some(id), s.epoch)
  }

  /** The scheduler is drained, in whatever order. */
  function AllDispatched(s: Index, order: seq<nat>): Index
    decreases |order|
  {
    if order == [] then s else AllDispatched(Dispatched(s, order[0]), order[1..])
  }

  /** A barrier: the scheduler is drained before it is queued. */
  function BarrierQueued(s: Index, order: seq<nat>): Index {
    var s1 := AllDispatched(s, order); s1.(epoch := s1.epoch + 1)
  }

  // ---------------------------------------------------------- looking for a merge

  datatype Match = NoMerge | Back(id: nat) | Front(id: nat)

  /** How a bio fits the request merged into last; `ok` is what else is asked of the pair. */
  function TryMerge(s: Index, id: nat, ok: bool, sector: nat, n: nat): Match
    requires id in s.held
  {
    var r := s.held[id];
    if !r.mergeable || !ok then NoMerge
    else if End(r) == sector then Back(id)
    else if r.sector == sector + n then Front(id)
    else NoMerge
  }

  /** `front` is what the scheduler finds beginning where the bio ends. */
  function Merge(fn: nat -> nat, s: Index, sector: nat, n: nat, ok: nat -> bool, front: Option<nat>): (Index, Match) {
    var m := if s.last.Some? && s.last.value in s.held then TryMerge(s, s.last.value, ok(s.last.value), sector, n) else NoMerge;
    if m != NoMerge then (s, m)
    else
      var (s1, o) := Found(fn, s, sector);
      (s1, if o.Some? && ok(o.value) then Back(o.value) else if front.Some? then Front(front.value) else NoMerge)
  }

  // ------------------------------------------------------------- the invariant

  /** Chains hold only requests held, at the slot of their end. */
  ghost predicate ChainsOk(fn: nat -> nat, s: Index) {
    forall b, id :: 0 <= b < |s.hash| && id in s.hash[b] ==> id in s.held && Slot(fn, End(s.held[id])) == b
  }

  /** Every request that may be merged is where the hash looks for it. */
  ghost predicate AllIndexed(fn: nat -> nat, s: Index) {
    forall id :: id in s.held && s.held[id].mergeable ==> id in s.hash[Slot(fn, End(s.held[id]))]
  }

  ghost predicate Inv(fn: nat -> nat, s: Index) {
    && ChainsOk(fn, s) && AllIndexed(fn, s)
    && (s.last.Some? ==> s.last.value in s.held)
    && forall id :: id in s.held ==> s.held[id].epoch == s.epoch
  }

  lemma {:induction false} ScannedTells(held: map<nat, Rq>, chain: seq<nat>, end: nat)
    ensures var (rest, o) := Scanned(held, chain, end);
            && (forall x :: x in rest ==> x in chain)
            && (forall x :: x in chain && x in held && held[x].mergeable ==> x in rest)
            && (o.Some? ==> o.value in chain && o.value in held && held[o.value].mergeable && End(held[o.value]) == end)
            && (o.None? ==> forall x :: x in chain && x in held && held[x].mergeable ==> End(held[x]) != end)
  {
    if chain != [] { ScannedTells(held, chain[1..], end); }
  }

  /** The hash finds a request ending at a sector if and only if some mergeable one held ends there. */
  lemma FoundTells(fn: nat -> nat, s: Index, end: nat)
    requires Inv(fn, s)
    ensures var (s', o) := Found(fn, s, end);
            && Inv(fn, s') && s'.held == s.held && s'.last == s.last
            && (o.Some? ==> o.value in s.held && s.held[o.value].mergeable && End(s.held[o.value]) == end)
            && (o.Some? <==> exists id :: id in s.held && s.held[id].mergeable && End(s.held[id]) == end)
  {
    ScannedTells(s.held, s.hash[Slot(fn, end)], end);
  }

  lemma InsertedKeeps(fn: nat -> nat, s: Index, id: nat, r: Rq)
    requires Inv(fn, s) && id !in s.held && r.epoch == s.epoch
    ensures Inv(fn, Inserted(fn, s, id, r))
  {
  }

  lemma UnhashedIs(hash: Table, id: nat)
    ensures forall b, x :: 0 <= b < |hash| ==> (x in Unhashed(hash, id)[b] <==> x in hash[b] && x != id)
  {
    forall b | 0 <= b < |hash| { WithoutIs(hash[b], id); }
  }

  lemma DispatchedKeeps(fn: nat -> nat, s: Index, id: nat)
    requires Inv(fn, s)
    ensures Inv(fn, Dispatched(s, id))
  {
    UnhashedIs(s.hash, id);
  }

  lemma ClosedKeeps(fn: nat -> nat, s: Index, id: nat)
    requires Inv(fn, s) && id in s.held
    ensures Inv(fn, Closed(s, id))
  {
  }

  lemma BackMergedKeeps(fn: nat -> nat, s: Index, id: nat, n: nat)
    requires Inv(fn, s) && id in s.held
    ensures Inv(fn, BackMerged(fn, s, id, n))
  {
    UnhashedIs(s.hash, id);
  }

  lemma FrontMergedKeeps(fn: nat -> nat, s: Index, id: nat, n: nat)
    requires Inv(fn, s) && id in s.held && n <= s.held[id].sector
    ensures Inv(fn, FrontMerged(s, id, n))
  {
    assert End(GrownFront(s, id, n).held[id]) == End(s.held[id]);
  }

  lemma JoinedKeeps(fn: nat -> nat, s: Index, id: nat, next: nat)
    requires Inv(fn, s) && id in s.held && next in s.held && id != next
    ensures Inv(fn, Joined(fn, s, id, next))
  {
    BackMergedKeeps(fn, s, id, s.held[next].size);
    DispatchedKeeps(fn, BackMerged(fn, s, id, s.held[next].size), next);
  }

  /** Two requests joined by a bio between them. */
  lemma JoinedBehindKeeps(fn: nat -> nat, s: Index, id: nat, n: nat, next: nat)
    requires Inv(fn, s) && id in s.held && next in s.held && id != next
    ensures Inv(fn, Joined(fn, GrownBack(s, id, n), id, next))
  {
    var m := n + s.held[next].size;
    BackMergedKeeps(fn, s, id, m);
    DispatchedKeeps(fn, BackMerged(fn, s, id, m), next);
    assert Joined(fn, GrownBack(s, id, n), id, next).held == Dispatched(BackMerged(fn, s, id, m), next).held;
  }

  lemma JoinedInFrontKeeps(fn: nat -> nat, s: Index, id: nat, n: nat, prev: nat)
    requires Inv(fn, s) && id in s.held && prev in s.held && id != prev && n <= s.held[id].sector
    ensures Inv(fn, Joined(fn, GrownFront(s, id, n), prev, id))
  {
    FrontMergedKeeps(fn, s, id, n);
    JoinedKeeps(fn, FrontMerged(s, id, n), prev, id);
    JoinedAnyLast(fn, GrownFront(s, id, n), prev, id, Some(id));
  }

  /** What was merged into last does not matter when two requests are joined. */
  lemma JoinedAnyLast(fn: nat -> nat, s: Index, id: nat, next: nat, last: Option<nat>)
    requires id in s.held && next in s.held && id != next
    ensures Joined(fn, s, id, next) == Joined(fn, s.(last := last), id, next)
  {
  }

  lemma {:induction false} AllDispatchedKeeps(fn: nat -> nat, s: Index, order: seq<nat>)
    requires Inv(fn, s)
    ensures Inv(fn, AllDispatched(s, order)) && AllDispatched(s, order).epoch == s.epoch
    ensures forall id :: id in AllDispatched(s, order).held ==> id in s.held && id !in order
    decreases |order|
  {
    if order != [] {
      DispatchedKeeps(fn, s, order[0]);
      AllDispatchedKeeps(fn, Dispatched(s, order[0]), order[1..]);
    }
  }

  lemma NoneIn(chain: seq<nat>)
    ensures chain == [] || chain[0] in chain
  {
  }

  /** Once a barrier is queued, the index is empty. */
  lemma BarrierKeeps(fn: nat -> nat, s: Index, order: seq<nat>)
    requires Inv(fn, s) && forall id :: id in s.held ==> id in order
    ensures var s' := BarrierQueued(s, order);
            Inv(fn, s') && s'.held == map[] && s'.last == None && forall b :: 0 <= b < SLOTS ==> s'.hash[b] == []
  {
    AllDispatchedKeeps(fn, s, order);
    var s' := BarrierQueued(s, order);
    assert s'.held.Keys == {};
    forall b | 0 <= b < SLOTS ensures s'.hash[b] == [] {
      assert forall x :: x in AllDispatched(s, order).hash[b] ==> x in s'.held;
      NoneIn(s'.hash[b]);
    }
  }

  /** May the scheduler propose this request for a front merge? */
  predicate FrontOk(s: Index, front: Option<nat>, end: nat) {
    front.Some? ==> front.value in s.held && s.held[front.value].mergeable && s.held[front.value].sector == end
  }

  /**
    A bio is only merged into a request held, mergeable and adjacent, and queued since the
    last barrier; and if any request is ready to take it behind, some request is found.
   */
  lemma MergeTells(fn: nat -> nat, s: Index, sector: nat, n: nat, ok: nat -> bool, front: Option<nat>)
    requires Inv(fn, s) && FrontOk(s, front, sector + n)
    ensures var (s', m) := Merge(fn, s, sector, n, ok, front);
            && Inv(fn, s') && s'.held == s.held && s'.epoch == s.epoch
            && (m.Back? ==> m.id in s.held && s.held[m.id].mergeable && End(s.held[m.id]) == sector && s.held[m.id].epoch == s.epoch)
            && (m.Front? ==> m.id in s.held && s.held[m.id].mergeable && s.held[m.id].sector == sector + n
                             && s.held[m.id].epoch == s.epoch)
            && ((forall x :: ok(x)) && m == NoMerge ==>
                  forall id :: id in s.held && s.held[id].mergeable ==> End(s.held[id]) != sector)
  {
    FoundTells(fn, s, sector);
  }

  // ---------------------------------------------------------------------- runs

  /** `into` records each merge: the barriers before the bio, and before the request. */
  datatype World = World(s: Index, into: seq<(nat, nat)>)

  datatype Step =
    | Insert(id: nat, rq: Rq)
    | Dispatch(id: nat)
    | Submit(sector: nat, n: nat, ok: nat -> bool, front: Option<nat>, fits: bool, join: Option<nat>)
    | QueueBarrier(order: seq<nat>)

  /** Where a back merge closes a gap, the two requests become one; likewise in front. */
  predicate MayJoin(s: Index, id: nat, next: nat) {
    && id in s.held && next in s.held && id != next && s.held[id].mergeable && s.held[next].mergeable
    && End(s.held[id]) == s.held[next].sector
  }

  predicate Enabled(fn: nat -> nat, w: World, x: Step) {
    match x
    case Insert(id, r) => id !in w.s.held && r.epoch == w.s.epoch
    case Dispatch(id) => id in w.s.held
    case Submit(sector, n, _, front, _, _) => FrontOk(w.s, front, sector + n)
    case QueueBarrier(order) => forall id :: id in w.s.held ==> id in order
  }

  function MergedInto(fn: nat -> nat, s: Index, m: Match, n: nat, fits: bool, join: Option<nat>): Index {
    match m
    case NoMerge => s
    case Back(id) =>
      if id !in s.held then s
      else if !fits then Closed(s, id)
      else
        var s1 := GrownBack(s, id, n);
        if join.Some? && MayJoin(s1, id, join.value) then Joined(fn, s1, id, join.value) else BackMerged(fn, s, id, n)
    case Front(id) =>
      if id !in s.held || n > s.held[id].sector then s
      else if !fits then Closed(s, id)
      else
        var s1 := GrownFront(s, id, n);
        if join.Some? && MayJoin(s1, join.value, id) then Joined(fn, s1, join.value, id) else FrontMerged(s, id, n)
  }

  function Apply(fn: nat -> nat, w: World, x: Step): World {
    match x
    case Insert(id, r) => w.(s := Inserted(fn, w.s, id, r))
    case Dispatch(id) => w.(s := Dispatched(w.s, id))
    case Submit(sector, n, ok, front, fits, join) =>
      var (s1, m) := Merge(fn, w.s, sector, n, ok, front);
      World(MergedInto(fn, s1, m, n, fits, join),
            if m == NoMerge || !fits || m.id !in s1.held then w.into else w.into + [(w.s.epoch, s1.held[m.id].epoch)])
    case QueueBarrier(order) => w.(s := BarrierQueued(w.s, order))
  }

  lemma MergedIntoKeeps(fn: nat -> nat, s: Index, m: Match, n: nat, fits: bool, join: Option<nat>)
    requires Inv(fn, s)
    ensures Inv(fn, MergedInto(fn, s, m, n, fits, join)) && MergedInto(fn, s, m, n, fits, join).epoch == s.epoch
  {
    match m
    case NoMerge =>
    case Back(id) =>
      if id in s.held {
        ClosedKeeps(fn, s, id);
        BackMergedKeeps(fn, s, id, n);
        if join.Some? && join.value in s.held && join.value != id { JoinedBehindKeeps(fn, s, id, n, join.value); }
      }
    case Front(id) =>
      if id in s.held && n <= s.held[id].sector {
        ClosedKeeps(fn, s, id);
        FrontMergedKeeps(fn, s, id, n);
        if join.Some? && join.value in s.held && join.value != id { JoinedInFrontKeeps(fn, s, id, n, join.value); }
      }
  }

  /** No merge so far crossed a barrier. */
  predicate NoneCrossed(into: seq<(nat, nat)>) { forall i :: 0 <= i < |into| ==> into[i].0 == into[i].1 }

  lemma StepKeeps(fn: nat -> nat, w: World, x: Step)
    requires Inv(fn, w.s) && NoneCrossed(w.into) && Enabled(fn, w, x)
    ensures Inv(fn, Apply(fn, w, x).s) && NoneCrossed(Apply(fn, w, x).into)
  {
    match x
    case Insert(id, r) => InsertedKeeps(fn, w.s, id, r);
    case Dispatch(id) => DispatchedKeeps(fn, w.s, id);
    case Submit(sector, n, ok, front, fits, join) =>
      MergeTells(fn, w.s, sector, n, ok, front);
      var (s1, m) := Merge(fn, w.s, sector, n, ok, front);
      MergedIntoKeeps(fn, s1, m, n, fits, join);
    case QueueBarrier(order) => BarrierKeeps(fn, w.s, order);
  }

  predicate Possible(fn: nat -> nat, w: World, xs: seq<Step>)
    decreases |xs|
  {
    xs == [] || (Enabled(fn, w, xs[0]) && Possible(fn, Apply(fn, w, xs[0]), xs[1..]))
  }

  function Run(fn: nat -> nat, w: World, xs: seq<Step>): World
    decreases |xs|
  {
    if xs == [] then w else Run(fn, Apply(fn, w, xs[0]), xs[1..])
  }

  lemma {:induction false} RunKeeps(fn: nat -> nat, w: World, xs: seq<Step>)
    requires Inv(fn, w.s) && NoneCrossed(w.into) && Possible(fn, w, xs)
    ensures Inv(fn, Run(fn, w, xs).s) && NoneCrossed(Run(fn, w, xs).into)
    decreases |xs|
  {
    if xs != [] {
      StepKeeps(fn, w, xs[0]);
      RunKeeps(fn, Apply(fn, w, xs[0]), xs[1..]);
    }
  }

  /** In every run the index is right, and no bio is merged into a request from before an earlier barrier. */
  lemma RunsAreRight(fn: nat -> nat, xs: seq<Step>, end: nat)
    requires Possible(fn, World(Init(), []), xs)
    ensures var w := Run(fn, World(Init(), []), xs);
            && Inv(fn, w.s) && NoneCrossed(w.into)
            && (Found(fn, w.s, end).1.Some?
                <==> exists id :: id in w.s.held && w.s.held[id].mergeable && End(w.s.held[id]) == end)
  {
    RunKeeps(fn, World(Init(), []), xs);
    FoundTells(fn, Run(fn, World(Init(), []), xs).s, end);
  }
}
