// The asynchronous request queue of the crypto layer and the thread that serves it.  A
// request that finds the queue full is refused, or taken on as backlog; the requester of
// a backlogged one is told when it moves up into the queue proper.
module CryptoQueue {
  import opened Common

  type Id = nat

  /** `backlog` is the first backlogged request; `None` stands for the list head. */
  datatype Queue = Queue(list: seq<Id>, backlog: Option<Id>, qlen: nat, max: nat)

  datatype Answer = InProgress | Busy | Refused

  /** The element after `id`. */
  function After(list: seq<Id>, id: Id): Option<Id> {
    if list == [] then None
    else if list[0] == id then if |list| > 1 then Some(list[1]) else None
    else After(list[1..], id)
  }

  function Enqueued(q: Queue, id: Id, mayBacklog: bool): (Queue, Answer) {
    if q.qlen >= q.max && !mayBacklog then (q, Refused)
    else
      var backlog := if q.qlen >= q.max && q.backlog == None then Some(id) else q.backlog;
      (Queue(q.list + [id], backlog, q.qlen + 1, q.max), if q.qlen >= q.max then Busy else InProgress)
  }

  function Dequeued(q: Queue): (Queue, Option<Id>) {
    if q.qlen == 0 || q.list == [] then (q, None)
    else
      var backlog := if q.backlog.Some? then After(q.list, q.backlog.value) else None;
      (Queue(q.list[1..], backlog, q.qlen - 1, q.max), Some(q.list[0]))
  }

  /** The backlog pointer is at the element with index `max`, if there is one. */
  predicate Ok(q: Queue) {
    && q.qlen == |q.list| && NoTwice(q.list)
    && q.backlog == if |q.list| > q.max then Some(q.list[q.max]) else None
  }

  lemma {:induction false} AfterIsNext(list: seq<Id>, i: nat)
    requires NoTwice(list) && i < |list|
    ensures After(list, list[i]) == if i + 1 < |list| then Some(list[i + 1]) else None
  {
    if i > 0 {
      assert list[i] == list[1..][i - 1];
      AfterIsNext(list[1..], i - 1);
    }
  }

  lemma {:induction false} NoTwiceGrows(s: seq<Id>, id: Id)
    requires NoTwice(s) && id !in s
    ensures NoTwice(s + [id])
  {
    if s != [] {
      assert (s + [id])[1..] == s[1..] + [id];
      NoTwiceGrows(s[1..], id);
    }
  }

  lemma EnqueueKeeps(q: Queue, id: Id, mayBacklog: bool)
    requires Ok(q) && id !in q.list
    ensures Ok(Enqueued(q, id, mayBacklog).0)
  {
    NoTwiceGrows(q.list, id);
  }

  lemma DequeueKeeps(q: Queue)
    requires Ok(q)
    ensures Ok(Dequeued(q).0)
  {
    if |q.list| > q.max { AfterIsNext(q.list, q.max); }
  }

  // -------------------------------------------------------- the queue in place

  class CryptoQueue {
    var list: seq<Id>
    var backlog: Option<Id>
    var qlen: nat
    var max: nat

    function View(): Queue
      reads this
    {
      Queue(list, backlog, qlen, max)
    }

    /** What every run keeps. */
    predicate Valid()
      reads this
    {
      Ok(View())
    }

    constructor (maxQlen: nat)
      ensures Valid() && View() == Queue([], None, 0, maxQlen)
    {
      list, backlog, qlen, max := [], None, 0, maxQlen;
    }

    method Enqueue(id: Id, mayBacklog: bool) returns (answer: Answer)
      requires Valid() && id !in list
      modifies this
      ensures Valid() && (View(), answer) == Enqueued(old(View()), id, mayBacklog)
    {
      EnqueueKeeps(View(), id, mayBacklog);
      answer := InProgress;
      if qlen >= max {
        if !mayBacklog { return Refused; }
        answer := Busy;
        if backlog == None { backlog := Some(id); }
      }
      qlen := qlen + 1;
      list := list + [id];
    }

    method Dequeue() returns (request: Option<Id>)
      requires Valid()
      modifies this
      ensures Valid() && (View(), request) == Dequeued(old(View()))
    {
      DequeueKeeps(View());
      if qlen == 0 { return None; }
      qlen := qlen - 1;
      if backlog.Some? { backlog := After(list, backlog.value); }
      request := Some(list[0]);
      list := list[1..];
    }
  }

  // ------------------------------------------------------------- whole runs

  datatype Event = Took(id: Id, busy: bool) | Told(id: Id) | Completed(id: Id)

  datatype Log = Nil | Then(log: Log, last: Event)

  /** `tell` and `serve` are what the thread has taken out of the queue and not yet dealt with. */
  datatype World = World(q: Queue, tell: Option<Id>, serve: Option<Id>, log: Log)

  datatype Step = Submit(id: Id, mayBacklog: bool) | Take | Tell | Serve

  function Taken(log: Log): seq<Id> {
    match log case Nil => [] case Then(l, e) => if e.Took? then Taken(l) + [e.id] else Taken(l)
  }
  function Backlogged(log: Log): seq<Id> {
    match log case Nil => [] case Then(l, e) => if e.Took? && e.busy then Backlogged(l) + [e.id] else Backlogged(l)
  }
  function ToldOf(log: Log): seq<Id> {
    match log case Nil => [] case Then(l, e) => if e.Told? then ToldOf(l) + [e.id] else ToldOf(l)
  }
  function Done(log: Log): seq<Id> {
    match log case Nil => [] case Then(l, e) => if e.Completed? then Done(l) + [e.id] else Done(l)
  }

  predicate Enabled(w: World, s: Step) {
    match s
    case Submit(id, _) => id !in Taken(w.log)
    case Take => w.tell == None && w.serve == None
    case Tell => w.tell.Some?
    case Serve => w.tell == None && w.serve.Some?
  }

  function Apply(w: World, s: Step): World {
    match s
    case Submit(id, mayBacklog) =>
      var (q, answer) := Enqueued(w.q, id, mayBacklog);
      if answer == Refused then w else w.(q := q, log := Then(w.log, Took(id, answer == Busy)))
    case Take =>
      var (q, request) := Dequeued(w.q);
      w.(q := q, tell := if request.Some? then w.q.backlog else None, serve := request)
    case Tell => if w.tell.Some? then w.(tell := None, log := Then(w.log, Told(w.tell.value))) else w
    case Serve => if w.serve.Some? then w.(serve := None, log := Then(w.log, Completed(w.serve.value))) else w
  }

  function Start(max: nat): World { World(Queue([], None, 0, max), None, None, Nil) }

  function Run(w: World, steps: seq<Step>): World {
    if steps == [] then w
    else var last := |steps| - 1; Apply(Run(w, steps[..last]), steps[last])
  }

  predicate Possible(w: World, steps: seq<Step>) {
    steps == [] || (var last := |steps| - 1; Possible(w, steps[..last]) && Enabled(Run(w, steps[..last]), steps[last]))
  }

  /** What each event of a run may be, given those before it. */
  predicate Orderly(log: Log) {
    match log
    case Nil => true
    case Then(l, Took(id, _)) => Orderly(l) && id !in Taken(l)
    case Then(l, Told(id)) => Orderly(l) && ToldOf(l) + [id] <= Backlogged(l) && id !in Done(l)
    case Then(l, Completed(id)) =>
      && Orderly(l) && Done(l) + [id] <= Taken(l)
      && (id in Backlogged(l) <==> id in ToldOf(l))
  }

  function Held(o: Option<Id>): seq<Id> { if o.Some? then [o.value] else [] }
  function Above(s: seq<Id>, n: nat): seq<Id> { if n <= |s| then s[n..] else [] }

  /** Where every request is, and who has still to be told. */
  ghost predicate Inv(w: World) {
    && Ok(w.q) && NoTwice(Taken(w.log)) && Orderly(w.log)
    && Placed(w.q, w.tell, w.serve, Taken(w.log), Done(w.log), Backlogged(w.log), ToldOf(w.log))
    && (forall x :: x in Backlogged(w.log) ==> x in Taken(w.log))
  }

  /** Taken requests are done, being served or queued; backlogged ones are told, about to be, or above the limit. */
  predicate Placed(q: Queue, tell: Option<Id>, serve: Option<Id>, taken: seq<Id>, done: seq<Id>, backlogged: seq<Id>, told: seq<Id>) {
    && taken == done + Held(serve) + q.list
    && backlogged == told + Held(tell) + Above(q.list, q.max)
    && (tell.Some? ==> tell.value in Held(serve) + q.list)
  }

  lemma {:induction false} NoTwiceSplits(a: seq<Id>, b: seq<Id>)
    requires NoTwice(a + b)
    ensures forall x :: x in a ==> x !in b
  {
    if a != [] {
      assert (a + b)[1..] == a[1..] + b;
      NoTwiceSplits(a[1..], b);
      assert a[0] !in a[1..] + b;
    }
  }

  lemma SubmitKeeps(w: World, id: Id, mayBacklog: bool)
    requires Inv(w) && Enabled(w, Submit(id, mayBacklog))
    ensures Inv(Apply(w, Submit(id, mayBacklog)))
  {
    var (q', answer) := Enqueued(w.q, id, mayBacklog);
    if answer != Refused {
      EnqueueKeeps(w.q, id, mayBacklog);
      NoTwiceGrows(Taken(w.log), id);
      EnterPlaces(w.q, q', w.tell, w.serve, id, Taken(w.log), Done(w.log), Backlogged(w.log), ToldOf(w.log));
      TookKeeps(w, id, q', answer == Busy);
    }
  }

  lemma TookKeeps(w: World, id: Id, q': Queue, busy: bool)
    requires Ok(q') && NoTwice(Taken(w.log) + [id]) && Orderly(w.log) && id !in Taken(w.log)
    requires forall x :: x in Backlogged(w.log) ==> x in Taken(w.log)
    requires Placed(q', w.tell, w.serve, Taken(w.log) + [id], Done(w.log),
                    if busy then Backlogged(w.log) + [id] else Backlogged(w.log), ToldOf(w.log))
    ensures Inv(w.(q := q', log := Then(w.log, Took(id, busy))))
  {
  }

  /** A request at the end of the list is above the limit if the list was full. */
  lemma EnterPlaces(q: Queue, q': Queue, tell: Option<Id>, serve: Option<Id>, id: Id,
                    taken: seq<Id>, done: seq<Id>, backlogged: seq<Id>, told: seq<Id>)
    requires Placed(q, tell, serve, taken, done, backlogged, told) && q'.list == q.list + [id] && q'.max == q.max
    ensures Placed(q', tell, serve, taken + [id], done,
                   if |q.list| >= q.max then backlogged + [id] else backlogged, told)
  {
    assert done + Held(serve) + (q.list + [id]) == taken + [id];
    if |q.list| >= q.max {
      assert Above(q.list + [id], q.max) == Above(q.list, q.max) + [id];
      assert told + Held(tell) + (Above(q.list, q.max) + [id]) == backlogged + [id];
    } else {
      assert Above(q.list + [id], q.max) == Above(q.list, q.max) == [];
    }
  }

  lemma TakeKeeps(w: World)
    requires Inv(w) && Enabled(w, Take)
    ensures Inv(Apply(w, Take))
  {
    DequeueKeeps(w.q);
    TakePlaces(w.q, Taken(w.log), Done(w.log), Backlogged(w.log), ToldOf(w.log));
  }

  lemma TakePlaces(q: Queue, taken: seq<Id>, done: seq<Id>, backlogged: seq<Id>, told: seq<Id>)
    requires Ok(q) && Placed(q, None, None, taken, done, backlogged, told)
    ensures var (q', request) := Dequeued(q);
            Placed(q', if request.Some? then q.backlog else None, request, taken, done, backlogged, told)
  {
    if q.list != [] {
      TakeMoves(q.list, q.max);
      Regroup(done, [q.list[0]], q.list[1..]);
      Regroup(told, Held(q.backlog), Above(q.list[1..], q.max));
    }
  }

  lemma Regroup(a: seq<Id>, b: seq<Id>, c: seq<Id>)
    ensures a + [] + (b + c) == a + b + c
  {
  }

  /** The first of the list goes, and the first above the limit is no longer above it. */
  lemma TakeMoves(list: seq<Id>, max: nat)
    requires list != []
    ensures list == [list[0]] + list[1..]
    ensures if |list| > max then Above(list, max) == [list[max]] + Above(list[1..], max) && list[max] in [list[0]] + list[1..]
            else Above(list, max) == Above(list[1..], max) == []
  {
    if |list| > max {
      assert list[max..] == [list[max]] + list[max + 1..] && list[1..][max..] == list[max + 1..];
      assert list[max] in [list[0]] + list[1..];
    }
  }

  lemma TellKeeps(w: World)
    requires Inv(w) && Enabled(w, Tell)
    ensures Inv(Apply(w, Tell))
  {
    TellPlaces(w.q, w.tell, w.serve, Taken(w.log), Done(w.log), Backlogged(w.log), ToldOf(w.log));
  }

  /** The one told is next in turn, and not done yet. */
  lemma TellPlaces(q: Queue, tell: Option<Id>, serve: Option<Id>,
                   taken: seq<Id>, done: seq<Id>, backlogged: seq<Id>, told: seq<Id>)
    requires Placed(q, tell, serve, taken, done, backlogged, told) && tell.Some? && NoTwice(taken)
    ensures Placed(q, None, serve, taken, done, backlogged, told + [tell.value])
    ensures told + [tell.value] <= backlogged && tell.value !in done
  {
    assert taken == done + (Held(serve) + q.list);
    NoTwiceSplits(done, Held(serve) + q.list);
    assert backlogged == told + [tell.value] + Above(q.list, q.max);
  }

  lemma ServeKeeps(w: World)
    requires Inv(w) && Enabled(w, Serve)
    ensures Inv(Apply(w, Serve))
  {
    var done, list := Done(w.log) + [w.serve.value], w.q.list;
    assert Taken(w.log) == done + list;
    NoTwiceSplits(done, list);
    assert w.serve.value in done;
  }

  lemma {:induction false} RunKeeps(max: nat, steps: seq<Step>)
    requires Possible(Start(max), steps)
    ensures Inv(Run(Start(max), steps))
  {
    if steps != [] {
      var last := |steps| - 1;
      RunKeeps(max, steps[..last]);
      var w := Run(Start(max), steps[..last]);
      match steps[last]
      case Submit(id, mayBacklog) => SubmitKeeps(w, id, mayBacklog);
      case Take => TakeKeeps(w);
      case Tell => TellKeeps(w);
      case Serve => ServeKeeps(w);
    }
  }

  /**
    In every run requests are completed in the order they were taken, and a backlogged one
    is told exactly once, before it is completed, and any other never.
   */
  lemma RunsAreOrderly(max: nat, steps: seq<Step>)
    requires Possible(Start(max), steps)
    ensures var w := Run(Start(max), steps);
            && Orderly(w.log) && NoTwice(Taken(w.log)) && Done(w.log) <= Taken(w.log) && ToldOf(w.log) <= Backlogged(w.log)
            && (forall x :: x in Done(w.log) ==> (x in ToldOf(w.log) <==> x in Backlogged(w.log)))
  {
    RunKeeps(max, steps);
    var w := Run(Start(max), steps);
    DoneAreTold(w.q, w.tell, w.serve, Taken(w.log), Done(w.log), Backlogged(w.log), ToldOf(w.log));
  }

  lemma DoneAreTold(
    q: Queue, tell: Option<Id>, serve: Option<Id>, taken: seq<Id>, done: seq<Id>, backlogged: seq<Id>, told: seq<Id>)
    requires Placed(q, tell, serve, taken, done, backlogged, told) && NoTwice(taken)
    ensures done <= taken && told <= backlogged && forall x :: x in done ==> (x in told <==> x in backlogged)
  {
    var ahead, due := Held(serve) + q.list, Held(tell) + Above(q.list, q.max);
    assert taken == done + ahead && backlogged == told + due;
    NoTwiceSplits(done, ahead);
    forall x | x in due ensures x in ahead {
      if x in Above(q.list, q.max) { assert x in q.list; }
    }
  }

  /** When the thread finds nothing, every request taken has been completed and every backlogged one told. */
  lemma IdleMeansDone(max: nat, steps: seq<Step>)
    requires Possible(Start(max), steps)
    ensures var w := Run(Start(max), steps);
            w.q.qlen == 0 && w.serve == None ==> Done(w.log) == Taken(w.log) && ToldOf(w.log) == Backlogged(w.log)
  {
    RunKeeps(max, steps);
  }
}
