// The queue invariant behind ordered writes: along the dispatch list, runs of one
// colour are separated by barriers, and every barrier not yet begun is on the list.
module OrderedInvariant {
  import opened OrderedQueue
  import opened OrderedHistory

  /** Subject to ordering: everything but the special requests. */
  predicate Ranked(r: Request) {
    !r.id.User? || r.fs
  }

  predicate UserFs(r: Request) {
    r.id.User? && r.fs
  }

  /** The place of a request in the true order; `f` barriers have ended. */
  function Key(f: nat, r: Request): nat {
    match r.id
    case User(_) => 4 * r.epoch + if r.hard then 1 else 0
    case PreFlush => 4 * f + 1
    case Bar => 4 * f + 2
    case PostFlush => 4 * f + 3
  }

  /** How many barriers have been begun. */
  function Base(q: Queue): nat {
    Ends(q.log) + if q.ordseq.Active? then 1 else 0
  }

  /** The colour of an epoch. */
  predicate Parity(epoch: nat) {
    epoch > 0 && !Parity(epoch - 1)
  }

  predicate Shape(r: Request) {
    match r.id
    case User(_) => (r.hard ==> r.fs) && (r.fs ==> r.color == Parity(r.epoch))
    case Bar => r.fs && r.hard
    case _ => !r.fs && r.hard
  }

  ghost predicate SchedOk(q: Queue) {
    forall r :: r in q.sched ==>
      UserFs(r) && !r.hard && r.epoch == Barriers(q.log) && Shape(r) && r.id !in q.started
  }

  ghost predicate DriverOk(q: Queue) {
    forall r :: r in q.driver ==>
      && Shape(r)
      && r.id in q.started
      && (UserFs(r) ==> !r.hard && r.epoch == Ends(q.log))
      && (!r.id.User? ==> CurSeq(q.ordseq) == ProxySeq(r.id))
  }

  ghost predicate ListOk(q: Queue) {
    forall r :: r in q.list ==>
      && Shape(r)
      && (UserFs(r) ==> Ends(q.log) <= r.epoch <= Barriers(q.log))
      && (UserFs(r) && r.hard ==> Base(q) <= r.epoch < Barriers(q.log))
      && (r.id in q.started ==>
            && (UserFs(r) ==> !r.hard && r.epoch == Ends(q.log))
            && (!r.id.User? ==> CurSeq(q.ordseq) == ProxySeq(r.id)))
  }

  /** The list is in true order, special requests aside. */
  ghost predicate Sorted(f: nat, list: seq<Request>) {
    forall i, j :: 0 <= i < j < |list| && Ranked(list[i]) && Ranked(list[j]) ==>
      Key(f, list[i]) <= Key(f, list[j]) && (list[i].hard ==> Key(f, list[i]) < Key(f, list[j]))
  }

  ghost predicate HasBarrier(list: seq<Request>, k: nat) {
    exists r :: r in list && UserFs(r) && r.hard && r.epoch == k
  }

  /** Every barrier not yet begun is on the list. */
  ghost predicate Separated(q: Queue) {
    forall k :: Base(q) <= k < Barriers(q.log) ==> HasBarrier(q.list, k)
  }

  ghost predicate IdsDiffer(list: seq<Request>) {
    forall i, j :: 0 <= i < j < |list| ==> list[i].id != list[j].id
  }

  /** Everything the queue has not finished with. */
  ghost function Held(q: Queue): set<Request> {
    q.sched + q.driver + (set r | r in q.list) + if q.ordseq.Active? then {q.orig} else {}
  }

  /** A request is in one place only. */
  ghost predicate Distinct(q: Queue) {
    && IdsDiffer(q.list)
    && q.sched !! q.driver
    && (forall r :: r in q.list ==> r !in q.sched && r !in q.driver)
    && (q.ordseq.Active? ==> q.orig !in q.sched && q.orig !in q.driver && q.orig !in q.list)
  }

  ghost predicate ProxyHeld(q: Queue, id: Id) {
    exists r :: (r in q.list || r in q.driver) && r.id == id
  }

  /** A proxy is queued or with the driver exactly while its stage is unmarked, `gone` aside. */
  ghost predicate ProxiesOk(q: Queue, gone: Id) {
    forall id: Id :: !id.User? ==>
      (ProxyHeld(q, id) <==> q.ordseq.Active? && !Bit(q.ordseq, ProxySeq(id)) && id != gone)
  }

  /** Nothing that must precede the running barrier is left. */
  ghost predicate Drained(q: Queue) {
    && (forall r :: r in q.list && UserFs(r) ==> r.epoch > Ends(q.log))
    && (forall r :: r in q.driver ==> !UserFs(r))
  }

  ghost predicate OrigOk(q: Queue) {
    q.ordseq.Active? ==>
      && UserFs(q.orig) && q.orig.hard && Shape(q.orig)
      && q.orig.epoch == Ends(q.log) < Barriers(q.log)
      && (q.ordseq.drain ==> Drained(q))
      && (q.ordseq.bar ==> q.ordseq.drain && q.ordseq.preflush)
      && CurSeq(q.ordseq) != DONE
  }

  ghost function FsOf(s: set<Request>): set<Request> {
    set r | r in s && r.fs
  }

  ghost predicate Counted(q: Queue) {
    && q.inFlight == |FsOf(q.driver)|
    && q.ordcolor == Parity(Barriers(q.log))
  }

  /** What is held is what was added, and is not done; proxies are the running barrier's. */
  ghost predicate Known(q: Queue) {
    forall r :: r in Held(q) ==>
      match r.id
      case User(n) => n in AddedIds(q.log) && n !in DoneIds(q.log) && r == RecordOf(q.log, n)
      case Bar => q.ordseq.Active? && r == BarProxy(q.orig)
      case _ => r == Flush(r.id)
  }

  ghost predicate HasId(q: Queue, n: nat) {
    exists r :: r in Held(q) && r.id == User(n)
  }

  /** Nothing is lost: a request not done is still held. */
  ghost predicate Kept(q: Queue) {
    forall n :: n in AddedIds(q.log) && n !in DoneIds(q.log) ==> HasId(q, n)
  }

  ghost predicate HistoryOk(q: Queue) {
    && Fresh(q.log)
    && Ends(q.log) <= Barriers(q.log)
    && DoneIds(q.log) * BarrierIds(q.log) <= EndedIds(q.log) <= DoneIds(q.log) <= AddedIds(q.log)
    && BegunIds(q.log) <= EndedIds(q.log) + if q.ordseq.Active? then {BarId(q)} else {}
  }

  /** A barrier that has not begun has no stage on record. */
  ghost predicate Unbegun(log: Log) {
    forall b :: b !in BegunIds(log) ==> (forall s :: Marks(log, b, s) == 0) && FirstError(log, b) == 0
  }

  ghost predicate StagesOk(q: Queue) {
    && Unbegun(q.log)
    && (q.ordseq.Active? ==>
          && BarId(q) in BegunIds(q.log)
          && (forall s: nat :: IsStage(s) ==> Marks(q.log, BarId(q), s) == if Bit(q.ordseq, s) then 1 else 0)
          && q.orderr == FirstError(q.log, BarId(q)))
  }

  /** Where requests may be. */
  ghost predicate Places(q: Queue) {
    SchedOk(q) && DriverOk(q) && ListOk(q) && Distinct(q) && Counted(q)
  }

  /** The order of the dispatch list. */
  ghost predicate Lined(q: Queue) {
    Sorted(Ends(q.log), q.list) && Separated(q)
  }

  /** The running sequence. */
  ghost predicate Running(q: Queue, gone: Id) {
    ProxiesOk(q, gone) && OrigOk(q) && StagesOk(q)
  }

  /** Agreement with the log. */
  ghost predicate Recorded(q: Queue) {
    Known(q) && Kept(q) && HistoryOk(q)
  }

  /** The invariant of a queue whose proxy `gone` has been released but not yet marked. */
  ghost predicate InvBut(q: Queue, gone: Id) {
    Places(q) && Lined(q) && Running(q, gone) && Recorded(q) && Ordered(q.log)
  }

  ghost predicate Inv(q: Queue) {
    InvBut(q, User(0))
  }

  // ------------------------------------------------ one colour bit is enough

  /** The stage a request truly belongs to. */
  function TrueSeq(q: Queue, r: Request): nat {
    if !r.id.User? then ProxySeq(r.id)
    else if !r.fs || r.epoch <= Ends(q.log) then DRAIN
    else DONE
  }

  /** If a request two or more epochs ahead is on the list, a barrier of the next epoch precedes it. */
  lemma BarrierPrecedes(q: Queue, i: nat)
    requires Inv(q) && q.ordseq.Active?
    requires i < |q.list| && UserFs(q.list[i]) && q.list[i].epoch > Ends(q.log) + 1
    ensures exists p :: 0 <= p < i && UserFs(q.list[p]) && q.list[p].hard
                        && q.list[p].epoch == Ends(q.log) + 1
  {
    assert q.list[i] in q.list;
    BarrierFirst(Ends(q.log), q.list, i);
  }

  lemma BarrierFirst(f: nat, list: seq<Request>, i: nat)
    requires Sorted(f, list) && HasBarrier(list, f + 1) && i < |list| && UserFs(list[i]) && list[i].epoch > f + 1
    ensures exists p :: 0 <= p < i && UserFs(list[p]) && list[p].hard && list[p].epoch == f + 1
  {
    var r :| r in list && UserFs(r) && r.hard && r.epoch == f + 1;
    var p :| 0 <= p < |list| && list[p] == r;
    assert i < p ==> Key(f, list[i]) <= Key(f, list[p]);
  }

  /** The colour bit classifies correctly every request not behind a later barrier. */
  lemma ColourIsRight(q: Queue, i: nat)
    requires Inv(q) && q.ordseq.Active? && i < |q.list|
    requires forall p :: 0 <= p < i ==> !(UserFs(q.list[p]) && q.list[p].hard)
    ensures ReqSeq(q, q.list[i]) == TrueSeq(q, q.list[i])
  {
    var r := q.list[i];
    assert r in q.list;
    if UserFs(r) && r.epoch > Ends(q.log) + 1 {
      BarrierPrecedes(q, i);
    }
  }
}
