// What an ordered queue promises, said of its log alone: which request was added
// before which, what the driver may be handed when, and how a barrier ends.
module OrderedHistory {
  import opened OrderedQueue

  function AddedIds(log: Log): set<nat> {
    match log
    case Empty => {}
    case Snoc(p, Added(n, _)) => AddedIds(p) + {n}
    case Snoc(p, _) => AddedIds(p)
  }

  function FsIds(log: Log): set<nat> {
    match log
    case Empty => {}
    case Snoc(p, Added(n, r)) => if r.fs then FsIds(p) + {n} else FsIds(p)
    case Snoc(p, _) => FsIds(p)
  }

  function BarrierIds(log: Log): set<nat> {
    match log
    case Empty => {}
    case Snoc(p, Added(n, r)) => if IsBarrier(r) then BarrierIds(p) + {n} else BarrierIds(p)
    case Snoc(p, _) => BarrierIds(p)
  }

  function BegunIds(log: Log): set<nat> {
    match log
    case Empty => {}
    case Snoc(p, Begun(b)) => BegunIds(p) + {b}
    case Snoc(p, _) => BegunIds(p)
  }

  function EndedIds(log: Log): set<nat> {
    match log
    case Empty => {}
    case Snoc(p, Ended(b, _)) => EndedIds(p) + {b}
    case Snoc(p, _) => EndedIds(p)
  }

  /** Requests whose I/O is over: completed by the driver, or barriers that have ended. */
  function DoneIds(log: Log): set<nat> {
    match log
    case Empty => {}
    case Snoc(p, Completed(n)) => DoneIds(p) + {n}
    case Snoc(p, Ended(b, _)) => DoneIds(p) + {b}
    case Snoc(p, _) => DoneIds(p)
  }

  /** Was `a` added before `b`? */
  predicate AddedBefore(log: Log, a: nat, b: nat) {
    match log
    case Empty => false
    case Snoc(p, e) => AddedBefore(p, a, b) || (e.Added? && e.n == b && a in AddedIds(p))
  }

  /** How often the given stage of barrier `b` was marked or skipped. */
  function Marks(log: Log, b: nat, stage: nat): nat {
    match log
    case Empty => 0
    case Snoc(p, Marked(b', s, _)) => Marks(p, b, stage) + if b == b' && s == stage then 1 else 0
    case Snoc(p, Skipped(b', s)) => Marks(p, b, stage) + if b == b' && s == stage then 1 else 0
    case Snoc(p, _) => Marks(p, b, stage)
  }

  /** The first error any stage or data transfer of barrier `b` reported, or 0. */
  function FirstError(log: Log, b: nat): int {
    match log
    case Empty => 0
    case Snoc(p, e) =>
      var f := FirstError(p, b);
      if f != 0 then f
      else if e.Marked? && e.b == b then e.err
      else if e.Chunk? && e.b == b then e.err
      else 0
  }

  /** A file-system request may be handed out only if no earlier barrier is unfinished. */
  ghost predicate MayHand(log: Log, n: nat) {
    forall b :: b in BarrierIds(log) && AddedBefore(log, b, n) ==> b in EndedIds(log)
  }

  /** A proxy of barrier `b` may be handed out only after everything added before `b` is done. */
  ghost predicate MayHandProxy(log: Log, b: nat) {
    && b in BarrierIds(log)
    && b !in EndedIds(log)
    && forall a :: a in FsIds(log) && AddedBefore(log, a, b) ==> a in DoneIds(log)
  }

  /** Stages are marked once each, in issue order. */
  ghost predicate MayMark(log: Log, b: nat, stage: nat) {
    && IsStage(stage)
    && b !in EndedIds(log)
    && Marks(log, b, stage) == 0
    && forall s: nat :: IsStage(s) && s < stage ==> Marks(log, b, s) == 1
  }

  /** A barrier ends once, after every stage, with the first error reported or success. */
  ghost predicate MayEnd(log: Log, b: nat, err: int) {
    && b !in EndedIds(log)
    && (forall s: nat :: IsStage(s) ==> Marks(log, b, s) == 1)
    && err == FirstError(log, b)
  }

  ghost predicate EventOk(log: Log, e: Event) {
    match e
    case Handed(n, fs) => n in AddedIds(log) && (fs ==> MayHand(log, n))
    case HandedProxy(_, b) => MayHandProxy(log, b)
    case Marked(b, stage, _) => MayMark(log, b, stage)
    case Ended(b, err) => MayEnd(log, b, err)
    case _ => true
  }

  /** Every event of the log was allowed by the events before it. */
  ghost predicate Ordered(log: Log) {
    match log
    case Empty => true
    case Snoc(p, e) => Ordered(p) && EventOk(p, e)
  }

  /** No request is added twice, and each is stamped with the barriers before it. */
  predicate Fresh(log: Log) {
    match log
    case Empty => true
    case Snoc(p, e) =>
      Fresh(p) && (e.Added? ==> e.n !in AddedIds(p) && e.r.id == User(e.n) && e.r.epoch == Barriers(p))
  }

  /** Request `n` as it was added. */
  function RecordOf(log: Log, n: nat): Request {
    match log
    case Empty => Flush(PreFlush)
    case Snoc(p, Added(m, r)) => if m == n then r else RecordOf(p, n)
    case Snoc(p, _) => RecordOf(p, n)
  }

  /** The record of an added request tells its kind and its place among the barriers. */
  lemma {:induction false} RecordTells(log: Log, n: nat)
    requires Fresh(log) && n in AddedIds(log)
    ensures RecordOf(log, n).id == User(n)
    ensures n in FsIds(log) <==> RecordOf(log, n).fs
    ensures n in BarrierIds(log) <==> IsBarrier(RecordOf(log, n))
    ensures RecordOf(log, n).epoch <= Barriers(log)
    ensures n in BarrierIds(log) ==> RecordOf(log, n).epoch < Barriers(log)
  {
    IdsNest(log.prev);
    if n in AddedIds(log.prev) { RecordTells(log.prev, n); }
  }

  lemma {:induction false} IdsNest(log: Log)
    requires Fresh(log)
    ensures BarrierIds(log) <= FsIds(log) <= AddedIds(log)
  {
    if log.Snoc? { IdsNest(log.prev); }
  }

  /** The stamps follow the order of adding, and a barrier closes its epoch. */
  lemma {:induction false} EpochsFollowOrder(log: Log, a: nat, b: nat)
    requires Fresh(log) && AddedBefore(log, a, b)
    ensures a in AddedIds(log) && b in AddedIds(log) && a != b
    ensures RecordOf(log, a).epoch <= RecordOf(log, b).epoch
    ensures a in BarrierIds(log) ==> RecordOf(log, a).epoch < RecordOf(log, b).epoch
  {
    IdsNest(log.prev);
    if AddedBefore(log.prev, a, b) {
      EpochsFollowOrder(log.prev, a, b);
    } else {
      RecordTells(log.prev, a);
    }
  }
}
