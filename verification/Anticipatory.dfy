// The anticipatory scheduler: batches of reads and writes, and waiting for the process
// whose read has just been served to come back with another one nearby.
module Anticipatory {
  import opened Common
  import opened AsOrder
  import opened RequestLists

  datatype Dir = Sync | Async

  /** A queued request with the time it expires. */
  datatype Slot = Slot(rq: Rq, expires: int)

  /** One direction: the requests by sector, by age, the cached next one, and where the head stopped. */
  datatype Side = Side(tree: seq<Rq>, fifo: seq<Slot>, next: Option<Rq>, last: nat, lastCheck: int)

  datatype Antic = Off | WaitReq | WaitNext | Finished

  /** A request given to the driver and not yet completed. */
  datatype Out = Out(rq: Rq, dir: Dir)

  datatype Tunables = Tunables(syncExpire: int, asyncExpire: int, syncBatch: int, asyncBatch: int, anticExpire: nat)

  /**
    The batch: its direction, whether the requests of the last one have still to end
    (`changed`) or the first read of this one (`newBatch`), when it expires, how many writes a
    batch has, and how many this one has left.
   */
  datatype Batch = Batch(dir: Dir, changed: bool, newBatch: bool, expires: int, writes: nat, left: nat)

  /**
    Anticipation: since when, whether the timer is pending, the process, and whether its last
    request has ended.
   */
  datatype Wait = Wait(antic: Antic, start: int, timer: bool, ioc: Option<nat>, finished: bool)

  /** `work`: the work that runs the queue is scheduled. */
  datatype State = State(sync: Side, async: Side, batch: Batch, wait: Wait, work: bool, out: seq<Out>, nrDispatched: nat)

  function SideOf(s: State, d: Dir): Side { if d == Sync then s.sync else s.async }

  function WithSide(s: State, d: Dir, x: Side): State { if d == Sync then s.(sync := x) else s.(async := x) }

  function EmptySide(): Side { Side([], [], None, 0, 0) }

  function Init(batchExpires: int, writeBatch: nat): State {
    State(EmptySide(), EmptySide(), Batch(Async, false, false, batchExpires, writeBatch, 0),
          Wait(Off, 0, false, None, false), false, [], 0)
  }

  predicate Waiting(s: State) { s.wait.antic == WaitReq || s.wait.antic == WaitNext }

  function FifoExpire(t: Tunables, d: Dir): int { if d == Sync then t.syncExpire else t.asyncExpire }

  function Abs(x: int): int { if x < 0 then -x else x }

  // ------------------------------------------------------------- anticipation

  predicate AnticExpired(s: State, t: Tunables, now: int) { Abs(now - s.wait.start) >= t.anticExpire }

  function WaitForNext(s: State): State { s.(wait := s.wait.(timer := true, antic := WaitNext)) }

  /** Start anticipating; the time runs from when the read has ended. */
  function WaitForReq(s: State): State {
    if s.wait.antic != Off then s
    else if s.wait.ioc.None? || s.wait.finished then WaitForNext(s)
    else s.(wait := s.wait.(antic := WaitReq))
  }

  function Stopped(s: State): State {
    if Waiting(s)
    then s.(wait := s.wait.(timer := s.wait.timer && s.wait.antic != WaitNext, antic := Finished), work := true) else s
  }

  /** The timer's function; `mine` when the timer was still pending. */
  function TimedOut(s: State, mine: bool): State {
    var timer := s.wait.timer && !mine;
    if Waiting(s) then s.(wait := s.wait.(timer := timer, antic := Finished), work := true)
    else s.(wait := s.wait.(timer := timer))
  }

  /**
    Should anticipation end for `o`?  `hunch` is what think times, seek distances and the
    process's other requests say.
   */
  predicate CanBreak(s: State, t: Tunables, o: Option<Rq>, now: int, hunch: bool) {
    || (o.Some? && s.wait.ioc == Some(o.value.ioc))
    || (s.wait.finished && AnticExpired(s, t, now))
    || hunch
  }

  predicate CanAnticipate(s: State, t: Tunables, o: Option<Rq>, now: int, hunch: bool) {
    s.wait.ioc.Some? && s.wait.antic != Finished && !CanBreak(s, t, o, now, hunch)
  }

  // ------------------------------------------------------------------- moving

  function DropSlot(f: seq<Slot>, r: Rq): seq<Slot> {
    if f == [] then [] else if f[0].rq == r then f[1..] else [f[0]] + DropSlot(f[1..], r)
  }

  /** A side without a request that is being dispatched; the head will stop at its end. */
  function SideMoved(x: Side, r: Rq): Side {
    var i := IndexOf(x.tree, r);
    if i < |x.tree| then Side(Without(x.tree, i), DropSlot(x.fifo, r), FindNext(End(r), x.tree, i), End(r), x.lastCheck)
    else x
  }

  /** The process to anticipate on, the writes left in the batch, and one more request with the driver. */
  function Accounted(s: State, d: Dir, r: Rq): State {
    s.(wait := s.wait.(antic := Off, ioc := if d == Sync then Some(r.ioc) else None, finished := false),
       batch := if d == Async && s.batch.left != 0 then s.batch.(left := s.batch.left - 1) else s.batch,
       out := s.out + [Out(r, d)],
       nrDispatched := s.nrDispatched + 1)
  }

  function Moved(s: State, d: Dir, r: Rq): State {
    Accounted(WithSide(Stopped(s), d, SideMoved(SideOf(s, d), r)), d, r)
  }

  // ------------------------------------------------------------------- adding

  /** What is at the sector, if anything, is dispatched to make way. */
  function MadeWay(s: State, d: Dir, sector: nat): State {
    var t := SideOf(s, d).tree;
    var i := Place(t, sector);
    if i < |t| && t[i].sector == sector then Moved(s, d, t[i]) else s
  }

  function Entered(x: Side, r: Rq, expires: int): Side {
    x.(tree := Inserted(x.tree, r), fifo := x.fifo + [Slot(r, expires)], next := Choose(x.last, Some(r), x.next))
  }

  function AddedAfter(s: State, t: Tunables, d: Dir, r: Rq, now: int, hunch: bool): State {
    StoppedFor(WithSide(s, d, Entered(SideOf(s, d), r, now + FifoExpire(t, d))), t, r, now, hunch)
  }

  /** Anticipation ends if the request is worth it. */
  function StoppedFor(s: State, t: Tunables, r: Rq, now: int, hunch: bool): State {
    if Waiting(s) && CanBreak(s, t, Some(r), now, hunch) then Stopped(s) else s
  }

  function Added(s: State, t: Tunables, d: Dir, r: Rq, now: int, hunch: bool): State {
    AddedAfter(MadeWay(s, d, r.sector), t, d, r, now, hunch)
  }

  // --------------------------------------------------------------- dispatching

  /** Has the oldest request waited too long?  Looked at only now and then. */
  predicate FifoExpired(x: Side, expire: int, now: int) {
    Abs(now - x.lastCheck) >= expire && x.fifo != [] && now > x.fifo[0].expires
  }

  function FifoLooked(x: Side, expire: int, now: int): Side {
    if Abs(now - x.lastCheck) >= expire then x.(lastCheck := now) else x
  }

  predicate BatchExpired(s: State, now: int) {
    !s.batch.changed && !s.batch.newBatch && (now > s.batch.expires || (s.batch.dir == Async && s.batch.left == 0))
  }

  predicate Reads(s: State) { s.sync.fifo != [] }
  predicate Writes(s: State) { s.async.fifo != [] }
  predicate Queued(s: State) { Reads(s) || Writes(s) }

  /** The oldest request of a direction. */
  function Oldest(s: State, d: Dir): Option<Rq> {
    var f := SideOf(s, d).fifo; if f == [] then None else Some(f[0].rq)
  }

  /** The batch as it is when a request is moved. */
  function Begun(b: Batch, t: Tunables, now: int): Batch {
    if !b.changed then b
    else if b.dir == Async then b.(expires := now + t.asyncBatch, changed := false)
    else b.(newBatch := true, changed := false)
  }

  /** The request has been chosen: give it to the driver, unless the last batch is still running. */
  function Issued(s: State, t: Tunables, o: Option<Rq>, now: int): (State, bool) {
    if (s.batch.changed && s.nrDispatched > 0) || o.None? then (s, false)
    else
      (Moved(s.(batch := Begun(s.batch, t, now)), s.batch.dir, o.value), true)
  }

  /** A request too old goes before the one chosen. */
  function Served(s: State, t: Tunables, o: Option<Rq>, now: int): (State, bool) {
    var x, e := SideOf(s, s.batch.dir), FifoExpire(t, s.batch.dir);
    Issued(WithSide(s, s.batch.dir, FifoLooked(x, e, now)), t, if FifoExpired(x, e, now) then Oldest(s, s.batch.dir) else o, now)
  }

  function ToReads(s: State, now: int): State {
    s.(batch := s.batch.(changed := s.batch.changed || s.batch.dir == Async, dir := Sync),
       sync := s.sync.(lastCheck := now))
  }

  function ToWrites(s: State, now: int): State {
    s.(batch := s.batch.(changed := s.batch.changed || s.batch.dir == Sync, dir := Async, left := s.batch.writes,
                         newBatch := s.batch.newBatch && s.batch.dir != Sync),
       async := s.async.(lastCheck := now))
  }

  /** A new batch. */
  function Switched(s: State, t: Tunables, now: int): (State, bool) {
    if Reads(s) && !(Writes(s) && s.batch.dir == Sync) then
      Served(ToReads(s, now), t, Oldest(s, Sync), now)
    else
      Served(ToWrites(s, now), t, Oldest(s, Async), now)
  }

  function Extended(s: State, t: Tunables, now: int): State { s.(batch := s.batch.(expires := now + t.syncBatch)) }

  /** The batch goes on, if it has a request. */
  function WentOn(s: State, t: Tunables, o: Option<Rq>, now: int): (State, bool) {
    if o.None? then Switched(s, t, now)
    else Served(if Reads(s) && !Writes(s) then Extended(s, t, now) else s, t, o, now)
  }

  /** A batch of reads goes on, unless it is worth while to wait for a better one. */
  function ReadsWentOn(s: State, t: Tunables, now: int, hunch: bool): (State, bool) {
    var s1 := s.(sync := FifoLooked(s.sync, t.syncExpire, now));
    if FifoExpired(s.sync, t.syncExpire, now) then Issued(s1, t, Oldest(s, Sync), now)
    else if CanAnticipate(s1, t, s.sync.next, now, hunch) then (WaitForReq(s1), false)
    else WentOn(s1, t, s.sync.next, now)
  }

  /** One call of the dispatch function: was a request given to the driver? */
  function Dispatched(s: State, t: Tunables, now: int, hunch: bool): (State, bool) {
    if !Queued(s) || Waiting(s) || s.batch.changed then (s, false)
    else if Reads(s) && Writes(s) && BatchExpired(s, now) then Switched(s, t, now)
    else
      if s.batch.dir == Sync && t.anticExpire != 0 then ReadsWentOn(s, t, now, hunch)
      else WentOn(s, t, SideOf(s, s.batch.dir).next, now)
  }

  // ---------------------------------------------------------------- completing

  function Without1(out: seq<Out>, i: nat): seq<Out>
    requires i < |out|
  {
    out[..i] + out[i + 1..]
  }

  /** One request fewer with the driver; with the last of them an old batch ends. */
  function Left(s: State, i: nat): State
    requires i < |s.out|
  {
    var s1 := s.(nrDispatched := if s.nrDispatched > 0 then s.nrDispatched - 1 else 0, out := Without1(s.out, i));
    if s.batch.changed && s.nrDispatched == 1
    then s1.(work := true, batch := s.batch.(changed := false, newBatch := s.batch.newBatch || s.batch.dir == Sync)) else s1
  }

  /** The first read of a batch has ended: now its time runs. */
  function BatchBegun(s: State, t: Tunables, d: Dir, now: int, writeBatch: nat): State {
    if s.batch.newBatch && s.batch.dir == d 
    then s.(batch := s.batch.(writes := writeBatch, expires := now + t.syncBatch, newBatch := false))
    else s
  }

  /** The process anticipated on has got its answer: now the anticipation's time runs. */
  function Answered(s: State, ioc: nat, now: int): State {
    if s.wait.ioc != Some(ioc) then s
    else
      var s1 := s.(wait := s.wait.(start := now, finished := true));
      if s1.wait.antic == WaitReq then WaitForNext(s1) else s1
  }

  /** A request has ended; `writeBatch` is what tuning makes of the batch size. */
  function Completed(s: State, t: Tunables, i: nat, now: int, writeBatch: nat): State
    requires i < |s.out|
  {
    Answered(BatchBegun(Left(s, i), t, s.out[i].dir, now, writeBatch), s.out[i].rq.ioc, now)
  }

  // -------------------------------------------------------------------- draining

  /** All requests of a direction, in the order the scheduler likes. */
  function Emptied(s: State, d: Dir, n: nat): State
    decreases n
  {
    var o := SideOf(s, d).next;
    if n == 0 || o.None? then s else Emptied(Moved(s, d, o.value), d, n - 1)
  }

  function Reset(s: State): State { s.(batch := s.batch.(dir := Sync, changed := false, newBatch := false)) }

  function Looked(s: State, d: Dir, now: int): State { WithSide(s, d, SideOf(s, d).(lastCheck := now)) }

  function Drained(s: State, now: int): State {
    var s1 := Looked(Emptied(Reset(s), Sync, |s.sync.tree|), Sync, now);
    Looked(Emptied(s1, Async, |s1.async.tree|), Async, now)
  }
}
