// Ordered writes ("barriers") on a request queue, in drain mode.
//
// A queue holds its requests in three places: the I/O scheduler, the dispatch
// list the driver reads from, and the driver itself.  A barrier is carried out as
// a sequence of stages (drain, pre-flush, barrier, post-flush) driven by proxy
// requests, and requests before and after it are told apart by one colour bit.
//
// The operations are functions from queue state to queue state.  The `log` and the
// `epoch` stamps are history: they are written, and never read, by the operations.
module OrderedQueue {
  import opened Common

  // QUEUE_ORDSEQ_*: one-bit flags, compared as numbers
  const DRAIN := 0x02
  const PREFLUSH := 0x04
  const BAR := 0x08
  const POSTFLUSH := 0x10
  const DONE := 0x20

  /** A request submitted to the queue, or one of the queue's three proxies. */
  datatype Id = User(n: nat) | PreFlush | Bar | PostFlush

  /** `epoch` is history: how many file-system barriers were added before this request. */
  datatype Request = Request(id: Id, fs: bool, hard: bool, write: bool, sector: nat, len: nat,
                             color: bool, epoch: nat)

  /** The `ordseq` word: `Idle` is 0, `Active` has STARTED and the given stage bits. */
  datatype OrdSeq = Idle | Active(drain: bool, preflush: bool, bar: bool, postflush: bool)

  datatype Event =
    | Added(n: nat, r: Request)
    | Begun(b: nat)
    | Handed(n: nat, fs: bool)
    | HandedProxy(proxy: Id, b: nat)
    | Skipped(b: nat, stage: nat)
    | Marked(b: nat, stage: nat, err: int)
    | Chunk(b: nat, err: int)
    | Completed(n: nat)
    | Ended(b: nat, err: int)

  datatype Log = Empty | Snoc(prev: Log, last: Event)

  datatype Queue = Queue(
    sched: set<Request>, list: seq<Request>, driver: set<Request>,
    started: set<Id>, soft: set<Id>,
    inFlight: int, ordseq: OrdSeq, orderr: int, ordcolor: bool, orig: Request,
    endSector: nat, boundary: Option<Id>,
    preMode: bool, postMode: bool,
    log: Log)

  datatype Where = Front | Back | Sort

  /** One request the scheduler moves to the dispatch list, by sort or to the tail. */
  datatype Choice = Choice(r: Request, sort: bool)

  function Init(preMode: bool, postMode: bool): Queue {
    Queue({}, [], {}, {}, {}, 0, Idle, 0, false, Request(User(0), true, true, true, 0, 0, false, 0),
          0, None, preMode, postMode, Empty)
  }

  // ---------------------------------------------------------------- stages

  /** The stage in progress: the lowest clear bit of `ordseq`. */
  function CurSeq(o: OrdSeq): nat {
    match o
    case Idle => 0
    case Active(drain, preflush, bar, postflush) =>
      if !drain then DRAIN
      else if !preflush then PREFLUSH
      else if !bar then BAR
      else if !postflush then POSTFLUSH
      else DONE
  }

  predicate Bit(o: OrdSeq, stage: nat) {
    match o
    case Idle => false
    case Active(drain, preflush, bar, postflush) =>
      if stage == DRAIN then drain
      else if stage == PREFLUSH then preflush
      else if stage == BAR then bar
      else if stage == POSTFLUSH then postflush
      else false
  }

  function SetBit(o: OrdSeq, stage: nat): OrdSeq {
    match o
    case Idle => o
    case Active(drain, preflush, bar, postflush) =>
      Active(drain || stage == DRAIN, preflush || stage == PREFLUSH,
             bar || stage == BAR, postflush || stage == POSTFLUSH)
  }

  predicate IsStage(s: nat) {
    s == DRAIN || s == PREFLUSH || s == BAR || s == POSTFLUSH
  }

  function ProxySeq(id: Id): nat {
    match id
    case User(_) => 0
    case PreFlush => PREFLUSH
    case Bar => BAR
    case PostFlush => POSTFLUSH
  }

  /** The stage a request belongs to, decided from the colour bit. */
  function ReqSeq(q: Queue, r: Request): nat {
    if !r.id.User? then ProxySeq(r.id)
    else if !r.fs then DRAIN
    else if r.color == q.orig.color then DRAIN
    else DONE
  }

  function BarId(q: Queue): nat {
    if q.orig.id.User? then q.orig.id.n else 0
  }

  /** Mark one stage of the running sequence, and end the original barrier after the last. */
  function CompleteSeq(q: Queue, stage: nat, err: int): Queue {
    var orderr := if err != 0 && q.orderr == 0 then err else q.orderr;
    var ordseq := SetBit(q.ordseq, stage);
    var log := Snoc(q.log, Marked(BarId(q), stage, err));
    if CurSeq(ordseq) != DONE then
      q.(orderr := orderr, ordseq := ordseq, log := log)
    else
      q.(orderr := orderr, ordseq := Idle, log := Snoc(log, Ended(BarId(q), orderr)))
  }

  // ------------------------------------------------------- driver interface

  predicate Account(q: Queue, r: Request) {
    r.id in q.started && r.fs
  }

  predicate IsBarrier(r: Request) {
    r.fs && r.hard
  }

  predicate EmptyBarrier(r: Request) {
    r.hard && r.fs && r.len == 0
  }

  predicate DrainFinished(q: Queue) {
    && q.ordseq.Active?
    && q.inFlight == 0
    && CurSeq(q.ordseq) == DRAIN
    && q.list != []
    && ReqSeq(q, q.list[0]) > DRAIN
  }

  function CheckDrain(q: Queue): Queue {
    if DrainFinished(q) then CompleteSeq(q, DRAIN, 0) else q
  }

  /** A request is released by the driver: account for it, and see if draining is over. */
  function ElvCompleted(q: Queue, r: Request): Queue {
    CheckDrain(if Account(q, r) then q.(inFlight := q.inFlight - 1) else q)
  }

  function Without(s: seq<Request>, r: Request): seq<Request> {
    if s == [] then [] else if s[0] == r then s[1..] else [s[0]] + Without(s[1..], r)
  }

  function Dequeue(q: Queue, r: Request): Queue {
    q.(list := Without(q.list, r),
       driver := q.driver + {r},
       inFlight := if Account(q, r) then q.inFlight + 1 else q.inFlight)
  }

  function Complete(q: Queue, r: Request, err: int): Queue {
    var q0 := q.(driver := q.driver - {r});
    match r.id
    case User(n) => ElvCompleted(q0.(log := Snoc(q.log, Completed(n))), r)
    case PreFlush => CompleteSeq(ElvCompleted(q0, r), PREFLUSH, err)
    case Bar => CompleteSeq(ElvCompleted(q0, r), BAR, err)
    case PostFlush => CompleteSeq(ElvCompleted(q0, r), POSTFLUSH, err)
  }

  /** Part of the proxy barrier's data has been transferred, with the given status. */
  function BarChunk(q: Queue, err: int): Queue {
    q.(orderr := if err != 0 && q.orderr == 0 then err else q.orderr,
       log := Snoc(q.log, Chunk(BarId(q), err)))
  }

  /** First position of `list` from `k` on whose stage is not below `stage`. */
  function InsertPos(q: Queue, list: seq<Request>, stage: nat, k: nat): (p: nat)
    requires k <= |list|
    ensures k <= p <= |list|
    ensures forall i :: k <= i < p ==> ReqSeq(q, list[i]) < stage
    ensures p < |list| ==> stage <= ReqSeq(q, list[p])
    decreases |list| - k
  {
    if k == |list| || stage <= ReqSeq(q, list[k]) then k else InsertPos(q, list, stage, k + 1)
  }

  function InsertAt(s: seq<Request>, p: nat, r: Request): seq<Request>
    requires p <= |s|
  {
    s[..p] + [r] + s[p..]
  }

  function Requeue(q: Queue, r: Request): Queue {
    var q0 := q.(driver := q.driver - {r},
                 inFlight := if Account(q, r) then q.inFlight - 1 else q.inFlight,
                 started := q.started - {r.id},
                 soft := q.soft + {r.id});
    var p := if q.ordseq.Idle? then 0 else InsertPos(q, q.list, ReqSeq(q, r), 0);
    q0.(list := InsertAt(q.list, p, r))
  }

  // ---------------------------------------------------- scheduler interface

  predicate Fixed(q: Queue, r: Request) {
    r.hard || r.id in q.soft || r.id in q.started
  }

  /** Does the backwards scan of the sorted insertion stop after `pos`? */
  predicate StopsAt(q: Queue, r: Request, pos: Request) {
    || r.write != pos.write
    || Fixed(q, pos)
    || (if r.sector >= q.endSector then pos.sector >= q.endSector && r.sector >= pos.sector
        else pos.sector >= q.endSector || r.sector >= pos.sector)
  }

  /** Where the sorted insertion puts `r`, when the last `|q.list| - k` entries were passed. */
  function SortPos(q: Queue, r: Request, k: nat): (p: nat)
    requires k <= |q.list|
    ensures p <= k
    ensures forall i :: p <= i < k ==> !StopsAt(q, r, q.list[i])
    ensures p > 0 ==> StopsAt(q, r, q.list[p - 1])
  {
    if k == 0 || StopsAt(q, r, q.list[k - 1]) then k else SortPos(q, r, k - 1)
  }

  function Dispatch(q: Queue, c: Choice): Queue {
    var q0 := q.(sched := q.sched - {c.r});
    if c.sort then
      q0.(list := InsertAt(q.list, SortPos(q, c.r, |q.list|), c.r))
    else
      q0.(list := q.list + [c.r], endSector := c.r.sector + c.r.len, boundary := Some(c.r.id))
  }

  /** The scheduler is drained in the order, and by the means, of its own choosing. */
  function Drain(q: Queue, cs: seq<Choice>): Queue
    decreases |cs|
  {
    if cs == [] then q else Drain(Dispatch(q, cs[0]), cs[1..])
  }

  /** Giving up the choices `cs` leaves a scheduler holding `sched` with `rest`. */
  predicate Leaves(sched: set<Request>, cs: seq<Choice>, rest: set<Request>)
    decreases |cs|
  {
    if cs == [] then sched == rest else cs[0].r in sched && Leaves(sched - {cs[0].r}, cs[1..], rest)
  }

  predicate IsDrain(sched: set<Request>, cs: seq<Choice>) {
    Leaves(sched, cs, {})
  }

  // ------------------------------------------------------------------ adding

  function EffectiveWhere(r: Request, soft: bool, elvpriv: bool, where: Where): Where {
    if where.Sort? && (soft || r.hard || !elvpriv) then Back else where
  }

  function Insert(q: Queue, r: Request, where: Where, cs: seq<Choice>): Queue {
    match where
    case Front => q.(list := [r] + q.list)
    case Back => var q1 := Drain(q, cs); q1.(list := q1.list + [r])
    case Sort => q.(sched := q.sched + {r})
  }

  function Stamped(q: Queue, r: Request): Request {
    r.(color := q.ordcolor, epoch := Barriers(q.log))
  }

  /**
    What is not left to the scheduler becomes a soft barrier.  A soft or hard barrier
    from the file system also becomes the scheduling boundary.
   */
  function Prepare(q: Queue, r: Request, soft: bool, where: Where): Queue {
    var bounds := (soft || r.hard) && r.fs;
    q.(started := q.started - {r.id},
       soft := if soft || !where.Sort? then q.soft + {r.id} else q.soft - {r.id},
       endSector := if bounds then r.sector + r.len else q.endSector,
       boundary := if bounds then Some(r.id) else q.boundary)
  }

  function Add(q: Queue, r: Request, soft: bool, elvpriv: bool, where: Where, cs: seq<Choice>): Queue
    requires r.id.User?
  {
    var rq, w := Stamped(q, r), EffectiveWhere(r, soft, elvpriv, where);
    var q1 := Insert(Prepare(q, r, soft, w), rq, w, cs);
    q1.(ordcolor := if r.hard then !q.ordcolor else q.ordcolor,
        log := Snoc(q.log, Added(r.id.n, rq)))
  }

  // ---------------------------------------------------------------- fetching

  function Flush(id: Id): Request {
    Request(id, false, true, true, 0, 0, false, 0)
  }

  function BarProxy(orig: Request): Request {
    orig.(id := Bar, fs := true, color := false)
  }

  /** Is the barrier at the head of the list to be followed by a flush? */
  predicate Posts(q: Queue)
    requires q.list != []
  {
    q.postMode && !EmptyBarrier(BarProxy(q.list[0]))
  }

  /** The proxies that carry out the sequence of barrier `b`, in order. */
  function Proxies(pre: bool, post: bool, b: Request): seq<Request> {
    (if pre then [Flush(PreFlush)] else []) + [BarProxy(b)] + (if post then [Flush(PostFlush)] else [])
  }

  function ProxyIds(pre: bool, post: bool): set<Id> {
    {Bar} + (if pre then {PreFlush} else {}) + (if post then {PostFlush} else {})
  }

  function BeginLog(log: Log, n: nat, pre: bool, post: bool): Log {
    var log1 := if post then Snoc(log, Begun(n)) else Snoc(Snoc(log, Begun(n)), Skipped(n, POSTFLUSH));
    if pre then log1 else Snoc(log1, Skipped(n, PREFLUSH))
  }

  /** The sequence for the barrier at the head of the list replaces it there. */
  function Begin(q: Queue): Queue
    requires q.list != []
  {
    var b := q.list[0];
    q.(orderr := 0, orig := b,
       ordseq := Active(false, !q.preMode, false, !Posts(q)),
       started := q.started - ProxyIds(q.preMode, Posts(q)),
       soft := q.soft + ProxyIds(q.preMode, Posts(q)),
       list := Proxies(q.preMode, Posts(q), b) + q.list[1..],
       log := BeginLog(q.log, BarId(q.(orig := b)), q.preMode, Posts(q)))
  }

  /** Begin the ordered sequence, and look at once whether there is anything to drain. */
  function StartOrdered(q: Queue): (Queue, Option<Request>)
    requires q.list != []
  {
    var q1 := Begin(q);
    if q.inFlight == 0 then (CompleteSeq(q1, DRAIN, 0), Some(q1.list[0])) else (q1, None)
  }

  /** Decide whether the request at the head of the list may go to the driver. */
  function DoOrdered(q: Queue): (Queue, Option<Request>)
    requires q.list != []
  {
    var r := q.list[0];
    if q.ordseq.Idle? then
      if IsBarrier(r) then StartOrdered(q) else (q, Some(r))
    else if !r.fs && r.id.User? then (q, Some(r))
    else if ReqSeq(q, r) > CurSeq(q.ordseq) then (q, None)
    else (q, Some(r))
  }

  function HandOut(q: Queue, r: Request): Queue {
    var bound := q.boundary.None? || q.boundary == Some(r.id);
    q.(started := q.started + {r.id},
       endSector := if bound then r.sector + r.len else q.endSector,
       boundary := if bound then None else q.boundary,
       log := Snoc(q.log, if r.id.User? then Handed(r.id.n, r.fs) else HandedProxy(r.id, BarId(q))))
  }

  /** The result of one turn of fetching: a request, none, or look again. */
  datatype Fetch = Got(r: Request) | Nothing | Again

  /** One turn of fetching: an empty barrier's proxy is ended here, unseen by the driver. */
  function NextTurn(q: Queue): (Queue, Fetch) {
    if q.list == [] then (q, Nothing)
    else
      var (q1, o) := DoOrdered(q);
      match o
      case None => (q1, Nothing)
      case Some(r) =>
        if EmptyBarrier(r) then (Complete(Dequeue(q1, r), r, 0), Again)
        else (HandOut(q1, r), Got(r))
  }

  // -------------------------------------------------------- reading the log

  /** How many file-system barriers the log has seen added. */
  function Barriers(log: Log): nat {
    match log
    case Empty => 0
    case Snoc(p, Added(_, r)) => Barriers(p) + if IsBarrier(r) then 1 else 0
    case Snoc(p, _) => Barriers(p)
  }

  function Ends(log: Log): nat {
    match log
    case Empty => 0
    case Snoc(p, e) => Ends(p) + if e.Ended? then 1 else 0
  }
}
