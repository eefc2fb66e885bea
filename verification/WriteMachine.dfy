/**
 * The write cache of one file as a state machine: any number of writers, flushers, expiry scans, background
 * writers, readers and size queries, one atomic step at a time.  A step is what the source does between two
 * points where another goroutine can see the difference: one lock round, one list or map update, one server call.
 * Other files share the buffer pool, the LRU list, the channel and its background writers: they may take and return
 * free buffers, put their buffers on the list and take them off, fill the channel, and keep a background writer busy
 * at any time.
 */
module WriteMachine {
  import opened FlatFile
  import opened Overlay
  import opened Locks

  /** A pool buffer: the block it was last reset for, its valid range, its last update time. */
  datatype Buffer = Buffer(blk: nat, cell: Cell, stamp: int)

  /** Where a pool buffer is (proof only). */
  datatype Place = InFree | InHand(t: nat) | AtBlock(b: nat) | Lent   // lent: with another file

  /** A server write succeeds, fails without effect, or fails after taking effect. */
  datatype Outcome = Done | Refused | Lost

  datatype Parent = Expiry | Flusher(c: nat)

  datatype Job =
    | WriteJob(ops: seq<Op>, next: nat, applied: bool)  // applied: ops[next] is already part of the view
    | FlushJob(fblk: nat, parent: Parent)
    | SyncJob(sblk: nat)
  {
    function Blk(): nat {
      match this
      case WriteJob(ops, next, _) => if next < |ops| then ops[next].blk else 0
      case FlushJob(b, _) => b
      case SyncJob(b) => b
    }

    function Mark(done: bool): Job { if WriteJob? then this.(applied := done) else this }

    function Cur(): Op { if WriteJob? && next < |ops| then ops[next] else Op(0, 0, []) }
  }

  /** What the holder of a block does next; Wait is the only stage without the lock. */
  datatype Stage =
    | Wait | Held | Direct | Release
    | Fresh(id: nat)   // allocated and filled, about to be attached
    | Own(id: nat)     // found and taken off the LRU list
    | Flush(id: nat)   // about to be written to the server
    | Reset(id: nat)   // written, about to be reused for a non-mergeable op
    | Detach(id: nat) | Free(id: nat) | Send(id: nat) | Touch(id: nat)

  /** StatSize and the server query of Fstat. */
  datatype StatStage = Probe | Top | Want(u: nat) | Have(u: nat) | Leave(u: nat, c: nat) | Ask(c: nat) | Told(n: nat)

  datatype Pc =
    | Idle
    | Busy(job: Job, stage: Stage, failed: bool)
    | Gather(mark: nat, start: Cells, left: set<nat>, out: map<nat, nat>, ferr: bool)  // Flush waiting for its workers
    | Stat(size0: nat, at: StatStage)
    | Reading(rblk: nat, held: bool)
    | Abroad                                        // a background writer busy with another file's buffer

  datatype Config = Config(async: bool, cap: nat, workers: set<nat>, expire: int) {
    predicate Ok() { async ==> cap >= 1 && workers != {} }
  }

  datatype W = W(
    cfg: Config,
    server: Content,
    attached: map<nat, nat>,   // BufferMap: block to buffer
    pool: map<nat, Buffer>,    // all buffers, by Id
    free: seq<nat>, lru: seq<nat>, queue: seq<nat>,
    others: nat,               // slots of the channel that hold other files' buffers
    lk: LockState,
    threads: map<nat, Pc>,
    now: int,
    place: map<nat, Place>,    // proof only
    init: Content, log: seq<Op>  // proof only: the first content, and the ops that have taken effect
  ) {
    function Go(t: nat, pc: Pc): W { this.(threads := threads[t := pc]) }

    predicate Is(t: nat, pc: Pc) { t in threads && threads[t] == pc }

    predicate At(t: nat) { t in threads && threads[t].Busy? }

    function Buf(id: nat): Buffer { if id in pool then pool[id] else Buffer(0, Cell(0, []), 0) }

    function Cells(): Cells { map b | b in attached :: Buf(attached[b]).cell }
  }

  function IndexOf(q: seq<nat>, x: nat): (k: nat)
    requires x in q
    ensures k < |q| && q[k] == x
  {
    if q[0] == x then 0 else 1 + IndexOf(q[1..], x)
  }

  function Remove(q: seq<nat>, x: nat): seq<nat> {
    if x in q then q[..IndexOf(q, x)] + q[IndexOf(q, x) + 1..] else q
  }

  function Server(f: Content, op: Op, o: Outcome): Content { if o.Refused? then f else op.Do(f) }

  /** The caller's next program point once the current block is finished. */
  function Next(pc: Pc): Pc
    requires pc.Busy?
  {
    match pc.job
    case WriteJob(ops, next, _) =>
      if pc.failed || |ops| <= next + 1 then Idle else Busy(WriteJob(ops, next + 1, false), Wait, false)
    case FlushJob(_, _) => Idle
    case SyncJob(_) => Idle
  }

  /** A flush worker sends its result to the Flush that started it. */
  function Report(s: W, pc: Pc): W
    requires pc.Busy?
  {
    if pc.job.FlushJob? && pc.job.parent.Flusher? && pc.job.parent.c in s.threads &&
            s.threads[pc.job.parent.c].Gather? then
      var g := s.threads[pc.job.parent.c];
      s.Go(pc.job.parent.c, g.(out := g.out - {pc.job.fblk}, ferr := g.ferr || pc.failed))
    else s
  }

  // ---------- actions ----------

  /** Flush starts at most this many goroutines. */
  const FLUSH_ROUTINES := 8

  /** What goroutines of other files do to what is shared. */
  datatype Foreign =
    | Borrow | Return(id: nat)          // a free buffer is taken, given back
    | Renew(id: nat) | Unlist(id: nat)  // a lent buffer goes to the front of the LRU list, leaves the list
    | Crowd | Take(t: nat) | Back(t: nat)

  datatype Action =
    | BeginWrite(t: nat, ops: seq<Op>) | BeginFlush(t: nat) | Spawn(t: nat, c: nat, b: nat) | EndFlush(t: nat)
    | BeginExpire(t: nat) | Receive(t: nat) | Tick(d: nat)
    | Run(t: nat, o: Outcome)   // a writer, flusher or background writer takes its next step
    | BeginStat(t: nat) | RunStat(t: nat)
    | BeginRead(t: nat, b: nat) | LockRead(t: nat) | EndRead(t: nat)
    | Other(e: Foreign)

  /** t can start something: an idle goroutine, or one that does not exist yet. */
  predicate Ready(s: W, t: nat) { t !in s.cfg.workers && (t in s.threads ==> s.threads[t].Idle?) }

  predicate AtStage(s: W, t: nat, st: Stage) { s.At(t) && s.threads[t].stage == st }

  predicate AtStat(s: W, t: nat) { t in s.threads && s.threads[t].Stat? }

  predicate Expired(s: W) {
    s.lru != [] && s.cfg.expire <= s.now - s.Buf(s.lru[|s.lru| - 1]).stamp
  }

  /** The buffer is this file's; the scan that takes another file's buffer off the list is a step of that file. */
  predicate Ours(s: W, id: nat) { id in s.place && s.place[id].AtBlock? }

  // ---------- what the invariant says ----------

  ghost predicate Distinct(q: seq<nat>) { forall i, j :: 0 <= i < j < |q| ==> q[i] != q[j] }

  /** pc is a program point at which block b is locked for writing. */
  predicate Holds(pc: Pc, b: nat) {
    match pc
    case Busy(job, stage, _) => !stage.Wait? && job.Blk() == b
    case Stat(_, at) => (at.Have? || at.Leave?) && at.u == b
    case _ => false
  }

  predicate Shares(pc: Pc, b: nat) { pc.Reading? && pc.held && pc.rblk == b }

  /** pc is a program point at which buffer id is neither free nor attached. */
  predicate Carries(pc: Pc, id: nat) {
    pc.Busy? && (pc.stage.Fresh? || pc.stage.Free?) && pc.stage.id == id
  }

  predicate HoldsT(s: W, t: nat, b: nat) { t in s.threads && Holds(s.threads[t], b) }

  predicate SharesT(s: W, t: nat, b: nat) { t in s.threads && Shares(s.threads[t], b) }

  predicate CarriesT(s: W, t: nat, id: nat) { t in s.threads && Carries(s.threads[t], id) }

  ghost predicate FreeInv(s: W) {
    && Distinct(s.free)
    && (forall id :: id in s.free ==> id in s.place && s.place[id].InFree?)
    && (forall id :: id in s.place && s.place[id].InFree? ==> id in s.free)
  }

  ghost predicate HomeInv(s: W) {
    && (forall id :: id in s.place && s.place[id].AtBlock? ==>
          s.place[id].b in s.attached && s.attached[s.place[id].b] == id)
    && (forall id :: id in s.place && s.place[id].AtBlock? ==>
          s.Buf(id).blk == s.place[id].b && s.Buf(id).cell.Ok())
    && (forall b :: b in s.attached ==> s.attached[b] in s.place && s.place[s.attached[b]] == AtBlock(b))
  }

  ghost predicate HandInv(s: W) {
    && (forall id :: id in s.place && s.place[id].InHand? ==> CarriesT(s, s.place[id].t, id))
    && (forall t, id :: CarriesT(s, t, id) ==> id in s.place && s.place[id] == InHand(t))
  }

  /** Every buffer is in exactly one place: the free list, one operation's hands, or its own block. */
  ghost predicate PoolInv(s: W) { s.place.Keys == s.pool.Keys && FreeInv(s) && HomeInv(s) && HandInv(s) }

  /** The LRU list holds attached buffers of this and of other files once each, most recently updated first. */
  ghost predicate LruInv(s: W) {
    && Distinct(s.lru)
    && (forall id :: id in s.lru ==> id in s.place && (s.place[id].AtBlock? || s.place[id].Lent?))
    && (forall i, j :: 0 <= i < j < |s.lru| ==> s.Buf(s.lru[i]).stamp >= s.Buf(s.lru[j]).stamp)
    && (forall id :: id in s.lru ==> s.Buf(id).stamp <= s.now)
  }

  /** The lock table agrees with the program points of all threads and with the channel. */
  ghost predicate OwnInv(s: W) {
    && s.lk.Inv()
    && (forall b :: b in s.lk.excl && s.lk.excl[b].Thread? ==>
          HoldsT(s, s.lk.excl[b].t, b))
    && (forall t, b :: HoldsT(s, t, b) ==> b in s.lk.excl && s.lk.excl[b] == Thread(t))
    && (forall t :: t in s.lk.shared ==> SharesT(s, t, s.lk.shared[t]))
    && (forall t, b :: SharesT(s, t, b) ==> t in s.lk.shared && s.lk.shared[t] == b)
  }

  /** A queued buffer is full, off the LRU list, and its block's lock travels with it. */
  ghost predicate QueueInv(s: W) {
    && Distinct(s.queue)
    && |s.queue| + s.others <= s.cfg.cap
    && (s.queue != [] || s.others > 0 ==> s.cfg.async)
    && (forall id :: id in s.queue ==>
          id in s.place && s.place[id].AtBlock? && id !in s.lru && s.Buf(id).cell.IsFull())
    && (forall id :: id in s.queue ==>
          s.place[id].b in s.lk.excl && s.lk.excl[s.place[id].b] == Queue)
    && (forall b :: b in s.lk.excl && s.lk.excl[b].Queue? ==> b in s.attached && s.attached[b] in s.queue)
  }

  /** The holder of block b works on the attached buffer id, which is off the LRU list. */
  predicate Works(s: W, b: nat, id: nat) {
    b in s.attached && s.attached[b] == id && id !in s.lru
  }

  predicate Waiting(s: W, t: nat, b: nat) {
    t in s.threads && s.threads[t] == Busy(FlushJob(b, Expiry), Wait, false)
  }

  /** The buffer of b is on the LRU list, or an expiry step has just taken it and will flush b. */
  ghost predicate Listed(s: W, b: nat) {
    b in s.attached && (s.attached[b] in s.lru || exists t :: Waiting(s, t, b))
  }

  ghost predicate StageOk(s: W, job: Job, stage: Stage, failed: bool) {
    var b := job.Blk();
    var writing := job.WriteJob?;
    match stage
    case Wait => !job.SyncJob? && !failed && (writing ==> !job.applied)
    case Held => !job.SyncJob? && !failed && (writing ==> !job.applied)
    case Direct => writing && !job.applied && !failed && b !in s.attached
    case Release =>
      && (writing ==> job.applied || failed)
      && (job.FlushJob? && !failed ==> b !in s.attached)
      && (b in s.attached ==> Listed(s, b))
    case Fresh(id) =>
      && writing && !job.applied && !failed && b !in s.attached
      && s.Buf(id).blk == b && s.Buf(id).cell == Cell(job.Cur().off, job.Cur().data)
      && (job.Cur().IsFull() ==> s.cfg.async)
    case Own(id) => writing && !job.applied && !failed && Works(s, b, id)
    case Flush(id) => !failed && Works(s, b, id)
    case Reset(id) =>
      && writing && !job.applied && !failed && !job.Cur().IsFull() && Works(s, b, id)
      && OnServer(s.server, b, s.Buf(id).cell)
    case Detach(id) =>
      && !failed && Works(s, b, id) && OnServer(s.server, b, s.Buf(id).cell)
      && (writing && !job.applied ==> job.Cur().IsFull())
    case Free(id) =>
      !failed && b !in s.attached && (writing && !job.applied ==> job.Cur().IsFull())
    case Send(id) => writing && job.applied && !failed && s.cfg.async && Works(s, b, id) && s.Buf(id).cell.IsFull()
    case Touch(id) => Works(s, b, id) && (writing ==> job.applied || failed) && (job.FlushJob? ==> failed)
  }

  ghost predicate JobOk(s: W, t: nat, job: Job) {
    match job
    case WriteJob(ops, next, _) => next < |ops| && forall i :: 0 <= i < |ops| ==> ops[i].Ok()
    case FlushJob(b, parent) =>
      parent.Flusher? ==>
        && parent.c in s.threads && s.threads[parent.c].Gather?
        && b in s.threads[parent.c].out && s.threads[parent.c].out[b] == t
    case SyncJob(_) => t in s.cfg.workers
  }

  ghost predicate JobsOk(s: W) { forall t :: t in s.threads && s.threads[t].Busy? ==> JobOk(s, t, s.threads[t].job) }

  ghost predicate WorkersOk(s: W) {
    && (forall t :: t in s.cfg.workers ==>
          t in s.threads && (s.threads[t].Idle? || s.threads[t].Abroad? ||
                  (s.threads[t].Busy? && s.threads[t].job.SyncJob?)))
    && (forall t :: t in s.threads && s.threads[t].Abroad? ==> t in s.cfg.workers)
  }

  ghost predicate GathersOk(s: W) {
    && (forall c :: c in s.threads && s.threads[c].Gather? ==> s.threads[c].left !! s.threads[c].out.Keys)
    && (forall c, b :: c in s.threads && s.threads[c].Gather? && b in s.threads[c].out ==>
          s.threads[c].out[b] in s.threads && s.threads[s.threads[c].out[b]].Busy? &&
          s.threads[s.threads[c].out[b]].job == FlushJob(b, Flusher(c)))
  }

  /** Every job fits its goroutine, and every Flush knows its workers. */
  ghost predicate JobInv(s: W) { JobsOk(s) && WorkersOk(s) && GathersOk(s) }

  ghost predicate StageOkT(s: W, t: nat)
    requires s.At(t)
  {
    StageOk(s, s.threads[t].job, s.threads[t].stage, s.threads[t].failed)
  }

  ghost predicate StageInv(s: W) { forall t :: s.At(t) ==> StageOkT(s, t) }

  /** Block b is locked by someone who works on its buffer, not by a size query. */
  predicate InWork(s: W, b: nat) {
    b in s.lk.excl && !(s.lk.excl[b].Thread? && s.lk.excl[b].t in s.threads && s.threads[s.lk.excl[b].t].Stat?)
  }

  /** Every attached buffer that nobody works on is on the LRU list or about to be flushed. */
  ghost predicate ListInv(s: W) { forall b :: b in s.attached && !InWork(s, b) ==> Listed(s, b) }

  /** The ops that have taken effect explain the view completely. */
  ghost predicate ViewInv(s: W) {
    View(s.server, s.Cells()) == Replay(s.init, s.log)
  }

  ghost predicate Inv(s: W) {
    PoolInv(s) && LruInv(s) && OwnInv(s) && QueueInv(s) && JobInv(s) && StageInv(s) && ListInv(s) && ViewInv(s)
  }

  // ---------- the effect of each action ----------

  function StepSpawn(s: W, t: nat, c: nat, b: nat): W
    requires Ready(s, t) && c in s.threads && s.threads[c].Gather? && b in s.threads[c].left
  {
    var g := s.threads[c];
    s.Go(c, g.(left := g.left - {b}, out := g.out[b := t])).Go(t, Busy(FlushJob(b, Flusher(c)), Wait, false))
  }

  function StepExpire(s: W, t: nat): W
    requires Ready(s, t) && Expired(s)
  {
    var id := s.lru[|s.lru| - 1];
    s.(lru := s.lru[..|s.lru| - 1]).Go(t, Busy(FlushJob(s.Buf(id).blk, Expiry), Wait, false))
  }

  function StepAcquire(s: W, t: nat): W
    requires AtStage(s, t, Wait) && CanLock(s.lk.table, s.threads[t].job.Blk())
  {
    var pc := s.threads[t];
    s.(lk := s.lk.Lock(pc.job.Blk(), t)).Go(t, pc.(stage := Held))
  }

  function StepAttach(s: W, t: nat): W
    requires s.At(t) && s.threads[t].stage.Fresh?
  {
    var pc := s.threads[t];
    var id, b, op := pc.stage.id, pc.job.Blk(), pc.job.Cur();
    s.(attached := s.attached[b := id], place := s.place[id := AtBlock(b)], log := s.log + [op])
    .Go(t, pc.(job := pc.job.Mark(true), stage := if s.Buf(id).cell.IsFull() then Send(id) else Touch(id)))
  }

  function StepMerge(s: W, t: nat): W
    requires s.At(t) && s.threads[t].stage.Own?
  {
    var pc := s.threads[t];
    var id, op := pc.stage.id, pc.job.Cur();
    if s.Buf(id).cell.CanMerge(op.off) then
      var c := s.Buf(id).cell.Merge(op.data);
      s.(pool := s.pool[id := s.Buf(id).(cell := c, stamp := s.now)], log := s.log + [op])
      .Go(t, pc.(job := pc.job.Mark(true),
                 stage := if !c.IsFull() then Touch(id) else if s.cfg.async then Send(id) else Flush(id)))
    else
      s.Go(t, pc.(stage := Flush(id)))
  }

  function StepWriteBack(s: W, t: nat, o: Outcome): W
    requires s.At(t) && s.threads[t].stage.Flush?
  {
    var pc := s.threads[t];
    var id, b := pc.stage.id, pc.job.Blk();
    var c := s.Buf(id).cell;
    var st := if pc.job.WriteJob? && !pc.job.applied && !pc.job.Cur().IsFull() then Reset(id) else Detach(id);
    s.(server := Server(s.server, Op(b, c.off, c.data), o))
    .Go(t, if o.Done? then pc.(stage := st) else pc.(stage := Touch(id), failed := true))
  }

  function StepReset(s: W, t: nat): W
    requires s.At(t) && s.threads[t].stage.Reset?
  {
    var pc := s.threads[t];
    var id, op := pc.stage.id, pc.job.Cur();
    s.(pool := s.pool[id := Buffer(op.blk, Cell(op.off, op.data), s.now)], log := s.log + [op])
    .Go(t, pc.(job := pc.job.Mark(true), stage := Touch(id)))
  }

  function StepDetach(s: W, t: nat): W
    requires s.At(t) && s.threads[t].stage.Detach?
  {
    var pc := s.threads[t];
    var id := pc.stage.id;
    s.(attached := s.attached - {pc.job.Blk()}, place := s.place[id := InHand(t)]).Go(t, pc.(stage := Free(id)))
  }

  function StepFree(s: W, t: nat): W
    requires s.At(t) && s.threads[t].stage.Free?
  {
    var pc := s.threads[t];
    var id := pc.stage.id;
    var s1 := s.(free := s.free + [id], place := s.place[id := InFree]);
    if pc.job.SyncJob? then s1.(lk := s.lk.Unlock(pc.job.Blk())).Go(t, Idle)
    else s1.Go(t, pc.(stage := if pc.job.WriteJob? && !pc.job.applied then Direct else Release))
  }

  function StepTouch(s: W, t: nat): W
    requires s.At(t) && s.threads[t].stage.Touch?
  {
    var pc := s.threads[t];
    var id := pc.stage.id;
    s.(pool := s.pool[id := s.Buf(id).(stamp := s.now)], lru := [id] + Remove(s.lru, id)).Go(t, pc.(stage := Release))
  }

  function StepSend(s: W, t: nat): W
    requires s.At(t) && s.threads[t].stage.Send? && |s.queue| + s.others < s.cfg.cap
  {
    var pc := s.threads[t];
    s.(queue := s.queue + [pc.stage.id], lk := s.lk.Pass(pc.job.Blk(), Queue)).Go(t, Next(pc))
  }

  function StepDirect(s: W, t: nat, o: Outcome): W
    requires AtStage(s, t, Direct)
  {
    var pc := s.threads[t];
    var op := pc.job.Cur();
    s.(server := Server(s.server, op, o), log := if o.Refused? then s.log else s.log + [op])
    .Go(t, Busy(pc.job.Mark(!o.Refused?), Release, !o.Done?))
  }

  function StepRelease(s: W, t: nat): W
    requires AtStage(s, t, Release)
  {
    var pc := s.threads[t];
    Report(s.(lk := s.lk.Unlock(pc.job.Blk())).Go(t, Next(pc)), pc)
  }

  function StepReceive(s: W, t: nat): W
    requires t in s.cfg.workers && s.Is(t, Idle) && s.queue != []
  {
    var id := s.queue[0];
    var b := s.Buf(id).blk;
    s.(queue := s.queue[1..], lk := s.lk.Pass(b, Thread(t))).Go(t, Busy(SyncJob(b), Flush(id), false))
  }

  function StepStatProbe(s: W, t: nat): W
    requires AtStat(s, t) && s.threads[t].at.Probe?
  {
    s.Go(t, s.threads[t].(at := if s.attached == map[] then Ask(0) else Top))
  }

  ghost function StepStatTop(s: W, t: nat): W
    requires AtStat(s, t) && s.threads[t].at.Top?
  {
    s.Go(t, s.threads[t].(at := Want(Upper(s.attached.Keys))))
  }

  function StepStatLock(s: W, t: nat): W
    requires AtStat(s, t) && s.threads[t].at.Want? && CanLock(s.lk.table, s.threads[t].at.u)
  {
    var u := s.threads[t].at.u;
    s.(lk := s.lk.Lock(u, t)).Go(t, s.threads[t].(at := Have(u)))
  }

  function StepStatRead(s: W, t: nat): W
    requires AtStat(s, t) && s.threads[t].at.Have?
  {
    var u := s.threads[t].at.u;
    s.Go(t, s.threads[t].(at := Leave(u, if u in s.attached then Tail(u, s.Buf(s.attached[u]).cell) else 0)))
  }

  function StepStatUnlock(s: W, t: nat): W
    requires AtStat(s, t) && s.threads[t].at.Leave?
  {
    s.(lk := s.lk.Unlock(s.threads[t].at.u)).Go(t, s.threads[t].(at := Ask(s.threads[t].at.c)))
  }

  function StepStatServer(s: W, t: nat): W
    requires AtStat(s, t) && s.threads[t].at.Ask?
  {
    s.Go(t, s.threads[t].(at := Told(Max(s.threads[t].at.c, |s.server|))))
  }

  /** GetBuffer found a buffer: RemoveLru. */
  function StepFound(s: W, t: nat): W
    requires AtStage(s, t, Held) && s.threads[t].job.Blk() in s.attached
  {
    var pc := s.threads[t];
    var id := s.attached[pc.job.Blk()];
    s.(lru := Remove(s.lru, id)).Go(t, pc.(stage := if pc.job.WriteJob? then Own(id) else Flush(id)))
  }

  /** AllocBuffer takes the front of the free list; the writer fills the buffer. */
  function StepAlloc(s: W, t: nat): W
    requires AtStage(s, t, Held) && s.free != []
  {
    var pc := s.threads[t];
    var id, op := s.free[0], pc.job.Cur();
    s.(free := s.free[1..], place := s.place[id := InHand(t)],
       pool := s.pool[id := Buffer(pc.job.Blk(), Cell(op.off, op.data), s.now)])
    .Go(t, pc.(stage := Fresh(id)))
  }

  /** The holder looks its block up. */
  function StepLookup(s: W, t: nat): W
    requires AtStage(s, t, Held)
  {
    var pc := s.threads[t];
    if pc.job.Blk() in s.attached then StepFound(s, t)
    else if !pc.job.WriteJob? then s.Go(t, pc.(stage := Release))
    else if (pc.job.Cur().IsFull() && !s.cfg.async) || s.free == [] then s.Go(t, pc.(stage := Direct))
    else StepAlloc(s, t)
  }

  function StepTick(s: W, d: nat): W { s.(now := s.now + d) }

  function StepLockRead(s: W, t: nat): W
    requires t in s.threads && s.threads[t].Reading? && !s.threads[t].held && CanRLock(s.lk.table, s.threads[t].rblk)
  {
    s.(lk := s.lk.RLock(s.threads[t].rblk, t)).Go(t, Reading(s.threads[t].rblk, true))
  }

  function StepEndRead(s: W, t: nat): W
    requires t in s.threads && s.threads[t].Reading? && s.threads[t].held
  {
    s.(lk := s.lk.RUnlock(s.threads[t].rblk, t)).Go(t, Idle)
  }

  predicate CanRun(s: W, t: nat) {
    && s.At(t)
    && (s.threads[t].stage.Wait? ==> CanLock(s.lk.table, s.threads[t].job.Blk()))
    && (s.threads[t].stage.Send? ==> |s.queue| + s.others < s.cfg.cap)
  }

  predicate CanOther(s: W, e: Foreign) {
    match e
    case Borrow => s.free != []
    case Return(id) => id in s.place && s.place[id].Lent? && id !in s.lru
    case Renew(id) => id in s.place && s.place[id].Lent?
    case Unlist(id) => id in s.place && s.place[id].Lent? && id in s.lru
    case Crowd => s.cfg.async && |s.queue| + s.others < s.cfg.cap
    case Take(t) => t in s.cfg.workers && s.Is(t, Idle) && s.others > 0
    case Back(t) => s.Is(t, Abroad)
  }

  /** The content of a lent buffer does not matter: whoever takes it next resets it. */
  function StepOther(s: W, e: Foreign): W
    requires CanOther(s, e)
  {
    match e
    case Borrow => s.(free := s.free[1..], place := s.place[s.free[0] := Lent])
    case Return(id) => s.(free := s.free + [id], place := s.place[id := InFree])
    case Renew(id) => s.(pool := s.pool[id := s.Buf(id).(stamp := s.now)], lru := [id] + Remove(s.lru, id))
    case Unlist(id) => s.(lru := Remove(s.lru, id))
    case Crowd => s.(others := s.others + 1)
    case Take(t) => s.(others := s.others - 1).Go(t, Abroad)
    case Back(t) => s.Go(t, Idle)
  }

  /** The stage decides the step; the outcome matters for the two stages that write to the server. */
  function StepRun(s: W, t: nat, o: Outcome): W
    requires CanRun(s, t)
  {
    match s.threads[t].stage
    case Wait => StepAcquire(s, t)
    case Held => StepLookup(s, t)
    case Direct => StepDirect(s, t, o)
    case Release => StepRelease(s, t)
    case Fresh(_) => StepAttach(s, t)
    case Own(_) => StepMerge(s, t)
    case Flush(_) => StepWriteBack(s, t, o)
    case Reset(_) => StepReset(s, t)
    case Detach(_) => StepDetach(s, t)
    case Free(_) => StepFree(s, t)
    case Send(_) => StepSend(s, t)
    case Touch(_) => StepTouch(s, t)
  }

  predicate CanStat(s: W, t: nat) {
    AtStat(s, t) && (s.threads[t].at.Want? ==> CanLock(s.lk.table, s.threads[t].at.u))
  }

  ghost function StepStat(s: W, t: nat): W
    requires CanStat(s, t)
  {
    match s.threads[t].at
    case Probe => StepStatProbe(s, t)
    case Top => StepStatTop(s, t)
    case Want(_) => StepStatLock(s, t)
    case Have(_) => StepStatRead(s, t)
    case Leave(_, _) => StepStatUnlock(s, t)
    case Ask(_) => StepStatServer(s, t)
    case Told(_) => s.Go(t, Idle)
  }

  ghost predicate Enabled(s: W, a: Action) {
    match a
    case BeginWrite(t, ops) => Ready(s, t) && ops != [] && forall i :: 0 <= i < |ops| ==> ops[i].Ok()
    case BeginFlush(t) => Ready(s, t)
    case Spawn(t, c, b) =>
      && Ready(s, t) && c in s.threads && s.threads[c].Gather? && b in s.threads[c].left
      && |s.threads[c].out| < FLUSH_ROUTINES
    case EndFlush(t) => t in s.threads && s.threads[t].Gather? && s.threads[t].left == {} && s.threads[t].out == map[]
    case BeginExpire(t) => Ready(s, t) && Expired(s) && Ours(s, s.lru[|s.lru| - 1])
    case Receive(t) => t in s.cfg.workers && s.Is(t, Idle) && s.queue != []
    case Tick(_) => true
    case Run(t, _) => CanRun(s, t)
    case BeginStat(t) => Ready(s, t)
    case RunStat(t) => CanStat(s, t)
    case BeginRead(t, _) => Ready(s, t)
    case LockRead(t) => t in s.threads && s.threads[t].Reading? && !s.threads[t].held &&
            CanRLock(s.lk.table, s.threads[t].rblk)
    case EndRead(t) => t in s.threads && s.threads[t].Reading? && s.threads[t].held
    case Other(e) => CanOther(s, e)
  }

  ghost function Apply(s: W, a: Action): W
    requires Enabled(s, a)
  {
    match a
    case BeginWrite(t, ops) => s.Go(t, Busy(WriteJob(ops, 0, false), Wait, false))
    case BeginFlush(t) => s.Go(t, Gather(|s.log|, s.Cells(), s.attached.Keys, map[], false))
    case Spawn(t, c, b) => StepSpawn(s, t, c, b)
    case EndFlush(t) => s.Go(t, Idle)
    case BeginExpire(t) => StepExpire(s, t)
    case Receive(t) => StepReceive(s, t)
    case Tick(d) => StepTick(s, d)
    case Run(t, o) => StepRun(s, t, o)
    case BeginStat(t) => s.Go(t, Stat(ViewSize(s.server, s.Cells()), Probe))
    case RunStat(t) => StepStat(s, t)
    case BeginRead(t, b) => s.Go(t, Reading(b, false))
    case LockRead(t) => StepLockRead(s, t)
    case EndRead(t) => StepEndRead(s, t)
    case Other(e) => StepOther(s, e)
  }

  // ---------- the initial states ----------

  /** Nothing of this file is under way: a goroutine is idle, or writes another file's buffer. */
  predicate Resting(s: W) { forall t :: t in s.threads ==> s.threads[t].Idle? || s.threads[t].Abroad? }

  /** A fresh cache over a server file: every buffer is free or with another file, and nothing is under way. */
  ghost predicate Start(s: W) {
    && s.server == s.init && s.log == [] && s.attached == map[] && s.queue == []
    && LruInv(s) && (forall id :: id in s.lru ==> !Ours(s, id))
    && s.others <= s.cfg.cap && (s.others > 0 ==> s.cfg.async)
    && s.lk == LockState(map[], map[], map[])
    && Resting(s) && s.cfg.workers <= s.threads.Keys
    && (forall t :: t in s.threads && s.threads[t].Abroad? ==> t in s.cfg.workers)
    && s.place.Keys == s.pool.Keys && Distinct(s.free)
    && (forall id :: id in s.free <==> id in s.place && s.place[id].InFree?)
    && (forall id :: id in s.place ==> s.place[id].InFree? || s.place[id].Lent?)
  }
}
