/**
 * Both caches of one file: the write-cache machine, plus the read cache with its own lock table, prefetch scans,
 * prefetch workers, cleaning after writes, and readers that hold a block in both tables.  A read that begins before
 * the file has a buffer in the write cache looks at the read cache and the server only, to its end.
 */
module CacheMachine {
  import opened FlatFile
  import opened Overlay
  import opened Locks
  import opened WriteMachine

  /**
   * A reader of one block: waits for the read cache, has it, has read, has left the read cache, has merged; or its
   * server read has failed, and it has left the read cache and returns.
   */
  datatype ReadStage =
    | RWant | RHave
    | RGot(data: Content, good: bool) | RHold(data: Content, good: bool) | RMerged(data: Content, good: bool)
    | RFailed | RQuit

  /** The same without the write cache. */
  datatype BareStage = BWant | BHave | BGot(data: Content) | BDone(data: Content) | BFailed

  datatype ScanStage = SWant | SHave | SSend

  datatype CleanStage = CWant | CHave | CGone

  /** What a goroutine is doing in or around the read cache. */
  datatype RPc =
    | Off
    | Writer(lo: nat, hi: nat)                      // inside WCache.Write of blocks lo..hi, cleaning comes next
    | Clean(lo: nat, hi: nat, cst: CleanStage)      // ReleaseBuffer for each of lo..hi
    | Reader(b: nat, off: nat, n: nat, rst: ReadStage)
    | Bare(b: nat, off: nat, n: nat, bst: BareStage) // an op of a doRead that found no file buffer in the write cache
    | Scan(lo: nat, hi: nat, sst: ScanStage)        // DoPrefetch
    | Fetch(b: nat) | Fetched(b: nat, data: Content) | FetchDone(b: nat)   // a prefetch worker

  datatype C = C(
    w: W,
    rl: LockState,            // LockMap of the read cache's file buffer
    r: map<nat, Content>,     // its cached blocks
    pq: seq<nat>, pcap: nat,  // chPrefetch
    pworkers: set<nat>,
    rpc: map<nat, RPc>,
    written: bool             // the write cache has a file buffer: some Write has begun
  ) {
    function R(t: nat): RPc { if t in rpc then rpc[t] else Off }

    function Go(t: nat, pc: RPc): C { this.(rpc := rpc[t := pc]) }
  }

  /** The whole block b, zero-padded: what prefetch caches whatever number of bytes the server returned. */
  function Block(f: Content, b: nat): Content { seq<Byte>(BLOCK, o requires 0 <= o => At(f, b * BLOCK + o)) }

  /** Cached block b agrees with the server on every byte that no write buffer covers. */
  ghost predicate Agrees(c: C, b: nat) {
    forall o: nat :: b in c.r && o < BLOCK ==>
      Dirty(c.w.Cells(), b * BLOCK + o) || At(c.r[b], o) == At(c.w.server, b * BLOCK + o)
  }

  function CachedByte(c: C, b: nat, o: nat): Byte {
    if b in c.r then At(c.r[b], o) else At(c.w.server, b * BLOCK + o)
  }

  /** ReadOp: from the cached block if there is one, else from the server; the buffer starts as zeros. */
  function ReadOp(c: C, b: nat, off: nat, n: nat): Content {
    seq<Byte>(n, i requires 0 <= i => CachedByte(c, b, off + i))
  }

  /** MergeOp on the bytes: the write buffer wins where it has data. */
  function MergeBytes(cells: Cells, b: nat, off: nat, data: Content): Content {
    seq(|data|, i requires 0 <= i < |data| =>
      if b in cells && cells[b].Covers(off + i) then cells[b].data[off + i - cells[b].off] else data[i])
  }

  // ---------- actions ----------

  datatype Act =
    | Lift(a: Action)
    | NewWrite(t: nat, ops: seq<Op>, lo: nat, hi: nat) | NewRead(t: nat, b: nat, off: nat, n: nat)
    | NewBare(t: nat, b: nat, off: nat, n: nat)  // the first op of a doRead without the write cache
    | Again(t: nat, b: nat, off: nat, n: nat)    // its next op
    | NewScan(t: nat, lo: nat, hi: nat) | NewDrop(t: nat, b: nat)
    | Recv(t: nat)
    | Step(t: nat, ok: bool)

  predicate Free(c: C, t: nat) { c.R(t).Off? && Ready(c.w, t) && t !in c.pworkers }

  predicate CanStep(c: C, t: nat) {
    match c.R(t)
    case Reader(b, _, _, RWant) =>
      t in c.w.threads && c.w.threads[t] == Reading(b, true) && CanRLock(c.rl.table, b)
    case Reader(b, _, _, _) => t in c.w.threads && c.w.threads[t] == Reading(b, true)
    case Bare(b, _, _, st) => st.BWant? ==> CanRLock(c.rl.table, b)
    case Scan(lo, hi, st) => (st.SWant? && lo < hi ==> CanLock(c.rl.table, lo)) && (st.SSend? ==> |c.pq| < c.pcap)
    case Clean(lo, hi, st) => st.CWant? && lo < hi ==> CanLock(c.rl.table, lo)
    case Fetch(_) => true
    case Fetched(_, _) => true
    case FetchDone(_) => true
    case Off => false
    case Writer(_, _) => false
  }

  ghost predicate CEnabled(c: C, a: Act) {
    match a
    case Lift(x) =>
      && Enabled(c.w, x) && !x.BeginWrite? && !x.BeginRead? && !x.EndRead?
      && (x.BeginFlush? || x.Spawn? || x.BeginExpire? || x.BeginStat? ==> Free(c, x.t))
    case NewWrite(t, ops, lo, hi) =>
      Free(c, t) && Enabled(c.w, BeginWrite(t, ops)) && forall i :: 0 <= i < |ops| ==> lo <= ops[i].blk < hi
    case NewRead(t, b, off, n) => Free(c, t) && c.written && off + n <= BLOCK
    case NewBare(t, b, off, n) => Free(c, t) && !c.written && off + n <= BLOCK
    case Again(t, b, off, n) => c.R(t).Bare? && c.R(t).bst.BDone? && off + n <= BLOCK
    case NewScan(t, lo, hi) => Free(c, t) && lo <= hi && c.pworkers != {}
    case NewDrop(t, b) => Free(c, t)
    case Recv(t) => t in c.pworkers && c.R(t).Off? && c.pq != []
    case Step(t, _) => CanStep(c, t)
  }

  /** t has left WCache.Write. */
  predicate Left(w: W, t: nat) { !(w.At(t) && w.threads[t].job.WriteJob?) }

  ghost function LiftStep(c: C, x: Action): C
    requires Enabled(c.w, x)
  {
    var w' := Apply(c.w, x);
    if x.Run? && c.R(x.t).Writer? && Left(w', x.t) then c.(w := w').Go(x.t, Clean(c.R(x.t).lo, c.R(x.t).hi, CWant))
    else c.(w := w')
  }

  /** ok says whether the server answers; a cached block is read without it. */
  predicate ReadFails(c: C, b: nat, ok: bool) { !ok && b !in c.r }

  ghost function ReaderStep(c: C, t: nat, ok: bool): C
    requires c.R(t).Reader? && CanStep(c, t)
  {
    var pc := c.R(t);
    match pc.rst
    case RWant => c.(rl := c.rl.RLock(pc.b, t)).Go(t, pc.(rst := RHave))
    case RHave =>
      c.Go(t, pc.(rst := if ReadFails(c, pc.b, ok) then RFailed
              else RGot(ReadOp(c, pc.b, pc.off, pc.n), Agrees(c, pc.b))))
    case RGot(d, g) => c.(rl := c.rl.RUnlock(pc.b, t)).Go(t, pc.(rst := RHold(d, g)))
    case RHold(d, g) => c.Go(t, pc.(rst := RMerged(MergeBytes(c.w.Cells(), pc.b, pc.off, d), g)))
    case RFailed => c.(rl := c.rl.RUnlock(pc.b, t)).Go(t, pc.(rst := RQuit))
    case RQuit => c.(w := StepEndRead(c.w, t)).Go(t, Off)
    case RMerged(_, _) => c.(w := StepEndRead(c.w, t)).Go(t, Off)
  }

  function BareStep(c: C, t: nat, ok: bool): C
    requires c.R(t).Bare? && CanStep(c, t)
  {
    var pc := c.R(t);
    match pc.bst
    case BWant => c.(rl := c.rl.RLock(pc.b, t)).Go(t, pc.(bst := BHave))
    case BHave => c.Go(t, pc.(bst := if ReadFails(c, pc.b, ok) then BFailed else BGot(ReadOp(c, pc.b, pc.off, pc.n))))
    case BGot(d) => c.(rl := c.rl.RUnlock(pc.b, t)).Go(t, pc.(bst := BDone(d)))
    case BFailed => c.(rl := c.rl.RUnlock(pc.b, t)).Go(t, Off)
    case BDone(_) => c.Go(t, Off)
  }

  function ScanStep(c: C, t: nat): C
    requires c.R(t).Scan? && CanStep(c, t)
  {
    var pc := c.R(t);
    match pc.sst
    case SWant => if pc.lo >= pc.hi then c.Go(t, Off) else c.(rl := c.rl.Lock(pc.lo, t)).Go(t, pc.(sst := SHave))
    case SHave =>
      if pc.lo in c.r then c.(rl := c.rl.Unlock(pc.lo)).Go(t, Scan(pc.lo + 1, pc.hi, SWant))
      else c.Go(t, pc.(sst := SSend))
    case SSend => c.(pq := c.pq + [pc.lo], rl := c.rl.Pass(pc.lo, Queue)).Go(t, Scan(pc.lo + 1, pc.hi, SWant))
  }

  function CleanStep(c: C, t: nat): C
    requires c.R(t).Clean? && CanStep(c, t)
  {
    var pc := c.R(t);
    match pc.cst
    case CWant => if pc.lo >= pc.hi then c.Go(t, Off) else c.(rl := c.rl.Lock(pc.lo, t)).Go(t, pc.(cst := CHave))
    case CHave => c.(r := c.r - {pc.lo}).Go(t, pc.(cst := CGone))
    case CGone => c.(rl := c.rl.Unlock(pc.lo)).Go(t, Clean(pc.lo + 1, pc.hi, CWant))
  }

  /** ok is false when the server read fails, or when the read pool has no free buffer. */
  function FetchStep(c: C, t: nat, ok: bool): C
    requires c.R(t).Fetch? || c.R(t).Fetched? || c.R(t).FetchDone?
  {
    match c.R(t)
    case Fetch(b) =>
      c.Go(t, if ok && b * BLOCK < |c.w.server| then Fetched(b, Block(c.w.server, b)) else FetchDone(b))
    case Fetched(b, data) => (if ok then c.(r := c.r[b := data]) else c).Go(t, FetchDone(b))
    case FetchDone(b) => c.(rl := c.rl.Unlock(b)).Go(t, Off)
  }

  function RecvStep(c: C, t: nat): C
    requires c.pq != []
  {
    c.(pq := c.pq[1..], rl := c.rl.Pass(c.pq[0], Thread(t))).Go(t, Fetch(c.pq[0]))
  }

  ghost function CApply(c: C, a: Act): C
    requires CEnabled(c, a)
  {
    match a
    case Lift(x) => LiftStep(c, x)
    case NewWrite(t, ops, lo, hi) => c.(w := Apply(c.w, BeginWrite(t, ops)), written := true).Go(t, Writer(lo, hi))
    case NewRead(t, b, off, n) => c.(w := Apply(c.w, BeginRead(t, b))).Go(t, Reader(b, off, n, RWant))
    case NewBare(t, b, off, n) => c.Go(t, Bare(b, off, n, BWant))
    case Again(t, b, off, n) => c.Go(t, Bare(b, off, n, BWant))
    case NewScan(t, lo, hi) => c.Go(t, Scan(lo, hi, SWant))
    case NewDrop(t, b) => c.Go(t, Clean(b, b + 1, CWant))
    case Recv(t) => RecvStep(c, t)
    case Step(t, ok) =>
      if c.R(t).Reader? then ReaderStep(c, t, ok)
      else if c.R(t).Bare? then BareStep(c, t, ok)
      else if c.R(t).Scan? then ScanStep(c, t)
      else if c.R(t).Clean? then CleanStep(c, t)
      else FetchStep(c, t, ok)
  }

  // ---------- the invariant ----------

  predicate RHolds(pc: RPc, b: nat) {
    match pc
    case Scan(lo, _, st) => !st.SWant? && lo == b
    case Clean(lo, _, st) => !st.CWant? && lo == b
    case Fetch(x) => x == b
    case Fetched(x, _) => x == b
    case FetchDone(x) => x == b
    case _ => false
  }

  predicate RShares(pc: RPc, b: nat) {
    || (pc.Reader? && pc.b == b && (pc.rst.RHave? || pc.rst.RGot? || pc.rst.RFailed?))
    || (pc.Bare? && pc.b == b && (pc.bst.BHave? || pc.bst.BGot? || pc.bst.BFailed?))
  }

  predicate RHoldsT(c: C, t: nat, b: nat) { RHolds(c.R(t), b) }

  predicate RSharesT(c: C, t: nat, b: nat) { RShares(c.R(t), b) }

  /** The read cache's lock table agrees with the goroutines and with the prefetch channel. */
  ghost predicate ROwnInv(c: C) {
    && c.rl.Inv()
    && (forall b :: b in c.rl.excl && c.rl.excl[b].Thread? ==> RHoldsT(c, c.rl.excl[b].t, b))
    && (forall t, b :: RHoldsT(c, t, b) ==> b in c.rl.excl && c.rl.excl[b] == Thread(t))
    && (forall t :: t in c.rl.shared ==> RSharesT(c, t, c.rl.shared[t]))
    && (forall t, b :: RSharesT(c, t, b) ==> t in c.rl.shared && c.rl.shared[t] == b)
  }

  ghost predicate PqInv(c: C) {
    && Distinct(c.pq) && |c.pq| <= c.pcap && (c.pq != [] ==> c.pworkers != {})
    && (forall b :: b in c.pq ==> b in c.rl.excl && c.rl.excl[b] == Queue)
    && (forall b :: b in c.rl.excl && c.rl.excl[b].Queue? ==> b in c.pq)
  }

  /** The two program points of one goroutine fit together. */
  ghost predicate LinkOk(c: C, t: nat) {
    var pc := c.R(t);
    && (pc.Writer? <==> !Left(c.w, t))
    && (pc.Writer? ==> forall i :: 0 <= i < |c.w.threads[t].job.ops| ==> pc.lo <= c.w.threads[t].job.ops[i].blk < pc.hi)
    && (pc.Reader? <==> t in c.w.threads && c.w.threads[t].Reading?)
    && (pc.Reader? ==> c.w.threads[t].rblk == pc.b && (!pc.rst.RWant? ==> c.w.threads[t].held))
    && (pc.Clean? || pc.Scan? || pc.Bare? || t in c.pworkers ==> (t in c.w.threads ==> c.w.threads[t].Idle?))
    && (pc.Clean? && !pc.cst.CWant? ==> pc.lo < pc.hi)
    && (pc.Scan? ==> c.pworkers != {} && (!pc.sst.SWant? ==> pc.lo < pc.hi))
    && (pc.Fetch? || pc.Fetched? || pc.FetchDone? ==> t in c.pworkers)
    && (t in c.w.cfg.workers ==> pc.Off?)
    && (t in c.pworkers ==> pc.Off? || pc.Fetch? || pc.Fetched? || pc.FetchDone?)
  }

  ghost predicate LinkInv(c: C) { forall t :: LinkOk(c, t) }

  ghost predicate CInv(c: C) {
    && Inv(c.w) && ROwnInv(c) && PqInv(c) && LinkInv(c)
    && c.w.cfg.Ok() && c.pworkers !! c.w.cfg.workers && (c.pworkers != {} ==> c.pcap >= 1)
  }

  // ---------- runs ----------

  ghost predicate CStart(c: C) {
    && Start(c.w)
    && c.rl == LockState(map[], map[], map[]) && c.r == map[] && c.pq == [] && c.rpc == map[]
    && c.w.cfg.Ok() && c.pworkers !! c.w.cfg.workers && (c.pworkers != {} ==> c.pcap >= 1)
  }

  ghost predicate CRuns(c: C, acts: seq<Act>, c': C)
    decreases |acts|
  {
    if acts == [] then c' == c else CEnabled(c, acts[0]) && CRuns(CApply(c, acts[0]), acts[1..], c')
  }
}
