/**
 * Two properties that one would expect and that the code does not have, each with the run that breaks it: a read that
 * began before the file was first written may miss a finished Write, and a block that is prefetched while its write
 * buffer waits to be flushed is stale in the read cache afterwards.
 */
module Witness {
  import opened FlatFile
  import opened Overlay
  import opened Locks
  import opened WriteMachine
  import opened CacheMachine
  import opened Coherence
  import opened WriteInv
  import opened CacheRuns
  import opened BareReads

  /** Everything but t is as it was, the server included. */
  ghost predicate Kept(c0: C, c: C, t: nat) {
    && c.w.server == c0.w.server && c.w.cfg == c0.w.cfg
    && c.pq == c0.pq && c.pcap == c0.pcap && c.pworkers == c0.pworkers
    && (forall v :: v != t ==> c.R(v) == c0.R(v))
    && (forall v :: v != t && Ready(c0.w, v) ==> Ready(c.w, v))
  }

  /** t is free, and nobody locks block b, which is not in the read cache. */
  predicate Base(c: C, t: nat, b: nat) {
    CacheMachine.Free(c, t) && b !in c.w.lk.table && b !in c.rl.table && b !in c.r
  }

  // ---------- a Write of one op into a free buffer ----------

  /** t, started in c0, is at stage st of its Write of op. */
  ghost predicate Writing(c0: C, c: C, t: nat, op: Op, st: Stage) {
    && Kept(c0, c, t) && t !in c.w.cfg.workers && t !in c.pworkers && c.written
    && c.R(t) == Writer(op.blk, op.blk + 1) && op.blk !in c.rl.table && op.blk !in c.r
    && c.w.Is(t, Busy(WriteJob([op], 0, st.Touch? || st.Release?), st, false))
    && (st.Wait? ==> op.blk !in c.w.lk.table)
    && (st.Wait? || st.Held? ==> c.w.free != [] && op.blk !in c.w.attached)
    && (st.Fresh? ==> c.w.Buf(st.id).cell == Cell(op.off, op.data))
    && (st.Touch? ==> op.blk in c.w.attached && c.w.attached[op.blk] == st.id)
    && (st.Touch? || st.Release? ==> Buffers(c, op))
  }

  /** op's block is attached with just op's bytes. */
  predicate Buffers(c: C, op: Op) {
    op.blk in c.w.attached && c.w.Buf(c.w.attached[op.blk]).cell == Cell(op.off, op.data)
  }

  predicate Small(op: Op) { op.Ok() && !op.IsFull() }

  lemma WriteBegins(c0: C, t: nat, op: Op) returns (acts: seq<Act>, c: C)
    requires Base(c0, t, op.blk) && Small(op) && c0.w.free != [] && op.blk !in c0.w.attached
    ensures CRuns(c0, acts, c) && Writing(c0, c, t, op, Wait)
  {
    var a := NewWrite(t, [op], op.blk, op.blk + 1);
    acts, c := [a], CApply(c0, a);
    assert acts[1..] == [];
  }

  ghost predicate CanLift(c: C, t: nat) { CEnabled(c, Lift(Run(t, Done))) }

  ghost function Lifted(c: C, t: nat): C
    requires CanLift(c, t)
  {
    CApply(c, Lift(Run(t, Done)))
  }

  lemma WriteLocks(c0: C, c: C, t: nat, op: Op)
    requires Writing(c0, c, t, op, Wait) && Small(op)
    ensures CanLift(c, t) && Writing(c0, Lifted(c, t), t, op, Held)
  {
    LiftIs(c, t);
    assert Lifted(c, t) == c.(w := StepAcquire(c.w, t));
  }

  /** A step inside WCache.Write changes nothing outside the write cache. */
  lemma LiftIs(c: C, t: nat)
    requires CanRun(c.w, t) && !Left(StepRun(c.w, t, Done), t)
    ensures CanLift(c, t) && Lifted(c, t) == c.(w := StepRun(c.w, t, Done))
  {}

  lemma WriteAllocs(c0: C, c: C, t: nat, op: Op)
    requires Writing(c0, c, t, op, Held) && Small(op)
    ensures CanLift(c, t) && Writing(c0, Lifted(c, t), t, op, Fresh(c.w.free[0]))
  {}

  lemma WriteAttaches(c0: C, c: C, t: nat, op: Op, id: nat)
    requires Writing(c0, c, t, op, Fresh(id)) && Small(op)
    ensures CanLift(c, t) && Writing(c0, Lifted(c, t), t, op, Touch(id))
  {}

  lemma WriteTouches(c0: C, c: C, t: nat, op: Op, id: nat)
    requires Writing(c0, c, t, op, Touch(id)) && Small(op)
    ensures CanLift(c, t) && Writing(c0, Lifted(c, t), t, op, Release)
  {}

  /** t, started in c0, is at stage st of the cleaning of op's block that follows its Write. */
  ghost predicate Cleaning(c0: C, c: C, t: nat, op: Op, more: bool, st: CleanStage) {
    && Kept(c0, c, t) && t !in c.pworkers && Ready(c.w, t) && c.written && Buffers(c, op)
    && c.R(t) == Clean(if more then op.blk else op.blk + 1, op.blk + 1, st)
    && op.blk !in c.w.lk.table && op.blk !in c.r && (st.CWant? ==> op.blk !in c.rl.table)
  }

  ghost function Stepped(c: C, t: nat): C
    requires CanStep(c, t)
  {
    CApply(c, Step(t, true))
  }

  lemma WriteReleases(c0: C, c: C, t: nat, op: Op)
    requires Writing(c0, c, t, op, Release) && Small(op)
    ensures CanLift(c, t) && Cleaning(c0, Lifted(c, t), t, op, true, CWant)
  {}

  lemma CleanLocks(c0: C, c: C, t: nat, op: Op)
    requires Cleaning(c0, c, t, op, true, CWant)
    ensures CanStep(c, t) && Cleaning(c0, Stepped(c, t), t, op, true, CHave)
  {}

  lemma CleanDrops(c0: C, c: C, t: nat, op: Op)
    requires Cleaning(c0, c, t, op, true, CHave)
    ensures CanStep(c, t) && Cleaning(c0, Stepped(c, t), t, op, true, CGone)
  {}

  lemma CleanUnlocks(c0: C, c: C, t: nat, op: Op)
    requires Cleaning(c0, c, t, op, true, CGone)
    ensures CanStep(c, t) && Cleaning(c0, Stepped(c, t), t, op, false, CWant)
  {}

  lemma CleanEnds(c0: C, c: C, t: nat, op: Op)
    requires Cleaning(c0, c, t, op, false, CWant)
    ensures CanStep(c, t) && Written(c0, Stepped(c, t), t, op)
  {}

  /** t has written op and all is quiet again. */
  ghost predicate Written(c0: C, c: C, t: nat, op: Op) {
    Kept(c0, c, t) && Base(c, t, op.blk) && c.written && Buffers(c, op)
  }

  lemma RunLift(c0: C, acts: seq<Act>, c: C, t: nat) returns (acts': seq<Act>)
    requires CRuns(c0, acts, c) && CanLift(c, t)
    ensures CRuns(c0, acts', Lifted(c, t))
  {
    CRunSnoc(c0, acts, c, Lift(Run(t, Done)));
    acts' := acts + [Lift(Run(t, Done))];
  }

  lemma RunStep(c0: C, acts: seq<Act>, c: C, t: nat) returns (acts': seq<Act>)
    requires CRuns(c0, acts, c) && CanStep(c, t)
    ensures CRuns(c0, acts', Stepped(c, t))
  {
    CRunSnoc(c0, acts, c, Step(t, true));
    acts' := acts + [Step(t, true)];
  }

  lemma WriteBuffers(c0: C, t: nat, op: Op) returns (acts: seq<Act>, c: C)
    requires Base(c0, t, op.blk) && Small(op) && c0.w.free != [] && op.blk !in c0.w.attached
    ensures CRuns(c0, acts, c) && Writing(c0, c, t, op, Release)
  {
    acts, c := WriteBegins(c0, t, op);
    WriteLocks(c0, c, t, op);
    acts := RunLift(c0, acts, c, t);
    c := Lifted(c, t);
    var id := c.w.free[0];
    WriteAllocs(c0, c, t, op);
    acts := RunLift(c0, acts, c, t);
    c := Lifted(c, t);
    WriteAttaches(c0, c, t, op, id);
    acts := RunLift(c0, acts, c, t);
    c := Lifted(c, t);
    WriteTouches(c0, c, t, op, id);
    acts := RunLift(c0, acts, c, t);
    c := Lifted(c, t);
  }

  lemma WriteCleans(c0: C, acts0: seq<Act>, c1: C, t: nat, op: Op) returns (acts: seq<Act>, c: C)
    requires CRuns(c0, acts0, c1) && Writing(c0, c1, t, op, Release) && Small(op)
    ensures CRuns(c0, acts, c) && Written(c0, c, t, op)
  {
    WriteReleases(c0, c1, t, op);
    acts := RunLift(c0, acts0, c1, t);
    c := Lifted(c1, t);
    CleanLocks(c0, c, t, op);
    acts := RunStep(c0, acts, c, t);
    c := Stepped(c, t);
    CleanDrops(c0, c, t, op);
    acts := RunStep(c0, acts, c, t);
    c := Stepped(c, t);
    CleanUnlocks(c0, c, t, op);
    acts := RunStep(c0, acts, c, t);
    c := Stepped(c, t);
    CleanEnds(c0, c, t, op);
    acts := RunStep(c0, acts, c, t);
    c := Stepped(c, t);
  }

  lemma WriteAlone(c0: C, t: nat, op: Op) returns (acts: seq<Act>, c: C)
    requires Base(c0, t, op.blk) && Small(op) && c0.w.free != [] && op.blk !in c0.w.attached
    ensures CRuns(c0, acts, c) && Written(c0, c, t, op)
  {
    acts, c := WriteBuffers(c0, t, op);
    acts, c := WriteCleans(c0, acts, c, t, op);
  }

  // ---------- a read that misses a finished Write ----------

  lemma BareBegins(c0: C, t: nat, u: nat, op: Op) returns (c: C)
    requires CStart(c0) && !c0.written && t != u && CacheMachine.Free(c0, t) && CacheMachine.Free(c0, u) && Small(op)
    ensures CRuns(c0, [NewBare(t, op.blk, op.off, 1)], c) && Base(c, u, op.blk) &&
            c.R(t) == Bare(op.blk, op.off, 1, BWant)
    ensures c.w == c0.w
  {
    var a := NewBare(t, op.blk, op.off, 1);
    c := CApply(c0, a);
    assert [a][1..] == [];
  }

  ghost predicate BareAt(c: C, t: nat, u: nat, op: Op, st: BareStage) {
    && CacheMachine.Free(c, u) && Buffers(c, op) && op.blk !in c.r
    && c.R(t) == Bare(op.blk, op.off, 1, st) && (st.BWant? ==> op.blk !in c.rl.table)
  }

  lemma BareLocks(c: C, t: nat, u: nat, op: Op)
    requires t != u && BareAt(c, t, u, op, BWant)
    ensures CanStep(c, t) && Stepped(c, t).w == c.w && BareAt(Stepped(c, t), t, u, op, BHave)
  {}

  lemma BareGets(c: C, t: nat, u: nat, op: Op)
    requires t != u && BareAt(c, t, u, op, BHave)
    ensures CanStep(c, t) && Stepped(c, t).w == c.w
    ensures BareAt(Stepped(c, t), t, u, op, BGot([At(c.w.server, op.FileOffset())]))
  {
    assert ReadOp(c, op.blk, op.off, 1)[0] == CachedByte(c, op.blk, op.off);
    assert ReadOp(c, op.blk, op.off, 1) == [At(c.w.server, op.FileOffset())];
  }

  lemma BufferedByte(s: W, op: Op)
    requires PoolInv(s) && Small(op) && op.blk in s.attached && s.Buf(s.attached[op.blk]).cell == Cell(op.off, op.data)
    ensures ViewAtByte(s, op.FileOffset()) == op.data[0]
  {
    BlockOf(op, op.FileOffset());
    CellsAreOk(s);
    AtView(s.server, s.Cells(), op.FileOffset());
  }

  lemma RunPool(c0: C, acts: seq<Act>, c: C)
    requires CStart(c0) && CRuns(c0, acts, c)
    ensures PoolInv(c.w)
  {
    ReachInv(c0, acts, c);
  }

  lemma BareWaits(c0: C, t: nat, u: nat, op: Op) returns (acts: seq<Act>, c: C)
    requires CStart(c0) && !c0.written && c0.w.free != []
    requires t != u && CacheMachine.Free(c0, t) && CacheMachine.Free(c0, u) && Small(op)
    ensures CRuns(c0, acts, c) && BareAt(c, t, u, op, BWant) && c.w.server == c0.w.server
  {
    var c1 := BareBegins(c0, t, u, op);
    acts, c := WriteAlone(c1, u, op);
    CRunJoin(c0, [NewBare(t, op.blk, op.off, 1)], c1, acts, c);
    acts := [NewBare(t, op.blk, op.off, 1)] + acts;
  }

  /**
   * A read that began before the file was ever written, and a Write that begins and returns before the read looks at
   * the byte: the read returns the server's old byte although the view has the written one.
   */
  lemma BareReadMisses(c0: C, t: nat, u: nat, op: Op) returns (acts: seq<Act>, c: C)
    requires CStart(c0) && !c0.written && t != u && CacheMachine.Free(c0, t) && CacheMachine.Free(c0, u)
    requires Small(op) && c0.w.free != [] && At(c0.w.server, op.FileOffset()) != op.data[0]
    ensures CRuns(c0, acts, c) && CacheMachine.Free(c, u)
    ensures c.R(t) == Bare(op.blk, op.off, 1, BGot([At(c0.w.server, op.FileOffset())]))
    ensures ViewAtByte(c.w, op.FileOffset()) == op.data[0]
  {
    acts, c := BareWaits(c0, t, u, op);
    BareLocks(c, t, u, op);
    acts := RunStep(c0, acts, c, t);
    c := Stepped(c, t);
    BareGets(c, t, u, op);
    acts := RunStep(c0, acts, c, t);
    c := Stepped(c, t);
    RunPool(c0, acts, c);
    BufferedByte(c.w, op);
  }

  // ---------- a block prefetched while its buffer waits ----------

  /**
   * Who does what: t writes, scans ahead and flushes, u is the flush worker, p the prefetch worker; f is on the
   * server.
   */
  datatype Cast = Cast(t: nat, u: nat, p: nat, op: Op, f: Content) {
    predicate Ok() {
      t != u && t != p && u != p && Small(op) && op.blk * BLOCK < |f| && At(f, op.FileOffset()) != op.data[0]
    }
  }

  /** Only t and p are in or around the read cache, at pt and pp. */
  ghost predicate Alone(c: C, k: Cast, pt: RPc, pp: RPc) {
    && k.Ok() && k.p in c.pworkers && k.t !in c.pworkers && k.u !in c.pworkers && c.pcap >= 1
    && c.R(k.t) == pt && c.R(k.p) == pp && forall v :: v in c.rpc && v != k.t && v != k.p ==> c.rpc[v].Off?
  }

  /** op is buffered, t and u are ready, and q is queued for prefetching. */
  ghost predicate Scene(c: C, k: Cast, pt: RPc, pp: RPc, q: seq<nat>) {
    && Alone(c, k, pt, pp) && c.pq == q && c.w.server == k.f
    && Ready(c.w, k.t) && Ready(c.w, k.u) && Buffers(c, k.op) && k.op.blk !in c.w.lk.table
    && (pp.FetchDone? || k.op.blk !in c.r)
    && (pt.Scan? && pt.lo == k.op.blk && pt.sst.SWant? ==> k.op.blk !in c.rl.table)
  }

  lemma ScanBegins(c: C, k: Cast)
    requires Scene(c, k, Off, Off, []) && k.op.blk !in c.rl.table
    ensures var a := NewScan(k.t, k.op.blk, k.op.blk + 1);
            CEnabled(c, a) && Scene(CApply(c, a), k, Scan(k.op.blk, k.op.blk + 1, SWant), Off, [])
  {}

  lemma ScanLocks(c: C, k: Cast)
    requires Scene(c, k, Scan(k.op.blk, k.op.blk + 1, SWant), Off, [])
    ensures CanStep(c, k.t) && Scene(Stepped(c, k.t), k, Scan(k.op.blk, k.op.blk + 1, SHave), Off, [])
  {}

  lemma ScanMisses(c: C, k: Cast)
    requires Scene(c, k, Scan(k.op.blk, k.op.blk + 1, SHave), Off, [])
    ensures CanStep(c, k.t) && Scene(Stepped(c, k.t), k, Scan(k.op.blk, k.op.blk + 1, SSend), Off, [])
  {}

  lemma ScanSends(c: C, k: Cast)
    requires Scene(c, k, Scan(k.op.blk, k.op.blk + 1, SSend), Off, [])
    ensures CanStep(c, k.t) && Scene(Stepped(c, k.t), k, Scan(k.op.blk + 1, k.op.blk + 1, SWant), Off, [k.op.blk])
  {}

  lemma ScanEnds(c: C, k: Cast)
    requires Scene(c, k, Scan(k.op.blk + 1, k.op.blk + 1, SWant), Off, [k.op.blk])
    ensures CanStep(c, k.t) && Scene(Stepped(c, k.t), k, Off, Off, [k.op.blk])
  {}

  lemma FetchReceives(c: C, k: Cast)
    requires Scene(c, k, Off, Off, [k.op.blk])
    ensures CEnabled(c, Recv(k.p)) && Scene(CApply(c, Recv(k.p)), k, Off, Fetch(k.op.blk), [])
  {}

  lemma FetchReads(c: C, k: Cast)
    requires Scene(c, k, Off, Fetch(k.op.blk), [])
    ensures CanStep(c, k.p) && Scene(Stepped(c, k.p), k, Off, Fetched(k.op.blk, Block(k.f, k.op.blk)), [])
  {}

  lemma FetchCaches(c: C, k: Cast)
    requires Scene(c, k, Off, Fetched(k.op.blk, Block(k.f, k.op.blk)), [])
    ensures CanStep(c, k.p) && Scene(Stepped(c, k.p), k, Off, FetchDone(k.op.blk), [])
    ensures CachesOld(Stepped(c, k.p), k)
  {}

  /** The read cache has the block as it was before op. */
  predicate CachesOld(c: C, k: Cast) { k.op.blk in c.r && c.r[k.op.blk] == Block(k.f, k.op.blk) }

  /** u, started by t's Flush, is at stage st; the prefetched block is in the read cache. */
  ghost predicate Flushing(c: C, k: Cast, st: Stage) {
    && Alone(c, k, Off, FetchDone(k.op.blk)) && CachesOld(c, k)
    && c.w.server == (if st.Detach? || st.Free? then k.op.Do(k.f) else k.f)
    && c.w.Is(k.u, Busy(FlushJob(k.op.blk, Flusher(k.t)), st, false))
    && (if st.Free? then k.op.blk !in c.w.attached else Buffers(c, k.op))
    && (st.Wait? ==> k.op.blk !in c.w.lk.table)
    && (st.Flush? ==> c.w.attached[k.op.blk] == st.id)
  }

  lemma FlushBegins(c: C, k: Cast)
    requires Scene(c, k, Off, FetchDone(k.op.blk), []) && CachesOld(c, k)
    ensures var a := Lift(BeginFlush(k.t)); CEnabled(c, a) && Gathering(CApply(c, a), k)
  {}

  ghost predicate Gathering(c: C, k: Cast) {
    && Alone(c, k, Off, FetchDone(k.op.blk)) && CachesOld(c, k) && c.w.server == k.f
    && k.t in c.w.threads && c.w.threads[k.t].Gather? && k.op.blk in c.w.threads[k.t].left &&
            c.w.threads[k.t].out == map[]
    && Ready(c.w, k.u) && Buffers(c, k.op) && k.op.blk !in c.w.lk.table
  }

  lemma FlushSpawns(c: C, k: Cast)
    requires Gathering(c, k)
    ensures var a := Lift(Spawn(k.u, k.t, k.op.blk)); CEnabled(c, a) && Flushing(CApply(c, a), k, Wait)
  {}

  lemma FlushLocks(c: C, k: Cast)
    requires Flushing(c, k, Wait)
    ensures CanLift(c, k.u) && Flushing(Lifted(c, k.u), k, Held)
  {}

  lemma FlushFinds(c: C, k: Cast)
    requires Flushing(c, k, Held)
    ensures CanLift(c, k.u) && Flushing(Lifted(c, k.u), k, Flush(c.w.attached[k.op.blk]))
  {}

  lemma FlushWrites(c: C, k: Cast, id: nat)
    requires Flushing(c, k, Flush(id))
    ensures CanLift(c, k.u) && Flushing(Lifted(c, k.u), k, Detach(id))
  {}

  lemma FlushDetaches(c: C, k: Cast, id: nat)
    requires Flushing(c, k, Detach(id))
    ensures CanLift(c, k.u) && Flushing(Lifted(c, k.u), k, Free(id))
  {}

  lemma ScanRun(c0: C, acts0: seq<Act>, c1: C, k: Cast) returns (acts: seq<Act>, c: C)
    requires CRuns(c0, acts0, c1) && Scene(c1, k, Off, Off, []) && k.op.blk !in c1.rl.table
    ensures CRuns(c0, acts, c) && Scene(c, k, Off, Off, [k.op.blk])
  {
    ScanBegins(c1, k);
    var a := NewScan(k.t, k.op.blk, k.op.blk + 1);
    CRunSnoc(c0, acts0, c1, a);
    acts, c := acts0 + [a], CApply(c1, a);
    ScanLocks(c, k);
    acts := RunStep(c0, acts, c, k.t);
    c := Stepped(c, k.t);
    ScanMisses(c, k);
    acts := RunStep(c0, acts, c, k.t);
    c := Stepped(c, k.t);
    ScanSends(c, k);
    acts := RunStep(c0, acts, c, k.t);
    c := Stepped(c, k.t);
    ScanEnds(c, k);
    acts := RunStep(c0, acts, c, k.t);
    c := Stepped(c, k.t);
  }

  lemma FetchRun(c0: C, acts0: seq<Act>, c1: C, k: Cast) returns (acts: seq<Act>, c: C)
    requires CRuns(c0, acts0, c1) && Scene(c1, k, Off, Off, [k.op.blk])
    ensures CRuns(c0, acts, c) && Scene(c, k, Off, FetchDone(k.op.blk), []) && CachesOld(c, k)
  {
    FetchReceives(c1, k);
    CRunSnoc(c0, acts0, c1, Recv(k.p));
    acts, c := acts0 + [Recv(k.p)], CApply(c1, Recv(k.p));
    FetchReads(c, k);
    acts := RunStep(c0, acts, c, k.p);
    c := Stepped(c, k.p);
    FetchCaches(c, k);
    acts := RunStep(c0, acts, c, k.p);
    c := Stepped(c, k.p);
  }

  lemma FlushStarts(c0: C, acts0: seq<Act>, c1: C, k: Cast) returns (acts: seq<Act>, c: C)
    requires CRuns(c0, acts0, c1) && Scene(c1, k, Off, FetchDone(k.op.blk), []) && CachesOld(c1, k)
    ensures CRuns(c0, acts, c) && Flushing(c, k, Wait)
  {
    FlushBegins(c1, k);
    CRunSnoc(c0, acts0, c1, Lift(BeginFlush(k.t)));
    acts, c := acts0 + [Lift(BeginFlush(k.t))], CApply(c1, Lift(BeginFlush(k.t)));
    FlushSpawns(c, k);
    var a := Lift(Spawn(k.u, k.t, k.op.blk));
    CRunSnoc(c0, acts, c, a);
    acts, c := acts + [a], CApply(c, a);
  }

  lemma FlushRun(c0: C, acts0: seq<Act>, c1: C, k: Cast) returns (acts: seq<Act>, c: C, id: nat)
    requires CRuns(c0, acts0, c1) && Flushing(c1, k, Wait)
    ensures CRuns(c0, acts, c) && Flushing(c, k, Free(id))
  {
    FlushLocks(c1, k);
    acts := RunLift(c0, acts0, c1, k.u);
    c := Lifted(c1, k.u);
    id := c.w.attached[k.op.blk];
    FlushFinds(c, k);
    acts := RunLift(c0, acts, c, k.u);
    c := Lifted(c, k.u);
    FlushWrites(c, k, id);
    acts := RunLift(c0, acts, c, k.u);
    c := Lifted(c, k.u);
    FlushDetaches(c, k, id);
    acts := RunLift(c0, acts, c, k.u);
    c := Lifted(c, k.u);
  }

  /** At the end the cached block lacks op's first byte, which the server has, and nobody is about to clean it. */
  lemma OldIsStale(c: C, k: Cast, id: nat)
    requires Flushing(c, k, Free(id))
    ensures k.op.blk in c.r && !Pending(c, k.op.blk) && c.r[k.op.blk] != Block(c.w.server, k.op.blk) &&
            !Agrees(c, k.op.blk)
  {
    OpChanges(k);
    NotDirty(c.w, k.op.blk, k.op.off);
    assert k.op.off < BLOCK && At(c.r[k.op.blk], k.op.off) != At(c.w.server, k.op.blk * BLOCK + k.op.off);
  }

  lemma OpChanges(k: Cast)
    requires k.Ok()
    ensures At(Block(k.f, k.op.blk), k.op.off) != At(k.op.Do(k.f), k.op.blk * BLOCK + k.op.off)
    ensures Block(k.f, k.op.blk) != Block(k.op.Do(k.f), k.op.blk)
  {
    var p := k.op.FileOffset();
    AtDo(k.f, k.op, p);
    assert Block(k.f, k.op.blk)[k.op.off] == At(k.f, p);
    assert Block(k.op.Do(k.f), k.op.blk)[k.op.off] == At(k.op.Do(k.f), p);
  }

  lemma NotDirty(s: W, b: nat, o: nat)
    requires b !in s.attached && o < BLOCK
    ensures !Dirty(s.Cells(), b * BLOCK + o)
  {
    assert (b * BLOCK + o) / BLOCK == b;
  }

  lemma SceneSet(c0: C, c: C, k: Cast)
    requires CStart(c0) && k.Ok() && Written(c0, c, k.t, k.op) && c0.w.server == k.f
    requires CacheMachine.Free(c0, k.u) && k.p in c0.pworkers
    ensures Scene(c, k, Off, Off, []) && k.op.blk !in c.rl.table
  {
    assert forall v :: v in c.rpc && v != k.t ==> c.R(v) == c0.R(v);
  }

  /**
   * A Write that is buffered, the prefetch of its block, and then a Flush: the block is in the read cache without the
   * written bytes, no buffer has them any more, and no cleaning is due.
   */
  lemma PrefetchGoesStale(c0: C, k: Cast) returns (acts: seq<Act>, c: C)
    requires CStart(c0) && k.Ok() && c0.w.server == k.f && c0.w.free != []
    requires CacheMachine.Free(c0, k.t) && CacheMachine.Free(c0, k.u) && k.p in c0.pworkers
    ensures CRuns(c0, acts, c)
    ensures k.op.blk in c.r && !Pending(c, k.op.blk) && c.r[k.op.blk] != Block(c.w.server, k.op.blk) &&
            !Agrees(c, k.op.blk)
  {
    acts, c := WriteAlone(c0, k.t, k.op);
    SceneSet(c0, c, k);
    acts, c := ScanRun(c0, acts, c, k);
    acts, c := FetchRun(c0, acts, c, k);
    acts, c := FlushStarts(c0, acts, c, k);
    var id;
    acts, c, id := FlushRun(c0, acts, c, k);
    OldIsStale(c, k, id);
  }

  // ---------- one file that shows both ----------

  /** A one-byte file, one buffer, no background writer, one prefetch worker. */
  function OneByte(): C {
    C(W(Config(false, 0, {}, 0), [5], map[], map[0 := Buffer(0, Cell(0, []), 0)], [0], [], [], 0,
        LockState(map[], map[], map[]), map[], 0, map[0 := InFree], [5], []),
      LockState(map[], map[], map[]), map[], [], 1, {9}, map[], false)
  }

  lemma OneByteStarts()
    ensures CStart(OneByte()) && !OneByte().written && OneByte().w.free != [] && 9 in OneByte().pworkers
    ensures forall t :: t != 9 ==> CacheMachine.Free(OneByte(), t)
  {}

  lemma Misses() returns (acts: seq<Act>, c: C)
    ensures CRuns(OneByte(), acts, c) && c.R(1) == Bare(0, 0, 1, BGot([5])) && ViewAtByte(c.w, 0) == 7
  {
    OneByteStarts();
    acts, c := BareReadMisses(OneByte(), 1, 2, Op(0, 0, [7]));
  }

  lemma GoesStale() returns (acts: seq<Act>, c: C)
    ensures CRuns(OneByte(), acts, c) && 0 in c.r && !Pending(c, 0) && c.r[0] != Block(c.w.server, 0)
  {
    OneByteStarts();
    acts, c := PrefetchGoesStale(OneByte(), Cast(1, 2, 9, Op(0, 0, [7]), [5]));
  }
}
