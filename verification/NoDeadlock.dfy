/** While anything is unfinished in either cache, some goroutine can take a real step. */
module NoDeadlock {
  import opened Overlay
  import opened Locks
  import opened WriteMachine
  import opened CacheMachine
  import opened CacheInv

  /** A step of something already under way: not a new call, not the clock. */
  predicate Real(a: Act) {
    match a
    case Lift(x) =>
      x.Run? || x.Receive? || x.Spawn? || x.EndFlush? || x.RunStat? || x.LockRead? ||
              (x.Other? && (x.e.Take? || x.e.Back?))
    case Step(_, _) => true
    case Recv(_) => true
    case _ => false
  }

  ghost predicate CanMove(c: C) { exists a :: CEnabled(c, a) && Real(a) }

  predicate Unfinished(c: C, t: nat) { (t in c.w.threads && !c.w.threads[t].Idle?) || !c.R(t).Off? }

  lemma Moves1(c: C, a: Act)
    requires CEnabled(c, a) && Real(a)
    ensures CanMove(c)
  {}

  // ---------- workers take no lock, so they can always go on ----------

  lemma SyncMoves(c: C)
    requires CInv(c) && (c.w.queue != [] || c.w.others > 0)
    ensures CanMove(c)
  {
    var t :| t in c.w.cfg.workers;
    if c.w.threads[t].Busy? {
      assert StageOkT(c.w, t);
      WorkerMoves(c, t);
    } else {
      IdleWorkerMoves(c, t);
    }
  }

  lemma WorkerMoves(c: C, t: nat)
    requires c.w.At(t) && c.w.threads[t].job.SyncJob? && StageOkT(c.w, t)
    ensures CanMove(c)
  {
    Moves1(c, Lift(Run(t, Done)));
  }

  lemma IdleWorkerMoves(c: C, t: nat)
    requires t in c.w.cfg.workers && t in c.w.threads && (c.w.threads[t].Idle? || c.w.threads[t].Abroad?)
    requires c.w.queue != [] || c.w.others > 0
    ensures CanMove(c)
  {
    if c.w.threads[t].Abroad? {
      Moves1(c, Lift(Other(Back(t))));
    } else if c.w.queue != [] {
      Moves1(c, Lift(Receive(t)));
    } else {
      Moves1(c, Lift(Other(Take(t))));
    }
  }

  lemma PrefetchMoves(c: C)
    requires CInv(c) && c.pq != []
    ensures CanMove(c)
  {
    var t :| t in c.pworkers;
    assert LinkOk(c, t);
    if c.R(t).Off? { Moves1(c, Recv(t)); } else { Moves1(c, Step(t, true)); }
  }

  // ---------- whoever holds a lock can go on, or waits for something further down ----------

  /** The holder of a block of the read cache waits for nothing but room in the prefetch channel. */
  lemma ReadHolderMoves(c: C, t: nat, b: nat)
    requires CInv(c) && RHoldsT(c, t, b)
    ensures CanMove(c)
  {
    assert LinkOk(c, t);
    if c.R(t).Scan? && c.R(t).sst.SSend? && |c.pq| >= c.pcap {
      PrefetchMoves(c);
    } else {
      Moves1(c, Step(t, true));
    }
  }

  /** Whoever waits for block b of the read cache waits for someone who can go on. */
  lemma ReadWaitMoves(c: C, b: nat)
    requires CInv(c) && b in c.rl.table
    ensures CanMove(c)
  {
    if c.rl.table[b].WriteLock? {
      if c.rl.excl[b].Thread? { ReadHolderMoves(c, c.rl.excl[b].t, b); } else { PrefetchMoves(c); }
    } else {
      var t :| t in c.rl.Readers(b);
      assert RSharesT(c, t, b) && LinkOk(c, t);
      Moves1(c, Step(t, true));
    }
  }

  /** A reader that holds its block of the write cache waits at most for the read cache. */
  lemma ReaderMoves(c: C, t: nat)
    requires CInv(c) && t in c.w.threads && c.w.threads[t].Reading? && c.w.threads[t].held
    ensures CanMove(c)
  {
    assert LinkOk(c, t);
    if c.R(t).rst.RWant? && !CanRLock(c.rl.table, c.R(t).b) {
      ReadWaitMoves(c, c.R(t).b);
    } else {
      Moves1(c, Step(t, true));
    }
  }

  /** The holder of a block of the write cache waits for nothing but room in the background channel. */
  lemma WriteHolderMoves(c: C, t: nat, b: nat)
    requires CInv(c) && HoldsT(c.w, t, b)
    ensures CanMove(c)
  {
    if c.w.threads[t].Stat? {
      Moves1(c, Lift(RunStat(t)));
    } else if c.w.threads[t].stage.Send? && |c.w.queue| + c.w.others >= c.w.cfg.cap {
      assert StageOkT(c.w, t);
      SyncMoves(c);
    } else {
      Moves1(c, Lift(Run(t, Done)));
    }
  }

  lemma WriteWaitMoves(c: C, b: nat)
    requires CInv(c) && b in c.w.lk.table
    ensures CanMove(c)
  {
    if c.w.lk.table[b].WriteLock? {
      if c.w.lk.excl[b].Thread? { WriteHolderMoves(c, c.w.lk.excl[b].t, b); } else { SyncMoves(c); }
    } else {
      var t :| t in c.w.lk.Readers(b);
      assert SharesT(c.w, t, b);
      ReaderMoves(c, t);
    }
  }

  lemma BusyMoves(c: C, t: nat)
    requires CInv(c) && c.w.At(t)
    ensures CanMove(c)
  {
    var b := c.w.threads[t].job.Blk();
    if !c.w.threads[t].stage.Wait? {
      assert HoldsT(c.w, t, b);
      WriteHolderMoves(c, t, b);
    } else if CanLock(c.w.lk.table, b) {
      Moves1(c, Lift(Run(t, Done)));
    } else {
      WriteWaitMoves(c, b);
    }
  }

  lemma FreshGoroutine(c: C) returns (u: nat)
    ensures CacheMachine.Free(c, u)
  {
    u := Upper(c.w.threads.Keys + c.rpc.Keys + c.pworkers + c.w.cfg.workers) + 1;
  }

  lemma SpawnMoves(c: C, t: nat)
    requires t in c.w.threads && c.w.threads[t].Gather? && c.w.threads[t].left != {} && c.w.threads[t].out == map[]
    ensures CanMove(c)
  {
    var b :| b in c.w.threads[t].left;
    var u := FreshGoroutine(c);
    Moves1(c, Lift(Spawn(u, t, b)));
  }

  /** A Flush waits for a worker, can start its first one, or can end. */
  lemma GatherMoves(c: C, t: nat)
    requires CInv(c) && t in c.w.threads && c.w.threads[t].Gather?
    ensures CanMove(c)
  {
    var g := c.w.threads[t];
    if g.out != map[] {
      var b :| b in g.out;
      BusyMoves(c, g.out[b]);
    } else if g.left != {} {
      SpawnMoves(c, t);
    } else {
      Moves1(c, Lift(EndFlush(t)));
    }
  }

  lemma StatMoves1(c: C, t: nat)
    requires CInv(c) && AtStat(c.w, t)
    ensures CanMove(c)
  {
    if c.w.threads[t].at.Want? && !CanLock(c.w.lk.table, c.w.threads[t].at.u) {
      WriteWaitMoves(c, c.w.threads[t].at.u);
    } else {
      Moves1(c, Lift(RunStat(t)));
    }
  }

  /** A goroutine that is busy in the read cache only. */
  lemma ReadSideMoves(c: C, t: nat)
    requires CInv(c) && !c.R(t).Off? && !c.R(t).Reader? && !c.R(t).Writer?
    ensures CanMove(c)
  {
    var pc := c.R(t);
    if pc.Scan? && pc.sst.SWant? && pc.lo < pc.hi && !CanLock(c.rl.table, pc.lo) {
      ReadWaitMoves(c, pc.lo);
    } else if pc.Clean? && pc.cst.CWant? && pc.lo < pc.hi && !CanLock(c.rl.table, pc.lo) {
      ReadWaitMoves(c, pc.lo);
    } else if pc.Bare? && pc.bst.BWant? && !CanRLock(c.rl.table, pc.b) {
      ReadWaitMoves(c, pc.b);
    } else if pc.Scan? && pc.sst.SSend? {
      ReadHolderMoves(c, t, pc.lo);
    } else {
      Moves1(c, Step(t, true));
    }
  }

  /** No deadlock in any state that satisfies the invariant. */
  lemma SomeoneMoves(c: C, t: nat)
    requires CInv(c) && Unfinished(c, t)
    ensures CanMove(c)
  {
    assert LinkOk(c, t);
    if t in c.w.threads && !c.w.threads[t].Idle? {
      match c.w.threads[t]
      case Busy(_, _, _) => BusyMoves(c, t);
      case Gather(_, _, _, _, _) => GatherMoves(c, t);
      case Stat(_, _) => StatMoves1(c, t);
      case Abroad => Moves1(c, Lift(Other(Back(t))));
      case Reading(b, held) =>
        if held { ReaderMoves(c, t); }
        else if CanRLock(c.w.lk.table, b) { Moves1(c, Lift(LockRead(t))); }
        else { WriteWaitMoves(c, b); }
    } else {
      ReadSideMoves(c, t);
    }
  }

  // ---------- over all runs ----------

  lemma CStartInv(c: C)
    requires CStart(c)
    ensures CInv(c)
  {
    WStartInv(c.w);
    CStartLinks(c);
  }

  lemma WStartInv(s: W)
    requires Start(s)
    ensures Inv(s)
  {
    WStartPool(s);
    assert s.Cells() == map[];
    EmptyView(s.server);
  }

  lemma WStartPool(s: W)
    requires Start(s)
    ensures PoolInv(s) && LruInv(s) && OwnInv(s) && QueueInv(s)
  {}

  lemma CStartLinks(c: C)
    requires CStart(c)
    ensures ROwnInv(c) && PqInv(c) && LinkInv(c)
  {}

  lemma {:induction false} CRunInv(c: C, acts: seq<Act>, c': C)
    requires CInv(c) && CRuns(c, acts, c')
    ensures CInv(c')
    decreases |acts|
  {
    if acts != [] {
      CStepKeeps(c, acts[0]);
      CRunInv(CApply(c, acts[0]), acts[1..], c');
    }
  }

  /**
   * In every reachable state with an unfinished read, write, flush, size query, prefetch or cleaning, some goroutine
   * can take a real step.
   */
  lemma NeverStuck(c0: C, acts: seq<Act>, c: C, t: nat)
    requires CStart(c0) && CRuns(c0, acts, c) && Unfinished(c, t)
    ensures CanMove(c)
  {
    CStartInv(c0);
    CRunInv(c0, acts, c);
    SomeoneMoves(c, t);
  }
}
