/** Every step of the combined machine keeps its invariant. */
module CacheInv {
  import opened Locks
  import opened WriteMachine
  import opened WriteInv
  import opened WriteTheorems
  import opened Durability
  import opened CacheMachine

  // ---------- the read cache's lock table and the prefetch channel ----------

  ghost predicate RTable(c: C) { ROwnInv(c) && PqInv(c) }

  lemma RFrame(c: C, c': C)
    requires RTable(c) && c'.rl == c.rl && c'.pq == c.pq && c'.pcap == c.pcap && c'.pworkers == c.pworkers
    requires forall u, x :: RHoldsT(c', u, x) <==> RHoldsT(c, u, x)
    requires forall u, x :: RSharesT(c', u, x) <==> RSharesT(c, u, x)
    ensures RTable(c')
  {}

  /** The channel does not change, and neither does what it owns. */
  lemma PqSame(c: C, c': C)
    requires PqInv(c) && c'.pq == c.pq && c'.pcap == c.pcap && c'.pworkers == c.pworkers
    requires forall b :: b in c.rl.excl && c.rl.excl[b].Queue? <==> b in c'.rl.excl && c'.rl.excl[b].Queue?
    ensures PqInv(c')
  {}

  lemma ROwnLock(c: C, c': C, t: nat, b: nat)
    requires ROwnInv(c) && CanLock(c.rl.table, b) && c'.rl == c.rl.Lock(b, t)
    requires forall u, x :: RHoldsT(c', u, x) <==> RHoldsT(c, u, x) || (u == t && x == b)
    requires forall u, x :: RSharesT(c', u, x) <==> RSharesT(c, u, x)
    ensures ROwnInv(c')
  {
    c.rl.LockKeeps(b, t);
  }

  lemma RLockOne(c: C, c': C, t: nat, b: nat)
    requires RTable(c) && CanLock(c.rl.table, b) && c'.rl == c.rl.Lock(b, t)
    requires c'.pq == c.pq && c'.pcap == c.pcap && c'.pworkers == c.pworkers
    requires forall u, x :: RHoldsT(c', u, x) <==> RHoldsT(c, u, x) || (u == t && x == b)
    requires forall u, x :: RSharesT(c', u, x) <==> RSharesT(c, u, x)
    ensures RTable(c')
  {
    ROwnLock(c, c', t, b);
    assert b !in c.rl.excl;
    PqSame(c, c');
  }

  lemma ROwnUnlock(c: C, c': C, t: nat, b: nat)
    requires ROwnInv(c) && RHoldsT(c, t, b) && c'.rl == c.rl.Unlock(b)
    requires forall u, x :: RHoldsT(c', u, x) <==> RHoldsT(c, u, x) && u != t
    requires forall u, x :: RSharesT(c', u, x) <==> RSharesT(c, u, x)
    ensures ROwnInv(c')
  {
    c.rl.UnlockKeeps(b);
  }

  lemma RUnlockOne(c: C, c': C, t: nat, b: nat)
    requires RTable(c) && RHoldsT(c, t, b) && c'.rl == c.rl.Unlock(b)
    requires c'.pq == c.pq && c'.pcap == c.pcap && c'.pworkers == c.pworkers
    requires forall u, x :: RHoldsT(c', u, x) <==> RHoldsT(c, u, x) && u != t
    requires forall u, x :: RSharesT(c', u, x) <==> RSharesT(c, u, x)
    ensures RTable(c')
  {
    ROwnUnlock(c, c', t, b);
    PqSame(c, c');
  }

  lemma ROwnSend(c: C, c': C, t: nat, b: nat)
    requires ROwnInv(c) && RHoldsT(c, t, b) && c'.rl == c.rl.Pass(b, Queue)
    requires forall u, x :: RHoldsT(c', u, x) <==> RHoldsT(c, u, x) && u != t
    requires forall u, x :: RSharesT(c', u, x) <==> RSharesT(c, u, x)
    ensures ROwnInv(c')
  {
    c.rl.PassKeeps(b, Queue);
  }

  lemma RSendOne(c: C, c': C, t: nat, b: nat)
    requires RTable(c) && RHoldsT(c, t, b) && c'.rl == c.rl.Pass(b, Queue) && |c.pq| < c.pcap && c.pworkers != {}
    requires c'.pq == c.pq + [b] && c'.pcap == c.pcap && c'.pworkers == c.pworkers
    requires forall u, x :: RHoldsT(c', u, x) <==> RHoldsT(c, u, x) && u != t
    requires forall u, x :: RSharesT(c', u, x) <==> RSharesT(c, u, x)
    ensures RTable(c')
  {
    ROwnSend(c, c', t, b);
    assert b !in c.pq;
    assert forall x :: x in c'.pq <==> x in c.pq || x == b;
  }

  lemma RRecvOne(c: C, c': C, t: nat)
    requires ROwnInv(c) && PqInv(c) && c.pq != [] && c'.rl == c.rl.Pass(c.pq[0], Thread(t))
    requires forall u, x :: RHoldsT(c', u, x) <==> RHoldsT(c, u, x) || (u == t && x == c.pq[0])
    requires forall u, x :: RSharesT(c', u, x) <==> RSharesT(c, u, x)
    ensures ROwnInv(c')
  {
    assert c.pq[0] in c.pq;
    c.rl.PassKeeps(c.pq[0], Thread(t));
  }

  lemma PqRecv(c: C, c': C, t: nat)
    requires PqInv(c) && c.pq != [] && c'.rl == c.rl.Pass(c.pq[0], Thread(t)) && c'.pq == c.pq[1..]
    requires c'.pcap == c.pcap && c'.pworkers == c.pworkers
    ensures PqInv(c')
  {
    TailIs(c.pq);
  }

  lemma ROwnShare(c: C, c': C, t: nat, b: nat)
    requires ROwnInv(c) && CanRLock(c.rl.table, b) && (forall x :: !RSharesT(c, t, x)) && c'.rl == c.rl.RLock(b, t)
    requires forall u, x :: RHoldsT(c', u, x) <==> RHoldsT(c, u, x)
    requires forall u, x :: RSharesT(c', u, x) <==> RSharesT(c, u, x) || (u == t && x == b)
    ensures ROwnInv(c')
  {
    assert t !in c.rl.shared;
    c.rl.RLockKeeps(b, t);
  }

  lemma RShareOne(c: C, c': C, t: nat, b: nat)
    requires RTable(c) && CanRLock(c.rl.table, b) && (forall x :: !RSharesT(c, t, x)) && c'.rl == c.rl.RLock(b, t)
    requires c'.pq == c.pq && c'.pcap == c.pcap && c'.pworkers == c.pworkers
    requires forall u, x :: RHoldsT(c', u, x) <==> RHoldsT(c, u, x)
    requires forall u, x :: RSharesT(c', u, x) <==> RSharesT(c, u, x) || (u == t && x == b)
    ensures RTable(c')
  {
    ROwnShare(c, c', t, b);
    PqSame(c, c');
  }

  lemma ROwnUnshare(c: C, c': C, t: nat, b: nat)
    requires ROwnInv(c) && RSharesT(c, t, b) && c'.rl == c.rl.RUnlock(b, t)
    requires forall u, x :: RHoldsT(c', u, x) <==> RHoldsT(c, u, x)
    requires forall u, x :: RSharesT(c', u, x) <==> RSharesT(c, u, x) && u != t
    ensures ROwnInv(c')
  {
    c.rl.RUnlockKeeps(b, t);
  }

  lemma RUnshareOne(c: C, c': C, t: nat, b: nat)
    requires RTable(c) && RSharesT(c, t, b) && c'.rl == c.rl.RUnlock(b, t)
    requires c'.pq == c.pq && c'.pcap == c.pcap && c'.pworkers == c.pworkers
    requires forall u, x :: RHoldsT(c', u, x) <==> RHoldsT(c, u, x)
    requires forall u, x :: RSharesT(c', u, x) <==> RSharesT(c, u, x) && u != t
    ensures RTable(c')
  {
    ROwnUnshare(c, c', t, b);
    PqSame(c, c');
  }

  lemma ReaderTable(c: C, t: nat, ok: bool)
    requires RTable(c) && c.R(t).Reader? && CanStep(c, t)
    ensures RTable(ReaderStep(c, t, ok))
  {
    if c.R(t).rst.RWant? {
      ReaderEnters(c, t, ok);
    } else if c.R(t).rst.RGot? || c.R(t).rst.RFailed? {
      ReaderLeaves(c, t, ok);
    } else {
      ReaderGoes(c, t, ok);
    }
  }

  lemma ReaderGoes(c: C, t: nat, ok: bool)
    requires RTable(c) && c.R(t).Reader? && !c.R(t).rst.RWant? && !c.R(t).rst.RGot? && !c.R(t).rst.RFailed? &&
            CanStep(c, t)
    ensures RTable(ReaderStep(c, t, ok))
  {
    ReaderSame(c, t, ok);
    RFrame(c, ReaderStep(c, t, ok));
  }

  lemma ReaderSame(c: C, t: nat, ok: bool)
    requires c.R(t).Reader? && !c.R(t).rst.RWant? && !c.R(t).rst.RGot? && !c.R(t).rst.RFailed? && CanStep(c, t)
    ensures var c' := ReaderStep(c, t, ok);
            && c'.rl == c.rl && c'.pq == c.pq && c'.pcap == c.pcap && c'.pworkers == c.pworkers
            && t in c'.rpc && c'.rpc == c.rpc[t := c'.rpc[t]]
            && forall b :: !RHoldsT(c', t, b) && (RSharesT(c', t, b) <==> RSharesT(c, t, b))
  {}

  lemma ReaderEnters(c: C, t: nat, ok: bool)
    requires RTable(c) && c.R(t).Reader? && CanStep(c, t) && c.R(t).rst.RWant?
    ensures RTable(ReaderStep(c, t, ok))
  {
    RShareOne(c, ReaderStep(c, t, ok), t, c.R(t).b);
  }

  lemma ReaderLeaves(c: C, t: nat, ok: bool)
    requires RTable(c) && c.R(t).Reader? && CanStep(c, t) && (c.R(t).rst.RGot? || c.R(t).rst.RFailed?)
    ensures RTable(ReaderStep(c, t, ok))
  {
    ReaderLeft(c, t, ok);
    assert RSharesT(c, t, c.R(t).b);
    RUnshareOne(c, ReaderStep(c, t, ok), t, c.R(t).b);
  }

  lemma ReaderLeft(c: C, t: nat, ok: bool)
    requires c.R(t).Reader? && CanStep(c, t) && (c.R(t).rst.RGot? || c.R(t).rst.RFailed?)
    ensures Leaves(c, ReaderStep(c, t, ok), t, c.R(t).b)
  {}

  /** t gives its read lock on b back and moves to a point without locks; nothing else changes. */
  ghost predicate Leaves(c: C, c': C, t: nat, b: nat) {
    && c'.rl == c.rl.RUnlock(b, t) && c'.pq == c.pq && c'.pcap == c.pcap && c'.pworkers == c.pworkers
    && t in c'.rpc && c'.rpc == c.rpc[t := c'.rpc[t]]
    && (forall x :: !RHoldsT(c, t, x) && !RHoldsT(c', t, x) && !RSharesT(c', t, x))
  }

  lemma BareTable(c: C, t: nat, ok: bool)
    requires RTable(c) && c.R(t).Bare? && CanStep(c, t)
    ensures RTable(BareStep(c, t, ok))
  {
    var pc := c.R(t);
    if pc.bst.BWant? {
      RShareOne(c, BareStep(c, t, ok), t, pc.b);
    } else if pc.bst.BGot? || pc.bst.BFailed? {
      BareLeaves(c, t, ok);
    } else {
      RFrame(c, BareStep(c, t, ok));
    }
  }

  lemma BareLeaves(c: C, t: nat, ok: bool)
    requires RTable(c) && c.R(t).Bare? && CanStep(c, t) && (c.R(t).bst.BGot? || c.R(t).bst.BFailed?)
    ensures RTable(BareStep(c, t, ok))
  {
    BareLeft(c, t, ok);
    assert RSharesT(c, t, c.R(t).b);
    RUnshareOne(c, BareStep(c, t, ok), t, c.R(t).b);
  }

  lemma BareLeft(c: C, t: nat, ok: bool)
    requires c.R(t).Bare? && CanStep(c, t) && (c.R(t).bst.BGot? || c.R(t).bst.BFailed?)
    ensures Leaves(c, BareStep(c, t, ok), t, c.R(t).b)
  {}

  lemma ScanTable(c: C, t: nat)
    requires RTable(c) && c.R(t).Scan? && CanStep(c, t) && LinkOk(c, t)
    ensures RTable(ScanStep(c, t))
  {
    var pc := c.R(t);
    var c' := ScanStep(c, t);
    if pc.sst.SWant? && pc.lo < pc.hi {
      RLockOne(c, c', t, pc.lo);
    } else if pc.sst.SHave? && pc.lo in c.r {
      assert RHoldsT(c, t, pc.lo);
      RUnlockOne(c, c', t, pc.lo);
    } else if pc.sst.SSend? {
      assert RHoldsT(c, t, pc.lo);
      RSendOne(c, c', t, pc.lo);
    } else {
      RFrame(c, c');
    }
  }

  lemma CleanTable(c: C, t: nat)
    requires RTable(c) && c.R(t).Clean? && CanStep(c, t)
    ensures RTable(CleanStep(c, t))
  {
    var pc := c.R(t);
    var c' := CleanStep(c, t);
    if pc.cst.CWant? && pc.lo < pc.hi {
      RLockOne(c, c', t, pc.lo);
    } else if pc.cst.CGone? {
      assert RHoldsT(c, t, pc.lo);
      RUnlockOne(c, c', t, pc.lo);
    } else {
      RFrame(c, c');
    }
  }

  lemma FetchTable(c: C, t: nat, ok: bool)
    requires RTable(c) && (c.R(t).Fetch? || c.R(t).Fetched? || c.R(t).FetchDone?)
    ensures RTable(FetchStep(c, t, ok))
  {
    if c.R(t).FetchDone? {
      assert RHoldsT(c, t, c.R(t).b);
      RUnlockOne(c, FetchStep(c, t, ok), t, c.R(t).b);
    } else {
      RFrame(c, FetchStep(c, t, ok));
    }
  }

  // ---------- the write cache's program points ----------

  /** A step of the write machine by t leaves the kind of everybody's work alone. */
  ghost predicate SameKind(s: W, s': W, t: nat) {
    && Moves(s, s', t) && KeepsJob(s, s', t)
    && (forall u :: u != t && Reports(s, t, u) ==>
          u in s.threads && s.threads[u].Gather? && u in s'.threads && s'.threads[u].Gather?)
  }

  ghost predicate KeepsJob(s: W, s': W, t: nat) {
    && s.At(t) && s'.cfg == s.cfg
    && (s'.At(t) ==> (s'.threads[t].job.WriteJob? <==> s.threads[t].job.WriteJob?))
    && (s'.At(t) && s.threads[t].job.WriteJob? ==> s'.threads[t].job.ops == s.threads[t].job.ops)
  }

  lemma RunKind(s: W, t: nat, o: Outcome)
    requires CanRun(s, t) && JobOk(s, t, s.threads[t].job)
    ensures SameKind(s, StepRun(s, t, o), t)
  {
    RunMoves(s, t, o);
    RunJob(s, t, o);
    if s.threads[t].stage.Release? { ReleaseGather(s, t); }
  }

  lemma ReleaseGather(s: W, t: nat)
    requires AtStage(s, t, Release) && JobOk(s, t, s.threads[t].job)
    ensures forall u :: u != t && Reports(s, t, u) ==>
              u in s.threads && s.threads[u].Gather? && StepRelease(s, t).threads[u].Gather?
  {}

  lemma RunJob(s: W, t: nat, o: Outcome)
    requires CanRun(s, t)
    ensures KeepsJob(s, StepRun(s, t, o), t)
  {
    if WritingOut(s.threads[t].stage) { OutJob(s, t, o); } else { BufferJob(s, t, o); }
  }

  lemma OutJob(s: W, t: nat, o: Outcome)
    requires CanRun(s, t) && !Buffering(s.threads[t].stage)
    ensures KeepsJob(s, StepRun(s, t, o), t)
  {
    var st := s.threads[t].stage;
    if st.Release? {
      assert KeepsJob(s, StepRelease(s, t), t);
    } else if st.Free? {
      assert KeepsJob(s, StepFree(s, t), t);
    }
  }

  lemma BufferJob(s: W, t: nat, o: Outcome)
    requires CanRun(s, t) && !WritingOut(s.threads[t].stage)
    ensures KeepsJob(s, StepRun(s, t, o), t)
  {
    var st := s.threads[t].stage;
    if st.Held? {
      assert KeepsJob(s, StepLookup(s, t), t);
    } else if st.Own? {
      assert KeepsJob(s, StepMerge(s, t), t);
    } else if st.Send? {
      assert KeepsJob(s, StepSend(s, t), t);
    }
  }

  lemma RecvTable(c: C, t: nat)
    requires RTable(c) && CEnabled(c, Recv(t))
    ensures RTable(RecvStep(c, t))
  {
    RRecvOne(c, RecvStep(c, t), t);
    PqRecv(c, RecvStep(c, t), t);
  }

  // ---------- the two program points of each goroutine ----------

  /** Nothing that the link of u speaks of has changed. */
  lemma LinkSame(c: C, c': C, u: nat)
    requires LinkOk(c, u) && c'.R(u) == c.R(u) && c'.pworkers == c.pworkers && c'.w.cfg == c.w.cfg
    requires u in c.w.threads <==> u in c'.w.threads
    requires u in c.w.threads ==>
              c'.w.threads[u] == c.w.threads[u] || (c.w.threads[u].Gather? && c'.w.threads[u].Gather?)
    ensures LinkOk(c', u)
  {}

  lemma RunLinks(c: C, x: Action)
    requires LinkInv(c) && JobInv(c.w) && x.Run? && Enabled(c.w, x)
    ensures LinkInv(LiftStep(c, x))
  {
    var c' := LiftStep(c, x);
    RunKind(c.w, x.t, x.o);
    forall u ensures LinkOk(c', u) {
      assert LinkOk(c, u);
      if u != x.t { LinkSame(c, c', u); }
    }
  }

  /** The other actions of the write machine that may be lifted. */
  lemma LiftLinks(c: C, x: Action)
    requires LinkInv(c) && JobInv(c.w) && CEnabled(c, Lift(x)) && !x.Run? && c.pworkers !! c.w.cfg.workers
    ensures LinkInv(LiftStep(c, x))
  {
    if x.RunStat? {
      StatLinks(c, x.t);
    } else if x.Other? {
      ForeignLinks(c, x.e);
    } else {
      PlainLinks(c, x);
    }
  }

  lemma StatLinks(c: C, t: nat)
    requires LinkInv(c) && CanStat(c.w, t)
    ensures LinkInv(LiftStep(c, RunStat(t)))
  {
    StatThreads(c.w, t);
    StatSame(c.w, t);
    var c' := LiftStep(c, RunStat(t));
    forall u ensures LinkOk(c', u) {
      assert LinkOk(c, u);
      if u != t { LinkSame(c, c', u); }
    }
  }

  lemma ForeignLinks(c: C, e: Foreign)
    requires LinkInv(c) && CanOther(c.w, e) && JobInv(c.w) && c.pworkers !! c.w.cfg.workers
    ensures LinkInv(LiftStep(c, Other(e)))
  {
    ForeignThreads(c.w, e);
    var c' := LiftStep(c, Other(e));
    forall u ensures LinkOk(c', u) { assert LinkOk(c, u); }
  }

  lemma PlainLinks(c: C, x: Action)
    requires LinkInv(c) && CEnabled(c, Lift(x)) && !x.Run? && !x.RunStat? && !x.Other? && c.pworkers !! c.w.cfg.workers
    ensures LinkInv(LiftStep(c, x))
  {
    var c' := LiftStep(c, x);
    forall u ensures LinkOk(c', u) { assert LinkOk(c, u); }
  }

  /** A step in the read cache by t: only t's point there changes, and a reader that ends leaves the write cache. */
  lemma StepLinks(c: C, t: nat, ok: bool)
    requires LinkInv(c) && CanStep(c, t)
    ensures LinkInv(CApply(c, Step(t, ok)))
  {
    var c' := CApply(c, Step(t, ok));
    assert LinkOk(c, t);
    StepLink(c, t, ok);
    forall u ensures LinkOk(c', u) {
      assert LinkOk(c, u);
      if u != t { StepOthers(c, t, ok, u); }
    }
  }

  lemma StepOthers(c: C, t: nat, ok: bool, u: nat)
    requires LinkOk(c, u) && CanStep(c, t) && u != t
    ensures LinkOk(CApply(c, Step(t, ok)), u)
  {
    StepSide(c, t, ok);
    StepPoint(c, t, ok);
    LinkSame(c, CApply(c, Step(t, ok)), u);
  }

  lemma StepPoint(c: C, t: nat, ok: bool)
    requires CanStep(c, t)
    ensures forall u :: u != t ==> CApply(c, Step(t, ok)).R(u) == c.R(u)
  {}

  lemma StepLink(c: C, t: nat, ok: bool)
    requires LinkOk(c, t) && CanStep(c, t)
    ensures LinkOk(CApply(c, Step(t, ok)), t)
  {
    if c.R(t).Reader? { ReaderLink(c, t, ok); }
    else if c.R(t).Bare? { BareLink(c, t, ok); }
    else if c.R(t).Scan? { ScanLink(c, t); }
    else if c.R(t).Clean? { CleanLink(c, t); }
    else { FetchLink(c, t, ok); }
  }

  lemma ReaderLink(c: C, t: nat, ok: bool)
    requires LinkOk(c, t) && c.R(t).Reader? && CanStep(c, t)
    ensures LinkOk(ReaderStep(c, t, ok), t)
  {}

  lemma BareLink(c: C, t: nat, ok: bool)
    requires LinkOk(c, t) && c.R(t).Bare? && CanStep(c, t)
    ensures LinkOk(BareStep(c, t, ok), t)
  {}

  lemma ScanLink(c: C, t: nat)
    requires LinkOk(c, t) && c.R(t).Scan? && CanStep(c, t)
    ensures LinkOk(ScanStep(c, t), t)
  {}

  lemma CleanLink(c: C, t: nat)
    requires LinkOk(c, t) && c.R(t).Clean? && CanStep(c, t)
    ensures LinkOk(CleanStep(c, t), t)
  {}

  lemma FetchLink(c: C, t: nat, ok: bool)
    requires LinkOk(c, t) && (c.R(t).Fetch? || c.R(t).Fetched? || c.R(t).FetchDone?)
    ensures LinkOk(FetchStep(c, t, ok), t)
  {}

  /** The caller begins something, or its next op. */
  predicate IsCall(a: Act) { a.NewWrite? || a.NewRead? || a.NewBare? || a.Again? || a.NewScan? || a.NewDrop? }

  lemma NewLinks(c: C, a: Act)
    requires LinkInv(c) && CEnabled(c, a) && (IsCall(a) || a.Recv?)
    requires c.pworkers !! c.w.cfg.workers
    ensures LinkInv(CApply(c, a))
  {
    var c' := CApply(c, a);
    forall u ensures LinkOk(c', u) {
      assert LinkOk(c, u);
      if u != a.t { LinkSame(c, c', u); }
    }
  }

  lemma CfgSame(s: W, x: Action)
    requires JobInv(s) && Enabled(s, x)
    ensures Apply(s, x).cfg == s.cfg
  {
    if x.Run? { RunKind(s, x.t, x.o); }
  }

  lemma LiftTable(c: C, x: Action)
    requires RTable(c) && Enabled(c.w, x)
    ensures RTable(LiftStep(c, x))
  {
    RFrame(c, LiftStep(c, x));
  }

  lemma LiftKeeps(c: C, x: Action)
    requires CInv(c) && CEnabled(c, Lift(x))
    ensures CInv(LiftStep(c, x))
  {
    LiftW(c, x);
    LiftTable(c, x);
    if x.Run? { RunLinks(c, x); } else { LiftLinks(c, x); }
  }

  lemma LiftW(c: C, x: Action)
    requires Inv(c.w) && Enabled(c.w, x)
    ensures var c' := LiftStep(c, x); Inv(c'.w) && c'.w.cfg == c.w.cfg && c'.pworkers == c.pworkers && c'.pcap == c.pcap
  {
    StepKeeps(c.w, x);
    CfgSame(c.w, x);
  }

  /** A call moves its goroutine from one point without locks to another. */
  lemma CallPoint(c: C, a: Act)
    requires CEnabled(c, a) && IsCall(a)
    ensures var c' := CApply(c, a);
            && c'.rl == c.rl && c'.pq == c.pq && c'.pcap == c.pcap && c'.pworkers == c.pworkers && c'.w.cfg == c.w.cfg
            && a.t in c'.rpc && c'.rpc == c.rpc[a.t := c'.rpc[a.t]]
    ensures forall b :: !RHoldsT(c, a.t, b) && !RSharesT(c, a.t, b)
    ensures forall b :: !RHoldsT(CApply(c, a), a.t, b) && !RSharesT(CApply(c, a), a.t, b)
  {}

  lemma NewTable(c: C, a: Act)
    requires RTable(c) && CEnabled(c, a) && IsCall(a)
    ensures var c' := CApply(c, a); RTable(c') && c'.w.cfg == c.w.cfg && c'.pworkers == c.pworkers && c'.pcap == c.pcap
  {
    CallPoint(c, a);
    RFrame(c, CApply(c, a));
  }

  lemma NewWriteSide(c: C, a: Act)
    requires Inv(c.w) && CEnabled(c, a) && IsCall(a)
    ensures Inv(CApply(c, a).w)
  {
    if a.NewWrite? { NewWriteInv(c, a); } else if a.NewRead? { NewReadInv(c, a); }
  }

  lemma NewWriteInv(c: C, a: Act)
    requires Inv(c.w) && CEnabled(c, a) && a.NewWrite?
    ensures Inv(CApply(c, a).w)
  {
    BeginWriteKeeps(c.w, a.t, a.ops);
  }

  lemma NewReadInv(c: C, a: Act)
    requires Inv(c.w) && CEnabled(c, a) && a.NewRead?
    ensures Inv(CApply(c, a).w)
  {
    assert CApply(c, a).w == c.w.Go(a.t, Reading(a.b, false));
    BeginReadKeeps(c.w, a.t, a.b);
  }

  lemma NewKeeps(c: C, a: Act)
    requires CInv(c) && CEnabled(c, a) && IsCall(a)
    ensures CInv(CApply(c, a))
  {
    NewTable(c, a);
    NewWriteSide(c, a);
    NewLinks(c, a);
  }

  lemma RecvKeeps(c: C, t: nat)
    requires CInv(c) && CEnabled(c, Recv(t))
    ensures CInv(RecvStep(c, t))
  {
    NewLinks(c, Recv(t));
    RecvTable(c, t);
  }

  /** Within the read cache, only a reader that ends touches the write cache. */
  lemma StepSide(c: C, t: nat, ok: bool)
    requires CanStep(c, t)
    ensures var c' := CApply(c, Step(t, ok));
            && c'.pworkers == c.pworkers && c'.pcap == c.pcap
            && (c'.w == c.w || (Enabled(c.w, EndRead(t)) && c'.w == StepEndRead(c.w, t)))
  {
    if c.R(t).Scan? {
      assert ScanStep(c, t).w == c.w;
    } else if c.R(t).Clean? {
      assert CleanStep(c, t).w == c.w;
    } else if !c.R(t).Reader? && !c.R(t).Bare? {
      assert FetchStep(c, t, ok).w == c.w;
    }
  }

  lemma StepTable(c: C, t: nat, ok: bool)
    requires RTable(c) && CanStep(c, t) && LinkOk(c, t)
    ensures RTable(CApply(c, Step(t, ok)))
  {
    if c.R(t).Reader? { ReaderTable(c, t, ok); }
    else if c.R(t).Bare? { BareTable(c, t, ok); }
    else if c.R(t).Scan? { ScanTable(c, t); }
    else if c.R(t).Clean? { CleanTable(c, t); }
    else { FetchTable(c, t, ok); }
  }

  lemma StepAllKeeps(c: C, t: nat, ok: bool)
    requires CInv(c) && CanStep(c, t)
    ensures CInv(CApply(c, Step(t, ok)))
  {
    StepSide(c, t, ok);
    if CApply(c, Step(t, ok)).w != c.w { EndReadKeeps(c.w, t); }
    StepTable(c, t, ok);
    StepLinks(c, t, ok);
  }

  lemma CStepKeeps(c: C, a: Act)
    requires CInv(c) && CEnabled(c, a)
    ensures CInv(CApply(c, a))
  {
    match a
    case Lift(x) => LiftKeeps(c, x);
    case Recv(t) => RecvKeeps(c, t);
    case Step(t, ok) => StepAllKeeps(c, t, ok);
    case _ => NewKeeps(c, a);
  }
}
