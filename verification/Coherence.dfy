/** What the read cache holds agrees with the server, and what a reader returns agrees with the view. */
module Coherence {
  import opened FlatFile
  import opened Overlay
  import opened WriteMachine
  import opened WriteInv
  import opened WriteTheorems
  import opened CacheMachine
  import opened CacheInv
  import opened NoDeadlock

  // ---------- coherence ----------

  /** t's Write covers block b and t has still to clean b out of the read cache. */
  predicate PendingBy(c: C, t: nat, b: nat) {
    match c.R(t)
    case Writer(lo, hi) => lo <= b < hi
    case Clean(lo, hi, st) => lo <= b < hi && !(st.CGone? && b == lo)
    case _ => false
  }

  ghost predicate Pending(c: C, b: nat) { exists t :: PendingBy(c, t, b) }

  predicate InFlight(c: C, t: nat, b: nat) { c.R(t).Fetched? && c.R(t).b == b }

  ghost predicate CohInv(c: C) {
    && (forall b :: b in c.r ==> c.r[b] == Block(c.w.server, b) || Pending(c, b))
    && (forall t, b :: InFlight(c, t, b) ==> c.R(t).data == Block(c.w.server, b) || Pending(c, b))
    && (forall b :: b in c.w.attached && b in c.r ==> Pending(c, b))
    && (forall t, b :: InFlight(c, t, b) && b in c.w.attached ==> Pending(c, b))
  }

  /** The server is asked for a block only while the block has no write buffer. */
  predicate Careful(c: C, a: Act) { a.Step? && c.R(a.t).Fetch? && a.ok ==> c.R(a.t).b !in c.w.attached }

  lemma BlockStable(f: Content, op: Op, b: nat)
    requires op.Ok() && op.blk != b
    ensures Block(op.Do(f), b) == Block(f, b)
  {
    forall o: nat | o < BLOCK ensures Block(op.Do(f), b)[o] == Block(f, b)[o] {
      BlockOf(op, b * BLOCK + o);
      AtWrite(f, op.FileOffset(), op.data, b * BLOCK + o);
    }
  }

  /** The server's block b and the buffer of b change only under a pending clean of b, or when b has a buffer. */
  ghost predicate Gentle(c: C, c': C) {
    && (forall b :: Block(c'.w.server, b) == Block(c.w.server, b) || b in c.w.attached || Pending(c, b))
    && (forall b :: b in c'.w.attached ==> b in c.w.attached || Pending(c, b))
  }

  lemma RunGentle(c: C, t: nat, o: Outcome)
    requires PoolInv(c.w) && Acts(c.w, t) && LinkOk(c, t)
    ensures var c' := LiftStep(c, Run(t, o)); Gentle(c, c')
  {
    var c' := LiftStep(c, Run(t, o));
    var op := RunServer(c.w, t, o);
    if c.w.threads[t].job.WriteJob? {
      assert PendingBy(c, t, c.w.threads[t].job.Blk());
    }
    ServerBlock(c.w, t, o, op);
    RunAttached(c.w, t, o);
    forall b ensures Block(c'.w.server, b) == Block(c.w.server, b) || b in c.w.attached || Pending(c, b) {
      if op.blk != b { BlockStable(c.w.server, op, b); }
    }
  }

  lemma ServerBlock(s: W, t: nat, o: Outcome, op: Op)
    requires Acts(s, t) && op.Ok()
    requires var s' := StepRun(s, t, o);
            || s'.server == s.server
            || (s'.server == op.Do(s.server) && op.blk in s.Cells() && s.Cells()[op.blk] == Cell(op.off, op.data))
            || (s'.server == op.Do(s.server) && s'.log == s.log + [op])
    ensures var s' := StepRun(s, t, o);
            || s'.server == s.server
            || (s'.server == op.Do(s.server) && (op.blk in s.attached ||
                    (s.threads[t].job.WriteJob? && op.blk == s.threads[t].job.Blk())))
  {
    WriterStage(s, t);
    RunLogs(s, t, o);
    if StepRun(s, t, o).log == s.log + [op] { SameLast(s.log, op, s.threads[t].job.Cur()); }
  }

  lemma RunAttached(s: W, t: nat, o: Outcome)
    requires Acts(s, t)
    ensures forall b :: b in StepRun(s, t, o).attached ==>
              b in s.attached || (s.threads[t].job.WriteJob? && b == s.threads[t].job.Blk())
  {
    WriterStage(s, t);
  }

  lemma LiftGentle(c: C, x: Action)
    requires CInv(c) && CEnabled(c, Lift(x))
    ensures Gentle(c, LiftStep(c, x))
  {
    if x.Run? {
      assert Acts(c.w, x.t) && LinkOk(c, x.t);
      RunGentle(c, x.t, x.o);
    } else {
      OtherSame(c.w, x);
    }
  }

  /** Steps that add nothing to the read cache and forget no pending clean. */
  lemma CohFrame(c: C, c': C)
    requires CohInv(c) && Gentle(c, c') && c'.r == c.r
    requires forall t, b :: PendingBy(c, t, b) ==> PendingBy(c', t, b)
    requires forall t, b :: InFlight(c', t, b) ==> InFlight(c, t, b) && c'.R(t) == c.R(t)
    ensures CohInv(c')
  {
    assert forall b :: Pending(c, b) ==> Pending(c', b);
  }

  lemma LiftCoh(c: C, x: Action)
    requires CInv(c) && CohInv(c) && CEnabled(c, Lift(x))
    ensures CohInv(LiftStep(c, x))
  {
    LiftGentle(c, x);
    LiftPending(c, x);
    CohFrame(c, LiftStep(c, x));
  }

  lemma LiftPending(c: C, x: Action)
    requires Enabled(c.w, x)
    ensures var c' := LiftStep(c, x);
            && c'.r == c.r && (forall t, b :: PendingBy(c, t, b) ==> PendingBy(c', t, b))
            && (forall t, b :: InFlight(c', t, b) ==> InFlight(c, t, b) && c'.R(t) == c.R(t))
  {}

  lemma CleanCoh(c: C, t: nat)
    requires CohInv(c) && ROwnInv(c) && c.R(t).Clean? && CanStep(c, t)
    ensures CohInv(CleanStep(c, t))
  {
    var c' := CleanStep(c, t);
    var pc := c.R(t);
    if pc.cst.CHave? {
      assert RHoldsT(c, t, pc.lo);
      forall b | Pending(c, b) && b != pc.lo ensures Pending(c', b) {
        var u :| PendingBy(c, u, b);
        assert PendingBy(c', u, b);
      }
      forall u, b | InFlight(c', u, b) ensures b != pc.lo && InFlight(c, u, b) && c'.R(u) == c.R(u) {
        assert RHoldsT(c, u, b);
      }
    } else {
      forall u, b | PendingBy(c, u, b) ensures PendingBy(c', u, b) {}
      CohFrame(c, c');
    }
  }

  lemma FetchCoh(c: C, t: nat, ok: bool)
    requires CohInv(c) && (c.R(t).Fetch? || c.R(t).Fetched? || c.R(t).FetchDone?) && Careful(c, Step(t, ok))
    ensures CohInv(FetchStep(c, t, ok))
  {
    var c' := FetchStep(c, t, ok);
    assert c.R(t).Fetched? ==> InFlight(c, t, c.R(t).b);
    forall u, b | PendingBy(c, u, b) ensures PendingBy(c', u, b) {}
    assert forall b :: Pending(c, b) ==> Pending(c', b);
    assert forall u, b :: InFlight(c', u, b) && u != t ==> InFlight(c, u, b);
  }

  /** A call, or a step of a reader or a scan: only its own goroutine moves. */
  predicate Plain(c: C, a: Act) { !a.Lift? && (a.Step? ==> c.R(a.t).Reader? || c.R(a.t).Bare? || c.R(a.t).Scan?) }

  lemma PlainSame(c: C, a: Act)
    requires CEnabled(c, a) && Plain(c, a)
    ensures Plainly(c, CApply(c, a), a.t)
  {
    if a.Step? { PlainStep(c, a.t, a.ok); }
  }

  ghost predicate Plainly(c: C, c': C, t: nat) {
    && c'.r == c.r && c'.w.server == c.w.server && c'.w.attached == c.w.attached
    && t in c'.rpc && c'.rpc == c.rpc[t := c'.rpc[t]]
    && (forall b :: !PendingBy(c, t, b) && !InFlight(c', t, b))
  }

  lemma ReaderPlain(c: C, t: nat, ok: bool)
    requires CanStep(c, t) && c.R(t).Reader?
    ensures Plainly(c, ReaderStep(c, t, ok), t)
  {}

  lemma BarePlain(c: C, t: nat, ok: bool)
    requires CanStep(c, t) && c.R(t).Bare?
    ensures Plainly(c, BareStep(c, t, ok), t)
  {}

  lemma ScanPlain(c: C, t: nat)
    requires CanStep(c, t) && c.R(t).Scan?
    ensures Plainly(c, ScanStep(c, t), t)
  {}

  lemma PlainStep(c: C, t: nat, ok: bool)
    requires CanStep(c, t) && (c.R(t).Reader? || c.R(t).Bare? || c.R(t).Scan?)
    ensures Plainly(c, CApply(c, Step(t, ok)), t)
  {
    if c.R(t).Reader? {
      ReaderPlain(c, t, ok);
    } else if c.R(t).Bare? {
      BarePlain(c, t, ok);
    } else {
      ScanPlain(c, t);
    }
  }

  lemma PlainCoh(c: C, a: Act)
    requires CohInv(c) && CEnabled(c, a) && Plain(c, a)
    ensures CohInv(CApply(c, a))
  {
    PlainSame(c, a);
    CohFrame(c, CApply(c, a));
  }

  lemma CohStep(c: C, a: Act)
    requires CInv(c) && CohInv(c) && CEnabled(c, a) && Careful(c, a)
    ensures CohInv(CApply(c, a))
  {
    match a
    case Lift(x) => LiftCoh(c, x);
    case Step(t, ok) =>
      if c.R(t).Clean? { CleanCoh(c, t); }
      else if c.R(t).Reader? || c.R(t).Bare? || c.R(t).Scan? { PlainCoh(c, a); }
      else { FetchCoh(c, t, ok); }
    case _ => PlainCoh(c, a);
  }

  ghost predicate CarefulRun(c: C, acts: seq<Act>)
    decreases |acts|
  {
    acts != [] && CEnabled(c, acts[0]) ==> Careful(c, acts[0]) && CarefulRun(CApply(c, acts[0]), acts[1..])
  }

  lemma {:induction false} CohRun(c: C, acts: seq<Act>, c': C)
    requires CInv(c) && CohInv(c) && CRuns(c, acts, c') && CarefulRun(c, acts)
    ensures CInv(c') && CohInv(c')
    decreases |acts|
  {
    if acts != [] {
      CohStep(c, acts[0]);
      CStepKeeps(c, acts[0]);
      CohRun(CApply(c, acts[0]), acts[1..], c');
    }
  }

  /**
   * In every run that prefetches a block only while it has no write buffer: once no Write still has to clean block b,
   * a cached b is exactly the server's zero-padded block, and b is not in both caches.
   */
  lemma CachesCoherent(c0: C, acts: seq<Act>, c: C, b: nat)
    requires CStart(c0) && CRuns(c0, acts, c) && CarefulRun(c0, acts) && !Pending(c, b) && b in c.r
    ensures c.r[b] == Block(c.w.server, b) && b !in c.w.attached
  {
    CStartInv(c0);
    CohRun(c0, acts, c);
  }
}
