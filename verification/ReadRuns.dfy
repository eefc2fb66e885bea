/** What a reader returns while others write, flush, expire and prefetch. */
module ReadRuns {
  import opened FlatFile
  import opened Overlay
  import opened WriteMachine
  import opened WriteInv
  import opened WriteTheorems
  import opened CacheMachine
  import opened CacheInv
  import opened NoDeadlock
  import opened CacheRuns
  import opened Coherence

  // ---------- a step leaves the blocks alone that its goroutine does not hold ----------

  lemma LookupFocus(s: W, t: nat)
    requires PoolInv(s) && LruInv(s) && Acts(s, t) && s.threads[t].stage.Held?
    ensures Focus(s, StepLookup(s, t), t, s.threads[t].job.Blk())
  {
    if s.threads[t].job.Blk() in s.attached { FoundLocal(s, t); }
    else if StepLookup(s, t).threads[t].stage.Fresh? { AllocLocal(s, t); }
  }

  lemma MergeFocus(s: W, t: nat)
    requires PoolInv(s) && Acts(s, t) && s.threads[t].stage.Own?
    ensures Focus(s, StepMerge(s, t), t, s.threads[t].job.Blk())
  {
    if s.Buf(s.threads[t].stage.id).cell.CanMerge(s.threads[t].job.Cur().off) { MergeLocal(s, t); }
  }

  lemma RunFocus(s: W, t: nat, o: Outcome)
    requires PoolInv(s) && LruInv(s) && JobInv(s) && Acts(s, t)
    ensures Focus(s, StepRun(s, t, o), t, s.threads[t].job.Blk())
  {
    match s.threads[t].stage
    case Wait => AcquireFocus(s, t);
    case Held => LookupFocus(s, t);
    case Direct => DirectLocal(s, t, o);
    case Release => ReleaseThreads(s, t);
    case Fresh(_) => AttachLocal(s, t);
    case Own(_) => MergeFocus(s, t);
    case Flush(_) => WriteBackLocal(s, t, o);
    case Reset(_) => ResetLocal(s, t);
    case Detach(_) => DetachLocal(s, t);
    case Free(_) => FreePool(s, t);
    case Send(_) => SendFocus(s, t);
    case Touch(_) => TouchLocal(s, t);
  }

  lemma AcquireFocus(s: W, t: nat)
    requires CanRun(s, t) && s.threads[t].stage.Wait?
    ensures Focus(s, StepAcquire(s, t), t, s.threads[t].job.Blk())
  {}

  lemma SendFocus(s: W, t: nat)
    requires CanRun(s, t) && s.threads[t].stage.Send?
    ensures Focus(s, StepSend(s, t), t, s.threads[t].job.Blk())
  {}

  /** Block b reads the same in both states. */
  ghost predicate BlockSame(s: W, s': W, b: nat) {
    && (b in s.Cells() <==> b in s'.Cells()) && (b in s.Cells() ==> s'.Cells()[b] == s.Cells()[b])
    && Block(s'.server, b) == Block(s.server, b)
  }

  lemma AcquireSame(s: W, t: nat, o: Outcome, b: nat)
    requires CanRun(s, t) && s.threads[t].stage.Wait?
    ensures BlockSame(s, StepRun(s, t, o), b)
  {
    CellsSame(s, StepRun(s, t, o));
  }

  lemma FocusSame(s: W, s': W, t: nat, b: nat, own: nat)
    requires PoolInv(s) && Focus(s, s', t, own) && own != b && Block(s'.server, b) == Block(s.server, b)
    ensures BlockSame(s, s', b)
  {
    if b in s.attached { assert Elsewhere(s, t, own, s.attached[b]); }
  }

  lemma RunSame(s: W, t: nat, o: Outcome, b: nat)
    requires PoolInv(s) && LruInv(s) && JobInv(s) && Acts(s, t) && !HoldsT(s, t, b)
    ensures BlockSame(s, StepRun(s, t, o), b)
  {
    if s.threads[t].stage.Wait? {
      AcquireSame(s, t, o, b);
    } else {
      var op := RunServer(s, t, o);
      if StepRun(s, t, o).server != s.server { BlockStable(s.server, op, b); }
      RunFocus(s, t, o);
      FocusSame(s, StepRun(s, t, o), t, b, s.threads[t].job.Blk());
    }
  }

  /** A block that someone holds for reading does not change. */
  lemma SharedSame(s: W, x: Action, u: nat, b: nat)
    requires Inv(s) && Enabled(s, x) && SharesT(s, u, b)
    ensures BlockSame(s, Apply(s, x), b)
  {
    if x.Run? {
      assert Acts(s, x.t);
      assert !HoldsT(s, x.t, b);
      RunSame(s, x.t, x.o, b);
    } else {
      OtherSame(s, x);
      CellsSame(s, Apply(s, x));
    }
  }

  // ---------- the reader ----------

  /** Byte o of block b, as the view has it. */
  ghost function ViewByte(s: W, b: nat, o: nat): Byte { ViewAt(s.server, s.Cells(), b * BLOCK + o) }

  predicate Buffered(cells: Cells, b: nat, o: nat) { b in cells && cells[b].Covers(o) }

  lemma ViewByteIs(s: W, b: nat, o: nat)
    requires o < BLOCK
    ensures ViewByte(s, b, o) ==
              if Buffered(s.Cells(), b, o) then s.Cells()[b].data[o - s.Cells()[b].off] else Block(s.server, b)[o]
  {
    var p := b * BLOCK + o;
    assert p / BLOCK == b && p % BLOCK == o;
  }

  /** The bytes in the reader's hands are right where no write buffer has newer ones; after the merge, everywhere. */
  ghost predicate ReadOk(s: W, pc: RPc)
    requires pc.Reader?
  {
    && pc.off + pc.n <= BLOCK
    && match pc.rst
       case RGot(d, good) => good ==> |d| == pc.n && forall i :: 0 <= i < pc.n ==>
           Buffered(s.Cells(), pc.b, pc.off + i) || d[i] == Block(s.server, pc.b)[pc.off + i]
       case RHold(d, good) => good ==> |d| == pc.n && forall i :: 0 <= i < pc.n ==>
           Buffered(s.Cells(), pc.b, pc.off + i) || d[i] == Block(s.server, pc.b)[pc.off + i]
       case RMerged(d, good) =>
         good ==> |d| == pc.n && forall i :: 0 <= i < pc.n ==> d[i] == ViewByte(s, pc.b, pc.off + i)
       case _ => true
  }

  lemma ReadOkSame(s: W, s': W, pc: RPc)
    requires pc.Reader? && ReadOk(s, pc) && BlockSame(s, s', pc.b)
    ensures ReadOk(s', pc)
  {
    if pc.rst.RMerged? && pc.rst.good {
      forall i | 0 <= i < pc.n ensures pc.rst.data[i] == ViewByte(s', pc.b, pc.off + i) {
        ViewByteIs(s, pc.b, pc.off + i);
        ViewByteIs(s', pc.b, pc.off + i);
      }
    }
  }

  /** Each step of the reader keeps its bytes right. */
  lemma ReaderOk(c: C, t: nat, ok: bool)
    requires c.R(t).Reader? && CanStep(c, t) && ReadOk(c.w, c.R(t))
    ensures ReaderStep(c, t, ok).R(t).Reader? ==> ReadOk(c.w, ReaderStep(c, t, ok).R(t))
  {
    var pc := c.R(t);
    match pc.rst
    case RHave => ReadOpOk(c, pc);
    case RHold(d, good) => if good { MergeOk(c.w, pc); }
    case _ =>
  }

  lemma ReadOpOk(c: C, pc: RPc)
    requires pc.Reader? && pc.off + pc.n <= BLOCK
    ensures ReadOk(c.w, pc.(rst := RGot(ReadOp(c, pc.b, pc.off, pc.n), Agrees(c, pc.b))))
  {
    if Agrees(c, pc.b) {
      forall i | 0 <= i < pc.n
        ensures || Buffered(c.w.Cells(), pc.b, pc.off + i)
                || ReadOp(c, pc.b, pc.off, pc.n)[i] == Block(c.w.server, pc.b)[pc.off + i]
      {
        SourceAgrees(c, pc.b, pc.off + i);
        assert ReadOp(c, pc.b, pc.off, pc.n)[i] == CachedByte(c, pc.b, pc.off + i);
      }
    }
  }

  /** An agreeing source has the server's byte where no write buffer covers it. */
  lemma SourceAgrees(c: C, b: nat, o: nat)
    requires Agrees(c, b) && o < BLOCK
    ensures Buffered(c.w.Cells(), b, o) || CachedByte(c, b, o) == Block(c.w.server, b)[o]
  {
    var p := b * BLOCK + o;
    assert p / BLOCK == b && p % BLOCK == o;
    assert Block(c.w.server, b)[o] == At(c.w.server, p);
  }

  lemma MergeOk(s: W, pc: RPc)
    requires pc.Reader? && pc.rst.RHold? && pc.rst.good && ReadOk(s, pc)
    ensures ReadOk(s, pc.(rst := RMerged(MergeBytes(s.Cells(), pc.b, pc.off, pc.rst.data), true)))
  {
    forall i | 0 <= i < pc.n
      ensures MergeBytes(s.Cells(), pc.b, pc.off, pc.rst.data)[i] == ViewByte(s, pc.b, pc.off + i)
    {
      ViewByteIs(s, pc.b, pc.off + i);
    }
  }

  ghost predicate ReadInv(c: C) { forall t :: c.R(t).Reader? ==> ReadOk(c.w, c.R(t)) }

  /** A reader that has read is protected by its read lock in the write cache. */
  lemma ReaderStable(c: C, x: Action, t: nat)
    requires CInv(c) && Enabled(c.w, x) && c.R(t).Reader? && ReadOk(c.w, c.R(t))
    ensures ReadOk(Apply(c.w, x), c.R(t))
  {
    if !c.R(t).rst.RWant? {
      assert LinkOk(c, t);
      assert SharesT(c.w, t, c.R(t).b);
      SharedSame(c.w, x, t, c.R(t).b);
      ReadOkSame(c.w, Apply(c.w, x), c.R(t));
    }
  }

  lemma LiftReads(c: C, x: Action)
    requires CInv(c) && ReadInv(c) && CEnabled(c, Lift(x))
    ensures ReadInv(LiftStep(c, x))
  {
    var c' := LiftStep(c, x);
    forall t | c'.R(t).Reader? ensures ReadOk(c'.w, c'.R(t)) {
      assert c'.R(t) == c.R(t);
      ReaderStable(c, x, t);
    }
  }

  lemma StepReads(c: C, t: nat, ok: bool)
    requires ReadInv(c) && CanStep(c, t)
    ensures ReadInv(CApply(c, Step(t, ok)))
  {
    var c' := CApply(c, Step(t, ok));
    StepSide(c, t, ok);
    CellsSame(c.w, c'.w);
    if c.R(t).Reader? { ReaderOk(c, t, ok); }
    forall u | c'.R(u).Reader? ensures ReadOk(c'.w, c'.R(u)) {
      StepRead(c, t, ok, u);
      assert BlockSame(c.w, c'.w, c'.R(u).b);
      ReadOkSame(c.w, c'.w, c'.R(u));
    }
  }

  lemma StepRead(c: C, t: nat, ok: bool, u: nat)
    requires ReadInv(c) && CanStep(c, t) && CApply(c, Step(t, ok)).R(u).Reader?
    requires c.R(t).Reader? && ReaderStep(c, t, ok).R(t).Reader? ==> ReadOk(c.w, ReaderStep(c, t, ok).R(t))
    ensures ReadOk(c.w, CApply(c, Step(t, ok)).R(u))
  {
    if u != t { assert CApply(c, Step(t, ok)).R(u) == c.R(u); }
  }

  lemma NewReads(c: C, a: Act)
    requires ReadInv(c) && CEnabled(c, a) && !a.Lift? && !a.Step?
    ensures ReadInv(CApply(c, a))
  {
    var c' := CApply(c, a);
    CellsSame(c.w, c'.w);
    forall u | c'.R(u).Reader? ensures ReadOk(c'.w, c'.R(u)) {
      if u != a.t {
        assert c'.R(u) == c.R(u);
        assert BlockSame(c.w, c'.w, c'.R(u).b);
        ReadOkSame(c.w, c'.w, c'.R(u));
      }
    }
  }

  lemma {:induction false} ReadRun(c: C, acts: seq<Act>, c': C)
    requires CInv(c) && ReadInv(c) && CRuns(c, acts, c')
    ensures ReadInv(c')
    decreases |acts|
  {
    if acts != [] {
      match acts[0] {
        case Lift(x) => LiftReads(c, x);
        case Step(t, ok) => StepReads(c, t, ok);
        case _ => NewReads(c, acts[0]);
      }
      CStepKeeps(c, acts[0]);
      ReadRun(CApply(c, acts[0]), acts[1..], c');
    }
  }

  /**
   * In every run, whatever others do meanwhile, for a reader that holds the block in the write cache: its bytes are the
   * view's bytes at the moment of the merge, provided the cached block agreed with the server outside the write buffer
   * when it was read.
   */
  lemma ReadSeesView(c0: C, acts: seq<Act>, c: C, t: nat, i: nat)
    requires CStart(c0) && CRuns(c0, acts, c) && c.R(t).Reader? && c.R(t).rst.RMerged? && c.R(t).rst.good &&
            i < c.R(t).n
    ensures var pc := c.R(t);
            |pc.rst.data| == pc.n && pc.rst.data[i] == At(ViewOf(c.w), pc.b * BLOCK + pc.off + i)
  {
    ReadReachable(c0, acts, c);
    SeesView(c.w, c.R(t), i);
  }

  lemma ReadReachable(c0: C, acts: seq<Act>, c: C)
    requires CStart(c0) && CRuns(c0, acts, c)
    ensures PoolInv(c.w) && ReadInv(c)
  {
    CStartInv(c0);
    ReadRun(c0, acts, c);
    CRunInv(c0, acts, c);
  }

  lemma SeesView(s: W, pc: RPc, i: nat)
    requires PoolInv(s) && pc.Reader? && ReadOk(s, pc) && pc.rst.RMerged? && pc.rst.good && i < pc.n
    ensures |pc.rst.data| == pc.n && pc.rst.data[i] == At(ViewOf(s), pc.b * BLOCK + pc.off + i)
  {
    CellsAreOk(s);
    AtView(s.server, s.Cells(), pc.b * BLOCK + pc.off + i);
  }

  // ---------- when that proviso holds ----------

  ghost predicate NoPrefetch(c: C) { c.pworkers == {} && c.r == map[] }

  lemma {:induction false} NoPrefetchRun(c: C, acts: seq<Act>, c': C)
    requires CInv(c) && NoPrefetch(c) && CRuns(c, acts, c')
    ensures NoPrefetch(c')
    decreases |acts|
  {
    if acts != [] {
      NoPrefetchStep(c, acts[0]);
      CStepKeeps(c, acts[0]);
      NoPrefetchRun(CApply(c, acts[0]), acts[1..], c');
    }
  }

  lemma NoPrefetchStep(c: C, a: Act)
    requires LinkInv(c) && NoPrefetch(c) && CEnabled(c, a)
    ensures NoPrefetch(CApply(c, a))
  {
    if a.Step? { assert LinkOk(c, a.t); }
  }

  /** Always with prefetch off. */
  lemma AgreesWithoutPrefetch(c0: C, acts: seq<Act>, c: C, b: nat)
    requires CStart(c0) && CRuns(c0, acts, c) && c0.pworkers == {}
    ensures Agrees(c, b)
  {
    CStartInv(c0);
    NoPrefetchRun(c0, acts, c);
  }

  /** And, in runs that prefetch only blocks without a write buffer, whenever no Write has still to clean the block. */
  lemma AgreesWhenClean(c0: C, acts: seq<Act>, c: C, b: nat)
    requires CStart(c0) && CRuns(c0, acts, c) && CarefulRun(c0, acts) && !Pending(c, b)
    ensures Agrees(c, b)
  {
    if b in c.r { CachesCoherent(c0, acts, c, b); }
  }

  // ---------- so every read of such runs is right ----------

  /** a is the step in which a locked reader looks at the read cache or the server. */
  predicate Looks(c: C, a: Act) { a.Step? && c.R(a.t).Reader? && c.R(a.t).rst.RHave? }

  /** t looks in some step of the run. */
  ghost predicate LooksIn(c: C, acts: seq<Act>, t: nat)
    decreases |acts|
  {
    acts != [] && CEnabled(c, acts[0]) &&
    ((Looks(c, acts[0]) && acts[0].t == t) || LooksIn(CApply(c, acts[0]), acts[1..], t))
  }

  /** In the run from c0 to c, step k is t's last look, and c1 is the state in which it looks. */
  ghost predicate LastLook(c0: C, acts: seq<Act>, k: nat, c1: C, c: C, t: nat) {
    && k < |acts| && CRuns(c0, acts, c) && CRuns(c0, acts[..k], c1)
    && CEnabled(c1, acts[k]) && Looks(c1, acts[k]) && acts[k].t == t
    && CRuns(CApply(c1, acts[k]), acts[k + 1..], c) && !LooksIn(CApply(c1, acts[k]), acts[k + 1..], t)
  }

  predicate HasRead(pc: RPc) { pc.Reader? && (pc.rst.RGot? || pc.rst.RHold? || pc.rst.RMerged?) }

  predicate GoodPc(pc: RPc) { HasRead(pc) ==> pc.rst.good }

  lemma OwnLook(c: C, t: nat, ok: bool)
    requires CanStep(c, t)
    ensures var pc, pc' := c.R(t), CApply(c, Step(t, ok)).R(t);
            && (Looks(c, Step(t, ok)) && Agrees(c, pc.b) ==> GoodPc(pc'))
            && (!Looks(c, Step(t, ok)) ==> (GoodPc(pc) ==> GoodPc(pc')) && (HasRead(pc') ==> HasRead(pc)))
  {}

  /** Whoever does not look keeps what it has read, and so does t while others look. */
  lemma NoLook(c: C, a: Act, t: nat)
    requires CEnabled(c, a) && !(Looks(c, a) && a.t == t)
    ensures var pc, pc' := c.R(t), CApply(c, a).R(t); (GoodPc(pc) ==> GoodPc(pc')) && (HasRead(pc') ==> HasRead(pc))
  {
    if a.Step? {
      if a.t == t { OwnLook(c, t, a.ok); } else { StepPoint(c, a.t, a.ok); }
    }
  }

  lemma {:induction false} StaysGood(c: C, acts: seq<Act>, c': C, t: nat)
    requires CRuns(c, acts, c') && !LooksIn(c, acts, t)
    ensures (GoodPc(c.R(t)) ==> GoodPc(c'.R(t))) && (HasRead(c'.R(t)) ==> HasRead(c.R(t)))
    decreases |acts|
  {
    if acts != [] {
      NoLook(c, acts[0], t);
      StaysGood(CApply(c, acts[0]), acts[1..], c', t);
    }
  }

  lemma {:induction false} FindLook(c0: C, acts: seq<Act>, c: C, t: nat) returns (k: nat, c1: C)
    requires CRuns(c0, acts, c) && LooksIn(c0, acts, t)
    ensures LastLook(c0, acts, k, c1, c, t)
    decreases |acts|
  {
    var c' := CApply(c0, acts[0]);
    if LooksIn(c', acts[1..], t) {
      k, c1 := FindLook(c', acts[1..], c, t);
      CRunCons(c0, acts[0], acts[1..][..k], c1);
      assert acts[..k + 1] == [acts[0]] + acts[1..][..k] && acts[k + 2..] == acts[1..][k + 1..];
      k := k + 1;
    } else {
      k, c1 := 0, c0;
      assert acts[..0] == [];
    }
  }

  /** Whoever has bytes of a block has looked at it. */
  lemma LookedAt(c0: C, acts: seq<Act>, c: C, t: nat) returns (k: nat, c1: C)
    requires CStart(c0) && CRuns(c0, acts, c) && HasRead(c.R(t))
    ensures LastLook(c0, acts, k, c1, c, t)
  {
    if !LooksIn(c0, acts, t) { StaysGood(c0, acts, c, t); }
    k, c1 := FindLook(c0, acts, c, t);
  }

  /** t has merged byte i, and it is the view's. */
  ghost predicate ReadsView(c: C, t: nat, i: nat)
    requires c.R(t).Reader? && c.R(t).rst.RMerged?
  {
    var pc := c.R(t);
    i < pc.n && |pc.rst.data| == pc.n && pc.rst.data[i] == At(ViewOf(c.w), pc.b * BLOCK + pc.off + i)
  }

  lemma LooksGood(c0: C, acts: seq<Act>, k: nat, c1: C, c: C, t: nat)
    requires LastLook(c0, acts, k, c1, c, t) && Agrees(c1, c1.R(t).b)
    ensures GoodPc(c.R(t))
  {
    OwnLook(c1, t, acts[k].ok);
    StaysGood(CApply(c1, acts[k]), acts[k + 1..], c, t);
  }

  lemma ReadsWhenAgreed(c0: C, acts: seq<Act>, k: nat, c1: C, c: C, t: nat, i: nat)
    requires CStart(c0) && LastLook(c0, acts, k, c1, c, t) && Agrees(c1, c1.R(t).b)
    requires c.R(t).Reader? && c.R(t).rst.RMerged? && i < c.R(t).n
    ensures ReadsView(c, t, i)
  {
    LooksGood(c0, acts, k, c1, c, t);
    ReadSeesView(c0, acts, c, t, i);
  }

  /** With prefetch off, every locked reader of every run returns the view's bytes, all of them. */
  lemma ReadsWithoutPrefetch(c0: C, acts: seq<Act>, c: C, t: nat, i: nat)
    requires CStart(c0) && CRuns(c0, acts, c) && c0.pworkers == {}
    requires c.R(t).Reader? && c.R(t).rst.RMerged? && i < c.R(t).n
    ensures ReadsView(c, t, i)
  {
    var k, c1 := LookedAt(c0, acts, c, t);
    AgreesWithoutPrefetch(c0, acts[..k], c1, c1.R(t).b);
    ReadsWhenAgreed(c0, acts, k, c1, c, t, i);
  }

  /**
   * With careful prefetch, so does every reader that looked at its block when no Write had still to clean it, whatever
   * other readers met and whatever happens after the look.
   */
  lemma ReadsWhenSettled(c0: C, acts: seq<Act>, k: nat, c1: C, c: C, t: nat, i: nat)
    requires CStart(c0) && LastLook(c0, acts, k, c1, c, t) && CarefulRun(c0, acts[..k]) && !Pending(c1, c1.R(t).b)
    requires c.R(t).Reader? && c.R(t).rst.RMerged? && i < c.R(t).n
    ensures ReadsView(c, t, i)
  {
    AgreesWhenClean(c0, acts[..k], c1, c1.R(t).b);
    ReadsWhenAgreed(c0, acts, k, c1, c, t, i);
  }

  // ---------- a locked reader gets its bytes ----------

  /** The source of byte o of block b: the cached block if there is one, else the server. */
  predicate FromSource(c: C, b: nat, o: nat, v: Byte) {
    v == if b in c.r then At(c.r[b], o) else At(c.w.server, b * BLOCK + o)
  }

  lemma LookGets(c: C, t: nat, ok: bool)
    requires LinkOk(c, t) && c.R(t).Reader? && c.R(t).rst.RHave?
    ensures CanStep(c, t)
    ensures var pc, c' := c.R(t), CApply(c, Step(t, ok));
            && c'.R(t).Reader? && c'.R(t).n == pc.n && c'.R(t).b == pc.b && c'.w == c.w
            && (c'.R(t).rst.RGot? || c'.R(t).rst.RFailed?) && (c'.R(t).rst.RGot? <==> ok || pc.b in c.r)
            && (c'.R(t).rst.RGot? ==>
                  |c'.R(t).rst.data| == pc.n && forall i :: 0 <= i < pc.n ==>
                          FromSource(c, pc.b, pc.off + i, c'.R(t).rst.data[i]))
  {
    var pc := c.R(t);
    forall i | 0 <= i < pc.n ensures FromSource(c, pc.b, pc.off + i, ReadOp(c, pc.b, pc.off, pc.n)[i]) {
      assert ReadOp(c, pc.b, pc.off, pc.n)[i] == CachedByte(c, pc.b, pc.off + i);
    }
  }

  /**
   * In every reachable state, a locked reader that looks gets the bytes of the cached block, or else of the server; it
   * fails exactly when the block is not cached and the server does not answer.
   */
  lemma ReaderGets(c0: C, acts: seq<Act>, c: C, t: nat, ok: bool)
    requires CStart(c0) && CRuns(c0, acts, c) && c.R(t).Reader? && c.R(t).rst.RHave?
    ensures CanStep(c, t)
    ensures var pc, pc' := c.R(t), CApply(c, Step(t, ok)).R(t);
            && pc'.Reader? && (pc'.rst.RGot? || pc'.rst.RFailed?) && (pc'.rst.RGot? <==> ok || pc.b in c.r)
            && (pc'.rst.RGot? ==>
                  |pc'.rst.data| == pc.n && forall i :: 0 <= i < pc.n ==>
                          FromSource(c, pc.b, pc.off + i, pc'.rst.data[i]))
  {
    ReachInv(c0, acts, c);
    assert LinkOk(c, t);
    LookGets(c, t, ok);
  }

  /** And then nothing keeps it from merging them: two more steps of its own. */
  lemma ReaderMerges(c0: C, acts: seq<Act>, c: C, t: nat) returns (c': C)
    requires CStart(c0) && CRuns(c0, acts, c) && c.R(t).Reader? && c.R(t).rst.RGot?
    ensures CRuns(c, [Step(t, true), Step(t, true)], c') && c'.R(t).Reader? && c'.R(t).rst.RMerged?
    ensures c'.R(t).b == c.R(t).b && c'.R(t).off == c.R(t).off && c'.R(t).n == c.R(t).n && c'.w == c.w
  {
    ReachInv(c0, acts, c);
    assert LinkOk(c, t);
    c' := MergeSteps(c, t);
  }

  lemma MergeSteps(c: C, t: nat) returns (c': C)
    requires LinkOk(c, t) && c.R(t).Reader? && c.R(t).rst.RGot?
    ensures CRuns(c, [Step(t, true), Step(t, true)], c') && c'.R(t).Reader? && c'.R(t).rst.RMerged?
    ensures c'.R(t).b == c.R(t).b && c'.R(t).off == c.R(t).off && c'.R(t).n == c.R(t).n && c'.w == c.w
  {
    var c1 := CApply(c, Step(t, true));
    c' := CApply(c1, Step(t, true));
    CRunCons(c1, Step(t, true), [], c');
    CRunCons(c, Step(t, true), [Step(t, true)], c');
    assert [Step(t, true)] + [] == [Step(t, true)] && [Step(t, true)] + [Step(t, true)] == [Step(t, true),
            Step(t, true)];
  }

  // ---------- why prefetch has to avoid buffered blocks ----------

  /** The buffer of b holds nothing that the server does not have. */
  ghost predicate NothingNew(s: W, b: nat)
    requires b in s.Cells()
  {
    forall i: nat :: i < |s.Cells()[b].data| ==> s.Cells()[b].data[i] == At(s.server, b * BLOCK + s.Cells()[b].off + i)
  }

  /** The block after its buffer has been written over it. */
  lemma BlockFlushed(s: W, b: nat, o: nat)
    requires PoolInv(s) && b in s.attached && o < BLOCK
    ensures var cell := s.Cells()[b];
            Block(Op(b, cell.off, cell.data).Do(s.server), b)[o] ==
              if cell.Covers(o) then cell.data[o - cell.off] else Block(s.server, b)[o]
  {
    var cell := s.Cells()[b];
    var op := Op(b, cell.off, cell.data);
    CellsAreOk(s);
    BlockOf(op, b * BLOCK + o);
    AtWrite(s.server, op.FileOffset(), op.data, b * BLOCK + o);
  }

  lemma BlockUnchanged(s: W, b: nat)
    requires PoolInv(s) && b in s.attached
    ensures var cell := s.Cells()[b];
            Block(Op(b, cell.off, cell.data).Do(s.server), b) == Block(s.server, b) <==> NothingNew(s, b)
  {
    var cell := s.Cells()[b];
    var after, before := Block(Op(b, cell.off, cell.data).Do(s.server), b), Block(s.server, b);
    CellsAreOk(s);
    forall o: nat | o < BLOCK ensures after[o] == if cell.Covers(o) then cell.data[o - cell.off] else before[o] {
      BlockFlushed(s, b, o);
    }
    if after == before {
      forall i: nat | i < |cell.data| ensures cell.data[i] == At(s.server, b * BLOCK + cell.off + i) {
        assert after[cell.off + i] == before[cell.off + i];
      }
    }
    if NothingNew(s, b) {
      forall o: nat | o < BLOCK ensures after[o] == before[o] {
        if cell.Covers(o) { assert cell.data[o - cell.off] == At(s.server, b * BLOCK + cell.off + (o - cell.off)); }
      }
    }
  }

  /**
   * Flushing does not touch the read cache.  In every run, when the buffer of a block is written back that is cached
   * and right, the cached block stays right exactly when the buffer brings nothing new.
   */
  lemma FlushStales(c0: C, acts: seq<Act>, c: C, t: nat, b: nat)
    requires CStart(c0) && CRuns(c0, acts, c) && b in c.r && c.r[b] == Block(c.w.server, b) && b in c.w.attached
    requires c.w.At(t) && c.w.threads[t].stage.Flush? && c.w.threads[t].job.Blk() == b
    ensures b in c.w.Cells() && CEnabled(c, Lift(Run(t, Done)))
    ensures var c' := CApply(c, Lift(Run(t, Done)));
            b in c'.r && (c'.r[b] == Block(c'.w.server, b) <==> NothingNew(c.w, b))
  {
    RunStages(c0, acts, c);
    StalesHere(c, t, b);
  }

  lemma RunStages(c0: C, acts: seq<Act>, c: C)
    requires CStart(c0) && CRuns(c0, acts, c)
    ensures PoolInv(c.w) && StageInv(c.w)
  {
    CStartInv(c0);
    CRunInv(c0, acts, c);
  }

  lemma StalesHere(c: C, t: nat, b: nat)
    requires PoolInv(c.w) && StageInv(c.w) && b in c.r && c.r[b] == Block(c.w.server, b) && b in c.w.attached
    requires c.w.At(t) && c.w.threads[t].stage.Flush? && c.w.threads[t].job.Blk() == b
    ensures b in c.w.Cells() && CEnabled(c, Lift(Run(t, Done)))
    ensures var c' := CApply(c, Lift(Run(t, Done)));
            b in c'.r && (c'.r[b] == Block(c'.w.server, b) <==> NothingNew(c.w, b))
  {
    FlushedServer(c.w, t);
    BlockUnchanged(c.w, b);
    FlushLifts(c, t);
  }

  lemma FlushLifts(c: C, t: nat)
    requires c.w.At(t) && c.w.threads[t].stage.Flush?
    ensures CEnabled(c, Lift(Run(t, Done)))
    ensures var c' := CApply(c, Lift(Run(t, Done))); c'.r == c.r && c'.w == StepRun(c.w, t, Done)
  {}

  lemma FlushedServer(s: W, t: nat)
    requires PoolInv(s) && StageInv(s) && s.At(t) && s.threads[t].stage.Flush?
    ensures var b := s.threads[t].job.Blk();
            && b in s.Cells()
            && StepRun(s, t, Done).server == Op(b, s.Cells()[b].off, s.Cells()[b].data).Do(s.server)
  {
    assert StageOkT(s, t);
  }
}
