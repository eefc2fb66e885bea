/**
 * Reads that begin before the file has a buffer in the write cache.  They never look at the write cache, not even when
 * a Write begins meanwhile, so they may miss what that Write has put there.
 */
module BareReads {
  import opened FlatFile
  import opened Overlay
  import opened WriteMachine
  import opened WriteInv
  import opened WriteTheorems
  import opened CacheMachine
  import opened CacheInv
  import opened NoDeadlock
  import opened Coherence
  import opened ReadRuns

  // ---------- before the first Write ----------

  predicate HasData(pc: RPc) { pc.Bare? && (pc.bst.BGot? || pc.bst.BDone?) }

  function ServerBytes(f: Content, b: nat, off: nat, n: nat): Content {
    seq<Byte>(n, i requires 0 <= i => At(f, b * BLOCK + off + i))
  }

  /** t is no writer, and what it has read is what the server has. */
  ghost predicate PointOk(c: C, t: nat) {
    var pc := c.R(t);
    && !pc.Writer?
    && (pc.Fetched? ==> pc.data == Block(c.w.server, pc.b))
    && (pc.Bare? ==> pc.off + pc.n <= BLOCK)
    && (HasData(pc) ==> pc.bst.data == ServerBytes(c.w.server, pc.b, pc.off, pc.n))
  }

  ghost predicate CachedOk(c: C) { forall b :: b in c.r ==> c.r[b] == Block(c.w.server, b) }

  /** Until the first Write begins nothing is buffered, and whatever was read is what the server has. */
  ghost predicate Untouched(c: C) { c.w.attached == map[] && CachedOk(c) && forall t :: PointOk(c, t) }

  ghost predicate FreshInv(c: C) { !c.written ==> Untouched(c) }

  /** Without a writer no step touches the server or the buffers. */
  lemma LiftUntouched(c: C, x: Action)
    requires CInv(c) && Untouched(c) && CEnabled(c, Lift(x))
    ensures Untouched(LiftStep(c, x)) && LiftStep(c, x).w.server == c.w.server
  {
    if x.Run? {
      assert Acts(c.w, x.t) && LinkOk(c, x.t) && PointOk(c, x.t);
      RunUntouched(c.w, x.t, x.o);
    } else {
      OtherSame(c.w, x);
    }
    UntouchedFrame(c, LiftStep(c, x));
  }

  lemma RunUntouched(s: W, t: nat, o: Outcome)
    requires PoolInv(s) && Acts(s, t) && s.attached == map[] && !s.threads[t].job.WriteJob?
    ensures StepRun(s, t, o).server == s.server && StepRun(s, t, o).attached == map[]
  {
    var op := RunServer(s, t, o);
    ServerBlock(s, t, o, op);
    RunAttached(s, t, o);
  }

  lemma UntouchedFrame(c: C, c': C)
    requires Untouched(c) && c'.w.server == c.w.server && c'.w.attached == map[] && c'.r == c.r
    requires forall t :: c'.R(t) == c.R(t)
    ensures Untouched(c')
  {
    forall t ensures PointOk(c', t) { assert PointOk(c, t); }
  }

  lemma ReadOpIsServer(c: C, b: nat, off: nat, n: nat)
    requires off + n <= BLOCK && (b in c.r ==> c.r[b] == Block(c.w.server, b))
    ensures ReadOp(c, b, off, n) == ServerBytes(c.w.server, b, off, n)
  {
    forall i | 0 <= i < n ensures ReadOp(c, b, off, n)[i] == ServerBytes(c.w.server, b, off, n)[i] {
      assert ReadOp(c, b, off, n)[i] == CachedByte(c, b, off + i);
    }
  }

  /** A step inside the read cache: only t's point there changes. */
  lemma StepUntouched(c: C, t: nat, ok: bool)
    requires Untouched(c) && CanStep(c, t)
    ensures Untouched(CApply(c, Step(t, ok)))
  {
    StepSide(c, t, ok);
    StepPoint(c, t, ok);
    StepCached(c, t, ok);
    var c' := CApply(c, Step(t, ok));
    forall u ensures PointOk(c', u) {
      assert PointOk(c, u);
      if u == t { OwnPoint(c, t, ok); }
    }
  }

  lemma StepCached(c: C, t: nat, ok: bool)
    requires CachedOk(c) && PointOk(c, t) && CanStep(c, t) && CApply(c, Step(t, ok)).w.server == c.w.server
    ensures CachedOk(CApply(c, Step(t, ok)))
  {
    StepSource(c, t, ok);
  }

  lemma OwnPoint(c: C, t: nat, ok: bool)
    requires PointOk(c, t) && CanStep(c, t) && CachedOk(c)
    ensures PointOk(CApply(c, Step(t, ok)), t)
  {
    if c.R(t).Reader? { assert PointOk(ReaderStep(c, t, ok), t); }
    else if c.R(t).Bare? { BarePoint(c, t, ok); }
    else if c.R(t).Scan? { assert PointOk(ScanStep(c, t), t); }
    else if c.R(t).Clean? { assert PointOk(CleanStep(c, t), t); }
    else { assert PointOk(FetchStep(c, t, ok), t); }
  }

  lemma BarePoint(c: C, t: nat, ok: bool)
    requires PointOk(c, t) && c.R(t).Bare? && CanStep(c, t) && CachedOk(c)
    ensures PointOk(BareStep(c, t, ok), t)
  {
    if c.R(t).bst.BHave? { ReadOpIsServer(c, c.R(t).b, c.R(t).off, c.R(t).n); }
  }

  /** The read cache gains at most a block that t has fetched, and loses others. */
  lemma StepSource(c: C, t: nat, ok: bool)
    requires CanStep(c, t)
    ensures forall b :: b in CApply(c, Step(t, ok)).r ==>
              || (b in c.r && CApply(c, Step(t, ok)).r[b] == c.r[b])
              || (InFlight(c, t, b) && CApply(c, Step(t, ok)).r[b] == c.R(t).data)
  {}

  lemma NewUntouched(c: C, a: Act)
    requires Untouched(c) && CEnabled(c, a) && (IsCall(a) || a.Recv?) && !a.NewWrite?
    ensures Untouched(CApply(c, a))
  {
    var c' := CApply(c, a);
    forall u ensures PointOk(c', u) { assert PointOk(c, u); }
  }

  lemma FreshStep(c: C, a: Act)
    requires CInv(c) && FreshInv(c) && CEnabled(c, a)
    ensures FreshInv(CApply(c, a))
  {
    if !CApply(c, a).written {
      WrittenStays(c, a);
      match a
      case Lift(x) => LiftUntouched(c, x);
      case Step(t, ok) => StepUntouched(c, t, ok);
      case _ => NewUntouched(c, a);
    }
  }

  lemma WrittenStays(c: C, a: Act)
    requires CEnabled(c, a)
    ensures CApply(c, a).written <==> c.written || a.NewWrite?
  {}

  lemma {:induction false} FreshRun(c: C, acts: seq<Act>, c': C)
    requires CInv(c) && FreshInv(c) && CRuns(c, acts, c')
    ensures FreshInv(c')
    decreases |acts|
  {
    if acts != [] {
      FreshStep(c, acts[0]);
      CStepKeeps(c, acts[0]);
      FreshRun(CApply(c, acts[0]), acts[1..], c');
    }
  }

  // ---------- what such a read returns ----------

  ghost function ViewAtByte(s: W, p: nat): Byte { At(ViewOf(s), p) }

  /** In some state of the run the view has byte v at p. */
  ghost predicate Had(c: C, acts: seq<Act>, p: nat, v: Byte)
    decreases |acts|
  {
    ViewAtByte(c.w, p) == v || (acts != [] && CEnabled(c, acts[0]) && Had(CApply(c, acts[0]), acts[1..], p, v))
  }

  lemma BackByte(s: W, op: Op, p: nat)
    requires PoolInv(s) && op.Ok() && op.Covers(p) && op.blk in s.Cells() && s.Cells()[op.blk] == Cell(op.off, op.data)
    ensures op.data[p - op.FileOffset()] == ViewAtByte(s, p)
  {
    CellsAreOk(s);
    BlockOf(op, p);
    AtView(s.server, s.Cells(), p);
  }

  /** A byte gets on the server only from the view: from a buffer, or with the op that writes it through. */
  lemma ServerByte(s: W, t: nat, o: Outcome, p: nat)
    requires Inv(s) && CanRun(s, t)
    ensures var s' := StepRun(s, t, o);
            At(s'.server, p) == At(s.server, p) || At(s'.server, p) == ViewAtByte(s, p) ||
                    At(s'.server, p) == ViewAtByte(s', p)
  {
    var op := ServerOp(s, t, o);
    if StepRun(s, t, o).server != s.server {
      if op.Covers(p) { OpByte(s, t, o, op, p); }
      AtDo(s.server, op, p);
    }
  }

  lemma AtDo(file: Content, op: Op, p: nat)
    requires op.Ok()
    ensures At(op.Do(file), p) == if op.Covers(p) then op.data[p - op.FileOffset()] else At(file, p)
  {
    AtWrite(file, op.FileOffset(), op.data, p);
  }

  lemma OpByte(s: W, t: nat, o: Outcome, op: Op, p: nat)
    requires Inv(s) && CanRun(s, t) && op.Ok() && op.Covers(p)
    requires || StepRun(s, t, o).log == s.log + [op]
             || (op.blk in s.Cells() && s.Cells()[op.blk] == Cell(op.off, op.data))
    ensures var v := op.data[p - op.FileOffset()]; v == ViewAtByte(s, p) || v == ViewAtByte(StepRun(s, t, o), p)
  {
    if StepRun(s, t, o).log == s.log + [op] { ThroughByte(s, t, o, op, p); } else { BackByte(s, op, p); }
  }

  lemma ServerOp(s: W, t: nat, o: Outcome) returns (op: Op)
    requires Inv(s) && CanRun(s, t)
    ensures op.Ok()
    ensures var s' := StepRun(s, t, o);
            || s'.server == s.server
            || (s'.server == op.Do(s.server) &&
                (s'.log == s.log + [op] || (op.blk in s.Cells() && s.Cells()[op.blk] == Cell(op.off, op.data))))
  {
    assert Acts(s, t);
    op := RunServer(s, t, o);
  }

  lemma ThroughByte(s: W, t: nat, o: Outcome, op: Op, p: nat)
    requires Inv(s) && CanRun(s, t) && StepRun(s, t, o).log == s.log + [op] && op.Ok() && op.Covers(p)
    ensures ViewAtByte(StepRun(s, t, o), p) == op.data[p - op.FileOffset()]
  {
    ThroughView(s, t, o, op);
    AtDo(ViewOf(s), op, p);
  }

  lemma ThroughView(s: W, t: nat, o: Outcome, op: Op)
    requires Inv(s) && CanRun(s, t) && StepRun(s, t, o).log == s.log + [op]
    ensures ViewOf(StepRun(s, t, o)) == op.Do(ViewOf(s))
  {
    StepView(s, Run(t, o));
    SameLast(s.log, op, s.threads[t].job.Cur());
  }

  /** Neither the server, nor the read cache, nor anything read from them has v at p. */
  ghost predicate Unseen(c: C, p: nat, v: Byte) {
    At(c.w.server, p) != v && CacheUnseen(c, p, v) && forall t :: PointUnseen(c.R(t), p, v)
  }

  predicate CacheUnseen(c: C, p: nat, v: Byte) { p / BLOCK in c.r ==> At(c.r[p / BLOCK], p % BLOCK) != v }

  predicate PointUnseen(pc: RPc, p: nat, v: Byte) {
    && (pc.Fetched? && pc.b == p / BLOCK ==> At(pc.data, p % BLOCK) != v)
    && (HasData(pc) ==> |pc.bst.data| == pc.n)
    && (HasData(pc) && pc.b == p / BLOCK && pc.off <= p % BLOCK < pc.off + pc.n ==>
          pc.bst.data[p % BLOCK - pc.off] != v)
  }

  lemma LiftUnseen(c: C, x: Action, p: nat, v: Byte)
    requires Inv(c.w) && Unseen(c, p, v) && Enabled(c.w, x) && ViewAtByte(c.w, p) != v &&
            ViewAtByte(Apply(c.w, x), p) != v
    ensures Unseen(LiftStep(c, x), p, v)
  {
    LiftServer(c.w, x, p, v);
    LiftPoints(c, x, p, v);
  }

  lemma LiftServer(s: W, x: Action, p: nat, v: Byte)
    requires Inv(s) && Enabled(s, x) && At(s.server, p) != v && ViewAtByte(s, p) != v && ViewAtByte(Apply(s, x), p) != v
    ensures At(Apply(s, x).server, p) != v
  {
    if x.Run? { ServerByte(s, x.t, x.o, p); } else { OtherSame(s, x); }
  }

  lemma LiftPoints(c: C, x: Action, p: nat, v: Byte)
    requires Enabled(c.w, x) && CacheUnseen(c, p, v) && forall t :: PointUnseen(c.R(t), p, v)
    ensures CacheUnseen(LiftStep(c, x), p, v) && forall t :: PointUnseen(LiftStep(c, x).R(t), p, v)
  {
    var c' := LiftStep(c, x);
    forall u ensures PointUnseen(c'.R(u), p, v) { assert PointUnseen(c.R(u), p, v); }
  }

  lemma ReadUnseen(c: C, b: nat, off: nat, n: nat, p: nat, v: Byte)
    requires At(c.w.server, p) != v && CacheUnseen(c, p, v) && b == p / BLOCK && off <= p % BLOCK < off + n
    ensures ReadOp(c, b, off, n)[p % BLOCK - off] != v
  {
    assert ReadOp(c, b, off, n)[p % BLOCK - off] == CachedByte(c, b, p % BLOCK);
  }

  lemma OwnUnseen(c: C, t: nat, ok: bool, p: nat, v: Byte)
    requires At(c.w.server, p) != v && CacheUnseen(c, p, v) && PointUnseen(c.R(t), p, v) && CanStep(c, t)
    ensures PointUnseen(CApply(c, Step(t, ok)).R(t), p, v)
  {
    if c.R(t).Reader? { assert PointUnseen(ReaderStep(c, t, ok).R(t), p, v); }
    else if c.R(t).Bare? { BareUnseen(c, t, ok, p, v); }
    else if c.R(t).Scan? { assert PointUnseen(ScanStep(c, t).R(t), p, v); }
    else if c.R(t).Clean? { assert PointUnseen(CleanStep(c, t).R(t), p, v); }
    else { FetchUnseen(c, t, ok, p, v); }
  }

  lemma BareUnseen(c: C, t: nat, ok: bool, p: nat, v: Byte)
    requires At(c.w.server, p) != v && CacheUnseen(c, p, v) && PointUnseen(c.R(t), p, v) && c.R(t).Bare? &&
            CanStep(c, t)
    ensures PointUnseen(BareStep(c, t, ok).R(t), p, v)
  {
    var pc := c.R(t);
    if pc.bst.BHave? && pc.b == p / BLOCK && pc.off <= p % BLOCK < pc.off + pc.n {
      ReadUnseen(c, pc.b, pc.off, pc.n, p, v);
    }
  }

  lemma FetchUnseen(c: C, t: nat, ok: bool, p: nat, v: Byte)
    requires At(c.w.server, p) != v && PointUnseen(c.R(t), p, v) &&
            (c.R(t).Fetch? || c.R(t).Fetched? || c.R(t).FetchDone?)
    ensures PointUnseen(FetchStep(c, t, ok).R(t), p, v)
  {
    assert Block(c.w.server, p / BLOCK)[p % BLOCK] == At(c.w.server, p / BLOCK * BLOCK + p % BLOCK);
  }

  lemma StepUnseen(c: C, t: nat, ok: bool, p: nat, v: Byte)
    requires Unseen(c, p, v) && CanStep(c, t)
    ensures Unseen(CApply(c, Step(t, ok)), p, v)
  {
    var c' := CApply(c, Step(t, ok));
    StepSide(c, t, ok);
    StepPoint(c, t, ok);
    StepSource(c, t, ok);
    assert PointUnseen(c.R(t), p, v);
    OwnUnseen(c, t, ok, p, v);
    forall u ensures PointUnseen(c'.R(u), p, v) { assert PointUnseen(c.R(u), p, v); }
  }

  lemma NewUnseen(c: C, a: Act, p: nat, v: Byte)
    requires Unseen(c, p, v) && CEnabled(c, a) && (IsCall(a) || a.Recv?)
    ensures Unseen(CApply(c, a), p, v)
  {
    var c' := CApply(c, a);
    forall u ensures PointUnseen(c'.R(u), p, v) { assert PointUnseen(c.R(u), p, v); }
  }

  lemma ActUnseen(c: C, a: Act, p: nat, v: Byte)
    requires Inv(c.w) && CEnabled(c, a) && Unseen(c, p, v)
    requires ViewAtByte(c.w, p) != v && ViewAtByte(CApply(c, a).w, p) != v
    ensures Unseen(CApply(c, a), p, v)
  {
    if a.Lift? {
      LiftUnseen(c, a.a, p, v);
    } else if a.Step? {
      StepUnseen(c, a.t, a.ok, p, v);
    } else {
      NewUnseen(c, a, p, v);
    }
  }

  /** What the view never has is never read. */
  lemma {:induction false} NeverSeen(c: C, acts: seq<Act>, c': C, p: nat, v: Byte)
    requires CInv(c) && CRuns(c, acts, c') && Unseen(c, p, v) && !Had(c, acts, p, v)
    ensures Unseen(c', p, v)
    decreases |acts|
  {
    if acts != [] {
      assert !Had(CApply(c, acts[0]), acts[1..], p, v);
      ActUnseen(c, acts[0], p, v);
      CStepKeeps(c, acts[0]);
      NeverSeen(CApply(c, acts[0]), acts[1..], c', p, v);
    }
  }

  /** Before the first Write, what the view does not have is nowhere. */
  lemma UntouchedUnseen(c: C, p: nat, v: Byte)
    requires Untouched(c) && ViewAtByte(c.w, p) != v
    ensures Unseen(c, p, v)
  {
    assert c.w.Cells() == map[];
    EmptyView(c.w.server);
    var b, o := p / BLOCK, p % BLOCK;
    assert p == b * BLOCK + o;
    assert Block(c.w.server, b)[o] == At(c.w.server, p);
    forall t ensures PointUnseen(c.R(t), p, v) {
      assert PointOk(c, t);
      if HasData(c.R(t)) { ServerBytesAt(c.w.server, c.R(t)); }
    }
  }

  lemma ServerBytesAt(f: Content, pc: RPc)
    requires HasData(pc) && pc.bst.data == ServerBytes(f, pc.b, pc.off, pc.n)
    ensures |pc.bst.data| == pc.n && forall i :: 0 <= i < pc.n ==> pc.bst.data[i] == At(f, pc.b * BLOCK + pc.off + i)
  {}

  predicate Shaped(pc: RPc) { pc.Bare? ==> pc.off + pc.n <= BLOCK && (HasData(pc) ==> |pc.bst.data| == pc.n) }

  lemma ShapeStep(c: C, a: Act, t: nat)
    requires CEnabled(c, a) && Shaped(c.R(t))
    ensures Shaped(CApply(c, a).R(t))
  {
    if a.Step? {
      if a.t == t { ShapeOwn(c, t, a.ok); } else { StepPoint(c, a.t, a.ok); }
    }
  }

  lemma ShapeOwn(c: C, t: nat, ok: bool)
    requires CanStep(c, t) && Shaped(c.R(t))
    ensures Shaped(CApply(c, Step(t, ok)).R(t))
  {}

  lemma {:induction false} ShapeRun(c: C, acts: seq<Act>, c': C, t: nat)
    requires CRuns(c, acts, c') && Shaped(c.R(t))
    ensures Shaped(c'.R(t))
    decreases |acts|
  {
    if acts != [] {
      ShapeStep(c, acts[0], t);
      ShapeRun(CApply(c, acts[0]), acts[1..], c', t);
    }
  }

  lemma BareStart(c0: C, acts: seq<Act>, c: C)
    requires CStart(c0) && CRuns(c0, acts, c)
    ensures CInv(c) && FreshInv(c)
  {
    CStartInv(c0);
    StartUntouched(c0);
    CRunInv(c0, acts, c);
    FreshRun(c0, acts, c);
  }

  lemma StartUntouched(c: C)
    requires CStart(c)
    ensures Untouched(c)
  {}

  lemma HadOrUnseen(c1: C, acts: seq<Act>, c: C, p: nat, v: Byte)
    requires CInv(c1) && Untouched(c1) && CRuns(c1, acts, c)
    ensures Had(c1, acts, p, v) || Unseen(c, p, v)
  {
    if !Had(c1, acts, p, v) {
      UntouchedUnseen(c1, p, v);
      NeverSeen(c1, acts, c, p, v);
    }
  }

  lemma HadSince(c0: C, acts0: seq<Act>, c1: C, acts: seq<Act>, c: C, p: nat, v: Byte)
    requires CStart(c0) && CRuns(c0, acts0, c1) && !c1.written && CRuns(c1, acts, c)
    ensures Had(c1, acts, p, v) || Unseen(c, p, v)
  {
    BareStart(c0, acts0, c1);
    HadOrUnseen(c1, acts, c, p, v);
  }

  lemma ShapedNow(c0: C, acts0: seq<Act>, c1: C, acts: seq<Act>, c: C, t: nat)
    requires CStart(c0) && CRuns(c0, acts0, c1) && CRuns(c1, acts, c)
    ensures Shaped(c.R(t))
  {
    ShapeRun(c0, acts0, c1, t);
    ShapeRun(c1, acts, c, t);
  }

  lemma SeenAt(c: C, t: nat, i: nat)
    requires HasData(c.R(t)) && Shaped(c.R(t)) && i < c.R(t).n
    ensures !Unseen(c, c.R(t).b * BLOCK + c.R(t).off + i, c.R(t).bst.data[i])
  {
    var pc := c.R(t);
    var p := pc.b * BLOCK + pc.off + i;
    assert p / BLOCK == pc.b && p % BLOCK == pc.off + i;
    assert !PointUnseen(c.R(t), p, pc.bst.data[i]);
  }

  /**
   * In every run, whatever others do: each byte that a read without the write cache returns is one that the view had at
   * some moment since c1, where c1 is any state without a write file buffer, such as the one in which the read began.
   */
  lemma BareReadHad(c0: C, acts0: seq<Act>, c1: C, acts: seq<Act>, c: C, t: nat, i: nat)
    requires CStart(c0) && CRuns(c0, acts0, c1) && !c1.written && CRuns(c1, acts, c)
    requires HasData(c.R(t)) && i < c.R(t).n
    ensures var pc := c.R(t); |pc.bst.data| == pc.n && Had(c1, acts, pc.b * BLOCK + pc.off + i, pc.bst.data[i])
  {
    ShapedNow(c0, acts0, c1, acts, c, t);
    SeenAt(c, t, i);
    HadSince(c0, acts0, c1, acts, c, c.R(t).b * BLOCK + c.R(t).off + i, c.R(t).bst.data[i]);
  }

  /**
   * Until the first Write of the file begins, prefetch on or off, the bytes that such a read has taken are the view's.
   */
  lemma BareReadBeforeWrites(c0: C, acts: seq<Act>, c: C, t: nat, i: nat)
    requires CStart(c0) && CRuns(c0, acts, c) && !c.written && HasData(c.R(t)) && i < c.R(t).n
    ensures var pc := c.R(t); |pc.bst.data| == pc.n && pc.bst.data[i] == ViewAtByte(c.w, pc.b * BLOCK + pc.off + i)
  {
    BareStart(c0, acts, c);
    assert PointOk(c, t);
    UntouchedByte(c, t, i);
  }

  lemma UntouchedByte(c: C, t: nat, i: nat)
    requires PointOk(c, t) && c.w.attached == map[] && HasData(c.R(t)) && i < c.R(t).n
    ensures var pc := c.R(t); |pc.bst.data| == pc.n && pc.bst.data[i] == ViewAtByte(c.w, pc.b * BLOCK + pc.off + i)
  {
    ServerBytesAt(c.w.server, c.R(t));
    assert c.w.Cells() == map[];
    EmptyView(c.w.server);
  }

  /** Byte i of the op is what the view has now. */
  ghost predicate OpByteIsView(c: C, pc: RPc, d: Content, i: nat)
    requires pc.Bare? && i < |d|
  {
    d[i] == ViewAtByte(c.w, pc.b * BLOCK + pc.off + i)
  }

  /**
   * With prefetch off, the bytes such a read takes are the view's of that moment exactly when no buffered byte of its
   * range differs from the server's.
   */
  lemma BareReadExact(c0: C, acts: seq<Act>, c: C, t: nat)
    requires CStart(c0) && CRuns(c0, acts, c) && c0.pworkers == {} && c.R(t).Bare? && c.R(t).bst.BHave?
    ensures CanStep(c, t) && BareStep(c, t, true).R(t) == c.R(t).(bst := BGot(ReadOp(c, c.R(t).b, c.R(t).off,
            c.R(t).n)))
    ensures var pc, d := c.R(t), ReadOp(c, c.R(t).b, c.R(t).off, c.R(t).n);
            (forall i :: 0 <= i < |d| ==> OpByteIsView(c, pc, d, i)) <==>
                    (forall i :: 0 <= i < |d| ==> OpByteSame(c, pc, i))
  {
    BareAlone(c0, acts, c);
    var pc, d := c.R(t), ReadOp(c, c.R(t).b, c.R(t).off, c.R(t).n);
    forall i | 0 <= i < |d| ensures OpByteIsView(c, pc, d, i) <==> OpByteSame(c, pc, i) { OpByteIs(c, pc, i); }
  }

  lemma OpByteIs(c: C, pc: RPc, i: nat)
    requires PoolInv(c.w) && c.r == map[] && pc.Bare? && i < pc.n
    ensures OpByteIsView(c, pc, ReadOp(c, pc.b, pc.off, pc.n), i) <==> OpByteSame(c, pc, i)
  {
    assert ReadOp(c, pc.b, pc.off, pc.n)[i] == CachedByte(c, pc.b, pc.off + i);
    SameIs(c.w, pc.b * BLOCK + pc.off + i);
  }

  lemma BareAlone(c0: C, acts: seq<Act>, c: C)
    requires CStart(c0) && CRuns(c0, acts, c) && c0.pworkers == {}
    ensures PoolInv(c.w) && c.r == map[]
  {
    CStartInv(c0);
    NoPrefetchRun(c0, acts, c);
    CRunInv(c0, acts, c);
  }

  /** Byte i of the op is not buffered, or its buffer has what the server has. */
  ghost predicate OpByteSame(c: C, pc: RPc, i: nat)
    requires pc.Bare?
  {
    BufferedSame(c.w, pc.b * BLOCK + pc.off + i)
  }

  /** Byte p is not buffered, or the buffer has what the server has. */
  ghost predicate BufferedSame(s: W, p: nat) {
    Dirty(s.Cells(), p) ==> ViewAt(s.server, s.Cells(), p) == At(s.server, p)
  }

  lemma SameIs(s: W, p: nat)
    requires PoolInv(s)
    ensures At(s.server, p) == ViewAtByte(s, p) <==> BufferedSame(s, p)
  {
    CellsAreOk(s);
    AtView(s.server, s.Cells(), p);
  }
}
