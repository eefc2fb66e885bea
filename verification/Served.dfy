/** Nothing but a lock keeps a read or a prefetch from being served: what a goroutine gets that is left to itself. */
module Served {
  import opened FlatFile
  import opened Overlay
  import opened Locks
  import opened WriteMachine
  import opened WriteInv
  import opened WriteTheorems
  import opened CacheMachine
  import opened CacheInv
  import opened NoDeadlock
  import opened CacheRuns
  import opened Coherence
  import opened ReadRuns
  import ReadMerge

  /** So many steps of t, with every server call answered. */
  function Own(t: nat, k: nat): seq<Act> { if k == 0 then [] else [Step(t, true)] + Own(t, k - 1) }

  // ---------- a read with the write cache ----------

  /** The read begins. */
  lemma ReadBegins(c: C, t: nat, b: nat, off: nat, n: nat) returns (c': C)
    requires CacheMachine.Free(c, t) && c.written && off + n <= BLOCK
    ensures CEnabled(c, NewRead(t, b, off, n)) && c' == CApply(c, NewRead(t, b, off, n))
    ensures c'.R(t) == Reader(b, off, n, RWant) && t in c'.w.threads && c'.w.threads[t] == Reading(b, false)
    ensures c'.w.server == c.w.server && c'.w.Cells() == c.w.Cells() && c'.r == c.r && c'.rl == c.rl &&
            c'.w.lk == c.w.lk
  {
    c' := CApply(c, NewRead(t, b, off, n));
  }

  /** It locks the write cache's block. */
  lemma ReadLocks(c: C, t: nat) returns (c': C)
    requires c.R(t).Reader? && c.R(t).rst.RWant? && t in c.w.threads && c.w.threads[t] == Reading(c.R(t).b, false)
    requires CanRLock(c.w.lk.table, c.R(t).b)
    ensures CEnabled(c, Lift(LockRead(t))) && c' == CApply(c, Lift(LockRead(t)))
    ensures c'.R(t) == c.R(t) && t in c'.w.threads && c'.w.threads[t] == Reading(c.R(t).b, true)
    ensures c'.w.server == c.w.server && c'.w.Cells() == c.w.Cells() && c'.r == c.r && c'.rl == c.rl
  {
    c' := CApply(c, Lift(LockRead(t)));
  }

  /** It locks the read cache's block. */
  lemma ReadEnters(c: C, t: nat) returns (c': C)
    requires c.R(t).Reader? && c.R(t).rst.RWant? && t in c.w.threads && c.w.threads[t] == Reading(c.R(t).b, true)
    requires CanRLock(c.rl.table, c.R(t).b)
    ensures CEnabled(c, Step(t, true)) && c' == CApply(c, Step(t, true))
    ensures c'.R(t) == c.R(t).(rst := RHave) && c'.w == c.w && c'.r == c.r
  {
    c' := CApply(c, Step(t, true));
  }

  /** It looks, leaves the read cache, and merges the write buffer. */
  lemma ReadMerges(c: C, t: nat) returns (c': C)
    requires c.R(t).Reader? && c.R(t).rst.RHave? && t in c.w.threads && c.w.threads[t] == Reading(c.R(t).b, true)
    ensures CRuns(c, Own(t, 3), c') && c'.w == c.w
    ensures c'.R(t).Reader? && c'.R(t).rst.RMerged? && c'.R(t).rst.good == Agrees(c, c.R(t).b)
    ensures c'.R(t).b == c.R(t).b && c'.R(t).off == c.R(t).off && c'.R(t).n == c.R(t).n
  {
    var a := Step(t, true);
    var c1 := CApply(c, a);
    var c2 := CApply(c1, a);
    c' := CApply(c2, a);
    CRunCons(c2, a, Own(t, 0), c');
    CRunCons(c1, a, Own(t, 1), c');
    CRunCons(c, a, Own(t, 2), c');
  }

  /** The steps of a read op that meets no lock and no failure. */
  function ReadSteps(t: nat, b: nat, off: nat, n: nat): seq<Act> {
    [NewRead(t, b, off, n)] + ([Lift(LockRead(t))] + Own(t, 4))
  }

  lemma ReadGoes(c: C, t: nat, b: nat, off: nat, n: nat) returns (c': C)
    requires CacheMachine.Free(c, t) && c.written && off + n <= BLOCK
    requires CanRLock(c.w.lk.table, b) && CanRLock(c.rl.table, b)
    ensures CRuns(c, ReadSteps(t, b, off, n), c') && c'.w.server == c.w.server && c'.w.Cells() == c.w.Cells()
    ensures c'.R(t).Reader? && c'.R(t).rst.RMerged? && c'.R(t).rst.good == Agrees(c, b)
    ensures c'.R(t).b == b && c'.R(t).off == off && c'.R(t).n == n
  {
    var c1 := ReadBegins(c, t, b, off, n);
    var c2 := ReadLocks(c1, t);
    var c3 := ReadEnters(c2, t);
    c' := ReadMerges(c3, t);
    SameAgrees(c, c3, b);
    CRunCons(c2, Step(t, true), Own(t, 3), c');
    CRunCons(c1, Lift(LockRead(t)), Own(t, 4), c');
    CRunCons(c, NewRead(t, b, off, n), [Lift(LockRead(t))] + Own(t, 4), c');
  }

  lemma SameAgrees(c: C, d: C, b: nat)
    requires c.w.server == d.w.server && c.w.Cells() == d.w.Cells() && c.r == d.r
    ensures Agrees(c, b) == Agrees(d, b)
  {}

  /**
   * In every reachable state, a read of any range of a block that nobody has locked exclusively gets through by its own
   * steps, and returns the view's bytes if the cached block agrees with the server.
   */
  lemma ReadServed(c0: C, acts: seq<Act>, c: C, t: nat, b: nat, off: nat, n: nat) returns (c': C)
    requires CStart(c0) && CRuns(c0, acts, c) && CacheMachine.Free(c, t) && c.written && off + n <= BLOCK
    requires CanRLock(c.w.lk.table, b) && CanRLock(c.rl.table, b)
    ensures CRuns(c, ReadSteps(t, b, off, n), c') && ViewOf(c'.w) == ViewOf(c.w)
    ensures c'.R(t).Reader? && c'.R(t).rst.RMerged?
    ensures Agrees(c, b) ==>
              && |c'.R(t).rst.data| == n
              && forall i :: 0 <= i < n ==> c'.R(t).rst.data[i] == At(ViewOf(c.w), b * BLOCK + off + i)
  {
    c' := ReadGoes(c, t, b, off, n);
    if Agrees(c, b) {
      CRunJoin(c0, acts, c, ReadSteps(t, b, off, n), c');
      SeesAll(c0, acts + ReadSteps(t, b, off, n), c', t);
    }
  }

  lemma SeesAll(c0: C, acts: seq<Act>, c: C, t: nat)
    requires CStart(c0) && CRuns(c0, acts, c) && c.R(t).Reader? && c.R(t).rst.RMerged? && c.R(t).rst.good
    ensures var pc := c.R(t);
            && |pc.rst.data| == pc.n
            && forall i :: 0 <= i < pc.n ==> pc.rst.data[i] == At(ViewOf(c.w), pc.b * BLOCK + pc.off + i)
  {
    ReadReachable(c0, acts, c);
    forall i | 0 <= i < c.R(t).n
      ensures |c.R(t).rst.data| == c.R(t).n &&
              c.R(t).rst.data[i] == At(ViewOf(c.w), c.R(t).b * BLOCK + c.R(t).off + i)
    {
      ReadSeesView(c0, acts, c, t, i);
    }
  }

  // ---------- a read without it ----------

  /** A goroutine that has read an op without the write cache, from state c. */
  ghost predicate BareGot(c: C, pc: RPc, b: nat, off: nat, n: nat) {
    && pc.Bare? && pc.bst.BDone? && |pc.bst.data| == n
    && forall i :: 0 <= i < n ==> FromSource(c, b, off + i, pc.bst.data[i])
  }

  /** The op looks; ok says whether the server answers. */
  lemma BareLooks(c: C, t: nat, ok: bool) returns (c': C)
    requires c.R(t).Bare? && c.R(t).bst.BHave?
    ensures CEnabled(c, Step(t, ok)) && c' == CApply(c, Step(t, ok)) && c'.w == c.w
    ensures c'.R(t) == c.R(t).(bst := if ok || c.R(t).b in c.r then BGot(ReadOp(c, c.R(t).b, c.R(t).off, c.R(t).n))
                                      else BFailed)
  {
    c' := CApply(c, Step(t, ok));
  }

  lemma BareLeaves(c: C, t: nat) returns (c': C)
    requires c.R(t).Bare? && (c.R(t).bst.BGot? || c.R(t).bst.BFailed?)
    ensures CEnabled(c, Step(t, true)) && c' == CApply(c, Step(t, true)) && c'.w == c.w
    ensures c'.R(t) == if c.R(t).bst.BGot? then c.R(t).(bst := BDone(c.R(t).bst.data)) else Off
  {
    c' := CApply(c, Step(t, true));
  }

  lemma BareEnters(c: C, t: nat) returns (c': C)
    requires c.R(t).Bare? && c.R(t).bst.BWant? && CanRLock(c.rl.table, c.R(t).b)
    ensures CEnabled(c, Step(t, true)) && c' == CApply(c, Step(t, true)) && c'.w == c.w && c'.r == c.r
    ensures c'.R(t) == c.R(t).(bst := BHave)
  {
    c' := CApply(c, Step(t, true));
  }

  lemma BareSource(c: C, d: C, b: nat, off: nat, n: nat)
    requires c.w == d.w && c.r == d.r
    ensures forall i :: 0 <= i < n ==> FromSource(c, b, off + i, ReadOp(d, b, off, n)[i])
  {
    forall i | 0 <= i < n ensures FromSource(c, b, off + i, ReadOp(d, b, off, n)[i]) {
      assert ReadOp(d, b, off, n)[i] == CachedByte(d, b, off + i);
    }
  }

  lemma BareGoes(c: C, t: nat, ok: bool) returns (c': C)
    requires c.R(t).Bare? && c.R(t).bst.BWant? && CanRLock(c.rl.table, c.R(t).b)
    ensures CRuns(c, [Step(t, true)] + ([Step(t, ok)] + Own(t, 1)), c') && c'.w == c.w
    ensures var pc := c.R(t);
            if ok || pc.b in c.r then BareGot(c, c'.R(t), pc.b, pc.off, pc.n) else c'.R(t).Off?
  {
    var c1 := BareEnters(c, t);
    var c2 := BareLooks(c1, t, ok);
    c' := BareLeaves(c2, t);
    BareSource(c, c1, c.R(t).b, c.R(t).off, c.R(t).n);
    CRunCons(c2, Step(t, true), Own(t, 0), c');
    CRunCons(c1, Step(t, ok), Own(t, 1), c');
    CRunCons(c, Step(t, true), [Step(t, ok)] + Own(t, 1), c');
  }

  /**
   * An op of a read that found no write file buffer, the first one or a further one: on any range of a block that
   * nobody has locked exclusively it gets the bytes of the cached block or of the server, and fails exactly when there
   * is neither.
   */
  lemma BareServed(c: C, t: nat, b: nat, off: nat, n: nat, ok: bool) returns (a: Act, c': C)
    requires (CacheMachine.Free(c, t) && !c.written) || (c.R(t).Bare? && c.R(t).bst.BDone?)
    requires off + n <= BLOCK && CanRLock(c.rl.table, b)
    ensures a == (if c.R(t).Bare? then Again(t, b, off, n) else NewBare(t, b, off, n))
    ensures CRuns(c, [a] + ([Step(t, true)] + ([Step(t, ok)] + Own(t, 1))), c') && c'.w == c.w
    ensures if ok || b in c.r then BareGot(c, c'.R(t), b, off, n) else c'.R(t).Off?
  {
    a := if c.R(t).Bare? then Again(t, b, off, n) else NewBare(t, b, off, n);
    var c1 := CApply(c, a);
    c' := BareGoes(c1, t, ok);
    CRunCons(c, a, [Step(t, true)] + ([Step(t, ok)] + Own(t, 1)), c');
  }

  // ---------- a prefetch ----------

  /** A scan locks an unlocked block. */
  lemma ScanLocks(c: C, t: nat, b: nat) returns (c': C)
    requires CacheMachine.Free(c, t) && c.pworkers != {} && b !in c.rl.table
    ensures CRuns(c, [NewScan(t, b, b + 1)] + Own(t, 1), c') && c'.R(t) == Scan(b, b + 1, SHave)
    ensures c' == c.(rl := c'.rl, rpc := c'.rpc) && forall u :: u != t ==> c'.R(u) == c.R(u)
  {
    var c1 := CApply(c, NewScan(t, b, b + 1));
    c' := CApply(c1, Step(t, true));
    CRunCons(c1, Step(t, true), Own(t, 0), c');
    CRunCons(c, NewScan(t, b, b + 1), Own(t, 1), c');
  }

  /** If the block is not cached, the scan sends it to the channel and ends. */
  lemma ScanSends(c: C, t: nat, b: nat) returns (c': C)
    requires c.R(t) == Scan(b, b + 1, SHave) && b !in c.r && |c.pq| < c.pcap
    ensures CRuns(c, Own(t, 3), c') && c'.R(t).Off?
    ensures c' == c.(rl := c'.rl, rpc := c'.rpc, pq := c.pq + [b]) && forall u :: u != t ==> c'.R(u) == c.R(u)
  {
    var a := Step(t, true);
    var c1 := CApply(c, a);
    var c2 := CApply(c1, a);
    c' := CApply(c2, a);
    CRunCons(c2, a, Own(t, 0), c');
    CRunCons(c1, a, Own(t, 1), c');
    CRunCons(c, a, Own(t, 2), c');
  }

  /** A worker takes the first block of the channel and reads it. */
  lemma WorkerFetches(c: C, t: nat) returns (c': C)
    requires t in c.pworkers && c.R(t).Off? && c.pq != [] && c.pq[0] * BLOCK < |c.w.server|
    ensures CRuns(c, [Recv(t)] + Own(t, 1), c') && c'.R(t) == Fetched(c.pq[0], Block(c.w.server, c.pq[0]))
    ensures c' == c.(rl := c'.rl, rpc := c'.rpc, pq := c.pq[1..])
  {
    var c1 := CApply(c, Recv(t));
    c' := CApply(c1, Step(t, true));
    CRunCons(c1, Step(t, true), Own(t, 0), c');
    CRunCons(c, Recv(t), Own(t, 1), c');
  }

  /** It caches the block and unlocks it. */
  lemma WorkerCaches(c: C, t: nat) returns (c': C)
    requires c.R(t).Fetched?
    ensures CRuns(c, Own(t, 2), c') && c'.R(t).Off?
    ensures c' == c.(rl := c.rl.Unlock(c.R(t).b), rpc := c'.rpc, r := c.r[c.R(t).b := c.R(t).data])
  {
    var c1 := CApply(c, Step(t, true));
    c' := CApply(c1, Step(t, true));
    CRunCons(c1, Step(t, true), Own(t, 0), c');
    CRunCons(c, Step(t, true), Own(t, 1), c');
  }

  /** A whole scan of one block. */
  lemma ScanGoes(c: C, t: nat, b: nat) returns (acts: seq<Act>, c': C)
    requires CacheMachine.Free(c, t) && c.pworkers != {} && b !in c.rl.table && b !in c.r && |c.pq| < c.pcap
    ensures CRuns(c, acts, c') && c'.R(t).Off? && forall u :: u != t ==> c'.R(u) == c.R(u)
    ensures c' == c.(rl := c'.rl, rpc := c'.rpc, pq := c.pq + [b])
  {
    var c1 := ScanLocks(c, t, b);
    c' := ScanSends(c1, t, b);
    acts := ([NewScan(t, b, b + 1)] + Own(t, 1)) + Own(t, 3);
    CRunJoin(c, [NewScan(t, b, b + 1)] + Own(t, 1), c1, Own(t, 3), c');
  }

  /** A whole turn of a worker. */
  lemma WorkerGoes(c: C, t: nat) returns (acts: seq<Act>, c': C)
    requires t in c.pworkers && c.R(t).Off? && c.pq != [] && c.pq[0] * BLOCK < |c.w.server|
    ensures CRuns(c, acts, c') && c'.w == c.w && c'.pq == c.pq[1..] && c.pq[0] !in c'.rl.table
    ensures c'.r == c.r[c.pq[0] := Block(c.w.server, c.pq[0])]
  {
    var c1 := WorkerFetches(c, t);
    c' := WorkerCaches(c1, t);
    acts := ([Recv(t)] + Own(t, 1)) + Own(t, 2);
    CRunJoin(c, [Recv(t)] + Own(t, 1), c1, Own(t, 2), c');
  }

  /**
   * A prefetch of an unlocked, uncached block inside the server file ends with the server's block in the cache and the
   * lock given back, if an idle worker takes it next.
   */
  lemma PrefetchServed(c: C, t: nat, w: nat, b: nat) returns (acts: seq<Act>, c': C)
    requires CacheMachine.Free(c, t) && w in c.pworkers && c.R(w).Off? && c.pq == [] && c.pcap >= 1
    requires b !in c.rl.table && b !in c.r && b * BLOCK < |c.w.server|
    ensures CRuns(c, acts, c') && c'.w == c.w && c'.pq == [] && b !in c'.rl.table
    ensures c'.r == c.r[b := Block(c.w.server, b)]
  {
    var scan, c1 := ScanGoes(c, t, b);
    assert c1.pq[0] == b;
    var work;
    work, c' := WorkerGoes(c1, w);
    acts := scan + work;
    CRunJoin(c, scan, c1, work, c');
  }

  // ---------- what can be cached ----------

  /** A whole block that begins inside the server file. */
  predicate Inside(f: Content, b: nat, data: Content) { |data| == BLOCK && b * BLOCK < |f| }

  predicate InsideT(f: Content, pc: RPc) { pc.Fetched? ==> Inside(f, pc.b, pc.data) }

  ghost predicate AllInside(c: C) {
    (forall b :: b in c.r ==> Inside(c.w.server, b, c.r[b])) && forall t :: InsideT(c.w.server, c.R(t))
  }

  /** Steps that cache nothing and fetch nothing. */
  lemma InsideFrame(c: C, c': C)
    requires AllInside(c) && |c.w.server| <= |c'.w.server| && (forall b :: b in c'.r ==> b in c.r && c'.r[b] == c.r[b])
    requires forall t :: c'.R(t).Fetched? ==> c'.R(t) == c.R(t)
    ensures AllInside(c')
  {
    forall u ensures InsideT(c'.w.server, c'.R(u)) { assert InsideT(c.w.server, c.R(u)); }
  }

  lemma InsideFetch(c: C, t: nat, ok: bool)
    requires AllInside(c) && (c.R(t).Fetch? || c.R(t).Fetched? || c.R(t).FetchDone?)
    ensures AllInside(FetchStep(c, t, ok))
  {
    var c' := FetchStep(c, t, ok);
    assert InsideT(c.w.server, c.R(t));
    forall u ensures InsideT(c'.w.server, c'.R(u)) { assert InsideT(c.w.server, c.R(u)); }
  }

  lemma InsideClean(c: C, t: nat)
    requires AllInside(c) && c.R(t).Clean? && CanStep(c, t)
    ensures AllInside(CleanStep(c, t))
  {
    InsideFrame(c, CleanStep(c, t));
  }

  lemma InsidePlain(c: C, a: Act)
    requires AllInside(c) && CEnabled(c, a) && Coherence.Plain(c, a)
    ensures AllInside(CApply(c, a))
  {
    PlainSame(c, a);
    PlainFetched(c, CApply(c, a), a.t);
    InsideFrame(c, CApply(c, a));
  }

  lemma PlainFetched(c: C, c': C, t: nat)
    requires Plainly(c, c', t)
    ensures forall u :: c'.R(u).Fetched? ==> c'.R(u) == c.R(u)
  {
    if c'.R(t).Fetched? { assert InFlight(c', t, c'.R(t).b); }
  }

  lemma InsideLift(c: C, x: Action)
    requires CInv(c) && AllInside(c) && CEnabled(c, Lift(x))
    ensures AllInside(LiftStep(c, x))
  {
    var c' := LiftStep(c, x);
    StepGrows(c.w, x);
    LiftPending(c, x);
    forall u | c'.R(u).Fetched? ensures c'.R(u) == c.R(u) { assert InFlight(c', u, c'.R(u).b); }
    InsideFrame(c, c');
  }

  lemma InsideStep(c: C, a: Act)
    requires CInv(c) && AllInside(c) && CEnabled(c, a)
    ensures AllInside(CApply(c, a))
  {
    if a.Lift? {
      InsideLift(c, a.a);
    } else if Coherence.Plain(c, a) {
      InsidePlain(c, a);
    } else if c.R(a.t).Clean? {
      InsideClean(c, a.t);
    } else {
      InsideFetch(c, a.t, a.ok);
    }
  }

  lemma {:induction false} InsideRun(c: C, acts: seq<Act>, c': C)
    requires CInv(c) && AllInside(c) && CRuns(c, acts, c')
    ensures AllInside(c')
    decreases |acts|
  {
    if acts != [] {
      InsideStep(c, acts[0]);
      CStepKeeps(c, acts[0]);
      InsideRun(CApply(c, acts[0]), acts[1..], c');
    }
  }

  /** In every run, a cached block is a whole block and begins inside the server file. */
  lemma CachedInside(c0: C, acts: seq<Act>, c: C, b: nat)
    requires CStart(c0) && CRuns(c0, acts, c) && b in c.r
    ensures |c.r[b]| == BLOCK && b * BLOCK < |c.w.server|
  {
    CStartInv(c0);
    InsideRun(c0, acts, c);
  }

  /**
   * In every reached state the blocks and buffers are what the loop of doRead needs, and its blocks agree with the
   * server exactly when the machine's do.
   */
  lemma ReachedForDoRead(c0: C, acts: seq<Act>, c: C)
    requires CStart(c0) && CRuns(c0, acts, c)
    ensures CellsOk(c.w.Cells()) && ReadMerge.Padded(c.r)
    ensures ReadMerge.BlocksAgree(c.w.server, c.w.Cells(), c.r) <==> forall b: nat :: Agrees(c, b)
  {
    ReadReachable(c0, acts, c);
    CellsAreOk(c.w);
    forall b | b in c.r ensures |c.r[b]| == BLOCK { CachedInside(c0, acts, c, b); }
    forall b: nat, o: nat | o < BLOCK ensures Dirty(c.w.Cells(), b * BLOCK + o) <==> Covered(c.w.Cells(), b, o) {
      InBlock(b, o);
    }
    SameAgreement(c);
  }

  predicate Covered(cells: Cells, b: nat, o: nat) { b in cells && cells[b].Covers(o) }

  lemma InBlock(b: nat, o: nat)
    requires o < BLOCK
    ensures (b * BLOCK + o) / BLOCK == b && (b * BLOCK + o) % BLOCK == o
  {}

  lemma SameAgreement(c: C)
    requires forall b: nat, o: nat :: o < BLOCK ==> (Dirty(c.w.Cells(), b * BLOCK + o) <==> Covered(c.w.Cells(), b, o))
    ensures ReadMerge.BlocksAgree(c.w.server, c.w.Cells(), c.r) <==> forall b: nat :: Agrees(c, b)
  {
    if ReadMerge.BlocksAgree(c.w.server, c.w.Cells(), c.r) {
      forall b: nat ensures Agrees(c, b) {
        forall o: nat | b in c.r && o < BLOCK
          ensures Dirty(c.w.Cells(), b * BLOCK + o) || At(c.r[b], o) == At(c.w.server, b * BLOCK + o)
        {
          assert Covered(c.w.Cells(), b, o) || At(c.r[b], o) == At(c.w.server, b * BLOCK + o);
        }
      }
    }
    if forall b: nat :: Agrees(c, b) {
      forall b: nat, o: nat | b in c.r && o < BLOCK
        ensures Covered(c.w.Cells(), b, o) || At(c.r[b], o) == At(c.w.server, b * BLOCK + o)
      {
        assert Agrees(c, b);
      }
    }
  }
}
