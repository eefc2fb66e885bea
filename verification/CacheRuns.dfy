/** What the two caches together inherit from the write cache alone, and the read cache's locks, in every run. */
module CacheRuns {
  import opened Locks
  import opened WriteMachine
  import opened WriteRuns
  import opened CacheMachine
  import opened CacheInv
  import opened NoDeadlock

  // ---------- the write cache's part of a run ----------

  /** The actions of the write cache that one action of both caches amounts to. */
  ghost function Part(c: C, a: Act): seq<Action>
    requires CEnabled(c, a)
  {
    match a
    case Lift(x) => [x]
    case NewWrite(t, ops, _, _) => [BeginWrite(t, ops)]
    case NewRead(t, b, _, _) => [BeginRead(t, b)]
    case Step(t, _) => if c.R(t).Reader? && (c.R(t).rst.RMerged? || c.R(t).rst.RQuit?) then [EndRead(t)] else []
    case _ => []
  }

  lemma PartRuns(c: C, a: Act)
    requires CEnabled(c, a)
    ensures |Part(c, a)| <= 1
    ensures Part(c, a) == [] ==> CApply(c, a).w == c.w
    ensures Part(c, a) != [] ==> Enabled(c.w, Part(c, a)[0]) && CApply(c, a).w == Apply(c.w, Part(c, a)[0])
  {
    if a.Step? { StepPart(c, a.t, a.ok); }
  }

  lemma StepPart(c: C, t: nat, ok: bool)
    requires CanStep(c, t)
    ensures if c.R(t).Reader? && (c.R(t).rst.RMerged? || c.R(t).rst.RQuit?)
            then Enabled(c.w, EndRead(t)) && CApply(c, Step(t, ok)).w == Apply(c.w, EndRead(t))
            else CApply(c, Step(t, ok)).w == c.w
  {}

  /**
   * The write cache's part of a run of both caches is a run of the write cache alone, so everything that holds of all
   * runs of the write cache (durability, size bounds, pool, LRU order) holds with readers and prefetch around it.
   */
  lemma {:induction false} Projects(c: C, acts: seq<Act>, c': C) returns (wacts: seq<Action>)
    requires CRuns(c, acts, c')
    ensures Runs(c.w, wacts, c'.w)
    decreases |acts|
  {
    if acts == [] {
      wacts := [];
    } else {
      PartRuns(c, acts[0]);
      var rest := Projects(CApply(c, acts[0]), acts[1..], c');
      wacts := Part(c, acts[0]) + rest;
      if Part(c, acts[0]) == [] {
        assert wacts == rest;
      } else {
        assert wacts[0] == Part(c, acts[0])[0] && wacts[1..] == rest;
      }
    }
  }

  // ---------- putting runs together ----------

  lemma {:induction false} CRunSnoc(c0: C, acts: seq<Act>, c: C, a: Act)
    requires CRuns(c0, acts, c) && CEnabled(c, a)
    ensures CRuns(c0, acts + [a], CApply(c, a))
    decreases |acts|
  {
    if acts == [] {
      assert [a][1..] == [];
    } else {
      CRunSnoc(CApply(c0, acts[0]), acts[1..], c, a);
      assert (acts + [a])[0] == acts[0] && (acts + [a])[1..] == acts[1..] + [a];
    }
  }

  lemma {:induction false} CRunJoin(c0: C, acts: seq<Act>, c: C, more: seq<Act>, c': C)
    requires CRuns(c0, acts, c) && CRuns(c, more, c')
    ensures CRuns(c0, acts + more, c')
    decreases |acts|
  {
    if acts == [] {
      assert acts + more == more;
    } else {
      CRunJoin(CApply(c0, acts[0]), acts[1..], c, more, c');
      assert (acts + more)[0] == acts[0] && (acts + more)[1..] == acts[1..] + more;
    }
  }

  lemma CRunCons(c: C, a: Act, acts: seq<Act>, c': C)
    requires CEnabled(c, a) && CRuns(CApply(c, a), acts, c')
    ensures CRuns(c, [a] + acts, c')
  {
    assert ([a] + acts)[1..] == acts;
  }

  lemma ReachInv(c0: C, acts: seq<Act>, c: C)
    requires CStart(c0) && CRuns(c0, acts, c)
    ensures CInv(c)
  {
    CStartInv(c0);
    CRunInv(c0, acts, c);
  }

  // ---------- the read cache's locks ----------

  lemma RunTable(c0: C, acts: seq<Act>, c: C)
    requires CStart(c0) && CRuns(c0, acts, c)
    ensures RTable(c)
  {
    ReachInv(c0, acts, c);
  }

  /**
   * In every run, a block of the read cache has one exclusive holder, never together with a reader or with a place in
   * the prefetch channel, and whoever unlocks finds the entry that the unlock assertion demands.
   */
  lemma ReadLocksExclude(c0: C, acts: seq<Act>, c: C, b: nat, t: nat, u: nat)
    requires CStart(c0) && CRuns(c0, acts, c) && RHoldsT(c, t, b)
    ensures RHoldsT(c, u, b) ==> u == t
    ensures !RSharesT(c, u, b) && b !in c.pq
    ensures UnlockAssert(c.rl.table, b)
  {
    RunTable(c0, acts, c);
  }

  /** A block in the prefetch channel is locked, by nobody but the channel, until a worker takes it out. */
  lemma QueuedIsLocked(c0: C, acts: seq<Act>, c: C, b: nat, u: nat)
    requires CStart(c0) && CRuns(c0, acts, c) && b in c.pq
    ensures UnlockAssert(c.rl.table, b) && !RHoldsT(c, u, b) && !RSharesT(c, u, b)
  {
    RunTable(c0, acts, c);
  }

  ghost function ReadersIn(c: C, b: nat): set<nat> { set u | u in c.rpc && RShares(c.rpc[u], b) }

  lemma ReadersInSame(c: C, b: nat)
    requires ROwnInv(c)
    ensures c.rl.Readers(b) == ReadersIn(c, b)
  {
    forall u ensures u in c.rl.Readers(b) <==> u in ReadersIn(c, b) {
      assert u in ReadersIn(c, b) <==> RSharesT(c, u, b);
    }
  }

  lemma ReadReadersCounted(c0: C, acts: seq<Act>, c: C, b: nat, t: nat)
    requires CStart(c0) && CRuns(c0, acts, c) && RSharesT(c, t, b)
    ensures RUnlockAssert(c.rl.table, b) && c.rl.table[b].refer == |ReadersIn(c, b)|
  {
    RunTable(c0, acts, c);
    ReadersInSame(c, b);
  }

  lemma NoReadLocks(c: C)
    requires RTable(c) && c.pq == [] && forall t :: c.R(t).Off?
    ensures c.rl == LockState(map[], map[], map[])
  {
    assert forall t, b :: !RHoldsT(c, t, b) && !RSharesT(c, t, b);
    assert c.rl.shared == map[];
    assert c.rl.excl == map[];
    assert forall b :: c.rl.Readers(b) == {};
  }

  /** Every lock of the read cache is released, also those that a prefetch worker has to release for the scan. */
  lemma ReadAllReleased(c0: C, acts: seq<Act>, c: C)
    requires CStart(c0) && CRuns(c0, acts, c) && c.pq == [] && forall t :: c.R(t).Off?
    ensures c.rl.table == map[]
  {
    RunTable(c0, acts, c);
    NoReadLocks(c);
  }
}
