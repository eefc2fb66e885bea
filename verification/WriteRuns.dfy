/** The theorems about all runs of the write cache. */
module WriteRuns {
  import opened FlatFile
  import opened Overlay
  import opened Locks
  import opened WriteMachine
  import opened WriteInv
  import opened WriteTheorems
  import opened Durability

  ghost predicate Runs(s: W, acts: seq<Action>, s': W)
    decreases |acts|
  {
    if acts == [] then s' == s else Enabled(s, acts[0]) && Runs(Apply(s, acts[0]), acts[1..], s')
  }

  ghost predicate Full(s: W) { Inv(s) && FlushInv(s) && StatInv(s) }

  lemma {:induction false} RunSnoc(s: W, acts: seq<Action>, s': W, a: Action)
    requires Runs(s, acts, s') && Enabled(s', a)
    ensures Runs(s, acts + [a], Apply(s', a))
    decreases |acts|
  {
    if acts == [] {
      assert (acts + [a])[1..] == [];
    } else {
      RunSnoc(Apply(s, acts[0]), acts[1..], s', a);
      assert (acts + [a])[1..] == acts[1..] + [a];
    }
  }

  lemma StartFull(s: W)
    requires Start(s)
    ensures Full(s)
  {
    assert s.Cells() == map[];
    EmptyView(s.server);
  }

  lemma FullStep(s: W, a: Action)
    requires Full(s) && Enabled(s, a)
    ensures var s' := Apply(s, a); Full(s') && s'.init == s.init && s.log <= s'.log
  {
    StepKeeps(s, a);
    FlushStep(s, a);
    StatStep(s, a);
    StepLogs(s, a);
  }

  lemma {:induction false} RunFull(s: W, acts: seq<Action>, s': W)
    requires Full(s) && Runs(s, acts, s')
    ensures Full(s') && s'.init == s.init && s.log <= s'.log
    decreases |acts|
  {
    if acts != [] {
      FullStep(s, acts[0]);
      RunFull(Apply(s, acts[0]), acts[1..], s');
    }
  }

  /**
   * Over every run, the view changes exactly by the block writes that took effect, in order:
   * flushes, expiry, background completions, failures and pool exhaustion never show.
   */
  lemma ViewOverRuns(s: W, acts: seq<Action>, s': W)
    requires Start(s) && Runs(s, acts, s')
    ensures ViewOf(s') == Replay(s.server, s'.log)
  {
    StartFull(s);
    RunFull(s, acts, s');
  }

  // ---------- one Write ----------

  predicate Writing(s: W, t: nat, ops: seq<Op>) { s.At(t) && s.threads[t].job.WriteJob? && s.threads[t].job.ops == ops }

  /** How many ops of t's Write are part of the view. */
  function Progress(s: W, t: nat): nat
    requires s.At(t) && s.threads[t].job.WriteJob?
  {
    s.threads[t].job.next + if s.threads[t].job.applied then 1 else 0
  }

  /** t stays in the same Write from s to the end of the run. */
  ghost predicate Throughout(s: W, acts: seq<Action>, t: nat, ops: seq<Op>)
    decreases |acts|
  {
    Writing(s, t, ops) && (acts != [] ==> Enabled(s, acts[0]) && Throughout(Apply(s, acts[0]), acts[1..], t, ops))
  }

  ghost function StepMine(s: W, a: Action, t: nat): seq<Op>
    requires Enabled(s, a)
  {
    if a.Run? && a.t == t && Apply(s, a).log != s.log then [s.threads[t].job.Cur()] else []
  }

  /** The ops that t's own steps made part of the view. */
  ghost function Mine(s: W, acts: seq<Action>, t: nat): seq<Op>
    decreases |acts|
  {
    if acts == [] || !Enabled(s, acts[0]) then [] else
      StepMine(s, acts[0], t) + Mine(Apply(s, acts[0]), acts[1..], t)
  }

  /**
   * A step of t applies its next op and counts it, or applies nothing; a Write that ends without error has applied
   * all.
   */
  ghost predicate Advances(s: W, s': W, t: nat, ops: seq<Op>)
    requires Writing(s, t, ops)
  {
    if Writing(s', t, ops) then
      || (s'.log == s.log && Progress(s', t) == Progress(s, t))
      || (Progress(s, t) < |ops| && s'.log == s.log + [ops[Progress(s, t)]] && Progress(s', t) == Progress(s, t) + 1)
    else s'.log == s.log && s'.Is(t, Idle) && (s.threads[t].failed || Progress(s, t) == |ops|)
  }

  lemma RunProgress(s: W, t: nat, o: Outcome, ops: seq<Op>)
    requires Acts(s, t) && Writing(s, t, ops)
    ensures Advances(s, StepRun(s, t, o), t, ops)
  {
    match s.threads[t].stage
    case Wait => assert Advances(s, StepAcquire(s, t), t, ops);
    case Held => LookupProgress(s, t, ops);
    case Direct => DirectProgress(s, t, o, ops);
    case Release => ReleaseProgress(s, t, ops);
    case Fresh(_) => AttachProgress(s, t, ops);
    case Own(_) => MergeProgress(s, t, ops);
    case Flush(_) => WriteBackProgress(s, t, o, ops);
    case Reset(_) => ResetProgress(s, t, ops);
    case Detach(_) => assert Advances(s, StepDetach(s, t), t, ops);
    case Free(_) => FreeProgress(s, t, ops);
    case Send(_) => SendProgress(s, t, ops);
    case Touch(_) => assert Advances(s, StepTouch(s, t), t, ops);
  }

  lemma LookupProgress(s: W, t: nat, ops: seq<Op>)
    requires AtStage(s, t, Held) && Writing(s, t, ops)
    ensures Advances(s, StepLookup(s, t), t, ops)
  {}

  lemma DirectProgress(s: W, t: nat, o: Outcome, ops: seq<Op>)
    requires Acts(s, t) && AtStage(s, t, Direct) && Writing(s, t, ops)
    ensures Advances(s, StepDirect(s, t, o), t, ops)
  {}

  lemma ReleaseProgress(s: W, t: nat, ops: seq<Op>)
    requires Acts(s, t) && AtStage(s, t, Release) && Writing(s, t, ops)
    ensures Advances(s, StepRelease(s, t), t, ops)
  {}

  lemma MergeProgress(s: W, t: nat, ops: seq<Op>)
    requires Acts(s, t) && s.threads[t].stage.Own? && Writing(s, t, ops)
    ensures Advances(s, StepMerge(s, t), t, ops)
  {}

  lemma WriteBackProgress(s: W, t: nat, o: Outcome, ops: seq<Op>)
    requires s.At(t) && s.threads[t].stage.Flush? && Writing(s, t, ops)
    ensures Advances(s, StepWriteBack(s, t, o), t, ops)
  {}

  lemma FreeProgress(s: W, t: nat, ops: seq<Op>)
    requires s.At(t) && s.threads[t].stage.Free? && Writing(s, t, ops)
    ensures Advances(s, StepFree(s, t), t, ops)
  {}

  lemma AttachProgress(s: W, t: nat, ops: seq<Op>)
    requires Acts(s, t) && s.threads[t].stage.Fresh? && Writing(s, t, ops)
    ensures Advances(s, StepAttach(s, t), t, ops)
  {}

  lemma ResetProgress(s: W, t: nat, ops: seq<Op>)
    requires Acts(s, t) && s.threads[t].stage.Reset? && Writing(s, t, ops)
    ensures Advances(s, StepReset(s, t), t, ops)
  {}

  lemma SendProgress(s: W, t: nat, ops: seq<Op>)
    requires Acts(s, t) && s.threads[t].stage.Send? && Writing(s, t, ops)
    ensures Advances(s, StepSend(s, t), t, ops)
  {}

  /** The steps of other threads leave t's Write where it is. */
  lemma OtherProgress(s: W, a: Action, t: nat, ops: seq<Op>)
    requires Inv(s) && Enabled(s, a) && Writing(s, t, ops) && !(a.Run? && a.t == t)
    ensures Apply(s, a).Is(t, s.threads[t])
  {
    match a
    case Run(u, o) => RunMoves(s, u, o); assert JobOk(s, u, s.threads[u].job);
    case RunStat(u) => StatThreads(s, u);
    case _ => PlainProgress(s, a, t);
  }

  lemma PlainProgress(s: W, a: Action, t: nat)
    requires Enabled(s, a) && !a.Run? && !a.RunStat? && s.At(t)
    ensures Apply(s, a).Is(t, s.threads[t])
  {}

  lemma RunPrefix(s: W, t: nat, o: Outcome, ops: seq<Op>)
    requires Acts(s, t) && Writing(s, t, ops) && Writing(StepRun(s, t, o), t, ops)
    requires Advances(s, StepRun(s, t, o), t, ops)
    ensures Progress(s, t) <= Progress(StepRun(s, t, o), t) <= |ops|
    ensures StepMine(s, Run(t, o), t) == ops[Progress(s, t)..Progress(StepRun(s, t, o), t)]
  {
    if !s.threads[t].job.applied { ProgressOp(s, t); } else { AppliedOnce(s, t, o); }
  }

  lemma PrefixStep(s: W, a: Action, t: nat, ops: seq<Op>)
    requires Inv(s) && Enabled(s, a) && Writing(s, t, ops) && Writing(Apply(s, a), t, ops)
    ensures Progress(s, t) <= Progress(Apply(s, a), t) <= |ops|
    ensures StepMine(s, a, t) == ops[Progress(s, t)..Progress(Apply(s, a), t)]
  {
    assert JobOk(s, t, s.threads[t].job);
    if a.Run? && a.t == t {
      assert Acts(s, t);
      RunProgress(s, t, a.o, ops);
      RunPrefix(s, t, a.o, ops);
    } else {
      OtherProgress(s, a, t, ops);
    }
  }

  /** An op that is part of the view is not applied again. */
  lemma AppliedOnce(s: W, t: nat, o: Outcome)
    requires Acts(s, t) && s.threads[t].job.WriteJob? && s.threads[t].job.applied
    ensures StepRun(s, t, o).log == s.log
  {}

  /** At every moment of a Write, the ops it has made part of the view are a prefix of its ops, in order. */
  lemma {:induction false} WritePrefix(s: W, acts: seq<Action>, s': W, t: nat, ops: seq<Op>)
    requires Inv(s) && Runs(s, acts, s') && Throughout(s, acts, t, ops)
    ensures Writing(s', t, ops) && Progress(s, t) <= Progress(s', t) <= |ops|
    ensures Mine(s, acts, t) == ops[Progress(s, t)..Progress(s', t)]
    decreases |acts|
  {
    if acts == [] {
      assert JobOk(s, t, s.threads[t].job);
    } else {
      var s1 := Apply(s, acts[0]);
      StepKeeps(s, acts[0]);
      PrefixStep(s, acts[0], t, ops);
      WritePrefix(s1, acts[1..], s', t, ops);
      Slices(ops, Progress(s, t), Progress(s1, t), Progress(s', t));
    }
  }

  lemma Slices(ops: seq<Op>, i: nat, j: nat, k: nat)
    requires i <= j <= k <= |ops|
    ensures ops[i..j] + ops[j..k] == ops[i..k]
  {}

  lemma ProgressOp(s: W, t: nat)
    requires Acts(s, t) && s.threads[t].job.WriteJob? && !s.threads[t].job.applied
    ensures Progress(s, t) < |s.threads[t].job.ops| && s.threads[t].job.Cur() == s.threads[t].job.ops[Progress(s, t)]
  {}

  /**
   * When a Write ends, it has applied all of its ops; or it failed at op number next, and has applied
   * exactly the ops before that one, or those and that one.
   */
  lemma WriteEnds(s: W, a: Action, t: nat, ops: seq<Op>)
    requires Inv(s) && Enabled(s, a) && Writing(s, t, ops) && !Writing(Apply(s, a), t, ops)
    ensures Apply(s, a).log == s.log
    ensures !s.threads[t].failed ==> Progress(s, t) == |ops|
    ensures s.threads[t].failed ==>
              Progress(s, t) == s.threads[t].job.next || Progress(s, t) == s.threads[t].job.next + 1
  {
    if a.Run? && a.t == t {
      assert Acts(s, t);
      RunProgress(s, t, a.o, ops);
    } else {
      OtherProgress(s, a, t, ops);
    }
  }

  // ---------- Flush ----------

  lemma {:induction false} ReplayKeeps(f: Content, log: seq<Op>, mark: nat, p: nat)
    requires mark <= |log| && !Overwritten(log, mark, p)
    ensures FlatFile.At(Replay(f, log), p) == FlatFile.At(Replay(f, log[..mark]), p)
    decreases |log|
  {
    if mark == |log| {
      assert log[..mark] == log;
    } else {
      var last := log[|log| - 1];
      assert !last.Covers(p);
      AtWrite(Replay(f, log[..|log| - 1]), last.FileOffset(), last.data, p);
      ReplayKeeps(f, log[..|log| - 1], mark, p);
      assert log[..|log| - 1][..mark] == log[..mark];
    }
  }

  /**
   * When Flush returns without error, every byte that was buffered when it began is on the server with the
   * value it had then, or a later write covered it.
   */
  lemma FlushDurable(s0: W, acts: seq<Action>, s: W, t: nat, p: nat)
    requires Start(s0) && Runs(s0, acts, s) && Enabled(s, EndFlush(t)) && !s.threads[t].ferr
    requires Dirty(s.threads[t].start, p)
    ensures s.threads[t].mark <= |s.log|
    ensures || Overwritten(s.log, s.threads[t].mark, p)
            || (p < |s.server| && s.server[p] == FlatFile.At(Replay(s0.server, s.log[..s.threads[t].mark]), p))
  {
    StartFull(s0);
    RunFull(s0, acts, s);
    assert GatherOk(s, s.threads[t]);
    CellsAreOk(s);
    Durable(s, s.threads[t], p);
  }

  lemma Durable(s: W, g: Pc, p: nat)
    requires g.Gather? && GatherOk(s, g) && g.left == {} && g.out == map[] && !g.ferr && Dirty(g.start, p)
    requires CellsOk(s.Cells()) && ViewInv(s)
    ensures || Overwritten(s.log, g.mark, p)
            || (p < |s.server| && s.server[p] == FlatFile.At(Replay(s.init, s.log[..g.mark]), p))
  {
    if !Overwritten(s.log, g.mark, p) {
      ReplayKeeps(s.init, s.log, g.mark, p);
      AtView(s.server, s.Cells(), p);
    }
  }

  /** With no write taking effect during a Flush that ends without error, no buffer is left. */
  lemma FlushEmpties(s0: W, acts: seq<Action>, s: W, t: nat)
    requires Start(s0) && Runs(s0, acts, s) && Enabled(s, EndFlush(t)) && !s.threads[t].ferr
    requires |s.log| == s.threads[t].mark
    ensures s.attached == map[]
  {
    StartFull(s0);
    RunFull(s0, acts, s);
    assert GatherOk(s, s.threads[t]);
  }

  /** And the server file is then the whole view, byte for byte. */
  lemma FlushComplete(s0: W, acts: seq<Action>, s: W, t: nat)
    requires Start(s0) && Runs(s0, acts, s) && Enabled(s, EndFlush(t)) && !s.threads[t].ferr
    requires |s.log| == s.threads[t].mark
    ensures s.server == ViewOf(s)
  {
    FlushEmpties(s0, acts, s, t);
    assert s.Cells() == map[];
    EmptyView(s.server);
  }

  // ---------- Fstat ----------

  /** The size that Fstat reports lies between the view size when it began and the view size now. */
  lemma FstatBounds(s0: W, acts: seq<Action>, s: W, t: nat)
    requires Start(s0) && Runs(s0, acts, s) && AtStat(s, t) && s.threads[t].at.Told?
    ensures s.threads[t].size0 <= s.threads[t].at.n <= |ViewOf(s)|
  {
    StartFull(s0);
    RunFull(s0, acts, s);
    assert StatOk(s, s.threads[t]);
  }

  // ---------- locks ----------

  /**
   * In every run: at most one goroutine holds a block for writing, never together with a reader or a queued
   * buffer; and whoever unlocks finds the entry that the unlock assertion demands.
   */
  lemma LocksExclude(s0: W, acts: seq<Action>, s: W, b: nat, t: nat, u: nat)
    requires Start(s0) && Runs(s0, acts, s) && HoldsT(s, t, b)
    ensures HoldsT(s, u, b) ==> u == t
    ensures !SharesT(s, u, b) && (b in s.attached ==> s.attached[b] !in s.queue)
    ensures UnlockAssert(s.lk.table, b)
  {
    StartFull(s0);
    RunFull(s0, acts, s);
  }

  ghost function ReadersOf(s: W, b: nat): set<nat> { set u | u in s.threads && Shares(s.threads[u], b) }

  lemma ReadersSame(s: W, b: nat)
    requires OwnInv(s)
    ensures s.lk.Readers(b) == ReadersOf(s, b)
  {
    forall u ensures u in s.lk.Readers(b) <==> u in ReadersOf(s, b) {
      assert u in ReadersOf(s, b) <==> SharesT(s, u, b);
    }
  }

  lemma ReadersCounted(s0: W, acts: seq<Action>, s: W, b: nat, t: nat)
    requires Start(s0) && Runs(s0, acts, s) && SharesT(s, t, b)
    ensures RUnlockAssert(s.lk.table, b) && s.lk.table[b].refer == |ReadersOf(s, b)|
  {
    StartFull(s0);
    RunFull(s0, acts, s);
    ReadersSame(s, b);
  }

  lemma NoLocks(s: W)
    requires OwnInv(s) && QueueInv(s) && s.queue == [] && Resting(s)
    ensures s.lk == LockState(map[], map[], map[])
  {
    assert forall t, b :: !HoldsT(s, t, b) && !SharesT(s, t, b);
    assert s.lk.shared == map[];
    assert s.lk.excl == map[];
    assert forall b :: s.lk.Readers(b) == {};
  }

  /** Every lock that was taken is released: once nothing is under way, the table is empty. */
  lemma AllReleased(s0: W, acts: seq<Action>, s: W)
    requires Start(s0) && Runs(s0, acts, s) && s.queue == [] && Resting(s)
    ensures s.lk.table == map[]
  {
    StartFull(s0);
    RunFull(s0, acts, s);
    NoLocks(s);
  }

  // ---------- the buffer pool ----------

  ghost function Elems(q: seq<nat>): set<nat> { set x | x in q }

  ghost function Hands(s: W): set<nat> { set id | id in s.place && s.place[id].InHand? }

  ghost function LentOut(s: W): set<nat> { set id | id in s.place && s.place[id].Lent? }

  lemma {:induction false} ElemsCount(q: seq<nat>)
    requires Distinct(q)
    ensures |Elems(q)| == |q|
  {
    if q != [] {
      TailIs(q);
      ElemsCount(q[1..]);
      assert Elems(q) == Elems(q[1..]) + {q[0]};
      assert q[0] !in Elems(q[1..]);
    }
  }

  lemma {:induction false} ValuesOf(m: map<nat, nat>)
    requires forall a, b :: a in m && b in m && m[a] == m[b] ==> a == b
    ensures |m.Values| == |m|
    decreases |m|
  {
    if m != map[] {
      var k :| k in m;
      var rest := m - {k};
      assert m == rest[k := m[k]];
      ValuesOf(rest);
      assert m.Values == rest.Values + {m[k]};
      assert m[k] !in rest.Values;
    }
  }

  /** No buffer is lost or duplicated: free, attached, in-hand and lent buffers always add up to the pool. */
  lemma PoolConserved(s0: W, acts: seq<Action>, s: W)
    requires Start(s0) && Runs(s0, acts, s)
    ensures |s.pool| == |s.free| + |s.attached| + |Hands(s)| + |LentOut(s)|
    ensures forall id :: id in s.free ==> id !in s.lru
  {
    StartFull(s0);
    RunFull(s0, acts, s);
    PoolCount(s);
  }

  lemma PoolParts(s: W)
    requires PoolInv(s)
    ensures s.pool.Keys == Elems(s.free) + s.attached.Values + Hands(s) + LentOut(s)
    ensures Elems(s.free) !! s.attached.Values !! Hands(s) !! LentOut(s)
    ensures forall a, b :: a in s.attached && b in s.attached && s.attached[a] == s.attached[b] ==> a == b
  {
    forall id ensures id in s.attached.Values <==> id in s.place && s.place[id].AtBlock? {
      if id in s.place && s.place[id].AtBlock? { assert s.attached[s.place[id].b] == id; }
    }
    forall id ensures id in Elems(s.free) <==> id in s.place && s.place[id].InFree? {}
  }

  lemma PoolCount(s: W)
    requires PoolInv(s)
    ensures |s.pool| == |s.free| + |s.attached| + |Hands(s)| + |LentOut(s)|
  {
    PoolParts(s);
    ElemsCount(s.free);
    ValuesOf(s.attached);
    assert |Elems(s.free) + s.attached.Values| == |Elems(s.free)| + |s.attached.Values|;
    assert |Elems(s.free) + s.attached.Values + Hands(s)| == |Elems(s.free) + s.attached.Values| + |Hands(s)|;
    assert |s.pool| == |s.pool.Keys|;
  }

  predicate IsFree(s: W, id: nat) { id in s.free }

  /** Attached, at the block that the buffer was reset for. */
  predicate IsHome(s: W, id: nat) { s.Buf(id).blk in s.attached && s.attached[s.Buf(id).blk] == id }

  ghost predicate IsCarried(s: W, id: nat) { exists t :: CarriesT(s, t, id) }

  predicate IsLent(s: W, id: nat) { id in s.place && s.place[id].Lent? }

  /**
   * Every buffer of the pool is free, attached, carried or with another file: exactly one of these, and carried by at
   * most one operation.
   */
  lemma PlacedOnce(s0: W, acts: seq<Action>, s: W, id: nat)
    requires Start(s0) && Runs(s0, acts, s) && id in s.pool
    ensures IsFree(s, id) || IsHome(s, id) || IsCarried(s, id) || IsLent(s, id)
    ensures IsLent(s, id) ==> !IsFree(s, id) && !IsHome(s, id) && !IsCarried(s, id)
    ensures !(IsFree(s, id) && IsHome(s, id)) && !(IsFree(s, id) && IsCarried(s, id))
    ensures !(IsHome(s, id) && IsCarried(s, id))
    ensures forall t, u :: CarriesT(s, t, id) && CarriesT(s, u, id) ==> t == u
  {
    RunPool(s0, acts, s);
    PlaceOf(s, id);
  }

  lemma RunPool(s0: W, acts: seq<Action>, s: W)
    requires Start(s0) && Runs(s0, acts, s)
    ensures PoolInv(s)
  {
    StartFull(s0);
    RunFull(s0, acts, s);
  }

  lemma PlaceOf(s: W, id: nat)
    requires PoolInv(s) && id in s.pool
    ensures IsFree(s, id) <==> s.place[id].InFree?
    ensures IsHome(s, id) <==> s.place[id].AtBlock?
    ensures IsCarried(s, id) <==> s.place[id].InHand?
    ensures forall t, u :: CarriesT(s, t, id) && CarriesT(s, u, id) ==> t == u
  {
    assert id in s.place;
    if s.place[id].InHand? { assert CarriesT(s, s.place[id].t, id); }
  }

  /** An attached buffer whose block is unlocked is on the LRU list, once, or an expiry step has just taken it. */
  lemma Accounted(s0: W, acts: seq<Action>, s: W, b: nat)
    requires Start(s0) && Runs(s0, acts, s) && b in s.attached && CanLock(s.lk.table, b)
    ensures Distinct(s.lru) && (s.attached[b] in s.lru || exists t :: Waiting(s, t, b))
  {
    RunListed(s0, acts, s);
    assert Listed(s, b);
  }

  lemma RunListed(s0: W, acts: seq<Action>, s: W)
    requires Start(s0) && Runs(s0, acts, s)
    ensures LruInv(s) && ListInv(s) && s.lk.Inv()
  {
    StartFull(s0);
    RunFull(s0, acts, s);
  }

  /** Testing only the tail of the LRU list is enough: if it is young, every listed buffer is. */
  lemma ExpiryComplete(s0: W, acts: seq<Action>, s: W, id: nat)
    requires Start(s0) && Runs(s0, acts, s) && !Expired(s) && id in s.lru
    ensures s.now - s.Buf(id).stamp < s.cfg.expire
  {
    RunLru(s0, acts, s);
    TailOldest(s, id);
  }

  lemma RunLru(s0: W, acts: seq<Action>, s: W)
    requires Start(s0) && Runs(s0, acts, s)
    ensures LruInv(s)
  {
    StartFull(s0);
    RunFull(s0, acts, s);
  }

  lemma TailOldest(s: W, id: nat)
    requires LruInv(s) && id in s.lru
    ensures s.Buf(id).stamp >= s.Buf(s.lru[|s.lru| - 1]).stamp
  {
    var i :| 0 <= i < |s.lru| && s.lru[i] == id;
  }

  // ---------- errors ----------

  /** Neither a Write nor a flush is about to fail. */
  ghost predicate NoError(s: W) {
    forall t :: t in s.threads ==>
      !(s.threads[t].Busy? && s.threads[t].failed) && !(s.threads[t].Gather? && s.threads[t].ferr)
  }

  lemma RunErrors(s: W, t: nat)
    requires NoError(s) && CanRun(s, t)
    ensures NoError(StepRun(s, t, Done))
  {
    if WritingOut(s.threads[t].stage) { OutErrors(s, t); } else { BufferErrors(s, t); }
  }

  lemma OutErrors(s: W, t: nat)
    requires NoError(s) && CanRun(s, t) && !Buffering(s.threads[t].stage)
    ensures NoError(StepRun(s, t, Done))
  {
    if s.threads[t].stage.Release? {
      assert NoError(StepRelease(s, t));
    } else if s.threads[t].stage.Free? {
      assert NoError(StepFree(s, t));
    }
  }

  lemma BufferErrors(s: W, t: nat)
    requires NoError(s) && CanRun(s, t) && !WritingOut(s.threads[t].stage)
    ensures NoError(StepRun(s, t, Done))
  {
    if s.threads[t].stage.Held? {
      assert NoError(StepLookup(s, t));
    } else if s.threads[t].stage.Own? {
      assert NoError(StepMerge(s, t));
    } else if s.threads[t].stage.Send? {
      assert NoError(StepSend(s, t));
    }
  }

  lemma ErrorStep(s: W, a: Action)
    requires NoError(s) && Enabled(s, a) && (a.Run? ==> a.o.Done?)
    ensures NoError(Apply(s, a))
  {
    if a.Run? { RunErrors(s, a.t); } else if a.RunStat? { StatErrors(s, a.t); }
  }

  lemma StatErrors(s: W, t: nat)
    requires NoError(s) && CanStat(s, t)
    ensures NoError(StepStat(s, t))
  {}

  lemma {:induction false} ErrorRun(s: W, acts: seq<Action>, s': W)
    requires NoError(s) && Runs(s, acts, s') && forall i :: 0 <= i < |acts| && acts[i].Run? ==> acts[i].o.Done?
    ensures NoError(s')
    decreases |acts|
  {
    if acts != [] {
      ErrorStep(s, acts[0]);
      ErrorRun(Apply(s, acts[0]), acts[1..], s');
    }
  }

  /** An error needs a failed server call: in every run without one, no Write and no Flush fails. */
  lemma NoFalseErrors(s0: W, acts: seq<Action>, s: W)
    requires Start(s0) && Runs(s0, acts, s) && forall i :: 0 <= i < |acts| && acts[i].Run? ==> acts[i].o.Done?
    ensures NoError(s)
  {
    ErrorRun(s0, acts, s);
  }

  // ---------- the workers of a Flush ----------

  /** No Flush has more workers in s' than it had in s. */
  ghost predicate NoMoreWorkers(s: W, s': W) {
    forall t :: t in s'.threads && s'.threads[t].Gather? ==>
      || s'.threads[t].out == map[]
      || (t in s.threads && s.threads[t].Gather? && s'.threads[t].out.Keys <= s.threads[t].out.Keys)
  }

  ghost predicate FewWorkers(s: W) { forall t :: t in s.threads && s.threads[t].Gather? ==> |s.threads[t].out| <= 8 }

  lemma LookWorkers(s: W, t: nat, o: Outcome)
    requires CanRun(s, t) && (s.threads[t].stage.Wait? || s.threads[t].stage.Held? || s.threads[t].stage.Own?)
    ensures NoMoreWorkers(s, StepRun(s, t, o))
  {}

  lemma StoreWorkers(s: W, t: nat, o: Outcome)
    requires CanRun(s, t) && (s.threads[t].stage.Fresh? || s.threads[t].stage.Send? || s.threads[t].stage.Touch?)
    ensures NoMoreWorkers(s, StepRun(s, t, o))
  {}

  lemma ServerWorkers(s: W, t: nat, o: Outcome)
    requires CanRun(s, t) && (s.threads[t].stage.Direct? || s.threads[t].stage.Flush?)
    ensures NoMoreWorkers(s, StepRun(s, t, o))
  {}

  lemma LeaveWorkers(s: W, t: nat, o: Outcome)
    requires CanRun(s, t) && s.threads[t].stage.Release?
    ensures NoMoreWorkers(s, StepRun(s, t, o))
  {}

  lemma DropWorkers(s: W, t: nat, o: Outcome)
    requires CanRun(s, t) && (s.threads[t].stage.Reset? || s.threads[t].stage.Detach? || s.threads[t].stage.Free?)
    ensures NoMoreWorkers(s, StepRun(s, t, o))
  {}

  lemma RunWorkers(s: W, t: nat, o: Outcome)
    requires CanRun(s, t)
    ensures NoMoreWorkers(s, StepRun(s, t, o))
  {
    var st := s.threads[t].stage;
    if st.Release? {
      LeaveWorkers(s, t, o);
    } else if st.Direct? || st.Flush? {
      ServerWorkers(s, t, o);
    } else if st.Wait? || st.Held? || st.Own? {
      LookWorkers(s, t, o);
    } else if st.Fresh? || st.Send? || st.Touch? {
      StoreWorkers(s, t, o);
    } else {
      DropWorkers(s, t, o);
    }
  }

  lemma StatWorkers(s: W, t: nat)
    requires CanStat(s, t)
    ensures NoMoreWorkers(s, StepStat(s, t))
  {}

  lemma OtherWorkers(s: W, a: Action)
    requires Enabled(s, a) && !a.Run? && !a.RunStat? && !a.Spawn?
    ensures NoMoreWorkers(s, Apply(s, a))
  {}

  lemma FewerStay(s: W, s': W)
    requires FewWorkers(s) && NoMoreWorkers(s, s')
    ensures FewWorkers(s')
  {
    forall t | t in s'.threads && s'.threads[t].Gather? ensures |s'.threads[t].out| <= 8 {
      if s'.threads[t].out != map[] { KeysCount(s'.threads[t].out, s.threads[t].out); }
    }
  }

  lemma KeysCount(m: map<nat, nat>, n: map<nat, nat>)
    requires m.Keys <= n.Keys
    ensures |m| <= |n|
  {
    SubsetCount(m.Keys, n.Keys);
    assert |m| == |m.Keys| && |n| == |n.Keys|;
  }

  lemma {:induction false} SubsetCount(x: set<nat>, y: set<nat>)
    requires x <= y
    ensures |x| <= |y|
  {
    if x != {} {
      var e :| e in x;
      SubsetCount(x - {e}, y - {e});
    }
  }

  lemma SpawnWorkers(s: W, t: nat, c: nat, b: nat)
    requires FewWorkers(s) && Enabled(s, Spawn(t, c, b))
    ensures FewWorkers(Apply(s, Spawn(t, c, b)))
  {
    var out := s.threads[c].out;
    assert out[b := t].Keys == out.Keys + {b};
    assert |out[b := t]| == |out[b := t].Keys| && |out| == |out.Keys|;
  }

  lemma WorkersStep(s: W, a: Action)
    requires FewWorkers(s) && Enabled(s, a)
    ensures FewWorkers(Apply(s, a))
  {
    if a.Spawn? {
      SpawnWorkers(s, a.t, a.c, a.b);
    } else {
      if a.RunStat? {
        StatWorkers(s, a.t);
      } else if !a.Run? {
        OtherWorkers(s, a);
      } else {
        RunWorkers(s, a.t, a.o);
      }
      FewerStay(s, Apply(s, a));
    }
  }

  lemma {:induction false} WorkersRun(s: W, acts: seq<Action>, s': W)
    requires FewWorkers(s) && Runs(s, acts, s')
    ensures FewWorkers(s')
    decreases |acts|
  {
    if acts != [] {
      WorkersStep(s, acts[0]);
      WorkersRun(Apply(s, acts[0]), acts[1..], s');
    }
  }

  /** In every run a Flush has at most eight workers at a time. */
  lemma EightWorkers(s0: W, acts: seq<Action>, s: W, t: nat)
    requires Start(s0) && Runs(s0, acts, s) && t in s.threads && s.threads[t].Gather?
    ensures |s.threads[t].out| <= 8
  {
    WorkersRun(s0, acts, s);
  }

  // ---------- what other files can do ----------

  lemma {:induction false} ChannelFills(s: W) returns (acts: seq<Action>, s': W)
    requires s.cfg.async && |s.queue| + s.others <= s.cfg.cap
    ensures Runs(s, acts, s') && s' == s.(others := s.cfg.cap - |s.queue|)
    decreases s.cfg.cap - s.others
  {
    acts, s' := [], s;
    if |s.queue| + s.others < s.cfg.cap {
      acts, s' := ChannelFills(StepOther(s, Crowd));
      acts := [Other(Crowd)] + acts;
    }
  }

  /** From every state, other files can take every free buffer and fill the channel, with this file left as it is. */
  lemma {:induction false} OthersStarve(s: W) returns (acts: seq<Action>, s': W)
    requires |s.queue| + s.others <= s.cfg.cap
    ensures Runs(s, acts, s') && s'.free == [] && (s.cfg.async ==> |s'.queue| + s'.others == s.cfg.cap)
    ensures s'.server == s.server && s'.attached == s.attached && s'.pool == s.pool && s'.threads == s.threads
    decreases |s.free|
  {
    acts, s' := [], s;
    if s.free != [] {
      acts, s' := OthersStarve(StepOther(s, Borrow));
      acts := [Other(Borrow)] + acts;
    } else if s.cfg.async {
      acts, s' := ChannelFills(s);
    }
  }
}
