/**
 * WCache as the object it is.  Every method is proved to be a run of the write-cache machine, so that what holds of
 * all runs holds of the object.  The methods run one client goroutine; when it must wait for a lock or for room in
 * the channel, a background writer takes a turn.
 */
module WriteCache {
  import opened FlatFile
  import opened Overlay
  import opened Locks
  import opened Slicing
  import opened WriteMachine
  import opened WriteInv
  import opened WriteTheorems
  import opened Durability
  import opened WriteRuns
  import opened Truncation

  /**
   * s is reached from the start state s0 by acts, and no other file has a buffer.  The count of folds says how often
   * the definition is wrapped in itself; at two, which is what every contract below uses, the verifier does not unfold
   * it, and `Folded` opens it.
   */
  ghost predicate Ran(s0: W, acts: seq<Action>, s: W, folds: nat) {
    if folds == 0 then Start(s0) && Runs(s0, acts, s) && NoneLent(s) else Ran(s0, acts, s, folds - 1)
  }

  ghost predicate NoneLent(s: W) { forall id :: id in s.place ==> !s.place[id].Lent? }

  lemma StaysHome(s: W, a: Action)
    requires NoneLent(s) && Enabled(s, a) && !a.Other?
    ensures NoneLent(Apply(s, a))
  {
    if a.Run? { RunHome(s, a.t, a.o); } else if a.RunStat? { StatHome(s, a.t); }
  }

  lemma RunHome(s: W, t: nat, o: Outcome)
    requires NoneLent(s) && CanRun(s, t)
    ensures NoneLent(StepRun(s, t, o))
  {
    if WritingOut(s.threads[t].stage) { OutHome(s, t, o); } else { BufferHome(s, t, o); }
  }

  lemma OutHome(s: W, t: nat, o: Outcome)
    requires NoneLent(s) && CanRun(s, t) && !Buffering(s.threads[t].stage)
    ensures NoneLent(StepRun(s, t, o))
  {
    if s.threads[t].stage.Release? {
      assert StepRelease(s, t).place == s.place;
    } else if s.threads[t].stage.Free? {
      assert NoneLent(StepFree(s, t));
    }
  }

  lemma BufferHome(s: W, t: nat, o: Outcome)
    requires NoneLent(s) && CanRun(s, t) && !WritingOut(s.threads[t].stage)
    ensures NoneLent(StepRun(s, t, o))
  {
    if s.threads[t].stage.Held? {
      assert NoneLent(StepLookup(s, t));
    } else if s.threads[t].stage.Own? {
      assert StepMerge(s, t).place == s.place;
    }
  }

  lemma StatHome(s: W, t: nat)
    requires CanStat(s, t)
    ensures StepStat(s, t).place == s.place
  {}

  lemma Folded(s0: W, acts: seq<Action>, s: W)
    ensures Ran(s0, acts, s, 2) <==> Start(s0) && Runs(s0, acts, s) && NoneLent(s)
  {
    assert Ran(s0, acts, s, 2) <==> Ran(s0, acts, s, 1);
    assert Ran(s0, acts, s, 1) <==> Ran(s0, acts, s, 0);
  }

  /** Nobody but t is under way, apart from buffers in the channel and flushes that wait for t. */
  ghost predicate Alone(s: W, t: nat) {
    forall u :: u in s.threads && u != t ==> s.threads[u].Idle? || s.threads[u].Gather?
  }

  /** Everybody but t is idle. */
  ghost predicate Others(s: W, t: nat) { forall u :: u in s.threads && u != t ==> s.threads[u].Idle? }

  /** pc has a buffer to read or write. */
  predicate Uses(pc: Pc, id: nat) {
    pc.Busy? && (pc.stage == Own(id) || pc.stage == Stage.Flush(id) || pc.stage == Touch(id) || pc.stage == Detach(id))
  }

  lemma BufferHeld(s: W, t: nat, id: nat)
    requires Inv(s) && t in s.threads && Uses(s.threads[t], id)
    ensures id in s.pool && s.threads[t].job.Blk() in s.attached && s.attached[s.threads[t].job.Blk()] == id
  {
    assert StageOkT(s, t);
  }

  /** Whoever waits for a lock when nobody else is under way waits for that block's own buffer in the channel. */
  lemma QueueHolds(s: W, t: nat, b: nat)
    requires Inv(s) && Alone(s, t) && b in s.lk.table && !HoldsT(s, t, b) && !SharesT(s, t, b)
    ensures b in s.attached && s.attached[b] in s.queue
  {
    NobodyHolds(s, t, b);
    NobodyOwns(s, b);
  }

  lemma NobodyHolds(s: W, t: nat, b: nat)
    requires Alone(s, t) && !HoldsT(s, t, b) && !SharesT(s, t, b)
    ensures forall u :: !HoldsT(s, u, b) && !SharesT(s, u, b)
  {}

  lemma NobodyOwns(s: W, b: nat)
    requires OwnInv(s) && QueueInv(s) && b in s.lk.table && forall u :: !HoldsT(s, u, b) && !SharesT(s, u, b)
    ensures b in s.attached && s.attached[b] in s.queue
  {
    assert s.lk.Readers(b) == {};
    assert b in s.lk.excl && s.lk.excl[b].Queue?;
  }

  /** A background writer is free to take the next buffer. */
  lemma WorkerIdle(s: W, t: nat, w: nat)
    requires Inv(s) && Alone(s, t) && t !in s.cfg.workers && w in s.cfg.workers
    ensures s.Is(w, Idle)
  {}

  lemma NotWorker(s: W, t: nat)
    requires Inv(s) && s.At(t) && !s.threads[t].job.SyncJob?
    ensures t !in s.cfg.workers
  {}

  /** From s to s' only t moves, to pc, and log is the list of ops that have taken effect. */
  ghost predicate Goes(s: W, s': W, t: nat, pc: Pc, log: seq<Op>) {
    s'.threads == s.threads[t := pc] && Logged(s, s', log)
  }

  ghost predicate Logged(s: W, s': W, log: seq<Op>) { s'.init == s.init && s'.log == log }

  /** Nothing is under way, apart from buffers in the channel. */
  ghost predicate AllIdle(s: W) { forall u :: u in s.threads ==> s.threads[u].Idle? }

  /** What follows a merge: a full buffer goes to a background writer, or to the server if there is none. */
  function AfterMerge(c: Cell, async: bool, id: nat): Stage {
    if !c.IsFull() then Touch(id) else if async then Send(id) else Stage.Flush(id)
  }

  /** What follows a successful write-back. */
  function AfterFlush(job: Job, id: nat): Stage {
    if job.WriteJob? && !job.applied && !job.Cur().IsFull() then Reset(id) else Detach(id)
  }

  const NEW_BUFFER := Buffer(0, Cell(0, []), 0)

  function Ids(n: nat): (q: seq<nat>)
    ensures |q| == n && forall i :: 0 <= i < n ==> q[i] == i
  {
    if n == 0 then [] else Ids(n - 1) + [n - 1]
  }

  /** The same value for every number below n. */
  function Fill<T>(n: nat, v: T): (p: map<nat, T>)
    ensures forall i: nat :: (i in p <==> i < n) && (i in p ==> p[i] == v)
  {
    if n == 0 then map[] else Fill(n - 1, v)[n - 1 := v]
  }

  function NewConfig(routines: nat, expire: int): Config {
    Config(routines > 0, routines, (set i | i in Ids(routines)), expire)
  }

  ghost function NewMachine(c: Config, content: Content, n: nat, time: int): W {
    W(c, content, map[], Fill(n, NEW_BUFFER), Ids(n), [], [], 0, LockState(map[], map[], map[]),
      Fill(c.cap, Idle), time, Fill(n, InFree), content, [])
  }

  lemma NewStarts(routines: nat, expire: int, content: Content, n: nat, time: int)
    ensures var c := NewConfig(routines, expire); c.Ok() && Start(NewMachine(c, content, n, time))
  {
    var c := NewConfig(routines, expire);
    var s := NewMachine(c, content, n, time);
    assert routines > 0 ==> Ids(routines)[0] in c.workers;
    forall id ensures id in s.free <==> id in s.place {
      if id in s.place { assert s.free[id] == id; }
    }
  }

  class WCache {
    const cfg: Config
    var server: Content
    var bufferMap: map<nat, nat>
    var pool: map<nat, Buffer>
    var freeList: seq<nat>
    var lruList: seq<nat>
    var chSync: seq<nat>
    const locks: LockMap
    var now: int
    var faults: nat            // how many more server writes will fail

    ghost var m0: W            // the machine's first state
    ghost var m: W             // its state now
    ghost var acts: seq<Action>

    ghost predicate Tied()
      reads this, locks
    {
      && m.cfg == cfg && m.server == server && m.attached == bufferMap && m.pool == pool && m.free == freeList
      && m.lru == lruList && m.queue == chSync && m.others == 0 && m.lk.table == locks.entries
      && m.now == now
    }

    ghost predicate Valid()
      reads this, locks
    {
      Tied() && cfg.Ok() && Ran(m0, acts, m, 2)
    }

    ghost function FileView(): Content
      reads this
    {
      ViewOf(m)
    }

    /** NewWCache over a file's first content: bufferMax free buffers, idle background writers. */
    constructor (content: Content, bufferMax: nat, expire: int, routines: nat, time: int, f: nat)
      ensures Valid() && fresh(locks) && cfg == NewConfig(routines, expire) && faults == f && |freeList| == bufferMax
      ensures FileView() == content && AllIdle(m)
    {
      cfg := NewConfig(routines, expire);
      server, bufferMap, lruList, chSync, now, faults := content, map[], [], [], time, f;
      locks := new LockMap();
      freeList, pool := [], map[];
      m0 := NewMachine(NewConfig(routines, expire), content, bufferMax, time);
      m := NewMachine(NewConfig(routines, expire), content, bufferMax, time);
      acts := [];
      new;
      for i := 0 to bufferMax
        invariant freeList == Ids(i) && pool == Fill(i, NEW_BUFFER)
        invariant m == m0 == NewMachine(cfg, content, bufferMax, time) && acts == [] && locks.entries == map[]
        invariant server == content && bufferMap == map[] && lruList == [] && chSync == [] && now == time && faults == f
      {
        freeList := freeList + [i];
        pool := pool[i := NEW_BUFFER];
      }
      EmptyView(content);
      NewStarts(routines, expire, content, bufferMax, time);
      Folded(m0, acts, m);
      assert m.Cells() == map[];
    }

    lemma Reached()
      requires Valid()
      ensures Inv(m) && ViewOf(m) == Replay(m.init, m.log)
    {
      Folded(m0, acts, m);
      StartFull(m0);
      RunFull(m0, acts, m);
    }

    lemma Explained()
      requires Valid()
      ensures FileView() == Replay(m.init, m.log)
    {
      Reached();
    }

    lemma InUse(t: nat, id: nat)
      requires Valid() && t in m.threads && Uses(m.threads[t], id)
      ensures id in pool && m.threads[t].job.Blk() in bufferMap && bufferMap[m.threads[t].job.Blk()] == id
    {
      Reached();
      BufferHeld(m, t, id);
    }

    lemma HolderAssert(t: nat, b: nat)
      requires Valid() && HoldsT(m, t, b)
      ensures UnlockAssert(locks.entries, b)
    {
      Folded(m0, acts, m);
      LocksExclude(m0, acts, m, b, t, t);
    }

    /** The machine takes the step that the code has just taken. */
    ghost method Act(a: Action)
      requires Ran(m0, acts, m, 2) && Enabled(m, a) && !a.Other?
      modifies `m, `acts
      ensures Ran(m0, acts, m, 2) && m == Apply(old(m), a)
    {
      Folded(m0, acts, m);
      RunSnoc(m0, acts, m, a);
      StaysHome(m, a);
      acts := acts + [a];
      m := Apply(m, a);
      Folded(m0, acts, m);
    }

    // ---------- the pieces, each one step of the machine ----------

    method DoLru(ghost t: nat, id: nat)
      requires Valid() && AtStage(m, t, Touch(id))
      modifies `pool, `lruList, `m, `acts
      ensures Valid() && Goes(old(m), m, t, old(m.threads[t]).(stage := Release), old(m.log))
      ensures id in old(pool) && pool == old(pool)[id := old(pool[id]).(stamp := now)]
      ensures lruList == [id] + Remove(old(lruList), id)
    {
      InUse(t, id);
      pool := pool[id := pool[id].(stamp := now)];
      if id !in lruList {
        lruList := [id] + lruList;
      } else {
        lruList := [id] + Remove(lruList, id);
      }
      Act(Run(t, Done));
    }

    /** GetBuffer found the buffer: RemoveLru. */
    method RemoveLru(ghost t: nat, b: nat) returns (id: nat)
      requires Valid() && AtStage(m, t, Held) && m.threads[t].job.Blk() == b && b in bufferMap
      modifies `lruList, `m, `acts
      ensures Valid() && id == bufferMap[b] && id in pool && lruList == Remove(old(lruList), id)
      ensures var pc := old(m.threads[t]);
              Goes(old(m), m, t, pc.(stage := if pc.job.WriteJob? then Own(id) else Stage.Flush(id)), old(m.log))
    {
      id := bufferMap[b];
      if id in lruList {
        lruList := Remove(lruList, id);
      }
      Act(Run(t, Done));
      InUse(t, id);
    }

    /** AllocBuffer, Skip and MergeData; without a free buffer the op will go to the server as it is. */
    method AllocBuffer(ghost t: nat, op: Op) returns (ok: bool, id: nat)
      requires Valid() && AtStage(m, t, Held) && m.threads[t].job.WriteJob? && m.threads[t].job.Cur() == op
      requires m.threads[t].job.Blk() == op.blk && op.blk !in bufferMap && (op.IsFull() ==> cfg.async)
      modifies `freeList, `pool, `m, `acts
      ensures Valid() && ok == (old(freeList) != [])
      ensures ok ==> id == old(freeList)[0] && freeList == old(freeList)[1..]
      ensures ok ==> pool == old(pool)[id := Buffer(op.blk, Cell(op.off, op.data), now)]
      ensures !ok ==> freeList == old(freeList) && pool == old(pool)
      ensures Goes(old(m), m, t, old(m.threads[t]).(stage := if ok then Fresh(id) else Direct), old(m.log))
    {
      if freeList == [] {
        Act(Run(t, Done));
        return false, 0;
      }
      ok, id := true, freeList[0];
      freeList := freeList[1..];
      pool := pool[id := Buffer(op.blk, Cell(op.off, op.data), now)];
      Act(Run(t, Done));
    }

    method AttachBuffer(ghost t: nat, b: nat, id: nat)
      requires Valid() && AtStage(m, t, Fresh(id)) && m.threads[t].job.Blk() == b && id in pool
      modifies `bufferMap, `m, `acts
      ensures Valid() && bufferMap == old(bufferMap)[b := id]
      ensures var pc := old(m.threads[t]);
              Goes(old(m), m, t, pc.(job := pc.job.Mark(true),
                  stage := if pool[id].cell.IsFull() then Send(id) else Touch(id)), old(m.log) + [pc.job.Cur()])
    {
      bufferMap := bufferMap[b := id];
      Act(Run(t, Done));
    }

    /** MergeData, when CanMerge says so. */
    method MergeData(ghost t: nat, id: nat, op: Op) returns (merged: bool)
      requires Valid() && AtStage(m, t, Own(id)) && m.threads[t].job.Cur() == op
      modifies `pool, `m, `acts
      ensures Valid() && id in old(pool) && merged == (old(pool[id]).cell.End() == op.off)
      ensures merged ==>
        var pc := old(m.threads[t]);
        && pool == old(pool)[id := old(pool[id]).(cell := old(pool[id]).cell.Merge(op.data), stamp := now)]
        && Goes(old(m), m, t, pc.(job := pc.job.Mark(true), stage := AfterMerge(pool[id].cell, cfg.async, id)),
                old(m.log) + [op])
      ensures !merged ==>
        pool == old(pool) && Goes(old(m), m, t, old(m.threads[t]).(stage := Stage.Flush(id)), old(m.log))
    {
      InUse(t, id);
      merged := pool[id].cell.CanMerge(op.off);
      if merged {
        pool := pool[id := pool[id].(cell := pool[id].cell.Merge(op.data), stamp := now)];
      }
      Act(Run(t, Done));
    }

    /** A server write: done, refused, or lost on the way back. */
    method ServerWrite(op: Op) returns (o: Outcome)
      modifies `server, `faults
      ensures server == Server(old(server), op, o)
      ensures faults == old(faults) - (if o.Done? then 0 else 1)
    {
      o := *;
      if faults == 0 {
        o := Done;
      }
      server := Server(server, op, o);
      if !o.Done? {
        faults := faults - 1;
      }
    }

    /** DirectWrite of a buffer's data. */
    method WriteBack(ghost t: nat, b: nat, id: nat) returns (o: Outcome)
      requires Valid() && AtStage(m, t, Stage.Flush(id)) && m.threads[t].job.Blk() == b
      modifies `server, `faults, `m, `acts
      ensures Valid() && faults == old(faults) - (if o.Done? then 0 else 1)
      ensures id in pool && server == Server(old(server), Op(b, pool[id].cell.off, pool[id].cell.data), o)
      ensures var pc := old(m.threads[t]);
              Goes(old(m), m, t, if o.Done? then pc.(stage := AfterFlush(pc.job,
                  id)) else pc.(stage := Touch(id), failed := true), old(m.log))
    {
      InUse(t, id);
      var cell := pool[id].cell;
      o := ServerWrite(Op(b, cell.off, cell.data));
      Act(Run(t, o));
    }

    /** DirectWrite of the op itself, when it is not buffered. */
    method DirectWrite(ghost t: nat, op: Op) returns (o: Outcome)
      requires Valid() && AtStage(m, t, Direct) && m.threads[t].job.Cur() == op
      modifies `server, `faults, `m, `acts
      ensures Valid() && faults == old(faults) - (if o.Done? then 0 else 1) && server == Server(old(server), op, o)
      ensures Goes(old(m), m, t, Busy(old(m.threads[t]).job.Mark(!o.Refused?), Release, !o.Done?),
              if o.Refused? then old(m.log) else old(m.log) + [op])
    {
      o := ServerWrite(op);
      Act(Run(t, o));
    }

    /** ReSet, Skip and MergeData on a buffer that has been written back. */
    method Refill(ghost t: nat, id: nat, op: Op)
      requires Valid() && AtStage(m, t, Reset(id)) && m.threads[t].job.Cur() == op
      modifies `pool, `m, `acts
      ensures Valid() && pool == old(pool)[id := Buffer(op.blk, Cell(op.off, op.data), now)]
      ensures Goes(old(m), m, t, old(m.threads[t]).(job := old(m.threads[t]).job.Mark(true),
              stage := Touch(id)), old(m.log) + [op])
    {
      pool := pool[id := Buffer(op.blk, Cell(op.off, op.data), now)];
      Act(Run(t, Done));
    }

    method DetachBuffer(ghost t: nat, b: nat, id: nat)
      requires Valid() && AtStage(m, t, Detach(id)) && m.threads[t].job.Blk() == b
      modifies `bufferMap, `m, `acts
      ensures Valid() && b in old(bufferMap) && bufferMap == old(bufferMap) - {b} && |bufferMap| < old(|bufferMap|)
      ensures Goes(old(m), m, t, old(m.threads[t]).(stage := Free(id)), old(m.log))
    {
      InUse(t, id);
      bufferMap := bufferMap - {b};
      Act(Run(t, Done));
    }

    method FreeBuffer(ghost t: nat, id: nat)
      requires Valid() && AtStage(m, t, Free(id)) && !m.threads[t].job.SyncJob?
      modifies `freeList, `m, `acts
      ensures Valid() && freeList == old(freeList) + [id]
      ensures var pc := old(m.threads[t]);
              Goes(old(m), m, t, pc.(stage := if pc.job.WriteJob? && !pc.job.applied then Direct else Release),
                      old(m.log))
    {
      freeList := freeList + [id];
      Act(Run(t, Done));
    }

    method UnLockBuffer(ghost t: nat, b: nat)
      requires Valid() && AtStage(m, t, Release) && m.threads[t].job.Blk() == b
      requires m.threads[t].job.FlushJob? ==> m.threads[t].job.parent.Expiry?
      modifies `m, `acts, locks
      ensures Valid() && Goes(old(m), m, t, Next(old(m.threads[t])), old(m.log))
      ensures b in old(locks.entries) && locks.entries == old(locks.entries) - {b}
    {
      HolderAssert(t, b);
      locks.UnLock(b);
      Act(Run(t, Done));
    }

    /** A buffer that has been written goes back to the pool. */
    method DropBuffer(ghost t: nat, b: nat, id: nat)
      requires Valid() && AtStage(m, t, Detach(id)) && m.threads[t].job.Blk() == b && !m.threads[t].job.SyncJob?
      modifies `bufferMap, `freeList, `m, `acts
      ensures Valid() && bufferMap == old(bufferMap) - {b} && |bufferMap| < old(|bufferMap|)
      ensures var pc := old(m.threads[t]);
              Goes(old(m), m, t, pc.(stage := if pc.job.WriteJob? && !pc.job.applied then Direct else Release),
                      old(m.log))
    {
      DetachBuffer(t, b, id);
      FreeBuffer(t, id);
    }

    // ---------- background writers ----------

    /**
     * Of the buffers bm with contents p, those on the list l are still attached, listed and unchanged, but for
     * blocks in x.
     */
    ghost predicate Spares(bm: map<nat, nat>, p: map<nat, Buffer>, l: seq<nat>, x: set<nat>)
      reads this
    {
      forall c :: c in bm && c !in x && bm[c] in l && bm[c] in p ==>
        c in bufferMap && bufferMap[c] == bm[c] && bm[c] in lruList && bm[c] in pool && pool[bm[c]] == p[bm[c]]
    }

    /** Nothing is listed twice, nor listed and queued, nor attached to two blocks. */
    lemma ListedOnce()
      requires Valid()
      ensures Distinct(lruList) && forall id :: id in chSync ==> id !in lruList
      ensures forall c, d :: c in bufferMap && d in bufferMap && bufferMap[c] == bufferMap[d] ==> c == d
    {
      Reached();
    }

    /** The rest of work: buffers that are attached, and failures still to come. */
    function Work(): nat
      reads this
    {
      faults + |bufferMap|
    }

    method Receive(ghost w: nat) returns (id: nat, b: nat)
      requires Valid() && w in cfg.workers && m.Is(w, Idle) && chSync != []
      modifies `chSync, `m, `acts
      ensures Valid() && id == old(chSync)[0] && chSync == old(chSync)[1..]
      ensures Goes(old(m), m, w, Busy(SyncJob(b), Stage.Flush(id), false), old(m.log))
    {
      id := chSync[0];
      chSync := chSync[1..];
      Act(WriteMachine.Receive(w));
      InUse(w, id);
      b := pool[id].blk;
    }

    /** The end of a background write: the buffer is freed and its block unlocked. */
    method FreeAndUnlock(ghost w: nat, b: nat, id: nat)
      requires Valid() && AtStage(m, w, Free(id)) && m.threads[w].job == SyncJob(b)
      modifies `freeList, `m, `acts, locks
      ensures Valid() && freeList == old(freeList) + [id] && Goes(old(m), m, w, Idle, old(m.log)) && b !in locks.entries
    {
      HolderAssert(w, b);
      freeList := freeList + [id];
      locks.UnLock(b);
      Act(Run(w, Done));
    }

    lemma SomeWorker(t: nat) returns (w: nat)
      requires Valid() && Alone(m, t) && t !in cfg.workers && chSync != []
      ensures w in cfg.workers && m.Is(w, Idle)
    {
      Reached();
      w :| w in cfg.workers;
      WorkerIdle(m, t, w);
    }

    method SyncDone(ghost w: nat, b: nat, id: nat)
      requires Valid() && m.Is(w, Busy(SyncJob(b), Detach(id), false))
      modifies `bufferMap, `freeList, `m, `acts, locks
      ensures Valid() && Goes(old(m), m, w, Idle, old(m.log)) && bufferMap == old(bufferMap) - {b}
      ensures |bufferMap| < old(|bufferMap|)
      ensures b !in locks.entries
    {
      DetachBuffer(w, b, id);
      FreeAndUnlock(w, b, id);
    }

    /** One round of SyncWrite in the background writer w. */
    method SyncRound(ghost w: nat) returns (b: nat)
      requires Valid() && w in cfg.workers && m.Is(w, Idle) && chSync != []
      modifies this, locks
      ensures Valid() && Goes(old(m), m, w, Idle, old(m.log)) && now == old(now)
      ensures chSync == old(chSync)[1..] && Work() < old(Work()) && bufferMap.Keys <= old(bufferMap.Keys)
      ensures b !in locks.entries && (b in bufferMap ==> lruList != [] && lruList[0] == old(chSync)[0])
      ensures faults <= old(faults)
      ensures Spares(old(bufferMap), old(pool), old(lruList), {})
    {
      var id;
      ListedOnce();
      id, b := Receive(w);
      InUse(w, id);
      SyncBuffer(w, b, id);
    }

    method SyncBuffer(ghost w: nat, b: nat, id: nat)
      requires Valid() && m.Is(w, Busy(SyncJob(b), Stage.Flush(id), false))
      modifies `server, `faults, `bufferMap, `freeList, `pool, `lruList, `m, `acts, locks
      ensures Valid() && Goes(old(m), m, w, Idle, old(m.log)) && b !in locks.entries
      ensures Work() < old(Work()) && bufferMap.Keys <= old(bufferMap.Keys)
      ensures b in bufferMap ==> lruList != [] && lruList[0] == id
      ensures faults <= old(faults)
      ensures Spares(old(bufferMap), old(pool), old(lruList), {b})
    {
      InUse(w, id);
      ListedOnce();
      RemoveIs(lruList, id);
      var o := WriteBack(w, b, id);
      if o.Done? {
        SyncDone(w, b, id);
      } else {
        SyncFailed(w, b, id);
      }
    }

    method SyncFailed(ghost w: nat, b: nat, id: nat)
      requires Valid() && m.Is(w, Busy(SyncJob(b), Touch(id), true))
      modifies `pool, `lruList, `m, `acts, locks
      ensures Valid() && Goes(old(m), m, w, Idle, old(m.log)) && b !in locks.entries
      ensures lruList == [id] + Remove(old(lruList), id)
      ensures id in old(pool) && pool == old(pool)[id := old(pool[id]).(stamp := now)]
    {
      DoLru(w, id);
      UnLockBuffer(w, b);
    }

    /** Some background writer takes a round while t waits. */
    method SyncWrite(ghost t: nat)
      requires Valid() && Alone(m, t) && t !in cfg.workers && chSync != []
      modifies this, locks
      ensures Valid() && m.threads == old(m.threads) && Logged(old(m), m, old(m.log)) && now == old(now)
      ensures |chSync| < old(|chSync|) && Work() < old(Work()) && bufferMap.Keys <= old(bufferMap.Keys)
      ensures faults <= old(faults)
      ensures Spares(old(bufferMap), old(pool), old(lruList), {})
    {
      ghost var w := SomeWorker(t);
      var b := SyncRound(w);
    }

    method LockBuffer(ghost t: nat, b: nat)
      requires Valid() && AtStage(m, t, Wait) && m.threads[t].job.Blk() == b && !m.threads[t].job.SyncJob? &&
              Alone(m, t)
      modifies this, locks
      ensures Valid() && m.threads == old(m.threads)[t := old(m.threads[t]).(stage := Held)] && b in locks.entries
      ensures Logged(old(m), m, old(m.log)) && now == old(now) && bufferMap.Keys <= old(bufferMap.Keys)
      ensures Work() <= old(Work()) && (bufferMap == old(bufferMap) || Work() < old(Work()))
      ensures faults <= old(faults)
      ensures Spares(old(bufferMap), old(pool), old(lruList), {})
    {
      var locked := false;
      while !locked
        invariant Valid() && Logged(old(m), m, old(m.log)) && now == old(now) && bufferMap.Keys <= old(bufferMap.Keys)
        invariant Work() <= old(Work()) && (bufferMap == old(bufferMap) || Work() < old(Work()))
        invariant m.threads == if locked then old(m.threads)[t := old(m.threads[t]).(stage := Held)] else old(m.threads)
        invariant (locked ==> b in locks.entries) && faults <= old(faults)
        invariant Spares(old(bufferMap), old(pool), old(lruList), {})
        decreases !locked, |chSync|
      {
        locked := locks.TryLock(b);
        if locked {
          Act(Run(t, Done));
        } else {
          Waits(t, b);
          SyncWrite(t);
        }
      }
    }

    lemma Waits(t: nat, b: nat)
      requires Valid() && AtStage(m, t, Wait) && !m.threads[t].job.SyncJob? && Alone(m, t) && b in locks.entries
      ensures t !in cfg.workers && chSync != []
    {
      Reached();
      QueueHolds(m, t, b);
      NotWorker(m, t);
    }

    // ---------- writing ----------

    /** A whole block and no background writer: the op will go to the server as it is. */
    ghost method Bypass(t: nat, op: Op)
      requires Valid() && AtStage(m, t, Held) && m.threads[t].job.WriteJob? && m.threads[t].job.Cur() == op
      requires m.threads[t].job.Blk() !in bufferMap && op.IsFull() && !cfg.async
      modifies `m, `acts
      ensures Valid() && Goes(old(m), m, t, old(m.threads[t]).(stage := Direct), old(m.log))
    {
      Act(Run(t, Done));
    }

    /** The buffer and its block's lock go to a background writer. */
    method SendSync(ghost t: nat, id: nat)
      requires Valid() && AtStage(m, t, Send(id)) && m.threads[t].job.WriteJob? && Alone(m, t)
      modifies this, locks
      ensures Valid() && Goes(old(m), m, t, Next(old(m.threads[t])), old(m.log)) && now == old(now)
      ensures faults <= old(faults)
    {
      while |chSync| >= cfg.cap
        invariant Valid() && m.threads == old(m.threads) && Logged(old(m), m, old(m.log)) && now == old(now)
        invariant faults <= old(faults)
        decreases |chSync|
      {
        Sends(t);
        SyncWrite(t);
      }
      chSync := chSync + [id];
      Act(Run(t, Done));
    }

    lemma Sends(t: nat)
      requires Valid() && t in m.threads && m.threads[t].Busy? && m.threads[t].stage.Send?
      requires m.threads[t].job.WriteJob? && |chSync| >= cfg.cap
      ensures t !in cfg.workers && chSync != []
    {
      Reached();
      assert StageOkT(m, t);
      NotWorker(m, t);
    }

    /** t holds the block of its next op and has not applied it. */
    ghost predicate AboutTo(t: nat, ops: seq<Op>, k: nat)
      reads this
    {
      k < |ops| && m.Is(t, Busy(WriteJob(ops, k, false), Held, false))
    }

    /** What WriteOp leaves: the op applied or not, t about to unlock, or past the op when a background writer will. */
    ghost predicate Left(s: W, t: nat, ops: seq<Op>, k: nat, syncIo: bool, err: bool, applied: bool)
      requires k < |ops|
      reads this
    {
      && (!err ==> applied) && (!syncIo ==> !err)
      && var pc := Busy(WriteJob(ops, k, applied), Release, err);
         Goes(s, m, t, if syncIo then pc else Next(pc), if applied then s.log + [ops[k]] else s.log)
    }

    /** WriteOp when no buffer is attached. */
    method WriteMiss(ghost t: nat, ghost ops: seq<Op>, ghost k: nat, op: Op) returns (syncIo: bool, err: bool,
            ghost applied: bool)
      requires Valid() && AboutTo(t, ops, k) && op == ops[k] && Alone(m, t) && op.blk !in bufferMap
      modifies this, locks
      ensures Valid() && Left(old(m), t, ops, k, syncIo, err, applied) && now == old(now)
      ensures faults <= old(faults) && (err ==> faults < old(faults))
      ensures !syncIo <==> op.off + |op.data| == BLOCK && cfg.async && old(freeList) != []
      ensures op.off + |op.data| != BLOCK && old(freeList) != [] ==>
        !err && server == old(server) && bufferMap == old(bufferMap)[op.blk := old(freeList)[0]]
      ensures (op.off + |op.data| == BLOCK && !cfg.async) || old(freeList) == [] ==> bufferMap == old(bufferMap)
    {
      if op.IsFull() && !cfg.async {
        Bypass(t, op);
        err, applied := WriteServer(t, ops, k, op);
        return true, err, applied;
      }
      var ok, id := AllocBuffer(t, op);
      if !ok {
        err, applied := WriteServer(t, ops, k, op);
        return true, err, applied;
      }
      syncIo := WriteFresh(t, ops, k, op, id);
      return syncIo, false, true;
    }

    /** The op goes to the server as it is. */
    method WriteServer(ghost t: nat, ghost ops: seq<Op>, ghost k: nat, op: Op) returns (err: bool, ghost applied: bool)
      requires Valid() && k < |ops| && op == ops[k] && m.Is(t, Busy(WriteJob(ops, k, false), Direct, false))
      modifies `server, `faults, `m, `acts
      ensures Valid() && Left(old(m), t, ops, k, true, err, applied)
      ensures faults <= old(faults) && (err ==> faults < old(faults))
    {
      var o := DirectWrite(t, op);
      return !o.Done?, !o.Refused?;
    }

    /** The op's fresh buffer is attached, and goes to a background writer or on the LRU list. */
    method WriteFresh(ghost t: nat, ghost ops: seq<Op>, ghost k: nat, op: Op, id: nat) returns (syncIo: bool)
      requires Valid() && k < |ops| && op == ops[k] && m.Is(t, Busy(WriteJob(ops, k, false), Fresh(id), false)) &&
              Alone(m, t)
      requires id in pool && pool[id].cell == Cell(op.off, op.data)
      modifies this, locks
      ensures Valid() && Left(old(m), t, ops, k, syncIo, false, true) && now == old(now)
      ensures faults <= old(faults)
      ensures syncIo <==> op.off + |op.data| != BLOCK
      ensures syncIo ==> server == old(server) && bufferMap == old(bufferMap)[op.blk := id]
    {
      AttachBuffer(t, op.blk, id);
      if pool[id].cell.IsFull() {
        SendSync(t, id);
        return false;
      }
      DoLru(t, id);
      return true;
    }

    /** A full merged buffer without background writers is written out at once. */
    method FlushMerged(ghost t: nat, ghost ops: seq<Op>, ghost k: nat, op: Op, id: nat) returns (err: bool)
      requires Valid() && k < |ops| && op == ops[k] && m.Is(t, Busy(WriteJob(ops, k, true), Stage.Flush(id), false))
      modifies this
      ensures Valid() && Goes(old(m), m, t, Busy(WriteJob(ops, k, true), Release, err), old(m.log)) && now == old(now)
      ensures faults <= old(faults) && (err ==> faults < old(faults))
    {
      var o := WriteBack(t, op.blk, id);
      if !o.Done? {
        DoLru(t, id);
        return true;
      }
      DropBuffer(t, op.blk, id);
      return false;
    }

    /** A buffer that the op does not continue is flushed first; then the op goes direct, or reuses the buffer. */
    method Replace(ghost t: nat, ghost ops: seq<Op>, ghost k: nat, op: Op, id: nat) returns (err: bool,
            ghost applied: bool)
      requires Valid() && k < |ops| && op == ops[k] && m.Is(t, Busy(WriteJob(ops, k, false), Stage.Flush(id), false))
      modifies this
      ensures Valid() && Left(old(m), t, ops, k, true, err, applied) && now == old(now)
      ensures faults <= old(faults) && (err ==> faults < old(faults))
    {
      var o := WriteBack(t, op.blk, id);
      if !o.Done? {
        DoLru(t, id);
        return true, false;
      }
      if op.IsFull() {
        err, applied := WriteThrough(t, ops, k, op, id);
      } else {
        Refill(t, id, op);
        DoLru(t, id);
        err, applied := false, true;
      }
    }

    /** The old buffer goes back to the pool and the op to the server. */
    method WriteThrough(ghost t: nat, ghost ops: seq<Op>, ghost k: nat, op: Op, id: nat) returns (err: bool,
            ghost applied: bool)
      requires Valid() && k < |ops| && op == ops[k] && op.IsFull()
      requires m.Is(t, Busy(WriteJob(ops, k, false), Detach(id), false))
      modifies this
      ensures Valid() && Left(old(m), t, ops, k, true, err, applied) && now == old(now)
      ensures faults <= old(faults) && (err ==> faults < old(faults))
    {
      DropBuffer(t, op.blk, id);
      err, applied := WriteServer(t, ops, k, op);
    }

    /** WriteOp when a buffer is attached. */
    method WriteHit(ghost t: nat, ghost ops: seq<Op>, ghost k: nat, op: Op) returns (syncIo: bool, err: bool,
            ghost applied: bool)
      requires Valid() && AboutTo(t, ops, k) && op == ops[k] && Alone(m, t) && op.blk in bufferMap
      modifies this, locks
      ensures Valid() && Left(old(m), t, ops, k, syncIo, err, applied) && now == old(now)
      ensures faults <= old(faults) && (err ==> faults < old(faults))
      ensures old(bufferMap[op.blk] in pool)
      ensures var end := old(pool[bufferMap[op.blk]].cell.End());
              && (!syncIo <==> end == op.off && op.off + |op.data| == BLOCK && cfg.async)
              && (end == op.off && op.off + |op.data| != BLOCK ==>
                    !err && server == old(server) && bufferMap == old(bufferMap))
    {
      var id := RemoveLru(t, op.blk);
      var merged := MergeData(t, id, op);
      if !merged {
        err, applied := Replace(t, ops, k, op, id);
        return true, err, applied;
      }
      syncIo, err := WriteMerged(t, ops, k, op, id);
      return syncIo, err, true;
    }

    /** After a merge: on the LRU list, or if the buffer is full to a background writer or to the server. */
    method WriteMerged(ghost t: nat, ghost ops: seq<Op>, ghost k: nat, op: Op, id: nat) returns (syncIo: bool,
            err: bool)
      requires Valid() && k < |ops| && op == ops[k] && id in pool && Alone(m, t)
      requires m.Is(t, Busy(WriteJob(ops, k, true), AfterMerge(pool[id].cell, cfg.async, id), false))
      modifies this, locks
      ensures Valid() && (!syncIo ==> !err) && now == old(now)
      ensures var pc := Busy(WriteJob(ops, k, true), Release, err);
              Goes(old(m), m, t, if syncIo then pc else Next(pc), old(m.log))
      ensures faults <= old(faults) && (err ==> faults < old(faults))
      ensures !syncIo <==> cfg.async && old(pool[id]).cell.End() == BLOCK
      ensures old(pool[id]).cell.End() != BLOCK ==> !err && server == old(server) && bufferMap == old(bufferMap)
    {
      if !pool[id].cell.IsFull() {
        DoLru(t, id);
        return true, false;
      }
      if cfg.async {
        SendSync(t, id);
        return false, false;
      }
      err := FlushMerged(t, ops, k, op, id);
      return true, err;
    }

    method WriteOp(ghost t: nat, ghost ops: seq<Op>, ghost k: nat, op: Op) returns (syncIo: bool, size: nat,
            err: bool, ghost applied: bool)
      requires Valid() && AboutTo(t, ops, k) && op == ops[k] && Alone(m, t)
      modifies this, locks
      ensures Valid() && Left(old(m), t, ops, k, syncIo, err, applied) && now == old(now)
      ensures size == if err then 0 else |op.data|
      ensures FileView() == if applied then op.Do(old(FileView())) else old(FileView())
      ensures syncIo <==> HoldsT(m, t, op.blk)
      ensures faults <= old(faults) && (err ==> faults < old(faults))
    {
      Explained();
      ReplaySnoc(m.init, m.log, op);
      if op.blk !in bufferMap {
        syncIo, err, applied := WriteMiss(t, ops, k, op);
      } else {
        syncIo, err, applied := WriteHit(t, ops, k, op);
      }
      size := if err then 0 else |op.data|;
      Explained();
    }

    /** Where t stands before op number k. */
    ghost function Between(ops: seq<Op>, k: nat): Pc {
      if k < |ops| then Busy(WriteJob(ops, k, false), Wait, false) else Idle
    }

    /** One round of Write's loop. */
    method WriteBlock(ghost t: nat, ghost ops: seq<Op>, ghost k: nat, op: Op) returns (size: nat, err: bool,
            ghost applied: bool)
      requires Valid() && k < |ops| && op == ops[k] && m.Is(t, Between(ops, k)) && Alone(m, t)
      modifies this, locks
      ensures Valid() && (!err ==> applied) && size == if err then 0 else |op.data|
      ensures Goes(old(m), m, t, if err then Idle else Between(ops, k + 1),
              if applied then old(m.log) + [op] else old(m.log))
      ensures now == old(now)
      ensures faults <= old(faults) && (err ==> faults < old(faults))
    {
      LockBuffer(t, op.blk);
      size, err, applied := WriteLocked(t, ops, k, op);
    }

    /** The op, and the unlock unless a background writer will do it. */
    method WriteLocked(ghost t: nat, ghost ops: seq<Op>, ghost k: nat, op: Op) returns (size: nat, err: bool,
            ghost applied: bool)
      requires Valid() && AboutTo(t, ops, k) && op == ops[k] && Alone(m, t)
      modifies this, locks
      ensures Valid() && (!err ==> applied) && size == if err then 0 else |op.data|
      ensures Goes(old(m), m, t, if err then Idle else Between(ops, k + 1),
              if applied then old(m.log) + [op] else old(m.log))
      ensures now == old(now)
      ensures faults <= old(faults) && (err ==> faults < old(faults))
    {
      var syncIo;
      syncIo, size, err, applied := WriteOp(t, ops, k, op);
      if syncIo {
        UnLockBuffer(t, op.blk);
      }
    }

    /**
     * Write.  On success the view has changed by exactly the positioned write; on failure by the bytes of the ops
     * before the failing one, or of those and that one.
     */
    method Write(ghost t: nat, buffer: Content, offset: uint64) returns (wtSize: nat, err: bool, ghost n: nat)
      requires Valid() && AllIdle(m) && t !in cfg.workers && 0 < |buffer| <= MAX_LEN && offset < 0x8000_0000_0000_0000
      modifies this, locks
      ensures Valid() && AllIdle(m) && now == old(now)
      ensures n <= |buffer| && FileView() == WriteAt(old(FileView()), offset as nat, buffer[..n])
      ensures !err ==> wtSize == n == |buffer|
      ensures err ==> wtSize < |buffer| && (n == wtSize || n == wtSize + OpLen(offset as nat, |buffer|, wtSize))
      ensures faults <= old(faults) && (err ==> faults < old(faults))
    {
      var ops := Slice(buffer, offset);
      Explained();
      Act(BeginWrite(t, ops));
      ghost var done: nat;
      wtSize, err, done := WriteOps(t, ops, offset as nat);
      n := |Bytes(ops[..done])|;
      assert ops[..|ops|] == ops;
      Explained();
      LogTakes(m.init, old(m.log), ops, done, offset as nat);
    }

    /** The loop of Write. */
    method WriteOps(ghost t: nat, ops: seq<Op>, ghost offset: nat) returns (wtSize: nat, err: bool, ghost done: nat)
      requires Valid() && m.Is(t, Between(ops, 0)) && Others(m, t) && ops != []
      requires Tiles(ops, offset) && forall i :: 0 <= i < |ops| ==> ops[i].Ok()
      modifies this, locks
      ensures Valid() && AllIdle(m) && now == old(now)
      ensures done <= |ops| && Logged(old(m), m, old(m.log) + ops[..done])
      ensures !err ==> done == |ops| && wtSize == |Bytes(ops)|
      ensures err ==> Stopped(ops, offset, done, wtSize)
      ensures faults <= old(faults) && (err ==> faults < old(faults))
    {
      wtSize, err, done := 0, false, 0;
      for k := 0 to |ops|
        invariant Valid() && m.Is(t, Between(ops, k)) && Others(m, t) && now == old(now) && faults <= old(faults)
        invariant !err && done == k && wtSize == |Bytes(ops[..k])| && Logged(old(m), m, old(m.log) + ops[..k])
      {
        StoppedAt(ops, k, offset);
        var size;
        ghost var applied;
        size, err, applied := WriteBlock(t, ops, k, ops[k]);
        done := if applied then k + 1 else k;
        LogSnoc(old(m.log), ops, k);
        if err {
          return;
        }
        wtSize := wtSize + size;
      }
      assert ops[..|ops|] == ops;
    }

    // ---------- flushing ----------

    /** FlushBuffer once it has the lock. */
    method FlushHeld(ghost t: nat, ghost parent: Parent, b: nat) returns (err: bool)
      requires Valid() && m.Is(t, Busy(FlushJob(b, parent), Held, false))
      modifies this
      ensures Valid() && Goes(old(m), m, t, Busy(FlushJob(b, parent), Release, err), old(m.log)) && now == old(now)
      ensures bufferMap == if err then old(bufferMap) else old(bufferMap) - {b}
      ensures if b in old(bufferMap) then Work() < old(Work()) else !err && Work() == old(Work())
      ensures err ==> b in bufferMap && lruList != [] && lruList[0] == bufferMap[b]
      ensures faults <= old(faults) && (err ==> faults < old(faults))
      ensures Spares(old(bufferMap), old(pool), old(lruList), {b})
    {
      if b !in bufferMap {
        Act(Run(t, Done));
        assert old(bufferMap) - {b} == old(bufferMap);
        err := false;
      } else {
        err := FlushFound(t, parent, b);
      }
    }

    method FlushFound(ghost t: nat, ghost parent: Parent, b: nat) returns (err: bool)
      requires Valid() && m.Is(t, Busy(FlushJob(b, parent), Held, false)) && b in bufferMap
      modifies this
      ensures Valid() && Goes(old(m), m, t, Busy(FlushJob(b, parent), Release, err), old(m.log)) && now == old(now)
      ensures bufferMap == (if err then old(bufferMap) else old(bufferMap) - {b}) && Work() < old(Work())
      ensures err ==> lruList != [] && lruList[0] == bufferMap[b]
      ensures faults <= old(faults) && (err ==> faults < old(faults))
      ensures Spares(old(bufferMap), old(pool), old(lruList), {b})
    {
      ListedOnce();
      RemoveIs(lruList, bufferMap[b]);
      var id := RemoveLru(t, b);
      RemoveIs(lruList, id);
      var o := WriteBack(t, b, id);
      err := !o.Done?;
      if err {
        DoLru(t, id);
      } else {
        DropBuffer(t, b, id);
      }
    }

    /** The unlock of a flush that Flush started; its result goes to the coordinator c. */
    method UnLockReport(ghost t: nat, ghost c: nat, b: nat, ghost err: bool)
      requires Valid() && c != t && m.Is(t, Busy(FlushJob(b, Flusher(c)), Release, err)) && c in m.threads
      requires m.threads[c].Gather?
      modifies `m, `acts, locks
      ensures Valid() && Logged(old(m), m, old(m.log))
      ensures var g := old(m.threads[c]);
              m.threads == old(m.threads)[t := Idle][c := g.(out := g.out - {b}, ferr := g.ferr || err)]
    {
      HolderAssert(t, b);
      locks.UnLock(b);
      Act(Run(t, Done));
    }

    /** FlushBuffer up to the unlock. */
    method LockAndFlush(ghost t: nat, ghost parent: Parent, b: nat) returns (err: bool)
      requires Valid() && m.Is(t, Busy(FlushJob(b, parent), Wait, false)) && Alone(m, t)
      modifies this, locks
      ensures Valid() && Goes(old(m), m, t, Busy(FlushJob(b, parent), Release, err), old(m.log)) && now == old(now)
      ensures bufferMap.Keys <= old(bufferMap.Keys) && (!err ==> b !in bufferMap)
      ensures err ==> b in bufferMap && lruList != [] && lruList[0] == bufferMap[b]
      ensures Work() <= old(Work()) && (b in old(bufferMap) ==> Work() < old(Work()))
      ensures faults <= old(faults) && (err ==> faults < old(faults))
      ensures Spares(old(bufferMap), old(pool), old(lruList), {b})
    {
      LockBuffer(t, b);
      err := FlushHeld(t, parent, b);
    }

    /** FlushBuffer for the expiry scan t. */
    method FlushBuffer(ghost t: nat, b: nat) returns (err: bool)
      requires Valid() && m.Is(t, Busy(FlushJob(b, Expiry), Wait, false)) && Alone(m, t)
      modifies this, locks
      ensures Valid() && Goes(old(m), m, t, Idle, old(m.log)) && now == old(now) && FileView() == old(FileView())
      ensures bufferMap.Keys <= old(bufferMap.Keys) && (!err ==> b !in bufferMap)
      ensures err ==> b in bufferMap && lruList != [] && lruList[0] == bufferMap[b]
      ensures Work() <= old(Work()) && (b in old(bufferMap) ==> Work() < old(Work()))
      ensures faults <= old(faults) && (err ==> faults < old(faults))
      ensures Spares(old(bufferMap), old(pool), old(lruList), {b})
    {
      Explained();
      err := LockAndFlush(t, Expiry, b);
      UnLockBuffer(t, b);
      Explained();
    }

    /** FlushBuffer in a goroutine u of Flush. */
    method FlushPart(ghost u: nat, ghost t: nat, b: nat) returns (err: bool)
      requires Valid() && m.Is(u, Busy(FlushJob(b, Flusher(t)), Wait, false)) && Alone(m, u) && t != u
      requires t in m.threads && m.threads[t].Gather?
      modifies this, locks
      ensures Valid() && Logged(old(m), m, old(m.log)) && now == old(now)
      ensures var g := old(m.threads[t]);
              m.threads == old(m.threads)[u := Idle][t := g.(out := g.out - {b}, ferr := g.ferr || err)]
      ensures bufferMap.Keys <= old(bufferMap.Keys) && (!err ==> b !in bufferMap)
      ensures faults <= old(faults) && (err ==> faults < old(faults))
    {
      err := LockAndFlush(u, Flusher(t), b);
      UnLockReport(u, t, b, err);
    }

    /** A goroutine that does not exist yet. */
    lemma NewThread() returns (u: nat)
      requires Valid()
      ensures u !in m.threads && Ready(m, u)
    {
      Reached();
      u := Upper(m.threads.Keys) + 1;
      assert forall v :: v in m.threads ==> v in m.threads.Keys;
    }

    /**
     * Flush: a goroutine per buffered block, in any order.  Without an error nothing stays buffered and the server
     * file is the view; with one, the view is still the same.
     */
    method Flush(ghost t: nat) returns (err: bool)
      requires Valid() && AllIdle(m) && t !in cfg.workers
      modifies this, locks
      ensures Valid() && AllIdle(m) && now == old(now) && FileView() == old(FileView())
      ensures !err ==> bufferMap == map[] && server == FileView()
      ensures faults <= old(faults) && (err ==> faults < old(faults))
    {
      Explained();
      err := false;
      var left := bufferMap.Keys;
      if left != {} {
        Act(BeginFlush(t));
        err := FlushAll(t, left);
        Act(EndFlush(t));
      }
      Explained();
      if !err {
        assert m.Cells() == map[];
        EmptyView(server);
      }
    }

    /** The workers of Flush, one after the other in some order. */
    method FlushAll(ghost t: nat, blocks: set<nat>) returns (err: bool)
      requires Valid() && Others(m, t) && t in m.threads && m.threads[t].Gather? && bufferMap.Keys <= blocks
      requires m.threads[t].left == blocks && m.threads[t].out == map[] && !m.threads[t].ferr
      modifies this, locks
      ensures Valid() && Others(m, t) && Logged(old(m), m, old(m.log)) && now == old(now) && Enabled(m, EndFlush(t))
      ensures !err ==> bufferMap == map[]
      ensures faults <= old(faults) && (err ==> faults < old(faults))
    {
      err := false;
      var left := blocks;
      while left != {}
        invariant Valid() && Others(m, t) && Logged(old(m), m, old(m.log)) && now == old(now) && t in m.threads
        invariant m.threads[t] == old(m.threads[t]).(left := left, ferr := err)
        invariant !err ==> bufferMap.Keys <= left
        invariant faults <= old(faults) && (err ==> faults < old(faults))
        decreases |left|
      {
        var b :| b in left;
        var e := FlushOne(t, b);
        err := err || e;
        left := left - {b};
      }
    }

    /** Flush starts a goroutine for block b, which runs. */
    method FlushOne(ghost t: nat, b: nat) returns (err: bool)
      requires Valid() && Others(m, t) && t in m.threads && m.threads[t].Gather? && b in m.threads[t].left
      requires m.threads[t].out == map[]
      modifies this, locks
      ensures Valid() && Others(m, t) && Logged(old(m), m, old(m.log)) && now == old(now) && t in m.threads
      ensures var g := old(m.threads[t]); m.threads[t] == g.(left := g.left - {b}, ferr := g.ferr || err)
      ensures bufferMap.Keys <= old(bufferMap.Keys) && (!err ==> b !in bufferMap)
      ensures faults <= old(faults) && (err ==> faults < old(faults))
    {
      ghost var u := NewThread();
      Act(Spawn(u, t, b));
      err := FlushPart(u, t, b);
    }

    // ---------- expiry ----------

    lemma TailListed()
      requires Valid() && lruList != []
      ensures var id := lruList[|lruList| - 1];
              id in pool && pool[id].blk in bufferMap && bufferMap[pool[id].blk] == id && Ours(m, id)
    {
      Reached();
      Folded(m0, acts, m);
      assert lruList[|lruList| - 1] in m.lru;
    }

    /** No listed buffer has reached the expiry time. */
    ghost predicate Young()
      reads this
    {
      forall id :: id in lruList ==> id in pool && now - pool[id].stamp < cfg.expire
    }

    lemma AllYoung()
      requires Valid() && !Expired(m)
      ensures Young()
    {
      Reached();
      Folded(m0, acts, m);
      forall id | id in lruList ensures id in pool && now - pool[id].stamp < cfg.expire {
        ExpiryComplete(m0, acts, m, id);
      }
    }

    /** Of the buffers bm with contents p, those on the list l that are still young are untouched. */
    ghost predicate SparesYoung(bm: map<nat, nat>, p: map<nat, Buffer>, l: seq<nat>)
      reads this
    {
      forall c :: c in bm && bm[c] in l && bm[c] in p && now - p[bm[c]].stamp < cfg.expire ==>
        c in bufferMap && bufferMap[c] == bm[c] && bm[c] in lruList && bm[c] in pool && pool[bm[c]] == p[bm[c]]
    }

    /** LruExpire looks at the tail of the list only; if that is young, so is every other buffer on it. */
    method LruExpire(ghost t: nat) returns (found: bool, b: nat)
      requires Valid() && Ready(m, t)
      modifies `lruList, `m, `acts
      ensures Valid() && Logged(old(m), m, old(m.log))
      ensures !found ==> m == old(m) && lruList == old(lruList) && Young()
      ensures found ==>
        && b in bufferMap && old(lruList) != [] && lruList == old(lruList)[..|old(lruList)| - 1]
        && Goes(old(m), m, t, Busy(FlushJob(b, Expiry), Wait, false), old(m.log))
      ensures found ==>
        var tail := old(lruList)[|old(lruList)| - 1];
        tail in old(pool) && cfg.expire <= now - old(pool)[tail].stamp && b == old(pool)[tail].blk &&
        b in bufferMap && bufferMap[b] == tail
    {
      if lruList == [] {
        return false, 0;
      }
      TailListed();
      var id := lruList[|lruList| - 1];
      if now - pool[id].stamp < cfg.expire {
        AllYoung();
        return false, 0;
      }
      lruList := lruList[..|lruList| - 1];
      b := pool[id].blk;
      found := true;
      Act(BeginExpire(t));
    }

    method Clock(d: nat)
      requires Valid()
      modifies `now, `m, `acts
      ensures Valid() && now == old(now) + d && m.threads == old(m.threads) && Logged(old(m), m, old(m.log))
    {
      now := now + d;
      Act(Tick(d));
    }

    /**
     * The inner loop of CheckExpire, with a clock that moves as it likes and a server that fails as often as it likes,
     * though not forever.  It ends, with every buffer still listed younger than the expiry time and the view unchanged.
     */
    method CheckExpire(ghost t: nat)
      requires Valid() && AllIdle(m) && t !in cfg.workers
      modifies this, locks
      ensures Valid() && AllIdle(m) && FileView() == old(FileView())
      ensures Young()
      ensures SparesYoung(old(bufferMap), old(pool), old(lruList))
    {
      Explained();
      var found := true;
      while found
        invariant Valid() && AllIdle(m) && Logged(old(m), m, old(m.log))
        invariant !found ==> Young()
        invariant SparesYoung(old(bufferMap), old(pool), old(lruList)) && now >= old(now)
        decreases Work(), found
      {
        found := ExpireRound(t);
      }
      Explained();
    }

    /** One round: time passes, and the tail of the list is flushed if it has expired. */
    method ExpireRound(ghost t: nat) returns (found: bool)
      requires Valid() && AllIdle(m) && t !in cfg.workers
      modifies this, locks
      ensures Valid() && AllIdle(m) && Logged(old(m), m, old(m.log)) && (!found ==> Young()) && now >= old(now)
      ensures Work() <= old(Work()) && (found ==> Work() < old(Work()))
      ensures SparesYoung(old(bufferMap), old(pool), old(lruList))
    {
      var d :| 0 <= d;
      Clock(d);
      found := ExpireTail(t);
    }

    method ExpireTail(ghost t: nat) returns (found: bool)
      requires Valid() && AllIdle(m) && t !in cfg.workers
      modifies this, locks
      ensures Valid() && AllIdle(m) && Logged(old(m), m, old(m.log)) && (!found ==> Young()) && now == old(now)
      ensures Work() <= old(Work()) && (found ==> Work() < old(Work()))
      ensures SparesYoung(old(bufferMap), old(pool), old(lruList))
    {
      var b;
      found, b := LruExpire(t);
      if found {
        TailOnly(bufferMap, old(lruList), b);
        var err := FlushBuffer(t, b);
      }
    }

    // ---------- size ----------

    /** StatSize takes the lock of the highest buffered block. */
    method LockUpper(ghost t: nat, u: nat)
      requires Valid() && AtStat(m, t) && m.threads[t].at == Want(u) && Alone(m, t) && t !in cfg.workers
      modifies this, locks
      ensures Valid() && Goes(old(m), m, t, old(m.threads[t]).(at := Have(u)), old(m.log)) && now == old(now)
    {
      var locked := false;
      while !locked
        invariant Valid() && Logged(old(m), m, old(m.log)) && now == old(now)
        invariant m.threads == if locked then old(m.threads)[t := old(m.threads[t]).(at := Have(u))] else old(m.threads)
        decreases !locked, |chSync|
      {
        locked := locks.TryLock(u);
        if locked {
          Act(RunStat(t));
        } else {
          StatWaits(t, u);
          SyncWrite(t);
        }
      }
    }

    lemma StatWaits(t: nat, u: nat)
      requires Valid() && AtStat(m, t) && m.threads[t].at == Want(u) && Alone(m, t) && u in locks.entries
      ensures chSync != []
    {
      Reached();
      QueueHolds(m, t, u);
    }

    method UnLockUpper(ghost t: nat, u: nat, ghost c: nat)
      requires Valid() && AtStat(m, t) && m.threads[t].at == Leave(u, c)
      modifies `m, `acts, locks
      ensures Valid() && Goes(old(m), m, t, old(m.threads[t]).(at := Ask(c)), old(m.log))
    {
      HolderAssert(t, u);
      locks.UnLock(u);
      Act(RunStat(t));
    }

    lemma Attached(b: nat)
      requires Valid() && b in bufferMap
      ensures bufferMap[b] in pool
    {
      Reached();
    }

    /** IsZeroCache. */
    method ProbeStat(ghost t: nat) returns (zero: bool)
      requires Valid() && AtStat(m, t) && m.threads[t].at.Probe?
      modifies `m, `acts
      ensures Valid() && zero == (bufferMap == map[])
      ensures Goes(old(m), m, t, old(m.threads[t]).(at := if zero then Ask(0) else Top), old(m.log))
    {
      zero := bufferMap == map[];
      Act(RunStat(t));
    }

    method TopStat(ghost t: nat) returns (u: nat)
      requires Valid() && AtStat(m, t) && m.threads[t].at.Top?
      modifies `m, `acts
      ensures Valid() && u == Upper(bufferMap.Keys) && Goes(old(m), m, t, old(m.threads[t]).(at := Want(u)), old(m.log))
    {
      u := UpperIdx(bufferMap.Keys);
      Act(RunStat(t));
    }

    /** Where the highest buffer ends; 0 if it is gone by the time its block is locked. */
    method ReadTail(ghost t: nat, u: nat) returns (c: nat)
      requires Valid() && AtStat(m, t) && m.threads[t].at == Have(u)
      modifies `m, `acts
      ensures Valid() && Goes(old(m), m, t, old(m.threads[t]).(at := Leave(u, c)), old(m.log))
      ensures if u in bufferMap then bufferMap[u] in pool && c == Tail(u, pool[bufferMap[u]].cell) else c == 0
    {
      c := 0;
      if u in bufferMap {
        Attached(u);
        c := Tail(u, pool[bufferMap[u]].cell);
      }
      Act(RunStat(t));
    }

    method StatSize(ghost t: nat) returns (c: nat)
      requires Valid() && AtStat(m, t) && m.threads[t].at.Probe? && Alone(m, t) && t !in cfg.workers
      modifies this, locks
      ensures Valid() && Goes(old(m), m, t, old(m.threads[t]).(at := Ask(c)), old(m.log)) && now == old(now)
      ensures c <= |FileView()| && old(m.threads[t]).size0 <= Max(|server|, c)
    {
      var zero := ProbeStat(t);
      c := 0;
      if !zero {
        c := StatUpper(t);
      }
      AskBounds(t);
    }

    method StatUpper(ghost t: nat) returns (c: nat)
      requires Valid() && AtStat(m, t) && m.threads[t].at.Top? && Alone(m, t) && t !in cfg.workers
      modifies this, locks
      ensures Valid() && Goes(old(m), m, t, old(m.threads[t]).(at := Ask(c)), old(m.log)) && now == old(now)
    {
      var u := TopStat(t);
      LockUpper(t, u);
      c := ReadTail(t, u);
      UnLockUpper(t, u, c);
    }

    method ServerSize(ghost t: nat, c: nat) returns (n: nat)
      requires Valid() && AtStat(m, t) && m.threads[t].at == Ask(c)
      modifies `m, `acts
      ensures Valid() && Goes(old(m), m, t, old(m.threads[t]).(at := Told(n)), old(m.log))
    {
      n := if |server| < c then c else |server|;
      Act(RunStat(t));
    }

    ghost method BeginFstat(t: nat)
      requires Valid() && Ready(m, t)
      modifies `m, `acts
      ensures Valid() && Goes(old(m), m, t, Stat(|FileView()|, Probe), old(m.log)) && FileView() == old(FileView())
    {
      Act(BeginStat(t));
      assert m.Cells() == old(m).Cells();
    }

    /** Fstat on a dentry-cache miss: the cached size first, then the server's.  It is the size of the view. */
    method Fstat(ghost t: nat) returns (n: nat)
      requires Valid() && AllIdle(m) && t !in cfg.workers
      modifies this, locks
      ensures Valid() && AllIdle(m) && FileView() == old(FileView()) && n == |FileView()|
    {
      Explained();
      BeginFstat(t);
      n := AskSize(t);
      Explained();
      Bounds(t);
      EndFstat(t);
    }

    /** The cached size, then the larger of it and the server's. */
    method AskSize(ghost t: nat) returns (n: nat)
      requires Valid() && AtStat(m, t) && m.threads[t].at.Probe? && Alone(m, t) && t !in cfg.workers
      modifies this, locks
      ensures Valid() && Goes(old(m), m, t, old(m.threads[t]).(at := Told(n)), old(m.log))
    {
      var c := StatSize(t);
      n := ServerSize(t, c);
    }

    ghost method EndFstat(t: nat)
      requires Valid() && AtStat(m, t) && m.threads[t].at.Told?
      modifies `m, `acts
      ensures Valid() && Goes(old(m), m, t, Idle, old(m.log)) && FileView() == old(FileView())
    {
      Act(RunStat(t));
      assert m.Cells() == old(m).Cells();
    }

    lemma AskBounds(t: nat)
      requires Valid() && AtStat(m, t) && m.threads[t].at.Ask?
      ensures m.threads[t].size0 <= Max(|server|, m.threads[t].at.c) && m.threads[t].at.c <= |FileView()|
    {
      Folded(m0, acts, m);
      StartFull(m0);
      RunFull(m0, acts, m);
      assert StatOk(m, m.threads[t]);
    }

    lemma Bounds(t: nat)
      requires Valid() && AtStat(m, t) && m.threads[t].at.Told?
      ensures m.threads[t].size0 <= m.threads[t].at.n <= |FileView()|
    {
      Folded(m0, acts, m);
      FstatBounds(m0, acts, m, t);
    }

    // ---------- truncation ----------

    /** The machine starts afresh over the server's new content; this is sound because nothing is buffered. */
    ghost method Restarted()
      requires Ran(m0, acts, m, 2) && Drained(m)
      modifies `m0, `m, `acts
      ensures Ran(m0, acts, m, 2) && m == Restart(old(m), server)
    {
      RestartRan(m0, acts, m, server);
      m := Restart(m, server);
      m0, acts := m, [];
    }

    /** The server's part of Truncate, after a Flush: done, refused, or lost on the way back. */
    method ResizeServer(length: nat) returns (o: Outcome)
      requires Valid() && AllIdle(m) && bufferMap == map[]
      modifies `server, `faults, `m0, `m, `acts
      ensures Valid() && AllIdle(m) && server == FileView() && faults == old(faults) - (if o.Done? then 0 else 1)
      ensures o.Refused? ==> FileView() == old(FileView())
      ensures !o.Refused? ==> |FileView()| == length
      ensures !o.Refused? ==> forall p: nat :: p < length ==> At(FileView(), p) == At(old(FileView()), p)
    {
      o := *;
      if faults == 0 {
        o := Done;
      }
      if !o.Done? {
        faults := faults - 1;
      }
      assert m.Cells() == map[];
      EmptyView(server);
      if !o.Refused? {
        ResizeIs(server, length);
        server := Resize(server, length);
        Restarted();
        assert m.Cells() == map[];
        EmptyView(server);
      }
    }
  }

  lemma RestartRan(s0: W, acts: seq<Action>, s: W, f: Content)
    requires Ran(s0, acts, s, 2) && Drained(s)
    ensures Ran(Restart(s, f), [], Restart(s, f), 2)
  {
    Folded(s0, acts, s);
    RanInv(s0, acts, s);
    Restarts(s, f);
    Folded(Restart(s, f), [], Restart(s, f));
  }

  lemma RanInv(s0: W, acts: seq<Action>, s: W)
    requires Ran(s0, acts, s, 2)
    ensures Inv(s)
  {
    Folded(s0, acts, s);
    StartFull(s0);
    RunFull(s0, acts, s);
  }

  /** A Write that failed after wtSize bytes: the first done ops took effect, which are those bytes or one op more. */
  ghost predicate Stopped(ops: seq<Op>, offset: nat, done: nat, wtSize: nat)
    requires done <= |ops|
  {
    && wtSize < |Bytes(ops)|
    && (|Bytes(ops[..done])| == wtSize || |Bytes(ops[..done])| == wtSize + OpLen(offset, |Bytes(ops)|, wtSize))
  }

  /** Taking the tail of the list, which is block b's buffer, leaves the buffers of the other blocks listed. */
  lemma TailOnly(bm: map<nat, nat>, l: seq<nat>, b: nat)
    requires l != [] && b in bm && bm[b] == l[|l| - 1]
    ensures forall c :: c in bm && bm[c] in l && bm[c] != bm[b] ==> c != b && bm[c] in l[..|l| - 1]
  {
    assert l == l[..|l| - 1] + [l[|l| - 1]];
  }

  lemma StoppedAt(ops: seq<Op>, k: nat, offset: nat)
    requires Tiles(ops, offset) && k < |ops| && forall i :: 0 <= i < |ops| ==> ops[i].Ok()
    ensures Stopped(ops, offset, k, |Bytes(ops[..k])|) && Stopped(ops, offset, k + 1, |Bytes(ops[..k])|)
    ensures |Bytes(ops[..k + 1])| == |Bytes(ops[..k])| + |ops[k].data|
  {
    Within(ops, k, offset);
    OpLenIs(ops, k, offset);
  }

  /** A log that grew by the first ops of a write: the view grew by their bytes. */
  lemma LogTakes(f: Content, log: seq<Op>, ops: seq<Op>, k: nat, offset: nat)
    requires Tiles(ops, offset) && k <= |ops|
    ensures var n := |Bytes(ops[..k])|;
            n <= |Bytes(ops)| && Replay(f, log + ops[..k]) == WriteAt(Replay(f, log), offset, Bytes(ops)[..n])
  {
    ReplayAppend(f, log, ops[..k]);
    TakeReplay(Replay(f, log), ops, k, offset);
  }

  lemma LogSnoc(log: seq<Op>, ops: seq<Op>, k: nat)
    requires k < |ops|
    ensures log + ops[..k] + [ops[k]] == log + ops[..k + 1]
  {}
}
