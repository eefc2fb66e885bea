/** Every step of the write cache keeps the invariant. */
module WriteInv {
  import opened FlatFile
  import opened Overlay
  import opened Locks
  import opened WriteMachine

  // ---------- the buffer pool ----------

  lemma PoolFrame(s: W, s': W)
    requires PoolInv(s)
    requires s'.place == s.place && s'.pool == s.pool && s'.free == s.free && s'.attached == s.attached
    requires forall u, i :: CarriesT(s', u, i) <==> CarriesT(s, u, i)
    ensures PoolInv(s')
  {}

  lemma TailIs(q: seq<nat>)
    requires Distinct(q) && q != []
    ensures Distinct(q[1..]) && forall i :: i in q[1..] <==> i in q && i != q[0]
  {
    assert q == [q[0]] + q[1..];
  }

  lemma HandAdd(s: W, s': W, t: nat, id: nat)
    requires HandInv(s) && (id in s.place ==> !s.place[id].InHand?) && s'.place == s.place[id := InHand(t)]
    requires forall u, i :: CarriesT(s', u, i) <==> CarriesT(s, u, i) || (u == t && i == id)
    ensures HandInv(s')
  {}

  lemma HandDrop(s: W, s': W, t: nat, id: nat, p: Place)
    requires HandInv(s) && CarriesT(s, t, id) && !p.InHand? && s'.place == s.place[id := p]
    requires forall u, i :: CarriesT(s', u, i) <==> CarriesT(s, u, i) && u != t
    ensures HandInv(s')
  {}

  lemma PoolAlloc(s: W, s': W, t: nat, id: nat, buf: Buffer)
    requires PoolInv(s) && s.free != [] && s.free[0] == id
    requires s'.free == s.free[1..] && s'.place == s.place[id := InHand(t)]
    requires s'.pool == s.pool[id := buf] && s'.attached == s.attached
    requires forall u, i :: CarriesT(s', u, i) <==> CarriesT(s, u, i) || (u == t && i == id)
    ensures PoolInv(s')
  {
    assert s.free[0] in s.free;
    FreeTake(s, s', t, id);
    HomeTake(s, s', t, id, buf);
    HandAdd(s, s', t, id);
  }

  lemma FreeTake(s: W, s': W, t: nat, id: nat)
    requires FreeInv(s) && s.free != [] && s.free[0] == id && s'.free == s.free[1..]
    requires s'.place == s.place[id := InHand(t)]
    ensures FreeInv(s')
  {
    TailIs(s.free);
  }

  lemma HomeTake(s: W, s': W, t: nat, id: nat, buf: Buffer)
    requires HomeInv(s) && id in s.place && s.place[id].InFree? && s'.place == s.place[id := InHand(t)]
    requires s'.pool == s.pool[id := buf] && s'.attached == s.attached
    ensures HomeInv(s')
  {}

  lemma PoolAttach(s: W, s': W, t: nat, id: nat, b: nat)
    requires PoolInv(s) && CarriesT(s, t, id) && b !in s.attached
    requires s.Buf(id).blk == b && s.Buf(id).cell.Ok()
    requires s'.pool == s.pool && s'.free == s.free && s'.attached == s.attached[b := id]
    requires s'.place == s.place[id := AtBlock(b)]
    requires forall u, i :: CarriesT(s', u, i) <==> CarriesT(s, u, i) && u != t
    ensures PoolInv(s')
  {
    HandDrop(s, s', t, id, AtBlock(b));
  }

  lemma PoolEdit(s: W, s': W, b: nat, buf: Buffer)
    requires PoolInv(s) && b in s.attached && buf.blk == b && buf.cell.Ok()
    requires s'.pool == s.pool[s.attached[b] := buf] && s'.free == s.free && s'.attached == s.attached
    requires s'.place == s.place
    requires forall u, i :: CarriesT(s', u, i) <==> CarriesT(s, u, i)
    ensures PoolInv(s')
  {}

  lemma PoolDetach(s: W, s': W, t: nat, b: nat)
    requires PoolInv(s) && b in s.attached
    requires s'.pool == s.pool && s'.free == s.free && s'.attached == s.attached - {b}
    requires s'.place == s.place[s.attached[b] := InHand(t)]
    requires forall u, i :: CarriesT(s', u, i) <==> CarriesT(s, u, i) || (u == t && i == s.attached[b])
    ensures PoolInv(s')
  {
    HandAdd(s, s', t, s.attached[b]);
  }

  lemma PoolFree(s: W, s': W, t: nat, id: nat)
    requires PoolInv(s) && CarriesT(s, t, id)
    requires s'.pool == s.pool && s'.free == s.free + [id] && s'.attached == s.attached
    requires s'.place == s.place[id := InFree]
    requires forall u, i :: CarriesT(s', u, i) <==> CarriesT(s, u, i) && u != t
    ensures PoolInv(s')
  {
    HandDrop(s, s', t, id, InFree);
  }

  // ---------- the LRU list ----------

  lemma LruFrame(s: W, s': W)
    requires LruInv(s) && s'.lru == s.lru && s.now <= s'.now
    requires forall id :: id in s.lru ==> s'.Buf(id).stamp == s.Buf(id).stamp
    requires forall id :: id in s.lru ==> id in s'.place && (s'.place[id].AtBlock? || s'.place[id].Lent?)
    ensures LruInv(s')
  {}

  lemma RemoveIs(q: seq<nat>, x: nat)
    requires Distinct(q)
    ensures Distinct(Remove(q, x))
    ensures forall y :: y in Remove(q, x) <==> y in q && y != x
  {
    if x in q { CutIs(q, IndexOf(q, x)); }
  }

  /** A list without repetitions and without its k-th element. */
  lemma CutIs(q: seq<nat>, k: nat)
    requires Distinct(q) && k < |q|
    ensures Distinct(q[..k] + q[k + 1..])
    ensures forall y :: y in q[..k] + q[k + 1..] <==> y in q && y != q[k]
  {
    var r := q[..k] + q[k + 1..];
    assert forall i :: 0 <= i < |r| ==> r[i] == if i < k then q[i] else q[i + 1];
    forall y | y in q && y != q[k] ensures y in r {
      var i :| 0 <= i < |q| && q[i] == y;
      assert r[if i < k then i else i - 1] == y;
    }
  }

  lemma LruRemove(s: W, s': W, x: nat)
    requires LruInv(s) && s'.lru == Remove(s.lru, x) && s'.now == s.now && s'.pool == s.pool && s'.place == s.place
    ensures LruInv(s')
  {
    RemoveIs(s.lru, x);
  }

  lemma LruPush(s: W, s': W, id: nat)
    requires LruInv(s) && id !in s.lru && id in s.place && (s.place[id].AtBlock? || s.place[id].Lent?)
    requires s'.lru == [id] + s.lru && s'.now == s.now && s'.place == s.place
    requires s'.pool == s.pool[id := s.Buf(id).(stamp := s.now)]
    ensures LruInv(s')
  {}

  // ---------- the lock table ----------

  lemma OwnFrame(s: W, s': W)
    requires OwnInv(s) && s'.lk == s.lk
    requires forall u, c :: HoldsT(s', u, c) <==> HoldsT(s, u, c)
    requires forall u, c :: SharesT(s', u, c) <==> SharesT(s, u, c)
    ensures OwnInv(s')
  {}

  lemma OwnLock(s: W, s': W, t: nat, b: nat)
    requires OwnInv(s) && CanLock(s.lk.table, b) && s'.lk == s.lk.Lock(b, t)
    requires forall u, c :: HoldsT(s', u, c) <==> HoldsT(s, u, c) || (u == t && c == b)
    requires forall u, c :: SharesT(s', u, c) <==> SharesT(s, u, c)
    ensures OwnInv(s')
  {
    s.lk.LockKeeps(b, t);
  }

  lemma OwnUnlock(s: W, s': W, t: nat, b: nat)
    requires OwnInv(s) && HoldsT(s, t, b) && s'.lk == s.lk.Unlock(b)
    requires forall u, c :: HoldsT(s', u, c) <==> HoldsT(s, u, c) && u != t
    requires forall u, c :: SharesT(s', u, c) <==> SharesT(s, u, c)
    ensures OwnInv(s')
  {
    s.lk.UnlockKeeps(b);
  }

  lemma OwnSend(s: W, s': W, t: nat, b: nat)
    requires OwnInv(s) && HoldsT(s, t, b) && s'.lk == s.lk.Pass(b, Queue)
    requires forall u, c :: HoldsT(s', u, c) <==> HoldsT(s, u, c) && u != t
    requires forall u, c :: SharesT(s', u, c) <==> SharesT(s, u, c)
    ensures OwnInv(s')
  {
    s.lk.PassKeeps(b, Queue);
  }

  lemma OwnReceive(s: W, s': W, t: nat, b: nat)
    requires OwnInv(s) && b in s.lk.excl && s.lk.excl[b].Queue? && s'.lk == s.lk.Pass(b, Thread(t))
    requires forall u, c :: HoldsT(s', u, c) <==> HoldsT(s, u, c) || (u == t && c == b)
    requires forall u, c :: SharesT(s', u, c) <==> SharesT(s, u, c)
    ensures OwnInv(s')
  {
    s.lk.PassKeeps(b, Thread(t));
  }

  lemma OwnShare(s: W, s': W, t: nat, b: nat)
    requires OwnInv(s) && CanRLock(s.lk.table, b) && (forall c :: !SharesT(s, t, c)) && s'.lk == s.lk.RLock(b, t)
    requires forall u, c :: HoldsT(s', u, c) <==> HoldsT(s, u, c)
    requires forall u, c :: SharesT(s', u, c) <==> SharesT(s, u, c) || (u == t && c == b)
    ensures OwnInv(s')
  {
    assert t !in s.lk.shared;
    s.lk.RLockKeeps(b, t);
  }

  lemma OwnUnshare(s: W, s': W, t: nat, b: nat)
    requires OwnInv(s) && SharesT(s, t, b) && s'.lk == s.lk.RUnlock(b, t)
    requires forall u, c :: HoldsT(s', u, c) <==> HoldsT(s, u, c)
    requires forall u, c :: SharesT(s', u, c) <==> SharesT(s, u, c) && u != t
    ensures OwnInv(s')
  {
    s.lk.RUnlockKeeps(b, t);
  }

  // ---------- the channel ----------

  lemma QueueFrame(s: W, s': W)
    requires QueueInv(s) && s'.queue == s.queue && s'.others == s.others && s'.cfg == s.cfg
    requires forall id :: id in s.queue ==> id in s'.place && s'.place[id] == s.place[id] && id !in s'.lru
    requires forall id :: id in s.queue ==> s'.Buf(id).cell == s.Buf(id).cell
    requires forall b :: b in s.lk.excl && s.lk.excl[b].Queue? <==> b in s'.lk.excl && s'.lk.excl[b].Queue?
    requires forall b :: b in s.lk.excl && s.lk.excl[b].Queue? ==> b in s'.attached && s'.attached[b] == s.attached[b]
    ensures QueueInv(s')
  {}

  // ---------- a step of thread t, which holds block b ----------

  /** The step touches nothing but t, the waiting Flush calls, block b, and buffers at b, in t's hands or free. */
  ghost predicate Focus(s: W, s': W, t: nat, b: nat) {
    && s'.cfg == s.cfg && s.now == s'.now && s'.others == s.others
    && s'.threads.Keys == s.threads.Keys
    && (forall u :: u in s.threads && u != t ==>
          s'.threads[u] == s.threads[u] || (s.threads[u].Gather? && s'.threads[u].Gather?))
    && (forall c :: c != b ==> (c in s'.attached <==> c in s.attached))
    && (forall c :: c != b && c in s.attached ==> s'.attached[c] == s.attached[c])
    && (forall id :: Elsewhere(s, t, b, id) ==>
          Elsewhere(s', t, b, id) && s'.place[id] == s.place[id] && s'.Buf(id) == s.Buf(id))
    && (forall id :: Elsewhere(s, t, b, id) ==> (id in s'.lru <==> id in s.lru))
  }

  predicate Elsewhere(s: W, t: nat, b: nat, id: nat) {
    id in s.place && s.place[id] != AtBlock(b) && s.place[id] != InHand(t) && s.place[id] != InFree
  }

  /** The lock of b is not passed on. */
  lemma LockSame(s: W, s': W, t: nat, b: nat)
    requires PoolInv(s) && OwnInv(s) && QueueInv(s) && HoldsT(s, t, b) && Focus(s, s', t, b)
    requires s'.lk == s.lk && s'.queue == s.queue && s'.At(t) && HoldsT(s', t, b)
    ensures OwnInv(s') && QueueInv(s')
  {
    HeldSame(s, s', t, b);
    OwnFrame(s, s');
    QueueElsewhere(s, s', t, b);
  }

  lemma HeldSame(s: W, s': W, t: nat, b: nat)
    requires HoldsT(s, t, b) && Focus(s, s', t, b) && s'.At(t) && HoldsT(s', t, b)
    ensures forall u, c :: HoldsT(s', u, c) <==> HoldsT(s, u, c)
    ensures forall u, c :: SharesT(s', u, c) <==> SharesT(s, u, c)
  {}

  lemma QueueElsewhere(s: W, s': W, t: nat, b: nat)
    requires PoolInv(s) && QueueInv(s) && Focus(s, s', t, b) && b in s.lk.excl && s.lk.excl[b] == Thread(t)
    requires s'.lk == s.lk && s'.queue == s.queue
    ensures QueueInv(s')
  {
    assert forall id :: id in s.queue ==> Elsewhere(s, t, b, id);
    QueueFrame(s, s');
  }

  // ---------- the holders' stages ----------

  /** Nothing that u's stage speaks of has changed. */
  ghost predicate Local(s: W, s': W, u: nat)
    requires s.At(u)
  {
    var b := s.threads[u].job.Blk();
    var st := s.threads[u].stage;
    && s'.cfg == s.cfg
    && (b in s'.attached <==> b in s.attached)
    && (b in s.attached ==> s'.attached[b] == s.attached[b] && s'.Buf(s.attached[b]).cell == s.Buf(s.attached[b]).cell)
    && (b in s.attached ==> (s.attached[b] in s'.lru ==> s.attached[b] in s.lru))
    && (b in s.attached && OnServer(s.server, b, s.Buf(s.attached[b]).cell) ==> OnServer(s'.server, b,
        s.Buf(s.attached[b]).cell))
    && (st.Fresh? ==> s'.Buf(st.id) == s.Buf(st.id))
    && (Listed(s, b) ==> Listed(s', b))
  }

  lemma StageOne(s: W, s': W, u: nat)
    requires s.At(u) && StageOkT(s, u) && s'.Is(u, s.threads[u])
    requires s.threads[u].stage.Wait? || Local(s, s', u)
    ensures StageOkT(s', u)
  {}

  lemma ListedKeeps(s: W, s': W, t: nat, b: nat)
    requires PoolInv(s) && Focus(s, s', t, b)
    requires forall c :: c != b ==> !Waiting(s, t, c)
    ensures forall c :: c != b && Listed(s, c) ==> Listed(s', c)
  {
    forall c | c != b && Listed(s, c) ensures Listed(s', c) {
      assert Elsewhere(s, t, b, s.attached[c]);
      if s.attached[c] !in s.lru {
        var u :| Waiting(s, u, c);
        assert Waiting(s', u, c);
      }
    }
  }

  /** A step of t leaves the other holders' stages alone. */
  lemma StageOthers(s: W, s': W, t: nat, b: nat, op: Op)
    requires PoolInv(s) && OwnInv(s) && StageInv(s) && Focus(s, s', t, b)
    requires forall u :: u != t ==> !HoldsT(s, u, b)
    requires s'.server == s.server || (op.Ok() && op.blk == b && s'.server == op.Do(s.server))
    requires forall c :: c != b && Listed(s, c) ==> Listed(s', c)
    requires s'.At(t) ==> StageOkT(s', t)
    ensures StageInv(s')
  {
    forall u | u != t && s'.At(u) ensures StageOkT(s', u) {
      var c := s.threads[u].job.Blk();
      if !s.threads[u].stage.Wait? {
        assert HoldsT(s, u, c);
        if c in s.attached {
          var id := s.attached[c];
          assert Elsewhere(s, t, b, id);
          if s'.server != s.server && OnServer(s.server, c, s.Buf(id).cell) {
            OnServerStable(s.server, op, c, s.Buf(id).cell);
          }
        }
        if s.threads[u].stage.Fresh? {
          assert CarriesT(s, u, s.threads[u].stage.id);
          assert Elsewhere(s, t, b, s.threads[u].stage.id);
        }
      }
      StageOne(s, s', u);
    }
  }

  /** Whoever works on another block goes on working on it. */
  lemma WorkKeeps(s: W, s': W, t: nat, b: nat, c: nat)
    requires OwnInv(s) && HoldsT(s, t, b) && s.At(t) && Focus(s, s', t, b) && c != b && InWork(s, c)
    requires c in s'.lk.excl && s'.lk.excl[c] == s.lk.excl[c]
    ensures InWork(s', c)
  {
    if s.lk.excl[c].Thread? { assert HoldsT(s, s.lk.excl[c].t, c); }
  }

  lemma StepStages(s: W, s': W, t: nat, b: nat, op: Op)
    requires PoolInv(s) && OwnInv(s) && StageInv(s) && ListInv(s) && HoldsT(s, t, b) && s.At(t) && Focus(s, s', t, b)
    requires s'.server == s.server || (op.Ok() && op.blk == b && s'.server == op.Do(s.server))
    requires s'.At(t) ==> StageOkT(s', t)
    requires forall c :: c != b ==> (c in s'.lk.excl <==> c in s.lk.excl)
    requires forall c :: c != b && c in s.lk.excl ==> s'.lk.excl[c] == s.lk.excl[c]
    requires InWork(s', b) || b !in s'.attached || Listed(s', b)
    ensures StageInv(s') && ListInv(s')
  {
    ListedKeeps(s, s', t, b);
    StageOthers(s, s', t, b, op);
    forall c | c in s'.attached && c != b ensures InWork(s', c) || Listed(s', c) {
      assert c in s.attached;
      if InWork(s, c) { WorkKeeps(s, s', t, b, c); }
    }
  }

  // ---------- jobs ----------

  /** t goes on with its job, or with the next op of its Write, or ends. */
  ghost predicate JobGoes(s: W, s': W, t: nat, pc': Pc) {
    && s.At(t) && s'.cfg == s.cfg && s'.threads == s.threads[t := pc'] && (pc'.Idle? || pc'.Busy?)
    && (pc'.Busy? ==>
          pc'.job == s.threads[t].job || (s.threads[t].job.WriteJob? && JobOk(s, t, pc'.job) && pc'.job.WriteJob?))
    && (pc'.Idle? ==> !s.threads[t].job.FlushJob? || s.threads[t].job.parent.Expiry?)
  }

  lemma JobStep(s: W, s': W, t: nat, pc': Pc)
    requires JobInv(s) && JobGoes(s, s', t, pc')
    ensures JobInv(s')
  {
    JobStepJobs(s, s', t, pc');
    JobStepRest(s, s', t, pc');
  }

  lemma JobStepJobs(s: W, s': W, t: nat, pc': Pc)
    requires JobsOk(s) && JobGoes(s, s', t, pc')
    ensures JobsOk(s')
  {}

  lemma JobStepRest(s: W, s': W, t: nat, pc': Pc)
    requires WorkersOk(s) && GathersOk(s) && JobGoes(s, s', t, pc')
    ensures WorkersOk(s') && GathersOk(s')
  {}

  /** The worker of a Flush reports back: its coordinator forgets the block. */
  lemma JobReport(s: W, s': W, t: nat)
    requires JobInv(s) && s.At(t) && s.threads[t].job.FlushJob? && s'.cfg == s.cfg
    requires s' == Report(s.(lk := s'.lk).Go(t, Idle), s.threads[t])
    ensures JobInv(s')
  {
    assert JobOk(s, t, s.threads[t].job);
    ReportJobs(s, s', t);
    ReportOut(s, s', t);
    ReportWorkers(s, s', t);
  }

  lemma ReportWorkers(s: W, s': W, t: nat)
    requires WorkersOk(s) && s.At(t) && s.threads[t].job.FlushJob? && s'.cfg == s.cfg
    requires s' == Report(s.(lk := s'.lk).Go(t, Idle), s.threads[t])
    ensures WorkersOk(s')
  {}

  lemma ReportJobs(s: W, s': W, t: nat)
    requires JobsOk(s) && s.At(t) && s.threads[t].job.FlushJob? && JobOk(s, t, s.threads[t].job)
    requires s' == Report(s.(lk := s'.lk).Go(t, Idle), s.threads[t])
    ensures JobsOk(s')
  {
    forall u | u in s'.threads && s'.threads[u].Busy? ensures JobOk(s', u, s'.threads[u].job) {
      assert s'.threads[u] == s.threads[u] && JobOk(s, u, s.threads[u].job);
    }
  }

  lemma ReportOut(s: W, s': W, t: nat)
    requires GathersOk(s) && s.At(t) && s.threads[t].job.FlushJob? && JobOk(s, t, s.threads[t].job)
    requires s' == Report(s.(lk := s'.lk).Go(t, Idle), s.threads[t])
    ensures GathersOk(s')
  {
    forall c, b | c in s'.threads && s'.threads[c].Gather? && b in s'.threads[c].out
      ensures s'.threads[c].out[b] in s'.threads && s'.threads[s'.threads[c].out[b]].Busy? &&
              s'.threads[s'.threads[c].out[b]].job == FlushJob(b, Flusher(c))
    {
      assert s.threads[c].Gather? && b in s.threads[c].out && s'.threads[c].out[b] == s.threads[c].out[b];
    }
  }

  // ---------- the stages that keep the lock ----------

  ghost predicate InvBut(s: W) {
    PoolInv(s) && LruInv(s) && OwnInv(s) && QueueInv(s) && JobInv(s) && StageInv(s) && ListInv(s)
  }

  lemma HolderStep(s: W, s': W, t: nat, op: Op)
    requires Inv(s) && s.At(t) && !s.threads[t].stage.Wait? && Focus(s, s', t, s.threads[t].job.Blk())
    requires s'.lk == s.lk && s'.queue == s.queue && s'.threads == s.threads[t := s'.threads[t]]
    requires s'.At(t) && StageOkT(s', t) && !s'.threads[t].stage.Wait?
    requires s'.threads[t].job == s.threads[t].job.Mark(s'.threads[t].job.WriteJob? && s'.threads[t].job.applied)
    requires s'.server == s.server || (op.Ok() && op.blk == s.threads[t].job.Blk() && s'.server == op.Do(s.server))
    requires PoolInv(s') && LruInv(s')
    ensures InvBut(s')
  {
    var b := s.threads[t].job.Blk();
    assert HoldsT(s, t, b) && HoldsT(s', t, b);
    LockSame(s, s', t, b);
    JobStep(s, s', t, s'.threads[t]);
    StepStages(s, s', t, b, op);
  }

  // ---------- each stage ----------

  /** What is known of the acting thread. */
  ghost predicate Acts(s: W, t: nat) { CanRun(s, t) && JobOk(s, t, s.threads[t].job) && StageOkT(s, t) }

  lemma CellsAreOk(s: W)
    requires PoolInv(s)
    ensures CellsOk(s.Cells())
  {}

  /** No buffer's valid range changes. */
  ghost predicate SameBytes(s: W, s': W) { forall id :: s'.Buf(id).cell == s.Buf(id).cell }

  lemma CellsSame(s: W, s': W)
    requires s'.attached == s.attached && (s'.pool == s.pool || SameBytes(s, s'))
    ensures s'.Cells() == s.Cells()
  {}

  lemma FoundPool(s: W, t: nat)
    requires PoolInv(s) && LruInv(s) && Acts(s, t) && s.threads[t].stage.Held? && s.threads[t].job.Blk() in s.attached
    ensures var s' := StepFound(s, t); PoolInv(s') && LruInv(s')
  {
    PoolFrame(s, StepFound(s, t));
    LruRemove(s, StepFound(s, t), s.attached[s.threads[t].job.Blk()]);
  }

  lemma FoundLocal(s: W, t: nat)
    requires PoolInv(s) && LruInv(s) && Acts(s, t) && s.threads[t].stage.Held? && s.threads[t].job.Blk() in s.attached
    ensures var s' := StepFound(s, t); Focus(s, s', t, s.threads[t].job.Blk()) && StageOkT(s', t)
  {
    RemoveIs(s.lru, s.attached[s.threads[t].job.Blk()]);
  }

  lemma AllocPool(s: W, t: nat)
    requires PoolInv(s) && LruInv(s) && Acts(s, t) && s.threads[t].stage.Held? && s.free != []
    ensures var s' := StepAlloc(s, t); PoolInv(s') && LruInv(s')
  {
    var s' := StepAlloc(s, t);
    PoolAlloc(s, s', t, s.free[0], s'.Buf(s.free[0]));
    LruFrame(s, s');
  }

  lemma AllocLocal(s: W, t: nat)
    requires PoolInv(s) && LruInv(s) && Acts(s, t) && s.threads[t].stage.Held? && s.free != []
    requires s.threads[t].job.Blk() !in s.attached && s.threads[t].job.WriteJob?
    requires (s.threads[t].job.Cur().IsFull() ==> s.cfg.async)
    ensures var s' := StepAlloc(s, t); Focus(s, s', t, s.threads[t].job.Blk()) && StageOkT(s', t)
  {
    AllocFocus(s, t);
    assert StepAlloc(s, t).Buf(s.free[0]) == Buffer(s.threads[t].job.Blk(), Cell(s.threads[t].job.Cur().off,
        s.threads[t].job.Cur().data), s.now);
  }

  lemma AllocFocus(s: W, t: nat)
    requires PoolInv(s) && LruInv(s) && AtStage(s, t, Held) && s.free != []
    ensures Focus(s, StepAlloc(s, t), t, s.threads[t].job.Blk())
  {
    var id := s.free[0];
    assert id in s.free && s.place[id].InFree?;
    forall i | Elsewhere(s, t, s.threads[t].job.Blk(), i) ensures i != id {}
  }

  lemma AllocCells(s: W, t: nat)
    requires PoolInv(s) && Acts(s, t) && s.threads[t].stage.Held? && s.free != []
    ensures StepAlloc(s, t).Cells() == s.Cells()
  {}

  lemma FoundKeeps(s: W, t: nat)
    requires Inv(s) && Acts(s, t) && s.threads[t].stage.Held? && s.threads[t].job.Blk() in s.attached
    ensures Inv(StepFound(s, t))
  {
    FoundPool(s, t);
    FoundLocal(s, t);
    CellsSame(s, StepFound(s, t));
    HolderStep(s, StepFound(s, t), t, s.threads[t].job.Cur());
  }

  lemma AllocKeeps(s: W, t: nat)
    requires Inv(s) && Acts(s, t) && s.threads[t].stage.Held? && s.free != []
    requires s.threads[t].job.Blk() !in s.attached && s.threads[t].job.WriteJob?
    requires (s.threads[t].job.Cur().IsFull() ==> s.cfg.async)
    ensures Inv(StepAlloc(s, t))
  {
    AllocPool(s, t);
    AllocLocal(s, t);
    AllocCells(s, t);
    HolderStep(s, StepAlloc(s, t), t, s.threads[t].job.Cur());
  }

  /** The holder only moves on. */
  lemma MoveKeeps(s: W, t: nat, st: Stage)
    requires Inv(s) && s.At(t) && !s.threads[t].stage.Wait? && !st.Wait?
    requires StageOk(s, s.threads[t].job, st, s.threads[t].failed)
    requires forall id :: !Carries(s.threads[t], id) && !Carries(s.threads[t].(stage := st), id)
    ensures Inv(s.Go(t, s.threads[t].(stage := st)))
  {
    var s' := s.Go(t, s.threads[t].(stage := st));
    MovePool(s, t, s'.threads[t]);
    CellsSame(s, s');
    StageMoved(s, t, s.threads[t].job, st, s.threads[t].failed, s.threads[t].(stage := st));
    HolderStep(s, s', t, s.threads[t].job.Cur());
  }

  lemma MovePool(s: W, t: nat, pc: Pc)
    requires PoolInv(s) && LruInv(s) && t in s.threads
    requires forall id :: !Carries(s.threads[t], id) && !Carries(pc, id)
    ensures var s' := s.Go(t, pc); PoolInv(s') && LruInv(s') && forall b :: Focus(s, s', t, b)
  {
    PoolFrame(s, s.Go(t, pc));
    LruFrame(s, s.Go(t, pc));
  }

  lemma StageMoved(s: W, t: nat, job: Job, st: Stage, failed: bool, pc: Pc)
    requires s.At(t) && !s.threads[t].stage.Wait? && StageOk(s, job, st, failed) && pc.Busy?
    ensures StageOk(s.Go(t, pc), job, st, failed)
  {
    var s' := s.Go(t, pc);
    if Listed(s, job.Blk()) && s.attached[job.Blk()] !in s.lru {
      var u :| Waiting(s, u, job.Blk());
      assert Waiting(s', u, job.Blk());
    }
  }

  lemma LookupKeeps(s: W, t: nat)
    requires Inv(s) && CanRun(s, t) && s.threads[t].stage.Held?
    ensures Inv(StepLookup(s, t))
  {
    var job := s.threads[t].job;
    assert Acts(s, t);
    if job.Blk() in s.attached {
      FoundKeeps(s, t);
    } else if !job.WriteJob? {
      MoveKeeps(s, t, Release);
    } else if (job.Cur().IsFull() && !s.cfg.async) || s.free == [] {
      MoveKeeps(s, t, Direct);
    } else {
      AllocKeeps(s, t);
    }
  }

  lemma AttachPool(s: W, t: nat)
    requires PoolInv(s) && LruInv(s) && Acts(s, t) && s.threads[t].stage.Fresh?
    ensures var s' := StepAttach(s, t); PoolInv(s') && LruInv(s')
  {
    var s' := StepAttach(s, t);
    var pc := s.threads[t];
    assert CarriesT(s, t, pc.stage.id);
    PoolAttach(s, s', t, pc.stage.id, pc.job.Blk());
    LruFrame(s, s');
  }

  lemma AttachLocal(s: W, t: nat)
    requires PoolInv(s) && LruInv(s) && Acts(s, t) && s.threads[t].stage.Fresh?
    ensures var s' := StepAttach(s, t); Focus(s, s', t, s.threads[t].job.Blk()) && StageOkT(s', t)
  {
    assert CarriesT(s, t, s.threads[t].stage.id);
    AttachFocus(s, t);
    AttachStage(s, t);
  }

  lemma AttachFocus(s: W, t: nat)
    requires s.At(t) && s.threads[t].stage.Fresh? && s.threads[t].job.Blk() !in s.attached
    requires s.threads[t].stage.id in s.place && s.place[s.threads[t].stage.id] == InHand(t)
    ensures Focus(s, StepAttach(s, t), t, s.threads[t].job.Blk())
  {}

  lemma AttachStage(s: W, t: nat)
    requires LruInv(s) && Acts(s, t) && s.threads[t].stage.Fresh?
    requires s.threads[t].stage.id in s.place && s.place[s.threads[t].stage.id] == InHand(t)
    ensures StageOkT(StepAttach(s, t), t)
  {}

  /** Ops replayed on the view, and cells changed to match: the view is explained again. */
  lemma ViewGoes(s: W, s': W, op: Op, b: nat, c: Cell)
    requires ViewInv(s) && s'.init == s.init && s'.log == s.log + [op] && s'.server == s.server
    requires s'.Cells() == s.Cells()[b := c] && View(s.server, s.Cells()[b := c]) == op.Do(View(s.server, s.Cells()))
    ensures ViewInv(s')
  {
    ReplaySnoc(s.init, s.log, op);
  }

  lemma AttachCells(s: W, t: nat)
    requires s.At(t) && s.threads[t].stage.Fresh?
    ensures StepAttach(s, t).Cells() == s.Cells()[s.threads[t].job.Blk() := s.Buf(s.threads[t].stage.id).cell]
  {}

  lemma AttachView(s: W, t: nat)
    requires PoolInv(s) && ViewInv(s) && Acts(s, t) && s.threads[t].stage.Fresh?
    ensures ViewInv(StepAttach(s, t))
  {
    var pc := s.threads[t];
    var c := s.Buf(pc.stage.id).cell;
    CellsAreOk(s);
    PutCell(s.server, s.Cells(), pc.job.Cur(), c);
    AttachCells(s, t);
    ViewGoes(s, StepAttach(s, t), pc.job.Cur(), pc.job.Blk(), c);
  }

  lemma AttachKeeps(s: W, t: nat)
    requires Inv(s) && CanRun(s, t) && s.threads[t].stage.Fresh?
    ensures Inv(StepAttach(s, t))
  {
    assert StageOkT(s, t) && JobOk(s, t, s.threads[t].job);
    AttachPool(s, t);
    AttachLocal(s, t);
    AttachView(s, t);
    HolderStep(s, StepAttach(s, t), t, s.threads[t].job.Cur());
  }

  lemma MergePool(s: W, t: nat)
    requires PoolInv(s) && LruInv(s) && Acts(s, t) && s.threads[t].stage.Own?
    requires s.Buf(s.threads[t].stage.id).cell.CanMerge(s.threads[t].job.Cur().off)
    ensures var s' := StepMerge(s, t); PoolInv(s') && LruInv(s')
  {
    var s' := StepMerge(s, t);
    PoolEdit(s, s', s.threads[t].job.Blk(), s'.Buf(s.threads[t].stage.id));
    LruFrame(s, s');
  }

  lemma MergeLocal(s: W, t: nat)
    requires PoolInv(s) && Acts(s, t) && s.threads[t].stage.Own?
    requires s.Buf(s.threads[t].stage.id).cell.CanMerge(s.threads[t].job.Cur().off)
    ensures var s' := StepMerge(s, t); Focus(s, s', t, s.threads[t].job.Blk()) && StageOkT(s', t)
  {}

  lemma MergeCells(s: W, t: nat)
    requires HomeInv(s) && s.At(t) && s.threads[t].stage.Own? && Works(s, s.threads[t].job.Blk(), s.threads[t].stage.id)
    requires s.Buf(s.threads[t].stage.id).cell.CanMerge(s.threads[t].job.Cur().off)
    ensures var c := s.Buf(s.threads[t].stage.id).cell.Merge(s.threads[t].job.Cur().data);
            StepMerge(s, t).Cells() == s.Cells()[s.threads[t].job.Blk() := c]
  {}

  lemma MergeView(s: W, t: nat)
    requires PoolInv(s) && ViewInv(s) && Acts(s, t) && s.threads[t].stage.Own?
    requires s.Buf(s.threads[t].stage.id).cell.CanMerge(s.threads[t].job.Cur().off)
    ensures ViewInv(StepMerge(s, t))
  {
    var pc := s.threads[t];
    var c := s.Buf(pc.stage.id).cell.Merge(pc.job.Cur().data);
    CellsAreOk(s);
    PutCell(s.server, s.Cells(), pc.job.Cur(), c);
    MergeCells(s, t);
    ViewGoes(s, StepMerge(s, t), pc.job.Cur(), pc.job.Blk(), c);
  }

  lemma MergeKeeps(s: W, t: nat)
    requires Inv(s) && CanRun(s, t) && s.threads[t].stage.Own?
    ensures Inv(StepMerge(s, t))
  {
    assert Acts(s, t);
    if s.Buf(s.threads[t].stage.id).cell.CanMerge(s.threads[t].job.Cur().off) {
      MergePool(s, t);
      MergeLocal(s, t);
      MergeView(s, t);
      HolderStep(s, StepMerge(s, t), t, s.threads[t].job.Cur());
    } else {
      MoveKeeps(s, t, Flush(s.threads[t].stage.id));
    }
  }

  lemma WriteBackLocal(s: W, t: nat, o: Outcome)
    requires PoolInv(s) && LruInv(s) && Acts(s, t) && s.threads[t].stage.Flush?
    ensures var s' := StepWriteBack(s, t, o); PoolInv(s') && LruInv(s') && Focus(s, s', t, s.threads[t].job.Blk())
  {
    var s' := StepWriteBack(s, t, o);
    PoolFrame(s, s');
    LruFrame(s, s');
  }

  lemma WriteBackView(s: W, t: nat, o: Outcome)
    requires PoolInv(s) && ViewInv(s) && Acts(s, t) && s.threads[t].stage.Flush?
    ensures var s' := StepWriteBack(s, t, o); ViewInv(s') && StageOkT(s', t)
  {
    var s' := StepWriteBack(s, t, o);
    CellsSame(s, s');
    CellsAreOk(s);
    WriteBack(s.server, s.Cells(), s.threads[t].job.Blk());
  }

  lemma WriteBackServer(s: W, t: nat, o: Outcome)
    requires HomeInv(s) && s.At(t) && s.threads[t].stage.Flush? &&
            Works(s, s.threads[t].job.Blk(), s.threads[t].stage.id)
    ensures var s' := StepWriteBack(s, t, o);
            var c := s.Buf(s.threads[t].stage.id).cell;
            var op := Op(s.threads[t].job.Blk(), c.off, c.data);
            && (s'.server == s.server || (op.Ok() && s'.server == op.Do(s.server)))
            && s'.lk == s.lk && s'.queue == s.queue && s'.At(t) && s'.threads == s.threads[t := s'.threads[t]]
            && s'.threads[t].job == s.threads[t].job && !s'.threads[t].stage.Wait?
  {}

  lemma WriteBackKeeps(s: W, t: nat, o: Outcome)
    requires Inv(s) && CanRun(s, t) && s.threads[t].stage.Flush?
    ensures Inv(StepWriteBack(s, t, o))
  {
    var c := s.Buf(s.threads[t].stage.id).cell;
    assert Acts(s, t);
    WriteBackLocal(s, t, o);
    WriteBackView(s, t, o);
    WriteBackServer(s, t, o);
    HolderStep(s, StepWriteBack(s, t, o), t, Op(s.threads[t].job.Blk(), c.off, c.data));
  }

  lemma ResetPool(s: W, t: nat)
    requires PoolInv(s) && LruInv(s) && Acts(s, t) && s.threads[t].stage.Reset?
    ensures var s' := StepReset(s, t); PoolInv(s') && LruInv(s')
  {
    var s' := StepReset(s, t);
    PoolEdit(s, s', s.threads[t].job.Blk(), s'.Buf(s.threads[t].stage.id));
    LruFrame(s, s');
  }

  lemma ResetLocal(s: W, t: nat)
    requires PoolInv(s) && Acts(s, t) && s.threads[t].stage.Reset?
    ensures var s' := StepReset(s, t); Focus(s, s', t, s.threads[t].job.Blk()) && StageOkT(s', t)
  {}

  lemma ResetCells(s: W, t: nat)
    requires HomeInv(s) && s.At(t) && s.threads[t].stage.Reset? &&
            Works(s, s.threads[t].job.Cur().blk, s.threads[t].stage.id)
    ensures var op := s.threads[t].job.Cur(); StepReset(s, t).Cells() == s.Cells()[op.blk := Cell(op.off, op.data)]
  {}

  lemma ResetView(s: W, t: nat)
    requires PoolInv(s) && ViewInv(s) && Acts(s, t) && s.threads[t].stage.Reset?
    ensures ViewInv(StepReset(s, t))
  {
    var op := s.threads[t].job.Cur();
    CellsAreOk(s);
    ReplaceCell(s.server, s.Cells(), op);
    ResetCells(s, t);
    ViewGoes(s, StepReset(s, t), op, op.blk, Cell(op.off, op.data));
  }

  lemma ResetKeeps(s: W, t: nat)
    requires Inv(s) && CanRun(s, t) && s.threads[t].stage.Reset?
    ensures Inv(StepReset(s, t))
  {
    assert Acts(s, t);
    ResetPool(s, t);
    ResetLocal(s, t);
    ResetView(s, t);
    HolderStep(s, StepReset(s, t), t, s.threads[t].job.Cur());
  }

  lemma DetachPool(s: W, t: nat)
    requires PoolInv(s) && LruInv(s) && Acts(s, t) && s.threads[t].stage.Detach?
    ensures var s' := StepDetach(s, t); PoolInv(s') && LruInv(s')
  {
    var s' := StepDetach(s, t);
    PoolDetach(s, s', t, s.threads[t].job.Blk());
    LruFrame(s, s');
  }

  lemma DetachLocal(s: W, t: nat)
    requires PoolInv(s) && Acts(s, t) && s.threads[t].stage.Detach?
    ensures var s' := StepDetach(s, t); Focus(s, s', t, s.threads[t].job.Blk()) && StageOkT(s', t)
  {
    DetachFocus(s, t);
  }

  lemma DetachFocus(s: W, t: nat)
    requires HomeInv(s) && s.At(t) && s.threads[t].stage.Detach?
    requires Works(s, s.threads[t].job.Blk(), s.threads[t].stage.id)
    ensures Focus(s, StepDetach(s, t), t, s.threads[t].job.Blk())
  {
    var s', b, id := StepDetach(s, t), s.threads[t].job.Blk(), s.threads[t].stage.id;
    assert s.place[id] == AtBlock(b);
    assert s'.place == s.place[id := InHand(t)] && s'.pool == s.pool && s'.lru == s.lru;
  }

  lemma DetachCells(s: W, t: nat)
    requires s.At(t) && s.threads[t].stage.Detach?
    ensures StepDetach(s, t).Cells() == s.Cells() - {s.threads[t].job.Blk()}
  {}

  lemma DetachView(s: W, t: nat)
    requires PoolInv(s) && ViewInv(s) && Acts(s, t) && s.threads[t].stage.Detach?
    ensures ViewInv(StepDetach(s, t))
  {
    CellsAreOk(s);
    DropCell(s.server, s.Cells(), s.threads[t].job.Blk());
    DetachCells(s, t);
  }

  lemma DetachKeeps(s: W, t: nat)
    requires Inv(s) && CanRun(s, t) && s.threads[t].stage.Detach?
    ensures Inv(StepDetach(s, t))
  {
    assert Acts(s, t);
    DetachPool(s, t);
    DetachLocal(s, t);
    DetachView(s, t);
    HolderStep(s, StepDetach(s, t), t, s.threads[t].job.Cur());
  }

  lemma TouchPool(s: W, t: nat)
    requires PoolInv(s) && LruInv(s) && Acts(s, t) && s.threads[t].stage.Touch?
    ensures var s' := StepTouch(s, t); PoolInv(s') && LruInv(s')
  {
    var s' := StepTouch(s, t);
    PoolEdit(s, s', s.threads[t].job.Blk(), s'.Buf(s.threads[t].stage.id));
    LruPush(s, s', s.threads[t].stage.id);
  }

  lemma TouchLocal(s: W, t: nat)
    requires PoolInv(s) && Acts(s, t) && s.threads[t].stage.Touch?
    ensures var s' := StepTouch(s, t); Focus(s, s', t, s.threads[t].job.Blk()) && StageOkT(s', t)
  {}

  lemma TouchCells(s: W, t: nat)
    requires PoolInv(s) && Acts(s, t) && s.threads[t].stage.Touch?
    ensures StepTouch(s, t).Cells() == s.Cells()
  {}

  lemma TouchKeeps(s: W, t: nat)
    requires Inv(s) && CanRun(s, t) && s.threads[t].stage.Touch?
    ensures Inv(StepTouch(s, t))
  {
    assert Acts(s, t);
    TouchPool(s, t);
    TouchLocal(s, t);
    TouchCells(s, t);
    HolderStep(s, StepTouch(s, t), t, s.threads[t].job.Cur());
  }

  lemma DirectLocal(s: W, t: nat, o: Outcome)
    requires PoolInv(s) && LruInv(s) && Acts(s, t) && s.threads[t].stage.Direct?
    ensures var s' := StepDirect(s, t, o);
            PoolInv(s') && LruInv(s') && Focus(s, s', t, s.threads[t].job.Blk()) && StageOkT(s', t)
  {
    var s' := StepDirect(s, t, o);
    PoolFrame(s, s');
    LruFrame(s, s');
  }

  lemma DirectView(s: W, t: nat, o: Outcome)
    requires PoolInv(s) && ViewInv(s) && Acts(s, t) && s.threads[t].stage.Direct?
    ensures ViewInv(StepDirect(s, t, o))
  {
    CellsSame(s, StepDirect(s, t, o));
    CellsAreOk(s);
    PutServer(s.server, s.Cells(), s.threads[t].job.Cur());
    ReplaySnoc(s.init, s.log, s.threads[t].job.Cur());
  }

  lemma DirectKeeps(s: W, t: nat, o: Outcome)
    requires Inv(s) && CanRun(s, t) && s.threads[t].stage.Direct?
    ensures Inv(StepDirect(s, t, o))
  {
    assert Acts(s, t);
    DirectLocal(s, t, o);
    DirectView(s, t, o);
    HolderStep(s, StepDirect(s, t, o), t, s.threads[t].job.Cur());
  }

  // ---------- the stages that take, pass on or release a lock ----------

  lemma AcquireLock(s: W, t: nat)
    requires OwnInv(s) && QueueInv(s) && CanRun(s, t) && s.threads[t].stage.Wait?
    ensures var s' := StepAcquire(s, t); OwnInv(s') && QueueInv(s')
  {
    var s' := StepAcquire(s, t);
    OwnLock(s, s', t, s.threads[t].job.Blk());
    QueueFrame(s, s');
  }

  lemma AcquirePool(s: W, t: nat)
    requires PoolInv(s) && LruInv(s) && JobInv(s) && CanRun(s, t) && s.threads[t].stage.Wait?
    ensures var s' := StepAcquire(s, t); PoolInv(s') && LruInv(s') && JobInv(s')
  {
    var s' := StepAcquire(s, t);
    PoolFrame(s, s');
    LruFrame(s, s');
    JobStep(s, s', t, s'.threads[t]);
  }

  lemma AcquireStages(s: W, t: nat)
    requires PoolInv(s) && OwnInv(s) && StageInv(s) && ListInv(s) && CanRun(s, t) && s.threads[t].stage.Wait?
    ensures var s' := StepAcquire(s, t); StageInv(s') && ListInv(s')
  {
    var s' := StepAcquire(s, t);
    var b := s.threads[t].job.Blk();
    assert b !in s.lk.excl;
    ListedKeeps(s, s', t, b);
    assert StageOkT(s, t);
    StageOthers(s, s', t, b, s.threads[t].job.Cur());
  }

  lemma AcquireKeeps(s: W, t: nat)
    requires Inv(s) && CanRun(s, t) && s.threads[t].stage.Wait?
    ensures Inv(StepAcquire(s, t))
  {
    AcquireLock(s, t);
    AcquirePool(s, t);
    AcquireStages(s, t);
    CellsSame(s, StepAcquire(s, t));
  }

  lemma SendQueue(s: W, t: nat)
    requires PoolInv(s) && OwnInv(s) && QueueInv(s) && Acts(s, t) && s.threads[t].stage.Send?
    ensures QueueInv(StepSend(s, t))
  {
    assert HoldsT(s, t, s.threads[t].job.Blk());
    QueueAdd(s, StepSend(s, t), s.threads[t].job.Blk());
  }

  /** The buffer of b joins the queue. */
  lemma QueueAdd(s: W, s': W, b: nat)
    requires PoolInv(s) && QueueInv(s) && b in s.attached && b in s.lk.excl && !s.lk.excl[b].Queue?
    requires s'.queue == s.queue + [s.attached[b]] && s'.lk == s.lk.Pass(b, Queue) && s'.others == s.others
    requires s'.attached == s.attached && s'.place == s.place && s'.pool == s.pool && s'.lru == s.lru && s'.cfg == s.cfg
    requires s.attached[b] !in s.lru && s.Buf(s.attached[b]).cell.IsFull() && s.cfg.async
    requires |s.queue| + s.others < s.cfg.cap
    ensures QueueInv(s')
  {
    assert forall id :: id in s'.queue <==> id in s.queue || id == s.attached[b];
    assert s.attached[b] !in s.queue;
  }

  lemma SendLock(s: W, t: nat)
    requires OwnInv(s) && Acts(s, t) && s.threads[t].stage.Send?
    ensures OwnInv(StepSend(s, t))
  {
    assert HoldsT(s, t, s.threads[t].job.Blk());
    OwnSend(s, StepSend(s, t), t, s.threads[t].job.Blk());
  }

  lemma SendPool(s: W, t: nat)
    requires PoolInv(s) && LruInv(s) && JobInv(s) && Acts(s, t) && s.threads[t].stage.Send?
    ensures var s' := StepSend(s, t); PoolInv(s') && LruInv(s') && JobInv(s')
  {
    var s' := StepSend(s, t);
    PoolFrame(s, s');
    LruFrame(s, s');
    JobStep(s, s', t, s'.threads[t]);
  }

  lemma SendStages(s: W, t: nat)
    requires PoolInv(s) && OwnInv(s) && StageInv(s) && ListInv(s) && Acts(s, t) && s.threads[t].stage.Send?
    ensures var s' := StepSend(s, t); StageInv(s') && ListInv(s')
  {
    assert HoldsT(s, t, s.threads[t].job.Blk());
    StepStages(s, StepSend(s, t), t, s.threads[t].job.Blk(), s.threads[t].job.Cur());
  }

  lemma SendKeeps(s: W, t: nat)
    requires Inv(s) && CanRun(s, t) && s.threads[t].stage.Send?
    ensures Inv(StepSend(s, t))
  {
    assert Acts(s, t);
    SendQueue(s, t);
    SendLock(s, t);
    SendPool(s, t);
    SendStages(s, t);
    CellsSame(s, StepSend(s, t));
  }

  lemma ReleaseThreads(s: W, t: nat)
    requires JobInv(s) && Acts(s, t) && s.threads[t].stage.Release?
    ensures var s' := StepRelease(s, t); JobInv(s') && Focus(s, s', t, s.threads[t].job.Blk())
    ensures forall u, c :: HoldsT(StepRelease(s, t), u, c) <==> HoldsT(s, u, c) && u != t
    ensures forall u, c :: SharesT(StepRelease(s, t), u, c) <==> SharesT(s, u, c)
    ensures forall u, c :: CarriesT(StepRelease(s, t), u, c) <==> CarriesT(s, u, c)
  {
    ReleaseJobs(s, t);
    ReleaseFocus(s, t);
  }

  lemma ReleaseFocus(s: W, t: nat)
    requires AtStage(s, t, Release) && JobOk(s, t, s.threads[t].job)
    ensures Focus(s, StepRelease(s, t), t, s.threads[t].job.Blk())
  {}

  lemma ReleaseJobs(s: W, t: nat)
    requires JobInv(s) && Acts(s, t) && s.threads[t].stage.Release?
    ensures JobInv(StepRelease(s, t))
  {
    var s' := StepRelease(s, t);
    if s.threads[t].job.FlushJob? { JobReport(s, s', t); } else { JobStep(s, s', t, s'.threads[t]); }
  }

  lemma ReleaseLock(s: W, t: nat)
    requires OwnInv(s) && JobInv(s) && Acts(s, t) && s.threads[t].stage.Release?
    ensures OwnInv(StepRelease(s, t))
  {
    ReleaseThreads(s, t);
    assert HoldsT(s, t, s.threads[t].job.Blk());
    OwnUnlock(s, StepRelease(s, t), t, s.threads[t].job.Blk());
  }

  lemma ReleasePool(s: W, t: nat)
    requires PoolInv(s) && JobInv(s) && Acts(s, t) && s.threads[t].stage.Release?
    ensures var s' := StepRelease(s, t); PoolInv(s') && s'.Cells() == s.Cells()
  {
    ReleaseThreads(s, t);
    PoolFrame(s, StepRelease(s, t));
    CellsSame(s, StepRelease(s, t));
  }

  lemma ReleaseLists(s: W, t: nat)
    requires LruInv(s) && OwnInv(s) && QueueInv(s) && Acts(s, t) && s.threads[t].stage.Release?
    ensures var s' := StepRelease(s, t); LruInv(s') && QueueInv(s')
  {
    assert HoldsT(s, t, s.threads[t].job.Blk());
    ReleaseSame(s, t);
    LruFrame(s, StepRelease(s, t));
    UnlockQueue(s, StepRelease(s, t), t, s.threads[t].job.Blk());
  }

  lemma UnlockQueue(s: W, s': W, t: nat, b: nat)
    requires QueueInv(s) && b in s.lk.excl && s.lk.excl[b] == Thread(t) && s'.lk == s.lk.Unlock(b)
    requires s'.queue == s.queue && s'.others == s.others && s'.cfg == s.cfg && s'.lru == s.lru
    requires s'.place == s.place && s'.pool == s.pool && s'.attached == s.attached
    ensures QueueInv(s')
  {
    UnlockSame(s.lk, b, t);
    QueueFrame(s, s');
  }

  lemma UnlockSame(lk: LockState, b: nat, t: nat)
    requires b in lk.excl && lk.excl[b] == Thread(t)
    ensures var lk' := lk.Unlock(b);
            forall c :: c in lk.excl && lk.excl[c].Queue? <==> c in lk'.excl && lk'.excl[c].Queue?
  {}

  lemma ReleaseSame(s: W, t: nat)
    requires AtStage(s, t, Release)
    ensures var s' := StepRelease(s, t); s' == s.(lk := s.lk.Unlock(s.threads[t].job.Blk()), threads := s'.threads)
  {}

  lemma ReleaseStages(s: W, t: nat)
    requires PoolInv(s) && OwnInv(s) && JobInv(s) && StageInv(s) && ListInv(s) && Acts(s, t)
    requires s.threads[t].stage.Release?
    ensures var s' := StepRelease(s, t); StageInv(s') && ListInv(s')
  {
    var s' := StepRelease(s, t);
    var b := s.threads[t].job.Blk();
    ReleaseThreads(s, t);
    assert HoldsT(s, t, b);
    if b in s.attached && s.attached[b] !in s.lru {
      var u :| Waiting(s, u, b);
      assert Waiting(s', u, b);
    }
    StepStages(s, s', t, b, s.threads[t].job.Cur());
  }

  lemma ReleaseKeeps(s: W, t: nat)
    requires Inv(s) && CanRun(s, t) && s.threads[t].stage.Release?
    ensures Inv(StepRelease(s, t))
  {
    assert Acts(s, t);
    ReleaseThreads(s, t);
    ReleaseLock(s, t);
    ReleasePool(s, t);
    ReleaseLists(s, t);
    ReleaseStages(s, t);
  }

  lemma FreePool(s: W, t: nat)
    requires PoolInv(s) && LruInv(s) && Acts(s, t) && s.threads[t].stage.Free?
    ensures var s' := StepFree(s, t); PoolInv(s') && LruInv(s') && Focus(s, s', t, s.threads[t].job.Blk())
  {
    var s' := StepFree(s, t);
    assert CarriesT(s, t, s.threads[t].stage.id);
    PoolFree(s, s', t, s.threads[t].stage.id);
    LruFrame(s, s');
    FreeFocus(s, t);
  }

  lemma FreeFocus(s: W, t: nat)
    requires s.At(t) && s.threads[t].stage.Free? && s.threads[t].stage.id in s.place
    requires s.place[s.threads[t].stage.id] == InHand(t)
    ensures Focus(s, StepFree(s, t), t, s.threads[t].job.Blk())
  {}

  /** A background writer frees the buffer and unlocks in one step. */
  lemma FreeSyncLock(s: W, t: nat)
    requires PoolInv(s) && LruInv(s) && OwnInv(s) && QueueInv(s) && JobInv(s) && Acts(s, t)
    requires s.threads[t].stage.Free? && s.threads[t].job.SyncJob?
    ensures var s' := StepFree(s, t); OwnInv(s') && QueueInv(s') && JobInv(s')
  {
    var s' := StepFree(s, t);
    var b := s.threads[t].job.Blk();
    assert HoldsT(s, t, b) && CarriesT(s, t, s.threads[t].stage.id);
    OwnUnlock(s, s', t, b);
    QueueFrame(s, s');
    JobStep(s, s', t, s'.threads[t]);
  }

  lemma FreeKeeps(s: W, t: nat)
    requires Inv(s) && CanRun(s, t) && s.threads[t].stage.Free?
    ensures Inv(StepFree(s, t))
  {
    assert Acts(s, t);
    FreePool(s, t);
    CellsSame(s, StepFree(s, t));
    if s.threads[t].job.SyncJob? { FreeSync(s, t); } else { FreeHeld(s, t); }
  }

  lemma FreeSync(s: W, t: nat)
    requires Inv(s) && Acts(s, t) && s.threads[t].stage.Free? && s.threads[t].job.SyncJob?
    requires PoolInv(StepFree(s, t)) && LruInv(StepFree(s, t)) && Focus(s, StepFree(s, t), t, s.threads[t].job.Blk())
    ensures InvBut(StepFree(s, t))
  {
    FreeSyncLock(s, t);
    FreeSyncStages(s, t);
  }

  lemma FreeSyncStages(s: W, t: nat)
    requires PoolInv(s) && OwnInv(s) && StageInv(s) && ListInv(s) && Acts(s, t) && s.threads[t].stage.Free?
    requires s.threads[t].job.SyncJob?
    requires Focus(s, StepFree(s, t), t, s.threads[t].job.Blk())
    ensures StageInv(StepFree(s, t)) && ListInv(StepFree(s, t))
  {
    assert HoldsT(s, t, s.threads[t].job.Blk());
    StepStages(s, StepFree(s, t), t, s.threads[t].job.Blk(), s.threads[t].job.Cur());
  }

  lemma FreeHeld(s: W, t: nat)
    requires Inv(s) && Acts(s, t) && s.threads[t].stage.Free? && !s.threads[t].job.SyncJob?
    requires Focus(s, StepFree(s, t), t, s.threads[t].job.Blk()) && PoolInv(StepFree(s, t)) && LruInv(StepFree(s, t))
    ensures InvBut(StepFree(s, t))
  {
    FreeStage(s, t);
    HolderStep(s, StepFree(s, t), t, s.threads[t].job.Cur());
  }

  lemma FreeStage(s: W, t: nat)
    requires Acts(s, t) && s.threads[t].stage.Free? && !s.threads[t].job.SyncJob?
    ensures StepFree(s, t).At(t) && StageOkT(StepFree(s, t), t)
  {}

  // ---------- the other actions ----------

  lemma JobBegin(s: W, s': W, t: nat, pc: Pc)
    requires JobInv(s) && (t in s.threads ==> s.threads[t].Idle?) && s'.cfg == s.cfg
    requires s'.threads == s.threads[t := pc] && pc.Busy?
    requires t in s.cfg.workers <==> pc.job.SyncJob?
    requires JobOk(s, t, pc.job) && (pc.job.FlushJob? ==> pc.job.parent.Expiry?)
    ensures JobInv(s')
  {}

  lemma ReceiveLock(s: W, t: nat)
    requires PoolInv(s) && OwnInv(s) && QueueInv(s) && Enabled(s, Receive(t))
    ensures OwnInv(StepReceive(s, t))
  {
    assert s.queue[0] in s.queue;
    OwnReceive(s, StepReceive(s, t), t, s.Buf(s.queue[0]).blk);
  }

  lemma ReceiveJob(s: W, t: nat)
    requires JobInv(s) && Enabled(s, Receive(t))
    ensures var s' := StepReceive(s, t); JobInv(s') && Focus(s, s', t, s.Buf(s.queue[0]).blk)
  {
    JobBegin(s, StepReceive(s, t), t, StepReceive(s, t).threads[t]);
  }

  lemma ReceivePool(s: W, t: nat)
    requires PoolInv(s) && LruInv(s) && OwnInv(s) && QueueInv(s) && Enabled(s, Receive(t))
    ensures var s' := StepReceive(s, t); PoolInv(s') && LruInv(s') && QueueInv(s') && s'.Cells() == s.Cells()
  {
    var s' := StepReceive(s, t);
    PoolFrame(s, s');
    LruFrame(s, s');
    assert s.queue[0] in s.queue;
    QueueTake(s, s', s.Buf(s.queue[0]).blk, t);
    CellsSame(s, s');
  }

  /** The first buffer, of block b, leaves the queue. */
  lemma QueueTake(s: W, s': W, b: nat, t: nat)
    requires PoolInv(s) && QueueInv(s) && s.queue != [] && s.place[s.queue[0]] == AtBlock(b)
    requires s'.queue == s.queue[1..] && s'.lk == s.lk.Pass(b, Thread(t)) && s'.others == s.others
    requires s'.attached == s.attached && s'.place == s.place && s'.pool == s.pool && s'.lru == s.lru && s'.cfg == s.cfg
    ensures QueueInv(s')
  {
    TailIs(s.queue);
  }

  lemma ReceiveStages(s: W, t: nat)
    requires PoolInv(s) && OwnInv(s) && QueueInv(s) && StageInv(s) && Enabled(s, Receive(t))
    requires Focus(s, StepReceive(s, t), t, s.Buf(s.queue[0]).blk)
    ensures StageInv(StepReceive(s, t))
  {
    var s' := StepReceive(s, t);
    var b := s.Buf(s.queue[0]).blk;
    assert s.place[s.queue[0]] == AtBlock(b) && s.queue[0] in s.queue;
    ListedKeeps(s, s', t, b);
    StageOthers(s, s', t, b, s'.threads[t].job.Cur());
  }

  lemma ReceiveListed(s: W, t: nat)
    requires PoolInv(s) && OwnInv(s) && ListInv(s) && Enabled(s, Receive(t))
    requires Focus(s, StepReceive(s, t), t, s.Buf(s.queue[0]).blk)
    ensures ListInv(StepReceive(s, t))
  {
    ListedKeeps(s, StepReceive(s, t), t, s.Buf(s.queue[0]).blk);
  }

  lemma ReceiveKeeps(s: W, t: nat)
    requires Inv(s) && Enabled(s, Receive(t))
    ensures Inv(StepReceive(s, t))
  {
    ReceiveLock(s, t);
    ReceiveJob(s, t);
    ReceivePool(s, t);
    ReceiveStages(s, t);
    ReceiveListed(s, t);
  }

  /** No list, map or lock changes; new jobs only start to wait. */
  ghost predicate Quiet(s: W, s': W) {
    && s' == s.(threads := s'.threads, now := s'.now) && s.now <= s'.now
    && (forall u, c :: HoldsT(s', u, c) <==> HoldsT(s, u, c))
    && (forall u, c :: SharesT(s', u, c) <==> SharesT(s, u, c))
    && (forall u, c :: CarriesT(s', u, c) <==> CarriesT(s, u, c))
    && (forall u :: s'.At(u) ==> s.Is(u, s'.threads[u]) || (s'.threads[u].stage.Wait? && StageOkT(s', u)))
    && (forall u :: s.At(u) ==> s'.Is(u, s.threads[u]))
    && (forall u :: u in s.threads && s.threads[u].Stat? ==>
          u in s'.threads && (s'.threads[u].Stat? || s'.threads[u].Idle?))
  }

  lemma QuietStages(s: W, s': W)
    requires StageInv(s) && ListInv(s) && OwnInv(s) && Quiet(s, s')
    ensures StageInv(s') && ListInv(s')
  {
    forall b | Listed(s, b) ensures Listed(s', b) {
      if s.attached[b] !in s.lru {
        var u :| Waiting(s, u, b);
        assert Waiting(s', u, b);
      }
    }
    forall u | s'.At(u) ensures StageOkT(s', u) {
      if s.Is(u, s'.threads[u]) { StageOne(s, s', u); }
    }
  }

  lemma QuietKeeps(s: W, s': W)
    requires Inv(s) && Quiet(s, s') && JobInv(s')
    ensures Inv(s')
  {
    PoolFrame(s, s');
    LruFrame(s, s');
    OwnFrame(s, s');
    QueueFrame(s, s');
    QuietStages(s, s');
    CellsSame(s, s');
  }

  lemma ReleaseWaits(s: W, s': W, b: nat)
    requires Listed(s, b) && s'.attached == s.attached && s'.lru == s.lru
    requires forall u, c :: Waiting(s, u, c) ==> Waiting(s', u, c)
    ensures Listed(s', b)
  {}

  /** Only the lock table and the program point of a reader or a size query change. */
  ghost predicate LockOnly(s: W, s': W, t: nat) {
    && t in s.threads && t in s'.threads && !s.threads[t].Busy? && !s'.threads[t].Busy?
    && s' == s.(lk := s'.lk, threads := s.threads[t := s'.threads[t]])
    && !s.threads[t].Idle? && !s.threads[t].Gather? && !s'.threads[t].Gather?
    && !s.threads[t].Abroad? && !s'.threads[t].Abroad?
    && (forall b :: b in s.lk.excl && s.lk.excl[b].Queue? <==> b in s'.lk.excl && s'.lk.excl[b].Queue?)
    && (forall b :: InWork(s, b) ==> InWork(s', b))
  }

  lemma LockOnlyKeeps(s: W, s': W, t: nat)
    requires Inv(s) && LockOnly(s, s', t) && OwnInv(s')
    ensures Inv(s')
  {
    PoolFrame(s, s');
    LruFrame(s, s');
    QueueFrame(s, s');
    LockOnlyJobs(s, s', t);
    LockOnlyStages(s, s', t);
    CellsSame(s, s');
  }

  lemma LockOnlyJobs(s: W, s': W, t: nat)
    requires JobInv(s) && LockOnly(s, s', t)
    ensures JobInv(s')
  {}

  lemma LockOnlyStages(s: W, s': W, t: nat)
    requires StageInv(s) && ListInv(s) && LockOnly(s, s', t)
    ensures StageInv(s') && ListInv(s')
  {
    assert forall u, c :: Waiting(s, u, c) ==> Waiting(s', u, c);
    forall b | Listed(s, b) ensures Listed(s', b) { ReleaseWaits(s, s', b); }
    forall u | s'.At(u) ensures StageOkT(s', u) { StageOne(s, s', u); }
  }

  lemma StatLockKeeps(s: W, t: nat)
    requires Inv(s) && CanStat(s, t) && s.threads[t].at.Want?
    ensures Inv(StepStat(s, t))
  {
    StatLockOwn(s, t);
    LockOnlyKeeps(s, StepStatLock(s, t), t);
  }

  lemma StatLockOwn(s: W, t: nat)
    requires OwnInv(s) && CanStat(s, t) && s.threads[t].at.Want?
    ensures var s' := StepStatLock(s, t); OwnInv(s') && LockOnly(s, s', t)
  {
    assert s.threads[t].at.u !in s.lk.excl;
    OwnLock(s, StepStatLock(s, t), t, s.threads[t].at.u);
  }

  lemma StatUnlockKeeps(s: W, t: nat)
    requires Inv(s) && CanStat(s, t) && s.threads[t].at.Leave?
    ensures Inv(StepStat(s, t))
  {
    StatUnlockOwn(s, t);
    LockOnlyKeeps(s, StepStatUnlock(s, t), t);
  }

  lemma StatUnlockOwn(s: W, t: nat)
    requires OwnInv(s) && CanStat(s, t) && s.threads[t].at.Leave?
    ensures var s' := StepStatUnlock(s, t); OwnInv(s') && LockOnly(s, s', t)
  {
    assert HoldsT(s, t, s.threads[t].at.u);
    OwnUnlock(s, StepStatUnlock(s, t), t, s.threads[t].at.u);
  }

  /** A thread that works on no block moves on without touching anything. */
  lemma GoKeeps(s: W, t: nat, pc: Pc)
    requires Inv(s) && Plain(s, t, pc) && JobInv(s.Go(t, pc))
    ensures Inv(s.Go(t, pc))
  {
    GoQuiet(s, t, pc);
    QuietKeeps(s, s.Go(t, pc));
  }

  ghost predicate Plain(s: W, t: nat, pc: Pc) {
    && (t in s.threads ==> !s.threads[t].Busy?)
    && (forall b :: (Holds(pc, b) <==> HoldsT(s, t, b)) && (Shares(pc, b) <==> SharesT(s, t, b)))
    && (pc.Busy? ==> pc.stage.Wait? && !pc.failed && !pc.job.SyncJob? && (pc.job.WriteJob? ==> !pc.job.applied))
    && (t in s.threads && s.threads[t].Stat? ==> pc.Stat? || pc.Idle?)
  }

  lemma GoQuiet(s: W, t: nat, pc: Pc)
    requires Plain(s, t, pc)
    ensures Quiet(s, s.Go(t, pc))
  {}

  lemma StatKeeps(s: W, t: nat)
    requires Inv(s) && CanStat(s, t)
    ensures Inv(StepStat(s, t))
  {
    if s.threads[t].at.Want? {
      StatLockKeeps(s, t);
    } else if s.threads[t].at.Leave? {
      StatUnlockKeeps(s, t);
    } else {
      StatAdvances(s, t);
    }
  }

  lemma StatAdvances(s: W, t: nat)
    requires Inv(s) && CanStat(s, t) && !s.threads[t].at.Want? && !s.threads[t].at.Leave?
    ensures Inv(StepStat(s, t))
  {
    StatGoes(s, t);
    StatGo(s, t, StepStat(s, t).threads[t]);
  }

  lemma StatGoes(s: W, t: nat)
    requires CanStat(s, t) && !s.threads[t].at.Want? && !s.threads[t].at.Leave?
    ensures var s' := StepStat(s, t); t in s'.threads && s' == s.Go(t, s'.threads[t])
    ensures var pc := StepStat(s, t).threads[t];
            (pc.Stat? || pc.Idle?) && forall b :: Holds(pc, b) <==> Holds(s.threads[t], b)
  {}

  lemma StatGo(s: W, t: nat, pc: Pc)
    requires Inv(s) && AtStat(s, t) && (pc.Stat? || pc.Idle?) && forall b :: Holds(pc, b) <==> Holds(s.threads[t], b)
    ensures Inv(s.Go(t, pc))
  {
    StatJobs(s, s.Go(t, pc), t);
    GoKeeps(s, t, pc);
  }

  /** A thread without a job stays without one. */
  lemma StatJobs(s: W, s': W, t: nat)
    requires JobInv(s) && t in s.threads && s.threads[t].Stat?
    requires s'.cfg == s.cfg && t in s'.threads && s'.threads == s.threads[t := s'.threads[t]] && !s'.threads[t].Busy?
    requires !s'.threads[t].Gather? && !s'.threads[t].Abroad?
    ensures JobInv(s')
  {}

  lemma LockReadKeeps(s: W, t: nat)
    requires Inv(s) && Enabled(s, LockRead(t))
    ensures Inv(StepLockRead(s, t))
  {
    LockReadOwn(s, t);
    LockReadOnly(s, t);
    LockOnlyKeeps(s, StepLockRead(s, t), t);
  }

  lemma LockReadOwn(s: W, t: nat)
    requires OwnInv(s) && Enabled(s, LockRead(t))
    ensures OwnInv(StepLockRead(s, t))
  {
    OwnShare(s, StepLockRead(s, t), t, s.threads[t].rblk);
  }

  lemma LockReadOnly(s: W, t: nat)
    requires Enabled(s, LockRead(t))
    ensures LockOnly(s, StepLockRead(s, t), t)
  {}

  lemma EndReadKeeps(s: W, t: nat)
    requires Inv(s) && Enabled(s, EndRead(t))
    ensures Inv(StepEndRead(s, t))
  {
    EndReadOwn(s, t);
    EndReadOnly(s, t);
    LockOnlyKeeps(s, StepEndRead(s, t), t);
  }

  lemma EndReadOwn(s: W, t: nat)
    requires OwnInv(s) && Enabled(s, EndRead(t))
    ensures OwnInv(StepEndRead(s, t))
  {
    assert SharesT(s, t, s.threads[t].rblk);
    OwnUnshare(s, StepEndRead(s, t), t, s.threads[t].rblk);
  }

  lemma EndReadOnly(s: W, t: nat)
    requires Enabled(s, EndRead(t))
    ensures LockOnly(s, StepEndRead(s, t), t)
  {}

  lemma ExpireStages(s: W, t: nat)
    requires PoolInv(s) && LruInv(s) && StageInv(s) && ListInv(s) && Enabled(s, BeginExpire(t))
    ensures var s' := StepExpire(s, t); StageInv(s') && ListInv(s')
  {
    var s' := StepExpire(s, t);
    var id := s.lru[|s.lru| - 1];
    assert Waiting(s', t, s.Buf(id).blk);
    forall b | Listed(s, b) ensures Listed(s', b) {
      if s.attached[b] !in s.lru {
        var u :| Waiting(s, u, b);
        assert Waiting(s', u, b);
      }
    }
    forall u | s'.At(u) ensures StageOkT(s', u) {
      if u != t { StageOne(s, s', u); }
    }
  }

  lemma ExpireLru(s: W, t: nat)
    requires LruInv(s) && Enabled(s, BeginExpire(t))
    ensures LruInv(StepExpire(s, t)) && forall id :: id in StepExpire(s, t).lru ==> id in s.lru
  {}

  lemma ExpirePool(s: W, t: nat)
    requires PoolInv(s) && LruInv(s) && QueueInv(s) && Enabled(s, BeginExpire(t))
    ensures var s' := StepExpire(s, t); PoolInv(s') && LruInv(s') && QueueInv(s')
  {
    ExpireLru(s, t);
    ExpireFrames(s, t);
  }

  lemma ExpireFrames(s: W, t: nat)
    requires PoolInv(s) && QueueInv(s) && Enabled(s, BeginExpire(t))
    requires forall id :: id in StepExpire(s, t).lru ==> id in s.lru
    ensures var s' := StepExpire(s, t); PoolInv(s') && QueueInv(s')
  {
    PoolFrame(s, StepExpire(s, t));
    QueueFrame(s, StepExpire(s, t));
  }

  lemma ExpireJob(s: W, t: nat)
    requires OwnInv(s) && JobInv(s) && Enabled(s, BeginExpire(t))
    ensures var s' := StepExpire(s, t); OwnInv(s') && JobInv(s')
  {
    var s' := StepExpire(s, t);
    OwnFrame(s, s');
    JobBegin(s, s', t, s'.threads[t]);
  }

  lemma ExpireKeeps(s: W, t: nat)
    requires Inv(s) && Enabled(s, BeginExpire(t))
    ensures Inv(StepExpire(s, t))
  {
    ExpirePool(s, t);
    ExpireJob(s, t);
    ExpireStages(s, t);
    CellsSame(s, StepExpire(s, t));
  }

  /** An idle thread takes up something other than a block job. */
  lemma JobPlain(s: W, t: nat, pc: Pc)
    requires JobInv(s) && Ready(s, t) && !pc.Busy? && !pc.Abroad? && (pc.Gather? ==> pc.out == map[])
    ensures JobInv(s.Go(t, pc))
  {}

  lemma JobEndFlush(s: W, t: nat)
    requires JobInv(s) && Enabled(s, EndFlush(t))
    ensures JobInv(s.Go(t, Idle))
  {}

  lemma SpawnJobs(s: W, t: nat, c: nat, b: nat)
    requires JobInv(s) && Enabled(s, Spawn(t, c, b))
    ensures JobInv(StepSpawn(s, t, c, b))
  {
    SpawnJobsOk(s, t, c, b);
    SpawnWorkers(s, t, c, b);
    SpawnOut(s, t, c, b);
  }

  lemma SpawnJobsOk(s: W, t: nat, c: nat, b: nat)
    requires JobsOk(s) && Enabled(s, Spawn(t, c, b)) && b !in s.threads[c].out
    ensures JobsOk(StepSpawn(s, t, c, b))
  {
    var s' := StepSpawn(s, t, c, b);
    forall u | u in s'.threads && s'.threads[u].Busy? ensures JobOk(s', u, s'.threads[u].job) {
      if u != t { assert s'.threads[u] == s.threads[u] && JobOk(s, u, s.threads[u].job); }
    }
  }

  lemma SpawnWorkers(s: W, t: nat, c: nat, b: nat)
    requires WorkersOk(s) && Enabled(s, Spawn(t, c, b))
    ensures WorkersOk(StepSpawn(s, t, c, b))
  {}

  lemma SpawnOut(s: W, t: nat, c: nat, b: nat)
    requires GathersOk(s) && Enabled(s, Spawn(t, c, b))
    ensures GathersOk(StepSpawn(s, t, c, b))
  {
    var s' := StepSpawn(s, t, c, b);
    forall d, x | d in s'.threads && s'.threads[d].Gather? && x in s'.threads[d].out
      ensures s'.threads[d].out[x] in s'.threads && s'.threads[s'.threads[d].out[x]].Busy? &&
              s'.threads[s'.threads[d].out[x]].job == FlushJob(x, Flusher(d))
    {
      if !(d == c && x == b) {
        assert s.threads[d].Gather? && x in s.threads[d].out && s'.threads[d].out[x] == s.threads[d].out[x];
      }
    }
  }

  predicate WritingOut(st: Stage) { st.Direct? || st.Release? || st.Flush? || st.Reset? || st.Detach? || st.Free? }

  lemma BufferKeeps(s: W, t: nat, o: Outcome)
    requires Inv(s) && CanRun(s, t) && !WritingOut(s.threads[t].stage)
    ensures Inv(StepRun(s, t, o))
  {
    var st := s.threads[t].stage;
    if st.Wait? {
      AcquireKeeps(s, t);
    } else if st.Held? {
      LookupKeeps(s, t);
    } else if st.Fresh? {
      AttachKeeps(s, t);
    } else if st.Own? {
      MergeKeeps(s, t);
    } else if st.Send? {
      SendKeeps(s, t);
    } else {
      TouchKeeps(s, t);
    }
  }

  lemma RunKeeps(s: W, t: nat, o: Outcome)
    requires Inv(s) && CanRun(s, t)
    ensures Inv(StepRun(s, t, o))
  {
    if WritingOut(s.threads[t].stage) {
      WriteOutKeeps(s, t, o);
    } else {
      BufferKeeps(s, t, o);
    }
  }

  predicate Buffering(st: Stage) { st.Wait? || st.Held? || st.Own? || st.Fresh? || st.Send? || st.Touch? }

  lemma WriteOutKeeps(s: W, t: nat, o: Outcome)
    requires Inv(s) && CanRun(s, t) && !Buffering(s.threads[t].stage)
    ensures Inv(StepRun(s, t, o))
  {
    var st := s.threads[t].stage;
    if st.Direct? {
      DirectKeeps(s, t, o);
    } else if st.Release? {
      ReleaseKeeps(s, t);
    } else if st.Flush? {
      WriteBackKeeps(s, t, o);
    } else if st.Reset? {
      ResetKeeps(s, t);
    } else if st.Detach? {
      DetachKeeps(s, t);
    } else {
      FreeKeeps(s, t);
    }
  }

  lemma SpawnKeeps(s: W, t: nat, c: nat, b: nat)
    requires Inv(s) && Enabled(s, Spawn(t, c, b))
    ensures Inv(StepSpawn(s, t, c, b))
  {
    SpawnJobs(s, t, c, b);
    SpawnQuiet(s, t, c, b);
    QuietKeeps(s, StepSpawn(s, t, c, b));
  }

  lemma SpawnQuiet(s: W, t: nat, c: nat, b: nat)
    requires Enabled(s, Spawn(t, c, b))
    ensures Quiet(s, StepSpawn(s, t, c, b))
  {}

  lemma PlainKeeps(s: W, t: nat, pc: Pc)
    requires Inv(s) && Ready(s, t) && !pc.Busy? && !pc.Abroad? && (pc.Gather? ==> pc.out == map[])
    requires forall b :: !Holds(pc, b) && !Shares(pc, b)
    ensures Inv(s.Go(t, pc))
  {
    JobPlain(s, t, pc);
    GoKeeps(s, t, pc);
  }

  lemma BeginWriteKeeps(s: W, t: nat, ops: seq<Op>)
    requires Inv(s) && Enabled(s, BeginWrite(t, ops))
    ensures Inv(s.Go(t, Busy(WriteJob(ops, 0, false), Wait, false)))
  {
    var pc := Busy(WriteJob(ops, 0, false), Wait, false);
    JobBegin(s, s.Go(t, pc), t, pc);
    GoKeeps(s, t, pc);
  }

  lemma TickKeeps(s: W, d: nat)
    requires Inv(s)
    ensures Inv(StepTick(s, d))
  {
    QuietKeeps(s, StepTick(s, d));
  }

  lemma BeginFlushKeeps(s: W, t: nat)
    requires Inv(s) && Ready(s, t)
    ensures Inv(s.Go(t, Gather(|s.log|, s.Cells(), s.attached.Keys, map[], false)))
  {
    PlainKeeps(s, t, Gather(|s.log|, s.Cells(), s.attached.Keys, map[], false));
  }

  lemma EndFlushKeeps(s: W, t: nat)
    requires Inv(s) && Enabled(s, EndFlush(t))
    ensures Inv(s.Go(t, Idle))
  {
    JobEndFlush(s, t);
    GoKeeps(s, t, Idle);
  }

  lemma BeginStatKeeps(s: W, t: nat)
    requires Inv(s) && Ready(s, t)
    ensures Inv(s.Go(t, Stat(ViewSize(s.server, s.Cells()), Probe)))
  {
    PlainKeeps(s, t, Stat(ViewSize(s.server, s.Cells()), Probe));
  }

  lemma BeginReadKeeps(s: W, t: nat, b: nat)
    requires Inv(s) && Ready(s, t)
    ensures Inv(s.Go(t, Reading(b, false)))
  {
    PlainKeeps(s, t, Reading(b, false));
  }

  // ---------- other files ----------

  /** Only what is shared with other files changes, and background writers that work for none or for another one. */
  ghost predicate Shared(s: W, s': W) {
    && s' == s.(free := s'.free, place := s'.place, others := s'.others, threads := s'.threads)
    && s'.threads.Keys == s.threads.Keys
    && (forall u :: u in s.threads ==>
          s'.threads[u] == s.threads[u] || ((s.threads[u].Idle? || s.threads[u].Abroad?) &&
                  (s'.threads[u].Idle? || s'.threads[u].Abroad?)))
    && (forall id :: id in s.place && (s.place[id].AtBlock? || s.place[id].InHand?) ==>
          id in s'.place && s'.place[id] == s.place[id])
    && (forall id :: id in s.lru && id in s.place ==> id in s'.place && s'.place[id] == s.place[id])
  }

  lemma SharedStages(s: W, s': W)
    requires StageInv(s) && ListInv(s) && Shared(s, s')
    ensures StageInv(s') && ListInv(s')
  {
    assert forall u, c :: Waiting(s, u, c) ==> Waiting(s', u, c);
    forall b | Listed(s, b) ensures Listed(s', b) { ReleaseWaits(s, s', b); }
    forall u | s'.At(u) ensures StageOkT(s', u) { StageOne(s, s', u); }
  }

  lemma SharedLists(s: W, s': W)
    requires LruInv(s) && OwnInv(s) && Shared(s, s')
    ensures LruInv(s') && OwnInv(s')
  {
    LruFrame(s, s');
    OwnFrame(s, s');
  }

  lemma SharedQueue(s: W, s': W)
    requires QueueInv(s) && Shared(s, s') && |s.queue| + s'.others <= s.cfg.cap && (s'.others > 0 ==> s.cfg.async)
    ensures QueueInv(s')
  {}

  lemma SharedKeeps(s: W, s': W)
    requires Inv(s) && Shared(s, s') && PoolInv(s') && JobInv(s')
    requires |s.queue| + s'.others <= s.cfg.cap && (s'.others > 0 ==> s.cfg.async)
    ensures Inv(s')
  {
    SharedLists(s, s');
    SharedQueue(s, s');
    SharedStages(s, s');
    CellsSame(s, s');
  }

  lemma BorrowPool(s: W)
    requires PoolInv(s) && LruInv(s) && s.free != []
    ensures PoolInv(StepOther(s, Borrow)) && Shared(s, StepOther(s, Borrow))
  {
    var s' := StepOther(s, Borrow);
    assert s.free[0] in s.free;
    TailIs(s.free);
    assert forall u, i :: CarriesT(s', u, i) <==> CarriesT(s, u, i);
  }

  lemma ReturnPool(s: W, id: nat)
    requires PoolInv(s) && CanOther(s, Return(id))
    ensures PoolInv(StepOther(s, Return(id))) && Shared(s, StepOther(s, Return(id)))
  {
    var s' := StepOther(s, Return(id));
    assert id !in s.free;
    assert forall i :: i in s'.free <==> i in s.free || i == id;
    assert forall u, i :: CarriesT(s', u, i) <==> CarriesT(s, u, i);
  }

  lemma AbroadJobs(s: W, t: nat, pc: Pc)
    requires JobInv(s) && t in s.threads && (s.threads[t].Idle? || s.threads[t].Abroad?) && t in s.cfg.workers
    requires pc.Idle? || pc.Abroad?
    ensures JobInv(s.Go(t, pc))
  {}

  lemma OtherKeeps(s: W, e: Foreign)
    requires Inv(s) && CanOther(s, e)
    ensures Inv(StepOther(s, e))
  {
    if e.Renew? {
      RenewLru(s, e.id);
      RelistKeeps(s, StepOther(s, e));
    } else if e.Unlist? {
      LruRemove(s, StepOther(s, e), e.id);
      RemoveIs(s.lru, e.id);
      RelistKeeps(s, StepOther(s, e));
    } else {
      ShareKeeps(s, e);
    }
  }

  lemma ShareKeeps(s: W, e: Foreign)
    requires Inv(s) && CanOther(s, e) && !e.Renew? && !e.Unlist?
    ensures Inv(StepOther(s, e))
  {
    if e.Borrow? {
      BorrowPool(s);
    } else if e.Return? {
      ReturnPool(s, e.id);
    } else if e.Crowd? {
      CrowdParts(s);
    } else if e.Take? {
      TakeParts(s, e.t);
    } else {
      BackParts(s, e.t);
    }
    SharedKeeps(s, StepOther(s, e));
  }

  /** Only the places and stamps of other files' buffers on the LRU list change. */
  ghost predicate Relisted(s: W, s': W) {
    && s' == s.(pool := s'.pool, lru := s'.lru) && s'.pool.Keys == s.pool.Keys
    && (forall id :: s'.Buf(id).cell == s.Buf(id).cell && s'.Buf(id).blk == s.Buf(id).blk)
    && (forall id :: id in s.place && !s.place[id].Lent? ==> s'.Buf(id) == s.Buf(id) && (id in s'.lru <==> id in s.lru))
  }

  lemma RenewLru(s: W, id: nat)
    requires PoolInv(s) && LruInv(s) && CanOther(s, Renew(id))
    ensures LruInv(StepOther(s, Renew(id))) && Relisted(s, StepOther(s, Renew(id)))
  {
    RemoveIs(s.lru, id);
    LruRemove(s, s.(lru := Remove(s.lru, id)), id);
    LruPush(s.(lru := Remove(s.lru, id)), StepOther(s, Renew(id)), id);
  }

  lemma RelistKeeps(s: W, s': W)
    requires Inv(s) && Relisted(s, s') && LruInv(s')
    ensures Inv(s')
  {
    RelistPool(s, s');
    OwnFrame(s, s');
    RelistStages(s, s');
    CellsSame(s, s');
  }

  lemma RelistPool(s: W, s': W)
    requires PoolInv(s) && QueueInv(s) && Relisted(s, s')
    ensures PoolInv(s') && QueueInv(s')
  {
    assert forall u, i :: CarriesT(s', u, i) <==> CarriesT(s, u, i);
  }

  lemma RelistStages(s: W, s': W)
    requires PoolInv(s) && StageInv(s) && ListInv(s) && Relisted(s, s')
    ensures StageInv(s') && ListInv(s')
  {
    forall b | Listed(s, b) ensures Listed(s', b) {
      if s.attached[b] !in s.lru {
        var u :| Waiting(s, u, b);
        assert Waiting(s', u, b);
      }
    }
    forall u | s'.At(u) ensures StageOkT(s', u) {
      if s.threads[u].stage.Fresh? { assert CarriesT(s, u, s.threads[u].stage.id); }
      StageOne(s, s', u);
    }
  }

  lemma CrowdParts(s: W)
    requires PoolInv(s) && JobInv(s) && CanOther(s, Crowd)
    ensures var s' := StepOther(s, Crowd); PoolInv(s') && JobInv(s') && Shared(s, s')
  {
    PoolFrame(s, StepOther(s, Crowd));
  }

  lemma TakeParts(s: W, t: nat)
    requires PoolInv(s) && JobInv(s) && CanOther(s, Take(t))
    ensures var s' := StepOther(s, Take(t)); PoolInv(s') && JobInv(s') && Shared(s, s')
  {
    AbroadJobs(s, t, Abroad);
    PoolFrame(s, StepOther(s, Take(t)));
  }

  lemma BackParts(s: W, t: nat)
    requires PoolInv(s) && JobInv(s) && CanOther(s, Back(t))
    ensures var s' := StepOther(s, Back(t)); PoolInv(s') && JobInv(s') && Shared(s, s')
  {
    AbroadJobs(s, t, Idle);
    PoolFrame(s, StepOther(s, Back(t)));
  }

  lemma CallKeeps(s: W, a: Action)
    requires Inv(s) && Enabled(s, a) && (a.BeginWrite? || a.BeginFlush? || a.EndFlush? || a.BeginStat? || a.BeginRead?)
    ensures Inv(Apply(s, a))
  {
    match a
    case BeginWrite(t, ops) => BeginWriteKeeps(s, t, ops);
    case BeginFlush(t) => BeginFlushKeeps(s, t);
    case EndFlush(t) => EndFlushKeeps(s, t);
    case BeginStat(t) => BeginStatKeeps(s, t);
    case BeginRead(t, b) => BeginReadKeeps(s, t, b);
  }

  lemma QueryKeeps(s: W, a: Action)
    requires Inv(s) && Enabled(s, a) && (a.RunStat? || a.LockRead? || a.EndRead? || a.Tick?)
    ensures Inv(Apply(s, a))
  {
    match a
    case RunStat(t) => StatKeeps(s, t);
    case LockRead(t) => LockReadKeeps(s, t);
    case EndRead(t) => EndReadKeeps(s, t);
    case Tick(d) => TickKeeps(s, d);
  }

  /** Every action keeps the invariant. */
  lemma StepKeeps(s: W, a: Action)
    requires Inv(s) && Enabled(s, a)
    ensures Inv(Apply(s, a))
  {
    if a.Run? {
      RunKeeps(s, a.t, a.o);
    } else if a.RunStat? || a.LockRead? || a.EndRead? || a.Tick? {
      QueryKeeps(s, a);
    } else if a.BeginWrite? || a.BeginFlush? || a.EndFlush? || a.BeginStat? || a.BeginRead? {
      CallKeeps(s, a);
    } else {
      HandOverKeeps(s, a);
    }
  }

  lemma HandOverKeeps(s: W, a: Action)
    requires Inv(s) && Enabled(s, a) && (a.Spawn? || a.BeginExpire? || a.Receive? || a.Other?)
    ensures Inv(Apply(s, a))
  {
    match a
    case Spawn(t, c, b) => SpawnKeeps(s, t, c, b);
    case BeginExpire(t) => ExpireKeeps(s, t);
    case Receive(t) => ReceiveKeeps(s, t);
    case Other(e) => OtherKeeps(s, e);
  }
}
