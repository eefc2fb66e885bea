/** What holds in every run of the write cache. */
module WriteTheorems {
  import opened FlatFile
  import opened Overlay
  import opened WriteMachine
  import opened WriteInv

  // ---------- one step, seen from the file ----------

  ghost function ViewOf(s: W): Content { View(s.server, s.Cells()) }

  /** The op that action a makes part of the view, if any. */
  predicate Logs(s: W, a: Action, s': W) {
    && a.Run? && s.At(a.t) && s.threads[a.t].job.WriteJob?
    && s'.log == s.log + [s.threads[a.t].job.Cur()]
  }

  /** Only writers reach the stages that log. */
  lemma WriterStage(s: W, t: nat)
    requires Acts(s, t)
    ensures var pc := s.threads[t]; pc.stage.Fresh? || pc.stage.Own? || pc.stage.Reset? || pc.stage.Direct? ==>
            pc.job.WriteJob?
  {}

  /** t logs nothing, or its current op. */
  predicate LogsAtMost(s: W, s': W, t: nat) {
    s'.init == s.init && (s'.log == s.log || (s.At(t) && s.threads[t].job.WriteJob? &&
            s'.log == s.log + [s.threads[t].job.Cur()]))
  }

  lemma RunLogs(s: W, t: nat, o: Outcome)
    requires CanRun(s, t)
    requires var pc := s.threads[t]; pc.stage.Fresh? || pc.stage.Own? || pc.stage.Reset? || pc.stage.Direct? ==>
            pc.job.WriteJob?
    ensures LogsAtMost(s, StepRun(s, t, o), t)
  {
    if WritingOut(s.threads[t].stage) { OutLogs(s, t, o); } else { BufferLogs(s, t, o); }
  }

  lemma OutLogs(s: W, t: nat, o: Outcome)
    requires CanRun(s, t) && !Buffering(s.threads[t].stage)
    requires s.threads[t].stage.Reset? || s.threads[t].stage.Direct? ==> s.threads[t].job.WriteJob?
    ensures LogsAtMost(s, StepRun(s, t, o), t)
  {
    var st := s.threads[t].stage;
    if st.Direct? {
      assert LogsAtMost(s, StepDirect(s, t, o), t);
    } else if st.Release? {
      assert LogsAtMost(s, StepRelease(s, t), t);
    } else if st.Free? {
      assert LogsAtMost(s, StepFree(s, t), t);
    }
  }

  lemma BufferLogs(s: W, t: nat, o: Outcome)
    requires CanRun(s, t) && !WritingOut(s.threads[t].stage)
    requires s.threads[t].stage.Fresh? || s.threads[t].stage.Own? ==> s.threads[t].job.WriteJob?
    ensures LogsAtMost(s, StepRun(s, t, o), t)
  {
    var st := s.threads[t].stage;
    if st.Held? {
      assert LogsAtMost(s, StepLookup(s, t), t);
    } else if st.Own? {
      assert LogsAtMost(s, StepMerge(s, t), t);
    }
  }

  lemma StepLogs(s: W, a: Action)
    requires Inv(s) && Enabled(s, a)
    ensures var s' := Apply(s, a); s'.init == s.init && (s'.log == s.log || Logs(s, a, s'))
  {
    if a.Run? {
      assert Acts(s, a.t);
      WriterStage(s, a.t);
      RunLogs(s, a.t, a.o);
    } else {
      OtherSame(s, a);
    }
  }

  /** Every action either leaves the view alone or writes the acting writer's current op into it. */
  lemma StepView(s: W, a: Action)
    requires Inv(s) && Enabled(s, a)
    ensures var s' := Apply(s, a);
            || (s'.log == s.log && ViewOf(s') == ViewOf(s))
            || (Logs(s, a, s') && ViewOf(s') == s.threads[a.t].job.Cur().Do(ViewOf(s)))
  {
    StepKeeps(s, a);
    StepLogs(s, a);
    if Apply(s, a).log != s.log {
      ReplaySnoc(s.init, s.log, s.threads[a.t].job.Cur());
    }
  }

  // ---------- bytes that have been written stay written ----------

  /** Byte p has been written: it is buffered or the server file reaches it. */
  ghost predicate Kept(s: W, p: nat) { Dirty(s.Cells(), p) || p < |s.server| }

  /** Byte p of the view is on the server. */
  ghost predicate Landed(s: W, p: nat) { p < |s.server| && s.server[p] == ViewAt(s.server, s.Cells(), p) }

  /** What one step may do to the server and to the cells. */
  ghost predicate Grows(s: W, s': W) {
    && |s.server| <= |s'.server|
    && (forall b :: b in s'.Cells() ==> (b in s.Cells() && s'.Cells()[b] == s.Cells()[b]) || Adds(s, s', b))
    && (forall b :: b in s.Cells() ==>
          || OnServer(s.server, b, s.Cells()[b])
          || (b in s'.Cells() && s'.Cells()[b].off == s.Cells()[b].off && s.Cells()[b].data <= s'.Cells()[b].data))
  }

  /** The cell of b in s' is the op that the step logs, alone or merged into the old cell. */
  ghost predicate Adds(s: W, s': W, b: nat)
    requires b in s'.Cells()
  {
    s'.log != [] && var op := s'.log[|s'.log| - 1];
    && s'.log == s.log + [op] && op.blk == b && op.Ok()
    && (s'.Cells()[b] == Cell(op.off, op.data) ||
        (b in s.Cells() && s.Cells()[b].CanMerge(op.off) && s'.Cells()[b] == s.Cells()[b].Merge(op.data)))
  }

  /** A byte becomes dirty only by an op that covers it. */
  lemma DirtyGrows(s: W, s': W, p: nat)
    requires Grows(s, s') && Dirty(s'.Cells(), p)
    ensures Dirty(s.Cells(), p) || (s'.log != [] && s'.log == s.log + [s'.log[|s'.log| - 1]] &&
            s'.log[|s'.log| - 1].Covers(p))
  {
    if Adds(s, s', p / BLOCK) { BlockOf(s'.log[|s'.log| - 1], p); }
  }

  lemma KeptGrows(s: W, s': W, p: nat)
    requires Grows(s, s') && Kept(s, p)
    ensures Kept(s', p)
  {}

  lemma AttachGrows(s: W, t: nat)
    requires Acts(s, t) && s.threads[t].stage.Fresh?
    ensures Grows(s, StepAttach(s, t))
  {}

  lemma MergeGrows(s: W, t: nat)
    requires PoolInv(s) && Acts(s, t) && s.threads[t].stage.Own?
    ensures Grows(s, StepMerge(s, t))
  {
    var pc := s.threads[t];
    if s.Buf(pc.stage.id).cell.CanMerge(pc.job.Cur().off) { MergeCells(s, t); } else { CellsSame(s, StepMerge(s, t)); }
  }

  lemma ResetGrows(s: W, t: nat)
    requires PoolInv(s) && Acts(s, t) && s.threads[t].stage.Reset?
    ensures Grows(s, StepReset(s, t))
  {
    var pc := s.threads[t];
    assert StepReset(s, t).Cells() == s.Cells()[pc.job.Blk() := Cell(pc.job.Cur().off, pc.job.Cur().data)];
  }

  lemma DetachGrows(s: W, t: nat)
    requires Acts(s, t) && s.threads[t].stage.Detach?
    ensures Grows(s, StepDetach(s, t))
  {}

  lemma WriteBackGrows(s: W, t: nat, o: Outcome)
    requires Acts(s, t) && s.threads[t].stage.Flush?
    ensures Grows(s, StepWriteBack(s, t, o))
  {
    CellsSame(s, StepWriteBack(s, t, o));
  }

  lemma DirectGrows(s: W, t: nat, o: Outcome)
    requires Acts(s, t) && s.threads[t].stage.Direct?
    ensures Grows(s, StepDirect(s, t, o))
  {
    CellsSame(s, StepDirect(s, t, o));
  }

  lemma LookupGrows(s: W, t: nat)
    requires PoolInv(s) && Acts(s, t) && s.threads[t].stage.Held?
    ensures Grows(s, StepLookup(s, t))
  {
    if StepLookup(s, t).threads[t].stage.Fresh? { AllocCells(s, t); } else { CellsSame(s, StepLookup(s, t)); }
  }

  lemma RunGrows(s: W, t: nat, o: Outcome)
    requires PoolInv(s) && Acts(s, t)
    ensures Grows(s, StepRun(s, t, o))
  {
    if WritingOut(s.threads[t].stage) { OutGrows(s, t, o); } else { BufferGrows(s, t, o); }
  }

  lemma OutGrows(s: W, t: nat, o: Outcome)
    requires PoolInv(s) && Acts(s, t) && !Buffering(s.threads[t].stage)
    ensures Grows(s, StepRun(s, t, o))
  {
    var st := s.threads[t].stage;
    if st.Direct? {
      DirectGrows(s, t, o);
    } else if st.Release? {
      CellsSame(s, StepRelease(s, t));
    } else if st.Flush? {
      WriteBackGrows(s, t, o);
    } else if st.Reset? {
      ResetGrows(s, t);
    } else if st.Detach? {
      DetachGrows(s, t);
    } else {
      CellsSame(s, StepFree(s, t));
    }
  }

  lemma BufferGrows(s: W, t: nat, o: Outcome)
    requires PoolInv(s) && Acts(s, t) && !WritingOut(s.threads[t].stage)
    ensures Grows(s, StepRun(s, t, o))
  {
    var st := s.threads[t].stage;
    if st.Wait? {
      CellsSame(s, StepAcquire(s, t));
    } else if st.Held? {
      LookupGrows(s, t);
    } else if st.Fresh? {
      AttachGrows(s, t);
    } else if st.Own? {
      MergeGrows(s, t);
    } else if st.Send? {
      CellsSame(s, StepSend(s, t));
    } else {
      TouchCells(s, t);
    }
  }

  /** Only a holder's step touches the server or the cells. */
  lemma OtherSame(s: W, a: Action)
    requires Enabled(s, a) && !a.Run?
    ensures SameFile(s, Apply(s, a))
  {
    match a
    case RunStat(t) => StatSame(s, t);
    case Other(e) => ForeignSame(s, e);
    case Spawn(t, c, b) => assert SameFile(s, StepSpawn(s, t, c, b));
    case BeginExpire(t) => assert SameFile(s, StepExpire(s, t));
    case Receive(t) => assert SameFile(s, StepReceive(s, t));
    case LockRead(t) => assert SameFile(s, StepLockRead(s, t));
    case EndRead(t) => assert SameFile(s, StepEndRead(s, t));
    case _ =>
  }

  ghost predicate SameFile(s: W, s': W) {
    s'.server == s.server && s'.attached == s.attached && SameBytes(s, s') && s'.log == s.log && s'.init == s.init
  }

  lemma StatSame(s: W, t: nat)
    requires CanStat(s, t)
    ensures SameFile(s, StepStat(s, t))
  {}

  lemma ForeignSame(s: W, e: Foreign)
    requires CanOther(s, e)
    ensures SameFile(s, StepOther(s, e))
  {}

  lemma StepGrows(s: W, a: Action)
    requires Inv(s) && Enabled(s, a)
    ensures Grows(s, Apply(s, a))
  {
    if a.Run? {
      assert Acts(s, a.t);
      RunGrows(s, a.t, a.o);
    } else {
      OtherSame(s, a);
      CellsSame(s, Apply(s, a));
    }
  }

  /** A server write carries a cell's bytes, or the op that the same step logs. */
  lemma RunServer(s: W, t: nat, o: Outcome) returns (op: Op)
    requires PoolInv(s) && Acts(s, t)
    ensures op.Ok()
    ensures var s' := StepRun(s, t, o);
            || s'.server == s.server
            || (s'.server == op.Do(s.server) && op.blk in s.Cells() && s.Cells()[op.blk] == Cell(op.off, op.data))
            || (s'.server == op.Do(s.server) && s'.log == s.log + [op])
    ensures StepRun(s, t, o).server != s.server ==> op.blk == s.threads[t].job.Blk() && HoldsT(s, t, op.blk)
  {
    var pc := s.threads[t];
    if pc.stage.Flush? {
      var c := s.Buf(pc.stage.id).cell;
      op := Op(pc.job.Blk(), c.off, c.data);
    } else if pc.stage.Direct? {
      op := pc.job.Cur();
    } else {
      op := Op(0, 0, [0]);
    }
  }

  lemma RunLanded(s: W, t: nat, o: Outcome, p: nat)
    requires PoolInv(s) && Acts(s, t) && Landed(s, p)
    requires var s' := StepRun(s, t, o);
             || ViewAt(s'.server, s'.Cells(), p) == ViewAt(s.server, s.Cells(), p)
             || (Logs(s, Run(t, o), s') && s.threads[t].job.Cur().Covers(p))
    requires var s' := StepRun(s, t, o); s'.log == s.log || Logs(s, Run(t, o), s')
    ensures var s' := StepRun(s, t, o); Landed(s', p) || (Logs(s, Run(t, o), s') && s.threads[t].job.Cur().Covers(p))
  {
    var op := RunServer(s, t, o);
    SameLast(s.log, op, s.threads[t].job.Cur());
    LandedGoes(s, StepRun(s, t, o), op, s.threads[t].job.Cur(), Logs(s, Run(t, o), StepRun(s, t, o)), p);
  }

  lemma SameLast(log: seq<Op>, a: Op, b: Op)
    ensures log + [a] != log && (log + [a] == log + [b] ==> a == b)
  {
    assert (log + [a])[|log|] == a && (log + [b])[|log|] == b;
  }

  /** The server is written with op, which is a buffer's bytes or, if logs is set, the current op cur. */
  lemma LandedGoes(s: W, s': W, op: Op, cur: Op, logs: bool, p: nat)
    requires Landed(s, p) && op.Ok()
    requires || s'.server == s.server
             || (s'.server == op.Do(s.server) &&
                 ((op.blk in s.Cells() && s.Cells()[op.blk] == Cell(op.off, op.data)) || (logs && op == cur)))
    requires ViewAt(s'.server, s'.Cells(), p) == ViewAt(s.server, s.Cells(), p) || (logs && cur.Covers(p))
    ensures Landed(s', p) || (logs && cur.Covers(p))
  {
    LandedByte(s.server, s.Cells(), s'.server, op, p);
  }

  /** A byte that is on the server stays there until an op covers it. */
  lemma LandedStep(s: W, a: Action, p: nat)
    requires Inv(s) && Enabled(s, a) && Landed(s, p)
    ensures var s' := Apply(s, a); Landed(s', p) || (Logs(s, a, s') && s.threads[a.t].job.Cur().Covers(p))
  {
    ViewStep(s, a, p);
    StepLogs(s, a);
    if a.Run? {
      assert Acts(s, a.t);
      RunLanded(s, a.t, a.o, p);
    } else {
      OtherSame(s, a);
      CellsSame(s, Apply(s, a));
    }
  }

  lemma ViewStep(s: W, a: Action, p: nat)
    requires Inv(s) && Enabled(s, a)
    ensures var s' := Apply(s, a);
            || ViewAt(s'.server, s'.Cells(), p) == ViewAt(s.server, s.Cells(), p)
            || (Logs(s, a, s') && s.threads[a.t].job.Cur().Covers(p))
  {
    StepKeeps(s, a);
    StepView(s, a);
    ByteStep(s, Apply(s, a), a, p);
  }

  lemma LandedByte(f: Content, cells: Cells, f': Content, op: Op, p: nat)
    requires p < |f| && f[p] == ViewAt(f, cells, p) && op.Ok()
    requires f' == f || f' == op.Do(f)
    ensures p < |f'|
    ensures f' != f && op.Covers(p) ==> f'[p] == op.data[p - op.FileOffset()]
    ensures f' == f || !op.Covers(p) || (op.blk in cells && cells[op.blk] == Cell(op.off, op.data)) ==> f'[p] == f[p]
  {
    BlockOf(op, p);
  }

  lemma ByteStep(s: W, s': W, a: Action, p: nat)
    requires PoolInv(s) && PoolInv(s')
    requires ViewOf(s') == ViewOf(s) || (Logs(s, a, s') && ViewOf(s') == s.threads[a.t].job.Cur().Do(ViewOf(s)))
    ensures ViewAt(s'.server, s'.Cells(), p) == ViewAt(s.server, s.Cells(), p) ||
            (Logs(s, a, s') && s.threads[a.t].job.Cur().Covers(p))
  {
    CellsAreOk(s);
    CellsAreOk(s');
    AtView(s.server, s.Cells(), p);
    AtView(s'.server, s'.Cells(), p);
    if ViewOf(s') != ViewOf(s) {
      AtWrite(ViewOf(s), s.threads[a.t].job.Cur().FileOffset(), s.threads[a.t].job.Cur().data, p);
    }
  }
}
