/** Flush puts what was buffered on the server, and Fstat's size lies between two view sizes; in every run. */
module Durability {
  import opened FlatFile
  import opened Overlay
  import opened WriteMachine
  import opened WriteInv
  import opened WriteTheorems

  // ---------- Flush ----------

  /** An op after position mark of the log covers byte p. */
  ghost predicate Overwritten(log: seq<Op>, mark: nat, p: nat) {
    exists i :: mark <= i < |log| && log[i].Covers(p)
  }

  /** What a waiting Flush can rely on: g.start is what was buffered when it began. */
  ghost predicate GatherOk(s: W, g: Pc)
    requires g.Gather?
  {
    && g.mark <= |s.log| && CellsOk(g.start) && g.left <= g.start.Keys && g.out.Keys <= g.start.Keys
    && |Replay(s.init, s.log[..g.mark])| <= ViewSize(s.server, g.start)
    && (forall p: nat :: Dirty(g.start, p) ==> Kept(s, p))
    && (forall p: nat :: Dirty(s.Cells(), p) ==> Dirty(g.start, p) || Overwritten(s.log, g.mark, p))
    && (!g.ferr ==> forall p: nat :: Dirty(g.start, p) && p / BLOCK !in g.left && p / BLOCK !in g.out ==>
                      Landed(s, p) || Overwritten(s.log, g.mark, p))
    && (!g.ferr && |s.log| == g.mark ==> s.attached.Keys <= g.left + g.out.Keys)
  }

  lemma OverwrittenGrows(s: W, s': W, mark: nat, p: nat)
    requires s.log <= s'.log && mark <= |s.log| && Overwritten(s.log, mark, p)
    ensures Overwritten(s'.log, mark, p)
  {
    var i :| mark <= i < |s.log| && s.log[i].Covers(p);
    assert s'.log[i].Covers(p);
  }

  lemma OverwrittenNow(s: W, s': W, mark: nat, p: nat)
    requires mark <= |s.log| && s'.log != [] && s'.log == s.log + [s'.log[|s'.log| - 1]] &&
            s'.log[|s'.log| - 1].Covers(p)
    ensures Overwritten(s'.log, mark, p)
  {
    assert s'.log[|s.log|].Covers(p);
  }

  lemma SizeGrows(f: Content, f': Content, cells: Cells)
    requires |f| <= |f'|
    ensures ViewSize(f, cells) <= ViewSize(f', cells)
  {}

  /** Whatever the others do, a waiting Flush can go on relying on it. */
  lemma GatherStable(s: W, a: Action, g: Pc)
    requires Inv(s) && Enabled(s, a) && g.Gather? && GatherOk(s, g)
    ensures GatherOk(Apply(s, a), g)
  {
    var s' := Apply(s, a);
    StepLogs(s, a);
    StepGrows(s, a);
    GatherGrows(s, a, s', g);
  }

  lemma GatherGrows(s: W, a: Action, s': W, g: Pc)
    requires g.Gather? && GatherOk(s, g) && Grows(s, s') && Inv(s) && Enabled(s, a) && s' == Apply(s, a)
    requires s'.init == s.init && (s'.log == s.log || Logs(s, a, s'))
    ensures GatherOk(s', g)
  {
    SizeGrows(s.server, s'.server, g.start);
    assert s'.log[..g.mark] == s.log[..g.mark];
    forall p: nat | Dirty(g.start, p) ensures Kept(s', p) { KeptGrows(s, s', p); }
    forall p: nat | Dirty(s'.Cells(), p) ensures Dirty(g.start, p) || Overwritten(s'.log, g.mark, p) {
      DirtyStep(s, s', g, p);
    }
    if !g.ferr {
      forall p: nat | Dirty(g.start, p) && p / BLOCK !in g.left && p / BLOCK !in g.out
        ensures Landed(s', p) || Overwritten(s'.log, g.mark, p)
      {
        LandedOn(s, a, g, p);
      }
      if s'.log == s.log { AttachedShrinks(s, s'); }
    }
  }

  lemma DirtyStep(s: W, s': W, g: Pc, p: nat)
    requires g.Gather? && GatherOk(s, g) && Grows(s, s') && s.log <= s'.log && Dirty(s'.Cells(), p)
    ensures Dirty(g.start, p) || Overwritten(s'.log, g.mark, p)
  {
    DirtyGrows(s, s', p);
    if Overwritten(s.log, g.mark, p) { OverwrittenGrows(s, s', g.mark, p); }
    if !Dirty(s.Cells(), p) { OverwrittenNow(s, s', g.mark, p); }
  }

  lemma LandedOn(s: W, a: Action, g: Pc, p: nat)
    requires Inv(s) && Enabled(s, a) && g.Gather? && g.mark <= |s.log| && s.log <= Apply(s, a).log
    requires Landed(s, p) || Overwritten(s.log, g.mark, p)
    ensures Landed(Apply(s, a), p) || Overwritten(Apply(s, a).log, g.mark, p)
  {
    if Overwritten(s.log, g.mark, p) {
      OverwrittenGrows(s, Apply(s, a), g.mark, p);
    } else {
      LandedStep(s, a, p);
      if !Landed(Apply(s, a), p) { OverwrittenNow(s, Apply(s, a), g.mark, p); }
    }
  }

  /** Without a logged op no block becomes buffered. */
  lemma AttachedShrinks(s: W, s': W)
    requires Grows(s, s') && s'.log == s.log
    ensures s'.attached.Keys <= s.attached.Keys
  {
    forall b | b in s'.attached ensures b in s.attached {
      assert b in s'.Cells();
      assert !Adds(s, s', b);
    }
  }

  ghost predicate FlushInv(s: W) {
    forall c :: c in s.threads && s.threads[c].Gather? ==> GatherOk(s, s.threads[c])
  }

  lemma BeginFlushOk(s: W, t: nat)
    requires Inv(s) && Ready(s, t)
    ensures GatherOk(s, Gather(|s.log|, s.Cells(), s.attached.Keys, map[], false))
  {
    CellsAreOk(s);
    assert s.log[..|s.log|] == s.log;
    assert s.Cells().Keys == s.attached.Keys;
  }

  /** A worker that reports success has left its block clean. */
  lemma ReportOk(s: W, t: nat)
    requires Acts(s, t) && s.threads[t].stage.Release? && s.threads[t].job.FlushJob? && s.threads[t].job.parent.Flusher?
    requires JobInv(s) && GatherOk(s, s.threads[s.threads[t].job.parent.c])
    ensures var c := s.threads[t].job.parent.c; GatherOk(s, StepRelease(s, t).threads[c])
  {}

  /** A holder's step changes the program point of t, and of the Flush that t reports to. */
  ghost predicate Moves(s: W, s': W, t: nat) {
    && t in s.threads && t in s'.threads && (s'.threads[t].Busy? || s'.threads[t].Idle?)
    && s'.threads.Keys == s.threads.Keys
    && forall c :: c in s.threads && c != t ==> s'.threads[c] == s.threads[c] || Reports(s, t, c)
  }

  predicate Reports(s: W, t: nat, c: nat) {
    s.At(t) && s.threads[t].stage.Release? && s.threads[t].job.FlushJob? && s.threads[t].job.parent == Flusher(c)
  }

  lemma ReleaseMoves(s: W, t: nat)
    requires CanRun(s, t) && s.threads[t].stage.Release? && JobOk(s, t, s.threads[t].job)
    ensures Moves(s, StepRelease(s, t), t)
  {}

  lemma LookupMoves(s: W, t: nat)
    requires AtStage(s, t, Held)
    ensures Moves(s, StepLookup(s, t), t)
  {}

  lemma MergeMoves(s: W, t: nat)
    requires s.At(t) && s.threads[t].stage.Own?
    ensures Moves(s, StepMerge(s, t), t)
  {}

  lemma SendMoves(s: W, t: nat)
    requires CanRun(s, t) && s.threads[t].stage.Send?
    ensures Moves(s, StepSend(s, t), t)
  {}

  lemma RunMoves(s: W, t: nat, o: Outcome)
    requires CanRun(s, t) && JobOk(s, t, s.threads[t].job)
    ensures Moves(s, StepRun(s, t, o), t)
  {
    if WritingOut(s.threads[t].stage) { OutMoves(s, t, o); } else { BufferMoves(s, t, o); }
  }

  lemma OutMoves(s: W, t: nat, o: Outcome)
    requires CanRun(s, t) && JobOk(s, t, s.threads[t].job) && !Buffering(s.threads[t].stage)
    ensures Moves(s, StepRun(s, t, o), t)
  {
    var st := s.threads[t].stage;
    if st.Release? {
      ReleaseMoves(s, t);
    } else if st.Free? {
      FreeMoves(s, t);
    } else if st.Direct? {
      assert Moves(s, StepDirect(s, t, o), t);
    } else if st.Flush? {
      assert Moves(s, StepWriteBack(s, t, o), t);
    } else if st.Reset? {
      assert Moves(s, StepReset(s, t), t);
    }
  }

  lemma FreeMoves(s: W, t: nat)
    requires s.At(t) && s.threads[t].stage.Free?
    ensures Moves(s, StepFree(s, t), t)
  {}

  lemma BufferMoves(s: W, t: nat, o: Outcome)
    requires CanRun(s, t) && JobOk(s, t, s.threads[t].job) && !WritingOut(s.threads[t].stage)
    ensures Moves(s, StepRun(s, t, o), t)
  {
    var st := s.threads[t].stage;
    if st.Held? {
      LookupMoves(s, t);
    } else if st.Own? {
      MergeMoves(s, t);
    } else if st.Send? {
      SendMoves(s, t);
    }
  }

  lemma GatherBefore(s: W, a: Action, c: nat)
    requires Inv(s) && FlushInv(s) && Enabled(s, a) && c in Apply(s, a).threads && Apply(s, a).threads[c].Gather?
    ensures GatherOk(s, Apply(s, a).threads[c])
  {
    if a.Run? {
      assert Acts(s, a.t);
      GatherRun(s, a.t, a.o, c);
    } else if a.BeginFlush? {
      if c == a.t { BeginFlushOk(s, a.t); }
    } else if a.RunStat? {
      StatThreads(s, a.t);
    } else {
      GatherOther(s, a, c);
    }
  }

  lemma GatherRun(s: W, t: nat, o: Outcome, c: nat)
    requires JobInv(s) && Acts(s, t) && FlushInv(s) && c in StepRun(s, t, o).threads &&
            StepRun(s, t, o).threads[c].Gather?
    ensures GatherOk(s, StepRun(s, t, o).threads[c])
  {
    RunMoves(s, t, o);
    if StepRun(s, t, o).threads[c] != s.threads[c] { ReportOk(s, t); }
  }

  lemma GatherOther(s: W, a: Action, c: nat)
    requires FlushInv(s) && Enabled(s, a) && !a.Run? && !a.BeginFlush? && !a.RunStat? && c in Apply(s, a).threads
    requires Apply(s, a).threads[c].Gather?
    ensures GatherOk(s, Apply(s, a).threads[c])
  {
    if a.Spawn? {
      SpawnGather(s, a.t, a.c, a.b, c);
    } else if a.Other? {
      ForeignThreads(s, a.e);
    } else {
      assert c in s.threads && Apply(s, a).threads[c] == s.threads[c];
    }
  }

  lemma SpawnGather(s: W, t: nat, d: nat, b: nat, c: nat)
    requires FlushInv(s) && Enabled(s, Spawn(t, d, b)) && c in StepSpawn(s, t, d, b).threads &&
            StepSpawn(s, t, d, b).threads[c].Gather?
    ensures GatherOk(s, StepSpawn(s, t, d, b).threads[c])
  {
    assert c in s.threads && s.threads[c].Gather? && GatherOk(s, s.threads[c]);
  }

  /** Other files move nobody but idle background writers. */
  lemma ForeignThreads(s: W, e: Foreign)
    requires CanOther(s, e)
    ensures var s' := StepOther(s, e);
            && s'.threads.Keys == s.threads.Keys
            && forall u :: u in s.threads && !s.threads[u].Idle? && !s.threads[u].Abroad? ==>
                    s'.threads[u] == s.threads[u]
    ensures forall u :: u in s.threads && StepOther(s, e).threads[u] != s.threads[u] ==>
              StepOther(s, e).threads[u].Idle? || StepOther(s, e).threads[u].Abroad?
  {}

  lemma StatThreads(s: W, t: nat)
    requires CanStat(s, t)
    ensures MovesStat(s, StepStat(s, t), t)
  {
    match s.threads[t].at
    case Probe => assert MovesStat(s, StepStatProbe(s, t), t);
    case Top => assert MovesStat(s, StepStatTop(s, t), t);
    case Want(_) => assert MovesStat(s, StepStatLock(s, t), t);
    case Have(_) => assert MovesStat(s, StepStatRead(s, t), t);
    case Leave(_, _) => assert MovesStat(s, StepStatUnlock(s, t), t);
    case Ask(_) => assert MovesStat(s, StepStatServer(s, t), t);
    case Told(_) =>
  }

  predicate MovesStat(s: W, s': W, t: nat) {
    t in s'.threads && s'.threads == s.threads[t := s'.threads[t]] && (s'.threads[t].Stat? || s'.threads[t].Idle?)
  }

  lemma FlushStep(s: W, a: Action)
    requires Inv(s) && FlushInv(s) && Enabled(s, a)
    ensures FlushInv(Apply(s, a))
  {
    var s' := Apply(s, a);
    forall c | c in s'.threads && s'.threads[c].Gather? ensures GatherOk(s', s'.threads[c]) {
      GatherBefore(s, a, c);
      GatherStable(s, a, s'.threads[c]);
    }
  }

  // ---------- Fstat ----------

  /** What a size query of block u would report now: its buffered end, or the server size if that is larger. */
  ghost function Reach(s: W, u: nat): nat {
    if u in s.Cells() then Max(|s.server|, Tail(u, s.Cells()[u])) else |s.server|
  }

  ghost predicate StatOk(s: W, pc: Pc)
    requires pc.Stat?
  {
    match pc.at
    case Probe => pc.size0 <= ViewSize(s.server, s.Cells())
    case Top => pc.size0 <= ViewSize(s.server, s.Cells())
    case Want(u) => pc.size0 <= Reach(s, u)
    case Have(u) => pc.size0 <= Reach(s, u)
    case Leave(_, c) => pc.size0 <= Max(|s.server|, c) && c <= ViewSize(s.server, s.Cells())
    case Ask(c) => pc.size0 <= Max(|s.server|, c) && c <= ViewSize(s.server, s.Cells())
    case Told(n) => pc.size0 <= n <= ViewSize(s.server, s.Cells())
  }

  lemma ReachGrows(s: W, s': W, u: nat)
    requires Grows(s, s') && CellsOk(s.Cells())
    ensures Reach(s, u) <= Reach(s', u)
  {
    if u in s.Cells() && |s.server| < Tail(u, s.Cells()[u]) {
      var p := Tail(u, s.Cells()[u]) - 1;
      assert Dirty(s.Cells(), p);
      KeptGrows(s, s', p);
    }
  }

  lemma ViewSizeGrows(s: W, a: Action)
    requires Inv(s) && Enabled(s, a)
    ensures ViewSize(s.server, s.Cells()) <= ViewSize(Apply(s, a).server, Apply(s, a).Cells())
  {
    StepView(s, a);
    assert |ViewOf(s)| <= |ViewOf(Apply(s, a))|;
  }

  lemma StatStable(s: W, a: Action, pc: Pc)
    requires Inv(s) && Enabled(s, a) && pc.Stat? && StatOk(s, pc)
    ensures StatOk(Apply(s, a), pc)
  {
    ViewSizeGrows(s, a);
    StepGrows(s, a);
    CellsAreOk(s);
    if pc.at.Want? || pc.at.Have? { ReachGrows(s, Apply(s, a), pc.at.u); }
  }

  ghost predicate StatInv(s: W) {
    forall t :: t in s.threads && s.threads[t].Stat? ==> StatOk(s, s.threads[t])
  }

  lemma StatMoves(s: W, t: nat)
    requires PoolInv(s) && CanStat(s, t) && StatOk(s, s.threads[t])
    ensures var pc := StepStat(s, t).threads[t]; pc.Stat? ==> StatOk(s, pc)
  {
    CellsAreOk(s);
    assert s.Cells().Keys == s.attached.Keys;
    match s.threads[t].at
    case Have(u) => if u in s.attached { TailBound(s.server, s.Cells(), u); }
    case _ =>
  }

  lemma StatBefore(s: W, a: Action, t: nat)
    requires Inv(s) && StatInv(s) && Enabled(s, a) && t in Apply(s, a).threads && Apply(s, a).threads[t].Stat?
    ensures StatOk(s, Apply(s, a).threads[t])
  {
    if a.Run? {
      StatRun(s, a.t, a.o, t);
    } else if a.RunStat? {
      StatThreads(s, a.t);
      if a.t == t { StatMoves(s, t); }
    } else {
      StatOther(s, a, t);
    }
  }

  lemma StatRun(s: W, u: nat, o: Outcome, t: nat)
    requires JobInv(s) && StatInv(s) && CanRun(s, u) && t in StepRun(s, u, o).threads &&
            StepRun(s, u, o).threads[t].Stat?
    ensures StatOk(s, StepRun(s, u, o).threads[t])
  {
    RunMoves(s, u, o);
  }

  /** No other action moves a size query, but for the one that starts it. */
  lemma StatOther(s: W, a: Action, t: nat)
    requires StatInv(s) && Enabled(s, a) && !a.Run? && !a.RunStat? && t in Apply(s, a).threads
    requires Apply(s, a).threads[t].Stat?
    ensures StatOk(s, Apply(s, a).threads[t])
  {
    if a.Other? {
      ForeignThreads(s, a.e);
    } else if !(a.BeginStat? && a.t == t) {
      assert t in s.threads && s.threads[t] == Apply(s, a).threads[t];
    }
  }

  lemma StatStep(s: W, a: Action)
    requires Inv(s) && StatInv(s) && Enabled(s, a)
    ensures StatInv(Apply(s, a))
  {
    var s' := Apply(s, a);
    forall t | t in s'.threads && s'.threads[t].Stat? ensures StatOk(s', s'.threads[t]) {
      StatBefore(s, a, t);
      StatStable(s, a, s'.threads[t]);
    }
  }
}
