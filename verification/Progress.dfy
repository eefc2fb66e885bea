/**
 * Everything ends: a measure of the work under way that every step of an operation lowers.  With no new calls, and
 * whatever the interleaving, every run stops, and it stops only when nothing is unfinished and both channels are empty.
 */
module Progress {
  import opened WriteMachine
  import opened CacheMachine
  import opened CacheInv
  import opened NoDeadlock
  import opened CacheRuns

  // ---------- sums over goroutines ----------

  ghost function Total<T>(m: map<nat, T>, f: T -> nat): nat
    decreases |m|
  {
    if m == map[] then 0 else
      var k :| k in m;
      f(m[k]) + Total(m - {k}, f)
  }

  lemma {:induction false} TotalAt<T>(m: map<nat, T>, f: T -> nat, k: nat)
    requires k in m
    ensures Total(m, f) == f(m[k]) + Total(m - {k}, f)
    decreases |m|
  {
    var j :| j in m && Total(m, f) == f(m[j]) + Total(m - {j}, f);
    if j != k {
      TotalAt(m - {j}, f, k);
      TotalAt(m - {k}, f, j);
      assert m - {j} - {k} == m - {k} - {j};
    }
  }

  lemma {:induction false} TotalSame<T>(m: map<nat, T>, m': map<nat, T>, f: T -> nat)
    requires m'.Keys == m.Keys && forall k :: k in m ==> f(m'[k]) == f(m[k])
    ensures Total(m', f) == Total(m, f)
    decreases |m|
  {
    if m == map[] {
      assert m' == map[];
    } else {
      var k :| k in m;
      TotalAt(m, f, k);
      TotalAt(m', f, k);
      assert (m' - {k}).Keys == (m - {k}).Keys;
      TotalSame(m - {k}, m' - {k}, f);
    }
  }

  function Worth<T>(m: map<nat, T>, f: T -> nat, k: nat): nat { if k in m then f(m[k]) else 0 }

  lemma TotalWithout<T>(m: map<nat, T>, f: T -> nat, k: nat)
    ensures Total(m, f) == Worth(m, f, k) + Total(m - {k}, f)
  {
    if k in m { TotalAt(m, f, k); } else { assert m - {k} == m; }
  }

  /** One goroutine changes: so does the sum. */
  lemma TotalChange<T>(m: map<nat, T>, m': map<nat, T>, f: T -> nat, k: nat)
    requires forall j :: j != k ==> (j in m' <==> j in m) && (j in m ==> f(m'[j]) == f(m[j]))
    ensures Total(m', f) + Worth(m, f, k) == Total(m, f) + Worth(m', f, k)
  {
    TotalWithout(m, f, k);
    TotalWithout(m', f, k);
    assert (m' - {k}).Keys == (m - {k}).Keys;
    TotalSame(m - {k}, m' - {k}, f);
  }

  // ---------- the write cache ----------

  function StageRank(st: Stage): nat {
    match st
    case Wait => 10
    case Held => 9
    case Own(_) => 8
    case Fresh(_) => 8
    case Send(_) => 7
    case Flush(_) => 5
    case Detach(_) => 4
    case Reset(_) => 3
    case Free(_) => 3
    case Direct => 2
    case Touch(_) => 2
    case Release => 1
  }

  /** Ten for each op after the current one. */
  function LaterOps(job: Job): nat {
    if job.WriteJob? && job.next < |job.ops| then 10 * (|job.ops| - job.next - 1) else 0
  }

  function StatRank(at: StatStage): nat {
    match at
    case Probe => 7
    case Top => 6
    case Want(_) => 5
    case Have(_) => 4
    case Leave(_, _) => 3
    case Ask(_) => 2
    case Told(_) => 1
  }

  function Rank(pc: Pc): nat {
    match pc
    case Idle => 0
    case Busy(job, stage, _) => LaterOps(job) + StageRank(stage)
    case Gather(_, _, left, _, _) => 11 * |left| + 1
    case Stat(_, at) => StatRank(at)
    case Reading(_, held) => if held then 1 else 2
    case Abroad => 1
  }

  ghost function WMeasure(s: W): nat { Total(s.threads, Rank) + 6 * |s.queue| + 2 * s.others }

  /** From s to s', t comes nearer to its end, counting what it sends; the others stay where they are. */
  ghost predicate Lowers(s: W, s': W, t: nat) {
    && t in s.threads && t in s'.threads && s'.others == s.others
    && Rank(s'.threads[t]) + 6 * |s'.queue| < Rank(s.threads[t]) + 6 * |s.queue|
    && (forall u :: u != t ==> (u in s'.threads <==> u in s.threads))
    && (forall u :: u != t && u in s.threads ==> Rank(s'.threads[u]) == Rank(s.threads[u]))
  }

  lemma LookupRank(s: W, t: nat)
    requires AtStage(s, t, Held)
    ensures Lowers(s, StepLookup(s, t), t)
  {}

  lemma MergeRank(s: W, t: nat)
    requires s.At(t) && s.threads[t].stage.Own?
    ensures Lowers(s, StepMerge(s, t), t)
  {}

  lemma AttachRank(s: W, t: nat)
    requires s.At(t) && s.threads[t].stage.Fresh?
    ensures Lowers(s, StepAttach(s, t), t)
  {}

  lemma WriteBackRank(s: W, t: nat, o: Outcome)
    requires s.At(t) && s.threads[t].stage.Flush?
    ensures Lowers(s, StepWriteBack(s, t, o), t)
  {}

  lemma FreeRank(s: W, t: nat)
    requires s.At(t) && s.threads[t].stage.Free?
    ensures Lowers(s, StepFree(s, t), t)
  {}

  lemma NextRank(pc: Pc)
    requires pc.Busy?
    ensures Rank(Next(pc)) <= LaterOps(pc.job)
  {}

  lemma SendRank(s: W, t: nat)
    requires s.At(t) && s.threads[t].stage.Send? && |s.queue| + s.others < s.cfg.cap
    ensures Lowers(s, StepSend(s, t), t)
  {
    NextRank(s.threads[t]);
  }

  lemma ReleaseRank(s: W, t: nat)
    requires AtStage(s, t, Release)
    ensures Lowers(s, StepRelease(s, t), t)
  {
    NextRank(s.threads[t]);
  }

  lemma DirectRank(s: W, t: nat, o: Outcome)
    requires AtStage(s, t, Direct)
    ensures Lowers(s, StepDirect(s, t, o), t)
  {}

  lemma PlainRank(s: W, t: nat, o: Outcome)
    requires CanRun(s, t)
    requires var st := s.threads[t].stage; st.Wait? || st.Reset? || st.Detach? || st.Touch?
    ensures Lowers(s, StepRun(s, t, o), t)
  {}

  lemma RunRank(s: W, t: nat, o: Outcome)
    requires CanRun(s, t)
    ensures Lowers(s, StepRun(s, t, o), t)
  {
    var st := s.threads[t].stage;
    if st.Held? {
      LookupRank(s, t);
    } else if st.Own? {
      MergeRank(s, t);
    } else if st.Fresh? {
      AttachRank(s, t);
    } else if st.Flush? {
      WriteBackRank(s, t, o);
    } else if st.Free? {
      FreeRank(s, t);
    } else if st.Send? {
      SendRank(s, t);
    } else if st.Direct? {
      DirectRank(s, t, o);
    } else if st.Release? {
      ReleaseRank(s, t);
    } else {
      PlainRank(s, t, o);
    }
  }

  lemma LowersMeasure(s: W, s': W, t: nat)
    requires Lowers(s, s', t)
    ensures WMeasure(s') < WMeasure(s)
  {
    TotalChange(s.threads, s'.threads, Rank, t);
  }

  lemma RunLowers(s: W, t: nat, o: Outcome)
    requires CanRun(s, t)
    ensures WMeasure(StepRun(s, t, o)) < WMeasure(s)
  {
    RunRank(s, t, o);
    LowersMeasure(s, StepRun(s, t, o), t);
  }

  lemma SpawnLowers(s: W, t: nat, c: nat, b: nat)
    requires Ready(s, t) && c in s.threads && s.threads[c].Gather? && b in s.threads[c].left
    ensures WMeasure(StepSpawn(s, t, c, b)) < WMeasure(s)
  {
    var g := s.threads[c];
    var m := s.threads[c := g.(left := g.left - {b}, out := g.out[b := t])];
    assert |g.left - {b}| == |g.left| - 1;
    TotalChange(s.threads, m, Rank, c);
    TotalChange(m, StepSpawn(s, t, c, b).threads, Rank, t);
  }

  lemma StatLowers(s: W, t: nat)
    requires CanStat(s, t)
    ensures WMeasure(StepStat(s, t)) < WMeasure(s)
  {
    LowersMeasure(s, StepStat(s, t), t);
  }

  lemma EndReadLowers(s: W, t: nat)
    requires Enabled(s, EndRead(t))
    ensures WMeasure(StepEndRead(s, t)) < WMeasure(s)
  {
    LowersMeasure(s, StepEndRead(s, t), t);
  }

  lemma PlainLowers(s: W, x: Action)
    requires Enabled(s, x) && (x.EndFlush? || x.LockRead?)
    ensures WMeasure(Apply(s, x)) < WMeasure(s)
  {
    LowersMeasure(s, Apply(s, x), x.t);
  }

  lemma ReceiveLowers(s: W, t: nat)
    requires Enabled(s, Receive(t))
    ensures WMeasure(StepReceive(s, t)) < WMeasure(s)
  {
    TotalChange(s.threads, StepReceive(s, t).threads, Rank, t);
  }

  lemma ForeignLowers(s: W, e: Foreign)
    requires CanOther(s, e) && (e.Take? || e.Back?)
    ensures WMeasure(StepOther(s, e)) < WMeasure(s)
  {
    TotalChange(s.threads, StepOther(s, e).threads, Rank, e.t);
  }

  lemma LiftLowers(s: W, x: Action)
    requires Enabled(s, x) && Real(Lift(x))
    ensures WMeasure(Apply(s, x)) < WMeasure(s)
  {
    if x.Run? {
      RunLowers(s, x.t, x.o);
    } else if x.Spawn? {
      SpawnLowers(s, x.t, x.c, x.b);
    } else if x.Other? {
      ForeignLowers(s, x.e);
    } else if x.RunStat? {
      StatLowers(s, x.t);
    } else if x.Receive? {
      ReceiveLowers(s, x.t);
    } else {
      PlainLowers(s, x);
    }
  }

  // ---------- the read cache ----------

  function Span(lo: nat, hi: nat): nat { if lo < hi then hi - lo else 0 }

  function RRank(pc: RPc): nat {
    match pc
    case Off => 0
    case Writer(lo, hi) => 3 * Span(lo, hi) + 1
    case Clean(lo, hi, st) => 3 * Span(lo, hi) + (if st.CWant? then 1 else if st.CHave? || lo >= hi then 0 else -1)
    case Scan(lo, hi, st) => 7 * Span(lo, hi) + (if st.SWant? then 1 else if st.SHave? || lo >= hi then 0 else -1)
    case Reader(_, _, _, st) =>
      if st.RWant? then 5 else if st.RHave? then 4 else if st.RGot? ||
              st.RFailed? then 3 else if st.RHold? then 2 else 1
    case Bare(_, _, _, st) => if st.BWant? then 4 else if st.BHave? then 3 else if st.BGot? || st.BFailed? then 2 else 1
    case Fetch(_) => 3
    case Fetched(_, _) => 2
    case FetchDone(_) => 1
  }

  /** The work under way. */
  ghost function Measure(c: C): nat { WMeasure(c.w) + Total(c.rpc, RRank) + 4 * |c.pq| }

  ghost predicate RLowers(c: C, c': C, t: nat) {
    t in c.rpc && t in c'.rpc && RRank(c'.R(t)) + 4 * |c'.pq| < RRank(c.R(t)) + 4 * |c.pq|
  }

  lemma ScanRank(c: C, t: nat)
    requires CanStep(c, t) && LinkOk(c, t) && c.R(t).Scan?
    ensures RLowers(c, ScanStep(c, t), t)
  {}

  lemma CleanRank(c: C, t: nat)
    requires CanStep(c, t) && LinkOk(c, t) && c.R(t).Clean?
    ensures RLowers(c, CleanStep(c, t), t)
  {}

  lemma StepRank(c: C, t: nat, ok: bool)
    requires CanStep(c, t) && LinkOk(c, t)
    ensures RLowers(c, CApply(c, Step(t, ok)), t)
  {
    if c.R(t).Scan? { ScanRank(c, t); } else if c.R(t).Clean? { CleanRank(c, t); }
  }

  lemma StepW(c: C, t: nat, ok: bool)
    requires CanStep(c, t)
    ensures WMeasure(CApply(c, Step(t, ok)).w) <= WMeasure(c.w)
  {
    if c.R(t).Reader? && (c.R(t).rst.RMerged? || c.R(t).rst.RQuit?) { EndReadLowers(c.w, t); }
  }

  lemma StepLowers(c: C, t: nat, ok: bool)
    requires CanStep(c, t) && LinkOk(c, t)
    ensures Measure(CApply(c, Step(t, ok))) < Measure(c)
  {
    StepRank(c, t, ok);
    StepW(c, t, ok);
    StepPoint(c, t, ok);
    StepKeys(c, t, ok);
    AllLowers(c, CApply(c, Step(t, ok)), t);
  }

  lemma StepKeys(c: C, t: nat, ok: bool)
    requires CanStep(c, t)
    ensures CApply(c, Step(t, ok)).rpc.Keys == c.rpc.Keys
  {
    if c.R(t).Reader? {
      ReaderKeys(c, t, ok);
    } else if c.R(t).Bare? {
      assert BareStep(c, t, ok).rpc.Keys == c.rpc.Keys;
    } else if c.R(t).Scan? {
      assert ScanStep(c, t).rpc.Keys == c.rpc.Keys;
    } else if c.R(t).Clean? {
      assert CleanStep(c, t).rpc.Keys == c.rpc.Keys;
    } else {
      assert FetchStep(c, t, ok).rpc.Keys == c.rpc.Keys;
    }
  }

  lemma ReaderKeys(c: C, t: nat, ok: bool)
    requires CanStep(c, t) && c.R(t).Reader?
    ensures ReaderStep(c, t, ok).rpc.Keys == c.rpc.Keys
  {}

  lemma AllLowers(c: C, c': C, t: nat)
    requires RLowers(c, c', t) && WMeasure(c'.w) <= WMeasure(c.w) && c'.rpc.Keys == c.rpc.Keys
    requires forall u :: u != t ==> c'.R(u) == c.R(u)
    ensures Measure(c') < Measure(c)
  {
    forall u | u != t && u in c.rpc ensures c'.rpc[u] == c.rpc[u] { assert c'.R(u) == c.R(u); }
    TotalChange(c.rpc, c'.rpc, RRank, t);
  }

  lemma RecvLowers(c: C, t: nat)
    requires CEnabled(c, Recv(t))
    ensures Measure(CApply(c, Recv(t))) < Measure(c)
  {
    TotalChange(c.rpc, CApply(c, Recv(t)).rpc, RRank, t);
  }

  lemma LiftSame(c: C, x: Action)
    requires Enabled(c.w, x)
    ensures Total(LiftStep(c, x).rpc, RRank) == Total(c.rpc, RRank)
  {
    if x.Run? { TotalChange(c.rpc, LiftStep(c, x).rpc, RRank, x.t); }
  }

  /** Every step of something under way leaves less to do. */
  lemma RealLowers(c: C, a: Act)
    requires CInv(c) && CEnabled(c, a) && Real(a)
    ensures Measure(CApply(c, a)) < Measure(c)
  {
    if a.Lift? {
      LiftLowers(c.w, a.a);
      LiftSame(c, a.a);
    } else if a.Step? {
      assert LinkOk(c, a.t);
      StepLowers(c, a.t, a.ok);
    } else {
      RecvLowers(c, a.t);
    }
  }

  // ---------- over runs ----------

  /**
   * A step that begins nothing: one of an operation under way, the clock, or another file's use of the pool or the
   * list.
   */
  predicate Calm(a: Act) { Real(a) || (a.Lift? && (a.a.Tick? || (a.a.Other? && !a.a.e.Crowd?))) }

  predicate AllCalm(acts: seq<Act>)
    decreases |acts|
  {
    acts == [] || (Calm(acts[0]) && AllCalm(acts[1..]))
  }

  function RealSteps(acts: seq<Act>): nat
    decreases |acts|
  {
    if acts == [] then 0 else (if Real(acts[0]) then 1 else 0) + RealSteps(acts[1..])
  }

  lemma CalmSame(c: C, a: Act)
    requires CEnabled(c, a) && Calm(a) && !Real(a)
    ensures Measure(CApply(c, a)) == Measure(c)
  {}

  lemma CalmStep(c: C, a: Act)
    requires CInv(c) && CEnabled(c, a) && Calm(a)
    ensures CInv(CApply(c, a)) && (if Real(a) then 1 else 0) + Measure(CApply(c, a)) <= Measure(c)
  {
    CStepKeeps(c, a);
    if Real(a) { RealLowers(c, a); } else { CalmSame(c, a); }
  }

  /** Without new calls a run has at most as many steps of operations as its first state's measure says. */
  lemma {:induction false} RunsEnd(c: C, acts: seq<Act>, c': C)
    requires CInv(c) && CRuns(c, acts, c') && AllCalm(acts)
    ensures RealSteps(acts) + Measure(c') <= Measure(c)
    decreases |acts|
  {
    if acts != [] {
      CalmStep(c, acts[0]);
      RunsEnd(CApply(c, acts[0]), acts[1..], c');
    }
  }

  /** Nothing is unfinished, and nothing is left in a channel. */
  ghost predicate AllDone(c: C) { (forall t :: !Unfinished(c, t)) && c.w.queue == [] && c.pq == [] && c.w.others == 0 }

  /** Where no operation can go on, all have ended and both channels are drained. */
  lemma StopsDone(c: C)
    requires CInv(c) && !CanMove(c)
    ensures AllDone(c)
  {
    forall t ensures !Unfinished(c, t) {
      if Unfinished(c, t) { SomeoneMoves(c, t); }
    }
    if c.w.queue != [] || c.w.others > 0 { SyncMoves(c); }
    if c.pq != [] { PrefetchMoves(c); }
  }

  /**
   * From every reachable state, every run without new calls takes a bounded number of operation steps, and can stop
   * only when every read, write, flush, size query, prefetch and cleaning has ended and both channels are empty.
   */
  lemma EverythingEnds(c0: C, acts0: seq<Act>, c: C, acts: seq<Act>, c': C)
    requires CStart(c0) && CRuns(c0, acts0, c)
    requires CRuns(c, acts, c') && AllCalm(acts)
    ensures RealSteps(acts) <= Measure(c) && (CanMove(c') || AllDone(c'))
  {
    ReachInv(c0, acts0, c);
    CRunInv(c, acts, c');
    RunsEnd(c, acts, c');
    if !CanMove(c') { StopsDone(c'); }
  }

  lemma RunCons(c: C, a: Act, acts: seq<Act>, c': C)
    requires CEnabled(c, a) && CRuns(CApply(c, a), acts, c')
    ensures CRuns(c, [a] + acts, c') && RealSteps([a] + acts) == (if Real(a) then 1 else 0) + RealSteps(acts)
  {
    CRunCons(c, a, acts, c');
    assert ([a] + acts)[1..] == acts;
  }

  lemma {:induction false} DrainFrom(c: C) returns (acts: seq<Act>, c': C)
    requires CInv(c)
    ensures CRuns(c, acts, c') && RealSteps(acts) == |acts| && AllDone(c')
    decreases Measure(c)
  {
    if CanMove(c) {
      var a :| CEnabled(c, a) && Real(a);
      CalmStep(c, a);
      acts, c' := DrainFrom(CApply(c, a));
      RunCons(c, a, acts, c');
      acts := [a] + acts;
    } else {
      StopsDone(c);
      acts, c' := [], c;
    }
  }

  /**
   * And such an end exists: from every reachable state some run of operation steps drains both channels and ends
   * all.
   */
  lemma QueuesDrain(c0: C, acts0: seq<Act>, c: C) returns (acts: seq<Act>, c': C)
    requires CStart(c0) && CRuns(c0, acts0, c)
    ensures CRuns(c, acts, c') && RealSteps(acts) == |acts| && AllDone(c')
  {
    ReachInv(c0, acts0, c);
    acts, c' := DrainFrom(c);
  }
}
