/**
 * Truncate: flush, wait until the read cache has no lock, release its blocks, resize on the server.  Afterwards both
 * caches are as good as new.
 */
module Truncation {
  import opened FlatFile
  import opened Overlay
  import opened Locks
  import opened WriteMachine
  import opened WriteTheorems
  import opened WriteRuns
  import opened CacheMachine
  import opened NoDeadlock
  import opened CacheInv
  import opened CacheRuns

  /** Nothing is buffered and nothing is under way. */
  ghost predicate Drained(s: W) { s.attached == map[] && Resting(s) }

  /** The machine that goes on from here with f as the server's file. */
  function Restart(s: W, f: Content): W { s.(server := f, init := f, log := []) }

  lemma Head(q: seq<nat>)
    ensures q != [] ==> q[0] in q
  {}

  lemma NoLists(s: W)
    requires PoolInv(s) && LruInv(s) && QueueInv(s) && Drained(s)
    ensures s.queue == [] && forall id :: id in s.place ==> s.place[id].InFree? || s.place[id].Lent?
  {
    assert forall id :: id in s.place ==> !s.place[id].AtBlock?;
    assert forall t, id :: !CarriesT(s, t, id);
    assert forall id :: id !in s.queue;
    Head(s.queue);
  }

  /** A drained write cache over any content is a start state. */
  lemma Restarts(s: W, f: Content)
    requires Inv(s) && Drained(s)
    ensures Start(Restart(s, f))
  {
    NoLists(s);
    NoLocks(s);
  }

  // ---------- Release ----------

  /** Nothing is locked or under way in the read cache: what Release waits for. */
  ghost predicate Quiet(c: C) { c.rl.table == map[] && forall u :: u in c.rpc ==> c.rpc[u].Off? }

  /** t drops one block: ReleaseBuffer. */
  function DropOne(t: nat, b: nat): seq<Act> {
    [NewDrop(t, b), Step(t, true), Step(t, true), Step(t, true), Step(t, true)]
  }

  function DropAll(t: nat, order: seq<nat>): seq<Act> {
    if order == [] then [] else DropOne(t, order[0]) + DropAll(t, order[1..])
  }

  /** Before stage st of dropping b; c is the state before the drop. */
  ghost predicate Dropping(c: C, c1: C, t: nat, b: nat, st: CleanStage) {
    && c1.w == c.w && c1.pq == c.pq && c1.pcap == c.pcap && c1.pworkers == c.pworkers && c1.written == c.written
    && c1.R(t) == Clean(b, b + 1, st) && (forall u :: u in c1.rpc && u != t ==> c1.rpc[u].Off?)
    && c1.r == (if st.CGone? then c.r - {b} else c.r)
    && c1.rl.table == (if st.CWant? then map[] else map[b := WriteLock])
  }

  /** Nothing but b's place in the read cache has changed. */
  ghost predicate Dropped(c: C, c1: C, b: nat) {
    && c1.w == c.w && c1.pq == c.pq && c1.pcap == c.pcap && c1.pworkers == c.pworkers && c1.written == c.written
    && c1.r == c.r - {b} && Quiet(c1)
  }

  lemma DropBegins(c: C, t: nat, b: nat)
    requires Quiet(c) && CacheMachine.Free(c, t)
    ensures Dropping(c, CApply(c, NewDrop(t, b)), t, b, CWant)
  {}

  lemma DropLocks(c: C, c1: C, t: nat, b: nat)
    requires Dropping(c, c1, t, b, CWant)
    ensures CanStep(c1, t) && Dropping(c, CApply(c1, Step(t, true)), t, b, CHave)
  {}

  lemma DropRemoves(c: C, c1: C, t: nat, b: nat)
    requires Dropping(c, c1, t, b, CHave)
    ensures CanStep(c1, t) && Dropping(c, CApply(c1, Step(t, true)), t, b, CGone)
  {}

  lemma DropUnlocks(c: C, c1: C, t: nat, b: nat)
    requires Dropping(c, c1, t, b, CGone)
    ensures CanStep(c1, t) && CApply(c1, Step(t, true)).R(t) == Clean(b + 1, b + 1, CWant)
    ensures Dropped(c, CApply(c1, Step(t, true)).Go(t, Off), b)
  {}

  lemma DropEnds(c1: C, t: nat, b: nat)
    requires c1.R(t) == Clean(b, b, CWant)
    ensures CanStep(c1, t) && CApply(c1, Step(t, true)) == c1.Go(t, Off)
  {}

  lemma DropRun(c: C, t: nat, b: nat) returns (c1: C)
    requires Quiet(c) && CacheMachine.Free(c, t)
    ensures CRuns(c, DropOne(t, b), c1) && Dropped(c, c1, b) && CacheMachine.Free(c1, t)
  {
    var s := Step(t, true);
    DropBegins(c, t, b);
    var d1 := CApply(c, NewDrop(t, b));
    DropLocks(c, d1, t, b);
    var d2 := CApply(d1, s);
    DropRemoves(c, d2, t, b);
    var d3 := CApply(d2, s);
    DropUnlocks(c, d3, t, b);
    var d4 := CApply(d3, s);
    DropEnds(d4, t, b + 1);
    c1 := CApply(d4, s);
    FourSteps(c, NewDrop(t, b), s, d1, d2, d3, d4);
  }

  lemma FourSteps(c: C, a: Act, s: Act, d1: C, d2: C, d3: C, d4: C)
    requires CEnabled(c, a) && d1 == CApply(c, a) && CEnabled(d1, s) && d2 == CApply(d1, s)
    requires CEnabled(d2, s) && d3 == CApply(d2, s) && CEnabled(d3, s) && d4 == CApply(d3, s) && CEnabled(d4, s)
    ensures CRuns(c, [a, s, s, s, s], CApply(d4, s))
  {
    var c1 := CApply(d4, s);
    CRunCons(d4, s, [], c1);
    CRunCons(d3, s, [s], c1);
    CRunCons(d2, s, [s, s], c1);
    CRunCons(d1, s, [s, s, s], c1);
    CRunCons(c, a, [s, s, s, s], c1);
    assert [s] + [] == [s] && [s] + [s] == [s, s] && [s] + [s, s] == [s, s, s] && [s] + [s, s, s] == [s, s, s, s];
    assert [a] + [s, s, s, s] == [a, s, s, s, s];
  }

  /**
   * Release: once no block is locked, dropping the cached blocks one by one, in whatever order they are listed, is a
   * run that empties the read cache and touches nothing else.
   */
  lemma {:induction false} ReleaseRun(c: C, t: nat, order: seq<nat>) returns (c': C)
    requires Quiet(c) && CacheMachine.Free(c, t) && forall b :: b in c.r ==> b in order
    ensures CRuns(c, DropAll(t, order), c') && Quiet(c') && c'.r == map[]
    ensures c'.w == c.w && c'.pq == c.pq && c'.pcap == c.pcap && c'.pworkers == c.pworkers
    decreases |order|
  {
    if order == [] {
      c' := c;
      assert c.r == map[];
    } else {
      var c1 := DropRun(c, t, order[0]);
      forall b | b in c1.r ensures b in order[1..] { assert b in order && b != order[0]; }
      c' := ReleaseRun(c1, t, order[1..]);
      CRunJoin(c, DropOne(t, order[0]), c1, DropAll(t, order[1..]), c');
    }
  }

  // ---------- the whole of Truncate ----------

  /** t's Flush is about to end well, no write took effect meanwhile, and no other goroutine works on the file. */
  ghost predicate FlushedAlone(c: C, t: nat) {
    && Enabled(c.w, EndFlush(t)) && !c.w.threads[t].ferr && |c.w.log| == c.w.threads[t].mark
    && Quiet(c) && t !in c.pworkers && t !in c.w.cfg.workers
    && forall u :: u in c.w.threads && u != t ==> c.w.threads[u].Idle? || c.w.threads[u].Abroad?
  }

  /** Nothing is cached and nothing is under way in either cache. */
  ghost predicate CDrained(c: C) { Drained(c.w) && c.r == map[] && c.pq == [] && Quiet(c) }

  lemma RunEmpties(c0: C, acts: seq<Act>, c: C, t: nat)
    requires CStart(c0) && CRuns(c0, acts, c) && FlushedAlone(c, t)
    ensures c.w.attached == map[]
  {
    var wacts := Projects(c0, acts, c);
    FlushEmpties(c0.w, wacts, c.w, t);
  }

  lemma EndFlushAlone(c: C, t: nat)
    requires FlushedAlone(c, t) && c.w.attached == map[]
    ensures var a := Lift(EndFlush(t)); CEnabled(c, a) && var c1 := CApply(c, a);
              Drained(c1.w) && Quiet(c1) && CacheMachine.Free(c1, t) && c1.r == c.r && c1.pq == c.pq &&
                      ViewOf(c1.w) == ViewOf(c.w)
  {
    assert CApply(c, Lift(EndFlush(t))).w.Cells() == c.w.Cells();
  }

  lemma QuietQueue(c: C)
    requires RTable(c) && Quiet(c)
    ensures c.pq == []
  {
    Head(c.pq);
  }

  /** The end of Flush, then Release, as one run; afterwards nothing is left in either cache. */
  lemma FlushReleaseDrains(c0: C, acts: seq<Act>, c: C, t: nat, order: seq<nat>) returns (c': C)
    requires CStart(c0) && CRuns(c0, acts, c) && FlushedAlone(c, t) && forall b :: b in c.r ==> b in order
    ensures CRuns(c, [Lift(EndFlush(t))] + DropAll(t, order), c') && CDrained(c') && ViewOf(c'.w) == ViewOf(c.w)
  {
    RunTable(c0, acts, c);
    QuietQueue(c);
    RunEmpties(c0, acts, c, t);
    EndFlushAlone(c, t);
    c' := ReleaseRun(CApply(c, Lift(EndFlush(t))), t, order);
    CRunCons(c, Lift(EndFlush(t)), DropAll(t, order), c');
  }

  lemma DrainedStarts(c: C, f: Content)
    requires CInv(c) && CDrained(c)
    ensures CStart(c.(w := Restart(c.w, f), rpc := map[]))
  {
    Restarts(c.w, f);
    assert forall t :: c.R(t).Off?;
    NoReadLocks(c);
  }

  lemma ResizesView(s: W, n: nat)
    requires s.attached == map[]
    ensures ViewOf(s) == s.server && ViewOf(Restart(s, Resize(s.server, n))) == Resize(ViewOf(s), n)
  {
    var f := Resize(s.server, n);
    assert s.Cells() == map[] && Restart(s, f).Cells() == map[];
    EmptyView(s.server);
    EmptyView(f);
  }

  /**
   * In every run, once Flush ends well with nothing else under way: Release drains what is left, and truncating the
   * server's file then gives a start state of both caches over the resized view.  What holds of all runs holds again
   * from there.
   */
  lemma TruncateRestarts(c0: C, acts: seq<Act>, c: C, t: nat, order: seq<nat>, n: nat) returns (c': C)
    requires CStart(c0) && CRuns(c0, acts, c) && FlushedAlone(c, t) && forall b :: b in c.r ==> b in order
    ensures CRuns(c, [Lift(EndFlush(t))] + DropAll(t, order), c') && ViewOf(c'.w) == ViewOf(c.w) == c'.w.server
    ensures var w := Restart(c'.w, Resize(c'.w.server, n));
            && CStart(c'.(w := w, rpc := map[])) && |ViewOf(w)| == n
            && forall p: nat :: p < n ==> At(ViewOf(w), p) == At(ViewOf(c.w), p)
  {
    c' := FlushReleaseDrains(c0, acts, c, t, order);
    ReachInv(c0, acts, c);
    CRunInv(c, [Lift(EndFlush(t))] + DropAll(t, order), c');
    DrainedStarts(c', Resize(c'.w.server, n));
    ResizesView(c'.w, n);
    ResizeIs(ViewOf(c.w), n);
  }
}
