/**
 * Another property that one would expect and that the code does not have, with the run that breaks it: that a read
 * returns as many bytes as the view has.
 */
module Holes {
  import opened FlatFile
  import opened Overlay
  import opened Locks
  import opened WriteMachine
  import opened WriteRuns
  import opened ReadMerge

  /** t, started in s0, is at stage st of its Write of op into the first free buffer. */
  ghost predicate Filling(s0: W, s: W, t: nat, op: Op, st: Stage)
    requires s0.free != []
  {
    && s.cfg == s0.cfg && s.server == s0.server && t !in s.cfg.workers
    && s.Is(t, Busy(WriteJob([op], 0, st.Touch? || st.Release?), st, false))
    && s.lk.table == (if st.Wait? then s0.lk.table else s0.lk.table[op.blk := WriteLock])
    && s.free == (if st.Wait? || st.Held? then s0.free else s0.free[1..])
    && s.attached == (if st.Touch? || st.Release? then s0.attached[op.blk := s0.free[0]] else s0.attached)
    && (forall id :: id != s0.free[0] ==> s.Buf(id).cell == s0.Buf(id).cell)
    && (!st.Wait? && !st.Held? ==> s.Buf(s0.free[0]).cell == Cell(op.off, op.data))
  }

  /** t has written op into the first free buffer; the rest of the cache is as it was. */
  ghost predicate Filled(s0: W, s: W, t: nat, op: Op)
    requires s0.free != []
  {
    && s.server == s0.server && Ready(s, t) && s.lk.table == s0.lk.table && s.free == s0.free[1..]
    && s.attached == s0.attached[op.blk := s0.free[0]] && s.Buf(s0.free[0]).cell == Cell(op.off, op.data)
    && (forall id :: id != s0.free[0] ==> s.Buf(id).cell == s0.Buf(id).cell)
  }

  /** t may write op, and its block is neither locked nor buffered. */
  predicate CanFill(s: W, t: nat, op: Op) {
    Ready(s, t) && op.Ok() && !op.IsFull() && s.free != [] && op.blk !in s.attached && op.blk !in s.lk.table
  }

  lemma FillBegins(s0: W, t: nat, op: Op)
    requires CanFill(s0, t, op)
    ensures Enabled(s0, BeginWrite(t, [op])) && Filling(s0, Apply(s0, BeginWrite(t, [op])), t, op, Wait)
  {}

  lemma FillLocks(s0: W, s: W, t: nat, op: Op)
    requires CanFill(s0, t, op) && Filling(s0, s, t, op, Wait)
    ensures CanRun(s, t) && Filling(s0, StepRun(s, t, Done), t, op, Held)
  {}

  lemma FillAllocs(s0: W, s: W, t: nat, op: Op)
    requires CanFill(s0, t, op) && Filling(s0, s, t, op, Held)
    ensures CanRun(s, t) && Filling(s0, StepRun(s, t, Done), t, op, Fresh(s0.free[0]))
  {}

  lemma FillAttaches(s0: W, s: W, t: nat, op: Op)
    requires CanFill(s0, t, op) && Filling(s0, s, t, op, Fresh(s0.free[0]))
    ensures CanRun(s, t) && Filling(s0, StepRun(s, t, Done), t, op, Touch(s0.free[0]))
  {}

  lemma FillTouches(s0: W, s: W, t: nat, op: Op)
    requires CanFill(s0, t, op) && Filling(s0, s, t, op, Touch(s0.free[0]))
    ensures CanRun(s, t) && Filling(s0, StepRun(s, t, Done), t, op, Release)
  {}

  lemma FillReleases(s0: W, s: W, t: nat, op: Op)
    requires CanFill(s0, t, op) && Filling(s0, s, t, op, Release)
    ensures CanRun(s, t) && Filled(s0, StepRun(s, t, Done), t, op)
  {}

  lemma RunOne(s0: W, acts: seq<Action>, s: W, t: nat) returns (acts': seq<Action>, s': W)
    requires Runs(s0, acts, s) && CanRun(s, t)
    ensures Runs(s0, acts', s') && s' == StepRun(s, t, Done)
  {
    RunSnoc(s0, acts, s, Run(t, Done));
    acts', s' := acts + [Run(t, Done)], StepRun(s, t, Done);
  }

  lemma FillRun(s: W, acts0: seq<Action>, s0: W, t: nat, op: Op) returns (acts: seq<Action>, s': W)
    requires Runs(s, acts0, s0) && CanFill(s0, t, op)
    ensures Runs(s, acts, s') && Filled(s0, s', t, op)
  {
    FillBegins(s0, t, op);
    RunSnoc(s, acts0, s0, BeginWrite(t, [op]));
    acts, s' := acts0 + [BeginWrite(t, [op])], Apply(s0, BeginWrite(t, [op]));
    FillLocks(s0, s', t, op);
    acts, s' := RunOne(s, acts, s', t);
    FillAllocs(s0, s', t, op);
    acts, s' := RunOne(s, acts, s', t);
    FillAttaches(s0, s', t, op);
    acts, s' := RunOne(s, acts, s', t);
    FillTouches(s0, s', t, op);
    acts, s' := RunOne(s, acts, s', t);
    FillReleases(s0, s', t, op);
    acts, s' := RunOne(s, acts, s', t);
  }

  /**
   * Two Writes of one byte each, at the start of the first two blocks of an empty file: a read of two bytes at offset 0
   * gets one from the merge, though the view has two.
   */
  lemma ShortHoleReached(s0: W, t: nat) returns (acts: seq<Action>, s: W)
    requires Start(s0) && s0.server == [] && Ready(s0, t) && |s0.free| >= 2
    ensures Runs(s0, acts, s) && s.server == [] && Ready(s, t)
    ensures var op := Op(0, 0, [0, 0]);
            ShortHole(s.server, s.Cells(), op) && Exact(s.server, s.Cells(), op) == 2 &&
                    MergedSize(s.Cells(), op, 0) == 1
  {
    var s1;
    acts, s1 := FillRun(s0, [], s0, t, Op(0, 0, [1]));
    acts, s := FillRun(s0, acts, s1, t, Op(1, 0, [1]));
    TwoCells(s0, s1, s, t);
    ShortHoleHappens(s.server, s.Cells(), Op(0, 0, [0, 0]));
  }

  lemma TwoCells(s0: W, s1: W, s: W, t: nat)
    requires s0.attached == map[] && |s0.free| >= 2 && s0.free[0] != s0.free[1]
    requires Filled(s0, s1, t, Op(0, 0, [1])) && Filled(s1, s, t, Op(1, 0, [1]))
    ensures s.Cells() == map[0 := Cell(0, [1]), 1 := Cell(0, [1])]
  {
    assert s1.free[0] == s0.free[1];
  }
}
