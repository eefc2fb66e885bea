/**
 * The per-block lock table of a file buffer (LockMap), and who holds what.
 * A lock is taken by one goroutine and may be released by another after a channel hand-off.
 */
module Locks {

  datatype CacheLock = WriteLock | ReadLock(refer: nat)

  type Table = map<nat, CacheLock>

  // One round of LockBuffer / RLockBuffer succeeds exactly when these hold; otherwise it sleeps and retries.
  predicate CanLock(m: Table, b: nat) { b !in m }

  predicate CanRLock(m: Table, b: nat) { b !in m || m[b].ReadLock? }

  // The assertions of UnLockBuffer and RUnLockBuffer.
  predicate UnlockAssert(m: Table, b: nat) { b in m && m[b].WriteLock? }

  predicate RUnlockAssert(m: Table, b: nat) { b in m && m[b].ReadLock? && m[b].refer >= 1 }

  function LockT(m: Table, b: nat): Table { m[b := WriteLock] }

  function UnlockT(m: Table, b: nat): Table { m - {b} }

  function RLockT(m: Table, b: nat): Table
    requires CanRLock(m, b)
  {
    m[b := ReadLock(if b in m then m[b].refer + 1 else 1)]
  }

  function RUnlockT(m: Table, b: nat): Table {
    if RUnlockAssert(m, b) && m[b].refer > 1 then m[b := ReadLock(m[b].refer - 1)] else m - {b}
  }

  /** The lock map as the object that FileBuffer's methods update. */
  class LockMap {
    var entries: Table

    constructor ()
      ensures entries == map[]
    {
      entries := map[];
    }

    /** One round of the LockBuffer loop. */
    method TryLock(b: nat) returns (ok: bool)
      modifies this
      ensures ok <==> CanLock(old(entries), b)
      ensures entries == if ok then LockT(old(entries), b) else old(entries)
    {
      if b in entries {
        ok := false;
      } else {
        entries := entries[b := WriteLock];
        ok := true;
      }
    }

    method UnLock(b: nat)
      requires UnlockAssert(entries, b)
      modifies this
      ensures entries == UnlockT(old(entries), b)
    {
      entries := entries - {b};
    }

    /** One round of the RLockBuffer loop. */
    method TryRLock(b: nat) returns (ok: bool)
      modifies this
      ensures ok <==> CanRLock(old(entries), b)
      ensures entries == if ok then RLockT(old(entries), b) else old(entries)
    {
      if b in entries && entries[b].WriteLock? {
        return false;
      }
      if b !in entries {
        entries := entries[b := ReadLock(1)];
      } else {
        entries := entries[b := ReadLock(entries[b].refer + 1)];
      }
      ok := true;
    }

    method RUnLock(b: nat)
      requires RUnlockAssert(entries, b)
      modifies this
      ensures entries == RUnlockT(old(entries), b)
    {
      var left := entries[b].refer - 1;
      if left == 0 {
        entries := entries - {b};
      } else {
        entries := entries[b := ReadLock(left)];
      }
    }
  }

  /** An exclusive lock belongs to a goroutine, or travels with an item in a channel. */
  datatype Owner = Thread(t: nat) | Queue

  /** The table, and, for the proofs only, the exclusive owner of each block and the block each reader holds. */
  datatype LockState = LockState(table: Table, excl: map<nat, Owner>, shared: map<nat, nat>) {

    ghost function Readers(b: nat): set<nat> { set t | t in shared && shared[t] == b }

    /** Each entry is absent, one exclusive owner, or a count equal to its live readers. */
    ghost predicate Inv() {
      && (forall b :: b in excl <==> b in table && table[b].WriteLock?)
      && (forall b :: b in table && table[b].ReadLock? ==> table[b].refer == |Readers(b)| >= 1)
      && (forall t :: t in shared ==> shared[t] in table && table[shared[t]].ReadLock?)
    }

    function Lock(b: nat, t: nat): LockState {
      LockState(LockT(table, b), excl[b := Thread(t)], shared)
    }

    function Unlock(b: nat): LockState { LockState(UnlockT(table, b), excl - {b}, shared) }

    /** A hand-off changes the owner and leaves the table alone. */
    function Pass(b: nat, o: Owner): LockState { this.(excl := excl[b := o]) }

    function RLock(b: nat, t: nat): LockState
      requires CanRLock(table, b)
    {
      LockState(RLockT(table, b), excl, shared[t := b])
    }

    function RUnlock(b: nat, t: nat): LockState {
      LockState(RUnlockT(table, b), excl, shared - {t})
    }

    lemma LockKeeps(b: nat, t: nat)
      requires Inv() && CanLock(table, b)
      ensures Lock(b, t).Inv()
    {
      var n := Lock(b, t);
      forall c | c in n.table && n.table[c].ReadLock? ensures n.table[c].refer == |n.Readers(c)| >= 1 {
        assert n.Readers(c) == Readers(c);
      }
    }

    lemma UnlockKeeps(b: nat)
      requires Inv() && b in excl
      ensures UnlockAssert(table, b) && Unlock(b).Inv()
    {
      var n := Unlock(b);
      forall c | c in n.table && n.table[c].ReadLock? ensures n.table[c].refer == |n.Readers(c)| >= 1 {
        assert n.Readers(c) == Readers(c);
      }
    }

    lemma PassKeeps(b: nat, o: Owner)
      requires Inv() && b in excl
      ensures Pass(b, o).Inv()
    {
      var n := Pass(b, o);
      forall c | c in n.table && n.table[c].ReadLock? ensures n.table[c].refer == |n.Readers(c)| >= 1 {
        assert n.Readers(c) == Readers(c);
      }
    }

    lemma RLockKeeps(b: nat, t: nat)
      requires Inv() && CanRLock(table, b) && t !in shared
      ensures RLock(b, t).Inv()
    {
      var n := RLock(b, t);
      forall c | c in n.table && n.table[c].ReadLock? ensures n.table[c].refer == |n.Readers(c)| >= 1 {
        if c == b {
          assert n.Readers(b) == Readers(b) + {t};
          if b !in table { assert Readers(b) == {}; }
        } else {
          assert n.Readers(c) == Readers(c);
        }
      }
    }

    lemma RUnlockKeeps(b: nat, t: nat)
      requires Inv() && t in shared && shared[t] == b
      ensures RUnlockAssert(table, b) && RUnlock(b, t).Inv()
    {
      var n := RUnlock(b, t);
      assert t in Readers(b);
      assert n.Readers(b) == Readers(b) - {t};
      forall c | c in n.table && n.table[c].ReadLock? ensures n.table[c].refer == |n.Readers(c)| >= 1 {
        if c != b { assert n.Readers(c) == Readers(c); }
      }
      forall u | u in n.shared ensures n.shared[u] in n.table && n.table[n.shared[u]].ReadLock? {
        assert u in n.Readers(n.shared[u]);
        assert n.Readers(n.shared[u]) != {};
      }
    }
  }
}
