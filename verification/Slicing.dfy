/** Cutting a byte range into block operations, in the source's fixed-width arithmetic. */
module Slicing {
  import opened FlatFile

  newtype uint32 = x: int | 0 <= x < 0x1_0000_0000
  newtype uint64 = x: int | 0 <= x < 0x1_0000_0000_0000_0000

  const BLOCK32: uint32 := 0x10_0000
  const BLOCK64: uint64 := 0x10_0000

  /** The guard of Read and Write on the length of the caller's buffer. */
  const MAX_LEN: nat := 512 * 1024 * 1024

  function Bytes(ops: seq<Op>): Content {
    if ops == [] then [] else Bytes(ops[..|ops| - 1]) + ops[|ops| - 1].data
  }

  lemma BytesSnoc(ops: seq<Op>, op: Op)
    ensures Bytes(ops + [op]) == Bytes(ops) + op.data
  {
    assert (ops + [op])[..|ops|] == ops;
  }

  /** The ops lie in consecutive blocks, each inside its block, and follow one another without gap or overlap. */
  ghost predicate Tiles(ops: seq<Op>, offset: nat) {
    && (forall i :: 0 <= i < |ops| ==> ops[i].blk == offset / BLOCK + i && ops[i].off + |ops[i].data| <= BLOCK)
    && (forall i :: 0 <= i < |ops| ==> ops[i].FileOffset() == offset + |Bytes(ops[..i])|)
  }

  lemma TilesSnoc(ops: seq<Op>, op: Op, offset: nat)
    requires Tiles(ops, offset)
    requires op.blk == offset / BLOCK + |ops| && op.off + |op.data| <= BLOCK && op.FileOffset() == offset + |Bytes(ops)|
    ensures Tiles(ops + [op], offset)
  {
    assert forall i :: 0 <= i < |ops| ==> (ops + [op])[..i] == ops[..i];
    assert (ops + [op])[..|ops|] == ops;
  }

  /**
   * The counters of the loop, for len bytes at offset, which lies in block first: next block, end block, offset
   * counter, bytes left and bytes done.
   */
  ghost predicate InStep(offset: nat, len: nat, first: nat, blk: nat, end: nat, rw: nat, left: nat, done: nat) {
    && done + left == len && first * BLOCK + rw == offset + done && offset < first * BLOCK + BLOCK &&
            first <= blk <= end
    && (blk < end ==> blk * BLOCK <= offset + done < blk * BLOCK + BLOCK)
    && (len > 0 ==> (left > 0 <==> blk < end))
    && (len > 0 ==> offset + len <= end * BLOCK < offset + len + BLOCK)
    && (len == 0 ==> end <= first + 1)
  }

  lemma FirstStep(offset: nat, len: nat)
    ensures InStep(offset, len, offset / BLOCK, offset / BLOCK, (offset + len + BLOCK - 1) / BLOCK, offset % BLOCK,
            len, 0)
  {}

  /** An op starts at o, the remainder of rw, in its block; it fills the block or takes all that is left. */
  lemma NextStep(offset: nat, len: nat, first: nat, blk: nat, end: nat, rw: nat, left: nat, done: nat, o: nat, n: nat)
    requires InStep(offset, len, first, blk, end, rw, left, done) && blk < end && o == rw % BLOCK &&
            n == Min(BLOCK - o, left)
    ensures InStep(offset, len, first, blk + 1, end, rw + n, left - n, done + n)
    ensures blk * BLOCK + o == offset + done && (len > 0 ==> n > 0) && done + n <= len && rw + n <= BLOCK + len
  {
    var p := rw - (blk - first) * BLOCK;
    assert 0 <= p < BLOCK && rw == (blk - first) * BLOCK + p;
    ModIs(blk - first, p);
  }

  lemma ModIs(b: nat, o: nat)
    requires o < BLOCK
    ensures (b * BLOCK + o) % BLOCK == o
  {}

  /** What the ops so far are: the first done bytes of the buffer, cut at block boundaries. */
  ghost predicate Cut(ops: seq<Op>, buffer: Content, offset: nat, blk: nat, done: nat) {
    && done <= |buffer| && Tiles(ops, offset) && Bytes(ops) == buffer[..done] && blk == offset / BLOCK + |ops|
    && (buffer != [] ==> (forall i :: 0 <= i < |ops| ==> ops[i].Ok()) && (done > 0 ==> ops != []))
  }

  lemma CutStep(ops: seq<Op>, buffer: Content, offset: nat, blk: nat, done: nat, off: nat, n: nat)
    requires Cut(ops, buffer, offset, blk, done) && done + n <= |buffer|
    requires blk * BLOCK + off == offset + done && off + n <= BLOCK && (buffer != [] ==> n > 0)
    ensures Cut(ops + [Op(blk, off, buffer[done..done + n])], buffer, offset, blk + 1, done + n)
  {
    var op := Op(blk, off, buffer[done..done + n]);
    BytesSnoc(ops, op);
    TilesSnoc(ops, op, offset);
    assert buffer[..done] + op.data == buffer[..done + n];
  }

  /**
   * What the loop keeps.  The count of folds says how often the definition is wrapped in itself; at two, which is what
   * the loop uses, the verifier does not unfold it, and `SlicedIs` opens it.
   */
  ghost predicate Sliced(ops: seq<Op>, buffer: Content, offset: nat, blk: nat, end: nat, rw: nat, left: nat,
          done: nat, folds: nat) {
    if folds == 0 then
      InStep(offset, |buffer|, offset / BLOCK, blk, end, rw, left, done) && Cut(ops, buffer, offset, blk, done)
    else
      Sliced(ops, buffer, offset, blk, end, rw, left, done, folds - 1)
  }

  lemma SlicedIs(ops: seq<Op>, buffer: Content, offset: nat, blk: nat, end: nat, rw: nat, left: nat, done: nat)
    ensures Sliced(ops, buffer, offset, blk, end, rw, left, done, 2) <==>
              InStep(offset, |buffer|, offset / BLOCK, blk, end, rw, left, done) && Cut(ops, buffer, offset, blk, done)
  {
    assert Sliced(ops, buffer, offset, blk, end, rw, left, done, 2) <==>
            Sliced(ops, buffer, offset, blk, end, rw, left, done, 1);
    assert Sliced(ops, buffer, offset, blk, end, rw, left, done, 1) <==>
            Sliced(ops, buffer, offset, blk, end, rw, left, done, 0);
  }

  lemma SliceStarts(buffer: Content, offset: nat, blk: nat, end: nat, rw: nat)
    requires blk == offset / BLOCK && end == (offset + |buffer| + BLOCK - 1) / BLOCK && rw == offset % BLOCK
    ensures Sliced([], buffer, offset, blk, end, rw, |buffer|, 0, 2)
  {
    FirstStep(offset, |buffer|);
    SlicedIs([], buffer, offset, blk, end, rw, |buffer|, 0);
  }

  /** One round of the loop, and why its counters do not wrap. */
  lemma SliceStep(ops: seq<Op>, buffer: Content, offset: nat, blk: nat, end: nat, rw: nat, left: nat, done: nat,
          o: nat, n: nat)
    requires Sliced(ops, buffer, offset, blk, end, rw, left, done, 2) && blk < end && o == rw % BLOCK &&
            n == Min(BLOCK - o, left)
    ensures done + n <= |buffer| && rw + n <= BLOCK + |buffer|
    ensures Sliced(ops + [Op(blk, o, buffer[done..done + n])], buffer, offset, blk + 1, end, rw + n, left - n,
            done + n, 2)
  {
    SlicedIs(ops, buffer, offset, blk, end, rw, left, done);
    NextStep(offset, |buffer|, offset / BLOCK, blk, end, rw, left, done, o, n);
    CutStep(ops, buffer, offset, blk, done, o, n);
    SlicedIs(ops + [Op(blk, o, buffer[done..done + n])], buffer, offset, blk + 1, end, rw + n, left - n, done + n);
  }

  lemma SliceEnds(ops: seq<Op>, buffer: Content, offset: nat, blk: nat, end: nat, rw: nat, left: nat, done: nat)
    requires Sliced(ops, buffer, offset, blk, end, rw, left, done, 2) && blk >= end
    ensures Tiles(ops, offset) && Bytes(ops) == buffer
    ensures buffer != [] ==> ops != [] && forall i :: 0 <= i < |ops| ==> ops[i].Ok()
  {
    SlicedIs(ops, buffer, offset, blk, end, rw, left, done);
    assert buffer[..done] == buffer;
  }

  method Slice(buffer: Content, offset: uint64) returns (ops: seq<Op>)
    requires |buffer| <= MAX_LEN && offset < 0x8000_0000_0000_0000
    ensures Tiles(ops, offset as nat) && Bytes(ops) == buffer
    ensures buffer != [] ==> ops != [] && forall i :: 0 <= i < |ops| ==> ops[i].Ok()
  {
    var size := |buffer| as uint32;
    var blockIndexStart := offset / BLOCK64;
    var blockIndexEnd := (offset + size as uint64 + BLOCK64 - 1) / BLOCK64;

    var rwOffset := (offset % BLOCK64) as uint32;
    var leftRwSize := size;
    var rwBufOffset: uint32 := 0;

    ops := [];
    SliceStarts(buffer, offset as nat, blockIndexStart as nat, blockIndexEnd as nat, rwOffset as nat);
    while blockIndexStart < blockIndexEnd
      invariant Sliced(ops, buffer, offset as nat, blockIndexStart as nat, blockIndexEnd as nat,
              rwOffset as nat, leftRwSize as nat, rwBufOffset as nat, 2)
    {
      var opOffset := rwOffset % BLOCK32;
      var rwSize := BLOCK32 - opOffset;
      if rwSize > leftRwSize {
        rwSize := leftRwSize;
      }
      SliceStep(ops, buffer, offset as nat, blockIndexStart as nat, blockIndexEnd as nat, rwOffset as nat,
          leftRwSize as nat, rwBufOffset as nat, opOffset as nat, rwSize as nat);
      ops := ops + [Op(blockIndexStart as nat, opOffset as nat,
          buffer[rwBufOffset as nat..rwBufOffset as nat + rwSize as nat])];

      rwOffset := rwOffset + rwSize;
      leftRwSize := leftRwSize - rwSize;
      rwBufOffset := rwBufOffset + rwSize;
      blockIndexStart := blockIndexStart + 1;
    }
    SliceEnds(ops, buffer, offset as nat, blockIndexStart as nat, blockIndexEnd as nat, rwOffset as nat,
        leftRwSize as nat, rwBufOffset as nat);
  }

  lemma Within(ops: seq<Op>, k: nat, offset: nat)
    requires Tiles(ops, offset) && k < |ops|
    ensures ops[k].FileOffset() == offset + |Bytes(ops[..k])|
    ensures |Bytes(ops[..k + 1])| == |Bytes(ops[..k])| + |ops[k].data|
    ensures |Bytes(ops[..k + 1])| <= |Bytes(ops)|
  {
    assert ops[..k + 1] == ops[..k] + [ops[k]];
    BytesSnoc(ops[..k], ops[k]);
    BytesGrow(ops, k + 1);
  }

  lemma {:induction false} BytesGrow(ops: seq<Op>, k: nat)
    requires k <= |ops|
    ensures |Bytes(ops[..k])| <= |Bytes(ops)|
  {
    if k == |ops| {
      assert ops[..k] == ops;
    } else {
      BytesGrow(ops[..|ops| - 1], k);
      assert ops[..|ops| - 1][..k] == ops[..k];
    }
  }

  lemma LastEnds(ops: seq<Op>, offset: nat)
    requires Tiles(ops, offset) && ops != []
    ensures ops[|ops| - 1].FileOffset() + |ops[|ops| - 1].data| == offset + |Bytes(ops)|
  {
    Within(ops, |ops| - 1, offset);
    assert ops[..|ops|] == ops;
  }

  /** Every op but the first starts its block. */
  lemma StartsBlock(ops: seq<Op>, k: nat, offset: nat)
    requires Tiles(ops, offset) && 0 < k < |ops| && (forall i :: 0 <= i < |ops| ==> ops[i].Ok())
    ensures ops[k].off == 0
  {
    assert ops[..k] == ops[..k - 1] + [ops[k - 1]];
    BytesSnoc(ops[..k - 1], ops[k - 1]);
    assert ops[k].FileOffset() == ops[k - 1].FileOffset() + |ops[k - 1].data|;
  }

  /** How many bytes the op that starts after done bytes has: the rest of its block, or all that is left. */
  function OpLen(offset: nat, len: nat, done: nat): int { Min(BLOCK - (offset + done) % BLOCK, len - done) }

  /** An op that another one follows fills its block. */
  lemma FillsBlock(ops: seq<Op>, k: nat, offset: nat)
    requires Tiles(ops, offset) && k + 1 < |ops| && (forall i :: 0 <= i < |ops| ==> ops[i].Ok())
    ensures ops[k].off + |ops[k].data| == BLOCK
  {
    Within(ops, k, offset);
    StartsBlock(ops, k + 1, offset);
    assert ops[k + 1].blk == ops[k].blk + 1;
    assert ops[k + 1].FileOffset() == offset + |Bytes(ops[..k + 1])|;
  }

  lemma OpLenIs(ops: seq<Op>, k: nat, offset: nat)
    requires Tiles(ops, offset) && k < |ops| && (forall i :: 0 <= i < |ops| ==> ops[i].Ok())
    ensures |ops[k].data| == OpLen(offset, |Bytes(ops)|, |Bytes(ops[..k])|)
  {
    Within(ops, k, offset);
    OffsetIs(ops, k, offset);
    RestOrFull(ops, k, offset);
    LenIs(offset, |Bytes(ops)|, |Bytes(ops[..k])|, ops[k].off, |ops[k].data|);
  }

  lemma RestOrFull(ops: seq<Op>, k: nat, offset: nat)
    requires Tiles(ops, offset) && k < |ops| && (forall i :: 0 <= i < |ops| ==> ops[i].Ok())
    ensures ops[k].off + |ops[k].data| == BLOCK || ops[..k + 1] == ops
  {
    if k + 1 < |ops| { FillsBlock(ops, k, offset); }
  }

  lemma LenIs(offset: nat, len: nat, done: nat, off: nat, n: nat)
    requires (offset + done) % BLOCK == off && off + n <= BLOCK && done + n <= len &&
            (off + n == BLOCK || done + n == len)
    ensures n == OpLen(offset, len, done)
  {}

  lemma OffsetIs(ops: seq<Op>, k: nat, offset: nat)
    requires k < |ops| && ops[k].Ok() && ops[k].FileOffset() == offset + |Bytes(ops[..k])|
    ensures (offset + |Bytes(ops[..k])|) % BLOCK == ops[k].off
  {
    ModIs(ops[k].blk, ops[k].off);
  }

  lemma TilesPrefix(ops: seq<Op>, offset: nat)
    requires Tiles(ops, offset) && ops != []
    ensures Tiles(ops[..|ops| - 1], offset)
  {
    var rest := ops[..|ops| - 1];
    assert forall i :: 0 <= i < |rest| ==> rest[..i] == ops[..i];
  }

  /** Doing the ops one by one is the positioned write of the whole range. */
  lemma {:induction false} TilesReplay(f: Content, ops: seq<Op>, offset: nat)
    requires Tiles(ops, offset)
    ensures Replay(f, ops) == WriteAt(f, offset, Bytes(ops))
  {
    if ops != [] {
      TilesPrefix(ops, offset);
      TilesReplay(f, ops[..|ops| - 1], offset);
      LastReplay(f, ops, offset);
    }
  }

  lemma LastReplay(f: Content, ops: seq<Op>, offset: nat)
    requires ops != [] && ops[|ops| - 1].FileOffset() == offset + |Bytes(ops[..|ops| - 1])|
    requires Replay(f, ops[..|ops| - 1]) == WriteAt(f, offset, Bytes(ops[..|ops| - 1]))
    ensures Replay(f, ops) == WriteAt(f, offset, Bytes(ops))
  {
    var d, last, g := Bytes(ops[..|ops| - 1]), ops[|ops| - 1], Replay(f, ops[..|ops| - 1]);
    calc {
      Replay(f, ops);
      last.Do(g);
      WriteAt(g, offset + |d|, last.data);
      { WriteAtAppend(f, offset, d, last.data); }
      WriteAt(f, offset, d + last.data);
      WriteAt(f, offset, Bytes(ops));
    }
  }

  lemma {:induction false} TilesTake(ops: seq<Op>, k: nat, offset: nat)
    requires Tiles(ops, offset) && k <= |ops|
    ensures Tiles(ops[..k], offset) && Bytes(ops[..k]) <= Bytes(ops)
  {
    if k == |ops| {
      assert ops[..k] == ops;
    } else {
      TilesPrefix(ops, offset);
      TilesTake(ops[..|ops| - 1], k, offset);
      assert ops[..|ops| - 1][..k] == ops[..k];
    }
  }

  /** Doing the first k ops is the positioned write of their bytes. */
  lemma TakeReplay(f: Content, ops: seq<Op>, k: nat, offset: nat)
    requires Tiles(ops, offset) && k <= |ops|
    ensures var n := |Bytes(ops[..k])|;
            n <= |Bytes(ops)| && Replay(f, ops[..k]) == WriteAt(f, offset, Bytes(ops)[..n])
  {
    TilesTake(ops, k, offset);
    TilesReplay(f, ops[..k], offset);
  }
}
