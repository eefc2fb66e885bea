/** Reading through both caches: server or cached block first, then the write buffer on top, block by block. */
module ReadMerge {
  import opened FlatFile
  import opened Overlay
  import opened Slicing

  type Blocks = map<nat, Content>

  /** Cached read blocks agree with the server on every byte that no write buffer covers. */
  ghost predicate BlocksAgree(f: Content, cells: Cells, blocks: Blocks) {
    forall b, o: nat :: b in blocks && o < BLOCK ==>
      (b in cells && cells[b].Covers(o)) || At(blocks[b], o) == At(f, b * BLOCK + o)
  }

  /** Cached blocks are whole: what prefetch stores. */
  ghost predicate Padded(blocks: Blocks) { forall b :: b in blocks ==> |blocks[b]| == BLOCK }

  /** down is the set of blocks whose server read fails; a cached block is read without the server. */
  predicate Fails(blocks: Blocks, down: set<nat>, op: Op) { op.blk !in blocks && op.blk in down }

  function Clamp(x: int, n: nat): nat { if x < 0 then 0 else Min(x, n) }

  /** What remains of a file of size s for a read of n bytes at p. */
  function Rest(s: nat, p: nat, n: nat): nat { Clamp(s - p, n) }

  /**
   * The op ends in a hole that MergeOp does not see: behind the block's own buffer, past the server's end, and
   * below a higher buffered block.
   */
  ghost predicate ShortHole(f: Content, cells: Cells, op: Op) {
    && op.blk in cells && op.blk < Upper(cells.Keys)
    && cells[op.blk].End() < op.off + |op.data| && |f| < op.FileOffset() + |op.data|
  }

  function SourceByte(f: Content, blocks: Blocks, b: nat, o: nat): Byte {
    if b in blocks then At(blocks[b], o) else At(f, b * BLOCK + o)
  }

  function CellByte(cells: Cells, b: nat, o: nat, under: Byte): Byte {
    if b in cells && cells[b].Covers(o) then cells[b].data[o - cells[b].off] else under
  }

  method Copy(dst: array<Byte>, pos: nat, src: Content)
    requires pos + |src| <= dst.Length
    modifies dst
    ensures forall i :: 0 <= i < dst.Length ==> dst[i] == if pos <= i < pos + |src| then src[i - pos] else old(dst[i])
  {
    for k := 0 to |src|
      invariant forall i :: 0 <= i < dst.Length ==> dst[i] == if pos <= i < pos + k then src[i - pos] else old(dst[i])
    {
      dst[pos + k] := src[k];
    }
  }

  /** ReadOp on the op's part of dataBuf, which starts as zeros. */
  method ReadOp(f: Content, blocks: Blocks, down: set<nat>, op: Op, dataBuf: array<Byte>, pos: nat)
    returns (size: nat, err: bool)
    requires op.Ok() && pos + |op.data| <= dataBuf.Length && (op.blk in blocks ==> 0 < |blocks[op.blk]| <= BLOCK)
    requires forall i :: pos <= i < pos + |op.data| ==> dataBuf[i] == 0
    modifies dataBuf
    ensures forall i :: 0 <= i < dataBuf.Length && !(pos <= i < pos + |op.data|) ==> dataBuf[i] == old(dataBuf[i])
    ensures !err ==> forall i :: pos <= i < pos + |op.data| ==>
              dataBuf[i] == SourceByte(f, blocks, op.blk, op.off + (i - pos))
    ensures !err ==>
              size == if op.blk in blocks then Rest(|blocks[op.blk]|, op.off, |op.data|)
                      else Rest(|f|, op.FileOffset(), |op.data|)
    ensures err <==> op.blk !in blocks && op.blk in down
  {
    var n := |op.data|;
    if op.blk !in blocks {
      // DirectRead
      if op.blk in down {
        return 0, true;
      }
      var data := ReadAt(f, op.FileOffset(), n);
      Copy(dataBuf, pos, data);
      return |data|, false;
    }
    var block := blocks[op.blk];
    if op.off >= |block| {
      return 0, false;
    }
    size := |block| - op.off;
    if size > n {
      size := n;
    }
    Copy(dataBuf, pos, block[op.off..op.off + size]);
    err := false;
  }

  /** The length that remains of the view for this op. */
  ghost function Exact(f: Content, cells: Cells, op: Op): nat { Rest(ViewSize(f, cells), op.FileOffset(), |op.data|) }

  ghost predicate OpLengthOk(f: Content, cells: Cells, op: Op, size: nat) {
    && Rest(|f|, op.FileOffset(), |op.data|) <= size <= Exact(f, cells, op)
    && (size == Exact(f, cells, op) <==> !ShortHole(f, cells, op))
  }

  /** The same when some blocks are cached: an op on one of them is read in full. */
  ghost predicate ReadLengthOk(f: Content, blocks: Blocks, cells: Cells, op: Op, size: nat) {
    if op.blk in blocks then size == |op.data| else OpLengthOk(f, cells, op, size)
  }

  /** Where the highest buffer ends decides the exact length. */
  lemma ExactIs(f: Content, cells: Cells, op: Op)
    requires CellsOk(cells) && op.Ok()
    ensures op.blk < Upper(cells.Keys) ==> Exact(f, cells, op) == |op.data|
    ensures op.blk !in cells && op.blk >= Upper(cells.Keys) ==>
              Exact(f, cells, op) == Rest(|f|, op.FileOffset(), |op.data|)
    ensures op.blk in cells && op.blk >= Upper(cells.Keys) ==>
              Exact(f, cells, op) ==
              Max(Rest(|f|, op.FileOffset(), |op.data|), Clamp(cells[op.blk].End() - op.off, |op.data|))
  {
    var u := Upper(cells.Keys);
    if cells.Keys != {} {
      assert u in cells && cells[u].Ok();
    }
  }

  /** The length that MergeOp makes of the length read. */
  ghost function MergedSize(cells: Cells, op: Op, dataSize: nat): nat {
    var n := |op.data|;
    if op.blk !in cells then
      if dataSize < n && op.blk < Upper(cells.Keys) then n else dataSize
    else if cells[op.blk].End() <= op.off || op.off + n <= cells[op.blk].off then
      if dataSize < n && op.off < cells[op.blk].off then n else dataSize
    else Max(dataSize, Min(cells[op.blk].End(), op.off + n) - op.off)
  }

  lemma MergedLength(f: Content, cells: Cells, op: Op)
    requires CellsOk(cells) && op.Ok()
    ensures OpLengthOk(f, cells, op, MergedSize(cells, op, Rest(|f|, op.FileOffset(), |op.data|)))
  {
    ExactIs(f, cells, op);
  }

  method MergeOp(cells: Cells, op: Op, dataBuf: array<Byte>, pos: nat, dataSize: nat) returns (size: nat)
    requires CellsOk(cells) && op.Ok() && pos + |op.data| <= dataBuf.Length && dataSize <= |op.data|
    modifies dataBuf
    ensures forall i :: 0 <= i < dataBuf.Length && !(pos <= i < pos + |op.data|) ==> dataBuf[i] == old(dataBuf[i])
    ensures forall i :: pos <= i < pos + |op.data| ==>
      dataBuf[i] == CellByte(cells, op.blk, op.off + (i - pos), old(dataBuf[i]))
    ensures dataSize <= size <= |op.data| && size == MergedSize(cells, op, dataSize)
  {
    var n := |op.data|;
    if op.blk !in cells {
      var u := UpperIdx(cells.Keys);
      // read hit hole
      return if dataSize < n && op.blk < u then n else dataSize;
    }
    var cell := cells[op.blk];
    if cell.End() <= op.off || op.off + n <= cell.off {
      return if dataSize < n && op.off < cell.off then n else dataSize;
    }
    var cpOffset, cpTail := Max(cell.off, op.off), Min(cell.End(), op.off + n);
    Copy(dataBuf, pos + (cpOffset - op.off), cell.data[cpOffset - cell.off..cpTail - cell.off]);
    size := Max(dataSize, cpTail - op.off);
  }

  /** Such a hole exists: two one-byte buffers over an empty file; a read of two bytes gets one, though two remain. */
  lemma ShortHoleHappens(f: Content, cells: Cells, op: Op)
    requires f == [] && cells == map[0 := Cell(0, [1]), 1 := Cell(0, [1])] && op == Op(0, 0, [0, 0])
    ensures ShortHole(f, cells, op) && Exact(f, cells, op) == 2 && MergedSize(cells, op, 0) == 1
  {
    assert 1 in cells.Keys;
    ExactIs(f, cells, op);
  }

  /** Server or cached byte below, buffered byte on top: the view's byte. */
  lemma ByteIs(f: Content, cells: Cells, blocks: Blocks, b: nat, o: nat)
    requires BlocksAgree(f, cells, blocks) && CellsOk(cells) && o < BLOCK
    ensures CellByte(cells, b, o, SourceByte(f, blocks, b, o)) == At(View(f, cells), b * BLOCK + o)
  {
    var p := b * BLOCK + o;
    assert p / BLOCK == b && p % BLOCK == o;
    AtView(f, cells, p);
  }

  /**
   * The length returned after some ops, against the length that the view has for them: at least what the server has;
   * more than the view has only inside a cached block; and at least what the view has unless the last op ends in an
   * unseen hole.
   */
  ghost predicate LengthOk(f: Content, blocks: Blocks, cells: Cells, ops: seq<Op>, offset: nat, size: nat) {
    var n := |Bytes(ops)|;
    && Bounds(ViewSize(f, cells), |f|, blocks, offset, n, size)
    && (ops != [] ==> Covers(f, blocks, cells, ops[|ops| - 1], Rest(ViewSize(f, cells), offset, n), n, size))
  }

  /** For a view of size vs over a server file of size fs. */
  ghost predicate Bounds(vs: nat, fs: nat, blocks: Blocks, offset: nat, n: nat, size: nat) {
    Rest(fs, offset, n) <= size <= n && (size > Rest(vs, offset, n) ==> IsCached(blocks, offset + size - 1))
  }

  predicate IsCached(blocks: Blocks, p: nat) { p / BLOCK in blocks }

  ghost predicate Covers(f: Content, blocks: Blocks, cells: Cells, last: Op, e: nat, n: nat, size: nat) {
    && (last.blk in blocks ==> size == n)
    && (size >= e <==> last.blk in blocks || !ShortHole(f, cells, last))
  }

  lemma LengthStep(f: Content, blocks: Blocks, cells: Cells, ops: seq<Op>, k: nat, offset: nat, size: nat, r: nat)
    requires CellsOk(cells) && Tiles(ops, offset) && k < |ops| && (forall i :: 0 <= i < |ops| ==> ops[i].Ok())
    requires LengthOk(f, blocks, cells, ops[..k], offset, size) && ReadLengthOk(f, blocks, cells, ops[k], r)
    ensures LengthOk(f, blocks, cells, ops[..k + 1], offset, if r != 0 then ops[k].FileOffset() - offset + r else size)
  {
    Within(ops, k, offset);
    if Exact(f, cells, ops[k]) == 0 { CoveredBefore(f, blocks, cells, ops, k, offset, size); }
    assert ops[..k + 1] == ops[..k] + [ops[k]];
    LengthGoes(f, blocks, cells, ops[..k], ops[k], offset, size, r);
  }

  /** One more op behind the others. */
  lemma LengthGoes(f: Content, blocks: Blocks, cells: Cells, ops: seq<Op>, op: Op, offset: nat, size: nat, r: nat)
    requires op.Ok() && op.FileOffset() == offset + |Bytes(ops)|
    requires LengthOk(f, blocks, cells, ops, offset, size) && ReadLengthOk(f, blocks, cells, op, r)
    requires Exact(f, cells, op) == 0 ==> size >= Rest(ViewSize(f, cells), offset, |Bytes(ops)|)
    ensures LengthOk(f, blocks, cells, ops + [op], offset, if r != 0 then |Bytes(ops)| + r else size)
  {
    BytesSnoc(ops, op);
    assert (ops + [op])[|ops|] == op;
    if op.blk in blocks {
      GoesHit(f, blocks, cells, op, offset, |Bytes(ops)|);
    } else {
      GoesMiss(f, blocks, cells, op, offset, |Bytes(ops)|, size, r);
    }
  }

  lemma GoesHit(f: Content, blocks: Blocks, cells: Cells, op: Op, offset: nat, pos: nat)
    requires op.Ok() && op.FileOffset() == offset + pos && op.blk in blocks
    ensures var n := pos + |op.data|;
            && Bounds(ViewSize(f, cells), |f|, blocks, offset, n, n)
            && Covers(f, blocks, cells, op, Rest(ViewSize(f, cells), offset, n), n, n)
  {
    LastBlock(op);
    HitBounds(ViewSize(f, cells), |f|, blocks, offset, pos + |op.data|);
  }

  lemma GoesMiss(f: Content, blocks: Blocks, cells: Cells, op: Op, offset: nat, pos: nat, size: nat, r: nat)
    requires op.FileOffset() == offset + pos && op.blk !in blocks && OpLengthOk(f, cells, op, r)
    requires Bounds(ViewSize(f, cells), |f|, blocks, offset, pos, size)
    requires Exact(f, cells, op) == 0 ==> size >= Rest(ViewSize(f, cells), offset, pos)
    ensures var n, size' := pos + |op.data|, if r != 0 then pos + r else size;
            && Bounds(ViewSize(f, cells), |f|, blocks, offset, n, size')
            && Covers(f, blocks, cells, op, Rest(ViewSize(f, cells), offset, n), n, size')
  {
    ViewBound(f, cells);
    MissBounds(ViewSize(f, cells), |f|, blocks, offset, pos, |op.data|, size, r);
  }

  lemma HitBounds(vs: nat, fs: nat, blocks: Blocks, offset: nat, n: nat)
    requires n > 0 && IsCached(blocks, offset + n - 1)
    ensures Bounds(vs, fs, blocks, offset, n, n) && n >= Rest(vs, offset, n)
  {}

  /** If the view ends before op k, the ops before it have read all of it. */
  lemma CoveredBefore(f: Content, blocks: Blocks, cells: Cells, ops: seq<Op>, k: nat, offset: nat, size: nat)
    requires CellsOk(cells) && Tiles(ops, offset) && k < |ops| && (forall i :: 0 <= i < |ops| ==> ops[i].Ok())
    requires LengthOk(f, blocks, cells, ops[..k], offset, size) && Exact(f, cells, ops[k]) == 0
    ensures size >= Rest(ViewSize(f, cells), offset, |Bytes(ops[..k])|)
  {
    if k > 0 {
      assert ops[..k][k - 1] == ops[k - 1];
      NoHoleBefore(f, cells, ops, k, offset);
    }
  }

  lemma LastBlock(op: Op)
    requires op.Ok()
    ensures forall blocks: Blocks :: op.blk in blocks ==> IsCached(blocks, op.FileOffset() + |op.data| - 1)
  {}

  lemma ViewBound(f: Content, cells: Cells)
    ensures |f| <= ViewSize(f, cells)
  {}

  /** The lengths of pos bytes, size of which are read, and of n more behind them. */
  lemma MissBounds(vs: nat, fs: nat, blocks: Blocks, offset: nat, pos: nat, n: nat, size: nat, r: nat)
    requires fs <= vs && Bounds(vs, fs, blocks, offset, pos, size)
    requires Rest(fs, offset + pos, n) <= r <= Rest(vs, offset + pos, n)
    requires Rest(vs, offset + pos, n) == 0 ==> size >= Rest(vs, offset, pos)
    ensures var size' := if r != 0 then pos + r else size;
            && Bounds(vs, fs, blocks, offset, pos + n, size')
            && (size' >= Rest(vs, offset, pos + n) <==> r == Rest(vs, offset + pos, n))
  {}

  /** If the view ends before an op, the op before it has no unseen hole. */
  lemma NoHoleBefore(f: Content, cells: Cells, ops: seq<Op>, k: nat, offset: nat)
    requires CellsOk(cells) && Tiles(ops, offset) && 0 < k < |ops| && (forall i :: 0 <= i < |ops| ==> ops[i].Ok())
    requires Exact(f, cells, ops[k]) == 0
    ensures !ShortHole(f, cells, ops[k - 1])
  {
    var u := Upper(cells.Keys);
    if ops[k - 1].blk < u {
      assert u in cells && cells[u].Ok();
      assert ops[k].blk == ops[k - 1].blk + 1;
      ExactIs(f, cells, ops[k]);
      StartsBlock(ops, k, offset);
    }
  }

  /** The first n bytes are the view's from start on, the others still zero. */
  ghost predicate Filled(d: Content, f: Content, cells: Cells, start: nat, n: nat) {
    && n <= |d|
    && (forall i :: 0 <= i < n ==> d[i] == At(View(f, cells), start + i))
    && (forall i :: n <= i < |d| ==> d[i] == 0)
  }

  lemma FilledStep(d: Content, d': Content, f: Content, cells: Cells, start: nat, pos: nat, n: nat)
    requires Filled(d, f, cells, start, pos) && |d'| == |d| && pos + n <= |d|
    requires forall i :: 0 <= i < |d| && !(pos <= i < pos + n) ==> d'[i] == d[i]
    requires forall i :: pos <= i < pos + n ==> d'[i] == At(View(f, cells), start + i)
    ensures Filled(d', f, cells, start, pos + n)
  {}

  /** One op of doRead: its part of dataBuf becomes the view's bytes. */
  method ReadBlock(f: Content, blocks: Blocks, down: set<nat>, cells: Cells, op: Op, dataBuf: array<Byte>,
          offset: nat) returns (size: nat, err: bool)
    requires op.Ok() && (op.blk in blocks ==> 0 < |blocks[op.blk]| <= BLOCK)
    requires offset <= op.FileOffset() && op.FileOffset() - offset + |op.data| <= dataBuf.Length
    requires CellsOk(cells) && BlocksAgree(f, cells, blocks)
    requires Filled(dataBuf[..], f, cells, offset, op.FileOffset() - offset)
    modifies dataBuf
    ensures !err ==> Filled(dataBuf[..], f, cells, offset, op.FileOffset() - offset + |op.data|)
    ensures !err ==> size <= |op.data| && (Padded(blocks) ==> ReadLengthOk(f, blocks, cells, op, size))
    ensures err <==> Fails(blocks, down, op)
  {
    var pos := op.FileOffset() - offset;
    ghost var before := dataBuf[..];
    size, err := ReadOp(f, blocks, down, op, dataBuf, pos);
    if !err {
      size := MergeOp(cells, op, dataBuf, pos, size);
      MergedLength(f, cells, op);
      forall i | pos <= i < pos + |op.data| ensures dataBuf[i] == At(View(f, cells), offset + i) {
        ByteIs(f, cells, blocks, op.blk, op.off + (i - pos));
      }
      FilledStep(before, dataBuf[..], f, cells, offset, pos, |op.data|);
    }
  }

  /**
   * doRead: fills a zeroed dataBuf op by op and copies what was read to the caller.  It fails exactly when the server
   * read of a block that is not cached fails.  Every byte returned is the view's.  The length covers what the server
   * has; it covers the view exactly when the last block is cached or the last op does not end in an unseen hole; and it
   * exceeds the view only inside a cached block, so never without cached blocks.
   */
  method DoRead(f: Content, blocks: Blocks, down: set<nat>, cells: Cells, buffer: array<Byte>, offset: uint64)
    returns (size: nat, err: bool, ghost last: Op)
    requires 0 < buffer.Length <= MAX_LEN && offset < 0x8000_0000_0000_0000
    requires CellsOk(cells) && BlocksAgree(f, cells, blocks) && forall b :: b in blocks ==> 0 < |blocks[b]| <= BLOCK
    modifies buffer
    ensures err <==> exists b :: offset as nat / BLOCK <= b <= last.blk && b in down && b !in blocks
    ensures err ==> buffer[..] == old(buffer[..])
    ensures !err ==> size <= buffer.Length && buffer[size..] == old(buffer[size..])
    ensures !err ==> forall i :: 0 <= i < size ==> buffer[i] == At(View(f, cells), offset as nat + i)
    ensures last.Ok() && last.FileOffset() + |last.data| == offset as nat + buffer.Length
    ensures !err && Padded(blocks) ==>
              var e := Rest(ViewSize(f, cells), offset as nat, buffer.Length);
              && Rest(|f|, offset as nat, buffer.Length) <= size
              && (size >= e <==> last.blk in blocks || !ShortHole(f, cells, last))
              && (size > e ==> IsCached(blocks, offset as nat + size - 1))
              && (last.blk in blocks ==> size == buffer.Length)
    ensures !err && blocks == map[] ==> size <= Rest(ViewSize(f, cells), offset as nat, buffer.Length)
  {
    var dataBuf := new Byte[buffer.Length](_ => 0);
    var ops := Slice(dataBuf[..], offset);
    last := ops[|ops| - 1];
    LastEnds(ops, offset as nat);
    size, err := ReadOps(f, blocks, down, cells, ops, offset as nat, dataBuf);
    BlocksOf(ops, |ops|, offset as nat, blocks, down);
    if !err {
      CopyOut(f, cells, offset as nat, buffer, dataBuf, size);
    }
  }

  /** Some of the first k ops fails. */
  ghost predicate AnyFails(blocks: Blocks, down: set<nat>, ops: seq<Op>, k: nat)
    requires k <= |ops|
  {
    k > 0 && (AnyFails(blocks, down, ops, k - 1) || Fails(blocks, down, ops[k - 1]))
  }

  lemma {:induction false} AnyStays(blocks: Blocks, down: set<nat>, ops: seq<Op>, k: nat)
    requires k <= |ops| && AnyFails(blocks, down, ops, k)
    ensures AnyFails(blocks, down, ops, |ops|)
    decreases |ops| - k
  {
    if k < |ops| { AnyStays(blocks, down, ops, k + 1); }
  }

  /** The ops' blocks are those from the offset's to the last op's. */
  lemma {:induction false} BlocksOf(ops: seq<Op>, k: nat, offset: nat, blocks: Blocks, down: set<nat>)
    requires Tiles(ops, offset) && k <= |ops|
    ensures AnyFails(blocks, down, ops, k) <==>
            exists b :: offset / BLOCK <= b < offset / BLOCK + k && b in down && b !in blocks
  {
    if k > 0 {
      BlocksOf(ops, k - 1, offset, blocks, down);
      assert ops[k - 1].blk == offset / BLOCK + k - 1;
    }
  }

  /** The caller gets what was read, and nothing else. */
  method CopyOut(f: Content, cells: Cells, offset: nat, buffer: array<Byte>, dataBuf: array<Byte>, size: nat)
    requires buffer != dataBuf && buffer.Length == dataBuf.Length && size <= buffer.Length
    requires Filled(dataBuf[..], f, cells, offset, dataBuf.Length)
    modifies buffer
    ensures buffer[size..] == old(buffer[size..])
    ensures forall i :: 0 <= i < size ==> buffer[i] == At(View(f, cells), offset + i)
  {
    assert forall i :: 0 <= i < size ==> dataBuf[..size][i] == dataBuf[..][i];
    Copy(buffer, 0, dataBuf[..size]);
  }

  /** The loop of doRead. */
  method ReadOps(f: Content, blocks: Blocks, down: set<nat>, cells: Cells, ops: seq<Op>, offset: nat,
          dataBuf: array<Byte>) returns (size: nat, err: bool)
    requires Readable(f, blocks, cells, ops, offset) && |Bytes(ops)| == dataBuf.Length
    requires Filled(dataBuf[..], f, cells, offset, 0)
    modifies dataBuf
    ensures !err ==> size <= dataBuf.Length && Filled(dataBuf[..], f, cells, offset, dataBuf.Length)
    ensures !err && Padded(blocks) ==> LengthOk(f, blocks, cells, ops, offset, size)
    ensures err <==> AnyFails(blocks, down, ops, |ops|)
  {
    size, err := 0, false;
    SoFarStarts(dataBuf[..], f, blocks, cells, ops, offset);
    for k := 0 to |ops|
      invariant SoFar(dataBuf[..], f, blocks, cells, ops, k, offset, size, 2)
      invariant !err && !AnyFails(blocks, down, ops, k)
    {
      size, err := ReadNext(f, blocks, down, cells, ops, k, offset, dataBuf, size);
      if err {
        AnyStays(blocks, down, ops, k + 1);
        return;
      }
    }
    SoFarEnds(dataBuf[..], f, blocks, cells, ops, offset, size);
  }

  /** What doRead knows of the range and the caches. */
  ghost predicate Readable(f: Content, blocks: Blocks, cells: Cells, ops: seq<Op>, offset: nat) {
    && Tiles(ops, offset) && (forall i :: 0 <= i < |ops| ==> ops[i].Ok())
    && CellsOk(cells) && BlocksAgree(f, cells, blocks) && (forall b :: b in blocks ==> 0 < |blocks[b]| <= BLOCK)
  }

  /** What the first k ops have filled in, and the length so far; the count of folds is as in `Slicing.Sliced`. */
  ghost predicate SoFar(d: Content, f: Content, blocks: Blocks, cells: Cells, ops: seq<Op>, k: nat, offset: nat,
          size: nat,
                        folds: nat)
    requires k <= |ops|
    decreases folds
  {
    if folds > 0 then SoFar(d, f, blocks, cells, ops, k, offset, size, folds - 1) else
      && Readable(f, blocks, cells, ops, offset)
      && size <= |Bytes(ops[..k])| && Filled(d, f, cells, offset, |Bytes(ops[..k])|)
      && (Padded(blocks) ==> LengthOk(f, blocks, cells, ops[..k], offset, size))
  }

  lemma SoFarIs(d: Content, f: Content, blocks: Blocks, cells: Cells, ops: seq<Op>, k: nat, offset: nat, size: nat)
    requires k <= |ops|
    ensures SoFar(d, f, blocks, cells, ops, k, offset, size, 2) <==>
            && Readable(f, blocks, cells, ops, offset)
            && size <= |Bytes(ops[..k])| && Filled(d, f, cells, offset, |Bytes(ops[..k])|)
            && (Padded(blocks) ==> LengthOk(f, blocks, cells, ops[..k], offset, size))
  {
    assert SoFar(d, f, blocks, cells, ops, k, offset, size, 2) <==> SoFar(d, f, blocks, cells, ops, k, offset, size, 1);
    assert SoFar(d, f, blocks, cells, ops, k, offset, size, 1) <==> SoFar(d, f, blocks, cells, ops, k, offset, size, 0);
  }

  lemma SoFarStarts(d: Content, f: Content, blocks: Blocks, cells: Cells, ops: seq<Op>, offset: nat)
    requires Readable(f, blocks, cells, ops, offset) && Filled(d, f, cells, offset, 0)
    ensures SoFar(d, f, blocks, cells, ops, 0, offset, 0, 2)
  {
    assert Bytes(ops[..0]) == [];
    SoFarIs(d, f, blocks, cells, ops, 0, offset, 0);
  }

  lemma SoFarEnds(d: Content, f: Content, blocks: Blocks, cells: Cells, ops: seq<Op>, offset: nat, size: nat)
    requires SoFar(d, f, blocks, cells, ops, |ops|, offset, size, 2) && |Bytes(ops)| == |d|
    ensures size <= |d| && Filled(d, f, cells, offset, |d|)
    ensures Padded(blocks) ==> LengthOk(f, blocks, cells, ops, offset, size)
  {
    SoFarIs(d, f, blocks, cells, ops, |ops|, offset, size);
    assert ops[..|ops|] == ops;
  }

  /** One round of the loop. */
  method ReadNext(f: Content, blocks: Blocks, down: set<nat>, cells: Cells, ops: seq<Op>, k: nat, offset: nat,
          dataBuf: array<Byte>, size: nat) returns (size': nat, err: bool)
    requires k < |ops| && |Bytes(ops)| == dataBuf.Length
    requires SoFar(dataBuf[..], f, blocks, cells, ops, k, offset, size, 2)
    modifies dataBuf
    ensures !err ==> SoFar(dataBuf[..], f, blocks, cells, ops, k + 1, offset, size', 2)
    ensures err <==> Fails(blocks, down, ops[k])
  {
    var op := ops[k];
    ghost var before := dataBuf[..];
    NextReadable(before, f, blocks, cells, ops, k, offset, size);
    var opSize;
    opSize, err := ReadBlock(f, blocks, down, cells, op, dataBuf, offset);
    if err {
      return opSize, err;
    }
    size' := if opSize != 0 then op.FileOffset() - offset + opSize else size;
    SoFarGoes(before, dataBuf[..], f, blocks, cells, ops, k, offset, size, opSize);
  }

  lemma NextReadable(d: Content, f: Content, blocks: Blocks, cells: Cells, ops: seq<Op>, k: nat, offset: nat, size: nat)
    requires k < |ops| && |Bytes(ops)| == |d| && SoFar(d, f, blocks, cells, ops, k, offset, size, 2)
    ensures var op := ops[k];
            && op.Ok() && (op.blk in blocks ==> 0 < |blocks[op.blk]| <= BLOCK) && CellsOk(cells)
            && BlocksAgree(f, cells, blocks) && offset <= op.FileOffset() && op.FileOffset() - offset + |op.data| <= |d|
            && Filled(d, f, cells, offset, op.FileOffset() - offset)
  {
    SoFarIs(d, f, blocks, cells, ops, k, offset, size);
    Within(ops, k, offset);
  }

  lemma SoFarGoes(d: Content, d': Content, f: Content, blocks: Blocks, cells: Cells, ops: seq<Op>, k: nat, offset: nat,
                  size: nat, r: nat)
    requires k < |ops| && SoFar(d, f, blocks, cells, ops, k, offset, size, 2)
    requires offset <= ops[k].FileOffset()
    requires Filled(d', f, cells, offset, ops[k].FileOffset() - offset + |ops[k].data|) && r <= |ops[k].data|
    requires Padded(blocks) ==> ReadLengthOk(f, blocks, cells, ops[k], r)
    ensures SoFar(d', f, blocks, cells, ops, k + 1, offset, if r != 0
            then ops[k].FileOffset() - offset + r else size, 2)
  {
    var size' := if r != 0 then ops[k].FileOffset() - offset + r else size;
    Within(ops, k, offset);
    SoFarIs(d, f, blocks, cells, ops, k, offset, size);
    if Padded(blocks) { LengthStep(f, blocks, cells, ops, k, offset, size, r); }
    SoFarIs(d', f, blocks, cells, ops, k + 1, offset, size');
  }
}
