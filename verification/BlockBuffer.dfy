/** A pool buffer as the object it is: a fixed block-sized array of which one range is valid. */
module BlockBuffer {
  import opened FlatFile
  import opened Overlay

  class Buffer {
    var blkIdx: nat
    var offset: nat
    var len: nat
    var lastUpdate: int
    const dataBuf: array<Byte>

    ghost predicate Valid()
      reads this
    {
      dataBuf.Length == BLOCK && offset + len <= BLOCK
    }

    /** The valid range; what earlier uses left elsewhere in dataBuf does not show. */
    ghost function Range(): Cell
      requires Valid()
      reads this, dataBuf
    {
      Cell(offset, dataBuf[offset..offset + len])
    }

    constructor ()
      ensures Valid() && fresh(dataBuf) && Range() == Cell(0, [])
    {
      dataBuf := new Byte[BLOCK];
      blkIdx, offset, len, lastUpdate := 0, 0, 0, 0;
    }

    /** Makes the buffer empty for a new block; the old bytes stay in the array. */
    method ReSet(b: nat)
      requires Valid()
      modifies this
      ensures Valid() && blkIdx == b && Range() == Cell(0, [])
    {
      blkIdx, offset, len, lastUpdate := b, 0, 0, 0;
    }

    method Skip(o: nat)
      requires Valid() && Range() == Cell(0, []) && o <= BLOCK
      modifies this
      ensures Valid() && blkIdx == old(blkIdx) && Range() == Cell(o, [])
    {
      offset := offset + o;
    }

    function CanMerge(o: nat): (r: bool)
      requires Valid()
      reads this, dataBuf
      ensures r == Range().CanMerge(o)
    {
      offset + len == o
    }

    function IsFull(): (r: bool)
      requires Valid()
      reads this, dataBuf
      ensures r == Range().IsFull()
    {
      offset + len == BLOCK
    }

    /** Copies the data behind the valid range, which grows by it; the range that was valid is untouched. */
    method MergeData(data: Content, now: int)
      requires Valid() && offset + len + |data| <= BLOCK
      modifies this, dataBuf
      ensures Valid() && blkIdx == old(blkIdx) && lastUpdate == now
      ensures Range() == old(Range()).Merge(data)
    {
      var base := offset + len;
      for i := 0 to |data|
        invariant offset == old(offset) && len == old(len) && blkIdx == old(blkIdx)
        invariant dataBuf[offset..base] == old(dataBuf[offset..base])
        invariant dataBuf[base..base + i] == data[..i]
      {
        dataBuf[base + i] := data[i];
        assert dataBuf[base..base + i + 1] == dataBuf[base..base + i] + [data[i]];
      }
      len := len + |data|;
      lastUpdate := now;
      assert data[..|data|] == data;
      assert dataBuf[offset..offset + len] == dataBuf[offset..base] + dataBuf[base..base + |data|];
    }

    method GetData() returns (data: Content)
      requires Valid()
      ensures data == Range().data
    {
      data := dataBuf[offset..offset + len];
    }

    /** The bytes start..end of the block, which must be valid ones. */
    method GetRangeData(start: nat, end: nat) returns (data: Content)
      requires Valid() && offset <= start <= end <= offset + len
      ensures |data| == end - start
      ensures forall o :: start <= o < end ==> Range().Covers(o) && data[o - start] == Range().data[o - Range().off]
    {
      data := dataBuf[start..end];
      assert forall o :: start <= o < end ==> data[o - start] == dataBuf[o];
      assert forall o :: start <= o < end ==> Range().data[o - offset] == dataBuf[o];
    }

    function GetTailOffset(): (p: nat)
      requires Valid()
      reads this, dataBuf
      ensures p == Tail(blkIdx, Range())
    {
      blkIdx * BLOCK + offset + len
    }
  }

  /** Reuse does not leak: after ReSet, Skip and MergeData the range is exactly the op's data. */
  method Refill(buf: Buffer, op: Op, now: int)
    requires buf.Valid() && op.Ok()
    modifies buf, buf.dataBuf
    ensures buf.Valid() && buf.blkIdx == op.blk && buf.Range() == Cell(op.off, op.data)
  {
    buf.ReSet(op.blk);
    buf.Skip(op.off);
    buf.MergeData(op.data, now);
    assert [] + op.data == op.data;
  }
}
