/**
 * The write-back view of a file: the server's bytes overlaid by one buffered byte range per block.
 */
module Overlay {
  import opened FlatFile

  /** The valid range of a write buffer: dataBuf[off .. off + |data|) of its block. */
  datatype Cell = Cell(off: nat, data: Content) {
    predicate Ok() { data != [] && off + |data| <= BLOCK }

    /** Offset in the block just past the buffered range. */
    function End(): nat { off + |data| }

    predicate Covers(o: nat) { off <= o < End() }

    predicate CanMerge(o: nat) { End() == o }

    predicate IsFull() { End() == BLOCK }

    function Merge(d: Content): Cell { Cell(off, data + d) }
  }

  type Cells = map<nat, Cell>

  ghost predicate CellsOk(cells: Cells) {
    forall b :: b in cells ==> cells[b].Ok()
  }

  function Tail(b: nat, c: Cell): nat { b * BLOCK + c.End() }

  predicate Dirty(cells: Cells, p: nat) {
    p / BLOCK in cells && cells[p / BLOCK].Covers(p % BLOCK)
  }

  function ViewAt(f: Content, cells: Cells, p: nat): Byte {
    if Dirty(cells, p) then cells[p / BLOCK].data[p % BLOCK - cells[p / BLOCK].off] else At(f, p)
  }

  /** The highest buffered block; 0 when nothing is buffered. */
  ghost function Upper(keys: set<nat>): (u: nat)
    ensures keys != {} ==> u in keys
    ensures forall b :: b in keys ==> b <= u
    ensures keys == {} ==> u == 0
  {
    if keys == {} then 0 else
      var b :| b in keys;
      var rest := Upper(keys - {b});
      assert forall k :: k in keys ==> k == b || k in keys - {b};
      if rest in keys && b < rest then rest else b
  }

  method UpperIdx(keys: set<nat>) returns (tail: nat)
    ensures tail == Upper(keys)
  {
    tail := 0;
    var left := keys;
    while left != {}
      invariant left <= keys
      invariant forall b :: b in keys ==> b in left || b <= tail
      invariant tail == 0 || tail in keys
      decreases |left|
    {
      var b :| b in left;
      if tail < b {
        tail := b;
      }
      left := left - {b};
    }
  }

  ghost function ViewSize(f: Content, cells: Cells): nat {
    if cells.Keys == {} then |f| else
      Max(|f|, Tail(Upper(cells.Keys), cells[Upper(cells.Keys)]))
  }

  /** The whole file as the client must see it. */
  ghost function View(f: Content, cells: Cells): Content {
    seq(ViewSize(f, cells), p requires 0 <= p => ViewAt(f, cells, p))
  }

  /** The buffered range of block b is on the server too. */
  predicate OnServer(f: Content, b: nat, c: Cell) {
    Tail(b, c) <= |f| && f[b * BLOCK + c.off..Tail(b, c)] == c.data
  }

  // ---------- the size of the view ----------

  lemma TailBound(f: Content, cells: Cells, b: nat)
    requires CellsOk(cells) && b in cells
    ensures Tail(b, cells[b]) <= ViewSize(f, cells)
  {
    assert b in cells.Keys;
    assert b <= Upper(cells.Keys);
  }

  /** The view size is the least bound of the server size and of every buffered range. */
  lemma SizeIs(f: Content, cells: Cells, n: nat)
    requires CellsOk(cells)
    requires |f| <= n && forall b :: b in cells ==> Tail(b, cells[b]) <= n
    requires n == |f| || exists b :: b in cells && Tail(b, cells[b]) == n
    ensures ViewSize(f, cells) == n
  {
    if cells.Keys != {} {
      assert Upper(cells.Keys) in cells;
    }
    if n != |f| {
      var b :| b in cells && Tail(b, cells[b]) == n;
      TailBound(f, cells, b);
    } else if cells.Keys == {} {
    }
  }

  /** A write through the view: pointwise effect and size determine it. */
  lemma ViewWrite(f: Content, cells: Cells, f': Content, cells': Cells, op: Op)
    requires op.data != []
    requires forall p: nat ::
      ViewAt(f', cells', p) == if op.Covers(p) then op.data[p - op.FileOffset()] else ViewAt(f, cells, p)
    requires ViewSize(f', cells') == Max(ViewSize(f, cells), op.FileOffset() + |op.data|)
    requires CellsOk(cells)
    ensures View(f', cells') == op.Do(View(f, cells))
  {
    forall p: nat | p < ViewSize(f', cells')
      ensures View(f', cells')[p] == op.Do(View(f, cells))[p]
    {
      if !op.Covers(p) { AtView(f, cells, p); }
    }
  }

  /** Past its end the view reads as zeros. */
  lemma AtView(f: Content, cells: Cells, p: nat)
    requires CellsOk(cells)
    ensures At(View(f, cells), p) == ViewAt(f, cells, p)
  {
    if Dirty(cells, p) {
      TailBound(f, cells, p / BLOCK);
    }
  }

  lemma ViewSame(f: Content, cells: Cells, f': Content, cells': Cells)
    requires forall p: nat :: ViewAt(f', cells', p) == ViewAt(f, cells, p)
    requires ViewSize(f', cells') == ViewSize(f, cells)
    ensures View(f', cells') == View(f, cells)
  {}

  // ---------- the five ways in which the cache changes its parts ----------

  /** A new or extended cell that adds exactly the op to the block's old cell. */
  lemma PutCell(f: Content, cells: Cells, op: Op, c: Cell)
    requires CellsOk(cells) && op.Ok() && c.Ok()
    requires op.blk !in cells ==> c == Cell(op.off, op.data)
    requires op.blk in cells ==> cells[op.blk].CanMerge(op.off) && c == cells[op.blk].Merge(op.data)
    ensures View(f, cells[op.blk := c]) == op.Do(View(f, cells))
  {
    var cells' := cells[op.blk := c];
    forall p: nat
      ensures ViewAt(f, cells', p) == if op.Covers(p) then op.data[p - op.FileOffset()] else ViewAt(f, cells, p)
    {
      BlockOf(op, p);
    }
    var n := Max(ViewSize(f, cells), op.FileOffset() + |op.data|);
    forall b | b in cells' ensures Tail(b, cells'[b]) <= n {
      if b != op.blk { TailBound(f, cells, b); }
    }
    if n != |f| && n == ViewSize(f, cells) {
      var u := Upper(cells.Keys);
      assert u in cells && Tail(u, cells[u]) == n;
      assert u in cells' && Tail(u, cells'[u]) == n by {
        if u == op.blk { TailBound(f, cells, u); }
      }
    } else {
      assert op.blk in cells';
    }
    SizeIs(f, cells', n);
    ViewWrite(f, cells, f, cells', op);
  }

  lemma BlockOf(op: Op, p: nat)
    requires op.Ok()
    ensures op.Covers(p) <==> p / BLOCK == op.blk && op.off <= p % BLOCK < op.off + |op.data|
    ensures op.Covers(p) ==> p - op.FileOffset() == p % BLOCK - op.off
  {}

  /** A direct server write to a block without a buffer. */
  lemma PutServer(f: Content, cells: Cells, op: Op)
    requires CellsOk(cells) && op.Ok() && op.blk !in cells
    ensures View(op.Do(f), cells) == op.Do(View(f, cells))
  {
    forall p: nat
      ensures ViewAt(op.Do(f), cells, p) == if op.Covers(p) then op.data[p - op.FileOffset()] else ViewAt(f, cells, p)
    {
      BlockOf(op, p);
    }
    ViewWrite(f, cells, op.Do(f), cells, op);
  }

  /** Writing a cell's own bytes back leaves the view alone and puts the cell on the server. */
  lemma WriteBack(f: Content, cells: Cells, b: nat)
    requires CellsOk(cells) && b in cells
    ensures var f' := Op(b, cells[b].off, cells[b].data).Do(f);
            View(f', cells) == View(f, cells) && OnServer(f', b, cells[b])
  {
    var op := Op(b, cells[b].off, cells[b].data);
    var f' := op.Do(f);
    forall p: nat ensures ViewAt(f', cells, p) == ViewAt(f, cells, p) {
      BlockOf(op, p);
    }
    TailBound(f, cells, b);
    assert f'[b * BLOCK + cells[b].off..Tail(b, cells[b])] == cells[b].data;
    ViewSame(f, cells, f', cells);
  }

  /** A cell whose bytes are on the server can be dropped. */
  lemma DropCell(f: Content, cells: Cells, b: nat)
    requires CellsOk(cells) && b in cells && OnServer(f, b, cells[b])
    ensures View(f, cells - {b}) == View(f, cells)
  {
    var cells' := cells - {b};
    forall p: nat ensures ViewAt(f, cells', p) == ViewAt(f, cells, p) {
      if p / BLOCK == b && cells[b].Covers(p % BLOCK) {
        assert f[b * BLOCK + cells[b].off..Tail(b, cells[b])][p % BLOCK - cells[b].off] == f[p];
      }
    }
    var n := ViewSize(f, cells);
    forall k | k in cells' ensures Tail(k, cells'[k]) <= n { TailBound(f, cells, k); }
    if n != |f| {
      var u := Upper(cells.Keys);
      assert u in cells && Tail(u, cells[u]) == n;
      assert u in cells';
    }
    SizeIs(f, cells', n);
    ViewSame(f, cells, f, cells');
  }

  /** A cell that is on the server can be replaced by one that does not continue it. */
  lemma ReplaceCell(f: Content, cells: Cells, op: Op)
    requires CellsOk(cells) && op.Ok() && op.blk in cells && OnServer(f, op.blk, cells[op.blk])
    ensures View(f, cells[op.blk := Cell(op.off, op.data)]) == op.Do(View(f, cells))
  {
    DropCell(f, cells, op.blk);
    PutCell(f, cells - {op.blk}, op, Cell(op.off, op.data));
    assert cells[op.blk := Cell(op.off, op.data)] == (cells - {op.blk})[op.blk := Cell(op.off, op.data)];
  }

  /** A server write elsewhere keeps a cell on the server. */
  lemma OnServerStable(f: Content, op: Op, b: nat, c: Cell)
    requires op.Ok() && c.Ok() && op.blk != b && OnServer(f, b, c)
    ensures OnServer(op.Do(f), b, c)
  {
    var f' := op.Do(f);
    forall i: nat | i < |c.data|
      ensures f'[b * BLOCK + c.off..Tail(b, c)][i] == c.data[i]
    {
      var p := b * BLOCK + c.off + i;
      assert f'[b * BLOCK + c.off..Tail(b, c)][i] == f'[p];
      assert p / BLOCK == b;
      BlockOf(op, p);
      assert f[b * BLOCK + c.off..Tail(b, c)][i] == f[p];
    }
  }

  /** With nothing buffered the view is the server file. */
  lemma EmptyView(f: Content)
    ensures View(f, map[]) == f
  {}
}
