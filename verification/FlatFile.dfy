/** The flat byte file that the caches must agree with. */
module FlatFile {

  type Byte = b: int | 0 <= b < 256
  type Content = seq<Byte>

  /** Every file entry of the client is created with this block size. */
  const BLOCK: nat := 0x10_0000

  function Max(a: int, b: int): int { if a < b then b else a }

  function Min(a: int, b: int): int { if a < b then a else b }

  /** The byte at offset p of a file that reads as zeros past its end. */
  function At(f: Content, p: nat): Byte {
    if p < |f| then f[p] else 0
  }

  /** A positioned write: a write past the end fills the gap with zeros. */
  function WriteAt(f: Content, off: nat, d: Content): (r: Content) {
    if d == [] then f else
      seq(Max(|f|, off + |d|), p requires 0 <= p => if off <= p < off + |d| then d[p - off] else At(f, p))
  }

  /** The bytes that a read of n bytes at offset off returns: fewer than n, or none, at the end. */
  function ReadAt(f: Content, off: nat, n: nat): (r: Content) {
    if |f| <= off then [] else f[off..Min(|f|, off + n)]
  }

  /** Truncation: shrinks, or extends with zeros. */
  function Resize(f: Content, n: nat): (r: Content) {
    if n <= |f| then f[..n] else f + seq(n - |f|, _ => 0)
  }

  lemma ResizeIs(f: Content, n: nat)
    ensures |Resize(f, n)| == n && forall p: nat :: p < n ==> At(Resize(f, n), p) == At(f, p)
  {}

  lemma AtWrite(f: Content, off: nat, d: Content, p: nat)
    ensures At(WriteAt(f, off, d), p) == if off <= p < off + |d| then d[p - off] else At(f, p)
  {}

  /** Two adjacent writes are one write of the concatenation. */
  lemma WriteAtAppend(f: Content, off: nat, d: Content, e: Content)
    ensures WriteAt(WriteAt(f, off, d), off + |d|, e) == WriteAt(f, off, d + e)
  {
    var m := WriteAt(f, off, d);
    var l, r := WriteAt(m, off + |d|, e), WriteAt(f, off, d + e);
    assert |l| == |r|;
    forall p: nat | p < |l| ensures l[p] == r[p] {
      assert l[p] == At(l, p) && r[p] == At(r, p);
      AtWrite(f, off, d, p);
      AtWrite(m, off + |d|, e, p);
      AtWrite(f, off, d + e, p);
    }
    assert l == r;
  }

  /** One block of a positioned write: the target block, the offset inside it and the bytes. */
  datatype Op = Op(blk: nat, off: nat, data: Content) {
    predicate Ok() { data != [] && off + |data| <= BLOCK }

    predicate IsFull() { off + |data| == BLOCK }

    function FileOffset(): nat { blk * BLOCK + off }

    function Covers(p: nat): bool { FileOffset() <= p < FileOffset() + |data| }

    function Do(f: Content): Content { WriteAt(f, FileOffset(), data) }
  }

  /** The meaning of a list of block writes: apply them in order. */
  function Replay(f: Content, ops: seq<Op>): Content {
    if ops == [] then f else ops[|ops| - 1].Do(Replay(f, ops[..|ops| - 1]))
  }

  lemma {:induction false} ReplayAppend(f: Content, a: seq<Op>, b: seq<Op>)
    ensures Replay(f, a + b) == Replay(Replay(f, a), b)
  {
    if b == [] {
      assert a + b == a;
    } else {
      ReplayAppend(f, a, b[..|b| - 1]);
      assert (a + b)[..|a + b| - 1] == a + b[..|b| - 1];
    }
  }

  lemma ReplaySnoc(f: Content, a: seq<Op>, op: Op)
    ensures Replay(f, a + [op]) == op.Do(Replay(f, a))
  {
    assert (a + [op])[..|a|] == a;
  }
}
