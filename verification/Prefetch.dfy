/** The prefetch window of a file buffer and the blocks it issues. */
module Prefetch {
  import opened FlatFile
  import opened Slicing

  /** PrefetchTimes above this would let the 32-bit window size wrap. */
  const MAX_TIMES: uint32 := 8_000_000

  class PrefetchWindow {
    var blkStart: uint64
    var blkEnd: uint64

    constructor (start: uint64, end: uint64)
      ensures blkStart == start && blkEnd == end
    {
      blkStart, blkEnd := start, end;
    }

    /** The source truncates to 32 bits; its assertion is the first precondition. */
    function Size(): (n: uint32)
      requires blkStart <= blkEnd && blkEnd - blkStart < 0x1_0000_0000
      reads this
      ensures n as nat == blkEnd as nat - blkStart as nat
    {
      (blkEnd - blkStart) as uint32
    }

    method Move()
      requires blkStart <= blkEnd && blkEnd as nat + (blkEnd as nat - blkStart as nat) < 0x1_0000_0000_0000_0000
      modifies this
      ensures blkStart == old(blkEnd)
      ensures blkEnd as nat == old(blkEnd) as nat + (old(blkEnd) as nat - old(blkStart) as nat)
    {
      var step := blkEnd - blkStart;
      Shift(step);
    }

    method Shift(step: uint64)
      requires blkStart as nat + step as nat < 0x1_0000_0000_0000_0000
      requires blkEnd as nat + step as nat < 0x1_0000_0000_0000_0000
      modifies this
      ensures blkStart as nat == old(blkStart) as nat + step as nat && blkEnd as nat == old(blkEnd) as nat + step as nat
    {
      blkStart := blkStart + step;
      blkEnd := blkEnd + step;
    }

    method Extend(times: uint32)
      requires blkStart <= blkEnd
      requires blkStart as nat + (blkEnd as nat - blkStart as nat) * times as nat < 0x1_0000_0000_0000_0000
      modifies this
      ensures blkStart == old(blkStart)
      ensures blkEnd as nat == old(blkStart) as nat + (old(blkEnd) as nat - old(blkStart) as nat) * times as nat
    {
      var step := blkEnd - blkStart;
      NoWrap(step as nat, times as nat, 0x1_0000_0000_0000_0000);
      blkEnd := blkStart + step * times as uint64;
    }

    /** The two block ranges overlap. */
    predicate Cross(rw: PrefetchWindow)
      reads this, rw
    {
      !(blkEnd <= rw.blkStart || rw.blkEnd <= blkStart)
    }
  }

  lemma NoWrap(a: nat, b: nat, n: nat)
    requires a * b < n
    ensures 0 <= a * b < n
  {}

  datatype Window = Window(start: nat, end: nat)

  /** The windows follow one another without gap or overlap, all of one size. */
  ghost predicate Chain(ws: seq<Window>, size: nat) {
    && (forall i :: 0 <= i < |ws| ==> ws[i].end == ws[i].start + size)
    && (forall i :: 0 < i < |ws| ==> ws[i].start == ws[i - 1].end)
  }

  ghost function From(start: nat, n: nat): seq<nat> { seq(n, i requires 0 <= i => start + i) }

  /** No block is in two windows of a chain: an earlier window ends where or before a later one starts. */
  lemma {:induction false} ChainAdvances(ws: seq<Window>, size: nat, i: nat, j: nat)
    requires Chain(ws, size) && i < j < |ws|
    ensures ws[i].end <= ws[j].start && ws[j].start - ws[i].start == (j - i) * size
  {
    if i + 1 < j {
      ChainAdvances(ws, size, i, j - 1);
    }
    assert ws[j].start == ws[j - 1].end;
  }

  /** What a read of the blocks from..to adds to the windows. */
  ghost function Issue(ws: seq<Window>, from: nat, to: nat, times: nat): seq<Window> {
    if ws == [] then
      if from == 0 then [Window(to, to + to * times)] else []
    else
      var last := ws[|ws| - 1];
      if from < last.end && last.start < to then [Window(last.end, last.end + ws[0].start * times)] else []
  }

  /** What was issued so far: a chain of windows of one size, whose blocks have been pushed in order, each once. */
  ghost predicate Issued(ws: seq<Window>, blocks: seq<nat>, times: nat) {
    if ws == [] then blocks == [] else
      var first, last := ws[0].start, ws[|ws| - 1].end;
      && 0 < first <= 513 && Chain(ws, first * times)
      && first <= last && blocks == From(first, last - first)
  }

  lemma Joined(ws: seq<Window>, w: Window, blocks: seq<nat>, times: nat)
    requires Issued(ws, blocks, times)
    requires if ws == [] then 0 < w.start <= 513 && w.end == w.start + w.start * times else
               w.start == ws[|ws| - 1].end && w.end == w.start + ws[0].start * times
    ensures w.start <= w.end && Issued(ws + [w], blocks + From(w.start, w.end - w.start), times)
  {
    var first := if ws == [] then w.start else ws[0].start;
    assert first * times >= 0;
    if ws != [] {
      FromAppend(first, w.start - first, w.end - w.start);
    } else {
      assert [] + From(w.start, w.end - w.start) == From(w.start, w.end - w.start);
    }
  }

  lemma FromAppend(start: nat, n: nat, k: nat)
    ensures From(start, n) + From(start + n, k) == From(start, n + k)
  {}

  /** The prefetching half of a read-cache file buffer. */
  class Prefetcher {
    const times: uint32              // PrefetchTimes
    var pw: PrefetchWindow
    ghost var windows: seq<Window>   // issued so far
    ghost var blocks: seq<nat>       // the blocks of those windows, in the order in which they were pushed

    /** The current window is the last one issued; every size that Size asserts or truncates is in range. */
    ghost predicate Valid()
      reads this, pw
    {
      && 1 <= times <= MAX_TIMES && Issued(windows, blocks, times as nat)
      && (windows == [] ==> pw.blkStart == 0 && pw.blkEnd == 0)
      && (windows != [] ==>
            var last := windows[|windows| - 1];
            pw.blkStart as nat == last.start && pw.blkEnd as nat == last.end < 0x1000_0000_0000)
    }

    constructor (prefetchTimes: uint32)
      requires 1 <= prefetchTimes <= MAX_TIMES
      ensures Valid() && windows == [] && fresh(pw) && times == prefetchTimes
    {
      times := prefetchTimes;
      pw := new PrefetchWindow(0, 0);
      windows, blocks := [], [];
    }

    static method GetReadWindow(size: uint32, offset: uint64) returns (rw: PrefetchWindow)
      requires 0 < size as nat <= MAX_LEN && offset < 0x8000_0000_0000_0000
      ensures fresh(rw) && rw.blkStart as nat == offset as nat / BLOCK
      ensures rw.blkEnd as nat == (offset as nat + size as nat + BLOCK - 1) / BLOCK
      ensures forall p: nat :: offset as nat <= p < offset as nat + size as nat ==>
              rw.blkStart as nat <= p / BLOCK < rw.blkEnd as nat
      ensures 0 < rw.blkEnd as nat - rw.blkStart as nat <= 513 && rw.blkEnd as nat <= 0x800_0000_0201
    {
      WindowIs(size as nat, offset as nat);
      rw := new PrefetchWindow(offset / BLOCK64, (offset + size as uint64 + BLOCK64 - 1) / BLOCK64);
    }

    /** The blocks of the current window, in order. */
    method Push() returns (issued: seq<nat>)
      requires pw.blkStart <= pw.blkEnd
      ensures issued == From(pw.blkStart as nat, pw.blkEnd as nat - pw.blkStart as nat)
    {
      issued := [];
      var blkStart, blkEnd := pw.blkStart, pw.blkEnd;
      while blkStart < blkEnd
        invariant pw.blkStart <= blkStart <= blkEnd
        invariant issued == From(pw.blkStart as nat, blkStart as nat - pw.blkStart as nat)
      {
        issued := issued + [blkStart as nat];
        blkStart := blkStart + 1;
      }
    }

    /**
     * DoPrefetch: the first read from block 0 opens the window behind itself; from then on a read that touches the
     * window moves it on by its own size; nothing else issues anything.
     */
    method DoPrefetch(size: uint32, offset: uint64) returns (issued: seq<nat>)
      requires Valid() && 0 < size as nat <= MAX_LEN && offset < 0x8000_0000_0000_0000
      modifies this, pw
      ensures Valid() && (pw == old(pw) || fresh(pw)) && blocks == old(blocks) + issued
      ensures windows == old(windows) + Issue(old(windows), offset as nat / BLOCK,
              (offset as nat + size as nat + BLOCK - 1) / BLOCK, times as nat)
      ensures var from, to := offset as nat / BLOCK, (offset as nat + size as nat + BLOCK - 1) / BLOCK;
              var start, end := old(pw.blkStart) as nat, old(pw.blkEnd) as nat;
              issued == if start == end && from == 0 then From(to, to * times as nat)
                        else if from < end && start < to && start < end then From(end, end - start)
                        else []
    {
      var rw := GetReadWindow(size, offset);
      Sizes();
      if rw.blkStart == 0 && pw.Size() == 0 {
        issued := Open(rw);
      } else if rw.Cross(pw) {
        issued := Advance();
      } else {
        issued := [];
      }
    }

    /** The first window lies behind the first read, PrefetchTimes times as long. */
    method Open(rw: PrefetchWindow) returns (issued: seq<nat>)
      requires Valid() && windows == [] && rw.blkStart == 0 && 0 < rw.blkEnd <= 513
      modifies this, rw
      ensures Valid() && pw == rw && blocks == issued
      ensures issued == From(old(rw.blkEnd) as nat, old(rw.blkEnd) as nat * times as nat)
      ensures windows == [Window(old(rw.blkEnd) as nat, old(rw.blkEnd) as nat + old(rw.blkEnd) as nat * times as nat)]
    {
      Bounded(rw.blkEnd as nat, times as nat);
      pw := rw;
      pw.Move();
      pw.Extend(times);
      issued := Push();
      Joined(windows, Window(pw.blkStart as nat, pw.blkEnd as nat), blocks, times as nat);
      windows := [Window(pw.blkStart as nat, pw.blkEnd as nat)];
      blocks := issued;
    }

    /** The next window follows the current one. */
    method Advance() returns (issued: seq<nat>)
      requires Valid() && windows != [] && pw.blkStart < 0x800_0000_0201
      modifies this, pw
      ensures Valid() && pw == old(pw) && blocks == old(blocks) + issued
      ensures issued == From(old(pw.blkEnd) as nat, old(pw.blkEnd) as nat - old(pw.blkStart) as nat)
      ensures var end := old(windows)[|old(windows)| - 1].end;
              windows == old(windows) + [Window(end, end + old(windows)[0].start * times as nat)]
    {
      Bounded(windows[0].start, times as nat);
      pw.Move();
      issued := Push();
      Joined(windows, Window(pw.blkStart as nat, pw.blkEnd as nat), blocks, times as nat);
      windows := windows + [Window(pw.blkStart as nat, pw.blkEnd as nat)];
      blocks := blocks + issued;
    }

    lemma Sizes()
      requires Valid()
      ensures pw.blkStart <= pw.blkEnd && pw.blkEnd - pw.blkStart < 0x1_0000_0000
      ensures windows == [] <==> pw.blkStart == pw.blkEnd
    {
      if windows != [] {
        Bounded(windows[0].start, times as nat);
      }
    }
  }

  lemma WindowIs(size: nat, offset: nat)
    requires 0 < size <= MAX_LEN && offset < 0x8000_0000_0000_0000
    ensures var start, end := offset / BLOCK, (offset + size + BLOCK - 1) / BLOCK;
            && 0 < end - start <= 513 && end <= 0x800_0000_0201
            && forall p: nat :: offset <= p < offset + size ==> start <= p / BLOCK < end
  {}

  lemma Bounded(n: nat, t: nat)
    requires n <= 513 && 1 <= t <= 8_000_000
    ensures n <= n * t <= 513 * 8_000_000
  {
    MulLe(n, 513, t);
    MulLe(1, t, n);
  }

  lemma {:induction false} MulLe(a: nat, b: nat, c: nat)
    requires a <= b
    ensures a * c <= b * c
  {
    if c > 0 { MulLe(a, b, c - 1); }
  }
}
