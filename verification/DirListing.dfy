/**
 * Paged directory listing: a producer goroutine fetches pages into a shared list, the caller takes entries out, and a
 * one-slot channel wakes the caller up.
 */
module DirListing {

  /** Names are compared only with one another and with the empty start key, so their rank stands for them; "" is 0. */
  datatype Dentry = Dentry(name: nat, inode: nat)

  type Listing = seq<Dentry>

  datatype LsStatus = Fetching | LsDone | LsError | UserAbort

  ghost predicate Ordered(all: Listing) {
    && (forall i :: 0 <= i < |all| ==> 0 < all[i].name)
    && (forall i, j :: 0 <= i < j < |all| ==> all[i].name < all[j].name)
  }

  /** What the server has strictly after a key. */
  function After(all: Listing, key: nat): Listing {
    if all == [] || all[0].name > key then all else After(all[1..], key)
  }

  /** One ReadDirEx: at most n entries after the key. */
  function Page(all: Listing, key: nat, n: nat): Listing {
    var rest := After(all, key);
    if |rest| <= n then rest else rest[..n]
  }

  /** The goroutine of Opendir. */
  datatype Producer = Top | Fetch | Got(page: Listing) | Notify(short: bool) | Failing | FailNotify | Exit(short: bool)

  /** The caller's loop around Readdir: inside a call, waiting on the channel, or finished. */
  datatype Consumer = Call(count: nat) | Wait(count: nat) | Finished(failed: bool)

  /** The fields of Dir. */
  datatype Shared = Shared(list: Listing, startKey: nat, status: LsStatus, cacheSize: nat, token: bool) {

    /** The producer's first critical section. */
    predicate Spins() { status != UserAbort && |list| > cacheSize }

    /** Its second one: a page arrives. */
    function Append(page: Listing, lsSize: nat): Shared {
      if |page| < lsSize then this.(list := list + page, status := LsDone)
      else if page == [] then this
      else this.(list := list + page, startKey := page[|page| - 1].name)
    }

    /** Readdir grows the cache size before it looks at anything. */
    function Grow(count: nat): Shared { this.(cacheSize := if count * 2 > cacheSize then count * 2 else cacheSize) }

    predicate Broken() { status == LsError || status == UserAbort }

    predicate MustWait(count: nat) { status == Fetching && |list| < count }

    function Taken(count: nat): Listing { if |list| <= count then list else list[..count] }

    function Left(count: nat): Shared { this.(list := if |list| <= count then [] else list[count..]) }
  }

  /** early: the directory was closed before the caller's loop had ended. */
  datatype D = D(all: Listing, lsSize: nat, s: Shared, p: Producer, c: Consumer, out: Listing, early: bool)

  /** The producer moves; ok says whether the server answers. */
  function ProducerStep(d: D, ok: bool): D {
    match d.p
    case Top =>
      if d.s.status == UserAbort then d.(p := Exit(false)) else if d.s.Spins() then d else d.(p := Fetch)
    case Fetch => d.(p := if ok then Got(Page(d.all, d.s.startKey, d.lsSize)) else Failing)
    case Got(page) => d.(s := d.s.Append(page, d.lsSize), p := Notify(|page| < d.lsSize))
    case Notify(short) => d.(s := d.s.(token := true), p := if short then Exit(true) else Top)
    case Failing => d.(s := d.s.(status := LsError), p := FailNotify)
    case FailNotify => d.(s := d.s.(token := true), p := Exit(false))
    case Exit(_) => d
  }

  /** One round of Readdir's loop; a full answer is followed by the next call, for next entries. */
  function CallStep(d: D, next: nat): D
    requires d.c.Call?
  {
    var n := d.c.count;
    var s := d.s.Grow(n);
    if s.Broken() then d.(s := s, c := Finished(true))
    else if s.status == LsDone && s.list == [] then d.(s := s, c := Finished(false))
    else if s.MustWait(n) then d.(s := s, c := Wait(n))
    else d.(s := s.Left(n), out := d.out + s.Taken(n), c := if |s.Taken(n)| < n then Finished(false) else Call(next))
  }

  function WakeStep(d: D): D
    requires d.c.Wait? && d.s.token
  {
    d.(s := d.s.(token := false), c := Call(d.c.count))
  }

  datatype Act = Produce(ok: bool) | Consume(next: nat) | Close

  predicate Enabled(d: D, a: Act) {
    match a
    case Produce(_) => !d.p.Exit?
    case Consume(next) => next >= 1 && (d.c.Call? || (d.c.Wait? && d.s.token))
    case Close => true
  }

  function Apply(d: D, a: Act): D
    requires Enabled(d, a)
  {
    match a
    case Produce(ok) => ProducerStep(d, ok)
    case Consume(next) => if d.c.Call? then CallStep(d, next) else WakeStep(d)
    case Close => d.(s := d.s.(status := UserAbort), early := d.early || !d.c.Finished?)
  }

  ghost predicate Runs(d: D, acts: seq<Act>, d': D)
    decreases |acts|
  {
    if acts == [] then d' == d else Enabled(d, acts[0]) && Runs(Apply(d, acts[0]), acts[1..], d')
  }

  /** Opendir, and the caller's first Readdir. */
  ghost predicate Start(d: D) {
    && Ordered(d.all) && d.lsSize >= 1 && d.s == Shared([], 0, Fetching, d.lsSize, false)
    && d.p == Top && d.c.Call? && d.c.count >= 1 && d.out == [] && !d.early
  }

  // ---------- nothing lost, nothing twice ----------

  /** The entries that no page has brought yet. */
  function Unfetched(d: D): Listing {
    if d.p == Notify(true) || d.p == Exit(true) then [] else After(d.all, d.s.startKey)
  }

  /** In an ordered directory these are exactly the entries with a greater name, in order. */
  lemma {:induction false} AfterIs(all: Listing, key: nat)
    requires Ordered(all)
    ensures |After(all, key)| <= |all|
    ensures var k := |all| - |After(all, key)|;
            After(all, key) == all[k..] && forall i :: 0 <= i < |all| ==> (all[i].name > key <==> k <= i)
  {
    if all != [] && all[0].name <= key {
      AfterIs(all[1..], key);
      var k := |all| - |After(all[1..], key)|;
      assert all[1..][k - 1..] == all[k..];
      forall i | 0 <= i < |all| ensures all[i].name > key <==> k <= i {
        if i > 0 { assert all[i] == all[1..][i - 1]; }
      }
    }
  }

  /** The page after the last name of a page begins where that page ended. */
  lemma NextPage(all: Listing, key: nat, n: nat)
    requires Ordered(all) && 0 < n <= |After(all, key)|
    ensures After(all, After(all, key)[n - 1].name) == After(all, key)[n..]
  {
    AfterIs(all, key);
    var k := |all| - |After(all, key)|;
    var last := all[k + n - 1];
    AfterIs(all, last.name);
    var j := |all| - |After(all, last.name)|;
    assert all[k..][n..] == all[k + n..];
    assert k + n < |all| ==> all[k + n].name > last.name;
  }

  /** Delivered, queued and unfetched entries, in this order, are the whole directory. */
  ghost predicate ListInv(d: D) {
    && Ordered(d.all) && d.lsSize >= 1
    && (d.p.Got? ==> d.p.page == Page(d.all, d.s.startKey, d.lsSize))
    && d.out + d.s.list + Unfetched(d) == d.all
    && (d.s.status == LsDone ==> Unfetched(d) == [])
    && (d.c == Finished(false) ==> d.out == d.all)
  }

  /** Where the producer is, given the status. */
  ghost predicate StatusInv(d: D) {
    match d.p
    case Notify(true) => d.s.status == LsDone || d.s.status == UserAbort
    case FailNotify => d.s.status == LsError || d.s.status == UserAbort
    case Exit(_) => d.s.status != Fetching
    case _ => d.s.status == Fetching || d.s.status == UserAbort
  }

  // ---------- no lost wakeup ----------

  /**
   * Unless the directory is closed early, nobody aborts the loop, and a waiting caller without a token will get
   * one.
   */
  ghost predicate WakeInv(d: D) {
    && (d.c.Call? || d.c.Wait? ==> d.c.count >= 1)
    && (d.early ==> d.s.status != Fetching)
    && (!d.early && !d.c.Finished? ==> d.s.status != UserAbort)
    && (!d.early && d.c.Wait? && !d.s.token ==>
          !d.p.Exit? && (d.p.Top? ==> d.s.MustWait(d.c.count) && d.c.count * 2 <= d.s.cacheSize))
  }

  ghost predicate Inv(d: D) { ListInv(d) && StatusInv(d) && WakeInv(d) }

  lemma GotShort(d: D)
    requires ListInv(d) && d.p.Got? && |d.p.page| < d.lsSize
    ensures ListInv(ProducerStep(d, true))
  {
    var rest, page := After(d.all, d.s.startKey), d.p.page;
    assert page == rest;
    assert d.out + (d.s.list + page) + [] == d.out + d.s.list + rest;
  }

  lemma GotFull(d: D)
    requires ListInv(d) && d.p.Got? && |d.p.page| >= d.lsSize
    ensures ListInv(ProducerStep(d, true))
  {
    var rest, page := After(d.all, d.s.startKey), d.p.page;
    NextPage(d.all, d.s.startKey, d.lsSize);
    assert page + rest[d.lsSize..] == rest;
    Regroup(d.out, d.s.list, page, rest[d.lsSize..]);
  }

  lemma Regroup(a: Listing, b: Listing, c: Listing, e: Listing)
    ensures a + (b + c) + e == a + b + (c + e)
  {}

  lemma GotKeeps(d: D)
    requires ListInv(d) && d.p.Got?
    ensures ListInv(ProducerStep(d, true))
  {
    if |d.p.page| < d.lsSize { GotShort(d); } else { GotFull(d); }
  }

  lemma ProducerList(d: D, ok: bool)
    requires ListInv(d) && StatusInv(d)
    ensures ListInv(ProducerStep(d, ok))
  {
    if d.p.Got? {
      GotKeeps(d);
    } else {
      var d' := ProducerStep(d, ok);
      assert d'.out == d.out && d'.s.list == d.s.list && Unfetched(d') == Unfetched(d);
    }
  }

  lemma ProducerWake(d: D, ok: bool)
    requires StatusInv(d) && WakeInv(d)
    ensures StatusInv(ProducerStep(d, ok)) && WakeInv(ProducerStep(d, ok))
  {}

  lemma ProducerKeeps(d: D, ok: bool)
    requires Inv(d)
    ensures Inv(ProducerStep(d, ok))
  {
    ProducerList(d, ok);
    ProducerWake(d, ok);
  }

  lemma CallList(d: D, next: nat)
    requires ListInv(d) && StatusInv(d) && d.c.Call?
    ensures ListInv(CallStep(d, next))
  {
    var s := d.s.Grow(d.c.count);
    assert s.list == s.Taken(d.c.count) + s.Left(d.c.count).list;
    assert d.out + s.Taken(d.c.count) + s.Left(d.c.count).list == d.out + s.list;
  }

  lemma CallWake(d: D, next: nat)
    requires StatusInv(d) && WakeInv(d) && d.c.Call? && next >= 1
    ensures StatusInv(CallStep(d, next)) && WakeInv(CallStep(d, next))
  {}

  lemma CallKeeps(d: D, next: nat)
    requires Inv(d) && d.c.Call? && next >= 1
    ensures Inv(CallStep(d, next))
  {
    CallList(d, next);
    CallWake(d, next);
  }

  lemma StepKeeps(d: D, a: Act)
    requires Inv(d) && Enabled(d, a)
    ensures Inv(Apply(d, a))
  {
    match a
    case Produce(ok) => ProducerKeeps(d, ok);
    case Consume(next) => if d.c.Call? { CallKeeps(d, next); }
    case Close =>
  }

  lemma {:induction false} RunKeeps(d: D, acts: seq<Act>, d': D)
    requires Inv(d) && Runs(d, acts, d')
    ensures Inv(d') && d'.all == d.all
    decreases |acts|
  {
    if acts != [] {
      StepKeeps(d, acts[0]);
      RunKeeps(Apply(d, acts[0]), acts[1..], d');
    }
  }

  lemma StartInv(d: D)
    requires Start(d)
    ensures Inv(d)
  {
    assert After(d.all, d.s.startKey) == d.all;
    assert d.out + d.s.list + d.all == d.all;
  }

  /**
   * In every run: delivered, queued and unfetched make up the directory; a loop that ends well has all of it, in
   * order.
   */
  lemma ListingComplete(d0: D, acts: seq<Act>, d: D)
    requires Start(d0) && Runs(d0, acts, d)
    ensures d.out + d.s.list + Unfetched(d) == d0.all
    ensures d.c == Finished(false) ==> d.out == d0.all
  {
    StartInv(d0);
    RunKeeps(d0, acts, d);
  }

  /** The server has answered every request so far, and the caller's loop has not failed. */
  ghost predicate GoodInv(d: D) {
    && (!d.early ==> d.c != Finished(true))
    && d.s.status != LsError && !d.p.Failing? && !d.p.FailNotify?
  }

  lemma GoodStep(d: D, a: Act)
    requires WakeInv(d) && GoodInv(d) && Enabled(d, a) && a != Produce(false)
    ensures GoodInv(Apply(d, a))
  {}

  lemma {:induction false} GoodRun(d: D, acts: seq<Act>, d': D)
    requires Inv(d) && GoodInv(d) && Runs(d, acts, d') && Produce(false) !in acts
    ensures GoodInv(d')
    decreases |acts|
  {
    if acts != [] {
      GoodStep(d, acts[0]);
      StepKeeps(d, acts[0]);
      GoodRun(Apply(d, acts[0]), acts[1..], d');
    }
  }

  /**
   * A listing ends well unless something is wrong: in every run without a failed request and without an early close,
   * the caller's loop does not end with an error, and when it has ended the caller has the whole directory.
   */
  lemma ListingSucceeds(d0: D, acts: seq<Act>, d: D)
    requires Start(d0) && Runs(d0, acts, d) && !d.early && Produce(false) !in acts && d.c.Finished?
    ensures d.c == Finished(false) && d.out == d0.all
  {
    StartInv(d0);
    RunKeeps(d0, acts, d);
    GoodRun(d0, acts, d);
  }

  /** Such a run that can go no further has delivered the whole directory. */
  lemma ListingDelivers(d0: D, acts: seq<Act>, d: D)
    requires Start(d0) && Runs(d0, acts, d) && !d.early && Produce(false) !in acts
    requires forall a :: Enabled(d, a) ==> !Real(d, a)
    ensures d.c == Finished(false) && d.out == d0.all
  {
    if !d.c.Finished? { NeverStuck(d0, acts, d); }
    ListingSucceeds(d0, acts, d);
  }

  /** Steps until the producer sends a token. */
  function SendRank(p: Producer): nat {
    match p
    case Top => 4
    case Fetch => 3
    case Got(_) => 2
    case Failing => 2
    case Notify(_) => 1
    case FailNotify => 1
    case Exit(_) => 0
  }

  /**
   * In every run in which the directory is not closed early, a caller that waits without a token has a producer that is
   * alive and not in its cache-full spin; and whatever the server answers, each step brings that producer nearer to
   * sending the token, at most four away.
   */
  lemma NoLostWakeup(d0: D, acts: seq<Act>, d: D, ok: bool)
    requires Start(d0) && Runs(d0, acts, d) && !d.early && d.c.Wait? && !d.s.token
    ensures Enabled(d, Produce(ok)) && !(d.p.Top? && d.s.Spins())
    ensures var d' := ProducerStep(d, ok); d'.c == d.c && (d'.s.token || SendRank(d'.p) < SendRank(d.p) <= 4)
  {
    StartInv(d0);
    RunKeeps(d0, acts, d);
  }

  // ---------- closing early ----------

  /** The caller waits for a token that nobody will send. */
  predicate Stranded(d: D) {
    d.c.Wait? && !d.s.token && (d.p.Exit? || (d.p.Top? && d.s.status == UserAbort))
  }

  lemma {:induction false} StrandedStays(d: D, acts: seq<Act>, d': D)
    requires Stranded(d) && Runs(d, acts, d')
    ensures Stranded(d')
    decreases |acts|
  {
    if acts != [] {
      StrandedStays(Apply(d, acts[0]), acts[1..], d');
    }
  }

  /** The producer, taking steps with these answers of the server, sends a token. */
  predicate Sends(d: D, oks: seq<bool>)
    decreases |oks|
  {
    d.s.token || (oks != [] && Sends(ProducerStep(d, oks[0]), oks[1..]))
  }

  lemma {:induction false} SendsSoon(d: D, oks: seq<bool>)
    requires !d.s.token ==> 1 <= SendRank(d.p) <= |oks| && !d.p.Top?
    ensures Sends(d, oks)
    decreases |oks|
  {
    if !d.s.token {
      SendsSoon(ProducerStep(d, oks[0]), oks[1..]);
    }
  }

  /**
   * Closing a directory while its reader waits.  If no token is there and the producer is at the top of its loop, every
   * continuation leaves the reader waiting.  Otherwise a token comes within the producer's next three steps, whatever
   * the server answers.
   */
  lemma CloseWhileWaiting(d0: D, acts: seq<Act>, d: D)
    requires Start(d0) && Runs(d0, acts, d) && !d.early && d.c.Wait?
    ensures !d.s.token && d.p.Top? ==> forall more, d' :: Runs(Apply(d, Close), more, d') ==> d'.c.Wait?
    ensures !(!d.s.token && d.p.Top?) ==> forall oks :: |oks| == 3 ==> Sends(Apply(d, Close), oks)
  {
    StartInv(d0);
    RunKeeps(d0, acts, d);
    var d1 := Apply(d, Close);
    if !d.s.token && d.p.Top? {
      forall more, d' | Runs(d1, more, d') ensures d'.c.Wait? { StrandedStays(d1, more, d'); }
    } else {
      forall oks: seq<bool> | |oks| == 3 ensures Sends(d1, oks) { SendsSoon(d1, oks); }
    }
  }

  /** The bad case happens: close right after a first Readdir has found nothing. */
  lemma StrandedReached(d0: D)
    requires Start(d0)
    ensures var d := Apply(Apply(d0, Consume(1)), Close); Runs(d0, [Consume(1), Close], d) && Stranded(d)
  {
    assert [Consume(1), Close][1..] == [Close];
  }

  /** In the other case the woken caller does not wait again. */
  lemma ClosedAnswers(d0: D, acts: seq<Act>, d: D, next: nat)
    requires Start(d0) && Runs(d0, acts, d) && d.early && d.c.Call?
    ensures !CallStep(d, next).c.Wait?
  {
    StartInv(d0);
    RunKeeps(d0, acts, d);
  }

  // ---------- the listing ends ----------

  /** What is still to be done: pages, the producer's way to its next page, tokens and entries to consume. */
  function Measure(d: D): nat {
    6 * (|Unfetched(d)| + if d.p.Top? || d.p.Fetch? || d.p.Got? || d.p == Notify(false) then 1 else 0)
    + (match d.p
       case Top => 3
       case Fetch => 2
       case Got(_) => 1
       case Notify(_) => 6
       case Failing => 4
       case FailNotify => 3
       case Exit(_) => 0)
    + (if d.s.token then 2 else 0)
    + (if d.c.Call? then 1 else 0)
    + 2 * (|d.s.list| + |Unfetched(d)|)
  }

  /** A step that is neither the producer's cache-full spin nor the closing of the directory. */
  predicate Real(d: D, a: Act) { !a.Close? && !(a.Produce? && d.p.Top? && d.s.Spins()) }

  lemma GotDrops(d: D)
    requires ListInv(d) && d.p.Got?
    ensures Measure(ProducerStep(d, true)) < Measure(d)
  {
    if |d.p.page| == d.lsSize {
      NextPage(d.all, d.s.startKey, d.lsSize);
    }
  }

  lemma ProducerDrops(d: D, ok: bool)
    requires !d.p.Exit? && !d.p.Got? && !(d.p.Top? && d.s.Spins())
    ensures Measure(ProducerStep(d, ok)) < Measure(d)
  {
    if d.p != Notify(true) {
      assert |Unfetched(ProducerStep(d, ok))| == |Unfetched(d)|;
    }
  }

  lemma CallDrops(d: D, next: nat)
    requires d.c.Call? && d.c.count >= 1
    ensures Measure(CallStep(d, next)) < Measure(d)
  {
    assert Unfetched(CallStep(d, next)) == Unfetched(d);
  }

  lemma StepDrops(d: D, a: Act)
    requires Inv(d) && Enabled(d, a) && Real(d, a)
    ensures Measure(Apply(d, a)) < Measure(d)
  {
    if a.Produce? {
      if d.p.Got? { GotDrops(d); } else { ProducerDrops(d, a.ok); }
    } else if d.c.Call? {
      CallDrops(d, a.next);
    }
  }

  lemma IdleKeeps(d: D, a: Act)
    requires Enabled(d, a) && !Real(d, a)
    ensures Measure(Apply(d, a)) == Measure(d)
  {}

  ghost function RealSteps(d: D, acts: seq<Act>): nat
    decreases |acts|
  {
    if acts == [] || !Enabled(d, acts[0]) then 0 else
      (if Real(d, acts[0]) then 1 else 0) + RealSteps(Apply(d, acts[0]), acts[1..])
  }

  /** Every step of the run is a real one. */
  ghost predicate AllReal(d: D, acts: seq<Act>)
    decreases |acts|
  {
    acts == [] || (Enabled(d, acts[0]) && Real(d, acts[0]) && AllReal(Apply(d, acts[0]), acts[1..]))
  }

  lemma {:induction false} CountsAll(d: D, acts: seq<Act>)
    requires AllReal(d, acts)
    ensures RealSteps(d, acts) == |acts|
    decreases |acts|
  {
    if acts != [] { CountsAll(Apply(d, acts[0]), acts[1..]); }
  }

  /** The listing ends: no run takes more real steps than its start state's measure. */
  lemma {:induction false} RunsEnd(d: D, acts: seq<Act>, d': D)
    requires Inv(d) && Runs(d, acts, d')
    ensures RealSteps(d, acts) + Measure(d') <= Measure(d)
    ensures AllReal(d, acts) ==> |acts| + Measure(d') <= Measure(d)
    decreases |acts|
  {
    if AllReal(d, acts) { CountsAll(d, acts); }
    if acts != [] {
      if Real(d, acts[0]) { StepDrops(d, acts[0]); } else { IdleKeeps(d, acts[0]); }
      StepKeeps(d, acts[0]);
      RunsEnd(Apply(d, acts[0]), acts[1..], d');
    }
  }

  /** In every run the queue holds at most one page more than the cache size. */
  lemma QueueBounded(d0: D, acts: seq<Act>, d: D)
    requires Start(d0) && Runs(d0, acts, d)
    ensures |d.s.list| <= d.s.cacheSize + d.lsSize
  {
    AheadRun(d0, acts, d);
  }

  /** Beyond its first critical section the producer adds one page to at most cacheSize entries. */
  ghost predicate AheadInv(d: D) {
    && |d.s.list| <= d.s.cacheSize + d.lsSize
    && (d.p.Fetch? || d.p.Got? ==> |d.s.list| <= d.s.cacheSize) && (d.p.Got? ==> |d.p.page| <= d.lsSize)
  }

  lemma {:induction false} AheadRun(d: D, acts: seq<Act>, d': D)
    requires AheadInv(d) && Runs(d, acts, d')
    ensures AheadInv(d')
    decreases |acts|
  {
    if acts != [] { AheadRun(Apply(d, acts[0]), acts[1..], d'); }
  }

  /**
   * The producer asks for the next page exactly when nobody has closed the directory and at most cacheSize entries
   * wait.
   */
  lemma FetchesAhead(d: D, ok: bool)
    requires d.p.Top?
    ensures ProducerStep(d, ok).p.Fetch? <==> d.s.status != UserAbort && |d.s.list| <= d.s.cacheSize
  {}

  /** A directory of two entries, and a caller that wants them one by one. */
  lemma TwoEntries() returns (d: D)
    ensures Start(d) && d.all == [Dentry(1, 7), Dentry(2, 8)] && d.lsSize == 1
  {
    d := D([Dentry(1, 7), Dentry(2, 8)], 1, Shared([], 0, Fetching, 1, false), Top, Call(1), [], false);
  }

  /** And until the caller's loop has ended or the directory is closed, some real step is possible. */
  lemma NeverStuck(d0: D, acts: seq<Act>, d: D)
    requires Start(d0) && Runs(d0, acts, d) && !d.early && !d.c.Finished?
    ensures exists a :: Enabled(d, a) && Real(d, a)
  {
    StartInv(d0);
    RunKeeps(d0, acts, d);
    if d.c.Wait? && !d.s.token {
      assert Enabled(d, Produce(true)) && Real(d, Produce(true));
    } else {
      assert Enabled(d, Consume(1)) && Real(d, Consume(1));
    }
  }

  lemma SplitAt(s: Shared, front: Listing, rest: Listing, count: nat)
    requires front + rest == s.list && (|front| == count || (|front| < count && rest == []))
    ensures s.Taken(count) == front && s.Left(count) == s.(list := rest)
  {
    assert s.list[..|front|] == front && s.list[|front|..] == rest;
  }

  // ---------- Dir as an object: its critical sections ----------

  class Dir {
    var dirList: Listing
    var startKey: nat
    const lsSize: nat
    var lsStatus: LsStatus
    var cacheSize: nat
    var ch: bool               // the one-slot channel holds a token

    ghost function Abs(): Shared
      reads this
    {
      Shared(dirList, startKey, lsStatus, cacheSize, ch)
    }

    constructor (n: nat)
      ensures lsSize == n && Abs() == Shared([], 0, Fetching, n, false)
    {
      dirList, startKey, lsStatus, lsSize, cacheSize, ch := [], 0, Fetching, n, n, false;
    }

    /** A page from the server goes to the end of the list, entry by entry. */
    method Append(page: Listing)
      requires lsSize >= 1
      modifies this
      ensures Abs() == old(Abs()).Append(page, lsSize)
    {
      for i := 0 to |page|
        invariant Abs() == old(Abs()).(list := old(dirList) + page[..i])
      {
        dirList := dirList + [page[i]];
      }
      assert page[..|page|] == page;
      if |page| < lsSize {
        lsStatus := LsDone;
      } else {
        startKey := page[|page| - 1].name;
      }
    }

    /** Notify the reader, if there is room for a token. */
    method Notify()
      modifies this
      ensures Abs() == old(Abs()).(token := true)
    {
      if !ch {
        ch := true;
      }
    }

    /** Entries leave the front of the list one by one. */
    method Take(count: nat) returns (dentrys: Listing)
      modifies `dirList
      ensures dentrys + dirList == old(dirList)
      ensures |dentrys| == if |old(dirList)| < count then |old(dirList)| else count
    {
      dentrys := [];
      while |dentrys| < count && |dirList| > 0
        invariant |dentrys| <= count && dentrys + dirList == old(dirList)
        decreases |dirList|
      {
        dentrys := dentrys + [dirList[0]];
        dirList := dirList[1..];
      }
    }

    /** The critical section of Readdir: an answer, or nothing yet. */
    method TryRead(count: nat) returns (wait: bool, err: bool, dentrys: Listing)
      requires count >= 1
      modifies this
      ensures err <==> old(lsStatus) == LsError || old(lsStatus) == UserAbort
      ensures wait <==> old(lsStatus) == Fetching && |old(dirList)| < count
      ensures wait || err ==> dentrys == [] && dirList == old(dirList)
      ensures !wait && !err ==>
        dentrys + dirList == old(dirList) && |dentrys| == if |old(dirList)| < count then |old(dirList)| else count
      ensures var s := old(Abs()).Grow(count);
              && err == s.Broken() && wait == (!err && s.MustWait(count))
              && (wait || err ==> Abs() == s && dentrys == [])
              && (!wait && !err ==> Abs() == s.Left(count) && dentrys == s.Taken(count))
    {
      if count * 2 > cacheSize {
        cacheSize := count * 2;
      }
      wait, err, dentrys := false, false, [];
      if lsStatus == LsError || lsStatus == UserAbort {
        return false, true, [];
      }
      if lsStatus == LsDone && |dirList| == 0 {
        return false, false, [];
      }
      if lsStatus == Fetching && |dirList| < count {
        return true, false, [];
      }
      dentrys := Take(count);
      SplitAt(old(Abs()).Grow(count), dentrys, dirList, count);
    }
  }
}
