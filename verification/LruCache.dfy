/** The LRU cache with expiry: a recency list and a map into it. */
module LruCache {

  datatype Node<K, V> = Node(key: K, value: V, expiration: int)

  // ---------- what the operations do to the recency list ----------

  /** The first place of a key; the length of the list if it has none. */
  function Find<K(==), V>(l: seq<Node<K, V>>, k: K): nat {
    if l == [] || l[0].key == k then 0 else 1 + Find(l[1..], k)
  }

  lemma {:induction false} FindIs<K, V>(l: seq<Node<K, V>>, k: K, i: nat)
    requires i <= |l| && (i < |l| ==> l[i].key == k) && forall j :: 0 <= j < i ==> l[j].key != k
    ensures Find(l, k) == i
  {
    if i > 0 { FindIs(l[1..], k, i - 1); }
  }

  lemma {:induction false} Found<K, V>(l: seq<Node<K, V>>, k: K)
    ensures Find(l, k) <= |l| && (Find(l, k) < |l| ==> l[Find(l, k)].key == k)
    ensures forall j :: 0 <= j < Find(l, k) ==> l[j].key != k
  {
    if l != [] && l[0].key != k { Found(l[1..], k); }
  }

  predicate Has<K(==), V>(l: seq<Node<K, V>>, k: K) { Find(l, k) < |l| }

  function Drop<T>(l: seq<T>, i: nat): seq<T>
    requires i < |l|
  {
    l[..i] + l[i + 1..]
  }

  function ToFront<K, V>(l: seq<Node<K, V>>, i: nat, n: Node<K, V>): seq<Node<K, V>>
    requires i < |l|
  {
    [n] + Drop(l, i)
  }

  function Trim<T>(l: seq<T>, cap: nat): seq<T> { if |l| > cap then l[..|l| - 1] else l }

  datatype Op<K, V> = Set(k: K, v: V, d: int, now: int) | Get(k: K, now: int) | Remove(k: K)

  /** d is the lifetime of an entry; no lifetime means that it never expires. */
  function Expiration(d: int, now: int): int { if d <= 0 then 0 else now + d }

  predicate Alive<K, V>(n: Node<K, V>, now: int) { n.expiration == 0 || now < n.expiration }

  function Fresh<K, V>(op: Op<K, V>): Node<K, V>
    requires op.Set?
  {
    Node(op.k, op.v, Expiration(op.d, op.now))
  }

  function Do<K(==), V>(l: seq<Node<K, V>>, cap: nat, op: Op<K, V>): seq<Node<K, V>> {
    var i := Find(l, op.k);
    match op
    case Set(_, _, _, _) => if i < |l| then ToFront(l, i, Fresh(op)) else Trim([Fresh(op)] + l, cap)
    case Get(_, now) => if i < |l| && Alive(l[i], now) then ToFront(l, i, l[i]) else l
    case Remove(_) => if i < |l| then Drop(l, i) else l
  }

  datatype Option<T> = None | Some(value: T)

  /** What a Get returns. */
  function Answer<K(==), V>(l: seq<Node<K, V>>, k: K, now: int): Option<V> {
    var i := Find(l, k);
    if i < |l| && Alive(l[i], now) then Some(l[i].value) else None
  }

  function Play<K(==), V>(cap: nat, ops: seq<Op<K, V>>): seq<Node<K, V>> {
    if ops == [] then [] else Do(Play(cap, ops[..|ops| - 1]), cap, ops[|ops| - 1])
  }

  // ---------- keys are unique ----------

  ghost predicate Unique<K, V>(l: seq<Node<K, V>>) { forall i, j :: 0 <= i < j < |l| ==> l[i].key != l[j].key }

  lemma DropUnique<K, V>(l: seq<Node<K, V>>, i: nat, n: Node<K, V>)
    requires Unique(l) && i < |l| && n.key == l[i].key
    ensures Unique(Drop(l, i)) && Unique(ToFront(l, i, n))
  {
    var r, f := Drop(l, i), ToFront(l, i, n);
    forall j | 0 <= j < |r| ensures r[j].key != n.key {
      assert r[j] == if j < i then l[j] else l[j + 1];
    }
    forall j, k | 0 <= j < k < |f| ensures f[j].key != f[k].key {
      assert f[k] == r[k - 1];
      if j > 0 { assert f[j] == r[j - 1]; }
    }
  }

  lemma PushUnique<K, V>(l: seq<Node<K, V>>, cap: nat, n: Node<K, V>)
    requires Unique(l) && Find(l, n.key) == |l|
    ensures Unique(Trim([n] + l, cap))
  {
    Found(l, n.key);
  }

  lemma DoUnique<K, V>(l: seq<Node<K, V>>, cap: nat, op: Op<K, V>)
    requires Unique(l)
    ensures Unique(Do(l, cap, op))
    ensures |l| <= cap && cap >= 1 ==> |Do(l, cap, op)| <= cap
  {
    var i := Find(l, op.k);
    Found(l, op.k);
    if i < |l| {
      DropUnique(l, i, if op.Set? then Fresh(op) else l[i]);
    } else if op.Set? {
      PushUnique(l, cap, Fresh(op));
    }
  }

  // ---------- inclusion ----------

  /** b is a, or a with one more entry somewhere. */
  ghost predicate Includes<T>(a: seq<T>, b: seq<T>) { a == b || exists i :: 0 <= i < |b| && a == Drop(b, i) }

  lemma IncludesAt<T>(a: seq<T>, b: seq<T>, i: nat)
    requires i < |b| && a == Drop(b, i)
    ensures Includes(a, b)
  {}

  /** Dropping two entries, in either order. */
  lemma DropDrop<T>(b: seq<T>, i: nat, j: nat)
    requires i < |b| && j < |b| && i != j
    ensures var j' := if j < i then j else j - 1;
            var i' := if j < i then i - 1 else i;
            j' < |Drop(b, i)| && i' < |Drop(b, j)| && Drop(Drop(b, i), j') == Drop(Drop(b, j), i') &&
                    Drop(b, i)[j'] == b[j]
  {
    var j' := if j < i then j else j - 1;
    var i' := if j < i then i - 1 else i;
    var l, r := Drop(Drop(b, i), j'), Drop(Drop(b, j), i');
    assert |l| == |r| == |b| - 2;
    forall x | 0 <= x < |l| ensures l[x] == r[x] {
      var y, z := if x < j' then x else x + 1, if x < i' then x else x + 1;
      DropAt(Drop(b, i), j', x);
      DropAt(b, i, y);
      DropAt(Drop(b, j), i', x);
      DropAt(b, j, z);
    }
  }

  lemma DropCons<T>(n: T, b: seq<T>, i: nat)
    requires i < |b|
    ensures [n] + Drop(b, i) == Drop([n] + b, i + 1)
  {
    assert ([n] + b)[..i + 1] == [n] + b[..i];
    assert ([n] + b)[i + 2..] == b[i + 1..];
  }

  lemma DropAt<T>(b: seq<T>, i: nat, x: nat)
    requires i < |b| && x + 1 < |b|
    ensures |Drop(b, i)| == |b| - 1 && Drop(b, i)[x] == if x < i then b[x] else b[x + 1]
  {}

  lemma FindGone<K, V>(b: seq<Node<K, V>>, i: nat, k: K)
    requires Unique(b) && i < |b| && b[i].key == k
    ensures Find(Drop(b, i), k) == |b| - 1
  {
    forall x | 0 <= x < |b| - 1 ensures Drop(b, i)[x].key != k { DropAt(b, i, x); }
    FindIs(Drop(b, i), k, |b| - 1);
  }

  lemma FindStays<K, V>(b: seq<Node<K, V>>, i: nat, k: K)
    requires i < |b| && Find(b, k) != i
    ensures var j := Find(b, k); Find(Drop(b, i), k) == if j < i then j else j - 1
  {
    Found(b, k);
    var f := if Find(b, k) < i then Find(b, k) else Find(b, k) - 1;
    forall x | 0 <= x < f ensures Drop(b, i)[x].key != k { DropAt(b, i, x); }
    if f < |b| - 1 { DropAt(b, i, f); }
    FindIs(Drop(b, i), k, f);
  }

  /** Where a key is once entry i is gone. */
  lemma FindDrop<K, V>(b: seq<Node<K, V>>, i: nat, k: K)
    requires Unique(b) && i < |b|
    ensures var j := Find(b, k);
            Find(Drop(b, i), k) == if j == i then |b| - 1 else if j < i then j else j - 1
  {
    Found(b, k);
    if Find(b, k) == i { FindGone(b, i, k); } else { FindStays(b, i, k); }
  }

  /** An entry that both lists have: moved to the front, or removed, in both. */
  lemma BothMove<K, V>(b: seq<Node<K, V>>, i: nat, j: nat, n: Node<K, V>)
    requires i < |b| && j < |b| && i != j
    ensures var j' := if j < i then j else j - 1;
            && j' < |Drop(b, i)| && Drop(b, i)[j'] == b[j]
            && Includes(Drop(Drop(b, i), j'), Drop(b, j)) && Includes(ToFront(Drop(b, i), j', n), ToFront(b, j, n))
  {
    var j' := if j < i then j else j - 1;
    var i' := if j < i then i - 1 else i;
    DropDrop(b, i, j);
    IncludesAt(Drop(Drop(b, i), j'), Drop(b, j), i');
    DropCons(n, Drop(b, j), i');
    IncludesAt(ToFront(Drop(b, i), j', n), ToFront(b, j, n), i' + 1);
  }

  /** A new entry in both lists. */
  lemma BothPush<T>(b: seq<T>, i: nat, c: nat, n: T)
    requires i < |b| <= c + 1
    ensures Includes(Trim([n] + Drop(b, i), c), Trim([n] + b, c + 1))
  {
    if |b| <= c {
      DropCons(n, b, i);
      IncludesAt([n] + Drop(b, i), [n] + b, i + 1);
    } else {
      var b' := [n] + b[..c];
      assert Trim([n] + b, c + 1) == b';
      var at := if i == c then c else i + 1;
      assert Trim([n] + Drop(b, i), c) == Drop(b', at);
      IncludesAt(Drop(b', at), b', at);
    }
  }

  /** A new entry in the smaller list only: the larger one has it as its extra entry. */
  lemma OnePush<T>(a: seq<T>, c: nat, n: T)
    requires |a| <= c
    ensures Includes(Trim([n] + a, c), [n] + a)
  {
    if |a| == c {
      assert Trim([n] + a, c) == Drop([n] + a, c);
      IncludesAt(Trim([n] + a, c), [n] + a, c);
    }
  }

  /** The key is in neither list. */
  lemma DoNeither<K, V>(b: seq<Node<K, V>>, i: nat, c: nat, op: Op<K, V>)
    requires i < |b| <= c + 1 && Find(b, op.k) == |b| && Find(Drop(b, i), op.k) == |b| - 1
    ensures Includes(Do(Drop(b, i), c, op), Do(b, c + 1, op))
  {
    if op.Set? { BothPush(b, i, c, Fresh(op)); } else { IncludesAt(Drop(b, i), b, i); }
  }

  /** The key is the extra entry of the larger list. */
  lemma DoOne<K, V>(b: seq<Node<K, V>>, i: nat, c: nat, op: Op<K, V>)
    requires i < |b| <= c + 1 && Find(b, op.k) == i && Find(Drop(b, i), op.k) == |b| - 1
    ensures Includes(Do(Drop(b, i), c, op), Do(b, c + 1, op))
  {
    var a := Drop(b, i);
    match op
    case Set(_, _, _, _) => OnePush(a, c, Fresh(op));
    case Get(_, now) =>
      IncludesAt(a, b, i);
      assert a == Drop([b[i]] + a, 0);
      IncludesAt(a, [b[i]] + a, 0);
    case Remove(_) =>
  }

  /** The key is in both lists. */
  lemma DoBoth<K, V>(b: seq<Node<K, V>>, i: nat, j: nat, c: nat, op: Op<K, V>)
    requires i < |b| && j < |b| && i != j && Find(b, op.k) == j && Find(Drop(b, i), op.k) == if j < i then j else j - 1
    ensures Includes(Do(Drop(b, i), c, op), Do(b, c + 1, op))
  {
    var a := Drop(b, i);
    match op
    case Set(_, _, _, _) => BothMove(b, i, j, Fresh(op));
    case Get(_, now) => if Alive(b[j], now) { BothMove(b, i, j, b[j]); } else { IncludesAt(a, b, i); }
    case Remove(_) => BothMove(b, i, j, b[j]);
  }

  lemma DoExtra<K, V>(b: seq<Node<K, V>>, i: nat, c: nat, op: Op<K, V>)
    requires Unique(b) && i < |b| <= c + 1
    ensures Includes(Do(Drop(b, i), c, op), Do(b, c + 1, op))
  {
    var j := Find(b, op.k);
    Found(b, op.k);
    FindDrop(b, i, op.k);
    if j == |b| { DoNeither(b, i, c, op); } else if j == i { DoOne(b, i, c, op); } else { DoBoth(b, i, j, c, op); }
  }

  lemma DoIncludes<K, V>(a: seq<Node<K, V>>, b: seq<Node<K, V>>, c: nat, op: Op<K, V>)
    requires Unique(b) && Includes(a, b) && |a| <= c && |b| <= c + 1
    ensures Includes(Do(a, c, op), Do(b, c + 1, op))
  {
    Found(a, op.k);
    if a == b {
      if op.Set? && Find(a, op.k) == |a| { OnePush(a, c, Fresh(op)); }
    } else {
      var i :| 0 <= i < |b| && a == Drop(b, i);
      DoExtra(b, i, c, op);
    }
  }

  lemma {:induction false} PlayOk<K, V>(cap: nat, ops: seq<Op<K, V>>)
    requires cap >= 1
    ensures Unique(Play(cap, ops)) && |Play(cap, ops)| <= cap
  {
    if ops != [] {
      PlayOk(cap, ops[..|ops| - 1]);
      DoUnique(Play(cap, ops[..|ops| - 1]), cap, ops[|ops| - 1]);
    }
  }

  /**
   * Inclusion: after any timed sequence of operations, the cache of capacity c holds what the one of capacity c + 1
   * holds, in the same order and with the same values and expirations, except for at most one entry.
   */
  lemma {:induction false} Inclusion<K, V>(c: nat, ops: seq<Op<K, V>>)
    requires c >= 1
    ensures Includes(Play(c, ops), Play(c + 1, ops))
  {
    if ops != [] {
      var before := ops[..|ops| - 1];
      Inclusion(c, before);
      PlayOk(c, before);
      PlayOk(c + 1, before);
      DoIncludes(Play(c, before), Play(c + 1, before), c, ops[|ops| - 1]);
    }
  }

  lemma AnswerIncludes<K, V>(a: seq<Node<K, V>>, b: seq<Node<K, V>>, k: K, now: int)
    requires Unique(b) && Includes(a, b) && Answer(a, k, now).Some?
    ensures Answer(b, k, now) == Answer(a, k, now)
  {
    if a != b {
      var i :| 0 <= i < |b| && a == Drop(b, i);
      FindDrop(b, i, k);
    }
  }

  lemma HitGrows<K, V>(c: nat, ops: seq<Op<K, V>>, k: K, now: int)
    requires c >= 1 && Answer(Play(c, ops), k, now).Some?
    ensures Answer(Play(c + 1, ops), k, now) == Answer(Play(c, ops), k, now)
  {
    Inclusion(c, ops);
    PlayOk(c + 1, ops);
    AnswerIncludes(Play(c, ops), Play(c + 1, ops), k, now);
  }

  /** Hence a hit in a cache is a hit, with the same value, in every larger one. */
  lemma {:induction false} HitsGrow<K, V>(c: nat, d: nat, ops: seq<Op<K, V>>, k: K, now: int)
    requires 1 <= c <= d && Answer(Play(c, ops), k, now).Some?
    ensures Answer(Play(d, ops), k, now) == Answer(Play(c, ops), k, now)
    decreases d
  {
    if c < d {
      HitsGrow(c, d - 1, ops, k, now);
      HitGrows(d - 1, ops, k, now);
    }
  }

  // ---------- the cache as an object ----------

  // ---------- what a Get answers after each operation ----------

  lemma AnswerCons<K, V>(n: Node<K, V>, l: seq<Node<K, V>>, k: K, t: int)
    ensures Answer([n] + l, k, t) ==
            if k != n.key then Answer(l, k, t) else if Alive(n, t) then Some(n.value) else None
  {
    assert ([n] + l)[1..] == l;
    Found(l, k);
  }

  lemma AnswerDrop<K, V>(l: seq<Node<K, V>>, i: nat, k: K, t: int)
    requires Unique(l) && i < |l|
    ensures Answer(Drop(l, i), k, t) == if k == l[i].key then None else Answer(l, k, t)
  {
    Found(l, k);
    if k == l[i].key {
      FindGone(l, i, k);
    } else {
      FindStays(l, i, k);
      var j := Find(l, k);
      if j < |l| { DropAt(l, i, if j < i then j else j - 1); }
    }
  }

  lemma AnswerTrim<K, V>(l: seq<Node<K, V>>, cap: nat, k: K, t: int)
    requires Unique(l) && 1 <= |l| <= cap + 1
    ensures Answer(Trim(l, cap), k, t) == if |l| > cap && k == l[|l| - 1].key then None else Answer(l, k, t)
  {
    if |l| > cap {
      assert Trim(l, cap) == Drop(l, |l| - 1);
      AnswerDrop(l, |l| - 1, k, t);
    }
  }

  /** A removed key is gone at every time; the others are as before. */
  lemma AfterRemove<K, V>(l: seq<Node<K, V>>, cap: nat, k: K, j: K, t: int)
    requires Unique(l)
    ensures Answer(Do(l, cap, Remove(k)), j, t) == if j == k then None else Answer(l, j, t)
  {
    Found(l, k);
    if Find(l, k) < |l| { AnswerDrop(l, Find(l, k), j, t); }
  }

  /** A Get changes no answer, now or later. */
  lemma AfterGet<K, V>(l: seq<Node<K, V>>, cap: nat, k: K, now: int, j: K, t: int)
    requires Unique(l)
    ensures Answer(Do(l, cap, Get(k, now)), j, t) == Answer(l, j, t)
  {
    Found(l, k);
    var i := Find(l, k);
    if i < |l| && Alive(l[i], now) {
      AnswerCons(l[i], Drop(l, i), j, t);
      AnswerDrop(l, i, j, t);
    }
  }

  /**
   * After a Set the key has the new value until its lifetime is over, forever if it has none (or if it would end at the
   * time 0, which stands for none).  Of the other keys only the oldest goes, and only if there was no room.
   */
  lemma AfterSet<K, V>(l: seq<Node<K, V>>, cap: nat, k: K, v: V, d: int, now: int, j: K, t: int)
    requires Unique(l) && |l| <= cap && cap >= 1
    ensures Answer(Do(l, cap, Set(k, v, d, now)), j, t) ==
            if j == k then (if d <= 0 || now + d == 0 || t < now + d then Some(v) else None)
            else if |l| == cap && (forall i :: 0 <= i < |l| ==> l[i].key != k) && j == l[|l| - 1].key then None
            else Answer(l, j, t)
  {
    var i, n := Find(l, k), Node(k, v, Expiration(d, now));
    Found(l, k);
    if i < |l| {
      AnswerCons(n, Drop(l, i), j, t);
      AnswerDrop(l, i, j, t);
    } else {
      PushUnique(l, |l| + 1, n);
      assert Trim([n] + l, |l| + 1) == [n] + l;
      AnswerCons(n, l, j, t);
      AnswerTrim([n] + l, cap, j, t);
    }
  }

  // ---------- what is in the cache after a whole trace ----------

  /** The entry that the last Set of a key made, unless the key was removed since. */
  ghost function Latest<K, V>(ops: seq<Op<K, V>>, k: K): Option<Node<K, V>> {
    if ops == [] then None else
      var op := ops[|ops| - 1];
      if op.k == k && op.Set? then Some(Fresh(op))
      else if op.k == k && op.Remove? then None
      else Latest(ops[..|ops| - 1], k)
  }

  lemma DoHas<K, V>(l: seq<Node<K, V>>, cap: nat, op: Op<K, V>, n: Node<K, V>)
    requires Unique(l) && n in Do(l, cap, op)
    ensures (op.Set? && n == Fresh(op)) || (n in l && (op.Get? || n.key != op.k))
  {
    var i := Find(l, op.k);
    Found(l, op.k);
    if i < |l| { DropHas(l, i, n); }
  }

  lemma DropHas<K, V>(l: seq<Node<K, V>>, i: nat, n: Node<K, V>)
    requires Unique(l) && i < |l|
    ensures n in Drop(l, i) ==> n in l && n.key != l[i].key
  {
    if n in Drop(l, i) {
      var j :| 0 <= j < |l| - 1 && Drop(l, i)[j] == n;
      DropAt(l, i, j);
    }
  }

  /** Whatever the capacity, the cache holds nothing but latest entries. */
  lemma {:induction false} HoldsLatest<K, V>(cap: nat, ops: seq<Op<K, V>>, n: Node<K, V>)
    requires cap >= 1 && n in Play(cap, ops)
    ensures Latest(ops, n.key) == Some(n)
  {
    var before, op := ops[..|ops| - 1], ops[|ops| - 1];
    PlayOk(cap, before);
    DoHas(Play(cap, before), cap, op, n);
    if !(op.Set? && n == Fresh(op)) { HoldsLatest(cap, before, n); }
  }

  /** So a hit returns the value of the last Set, within its lifetime. */
  lemma HitIsLatest<K, V>(cap: nat, ops: seq<Op<K, V>>, k: K, t: int)
    requires cap >= 1 && Answer(Play(cap, ops), k, t).Some?
    ensures Latest(ops, k).Some? && Alive(Latest(ops, k).value, t)
    ensures Answer(Play(cap, ops), k, t) == Some(Latest(ops, k).value.value)
  {
    var l := Play(cap, ops);
    Found(l, k);
    HoldsLatest(cap, ops, l[Find(l, k)]);
  }

  lemma DoKeeps<K, V>(l: seq<Node<K, V>>, cap: nat, op: Op<K, V>, n: Node<K, V>)
    requires Unique(l) && |l| < cap && (if op.Set? && n.key == op.k then n == Fresh(op) else n in l)
    requires op.Remove? ==> n.key != op.k
    ensures n in Do(l, cap, op)
  {
    var i := Find(l, op.k);
    Found(l, op.k);
    if i < |l| {
      if n in l { DropKeeps(l, i, n); }
    } else if op.Set? {
      assert ([Fresh(op)] + l)[0] == Fresh(op);
      if n in l {
        var j :| 0 <= j < |l| && l[j] == n;
        assert ([Fresh(op)] + l)[j + 1] == n;
      }
    }
  }

  lemma DropKeeps<K, V>(l: seq<Node<K, V>>, i: nat, n: Node<K, V>)
    requires i < |l| && n in l
    ensures n == l[i] || n in Drop(l, i)
  {
    var j :| 0 <= j < |l| && l[j] == n;
    if j < i { DropAt(l, i, j); } else if j > i { DropAt(l, i, j - 1); }
  }

  lemma {:induction false} PlaySize<K, V>(cap: nat, ops: seq<Op<K, V>>)
    ensures |Play(cap, ops)| <= |ops|
  {
    if ops != [] {
      PlaySize(cap, ops[..|ops| - 1]);
      Found(Play(cap, ops[..|ops| - 1]), ops[|ops| - 1].k);
    }
  }

  /** And as long as there is room for all, it holds every latest entry. */
  lemma {:induction false} HoldsAll<K, V>(cap: nat, ops: seq<Op<K, V>>, k: K)
    requires cap >= 1 && |ops| <= cap && Latest(ops, k).Some?
    ensures Latest(ops, k).value in Play(cap, ops) && Latest(ops, k).value.key == k
  {
    var before, op := ops[..|ops| - 1], ops[|ops| - 1];
    PlayOk(cap, before);
    PlaySize(cap, before);
    if !(op.k == k && op.Set?) { HoldsAll(cap, before, k); }
    DoKeeps(Play(cap, before), cap, op, Latest(ops, k).value);
  }

  /** When a key was last used: the number of the last Set of it or Get that found it alive. */
  ghost function LastUse<K, V>(cap: nat, ops: seq<Op<K, V>>, k: K): (i: int)
    ensures -1 <= i < |ops|
  {
    if ops == [] then -1 else
      var before, op := ops[..|ops| - 1], ops[|ops| - 1];
      if op.k == k && (op.Set? || (op.Get? && Answer(Play(cap, before), k, op.now).Some?)) then |ops| - 1
      else LastUse(cap, before, k)
  }

  ghost predicate Recent<K, V>(cap: nat, ops: seq<Op<K, V>>, l: seq<Node<K, V>>) {
    forall i, j :: 0 <= i < j < |l| ==> LastUse(cap, ops, l[i].key) > LastUse(cap, ops, l[j].key)
  }

  lemma RecentDrop<K, V>(cap: nat, ops: seq<Op<K, V>>, l: seq<Node<K, V>>, i: nat)
    requires Recent(cap, ops, l) && i < |l|
    ensures Recent(cap, ops, Drop(l, i))
  {
    var r := Drop(l, i);
    forall x, y | 0 <= x < y < |r| ensures LastUse(cap, ops, r[x].key) > LastUse(cap, ops, r[y].key) {
      DropAt(l, i, x);
      DropAt(l, i, y);
    }
  }

  /** One more op that uses none of the keys, or no op at all, leaves the order as it is. */
  lemma RecentStays<K, V>(cap: nat, ops: seq<Op<K, V>>, op: Op<K, V>, l: seq<Node<K, V>>)
    requires Recent(cap, ops, l)
    requires
      || op.Remove? || (op.Get? && Answer(Play(cap, ops), op.k, op.now).None?)
      || forall i :: 0 <= i < |l| ==> l[i].key != op.k
    ensures Recent(cap, ops + [op], l)
  {
    assert (ops + [op])[..|ops|] == ops;
    forall i | 0 <= i < |l| ensures LastUse(cap, ops + [op], l[i].key) == LastUse(cap, ops, l[i].key) {}
  }

  lemma RecentFront<K, V>(cap: nat, ops: seq<Op<K, V>>, op: Op<K, V>, n: Node<K, V>, l: seq<Node<K, V>>)
    requires Recent(cap, ops, l) && n.key == op.k && forall i :: 0 <= i < |l| ==> l[i].key != op.k
    requires op.Set? || (op.Get? && Answer(Play(cap, ops), op.k, op.now).Some?)
    ensures Recent(cap, ops + [op], [n] + l)
  {
    RecentStays(cap, ops, op, l);
    assert (ops + [op])[..|ops|] == ops;
    var r := [n] + l;
    forall i, j | 0 <= i < j < |r| ensures LastUse(cap, ops + [op], r[i].key) > LastUse(cap, ops + [op], r[j].key) {
      assert r[j] == l[j - 1];
      if i > 0 { assert r[i] == l[i - 1]; }
    }
  }

  lemma RecentDo<K, V>(cap: nat, ops: seq<Op<K, V>>, op: Op<K, V>)
    requires cap >= 1 && Recent(cap, ops, Play(cap, ops))
    ensures Recent(cap, ops + [op], Do(Play(cap, ops), cap, op))
  {
    var l := Play(cap, ops);
    var i := Find(l, op.k);
    PlayOk(cap, ops);
    Found(l, op.k);
    if i < |l| {
      RecentDrop(cap, ops, l, i);
      forall x | 0 <= x < |l| - 1 ensures Drop(l, i)[x].key != op.k { DropAt(l, i, x); }
    }
    if op.Remove? {
      RecentStays(cap, ops, op, if i < |l| then Drop(l, i) else l);
    } else if op.Get? && !(i < |l| && Alive(l[i], op.now)) {
      RecentStays(cap, ops, op, l);
    } else if i < |l| {
      RecentFront(cap, ops, op, if op.Set? then Fresh(op) else l[i], Drop(l, i));
    } else {
      RecentFront(cap, ops, op, Fresh(op), l);
      var r := [Fresh(op)] + l;
      if |r| > cap {
        RecentDrop(cap, ops + [op], r, |r| - 1);
        assert Trim(r, cap) == Drop(r, |r| - 1);
      }
    }
  }

  /** After any trace the entries are in the order of their last use, so what goes is the least recently used. */
  lemma {:induction false} RecencyOrder<K, V>(cap: nat, ops: seq<Op<K, V>>)
    requires cap >= 1
    ensures Recent(cap, ops, Play(cap, ops))
  {
    if ops != [] {
      var before := ops[..|ops| - 1];
      RecencyOrder(cap, before);
      RecentDo(cap, before, ops[|ops| - 1]);
      assert before + [ops[|ops| - 1]] == ops;
    }
  }

  /** A list element with the node it holds. */
  class Element<K, V> {
    const key: K
    var value: V
    var expiration: int

    constructor (k: K, v: V, e: int)
      ensures key == k && value == v && expiration == e
    {
      key, value, expiration := k, v, e;
    }
  }

  ghost function NodeOf<K, V>(e: Element<K, V>): Node<K, V>
    reads e
  {
    Node(e.key, e.value, e.expiration)
  }

  ghost function NodesOf<K, V>(l: seq<Element<K, V>>): (r: seq<Node<K, V>>)
    reads l
    ensures |r| == |l| && forall i :: 0 <= i < |r| ==> r[i] == NodeOf(l[i])
  {
    seq(|l|, i requires 0 <= i < |l| reads l => NodeOf(l[i]))
  }

  lemma NodesDrop<K, V>(l: seq<Element<K, V>>, i: nat)
    requires i < |l|
    ensures NodesOf(Drop(l, i)) == Drop(NodesOf(l), i)
  {}

  lemma NodesFront<K, V>(l: seq<Element<K, V>>, i: nat)
    requires i < |l|
    ensures NodesOf([l[i]] + Drop(l, i)) == ToFront(NodesOf(l), i, NodeOf(l[i]))
  {
    NodesDrop(l, i);
  }

  lemma NodesPush<K, V>(l: seq<Element<K, V>>, el: Element<K, V>, cap: nat)
    ensures NodesOf(Trim([el] + l, cap)) == Trim([NodeOf(el)] + NodesOf(l), cap)
  {
    NodesCons(l, el);
    if |l| + 1 > cap { NodesTake([el] + l, |l|); }
  }

  lemma NodesCons<K, V>(l: seq<Element<K, V>>, el: Element<K, V>)
    ensures NodesOf([el] + l) == [NodeOf(el)] + NodesOf(l)
  {}

  lemma NodesTake<K, V>(l: seq<Element<K, V>>, k: nat)
    requires k <= |l|
    ensures NodesOf(l[..k]) == NodesOf(l)[..k]
  {}

  /** Map and list agree. */
  ghost predicate Agree<K, V>(l: seq<Element<K, V>>, m: map<K, Element<K, V>>) {
    && (forall i, j :: 0 <= i < j < |l| ==> l[i].key != l[j].key)
    && (forall i :: 0 <= i < |l| ==> l[i].key in m && m[l[i].key] == l[i])
    && (forall k :: k in m ==> m[k] in l && m[k].key == k)
  }

  lemma AgreeDrop<K, V>(l: seq<Element<K, V>>, m: map<K, Element<K, V>>, i: nat)
    requires Agree(l, m) && i < |l|
    ensures Agree(Drop(l, i), m - {l[i].key})
  {
    var r, m' := Drop(l, i), m - {l[i].key};
    forall k | k in m' ensures m'[k] in r {
      var j :| 0 <= j < |l| && l[j] == m[k];
      assert r[if j < i then j else j - 1] == m[k];
    }
  }

  lemma AgreeLast<K, V>(l: seq<Element<K, V>>, m: map<K, Element<K, V>>)
    requires Agree(l, m) && l != []
    ensures Agree(l[..|l| - 1], m - {l[|l| - 1].key})
  {
    AgreeDrop(l, m, |l| - 1);
    assert Drop(l, |l| - 1) == l[..|l| - 1];
  }

  lemma AgreePush<K, V>(l: seq<Element<K, V>>, m: map<K, Element<K, V>>, el: Element<K, V>)
    requires Agree(l, m) && el.key !in m
    ensures Agree([el] + l, m[el.key := el])
  {
    var r, m' := [el] + l, m[el.key := el];
    forall k | k in m' ensures m'[k] in r {
      if k != el.key {
        var j :| 0 <= j < |l| && l[j] == m[k];
        assert r[j + 1] == m[k];
      } else {
        assert r[0] == el;
      }
    }
  }

  lemma PushAgrees<K, V>(l: seq<Element<K, V>>, m: map<K, Element<K, V>>, el: Element<K, V>, cap: nat)
    requires Agree(l, m) && el.key !in m && |l| <= cap && cap >= 1
    ensures var l', m' := [el] + l, m[el.key := el];
            |Trim(l', cap)| <= cap && Agree(Trim(l', cap), if |l'| > cap then m' - {l'[|l'| - 1].key} else m')
  {
    AgreePush(l, m, el);
    AgreeLast([el] + l, m[el.key := el]);
  }

  lemma AgreeFront<K, V>(l: seq<Element<K, V>>, m: map<K, Element<K, V>>, i: nat)
    requires Agree(l, m) && i < |l|
    ensures Agree([l[i]] + Drop(l, i), m)
  {
    AgreeDrop(l, m, i);
    AgreePush(Drop(l, i), m - {l[i].key}, l[i]);
    assert (m - {l[i].key})[l[i].key := l[i]] == m;
  }

  lemma FoundAt<K, V>(l: seq<Element<K, V>>, m: map<K, Element<K, V>>, i: nat)
    requires Agree(l, m) && i < |l|
    ensures Find(NodesOf(l), l[i].key) == i
  {
    FindIs(NodesOf(l), l[i].key, i);
  }

  lemma Absent<K, V>(l: seq<Element<K, V>>, m: map<K, Element<K, V>>, k: K)
    requires Agree(l, m) && k !in m
    ensures Find(NodesOf(l), k) == |l|
  {
    forall i | 0 <= i < |l| ensures NodesOf(l)[i].key != k {
      assert l[i].key in m;
    }
    FindIs(NodesOf(l), k, |l|);
  }

  /** Putting another node in front of a moved list. */
  lemma FrontAgain<K, V>(l: seq<Node<K, V>>, i: nat, x: Node<K, V>, n: Node<K, V>)
    requires i < |l|
    ensures ToFront(l, i, x) != [] && [n] + ToFront(l, i, x)[1..] == ToFront(l, i, n)
  {
    assert ToFront(l, i, x)[1..] == Drop(l, i);
  }

  class LRUCache<K(==), V> {
    const capacity: nat
    var dlist: seq<Element<K, V>>
    var cacheMap: map<K, Element<K, V>>

    ghost predicate Valid()
      reads this
    {
      1 <= capacity && |dlist| <= capacity && Agree(dlist, cacheMap)
    }

    constructor (cap: nat)
      requires cap >= 1
      ensures Valid() && capacity == cap && dlist == []
    {
      capacity, dlist, cacheMap := cap, [], map[];
    }

    /** The element's place in the list. */
    method Place(k: K) returns (i: nat)
      requires Valid() && k in cacheMap
      ensures i < |dlist| && dlist[i] == cacheMap[k] && dlist[i].key == k && Find(NodesOf(dlist), k) == i
    {
      i :| 0 <= i < |dlist| && dlist[i] == cacheMap[k];
      FoundAt(dlist, cacheMap, i);
    }

    method MoveToFront(i: nat)
      requires Valid() && i < |dlist|
      modifies `dlist
      ensures Valid() && dlist != [] && dlist[0] == old(dlist)[i]
      ensures NodesOf(dlist) == ToFront(old(NodesOf(dlist)), i, NodeOf(dlist[0]))
    {
      AgreeFront(dlist, cacheMap, i);
      NodesFront(dlist, i);
      dlist := [dlist[i]] + Drop(dlist, i);
    }

    method SetExpire(k: K, v: V, d: int, now: int)
      requires Valid()
      modifies this, dlist
      ensures Valid() && NodesOf(dlist) == Do(old(NodesOf(dlist)), capacity, Set(k, v, d, now))
    {
      var e := Expiration(d, now);
      if k in cacheMap {
        Overwrite(k, v, e);
      } else {
        Insert(k, v, e);
      }
    }

    /** Set of a known key: its element moves to the front and is overwritten in place. */
    method Overwrite(k: K, v: V, e: int)
      requires Valid() && k in cacheMap
      modifies this, dlist
      ensures Valid() && Find(old(NodesOf(dlist)), k) < |old(dlist)|
      ensures NodesOf(dlist) == ToFront(old(NodesOf(dlist)), Find(old(NodesOf(dlist)), k), Node(k, v, e))
    {
      ghost var before := NodesOf(dlist);
      var i := Place(k);
      MoveToFront(i);
      ghost var moved := NodesOf(dlist);
      Update(v, e);
      assert NodesOf(dlist) == [Node(k, v, e)] + moved[1..];
      FrontAgain(before, i, moved[0], Node(k, v, e));
    }

    /** Set of a new key. */
    method Insert(k: K, v: V, e: int)
      requires Valid() && k !in cacheMap
      modifies this
      ensures Valid() && Find(old(NodesOf(dlist)), k) == |old(dlist)|
      ensures NodesOf(dlist) == Trim([Node(k, v, e)] + old(NodesOf(dlist)), capacity)
    {
      Absent(dlist, cacheMap, k);
      var newElement := new Element(k, v, e);
      PushFront(newElement);
    }

    /** A hit on Set overwrites the node in place. */
    method Update(v: V, e: int)
      requires Valid() && dlist != []
      modifies dlist[0]
      ensures Valid() && NodesOf(dlist) == [Node(dlist[0].key, v, e)] + old(NodesOf(dlist))[1..]
    {
      var first := dlist[0];
      first.value := v;
      first.expiration := e;
      forall i | 1 <= i < |dlist| ensures NodeOf(dlist[i]) == old(NodeOf(dlist[i])) {
        assert dlist[i].key != dlist[0].key;
      }
    }

    /** A new element at the front; the last one goes if there are too many. */
    method PushFront(el: Element<K, V>)
      requires Valid() && el.key !in cacheMap
      modifies `dlist, `cacheMap
      ensures Valid() && NodesOf(dlist) == Trim([NodeOf(el)] + old(NodesOf(dlist)), capacity)
    {
      PushAgrees(dlist, cacheMap, el, capacity);
      NodesPush(dlist, el, capacity);
      var list, entries := [el] + dlist, cacheMap[el.key := el];
      if |list| > capacity {
        entries := entries - {list[|list| - 1].key};
        list := list[..|list| - 1];
      }
      dlist, cacheMap := list, entries;
    }

    method Get(k: K, now: int) returns (v: Option<V>)
      requires Valid()
      modifies `dlist
      ensures Valid() && v == Answer(old(NodesOf(dlist)), k, now)
      ensures NodesOf(dlist) == Do(old(NodesOf(dlist)), capacity, Op.Get(k, now))
    {
      if k !in cacheMap {
        Absent(dlist, cacheMap, k);
        return None;
      }
      var i := Place(k);
      var e := dlist[i].expiration;
      if e == 0 || now < e {
        ghost var before := NodesOf(dlist);
        MoveToFront(i);
        v := Some(dlist[0].value);
        assert v == Some(before[i].value);
      } else {
        v := None;
      }
    }

    method Remove(k: K) returns (found: bool)
      requires Valid()
      modifies `dlist, `cacheMap
      ensures Valid() && found == Has(old(NodesOf(dlist)), k)
      ensures NodesOf(dlist) == Do(old(NodesOf(dlist)), capacity, Op.Remove(k))
    {
      found := k in cacheMap;
      if found {
        var i := Place(k);
        AgreeDrop(dlist, cacheMap, i);
        NodesDrop(dlist, i);
        cacheMap := cacheMap - {k};
        dlist := Drop(dlist, i);
      } else {
        Absent(dlist, cacheMap, k);
      }
    }
  }
}
