/** The LRU cache with a time to live (internal/cache/mem_base.go). Times are integers; every reading of the clock
    is at least the one before. */
module LruCache {
  import opened Wrappers
  import WalCodec

  type Key = WalCodec.Bytes

  datatype Kv<T> = Kv(key: Key, value: T, expiresAt: int)

  /** The recency list, most recent first, with the capacity and the time to live; at most 0 turns either off. */
  datatype Lru<T> = Lru(limit: int, ttl: int, ll: seq<Kv<T>>)

  predicate Expired<T>(e: Kv<T>, ttl: int, now: int) { ttl > 0 && now >= e.expiresAt }

  function Touched<T>(e: Kv<T>, ttl: int, now: int): Kv<T> {
    if ttl <= 0 then e else e.(expiresAt := now + ttl)
  }

  /** The cheap sweep: expired entries are dropped from the back, up to the first that is not. */
  function Sweep<T>(ll: seq<Kv<T>>, ttl: int, now: int): (kept: seq<Kv<T>>)
    ensures kept <= ll
  {
    if ll == [] || !Expired(ll[|ll| - 1], ttl, now) then ll else Sweep(ll[..|ll| - 1], ttl, now)
  }

  /** The full purge: every expired entry is dropped. */
  function Purge<T>(ll: seq<Kv<T>>, ttl: int, now: int): seq<Kv<T>> {
    if ll == [] then []
    else Purge(ll[..|ll| - 1], ttl, now) + if Expired(ll[|ll| - 1], ttl, now) then [] else [ll[|ll| - 1]]
  }

  function Keys<T>(ll: seq<Kv<T>>): (ks: seq<Key>)
    ensures |ks| == |ll| && forall i :: 0 <= i < |ll| ==> ks[i] == ll[i].key
  {
    if ll == [] then [] else [ll[0].key] + Keys(ll[1..])
  }

  /** Where `k` is in the list, or its length. */
  function PlaceOf<T>(ll: seq<Kv<T>>, k: Key): (i: nat)
    ensures i <= |ll| && (i < |ll| ==> ll[i].key == k) && forall j :: 0 <= j < i ==> ll[j].key != k
  {
    IndexOf(Keys(ll), k)
  }

  function Without<T>(ll: seq<Kv<T>>, k: Key): seq<Kv<T>> {
    if ll == [] then [] else if ll[0].key == k then ll[1..] else [ll[0]] + Without(ll[1..], k)
  }

  /** Room for one more. */
  function Evicted<T>(ll: seq<Kv<T>>, limit: int): seq<Kv<T>> {
    if limit > 0 && |ll| >= limit then ll[..limit - 1] else ll
  }

  /** When an operation reads the clock: at its sweep, at the expiry check of what it found, at the sweep before
      an insertion, and when it stamps an entry. */
  datatype Times = Times(sweep: int, check: int, insert: int, stamp: int)

  function OnStore<T>(c: Lru<T>, k: Key, v: T, t: Times): Lru<T> {
    var i := PlaceOf(c.ll, k);
    if i < |c.ll|
    then c.(ll := [Touched(c.ll[i].(value := v), c.ttl, t.stamp)] + Without(c.ll, k))
    else c.(ll := [Touched(Kv(k, v, 0), c.ttl, t.stamp)] + Evicted(Sweep(c.ll, c.ttl, t.insert), c.limit))
  }

  function OnSave<T>(c: Lru<T>, k: Key, v: T, fnOk: bool, t: Times): Lru<T> {
    var s := c.(ll := Sweep(c.ll, c.ttl, t.sweep));
    if fnOk then OnStore(s, k, v, t) else s
  }

  /** `load` is what the callback gives. */
  function OnOnce<T>(c: Lru<T>, k: Key, load: Option<T>, t: Times): (Lru<T>, Option<T>) {
    var s := c.(ll := Sweep(c.ll, c.ttl, t.sweep));
    var i := PlaceOf(s.ll, k);
    if i < |s.ll| && !Expired(s.ll[i], c.ttl, t.check)
    then (s.(ll := [Touched(s.ll[i], c.ttl, t.stamp)] + Without(s.ll, k)), Some(s.ll[i].value))
    else
      var m := s.(ll := Without(s.ll, k));
      match load
      case None => (m, None)
      case Some(v) => (OnStore(m, k, v, t), load)
  }

  function OnDelIfOk<T>(c: Lru<T>, k: Key, fnOk: bool, t: Times): Lru<T> {
    var s := c.(ll := Sweep(c.ll, c.ttl, t.sweep));
    if fnOk then s.(ll := Without(s.ll, k)) else s
  }

  // ---------- the ordering invariant ----------

  /** Expiry never increases from front to back. */
  ghost predicate Ordered<T>(ll: seq<Kv<T>>) {
    forall i, j :: 0 <= i < j < |ll| ==> ll[i].expiresAt >= ll[j].expiresAt
  }

  ghost predicate ExpireBy<T>(ll: seq<Kv<T>>, latest: int) {
    forall i :: 0 <= i < |ll| ==> ll[i].expiresAt <= latest
  }

  ghost predicate DistinctKeys<T>(ll: seq<Kv<T>>) {
    forall i, j :: 0 <= i < j < |ll| ==> ll[i].key != ll[j].key
  }

  /** The state of a cache whose clock has last shown `clock`. */
  ghost predicate Sound<T>(c: Lru<T>, clock: int) {
    && DistinctKeys(c.ll)
    && (c.limit > 0 ==> |c.ll| <= c.limit)
    && (c.ttl > 0 ==> Ordered(c.ll) && ExpireBy(c.ll, clock + c.ttl))
  }

  /** On a list in expiry order the sweep of the tail leaves exactly what the full purge would leave. */
  lemma {:induction false} SweepIsPurge<T>(ll: seq<Kv<T>>, ttl: int, now: int)
    requires Ordered(ll)
    ensures Sweep(ll, ttl, now) == Purge(ll, ttl, now)
  {
    if ll != [] {
      if Expired(ll[|ll| - 1], ttl, now) {
        SweepIsPurge(ll[..|ll| - 1], ttl, now);
      } else {
        NothingExpired(ll, ttl, now);
      }
    }
  }

  lemma {:induction false} NothingExpired<T>(ll: seq<Kv<T>>, ttl: int, now: int)
    requires forall e :: e in ll ==> !Expired(e, ttl, now)
    ensures Purge(ll, ttl, now) == ll
  {
    if ll != [] {
      NothingExpired(ll[..|ll| - 1], ttl, now);
    }
  }

  lemma {:induction false} SweepKeeps<T>(ll: seq<Kv<T>>, ttl: int, now: int)
    ensures ttl <= 0 ==> Sweep(ll, ttl, now) == ll
    ensures forall later :: now <= later ==> Sweep(Sweep(ll, ttl, now), ttl, later) == Sweep(ll, ttl, later)
  {
    if ll != [] && Expired(ll[|ll| - 1], ttl, now) {
      SweepKeeps(ll[..|ll| - 1], ttl, now);
    }
  }

  lemma PrefixSound<T>(c: Lru<T>, clock: int, ll: seq<Kv<T>>)
    requires Sound(c, clock) && ll <= c.ll
    ensures Sound(c.(ll := ll), clock)
  {}

  /** What is left after a removal are the other entries, in their order. */
  lemma {:induction false} WithoutHas<T>(ll: seq<Kv<T>>, k: Key, i: nat) returns (j: nat)
    requires DistinctKeys(ll) && i < |Without(ll, k)|
    ensures i <= j < |ll| && Without(ll, k)[i] == ll[j] && ll[j].key != k
    ensures j == if i < PlaceOf(ll, k) then i else i + 1
  {
    if ll[0].key == k {
      j := i + 1;
    } else if i == 0 {
      j := 0;
    } else {
      j := WithoutHas(ll[1..], k, i - 1);
      j := j + 1;
    }
  }

  lemma {:induction false} WithoutLength<T>(ll: seq<Kv<T>>, k: Key)
    ensures |Without(ll, k)| == if PlaceOf(ll, k) < |ll| then |ll| - 1 else |ll|
  {
    if ll != [] && ll[0].key != k {
      WithoutLength(ll[1..], k);
    }
  }

  lemma {:induction false} WithoutSound<T>(c: Lru<T>, clock: int, k: Key)
    requires Sound(c, clock)
    ensures Sound(c.(ll := Without(c.ll, k)), clock)
    ensures PlaceOf(c.ll, k) < |c.ll| ==> |Without(c.ll, k)| < |c.ll|
    ensures forall i :: 0 <= i < |Without(c.ll, k)| ==> Without(c.ll, k)[i].key != k
  {
    hide Without, PlaceOf;
    WithoutLength(c.ll, k);
    var w := Without(c.ll, k);
    forall i | 0 <= i < |w|
      ensures w[i].key != k && w[i] == c.ll[if i < PlaceOf(c.ll, k) then i else i + 1]
    {
      var j := WithoutHas(c.ll, k, i);
    }
  }

  /** An entry stamped no earlier than the clock goes to the front without breaking the order. */
  lemma FrontSound<T>(c: Lru<T>, clock: int, e: Kv<T>, now: int)
    requires Sound(c, clock) && clock <= now
    requires forall i :: 0 <= i < |c.ll| ==> c.ll[i].key != e.key
    requires c.limit > 0 ==> |c.ll| < c.limit
    requires c.ttl > 0 ==> e.expiresAt == now + c.ttl
    ensures Sound(c.(ll := [e] + c.ll), now)
  {
    var ll := [e] + c.ll;
    assert forall i :: 0 < i < |ll| ==> ll[i] == c.ll[i - 1];
  }

  lemma OnStoreSound<T>(c: Lru<T>, clock: int, k: Key, v: T, t: Times)
    requires Sound(c, clock) && clock <= t.insert <= t.stamp
    ensures Sound(OnStore(c, k, v, t), t.stamp)
    ensures PlaceOf(OnStore(c, k, v, t).ll, k) == 0
  {
    var i := PlaceOf(c.ll, k);
    if i < |c.ll| {
      WithoutSound(c, clock, k);
      FrontSound(c.(ll := Without(c.ll, k)), clock, Touched(c.ll[i].(value := v), c.ttl, t.stamp), t.stamp);
    } else {
      var s := Evicted(Sweep(c.ll, c.ttl, t.insert), c.limit);
      assert s <= c.ll;
      PrefixSound(c, clock, s);
      assert forall j :: 0 <= j < |s| ==> s[j] == c.ll[j];
      FrontSound(c.(ll := s), clock, Touched(Kv(k, v, 0), c.ttl, t.stamp), t.stamp);
    }
  }

  ghost predicate InOrder(clock: int, t: Times) {
    clock <= t.sweep <= t.check <= t.insert <= t.stamp
  }

  lemma {:induction false} PurgeSound<T>(c: Lru<T>, clock: int, now: int)
    requires Sound(c, clock)
    ensures Sound(c.(ll := Purge(c.ll, c.ttl, now)), clock)
  {
    TailSweepIsFullPurge(c, clock, now);
    PrefixSound(c, clock, Sweep(c.ll, c.ttl, now));
  }

  // ---------- time and room, written out ----------

  /** The sweep takes expired entries off the back until the last one has time left. */
  lemma {:induction false} SweepExactly<T>(ll: seq<Kv<T>>, ttl: int, now: int)
    ensures var kept := Sweep(ll, ttl, now);
            && kept <= ll
            && (forall i :: |kept| <= i < |ll| ==> ttl > 0 && ll[i].expiresAt <= now)
            && (kept != [] ==> ttl <= 0 || now < kept[|kept| - 1].expiresAt)
  {
    if ll != [] && Expired(ll[|ll| - 1], ttl, now) {
      SweepExactly(ll[..|ll| - 1], ttl, now);
    }
  }

  /** The purge leaves exactly the entries that have time left. */
  lemma {:induction false} PurgeExactly<T>(ll: seq<Kv<T>>, ttl: int, now: int)
    ensures forall e :: e in Purge(ll, ttl, now) <==> e in ll && (ttl <= 0 || now < e.expiresAt)
  {
    if ll != [] {
      PurgeExactly(ll[..|ll| - 1], ttl, now);
      assert ll == ll[..|ll| - 1] + [ll[|ll| - 1]];
    }
  }

  /** What `Once` answers: the entry under the key, at place `i` if there is one, while it has time left, and what the
      callback gives otherwise. */
  lemma OnceAnswers<T>(c: Lru<T>, k: Key, load: Option<T>, t: Times, i: nat)
    requires t.sweep <= t.check && i == PlaceOf(c.ll, k)
    ensures OnOnce(c, k, load, t).1 ==
              if i < |c.ll| && (c.ttl <= 0 || t.check < c.ll[i].expiresAt) then Some(c.ll[i].value) else load
  {
    hide PlaceOf, Sweep, Without, OnStore;
    var kept := Sweep(c.ll, c.ttl, t.sweep);
    SweepExactly(c.ll, c.ttl, t.sweep);
    assert forall j :: 0 <= j < |kept| ==> kept[j] == c.ll[j];
  }

  /** What is stored goes to the front with a full time to live, and no other entry that has time left is lost as long
      as there is room for it. */
  lemma StoreKeepsOthers<T>(c: Lru<T>, k: Key, v: T, t: Times)
    requires DistinctKeys(c.ll)
    ensures var d := OnStore(c, k, v, t);
            && d.ll != [] && d.ll[0].key == k && d.ll[0].value == v
            && (c.ttl > 0 ==> d.ll[0].expiresAt == t.stamp + c.ttl)
            && forall i :: (0 <= i < |c.ll| && c.ll[i].key != k && (c.ttl <= 0 || t.insert < c.ll[i].expiresAt)
                            && (c.limit <= 0 || |c.ll| < c.limit || i < c.limit - 1)) ==> c.ll[i] in d.ll
  {
    hide PlaceOf, Sweep, Without;
    var d := OnStore(c, k, v, t);
    SweepExactly(c.ll, c.ttl, t.insert);
    forall i | 0 <= i < |c.ll| && c.ll[i].key != k && (c.ttl <= 0 || t.insert < c.ll[i].expiresAt)
      && (c.limit <= 0 || |c.ll| < c.limit || i < c.limit - 1)
      ensures c.ll[i] in d.ll
    {
      if PlaceOf(c.ll, k) < |c.ll| {
        OtherStays(c.ll, k, i);
        assert c.ll[i] in d.ll[1..];
      } else {
        var kept := Sweep(c.ll, c.ttl, t.insert);
        assert i < |kept| && kept[i] == c.ll[i];
        assert c.ll[i] in Evicted(kept, c.limit);
      }
    }
  }

  lemma {:induction false} OtherStays<T>(ll: seq<Kv<T>>, k: Key, i: nat)
    requires i < |ll| && ll[i].key != k
    ensures ll[i] in Without(ll, k)
  {
    if ll[0].key == k {
      assert ll[i] == ll[1..][i - 1];
    } else if i > 0 {
      OtherStays(ll[1..], k, i - 1);
    }
  }

  /** The same for every place and every reading of the clock. */
  lemma OnceWrittenOut<T>(c: Lru<T>, clock: int, k: Key, load: Option<T>)
    requires Sound(c, clock)
    ensures forall t: Times, i :: t.sweep <= t.check && 0 <= i < |c.ll| && c.ll[i].key == k ==>
              OnOnce(c, k, load, t).1 ==
              if c.ttl <= 0 || t.check < c.ll[i].expiresAt then Some(c.ll[i].value) else load
    ensures forall t: Times :: t.sweep <= t.check && (forall i :: 0 <= i < |c.ll| ==> c.ll[i].key != k) ==>
              OnOnce(c, k, load, t).1 == load
  {
    hide OnOnce, PlaceOf;
    forall t: Times | t.sweep <= t.check
      ensures OnOnce(c, k, load, t).1 ==
                var p := PlaceOf(c.ll, k);
                if p < |c.ll| && (c.ttl <= 0 || t.check < c.ll[p].expiresAt) then Some(c.ll[p].value) else load
    {
      OnceAnswers(c, k, load, t, PlaceOf(c.ll, k));
    }
  }

  // ---------- operations ----------

  /** What the cache is asked to do, with the outcome of the callback and the readings of the clock. */
  datatype CacheOp<T> =
    | Once(key: Key, load: Option<T>, times: Times)
    | Save(key: Key, value: T, fnOk: bool, times: Times)
    | Del(key: Key)
    | DelIfOk(key: Key, fnOk: bool, times: Times)
    | PurgeAt(now: int)

  function OnOp<T>(c: Lru<T>, op: CacheOp<T>): Lru<T> {
    match op
    case Once(k, load, t) => OnOnce(c, k, load, t).0
    case Save(k, v, fnOk, t) => OnSave(c, k, v, fnOk, t)
    case Del(k) => c.(ll := Without(c.ll, k))
    case DelIfOk(k, fnOk, t) => OnDelIfOk(c, k, fnOk, t)
    case PurgeAt(now) => c.(ll := Purge(c.ll, c.ttl, now))
  }

  /** What the clock shows after an operation that starts when it shows `clock`. */
  function ClockAfter<T>(clock: int, op: CacheOp<T>): int {
    match op
    case Del(_) => clock
    case PurgeAt(now) => now
    case _ => op.times.stamp
  }

  ghost predicate OnTime<T>(clock: int, op: CacheOp<T>) {
    match op
    case Del(_) => true
    case PurgeAt(now) => clock <= now
    case _ => InOrder(clock, op.times)
  }

  /** Every operation keeps the cache sound. */
  lemma OperationSound<T>(c: Lru<T>, clock: int, op: CacheOp<T>)
    requires Sound(c, clock) && OnTime(clock, op)
    ensures Sound(OnOp(c, op), ClockAfter(clock, op))
  {
    hide Without, OnStore, Evicted, Ordered, DistinctKeys, ExpireBy, Sweep, Purge, PlaceOf;
    match op {
      case Del(k) => WithoutSound(c, clock, k);
      case PurgeAt(now) =>
        PurgeSound(c, clock, now);
        LaterSound(OnOp(c, op), clock, now);
      case Once(k, load, t) => OnceSound(c, clock, k, load, t);
      case Save(k, v, fnOk, t) =>
        var s := c.(ll := Sweep(c.ll, c.ttl, t.sweep));
        PrefixSound(c, clock, s.ll);
        LaterSound(s, clock, t.stamp);
        OnStoreSound(s, clock, k, v, t);
      case DelIfOk(k, fnOk, t) =>
        var s := c.(ll := Sweep(c.ll, c.ttl, t.sweep));
        PrefixSound(c, clock, s.ll);
        WithoutSound(s, clock, k);
        LaterSound(s, clock, t.stamp);
        LaterSound(s.(ll := Without(s.ll, k)), clock, t.stamp);
    }
  }

  lemma OnceSound<T>(c: Lru<T>, clock: int, k: Key, load: Option<T>, t: Times)
    requires Sound(c, clock) && InOrder(clock, t)
    ensures Sound(OnOnce(c, k, load, t).0, t.stamp)
  {
    hide Without, OnStore, Evicted, Ordered, DistinctKeys, ExpireBy, Sweep, PlaceOf;
    var s := c.(ll := Sweep(c.ll, c.ttl, t.sweep));
    PrefixSound(c, clock, s.ll);
    WithoutSound(s, clock, k);
    var m := s.(ll := Without(s.ll, k));
    LaterSound(m, clock, t.stamp);
    if load.Some? {
      OnStoreSound(m, clock, k, load.value, t);
    }
    var i := PlaceOf(s.ll, k);
    if i < |s.ll| {
      FrontSound(m, clock, Touched(s.ll[i], c.ttl, t.stamp), t.stamp);
    }
  }

  /** An empty cache after a run of operations. */
  function After<T>(limit: int, ttl: int, ops: seq<CacheOp<T>>): Lru<T> {
    if ops == [] then Lru(limit, ttl, []) else OnOp(After(limit, ttl, ops[..|ops| - 1]), ops[|ops| - 1])
  }

  function ClockAfterAll<T>(start: int, ops: seq<CacheOp<T>>): int {
    if ops == [] then start else ClockAfter(ClockAfterAll(start, ops[..|ops| - 1]), ops[|ops| - 1])
  }

  /** The clock never goes back during the run. */
  ghost predicate AllOnTime<T>(start: int, ops: seq<CacheOp<T>>) {
    ops == [] || (AllOnTime(start, ops[..|ops| - 1]) && OnTime(ClockAfterAll(start, ops[..|ops| - 1]), ops[|ops| - 1]))
  }

  /** Over any run, whatever the callbacks do, the list stays in expiry order, with one entry per key and within
      its limit. */
  lemma {:induction false} RunSound<T>(limit: int, ttl: int, start: int, ops: seq<CacheOp<T>>)
    requires AllOnTime(start, ops)
    ensures Sound(After(limit, ttl, ops), ClockAfterAll(start, ops))
    ensures After(limit, ttl, ops).limit == limit && After(limit, ttl, ops).ttl == ttl
  {
    hide Sound, OnTime;
    if ops == [] {
      EmptySound<T>(limit, ttl, start);
    } else {
      var front := ops[..|ops| - 1];
      RunSound(limit, ttl, start, front);
      OperationSound(After(limit, ttl, front), ClockAfterAll(start, front), ops[|ops| - 1]);
      SameSettings(After(limit, ttl, front), ops[|ops| - 1]);
    }
  }

  lemma EmptySound<T>(limit: int, ttl: int, clock: int)
    ensures Sound<T>(Lru(limit, ttl, []), clock)
  {}

  lemma SameSettings<T>(c: Lru<T>, op: CacheOp<T>)
    ensures OnOp(c, op).limit == c.limit && OnOp(c, op).ttl == c.ttl
  {}

  /** The limit is never exceeded. */
  lemma {:induction false} WithinLimit<T>(limit: int, ttl: int, start: int, ops: seq<CacheOp<T>>)
    requires AllOnTime(start, ops) && limit > 0
    ensures |After(limit, ttl, ops).ll| <= limit
  {
    hide After, AllOnTime, ClockAfterAll;
    RunSound(limit, ttl, start, ops);
  }

  /** After any run and at any instant, the tail sweep would leave exactly what the full purge would leave. */
  lemma {:induction false} SweepIsPurgeOverRuns<T>(limit: int, ttl: int, start: int, ops: seq<CacheOp<T>>, now: int)
    requires AllOnTime(start, ops)
    ensures var ll := After(limit, ttl, ops).ll; Sweep(ll, ttl, now) == Purge(ll, ttl, now)
  {
    hide After, AllOnTime, ClockAfterAll, Sound, Sweep, Purge;
    RunSound(limit, ttl, start, ops);
    TailSweepIsFullPurge(After(limit, ttl, ops), ClockAfterAll(start, ops), now);
  }

  lemma LaterSound<T>(c: Lru<T>, clock: int, later: int)
    requires Sound(c, clock) && clock <= later
    ensures Sound(c, later)
  {}

  /** At any instant between operations, with or without a time to live, the tail sweep would leave exactly what
      the full purge would leave. */
  lemma {:induction false} TailSweepIsFullPurge<T>(c: Lru<T>, clock: int, now: int)
    requires Sound(c, clock)
    ensures Sweep(c.ll, c.ttl, now) == Purge(c.ll, c.ttl, now)
  {
    if c.ttl > 0 {
      SweepIsPurge(c.ll, c.ttl, now);
    } else {
      SweepKeeps(c.ll, c.ttl, now);
      NothingExpired(c.ll, c.ttl, now);
    }
  }

  // ---------- LRU inclusion ----------

  predicate Succeeds<T>(op: CacheOp<T>) {
    match op
    case Once(_, load, _) => load.Some?
    case Save(_, _, fnOk, _) => fnOk
    case DelIfOk(_, fnOk, _) => fnOk
    case _ => true
  }

  /** The same on the keys alone. */
  function Drop(ks: seq<Key>, k: Key): seq<Key> {
    if ks == [] then [] else if ks[0] == k then ks[1..] else [ks[0]] + Drop(ks[1..], k)
  }

  function Access(ks: seq<Key>, k: Key, limit: int): seq<Key> {
    [k] + if k in ks then Drop(ks, k) else if limit > 0 && |ks| >= limit then ks[..limit - 1] else ks
  }

  function KeysAfter<T>(ks: seq<Key>, op: CacheOp<T>, limit: int): seq<Key> {
    match op
    case Once(k, _, _) => Access(ks, k, limit)
    case Save(k, _, _, _) => Access(ks, k, limit)
    case Del(k) => Drop(ks, k)
    case DelIfOk(k, _, _) => Drop(ks, k)
    case PurgeAt(_) => ks
  }

  lemma {:induction false} KeysWithout<T>(ll: seq<Kv<T>>, k: Key)
    ensures Keys(Without(ll, k)) == Drop(Keys(ll), k)
    ensures k in Keys(ll) <==> PlaceOf(ll, k) < |ll|
    ensures PlaceOf(ll, k) == |ll| ==> Without(ll, k) == ll
  {
    if ll != [] {
      KeysWithout(ll[1..], k);
    }
  }

  lemma {:induction false} KeysFront<T>(e: Kv<T>, ll: seq<Kv<T>>)
    ensures Keys([e] + ll) == [e.key] + Keys(ll)
  {
    assert ([e] + ll)[1..] == ll;
  }

  lemma KeysOnStore<T>(c: Lru<T>, k: Key, v: T, t: Times)
    requires c.ttl <= 0
    ensures Keys(OnStore(c, k, v, t).ll) == Access(Keys(c.ll), k, c.limit)
  {
    hide Keys, Without, Drop, Sweep, PlaceOf;
    var i := PlaceOf(c.ll, k);
    SweepKeeps(c.ll, c.ttl, t.insert);
    KeysWithout(c.ll, k);
    if i < |c.ll| {
      KeysFront(Touched(c.ll[i].(value := v), c.ttl, t.stamp), Without(c.ll, k));
    } else {
      KeysFront(Touched(Kv(k, v, 0), c.ttl, t.stamp), Evicted(c.ll, c.limit));
      assert Keys(Evicted(c.ll, c.limit)) ==
             if c.limit > 0 && |c.ll| >= c.limit then Keys(c.ll)[..c.limit - 1] else Keys(c.ll);
    }
  }

  /** What each operation does to the order of the keys when nothing expires and the callback succeeds. */
  lemma KeysOnOp<T>(c: Lru<T>, op: CacheOp<T>)
    requires c.ttl <= 0 && Succeeds(op)
    ensures Keys(OnOp(c, op).ll) == KeysAfter(Keys(c.ll), op, c.limit)
  {
    hide Keys, Without, Drop, Sweep, PlaceOf, Evicted, Purge;
    if op.PurgeAt? {
      NothingExpired(c.ll, c.ttl, op.now);
      return;
    }
    var k := op.key;
    KeysWithout(c.ll, k);
    if !op.Del? {
      SweepKeeps(c.ll, c.ttl, op.times.sweep);
      if op.Once? || op.Save? {
        KeysOnStore(c, k, if op.Once? then op.load.value else op.value, op.times);
      }
      var i := PlaceOf(c.ll, k);
      if op.Once? && i < |c.ll| {
        KeysFront(Touched(c.ll[i], c.ttl, op.times.stamp), Without(c.ll, k));
      }
    }
  }

  lemma {:induction false} DropPrefix(a: seq<Key>, b: seq<Key>, k: Key)
    requires a <= b
    ensures k in a || k !in b ==> Drop(a, k) <= Drop(b, k)
    ensures k !in a ==> a <= Drop(b, k) && Drop(a, k) == a
  {
    if a != [] && a[0] != k {
      DropPrefix(a[1..], b[1..], k);
      assert b[1..] == b[1..][..|b| - 1];
    }
  }

  /** Two runs of the same operations under two limits, side by side. */
  ghost predicate Included<T>(a: Lru<T>, b: Lru<T>, m: int, n: int) {
    && a.ttl == b.ttl == 0 && a.limit == m && b.limit == n
    && Keys(a.ll) <= Keys(b.ll) && |a.ll| <= m && (n > 0 ==> |b.ll| <= n)
  }

  lemma {:induction false} InclusionKept<T>(ops: seq<CacheOp<T>>, m: int, n: int)
    requires 0 < m && (n <= 0 || m <= n) && forall op :: op in ops ==> Succeeds(op)
    ensures Included(After(m, 0, ops), After(n, 0, ops), m, n)
  {
    if ops != [] {
      var front, op := ops[..|ops| - 1], ops[|ops| - 1];
      InclusionKept(front, m, n);
      hide Keys, OnOp, KeysAfter, Succeeds;
      assert op in ops;
      var a, b := After(m, 0, front), After(n, 0, front);
      KeysOnOp(a, op);
      KeysOnOp(b, op);
      SameSettings(a, op);
      SameSettings(b, op);
      if !op.PurgeAt? {
        SmallerPrefix(Keys(a.ll), Keys(b.ll), op, m, n);
      } else {
        PurgedPrefix(Keys(a.ll), Keys(b.ll), op, m, n);
      }
    }
  }

  /** LRU inclusion: with the time to live off and callbacks that succeed, at every point of the same run the
      smaller cache holds, in the same order, the most recent part of what the larger or unlimited one holds. */
  lemma {:induction false} LruInclusion<T>(ops: seq<CacheOp<T>>, m: int, n: int)
    requires 0 < m && (n <= 0 || m <= n) && forall op :: op in ops ==> Succeeds(op)
    ensures Keys(After(m, 0, ops).ll) <= Keys(After(n, 0, ops).ll)
  {
    hide After, Keys, Succeeds;
    InclusionKept(ops, m, n);
  }

  lemma PurgedPrefix<T>(a: seq<Key>, b: seq<Key>, op: CacheOp<T>, m: int, n: int)
    requires a <= b && |a| <= m && (n > 0 ==> |b| <= n) && op.PurgeAt?
    ensures KeysAfter(a, op, m) <= KeysAfter(b, op, n)
    ensures |KeysAfter(a, op, m)| <= m && (n > 0 ==> |KeysAfter(b, op, n)| <= n)
  {}

  lemma {:induction false} DropLength(ks: seq<Key>, k: Key)
    ensures |Drop(ks, k)| == if k in ks then |ks| - 1 else |ks|
  {
    if ks != [] && ks[0] != k {
      DropLength(ks[1..], k);
    }
  }

  lemma SmallerPrefix<T>(a: seq<Key>, b: seq<Key>, op: CacheOp<T>, m: int, n: int)
    requires !op.PurgeAt?
    requires a <= b && 0 < m && (n <= 0 || m <= n) && |a| <= m && (n > 0 ==> |b| <= n)
    ensures KeysAfter(a, op, m) <= KeysAfter(b, op, n)
    ensures |KeysAfter(a, op, m)| <= m && (n > 0 ==> |KeysAfter(b, op, n)| <= n)
  {
    hide Drop;
    DropPrefix(a, b, op.key);
    DropLength(a, op.key);
    DropLength(b, op.key);
  }

  // ---------- the code ----------

  /** A full purge that reads the clock once per entry. */
  function PurgeWith<T>(ll: seq<Kv<T>>, ttl: int, readings: seq<int>): seq<Kv<T>>
    requires |readings| == |ll|
  {
    if ll == [] then []
    else
      var n := |ll| - 1;
      PurgeWith(ll[..n], ttl, readings[..n]) + if Expired(ll[n], ttl, readings[n]) then [] else [ll[n]]
  }

  lemma {:induction false} PurgeAtOneInstant<T>(ll: seq<Kv<T>>, ttl: int, readings: seq<int>, now: int)
    requires |readings| == |ll| && forall i :: 0 <= i < |readings| ==> readings[i] == now
    ensures PurgeWith(ll, ttl, readings) == Purge(ll, ttl, now)
  {
    if ll != [] {
      PurgeAtOneInstant(ll[..|ll| - 1], ttl, readings[..|ll| - 1], now);
    }
  }

  /** Purging a sound cache while the clock stands still is sweeping its tail. */
  lemma {:induction false} SteadyPurge<T>(c: Lru<T>, clock: int, readings: seq<int>, now: int)
    requires Sound(c, clock) && |readings| == |c.ll|
    ensures (forall r :: r in readings ==> r == now) ==> PurgeWith(c.ll, c.ttl, readings) == Sweep(c.ll, c.ttl, now)
  {
    hide Sound, PurgeWith, Purge, Sweep;
    if forall r :: r in readings ==> r == now {
      forall i | 0 <= i < |readings| ensures readings[i] == now {
        assert readings[i] in readings;
      }
      PurgeAtOneInstant(c.ll, c.ttl, readings, now);
      TailSweepIsFullPurge(c, clock, now);
    }
  }

  /** The list and the items map hold the same entries. */
  ghost predicate Agree<T>(items: map<Key, Kv<T>>, ll: seq<Kv<T>>) {
    && (forall i :: 0 <= i < |ll| ==> ll[i].key in items && items[ll[i].key] == ll[i])
    && (forall k :: k in items ==> PlaceOf(ll, k) < |ll|)
  }

  lemma {:induction false} AgreeWithout<T>(items: map<Key, Kv<T>>, ll: seq<Kv<T>>, k: Key)
    requires Agree(items, ll) && DistinctKeys(ll)
    ensures Agree(items - {k}, Without(ll, k))
  {
    hide Without;
    var w := Without(ll, k);
    forall i | 0 <= i < |w| ensures w[i].key in items - {k} && (items - {k})[w[i].key] == w[i] {
      var j := WithoutHas(ll, k, i);
    }
    forall x | x in items - {k} ensures PlaceOf(w, x) < |w| {
      StillThere(ll, k, PlaceOf(ll, x));
    }
  }

  lemma {:induction false} StillThere<T>(ll: seq<Kv<T>>, k: Key, i: nat)
    requires i < |ll| && ll[i].key != k
    ensures PlaceOf(Without(ll, k), ll[i].key) < |Without(ll, k)|
  {
    if ll[0].key == k {
      InList(ll[1..], i - 1);
    } else if i > 0 {
      StillThere(ll[1..], k, i - 1);
    }
  }

  lemma {:induction false} InList<T>(ll: seq<Kv<T>>, i: nat)
    requires i < |ll|
    ensures PlaceOf(ll, ll[i].key) <= i
  {}

  lemma AgreeFront<T>(items: map<Key, Kv<T>>, ll: seq<Kv<T>>, e: Kv<T>)
    requires Agree(items, ll) && forall i :: 0 <= i < |ll| ==> ll[i].key != e.key
    requires e.key !in items
    ensures Agree(items[e.key := e], [e] + ll)
  {
    hide PlaceOf;
    var l := [e] + ll;
    assert forall i :: 0 < i < |l| ==> l[i] == ll[i - 1];
    forall x | x in items[e.key := e] ensures PlaceOf(l, x) < |l| {
      var i := if x == e.key then 0 else PlaceOf(ll, x) + 1;
      assert l[i].key == x;
    }
  }

  lemma AgreeMoved<T>(items: map<Key, Kv<T>>, ll: seq<Kv<T>>, e: Kv<T>)
    requires Agree(items - {e.key}, ll) && forall i :: 0 <= i < |ll| ==> ll[i].key != e.key
    ensures Agree(items[e.key := e], [e] + ll)
  {
    AgreeFront(items - {e.key}, ll, e);
    assert (items - {e.key})[e.key := e] == items[e.key := e];
  }

  lemma {:induction false} BackRemoved<T>(ll: seq<Kv<T>>)
    requires ll != [] && DistinctKeys(ll)
    ensures Without(ll, ll[|ll| - 1].key) == ll[..|ll| - 1]
  {
    if |ll| > 1 {
      BackRemoved(ll[1..]);
    }
  }

  class Cache<T> {
    const limitUnit: int
    const ttl: int
    var ll: seq<Kv<T>>
    var items: map<Key, Kv<T>>
    /** The clock, which never goes back. */
    var clock: int

    function Snapshot(): Lru<T>
      reads this
    {
      Lru(limitUnit, ttl, ll)
    }

    ghost predicate Valid()
      reads this
    {
      Agree(items, ll) && Sound(Snapshot(), clock)
    }

    constructor (limitUnit: int, ttl: int)
      ensures Valid() && Snapshot() == Lru(limitUnit, ttl, [])
    {
      this.limitUnit, this.ttl, ll, items := limitUnit, ttl, [], map[];
    }

    /** `datetime.Now`: time may have passed since the last reading. */
    method Now() returns (now: int)
      modifies this`clock
      ensures old(clock) <= now == clock
    {
      var passed :| passed >= 0;
      clock := clock + passed;
      now := clock;
    }

    method IsExpired(e: Kv<T>) returns (expired: bool)
      modifies this`clock
      ensures old(clock) <= clock && expired == Expired(e, ttl, clock)
      ensures expired <==> ttl > 0 && e.expiresAt <= clock
    {
      if ttl <= 0 {
        return false;
      }
      var now := Now();
      expired := now >= e.expiresAt;
    }

    method Touch(e: Kv<T>) returns (touched: Kv<T>)
      modifies this`clock
      ensures old(clock) <= clock && touched == Touched(e, ttl, clock)
      ensures touched == if ttl > 0 then e.(expiresAt := clock + ttl) else e
    {
      if ttl <= 0 {
        return e;
      }
      var now := Now();
      touched := e.(expiresAt := now + ttl);
    }

    /** Takes one entry out of the list and the map. */
    method Remove(k: Key)
      requires Valid() && k in items
      modifies this`ll, this`items
      ensures Valid() && ll == Without(old(ll), k) && items == old(items) - {k}
    {
      AgreeWithout(items, ll, k);
      WithoutSound(Snapshot(), clock, k);
      ll := Without(ll, k);
      items := items - {k};
    }

    method RemoveBack()
      requires Valid() && ll != []
      modifies this`ll, this`items
      ensures Valid() && ll == old(ll)[..|old(ll)| - 1]
    {
      BackRemoved(ll);
      Remove(ll[|ll| - 1].key);
    }

    method MaybeSweepExpiredTail()
      requires Valid()
      modifies this
      ensures Valid() && old(clock) <= clock && ll == Sweep(old(ll), ttl, clock)
      ensures ll <= old(ll) && (forall i :: |ll| <= i < |old(ll)| ==> ttl > 0 && old(ll)[i].expiresAt <= clock)
      ensures ll != [] ==> ttl <= 0 || clock < ll[|ll| - 1].expiresAt
    {
      hide Agree, DistinctKeys, Ordered, ExpireBy, Sound;
      ghost var start := ll;
      if ttl <= 0 {
        SweepKeeps(ll, ttl, clock);
        SweepExactly(ll, ttl, clock);
        return;
      }
      while ll != []
        invariant Valid() && old(clock) <= clock
        invariant forall later :: clock <= later ==> Sweep(ll, ttl, later) == Sweep(start, ttl, later)
        decreases |ll|
      {
        LaterSoundAlways(Snapshot(), clock);
        var expired := IsExpired(ll[|ll| - 1]);
        if !expired {
          SweepExactly(start, ttl, clock);
          return;
        }
        RemoveBack();
      }
      SweepExactly(start, ttl, clock);
    }

    method EvictLRU()
      requires Valid()
      modifies this`ll, this`items
      ensures Valid() && ll == if old(ll) == [] then [] else old(ll)[..|old(ll)| - 1]
    {
      if ll == [] {
        return;
      }
      RemoveBack();
    }

    /** Puts `e`, just stamped, at the front. */
    method PushFront(e: Kv<T>)
      requires Agree(items - {e.key}, ll) && Sound(Snapshot(), clock)
      requires forall i :: 0 <= i < |ll| ==> ll[i].key != e.key
      requires limitUnit > 0 ==> |ll| < limitUnit
      requires ttl > 0 ==> e.expiresAt == clock + ttl
      modifies this`ll, this`items
      ensures Valid() && ll == [e] + old(ll)
    {
      AgreeMoved(items, ll, e);
      FrontSound(Snapshot(), clock, e, clock);
      items := items[e.key := e];
      ll := [e] + ll;
    }

    /** Touches an entry that is in the list and makes it the most recent. */
    method Promote(k: Key, e: Kv<T>)
      requires Valid() && k in items && e.key == k
      modifies this
      ensures Valid() && old(clock) <= clock && ll == [Touched(e, ttl, clock)] + Without(old(ll), k)
      ensures ll[0].key == k && ll[0].value == e.value && (ttl > 0 ==> ll[0].expiresAt == clock + ttl)
    {
      var touched := Touch(e);
      LaterSound(Snapshot(), old(clock), clock);
      AgreeWithout(items, ll, k);
      WithoutLength(ll, k);
      WithoutSound(Snapshot(), clock, k);
      ll := Without(ll, k);
      PushFront(touched);
    }

    method Store(k: Key, v: T) returns (ghost t: Times)
      requires Valid()
      modifies this
      ensures Valid() && InOrder(old(clock), t) && t.stamp == clock && t.insert >= t.check == old(clock)
      ensures Snapshot() == OnStore(old(Snapshot()), k, v, t)
      ensures ll != [] && ll[0].key == k && ll[0].value == v && (ttl > 0 ==> ll[0].expiresAt == clock + ttl)
      ensures forall i :: (0 <= i < |old(ll)| && old(ll)[i].key != k && (ttl <= 0 || clock < old(ll)[i].expiresAt)
                           && (limitUnit <= 0 || |old(ll)| < limitUnit || i < limitUnit - 1)) ==> old(ll)[i] in ll
    {
      hide Agree, DistinctKeys, Ordered, ExpireBy, Sound, PlaceOf, Without, Sweep;
      ghost var before := Snapshot();
      SoundDistinct(before, clock);
      if k in items {
        FoundInList(items, ll, k);
        Promote(k, items[k].(value := v));
        t := Times(old(clock), old(clock), old(clock), clock);
        StoreKeepsOthers(before, k, v, t);
        return;
      }
      MaybeSweepExpiredTail();
      ghost var swept := clock;
      ghost var list := ll;
      while limitUnit > 0 && |ll| >= limitUnit
        invariant Valid() && clock == swept
        invariant ll <= list && (ll == list || (limitUnit > 0 && |ll| >= limitUnit - 1))
        decreases |ll|
      {
        EvictLRU();
      }
      assert ll == Evicted(list, limitUnit);
      assert forall i :: 0 <= i < |ll| ==> ll[i] == old(ll)[i];
      NotInList(old(items), old(ll), k);
      var e := Touch(Kv(k, v, 0));
      LaterSound(Snapshot(), swept, clock);
      NotInItems(items, ll, k);
      PushFront(e);
      t := Times(old(clock), old(clock), swept, clock);
      StoreKeepsOthers(before, k, v, t);
    }

    /** `fnOk` tells whether the callback succeeds. */
    method SaveIfOk(k: Key, v: T, fnOk: bool) returns (ghost t: Times)
      requires Valid()
      modifies this
      ensures Valid() && InOrder(old(clock), t) && t.stamp == clock
      ensures Snapshot() == OnSave(old(Snapshot()), k, v, fnOk, t)
      ensures fnOk ==> ll != [] && ll[0].key == k && ll[0].value == v && (ttl > 0 ==> ll[0].expiresAt == clock + ttl)
      ensures !fnOk ==> ll <= old(ll)
    {
      MaybeSweepExpiredTail();
      ghost var swept := clock;
      if !fnOk {
        return Times(swept, swept, swept, swept);
      }
      t := Store(k, v);
      t := t.(sweep := swept);
    }

    /** `load` is what the callback would give. */
    method Once(k: Key, load: Option<T>) returns (v: Option<T>, ghost t: Times)
      requires Valid()
      modifies this
      ensures Valid() && InOrder(old(clock), t) && t.stamp == clock
      ensures (Snapshot(), v) == OnOnce(old(Snapshot()), k, load, t)
      ensures forall i :: 0 <= i < |old(ll)| && old(ll)[i].key == k ==>
                v == if ttl <= 0 || t.check < old(ll)[i].expiresAt then Some(old(ll)[i].value) else load
      ensures (forall i :: 0 <= i < |old(ll)| ==> old(ll)[i].key != k) ==> v == load
      ensures v.Some? ==> && ll != [] && ll[0].key == k && ll[0].value == v.value
                          && (ttl > 0 ==> ll[0].expiresAt == clock + ttl)
    {
      hide Agree, DistinctKeys, Ordered, ExpireBy, Sound, PlaceOf, Without, Sweep, Touched, Evicted, Expired;
      ghost var before := Snapshot();
      OnceWrittenOut(before, clock, k, load);
      MaybeSweepExpiredTail();
      ghost var swept := clock;
      NotInList(items, ll, k);
      if k in items {
        FoundInList(items, ll, k);
        var ent := items[k];
        var expired := IsExpired(ent);
        ghost var checked := clock;
        LaterSound(Snapshot(), swept, clock);
        if !expired {
          Promote(k, ent);
          return Some(ent.value), Times(swept, checked, checked, clock);
        }
        Remove(k);
      } else {
        NothingWithout(ll, k);
      }
      ghost var checked := clock;
      if load.None? {
        return None, Times(swept, checked, checked, checked);
      }
      t := Store(k, load.value);
      t := t.(sweep := swept);
      return load, t;
    }

    method Del(k: Key)
      requires Valid()
      modifies this
      ensures Valid() && Snapshot() == old(Snapshot()).(ll := Without(old(ll), k)) && clock == old(clock)
    {
      if k in items {
        Remove(k);
      } else {
        NotInList(items, ll, k);
        NothingWithout(ll, k);
      }
    }

    method DelIfOk(k: Key, fnOk: bool) returns (ghost t: Times)
      requires Valid()
      modifies this
      ensures Valid() && InOrder(old(clock), t) && t.stamp == clock
      ensures Snapshot() == OnDelIfOk(old(Snapshot()), k, fnOk, t)
    {
      MaybeSweepExpiredTail();
      t := Times(clock, clock, clock, clock);
      if fnOk {
        Del(k);
      }
    }

    /** Walks the whole list, reading the clock at every entry. If no time passes on the way, it leaves exactly what
        the sweep of the tail would leave. */
    method PurgeExpired() returns (ghost readings: seq<int>)
      requires Valid()
      modifies this
      ensures (forall r :: r in readings ==> r == clock) ==> ll == Sweep(old(ll), ttl, clock)
      ensures Valid() && |readings| == |old(ll)| && forall r :: r in readings ==> old(clock) <= r <= clock
      ensures ll == PurgeWith(old(ll), ttl, readings)
      ensures forall e :: e in old(ll) && (ttl <= 0 || clock < e.expiresAt) ==> e in ll
      ensures forall e :: e in ll ==> e in old(ll) && (ttl <= 0 || old(clock) < e.expiresAt)
    {
      hide Agree, Sound, Without, Expired, PurgeProgress;
      readings := [];
      ghost var start, n: nat := ll, 0;
      var i := 0;
      PurgeNothing(ll, ttl);
      while i < |ll|
        invariant Valid() && old(clock) <= clock
        invariant PurgeProgress(ll, i, start, n, ttl, readings)
        invariant 0 <= i <= |ll| && n == |readings| <= |start|
        invariant forall r :: r in readings ==> old(clock) <= r <= clock
        decreases |ll| - i
      {
        var e := ll[i];
        LaterSoundAlways(Snapshot(), clock);
        var expired := IsExpired(e);
        PurgeNext(ll, i, start, n, ttl, readings, clock);
        if expired {
          SoundDistinct(Snapshot(), clock);
          MiddleRemoved(ll, i);
          ItemOf(items, ll, i);
          Remove(e.key);
        } else {
          i := i + 1;
        }
        readings := readings + [clock];
        n := n + 1;
      }
      PurgeDone(ll, i, start, n, ttl, readings);
      SteadyPurge(old(Snapshot()), old(clock), readings, clock);
      assert forall j :: 0 <= j < |readings| ==> readings[j] in readings;
      PurgeWithBounds(start, ttl, readings, old(clock), clock);
    }
  }

  /** Of the first `n` entries of `start` those that were not expired are the first `i` of `ll`; the rest is as it
      was. */
  ghost predicate PurgeProgress<T>(ll: seq<Kv<T>>, i: int, start: seq<Kv<T>>, n: int, ttl: int, readings: seq<int>) {
    && 0 <= i <= |ll| && 0 <= n == |readings| <= |start|
    && ll[..i] == PurgeWith(start[..n], ttl, readings) && ll[i..] == start[n..]
  }

  /** Whatever time passes on the way, an entry that outlives the walk stays and one that was expired before it goes. */
  lemma {:induction false} PurgeWithBounds<T>(ll: seq<Kv<T>>, ttl: int, readings: seq<int>, first: int, last: int)
    requires |readings| == |ll| && forall i :: 0 <= i < |readings| ==> first <= readings[i] <= last
    ensures forall e :: e in ll && (ttl <= 0 || last < e.expiresAt) ==> e in PurgeWith(ll, ttl, readings)
    ensures forall e :: e in PurgeWith(ll, ttl, readings) ==> e in ll && (ttl <= 0 || first < e.expiresAt)
  {
    if ll != [] {
      var n := |ll| - 1;
      PurgeWithBounds(ll[..n], ttl, readings[..n], first, last);
      assert ll == ll[..n] + [ll[n]];
    }
  }

  lemma PurgeNothing<T>(ll: seq<Kv<T>>, ttl: int)
    ensures PurgeProgress(ll, 0, ll, 0, ttl, [])
  {}

  lemma PurgeNext<T>(ll: seq<Kv<T>>, i: nat, start: seq<Kv<T>>, n: nat, ttl: int, readings: seq<int>, now: int)
    requires PurgeProgress(ll, i, start, n, ttl, readings) && i < |ll|
    ensures n < |start|
    ensures if Expired(ll[i], ttl, now)
            then PurgeProgress(ll[..i] + ll[i + 1..], i, start, n + 1, ttl, readings + [now])
            else PurgeProgress(ll, i + 1, start, n + 1, ttl, readings + [now])
  {
    hide Expired;
    assert ll[i] == ll[i..][0] == start[n];
    assert start[..n + 1][..n] == start[..n];
    assert (readings + [now])[..n] == readings;
    assert ll[i + 1..] == ll[i..][1..] == start[n..][1..] == start[n + 1..];
  }

  lemma {:induction false} PurgeDone<T>(ll: seq<Kv<T>>, i: nat, start: seq<Kv<T>>, n: nat, ttl: int, readings: seq<int>)
    requires PurgeProgress(ll, i, start, n, ttl, readings) && i == |ll|
    ensures n == |start| && ll == PurgeWith(start, ttl, readings)
  {
    assert |ll[i..]| == |start[n..]|;
    assert start[..n] == start;
    assert ll[..i] == ll;
  }

  lemma SoundDistinct<T>(c: Lru<T>, clock: int)
    requires Sound(c, clock)
    ensures DistinctKeys(c.ll)
  {}

  lemma ItemOf<T>(items: map<Key, Kv<T>>, ll: seq<Kv<T>>, i: nat)
    requires Agree(items, ll) && i < |ll|
    ensures ll[i].key in items
  {}

  lemma {:induction false} MiddleRemoved<T>(ll: seq<Kv<T>>, i: nat)
    requires i < |ll| && DistinctKeys(ll)
    ensures Without(ll, ll[i].key) == ll[..i] + ll[i + 1..]
  {
    if i > 0 {
      MiddleRemoved(ll[1..], i - 1);
    }
  }

  lemma LaterSoundAlways<T>(c: Lru<T>, clock: int)
    requires Sound(c, clock)
    ensures forall later :: clock <= later ==> Sound(c, later)
  {}

  lemma FoundInList<T>(items: map<Key, Kv<T>>, ll: seq<Kv<T>>, k: Key)
    requires Agree(items, ll) && k in items
    ensures PlaceOf(ll, k) < |ll| && items[k] == ll[PlaceOf(ll, k)]
  {}

  lemma NotInList<T>(items: map<Key, Kv<T>>, ll: seq<Kv<T>>, k: Key)
    requires Agree(items, ll)
    ensures k !in items ==> PlaceOf(ll, k) == |ll| && forall i :: 0 <= i < |ll| ==> ll[i].key != k
  {}

  lemma NotInItems<T>(items: map<Key, Kv<T>>, ll: seq<Kv<T>>, k: Key)
    requires Agree(items, ll) && forall i :: 0 <= i < |ll| ==> ll[i].key != k
    ensures k !in items && items - {k} == items
  {}

  lemma {:induction false} NothingWithout<T>(ll: seq<Kv<T>>, k: Key)
    requires PlaceOf(ll, k) == |ll|
    ensures Without(ll, k) == ll
  {
    if ll != [] {
      NothingWithout(ll[1..], k);
    }
  }
}
