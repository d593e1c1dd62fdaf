/** The cache in front of the store (internal/db/adapter.go:64-114, 197-252, 298-302): what a Get answers when some
    writes go through the cache and others do not, and one cache key serves every table. */
module CacheCoherence {
  import opened Wrappers
  import opened WalCodec
  import opened Entities
  import opened LruCache
  import Batching

  /** "kvs:adapter:cache:mem:" in bytes. */
  function CachePrefix(): Bytes {
    [107, 118, 115, 58, 97, 100, 97, 112, 116, 101, 114, 58, 99, 97, 99, 104, 101, 58, 109, 101, 109, 58]
  }

  /** The table has no part in it. */
  function CacheKey(key: Bytes): Key { CachePrefix() + key }

  lemma CacheKeyInjective(a: Bytes, b: Bytes)
    ensures CacheKey(a) == CacheKey(b) <==> a == b
  {
    hide CachePrefix;
    assert CacheKey(a)[|CachePrefix()|..] == a && CacheKey(b)[|CachePrefix()|..] == b;
  }

  // ---------- calls ----------

  /** A call that has been logged. `ok` tells whether the store call succeeded, `load` is what the store would answer
      to a Get, and `times` are the readings of the cache's clock. */
  datatype Call =
    | SetCall(table: Bytes, entity: Entity, ok: bool, times: Times)
    | BulkSetCall(table: Bytes, entities: seq<Entity>)
    | DelCall(table: Bytes, key: Bytes, ok: bool, times: Times)
    | BulkDelCall(table: Bytes, keys: seq<Bytes>, ok: bool)
    | GetCall(table: Bytes, key: Bytes, load: Option<Entity>, times: Times)

  function Evict(c: Lru<Entity>, keys: seq<Bytes>): Lru<Entity> {
    if keys == [] then c else OnOp(Evict(c, keys[..|keys| - 1]), Del(CacheKey(keys[|keys| - 1])))
  }

  /** What a call does to the cache: a bulk set leaves it alone. */
  function OnCache(c: Lru<Entity>, call: Call): Lru<Entity> {
    match call
    case SetCall(_, e, ok, t) => OnOp(c, Save(CacheKey(e.key), e, ok, t))
    case BulkSetCall(_, _) => c
    case DelCall(_, key, ok, t) => OnOp(c, DelIfOk(CacheKey(key), ok, t))
    case BulkDelCall(_, keys, ok) => if ok then Evict(c, keys) else c
    case GetCall(_, key, load, t) => OnOp(c, Once(CacheKey(key), load, t))
  }

  /** What a call does to the rows; the write buffer takes a write even if the flush it triggers fails. */
  function OnRows(rows: Rows, call: Call): Rows {
    match call
    case SetCall(table, e, _, _) => rows[RowKey(table, e.key) := e]
    case BulkSetCall(table, es) => Batching.PutAll(rows, table, es)
    case DelCall(table, key, _, _) => rows - {RowKey(table, key)}
    case BulkDelCall(table, keys, _) => Batching.RemoveAll(rows, table, keys)
    case GetCall(_, _, _, _) => rows
  }

  /** What a Get answers. */
  function Answer(c: Lru<Entity>, call: Call): Option<Entity>
    requires call.GetCall?
  {
    OnOnce(c, CacheKey(call.key), call.load, call.times).1
  }

  function CacheAfter(limit: int, ttl: int, calls: seq<Call>): Lru<Entity> {
    if calls == [] then Lru(limit, ttl, [])
    else OnCache(CacheAfter(limit, ttl, calls[..|calls| - 1]), calls[|calls| - 1])
  }

  function RowsAfter(rows: Rows, calls: seq<Call>): Rows {
    if calls == [] then rows else OnRows(RowsAfter(rows, calls[..|calls| - 1]), calls[|calls| - 1])
  }

  function CallClock(clock: int, call: Call): int {
    match call
    case BulkSetCall(_, _) => clock
    case BulkDelCall(_, _, _) => clock
    case _ => call.times.stamp
  }

  function ClockAfterCalls(start: int, calls: seq<Call>): int {
    if calls == [] then start else CallClock(ClockAfterCalls(start, calls[..|calls| - 1]), calls[|calls| - 1])
  }

  ghost predicate CallOnTime(clock: int, call: Call) {
    call.BulkSetCall? || call.BulkDelCall? || InOrder(clock, call.times)
  }

  /** The clock never goes back during the calls. */
  ghost predicate CallsOnTime(start: int, calls: seq<Call>) {
    calls == [] ||
    var front := calls[..|calls| - 1];
    CallsOnTime(start, front) && CallOnTime(ClockAfterCalls(start, front), calls[|calls| - 1])
  }

  lemma {:induction false} NextOnTime(start: int, calls: seq<Call>, call: Call)
    requires CallsOnTime(start, calls) && CallOnTime(ClockAfterCalls(start, calls), call)
    ensures CallsOnTime(start, calls + [call])
    ensures ClockAfterCalls(start, calls + [call]) == CallClock(ClockAfterCalls(start, calls), call)
  {
    hide CallOnTime, CallClock;
    assert (calls + [call])[..|calls|] == calls;
  }

  lemma {:induction false} NextCall(limit: int, ttl: int, rows: Rows, calls: seq<Call>, call: Call)
    ensures CacheAfter(limit, ttl, calls + [call]) == OnCache(CacheAfter(limit, ttl, calls), call)
    ensures RowsAfter(rows, calls + [call]) == OnRows(RowsAfter(rows, calls), call)
  {
    hide OnCache, OnRows;
    assert (calls + [call])[..|calls|] == calls;
  }

  // ---------- what the cache holds ----------

  /** A value under some key, and when it was last stamped. */
  datatype Sighting<T> = Sighting(value: T, stamp: int)

  function Noted<T>(v: Option<T>, stamp: int): Option<Sighting<T>> {
    if v.Some? then Some(Sighting(v.value, stamp)) else None
  }

  /** What was last stored or answered under `k`, if it has not been dropped since. */
  function Seen<T>(c: Lru<T>, op: CacheOp<T>, before: Option<Sighting<T>>, k: Key): Option<Sighting<T>> {
    match op
    case Once(j, load, t) => if j == k then Noted(OnOnce(c, j, load, t).1, t.stamp) else before
    case Save(j, v, fnOk, t) => if j == k && fnOk then Some(Sighting(v, t.stamp)) else before
    case Del(j) => if j == k then None else before
    case DelIfOk(j, fnOk, _) => if j == k && fnOk then None else before
    case PurgeAt(_) => before
  }

  /** An entry under `k` is what was last seen of it, and expires one time to live after its last stamp. */
  ghost predicate Keeps<T>(c: Lru<T>, ll: seq<Kv<T>>, seen: Option<Sighting<T>>, k: Key) {
    && DistinctKeys(ll)
    && (PlaceOf(ll, k) < |ll| ==>
          && seen.Some? && ll[PlaceOf(ll, k)].value == seen.value.value
          && (c.ttl > 0 ==> ll[PlaceOf(ll, k)].expiresAt == seen.value.stamp + c.ttl))
    && (c.limit <= 0 && c.ttl <= 0 && seen.Some? ==> PlaceOf(ll, k) < |ll|)
  }

  lemma PrefixKeeps<T>(c: Lru<T>, ll: seq<Kv<T>>, seen: Option<Sighting<T>>, k: Key, less: seq<Kv<T>>)
    requires Keeps(c, ll, seen, k) && less <= ll && (c.limit <= 0 && c.ttl <= 0 ==> less == ll)
    ensures Keeps(c, less, seen, k)
  {
    hide PlaceOf;
    assert forall i :: 0 <= i < |less| ==> less[i] == ll[i];
  }

  lemma {:induction false} WithoutKeeps<T>(c: Lru<T>, ll: seq<Kv<T>>, seen: Option<Sighting<T>>, k: Key, j: Key)
    requires Keeps(c, ll, seen, k)
    ensures Keeps(c, Without(ll, j), if j == k then None else seen, k)
    ensures DistinctKeys(Without(ll, j)) && PlaceOf(Without(ll, j), j) == |Without(ll, j)|
  {
    hide Without, PlaceOf;
    WithoutSound(Lru(0, 0, ll), 0, j);
    var w := Without(ll, j);
    if PlaceOf(w, k) < |w| {
      var i := WithoutHas(ll, j, PlaceOf(w, k));
      SamePlace(ll, k, i);
    }
    if j != k && PlaceOf(ll, k) < |ll| {
      StillThere(ll, j, PlaceOf(ll, k));
    }
  }

  lemma SamePlace<T>(ll: seq<Kv<T>>, k: Key, i: nat)
    requires DistinctKeys(ll) && i < |ll| && ll[i].key == k
    ensures PlaceOf(ll, k) == i
  {
    hide PlaceOf;
  }

  lemma FrontKeeps<T>(c: Lru<T>, ll: seq<Kv<T>>, seen: Option<Sighting<T>>, k: Key, e: Kv<T>, now: int)
    requires Keeps(c, ll, seen, k) && PlaceOf(ll, e.key) == |ll| && (c.ttl > 0 ==> e.expiresAt == now + c.ttl)
    ensures Keeps(c, [e] + ll, if e.key == k then Some(Sighting(e.value, now)) else seen, k)
  {
    hide PlaceOf;
    var l := [e] + ll;
    FrontSound(Lru(0, 0, ll), 0, e, 0);
    assert forall i :: 0 < i < |l| ==> l[i] == ll[i - 1];
    if e.key == k {
      SamePlace(l, k, 0);
    } else if PlaceOf(ll, k) < |ll| {
      SamePlace(l, k, PlaceOf(ll, k) + 1);
    } else {
      assert forall i :: 0 <= i < |l| ==> l[i].key != k;
    }
  }

  lemma StoreKeeps<T>(c: Lru<T>, seen: Option<Sighting<T>>, k: Key, j: Key, v: T, t: Times)
    requires Keeps(c, c.ll, seen, k)
    ensures Keeps(c, OnStore(c, j, v, t).ll, if j == k then Some(Sighting(v, t.stamp)) else seen, k)
  {
    hide Keeps, Without, PlaceOf, Sweep;
    var i := PlaceOf(c.ll, j);
    if i < |c.ll| {
      WithoutKeeps(c, c.ll, seen, k, j);
      var s := if j == k then None else seen;
      FrontKeeps(c, Without(c.ll, j), s, k, Touched(c.ll[i].(value := v), c.ttl, t.stamp), t.stamp);
    } else {
      var s := Evicted(Sweep(c.ll, c.ttl, t.insert), c.limit);
      SweepKeeps(c.ll, c.ttl, t.insert);
      PrefixKeeps(c, c.ll, seen, k, s);
      NotInPrefix(c.ll, s, j);
      FrontKeeps(c, s, seen, k, Touched(Kv(j, v, 0), c.ttl, t.stamp), t.stamp);
    }
  }

  lemma NotInPrefix<T>(ll: seq<Kv<T>>, less: seq<Kv<T>>, j: Key)
    requires PlaceOf(ll, j) == |ll| && less <= ll
    ensures PlaceOf(less, j) == |less|
  {
    hide PlaceOf;
    assert forall i :: 0 <= i < |less| ==> less[i] == ll[i];
  }

  /** What a cache holds under a key, if anything, is what was last stored or answered under it; without a limit and a
      time to live it does hold that. */
  lemma OpKeeps<T>(c: Lru<T>, seen: Option<Sighting<T>>, k: Key, op: CacheOp<T>)
    requires Keeps(c, c.ll, seen, k) && !op.PurgeAt?
    ensures Keeps(c, OnOp(c, op).ll, Seen(c, op, seen, k), k)
  {
    hide Keeps, Without, PlaceOf, Sweep, OnStore;
    match op
    case Del(j) => WithoutKeeps(c, c.ll, seen, k, j);
    case DelIfOk(j, fnOk, t) =>
      SweptKeeps(c, seen, k, t.sweep);
      WithoutKeeps(c, Sweep(c.ll, c.ttl, t.sweep), seen, k, j);
    case Save(j, v, fnOk, t) =>
      SweptKeeps(c, seen, k, t.sweep);
      var s := c.(ll := Sweep(c.ll, c.ttl, t.sweep));
      SameSettingsKeep(c, s, s.ll, seen, k);
      StoreKeeps(s, seen, k, j, v, t);
      SameSettingsKeep(s, c, OnStore(s, j, v, t).ll, if j == k then Some(Sighting(v, t.stamp)) else seen, k);
    case Once(j, load, t) => OnceKeeps(c, seen, k, j, load, t);
  }

  lemma SameSettingsKeep<T>(c: Lru<T>, d: Lru<T>, ll: seq<Kv<T>>, seen: Option<Sighting<T>>, k: Key)
    requires Keeps(c, ll, seen, k) && c.limit == d.limit && c.ttl == d.ttl
    ensures Keeps(d, ll, seen, k)
  {}

  lemma {:induction false} SweptKeeps<T>(c: Lru<T>, seen: Option<Sighting<T>>, k: Key, now: int)
    requires Keeps(c, c.ll, seen, k)
    ensures Keeps(c, Sweep(c.ll, c.ttl, now), seen, k)
  {
    hide Keeps, Sweep;
    SweepKeeps(c.ll, c.ttl, now);
    PrefixKeeps(c, c.ll, seen, k, Sweep(c.ll, c.ttl, now));
  }

  lemma OnceKeeps<T>(c: Lru<T>, seen: Option<Sighting<T>>, k: Key, j: Key, load: Option<T>, t: Times)
    requires Keeps(c, c.ll, seen, k)
    ensures Keeps(c, OnOnce(c, j, load, t).0.ll, Seen(c, Once(j, load, t), seen, k), k)
  {
    hide Keeps, Without, PlaceOf, Sweep, OnStore;
    SweptKeeps(c, seen, k, t.sweep);
    var s := c.(ll := Sweep(c.ll, c.ttl, t.sweep));
    var m := s.(ll := Without(s.ll, j));
    var seen' := if j == k then None else seen;
    WithoutKeeps(c, s.ll, seen, k, j);
    var i := PlaceOf(s.ll, j);
    if i < |s.ll| && !Expired(s.ll[i], c.ttl, t.check) {
      FrontKeeps(c, m.ll, seen', k, Touched(s.ll[i], c.ttl, t.stamp), t.stamp);
    } else if load.Some? {
      SameSettingsKeep(c, m, m.ll, seen', k);
      StoreKeeps(m, seen', k, j, load.value, t);
      var here := Some(Sighting(load.value, t.stamp));
      SameSettingsKeep(m, c, OnStore(m, j, load.value, t).ll, if j == k then here else seen', k);
    }
  }

  /** Without a limit, what was last seen of a key is still there for a time to live. */
  ghost predicate Remains<T>(c: Lru<T>, ll: seq<Kv<T>>, seen: Option<Sighting<T>>, k: Key, clock: int) {
    c.limit <= 0 && seen.Some? && (c.ttl <= 0 || clock < seen.value.stamp + c.ttl) ==> PlaceOf(ll, k) < |ll|
  }

  lemma {:induction false} SweptRemains<T>(c: Lru<T>, seen: Option<Sighting<T>>, k: Key, now: int, clock: int,
      later: int)
    requires Keeps(c, c.ll, seen, k) && Remains(c, c.ll, seen, k, clock) && clock <= now <= later
    ensures Remains(c, Sweep(c.ll, c.ttl, now), seen, k, later)
  {
    hide PlaceOf, Sweep;
    SweepExactly(c.ll, c.ttl, now);
    var kept, i := Sweep(c.ll, c.ttl, now), PlaceOf(c.ll, k);
    if c.limit <= 0 && seen.Some? && (c.ttl <= 0 || later < seen.value.stamp + c.ttl) {
      assert i < |kept| && kept[i] == c.ll[i];
    }
  }

  lemma {:induction false} WithoutRemains<T>(c: Lru<T>, ll: seq<Kv<T>>, seen: Option<Sighting<T>>, k: Key, j: Key,
      clock: int)
    requires Remains(c, ll, seen, k, clock)
    ensures Remains(c, Without(ll, j), if j == k then None else seen, k, clock)
  {
    hide Without, PlaceOf;
    if j != k && PlaceOf(ll, k) < |ll| {
      StillThere(ll, j, PlaceOf(ll, k));
    }
  }

  lemma FrontRemains<T>(c: Lru<T>, ll: seq<Kv<T>>, seen: Option<Sighting<T>>, k: Key, e: Kv<T>, clock: int)
    requires Remains(c, ll, if e.key == k then None else seen, k, clock)
    ensures Remains(c, [e] + ll, seen, k, clock)
  {
    hide PlaceOf;
    var l := [e] + ll;
    if PlaceOf(ll, k) < |ll| {
      assert l[PlaceOf(ll, k) + 1].key == k;
    }
    assert l[0].key == e.key;
  }

  lemma StoreRemains<T>(c: Lru<T>, seen: Option<Sighting<T>>, k: Key, j: Key, v: T, t: Times, clock: int)
    requires Keeps(c, c.ll, seen, k) && Remains(c, c.ll, seen, k, clock) && clock <= t.insert <= t.stamp
    ensures Remains(c, OnStore(c, j, v, t).ll, if j == k then Some(Sighting(v, t.stamp)) else seen, k, t.stamp)
  {
    hide Keeps, Remains, Without, PlaceOf, Sweep;
    var now := if j == k then Some(Sighting(v, t.stamp)) else seen;
    var i := PlaceOf(c.ll, j);
    LaterRemains(c, c.ll, seen, k, clock, t.stamp);
    NoneRemains(c, Evicted(Sweep(c.ll, c.ttl, t.insert), c.limit), k, t.stamp);
    if i < |c.ll| {
      WithoutRemains(c, c.ll, seen, k, j, t.stamp);
      FrontRemains(c, Without(c.ll, j), now, k, Touched(c.ll[i].(value := v), c.ttl, t.stamp), t.stamp);
    } else {
      SweptRemains(c, seen, k, t.insert, clock, t.stamp);
      var s := Evicted(Sweep(c.ll, c.ttl, t.insert), c.limit);
      LimitedRemains(c, s, seen, k, t.stamp);
      FrontRemains(c, s, now, k, Touched(Kv(j, v, 0), c.ttl, t.stamp), t.stamp);
    }
  }

  lemma NoneRemains<T>(c: Lru<T>, ll: seq<Kv<T>>, k: Key, clock: int)
    ensures Remains(c, ll, None, k, clock)
  {}

  lemma LimitedRemains<T>(c: Lru<T>, ll: seq<Kv<T>>, seen: Option<Sighting<T>>, k: Key, clock: int)
    ensures c.limit > 0 ==> Remains(c, ll, seen, k, clock)
  {}

  lemma LaterRemains<T>(c: Lru<T>, ll: seq<Kv<T>>, seen: Option<Sighting<T>>, k: Key, clock: int, later: int)
    requires Remains(c, ll, seen, k, clock) && clock <= later
    ensures Remains(c, ll, seen, k, later)
  {}

  lemma SameSettingsRemain<T>(c: Lru<T>, d: Lru<T>, ll: seq<Kv<T>>, seen: Option<Sighting<T>>, k: Key, clock: int)
    requires Remains(c, ll, seen, k, clock) && c.limit == d.limit && c.ttl == d.ttl
    ensures Remains(d, ll, seen, k, clock)
  {}

  /** Without a limit no operation loses what has been seen of a key before a time to live has passed. */
  lemma OpRemains<T>(c: Lru<T>, seen: Option<Sighting<T>>, k: Key, op: CacheOp<T>, clock: int)
    requires Keeps(c, c.ll, seen, k) && Remains(c, c.ll, seen, k, clock) && OnTime(clock, op) && !op.PurgeAt?
    ensures Remains(c, OnOp(c, op).ll, Seen(c, op, seen, k), k, ClockAfter(clock, op))
  {
    hide Keeps, Remains, Without, PlaceOf, Sweep, OnStore;
    match op
    case Del(j) => WithoutRemains(c, c.ll, seen, k, j, clock);
    case DelIfOk(j, fnOk, t) =>
      SweptRemains(c, seen, k, t.sweep, clock, t.stamp);
      WithoutRemains(c, Sweep(c.ll, c.ttl, t.sweep), seen, k, j, t.stamp);
    case Save(j, v, fnOk, t) =>
      SweptRemains(c, seen, k, t.sweep, clock, t.stamp);
      SweptRemains(c, seen, k, t.sweep, clock, t.sweep);
      SweptKeeps(c, seen, k, t.sweep);
      var s := c.(ll := Sweep(c.ll, c.ttl, t.sweep));
      SameSettingsKeep(c, s, s.ll, seen, k);
      SameSettingsRemain(c, s, s.ll, seen, k, t.sweep);
      StoreRemains(s, seen, k, j, v, t, t.sweep);
      var now := if j == k then Some(Sighting(v, t.stamp)) else seen;
      SameSettingsRemain(s, c, OnStore(s, j, v, t).ll, now, k, t.stamp);
    case Once(j, load, t) => OnceRemains(c, seen, k, j, load, t, clock);
  }

  lemma OnceRemains<T>(c: Lru<T>, seen: Option<Sighting<T>>, k: Key, j: Key, load: Option<T>, t: Times, clock: int)
    requires Keeps(c, c.ll, seen, k) && Remains(c, c.ll, seen, k, clock) && InOrder(clock, t)
    ensures Remains(c, OnOnce(c, j, load, t).0.ll, Seen(c, Once(j, load, t), seen, k), k, t.stamp)
  {
    hide Keeps, Remains, Without, PlaceOf, Sweep, OnStore;
    SweptKeeps(c, seen, k, t.sweep);
    SweptRemains(c, seen, k, t.sweep, clock, t.sweep);
    var s := c.(ll := Sweep(c.ll, c.ttl, t.sweep));
    var m := s.(ll := Without(s.ll, j));
    var gone := if j == k then None else seen;
    WithoutKeeps(c, s.ll, seen, k, j);
    WithoutRemains(c, s.ll, seen, k, j, t.sweep);
    LaterRemains(c, m.ll, gone, k, t.sweep, t.stamp);
    var i := PlaceOf(s.ll, j);
    if i < |s.ll| && !Expired(s.ll[i], c.ttl, t.check) {
      var now := if j == k then Some(Sighting(s.ll[i].value, t.stamp)) else seen;
      FrontRemains(c, m.ll, now, k, Touched(s.ll[i], c.ttl, t.stamp), t.stamp);
    } else if load.Some? {
      SameSettingsKeep(c, m, m.ll, gone, k);
      SameSettingsRemain(c, m, m.ll, gone, k, t.sweep);
      StoreRemains(m, gone, k, j, load.value, t, t.sweep);
      var now := if j == k then Some(Sighting(load.value, t.stamp)) else gone;
      SameSettingsRemain(m, c, OnStore(m, j, load.value, t).ll, now, k, t.stamp);
    }
  }

  // ---------- what a Get answers ----------

  /** What the last successful Set or the last Get of `key`, in whatever table, said and when, unless a successful
      delete of it followed. */
  function LastSighting(limit: int, ttl: int, calls: seq<Call>, key: Bytes): Option<Sighting<Entity>> {
    if calls == [] then None
    else
      var front, call := calls[..|calls| - 1], calls[|calls| - 1];
      var before := LastSighting(limit, ttl, front, key);
      match call
      case SetCall(_, e, ok, t) => if ok && e.key == key then Some(Sighting(e, t.stamp)) else before
      case BulkSetCall(_, _) => before
      case DelCall(_, j, ok, _) => if ok && j == key then None else before
      case BulkDelCall(_, keys, ok) => if ok && key in keys then None else before
      case GetCall(_, j, _, t) =>
        if j == key then Noted(Answer(CacheAfter(limit, ttl, front), call), t.stamp) else before
  }

  function LastSeen(limit: int, ttl: int, calls: seq<Call>, key: Bytes): Option<Entity> {
    match LastSighting(limit, ttl, calls, key)
    case Some(s) => Some(s.value)
    case None => None
  }

  lemma {:induction false} EvictKeeps(c: Lru<Entity>, seen: Option<Sighting<Entity>>, key: Bytes, keys: seq<Bytes>)
    requires Keeps(c, c.ll, seen, CacheKey(key))
    ensures Keeps(c, Evict(c, keys).ll, if key in keys then None else seen, CacheKey(key))
    ensures Evict(c, keys).limit == c.limit && Evict(c, keys).ttl == c.ttl
  {
    hide Keeps, Without, CacheKey;
    if keys != [] {
      var front, last := keys[..|keys| - 1], keys[|keys| - 1];
      EvictKeeps(c, seen, key, front);
      CacheKeyInjective(key, last);
      assert keys == front + [last];
      WithoutKeeps(c, Evict(c, front).ll, if key in front then None else seen, CacheKey(key), CacheKey(last));
    }
  }

  lemma {:induction false} HeldIsLastSeen(limit: int, ttl: int, calls: seq<Call>, key: Bytes)
    ensures var c := CacheAfter(limit, ttl, calls);
            c.limit == limit && c.ttl == ttl && Keeps(c, c.ll, LastSighting(limit, ttl, calls, key), CacheKey(key))
  {
    if calls == [] {
      return;
    }
    hide Keeps, CacheKey, OnOp, Evict;
    var front, call := calls[..|calls| - 1], calls[|calls| - 1];
    HeldIsLastSeen(limit, ttl, front, key);
    var c, seen := CacheAfter(limit, ttl, front), LastSighting(limit, ttl, front, key);
    var d := OnCache(c, call);
    match call {
      case BulkSetCall(_, _) =>
      case BulkDelCall(_, keys, ok) => EvictKeeps(c, seen, key, keys);
      case SetCall(_, e, ok, t) => CacheKeyInjective(e.key, key); CallOp(c, seen, key, Save(CacheKey(e.key), e, ok, t));
      case DelCall(_, j, ok, t) => CacheKeyInjective(j, key); CallOp(c, seen, key, DelIfOk(CacheKey(j), ok, t));
      case GetCall(_, j, load, t) => CacheKeyInjective(j, key); CallOp(c, seen, key, Once(CacheKey(j), load, t));
    }
    SameSettingsKeep(c, d, d.ll, LastSighting(limit, ttl, calls, key), CacheKey(key));
  }

  lemma CallOp(c: Lru<Entity>, seen: Option<Sighting<Entity>>, key: Bytes, op: CacheOp<Entity>)
    requires Keeps(c, c.ll, seen, CacheKey(key)) && !op.PurgeAt?
    ensures Keeps(c, OnOp(c, op).ll, Seen(c, op, seen, CacheKey(key)), CacheKey(key))
    ensures OnOp(c, op).limit == c.limit && OnOp(c, op).ttl == c.ttl
  {
    hide Keeps, OnOp;
    OpKeeps(c, seen, CacheKey(key), op);
    SameSettings(c, op);
  }

  lemma {:induction false} EvictRemains(c: Lru<Entity>, seen: Option<Sighting<Entity>>, key: Bytes, keys: seq<Bytes>,
      clock: int)
    requires Remains(c, c.ll, seen, CacheKey(key), clock)
    ensures Remains(c, Evict(c, keys).ll, if key in keys then None else seen, CacheKey(key), clock)
  {
    hide Remains, Without, CacheKey;
    if keys != [] {
      var front, last := keys[..|keys| - 1], keys[|keys| - 1];
      EvictRemains(c, seen, key, front, clock);
      CacheKeyInjective(key, last);
      assert keys == front + [last];
      var now := if key in front then None else seen;
      WithoutRemains(c, Evict(c, front).ll, now, CacheKey(key), CacheKey(last), clock);
    }
  }

  lemma {:induction false} LastSeenRemains(limit: int, ttl: int, calls: seq<Call>, key: Bytes, start: int)
    requires CallsOnTime(start, calls)
    ensures var c := CacheAfter(limit, ttl, calls);
            Remains(c, c.ll, LastSighting(limit, ttl, calls, key), CacheKey(key), ClockAfterCalls(start, calls))
  {
    if calls == [] {
      return;
    }
    hide Keeps, Remains, CacheKey, OnOp, Evict, InOrder;
    var front, call := calls[..|calls| - 1], calls[|calls| - 1];
    LastSeenRemains(limit, ttl, front, key, start);
    HeldIsLastSeen(limit, ttl, front, key);
    HeldIsLastSeen(limit, ttl, calls, key);
    var c, seen := CacheAfter(limit, ttl, front), LastSighting(limit, ttl, front, key);
    var clock := ClockAfterCalls(start, front);
    var d := OnCache(c, call);
    match call {
      case BulkSetCall(_, _) =>
      case BulkDelCall(_, keys, ok) => EvictRemains(c, seen, key, keys, clock);
      case SetCall(_, e, ok, t) =>
        CacheKeyInjective(e.key, key);
        OpRemains(c, seen, CacheKey(key), Save(CacheKey(e.key), e, ok, t), clock);
      case DelCall(_, j, ok, t) =>
        CacheKeyInjective(j, key);
        OpRemains(c, seen, CacheKey(key), DelIfOk(CacheKey(j), ok, t), clock);
      case GetCall(_, j, load, t) =>
        CacheKeyInjective(j, key);
        OpRemains(c, seen, CacheKey(key), Once(CacheKey(j), load, t), clock);
    }
    SameSettingsRemain(c, d, d.ll, LastSighting(limit, ttl, calls, key), CacheKey(key), ClockAfterCalls(start, calls));
  }

  /** The cache has an entry for the key, and less than a time to live has passed since it was last stamped. */
  predicate Live(limit: int, ttl: int, calls: seq<Call>, key: Bytes, now: int) {
    && CacheKey(key) in Keys(CacheAfter(limit, ttl, calls).ll)
    && match LastSighting(limit, ttl, calls, key)
       case Some(s) => ttl <= 0 || now < s.stamp + ttl
       case None => false
  }

  /** What a Get answers after any calls: what was last seen of the key as long as its entry lives, and what the store
      says otherwise. So it answers what the store says exactly when the entry is gone or was last seen as the store
      has it; with neither a limit nor a time to live, exactly when nothing else was last seen. */
  lemma {:induction false} GetAnswers(limit: int, ttl: int, calls: seq<Call>, get: Call)
    requires get.GetCall? && get.times.sweep <= get.times.check
    ensures var c, seen := CacheAfter(limit, ttl, calls), LastSeen(limit, ttl, calls, get.key);
            var live := Live(limit, ttl, calls, get.key, get.times.check);
            && (live ==> seen.Some?)
            && Answer(c, get) == (if live then seen else get.load)
            && (Answer(c, get) == get.load <==> !live || seen == get.load)
            && (limit <= 0 && ttl <= 0 ==> (Answer(c, get) == get.load <==> seen.None? || seen == get.load))
  {
    hide OnOnce, Without, PlaceOf, CacheKey, Keys, LastSighting, CacheAfter;
    HeldIsLastSeen(limit, ttl, calls, get.key);
    var c, k := CacheAfter(limit, ttl, calls), CacheKey(get.key);
    KeysWithout(c.ll, k);
    OnceAnswers(c, k, get.load, get.times, PlaceOf(c.ll, k));
  }

  /** Without a limit the calls alone say what a Get answers: what was last seen of the key for a time to live, and what
      the store says from then on. */
  lemma {:induction false} UnlimitedGet(limit: int, ttl: int, calls: seq<Call>, get: Call, start: int)
    requires limit <= 0 && get.GetCall?
    requires CallsOnTime(start, calls) && InOrder(ClockAfterCalls(start, calls), get.times)
    ensures Answer(CacheAfter(limit, ttl, calls), get) ==
              match LastSighting(limit, ttl, calls, get.key)
              case Some(s) => if ttl <= 0 || get.times.check < s.stamp + ttl then Some(s.value) else get.load
              case None => get.load
  {
    hide Answer, CacheAfter, LastSighting, CallsOnTime, ClockAfterCalls, CacheKey, Keys, PlaceOf;
    GetAnswers(limit, ttl, calls, get);
    HeldIsLastSeen(limit, ttl, calls, get.key);
    LastSeenRemains(limit, ttl, calls, get.key, start);
    KeysWithout(CacheAfter(limit, ttl, calls).ll, CacheKey(get.key));
  }

  /** Once a time to live has passed since the key was last seen, a Get answers what the store says. */
  lemma {:induction false} ExpiredGet(limit: int, ttl: int, calls: seq<Call>, get: Call)
    requires get.GetCall? && get.times.sweep <= get.times.check && ttl > 0
    requires match LastSighting(limit, ttl, calls, get.key)
             case Some(s) => get.times.check >= s.stamp + ttl
             case None => true
    ensures Answer(CacheAfter(limit, ttl, calls), get) == get.load
  {
    hide Answer, CacheAfter, LastSighting;
    GetAnswers(limit, ttl, calls, get);
  }

  // ---------- when it agrees with the rows ----------

  /** The last of `es` with this key. */
  function LastWith(es: seq<Entity>, key: Bytes): Option<Entity> {
    if es == [] then None
    else if es[|es| - 1].key == key then Some(es[|es| - 1]) else LastWith(es[..|es| - 1], key)
  }

  lemma {:induction false} PutAllReads(rows: Rows, table: Bytes, es: seq<Entity>, k: RowKey)
    ensures Find(Batching.PutAll(rows, table, es), k) ==
              if k.table == table && LastWith(es, k.key).Some? then LastWith(es, k.key) else Find(rows, k)
  {
    if es != [] {
      PutAllReads(rows, table, es[..|es| - 1], k);
    }
  }

  lemma {:induction false} RemoveAllReads(rows: Rows, table: Bytes, keys: seq<Bytes>, k: RowKey)
    ensures Find(Batching.RemoveAll(rows, table, keys), k) ==
              if k.table == table && k.key in keys then None else Find(rows, k)
  {
    if keys != [] {
      RemoveAllReads(rows, table, keys[..|keys| - 1], k);
      assert keys == keys[..|keys| - 1] + [keys[|keys| - 1]];
    }
  }

  /** Nothing was last seen of the key but what row `k` holds. */
  ghost predicate Agrees(limit: int, ttl: int, rows: Rows, calls: seq<Call>, k: RowKey) {
    var seen := LastSeen(limit, ttl, calls, k.key);
    seen.None? || seen == Find(RowsAfter(rows, calls), k)
  }

  /** The calls that make the cache disagree with row `k`, given what was last seen of the key and what the row holds:
      a set or a Get of the key in another table where it holds something else, a Get the store answers wrongly, and a
      bulk set or a failed write of the row that replaces what was last seen. */
  ghost predicate Spoils(call: Call, answer: Option<Entity>, seen: Option<Entity>, row: Option<Entity>, k: RowKey) {
    match call
    case SetCall(table, e, ok, _) =>
      && e.key == k.key
      && if ok then table != k.table && row != Some(e) else table == k.table && seen.Some? && seen != Some(e)
    case BulkSetCall(table, es) =>
      table == k.table && LastWith(es, k.key).Some? && seen.Some? && seen != LastWith(es, k.key)
    case DelCall(table, key, ok, _) => table == k.table && key == k.key && !ok && seen.Some?
    case BulkDelCall(table, keys, ok) => table == k.table && k.key in keys && !ok && seen.Some?
    case GetCall(_, key, _, _) => key == k.key && answer.Some? && answer != row
  }

  ghost predicate SpoilsNext(limit: int, ttl: int, rows: Rows, calls: seq<Call>, call: Call, k: RowKey) {
    var answer := if call.GetCall? then Answer(CacheAfter(limit, ttl, calls), call) else None;
    Spoils(call, answer, LastSeen(limit, ttl, calls, k.key), Find(RowsAfter(rows, calls), k), k)
  }

  /** One call, both ways. */
  lemma AgreesNext(limit: int, ttl: int, rows: Rows, calls: seq<Call>, call: Call, k: RowKey)
    requires Agrees(limit, ttl, rows, calls, k)
    ensures Agrees(limit, ttl, rows, calls + [call], k) <==> !SpoilsNext(limit, ttl, rows, calls, call, k)
  {
    hide OnCache, Answer, LastWith;
    assert (calls + [call])[..|calls|] == calls;
    NextCall(limit, ttl, rows, calls, call);
    match call
    case BulkSetCall(table, es) => PutAllReads(RowsAfter(rows, calls), table, es, k);
    case BulkDelCall(table, keys, _) => RemoveAllReads(RowsAfter(rows, calls), table, keys, k);
    case _ =>
  }

  /** Over any run of calls on a fresh cache, what was last seen of a key agrees with its row all along exactly when no
      call spoils it. */
  lemma {:induction false} AgreesAllAlong(limit: int, ttl: int, rows: Rows, calls: seq<Call>, k: RowKey)
    ensures (forall n :: 0 <= n <= |calls| ==> Agrees(limit, ttl, rows, calls[..n], k)) <==>
            (forall n :: 0 <= n < |calls| ==> !SpoilsNext(limit, ttl, rows, calls[..n], calls[n], k))
  {
    hide Agrees, SpoilsNext;
    if calls == [] {
      NothingSeen(limit, ttl, rows, k);
      return;
    }
    var m := |calls| - 1;
    var front := calls[..m];
    AgreesAllAlong(limit, ttl, rows, front, k);
    assert forall n :: 0 <= n <= m ==> front[..n] == calls[..n];
    assert calls[..|calls|] == calls == front + [calls[m]];
    assert forall n :: 0 <= n < m ==> front[n] == calls[n];
    if Agrees(limit, ttl, rows, front, k) {
      AgreesNext(limit, ttl, rows, front, calls[m], k);
    }
  }

  lemma NothingSeen(limit: int, ttl: int, rows: Rows, k: RowKey)
    ensures Agrees(limit, ttl, rows, [], k)
  {}

  /** A caller that keeps to this is served well: the key is used under one table only, never written in bulk, no write
      of it fails, the store answers truly, and the clock does not go back during a Get. */
  ghost predicate Careful(rows: Rows, calls: seq<Call>, n: nat, k: RowKey)
    requires n < |calls|
  {
    match calls[n]
    case SetCall(table, e, ok, _) => e.key == k.key ==> ok && table == k.table
    case BulkSetCall(table, es) => table == k.table ==> LastWith(es, k.key).None?
    case DelCall(table, key, ok, _) => key == k.key && table == k.table ==> ok
    case BulkDelCall(table, keys, ok) => k.key in keys && table == k.table ==> ok
    case GetCall(table, key, load, t) =>
      key == k.key ==>
        table == k.table && load == Find(RowsAfter(rows, calls[..n]), k) && t.sweep <= t.check
  }

  ghost predicate AllCareful(rows: Rows, calls: seq<Call>, k: RowKey) {
    forall n :: 0 <= n < |calls| ==> Careful(rows, calls, n, k)
  }

  lemma {:induction false} CarefulAgrees(limit: int, ttl: int, rows: Rows, calls: seq<Call>, k: RowKey, n: nat)
    requires AllCareful(rows, calls, k) && n <= |calls|
    ensures calls[..|calls|] == calls && Agrees(limit, ttl, rows, calls[..n], k)
    decreases n
  {
    hide CacheAfter, LastSeen, RowsAfter, Answer, LastWith, Live;
    if n == 0 {
      NothingSeen(limit, ttl, rows, k);
      assert calls[..0] == [];
    } else {
      CarefulAgrees(limit, ttl, rows, calls, k, n - 1);
      assert calls[..n] == calls[..n - 1] + [calls[n - 1]];
      assert Careful(rows, calls, n - 1, k);
      var call := calls[n - 1];
      if call.GetCall? && call.key == k.key {
        CarefulAnswer(limit, ttl, rows, calls[..n - 1], call, k);
      }
      AgreesNext(limit, ttl, rows, calls[..n - 1], call, k);
    }
  }

  /** Where nothing else was last seen and the store answers truly, the answer is the row. */
  lemma {:induction false} CarefulAnswer(limit: int, ttl: int, rows: Rows, calls: seq<Call>, get: Call, k: RowKey)
    requires get.GetCall? && get.key == k.key && get.load == Find(RowsAfter(rows, calls), k)
    requires get.times.sweep <= get.times.check && Agrees(limit, ttl, rows, calls, k)
    ensures Answer(CacheAfter(limit, ttl, calls), get) == Find(RowsAfter(rows, calls), k)
  {
    hide CacheAfter, LastSeen, RowsAfter, Answer, Live;
    GetAnswers(limit, ttl, calls, get);
  }

  /** Every Get of a careful run answers what its row holds, under any limit and time to live. */
  lemma {:induction false} CarefulGets(limit: int, ttl: int, rows: Rows, calls: seq<Call>, k: RowKey, n: nat)
    requires AllCareful(rows, calls, k) && n < |calls| && calls[n].GetCall? && calls[n].key == k.key
    ensures Answer(CacheAfter(limit, ttl, calls[..n]), calls[n]) == Find(RowsAfter(rows, calls[..n]), k)
  {
    hide CacheAfter, RowsAfter, Answer, Agrees;
    CarefulAgrees(limit, ttl, rows, calls, k, n);
    assert Careful(rows, calls, n, k);
    CarefulAnswer(limit, ttl, rows, calls[..n], calls[n], k);
  }

  /** All of this of one Get. */
  lemma {:induction false} GetFacts(limit: int, ttl: int, rows: Rows, calls: seq<Call>, get: Call, start: int)
    requires get.GetCall? && CallsOnTime(start, calls) && InOrder(ClockAfterCalls(start, calls), get.times)
    ensures var answer, seen := Answer(CacheAfter(limit, ttl, calls), get), LastSeen(limit, ttl, calls, get.key);
            var live := Live(limit, ttl, calls, get.key, get.times.check);
            && answer == (if live then seen else get.load)
            && (answer == get.load <==> !live || seen == get.load)
            && (limit <= 0 && ttl <= 0 ==> (answer == get.load <==> seen.None? || seen == get.load))
            && (AllCareful(rows, calls, RowKey(get.table, get.key)) ==>
                  get.load == Find(RowsAfter(rows, calls), RowKey(get.table, get.key)) ==> answer == get.load)
    ensures limit <= 0 ==>
              Answer(CacheAfter(limit, ttl, calls), get) ==
              match LastSighting(limit, ttl, calls, get.key)
              case Some(s) => if ttl <= 0 || get.times.check < s.stamp + ttl then Some(s.value) else get.load
              case None => get.load
  {
    hide Answer, CacheAfter, LastSeen, LastSighting, Live, AllCareful, RowsAfter, CallsOnTime, ClockAfterCalls, Agrees;
    GetAnswers(limit, ttl, calls, get);
    if limit <= 0 {
      UnlimitedGet(limit, ttl, calls, get, start);
    }
    var k := RowKey(get.table, get.key);
    if AllCareful(rows, calls, k) && get.load == Find(RowsAfter(rows, calls), k) {
      CarefulAgrees(limit, ttl, rows, calls, k, |calls|);
      CarefulAnswer(limit, ttl, rows, calls, get, k);
    }
  }

  lemma NoCalls(limit: int, ttl: int, rows: Rows, start: int)
    ensures CacheAfter(limit, ttl, []) == Lru(limit, ttl, []) && RowsAfter(rows, []) == rows
    ensures CallsOnTime(start, []) && ClockAfterCalls(start, []) == start
  {}

  // ---------- runs that go wrong ----------

  /** The entity of a successful set is in front, and lives for its time. */
  lemma {:induction false} InFront(limit: int, ttl: int, calls: seq<Call>, first: Call, now: int)
    requires first.SetCall? && first.ok && (ttl <= 0 || now < first.times.stamp + ttl)
    ensures var c := CacheAfter(limit, ttl, calls + [first]);
            && Live(limit, ttl, calls + [first], first.entity.key, now)
            && LastSeen(limit, ttl, calls + [first], first.entity.key) == Some(first.entity)
            && c.ll != [] && c.ll[0].key == CacheKey(first.entity.key)
            && (ttl > 0 ==> c.ll[0].expiresAt == first.times.stamp + ttl)
  {
    hide Without, Evicted, Sweep, CacheKey, Keys;
    assert (calls + [first])[..|calls|] == calls;
    HeldIsLastSeen(limit, ttl, calls, first.entity.key);
    var c := CacheAfter(limit, ttl, calls + [first]);
    assert Keys(c.ll)[0] == c.ll[0].key;
  }

  lemma {:induction false} FrontStays<T>(ll: seq<Kv<T>>, ttl: int, now: int)
    requires ll != [] && !Expired(ll[0], ttl, now)
    ensures Sweep(ll, ttl, now) != [] && Sweep(ll, ttl, now)[0] == ll[0]
  {
    if Expired(ll[|ll| - 1], ttl, now) {
      FrontStays(ll[..|ll| - 1], ttl, now);
    }
  }

  /** A set, then a bulk set of the same row: whatever was called before, a Get in time answers what the set wrote. */
  lemma {:induction false} BulkSetLeavesStale(limit: int, ttl: int, rows: Rows, calls: seq<Call>, first: Call,
      e: Entity, t: Times)
    requires first.SetCall? && first.ok && first.entity.key == e.key && first.entity != e
    requires t.sweep <= t.check && (ttl <= 0 || t.check < first.times.stamp + ttl)
    ensures var run := calls + [first] + [BulkSetCall(first.table, [e])];
            var row := Find(RowsAfter(rows, run), RowKey(first.table, e.key));
            && row == Some(e)
            && Answer(CacheAfter(limit, ttl, run), GetCall(first.table, e.key, row, t)) == Some(first.entity)
  {
    hide Answer, Keys, CacheKey;
    var before, bulk := calls + [first], BulkSetCall(first.table, [e]);
    var run := before + [bulk];
    InFront(limit, ttl, calls, first, t.check);
    NextCall(limit, ttl, rows, before, bulk);
    PutAllReads(RowsAfter(rows, before), first.table, [e], RowKey(first.table, e.key));
    assert run[..|before|] == before;
    var row := Find(RowsAfter(rows, run), RowKey(first.table, e.key));
    GetAnswers(limit, ttl, run, GetCall(first.table, e.key, row, t));
  }

  /** A set of the same key in another table: a Get in time of the first table answers what the second set wrote. */
  lemma {:induction false} OtherTableAnswers(limit: int, ttl: int, rows: Rows, calls: seq<Call>, a: Call, b: Call,
      t: Times)
    requires a.SetCall? && b.SetCall? && b.ok && a.table != b.table
    requires a.entity.key == b.entity.key && a.entity != b.entity
    requires t.sweep <= t.check && (ttl <= 0 || t.check < b.times.stamp + ttl)
    ensures var run := calls + [a] + [b];
            var row := Find(RowsAfter(rows, run), RowKey(a.table, a.entity.key));
            && row == Some(a.entity)
            && Answer(CacheAfter(limit, ttl, run), GetCall(a.table, a.entity.key, row, t)) == Some(b.entity)
  {
    hide Live, Answer, OnCache;
    var run := calls + [a] + [b];
    InFront(limit, ttl, calls + [a], b, t.check);
    NextCall(limit, ttl, rows, calls, a);
    NextCall(limit, ttl, rows, calls + [a], b);
    var row := Find(RowsAfter(rows, run), RowKey(a.table, a.entity.key));
    GetAnswers(limit, ttl, run, GetCall(a.table, a.entity.key, row, t));
  }

  /** A set whose flush fails is logged and buffered: a Get in time answers what the set before it wrote. */
  lemma {:induction false} FailedSetLeavesStale(limit: int, ttl: int, rows: Rows, calls: seq<Call>, a: Call, b: Call,
      t: Times)
    requires a.SetCall? && b.SetCall? && a.ok && !b.ok && a.table == b.table
    requires a.entity.key == b.entity.key && a.entity != b.entity
    requires b.times.sweep <= t.sweep <= t.check && (ttl <= 0 || t.check < a.times.stamp + ttl)
    ensures var run := calls + [a] + [b];
            var row := Find(RowsAfter(rows, run), RowKey(b.table, b.entity.key));
            && row == Some(b.entity)
            && Answer(CacheAfter(limit, ttl, run), GetCall(b.table, b.entity.key, row, t)) == Some(a.entity)
  {
    hide Answer, OnStore, PlaceOf, Sweep;
    var before := calls + [a];
    var run := before + [b];
    var c := CacheAfter(limit, ttl, before);
    InFront(limit, ttl, calls, a, t.check);
    HeldIsLastSeen(limit, ttl, before, a.entity.key);
    NextCall(limit, ttl, rows, before, b);
    FrontStays(c.ll, ttl, b.times.sweep);
    var kept := Sweep(c.ll, ttl, b.times.sweep);
    assert Keys(kept)[0] == kept[0].key;
    assert run[..|before|] == before;
    var row := Find(RowsAfter(rows, run), RowKey(b.table, b.entity.key));
    GetAnswers(limit, ttl, run, GetCall(b.table, b.entity.key, row, t));
  }
}
