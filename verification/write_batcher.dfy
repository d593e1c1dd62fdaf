/** The last-write-wins write buffer in front of the file store (internal/fsdb/write_batcher.go). */
module Batching {
  import opened Wrappers
  import opened WalCodec
  import opened Entities

  type Pending = map<RowKey, Change>

  // ---------- the combined view ----------

  function Overlay(rows: Rows, pend: Pending, k: RowKey): Option<Entity> {
    if k in pend then Outcome(pend[k]) else Find(rows, k)
  }

  /** The store as it would be with every pending change applied. */
  function Combined(rows: Rows, pend: Pending): Rows {
    map k | k in rows.Keys + pend.Keys && Overlay(rows, pend, k).Some? :: Overlay(rows, pend, k).value
  }

  lemma CombinedReads(rows: Rows, pend: Pending, k: RowKey)
    ensures Find(Combined(rows, pend), k) == Overlay(rows, pend, k)
  {}

  lemma NothingPending(rows: Rows)
    ensures Combined(rows, map[]) == rows
  {}

  /** Buffering a change is applying it to the view. */
  lemma UpsertIsApply(rows: Rows, pend: Pending, k: RowKey, c: Change)
    ensures Combined(rows, pend[k := c]) == Apply(Combined(rows, pend), k, c)
  {
    forall j
      ensures Find(Combined(rows, pend[k := c]), j) == Find(Apply(Combined(rows, pend), k, c), j)
    {
      CombinedReads(rows, pend[k := c], j);
      CombinedReads(rows, pend, j);
    }
    SameReads(Combined(rows, pend[k := c]), Apply(Combined(rows, pend), k, c));
  }

  /** Moving one pending change to the store leaves the view alone. */
  lemma FlushOneKeepsView(rows: Rows, pend: Pending, k: RowKey)
    requires k in pend
    ensures Combined(Apply(rows, k, pend[k]), pend - {k}) == Combined(rows, pend)
  {
    forall j
      ensures Find(Combined(Apply(rows, k, pend[k]), pend - {k}), j) == Find(Combined(rows, pend), j)
    {
      CombinedReads(Apply(rows, k, pend[k]), pend - {k}, j);
      CombinedReads(rows, pend, j);
    }
    SameReads(Combined(Apply(rows, k, pend[k]), pend - {k}), Combined(rows, pend));
  }

  // ---------- the order in which keys are flushed ----------

  /** Go's order on strings: byte by byte. */
  predicate BytesLess(a: Bytes, b: Bytes) {
    b != [] && (a == [] || a[0] < b[0] || (a[0] == b[0] && BytesLess(a[1..], b[1..])))
  }

  predicate KeyLess(a: RowKey, b: RowKey) {
    if a.table != b.table then BytesLess(a.table, b.table) else BytesLess(a.key, b.key)
  }

  lemma {:induction false} BytesOrder(a: Bytes, b: Bytes, c: Bytes)
    ensures !BytesLess(a, a)
    ensures a == b || BytesLess(a, b) || BytesLess(b, a)
    ensures BytesLess(a, b) && BytesLess(b, c) ==> BytesLess(a, c)
    decreases |a| + |b| + |c|
  {
    if a != [] && b != [] && c != [] {
      BytesOrder(a[1..], b[1..], c[1..]);
      assert a[0] == b[0] && a[1..] == b[1..] ==> a == b by { assert a == [a[0]] + a[1..] && b == [b[0]] + b[1..]; }
    } else if a != [] && b != [] {
      BytesOrder(a[1..], b[1..], []);
      assert a[0] == b[0] && a[1..] == b[1..] ==> a == b by { assert a == [a[0]] + a[1..] && b == [b[0]] + b[1..]; }
    } else if a != [] {
      BytesOrder(a[1..], [], []);
    }
  }

  lemma KeyOrder(a: RowKey, b: RowKey, c: RowKey)
    ensures !KeyLess(a, a)
    ensures a == b || KeyLess(a, b) || KeyLess(b, a)
    ensures KeyLess(a, b) && KeyLess(b, c) ==> KeyLess(a, c)
  {
    BytesOrder(a.table, b.table, c.table);
    BytesOrder(a.table, b.table, a.table);
    BytesOrder(a.key, b.key, c.key);
    BytesOrder(a.key, b.key, a.key);
  }

  /** Up to `i` the two are equal, and there the first ends or has the smaller byte. */
  ghost predicate LessAt(a: Bytes, b: Bytes, i: int) {
    0 <= i <= |a| && i < |b| && (forall j :: 0 <= j < i ==> a[j] == b[j]) && (i == |a| || a[i] < b[i])
  }

  /** The order of a dictionary. */
  lemma {:induction false} BytesLessExactly(a: Bytes, b: Bytes)
    ensures BytesLess(a, b) <==> exists i :: LessAt(a, b, i)
    decreases |a|
  {
    if a == [] || b == [] || a[0] != b[0] {
      assert BytesLess(a, b) ==> LessAt(a, b, 0);
    } else {
      BytesLessExactly(a[1..], b[1..]);
      if i :| LessAt(a, b, i) {
        assert LessAt(a[1..], b[1..], i - 1);
      }
      if i :| LessAt(a[1..], b[1..], i) {
        forall j | 0 <= j < i + 1 ensures a[j] == b[j] {
          assert j > 0 ==> a[1..][j - 1] == b[1..][j - 1];
        }
        assert i < |a[1..]| ==> a[1..][i] == a[i + 1] && b[1..][i] == b[i + 1];
        assert LessAt(a, b, i + 1);
      }
    }
  }

  /** Keys go table by table, and by key within a table. */
  lemma KeyLessExactly(a: RowKey, b: RowKey)
    ensures a.table != b.table ==> (KeyLess(a, b) <==> BytesLess(a.table, b.table))
    ensures a.table == b.table ==> (KeyLess(a, b) <==> BytesLess(a.key, b.key))
  {
    hide BytesLess;
  }

  /** In strictly increasing order, so without repeats. */
  ghost predicate Increasing(keys: seq<RowKey>) {
    forall i, j :: 0 <= i < j < |keys| ==> KeyLess(keys[i], keys[j])
  }

  /** The place of `k` among sorted keys. */
  function InsertionPlace(keys: seq<RowKey>, k: RowKey): (p: nat)
    ensures p <= |keys| && (forall i :: 0 <= i < p ==> KeyLess(keys[i], k)) && (p < |keys| ==> !KeyLess(keys[p], k))
  {
    if keys == [] || !KeyLess(keys[0], k) then 0 else 1 + InsertionPlace(keys[1..], k)
  }

  lemma {:induction false} InsertKeepsOrder(keys: seq<RowKey>, k: RowKey, p: nat)
    requires Increasing(keys) && k !in keys && p == InsertionPlace(keys, k)
    ensures Increasing(keys[..p] + [k] + keys[p..])
  {
    forall j | p <= j < |keys| ensures KeyLess(k, keys[j]) {
      KeyOrder(k, keys[p], keys[j]);
    }
  }

  method SortedKeys(pend: Pending) returns (keys: seq<RowKey>)
    ensures Increasing(keys)
    ensures forall k :: k in keys <==> k in pend
  {
    keys := [];
    var rest := pend.Keys;
    while rest != {}
      invariant Increasing(keys) && rest <= pend.Keys
      invariant forall k :: k in keys <==> k in pend.Keys - rest
      decreases |rest|
    {
      var k :| k in rest;
      var p := InsertionPlace(keys, k);
      InsertKeepsOrder(keys, k, p);
      assert forall j :: j in keys[..p] + [k] + keys[p..] <==> j in keys || j == k by { InsertedHas(keys, k, p); }
      keys := keys[..p] + [k] + keys[p..];
      rest := rest - {k};
    }
  }

  function Without(pend: Pending, keys: seq<RowKey>): Pending {
    pend - set k | k in keys
  }

  /** The store after the pending changes on `keys` are applied, in this order. */
  function Flushed(rows: Rows, pend: Pending, keys: seq<RowKey>): Rows {
    if keys == [] then rows
    else
      var front, k := Flushed(rows, pend, keys[..|keys| - 1]), keys[|keys| - 1];
      if k in pend then Apply(front, k, pend[k]) else front
  }

  /** From `rows` and `pend`, exactly the changes on `done` have moved to the store, in key order. */
  ghost predicate Drained(rows: Rows, pend: Pending, rows': Rows, pend': Pending, done: seq<RowKey>) {
    && Increasing(done) && (forall k :: k in done ==> k in pend)
    && pend' == Without(pend, done) && rows' == Flushed(rows, pend, done)
  }

  lemma NothingDrained(rows: Rows, pend: Pending)
    ensures Drained(rows, pend, rows, pend, [])
  {}

  lemma {:induction false} FlushedNext(rows: Rows, pend: Pending, keys: seq<RowKey>, i: nat)
    requires i < |keys| && keys[i] in pend
    ensures Flushed(rows, pend, keys[..i + 1]) == Apply(Flushed(rows, pend, keys[..i]), keys[i], pend[keys[i]])
  {
    assert keys[..i + 1][..i] == keys[..i];
  }

  lemma NoneDone(keys: seq<RowKey>, pend: Pending, rows: Rows)
    ensures Without(pend, keys[..0]) == pend && Flushed(rows, pend, keys[..0]) == rows
  {}

  lemma {:induction false} KeysDrained(rows: Rows, pend: Pending, keys: seq<RowKey>, i: nat)
    requires Increasing(keys) && i <= |keys| && forall k :: k in keys <==> k in pend
    ensures Drained(rows, pend, Flushed(rows, pend, keys[..i]), Without(pend, keys[..i]), keys[..i])
  {
    hide KeyLess;
  }

  /** The next key in order is still pending, and is above those done. */
  lemma KeysLeft(keys: seq<RowKey>, i: nat, pend: Pending)
    requires Increasing(keys) && i < |keys| && forall k :: k in keys <==> k in pend
    ensures keys[i] in Without(pend, keys[..i]) && Without(pend, keys[..i])[keys[i]] == pend[keys[i]]
    ensures Without(pend, keys[..i]) - {keys[i]} == Without(pend, keys[..i + 1])
    ensures Increasing(keys[..i])
    ensures forall k, j :: k in keys[..i] && j in Without(pend, keys[..i]) ==> KeyLess(k, j)
  {
    hide KeyLess;
    forall k | k in keys[..i] ensures k != keys[i] {
      KeyOrder(k, k, k);
    }
    assert keys[..i + 1] == keys[..i] + [keys[i]];
  }

  lemma AllDone(keys: seq<RowKey>, pend: Pending)
    requires forall k :: k in keys <==> k in pend
    ensures Without(pend, keys[..|keys|]) == map[]
  {
    assert keys[..|keys|] == keys;
  }

  // ---------- sizes ----------

  function ChangeBytes(c: Change, size: Entity -> nat): nat {
    match c
    case Put(e) => size(e)
    case Remove => 16
  }

  function KeyBytes(k: RowKey): nat { |k.table| + |k.key| }

  /** What the pending changes weigh together. */
  ghost function Total(pend: Pending, size: Entity -> nat): nat
    decreases |pend|
  {
    if pend == map[] then 0
    else var k :| k in pend; KeyBytes(k) + ChangeBytes(pend[k], size) + Total(pend - {k}, size)
  }

  lemma {:induction false} TotalSplits(pend: Pending, k: RowKey, size: Entity -> nat)
    requires k in pend
    ensures Total(pend, size) == KeyBytes(k) + ChangeBytes(pend[k], size) + Total(pend - {k}, size)
    decreases |pend|
  {
    var j :| j in pend && Total(pend, size) == KeyBytes(j) + ChangeBytes(pend[j], size) + Total(pend - {j}, size);
    if j != k {
      TotalSplits(pend - {j}, k, size);
      TotalSplits(pend - {k}, j, size);
      assert pend - {j} - {k} == pend - {k} - {j};
    }
  }

  /** What one change weighs. */
  lemma TotalOfOne(k: RowKey, e: Entity, size: Entity -> nat)
    ensures Total(map[k := Put(e)], size) == |k.table| + |k.key| + size(e)
    ensures Total(map[k := Remove], size) == |k.table| + |k.key| + 16
  {
    TotalOfNothing(size);
    TotalSplits(map[k := Put(e)], k, size);
    TotalSplits(map[k := Remove], k, size);
    assert map[k := Put(e)] - {k} == map[] && map[k := Remove] - {k} == map[];
  }

  lemma TotalOfNothing(size: Entity -> nat)
    ensures Total(map[], size) == 0
  {}

  lemma TotalAfterUpsert(pend: Pending, k: RowKey, c: Change, size: Entity -> nat)
    ensures Total(pend[k := c], size) + (if k in pend then ChangeBytes(pend[k], size) else 0) ==
            Total(pend, size) + ChangeBytes(c, size) + if k in pend then 0 else KeyBytes(k)
  {
    TotalSplits(pend[k := c], k, size);
    assert pend[k := c] - {k} == pend - {k};
    if k in pend {
      TotalSplits(pend, k, size);
    } else {
      assert pend - {k} == pend;
    }
  }

  // ---------- the code ----------

  /** The file store as the batcher uses it; a failing call has no effect but to be counted. */
  class Store {
    var rows: Rows
    /** The keys of the calls that took effect, in order. */
    ghost var touched: seq<RowKey>
    /** How many calls have failed. */
    ghost var failures: nat

    constructor ()
      ensures rows == map[] && touched == [] && failures == 0
    {
      rows, touched, failures := map[], [], 0;
    }

    method Set(table: Bytes, e: Entity) returns (ok: bool)
      modifies this
      ensures ok ==> rows == old(rows)[RowKey(table, e.key) := e] && touched == old(touched) + [RowKey(table, e.key)]
      ensures !ok ==> rows == old(rows) && touched == old(touched)
      ensures failures == old(failures) + if ok then 0 else 1
    {
      ok := *;
      if !ok {
        failures := failures + 1;
        return;
      }
      rows := rows[RowKey(table, e.key) := e];
      touched := touched + [RowKey(table, e.key)];
    }

    /** Deleting a missing key is reported, and the batcher takes it for success. */
    method Del(table: Bytes, key: Bytes) returns (ok: bool, found: bool)
      modifies this
      ensures ok ==> found == (RowKey(table, key) in old(rows)) && rows == old(rows) - {RowKey(table, key)}
                     && touched == old(touched) + [RowKey(table, key)]
      ensures !ok ==> rows == old(rows) && touched == old(touched)
      ensures failures == old(failures) + if ok then 0 else 1
    {
      ok, found := *, RowKey(table, key) in rows;
      if !ok {
        failures := failures + 1;
        return;
      }
      rows := rows - {RowKey(table, key)};
      touched := touched + [RowKey(table, key)];
    }
  }

  class WriteBatcher {
    const inner: Store
    const maxDirtyKeys: nat
    const maxDirtyBytes: nat
    const deferWrites: bool
    const size: Entity -> nat
    var pend: Pending
    var bytesN: int

    ghost predicate Sound()
      reads this
    {
      && maxDirtyKeys > 0 && maxDirtyBytes > 0
      && (forall k :: k in pend && pend[k].Put? ==> pend[k].entity.key == k.key)
      && bytesN >= Total(pend, size)
    }

    /** Between calls the estimate is never below the weight of what is pending, and is zero with nothing pending. */
    ghost predicate Valid()
      reads this
    {
      Sound() && (pend == map[] ==> bytesN == 0)
    }

    /** Without a failed flush the estimate is exact. */
    ghost predicate Exact()
      reads this
    {
      bytesN == Total(pend, size)
    }

    ghost function View(): Rows
      reads this, inner
    {
      Combined(inner.rows, pend)
    }

    constructor (inner: Store, maxDirtyKeys: int, maxDirtyBytes: int, deferWrites: bool, size: Entity -> nat)
      ensures Valid() && Exact() && this.inner == inner && this.deferWrites == deferWrites && this.size == size
      ensures pend == map[] && View() == inner.rows
      ensures this.maxDirtyKeys == (if maxDirtyKeys > 0 then maxDirtyKeys else 4096)
      ensures this.maxDirtyBytes == (if maxDirtyBytes > 0 then maxDirtyBytes else 0x200_0000)
    {
      this.inner, this.deferWrites, this.size := inner, deferWrites, size;
      this.maxDirtyKeys := if maxDirtyKeys <= 0 then 4096 else maxDirtyKeys;
      this.maxDirtyBytes := if maxDirtyBytes <= 0 then 0x200_0000 else maxDirtyBytes;
      pend, bytesN := map[], 0;
      new;
      NothingPending(inner.rows);
    }

    method Upsert(k: RowKey, next: Change)
      requires Valid() && (next.Put? ==> next.entity.key == k.key)
      modifies this
      ensures Valid() && pend == old(pend)[k := next] && (old(Exact()) ==> Exact())
      ensures bytesN - Total(pend, size) == old(bytesN) - Total(old(pend), size)
      ensures View() == Apply(old(View()), k, next)
    {
      TotalAfterUpsert(pend, k, next, size);
      UpsertIsApply(inner.rows, pend, k, next);
      if k in pend {
        bytesN := bytesN - ChangeBytes(pend[k], size);
      } else {
        bytesN := bytesN + KeyBytes(k);
      }
      pend := pend[k := next];
      bytesN := bytesN + ChangeBytes(next, size);
    }

    method ApplyOne(k: RowKey, c: Change) returns (ok: bool)
      requires c.Put? ==> c.entity.key == k.key
      modifies inner
      ensures ok ==> inner.rows == Apply(old(inner.rows), k, c) && inner.touched == old(inner.touched) + [k]
      ensures !ok ==> inner.rows == old(inner.rows) && inner.touched == old(inner.touched)
      ensures inner.failures == old(inner.failures) + if ok then 0 else 1
    {
      match c
      case Put(e) =>
        ok := inner.Set(k.table, e);
      case Remove =>
        var found;
        ok, found := inner.Del(k.table, k.key);
    }

    method FlushOne(k: RowKey) returns (ok: bool)
      requires Sound() && k in pend
      modifies this`pend, inner
      ensures Sound() && View() == old(View())
      ensures ok ==> pend == old(pend) - {k} && inner.touched == old(inner.touched) + [k]
                     && inner.rows == Apply(old(inner.rows), k, old(pend)[k])
      ensures !ok ==> pend == old(pend) && inner.touched == old(inner.touched) && inner.rows == old(inner.rows)
      ensures inner.failures == old(inner.failures) + if ok then 0 else 1
    {
      ghost var rows := inner.rows;
      ok := ApplyOne(k, pend[k]);
      if ok {
        FlushOneKeepsView(rows, pend, k);
        TotalSplits(pend, k, size);
        pend := pend - {k};
      }
    }

    /** Applies the pending changes in key order, each key at most once. Whether or not a call fails on the way,
        the view stays as it was, and what has been applied is no longer pending. */
    method FlushAll() returns (ok: bool, ghost done: seq<RowKey>)
      requires Valid()
      modifies this, inner
      ensures Valid() && View() == old(View()) && (ok && old(Exact()) ==> Exact())
      ensures ok ==> pend == map[] && bytesN == 0 && inner.rows == old(View())
      ensures !ok ==> pend != map[]
      ensures inner.failures == old(inner.failures) + if ok then 0 else 1
      ensures inner.touched == old(inner.touched) + done
      ensures Drained(old(inner.rows), old(pend), inner.rows, pend, done)
      ensures forall k, j :: k in done && j in pend ==> KeyLess(k, j)
    {
      hide Combined, Increasing, KeyLess, Total, Without, Overlay, Flushed, Drained;
      done := [];
      NothingDrained(inner.rows, pend);
      if pend == map[] {
        NothingPending(inner.rows);
        return true, [];
      }
      var keys := SortedKeys(pend);
      NoneDone(keys, pend, inner.rows);
      for i := 0 to |keys|
        invariant Sound() && pend == Without(old(pend), keys[..i]) && bytesN == old(bytesN)
        invariant View() == old(View())
        invariant inner.touched == old(inner.touched) + keys[..i] && inner.failures == old(inner.failures)
        invariant inner.rows == Flushed(old(inner.rows), old(pend), keys[..i])
      {
        KeysLeft(keys, i, old(pend));
        FlushedNext(old(inner.rows), old(pend), keys, i);
        ok := FlushOne(keys[i]);
        if !ok {
          assert keys[i] in pend;
          KeysDrained(old(inner.rows), old(pend), keys, i);
          return false, keys[..i];
        }
        assert keys[..i + 1] == keys[..i] + [keys[i]];
      }
      assert keys[..|keys|] == keys;
      KeysDrained(old(inner.rows), old(pend), keys, |keys|);
      done := keys;
      ok := true;
      AllDone(keys, old(pend));
      NothingPending(inner.rows);
      TotalOfNothing(size);
      bytesN := 0;
    }

    method Flush() returns (ok: bool, ghost done: seq<RowKey>)
      requires Valid()
      modifies this, inner
      ensures Valid() && View() == old(View()) && (ok && old(Exact()) ==> Exact())
      ensures ok ==> pend == map[] && inner.rows == old(View())
      ensures !ok ==> pend != map[]
      ensures inner.failures == old(inner.failures) + if ok then 0 else 1
      ensures inner.touched == old(inner.touched) + done
      ensures Drained(old(inner.rows), old(pend), inner.rows, pend, done)
    {
      ok, done := FlushAll();
    }

    predicate OverLimits()
      reads this
    {
      |pend| >= maxDirtyKeys || bytesN >= maxDirtyBytes
    }

    /** What a successful write leaves: nothing pending in immediate mode, and room under both limits. */
    ghost predicate Settled()
      reads this
    {
      && (!deferWrites ==> pend == map[])
      && |pend| < maxDirtyKeys && bytesN < maxDirtyBytes
    }

    /** A deferred write that leaves `next` pending stays under both limits. */
    ghost predicate Fits(next: Pending)
      reads this
    {
      deferWrites && |next| < maxDirtyKeys && bytesN - Total(pend, size) + Total(next, size) < maxDirtyBytes
    }

    /** The common end of every write. */
    method FlushIfDue() returns (ok: bool, ghost done: seq<RowKey>)
      requires Valid()
      modifies this, inner
      ensures Valid() && View() == old(View()) && (ok && old(Exact()) ==> Exact())
      ensures if ok then Settled() else pend != map[]
      ensures inner.failures == old(inner.failures) + if ok then 0 else 1
      ensures inner.touched == old(inner.touched) + done
      ensures if deferWrites && |old(pend)| < maxDirtyKeys && old(bytesN) < maxDirtyBytes
              then ok && done == [] && pend == old(pend) && bytesN == old(bytesN)
              else ok ==> pend == map[]
      ensures Drained(old(inner.rows), old(pend), inner.rows, pend, done)
    {
      if deferWrites {
        if OverLimits() {
          ok, done := FlushAll();
          return;
        }
        NothingDrained(inner.rows, pend);
        return true, [];
      }
      ok, done := FlushAll();
    }

    /** The view takes the write at once, whether or not the flush it triggers succeeds. */
    method Set(table: Bytes, e: Entity) returns (ok: bool, ghost done: seq<RowKey>)
      requires Valid()
      modifies this, inner
      ensures Valid() && View() == old(View())[RowKey(table, e.key) := e]
      ensures Drained(old(inner.rows), old(pend)[RowKey(table, e.key) := Put(e)], inner.rows, pend, done)
      ensures inner.failures == old(inner.failures) + if ok then 0 else 1
      ensures inner.touched == old(inner.touched) + done
      ensures var next := old(pend)[RowKey(table, e.key) := Put(e)];
              if deferWrites && |next| < maxDirtyKeys
                 && old(bytesN) - Total(old(pend), size) + Total(next, size) < maxDirtyBytes
              then && ok && done == [] && pend == next
                   && bytesN == old(bytesN) - Total(old(pend), size) + Total(next, size)
              else ok ==> pend == map[]
      ensures if ok then Settled() else pend != map[]
      ensures ok && old(Exact()) ==> Exact()
    {
      hide Drained, Combined, Total;
      Upsert(RowKey(table, e.key), Put(e));
      ok, done := FlushIfDue();
    }

    method Del(table: Bytes, key: Bytes) returns (ok: bool, ghost done: seq<RowKey>)
      requires Valid()
      modifies this, inner
      ensures Valid() && View() == old(View()) - {RowKey(table, key)}
      ensures Drained(old(inner.rows), old(pend)[RowKey(table, key) := Remove], inner.rows, pend, done)
      ensures inner.failures == old(inner.failures) + if ok then 0 else 1
      ensures inner.touched == old(inner.touched) + done
      ensures var next := old(pend)[RowKey(table, key) := Remove];
              if deferWrites && |next| < maxDirtyKeys
                 && old(bytesN) - Total(old(pend), size) + Total(next, size) < maxDirtyBytes
              then && ok && done == [] && pend == next
                   && bytesN == old(bytesN) - Total(old(pend), size) + Total(next, size)
              else ok ==> pend == map[]
      ensures if ok then Settled() else pend != map[]
      ensures ok && old(Exact()) ==> Exact()
    {
      hide Drained, Combined, Total;
      Upsert(RowKey(table, key), Remove);
      ok, done := FlushIfDue();
    }

    /** The same as setting the entities one by one. */
    method BulkSet(table: Bytes, es: seq<Entity>) returns (ok: bool, ghost done: seq<RowKey>)
      requires Valid()
      modifies this, inner
      ensures Valid() && View() == PutAll(old(View()), table, es)
      ensures Drained(old(inner.rows), UpsertPuts(old(pend), table, es), inner.rows, pend, done)
      ensures inner.failures == old(inner.failures) + if ok then 0 else 1
      ensures inner.touched == old(inner.touched) + done
      ensures var next := UpsertPuts(old(pend), table, es);
              if deferWrites && |next| < maxDirtyKeys
                 && old(bytesN) - Total(old(pend), size) + Total(next, size) < maxDirtyBytes
              then && ok && done == [] && pend == next
                   && bytesN == old(bytesN) - Total(old(pend), size) + Total(next, size)
              else ok ==> pend == map[]
      ensures if ok then Settled() else pend != map[]
      ensures ok && old(Exact()) ==> Exact()
    {
      hide Combined, Total, Drained;
      assert es[..0] == [];
      for i := 0 to |es|
        invariant Valid() && View() == PutAll(old(View()), table, es[..i]) && (old(Exact()) ==> Exact())
        invariant inner.rows == old(inner.rows) && inner.failures == old(inner.failures)
        invariant inner.touched == old(inner.touched)
        invariant bytesN - Total(pend, size) == old(bytesN) - Total(old(pend), size)
        invariant UpsertPuts(pend, table, es[i..]) == UpsertPuts(old(pend), table, es)
      {
        Upsert(RowKey(table, es[i].key), Put(es[i]));
        assert es[..i + 1][..i] == es[..i];
        assert es[i..][1..] == es[i + 1..];
      }
      assert es[..|es|] == es;
      ok, done := FlushIfDue();
    }

    method BulkDel(table: Bytes, keys: seq<Bytes>) returns (ok: bool, ghost done: seq<RowKey>)
      requires Valid()
      modifies this, inner
      ensures Valid() && View() == RemoveAll(old(View()), table, keys)
      ensures Drained(old(inner.rows), UpsertRemoves(old(pend), table, keys), inner.rows, pend, done)
      ensures inner.failures == old(inner.failures) + if ok then 0 else 1
      ensures inner.touched == old(inner.touched) + done
      ensures var next := UpsertRemoves(old(pend), table, keys);
              if deferWrites && |next| < maxDirtyKeys
                 && old(bytesN) - Total(old(pend), size) + Total(next, size) < maxDirtyBytes
              then && ok && done == [] && pend == next
                   && bytesN == old(bytesN) - Total(old(pend), size) + Total(next, size)
              else ok ==> pend == map[]
      ensures if ok then Settled() else pend != map[]
      ensures ok && old(Exact()) ==> Exact()
    {
      hide Combined, Total, Drained;
      assert keys[..0] == [];
      for i := 0 to |keys|
        invariant Valid() && View() == RemoveAll(old(View()), table, keys[..i]) && (old(Exact()) ==> Exact())
        invariant inner.rows == old(inner.rows) && inner.failures == old(inner.failures)
        invariant inner.touched == old(inner.touched)
        invariant bytesN - Total(pend, size) == old(bytesN) - Total(old(pend), size)
        invariant UpsertRemoves(pend, table, keys[i..]) == UpsertRemoves(old(pend), table, keys)
      {
        Upsert(RowKey(table, keys[i]), Remove);
        assert keys[..i + 1][..i] == keys[..i];
        assert keys[i..][1..] == keys[i + 1..];
      }
      assert keys[..|keys|] == keys;
      ok, done := FlushIfDue();
    }

    /** What a read answers: in deferred mode what the view holds, in immediate mode what the store holds, which is
        the view as long as no flush has failed. */
    ghost function Answers(k: RowKey): (e: Option<Entity>)
      reads this, inner
      ensures deferWrites || pend == map[] ==> e == Find(View(), k)
    {
      NothingPending(inner.rows);
      if deferWrites then Find(View(), k) else Find(inner.rows, k)
    }

    method Get(table: Bytes, key: Bytes) returns (e: Option<Entity>)
      requires Valid()
      ensures e == Answers(RowKey(table, key))
      ensures deferWrites ==> e == Find(View(), RowKey(table, key))
      ensures !deferWrites ==> e == Find(inner.rows, RowKey(table, key))
    {
      var k := RowKey(table, key);
      CombinedReads(inner.rows, pend, k);
      if deferWrites && k in pend {
        match pend[k]
        case Put(entity) => return Some(entity);
        case Remove => return None;
      }
      return Find(inner.rows, k);
    }
  }

  function UpsertPuts(pend: Pending, table: Bytes, es: seq<Entity>): Pending
    decreases es
  {
    if es == [] then pend else UpsertPuts(pend[RowKey(table, es[0].key) := Put(es[0])], table, es[1..])
  }

  function UpsertRemoves(pend: Pending, table: Bytes, keys: seq<Bytes>): Pending
    decreases keys
  {
    if keys == [] then pend else UpsertRemoves(pend[RowKey(table, keys[0]) := Remove], table, keys[1..])
  }

  function PutAll(rows: Rows, table: Bytes, es: seq<Entity>): Rows {
    if es == [] then rows
    else PutAll(rows, table, es[..|es| - 1])[RowKey(table, es[|es| - 1].key) := es[|es| - 1]]
  }

  function RemoveAll(rows: Rows, table: Bytes, keys: seq<Bytes>): Rows {
    if keys == [] then rows else RemoveAll(rows, table, keys[..|keys| - 1]) - {RowKey(table, keys[|keys| - 1])}
  }

  // ---------- sequences of calls ----------

  datatype Call =
    | SetCall(table: Bytes, entity: Entity)
    | BulkSetCall(table: Bytes, entities: seq<Entity>)
    | DelCall(table: Bytes, key: Bytes)
    | BulkDelCall(table: Bytes, keys: seq<Bytes>)
    | FlushCall
    | GetCall(table: Bytes, key: Bytes)

  /** A map that is updated at once. */
  function PlainMap(rows: Rows, c: Call): Rows {
    match c
    case SetCall(table, e) => rows[RowKey(table, e.key) := e]
    case BulkSetCall(table, es) => PutAll(rows, table, es)
    case DelCall(table, key) => rows - {RowKey(table, key)}
    case BulkDelCall(table, keys) => RemoveAll(rows, table, keys)
    case _ => rows
  }

  function PlainRun(rows: Rows, calls: seq<Call>): Rows {
    if calls == [] then rows else PlainMap(PlainRun(rows, calls[..|calls| - 1]), calls[|calls| - 1])
  }

  function PlainAnswer(rows: Rows, c: Call): Option<Entity> {
    if c.GetCall? then Find(rows, RowKey(c.table, c.key)) else None
  }

  /** What a call leaves pending if it flushes nothing. */
  function OnPending(pend: Pending, c: Call): Pending {
    match c
    case SetCall(table, e) => pend[RowKey(table, e.key) := Put(e)]
    case BulkSetCall(table, es) => UpsertPuts(pend, table, es)
    case DelCall(table, key) => pend[RowKey(table, key) := Remove]
    case BulkDelCall(table, keys) => UpsertRemoves(pend, table, keys)
    case _ => pend
  }

  function PendingRun(pend: Pending, calls: seq<Call>): Pending {
    if calls == [] then pend else OnPending(PendingRun(pend, calls[..|calls| - 1]), calls[|calls| - 1])
  }

  /** Call `n` does not ask for a flush and leaves the buffer under both limits if nothing has been flushed before. */
  ghost predicate StaysUnder(pend: Pending, bytesN: int, calls: seq<Call>, n: nat, b: WriteBatcher)
    requires n < |calls|
  {
    var next := PendingRun(pend, calls[..n + 1]);
    && !calls[n].FlushCall? && |next| < b.maxDirtyKeys
    && bytesN - Total(pend, b.size) + Total(next, b.size) < b.maxDirtyBytes
  }

  lemma {:induction false} StaysUnderParts(pend: Pending, bytesN: int, calls: seq<Call>, n: nat, b: WriteBatcher)
    requires n < |calls| && StaysUnder(pend, bytesN, calls, n, b)
    ensures var next := OnPending(PendingRun(pend, calls[..n]), calls[n]);
            && next == PendingRun(pend, calls[..n + 1]) && !calls[n].FlushCall? && |next| < b.maxDirtyKeys
            && bytesN - Total(pend, b.size) + Total(next, b.size) < b.maxDirtyBytes
  {
    hide Total, OnPending;
    assert calls[..n + 1][..n] == calls[..n];
  }

  method Perform(b: WriteBatcher, c: Call) returns (answer: Option<Entity>, ok: bool)
    requires b.Valid() && b.deferWrites
    modifies b, b.inner
    ensures b.Valid() && b.View() == PlainMap(old(b.View()), c)
    ensures answer == PlainAnswer(old(b.View()), c)
    ensures ok <==> b.inner.failures == old(b.inner.failures)
    ensures b.inner.failures >= old(b.inner.failures)
    ensures var next := OnPending(old(b.pend), c);
            !c.FlushCall? && |next| < b.maxDirtyKeys
            && old(b.bytesN) - Total(old(b.pend), b.size) + Total(next, b.size) < b.maxDirtyBytes ==>
              && ok && b.inner.touched == old(b.inner.touched) && b.pend == next
              && b.bytesN - Total(b.pend, b.size) == old(b.bytesN) - Total(old(b.pend), b.size)
    ensures ok && old(b.Exact()) ==> b.Exact()
  {
    hide Combined, Total, Drained;
    answer, ok := None, true;
    ghost var done;
    match c
    case SetCall(table, e) => ok, done := b.Set(table, e);
    case BulkSetCall(table, es) => ok, done := b.BulkSet(table, es);
    case DelCall(table, key) => ok, done := b.Del(table, key);
    case BulkDelCall(table, keys) => ok, done := b.BulkDel(table, keys);
    case FlushCall => ok, done := b.Flush();
    case GetCall(table, key) => answer := b.Get(table, key);
  }

  /** Whatever calls are made in deferred mode, with whatever limits and failures of the store, every Get answers as
      a map updated at once would; a failure is reported exactly when a call of the store has failed, and as long as
      none does the byte estimate stays exact. Until a limit is reached the store is not called at all. */
  method PerformAll(b: WriteBatcher, calls: seq<Call>) returns (answers: seq<Option<Entity>>, ok: bool)
    requires b.Valid() && b.deferWrites
    modifies b, b.inner
    ensures b.Valid() && b.View() == PlainRun(old(b.View()), calls)
    ensures |answers| == |calls|
    ensures forall i :: 0 <= i < |calls| ==> answers[i] == PlainAnswer(PlainRun(old(b.View()), calls[..i]), calls[i])
    ensures ok <==> b.inner.failures == old(b.inner.failures)
    ensures ok && old(b.Exact()) ==> b.Exact()
    ensures (forall n :: 0 <= n < |calls| ==> StaysUnder(old(b.pend), old(b.bytesN), calls, n, b)) ==>
              ok && b.inner.touched == old(b.inner.touched) && b.pend == PendingRun(old(b.pend), calls)
  {
    hide Combined, Total, PlainMap, PlainAnswer, OnPending, StaysUnder, WriteBatcher.Valid, WriteBatcher.View,
      WriteBatcher.Exact;
    ghost var roomy := forall n :: 0 <= n < |calls| ==> StaysUnder(old(b.pend), old(b.bytesN), calls, n, b);
    answers, ok := [], true;
    assert calls[..0] == [];
    for i := 0 to |calls|
      invariant b.Valid() && b.View() == PlainRun(old(b.View()), calls[..i])
      invariant |answers| == i
      invariant forall j :: 0 <= j < i ==> answers[j] == PlainAnswer(PlainRun(old(b.View()), calls[..j]), calls[j])
      invariant ok <==> b.inner.failures == old(b.inner.failures)
      invariant b.inner.failures >= old(b.inner.failures)
      invariant roomy ==> && ok && b.inner.touched == old(b.inner.touched)
                          && b.pend == PendingRun(old(b.pend), calls[..i])
                          && b.bytesN - Total(b.pend, b.size) == old(b.bytesN) - Total(old(b.pend), b.size)
      invariant ok && old(b.Exact()) ==> b.Exact()
    {
      if roomy {
        StaysUnderParts(old(b.pend), old(b.bytesN), calls, i, b);
      }
      var answer, fine := Perform(b, calls[i]);
      answers, ok := answers + [answer], ok && fine;
      assert calls[..i + 1][..i] == calls[..i];
    }
    assert calls[..|calls|] == calls;
  }
}
