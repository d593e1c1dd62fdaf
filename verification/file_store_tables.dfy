/** The file store with all its tables as the store behind the write buffer (internal/fsdb/write_batcher.go:173-190 on
    internal/fsdb/base.go:262-480): each call does to the rows what the buffer takes it to do, and whatever is flushed
    the indexes stay in step. */
module FileStoreTables {
  import opened Wrappers
  import opened WalCodec
  import opened Entities
  import opened FileStore
  import opened Batching

  type Tables = map<Bytes, Files>

  /** The key files of all tables are these rows. */
  ghost predicate Holds(ts: Tables, rows: Rows) {
    forall k :: Find(rows, k) == FileAt(ts, k)
  }

  function FileAt(ts: Tables, k: RowKey): Option<Entity> {
    if k.table in ts then Find(ts[k.table].keys, k.key) else None
  }

  ghost predicate InStep(ts: Tables) {
    forall table :: table in ts ==> IndexOk(ts[table])
  }

  /** Writing a file fails where the directory of the table is missing. */
  function SetIn(ts: Tables, table: Bytes, e: Entity): Option<Tables> {
    if table in ts then Some(ts[table := OnSet(ts[table], e)]) else None
  }

  /** A missing table has no file to find. */
  function DelIn(ts: Tables, table: Bytes, key: Bytes): (Tables, Option<StoreError>) {
    if table !in ts then (ts, Some(NotFound))
    else var (f, err) := OnDel(ts[table], key); (ts[table := f], err)
  }

  /** The call the batcher makes for a change; a missing key counts as deleted. */
  function ApplyIn(ts: Tables, k: RowKey, c: Change): Option<Tables> {
    match c
    case Put(e) => SetIn(ts, k.table, e)
    case Remove =>
      var (after, err) := DelIn(ts, k.table, k.key);
      if err.None? || err == Some(NotFound) then Some(after) else None
  }

  /** A set that is not refused does to the rows what the batcher's store does. */
  lemma SetImplements(ts: Tables, rows: Rows, table: Bytes, e: Entity)
    requires Holds(ts, rows) && InStep(ts)
    ensures SetIn(ts, table, e).Some? <==> table in ts
    ensures table in ts ==> && Holds(SetIn(ts, table, e).value, rows[RowKey(table, e.key) := e])
                            && InStep(SetIn(ts, table, e).value)
  {
    hide IndexOk;
    if table in ts {
      SetKeepsIndex(ts[table], e);
      var after := SetIn(ts, table, e).value;
      forall k ensures Find(rows[RowKey(table, e.key) := e], k) == FileAt(after, k) {
        assert Find(rows, k) == FileAt(ts, k);
      }
    }
  }

  /** A delete always takes the row away, and reports at most that it was not there: never a missing index. */
  lemma DelImplements(ts: Tables, rows: Rows, table: Bytes, key: Bytes)
    requires Holds(ts, rows) && InStep(ts)
    ensures DelIn(ts, table, key).1 == if RowKey(table, key) in rows then None else Some(NotFound)
    ensures Holds(DelIn(ts, table, key).0, rows - {RowKey(table, key)}) && InStep(DelIn(ts, table, key).0)
  {
    hide IndexOk;
    var after := DelIn(ts, table, key).0;
    assert Find(rows, RowKey(table, key)) == FileAt(ts, RowKey(table, key));
    if table in ts {
      DelKeepsIndex(ts[table], key);
    }
    forall k ensures Find(rows - {RowKey(table, key)}, k) == FileAt(after, k) {
      assert Find(rows, k) == FileAt(ts, k);
    }
  }

  /** A change that is not refused, which only a set in a missing table is, applies to the rows. */
  lemma ApplyImplements(ts: Tables, rows: Rows, k: RowKey, c: Change)
    requires Holds(ts, rows) && InStep(ts) && (c.Put? ==> c.entity.key == k.key)
    ensures ApplyIn(ts, k, c).None? <==> c.Put? && k.table !in ts
    ensures ApplyIn(ts, k, c).Some? ==>
              Holds(ApplyIn(ts, k, c).value, Apply(rows, k, c)) && InStep(ApplyIn(ts, k, c).value)
    ensures ApplyIn(ts, k, c).Some? ==> ApplyIn(ts, k, c).value.Keys == ts.Keys
  {
    hide Holds, InStep, OnSet, OnDel;
    match c
    case Put(e) => SetImplements(ts, rows, k.table, e);
    case Remove => DelImplements(ts, rows, k.table, k.key);
  }

  function FlushIn(ts: Tables, pend: Pending, keys: seq<RowKey>): Option<Tables> {
    if keys == [] then Some(ts)
    else
      var front, k := FlushIn(ts, pend, keys[..|keys| - 1]), keys[|keys| - 1];
      if front.None? || k !in pend then front else ApplyIn(front.value, k, pend[k])
  }

  /** Flushing, in whatever order and cut off at whatever key, leaves the rows the batcher takes it to leave and every
      index in step; it is refused exactly when a set is for a missing table. */
  lemma {:induction false} FlushImplements(ts: Tables, rows: Rows, pend: Pending, keys: seq<RowKey>)
    requires Holds(ts, rows) && InStep(ts)
    requires forall k :: k in pend && pend[k].Put? ==> pend[k].entity.key == k.key
    ensures FlushIn(ts, pend, keys).None? <==> exists k :: k in keys && k in pend && pend[k].Put? && k.table !in ts
    ensures FlushIn(ts, pend, keys).Some? ==>
              && Holds(FlushIn(ts, pend, keys).value, Flushed(rows, pend, keys))
              && InStep(FlushIn(ts, pend, keys).value) && FlushIn(ts, pend, keys).value.Keys == ts.Keys
  {
    hide Holds, InStep, ApplyIn;
    if keys != [] {
      var front, k := keys[..|keys| - 1], keys[|keys| - 1];
      FlushImplements(ts, rows, pend, front);
      assert keys == front + [k];
      if FlushIn(ts, pend, front).Some? && k in pend {
        ApplyImplements(FlushIn(ts, pend, front).value, Flushed(rows, pend, front), k, pend[k]);
      }
    }
  }
}
