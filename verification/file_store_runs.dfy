/** The secondary index over every run of the file store. */
module FileStoreRuns {
  import opened Wrappers
  import opened WalCodec
  import opened Entities
  import opened FileStore
  import opened FileStoreBulk

  datatype StoreOp =
    | SetOne(entity: Entity)
    | SetMany(entities: seq<Entity>)
    | DelOne(key: Bytes)
    | DelMany(keys: seq<Bytes>)

  function OnOp(f: Files, op: StoreOp): Files {
    match op
    case SetOne(e) => OnSet(f, e)
    case SetMany(es) => OnBulkSet(f, es)
    case DelOne(k) => OnDel(f, k).0
    case DelMany(ks) => OnBulkDel(f, ks)
  }

  /** The files after a run of operations on an empty table. */
  function After(ops: seq<StoreOp>): Files {
    if ops == [] then Files(map[], map[]) else OnOp(After(ops[..|ops| - 1]), ops[|ops| - 1])
  }

  /** After any run every entity with a secondary key is listed exactly once in its index, no index is empty, and
      deleting a present key never misses its index. */
  lemma {:induction false} IndexInStep(ops: seq<StoreOp>, k: Bytes)
    ensures IndexOk(After(ops))
    ensures OnDel(After(ops), k).1 == if k in After(ops).keys then None else Some(NotFound)
  {
    hide IndexOk, OnSet, OnDel, OnBulkSet, OnBulkDel, SetAll, DelAll;
    if ops == [] {
      EmptyIndex();
    } else {
      var f, op := After(ops[..|ops| - 1]), ops[|ops| - 1];
      IndexInStep(ops[..|ops| - 1], k);
      match op {
        case SetOne(e) => SetKeepsIndex(f, e);
        case SetMany(es) => BulkSetKeepsIndex(f, es);
        case DelOne(j) => DelKeepsIndex(f, j);
        case DelMany(ks) =>
          BulkDelRefines(f, ks);
          DelAllKeepsIndex(f, ks);
      }
    }
    DelKeepsIndex(After(ops), k);
  }

  lemma EmptyIndex()
    ensures IndexOk(Files(map[], map[])) && Exact(Files(map[], map[]))
  {}

  /** No write of the run takes a present key away from its secondary key. */
  ghost predicate NoMoves(ops: seq<StoreOp>) {
    ops == [] || (NoMoves(ops[..|ops| - 1]) && Stays(After(ops[..|ops| - 1]), ops[|ops| - 1]))
  }

  ghost predicate Stays(f: Files, op: StoreOp) {
    match op
    case SetOne(e) => !Moves(f, e)
    case SetMany(es) => forall e :: e in Dedupe(es) ==> !Moves(f, e)
    case _ => true
  }

  lemma {:induction false} SetAllKeepsExact(f: Files, es: seq<Entity>)
    requires Exact(f) && DistinctKeys(es) && forall e :: e in es ==> !Moves(f, e)
    ensures Exact(SetAll(f, es))
  {
    hide Exact, OnSet;
    if es != [] {
      var front, e := es[..|es| - 1], es[|es| - 1];
      SetAllKeepsExact(f, front);
      SetAllIsWriteAll(f, front);
      WriteAllReads(f.keys, front, e.key);
      LastOfMissing(front, e.key);
      assert forall i :: 0 <= i < |front| ==> front[i] == es[i];
      assert LastOf(front, e.key).None?;
      assert e in es;
      assert Find(SetAll(f, front).keys, e.key) == Find(f.keys, e.key);
      SetKeepsExact(SetAll(f, front), e);
    }
  }

  lemma {:induction false} DelAllKeepsExact(f: Files, ks: seq<Bytes>)
    requires Exact(f)
    ensures Exact(DelAll(f, ks))
  {
    hide Exact, OnDel;
    if ks != [] {
      DelAllKeepsExact(f, ks[..|ks| - 1]);
      DelKeepsExact(DelAll(f, ks[..|ks| - 1]), ks[|ks| - 1]);
    }
  }

  lemma ExactIndexOk(f: Files)
    requires Exact(f)
    ensures IndexOk(f)
  {}

  /** As long as no write moves a present key, each index lists exactly the present keys with that secondary key,
      so reading by it returns exactly those entities. */
  lemma {:induction false} IndexExact(ops: seq<StoreOp>)
    requires NoMoves(ops)
    ensures Exact(After(ops))
  {
    hide Exact, IndexOk, OnSet, OnDel, OnBulkSet, OnBulkDel, SetAll, DelAll, Dedupe, Moves, DistinctKeys;
    if ops == [] {
      EmptyIndex();
    } else {
      var f, op := After(ops[..|ops| - 1]), ops[|ops| - 1];
      IndexExact(ops[..|ops| - 1]);
      match op {
        case SetOne(e) => SetKeepsExact(f, e);
        case SetMany(es) =>
          BulkSetKeepsIndex(f, es);
          DedupeDistinct(es);
          SetAllKeepsExact(f, Dedupe(es));
        case DelOne(j) => DelKeepsExact(f, j);
        case DelMany(ks) =>
          ExactIndexOk(f);
          BulkDelRefines(f, ks);
          DelAllKeepsExact(f, ks);
      }
    }
  }
}
