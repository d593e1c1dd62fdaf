/** The bulk operations of the file store refine the one-by-one operations, for every order in which the per-key
    workers run. */
module FileStoreBulk {
  import opened Wrappers
  import opened WalCodec
  import opened Entities
  import opened FileStore

  // ---------- deduplication and grouping ----------

  function KeysOf(es: seq<Entity>): (ks: seq<Bytes>)
    ensures |ks| == |es| && forall i :: 0 <= i < |es| ==> ks[i] == es[i].key
  {
    if es == [] then [] else [es[0].key] + KeysOf(es[1..])
  }

  /** Where `k` is among the entities, or their number. */
  function PlaceOf(es: seq<Entity>, k: Bytes): (i: nat)
    ensures i <= |es| && (i < |es| ==> es[i].key == k) && forall j :: 0 <= j < i ==> es[j].key != k
  {
    IndexOf(KeysOf(es), k)
  }

  /** Repeated keys collapsed to their last entity, in first-seen order. */
  function Dedupe(es: seq<Entity>): seq<Entity> {
    if es == [] then []
    else
      var front, e := Dedupe(es[..|es| - 1]), es[|es| - 1];
      var i := PlaceOf(front, e.key);
      if i < |front| then front[i := e] else front + [e]
  }

  ghost predicate DistinctKeys(es: seq<Entity>) {
    forall i, j :: 0 <= i < j < |es| ==> es[i].key != es[j].key
  }

  function KeysWithSk(es: seq<Entity>, sk: Bytes): seq<Bytes> {
    if es == [] then []
    else KeysWithSk(es[..|es| - 1], sk) + if es[|es| - 1].sk == sk then [es[|es| - 1].key] else []
  }

  function SksOf(es: seq<Entity>): set<Bytes> {
    if es == [] then {}
    else SksOf(es[..|es| - 1]) + if es[|es| - 1].sk == [] then {} else {es[|es| - 1].sk}
  }

  function WriteAll(keys: map<Bytes, Entity>, es: seq<Entity>): map<Bytes, Entity> {
    if es == [] then keys else WriteAll(keys, es[..|es| - 1])[es[|es| - 1].key := es[|es| - 1]]
  }

  /** Every index file that gains keys, written once. */
  function UpdatedSks(sks: map<Bytes, seq<Bytes>>, es: seq<Entity>): map<Bytes, seq<Bytes>> {
    map sk | sk in sks.Keys + SksOf(es) ::
      if sk in SksOf(es) then AddMissing(List(sks, sk), KeysWithSk(es, sk)) else sks[sk]
  }

  function OnBulkSet(f: Files, es: seq<Entity>): Files {
    Files(WriteAll(f.keys, Dedupe(es)), UpdatedSks(f.sks, Dedupe(es)))
  }

  /** The keys among `ks` that are stored under `sk`. */
  function Gone(keys: map<Bytes, Entity>, ks: set<Bytes>, sk: Bytes): set<Bytes> {
    set k | k in ks && k in keys && keys[k].sk == sk
  }

  function RemovedSks(sks: map<Bytes, seq<Bytes>>, keys: map<Bytes, Entity>, ks: set<Bytes>): map<Bytes, seq<Bytes>> {
    map sk | sk in sks && (sk == [] || Gone(keys, ks, sk) == {} || Drop(sks[sk], Gone(keys, ks, sk)) != []) ::
      if sk == [] then sks[sk] else Drop(sks[sk], Gone(keys, ks, sk))
  }

  function OnBulkDel(f: Files, ks: seq<Bytes>): Files {
    var gone := set k | k in ks;
    Files(f.keys - gone, RemovedSks(f.sks, f.keys, gone))
  }

  // ---------- writes in any order ----------

  /** The last entity of `es` with key `k`. */
  function LastOf(es: seq<Entity>, k: Bytes): Option<Entity> {
    if es == [] then None else if es[|es| - 1].key == k then Some(es[|es| - 1]) else LastOf(es[..|es| - 1], k)
  }

  lemma {:induction false} WriteAllReads(keys: map<Bytes, Entity>, es: seq<Entity>, k: Bytes)
    ensures Find(WriteAll(keys, es), k) == if LastOf(es, k).Some? then LastOf(es, k) else Find(keys, k)
  {
    if es != [] {
      WriteAllReads(keys, es[..|es| - 1], k);
    }
  }

  lemma {:induction false} LastOfDistinct(es: seq<Entity>, i: nat)
    requires DistinctKeys(es) && i < |es|
    ensures LastOf(es, es[i].key) == Some(es[i])
  {
    if i < |es| - 1 {
      LastOfDistinct(es[..|es| - 1], i);
    }
  }

  lemma {:induction false} LastOfMissing(es: seq<Entity>, k: Bytes)
    ensures LastOf(es, k).None? <==> forall i :: 0 <= i < |es| ==> es[i].key != k
  {
    if es != [] {
      LastOfMissing(es[..|es| - 1], k);
    }
  }

  // ---------- index files, one at a time ----------

  /** What one index file holds after a batch. */
  function UpdatedList(list: Option<seq<Bytes>>, es: seq<Entity>, sk: Bytes): Option<seq<Bytes>> {
    if sk in SksOf(es) then Some(AddMissing(if list.Some? then list.value else [], KeysWithSk(es, sk))) else list
  }

  lemma UpdatedReads(sks: map<Bytes, seq<Bytes>>, es: seq<Entity>, sk: Bytes)
    ensures Find(UpdatedSks(sks, es), sk) == UpdatedList(Find(sks, sk), es, sk)
  {
    hide AddMissing, KeysWithSk, SksOf;
  }

  lemma {:induction false} Snoc(es: seq<Entity>, e: Entity, sk: Bytes)
    ensures KeysWithSk(es + [e], sk) == if e.sk == sk then KeysWithSk(es, sk) + [e.key] else KeysWithSk(es, sk)
    ensures SksOf(es + [e]) == if e.sk == [] then SksOf(es) else SksOf(es) + {e.sk}
  {
    assert (es + [e])[..|es|] == es;
  }

  // ---------- bulk set ----------

  lemma {:induction false} DedupeDistinct(es: seq<Entity>)
    ensures DistinctKeys(Dedupe(es)) && forall e :: e in Dedupe(es) ==> e in es
  {
    if es != [] {
      DedupeDistinct(es[..|es| - 1]);
      assert es == es[..|es| - 1] + [es[|es| - 1]];
    }
  }

  /** Deduplication keeps the last entity of every key. */
  lemma {:induction false} DedupeLast(es: seq<Entity>, k: Bytes)
    ensures LastOf(Dedupe(es), k) == LastOf(es, k)
  {
    if es != [] {
      var front, e := Dedupe(es[..|es| - 1]), es[|es| - 1];
      DedupeLast(es[..|es| - 1], k);
      DedupeDistinct(es[..|es| - 1]);
      DedupeDistinct(es);
      var i := PlaceOf(front, e.key);
      if i < |front| {
        LastOfReplaced(front, i, e, k);
      } else {
        assert (front + [e])[..|front|] == front;
      }
    }
  }

  lemma LastOfReplaced(es: seq<Entity>, i: nat, e: Entity, k: Bytes)
    requires DistinctKeys(es) && i < |es| && es[i].key == e.key
    ensures LastOf(es[i := e], k) == if k == e.key then Some(e) else LastOf(es, k)
  {
    LastOfMissing(es, k);
    LastOfMissing(es[i := e], k);
    if k == e.key {
      LastOfDistinct(es[i := e], i);
    } else if j :| 0 <= j < |es| && es[j].key == k {
      LastOfDistinct(es, j);
      LastOfDistinct(es[i := e], j);
    }
  }

  lemma {:induction false} SetAllIsWriteAll(f: Files, es: seq<Entity>)
    ensures SetAll(f, es).keys == WriteAll(f.keys, es)
  {
    if es != [] {
      SetAllIsWriteAll(f, es[..|es| - 1]);
    }
  }

  /** Setting items in turn changes each index file as the whole batch says. */
  lemma {:induction false} SetAllUpdates(f: Files, es: seq<Entity>, sk: Bytes)
    ensures Find(SetAll(f, es).sks, sk) == UpdatedList(Find(f.sks, sk), es, sk)
  {
    hide KeysWithSk, AddMissing, SksOf;
    NoSks(sk);
    if es != [] {
      var front, e := es[..|es| - 1], es[|es| - 1];
      SetAllUpdates(f, front, sk);
      assert es == front + [e];
      Snoc(front, e, sk);
      NoSkNoKeys(front, sk);
      AddMissingSnoc(List(f.sks, sk), KeysWithSk(front, sk), e.key);
      AddNothing(List(f.sks, sk));
    }
  }

  lemma NoSks(sk: Bytes)
    ensures sk !in SksOf([]) && KeysWithSk([], sk) == []
  {}

  lemma AddNothing(list: seq<Bytes>)
    ensures AddMissing(list, []) == list
  {}

  lemma {:induction false} NoSkNoKeys(es: seq<Entity>, sk: Bytes)
    ensures sk != [] && sk !in SksOf(es) ==> KeysWithSk(es, sk) == []
    ensures sk in SksOf(es) ==> sk != []
    ensures forall i :: 0 <= i < |es| && es[i].sk == sk ==> es[i].key in KeysWithSk(es, sk)
  {
    if es != [] {
      NoSkNoKeys(es[..|es| - 1], sk);
    }
  }

  /** Repeats of a key in one batch agree on the secondary key. */
  ghost predicate RepeatsAgree(es: seq<Entity>) {
    forall i, j :: 0 <= i < |es| && 0 <= j < |es| && es[i].key == es[j].key ==> es[i].sk == es[j].sk
  }

  lemma {:induction false} Replaced(es: seq<Entity>, i: nat, e: Entity, sk: Bytes)
    requires i < |es| && es[i].key == e.key && es[i].sk == e.sk
    ensures KeysWithSk(es[i := e], sk) == KeysWithSk(es, sk) && SksOf(es[i := e]) == SksOf(es)
  {
    if i < |es| - 1 {
      assert es[i := e][..|es| - 1] == es[..|es| - 1][i := e];
      Replaced(es[..|es| - 1], i, e, sk);
    } else {
      assert es[i := e][..|es| - 1] == es[..|es| - 1];
    }
  }

  lemma {:induction false} HasItsSk(es: seq<Entity>, i: nat)
    requires i < |es| && es[i].sk != []
    ensures es[i].sk in SksOf(es)
  {
    if i < |es| - 1 {
      HasItsSk(es[..|es| - 1], i);
    }
  }

  /** Grouping the deduplicated batch adds the same keys in the same order. */
  lemma {:induction false} DedupeAddsSame(list: seq<Bytes>, es: seq<Entity>, sk: Bytes)
    requires RepeatsAgree(es)
    ensures AddMissing(list, KeysWithSk(Dedupe(es), sk)) == AddMissing(list, KeysWithSk(es, sk))
    ensures SksOf(Dedupe(es)) == SksOf(es)
  {
    hide AddMissing, KeysWithSk, SksOf;
    if es != [] {
      var rest, e := es[..|es| - 1], es[|es| - 1];
      var front := Dedupe(rest);
      DedupeAddsSame(list, rest, sk);
      DedupeDistinct(rest);
      assert es == rest + [e];
      Snoc(rest, e, sk);
      AddMissingSnoc(list, KeysWithSk(rest, sk), e.key);
      AddMissingSnoc(list, KeysWithSk(front, sk), e.key);
      var i := PlaceOf(front, e.key);
      if i < |front| {
        assert front[i] in rest;
        Replaced(front, i, e, sk);
        NoSkNoKeys(front, sk);
        if e.sk != [] {
          HasItsSk(front, i);
        }
        AddMissingHas(list, KeysWithSk(front, sk));
      } else {
        Snoc(front, e, sk);
      }
    }
  }

  /** A bulk set leaves the key files of setting its items in turn, and the same index lists when repeats of a
      key agree on the secondary key. */
  lemma {:induction false} BulkSetRefines(f: Files, es: seq<Entity>)
    ensures OnBulkSet(f, es).keys == SetAll(f, es).keys
    ensures RepeatsAgree(es) ==> OnBulkSet(f, es) == SetAll(f, es)
  {
    hide SetAll, WriteAll, Dedupe, UpdatedSks, AddMissing, KeysWithSk, SksOf, LastOf;
    SetAllIsWriteAll(f, es);
    forall k ensures Find(WriteAll(f.keys, Dedupe(es)), k) == Find(WriteAll(f.keys, es), k) {
      WriteAllReads(f.keys, Dedupe(es), k);
      WriteAllReads(f.keys, es, k);
      DedupeLast(es, k);
    }
    SameReads(WriteAll(f.keys, Dedupe(es)), WriteAll(f.keys, es));
    if RepeatsAgree(es) {
      forall sk ensures Find(UpdatedSks(f.sks, Dedupe(es)), sk) == Find(SetAll(f, es).sks, sk) {
        SetAllUpdates(f, es, sk);
        UpdatedReads(f.sks, Dedupe(es), sk);
        DedupeAddsSame(List(f.sks, sk), es, sk);
      }
      SameReads(UpdatedSks(f.sks, Dedupe(es)), SetAll(f, es).sks);
    }
  }

  lemma {:induction false} SetAllKeepsIndex(f: Files, es: seq<Entity>)
    requires IndexOk(f)
    ensures IndexOk(SetAll(f, es))
  {
    hide IndexOk, OnSet;
    if es != [] {
      SetAllKeepsIndex(f, es[..|es| - 1]);
      SetKeepsIndex(SetAll(f, es[..|es| - 1]), es[|es| - 1]);
    }
  }

  /** Whatever the repeats, a bulk set is setting the deduplicated items in turn, so it keeps the index in step. */
  lemma {:induction false} BulkSetKeepsIndex(f: Files, es: seq<Entity>)
    ensures OnBulkSet(f, es) == SetAll(f, Dedupe(es))
    ensures IndexOk(f) ==> IndexOk(OnBulkSet(f, es))
  {
    hide SetAll, WriteAll, Dedupe, UpdatedSks, IndexOk;
    SetAllIsWriteAll(f, Dedupe(es));
    forall sk ensures Find(UpdatedSks(f.sks, Dedupe(es)), sk) == Find(SetAll(f, Dedupe(es)).sks, sk) {
      SetAllUpdates(f, Dedupe(es), sk);
      UpdatedReads(f.sks, Dedupe(es), sk);
    }
    SameReads(UpdatedSks(f.sks, Dedupe(es)), SetAll(f, Dedupe(es)).sks);
    if IndexOk(f) {
      SetAllKeepsIndex(f, Dedupe(es));
    }
  }

  // ---------- bulk delete ----------

  /** With the index in step, a bulk delete is deleting in turn and ignoring the keys that are not there. */
  lemma {:induction false} BulkDelRefines(f: Files, ks: seq<Bytes>)
    requires IndexOk(f)
    ensures OnBulkDel(f, ks) == DelAll(f, ks)
  {
    if ks == [] {
      NothingGone(f);
    } else {
      var front, k := ks[..|ks| - 1], ks[|ks| - 1];
      BulkDelRefines(f, front);
      assert ks == front + [k];
      var before := set j | j in front;
      assert (set j | j in ks) == before + {k};
      OneMoreGone(f, before, k);
    }
  }

  /** What one index file holds after the keys `ks` are gone. */
  function RemainingList(list: Option<seq<Bytes>>, gone: set<Bytes>): Option<seq<Bytes>> {
    if list.None? || gone == {} then list
    else if Drop(list.value, gone) == [] then None
    else Some(Drop(list.value, gone))
  }

  lemma RemovedReads(sks: map<Bytes, seq<Bytes>>, keys: map<Bytes, Entity>, ks: set<Bytes>, sk: Bytes)
    requires ListsOk(sks)
    ensures Find(RemovedSks(sks, keys, ks), sk) == RemainingList(Find(sks, sk), Gone(keys, ks, sk))
  {
    hide Drop, Gone;
    if sk in sks {
      DropNothing(sks[sk], {});
    }
  }

  lemma {:induction false} DelAllKeepsIndex(f: Files, ks: seq<Bytes>)
    requires IndexOk(f)
    ensures IndexOk(DelAll(f, ks))
  {
    hide IndexOk, OnDel;
    if ks != [] {
      DelAllKeepsIndex(f, ks[..|ks| - 1]);
      DelKeepsIndex(DelAll(f, ks[..|ks| - 1]), ks[|ks| - 1]);
    }
  }

  lemma NothingGone(f: Files)
    requires IndexOk(f)
    ensures OnBulkDel(f, []) == f
  {
    hide RemovedSks;
    assert (set k: Bytes | k in []) == {};
    forall sk ensures Find(RemovedSks(f.sks, f.keys, {}), sk) == Find(f.sks, sk) {
      RemovedReads(f.sks, f.keys, {}, sk);
    }
    SameReads(RemovedSks(f.sks, f.keys, {}), f.sks);
  }

  lemma GoneGrows(keys: map<Bytes, Entity>, gone: set<Bytes>, k: Bytes, sk: Bytes)
    ensures Gone(keys, gone + {k}, sk) == Gone(keys, gone, sk) + if k in keys && keys[k].sk == sk then {k} else {}
  {}

  lemma OneMoreGone(f: Files, gone: set<Bytes>, k: Bytes)
    requires IndexOk(f)
    ensures Files(f.keys - (gone + {k}), RemovedSks(f.sks, f.keys, gone + {k})) ==
            OnDel(Files(f.keys - gone, RemovedSks(f.sks, f.keys, gone)), k).0
  {
    hide RemovedSks, Gone, IndexOk, Drop;
    var g := Files(f.keys - gone, RemovedSks(f.sks, f.keys, gone));
    forall sk
      ensures Find(RemovedSks(f.sks, f.keys, gone + {k}), sk) == Find(OnDel(g, k).0.sks, sk)
    {
      OneMoreGoneAt(f, gone, k, sk);
    }
    SameReads(RemovedSks(f.sks, f.keys, gone + {k}), OnDel(g, k).0.sks);
    assert f.keys - (gone + {k}) == f.keys - gone - {k};
  }

  lemma OneMoreGoneAt(f: Files, gone: set<Bytes>, k: Bytes, sk: Bytes)
    requires IndexOk(f)
    ensures Find(RemovedSks(f.sks, f.keys, gone + {k}), sk) ==
            Find(OnDel(Files(f.keys - gone, RemovedSks(f.sks, f.keys, gone)), k).0.sks, sk)
  {
    hide RemovedSks, Drop, Gone, NoRepeats;
    var g := Files(f.keys - gone, RemovedSks(f.sks, f.keys, gone));
    RemovedReads(f.sks, f.keys, gone + {k}, sk);
    RemovedReads(f.sks, f.keys, gone, sk);
    GoneGrows(f.keys, gone, k, sk);
    assert Listed(f, k);
    var before := Gone(f.keys, gone, sk);
    if k in gone || k !in f.keys {
      assert gone + {k} == gone || Gone(f.keys, gone + {k}, sk) == before;
    } else if sk == f.keys[k].sk && sk != [] {
      DropTwice(f.sks[sk], before, {k});
      DropHas(f.sks[sk], before);
      DropNothing(f.sks[sk], {});
      NotGoneYet(f.keys, gone, k, sk);
      assert k in Drop(f.sks[sk], before);
      assert Find(g.sks, sk) == Some(Drop(f.sks[sk], before));
      assert before + {k} != {};
    } else {
      assert Gone(f.keys, gone + {k}, sk) == before || sk !in f.sks;
      assert Find(OnDel(g, k).0.sks, sk) == Find(g.sks, sk);
    }
  }

  lemma NotGoneYet(keys: map<Bytes, Entity>, gone: set<Bytes>, k: Bytes, sk: Bytes)
    requires k !in gone
    ensures k !in Gone(keys, gone, sk)
  {}
}
