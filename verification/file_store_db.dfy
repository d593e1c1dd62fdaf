/** The file store as code: single and bulk operations on the key files and the secondary-key files of a table. */
module FileStoreDb {
  import opened Wrappers
  import opened WalCodec
  import opened Entities
  import opened FileStore
  import opened FileStoreBulk

  /** Some of the writes of a batch with distinct keys are done, those of `todo` are not. */
  ghost predicate PartlyWritten(keys: map<Bytes, Entity>, before: map<Bytes, Entity>, es: seq<Entity>, todo: set<nat>) {
    forall k :: Find(keys, k) ==
                if PlaceOf(es, k) < |es| && PlaceOf(es, k) !in todo then Some(es[PlaceOf(es, k)]) else Find(before, k)
  }

  function Indices(n: nat): (s: set<nat>)
    ensures forall i: nat :: i in s <==> i < n
  {
    if n == 0 then {} else Indices(n - 1) + {n - 1}
  }

  lemma PlaceOfOwn(es: seq<Entity>, i: nat)
    requires DistinctKeys(es) && i < |es|
    ensures PlaceOf(es, es[i].key) == i
  {
    assert PlaceOf(es, es[i].key) <= i;
  }

  lemma OneMoreWritten(keys: map<Bytes, Entity>, before: map<Bytes, Entity>, es: seq<Entity>, todo: set<nat>, i: nat)
    requires PartlyWritten(keys, before, es, todo) && DistinctKeys(es) && i < |es|
    ensures PartlyWritten(keys[es[i].key := es[i]], before, es, todo - {i})
  {
    PlaceOfOwn(es, i);
    forall k
      ensures Find(keys[es[i].key := es[i]], k) ==
              if PlaceOf(es, k) < |es| && PlaceOf(es, k) !in todo - {i}
              then Some(es[PlaceOf(es, k)])
              else Find(before, k)
    {
      assert PlaceOf(es, k) == i ==> k == es[i].key;
    }
  }

  lemma {:induction false} AllWritten(keys: map<Bytes, Entity>, before: map<Bytes, Entity>, es: seq<Entity>)
    requires PartlyWritten(keys, before, es, {}) && DistinctKeys(es)
    ensures keys == WriteAll(before, es)
  {
    hide WriteAll, LastOf, PlaceOf;
    forall k ensures Find(keys, k) == Find(WriteAll(before, es), k) {
      WriteAllReads(before, es, k);
      if PlaceOf(es, k) < |es| {
        LastOfDistinct(es, PlaceOf(es, k));
      } else {
        LastOfMissing(es, k);
      }
    }
    SameReads(keys, WriteAll(before, es));
  }

  lemma {:induction false} KeysWithSkHas(es: seq<Entity>, sk: Bytes, k: Bytes)
    ensures k in KeysWithSk(es, sk) <==> exists i :: 0 <= i < |es| && es[i].key == k && es[i].sk == sk
  {
    if es != [] {
      KeysWithSkHas(es[..|es| - 1], sk, k);
    }
  }

  /** `dedupeByKey`. */
  method DedupeByKey(entities: seq<Entity>) returns (out: seq<Entity>)
    ensures out == Dedupe(entities) && DistinctKeys(out)
  {
    hide Dedupe, DistinctKeys, PlaceOf;
    var idx: map<Bytes, nat> := map[];
    out := [];
    NothingToDedupe();
    assert entities[..0] == [];
    for n := 0 to |entities|
      invariant out == Dedupe(entities[..n]) && DistinctKeys(out)
      invariant forall k :: k in idx ==> idx[k] < |out| && out[idx[k]].key == k
      invariant forall i :: 0 <= i < |out| ==> out[i].key in idx
    {
      var e := entities[n];
      DedupeNext(entities[..n], e);
      assert entities[..n + 1] == entities[..n] + [e];
      if e.key in idx {
        PlaceOfOwn(out, idx[e.key]);
        out := out[idx[e.key] := e];
      } else {
        idx := idx[e.key := |out|];
        out := out + [e];
      }
      DedupeDistinct(entities[..n + 1]);
    }
    assert entities[..|entities|] == entities;
  }

  lemma NothingToDedupe()
    ensures Dedupe([]) == [] && DistinctKeys([])
  {}

  lemma {:induction false} DedupeNext(es: seq<Entity>, e: Entity)
    ensures Dedupe(es + [e]) ==
              var i := PlaceOf(Dedupe(es), e.key); if i < |Dedupe(es)| then Dedupe(es)[i := e] else Dedupe(es) + [e]
  {
    assert (es + [e])[..|es|] == es;
  }

  /** `dedupeKeys`. */
  method DedupeKeys(keys: seq<Bytes>) returns (out: seq<Bytes>)
    ensures out == AddMissing([], keys)
  {
    var seen: set<Bytes> := {};
    out := [];
    assert keys[..0] == [];
    for n := 0 to |keys|
      invariant out == AddMissing([], keys[..n])
      invariant forall k :: k in seen <==> k in out
    {
      AddMissingSnoc([], keys[..n], keys[n]);
      assert keys[..n + 1] == keys[..n] + [keys[n]];
      if keys[n] !in seen {
        seen := seen + {keys[n]};
        out := out + [keys[n]];
      }
    }
    assert keys[..|keys|] == keys;
  }

  /** Groups keys by secondary key, in the order in which secondary keys are first seen. */
  method GroupBySk(es: seq<Entity>) returns (order: seq<Bytes>, bySk: map<Bytes, seq<Bytes>>)
    ensures NoRepeats(order)
    ensures forall sk :: sk in order <==> sk in SksOf(es)
    ensures forall sk :: sk in order ==> sk in bySk && bySk[sk] == KeysWithSk(es, sk)
  {
    hide KeysWithSk, SksOf;
    order, bySk := [], map[];
    forall sk ensures sk !in SksOf([]) && KeysWithSk([], sk) == [] {
      NoSks(sk);
    }
    assert es[..0] == [];
    for n := 0 to |es|
      invariant NoRepeats(order)
      invariant forall sk :: sk in order <==> sk in SksOf(es[..n])
      invariant forall sk :: sk in bySk <==> sk in order
      invariant forall sk :: sk in order ==> bySk[sk] == KeysWithSk(es[..n], sk)
    {
      var e := es[n];
      assert es[..n + 1] == es[..n] + [e];
      forall sk
        ensures KeysWithSk(es[..n + 1], sk) ==
                  if e.sk == sk then KeysWithSk(es[..n], sk) + [e.key] else KeysWithSk(es[..n], sk)
        ensures SksOf(es[..n + 1]) == if e.sk == [] then SksOf(es[..n]) else SksOf(es[..n]) + {e.sk}
      {
        Snoc(es[..n], e, sk);
      }
      NoSkNoKeys(es[..n], e.sk);
      if e.sk != [] {
        if e.sk !in bySk {
          order := order + [e.sk];
          bySk := bySk[e.sk := []];
        }
        bySk := bySk[e.sk := bySk[e.sk] + [e.key]];
      } else {
        NoSkNoKeys(es[..n], []);
      }
    }
    assert es[..|es|] == es;
  }

  /** The index files after those of `done` have been rewritten for the batch. */
  ghost predicate PartlyUpdated(
    sks: map<Bytes, seq<Bytes>>, before: map<Bytes, seq<Bytes>>, es: seq<Entity>, done: seq<Bytes>)
  {
    forall sk :: Find(sks, sk) == if sk in done then UpdatedList(Find(before, sk), es, sk) else Find(before, sk)
  }

  lemma {:induction false} AllUpdated(sks: map<Bytes, seq<Bytes>>, before: map<Bytes, seq<Bytes>>, es: seq<Entity>,
      done: seq<Bytes>)
    requires PartlyUpdated(sks, before, es, done) && forall sk :: sk in done <==> sk in SksOf(es)
    ensures sks == UpdatedSks(before, es)
  {
    hide UpdatedSks, SksOf, KeysWithSk, AddMissing;
    forall sk ensures Find(sks, sk) == Find(UpdatedSks(before, es), sk) {
      UpdatedReads(before, es, sk);
    }
    SameReads(sks, UpdatedSks(before, es));
  }

  lemma {:induction false} OneMoreUpdated(
    sks: map<Bytes, seq<Bytes>>, before: map<Bytes, seq<Bytes>>, es: seq<Entity>, done: seq<Bytes>, sk: Bytes)
    requires PartlyUpdated(sks, before, es, done) && sk !in done && sk in SksOf(es)
    ensures PartlyUpdated(sks[sk := AddMissing(List(sks, sk), KeysWithSk(es, sk))], before, es, done + [sk])
  {
    hide SksOf, KeysWithSk, AddMissing;
    assert Find(sks, sk) == Find(before, sk);
  }

  lemma {:induction false} SkHasKeys(es: seq<Entity>, sk: Bytes)
    requires sk in SksOf(es)
    ensures KeysWithSk(es, sk) != []
  {
    if es[|es| - 1].sk != sk {
      SkHasKeys(es[..|es| - 1], sk);
    }
  }

  /** The index files after those of `done` have lost the keys of the victims. */
  ghost predicate PartlyRemoved(
    sks: map<Bytes, seq<Bytes>>, before: map<Bytes, seq<Bytes>>, victims: seq<Entity>, done: seq<Bytes>)
  {
    forall sk :: Find(sks, sk) ==
                 if sk in done then RemainingList(Find(before, sk), KeySet(KeysWithSk(victims, sk)))
                 else Find(before, sk)
  }

  function KeySet(ks: seq<Bytes>): set<Bytes> { set k | k in ks }

  lemma {:induction false} OneMoreRemoved(
    sks: map<Bytes, seq<Bytes>>, before: map<Bytes, seq<Bytes>>, victims: seq<Entity>, done: seq<Bytes>, sk: Bytes,
    after: map<Bytes, seq<Bytes>>)
    requires PartlyRemoved(sks, before, victims, done) && sk !in done && KeysWithSk(victims, sk) != []
    requires after == if sk in sks then WithList(sks, sk, Drop(sks[sk], KeySet(KeysWithSk(victims, sk)))) else sks
    ensures PartlyRemoved(after, before, victims, done + [sk])
  {
    hide KeysWithSk, Drop;
    assert Find(sks, sk) == Find(before, sk);
    assert KeysWithSk(victims, sk)[0] in KeySet(KeysWithSk(victims, sk));
  }

  /** The victims of a bulk delete: the requested keys that are present, with their secondary keys. */
  ghost predicate AreVictims(victims: seq<Entity>, keys: map<Bytes, Entity>, ks: set<Bytes>) {
    && (forall v :: v in victims ==> v.key in ks && v.key in keys && v.sk == keys[v.key].sk)
    && (forall k :: k in ks && k in keys ==> exists i :: 0 <= i < |victims| && victims[i].key == k)
  }

  lemma {:induction false} VictimsAreGone(victims: seq<Entity>, keys: map<Bytes, Entity>, ks: set<Bytes>, sk: Bytes)
    requires AreVictims(victims, keys, ks)
    ensures KeySet(KeysWithSk(victims, sk)) == Gone(keys, ks, sk)
  {
    hide KeysWithSk;
    forall k ensures k in KeySet(KeysWithSk(victims, sk)) <==> k in Gone(keys, ks, sk) {
      KeysWithSkHas(victims, sk, k);
      if k in Gone(keys, ks, sk) {
        var i :| 0 <= i < |victims| && victims[i].key == k;
        assert victims[i] in victims;
      }
    }
  }

  lemma {:induction false} AllRemoved(
    sks: map<Bytes, seq<Bytes>>, f: Files, victims: seq<Entity>, done: seq<Bytes>, ks: set<Bytes>)
    requires PartlyRemoved(sks, f.sks, victims, done) && AreVictims(victims, f.keys, ks) && ListsOk(f.sks)
    requires forall sk :: sk in done <==> sk in SksOf(victims)
    ensures sks == RemovedSks(f.sks, f.keys, ks)
  {
    hide RemovedSks, SksOf, KeysWithSk, Drop, Gone, AreVictims;
    forall sk ensures Find(sks, sk) == Find(RemovedSks(f.sks, f.keys, ks), sk) {
      RemovedReads(f.sks, f.keys, ks, sk);
      VictimsAreGone(victims, f.keys, ks, sk);
      NoSkNoKeys(victims, sk);
    }
    SameReads(sks, RemovedSks(f.sks, f.keys, ks));
  }

  class Db {
    var keys: map<Bytes, Entity>
    var sks: map<Bytes, seq<Bytes>>

    function Contents(): Files
      reads this
    {
      Files(keys, sks)
    }

    /** The index is in step with the key files. */
    ghost predicate Valid()
      reads this
    {
      IndexOk(Contents())
    }

    constructor ()
      ensures Valid() && Contents() == Files(map[], map[])
    {
      keys, sks := map[], map[];
    }

    method Set(e: Entity)
      requires Valid()
      modifies this
      ensures Valid() && Contents() == OnSet(old(Contents()), e)
      ensures keys == old(keys)[e.key := e]
    {
      SetKeepsIndex(Contents(), e);
      keys := keys[e.key := e];
      if e.sk != [] {
        AddMissingSnoc(List(sks, e.sk), [], e.key);
        AddNothing(List(sks, e.sk));
        assert [] + [e.key] == [e.key];
        AppendKeysToSk(e.sk, [e.key]);
        assert e.key in List(old(sks), e.sk) ==> sks == old(sks);
      }
      assert Contents() == OnSet(old(Contents()), e);
    }

    /** Rewrites one index file once. */
    method AppendKeysToSk(sk: Bytes, newKeys: seq<Bytes>)
      modifies this`sks
      ensures newKeys == [] ==> sks == old(sks)
      ensures newKeys != [] ==> sks == old(sks)[sk := AddMissing(List(old(sks), sk), newKeys)]
    {
      var list := List(sks, sk);
      var changed := false;
      assert newKeys[..0] == [];
      for i := 0 to |newKeys|
        invariant sks == old(sks) && list == AddMissing(List(sks, sk), newKeys[..i])
        invariant changed <==> list != List(sks, sk)
        invariant List(sks, sk) <= list
        invariant i > 0 ==> list != []
      {
        AddMissingSnoc(List(sks, sk), newKeys[..i], newKeys[i]);
        assert newKeys[..i + 1] == newKeys[..i] + [newKeys[i]];
        if newKeys[i] !in list {
          list := list + [newKeys[i]];
          changed := true;
        }
      }
      assert newKeys[..|newKeys|] == newKeys;
      if !changed {
        assert newKeys != [] ==> sks[sk := list] == sks;
        return;
      }
      sks := sks[sk := list];
    }

    /** Rewrites one index file once, and removes it when emptied. */
    method RemoveKeysFromSk(sk: Bytes, gone: seq<Bytes>)
      modifies this`sks
      ensures sks == if sk in old(sks) then WithList(old(sks), sk, Drop(old(sks)[sk], KeySet(gone))) else old(sks)
    {
      if sk !in sks {
        return;
      }
      var list := sks[sk];
      var kept: seq<Bytes> := [];
      assert list[..0] == [];
      for i := 0 to |list|
        invariant kept == Drop(list[..i], KeySet(gone))
      {
        assert list[..i + 1][..i] == list[..i];
        if list[i] !in gone {
          kept := kept + [list[i]];
        }
      }
      assert list[..|list|] == list;
      if kept == [] {
        sks := sks - {sk};
        return;
      }
      sks := sks[sk := kept];
    }

    method Del(key: Bytes) returns (err: Option<StoreError>)
      requires Valid()
      modifies this
      ensures Valid() && (Contents(), err) == OnDel(old(Contents()), key)
      ensures err == if key in old(keys) then None else Some(NotFound)
      ensures keys == old(keys) - {key}
      ensures key !in old(keys) ==> sks == old(sks)
      ensures key in old(keys) ==> forall sk :: sk != old(keys)[key].sk ==> Find(sks, sk) == Find(old(sks), sk)
    {
      DelKeepsIndex(Contents(), key);
      if key !in keys {
        return Some(NotFound);
      }
      var data := keys[key];
      keys := keys - {key};
      if data.sk != [] {
        if data.sk !in sks {
          return Some(NotFoundSk);
        }
        RemoveKeysFromSk(data.sk, [key]);
        assert KeySet([key]) == {key};
      }
      return None;
    }

    method Get(key: Bytes) returns (e: Option<Entity>)
      ensures e == Find(keys, key)
    {
      return if key in keys then Some(keys[key]) else None;
    }

    method GetBySk(sk: Bytes) returns (es: Option<seq<Entity>>, err: Option<StoreError>)
      ensures (es, err) == OnGetBySk(Contents(), sk)
    {
      if sk == [] {
        return None, Some(Unreadable);
      }
      if sk !in sks {
        return None, Some(NotFoundSk);
      }
      var list := sks[sk];
      var results: seq<Entity> := [];
      assert list[..0] == [];
      for i := 0 to |list|
        invariant Fetch(keys, list[..i]) == Some(results)
      {
        assert list[..i + 1][..i] == list[..i];
        var result := Get(list[i]);
        if result.None? {
          FetchFails(keys, list, i + 1);
          return None, Some(NotFound);
        }
        results := results + [result.value];
      }
      assert list[..|list|] == list;
      return Some(results), None;
    }

    /** The per-key workers, in any order. */
    method WriteKeyFiles(es: seq<Entity>)
      requires DistinctKeys(es)
      modifies this`keys
      ensures keys == WriteAll(old(keys), es)
    {
      hide DistinctKeys, WriteAll, PartlyWritten;
      var todo: set<nat> := Indices(|es|);
      NothingWritten(keys, es, todo);
      while todo != {}
        invariant forall i :: i in todo ==> i < |es|
        invariant PartlyWritten(keys, old(keys), es, todo)
        decreases |todo|
      {
        var i :| i in todo;
        OneMoreWritten(keys, old(keys), es, todo, i);
        keys := keys[es[i].key := es[i]];
        todo := todo - {i};
      }
      AllWritten(keys, old(keys), es);
    }

    method BulkUpdateSk(es: seq<Entity>)
      modifies this`sks
      ensures sks == UpdatedSks(old(sks), es)
    {
      hide PartlyUpdated, SksOf, KeysWithSk, AddMissing, UpdatedSks;
      var order, bySk := GroupBySk(es);
      NothingUpdated(sks, es);
      assert order[..0] == [];
      for i := 0 to |order|
        invariant PartlyUpdated(sks, old(sks), es, order[..i])
      {
        SkHasKeys(es, order[i]);
        OneMoreUpdated(sks, old(sks), es, order[..i], order[i]);
        AppendKeysToSk(order[i], bySk[order[i]]);
        assert order[..i + 1] == order[..i] + [order[i]];
      }
      assert order[..|order|] == order;
      AllUpdated(sks, old(sks), es, order);
    }

    method BulkSet(entities: seq<Entity>)
      requires Valid()
      modifies this
      ensures Valid() && Contents() == OnBulkSet(old(Contents()), entities)
    {
      hide IndexOk, Dedupe, DistinctKeys, WriteAll, UpdatedSks;
      BulkSetKeepsIndex(Contents(), entities);
      var es := DedupeByKey(entities);
      WriteKeyFiles(es);
      BulkUpdateSk(es);
    }

    /** The victims: present keys with the secondary keys their files name, read before anything is removed. */
    method FindVictims(ks: seq<Bytes>, ghost wanted: set<Bytes>) returns (victims: seq<Entity>)
      requires forall k :: k in ks <==> k in wanted
      ensures AreVictims(victims, keys, wanted)
    {
      victims := [];
      for i := 0 to |ks|
        invariant forall v :: v in victims ==> v.key in wanted && v.key in keys && v.sk == keys[v.key].sk
        invariant forall j :: 0 <= j < i && ks[j] in keys ==> exists n :: 0 <= n < |victims| && victims[n].key == ks[j]
      {
        var data := Get(ks[i]);
        if data.None? {
          continue;
        }
        ghost var before := victims;
        victims := victims + [Entity(ks[i], data.value.sk, [])];
        assert victims[|before|].key == ks[i];
        assert forall n :: 0 <= n < |before| ==> victims[n] == before[n];
      }
    }

    method BulkRemoveSk(victims: seq<Entity>, ghost f: Files, ghost ks: set<Bytes>)
      requires sks == f.sks && ListsOk(f.sks) && AreVictims(victims, f.keys, ks)
      modifies this`sks
      ensures sks == RemovedSks(f.sks, f.keys, ks)
    {
      hide PartlyRemoved, SksOf, KeysWithSk, Drop, RemovedSks, AreVictims, ListsOk;
      var order, bySk := GroupBySk(victims);
      NothingRemoved(sks, victims);
      assert order[..0] == [];
      for i := 0 to |order|
        invariant PartlyRemoved(sks, f.sks, victims, order[..i])
      {
        SkHasKeys(victims, order[i]);
        ghost var before := sks;
        RemoveKeysFromSk(order[i], bySk[order[i]]);
        OneMoreRemoved(before, f.sks, victims, order[..i], order[i], sks);
        assert order[..i + 1] == order[..i] + [order[i]];
      }
      assert order[..|order|] == order;
      AllRemoved(sks, f, victims, order, ks);
    }

    method BulkDel(ks: seq<Bytes>)
      requires Valid()
      modifies this
      ensures Valid() && Contents() == OnBulkDel(old(Contents()), ks)
    {
      hide IndexOk, ListsOk, AreVictims, RemovedSks, AddMissing, NoRepeats, DelAll, OnBulkDel, KeySet;
      ghost var f := Contents();
      ghost var wanted := KeySet(ks);
      StaysInStep(f, ks);
      var unique := DedupeKeys(ks);
      SameKeys(ks, unique);
      var victims := FindVictims(unique, wanted);
      RemoveKeyFiles(victims, wanted);
      BulkRemoveSk(victims, f, wanted);
      BulkDelDone(f, ks, Contents());
    }

    /** The per-key removals, in any order. */
    method RemoveKeyFiles(victims: seq<Entity>, ghost wanted: set<Bytes>)
      requires AreVictims(victims, keys, wanted)
      modifies this`keys
      ensures keys == old(keys) - wanted
    {
      hide AreVictims;
      var todo: set<Bytes> := set v | v in victims :: v.key;
      VictimKeys(victims, keys, wanted, todo);
      ghost var all := todo;
      while todo != {}
        invariant todo <= all && keys == old(keys) - (all - todo)
        decreases |todo|
      {
        var k :| k in todo;
        keys := keys - {k};
        todo := todo - {k};
      }
      assert all - todo == all;
    }
  }

  lemma StaysInStep(f: Files, ks: seq<Bytes>)
    requires IndexOk(f)
    ensures ListsOk(f.sks) && IndexOk(OnBulkDel(f, ks))
  {
    hide DelAll, RemovedSks, NoRepeats;
    BulkDelRefines(f, ks);
    DelAllKeepsIndex(f, ks);
  }

  lemma {:induction false} SameKeys(ks: seq<Bytes>, unique: seq<Bytes>)
    requires unique == AddMissing([], ks)
    ensures forall k :: k in unique <==> k in KeySet(ks)
  {
    hide AddMissing;
    AddMissingHas([], ks);
  }

  lemma BulkDelDone(f: Files, ks: seq<Bytes>, g: Files)
    requires g == Files(f.keys - KeySet(ks), RemovedSks(f.sks, f.keys, KeySet(ks)))
    ensures g == OnBulkDel(f, ks)
  {
    hide RemovedSks;
  }

  lemma NothingWritten(keys: map<Bytes, Entity>, es: seq<Entity>, todo: set<nat>)
    requires forall i: nat :: i < |es| ==> i in todo
    ensures PartlyWritten(keys, keys, es, todo)
  {}

  lemma NothingUpdated(sks: map<Bytes, seq<Bytes>>, es: seq<Entity>)
    ensures PartlyUpdated(sks, sks, es, [])
  {}

  lemma NothingRemoved(sks: map<Bytes, seq<Bytes>>, victims: seq<Entity>)
    ensures PartlyRemoved(sks, sks, victims, [])
  {}

  lemma {:induction false} FetchFails(keys: map<Bytes, Entity>, ks: seq<Bytes>, n: nat)
    requires n <= |ks| && Fetch(keys, ks[..n]).None?
    ensures Fetch(keys, ks).None?
    decreases |ks|
  {
    if n < |ks| {
      assert ks[..|ks| - 1][..n] == ks[..n];
      FetchFails(keys, ks[..|ks| - 1], n);
    } else {
      assert ks[..n] == ks;
    }
  }

  /** Removing the victims' files is removing the requested keys. */
  lemma VictimKeys(victims: seq<Entity>, keys: map<Bytes, Entity>, ks: set<Bytes>, all: set<Bytes>)
    requires AreVictims(victims, keys, ks) && all == set v | v in victims :: v.key
    ensures keys - all == keys - ks
  {
    forall k | k in keys ensures k in all <==> k in ks {
      if k in ks {
        var i :| 0 <= i < |victims| && victims[i].key == k;
        assert victims[i] in victims;
      }
    }
  }
}
