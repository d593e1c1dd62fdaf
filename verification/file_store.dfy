/** One table of the file store (internal/fsdb/base.go): a file per key, and a file per secondary key that lists
    the keys stored under it. File contents are taken as the values they encode. */
module FileStore {
  import opened Wrappers
  import opened WalCodec
  import opened Entities

  /** The key files and the secondary-key files. */
  datatype Files = Files(keys: map<Bytes, Entity>, sks: map<Bytes, seq<Bytes>>)

  /** `Unreadable`: the file name is empty, so the path names the directory. */
  datatype StoreError = NotFound | NotFoundSk | Unreadable

  // ---------- what each operation does ----------

  /** `list` with the keys it lacks appended, each once. */
  function AddMissing(list: seq<Bytes>, ks: seq<Bytes>): seq<Bytes> {
    if ks == [] then list
    else
      var front := AddMissing(list, ks[..|ks| - 1]);
      if ks[|ks| - 1] in front then front else front + [ks[|ks| - 1]]
  }

  /** `list` without the keys of `gone`. */
  function Drop(list: seq<Bytes>, gone: set<Bytes>): seq<Bytes> {
    if list == [] then []
    else Drop(list[..|list| - 1], gone) + if list[|list| - 1] in gone then [] else [list[|list| - 1]]
  }

  /** A missing file reads as an empty list. */
  function List(sks: map<Bytes, seq<Bytes>>, sk: Bytes): seq<Bytes> {
    if sk in sks then sks[sk] else []
  }

  /** An emptied index file is removed. */
  function WithList(sks: map<Bytes, seq<Bytes>>, sk: Bytes, list: seq<Bytes>): map<Bytes, seq<Bytes>> {
    if list == [] then sks - {sk} else sks[sk := list]
  }

  function OnSet(f: Files, e: Entity): Files {
    Files(f.keys[e.key := e],
          if e.sk == [] || e.key in List(f.sks, e.sk) then f.sks else f.sks[e.sk := List(f.sks, e.sk) + [e.key]])
  }

  function OnDel(f: Files, k: Bytes): (Files, Option<StoreError>) {
    if k !in f.keys then (f, Some(NotFound))
    else
      var sk := f.keys[k].sk;
      var keys := f.keys - {k};
      if sk == [] then (Files(keys, f.sks), None)
      else if sk !in f.sks then (Files(keys, f.sks), Some(NotFoundSk))
      else (Files(keys, WithList(f.sks, sk, Drop(f.sks[sk], {k}))), None)
  }

  function SetAll(f: Files, es: seq<Entity>): Files {
    if es == [] then f else OnSet(SetAll(f, es[..|es| - 1]), es[|es| - 1])
  }

  /** One by one, whatever each reports. */
  function DelAll(f: Files, ks: seq<Bytes>): Files {
    if ks == [] then f else OnDel(DelAll(f, ks[..|ks| - 1]), ks[|ks| - 1]).0
  }

  /** What reading every key of an index gives: the first missing key fails the whole read. */
  function Fetch(keys: map<Bytes, Entity>, ks: seq<Bytes>): Option<seq<Entity>> {
    if ks == [] then Some([])
    else
      var front := Fetch(keys, ks[..|ks| - 1]);
      if front.None? || ks[|ks| - 1] !in keys then None else Some(front.value + [keys[ks[|ks| - 1]]])
  }

  function OnGetBySk(f: Files, sk: Bytes): (Option<seq<Entity>>, Option<StoreError>) {
    if sk == [] then (None, Some(Unreadable))
    else if sk !in f.sks then (None, Some(NotFoundSk))
    else match Fetch(f.keys, f.sks[sk])
         case Some(es) => (Some(es), None)
         case None => (None, Some(NotFound))
  }

  // ---------- the index invariant ----------

  ghost predicate NoRepeats(ks: seq<Bytes>) {
    forall i, j :: 0 <= i < j < |ks| ==> ks[i] != ks[j]
  }

  /** Lists without repeats, and no empty list. */
  ghost predicate ListsOk(sks: map<Bytes, seq<Bytes>>) {
    forall sk :: sk in sks ==> sk != [] && sks[sk] != [] && NoRepeats(sks[sk])
  }

  /** Every stored entity is under its own key and, with a secondary key, listed in that key's index. */
  ghost predicate Listed(f: Files, k: Bytes) {
    k in f.keys ==> f.keys[k].key == k && (f.keys[k].sk != [] ==> k in List(f.sks, f.keys[k].sk))
  }

  ghost predicate IndexOk(f: Files) {
    ListsOk(f.sks) && forall k :: Listed(f, k)
  }

  /** The index lists nothing else: each listed key is present, with that secondary key. */
  ghost predicate Current(f: Files, sk: Bytes, k: Bytes) {
    k in List(f.sks, sk) ==> k in f.keys && f.keys[k].sk == sk
  }

  ghost predicate Exact(f: Files) {
    IndexOk(f) && forall sk, k :: Current(f, sk, k)
  }

  // ---------- lists ----------

  lemma {:induction false} DropHas(list: seq<Bytes>, gone: set<Bytes>)
    ensures forall x :: x in Drop(list, gone) <==> x in list && x !in gone
    ensures NoRepeats(list) ==> NoRepeats(Drop(list, gone))
  {
    if list != [] {
      var front := list[..|list| - 1];
      DropHas(front, gone);
      assert list == front + [list[|list| - 1]];
    }
  }

  /** Dropping keys keeps the others in their order. */
  lemma {:induction false} DropSplits(a: seq<Bytes>, b: seq<Bytes>, gone: set<Bytes>)
    ensures Drop(a + b, gone) == Drop(a, gone) + Drop(b, gone)
  {
    if b == [] {
      assert a + b == a;
    } else {
      var n := |b| - 1;
      DropSplits(a, b[..n], gone);
      assert (a + b)[..|a + b| - 1] == a + b[..n];
    }
  }

  lemma DropOne(x: Bytes, gone: set<Bytes>)
    ensures Drop([x], gone) == if x in gone then [] else [x]
  {
    assert [x][..0] == [];
  }

  lemma {:induction false} DropTwice(list: seq<Bytes>, a: set<Bytes>, b: set<Bytes>)
    ensures Drop(Drop(list, a), b) == Drop(list, a + b)
  {
    if list != [] {
      var front, x := list[..|list| - 1], list[|list| - 1];
      DropTwice(front, a, b);
      if x in a {
        assert Drop(list, a) == Drop(front, a);
      } else {
        assert Drop(list, a) == Drop(front, a) + [x];
        assert (Drop(front, a) + [x])[..|Drop(front, a)|] == Drop(front, a);
      }
    }
  }

  lemma {:induction false} DropNothing(list: seq<Bytes>, gone: set<Bytes>)
    requires forall x :: x in list ==> x !in gone
    ensures Drop(list, gone) == list
  {
    if list != [] {
      DropNothing(list[..|list| - 1], gone);
    }
  }

  lemma {:induction false} AddMissingHas(list: seq<Bytes>, ks: seq<Bytes>)
    ensures forall x :: x in AddMissing(list, ks) <==> x in list || x in ks
    ensures NoRepeats(list) ==> NoRepeats(AddMissing(list, ks))
    ensures list <= AddMissing(list, ks)
  {
    if ks != [] {
      var front := ks[..|ks| - 1];
      AddMissingHas(list, front);
      assert ks == front + [ks[|ks| - 1]];
    }
  }

  lemma {:induction false} AddMissingSnoc(list: seq<Bytes>, ks: seq<Bytes>, k: Bytes)
    ensures AddMissing(list, ks + [k]) ==
              if k in AddMissing(list, ks) then AddMissing(list, ks) else AddMissing(list, ks) + [k]
  {
    assert (ks + [k])[..|ks|] == ks;
  }

  // ---------- single operations, written out ----------

  /** A set appends the key to the list of its secondary key if it is not there, and changes nothing else. */
  lemma SetExactly(f: Files, e: Entity)
    ensures OnSet(f, e).keys == f.keys[e.key := e]
    ensures forall sk :: sk != e.sk ==> Find(OnSet(f, e).sks, sk) == Find(f.sks, sk)
    ensures var list := if e.sk in f.sks then f.sks[e.sk] else [];
            if e.sk == [] || e.key in list then OnSet(f, e).sks == f.sks
            else Find(OnSet(f, e).sks, e.sk) == Some(list + [e.key])
  {}

  // ---------- single operations keep the index ----------

  lemma SetKeepsIndex(f: Files, e: Entity)
    requires IndexOk(f)
    ensures IndexOk(OnSet(f, e))
  {
    var g := OnSet(f, e);
    forall k ensures Listed(g, k) {
      assert Listed(f, k);
    }
  }

  /** With the index in step, deleting a present key never reports a missing index. */
  lemma DelKeepsIndex(f: Files, k: Bytes)
    requires IndexOk(f)
    ensures IndexOk(OnDel(f, k).0)
    ensures OnDel(f, k).1 == if k in f.keys then None else Some(NotFound)
  {
    var g := OnDel(f, k).0;
    assert Listed(f, k);
    if k in f.keys && f.keys[k].sk != [] {
      DropHas(List(f.sks, f.keys[k].sk), {k});
    }
    forall j ensures Listed(g, j) {
      assert Listed(f, j);
    }
  }

  /** Setting `e` would take a present key away from a secondary key it has. */
  predicate Moves(f: Files, e: Entity) {
    e.key in f.keys && f.keys[e.key].sk != [] && f.keys[e.key].sk != e.sk
  }

  /** A set keeps every index exact just when it does not move a present key away from a secondary key. */
  lemma SetKeepsExact(f: Files, e: Entity)
    requires Exact(f)
    ensures Exact(OnSet(f, e)) <==> !Moves(f, e)
  {
    var g := OnSet(f, e);
    SetKeepsIndex(f, e);
    assert Listed(f, e.key);
    if Moves(f, e) {
      assert !Current(g, f.keys[e.key].sk, e.key);
    } else {
      forall sk, k ensures Current(g, sk, k) {
        assert Current(f, sk, k);
      }
    }
  }

  lemma DelKeepsExact(f: Files, k: Bytes)
    requires Exact(f)
    ensures Exact(OnDel(f, k).0)
  {
    var g := OnDel(f, k).0;
    DelKeepsIndex(f, k);
    assert Listed(f, k);
    if k in f.keys && f.keys[k].sk != [] {
      DropHas(f.sks[f.keys[k].sk], {k});
    }
    forall sk, j ensures Current(g, sk, j) {
      assert Current(f, sk, j);
    }
  }

  /** With exact indexes, reading by secondary key returns the present entities with that key, each once, in
      the order of the index. */
  lemma GetBySkIsExact(f: Files, sk: Bytes)
    requires Exact(f)
    ensures var (es, err) := OnGetBySk(f, sk);
            if sk == [] then err == Some(Unreadable)
            else if exists k :: k in f.keys && f.keys[k].sk == sk
            then && err.None? && es.Some? && |es.value| == |List(f.sks, sk)| && NoRepeats(List(f.sks, sk))
                 && (forall i :: 0 <= i < |es.value| ==> es.value[i].key == List(f.sks, sk)[i])
                 && (forall e :: e in es.value <==> e.key in f.keys && f.keys[e.key] == e && e.sk == sk)
            else err == Some(NotFoundSk)
  {
    if sk != [] && sk in f.sks {
      var ks := f.sks[sk];
      forall k | k in ks ensures k in f.keys && f.keys[k].key == k && f.keys[k].sk == sk {
        assert Current(f, sk, k) && Listed(f, k);
      }
      assert ks[0] in ks;
      FetchAll(f.keys, ks);
      FetchedAreListed(f, sk, ks, Fetch(f.keys, ks).value);
    } else {
      forall k | k in f.keys && sk != [] ensures f.keys[k].sk != sk {
        assert Listed(f, k);
      }
    }
  }

  lemma FetchedAreListed(f: Files, sk: Bytes, ks: seq<Bytes>, es: seq<Entity>)
    requires IndexOk(f) && sk in f.sks && f.sks[sk] == ks && |es| == |ks|
    requires forall k :: k in ks ==> k in f.keys && f.keys[k].key == k && f.keys[k].sk == sk
    requires forall i :: 0 <= i < |ks| ==> es[i] == f.keys[ks[i]]
    ensures forall i :: 0 <= i < |es| ==> es[i].key == ks[i]
    ensures forall e :: e in es <==> e.key in f.keys && f.keys[e.key] == e && e.sk == sk
  {
    forall i | 0 <= i < |es| ensures es[i].key == ks[i] {
      assert ks[i] in ks;
    }
    forall e: Entity | e.key in f.keys && f.keys[e.key] == e && e.sk == sk ensures e in es {
      assert Listed(f, e.key);
      var i :| 0 <= i < |ks| && ks[i] == e.key;
      assert es[i] == e;
    }
  }

  lemma {:induction false} FetchAll(keys: map<Bytes, Entity>, ks: seq<Bytes>)
    requires forall k :: k in ks ==> k in keys
    ensures Fetch(keys, ks).Some? && |Fetch(keys, ks).value| == |ks|
    ensures forall i :: 0 <= i < |ks| ==> Fetch(keys, ks).value[i] == keys[ks[i]]
  {
    if ks != [] {
      FetchAll(keys, ks[..|ks| - 1]);
    }
  }

  /** A key that changes its secondary key and is then deleted stays listed under the old one: reading by it fails. */
  lemma MovedKeyBreaksGetBySk(k: Bytes, before: Bytes, now: Bytes, body: Bytes)
    requires before != [] && now != before
    ensures var f := SetAll(Files(map[], map[]), [Entity(k, before, body), Entity(k, now, body)]);
            var g := OnDel(f, k).0;
            IndexOk(g) && OnGetBySk(g, before) == (None, Some(NotFound))
  {
    var es := [Entity(k, before, body), Entity(k, now, body)];
    assert es[..1] == [Entity(k, before, body)];
    assert es[..1][..0] == [];
    var f0 := Files(map[], map[]);
    var f1 := OnSet(f0, es[0]);
    assert SetAll(f0, es[..1]) == f1;
    var f := OnSet(f1, es[1]);
    assert SetAll(f0, es) == f;
    SetKeepsIndex(f0, es[0]);
    SetKeepsIndex(f1, es[1]);
    DelKeepsIndex(f, k);
    var g := OnDel(f, k).0;
    assert List(g.sks, before) == [k];
    assert [k][..0] == [];
    assert Fetch(g.keys, [k]) == None;
  }
}
