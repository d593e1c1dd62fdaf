/** The file of applied Raft entries and stable state (internal/wal/raft_wal.go, cmd/node/setup/raft.go). */
module RaftLogFile {
  import opened Wrappers
  import opened WalCodec
  import opened WalLog
  import opened WalFile
  import opened Entities

  datatype LogItem = LogItem(index: int, term: int, data: Bytes)
  datatype Meta = Meta(currentTerm: int, votedFor: Bytes)

  datatype RaftCodec = RaftCodec(
    encodeItem: LogItem -> Option<Bytes>, decodeItem: Bytes -> Option<LogItem>,
    encodeMeta: Meta -> Option<Bytes>, decodeMeta: Bytes -> Option<Meta>)

  ghost predicate FaithfulRaft(c: RaftCodec) {
    && (forall x :: c.encodeItem(x).Some? ==> c.decodeItem(c.encodeItem(x).value) == Some(x))
    && (forall x :: c.encodeMeta(x).Some? ==> c.decodeMeta(c.encodeMeta(x).value) == Some(x))
  }

  /** "__raft__" */
  const RAFT_TABLE: Bytes := [95, 95, 114, 97, 102, 116, 95, 95]
  const NO_META := Meta(0, [])

  function LogRecord(s: U64, payload: Bytes): Record { Record(s, OP_RAFT_LOG, RAFT_TABLE, [], [], payload) }

  function MetaRecord(s: U64, payload: Bytes): Record { Record(s, OP_RAFT_META, RAFT_TABLE, [], [], payload) }

  // ---------- what is persisted ----------

  /** A successful PersistApplied or SaveMeta. */
  datatype Event = Persisted(term: int, data: Bytes) | MetaSaved(meta: Meta)

  /** The entries persisted so far: the i-th gets index i. */
  function Items(evs: seq<Event>): seq<LogItem> {
    if evs == [] then []
    else
      var front := Items(evs[..|evs| - 1]);
      match evs[|evs| - 1]
      case Persisted(term, data) => front + [LogItem(|front|, term, data)]
      case MetaSaved(_) => front
  }

  function LastMeta(evs: seq<Event>): Meta {
    if evs == [] then NO_META
    else match evs[|evs| - 1]
         case Persisted(_, _) => LastMeta(evs[..|evs| - 1])
         case MetaSaved(m) => m
  }

  /** The payload of an event that comes after `n` persisted entries. */
  function PayloadOf(e: Event, n: nat, c: RaftCodec): Option<Bytes> {
    match e
    case Persisted(term, data) => c.encodeItem(LogItem(n, term, data))
    case MetaSaved(m) => c.encodeMeta(m)
  }

  ghost predicate Encodable(evs: seq<Event>, c: RaftCodec) {
    evs == [] || (Encodable(evs[..|evs| - 1], c) && PayloadOf(evs[|evs| - 1], |Items(evs[..|evs| - 1])|, c).Some?)
  }

  ghost function RecordsOf(evs: seq<Event>, c: RaftCodec): (rs: seq<Record>)
    requires Encodable(evs, c) && |evs| < 0x1_0000_0000_0000_0000
    ensures |rs| == |evs|
  {
    if evs == [] then []
    else
      var front := evs[..|evs| - 1];
      var b := PayloadOf(evs[|evs| - 1], |Items(front)|, c).value;
      RecordsOf(front, c) + [RecordOf(evs[|evs| - 1], |evs|, b)]
  }

  function RecordOf(e: Event, s: U64, b: Bytes): Record {
    if e.Persisted? then LogRecord(s, b) else MetaRecord(s, b)
  }

  // ---------- what is loaded ----------

  function Place(m: map<int, LogItem>, r: Record, c: RaftCodec): map<int, LogItem> {
    if r.op == OP_RAFT_LOG && c.decodeItem(r.value).Some?
    then m[c.decodeItem(r.value).value.index := c.decodeItem(r.value).value] else m
  }

  function ByIndex(rs: seq<Record>, c: RaftCodec): map<int, LogItem> {
    if rs == [] then map[] else Place(ByIndex(rs[..|rs| - 1], c), rs[|rs| - 1], c)
  }

  function Remember(m: Meta, r: Record, c: RaftCodec): Meta {
    if r.op == OP_RAFT_META && c.decodeMeta(r.value).Some? then c.decodeMeta(r.value).value else m
  }

  function MetaOf(rs: seq<Record>, c: RaftCodec): Meta {
    if rs == [] then NO_META else Remember(MetaOf(rs[..|rs| - 1], c), rs[|rs| - 1], c)
  }

  predicate Decodable(r: Record, c: RaftCodec) {
    (r.op == OP_RAFT_LOG ==> c.decodeItem(r.value).Some?) && (r.op == OP_RAFT_META ==> c.decodeMeta(r.value).Some?)
  }

  ghost predicate Contiguous(m: map<int, LogItem>) {
    forall i :: i in m <==> 0 <= i < |m|
  }

  datatype LoadError = Undecodable | StartsLate(index: int) | Gap(after: int)

  // ---------- the round trip ----------

  lemma {:induction false} ItemsPrefix(evs: seq<Event>, k: nat)
    requires k <= |evs|
    ensures Items(evs[..k]) <= Items(evs)
  {
    if k < |evs| {
      assert evs[..|evs| - 1][..k] == evs[..k];
      ItemsPrefix(evs[..|evs| - 1], k);
    } else {
      assert evs[..k] == evs;
    }
  }

  lemma {:induction false} RecordsPrefix(evs: seq<Event>, k: nat, c: RaftCodec)
    requires k <= |evs| && Encodable(evs, c) && |evs| < 0x1_0000_0000_0000_0000
    ensures Encodable(evs[..k], c) && RecordsOf(evs[..k], c) == RecordsOf(evs, c)[..k]
  {
    if k < |evs| {
      assert evs[..|evs| - 1][..k] == evs[..k];
      RecordsPrefix(evs[..|evs| - 1], k, c);
    } else {
      assert evs[..k] == evs;
    }
  }

  /** `rs` reads as the entries of `evs`, entry i at index i without a gap, and their last meta. */
  ghost predicate ReadsAs(rs: seq<Record>, evs: seq<Event>, c: RaftCodec) {
    var m, items := ByIndex(rs, c), Items(evs);
    && Contiguous(m) && |m| == |items|
    && (forall i :: 0 <= i < |items| ==> i in m && m[i] == items[i] && m[i].index == i)
    && MetaOf(rs, c) == LastMeta(evs)
    && forall r :: r in rs ==> Decodable(r, c) && r.sequence > 0
  }

  /** Reading back the records of a run gives its entries at their indices and its last meta. */
  lemma {:induction false} RecordsReadBack(evs: seq<Event>, c: RaftCodec)
    requires Encodable(evs, c) && FaithfulRaft(c) && |evs| < 0x1_0000_0000_0000_0000
    ensures ReadsAs(RecordsOf(evs, c), evs, c)
  {
    hide ReadsAs, Items, LastMeta, ByIndex, MetaOf, FaithfulRaft;
    if evs == [] {
      NothingRead(c);
    } else {
      var front, e := evs[..|evs| - 1], evs[|evs| - 1];
      RecordsReadBack(front, c);
      OneMoreRead(RecordsOf(front, c), front, e, |evs|, PayloadOf(e, |Items(front)|, c).value, c);
      assert evs == front + [e];
    }
  }

  lemma ReadsAsParts(rs: seq<Record>, evs: seq<Event>, c: RaftCodec)
    requires ReadsAs(rs, evs, c)
    ensures forall r :: r in rs ==> Decodable(r, c) && r.sequence > 0
  {}

  lemma NothingRead(c: RaftCodec)
    ensures ReadsAs([], [], c)
  {}

  lemma {:induction false} OneMoreRead(rs: seq<Record>, evs: seq<Event>, e: Event, s: U64, b: Bytes, c: RaftCodec)
    requires ReadsAs(rs, evs, c) && FaithfulRaft(c) && PayloadOf(e, |Items(evs)|, c) == Some(b) && s > 0
    ensures ReadsAs(rs + [RecordOf(e, s, b)], evs + [e], c)
  {
    var r := RecordOf(e, s, b);
    assert (rs + [r])[..|rs|] == rs;
    assert (evs + [e])[..|evs|] == evs;
    var m, n := ByIndex(rs, c), |Items(evs)|;
    assert ByIndex(rs + [r], c) == Place(m, r, c);
    assert n !in m;
    assert e.Persisted? ==> Place(m, r, c) == m[n := LogItem(n, e.term, e.data)];
  }

  lemma {:induction false} NothingSkipped(rs: seq<Record>)
    requires forall r :: r in rs ==> r.sequence > 0
    ensures Tail(rs, 0) == rs
  {
    if rs != [] {
      assert rs == [rs[0]] + rs[1..];
      NothingSkipped(rs[1..]);
    }
  }

  /** After any interleaving of PersistApplied and SaveMeta and any cut of the file, what Load reads has no gap:
      it is a prefix of the persisted entries with entry i at index i, and the meta is the last one that survived. */
  lemma {:induction false} CutLosesOnlyATail(evs: seq<Event>, n: nat, c: RaftCodec, crc: Checksum)
    requires Encodable(evs, c) && FaithfulRaft(c) && |evs| < 0x1_0000_0000_0000_0000
    requires AllLoggable(RecordsOf(evs, c)) && n <= |Frames(RecordsOf(evs, c), crc)|
    ensures var k := WholeFrames(RecordsOf(evs, c), n, crc);
            var rs := Tail(Records(Frames(RecordsOf(evs, c), crc)[..n], crc), 0);
            && ReadsAs(rs, evs[..k], c) && Items(evs[..k]) <= Items(evs)
            && (n == |Frames(RecordsOf(evs, c), crc)| ==> k == |evs|)
  {
    hide Loggable, Records, WholeFrames, GoodLen, Frames, FaithfulRaft, Encodable, RecordsOf, ReadsAs, Tail, Items;
    var all := RecordsOf(evs, c);
    var k := WholeFrames(all, n, crc);
    TornTail(all, n, [], crc);
    RecordsPrefix(evs, k, c);
    ItemsPrefix(evs, k);
    RecordsReadBack(evs[..k], c);
    ReadsAsParts(all[..k], evs[..k], c);
    NothingSkipped(all[..k]);
    if n == |Frames(all, crc)| {
      WholeFile(all, k, crc);
    }
  }

  lemma WholeFile(rs: seq<Record>, k: nat, crc: Checksum)
    requires k < |rs| ==> |Frames(rs, crc)| < |Frames(rs[..k + 1], crc)|
    requires k <= |rs|
    ensures k == |rs|
  {
    if k < |rs| {
      PrefixFrames(rs, k + 1, crc);
    }
  }

  lemma {:induction false} PrefixFrames(rs: seq<Record>, k: nat, crc: Checksum)
    requires k <= |rs|
    ensures |Frames(rs[..k], crc)| <= |Frames(rs, crc)|
  {
    hide Frame;
    if k > 0 {
      assert rs[..k][1..] == rs[1..][..k - 1];
      PrefixFrames(rs[1..], k - 1, crc);
    }
  }

  // ---------- the code ----------

  lemma AlwaysMarshals(r: Record, crc: Checksum)
    requires HoldsValue(r.op) && r.table == RAFT_TABLE
    ensures Marshal(r, crc) == Ok(Frame(r, crc))
  {
    hide Frame;
  }

  class RaftWal {
    const w: Wal
    const codec: RaftCodec
    var sequence: U64

    ghost predicate Valid()
      reads this, w
    {
      w.Valid()
    }

    constructor (w: Wal, codec: RaftCodec)
      requires w.Valid()
      ensures Valid() && this.w == w && this.codec == codec && sequence == 0
    {
      this.w, this.codec, sequence := w, codec, 0;
    }

    /** A record goes to the write offset of the file; an entry that cannot be encoded changes nothing. */
    method AppendEntry(index: int, term: int, data: Bytes) returns (ok: bool)
      requires Valid()
      modifies this, w
      ensures Valid() && ok == codec.encodeItem(LogItem(index, term, data)).Some?
      ensures ok ==> && sequence == Next(old(sequence))
                     && w.Snapshot() == OnAppend(old(w.Snapshot()),
                         LogRecord(sequence, codec.encodeItem(LogItem(index, term, data)).value), w.crc).0
      ensures !ok ==> sequence == old(sequence) && w.Snapshot() == old(w.Snapshot())
    {
      hide Marshal, WriteAt;
      var b := codec.encodeItem(LogItem(index, term, data));
      if b.None? {
        return false;
      }
      sequence := Next(sequence);
      AlwaysMarshals(LogRecord(sequence, b.value), w.crc);
      var err := w.AppendLocked(LogRecord(sequence, b.value));
      ok := true;
    }

    method SaveMeta(meta: Meta) returns (ok: bool)
      requires Valid()
      modifies this, w
      ensures Valid() && ok == codec.encodeMeta(meta).Some?
      ensures ok ==> && sequence == Next(old(sequence))
                     && w.Snapshot() == OnAppend(old(w.Snapshot()),
                         MetaRecord(sequence, codec.encodeMeta(meta).value), w.crc).0
      ensures !ok ==> sequence == old(sequence) && w.Snapshot() == old(w.Snapshot())
    {
      hide Marshal, WriteAt;
      var b := codec.encodeMeta(meta);
      if b.None? {
        return false;
      }
      sequence := Next(sequence);
      AlwaysMarshals(MetaRecord(sequence, b.value), w.crc);
      var err := w.AppendLocked(MetaRecord(sequence, b.value));
      ok := true;
    }

    /** Rebuilds the log by index. The entries come back in order exactly when the indices run from 0 without a
        gap; whatever the records, the counter resumes at the highest sequence number. */
    method Load() returns (entries: seq<LogItem>, meta: Meta, err: Option<LoadError>)
      requires Valid()
      modifies this, w
      ensures Valid()
      ensures var rs := Tail(Records(old(w.file), w.crc), 0);
              && ((forall r :: r in rs ==> Decodable(r, codec)) ==>
                    && sequence == MaxSeq(Records(old(w.file), w.crc))
                    && w.file == old(w.file)[..GoodLen(old(w.file), w.crc)] && w.pos == |w.file|
                    && (err.None? <==> Contiguous(ByIndex(rs, codec))))
              && (err.None? ==> && (forall r :: r in rs ==> Decodable(r, codec)) && Contiguous(ByIndex(rs, codec))
                                && |entries| == |ByIndex(rs, codec)| && meta == MetaOf(rs, codec)
                                && forall i :: 0 <= i < |entries| ==> entries[i] == ByIndex(rs, codec)[i])
    {
      hide Records, GoodLen, Tail, MaxSeq, ByIndex, MetaOf, Place, Remember;
      var c := codec;
      var accept := (rs: seq<Record>) => rs == [] || Decodable(rs[|rs| - 1], c);
      ghost var file := w.file;
      var handed, maxSeq, ok;
      ghost var seen;
      handed, maxSeq, ok, seen := w.ReplaySince(0, accept);
      if !ok {
        HandedIsInFile(file, seen, handed, w.crc);
        assert !Decodable(handed[|handed| - 1], codec);
        return [], NO_META, Some(Undecodable);
      }
      forall r | r in handed ensures Decodable(r, c) {
        var n :| 0 <= n < |handed| && handed[n] == r;
        assert accept(handed[..n + 1]);
      }
      sequence := maxSeq;
      var byIndex;
      byIndex, meta := Collect(handed, c);
      entries, err := Assemble(byIndex);
    }
  }

  lemma {:induction false} HandedIsInFile(file: Bytes, seen: seq<Record>, handed: seq<Record>, crc: Checksum)
    requires seen <= Records(file, crc) && handed == Tail(seen, 0) && handed != []
    ensures handed[|handed| - 1] in Tail(Records(file, crc), 0)
  {
    hide Records;
    var all := Records(file, crc);
    TailPrefix(seen, all[|seen|..], 0);
    assert all == seen + all[|seen|..];
    assert handed[|handed| - 1] == Tail(all, 0)[|handed| - 1];
  }

  /** The callback of the replay: entries by index, and the latest meta. */
  method Collect(rs: seq<Record>, c: RaftCodec) returns (byIndex: map<int, LogItem>, meta: Meta)
    requires forall r :: r in rs ==> Decodable(r, c)
    ensures byIndex == ByIndex(rs, c) && meta == MetaOf(rs, c)
  {
    byIndex, meta := map[], NO_META;
    assert rs[..0] == [];
    for i := 0 to |rs|
      invariant byIndex == ByIndex(rs[..i], c) && meta == MetaOf(rs[..i], c)
    {
      assert rs[..i + 1][..i] == rs[..i];
      var r := rs[i];
      assert r in rs;
      if r.op == OP_RAFT_LOG {
        byIndex := byIndex[c.decodeItem(r.value).value.index := c.decodeItem(r.value).value];
      } else if r.op == OP_RAFT_META {
        meta := c.decodeMeta(r.value).value;
      }
    }
    assert rs[..|rs|] == rs;
  }

  ghost predicate Increasing(s: seq<int>) {
    forall i, j :: 0 <= i < j < |s| ==> s[i] < s[j]
  }

  function PlaceIn(s: seq<int>, x: int): (p: nat)
    ensures p <= |s| && (forall i :: 0 <= i < p ==> s[i] < x) && (p < |s| ==> s[p] >= x)
  {
    if s == [] || s[0] >= x then 0 else 1 + PlaceIn(s[1..], x)
  }

  method SortedIndices(m: map<int, LogItem>) returns (s: seq<int>)
    ensures Increasing(s) && |s| == |m| && forall x :: x in s <==> x in m
  {
    s := [];
    var rest: set<int> := m.Keys;
    while rest != {}
      invariant Increasing(s) && |s| + |rest| == |m.Keys|
      invariant forall x :: x in m <==> x in s || x in rest
      invariant forall x :: x in s ==> x !in rest
      decreases |rest|
    {
      var x := Any(rest);
      s := Inserted(s, x);
      rest := rest - {x};
    }
  }

  method Any(s: set<int>) returns (x: int)
    requires s != {}
    ensures x in s
  {
    assert (forall y :: y !in s) ==> s == {};
    x :| x in s;
  }

  method Inserted(s: seq<int>, x: int) returns (t: seq<int>)
    requires Increasing(s) && x !in s
    ensures Increasing(t) && |t| == |s| + 1 && forall y :: y in t <==> y in s || y == x
  {
    var p := PlaceIn(s, x);
    InsertedInOrder(s, x, p);
    InsertedHas(s, x, p);
    hide Increasing;
    t := s[..p] + [x] + s[p..];
  }

  lemma {:induction false} InsertedInOrder(s: seq<int>, x: int, p: nat)
    requires Increasing(s) && x !in s && p == PlaceIn(s, x)
    ensures Increasing(s[..p] + [x] + s[p..])
  {
    hide PlaceIn;
    assert p < |s| ==> s[p] in s;
  }

  /** Distinct integers in increasing order that are exactly 0 to n - 1 are each at their own place. */
  lemma {:induction false} OwnPlace(s: seq<int>, i: nat)
    requires Increasing(s) && i < |s| && forall x :: x in s ==> 0 <= x < |s|
    ensures s[i] == i
  {
    AtLeast(s, i);
    AtMost(s, |s| - 1 - i);
  }

  lemma {:induction false} AtLeast(s: seq<int>, i: nat)
    requires Increasing(s) && i < |s| && forall x :: x in s ==> 0 <= x
    ensures i <= s[i]
  {
    assert s[i] in s;
    if i > 0 {
      AtLeast(s, i - 1);
    }
  }

  lemma {:induction false} AtMost(s: seq<int>, d: nat)
    requires Increasing(s) && d < |s| && forall x :: x in s ==> x < |s|
    ensures s[|s| - 1 - d] <= |s| - 1 - d
  {
    assert s[|s| - 1 - d] in s;
    if d > 0 {
      AtMost(s, d - 1);
    }
  }

  lemma AllInPlace(s: seq<int>, m: map<int, LogItem>)
    requires |s| == |m| && (forall x :: x in s <==> x in m) && forall i :: 0 <= i < |s| ==> s[i] == i
    ensures Contiguous(m) && forall i :: 0 <= i < |s| ==> i in m
  {
    forall i | 0 <= i < |s| ensures i in m {
      assert s[i] in s;
    }
  }

  lemma InPlace(s: seq<int>, m: map<int, LogItem>)
    requires Increasing(s) && |s| == |m| && forall x :: x in s <==> x in m
    ensures Contiguous(m) ==> forall i :: 0 <= i < |s| ==> s[i] == i
  {
    if Contiguous(m) {
      forall i | 0 <= i < |s| ensures s[i] == i {
        OwnPlace(s, i);
      }
    }
  }

  lemma GapFound(s: seq<int>, m: map<int, LogItem>, i: nat)
    requires Increasing(s) && (forall x :: x in s <==> x in m) && 0 < i < |s| && s[i] != s[i - 1] + 1
    ensures s[i - 1] in m && s[i - 1] + 1 !in m && s[i] in m && s[i - 1] < s[i]
  {
    assert s[i - 1] in s && s[i] in s;
    assert forall j :: 0 <= j < |s| ==> s[j] <= s[i - 1] || s[j] >= s[i];
  }

  lemma Lowest(s: seq<int>, m: map<int, LogItem>)
    requires Increasing(s) && (forall x :: x in s <==> x in m) && s != []
    ensures s[0] in m && forall k :: k in m ==> s[0] <= k
  {
    assert s[0] in s;
  }

  /** Sorts the indices, refuses gaps, and lists the entries. */
  method Assemble(byIndex: map<int, LogItem>) returns (entries: seq<LogItem>, err: Option<LoadError>)
    ensures err.None? <==> Contiguous(byIndex)
    ensures err.None? ==> |entries| == |byIndex| && forall i :: 0 <= i < |entries| ==> entries[i] == byIndex[i]
    ensures match err
            case Some(StartsLate(index)) => index in byIndex && index != 0 && forall k :: k in byIndex ==> index <= k
            case Some(Gap(last)) => last in byIndex && last + 1 !in byIndex && exists k :: k in byIndex && last < k
            case _ => true
  {
    entries := [];
    if byIndex == map[] {
      return [], None;
    }
    var indices := SortedIndices(byIndex);
    InPlace(indices, byIndex);
    assert |indices| > 0;
    Lowest(indices, byIndex);
    if indices[0] != 0 {
      return [], Some(StartsLate(indices[0]));
    }
    for i := 1 to |indices|
      invariant forall j :: 0 <= j < i ==> indices[j] == j
    {
      if indices[i] != indices[i - 1] + 1 {
        GapFound(indices, byIndex, i);
        return [], Some(Gap(indices[i - 1]));
      }
    }
    AllInPlace(indices, byIndex);
    for i := 0 to |indices|
      invariant |entries| == i && forall j :: 0 <= j < i ==> j in byIndex && entries[j] == byIndex[j]
    {
      entries := entries + [byIndex[indices[i]]];
    }
    err := None;
  }

  // ---------- the node's applied log, across restarts ----------

  lemma {:induction false} LastSequence(evs: seq<Event>, c: RaftCodec)
    requires Encodable(evs, c) && |evs| < 0x1_0000_0000_0000_0000
    ensures MaxSeq(RecordsOf(evs, c)) == |evs|
  {
    hide Items;
    if evs != [] {
      LastSequence(evs[..|evs| - 1], c);
      assert RecordsOf(evs, c)[..|evs| - 1] == RecordsOf(evs[..|evs| - 1], c);
    }
  }

  /** One more event is one more frame at the end of the file. */
  lemma {:induction false} EventAppends(l: Log, evs: seq<Event>, e: Event, b: Bytes, c: RaftCodec, crc: Checksum)
    requires Encodable(evs, c) && |evs| + 1 < 0x1_0000_0000_0000_0000 && PayloadOf(e, |Items(evs)|, c) == Some(b)
    requires l.file == Frames(RecordsOf(evs, c), crc) && l.pos == |l.file|
    ensures Encodable(evs + [e], c)
    ensures var m := OnAppend(l, RecordOf(e, |evs| + 1, b), crc).0;
            m.file == Frames(RecordsOf(evs + [e], c), crc) && m.pos == |m.file|
    ensures |Items(evs + [e])| == |Items(evs)| + if e.Persisted? then 1 else 0
  {
    hide Frame, Frames, Marshal, OnAppend;
    var r := RecordOf(e, |evs| + 1, b);
    assert (evs + [e])[..|evs|] == evs;
    AppendsFrame(l, r, crc);
    AlwaysMarshals(r, crc);
    FramesSnoc(RecordsOf(evs, c), r, crc);
  }

  lemma {:induction false} FramesSnoc(rs: seq<Record>, r: Record, crc: Checksum)
    ensures Frames(rs + [r], crc) == Frames(rs, crc) + Frame(r, crc)
  {
    hide Frame;
    if rs == [] {
      assert [r][1..] == [];
    } else {
      assert (rs + [r])[1..] == rs[1..] + [r];
      FramesSnoc(rs[1..], r, crc);
    }
  }

  /** The file is the frames of these events, followed by something unreadable. */
  ghost predicate StandsFor(file: Bytes, evs: seq<Event>, c: RaftCodec, crc: Checksum) {
    && Encodable(evs, c) && |evs| < 0x1_0000_0000_0000_0000 && AllLoggable(RecordsOf(evs, c))
    && exists rest: Bytes :: file == Frames(RecordsOf(evs, c), crc) + rest && !Readable(rest, crc)
  }

  /** A cut file stands for the events whose frames survived whole. */
  lemma {:induction false} CutStands(evs: seq<Event>, n: nat, c: RaftCodec, crc: Checksum)
    requires Encodable(evs, c) && |evs| < 0x1_0000_0000_0000_0000 && AllLoggable(RecordsOf(evs, c))
    requires n <= |Frames(RecordsOf(evs, c), crc)|
    ensures StandsFor(Frames(RecordsOf(evs, c), crc)[..n], evs[..WholeFrames(RecordsOf(evs, c), n, crc)], c, crc)
  {
    hide Loggable, WholeFrames, Frames, Readable, Encodable, RecordsOf;
    var all := RecordsOf(evs, c);
    var k := WholeFrames(all, n, crc);
    var rest := CutFrames(all, n, crc);
    RecordsPrefix(evs, k, c);
    assert AllLoggable(RecordsOf(evs[..k], c));
    assert Frames(all, crc)[..n] == Frames(RecordsOf(evs[..k], c), crc) + rest;
  }

  /** What opening a file leaves. */
  lemma {:induction false} OpenedFile(file: Bytes, evs: seq<Event>, c: RaftCodec, crc: Checksum)
    requires StandsFor(file, evs, c, crc) && FaithfulRaft(c)
    ensures MaxSeq(Records(file, crc)) == |evs| && file[..GoodLen(file, crc)] == Frames(RecordsOf(evs, c), crc)
    ensures ReadsAs(Tail(Records(file, crc), 0), evs, c)
  {
    hide Loggable, Records, GoodLen, Frames, FaithfulRaft, Encodable, RecordsOf, ReadsAs, Tail, Items, MaxSeq, Readable;
    var rs := RecordsOf(evs, c);
    var rest :| file == Frames(rs, crc) + rest && !Readable(rest, crc);
    FramesRead(rs, rest, crc);
    Unread(rest, crc);
    RecordsReadBack(evs, c);
    ReadsAsParts(rs, evs, c);
    NothingSkipped(rs);
    LastSequence(evs, c);
    assert rs + [] == rs;
  }

  lemma ReadsAsContiguous(rs: seq<Record>, evs: seq<Event>, c: RaftCodec)
    requires ReadsAs(rs, evs, c)
    ensures Contiguous(ByIndex(rs, c)) && |ByIndex(rs, c)| == |Items(evs)|
    ensures forall r :: r in rs ==> Decodable(r, c)
  {}

  lemma {:induction false} ReadsAsEntries(rs: seq<Record>, evs: seq<Event>, c: RaftCodec, entries: seq<LogItem>)
    requires ReadsAs(rs, evs, c) && |entries| == |ByIndex(rs, c)|
    requires forall i :: 0 <= i < |entries| ==> i in ByIndex(rs, c) && entries[i] == ByIndex(rs, c)[i]
    ensures entries == Items(evs) && MetaOf(rs, c) == LastMeta(evs)
  {
    hide ByIndex, MetaOf, Items, LastMeta;
  }

  lemma StandsEncodable(file: Bytes, evs: seq<Event>, c: RaftCodec, crc: Checksum)
    requires StandsFor(file, evs, c, crc)
    ensures Encodable(evs, c) && |evs| < 0x1_0000_0000_0000_0000
  {}

  /** The Raft node's side of the file: the next index to persist. */
  class AppliedLog {
    const rw: RaftWal
    var nextIndex: int
    /** What was recovered at the start, for the node to begin with. */
    var entries: seq<LogItem>
    var meta: Meta
    /** What the file stands for. */
    ghost var events: seq<Event>

    ghost predicate Valid()
      reads this, rw, rw.w
    {
      && rw.Valid() && |events| < 0x1_0000_0000_0000_0000 && Encodable(events, rw.codec)
      && rw.w.file == Frames(RecordsOf(events, rw.codec), rw.w.crc) && rw.w.pos == |rw.w.file|
      && rw.sequence == |events| && nextIndex == |Items(events)|
    }

    /** Opening whatever is left of the file resumes behind its last whole event, with the entries and the meta of
        the events before. */
    constructor Open(rw: RaftWal, ghost evs: seq<Event>)
      requires rw.Valid() && FaithfulRaft(rw.codec) && StandsFor(rw.w.file, evs, rw.codec, rw.w.crc)
      modifies rw, rw.w
      ensures Valid() && this.rw == rw && events == evs && entries == Items(evs) && meta == LastMeta(evs)
    {
      hide Loggable, Records, GoodLen, Frames, FaithfulRaft, Encodable, RecordsOf, ReadsAs, Tail, Items, MaxSeq,
        ByIndex, MetaOf, Contiguous, Decodable, LastMeta;
      this.rw := rw;
      nextIndex := 0;
      events, entries, meta := [], [], NO_META;
      new;
      ghost var file := rw.w.file;
      OpenedFile(file, evs, rw.codec, rw.w.crc);
      ReadsAsContiguous(Tail(Records(file, rw.w.crc), 0), evs, rw.codec);
      var err;
      entries, meta, err := rw.Load();
      ReadsAsEntries(Tail(Records(file, rw.w.crc), 0), evs, rw.codec, entries);
      StandsEncodable(file, evs, rw.codec, rw.w.crc);
      nextIndex := |entries|;
      events := evs;
    }

    method PersistApplied(term: int, data: Bytes) returns (ok: bool)
      requires Valid() && |events| + 1 < 0x1_0000_0000_0000_0000
      modifies this, rw, rw.w
      ensures Valid() && events == old(events) + (if ok then [Persisted(term, data)] else [])
      ensures ok <==> rw.codec.encodeItem(LogItem(old(nextIndex), term, data)).Some?
      ensures nextIndex == old(nextIndex) + if ok then 1 else 0
    {
      hide OnAppend, Frames, RecordsOf, Items, Encodable;
      ghost var l, e, b := rw.w.Snapshot(), Persisted(term, data),
          PayloadOf(Persisted(term, data), |Items(events)|, rw.codec);
      if b.Some? {
        EventAppends(l, events, e, b.value, rw.codec, rw.w.crc);
      }
      ok := rw.AppendEntry(nextIndex, term, data);
      if !ok {
        return;
      }
      nextIndex := nextIndex + 1;
      events := events + [e];
    }

    method SaveMeta(meta: Meta) returns (ok: bool)
      requires Valid() && |events| + 1 < 0x1_0000_0000_0000_0000
      modifies this, rw, rw.w
      ensures Valid() && events == old(events) + (if ok then [MetaSaved(meta)] else [])
      ensures (ok <==> rw.codec.encodeMeta(meta).Some?) && nextIndex == old(nextIndex)
    {
      hide OnAppend, Frames, RecordsOf, Items, Encodable;
      ghost var l, e, b := rw.w.Snapshot(), MetaSaved(meta), PayloadOf(MetaSaved(meta), |Items(events)|, rw.codec);
      if b.Some? {
        EventAppends(l, events, e, b.value, rw.codec, rw.w.crc);
      }
      ok := rw.SaveMeta(meta);
      if ok {
        events := events + [e];
      }
    }
  }
}
