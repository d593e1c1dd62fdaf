/** The write-ahead log object of internal/wal/wal.go: sequence numbers, appends, checkpoints and replay. */
module WalFile {
  import opened Wrappers
  import opened WalCodec
  import opened WalLog
  import opened Entities

  datatype Policy = Policy(configured: bool, everyNWrites: nat, maxWalBytes: int, truncateAfter: bool)

  /** The open file with its write offset, the sequence counter, the LastSeq in the checkpoint store, and the
      counters since the last checkpoint. */
  datatype Log = Log(file: Bytes, pos: nat, sequence: U64, lastSaved: U64, writes: nat, bytes: nat)

  datatype WalError = MarshalFailed(error: Error) | EncodeFailed | NotConfigured | HookFailed | ApplyFailed

  // ---------- what each operation does ----------

  function WriteAt(file: Bytes, pos: nat, rec: Bytes): Bytes
    requires pos <= |file|
  {
    file[..pos] + rec + if pos + |rec| <= |file| then file[pos + |rec|..] else []
  }

  function OnAppend(l: Log, r: Record, crc: Checksum): (Log, Option<WalError>)
    requires l.pos <= |l.file|
  {
    match Marshal(r, crc)
    case Err(e) => (l, Some(MarshalFailed(e)))
    case Ok(f) =>
      (l.(file := WriteAt(l.file, l.pos, f), pos := l.pos + |f|, writes := l.writes + 1, bytes := l.bytes + |f|), None)
  }

  function Next(s: U64): U64 { (s + 1) % 0x1_0000_0000_0000_0000 }

  function SetRecord(s: U64, table: Bytes, e: Entity, b: Bytes): Record {
    Record(s, OP_SET, table, e.key, e.sk, b)
  }

  function DelRecord(s: U64, table: Bytes, key: Bytes): Record {
    Record(s, OP_DEL, table, key, [], [])
  }

  function OnBulkSet(l: Log, table: Bytes, es: seq<Entity>, c: Codec, crc: Checksum): (out: (Log, Option<WalError>))
    requires l.pos <= |l.file|
    ensures out.0.pos <= |out.0.file|
    decreases es
  {
    if es == [] then (l, None)
    else
      match c.encode(es[0])
      case None => (l, Some(EncodeFailed))
      case Some(b) =>
        var (k, err) := OnAppend(l, SetRecord(Next(l.sequence), table, es[0], b), crc);
        if err.Some? then (l, err) else OnBulkSet(k.(sequence := Next(l.sequence)), table, es[1..], c, crc)
  }

  function OnBulkDelete(l: Log, table: Bytes, keys: seq<Bytes>, crc: Checksum): (out: (Log, Option<WalError>))
    requires l.pos <= |l.file|
    ensures out.0.pos <= |out.0.file|
    decreases keys
  {
    if keys == [] then (l, None)
    else
      var (k, err) := OnAppend(l, DelRecord(Next(l.sequence), table, keys[0]), crc);
      if err.Some? then (l, err) else OnBulkDelete(k.(sequence := Next(l.sequence)), table, keys[1..], crc)
  }

  function OnCheckpoint(l: Log, p: Policy, hookOk: bool): (Log, Option<WalError>) {
    if !p.configured then (l, Some(NotConfigured))
    else if !hookOk then (l, Some(HookFailed))
    else
      var k := l.(lastSaved := l.sequence, writes := 0, bytes := 0);
      (if p.truncateAfter then k.(file := [], pos := 0) else k, None)
  }

  predicate CheckpointDue(l: Log, p: Policy) {
    (p.everyNWrites > 0 && l.writes >= p.everyNWrites) || (p.maxWalBytes > 0 && l.bytes >= p.maxWalBytes)
  }

  /** An operation that appended all its records goes on to the automatic checkpoint. */
  function Finish(out: (Log, Option<WalError>), p: Policy, hookOk: bool): (Log, Option<WalError>) {
    if out.1.Some? || !p.configured || !CheckpointDue(out.0, p) then out else OnCheckpoint(out.0, p, hookOk)
  }

  // ---------- what is replayed ----------

  function Tail(rs: seq<Record>, skip: U64): seq<Record> {
    if rs == [] then []
    else (if rs[0].sequence > skip then [rs[0]] else []) + Tail(rs[1..], skip)
  }

  function MaxSeq(rs: seq<Record>): U64 {
    if rs == [] then 0 else Max(MaxSeq(rs[..|rs| - 1]), rs[|rs| - 1].sequence)
  }

  function Max(a: U64, b: U64): U64 { if a > b then a else b }

  lemma {:induction false} TailGrows(rs: seq<Record>, r: Record, skip: U64)
    ensures Tail(rs + [r], skip) == Tail(rs, skip) + if r.sequence > skip then [r] else []
  {
    if rs == [] {
      assert [r][1..] == [];
    } else {
      assert (rs + [r])[1..] == rs[1..] + [r];
      TailGrows(rs[1..], r, skip);
    }
  }

  // ---------- appended records ----------

  /** The records of a run of sets, numbered from `from + 1`. */
  function SetRecords(from: nat, table: Bytes, es: seq<Entity>, c: Codec): (rs: seq<Record>)
    requires from + |es| < 0x1_0000_0000_0000_0000
    requires forall e :: e in es ==> c.encode(e).Some?
    ensures |rs| == |es|
    decreases es
  {
    if es == [] then []
    else [SetRecord(from + 1, table, es[0], c.encode(es[0]).value)] + SetRecords(from + 1, table, es[1..], c)
  }

  function DelRecords(from: nat, table: Bytes, keys: seq<Bytes>): (rs: seq<Record>)
    requires from + |keys| < 0x1_0000_0000_0000_0000
    ensures |rs| == |keys|
    decreases keys
  {
    if keys == [] then [] else [DelRecord(from + 1, table, keys[0])] + DelRecords(from + 1, table, keys[1..])
  }

  /** With the write offset at the end, a record that can be framed is appended; otherwise nothing changes. */
  lemma AppendsFrame(l: Log, r: Record, crc: Checksum)
    requires l.pos == |l.file|
    ensures match Marshal(r, crc)
            case Ok(f) =>
              && f == Frame(r, crc)
              && OnAppend(l, r, crc) == (l.(file := l.file + f, pos := |l.file| + |f|, writes := l.writes + 1,
                                            bytes := l.bytes + |f|), None)
            case Err(e) => OnAppend(l, r, crc) == (l, Some(MarshalFailed(e)))
  {
    hide Frame;
    if Marshal(r, crc).Ok? {
      var f := Marshal(r, crc).value;
      assert WriteAt(l.file, l.pos, f) == l.file + f;
    }
  }

  lemma NamedTableMarshals(r: Record, crc: Checksum)
    requires r.op == OP_SET || r.op == OP_DEL
    ensures Marshal(r, crc).Ok? <==> r.table != []
  {
    hide Frame;
  }

  lemma {:induction false} FramesCons(r: Record, rs: seq<Record>, crc: Checksum)
    ensures Frames([r] + rs, crc) == Frame(r, crc) + Frames(rs, crc)
  {
    hide Frame;
  }

  /** `m` is `l` with the frames of `rs` appended and counted. */
  ghost predicate Appended(l: Log, m: Log, rs: seq<Record>, crc: Checksum) {
    && m.file == l.file + Frames(rs, crc) && m.pos == |m.file|
    && m.sequence == l.sequence + |rs| && m.lastSaved == l.lastSaved
    && m.writes == l.writes + |rs| && m.bytes == l.bytes + (|m.file| - |l.file|)
  }

  lemma NothingAppended(l: Log, crc: Checksum)
    requires l.pos == |l.file|
    ensures Appended(l, l, [], crc)
  {}

  lemma OneMoreAppended(l: Log, r: Record, m: Log, rs: seq<Record>, crc: Checksum)
    requires l.pos == |l.file| && Marshal(r, crc).Ok? && l.sequence + 1 < 0x1_0000_0000_0000_0000
    requires Appended(OnAppend(l, r, crc).0.(sequence := l.sequence + 1), m, rs, crc)
    ensures Appended(l, m, [r] + rs, crc)
  {
    hide Frame, Frames, Marshal, OnAppend;
    AppendsFrame(l, r, crc);
    FramesCons(r, rs, crc);
  }

  /** A bulk set appends the frames of its entities in order with consecutive sequence numbers, up to the first
      one that cannot be encoded or framed; the counter stands for exactly the entries written. */
  lemma {:induction false} BulkSetAppends(l: Log, table: Bytes, es: seq<Entity>, c: Codec,
      crc: Checksum) returns (k: nat)
    requires l.pos == |l.file| && l.sequence + |es| < 0x1_0000_0000_0000_0000
    ensures k <= |es| && (forall e :: e in es[..k] ==> c.encode(e).Some?)
    ensures Appended(l, OnBulkSet(l, table, es, c, crc).0, SetRecords(l.sequence, table, es[..k], c), crc)
    ensures OnBulkSet(l, table, es, c, crc).1.None? <==> k == |es|
    ensures table != [] && k < |es| ==> c.encode(es[k]).None?
    ensures table != [] && (forall e :: e in es ==> c.encode(e).Some?) ==> k == |es|
    decreases es
  {
    hide Frame, Frames, Marshal, OnAppend, Appended;
    k := 0;
    if es != [] && c.encode(es[0]).Some? {
      var r := SetRecord(Next(l.sequence), table, es[0], c.encode(es[0]).value);
      AppendsFrame(l, r, crc);
      NamedTableMarshals(r, crc);
      if Marshal(r, crc).Ok? {
        var l' := OnAppend(l, r, crc).0.(sequence := l.sequence + 1);
        var j := BulkSetAppends(l', table, es[1..], c, crc);
        k := j + 1;
        assert es[..k][0] == es[0] && es[..k][1..] == es[1..][..j];
        OneMoreAppended(l, r, OnBulkSet(l, table, es, c, crc).0,
                        SetRecords(l.sequence + 1, table, es[1..][..j], c), crc);
      }
    }
    assert k == 0 ==> es[..k] == [];
    NothingAppended(l, crc);
  }

  lemma {:induction false} BulkDeleteAppends(l: Log, table: Bytes, keys: seq<Bytes>, crc: Checksum) returns (k: nat)
    requires l.pos == |l.file| && l.sequence + |keys| < 0x1_0000_0000_0000_0000
    ensures k <= |keys|
    ensures Appended(l, OnBulkDelete(l, table, keys, crc).0, DelRecords(l.sequence, table, keys[..k]), crc)
    ensures OnBulkDelete(l, table, keys, crc).1.None? <==> k == |keys|
    ensures table != [] ==> k == |keys|
    decreases keys
  {
    hide Frame, Frames, Marshal, OnAppend, Appended;
    k := 0;
    if keys != [] {
      var r := DelRecord(Next(l.sequence), table, keys[0]);
      AppendsFrame(l, r, crc);
      NamedTableMarshals(r, crc);
      if Marshal(r, crc).Ok? {
        var l' := OnAppend(l, r, crc).0.(sequence := l.sequence + 1);
        var j := BulkDeleteAppends(l', table, keys[1..], crc);
        k := j + 1;
        assert keys[..k][0] == keys[0] && keys[..k][1..] == keys[1..][..j];
        OneMoreAppended(l, r, OnBulkDelete(l, table, keys, crc).0,
                        DelRecords(l.sequence + 1, table, keys[1..][..j]), crc);
      }
    }
    assert k == 0 ==> keys[..k] == [];
    NothingAppended(l, crc);
  }

  // ---------- reading frame by frame ----------

  datatype Chunk = Eof | Torn | Whole(frame: Bytes)

  /** `frame` is the whole frame, not yet decoded, that `data` starts with. */
  ghost predicate Claims(data: Bytes, frame: Bytes) {
    && |data| >= 4 && ClaimedLen(data) <= MAX_PAYLOAD + 8 && ClaimedLen(data) <= |data|
    && frame == data[..ClaimedLen(data)]
  }

  lemma {:induction false} NextRecord(data: Bytes, frame: Bytes, r: Record, crc: Checksum)
    requires Claims(data, frame) && Unmarshal(frame, crc) == Ok(r)
    ensures 8 <= |frame| <= |data|
    ensures Records(data, crc) == [r] + Records(data[|frame|..], crc)
    ensures GoodLen(data, crc) == |frame| + GoodLen(data[|frame|..], crc)
  {
    hide Unmarshal, Value;
    assert Readable(data, crc);
  }

  lemma NotARecord(data: Bytes, frame: Bytes, crc: Checksum)
    requires Claims(data, frame) && Unmarshal(frame, crc).Err?
    ensures !Readable(data, crc)
  {
    hide Unmarshal, Value;
  }

  lemma {:induction false} TailPrefix(rs: seq<Record>, more: seq<Record>, skip: U64)
    ensures Tail(rs, skip) <= Tail(rs + more, skip)
  {
    if rs == [] {
    } else {
      assert (rs + more)[1..] == rs[1..] + more;
      TailPrefix(rs[1..], more, skip);
      var first := if rs[0].sequence > skip then [rs[0]] else [];
      assert Tail(rs, skip) == first + Tail(rs[1..], skip);
      assert Tail(rs + more, skip) == first + Tail(rs[1..] + more, skip);
    }
  }

  /** Replay has read `seen`, which ends at `pos`. */
  ghost predicate Progress(
    file: Bytes, pos: nat, seen: seq<Record>, handed: seq<Record>, maxSeq: U64, skip: U64, crc: Checksum)
  {
    && pos <= |file|
    && Records(file, crc) == seen + Records(file[pos..], crc)
    && GoodLen(file, crc) == pos + GoodLen(file[pos..], crc)
    && handed == Tail(seen, skip) && maxSeq == MaxSeq(seen)
  }

  lemma NoProgress(file: Bytes, skip: U64, crc: Checksum)
    ensures Progress(file, 0, [], [], 0, skip, crc)
  {
    hide Records, GoodLen;
    assert file[0..] == file;
  }

  lemma OneMore(file: Bytes, pos: nat, next: nat, seen: seq<Record>, handed: seq<Record>, maxSeq: U64, r: Record,
                skip: U64, crc: Checksum)
    requires Progress(file, pos, seen, handed, maxSeq, skip, crc) && pos <= next <= |file|
    requires Records(file[pos..], crc) == [r] + Records(file[next..], crc)
    requires GoodLen(file[pos..], crc) == next - pos + GoodLen(file[next..], crc)
    ensures Progress(file, next, seen + [r], if r.sequence > skip then handed + [r] else handed,
                     Max(maxSeq, r.sequence), skip, crc)
  {
    hide Records, GoodLen;
    TailGrows(seen, r, skip);
    assert (seen + [r])[..|seen|] == seen;
    assert seen + ([r] + Records(file[next..], crc)) == (seen + [r]) + Records(file[next..], crc);
  }

  lemma {:induction false} AllRead(file: Bytes, pos: nat, seen: seq<Record>, handed: seq<Record>, maxSeq: U64,
      skip: U64, crc: Checksum)
    requires Progress(file, pos, seen, handed, maxSeq, skip, crc)
    requires Records(file[pos..], crc) == [] && GoodLen(file[pos..], crc) == 0
    ensures seen == Records(file, crc) && handed == Tail(seen, skip) && maxSeq == MaxSeq(seen)
    ensures pos == GoodLen(file, crc)
  {
    hide Records, GoodLen;
    assert seen + [] == seen;
  }

  lemma {:induction false} ReadSoFar(file: Bytes, pos: nat, seen: seq<Record>, handed: seq<Record>, maxSeq: U64,
      skip: U64, crc: Checksum)
    requires Progress(file, pos, seen, handed, maxSeq, skip, crc)
    ensures seen <= Records(file, crc) && handed == Tail(seen, skip) && maxSeq == MaxSeq(seen)
    ensures handed <= Tail(Records(file, crc), skip)
  {
    hide Records, GoodLen;
    TailPrefix(seen, Records(file[pos..], crc), skip);
  }

  /** The target took each of `rs` when it was handed over. */
  ghost predicate AllAccepted(accept: seq<Record> -> bool, rs: seq<Record>) {
    forall n :: 0 < n <= |rs| ==> accept(rs[..n])
  }

  lemma NoneAccepted(accept: seq<Record> -> bool)
    ensures AllAccepted(accept, [])
  {}

  lemma OneMoreAccepted(accept: seq<Record> -> bool, rs: seq<Record>, r: Record)
    requires AllAccepted(accept, rs)
    ensures (rs + [r])[..|rs|] == rs
    ensures accept(rs + [r]) ==> AllAccepted(accept, rs + [r])
  {
    assert (rs + [r])[..|rs| + 1] == rs + [r];
    assert forall n :: 0 < n <= |rs| ==> (rs + [r])[..n] == rs[..n];
  }

  // ---------- the code ----------

  class Wal {
    const crc: Checksum
    const codec: Codec
    const policy: Policy
    var file: Bytes
    var pos: nat
    var sequence: U64
    var lastSaved: U64
    var writesSinceCkpt: nat
    var bytesSinceCkpt: nat

    function Snapshot(): Log
      reads this
    {
      Log(file, pos, sequence, lastSaved, writesSinceCkpt, bytesSinceCkpt)
    }

    ghost predicate Valid()
      reads this
    {
      pos <= |file| && (!policy.configured ==> lastSaved == 0)
    }

    /** Opening an existing file leaves the write offset at its start. Without a checkpoint store there is no LastSeq.
        */
    constructor (file: Bytes, lastSaved: U64, crc: Checksum, codec: Codec, policy: Policy)
      requires !policy.configured ==> lastSaved == 0
      ensures Valid() && Snapshot() == Log(file, 0, 0, lastSaved, 0, 0)
      ensures this.crc == crc && this.codec == codec && this.policy == policy
    {
      this.crc, this.codec, this.policy := crc, codec, policy;
      this.file, pos, sequence, this.lastSaved, writesSinceCkpt, bytesSinceCkpt := file, 0, 0, lastSaved, 0, 0;
    }

    method AppendLocked(r: Record) returns (err: Option<WalError>)
      requires Valid()
      modifies this
      ensures Valid() && (Snapshot(), err) == OnAppend(old(Snapshot()), r, crc)
    {
      hide Marshal;
      var e := new Entry(r);
      var m := e.MarshalBinary(crc);
      if m.Err? {
        return Some(MarshalFailed(m.error));
      }
      var rec := m.value;
      file := WriteAt(file, pos, rec);
      pos := pos + |rec|;
      writesSinceCkpt := writesSinceCkpt + 1;
      bytesSinceCkpt := bytesSinceCkpt + |rec|;
      return None;
    }

    method BulkSet(table: Bytes, entities: seq<Entity>, hookOk: bool) returns (err: Option<WalError>)
      requires Valid()
      modifies this
      ensures Valid()
      ensures (Snapshot(), err) == Finish(OnBulkSet(old(Snapshot()), table, entities, codec, crc), policy, hookOk)
    {
      hide Marshal, Frame;
      var i := 0;
      while i < |entities|
        invariant i <= |entities| && Valid()
        invariant OnBulkSet(Snapshot(), table, entities[i..], codec, crc) ==
                  OnBulkSet(old(Snapshot()), table, entities, codec, crc)
      {
        var b := codec.encode(entities[i]);
        if b.None? {
          return Some(EncodeFailed);
        }
        var next := Next(sequence);
        err := AppendLocked(SetRecord(next, table, entities[i], b.value));
        if err.Some? {
          return;
        }
        sequence := next;
        assert entities[i..][1..] == entities[i + 1..];
        i := i + 1;
      }
      err := MaybeAutoCheckpoint(hookOk);
    }

    /** A single set is a bulk set of one. */
    method Set(table: Bytes, entity: Entity, hookOk: bool) returns (err: Option<WalError>)
      requires Valid()
      modifies this
      ensures Valid()
      ensures (Snapshot(), err) == Finish(OnBulkSet(old(Snapshot()), table, [entity], codec, crc), policy, hookOk)
    {
      hide Marshal, Frame;
      var b := codec.encode(entity);
      if b.None? {
        return Some(EncodeFailed);
      }
      var next := Next(sequence);
      err := AppendLocked(SetRecord(next, table, entity, b.value));
      if err.Some? {
        return;
      }
      sequence := next;
      assert [entity][1..] == [];
      err := MaybeAutoCheckpoint(hookOk);
    }

    method BulkDelete(table: Bytes, keys: seq<Bytes>, hookOk: bool) returns (err: Option<WalError>)
      requires Valid()
      modifies this
      ensures Valid()
      ensures (Snapshot(), err) == Finish(OnBulkDelete(old(Snapshot()), table, keys, crc), policy, hookOk)
    {
      hide Marshal, Frame;
      var i := 0;
      while i < |keys|
        invariant i <= |keys| && Valid()
        invariant OnBulkDelete(Snapshot(), table, keys[i..], crc) == OnBulkDelete(old(Snapshot()), table, keys, crc)
      {
        var next := Next(sequence);
        err := AppendLocked(DelRecord(next, table, keys[i]));
        if err.Some? {
          return;
        }
        sequence := next;
        assert keys[i..][1..] == keys[i + 1..];
        i := i + 1;
      }
      err := MaybeAutoCheckpoint(hookOk);
    }

    method Delete(table: Bytes, key: Bytes, hookOk: bool) returns (err: Option<WalError>)
      requires Valid()
      modifies this
      ensures Valid()
      ensures (Snapshot(), err) == Finish(OnBulkDelete(old(Snapshot()), table, [key], crc), policy, hookOk)
    {
      hide Marshal, Frame;
      var next := Next(sequence);
      err := AppendLocked(DelRecord(next, table, key));
      if err.Some? {
        return;
      }
      sequence := next;
      assert [key][1..] == [];
      err := MaybeAutoCheckpoint(hookOk);
    }

    method MaybeAutoCheckpoint(hookOk: bool) returns (err: Option<WalError>)
      requires Valid()
      modifies this
      ensures Valid() && (Snapshot(), err) == Finish((old(Snapshot()), None), policy, hookOk)
      ensures var due := policy.configured
                         && ((policy.everyNWrites > 0 && old(writesSinceCkpt) >= policy.everyNWrites)
                             || (policy.maxWalBytes > 0 && old(bytesSinceCkpt) >= policy.maxWalBytes));
              && (err.Some? <==> due && !hookOk)
              && lastSaved == (if due && hookOk then sequence else old(lastSaved))
              && (!(due && hookOk) ==> Snapshot() == old(Snapshot()))
    {
      if !policy.configured {
        return None;
      }
      var trigger := false;
      if policy.everyNWrites > 0 && writesSinceCkpt >= policy.everyNWrites {
        trigger := true;
      }
      if policy.maxWalBytes > 0 && bytesSinceCkpt >= policy.maxWalBytes {
        trigger := true;
      }
      if !trigger {
        return None;
      }
      err := CheckpointLocked(hookOk);
    }

    /** `hookOk` tells whether BeforeCheckpoint, which flushes the batcher, succeeded. */
    method CheckpointLocked(hookOk: bool) returns (err: Option<WalError>)
      requires Valid()
      modifies this
      ensures Valid() && (Snapshot(), err) == OnCheckpoint(old(Snapshot()), policy, hookOk)
      ensures err == if !policy.configured then Some(NotConfigured) else if !hookOk then Some(HookFailed) else None
      ensures err.Some? ==> Snapshot() == old(Snapshot())
      ensures err.None? ==> && sequence == old(sequence) == lastSaved && writesSinceCkpt == bytesSinceCkpt == 0
                            && (if policy.truncateAfter then file == [] && pos == 0
                                else file == old(file) && pos == old(pos))
    {
      if !policy.configured {
        return Some(NotConfigured);
      }
      if !hookOk {
        return Some(HookFailed);
      }
      lastSaved := sequence;
      if policy.truncateAfter {
        Truncate(0);
      }
      writesSinceCkpt := 0;
      bytesSinceCkpt := 0;
      return None;
    }

    method Truncate(off: nat)
      requires off <= |file|
      modifies this`file, this`pos
      ensures file == old(file)[..off] && pos == off
    {
      file := file[..off];
      pos := off;
    }

    /** Hands every readable record above `skip` to the target, in order, until the target refuses one; only
        without a refusal is the unreadable tail cut off and the write offset moved to the end. What the target
        answers may depend on everything it has been handed: `accept` is asked about all of it, the last included.
        `seen` are the records read. */
    method ReplaySince(skip: U64, accept: seq<Record> -> bool)
      returns (handed: seq<Record>, maxSeq: U64, ok: bool, ghost seen: seq<Record>)
      requires Valid()
      modifies this`file, this`pos
      ensures Valid()
      ensures seen <= Records(old(file), crc) && handed == Tail(seen, skip) && maxSeq == MaxSeq(seen)
      ensures ok ==> && seen == Records(old(file), crc) && AllAccepted(accept, handed)
                     && file == old(file)[..GoodLen(old(file), crc)] && pos == |file|
      ensures !ok ==> && handed != [] && seen != [] && handed[|handed| - 1] == seen[|seen| - 1]
                      && !accept(handed) && AllAccepted(accept, handed[..|handed| - 1]) && file == old(file)
    {
      hide Records, GoodLen, Progress, Max, AllAccepted;
      pos := 0;
      handed, maxSeq, seen := [], 0, [];
      NoProgress(file, skip, crc);
      NoneAccepted(accept);
      while true
        invariant Valid() && file == old(file)
        invariant Progress(file, pos, seen, handed, maxSeq, skip, crc)
        invariant AllAccepted(accept, handed)
        decreases |file| - pos
      {
        var goodOff := pos;
        var next := NextEntry(goodOff);
        if next.None? {
          AllRead(old(file), goodOff, seen, handed, maxSeq, skip, crc);
          break;
        }
        var r := next.value;
        OneMore(file, goodOff, pos, seen, handed, maxSeq, r, skip, crc);
        seen := seen + [r];
        maxSeq := Max(maxSeq, r.sequence);
        if r.sequence > skip {
          OneMoreAccepted(accept, handed, r);
          handed := handed + [r];
          if !accept(handed) {
            ReadSoFar(file, pos, seen, handed, maxSeq, skip, crc);
            return handed, maxSeq, false, seen;
          }
        }
      }
      ok := true;
    }

    /** One turn of the replay loop up to the decoded entry; with none to be had, the rest is cut off. */
    method NextEntry(goodOff: nat) returns (next: Option<Record>)
      requires Valid() && goodOff == pos
      modifies this`file, this`pos
      ensures Valid()
      ensures match next
              case Some(r) =>
                && file == old(file) && goodOff < pos
                && Records(file[goodOff..], crc) == [r] + Records(file[pos..], crc)
                && GoodLen(file[goodOff..], crc) == pos - goodOff + GoodLen(file[pos..], crc)
              case None =>
                && Records(old(file)[goodOff..], crc) == [] && GoodLen(old(file)[goodOff..], crc) == 0
                && file == old(file)[..goodOff] && pos == goodOff
    {
      hide Unmarshal, Value, Records, GoodLen, Readable, HeadOf, ClaimedLen;
      ghost var data := file[goodOff..];
      var chunk := ReadFrame();
      if chunk.Eof? {
        EmptyUnreadable(crc);
        assert data == [];
        Unread(data, crc);
        return None;
      }
      if chunk.Torn? {
        Unread(data, crc);
        Truncate(goodOff);
        return None;
      }
      var e := new Entry(Record(0, 0, [], [], [], []));
      var decoded := e.UnmarshalBinary(chunk.frame, crc);
      if decoded.Err? {
        NotARecord(data, chunk.frame, crc);
        Unread(data, crc);
        Truncate(goodOff);
        return None;
      }
      NextRecord(data, chunk.frame, e.Contents(), crc);
      assert data[|chunk.frame|..] == file[pos..];
      return Some(e.Contents());
    }

    /** Reads one frame at the current offset. */
    method ReadFrame() returns (chunk: Chunk)
      requires Valid()
      modifies this`pos
      ensures Valid()
      ensures match chunk
              case Eof => old(pos) == |file| && pos == old(pos)
              case Torn => !Readable(file[old(pos)..], crc)
              case Whole(frame) => Claims(file[old(pos)..], frame) && pos == old(pos) + |frame|
    {
      hide Unmarshal, Value;
      var start := pos;
      ghost var data := file[start..];
      if pos == |file| {
        return Eof;
      }
      if |file| - pos < 4 {
        pos := |file|;
        return Torn;
      }
      var lenBuf := file[pos..pos + 4];
      assert lenBuf == data[..4];
      pos := pos + 4;
      var payloadLen := Value(lenBuf);
      if payloadLen > MAX_PAYLOAD {
        return Torn;
      }
      if |file| - pos < payloadLen + 4 {
        pos := |file|;
        return Torn;
      }
      var frame := file[start..start + 8 + payloadLen];
      assert frame == data[..ClaimedLen(data)];
      pos := pos + payloadLen + 4;
      return Whole(frame);
    }
  }
}
