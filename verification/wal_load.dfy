/** WAL.Load as code over the log and the write buffer, and what it recovers. */
module WalLoad {
  import opened Wrappers
  import opened WalCodec
  import opened WalLog
  import opened Entities
  import opened WalFile
  import opened Batching
  import opened Recovery
  import opened RecoveryProof

  /** Replay takes writes it can decode, ignores transaction marks, and stops at anything else. */
  predicate Replayable(r: Record, c: Codec) {
    r.op == OP_DEL || IsTxOp(r.op) || (r.op == OP_SET && DecodeEntity(r, c).Some?)
  }

  function Replayed(rows: Rows, r: Record, c: Codec): Rows {
    if r.op == OP_SET && DecodeEntity(r, c).Some?
    then rows[RowKey(r.table, DecodeEntity(r, c).value.key) := DecodeEntity(r, c).value]
    else if r.op == OP_DEL then rows - {RowKey(r.table, r.key)}
    else rows
  }

  function ReplayedAll(rows: Rows, rs: seq<Record>, c: Codec): Rows {
    if rs == [] then rows else Replayed(ReplayedAll(rows, rs[..|rs| - 1], c), rs[|rs| - 1], c)
  }

  /** The buffer once the change of `r` is in it. */
  function Buffered(pend: Pending, r: Record, c: Codec): Pending {
    if r.op == OP_SET && DecodeEntity(r, c).Some?
    then pend[RowKey(r.table, DecodeEntity(r, c).value.key) := Put(DecodeEntity(r, c).value)]
    else if r.op == OP_DEL then pend[RowKey(r.table, r.key) := Remove]
    else pend
  }

  // ---------- the course of a replay ----------

  /** One record applied to the target, what that flushed, and the store and the buffer after it. */
  datatype Turn = Turn(record: Record, done: seq<RowKey>, rows: Rows, pend: Pending)

  function RowsAfter(rows: Rows, turns: seq<Turn>): Rows {
    if turns == [] then rows else turns[|turns| - 1].rows
  }

  function PendAfter(pend: Pending, turns: seq<Turn>): Pending {
    if turns == [] then pend else turns[|turns| - 1].pend
  }

  function RecordsIn(turns: seq<Turn>): (rs: seq<Record>)
    ensures |rs| == |turns|
  {
    if turns == [] then [] else RecordsIn(turns[..|turns| - 1]) + [turns[|turns| - 1].record]
  }

  /** Each turn buffers its record and then flushes some of the buffer, in key order. */
  ghost predicate TurnsOk(rows: Rows, pend: Pending, turns: seq<Turn>, c: Codec) {
    turns == [] ||
    var front, t := turns[..|turns| - 1], turns[|turns| - 1];
    && TurnsOk(rows, pend, front, c)
    && Drained(RowsAfter(rows, front), Buffered(PendAfter(pend, front), t.record, c), t.rows, t.pend, t.done)
  }

  lemma {:induction false} OneMoreTurn(rows: Rows, pend: Pending, turns: seq<Turn>, t: Turn, view: Rows, c: Codec)
    requires TurnsOk(rows, pend, turns, c)
    requires Drained(RowsAfter(rows, turns), Buffered(PendAfter(pend, turns), t.record, c), t.rows, t.pend, t.done)
    ensures TurnsOk(rows, pend, turns + [t], c) && RecordsIn(turns + [t]) == RecordsIn(turns) + [t.record]
    ensures ReplayedAll(view, RecordsIn(turns + [t]), c) ==
            Replayed(ReplayedAll(view, RecordsIn(turns), c), t.record, c)
  {
    hide Drained, Buffered, Replayed;
    assert (turns + [t])[..|turns|] == turns;
    assert (RecordsIn(turns) + [t.record])[..|turns|] == RecordsIn(turns);
  }

  // ---------- the code ----------

  method ApplyEntry(target: WriteBatcher, r: Record, c: Codec) returns (ok: bool, ghost done: seq<RowKey>)
    requires target.Valid() && Replayable(r, c)
    modifies target, target.inner
    ensures target.Valid() && target.View() == Replayed(old(target.View()), r, c)
    ensures Drained(old(target.inner.rows), Buffered(old(target.pend), r, c), target.inner.rows, target.pend, done)
    ensures target.inner.failures == old(target.inner.failures) + if ok then 0 else 1
  {
    hide Drained, Combined, Total;
    if r.op == OP_SET {
      ok, done := target.Set(r.table, DecodeEntity(r, c).value);
    } else if r.op == OP_DEL {
      ok, done := target.Del(r.table, r.key);
    } else {
      NothingDrained(target.inner.rows, target.pend);
      ok, done := true, [];
    }
  }

  /** A delete, a transaction mark, or a set whose value decodes. */
  lemma ReplayableExactly(r: Record, c: Codec)
    ensures Replayable(r, c) <==>
              || r.op in {2, 3, 4}
              || (r.op == 1 && c.decodeAny(r.value).Some?)
              || (r.op == 1 && c.decode(r.value).Some? && c.decode(r.value).value.key != [])
  {}

  /** Replays onto the target what the file holds above the checkpoint, up to the first record that cannot be
      decoded or applied; only without one is the tail cut off and the counter set. It fails only at a record that is
      neither a delete, nor a transaction mark, nor a set whose value decodes, or when a call of the store fails. */
  method Replay(w: Wal, target: WriteBatcher) returns (ok: bool, ghost turns: seq<Turn>)
    requires w.Valid() && target.Valid()
    modifies w, target, target.inner
    ensures w.Valid() && target.Valid()
    ensures TurnsOk(old(target.inner.rows), old(target.pend), turns, w.codec)
    ensures target.inner.rows == RowsAfter(old(target.inner.rows), turns)
    ensures target.pend == PendAfter(old(target.pend), turns)
    ensures target.View() == ReplayedAll(old(target.View()), RecordsIn(turns), w.codec)
    ensures RecordsIn(turns) <= Tail(Records(old(w.file), w.crc), old(w.lastSaved))
    ensures ok <==> target.inner.failures == old(target.inner.failures)
                    && forall r :: r in Tail(Records(old(w.file), w.crc), old(w.lastSaved)) ==>
                         r.op in {2, 3, 4} || (r.op == 1 && DecodeEntity(r, w.codec).Some?)
    ensures !ok && target.inner.failures == old(target.inner.failures) ==>
              && |turns| < |Tail(Records(old(w.file), w.crc), old(w.lastSaved))|
              && var r := Tail(Records(old(w.file), w.crc), old(w.lastSaved))[|turns|];
                 !(r.op in {2, 3, 4} || (r.op == 1 && DecodeEntity(r, w.codec).Some?))
    ensures var l := old(w.Snapshot());
            if ok
            then RecordsIn(turns) == Tail(Records(l.file, w.crc), l.lastSaved) && w.Snapshot() == Resumed(l, w.crc)
            else w.Snapshot() == l.(pos := w.pos)
  {
    hide Records, GoodLen, Progress, Max, Tail, MaxSeq, Drained, TurnsOk, RecordsIn, RowsAfter, PendAfter, Combined,
      Total, Replayed, ReplayedAll, Buffered, Replayable, AllReplayable;
    var skip, maxSeq: U64 := w.lastSaved, 0;
    ghost var seen: seq<Record>, file := [], w.file;
    w.pos := 0;
    turns := [];
    NoProgress(w.file, skip, w.crc);
    NoTurns(target.inner.rows, target.pend, target.View(), w.codec);
    while true
      invariant w.Valid() && w.file == file && target.Valid()
      invariant w.Snapshot() == old(w.Snapshot()).(pos := w.pos)
      invariant Progress(file, w.pos, seen, RecordsIn(turns), maxSeq, skip, w.crc)
      invariant TurnsOk(old(target.inner.rows), old(target.pend), turns, w.codec)
      invariant target.inner.rows == RowsAfter(old(target.inner.rows), turns)
      invariant target.pend == PendAfter(old(target.pend), turns)
      invariant target.View() == ReplayedAll(old(target.View()), RecordsIn(turns), w.codec)
      invariant target.inner.failures == old(target.inner.failures)
      invariant AllReplayable(RecordsIn(turns), w.codec)
      decreases |w.file| - w.pos
    {
      var goodOff := w.pos;
      ReadSoFar(file, goodOff, seen, RecordsIn(turns), maxSeq, skip, w.crc);
      var next := w.NextEntry(goodOff);
      if next.None? {
        AllRead(file, goodOff, seen, RecordsIn(turns), maxSeq, skip, w.crc);
        break;
      }
      var r := next.value;
      OneMore(file, goodOff, w.pos, seen, RecordsIn(turns), maxSeq, r, skip, w.crc);
      seen := seen + [r];
      maxSeq := Max(maxSeq, r.sequence);
      if r.sequence > skip {
        if !Replayable(r, w.codec) {
          ReadSoFar(file, w.pos, seen, RecordsIn(turns) + [r], maxSeq, skip, w.crc);
          RefusedAt(RecordsIn(turns), r, Tail(Records(file, w.crc), skip), w.codec);
          return false, turns;
        }
        ghost var done;
        ok, done := ApplyEntry(target, r, w.codec);
        ghost var t := Turn(r, done, target.inner.rows, target.pend);
        OneMoreTurn(old(target.inner.rows), old(target.pend), turns, t, old(target.View()), w.codec);
        LastTurn(old(target.inner.rows), old(target.pend), turns, t);
        OneMoreReplayable(RecordsIn(turns), r, w.codec);
        turns := turns + [t];
        if !ok {
          ReadSoFar(file, w.pos, seen, RecordsIn(turns), maxSeq, skip, w.crc);
          return false, turns;
        }
      }
    }
    w.sequence := Max(skip, maxSeq);
    ok := true;
    ReplayableTail(RecordsIn(turns), w.codec);
  }

  ghost predicate AllReplayable(rs: seq<Record>, c: Codec) {
    forall r :: r in rs ==> Replayable(r, c)
  }

  lemma OneMoreReplayable(rs: seq<Record>, r: Record, c: Codec)
    requires AllReplayable(rs, c) && Replayable(r, c)
    ensures AllReplayable(rs + [r], c)
  {}

  lemma ReplayableTail(rs: seq<Record>, c: Codec)
    requires AllReplayable(rs, c)
    ensures forall r :: r in rs ==> r.op in {2, 3, 4} || (r.op == 1 && DecodeEntity(r, c).Some?)
  {}

  /** The record after those taken is the one that was refused. */
  lemma RefusedAt(taken: seq<Record>, r: Record, tail: seq<Record>, c: Codec)
    requires taken + [r] <= tail && !Replayable(r, c)
    ensures |taken| < |tail| && tail[|taken|] == r && r in tail
    ensures !(r.op in {2, 3, 4} || (r.op == 1 && DecodeEntity(r, c).Some?))
  {
    assert tail[|taken|] == (taken + [r])[|taken|];
  }

  lemma NoTurns(rows: Rows, pend: Pending, view: Rows, c: Codec)
    ensures TurnsOk(rows, pend, [], c) && RowsAfter(rows, []) == rows && PendAfter(pend, []) == pend
    ensures RecordsIn([]) == [] && ReplayedAll(view, [], c) == view && AllReplayable(RecordsIn([]), c)
  {}

  lemma LastTurn(rows: Rows, pend: Pending, turns: seq<Turn>, t: Turn)
    ensures RowsAfter(rows, turns + [t]) == t.rows && PendAfter(pend, turns + [t]) == t.pend
  {}

  /** Replays what the file holds above the checkpoint onto the target and, with checkpoints configured, flushes
      it and moves the checkpoint up to the end of the log. Whatever fails, the target has taken a prefix of the
      records, all of them once the replay is through, and LastSeq has not moved. Nothing fails but a record that cannot
      be replayed or a call of the store. */
  method Load(w: Wal, target: WriteBatcher)
    returns (ok: bool, ghost replayed: bool, ghost turns: seq<Turn>, ghost done: seq<RowKey>)
    requires w.Valid() && target.Valid()
    modifies w, target, target.inner
    ensures w.Valid() && target.Valid()
    ensures TurnsOk(old(target.inner.rows), old(target.pend), turns, w.codec)
    ensures Drained(RowsAfter(old(target.inner.rows), turns), PendAfter(old(target.pend), turns),
                    target.inner.rows, target.pend, done)
    ensures target.View() == ReplayedAll(old(target.View()), RecordsIn(turns), w.codec)
    ensures RecordsIn(turns) <= Tail(Records(old(w.file), w.crc), old(w.lastSaved))
    ensures ok <==> target.inner.failures == old(target.inner.failures)
                    && forall r :: r in Tail(Records(old(w.file), w.crc), old(w.lastSaved)) ==>
                         r.op in {2, 3, 4} || (r.op == 1 && DecodeEntity(r, w.codec).Some?)
    ensures !replayed ==> !ok && done == [] && w.Snapshot() == old(w.Snapshot()).(pos := w.pos)
    ensures replayed ==> RecordsIn(turns) == Tail(Records(old(w.file), w.crc), old(w.lastSaved))
    ensures replayed && !w.policy.configured ==> ok && done == []
    ensures replayed && !(ok && w.policy.configured) ==> w.Snapshot() == Resumed(old(w.Snapshot()), w.crc)
    ensures ok && w.policy.configured ==>
              && target.pend == map[] && target.inner.rows == target.View()
              && w.Snapshot() == OnCheckpoint(Resumed(old(w.Snapshot()), w.crc), w.policy, true).0
  {
    hide Records, GoodLen, Tail, MaxSeq, Max, RecordsIn, TurnsOk, ReplayedAll, Combined, Total, Drained, RowsAfter,
      PendAfter, Resumed;
    done := [];
    ok, turns := Replay(w, target);
    replayed := ok;
    NothingDrained(target.inner.rows, target.pend);
    if !ok {
      return;
    }
    if w.policy.configured {
      ok, done := target.Flush();
      var err := w.CheckpointLocked(ok);
      if err.Some? {
        return false, true, turns, done;
      }
      w.writesSinceCkpt := 0;
      w.bytesSinceCkpt := 0;
    }
  }

  // ---------- what Load recovers ----------

  lemma ReplayedKey(rows: Rows, h: seq<Record>, i: nat, c: Codec, k: RowKey)
    requires HistOk(h, c) && i < |h|
    ensures Find(Replayed(rows, h[i], c), k) ==
              if KeyOf(h[i]) == k then Outcome(ChangeOf(h[i], c)) else Find(rows, k)
  {
    hide Loggable;
    assert Understood(h[i], c);
  }

  /** Replaying the history from `from` on: keys it touches get their current value, the rest keep what they had. */
  lemma {:induction false} ReplayReads(rows: Rows, h: seq<Record>, from: nat, n: nat, c: Codec, k: RowKey)
    requires HistOk(h, c) && from <= n <= |h|
    ensures Find(ReplayedAll(rows, h[from..n], c), k) ==
              if Touched(h, from, n, k) then Reads(h, n, c, k) else Find(rows, k)
    decreases n
  {
    hide HistOk, Fold, ChangeOf, Replayed, Find;
    if from < n {
      assert h[from..n][..n - from - 1] == h[from..n - 1];
      ReplayReads(rows, h, from, n - 1, c, k);
      ReplayedKey(ReplayedAll(rows, h[from..n - 1], c), h, n - 1, c, k);
      ReadsNext(h, n - 1, c, k);
      if KeyOf(h[n - 1]) != k {
        assert Touched(h, from, n, k) ==> Touched(h, from, n - 1, k);
      }
    }
  }

  /** Load on any crashed node of a run, done in one go, yields the fold of the whole history: even when the store
      was already ahead of LastSeq, and whatever part of the last append survived. */
  lemma LoadRecovers(run: seq<State>, i: nat, env: Env)
    requires IsRun(run, env) && i < |run| && Faithful(env.codec) && run[i].phase == Down
    ensures var s := run[i];
            ReplayedAll(s.rows, Tail(Records(s.log.file, env.crc), s.log.lastSaved), env.codec) ==
            Fold(s.hist, |s.hist|, env.codec)
  {
    hide IsRun, Faithful, FileOk, Records, Tail, MaxSeq, GoodLen, Max, Fold, ReplayedAll, Touched, HeldSince;
    RunKeeps(run, i, env);
    var s := run[i];
    FileReads(s, env);
    var rs := s.hist[s.log.lastSaved..];
    assert rs == s.hist[s.log.lastSaved..|s.hist|];
    forall k ensures Find(ReplayedAll(s.rows, rs, env.codec), k) == Find(Fold(s.hist, |s.hist|, env.codec), k) {
      ReplayReads(s.rows, s.hist, s.log.lastSaved, |s.hist|, env.codec, k);
      assert HeldSince(s.hist, s.log.lastSaved, env.codec, k, Find(s.rows, k));
      if !Touched(s.hist, s.log.lastSaved, |s.hist|, k) {
        UnreachedKey(s.hist, s.log.lastSaved, env.codec, k, Find(s.rows, k));
      }
    }
    SameReads(ReplayedAll(s.rows, rs, env.codec), Fold(s.hist, |s.hist|, env.codec));
  }
}
