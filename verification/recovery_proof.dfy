/** Every step keeps the recovery invariant, and after Load the store is the fold of everything logged. */
module RecoveryProof {
  import opened Wrappers
  import opened WalCodec
  import opened WalLog
  import opened Entities
  import opened WalFile
  import opened Batching
  import opened Recovery

  // ---------- what an operation logs ----------

  ghost predicate Numbered(rs: seq<Record>, from: nat, c: Codec) {
    forall i :: 0 <= i < |rs| ==> rs[i].sequence == from + i + 1 && Understood(rs[i], c)
  }

  lemma {:induction false} SetRecordsNumbered(from: nat, table: Bytes, es: seq<Entity>, c: Codec)
    requires from + |es| < 0x1_0000_0000_0000_0000 && Faithful(c)
    requires forall e :: e in es ==> e.key != [] && c.encode(e).Some?
    ensures Numbered(SetRecords(from, table, es, c), from, c)
    decreases es
  {
    if es != [] {
      SetRecordsNumbered(from + 1, table, es[1..], c);
      assert c.decode(c.encode(es[0]).value) == Some(es[0]);
    }
  }

  lemma {:induction false} DelRecordsNumbered(from: nat, table: Bytes, keys: seq<Bytes>, c: Codec)
    requires from + |keys| < 0x1_0000_0000_0000_0000
    ensures Numbered(DelRecords(from, table, keys), from, c)
    decreases keys
  {
    if keys != [] {
      DelRecordsNumbered(from + 1, table, keys[1..], c);
    }
  }

  /** A running node logs an accepted operation as the frames of its records, numbered on from the history. */
  lemma OpAppends(s: State, op: Op, env: Env)
    requires Accepted(op, s, env) && s.log.pos == |s.log.file| && s.log.sequence == |s.hist| && Faithful(env.codec)
    ensures var rs := OpRecords(op, s, env);
            var l := OnLogOp(s.log, op, env);
            && l.file == s.log.file + Frames(rs, env.crc) && l.pos == |l.file|
            && l.sequence == |s.hist| + |rs| && l.lastSaved == s.log.lastSaved
            && Numbered(rs, |s.hist|, env.codec)
  {
    hide Frames, Understood, OnBulkSet, OnBulkDelete;
    match op
    case SetOp(table, es) =>
      SetRecordsNumbered(|s.hist|, table, es, env.codec);
      var k := BulkSetAppends(s.log, table, es, env.codec, env.crc);
      assert es[..|es|] == es;
    case DelOp(table, keys) =>
      DelRecordsNumbered(|s.hist|, table, keys, env.codec);
      var k := BulkDeleteAppends(s.log, table, keys, env.crc);
      assert keys[..|keys|] == keys;
  }

  lemma {:induction false} FramesConcat(a: seq<Record>, b: seq<Record>, crc: Checksum)
    ensures Frames(a + b, crc) == Frames(a, crc) + Frames(b, crc)
  {
    hide Frame;
    if a == [] {
      assert a + b == b;
    } else {
      assert (a + b)[1..] == a[1..] + b;
      FramesConcat(a[1..], b, crc);
    }
  }

  lemma HistGrows(h: seq<Record>, rs: seq<Record>, c: Codec)
    requires HistOk(h, c) && Numbered(rs, |h|, c) && AllLoggable(rs) && |h| + |rs| < 0x1_0000_0000_0000_0000
    ensures HistOk(h + rs, c)
  {
    hide Loggable, Understood;
  }

  lemma {:induction false} FileGrows(file: Bytes, h: seq<Record>, lastSaved: nat, rs: seq<Record>, rest: Bytes,
      crc: Checksum)
    requires FileOk(file, h, lastSaved, false, crc) && !Readable(rest, crc)
    ensures FileOk(file + Frames(rs, crc) + rest, h + rs, lastSaved, true, crc)
    ensures rest == [] ==> FileOk(file + Frames(rs, crc) + rest, h + rs, lastSaved, false, crc)
  {
    hide Frames, Readable;
    var base: nat, r: Bytes :| FileIs(file, h, base, r, crc) && base <= lastSaved && r == [];
    FramesConcat(h[base..], rs, crc);
    assert (h + rs)[base..] == h[base..] + rs;
    assert FileIs(file + Frames(rs, crc) + rest, h + rs, base, rest, crc);
  }

  lemma RowsOkGrows(s: State, t: State, env: Env)
    requires RowsOk(s, env) && s.hist <= t.hist && t.rows == s.rows && t.log.lastSaved == s.log.lastSaved
    ensures RowsOk(t, env)
  {
    hide HeldSince;
    forall k ensures HeldSince(t.hist, t.log.lastSaved, env.codec, k, Find(t.rows, k)) {
      HeldSinceGrows(s.hist, t.hist, s.log.lastSaved, env.codec, k, Find(s.rows, k));
    }
  }

  lemma LogOpKeeps(s: State, op: Op, env: Env, t: State)
    requires Enabled(s, LogOp(op), env) && t == Do(s, LogOp(op), env)
    requires Faithful(env.codec) && Inv(s, env)
    ensures Inv(t, env)
  {
    hide HistOk, FileOk, RowsOk, Loggable, Frames, Readable, SetRecords, DelRecords, OnBulkSet, OnBulkDelete, Fold,
      Faithful;
    var rs := OpRecords(op, s, env);
    OpAppends(s, op, env);
    HistGrows(s.hist, rs, env.codec);
    EmptyUnreadable(env.crc);
    FileGrows(s.log.file, s.hist, s.log.lastSaved, rs, [], env.crc);
    assert s.log.file + Frames(rs, env.crc) + [] == s.log.file + Frames(rs, env.crc);
    RowsOkGrows(s, t, env);
    assert t.hist[|s.hist|..] == rs;
    forall k ensures ViewOfKeyOk(t, env, k, |s.hist|, false) {
      assert ViewOfKeyOk(s, env, k, |s.hist|, false);
      FoldOfLonger(s.hist, t.hist, |s.hist|, env.codec);
    }
  }

  lemma TearOpKeeps(s: State, op: Op, whole: nat, part: nat, env: Env, t: State)
    requires Enabled(s, TearOp(op, whole, part), env) && t == DoTearOp(s, op, whole, part, env)
    requires Faithful(env.codec) && Inv(s, env)
    ensures Inv(t, env)
  {
    hide HistOk, FileOk, RowsOk, Loggable, Frames, Frame, Readable, SetRecords, DelRecords, OnLogOp, Fold, Faithful,
      Understood;
    var rs := OpRecords(op, s, env);
    var rest := Frame(rs[whole], env.crc)[..part];
    OpAppends(s, op, env);
    HistGrows(s.hist, rs[..whole], env.codec);
    CutFrameUnreadable(rs[whole], part, env.crc);
    FileGrows(s.log.file, s.hist, s.log.lastSaved, rs[..whole], rest, env.crc);
    RowsOkGrows(s, t, env);
  }

  /** A crash while an operation is being appended may leave the file at any byte: every cut that drops something of
      what the operation would append is a step of the machine. */
  lemma {:induction false} EveryCutIsATear(s: State, op: Op, env: Env, n: nat) returns (whole: nat, part: nat)
    requires CanLog(op, s, env) && Inv(s, env) && Faithful(env.codec)
    requires |s.log.file| <= n < |OnLogOp(s.log, op, env).file|
    ensures Enabled(s, TearOp(op, whole, part), env)
    ensures DoTearOp(s, op, whole, part, env).log.file == OnLogOp(s.log, op, env).file[..n]
  {
    hide HistOk, FileOk, RowsOk, ViewOk, Loggable, Frames, Frame, Readable, SetRecords, DelRecords, OnLogOp, Understood;
    var rs := OpRecords(op, s, env);
    OpAppends(s, op, env);
    whole, part := CutPlace(rs, n - |s.log.file|, env.crc);
    assert OnLogOp(s.log, op, env).file[..n] == s.log.file + Frames(rs, env.crc)[..n - |s.log.file|];
  }

  lemma {:induction false} CutPlace(rs: seq<Record>, n: nat, crc: Checksum) returns (whole: nat, part: nat)
    requires n < |Frames(rs, crc)|
    ensures whole < |rs| && part < |Frame(rs[whole], crc)|
    ensures Frames(rs, crc)[..n] == Frames(rs[..whole], crc) + Frame(rs[whole], crc)[..part]
  {
    hide Frame;
    var f := Frame(rs[0], crc);
    if n < |f| {
      whole, part := 0, n;
    } else {
      whole, part := CutPlace(rs[1..], n - |f|, crc);
      assert rs[..whole + 1][1..] == rs[1..][..whole];
      assert Frames(rs, crc)[..n] == f + Frames(rs[1..], crc)[..n - |f|];
      whole := whole + 1;
    }
  }

  lemma HandOverKeeps(s: State, env: Env, t: State)
    requires Enabled(s, HandOver, env) && t == DoHandOver(s, env)
    requires Inv(s, env)
    ensures Inv(t, env)
  {
    hide HistOk, FileOk, RowsOk, Fold, ChangeOf, HeldSince;
    var n := Handed(s);
    assert RowsOk(t, env) by { RowsOkGrows(s, t, env); }
    if s.phase.rest != [] {
      assert s.hist[n..][1..] == s.hist[n + 1..];
      var next, loading := n + 1, s.phase.loading;
      forall k ensures ViewOfKeyOk(t, env, k, next, loading) {
        HandOverKeepsKey(s, env, t, k);
      }
    } else {
      forall k ensures ViewOfKeyOk(t, env, k, n, false) {
        assert ViewOfKeyOk(s, env, k, n, false);
      }
    }
  }

  /** The record handed over is now the latest on its key, and no other key notices. */
  lemma HandOverKeepsKey(s: State, env: Env, t: State, k: RowKey)
    requires s.phase.Busy? && s.phase.rest != [] && 0 <= Handed(s) && s.log.lastSaved <= Handed(s)
    requires s.phase.rest == s.hist[Handed(s)..] && t == DoHandOver(s, env)
    requires ViewOfKeyOk(s, env, k, Handed(s), s.phase.loading)
    ensures ViewOfKeyOk(t, env, k, Handed(s) + 1, s.phase.loading)
  {
    hide Fold, ChangeOf;
    var n := Handed(s);
    ReadsNext(s.hist, n, env.codec, k);
    assert s.phase.rest[0] == s.hist[n];
    if KeyOf(s.hist[n]) != k {
      assert Touched(s.hist, s.log.lastSaved, n + 1, k) ==> Touched(s.hist, s.log.lastSaved, n, k);
    }
  }

  lemma FlushKeyKeeps(s: State, k: RowKey, env: Env, t: State)
    requires Enabled(s, FlushKey(k), env) && t == Do(s, FlushKey(k), env)
    requires Inv(s, env)
    ensures Inv(t, env)
  {
    hide HistOk, FileOk, Fold, HeldSince, Touched;
    var n := Handed(s);
    assert ViewOfKeyOk(s, env, k, n, s.phase.Busy? && s.phase.loading);
    assert Find(t.rows, k) == Reads(s.hist, n, env.codec, k);
    ReadIsHeld(s.hist, s.log.lastSaved, n, env.codec, k);
    forall j ensures HeldSince(t.hist, t.log.lastSaved, env.codec, j, Find(t.rows, j)) {
      assert HeldSince(s.hist, s.log.lastSaved, env.codec, j, Find(s.rows, j));
    }
    forall j, loading: bool | ViewOfKeyOk(s, env, j, n, loading) ensures ViewOfKeyOk(t, env, j, n, loading) {
    }
    assert ViewOk(t, env);
  }

  lemma ReadIsHeld(h: seq<Record>, from: nat, n: nat, c: Codec, k: RowKey)
    requires from <= n <= |h|
    ensures HeldSince(h, from, c, k, Reads(h, n, c, k))
  {}

  lemma SaveSeqKeeps(s: State, truncating: bool, env: Env, t: State)
    requires Enabled(s, SaveSeq(truncating), env) && t == DoSaveSeq(s, truncating)
    requires Inv(s, env)
    ensures Inv(t, env)
  {
    hide HistOk, FileOk, Fold, HeldSince, Touched;
    FileOkLater(s.log.file, s.hist, s.log.lastSaved, |s.hist|, false, env.crc);
    forall k ensures HeldSince(t.hist, t.log.lastSaved, env.codec, k, Find(t.rows, k)) {
      assert ViewOfKeyOk(s, env, k, |s.hist|, false);
      ReadIsHeld(s.hist, |s.hist|, |s.hist|, env.codec, k);
    }
    forall k ensures ViewOfKeyOk(t, env, k, |s.hist|, false) {
      assert ViewOfKeyOk(s, env, k, |s.hist|, false);
    }
  }

  lemma FileOkLater(file: Bytes, h: seq<Record>, lastSaved: nat, later: nat, torn: bool, crc: Checksum)
    requires FileOk(file, h, lastSaved, torn, crc) && lastSaved <= later
    ensures FileOk(file, h, later, torn, crc) && FileOk(file, h, later, true, crc)
  {
    hide Frames, Readable;
  }

  lemma CutLogKeeps(s: State, env: Env, t: State)
    requires Enabled(s, CutLog, env) && t == Do(s, CutLog, env)
    requires Inv(s, env)
    ensures Inv(t, env)
  {
    hide HistOk, Fold, HeldSince, Touched, Readable;
    EmptyUnreadable(env.crc);
    assert FileIs([], s.hist, |s.hist|, [], env.crc);
    RowsOkGrows(s, t, env);
    forall k ensures ViewOfKeyOk(t, env, k, |s.hist|, false) {
      assert ViewOfKeyOk(s, env, k, |s.hist|, false);
    }
  }

  lemma CrashKeeps(s: State, env: Env, t: State)
    requires Enabled(s, Crash, env) && t == DoCrash(s)
    requires Inv(s, env)
    ensures Inv(t, env)
  {
    hide HistOk, FileOk, HeldSince;
    FileOkLater(s.log.file, s.hist, s.log.lastSaved, s.log.lastSaved, !Loaded(s.phase), env.crc);
    RowsOkGrows(s, t, env);
  }

  // ---------- Load ----------

  /** Skipping through LastSeq leaves exactly the history after it, whatever the file was cut down to. */
  lemma {:induction false} TailOfHistory(h: seq<Record>, c: Codec, base: nat, skip: U64)
    requires HistOk(h, c) && base <= |h|
    ensures Tail(h[base..], skip) == h[if skip <= |h| then (if base <= skip then skip else base) else |h|..]
    decreases |h| - base
  {
    hide Loggable, Understood;
    if base < |h| {
      assert h[base..][1..] == h[base + 1..];
      TailOfHistory(h, c, base + 1, skip);
    }
  }

  lemma {:induction false} MaxSeqOfHistory(h: seq<Record>, c: Codec, base: nat, n: nat)
    requires HistOk(h, c) && base <= n <= |h|
    ensures MaxSeq(h[base..n]) == if base < n then n else 0
    decreases n
  {
    hide Loggable, Understood;
    if base < n {
      assert h[base..n][..n - base - 1] == h[base..n - 1];
      MaxSeqOfHistory(h, c, base, n - 1);
    }
  }

  /** What replay reads from the file, with or without a torn tail. */
  lemma FileReads(s: State, env: Env)
    requires HistOk(s.hist, env.codec) && FileOk(s.log.file, s.hist, s.log.lastSaved, true, env.crc)
    requires s.log.lastSaved <= |s.hist|
    ensures Tail(Records(s.log.file, env.crc), s.log.lastSaved) == s.hist[s.log.lastSaved..]
    ensures Max(s.log.lastSaved, MaxSeq(Records(s.log.file, env.crc))) == |s.hist|
    ensures FileOk(s.log.file[..GoodLen(s.log.file, env.crc)], s.hist, s.log.lastSaved, false, env.crc)
  {
    hide Loggable, Understood, Frames, Readable, Records, GoodLen;
    var h, file := s.hist, s.log.file;
    var base: nat, rest: Bytes :| FileIs(file, h, base, rest, env.crc) && base <= s.log.lastSaved;
    FramesRead(h[base..], rest, env.crc);
    Unread(rest, env.crc);
    assert h[base..] + [] == h[base..] == h[base..|h|];
    TailOfHistory(h, env.codec, base, s.log.lastSaved);
    MaxSeqOfHistory(h, env.codec, base, |h|);
    EmptyUnreadable(env.crc);
    assert FileIs(file[..GoodLen(file, env.crc)], h, base, [], env.crc);
  }

  lemma StartLoadKeeps(s: State, env: Env, t: State)
    requires Enabled(s, StartLoad, env) && t == DoStartLoad(s, env)
    requires Inv(s, env)
    ensures Inv(t, env)
  {
    hide HistOk, FileOk, Fold, HeldSince, Records, Tail, MaxSeq, GoodLen, Max;
    FileReads(s, env);
    RowsOkGrows(s, t, env);
    assert Handed(t) == s.log.lastSaved;
  }

  /** A key no operation touched since the checkpoint still holds what it held at any point since. */
  lemma UnreachedKey(h: seq<Record>, from: nat, c: Codec, k: RowKey, v: Option<Entity>)
    requires HeldSince(h, from, c, k, v) && from <= |h| && !Touched(h, from, |h|, k)
    ensures v == Reads(h, |h|, c, k)
  {
    hide Fold;
    var j :| from <= j <= |h| && Reads(h, j, c, k) == v;
    assert !Touched(h, j, |h|, k);
    UntouchedReads(h, j, |h|, c, k);
  }

  /** A key replay did not reach holds what it held at some point since the checkpoint, so what it holds at the end. */
  lemma LoadedKey(s: State, env: Env, k: RowKey)
    requires s.log.lastSaved <= |s.hist| && ViewOfKeyOk(s, env, k, |s.hist|, true)
    requires HeldSince(s.hist, s.log.lastSaved, env.codec, k, Find(s.rows, k))
    ensures Overlay(s.rows, s.pend, k) == Reads(s.hist, |s.hist|, env.codec, k)
  {
    hide Fold;
    if !Touched(s.hist, s.log.lastSaved, |s.hist|, k) {
      UnreachedKey(s.hist, s.log.lastSaved, env.codec, k, Find(s.rows, k));
    }
  }

  lemma EndLoadKeeps(s: State, env: Env, t: State)
    requires Enabled(s, EndLoad, env) && t == DoEndLoad(s, env)
    requires Inv(s, env)
    ensures Inv(t, env)
  {
    hide HistOk, FileOk, Fold, HeldSince, Records, Tail, MaxSeq, GoodLen, Max, Touched;
    FileReads(s, env);
    RowsOkGrows(s, t, env);
    forall k ensures ViewOfKeyOk(t, env, k, |s.hist|, false) {
      assert ViewOfKeyOk(s, env, k, |s.hist|, true);
      assert HeldSince(s.hist, s.log.lastSaved, env.codec, k, Find(s.rows, k));
      LoadedKey(s, env, k);
    }
  }

  // ---------- runs ----------

  lemma InitKeeps(s: State, env: Env)
    requires Init(s)
    ensures Inv(s, env)
  {
    EmptyUnreadable(env.crc);
    assert FileIs([], [], 0, [], env.crc);
    forall k ensures HeldSince(s.hist, 0, env.codec, k, Find(s.rows, k)) {
      ReadIsHeld(s.hist, 0, 0, env.codec, k);
    }
  }

  lemma StepKeeps(s: State, t: State, env: Env)
    requires StepsTo(s, t, env) && Faithful(env.codec) && Inv(s, env)
    ensures Inv(t, env)
  {
    hide Inv, Faithful, CanLog, DoTearOp, DoHandOver, DoSaveSeq, DoCrash, DoStartLoad, DoEndLoad;
    var a :| Enabled(s, a, env) && t == Do(s, a, env);
    match a
    case LogOp(op) => LogOpKeeps(s, op, env, t);
    case TearOp(op, whole, part) => TearOpKeeps(s, op, whole, part, env, t);
    case HandOver => HandOverKeeps(s, env, t);
    case FlushKey(k) => FlushKeyKeeps(s, k, env, t);
    case SaveSeq(truncating) => SaveSeqKeeps(s, truncating, env, t);
    case CutLog => CutLogKeeps(s, env, t);
    case Crash => CrashKeeps(s, env, t);
    case StartLoad => StartLoadKeeps(s, env, t);
    case EndLoad => EndLoadKeeps(s, env, t);
  }

  lemma {:induction false} RunKeeps(run: seq<State>, i: nat, env: Env)
    requires IsRun(run, env) && i < |run| && Faithful(env.codec)
    ensures Inv(run[i], env)
  {
    hide Inv, Faithful, Init, StepsTo;
    if i == 0 {
      InitKeeps(run[0], env);
    } else {
      RunKeeps(run, i - 1, env);
      assert StepsTo(run[i - 1], run[i - 1 + 1], env);
      StepKeeps(run[i - 1], run[i], env);
    }
  }

  /** Crash recovery equals full replay: in every run with crashes at any moment, torn appends, flushes cut off at
      any key, checkpoints with and without truncation and crashes in between, whenever the node is up and idle,
      in particular right after every Load, what it answers is the fold of every complete logged operation from
      the beginning; and once the buffer is flushed the store itself is that fold. */
  lemma RecoveryEqualsReplay(run: seq<State>, i: nat, env: Env)
    requires IsRun(run, env) && i < |run| && Faithful(env.codec) && run[i].phase == Idle
    ensures var s := run[i];
            && Combined(s.rows, s.pend) == Fold(s.hist, |s.hist|, env.codec)
            && (s.pend == map[] ==> s.rows == Fold(s.hist, |s.hist|, env.codec))
  {
    hide IsRun, Faithful, HistOk, FileOk, RowsOk, Combined, Fold;
    RunKeeps(run, i, env);
    var s := run[i];
    forall k ensures Find(Combined(s.rows, s.pend), k) == Find(Fold(s.hist, |s.hist|, env.codec), k) {
      assert ViewOfKeyOk(s, env, k, |s.hist|, false);
      CombinedReads(s.rows, s.pend, k);
    }
    SameReads(Combined(s.rows, s.pend), Fold(s.hist, |s.hist|, env.codec));
    NothingPending(s.rows);
  }

  /** Nothing completely logged is ever forgotten: the history only grows, and the sequence counter of a running
      node is its length. */
  lemma {:induction false} HistoryOnlyGrows(run: seq<State>, i: nat, j: nat, env: Env)
    requires IsRun(run, env) && i <= j < |run| && Faithful(env.codec)
    ensures run[i].hist <= run[j].hist && (Loaded(run[j].phase) ==> run[j].log.sequence == |run[j].hist|)
    decreases j
  {
    hide Faithful, Init, StepsTo, HistOk, FileOk, RowsOk;
    RunKeeps(run, j, env);
    if i < j {
      HistoryOnlyGrows(run, i, j - 1, env);
      assert StepsTo(run[j - 1], run[j - 1 + 1], env);
      StepGrows(run[j - 1], run[j], env);
    }
  }

  lemma StepGrows(s: State, t: State, env: Env)
    requires StepsTo(s, t, env)
    ensures s.hist <= t.hist
  {
    hide Records, GoodLen, Tail, CanLog, OnLogOp, OpRecords;
  }

  // ---------- the hypothesis on checkpoints ----------

  /** Without the hypothesis that a checkpoint waits for the store call: a checkpoint taken between the append of
      a write and its store call, as the automatic one inside WAL.Set is, followed by a crash and a Load, loses
      the write whenever it would have changed anything. */
  lemma EarlyCheckpointLosesWrite(s: State, table: Bytes, e: Entity, env: Env)
    requires Inv(s, env) && s.phase == Idle && s.pend == map[] && Faithful(env.codec)
    requires CanLog(SetOp(table, [e]), s, env)
    requires Find(s.rows, RowKey(table, e.key)) != Some(e)
    ensures var logged := Do(s, LogOp(SetOp(table, [e])), env);
            var down := DoCrash(DoSaveSeq(logged, false));
            var loading := DoStartLoad(down, env);
            && loading.phase == Busy([], true)
            && var up := DoEndLoad(loading, env);
               && Reads(up.hist, |up.hist|, env.codec, RowKey(table, e.key)) == Some(e)
               && Overlay(up.rows, up.pend, RowKey(table, e.key)) != Some(e)
  {
    hide Inv, Faithful, Fold, Records, GoodLen, Tail, MaxSeq, Max, Loggable, SetRecords, OnBulkSet, HistOk, FileOk;
    var op := SetOp(table, [e]);
    var logged := Do(s, LogOp(op), env);
    LogOpKeeps(s, op, env, logged);
    EarlyCheckpointTail(logged, env);
    LoggedSet(s, table, e, env);
    ReadsNext(logged.hist, |s.hist|, env.codec, RowKey(table, e.key));
  }

  /** The one record of a single set reads as the set. */
  lemma LoggedSet(s: State, table: Bytes, e: Entity, env: Env)
    requires Accepted(SetOp(table, [e]), s, env) && Faithful(env.codec)
    ensures var rs := OpRecords(SetOp(table, [e]), s, env);
            |rs| == 1 && KeyOf(rs[0]) == RowKey(table, e.key) && ChangeOf(rs[0], env.codec) == Put(e)
  {
    assert [e][1..] == [];
    assert env.codec.decode(env.codec.encode(e).value) == Some(e);
  }

  lemma EarlyCheckpointTail(logged: State, env: Env)
    requires Inv(logged, env) && Loaded(logged.phase)
    ensures var down := DoCrash(DoSaveSeq(logged, false));
            Tail(Records(down.log.file, env.crc), down.log.lastSaved) == []
  {
    hide HistOk, FileOk, RowsOk, ViewOk, Records, Tail, MaxSeq, GoodLen, Max;
    var down := DoCrash(DoSaveSeq(logged, false));
    FileOkLater(logged.log.file, logged.hist, logged.log.lastSaved, |logged.hist|, false, env.crc);
    FileReads(down, env);
  }

  // ---------- the hypotheses on what is logged ----------

  /** Without the bound on payloads: nothing in the log refuses a larger record, but on replay it and everything
      logged after it are taken for a torn tail, and the file is cut before it. */
  lemma OversizedWriteCutsLog(s: State, table: Bytes, e: Entity, more: Bytes, env: Env)
    requires Inv(s, env) && s.phase == Idle && Faithful(env.codec) && Accepted(SetOp(table, [e]), s, env)
    requires WellFormed(OpRecords(SetOp(table, [e]), s, env)[0])
    requires |Payload(OpRecords(SetOp(table, [e]), s, env)[0])| > MAX_PAYLOAD
    ensures var r := OpRecords(SetOp(table, [e]), s, env)[0];
            var (l, err) := OnBulkSet(s.log, table, [e], env.codec, env.crc);
            && err.None? && l.file == s.log.file + Frame(r, env.crc)
            && Records(l.file + more, env.crc) == Records(s.log.file, env.crc)
            && GoodLen(l.file + more, env.crc) == |s.log.file|
  {
    hide HistOk, RowsOk, ViewOk, Loggable, Records, GoodLen, Payload, WellFormed, Frame, Readable, Understood,
        OnBulkSet;
    var op := SetOp(table, [e]);
    var r := OpRecords(op, s, env)[0];
    var k := BulkSetAppends(s.log, table, [e], env.codec, env.crc);
    OpAppends(s, op, env);
    OneFrame(OpRecords(op, s, env), env.crc);
    FileAllRead(s, env, Frame(r, env.crc) + more);
    OversizedIsTail(r, more, env.crc);
    assert s.log.file + Frame(r, env.crc) + more == s.log.file + (Frame(r, env.crc) + more);
    assert Records(s.log.file, env.crc) + [] == Records(s.log.file, env.crc);
  }

  lemma {:induction false} OneFrame(rs: seq<Record>, crc: Checksum)
    requires |rs| == 1
    ensures Frames(rs, crc) == Frame(rs[0], crc)
  {
    hide Frame;
    assert rs[1..] == [];
  }

  /** Everything in the file of a node that is up can be read, and so can what follows it. */
  lemma {:induction false} FileAllRead(s: State, env: Env, rest: Bytes)
    requires Inv(s, env) && Loaded(s.phase)
    ensures Records(s.log.file + rest, env.crc) == Records(s.log.file, env.crc) + Records(rest, env.crc)
    ensures GoodLen(s.log.file + rest, env.crc) == |s.log.file| + GoodLen(rest, env.crc)
  {
    hide RowsOk, ViewOk, Loggable, Records, GoodLen, Frames, Understood;
    var base: nat, r: Bytes :| FileIs(s.log.file, s.hist, base, r, env.crc) && r == [];
    FramesRead(s.hist[base..], rest, env.crc);
    FramesRead(s.hist[base..], [], env.crc);
    EmptyUnreadable(env.crc);
    Unread([], env.crc);
    assert Frames(s.hist[base..], env.crc) + [] == Frames(s.hist[base..], env.crc);
    assert s.hist[base..] + [] == s.hist[base..];
  }

  /** Without the hypothesis that a whole batch encodes: a batch that fails at entity k is reported as failed and the
      store is not told, but its first k records are in the log. A crash before the next checkpoint brings them back;
      a checkpoint in between skips them for good. */
  lemma {:induction false} HalfLoggedBatch(s: State, table: Bytes, es: seq<Entity>, k: nat, env: Env)
    requires Inv(s, env) && s.phase == Idle && Faithful(env.codec) && k < |es| && env.codec.encode(es[k]).None?
    requires CanLog(SetOp(table, es[..k]), s, env) && s.log.sequence + |es| < 0x1_0000_0000_0000_0000
    ensures var rs := OpRecords(SetOp(table, es[..k]), s, env);
            var (l, err) := OnBulkSet(s.log, table, es, env.codec, env.crc);
            && |rs| == k && err.Some? && l.sequence == |s.hist| + k && l.lastSaved == s.log.lastSaved
            && Tail(Records(l.file, env.crc), l.lastSaved) == s.hist[s.log.lastSaved..] + rs
            && Tail(Records(l.file, env.crc), l.sequence) == []
  {
    hide HistOk, RowsOk, ViewOk, Loggable, Records, GoodLen, Frames, Understood, OnBulkSet, Tail, MaxSeq, Max, FileOk,
      SetRecords;
    var op := SetOp(table, es[..k]);
    var j := BulkSetAppends(s.log, table, es, env.codec, env.crc);
    forall i | 0 <= i < j ensures env.codec.encode(es[i]).Some? {
      assert es[..j][i] in es[..j];
    }
    forall i | 0 <= i < k ensures env.codec.encode(es[i]).Some? {
      assert es[..k][i] in es[..k];
    }
    OpAppends(s, op, env);
    var t := Do(s, LogOp(op), env);
    LogOpKeeps(s, op, env, t);
    EarlyCheckpointTail(t, env);
    FileReadsUp(t, env);
    assert t.hist[s.log.lastSaved..] == s.hist[s.log.lastSaved..] + OpRecords(op, s, env);
  }

  lemma FileReadsUp(s: State, env: Env)
    requires Inv(s, env) && Loaded(s.phase)
    ensures Tail(Records(s.log.file, env.crc), s.log.lastSaved) == s.hist[s.log.lastSaved..]
  {
    hide HistOk, RowsOk, ViewOk, Records, Tail, MaxSeq, GoodLen, Max, FileOk;
    FileOkLater(s.log.file, s.hist, s.log.lastSaved, s.log.lastSaved, false, env.crc);
    FileReads(s, env);
  }

  /** Without the hypothesis that keys are not empty: a logged entity with an empty key is not read as an entity, so it
      comes back as itself exactly when decoding its encoding as any value happens to give its body. */
  lemma EmptyKeyMisread(s: U64, table: Bytes, e: Entity, c: Codec)
    requires Faithful(c) && e.key == [] && c.encode(e).Some?
    ensures var r := SetRecord(s, table, e, c.encode(e).value);
            DecodeEntity(r, c) == Some(e) <==> c.decodeAny(r.value) == Some(e.body)
  {
    assert c.decode(c.encode(e).value) == Some(e);
  }
}
