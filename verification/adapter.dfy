/** The adapter of internal/db/adapter.go over the log and the write buffer: what its code does is a run of the
    recovery state machine, so that the recovery theorem holds of the code. */
module DbAdapter {
  import opened Wrappers
  import opened WalCodec
  import opened WalLog
  import opened Entities
  import opened WalFile
  import opened Batching
  import opened Recovery
  import opened RecoveryProof
  import opened WalLoad
  import LruCache
  import C = CacheCoherence

  // ---------- stretching a run ----------

  lemma Take(run: seq<State>, a: Action, env: Env) returns (r: seq<State>)
    requires IsRun(run, env) && Enabled(Last(run), a, env)
    ensures IsRun(r, env) && run <= r && Last(r) == Do(Last(run), a, env)
  {
    hide Enabled, Do, Init;
    r := run + [Do(Last(run), a, env)];
    assert StepsTo(Last(run), Last(r), env);
    forall i | 0 <= i < |r| - 1 ensures StepsTo(r[i], r[i + 1], env) {
      if i < |run| - 1 {
        assert StepsTo(run[i], run[i + 1], env);
      }
    }
  }

  /** The buffer after the changes of `rs` have been handed over. */
  function UpsertRecords(pend: Pending, rs: seq<Record>, c: Codec): Pending
    decreases rs
  {
    if rs == [] then pend else UpsertRecords(pend[KeyOf(rs[0]) := ChangeOf(rs[0], c)], rs[1..], c)
  }

  /** Handing over everything that is left. */
  lemma {:induction false} HandOverAll(run: seq<State>, env: Env, rest: seq<Record>,
      loading: bool) returns (r: seq<State>)
    requires IsRun(run, env) && Last(run).phase == Busy(rest, loading)
    ensures IsRun(r, env) && run <= r
    ensures Last(r) == Last(run).(pend := UpsertRecords(Last(run).pend, rest, env.codec), phase := Busy([], loading))
    decreases rest
  {
    hide Init, StepsTo, ChangeOf, KeyOf;
    if rest == [] {
      r := run;
    } else {
      r := Take(run, HandOver, env);
      r := HandOverAll(r, env, rest[1..], loading);
    }
  }

  /** A flush, complete or cut off, is one step per key it got to. */
  lemma {:induction false} FlushKeys(run: seq<State>, env: Env, done: seq<RowKey>) returns (r: seq<State>)
    requires IsRun(run, env) && Last(run).phase != Down
    requires Increasing(done) && forall k :: k in done ==> k in Last(run).pend
    ensures IsRun(r, env) && run <= r
    ensures var s := Last(run);
            Last(r) == s.(rows := Flushed(s.rows, s.pend, done), pend := Without(s.pend, done))
  {
    hide Init, StepsTo, KeyLess;
    var s := Last(run);
    if done == [] {
      NothingDrained(s.rows, s.pend);
      r := run;
    } else {
      var n := |done| - 1;
      r := FlushKeys(run, env, done[..n]);
      KeyOrder(done[n], done[n], done[n]);
      assert done[n] in Without(s.pend, done[..n]) && Without(s.pend, done[..n])[done[n]] == s.pend[done[n]];
      r := Take(r, FlushKey(done[n]), env);
      WithoutNext(s.pend, done);
    }
  }

  lemma WithoutNext(pend: Pending, done: seq<RowKey>)
    requires done != []
    ensures Without(pend, done[..|done| - 1]) - {done[|done| - 1]} == Without(pend, done)
  {
    assert done == done[..|done| - 1] + [done[|done| - 1]];
  }

  lemma DrainedParts(rows: Rows, pend: Pending, rows': Rows, pend': Pending, done: seq<RowKey>)
    requires Drained(rows, pend, rows', pend', done)
    ensures Increasing(done) && (forall k :: k in done ==> k in pend)
    ensures pend' == Without(pend, done) && rows' == Flushed(rows, pend, done)
  {}

  /** The turns of a replay, each a record handed over and a flush. */
  lemma {:induction false} TurnsRun(run: seq<State>, env: Env, rest: seq<Record>, turns: seq<Turn>)
    returns (r: seq<State>)
    requires IsRun(run, env) && Last(run).phase == Busy(rest, true) && RecordsIn(turns) <= rest
    requires forall q :: q in rest ==> Understood(q, env.codec)
    requires TurnsOk(Last(run).rows, Last(run).pend, turns, env.codec)
    ensures IsRun(r, env) && run <= r
    ensures var s := Last(run);
            Last(r) == s.(rows := RowsAfter(s.rows, turns), pend := PendAfter(s.pend, turns),
                          phase := Busy(rest[|turns|..], true))
  {
    hide Init, StepsTo, Drained, Increasing, Without, Flushed, Understood, Buffered, KeyOf, ChangeOf;
    if turns == [] {
      r := run;
    } else {
      var n := |turns| - 1;
      var t := turns[n];
      assert RecordsIn(turns) == RecordsIn(turns[..n]) + [t.record] && RecordsIn(turns)[n] == rest[n];
      r := TurnsRun(run, env, rest, turns[..n]);
      assert Last(r).phase.rest[0] == t.record && rest[n..][1..] == rest[n + 1..];
      BufferedIsHanded(Last(r).pend, t.record, env.codec);
      DrainedParts(Last(r).rows, Buffered(Last(r).pend, t.record, env.codec), t.rows, t.pend, t.done);
      r := Take(r, HandOver, env);
      r := FlushKeys(r, env, t.done);
    }
  }

  lemma BufferedIsHanded(pend: Pending, r: Record, c: Codec)
    requires Understood(r, c)
    ensures Buffered(pend, r, c) == pend[KeyOf(r) := ChangeOf(r, c)]
  {}

  // ---------- what an operation's records do to the buffer ----------

  lemma {:induction false} PutRecords(pend: Pending, from: nat, table: Bytes, es: seq<Entity>, c: Codec)
    requires from + |es| < 0x1_0000_0000_0000_0000 && Faithful(c)
    requires forall e :: e in es ==> e.key != [] && c.encode(e).Some?
    ensures UpsertRecords(pend, SetRecords(from, table, es, c), c) == UpsertPuts(pend, table, es)
    decreases es
  {
    if es != [] {
      var e := es[0];
      assert c.decode(c.encode(e).value) == Some(e);
      PutRecords(pend[RowKey(table, e.key) := Put(e)], from + 1, table, es[1..], c);
    }
  }

  lemma {:induction false} RemoveRecords(pend: Pending, from: nat, table: Bytes, keys: seq<Bytes>, c: Codec)
    requires from + |keys| < 0x1_0000_0000_0000_0000
    ensures UpsertRecords(pend, DelRecords(from, table, keys), c) == UpsertRemoves(pend, table, keys)
    decreases keys
  {
    if keys != [] {
      RemoveRecords(pend[RowKey(table, keys[0]) := Remove], from + 1, table, keys[1..], c);
    }
  }

  /** What an operation does to the buffer. */
  function OnBuffer(pend: Pending, op: Op): Pending {
    match op
    case SetOp(table, es) => UpsertPuts(pend, table, es)
    case DelOp(table, keys) => UpsertRemoves(pend, table, keys)
  }

  /** An operation on an idle node: its records are logged, handed over, and some of the buffer is flushed. */
  lemma OpRun(run: seq<State>, env: Env, op: Op, done: seq<RowKey>, rows: Rows, pend: Pending) returns (r: seq<State>)
    requires IsRun(run, env) && Faithful(env.codec) && CanLog(op, Last(run), env)
    requires Drained(Last(run).rows, OnBuffer(Last(run).pend, op), rows, pend, done)
    ensures IsRun(r, env) && run <= r
    ensures var s := Last(run);
            Last(r) == State(OnLogOp(s.log, op, env), rows, pend, Idle, s.hist + OpRecords(op, s, env))
  {
    hide Init, StepsTo, Faithful, SetRecords, DelRecords, UpsertRecords, UpsertPuts, UpsertRemoves, OnLogOp, Loggable,
      Increasing, Without, Flushed;
    var s := Last(run);
    r := Take(run, LogOp(op), env);
    r := HandOverAll(r, env, OpRecords(op, s, env), false);
    match op {
      case SetOp(table, es) => PutRecords(s.pend, s.log.sequence, table, es, env.codec);
      case DelOp(table, keys) => RemoveRecords(s.pend, s.log.sequence, table, keys, env.codec);
    }
    r := Take(r, HandOver, env);
    r := FlushKeys(r, env, done);
  }

  /** An accepted operation is logged without an error. */
  lemma OpIsLogged(s: State, op: Op, env: Env)
    requires CanLog(op, s, env) && s.log.pos == |s.log.file| && s.log.sequence == |s.hist|
    ensures Logging(s.log, op, env) == (OnLogOp(s.log, op, env), None)
  {
    hide OnBulkSet, OnBulkDelete, SetRecords, DelRecords, Frames, Loggable;
    match op {
      case SetOp(table, es) => var k := BulkSetAppends(s.log, table, es, env.codec, env.crc);
      case DelOp(table, keys) => var k := BulkDeleteAppends(s.log, table, keys, env.crc);
    }
  }

  function Logging(l: Log, op: Op, env: Env): (Log, Option<WalError>)
    requires l.pos <= |l.file|
  {
    match op
    case SetOp(table, es) => OnBulkSet(l, table, es, env.codec, env.crc)
    case DelOp(table, keys) => OnBulkDelete(l, table, keys, env.crc)
  }

  /** The log refuses the operation at its first record: no table name, or an entity that does not encode. */
  predicate Refused(op: Op, env: Env) {
    match op
    case SetOp(table, es) => es != [] && (table == [] || env.codec.encode(es[0]).None?)
    case DelOp(table, keys) => keys != [] && table == []
  }

  lemma RefusedIsNotLogged(l: Log, op: Op, env: Env)
    requires l.pos <= |l.file| && Refused(op, env)
    ensures Logging(l, op, env).0 == l && Logging(l, op, env).1.Some?
  {}

  /** Nothing makes a write take a checkpoint by itself, as in cmd/node/setup/kv.go. */
  predicate NoAutoCheckpoint(p: Policy) { p.everyNWrites == 0 && p.maxWalBytes == 0 }

  lemma NoCheckpoint(out: (Log, Option<WalError>), p: Policy)
    requires NoAutoCheckpoint(p)
    ensures Finish(out, p, true) == out
  {}

  // ---------- the code ----------

  /** What a write reports: an optimistic lock that does not hold, a log that refused it, a store call that failed
      after it was logged, or success. */
  datatype Reply = Done | Conflict | NotLogged | NotStored

  class Adapter {
    const logdb: Wal
    const store: WriteBatcher
    const cache: LruCache.Cache<Entity>
    /** The version an entity carries. */
    const version: Entity -> Bytes
    ghost const env: Env
    /** The run of the recovery machine this node has made so far. */
    ghost var run: seq<State>
    /** The calls since the node came up, and the view it came up with. */
    ghost var calls: seq<C.Call>
    ghost var origin: Rows
    /** What the clock showed when the node came up. */
    ghost var started: int

    ghost predicate SetUp()
      reads this, logdb, store, cache
    {
      && logdb.Valid() && store.Valid() && cache.Valid() && Faithful(env.codec) && NoAutoCheckpoint(logdb.policy)
      && env == Env(logdb.crc, logdb.codec) && |run| > 0 && IsRun(run, env)
    }

    /** The node has just been started on what a crash left. */
    ghost predicate Crashed()
      reads this, logdb, store, store.inner, cache
    {
      && SetUp() && store.pend == map[] && cache.ll == []
      && Last(run) == State(logdb.Snapshot(), store.inner.rows, map[], Down, Last(run).hist)
    }

    /** The node is up and idle, and stands where its run ends. */
    ghost predicate Stands()
      reads this, logdb, store, store.inner, cache
    {
      SetUp() && Last(run) == State(logdb.Snapshot(), store.inner.rows, store.pend, Idle, Last(run).hist)
    }

    /** Besides, the cache and the view are as the calls left them. */
    ghost predicate Valid()
      reads this, logdb, store, store.inner, cache
    {
      && Stands()
      && cache.Snapshot() == C.CacheAfter(cache.limitUnit, cache.ttl, calls)
      && store.View() == C.RowsAfter(origin, calls)
      && C.CallsOnTime(started, calls) && cache.clock == C.ClockAfterCalls(started, calls)
    }

    /** The node holds what its run ends with, whether or not its Load came through. */
    ghost predicate Up()
      reads this, logdb, store, store.inner, cache
    {
      && SetUp() && Last(run).phase != Down
      && Last(run).rows == store.inner.rows && Last(run).pend == store.pend
      && Reopened(Last(run).log) == Reopened(logdb.Snapshot())
    }

    /** The hypotheses on an operation, unless the log refuses it. */
    ghost predicate Accepts(op: Op)
      reads this
    {
      |run| > 0 && (CanLog(op, Last(run), env) || Refused(op, env))
    }

    /** The operation is deferred and stays under the limits of the buffer. */
    ghost predicate Fits(op: Op)
      reads this, store
    {
      store.Fits(OnBuffer(store.pend, op))
    }

    /** What the logged history says of a row. */
    ghost function History(k: RowKey): Option<Entity>
      requires |run| > 0
      reads this
    {
      Reads(Last(run).hist, |Last(run).hist|, env.codec, k)
    }

    /** A write that names the version it replaces finds that version; a missing row has the empty one. */
    ghost predicate Compatible(k: RowKey, expected: Option<Bytes>)
      reads this, store, store.inner
    {
      expected.None? || expected.value == VersionOf(store.Answers(k))
    }

    function VersionOf(e: Option<Entity>): Bytes {
      if e.Some? then version(e.value) else []
    }

    constructor (logdb: Wal, store: WriteBatcher, cache: LruCache.Cache<Entity>, version: Entity -> Bytes,
        ghost run: seq<State>)
      requires logdb.Valid() && store.Valid() && NoAutoCheckpoint(logdb.policy) && Faithful(logdb.codec)
      requires cache.Valid() && cache.ll == [] && IsRun(run, Env(logdb.crc, logdb.codec))
      requires store.pend == map[]
      requires Last(run) == State(logdb.Snapshot(), store.inner.rows, map[], Down, Last(run).hist)
      ensures Crashed() && this.logdb == logdb && this.store == store && this.cache == cache && this.run == run
      ensures this.version == version
    {
      this.logdb, this.store, this.cache, this.version, this.run := logdb, store, cache, version, run;
      this.env := Env(logdb.crc, logdb.codec);
      calls, origin, started := [], map[], 0;
    }

    /** While the node is up its view is the fold of everything ever logged, so that is what the store answers in
        deferred mode, and in immediate mode as long as no flush has failed. */
    lemma ViewIsHistory(k: RowKey)
      requires Valid()
      ensures Find(C.RowsAfter(origin, calls), k) == History(k)
      ensures store.deferWrites || store.pend == map[] ==> store.Answers(k) == History(k)
    {
      hide IsRun, Faithful, Combined, Fold;
      RecoveryEqualsReplay(run, |run| - 1, env);
    }

    /** Whatever the crash left, the node comes up unless a call of the store fails. A node that comes up has the fold
        of
        everything ever logged, and with checkpoints configured it is all in the store. If Load fails, the node still
        stands somewhere on a run. */
    method Load() returns (ok: bool)
      requires Crashed()
      modifies this`run, this`calls, this`origin, this`started, logdb, store, store.inner
      ensures old(run) <= run && Last(run).hist == old(Last(run).hist)
      ensures ok ==> && Valid() && calls == []
                     && store.View() == Fold(Last(run).hist, |Last(run).hist|, env.codec)
      ensures ok && logdb.policy.configured ==>
                store.pend == map[] && Last(run).log.lastSaved == |Last(run).hist|
      ensures !ok ==> Up() && Last(run).log.lastSaved == old(Last(run).log.lastSaved)
      ensures ok <==> store.inner.failures == old(store.inner.failures)
    {
      hide IsRun, Faithful, Combined, Total, Fold, TurnsOk, RecordsIn, RowsAfter, PendAfter, Drained, Resumed, Records,
        Tail, Understood, DecodeEntity, Flushed, Without, Increasing, ReplayedAll, NoAutoCheckpoint,
        C.CacheAfter, C.RowsAfter, C.CallsOnTime, C.ClockAfterCalls, LruCache.Agree, LruCache.Sound;
      ghost var r := LoadStarts(run, env);
      ghost var replayed, turns, done;
      ReplaysAll(Last(r).phase.rest, env.codec);
      ok, replayed, turns, done := WalLoad.Load(logdb, store);
      r := LoadRun(run, r, env, Last(r).phase.rest, replayed, turns, done, store.inner.rows, store.pend);
      if replayed {
        Running(r, env);
        RecoveryEqualsReplay(r, |r| - 1, env);
      }
      if ok && logdb.policy.configured {
        r := CheckpointRun(r, env, logdb.policy.truncateAfter);
      }
      C.NoCalls(cache.limitUnit, cache.ttl, store.View(), cache.clock);
      run, calls, origin, started := r, [], store.View(), cache.clock;
    }

    /** What `Once` falls back on is the store. The answer is what was last seen of the key, in whatever table, as long
        as the cache entry lives, and what the logged history says otherwise; the two are the same exactly when the
        entry is gone or was last seen as the history has it. */
    method Get(table: Bytes, key: Bytes) returns (e: Option<Entity>, ghost t: LruCache.Times)
      requires Valid()
      modifies this`calls, cache
      ensures Valid() && calls == old(calls) + [C.GetCall(table, key, store.Answers(RowKey(table, key)), t)]
      ensures e == C.Answer(old(cache.Snapshot()), Last(calls))
      ensures var row, seen := History(RowKey(table, key)), C.LastSeen(cache.limitUnit, cache.ttl, old(calls), key);
              store.deferWrites || store.pend == map[] ==>
                && e == (if C.Live(cache.limitUnit, cache.ttl, old(calls), key, t.check) then seen else row)
                && (e == row <==> !C.Live(cache.limitUnit, cache.ttl, old(calls), key, t.check) || seen == row)
                && (cache.limitUnit <= 0 && cache.ttl <= 0 ==> (e == row <==> seen.None? || seen == row))
                && (C.AllCareful(origin, old(calls), RowKey(table, key)) ==> e == row)
      ensures cache.limitUnit <= 0 ==>
                e == match C.LastSighting(cache.limitUnit, cache.ttl, old(calls), key)
                     case Some(s) =>
                       if cache.ttl <= 0 || t.check < s.stamp + cache.ttl then Some(s.value)
                       else store.Answers(RowKey(table, key))
                     case None => store.Answers(RowKey(table, key))
    {
      hide IsRun, Faithful, Combined, Fold, C.AllCareful, C.Live, C.LastSeen, C.CacheAfter, C.RowsAfter,
          C.CallsOnTime, C.ClockAfterCalls, C.LastSighting,
        LruCache.OnOnce, LruCache.Agree, LruCache.Sound, NoAutoCheckpoint, Total;
      var load := store.Get(table, key);
      ViewIsHistory(RowKey(table, key));
      e, t := cache.Once(C.CacheKey(key), load);
      ghost var call := C.GetCall(table, key, load, t);
      C.NextCall(cache.limitUnit, cache.ttl, origin, calls, call);
      C.NextOnTime(started, calls, call);
      C.GetFacts(cache.limitUnit, cache.ttl, origin, calls, call, started);
      calls := calls + [call];
    }

    /** `WAL.Checkpoint` with the flush hook of cmd/node/setup/kv.go, between two operations. */
    method Checkpoint() returns (ok: bool)
      requires Valid()
      modifies this`run, logdb, store, store.inner
      ensures Valid() && old(run) <= run && Last(run).hist == old(Last(run).hist)
      ensures ok ==> Last(run).log.lastSaved == |Last(run).hist| && store.pend == map[]
      ensures ok <==> logdb.policy.configured && store.inner.failures == old(store.inner.failures)
    {
      hide IsRun, Faithful, Drained, Increasing, Without, Flushed, Combined, Total, NoAutoCheckpoint, C.CacheAfter,
        C.RowsAfter, C.CallsOnTime, C.ClockAfterCalls, LruCache.Agree, LruCache.Sound;
      if !logdb.policy.configured {
        return false;
      }
      Running(run, env);
      ghost var done;
      ghost var rows, pend := store.inner.rows, store.pend;
      ok, done := store.Flush();
      DrainedParts(rows, pend, store.inner.rows, store.pend, done);
      run := FlushKeys(run, env, done);
      if !ok {
        return;
      }
      var err := logdb.CheckpointLocked(true);
      run := CheckpointRun(run, env, logdb.policy.truncateAfter);
    }

    method ValidateConsistency(table: Bytes, key: Bytes, expected: Option<Bytes>) returns (ok: bool)
      requires Valid()
      ensures ok == Compatible(RowKey(table, key), expected)
      ensures ok <==> expected.None? || expected.value == match store.Answers(RowKey(table, key))
                                                          case Some(e) => version(e)
                                                          case None => []
    {
      if expected.Some? {
        var e := store.Get(table, key);
        if VersionOf(e) != expected.value {
          return false;
        }
      }
      ok := true;
    }

    /** The log comes before the store, and a write the log refuses does not reach the store. */
    method LogAndBulkSet(table: Bytes, es: seq<Entity>) returns (logged: bool, ok: bool)
      requires Stands() && Accepts(SetOp(table, es))
      modifies this`run, logdb, store, store.inner
      ensures Stands() && old(run) <= run
      ensures logged <==> !Refused(SetOp(table, es), env)
      ensures !logged ==> run == old(run)
      ensures logged ==> && Last(run).hist == old(Last(run).hist) + OpRecords(SetOp(table, es), old(Last(run)), env)
                         && store.View() == PutAll(old(store.View()), table, es)
      ensures logged ==> if ok then store.Settled() else store.pend != map[]
      ensures store.inner.failures == old(store.inner.failures) + if logged && !ok then 1 else 0
      ensures logged && old(Fits(SetOp(table, es))) ==>
                ok && store.inner.touched == old(store.inner.touched)
    {
      hide IsRun, Faithful, Drained, OnBulkSet, SetRecords, Loggable, CanLog, Combined, Total, NoAutoCheckpoint,
        OpRecords, OnLogOp, Refused, UpsertRemoves, UpsertPuts, Finish, Batching.PutAll, Batching.RemoveAll;
      ghost var op := SetOp(table, es);
      LogReply(run, op, env, logdb.policy);
      var err := logdb.BulkSet(table, es, true);
      if err.Some? {
        return false, false;
      }
      ghost var done;
      logged := true;
      ok, done := store.BulkSet(table, es);
      run := OpRun(run, env, op, done, store.inner.rows, store.pend);
    }

    method LogAndSet(table: Bytes, e: Entity) returns (logged: bool, ok: bool)
      requires Stands() && Accepts(SetOp(table, [e]))
      modifies this`run, logdb, store, store.inner
      ensures Stands() && old(run) <= run
      ensures logged <==> !Refused(SetOp(table, [e]), env)
      ensures !logged ==> run == old(run)
      ensures logged ==> && Last(run).hist == old(Last(run).hist) + OpRecords(SetOp(table, [e]), old(Last(run)), env)
                         && store.View() == old(store.View())[RowKey(table, e.key) := e]
      ensures logged ==> if ok then store.Settled() else store.pend != map[]
      ensures store.inner.failures == old(store.inner.failures) + if logged && !ok then 1 else 0
      ensures logged && old(Fits(SetOp(table, [e]))) ==>
                ok && store.inner.touched == old(store.inner.touched)
    {
      hide IsRun, Faithful, Drained, OnBulkSet, SetRecords, Loggable, CanLog, Combined, Total, NoAutoCheckpoint,
        OpRecords, OnLogOp, Refused, UpsertRemoves, UpsertPuts, Finish, Batching.PutAll, Batching.RemoveAll;
      ghost var op := SetOp(table, [e]);
      LogReply(run, op, env, logdb.policy);
      var err := logdb.Set(table, e, true);
      if err.Some? {
        return false, false;
      }
      OnePut(store.pend, table, e);
      ghost var done;
      logged := true;
      ok, done := store.Set(table, e);
      run := OpRun(run, env, op, done, store.inner.rows, store.pend);
    }

    method LogAndDelete(table: Bytes, key: Bytes) returns (logged: bool, ok: bool)
      requires Stands() && Accepts(DelOp(table, [key]))
      modifies this`run, logdb, store, store.inner
      ensures Stands() && old(run) <= run
      ensures logged <==> !Refused(DelOp(table, [key]), env)
      ensures !logged ==> run == old(run)
      ensures logged ==> && Last(run).hist == old(Last(run).hist) + OpRecords(DelOp(table, [key]), old(Last(run)), env)
                         && store.View() == old(store.View()) - {RowKey(table, key)}
      ensures logged ==> if ok then store.Settled() else store.pend != map[]
      ensures store.inner.failures == old(store.inner.failures) + if logged && !ok then 1 else 0
      ensures logged && old(Fits(DelOp(table, [key]))) ==>
                ok && store.inner.touched == old(store.inner.touched)
    {
      hide IsRun, Faithful, Drained, OnBulkDelete, DelRecords, Loggable, CanLog, Combined, Total, NoAutoCheckpoint,
        OpRecords, OnLogOp, Refused, UpsertRemoves, UpsertPuts, Finish, Batching.PutAll, Batching.RemoveAll;
      ghost var op := DelOp(table, [key]);
      LogReply(run, op, env, logdb.policy);
      var err := logdb.Delete(table, key, true);
      if err.Some? {
        return false, false;
      }
      OneRemove(store.pend, table, key);
      ghost var done;
      logged := true;
      ok, done := store.Del(table, key);
      run := OpRun(run, env, op, done, store.inner.rows, store.pend);
    }

    method LogAndBulkDel(table: Bytes, keys: seq<Bytes>) returns (logged: bool, ok: bool)
      requires Stands() && Accepts(DelOp(table, keys))
      modifies this`run, logdb, store, store.inner
      ensures Stands() && old(run) <= run
      ensures logged <==> !Refused(DelOp(table, keys), env)
      ensures !logged ==> run == old(run)
      ensures logged ==> && Last(run).hist == old(Last(run).hist) + OpRecords(DelOp(table, keys), old(Last(run)), env)
                         && store.View() == RemoveAll(old(store.View()), table, keys)
      ensures logged ==> if ok then store.Settled() else store.pend != map[]
      ensures store.inner.failures == old(store.inner.failures) + if logged && !ok then 1 else 0
      ensures logged && old(Fits(DelOp(table, keys))) ==>
                ok && store.inner.touched == old(store.inner.touched)
    {
      hide IsRun, Faithful, Drained, OnBulkDelete, DelRecords, Loggable, CanLog, Combined, Total, NoAutoCheckpoint,
        OpRecords, OnLogOp, Refused, UpsertRemoves, UpsertPuts, Finish, Batching.PutAll, Batching.RemoveAll;
      ghost var op := DelOp(table, keys);
      LogReply(run, op, env, logdb.policy);
      var err := logdb.BulkDelete(table, keys, true);
      if err.Some? {
        return false, false;
      }
      ghost var done;
      logged := true;
      ok, done := store.BulkDel(table, keys);
      run := OpRun(run, env, op, done, store.inner.rows, store.pend);
    }

    /** The cache is not told. */
    method BulkSet(table: Bytes, es: seq<Entity>) returns (reply: Reply)
      requires Valid() && Accepts(SetOp(table, es))
      modifies this`run, this`calls, logdb, store, store.inner
      ensures Valid() && old(run) <= run && reply != Conflict
      ensures reply == NotLogged <==> Refused(SetOp(table, es), env)
      ensures reply == NotLogged ==> run == old(run) && calls == old(calls)
      ensures reply != NotLogged ==>
                && Last(run).hist == old(Last(run).hist) + OpRecords(SetOp(table, es), old(Last(run)), env)
                && calls == old(calls) + [C.BulkSetCall(table, es)]
      ensures reply == Done ==> store.Settled()
      ensures reply == NotStored ==> store.pend != map[]
      ensures store.inner.failures == old(store.inner.failures) + if reply == NotStored then 1 else 0
      ensures reply != NotLogged && old(Fits(SetOp(table, es))) ==>
                reply == Done && store.inner.touched == old(store.inner.touched)
    {
      hide IsRun, Faithful, NoAutoCheckpoint, Combined, Total, C.CacheAfter, C.RowsAfter, C.CallsOnTime,
          C.ClockAfterCalls, C.LastSighting, LruCache.OnSave,
        LruCache.OnDelIfOk, LruCache.Agree, LruCache.Sound, Accepts, OpRecords, Refused, Batching.PutAll,
        Batching.RemoveAll;
      var logged, ok := LogAndBulkSet(table, es);
      if !logged {
        return NotLogged;
      }
      ghost var call := C.BulkSetCall(table, es);
      C.NextCall(cache.limitUnit, cache.ttl, origin, calls, call);
      C.NextOnTime(started, calls, call);
      calls := calls + [call];
      reply := if ok then Done else NotStored;
    }

    /** The cache takes what the store took. A follower does no more than this. */
    method ApplyReplicated(table: Bytes, e: Entity) returns (reply: Reply, ghost t: LruCache.Times)
      requires Valid() && Accepts(SetOp(table, [e]))
      modifies this`run, this`calls, logdb, store, store.inner, cache
      ensures Valid() && old(run) <= run && reply != Conflict
      ensures reply == NotLogged <==> Refused(SetOp(table, [e]), env)
      ensures reply == NotLogged ==> run == old(run) && calls == old(calls)
      ensures reply != NotLogged ==>
                && Last(run).hist == old(Last(run).hist) + OpRecords(SetOp(table, [e]), old(Last(run)), env)
                && calls == old(calls) + [C.SetCall(table, e, reply == Done, t)]
      ensures reply == Done ==> store.Settled()
      ensures reply == NotStored ==> store.pend != map[]
      ensures store.inner.failures == old(store.inner.failures) + if reply == NotStored then 1 else 0
      ensures reply != NotLogged && old(Fits(SetOp(table, [e]))) ==>
                reply == Done && store.inner.touched == old(store.inner.touched)
    {
      hide IsRun, Faithful, NoAutoCheckpoint, Combined, Total, C.CacheAfter, C.RowsAfter, C.CallsOnTime,
          C.ClockAfterCalls, C.LastSighting, LruCache.OnSave,
        LruCache.OnDelIfOk, LruCache.Agree, LruCache.Sound, Accepts, OpRecords, Refused, Batching.PutAll,
        Batching.RemoveAll;
      t := LruCache.Times(0, 0, 0, 0);
      var logged, ok := LogAndSet(table, e);
      if !logged {
        return NotLogged, t;
      }
      t := cache.SaveIfOk(C.CacheKey(e.key), e, ok);
      ghost var call := C.SetCall(table, e, ok, t);
      C.NextCall(cache.limitUnit, cache.ttl, origin, calls, call);
      C.NextOnTime(started, calls, call);
      calls := calls + [call];
      reply := if ok then Done else NotStored;
    }

    /** The version named is checked against what the store holds, before anything is logged. */
    method Set(table: Bytes, e: Entity, expected: Option<Bytes>) returns (reply: Reply, ghost t: LruCache.Times)
      requires Valid() && Accepts(SetOp(table, [e]))
      modifies this`run, this`calls, logdb, store, store.inner, cache
      ensures Valid() && old(run) <= run
      ensures reply == Conflict <==> !old(Compatible(RowKey(table, e.key), expected))
      ensures reply == NotLogged <==> reply != Conflict && Refused(SetOp(table, [e]), env)
      ensures reply == Conflict || reply == NotLogged ==> run == old(run) && calls == old(calls)
      ensures reply == Done || reply == NotStored ==>
                && Last(run).hist == old(Last(run).hist) + OpRecords(SetOp(table, [e]), old(Last(run)), env)
                && calls == old(calls) + [C.SetCall(table, e, reply == Done, t)]
      ensures reply == Done ==> store.Settled()
      ensures reply == NotStored ==> store.pend != map[]
      ensures store.inner.failures == old(store.inner.failures) + if reply == NotStored then 1 else 0
      ensures (reply == Done || reply == NotStored) && old(Fits(SetOp(table, [e]))) ==>
                reply == Done && store.inner.touched == old(store.inner.touched)
    {
      hide Valid;
      t := LruCache.Times(0, 0, 0, 0);
      var compatible := ValidateConsistency(table, e.key, expected);
      if !compatible {
        return Conflict, t;
      }
      reply, t := ApplyReplicated(table, e);
    }

    method ApplyReplicatedDelete(table: Bytes, key: Bytes) returns (reply: Reply, ghost t: LruCache.Times)
      requires Valid() && Accepts(DelOp(table, [key]))
      modifies this`run, this`calls, logdb, store, store.inner, cache
      ensures Valid() && old(run) <= run && reply != Conflict
      ensures reply == NotLogged <==> Refused(DelOp(table, [key]), env)
      ensures reply == NotLogged ==> run == old(run) && calls == old(calls)
      ensures reply != NotLogged ==>
                && Last(run).hist == old(Last(run).hist) + OpRecords(DelOp(table, [key]), old(Last(run)), env)
                && calls == old(calls) + [C.DelCall(table, key, reply == Done, t)]
      ensures reply == Done ==> store.Settled()
      ensures reply == NotStored ==> store.pend != map[]
      ensures store.inner.failures == old(store.inner.failures) + if reply == NotStored then 1 else 0
      ensures reply != NotLogged && old(Fits(DelOp(table, [key]))) ==>
                reply == Done && store.inner.touched == old(store.inner.touched)
    {
      hide IsRun, Faithful, NoAutoCheckpoint, Combined, Total, C.CacheAfter, C.RowsAfter, C.CallsOnTime,
          C.ClockAfterCalls, C.LastSighting, LruCache.OnSave,
        LruCache.OnDelIfOk, LruCache.Agree, LruCache.Sound, Accepts, OpRecords, Refused, Batching.PutAll,
        Batching.RemoveAll;
      t := LruCache.Times(0, 0, 0, 0);
      var logged, ok := LogAndDelete(table, key);
      if !logged {
        return NotLogged, t;
      }
      t := cache.DelIfOk(C.CacheKey(key), ok);
      ghost var call := C.DelCall(table, key, ok, t);
      C.NextCall(cache.limitUnit, cache.ttl, origin, calls, call);
      C.NextOnTime(started, calls, call);
      calls := calls + [call];
      reply := if ok then Done else NotStored;
    }

    method Delete(table: Bytes, key: Bytes, expected: Option<Bytes>) returns (reply: Reply, ghost t: LruCache.Times)
      requires Valid() && Accepts(DelOp(table, [key]))
      modifies this`run, this`calls, logdb, store, store.inner, cache
      ensures Valid() && old(run) <= run
      ensures reply == Conflict <==> !old(Compatible(RowKey(table, key), expected))
      ensures reply == NotLogged <==> reply != Conflict && Refused(DelOp(table, [key]), env)
      ensures reply == Conflict || reply == NotLogged ==> run == old(run) && calls == old(calls)
      ensures reply == Done || reply == NotStored ==>
                && Last(run).hist == old(Last(run).hist) + OpRecords(DelOp(table, [key]), old(Last(run)), env)
                && calls == old(calls) + [C.DelCall(table, key, reply == Done, t)]
      ensures reply == Done ==> store.Settled()
      ensures reply == NotStored ==> store.pend != map[]
      ensures store.inner.failures == old(store.inner.failures) + if reply == NotStored then 1 else 0
      ensures (reply == Done || reply == NotStored) && old(Fits(DelOp(table, [key]))) ==>
                reply == Done && store.inner.touched == old(store.inner.touched)
    {
      hide Valid;
      t := LruCache.Times(0, 0, 0, 0);
      var compatible := ValidateConsistency(table, key, expected);
      if !compatible {
        return Conflict, t;
      }
      reply, t := ApplyReplicatedDelete(table, key);
    }

    method EvictAll(keys: seq<Bytes>)
      requires cache.Valid()
      modifies cache
      ensures cache.Valid() && cache.Snapshot() == C.Evict(old(cache.Snapshot()), keys) &&
          cache.clock == old(cache.clock)
    {
      assert keys[..0] == [];
      for i := 0 to |keys|
        invariant cache.Valid() && cache.Snapshot() == C.Evict(old(cache.Snapshot()), keys[..i])
        invariant cache.clock == old(cache.clock)
      {
        cache.Del(C.CacheKey(keys[i]));
        assert keys[..i + 1][..i] == keys[..i];
      }
      assert keys[..|keys|] == keys;
    }

    /** The keys are evicted from the cache only once the store call has succeeded. */
    method BulkDel(table: Bytes, keys: seq<Bytes>) returns (reply: Reply)
      requires Valid() && Accepts(DelOp(table, keys))
      modifies this`run, this`calls, logdb, store, store.inner, cache
      ensures Valid() && old(run) <= run && reply != Conflict
      ensures reply == NotLogged <==> Refused(DelOp(table, keys), env)
      ensures reply == NotLogged ==> run == old(run) && calls == old(calls)
      ensures reply != NotLogged ==>
                && Last(run).hist == old(Last(run).hist) + OpRecords(DelOp(table, keys), old(Last(run)), env)
                && calls == old(calls) + [C.BulkDelCall(table, keys, reply == Done)]
      ensures reply == Done ==> store.Settled()
      ensures reply == NotStored ==> store.pend != map[]
      ensures store.inner.failures == old(store.inner.failures) + if reply == NotStored then 1 else 0
      ensures reply != NotLogged && old(Fits(DelOp(table, keys))) ==>
                reply == Done && store.inner.touched == old(store.inner.touched)
    {
      hide IsRun, Faithful, NoAutoCheckpoint, Combined, Total, C.CacheAfter, C.RowsAfter, C.CallsOnTime,
          C.ClockAfterCalls, C.LastSighting, LruCache.OnSave,
        LruCache.OnDelIfOk, LruCache.Agree, LruCache.Sound, Accepts, OpRecords, Refused, Batching.PutAll,
        Batching.RemoveAll;
      var logged, ok := LogAndBulkDel(table, keys);
      if !logged {
        return NotLogged;
      }
      ghost var call := C.BulkDelCall(table, keys, ok);
      C.NextCall(cache.limitUnit, cache.ttl, origin, calls, call);
      C.NextOnTime(started, calls, call);
      calls := calls + [call];
      if !ok {
        return NotStored;
      }
      EvictAll(keys);
      reply := Done;
    }

    /** The end of the process: whatever the last flush manages, the next start finds a crashed node of the run. */
    method Close()
      requires Up()
      modifies this`run, store, store.inner
      ensures SetUp() && old(run) <= run
      ensures Last(run) == State(Reopened(logdb.Snapshot()), store.inner.rows, map[], Down, old(Last(run).hist))
    {
      hide IsRun, Faithful, Drained, Increasing, Without, Flushed, Combined, Total;
      ghost var done;
      ghost var rows, pend := store.inner.rows, store.pend;
      var ok;
      ok, done := store.Flush();
      DrainedParts(rows, pend, store.inner.rows, store.pend, done);
      run := FlushKeys(run, env, done);
      run := Take(run, Crash, env);
    }
  }

  /** An accepted operation is logged as the machine logs it, and a refused one not at all. */
  lemma LogReply(run: seq<State>, op: Op, env: Env, p: Policy)
    requires |run| > 0 && IsRun(run, env) && Faithful(env.codec) && Last(run).phase == Idle && NoAutoCheckpoint(p)
    requires CanLog(op, Last(run), env) || Refused(op, env)
    ensures var l := Last(run).log;
            && l.pos == |l.file| && Finish(Logging(l, op, env), p, true) == Logging(l, op, env)
            && if Refused(op, env)
               then Logging(l, op, env).0 == l && Logging(l, op, env).1.Some?
               else Logging(l, op, env) == (OnLogOp(l, op, env), None)
  {
    hide IsRun, Faithful, OnBulkSet, OnBulkDelete, Loggable, SetRecords, DelRecords;
    Running(run, env);
    NoCheckpoint(Logging(Last(run).log, op, env), p);
    if Refused(op, env) {
      RefusedIsNotLogged(Last(run).log, op, env);
    } else {
      OpIsLogged(Last(run), op, env);
    }
  }

  lemma {:induction false} OnePut(pend: Pending, table: Bytes, e: Entity)
    ensures UpsertPuts(pend, table, [e]) == pend[RowKey(table, e.key) := Put(e)]
  {
    assert [e][1..] == [];
  }

  lemma {:induction false} OneRemove(pend: Pending, table: Bytes, key: Bytes)
    ensures UpsertRemoves(pend, table, [key]) == pend[RowKey(table, key) := Remove]
  {
    assert [key][1..] == [];
  }

  /** A checkpoint with nothing pending: LastSeq is saved, then the log is cut if the policy says so. */
  lemma CheckpointRun(run: seq<State>, env: Env, truncating: bool) returns (r: seq<State>)
    requires IsRun(run, env) && Last(run).phase == Idle && Last(run).pend == map[]
    ensures IsRun(r, env) && run <= r
    ensures var s := Last(run);
            Last(r) == s.(log := OnCheckpoint(s.log, Policy(true, 0, 0, truncating), true).0)
  {
    hide Init, StepsTo;
    r := Take(run, SaveSeq(truncating), env);
    if truncating {
      r := Take(r, CutLog, env);
    }
  }

  /** Load begins: what is left to replay is the history above LastSeq. */
  lemma LoadStarts(run: seq<State>, env: Env) returns (r: seq<State>)
    requires IsRun(run, env) && Faithful(env.codec) && Last(run).phase == Down
    ensures IsRun(r, env) && run <= r
    ensures var rest := Tail(Records(Last(run).log.file, env.crc), Last(run).log.lastSaved);
            && Last(r) == Last(run).(phase := Busy(rest, true))
            && forall q :: q in rest ==> Understood(q, env.codec)
  {
    hide Init, StepsTo, Faithful, Records, GoodLen, Tail, MaxSeq, Max, Loggable, FileOk, RowsOk, Understood;
    var s := Last(run);
    RunKeeps(run, |run| - 1, env);
    DownParts(s, env);
    FileReads(s, env);
    r := Take(run, StartLoad, env);
  }

  /** Load goes on: the turns of the replay, then, if that came through, its end and whatever was flushed. */
  lemma {:induction false} LoadRun(run: seq<State>, started: seq<State>, env: Env, rest: seq<Record>, replayed: bool,
      turns: seq<Turn>, done: seq<RowKey>, rows: Rows, pend: Pending) returns (r: seq<State>)
    requires |run| > 0 && IsRun(started, env) && run <= started
    requires Last(started).phase == Busy(rest, true)
    requires if replayed then RecordsIn(turns) == rest else RecordsIn(turns) <= rest
    requires forall q :: q in rest ==> Understood(q, env.codec)
    requires TurnsOk(Last(started).rows, Last(started).pend, turns, env.codec)
    requires Drained(RowsAfter(Last(started).rows, turns), PendAfter(Last(started).pend, turns), rows, pend, done)
    ensures IsRun(r, env) && run <= r
    ensures var s := Last(started);
            if replayed
            then Last(r) == State(Resumed(s.log, env.crc), rows, pend, Idle, s.hist)
            else Last(r) == s.(rows := rows, pend := pend, phase := Busy(rest[|turns|..], true))
  {
    hide Init, StepsTo, Records, GoodLen, Tail, MaxSeq, Max, TurnsOk, RowsAfter, PendAfter, Drained, Increasing,
      Without, Flushed, Understood, Resumed, IsRun;
    r := TurnsRun(started, env, rest, turns);
    if replayed {
      r := Take(r, EndLoad, env);
    }
    DrainedParts(Last(r).rows, Last(r).pend, rows, pend, done);
    r := FlushKeys(r, env, done);
  }

  /** What is left to replay can be replayed. */
  lemma ReplaysAll(rest: seq<Record>, c: Codec)
    requires forall q :: q in rest ==> Understood(q, c)
    ensures forall q :: q in rest ==> q.op in {2, 3, 4} || (q.op == 1 && DecodeEntity(q, c).Some?)
  {}

  lemma DownParts(s: State, env: Env)
    requires Inv(s, env) && s.phase == Down
    ensures HistOk(s.hist, env.codec) && FileOk(s.log.file, s.hist, s.log.lastSaved, true, env.crc)
    ensures s.log.lastSaved <= |s.hist| < 0x1_0000_0000_0000_0000
  {
    hide FileOk, RowsOk;
  }

  /** What a node that is up can rely on. */
  lemma Running(run: seq<State>, env: Env)
    requires IsRun(run, env) && Faithful(env.codec) && |run| > 0 && Last(run).phase == Idle
    ensures Last(run).log.pos == |Last(run).log.file| && Last(run).log.sequence == |Last(run).hist|
  {
    hide IsRun, Faithful, HistOk, FileOk, RowsOk;
    RunKeeps(run, |run| - 1, env);
  }
}
