/** Crash recovery: the log, its checkpoints, the write buffer and the store together, over whole runs with
    crashes at any moment (internal/wal/wal.go, internal/fsdb/write_batcher.go, internal/db/adapter.go). */
module Recovery {
  import opened Wrappers
  import opened WalCodec
  import opened WalLog
  import opened Entities
  import opened WalFile
  import opened Batching

  // ---------- the meaning of a logged history ----------

  /** What replay makes of a logged value (decodeEntity). */
  function DecodeEntity(r: Record, c: Codec): Option<Entity> {
    match c.decode(r.value)
    case Some(e) => if e.key != [] then Some(e) else DecodeAny(r, c)
    case None => DecodeAny(r, c)
  }

  function DecodeAny(r: Record, c: Codec): Option<Entity> {
    match c.decodeAny(r.value)
    case Some(v) => Some(Entity(r.key, r.fk, v))
    case None => None
  }

  function KeyOf(r: Record): RowKey { RowKey(r.table, r.key) }

  function ChangeOf(r: Record, c: Codec): Change {
    if r.op == OP_SET && DecodeEntity(r, c).Some? then Put(DecodeEntity(r, c).value) else Remove
  }

  /** The rows after the first `n` logged operations, from nothing. */
  function Fold(h: seq<Record>, n: nat, c: Codec): Rows
    requires n <= |h|
  {
    if n == 0 then map[] else Apply(Fold(h, n - 1, c), KeyOf(h[n - 1]), ChangeOf(h[n - 1], c))
  }

  /** What key `k` holds after the first `n` logged operations. */
  function Reads(h: seq<Record>, n: nat, c: Codec, k: RowKey): Option<Entity>
    requires n <= |h|
  {
    Find(Fold(h, n, c), k)
  }

  lemma {:induction false} FoldOfLonger(h: seq<Record>, g: seq<Record>, n: nat, c: Codec)
    requires h <= g && n <= |h|
    ensures Fold(g, n, c) == Fold(h, n, c)
  {
    if n > 0 {
      FoldOfLonger(h, g, n - 1, c);
    }
  }

  lemma ReadsNext(h: seq<Record>, n: nat, c: Codec, k: RowKey)
    requires n < |h|
    ensures Reads(h, n + 1, c, k) == if KeyOf(h[n]) == k then Outcome(ChangeOf(h[n], c)) else Reads(h, n, c, k)
  {
    hide ChangeOf;
  }

  /** Some operation from `from` on and before `to` is on key `k`. */
  ghost predicate Touched(h: seq<Record>, from: nat, end: nat, k: RowKey) {
    exists i :: from <= i < end && i < |h| && KeyOf(h[i]) == k
  }

  lemma {:induction false} UntouchedReads(h: seq<Record>, from: nat, end: nat, c: Codec, k: RowKey)
    requires from <= end <= |h| && !Touched(h, from, end, k)
    ensures Reads(h, end, c, k) == Reads(h, from, c, k)
    decreases end
  {
    if from < end {
      assert KeyOf(h[end - 1]) != k;
      ReadsNext(h, end - 1, c, k);
      UntouchedReads(h, from, end - 1, c, k);
    }
  }

  /** `v` is what key `k` held at some point from operation `from` on. */
  ghost predicate HeldSince(h: seq<Record>, from: nat, c: Codec, k: RowKey, v: Option<Entity>) {
    exists j :: from <= j <= |h| && Reads(h, j, c, k) == v
  }

  lemma HeldSinceGrows(h: seq<Record>, g: seq<Record>, from: nat, c: Codec, k: RowKey, v: Option<Entity>)
    requires HeldSince(h, from, c, k, v) && h <= g
    ensures HeldSince(g, from, c, k, v)
  {
    var j :| from <= j <= |h| && Reads(h, j, c, k) == v;
    FoldOfLonger(h, g, j, c);
    assert Reads(g, j, c, k) == v;
  }

  // ---------- states and steps ----------

  /** Where the node stands: down, idle, between SaveLastSeq and the truncation of a checkpoint, or with
      records still to be handed to the store, by an operation or by Load. */
  datatype Phase = Down | Idle | Saved | Busy(rest: seq<Record>, loading: bool)

  /** `rows` is the durable store, `pend` the volatile buffer. `hist` is every record completely logged so far;
      no step reads it. */
  datatype State = State(log: Log, rows: Rows, pend: Pending, phase: Phase, hist: seq<Record>)

  datatype Op = SetOp(table: Bytes, entities: seq<Entity>) | DelOp(table: Bytes, keys: seq<Bytes>)

  /** The checksum and the codec of the node. */
  datatype Env = Env(crc: Checksum, codec: Codec)

  datatype Action =
    | LogOp(op: Op)
    | TearOp(op: Op, whole: nat, part: nat)
    | HandOver
    | FlushKey(key: RowKey)
    | SaveSeq(truncating: bool)
    | CutLog
    | Crash
    | StartLoad
    | EndLoad

  predicate Accepted(op: Op, s: State, env: Env) {
    && op.table != []
    && match op
       case SetOp(_, es) =>
         && s.log.sequence + |es| < 0x1_0000_0000_0000_0000
         && forall e :: e in es ==> e.key != [] && env.codec.encode(e).Some?
       case DelOp(_, keys) => s.log.sequence + |keys| < 0x1_0000_0000_0000_0000
  }

  function OpRecords(op: Op, s: State, env: Env): seq<Record>
    requires Accepted(op, s, env)
  {
    match op
    case SetOp(table, es) => SetRecords(s.log.sequence, table, es, env.codec)
    case DelOp(table, keys) => DelRecords(s.log.sequence, table, keys)
  }

  function OnLogOp(l: Log, op: Op, env: Env): Log
    requires l.pos <= |l.file|
  {
    match op
    case SetOp(table, es) => OnBulkSet(l, table, es, env.codec, env.crc).0
    case DelOp(table, keys) => OnBulkDelete(l, table, keys, env.crc).0
  }

  predicate CanLog(op: Op, s: State, env: Env) {
    s.phase == Idle && Accepted(op, s, env) && s.log.pos <= |s.log.file|
    && forall r :: r in OpRecords(op, s, env) ==> Loggable(r)
  }

  predicate Enabled(s: State, a: Action, env: Env) {
    match a
    case LogOp(op) => CanLog(op, s, env)
    case TearOp(op, whole, part) =>
      CanLog(op, s, env) && whole < |OpRecords(op, s, env)| && part < |Frame(OpRecords(op, s, env)[whole], env.crc)|
    case HandOver => s.phase.Busy? && (s.phase.rest != [] || !s.phase.loading)
    case FlushKey(k) => s.phase != Down && k in s.pend
    case SaveSeq(_) => s.phase == Idle && s.pend == map[]
    case CutLog => s.phase == Saved
    case Crash => s.phase != Down
    case StartLoad => s.phase == Down
    case EndLoad => s.phase == Busy([], true)
  }

  function DoSaveSeq(s: State, truncating: bool): State {
    s.(log := s.log.(lastSaved := s.log.sequence, writes := 0, bytes := 0), phase := if truncating then Saved else Idle)
  }

  /** A crash loses the buffer and everything of the log object but its file and LastSeq. */
  function DoCrash(s: State): State { s.(log := Reopened(s.log), pend := map[], phase := Down) }

  function Reopened(l: Log): Log { Log(l.file, 0, 0, l.lastSaved, 0, 0) }

  /** The log once all of it has been replayed. */
  function Resumed(l: Log, crc: Checksum): (k: Log)
    ensures k.lastSaved == l.lastSaved && k.pos == |k.file|
  {
    var file := l.file[..GoodLen(l.file, crc)];
    l.(file := file, pos := |file|, sequence := Max(l.lastSaved, MaxSeq(Records(l.file, crc))))
  }

  function DoStartLoad(s: State, env: Env): State {
    s.(phase := Busy(Tail(Records(s.log.file, env.crc), s.log.lastSaved), true))
  }

  function DoEndLoad(s: State, env: Env): State { s.(log := Resumed(s.log, env.crc), phase := Idle) }

  /** The store call for the next record: it is buffered. With nothing left the operation returns. */
  function DoHandOver(s: State, env: Env): State
    requires s.phase.Busy?
  {
    if s.phase.rest == [] then s.(phase := Idle)
    else
      var r := s.phase.rest[0];
      s.(pend := s.pend[KeyOf(r) := ChangeOf(r, env.codec)], phase := s.phase.(rest := s.phase.rest[1..]))
  }

  /** A crash in the middle of an append: some whole frames, and part of the next. */
  function DoTearOp(s: State, op: Op, whole: nat, part: nat, env: Env): State
    requires Enabled(s, TearOp(op, whole, part), env)
  {
    var rs := OpRecords(op, s, env);
    State(Reopened(s.log.(file := s.log.file + Frames(rs[..whole], env.crc) + Frame(rs[whole], env.crc)[..part])),
          s.rows, map[], Down, s.hist + rs[..whole])
  }

  function Do(s: State, a: Action, env: Env): State
    requires Enabled(s, a, env)
  {
    match a
    case LogOp(op) =>
      var rs := OpRecords(op, s, env);
      s.(log := OnLogOp(s.log, op, env), hist := s.hist + rs, phase := Busy(rs, false))
    case TearOp(op, whole, part) => DoTearOp(s, op, whole, part, env)
    case HandOver => DoHandOver(s, env)
    case FlushKey(k) => s.(rows := Apply(s.rows, k, s.pend[k]), pend := s.pend - {k})
    case SaveSeq(truncating) => DoSaveSeq(s, truncating)
    case CutLog => s.(log := s.log.(file := [], pos := 0), phase := Idle)
    case Crash => DoCrash(s)
    case StartLoad => DoStartLoad(s, env)
    case EndLoad => DoEndLoad(s, env)
  }

  ghost predicate Init(s: State) {
    s == State(Log([], 0, 0, 0, 0, 0), map[], map[], Down, [])
  }

  ghost predicate StepsTo(s: State, t: State, env: Env) {
    exists a :: Enabled(s, a, env) && t == Do(s, a, env)
  }

  ghost predicate IsRun(run: seq<State>, env: Env) {
    && |run| > 0
    && Init(run[0])
    && forall i :: 0 <= i < |run| - 1 ==> StepsTo(run[i], run[i + 1], env)
  }

  // ---------- the invariant ----------

  /** What Load will make of a record is the change it was logged for. */
  ghost predicate Understood(r: Record, c: Codec) {
    && (r.op == OP_SET || r.op == OP_DEL)
    && (r.op == OP_SET ==> DecodeEntity(r, c).Some? && DecodeEntity(r, c).value.key == r.key)
  }

  ghost predicate HistOk(h: seq<Record>, c: Codec) {
    && |h| < 0x1_0000_0000_0000_0000
    && AllLoggable(h)
    && forall i :: 0 <= i < |h| ==> h[i].sequence == i + 1 && Understood(h[i], c)
  }

  /** The file is the frames of the history from `base` on, followed by something unreadable. */
  ghost predicate FileIs(file: Bytes, h: seq<Record>, base: nat, rest: Bytes, crc: Checksum) {
    base <= |h| && file == Frames(h[base..], crc) + rest && !Readable(rest, crc)
  }

  ghost predicate FileOk(file: Bytes, h: seq<Record>, lastSaved: nat, torn: bool, crc: Checksum) {
    exists base: nat, rest: Bytes :: FileIs(file, h, base, rest, crc) && base <= lastSaved && (!torn ==> rest == [])
  }

  /** Every key of the store holds what it held at some point since the checkpoint. */
  ghost predicate RowsOk(s: State, env: Env) {
    forall k :: HeldSince(s.hist, s.log.lastSaved, env.codec, k, Find(s.rows, k))
  }

  /** How many records of the history have been handed to the store. */
  function Handed(s: State): int {
    if s.phase.Busy? then |s.hist| - |s.phase.rest| else |s.hist|
  }

  /** While running, the view is the fold of the records handed over. While loading that holds of the keys
      replay has reached, and nothing else is pending. */
  ghost predicate ViewOk(s: State, env: Env)
    requires 0 <= Handed(s)
  {
    var n := Handed(s);
    match s.phase
    case Down => s.pend == map[]
    case Busy(rest, loading) =>
      && rest == s.hist[n..] && s.log.lastSaved <= n
      && forall k :: ViewOfKeyOk(s, env, k, n, loading)
    case _ => forall k :: ViewOfKeyOk(s, env, k, n, false)
  }

  ghost predicate ViewOfKeyOk(s: State, env: Env, k: RowKey, n: nat, loading: bool)
    requires n <= |s.hist|
  {
    if !loading || Touched(s.hist, s.log.lastSaved, n, k)
    then Overlay(s.rows, s.pend, k) == Reads(s.hist, n, env.codec, k)
    else k !in s.pend
  }

  predicate Loaded(p: Phase) { p == Idle || p == Saved || (p.Busy? && !p.loading) }

  ghost predicate Inv(s: State, env: Env) {
    && HistOk(s.hist, env.codec)
    && s.log.lastSaved <= |s.hist|
    && FileOk(s.log.file, s.hist, s.log.lastSaved, !Loaded(s.phase), env.crc)
    && (Loaded(s.phase) ==> s.log.pos == |s.log.file| && s.log.sequence == |s.hist|)
    && (s.phase == Saved ==> s.pend == map[] && s.log.lastSaved == |s.hist|)
    && RowsOk(s, env)
    && 0 <= Handed(s) && ViewOk(s, env)
  }
}
