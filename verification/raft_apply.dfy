/** Applying committed entries and recording them, across crashes (cmd/node/setup/raft.go): the key map, the file of
    applied entries and the loop that writes both. */
module RaftApply {
  import opened Wrappers
  import opened WalCodec
  import opened WalLog
  import opened Entities
  import opened WalFile
  import opened RaftLogFile

  // ---------- commands on the key map ----------

  type Changes = seq<(RowKey, Change)>

  function Run(rows: Rows, cs: Changes): Rows {
    if cs == [] then rows else Apply(Run(rows, cs[..|cs| - 1]), cs[|cs| - 1].0, cs[|cs| - 1].1)
  }

  /** What the last change on `k` leaves there. */
  function LastOn(cs: Changes, k: RowKey): Option<Change> {
    if cs == [] then None
    else if cs[|cs| - 1].0 == k then Some(cs[|cs| - 1].1)
    else LastOn(cs[..|cs| - 1], k)
  }

  lemma {:induction false} RunReads(rows: Rows, cs: Changes, k: RowKey)
    ensures Find(Run(rows, cs), k) == match LastOn(cs, k) case Some(x) => Outcome(x) case None => Find(rows, k)
  {
    if cs != [] {
      RunReads(rows, cs[..|cs| - 1], k);
    }
  }

  lemma {:induction false} LastOnPrefix(cs: Changes, j: nat, k: RowKey)
    requires j <= |cs| && LastOn(cs, k).None?
    ensures LastOn(cs[..j], k).None?
    decreases |cs|
  {
    if j < |cs| {
      assert cs[..|cs| - 1][..j] == cs[..j];
      LastOnPrefix(cs[..|cs| - 1], j, k);
    } else {
      assert cs[..j] == cs;
    }
  }

  /** Commands are idempotent: applying one again, whatever part of it had been applied, is applying it once. */
  lemma {:induction false} AppliedAgain(rows: Rows, cs: Changes, j: nat)
    requires j <= |cs|
    ensures Run(Run(rows, cs[..j]), cs) == Run(rows, cs)
  {
    hide Run, LastOn;
    var again, once := Run(Run(rows, cs[..j]), cs), Run(rows, cs);
    forall k ensures Find(again, k) == Find(once, k) {
      RunReads(rows, cs, k);
      RunReads(Run(rows, cs[..j]), cs, k);
      RunReads(rows, cs[..j], k);
      if LastOn(cs, k).None? {
        LastOnPrefix(cs, j, k);
      }
    }
    SameReads(again, once);
  }

  // ---------- the loop as a state machine ----------

  /** A committed entry. */
  datatype Entry = Entry(term: int, data: Bytes)

  /** The checksum, the codec and what the data of an entry does to the key map. */
  datatype Env = Env(crc: Checksum, codec: RaftCodec, changes: Bytes -> Changes)

  /** `rows` is the key map and `file` the file of applied entries, which survive a crash; the counter, the next index
      and how many changes of the current entry are `done` do not. `events` is what has been recorded so far; no step
      reads it. */
  datatype Node = Node(
    rows: Rows, file: Bytes, sequence: nat, next: nat, up: bool, done: nat, events: seq<Event>)

  datatype Step =
    | ApplyChange
    | Persist
    | TearPersist(part: nat)
    | SaveMeta(meta: Meta)
    | TearMeta(meta: Meta, part: nat)
    | Crash
    | Restart

  predicate InHand(n: Node, es: seq<Entry>) { n.up && n.next < |es| }

  function Current(n: Node, es: seq<Entry>, env: Env): Changes
    requires InHand(n, es)
  {
    env.changes(es[n.next].data)
  }

  predicate Applied(n: Node, es: seq<Entry>, env: Env) {
    InHand(n, es) && n.done == |Current(n, es, env)|
  }

  function ToPersist(n: Node, es: seq<Entry>): Event
    requires InHand(n, es)
  {
    Persisted(es[n.next].term, es[n.next].data)
  }

  /** The record for `e` encodes and is of a size that can be read back. */
  predicate CanAppend(n: Node, e: Event, env: Env) {
    && n.up && n.sequence + 1 < 0x1_0000_0000_0000_0000
    && PayloadOf(e, n.next, env.codec).Some?
    && Loggable(RecordOf(e, n.sequence + 1, PayloadOf(e, n.next, env.codec).value))
  }

  function FrameOf(n: Node, e: Event, env: Env): Bytes
    requires CanAppend(n, e, env)
  {
    Frame(RecordOf(e, n.sequence + 1, PayloadOf(e, n.next, env.codec).value), env.crc)
  }

  /** The records of the file. */
  function InFile(file: Bytes, env: Env): seq<Record> { Tail(Records(file, env.crc), 0) }

  /** Load reports no error. */
  ghost predicate Opens(file: Bytes, env: Env) {
    && (forall r :: r in InFile(file, env) ==> Decodable(r, env.codec))
    && Contiguous(ByIndex(InFile(file, env), env.codec))
  }

  ghost predicate Enabled(n: Node, s: Step, es: seq<Entry>, env: Env) {
    match s
    case ApplyChange => InHand(n, es) && n.done < |Current(n, es, env)|
    case Persist => Applied(n, es, env) && CanAppend(n, ToPersist(n, es), env)
    case TearPersist(part) =>
      Applied(n, es, env) && CanAppend(n, ToPersist(n, es), env) && part < |FrameOf(n, ToPersist(n, es), env)|
    case SaveMeta(m) => CanAppend(n, MetaSaved(m), env)
    case TearMeta(m, part) => CanAppend(n, MetaSaved(m), env) && part < |FrameOf(n, MetaSaved(m), env)|
    case Crash => n.up
    case Restart => !n.up && Opens(n.file, env)
  }

  function Recorded(n: Node, e: Event, env: Env): Node
    requires CanAppend(n, e, env)
  {
    n.(file := n.file + FrameOf(n, e, env), sequence := n.sequence + 1, events := n.events + [e])
  }

  function Torn(n: Node, e: Event, part: nat, env: Env): Node
    requires CanAppend(n, e, env) && part < |FrameOf(n, e, env)|
  {
    Crashed(n.(file := n.file + FrameOf(n, e, env)[..part]))
  }

  function Crashed(n: Node): Node { n.(sequence := 0, next := 0, up := false, done := 0) }

  /** Opening cuts off what cannot be read and resumes behind the last entry. */
  function Restarted(n: Node, env: Env): Node {
    n.(file := n.file[..GoodLen(n.file, env.crc)], sequence := MaxSeq(Records(n.file, env.crc)),
       next := |ByIndex(InFile(n.file, env), env.codec)|, up := true, done := 0)
  }

  ghost function Do(n: Node, s: Step, es: seq<Entry>, env: Env): Node
    requires Enabled(n, s, es, env)
  {
    match s
    case ApplyChange =>
      var (k, c) := Current(n, es, env)[n.done];
      n.(rows := Apply(n.rows, k, c), done := n.done + 1)
    case Persist => Recorded(n, ToPersist(n, es), env).(next := n.next + 1, done := 0)
    case TearPersist(part) => Torn(n, ToPersist(n, es), part, env)
    case SaveMeta(m) => Recorded(n, MetaSaved(m), env)
    case TearMeta(m, part) => Torn(n, MetaSaved(m), part, env)
    case Crash => Crashed(n)
    case Restart => Restarted(n, env)
  }

  ghost predicate StepsTo(n: Node, m: Node, es: seq<Entry>, env: Env) {
    exists s :: Enabled(n, s, es, env) && m == Do(n, s, es, env)
  }

  /** A run from an empty map and an empty file, on the committed entries `es`. */
  ghost predicate IsRun(run: seq<Node>, es: seq<Entry>, env: Env) {
    && |run| > 0 && run[0] == Node(map[], [], 0, 0, false, 0, [])
    && forall i :: 0 <= i < |run| - 1 ==> StepsTo(run[i], run[i + 1], es, env)
  }

  // ---------- the invariant ----------

  /** The key map after the first `n` entries. */
  function RunAll(es: seq<Entry>, n: nat, env: Env): Rows
    requires n <= |es|
  {
    if n == 0 then map[] else Run(RunAll(es, n - 1, env), env.changes(es[n - 1].data))
  }

  /** Row `k` once the first `done` changes of `cs` have been applied to a map on which parts of `cs` may have been
      applied before. */
  ghost predicate KeyOk(rows: Rows, before: Rows, cs: Changes, done: nat, k: RowKey)
    requires done <= |cs|
  {
    if LastOn(cs[..done], k).Some?
    then Find(rows, k) == Find(Run(before, cs[..done]), k)
    else exists j :: 0 <= j <= |cs| && Find(rows, k) == Find(Run(before, cs[..j]), k)
  }

  ghost predicate RowsOk(rows: Rows, es: seq<Entry>, n: nat, done: nat, env: Env) {
    && n <= |es|
    && if n == |es| then done == 0 && rows == RunAll(es, n, env)
       else var cs := env.changes(es[n].data);
            done <= |cs| && forall k :: KeyOk(rows, RunAll(es, n, env), cs, done, k)
  }

  /** Item i is committed entry i. */
  ghost predicate Matches(items: seq<LogItem>, es: seq<Entry>) {
    |items| <= |es| && forall i :: 0 <= i < |items| ==> items[i] == LogItem(i, es[i].term, es[i].data)
  }

  ghost predicate Inv(n: Node, es: seq<Entry>, env: Env) {
    && StandsFor(n.file, n.events, env.codec, env.crc)
    && Matches(Items(n.events), es)
    && RowsOk(n.rows, es, |Items(n.events)|, n.done, env)
    && (n.up ==> && n.file == Frames(RecordsOf(n.events, env.codec), env.crc)
                 && n.sequence == |n.events| && n.next == |Items(n.events)|)
    && (!n.up ==> n.done == 0)
  }

  /** The file after one more event, whole or torn. */
  lemma AppendKeeps(n: Node, e: Event, part: nat, es: seq<Entry>, env: Env)
    requires CanAppend(n, e, env) && Inv(n, es, env) && FaithfulRaft(env.codec)
    ensures part < |FrameOf(n, e, env)| ==>
              StandsFor(n.file + FrameOf(n, e, env)[..part], n.events, env.codec, env.crc)
    ensures StandsFor(n.file + FrameOf(n, e, env), n.events + [e], env.codec, env.crc)
    ensures n.file + FrameOf(n, e, env) == Frames(RecordsOf(n.events + [e], env.codec), env.crc)
    ensures Items(n.events + [e]) ==
              Items(n.events) + if e.Persisted? then [LogItem(n.next, e.term, e.data)] else []
  {
    hide Loggable, Frames, Frame, Readable, RowsOk, Matches, FaithfulRaft;
    var f, b := FrameOf(n, e, env), PayloadOf(e, n.next, env.codec).value;
    var r := RecordOf(e, n.sequence + 1, b);
    assert (n.events + [e])[..|n.events|] == n.events;
    assert RecordsOf(n.events + [e], env.codec) == RecordsOf(n.events, env.codec) + [r];
    FramesSnoc(RecordsOf(n.events, env.codec), r, env.crc);
    EmptyUnreadable(env.crc);
    assert n.file + f == n.file + f + [];
    if part < |f| {
      CutFrameUnreadable(r, part, env.crc);
    }
  }

  lemma RecordedKeeps(n: Node, e: Event, es: seq<Entry>, env: Env, m: Node)
    requires CanAppend(n, e, env) && Inv(n, es, env) && FaithfulRaft(env.codec)
    requires if e.MetaSaved? then m == Recorded(n, e, env)
             else && Applied(n, es, env) && e == ToPersist(n, es)
                  && m == Recorded(n, e, env).(next := n.next + 1, done := 0)
    ensures Inv(m, es, env)
  {
    hide Loggable, Frames, Readable, FaithfulRaft, RowsOk, StandsFor, Items, Encodable, RecordsOf, FrameOf, PayloadOf;
    AppendKeeps(n, e, 0, es, env);
    if e.Persisted? {
      WholeEntry(n.rows, es, n.next, env);
    }
  }

  lemma TornKeeps(n: Node, e: Event, part: nat, es: seq<Entry>, env: Env, m: Node)
    requires CanAppend(n, e, env) && part < |FrameOf(n, e, env)| && m == Torn(n, e, part, env)
    requires Inv(n, es, env) && FaithfulRaft(env.codec)
    ensures Inv(m, es, env)
  {
    hide Loggable, Frames, Readable, FaithfulRaft, RowsOk, StandsFor, Items, Encodable, RecordsOf, FrameOf, PayloadOf;
    AppendKeeps(n, e, part, es, env);
    StartedOver(n.rows, es, |Items(n.events)|, n.done, env);
  }

  /** Once every change of the entry has been applied the map is exactly what the entry leaves, whatever parts of it
      had been applied before. */
  lemma {:induction false} EntryApplied(rows: Rows, es: seq<Entry>, n: nat, env: Env)
    requires n < |es| && RowsOk(rows, es, n, |env.changes(es[n].data)|, env)
    ensures rows == RunAll(es, n + 1, env)
  {
    hide Run, LastOn;
    var cs, before := env.changes(es[n].data), RunAll(es, n, env);
    assert cs[..|cs|] == cs;
    forall k ensures Find(rows, k) == Find(Run(before, cs), k) {
      assert KeyOk(rows, before, cs, |cs|, k);
      RunReads(before, cs, k);
      if LastOn(cs, k).None? {
        var j :| 0 <= j <= |cs| && Find(rows, k) == Find(Run(before, cs[..j]), k);
        LastOnPrefix(cs, j, k);
        RunReads(before, cs[..j], k);
      }
    }
    SameReads(rows, Run(before, cs));
  }

  lemma WholeEntry(rows: Rows, es: seq<Entry>, n: nat, env: Env)
    requires n < |es| && RowsOk(rows, es, n, |env.changes(es[n].data)|, env)
    ensures RowsOk(rows, es, n + 1, 0, env)
  {
    hide Run, LastOn, KeyOk, RowsOk;
    EntryApplied(rows, es, n, env);
    NotBegun(es, n + 1, env);
  }

  lemma {:induction false} NotBegun(es: seq<Entry>, n: nat, env: Env)
    requires n <= |es|
    ensures RowsOk(RunAll(es, n, env), es, n, 0, env)
  {
    if n < |es| {
      var cs := env.changes(es[n].data);
      assert cs[..0] == [];
      assert Run(RunAll(es, n, env), cs[..0]) == RunAll(es, n, env);
    }
  }

  /** A crash leaves each row as some part of the entry left it. */
  lemma StartedOver(rows: Rows, es: seq<Entry>, n: nat, done: nat, env: Env)
    requires RowsOk(rows, es, n, done, env)
    ensures RowsOk(rows, es, n, 0, env)
  {
    hide Run;
    if n < |es| {
      var cs, before := env.changes(es[n].data), RunAll(es, n, env);
      assert cs[..0] == [];
      forall k ensures KeyOk(rows, before, cs, 0, k) {
        assert KeyOk(rows, before, cs, done, k);
      }
    }
  }

  lemma ChangeKeeps(rows: Rows, es: seq<Entry>, n: nat, done: nat, env: Env)
    requires n < |es| && done < |env.changes(es[n].data)| && RowsOk(rows, es, n, done, env)
    ensures var (k, c) := env.changes(es[n].data)[done]; RowsOk(Apply(rows, k, c), es, n, done + 1, env)
  {
    hide Run, LastOn;
    var cs, before := env.changes(es[n].data), RunAll(es, n, env);
    var after, next := Apply(rows, cs[done].0, cs[done].1), done + 1;
    forall j ensures KeyOk(after, before, cs, next, j) {
      assert KeyOk(rows, before, cs, done, j);
      ChangeKeepsKey(rows, before, cs, done, j);
    }
  }

  lemma ChangeKeepsKey(rows: Rows, before: Rows, cs: Changes, done: nat, j: RowKey)
    requires done < |cs| && KeyOk(rows, before, cs, done, j)
    ensures KeyOk(Apply(rows, cs[done].0, cs[done].1), before, cs, done + 1, j)
  {
    assert cs[..done + 1][..done] == cs[..done];
    assert cs[..done + 1][done] == cs[done];
  }

  lemma RestartKeeps(n: Node, es: seq<Entry>, env: Env, m: Node)
    requires !n.up && m == Restarted(n, env) && Inv(n, es, env) && FaithfulRaft(env.codec)
    ensures Inv(m, es, env)
  {
    hide Frames, Readable, FaithfulRaft, RowsOk, Items, Encodable, RecordsOf, ReadsAs, Records, GoodLen, MaxSeq, Tail,
      ByIndex, Contiguous, Decodable, Loggable;
    OpenedFile(n.file, n.events, env.codec, env.crc);
    ReadsAsContiguous(InFile(n.file, env), n.events, env.codec);
    EmptyUnreadable(env.crc);
    assert m.file == m.file + [];
  }

  lemma StepKeeps(n: Node, m: Node, es: seq<Entry>, env: Env)
    requires StepsTo(n, m, es, env) && Inv(n, es, env) && FaithfulRaft(env.codec)
    ensures Inv(m, es, env)
  {
    hide Inv, FaithfulRaft, CanAppend, Opens, Torn, Recorded, FrameOf, Apply;
    var s :| Enabled(n, s, es, env) && m == Do(n, s, es, env);
    match s
    case ApplyChange => AppliedKeeps(n, es, env, m);
    case Persist => RecordedKeeps(n, ToPersist(n, es), es, env, m);
    case TearPersist(part) => TornKeeps(n, ToPersist(n, es), part, es, env, m);
    case SaveMeta(meta) => RecordedKeeps(n, MetaSaved(meta), es, env, m);
    case TearMeta(meta, part) => TornKeeps(n, MetaSaved(meta), part, es, env, m);
    case Crash => CrashKeeps(n, es, env, m);
    case Restart => RestartKeeps(n, es, env, m);
  }

  lemma AppliedKeeps(n: Node, es: seq<Entry>, env: Env, m: Node)
    requires Inv(n, es, env) && Enabled(n, ApplyChange, es, env) && m == Do(n, ApplyChange, es, env)
    ensures Inv(m, es, env)
  {
    hide RowsOk, StandsFor, Matches, Items, Apply;
    ChangeKeeps(n.rows, es, n.next, n.done, env);
  }

  lemma CrashKeeps(n: Node, es: seq<Entry>, env: Env, m: Node)
    requires Inv(n, es, env) && m == Crashed(n)
    ensures Inv(m, es, env)
  {
    hide RowsOk, StandsFor, Matches, Items;
    StartedOver(n.rows, es, |Items(n.events)|, n.done, env);
  }

  lemma {:induction false} RunKeeps(run: seq<Node>, i: nat, es: seq<Entry>, env: Env)
    requires IsRun(run, es, env) && i < |run| && FaithfulRaft(env.codec)
    ensures Inv(run[i], es, env)
  {
    hide Inv, StepsTo, FaithfulRaft;
    if i == 0 {
      InitKeeps(es, env);
    } else {
      RunKeeps(run, i - 1, es, env);
      assert StepsTo(run[i - 1], run[i - 1 + 1], es, env);
      StepKeeps(run[i - 1], run[i], es, env);
    }
  }

  lemma InitKeeps(es: seq<Entry>, env: Env)
    ensures Inv(Node(map[], [], 0, 0, false, 0, []), es, env)
  {
    hide RowsOk;
    NotBegun(es, 0, env);
    EmptyUnreadable(env.crc);
    assert [] == Frames(RecordsOf([], env.codec), env.crc) + [];
  }

  // ---------- over whole runs ----------

  /** At any moment of any run, with crashes between any two steps, within the changes of an entry and within a
      record: the file opens without an error and holds exactly the first n committed entries, entry i at index i, and
      the last stable state saved; and each row of the key map is as those n entries and some part of the next left
      it. */
  lemma FileAndRows(run: seq<Node>, i: nat, es: seq<Entry>, env: Env)
    requires IsRun(run, es, env) && i < |run| && FaithfulRaft(env.codec)
    ensures Opens(run[i].file, env)
    ensures var m := ByIndex(InFile(run[i].file, env), env.codec);
            && |m| <= |es|
            && (forall j :: 0 <= j < |m| ==> j in m && m[j] == LogItem(j, es[j].term, es[j].data))
            && MetaOf(InFile(run[i].file, env), env.codec) == LastMeta(run[i].events)
            && forall k :: PartlyRead(run[i].rows, es, |m|, env, k)
  {
    hide IsRun, FaithfulRaft, RowsOk, StandsFor, Items, Records, Tail, PartlyRead, ReadsAs, Contiguous, Decodable,
      ByIndex, MetaOf;
    var n := run[i];
    RunKeeps(run, i, es, env);
    OpenedFile(n.file, n.events, env.codec, env.crc);
    ReadsAsContiguous(InFile(n.file, env), n.events, env.codec);
    ReadsCommitted(InFile(n.file, env), n.events, env.codec, es);
    forall k ensures PartlyRead(n.rows, es, |Items(n.events)|, env, k) {
      PartlyOk(n.rows, es, |Items(n.events)|, n.done, env, k);
    }
  }

  lemma {:induction false} ReadsCommitted(rs: seq<Record>, evs: seq<Event>, c: RaftCodec, es: seq<Entry>)
    requires ReadsAs(rs, evs, c) && Matches(Items(evs), es)
    ensures var m := ByIndex(rs, c);
            |m| <= |es| && forall j :: 0 <= j < |m| ==> j in m && m[j] == LogItem(j, es[j].term, es[j].data)
    ensures MetaOf(rs, c) == LastMeta(evs)
  {
    hide ByIndex, MetaOf, LastMeta, Items;
  }

  /** Row `k` is as the first `n` entries and some part of the next left it. */
  ghost predicate PartlyRead(rows: Rows, es: seq<Entry>, n: nat, env: Env, k: RowKey) {
    && n <= |es|
    && if n == |es| then Find(rows, k) == Find(RunAll(es, n, env), k)
       else var cs := env.changes(es[n].data);
            exists j :: 0 <= j <= |cs| && Find(rows, k) == Find(Run(RunAll(es, n, env), cs[..j]), k)
  }

  lemma PartlyOk(rows: Rows, es: seq<Entry>, n: nat, done: nat, env: Env, k: RowKey)
    requires RowsOk(rows, es, n, done, env)
    ensures PartlyRead(rows, es, n, env, k)
  {
    hide Run, LastOn;
    if n < |es| {
      assert KeyOk(rows, RunAll(es, n, env), env.changes(es[n].data), done, k);
    }
  }

  /** An entry is recorded only once it has been applied whole: at that moment the key map is exactly what the entries
      up to it leave, however often the node crashed while applying them. */
  lemma {:induction false} RecordedIsApplied(run: seq<Node>, i: nat, es: seq<Entry>, env: Env)
    requires IsRun(run, es, env) && i < |run| && FaithfulRaft(env.codec) && Applied(run[i], es, env)
    ensures run[i].rows == RunAll(es, run[i].next + 1, env)
  {
    hide IsRun, FaithfulRaft, RowsOk, StandsFor, Matches;
    RunKeeps(run, i, es, env);
    EntryApplied(run[i].rows, es, run[i].next, env);
  }

  // ---------- the code ----------

  lemma Extend(run: seq<Node>, s: Step, es: seq<Entry>, env: Env) returns (r: seq<Node>)
    requires IsRun(run, es, env) && Enabled(Last(run), s, es, env)
    ensures IsRun(r, es, env) && run <= r && Last(r) == Do(Last(run), s, es, env)
  {
    hide Enabled, Do;
    r := run + [Do(Last(run), s, es, env)];
    assert StepsTo(Last(run), Last(r), es, env);
    forall i | 0 <= i < |r| - 1 ensures StepsTo(r[i], r[i + 1], es, env) {
      if i < |run| - 1 {
        assert StepsTo(run[i], run[i + 1], es, env);
      }
    }
  }

  class ApplyLoop {
    const log: AppliedLog
    const changes: Bytes -> Changes
    /** The key map the apply callback writes. */
    var rows: Rows
    /** How many calls of the callback have failed. */
    ghost var failures: nat
    ghost const es: seq<Entry>
    ghost const env: Env
    ghost var run: seq<Node>

    ghost predicate SetUp()
      reads this, log, log.rw, log.rw.w
    {
      && log.Valid() && FaithfulRaft(env.codec) && env == Env(log.rw.w.crc, log.rw.codec, changes)
      && |run| > 0 && IsRun(run, es, env)
    }

    /** The node stands where its run ends, with `done` changes of the current entry applied. */
    ghost predicate Stands(done: nat)
      reads this, log, log.rw, log.rw.w
    {
      && SetUp()
      && Last(run) == Node(rows, log.rw.w.file, log.rw.sequence, log.nextIndex, true, done, log.events)
    }

    /** The size hypotheses on recording `e`. */
    ghost predicate Fits(e: Event)
      reads this, log
    {
      && |log.events| + 1 < 0x1_0000_0000_0000_0000
      && var b := PayloadOf(e, |Items(log.events)|, env.codec);
         b.Some? ==> Loggable(RecordOf(e, |log.events| + 1, b.value))
    }

    /** A start on what a crash left: it does not fail, and the node begins with the entries and the stable state that
        are in the file. */
    constructor Start(rw: RaftWal, rows: Rows, changes: Bytes -> Changes, ghost run: seq<Node>, ghost es: seq<Entry>)
      requires |run| > 0 && rw.Valid() && FaithfulRaft(rw.codec) && IsRun(run, es, Env(rw.w.crc, rw.codec, changes))
      requires !Last(run).up && Last(run).file == rw.w.file && Last(run).rows == rows
      modifies rw, rw.w
      ensures Stands(0) && run <= this.run && this.es == es && this.rows == rows
      ensures log.nextIndex <= |es| && log.entries == Items(log.events) && Matches(log.entries, es)
      ensures log.events == Last(run).events && log.meta == LastMeta(log.events)
    {
      hide IsRun, FaithfulRaft, StandsFor, RowsOk, Records, GoodLen, MaxSeq, Tail, ByIndex, Items, LastMeta, Encodable,
        RecordsOf, Frames, Contiguous, Decodable;
      ghost var env := Env(rw.w.crc, rw.codec, changes);
      ghost var n := Last(run);
      RunKeeps(run, |run| - 1, es, env);
      OpenedFile(n.file, n.events, env.codec, env.crc);
      ReadsAsContiguous(InFile(n.file, env), n.events, env.codec);
      var log := new AppliedLog.Open(rw, n.events);
      this.log, this.rows, this.changes, this.es, this.env := log, rows, changes, es, env;
      ghost var r := Extend(run, Restart, es, env);
      this.run := r;
    }

    /** The apply callback: one change after the other; it may fail on the way. */
    method Apply(data: Bytes) returns (ok: bool, ghost done: nat)
      requires Stands(0) && log.nextIndex < |es| && data == es[log.nextIndex].data
      modifies this`rows, this`run, this`failures
      ensures failures == old(failures) + if ok then 0 else 1
      ensures Stands(done) && old(run) <= run && done <= |changes(data)|
      ensures ok ==> done == |changes(data)|
    {
      hide IsRun, FaithfulRaft, Frames, RecordsOf, Encodable, Items;
      done := 0;
      var cs := changes(data);
      for i := 0 to |cs|
        invariant done == i && Stands(i) && old(run) <= run && failures == old(failures)
      {
        ok := *;
        if !ok {
          failures := failures + 1;
          return;
        }
        rows := Entities.Apply(rows, cs[i].0, cs[i].1);
        run := Extend(run, ApplyChange, es, env);
        done := done + 1;
      }
      ok := true;
    }

    /** One turn of RunAppliedLoop: the entry is applied and then recorded, which succeeds unless the callback fails or
        the entry does not encode. If either fails the process ends, and the next start finds the node on its run. */
    method Turn(entry: Entry) returns (ok: bool)
      requires Stands(0) && log.nextIndex < |es| && entry == es[log.nextIndex]
      requires Fits(Persisted(entry.term, entry.data))
      modifies this`rows, this`run, this`failures, log, log.rw, log.rw.w
      ensures SetUp() && old(run) <= run
      ensures ok <==> failures == old(failures)
                      && log.rw.codec.encodeItem(LogItem(old(log.nextIndex), entry.term, entry.data)).Some?
      ensures ok ==> Stands(0) && log.nextIndex == old(log.nextIndex) + 1 && rows == RunAll(es, log.nextIndex, env)
      ensures !ok ==> !Last(run).up && Last(run).rows == rows && Last(run).file == log.rw.w.file
    {
      hide IsRun, FaithfulRaft, Frames, RecordsOf, Encodable, Items, Loggable, Frame, RunAll;
      ghost var done;
      ok, done := Apply(entry.data);
      if !ok {
        run := Extend(run, Crash, es, env);
        return;
      }
      RecordedIsApplied(run, |run| - 1, es, env);
      ghost var e := Persisted(entry.term, entry.data);
      ghost var events := log.events;
      ok := log.PersistApplied(entry.term, entry.data);
      assert events + [] == events;
      if !ok {
        run := Extend(run, Crash, es, env);
        return;
      }
      EventFrames(events, e, env);
      run := Extend(run, Persist, es, env);
    }

    method SaveMeta(meta: Meta) returns (ok: bool)
      requires Stands(0) && Fits(MetaSaved(meta))
      modifies this`run, log, log.rw, log.rw.w
      ensures Stands(0) && old(run) <= run && (ok ==> LastMeta(log.events) == meta)
      ensures ok <==> log.rw.codec.encodeMeta(meta).Some?
    {
      hide IsRun, FaithfulRaft, Frames, RecordsOf, Encodable, Items, Loggable, Frame;
      ghost var e := MetaSaved(meta);
      ghost var events := log.events;
      ok := log.SaveMeta(meta);
      assert events + [] == events;
      if ok {
        EventFrames(events, e, env);
        run := Extend(run, Step.SaveMeta(meta), es, env);
      }
    }
  }

  /** The frames of one event more. */
  lemma {:induction false} EventFrames(evs: seq<Event>, e: Event, env: Env)
    requires |evs| + 1 < 0x1_0000_0000_0000_0000 && Encodable(evs + [e], env.codec)
    ensures Encodable(evs, env.codec) && PayloadOf(e, |Items(evs)|, env.codec).Some?
    ensures var b := PayloadOf(e, |Items(evs)|, env.codec).value;
            Frames(RecordsOf(evs + [e], env.codec), env.crc) ==
            Frames(RecordsOf(evs, env.codec), env.crc) + Frame(RecordOf(e, |evs| + 1, b), env.crc)
    ensures |Items(evs + [e])| == |Items(evs)| + if e.Persisted? then 1 else 0
    ensures e.MetaSaved? ==> LastMeta(evs + [e]) == e.meta
  {
    hide Frame, Frames;
    assert (evs + [e])[..|evs|] == evs;
    var b := PayloadOf(e, |Items(evs)|, env.codec).value;
    FramesSnoc(RecordsOf(evs, env.codec), RecordOf(e, |evs| + 1, b), env.crc);
  }
}
