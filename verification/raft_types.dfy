/** Values exchanged and stored by a Raft node, and the small pure computations on them. */
module RaftTypes {
  import opened Wrappers

  /** A node's identity; it doubles as its address. The empty string means "nobody". */
  type Id = string

  /** A client command. `minAcks` is the per-entry replication bar; 0 asks for every member. */
  datatype Data = Data(payload: string, minAcks: int)

  datatype LogEntry = LogEntry(term: int, data: Data)

  type Log = seq<LogEntry>

  datatype Role = Follower | Candidate | Leader

  /** The fields of a node that its locked sections read and write. */
  datatype NodeState = NodeState(
    id: Id,
    peers: seq<Id>,
    currentTerm: int,
    votedFor: Id,
    log: Log,
    role: Role,
    leaderId: Id,
    commitIndex: int,
    lastApplied: int,
    nextIndex: map<Id, int>,
    matchIndex: map<Id, int>,
    applied: Log)

  datatype VoteArgs = VoteArgs(term: int, candidate: Id, lastLogIndex: int, lastLogTerm: int)
  datatype VoteReply = VoteReply(term: int, granted: bool)
  datatype AppendArgs = AppendArgs(
    term: int, leader: Id, prevLogIndex: int, prevLogTerm: int, entries: Log, leaderCommit: int)
  datatype AppendReply = AppendReply(term: int, success: bool)

  datatype ProposeError =
    | NotLeader(knownLeader: Id)
    | MinAcksOutOfRange(minAcks: int, low: int, high: int)

  /** Reading a missing key of a Go map of integers yields zero. */
  function Lookup(m: map<Id, int>, p: Id): int {
    if p in m then m[p] else 0
  }

  function LastIndex(log: Log): int { |log| - 1 }

  function LastTerm(log: Log): int {
    if log == [] then 0 else log[|log| - 1].term
  }

  /** Section 5.4.1 of the Raft paper: a log described by its last index and term is at least as up-to-date as `log`. */
  predicate AtLeastAsUpToDate(lastIndex: int, lastTerm: int, log: Log) {
    lastTerm > LastTerm(log) || (lastTerm == LastTerm(log) && lastIndex >= LastIndex(log))
  }

  /** Of any two logs one is at least as up-to-date as the other, so of any group some member can win; and both ways
      only if they end in the same term and are equally long. */
  lemma UpToDateTotal(a: Log, b: Log)
    ensures AtLeastAsUpToDate(LastIndex(a), LastTerm(a), b) || AtLeastAsUpToDate(LastIndex(b), LastTerm(b), a)
    ensures AtLeastAsUpToDate(LastIndex(a), LastTerm(a), b) && AtLeastAsUpToDate(LastIndex(b), LastTerm(b), a) <==>
            LastTerm(a) == LastTerm(b) && |a| == |b|
  {}

  /** When a vote is granted, with everything written out. */
  lemma VoteGrantedExactly(n: NodeState, args: VoteArgs)
    ensures OnVoteRequest(n, args).1.granted <==>
              && args.term >= n.currentTerm
              && (args.term > n.currentTerm || n.votedFor == "" || n.votedFor == args.candidate)
              && if n.log == [] then args.lastLogTerm > 0 || (args.lastLogTerm == 0 && args.lastLogIndex >= -1)
                 else args.lastLogTerm > n.log[|n.log| - 1].term
                      || (args.lastLogTerm == n.log[|n.log| - 1].term && args.lastLogIndex >= |n.log| - 1)
  {}

  function Majority(n: NodeState): int { (|n.peers| + 1) / 2 + 1 }

  /** A majority is the least number of members of which any two groups must share one. */
  lemma MajorityIsLeast(n: NodeState)
    ensures 2 * Majority(n) > |n.peers| + 1 && 2 * (Majority(n) - 1) <= |n.peers| + 1
  {}

  function ClusterSize(n: NodeState): int { |n.peers| + 1 }

  predicate MinAcksInRange(n: NodeState, minAcks: int) {
    Majority(n) <= minAcks <= ClusterSize(n)
  }

  /** How many of `peers` are known to hold index `idx`. */
  function PeerAcks(peers: seq<Id>, matchIndex: map<Id, int>, idx: int): nat {
    if peers == [] then 0
    else PeerAcks(peers[..|peers| - 1], matchIndex, idx)
         + if Lookup(matchIndex, peers[|peers| - 1]) >= idx then 1 else 0
  }

  function MinAcksRequired(n: NodeState, idx: int): int
    requires 0 <= idx < |n.log|
  {
    if n.log[idx].data.minAcks > 0 then n.log[idx].data.minAcks else ClusterSize(n)
  }

  /** Entry `idx` has the leader's term and has reached its replication bar. */
  predicate MayCommit(n: NodeState, idx: int, term: int)
    requires 0 <= idx < |n.log|
  {
    n.log[idx].term == term && 1 + PeerAcks(n.peers, n.matchIndex, idx) >= MinAcksRequired(n, idx)
  }

  /** The commit index reached from `from` by committing consecutive entries until one may not commit. */
  function CommitFrom(n: NodeState, from: int, term: int): (to: int)
    requires -1 <= from
    ensures from <= to && (from < |n.log| ==> to < |n.log|)
    decreases |n.log| - from
  {
    if from + 1 < |n.log| && MayCommit(n, from + 1, term) then CommitFrom(n, from + 1, term) else from
  }

  lemma {:induction false} CommitFromStops(n: NodeState, from: int, term: int)
    requires -1 <= from < |n.log|
    ensures var to := CommitFrom(n, from, term);
            && (forall i :: from < i <= to ==> MayCommit(n, i, term))
            && (to + 1 < |n.log| ==> !MayCommit(n, to + 1, term))
    decreases |n.log| - from
  {
    if from + 1 < |n.log| && MayCommit(n, from + 1, term) {
      CommitFromStops(n, from + 1, term);
    }
  }

  /** The peers known to hold index `idx`, by their place in the list. */
  ghost function Reached(peers: seq<Id>, m: map<Id, int>, idx: int): set<int> {
    set j | 0 <= j < |peers| && (if peers[j] in m then m[peers[j]] else 0) >= idx
  }

  lemma {:induction false} PeerAcksIsCount(peers: seq<Id>, m: map<Id, int>, idx: int)
    ensures PeerAcks(peers, m, idx) == |Reached(peers, m, idx)|
  {
    if peers != [] {
      var n := |peers| - 1;
      PeerAcksIsCount(peers[..n], m, idx);
      var here := if (if peers[n] in m then m[peers[n]] else 0) >= idx then {n} else {};
      assert Reached(peers, m, idx) == Reached(peers[..n], m, idx) + here;
    }
  }

  /** The commit index stops exactly at the last of the consecutive entries that are of the leader's term and held by
      the leader and as many peers as their own bar asks for, which is every member when it is 0. */
  lemma {:induction false} CommitFromStopsAtBar(n: NodeState, from: int, term: int)
    requires -1 <= from < |n.log|
    ensures var last := CommitFrom(n, from, term);
            && from <= last < |n.log|
            && (forall i :: from < i <= last ==>
                  && n.log[i].term == term
                  && 1 + |Reached(n.peers, n.matchIndex, i)|
                     >= if n.log[i].data.minAcks > 0 then n.log[i].data.minAcks else |n.peers| + 1)
            && (last + 1 < |n.log| ==>
                  || n.log[last + 1].term != term
                  || 1 + |Reached(n.peers, n.matchIndex, last + 1)|
                     < if n.log[last + 1].data.minAcks > 0 then n.log[last + 1].data.minAcks else |n.peers| + 1)
  {
    hide PeerAcks, Reached;
    CommitFromStops(n, from, term);
    forall i | 0 <= i < |n.log|
      ensures MayCommit(n, i, term) <==>
                && n.log[i].term == term
                && 1 + |Reached(n.peers, n.matchIndex, i)|
                   >= if n.log[i].data.minAcks > 0 then n.log[i].data.minAcks else |n.peers| + 1
    {
      PeerAcksIsCount(n.peers, n.matchIndex, i);
    }
    hide MayCommit;
    var last := CommitFrom(n, from, term);
    assert forall i :: from < i <= last ==> MayCommit(n, i, term);
  }

  /** Length of the leading part of `entries` whose terms `log` already holds from index `at` on. */
  function AgreeCount(log: Log, at: nat, entries: Log): (j: nat)
    ensures j <= |entries|
    ensures forall i :: 0 <= i < j ==> at + i < |log| && log[at + i].term == entries[i].term
    ensures at <= |log| ==> at + j <= |log|
    ensures j < |entries| ==> at + j >= |log| || log[at + j].term != entries[j].term
    decreases entries
  {
    if entries == [] || at >= |log| || log[at].term != entries[0].term then 0
    else 1 + AgreeCount(log, at + 1, entries[1..])
  }

  lemma {:induction false} AgreeCountPasses(log: Log, at: nat, entries: Log, i: nat)
    requires i <= AgreeCount(log, at, entries) && i < |entries|
    requires at + i < |log| && log[at + i].term == entries[i].term
    ensures i < AgreeCount(log, at, entries)
  {
  }

  /** The log after a follower takes `entries` at index `at`: only a conflicting or missing suffix is replaced. */
  function Merged(log: Log, at: nat, entries: Log): Log
    requires at <= |log|
  {
    var j := AgreeCount(log, at, entries);
    if j == |entries| then log else log[..at + j] + entries[j..]
  }

  lemma {:induction false} AgreeCountIs(log: Log, at: nat, entries: Log, j: nat)
    requires at + j <= |log| && j <= |entries|
    requires forall i :: 0 <= i < j ==> log[at + i].term == entries[i].term
    requires j < |entries| && at + j < |log| ==> log[at + j].term != entries[j].term
    ensures AgreeCount(log, at, entries) == j
    decreases j
  {
    if j > 0 {
      assert log[at + 0].term == entries[0].term;
      forall i | 0 <= i < j - 1 ensures log[at + 1 + i].term == entries[1..][i].term {
        var k := i + 1;
        assert log[at + k].term == entries[k].term;
      }
      AgreeCountIs(log, at + 1, entries[1..], j - 1);
    }
  }

  /** At the first entry the log lacks or has with another term, the rest of the log is replaced; without one nothing
      is. */
  lemma MergedExactly(log: Log, at: nat, entries: Log, j: nat)
    requires at + j <= |log| && j <= |entries|
    requires forall i :: 0 <= i < j ==> log[at + i].term == entries[i].term
    requires j < |entries| && at + j < |log| ==> log[at + j].term != entries[j].term
    ensures Merged(log, at, entries) == if j == |entries| then log else log[..at + j] + entries[j..]
  {
    AgreeCountIs(log, at, entries, j);
  }

  function StepDown(n: NodeState, term: int): NodeState {
    n.(currentTerm := term, role := Follower, votedFor := "", leaderId := "")
  }

  function OnVoteRequest(n: NodeState, args: VoteArgs): (NodeState, VoteReply) {
    if args.term < n.currentTerm then (n, VoteReply(n.currentTerm, false))
    else
      var m := if args.term > n.currentTerm then StepDown(n, args.term) else n;
      if (m.votedFor == "" || m.votedFor == args.candidate)
         && AtLeastAsUpToDate(args.lastLogIndex, args.lastLogTerm, m.log)
      then (m.(votedFor := args.candidate), VoteReply(m.currentTerm, true))
      else (m, VoteReply(m.currentTerm, false))
  }

  /** The previous-entry check of section 5.3. */
  predicate HasPrevious(log: Log, prevLogIndex: int, prevLogTerm: int) {
    prevLogIndex >= 0 ==> prevLogIndex < |log| && log[prevLogIndex].term == prevLogTerm
  }

  /** The state in which a follower of `args.term` examines the request. */
  function JoinTerm(n: NodeState, args: AppendArgs): NodeState {
    (if args.term > n.currentTerm then StepDown(n, args.term) else n.(role := Follower)).(leaderId := args.leader)
  }

  /** The commit index never passes the end of the follower's own log. */
  function ClampCommit(commitIndex: int, leaderCommit: int, log: Log): int {
    if leaderCommit <= commitIndex then commitIndex
    else if LastIndex(log) < leaderCommit then LastIndex(log)
    else leaderCommit
  }

  function Accept(n: NodeState, args: AppendArgs): NodeState
    requires -1 <= args.prevLogIndex < |n.log|
  {
    var log := Merged(n.log, args.prevLogIndex + 1, args.entries);
    n.(log := log, commitIndex := ClampCommit(n.commitIndex, args.leaderCommit, log))
  }

  function OnAppend(n: NodeState, args: AppendArgs): (NodeState, AppendReply)
    requires args.prevLogIndex >= -1
  {
    if args.term < n.currentTerm then (n, AppendReply(n.currentTerm, false))
    else
      var m := JoinTerm(n, args);
      if !HasPrevious(m.log, args.prevLogIndex, args.prevLogTerm) then (m, AppendReply(m.currentTerm, false))
      else (Accept(m, args), AppendReply(m.currentTerm, true))
  }

  function OnPropose(n: NodeState, data: Data): (NodeState, Option<ProposeError>) {
    if n.role != Leader then (n, Some(NotLeader(n.leaderId)))
    else if data.minAcks != 0 && !MinAcksInRange(n, data.minAcks) then
      (n, Some(MinAcksOutOfRange(data.minAcks, Majority(n), ClusterSize(n))))
    else (n.(log := n.log + [LogEntry(n.currentTerm, data)]), None)
  }

  function OnElectionTimeout(n: NodeState): NodeState { n.(role := Candidate) }

  /** The first locked section of a campaign; the role is not looked at again here. */
  function OnCampaign(n: NodeState): (NodeState, VoteArgs) {
    var m := n.(currentTerm := n.currentTerm + 1, votedFor := n.id, leaderId := "");
    (m, VoteArgs(m.currentTerm, m.id, LastIndex(m.log), LastTerm(m.log)))
  }

  /** The guard a campaign re-checks before the node declares itself leader. */
  predicate MayPromote(n: NodeState, term: int) {
    n.role == Candidate && n.currentTerm == term
  }

  function OnPromote(n: NodeState, term: int): NodeState {
    if MayPromote(n, term) then n.(role := Leader) else n
  }

  function Uniform(peers: seq<Id>, value: int): map<Id, int> {
    map p | p in peers :: value
  }

  function OnBeginLeading(n: NodeState): NodeState {
    n.(nextIndex := Uniform(n.peers, |n.log|), matchIndex := Uniform(n.peers, -1), leaderId := n.id)
  }

  predicate CanSend(n: NodeState, peer: Id) {
    0 <= Lookup(n.nextIndex, peer) <= |n.log|
  }

  /** What a leader of `term` ships to `peer`: its whole log from nextIndex on. */
  function AppendFor(n: NodeState, peer: Id, term: int): (args: AppendArgs)
    requires CanSend(n, peer)
  {
    var next := Lookup(n.nextIndex, peer);
    AppendArgs(term, n.id, next - 1, if next >= 1 then n.log[next - 1].term else 0, n.log[next..], n.commitIndex)
  }

  function OnVoteReply(n: NodeState, reply: VoteReply): NodeState {
    if reply.term > n.currentTerm then StepDown(n, reply.term) else n
  }

  /** A leader of `term` hears back from `peer`; `shipped` is the number of entries that were sent. */
  function OnAppendReply(n: NodeState, peer: Id, term: int, shipped: nat, reply: AppendReply): NodeState
    requires -1 <= n.commitIndex
  {
    if reply.term > n.currentTerm then StepDown(n, reply.term)
    else if n.role != Leader || n.currentTerm != term then n
    else if reply.success then
      var m := if shipped > 0
               then n.(nextIndex := n.nextIndex[peer := |n.log|], matchIndex := n.matchIndex[peer := LastIndex(n.log)])
               else n;
      m.(commitIndex := CommitFrom(m, m.commitIndex, term))
    else if Lookup(n.nextIndex, peer) > 0 then
      n.(nextIndex := n.nextIndex[peer := Lookup(n.nextIndex, peer) - 1])
    else n
  }

  /** One turn of the delivery loop. */
  function OnDeliver(n: NodeState): NodeState
    requires 0 <= n.lastApplied + 1 < |n.log|
  {
    n.(lastApplied := n.lastApplied + 1, applied := n.applied + [n.log[n.lastApplied + 1]])
  }
}
