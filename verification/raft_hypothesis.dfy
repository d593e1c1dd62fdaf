/** Why a successful reply must be processed before the leader's log grows: a run of three nodes in which one
    reply is processed later, and two nodes deliver different commands at the same index. */
module RaftHypothesis {
  import opened Wrappers
  import opened RaftTypes
  import opened RaftSystem

  /** A step without the hypothesis on late replies. */
  ghost predicate LooseNext(s: System, t: System) {
    exists a :: Feasible(s, a) && t == Do(s, a)
  }

  ghost predicate IsLooseRun(run: seq<System>) {
    && |run| > 0
    && Init(run[0])
    && forall i :: 0 <= i < |run| - 1 ==> LooseNext(run[i], run[i + 1])
  }

  /** Node `v` has moved to `n` and `p`, has sent `sent`, and nothing else has changed. */
  ghost predicate Moved(s: System, t: System, v: Id, n: NodeState, p: Phase, sent: set<Message>) {
    t.nodes == s.nodes[v := n] && t.phases == s.phases[v := p] && t.net == s.net + sent
  }

  lemma Extend(run: seq<System>, a: Action, n: NodeState, p: Phase, sent: set<Message>, h: History)
    returns (r: seq<System>)
    requires IsLooseRun(run) && Feasible(Last(run), a) && Do(Last(run), a) == Update(Last(run), n, p, sent, h)
    ensures IsLooseRun(r) && Moved(Last(run), Last(r), n.id, n, p, sent)
  {
    hide Feasible, Do, Init;
    r := run + [Do(Last(run), a)];
    assert LooseNext(Last(run), Last(r));
    forall i | 0 <= i < |r| - 1 ensures LooseNext(r[i], r[i + 1]) {
      if i < |run| - 1 {
        assert LooseNext(run[i], run[i + 1]);
      }
    }
  }

  // ---------- an election won with one other vote ----------

  ghost predicate Ready(s: System, v: Id) {
    v in s.nodes && v in s.phases && s.nodes[v].id == v
  }

  lemma Stand(run: seq<System>, v: Id) returns (r: seq<System>)
    requires IsLooseRun(run) && Ready(Last(run), v)
    requires Last(run).phases[v] == Dispatching && Last(run).nodes[v].role == Follower
    ensures IsLooseRun(r)
    ensures Moved(Last(run), Last(r), v, Last(run).nodes[v].(role := Candidate), Electing, {})
  {
    var s := Last(run);
    var n := s.nodes[v];
    hide Init, LooseNext;
    r := Extend(run, Dispatch(v), n, Following, {}, s.history);
    r := Extend(r, TimeOut(v), n.(role := Candidate), Dispatching, {}, Last(r).history);
    r := Extend(r, Dispatch(v), n.(role := Candidate), Electing, {}, Last(r).history);
  }

  lemma AskVote(run: seq<System>, v: Id, w: Id) returns (r: seq<System>)
    requires IsLooseRun(run) && Ready(Last(run), v) && Last(run).phases[v] == Electing
    requires w in Last(run).nodes[v].peers
    ensures IsLooseRun(r)
    ensures var n := Last(run).nodes[v];
            var (c, args) := OnCampaign(n);
            && Last(r).nodes == Last(run).nodes[v := c]
            && Last(r).phases == Last(run).phases[v := Campaigning(c.currentTerm, {})]
            && VoteCall(v, w, args) in Last(r).net
  {
    hide Init, LooseNext;
    var s := Last(run);
    var (n, args) := OnCampaign(s.nodes[v]);
    r := Extend(run, Campaign(v), n, Campaigning(n.currentTerm, {}), set p | p in n.peers :: VoteCall(v, p, args),
              WithBallot(s.history, Slot(n.currentTerm, v), Ballot(v, n.log)));
  }

  lemma GrantVote(run: seq<System>, v: Id, w: Id, args: VoteArgs) returns (r: seq<System>)
    requires IsLooseRun(run) && Ready(Last(run), w) && VoteCall(v, w, args) in Last(run).net
    requires args.candidate == v && Last(run).nodes[w].currentTerm < args.term
    requires AtLeastAsUpToDate(args.lastLogIndex, args.lastLogTerm, Last(run).nodes[w].log)
    ensures IsLooseRun(r)
    ensures Last(r).nodes == Last(run).nodes[w := StepDown(Last(run).nodes[w], args.term).(votedFor := v)]
    ensures Last(r).phases == Last(run).phases
    ensures VoteAnswer(w, v, args.term, VoteReply(args.term, true)) in Last(r).net
  {
    hide Init, LooseNext, AtLeastAsUpToDate, WithBallot;
    var s := Last(run);
    var n := StepDown(s.nodes[w], args.term).(votedFor := v);
    r := Extend(run, AnswerVote(VoteCall(v, w, args)), n, s.phases[w],
              {VoteAnswer(w, v, args.term, VoteReply(args.term, true))},
              WithBallot(s.history, Slot(args.term, w), Ballot(v, n.log)));
  }

  lemma CountVotes(run: seq<System>, v: Id, w: Id) returns (r: seq<System>)
    requires IsLooseRun(run) && Ready(Last(run), v) && |Last(run).nodes[v].peers| == 2
    requires MayPromote(Last(run).nodes[v], Last(run).nodes[v].currentTerm)
    requires Last(run).phases[v] == Campaigning(Last(run).nodes[v].currentTerm, {})
    requires VoteAnswer(w, v, Last(run).nodes[v].currentTerm, VoteReply(Last(run).nodes[v].currentTerm, true)) in
        Last(run).net
    ensures IsLooseRun(r)
    ensures Moved(Last(run), Last(r), v, Last(run).nodes[v].(role := Leader), Dispatching, {})
  {
    hide Init, LooseNext, WithLeader;
    var n := Last(run).nodes[v];
    var m := VoteAnswer(w, v, n.currentTerm, VoteReply(n.currentTerm, true));
    r := Extend(run, CountVote(m), n, Campaigning(n.currentTerm, {} + {w}), {}, Last(run).history);
    r := Extend(r, Win(v), n.(role := Leader), Dispatching, {},
              WithLeader(Last(r).history, n.(role := Leader), ({} + {w}) + {v}));
  }

  lemma TakeOffice(run: seq<System>, v: Id) returns (r: seq<System>)
    requires IsLooseRun(run) && Ready(Last(run), v)
    requires Last(run).nodes[v].role == Leader && Last(run).phases[v] == Dispatching
    ensures IsLooseRun(r)
    ensures var n := Last(run).nodes[v];
            Moved(Last(run), Last(r), v, OnBeginLeading(n), Leading(n.currentTerm), {})
  {
    hide Init, LooseNext, Uniform;
    var n := Last(run).nodes[v];
    r := Extend(run, Dispatch(v), n, Promoted, {}, Last(run).history);
    r := Extend(r, BeginLead(v), OnBeginLeading(n), Leading(n.currentTerm), {}, Last(r).history);
  }

  /** `n` as leader of the next term. */
  function Elected(n: NodeState): NodeState {
    OnBeginLeading(n.(currentTerm := n.currentTerm + 1, votedFor := n.id, role := Leader))
  }

  lemma Elect(run: seq<System>, v: Id, w: Id) returns (r: seq<System>)
    requires IsLooseRun(run) && Ready(Last(run), v) && Ready(Last(run), w) && v != w
    requires Last(run).phases[v] == Dispatching && Last(run).nodes[v].role == Follower
    requires |Last(run).nodes[v].peers| == 2 && w in Last(run).nodes[v].peers
    requires Last(run).nodes[w].currentTerm <= Last(run).nodes[v].currentTerm
    requires Last(run).nodes[w].log == Last(run).nodes[v].log
    ensures IsLooseRun(r)
    ensures var n, k := Last(run).nodes[v], Last(run).nodes[w];
            && Last(r).nodes == Last(run).nodes[v := Elected(n)][w := StepDown(k, n.currentTerm + 1).(votedFor := v)]
            && Last(r).phases == Last(run).phases[v := Leading(n.currentTerm + 1)]
  {
    hide Init, LooseNext;
    var n := Last(run).nodes[v];
    var (c, args) := OnCampaign(n.(role := Candidate));
    r := Stand(run, v);
    r := AskVote(r, v, w);
    r := GrantVote(r, v, w, args);
    r := CountVotes(r, v, w);
    r := TakeOffice(r, v);
  }

  // ---------- the other steps ----------

  lemma Say(run: seq<System>, v: Id, data: Data) returns (r: seq<System>)
    requires IsLooseRun(run) && Ready(Last(run), v)
    requires Last(run).nodes[v].role == Leader && MinAcksInRange(Last(run).nodes[v], data.minAcks)
    ensures IsLooseRun(r)
    ensures var n := Last(run).nodes[v];
            && Last(r).nodes == Last(run).nodes[v := n.(log := n.log + [LogEntry(n.currentTerm, data)])]
            && Last(r).phases == Last(run).phases && Last(r).net == Last(run).net
  {
    hide Init, LooseNext, MinAcksInRange, WithGrowth;
    var n := Last(run).nodes[v];
    var n' := n.(log := n.log + [LogEntry(n.currentTerm, data)]);
    r := Extend(run, Propose(v, data), n', Last(run).phases[v], {}, WithGrowth(Last(run).history, n'));
  }

  lemma SendTo(run: seq<System>, v: Id, w: Id) returns (r: seq<System>)
    requires IsLooseRun(run) && Ready(Last(run), v)
    requires Last(run).nodes[v].role == Leader && Last(run).phases[v] == Leading(Last(run).nodes[v].currentTerm)
    requires w in Last(run).nodes[v].peers && CanSend(Last(run).nodes[v], w)
    ensures IsLooseRun(r)
    ensures var n := Last(run).nodes[v];
            && Last(r).nodes == Last(run).nodes && Last(r).phases == Last(run).phases
            && AppendCall(v, w, AppendFor(n, w, n.currentTerm)) in Last(r).net
  {
    hide Init, LooseNext, AppendFor, CanSend;
    var n, p := Last(run).nodes[v], Last(run).phases[v];
    r := Extend(run, Send(v, w), n, p, {AppendCall(v, w, AppendFor(n, w, n.currentTerm))}, Last(run).history);
  }

  lemma Answer(run: seq<System>, v: Id, w: Id, args: AppendArgs, n: NodeState) returns (r: seq<System>)
    requires IsLooseRun(run) && Ready(Last(run), w) && AppendCall(v, w, args) in Last(run).net
    requires args.prevLogIndex >= -1 && OnAppend(Last(run).nodes[w], args) == (n, AppendReply(args.term, true))
    ensures IsLooseRun(r)
    ensures Last(r).nodes == Last(run).nodes[w := n] && Last(r).phases == Last(run).phases
    ensures AppendAnswer(w, v, args.term, args.prevLogIndex + 1 + |args.entries|, |args.entries|,
                         AppendReply(args.term, true)) in Last(r).net
  {
    var s := Last(run);
    var sent: nat := args.prevLogIndex + 1 + |args.entries|;
    assert n.id == w;
    hide Init, LooseNext, OnAppend, WithAck;
    r := Extend(run, AnswerAppend(AppendCall(v, w, args)), n, s.phases[w],
              {AppendAnswer(w, v, args.term, sent, |args.entries|, AppendReply(args.term, true))},
              WithAck(s.history, Slot(args.term, w), sent));
  }

  lemma Hear(run: seq<System>, v: Id, w: Id, t: int, sent: nat, shipped: nat, reply: AppendReply, n: NodeState)
    returns (r: seq<System>)
    requires IsLooseRun(run) && Ready(Last(run), v) && AppendAnswer(w, v, t, sent, shipped, reply) in Last(run).net
    requires -1 <= Last(run).nodes[v].commitIndex && OnAppendReply(Last(run).nodes[v], w, t, shipped, reply) == n
    ensures IsLooseRun(r)
    ensures Last(r).nodes == Last(run).nodes[v := n] && Last(r).phases == Last(run).phases
  {
    assert n.id == v;
    hide Init, LooseNext, OnAppendReply;
    r := Extend(run, HearAppend(AppendAnswer(w, v, t, sent, shipped, reply)), n, Last(run).phases[v], {},
        Last(run).history);
  }

  lemma DeliverOne(run: seq<System>, v: Id) returns (r: seq<System>)
    requires IsLooseRun(run) && Ready(Last(run), v)
    requires 0 <= Last(run).nodes[v].lastApplied + 1 <= Last(run).nodes[v].commitIndex < |Last(run).nodes[v].log|
    ensures IsLooseRun(r)
    ensures Last(r).nodes == Last(run).nodes[v := OnDeliver(Last(run).nodes[v])] && Last(r).phases == Last(run).phases
  {
    hide Init, LooseNext;
    r := Extend(run, Deliver(v), OnDeliver(Last(run).nodes[v]), Last(run).phases[v], {}, Last(run).history);
  }

  // ---------- the run ----------

  const X := LogEntry(1, Data("x", 2))
  const Y := LogEntry(1, Data("y", 2))
  const Z := LogEntry(2, Data("z", 2))

  function Fresh(v: Id, peers: seq<Id>): NodeState {
    NodeState(v, peers, 0, "", [], Follower, "", -1, -1, map[], map[], [])
  }

  function LeaderA(log: Log, commit: int, done: Log, nextB: int, nextC: int, heldB: int, heldC: int): NodeState {
    NodeState("a", ["b", "c"], 1, "a", log, Leader, "a", commit, |done| - 1,
              map["b" := nextB, "c" := nextC], map["b" := heldB, "c" := heldC], done)
  }

  function FollowerB(): NodeState {
    NodeState("b", ["a", "c"], 1, "a", [X], Follower, "a", 0, -1, map[], map[], [])
  }

  function LeaderB(log: Log, commit: int, done: Log, nextC: int, heldC: int): NodeState {
    NodeState("b", ["a", "c"], 2, "b", log, Leader, "b", commit, |done| - 1,
              map["a" := 1, "c" := nextC], map["a" := -1, "c" := heldC], done)
  }

  function FollowerC(term: int, vote: Id, leader: Id, log: Log, commit: int): NodeState {
    NodeState("c", ["a", "b"], term, vote, log, Follower, leader, commit, -1, map[], map[], [])
  }

  ghost predicate Looks(s: System, a: NodeState, b: NodeState, c: NodeState, pa: Phase, pb: Phase) {
    && s.nodes == map["a" := a, "b" := b, "c" := c]
    && s.phases == map["a" := pa, "b" := pb, "c" := Dispatching]
  }

  lemma Begin() returns (r: seq<System>)
    ensures IsLooseRun(r)
    ensures Looks(Last(r), Fresh("a", ["b", "c"]), Fresh("b", ["a", "c"]), Fresh("c", ["a", "b"]), Dispatching,
        Dispatching)
  {
    hide FreshNode;
    var s := System({"a", "b", "c"},
                    map["a" := Fresh("a", ["b", "c"]), "b" := Fresh("b", ["a", "c"]), "c" := Fresh("c", ["a", "b"])],
                    map["a" := Dispatching, "b" := Dispatching, "c" := Dispatching],
                    {}, History(map[], map[], map[]));
    FreshTrio();
    r := [s];
  }

  lemma FreshTrio()
    ensures FreshNode(Fresh("a", ["b", "c"]), "a", {"a", "b", "c"})
    ensures FreshNode(Fresh("b", ["a", "c"]), "b", {"a", "b", "c"})
    ensures FreshNode(Fresh("c", ["a", "b"]), "c", {"a", "b", "c"})
  {}

  lemma TakesOffice()
    ensures Elected(Fresh("a", ["b", "c"])) == LeaderA([], -1, [], 0, 0, -1, -1)
    ensures Elected(FollowerB()) == LeaderB([X], 0, [], 1, -1)
  {
    assert Uniform(["b", "c"], 0) == map["b" := 0, "c" := 0];
    assert Uniform(["b", "c"], -1) == map["b" := -1, "c" := -1];
    assert Uniform(["a", "c"], 1) == map["a" := 1, "c" := 1];
    assert Uniform(["a", "c"], -1) == map["a" := -1, "c" := -1];
  }

  lemma {:induction false} AcksOfTwo(n: NodeState, p: Id, q: Id, idx: int)
    requires n.peers == [p, q]
    ensures PeerAcks(n.peers, n.matchIndex, idx) ==
              (if Lookup(n.matchIndex, p) >= idx then 1 else 0) + (if Lookup(n.matchIndex, q) >= idx then 1 else 0)
  {
    var m := n.matchIndex;
    assert [p][..0] == [];
    assert PeerAcks([p], m, idx) == if Lookup(m, p) >= idx then 1 else 0;
    assert [p, q][..1] == [p];
    assert PeerAcks([p, q], m, idx) == PeerAcks([p], m, idx) + if Lookup(m, q) >= idx then 1 else 0;
  }

  /** The commit rule over one pending entry that one peer is counted for. */
  lemma {:induction false} CommitsLast(n: NodeState, p: Id, q: Id, term: int)
    requires n.peers == [p, q] && n.commitIndex == |n.log| - 2 && -1 <= n.commitIndex
    requires n.log[|n.log| - 1].term == term && n.log[|n.log| - 1].data.minAcks == 2
    requires Lookup(n.matchIndex, p) >= |n.log| - 1 || Lookup(n.matchIndex, q) >= |n.log| - 1
    ensures CommitFrom(n, n.commitIndex, term) == |n.log| - 1
  {
    AcksOfTwo(n, p, q, |n.log| - 1);
    assert MayCommit(n, n.commitIndex + 1, term);
    hide MayCommit;
    assert CommitFrom(n, n.commitIndex + 1, term) == n.commitIndex + 1;
  }

  lemma HearC(reply: AppendReply)
    requires reply == AppendReply(1, true)
    ensures OnAppendReply(LeaderA([X], -1, [], 0, 0, -1, -1), "c", 1, 1, reply) == LeaderA([X], 0, [], 0, 1, -1, 0)
  {
    CommitsLast(LeaderA([X], -1, [], 0, 1, -1, 0), "b", "c", 1);
    hide CommitFrom;
  }

  /** The late reply: b holds one entry, and is recorded as holding two. */
  lemma HearBLate(reply: AppendReply)
    requires reply == AppendReply(1, true)
    ensures OnAppendReply(LeaderA([X, Y], 0, [], 0, 1, -1, 0), "b", 1, 1, reply) == LeaderA([X, Y], 1, [], 2, 1, 1, 0)
  {
    CommitsLast(LeaderA([X, Y], 0, [], 2, 1, 1, 0), "b", "c", 1);
    assert map["b" := 0, "c" := 1]["b" := 2] == map["b" := 2, "c" := 1];
    assert map["b" := -1, "c" := 0]["b" := 1] == map["b" := 1, "c" := 0];
    hide CommitFrom;
  }

  lemma HearCAgain(reply: AppendReply)
    requires reply == AppendReply(2, true)
    ensures OnAppendReply(LeaderB([X, Z], 0, [], 1, -1), "c", 2, 1, reply) == LeaderB([X, Z], 1, [], 2, 1)
  {
    CommitsLast(LeaderB([X, Z], 0, [], 2, 1), "a", "c", 2);
    hide CommitFrom;
  }

  function Shipment(k: nat): AppendArgs {
    if k == 0 then AppendArgs(1, "a", -1, 0, [X], -1)
    else if k == 1 then AppendArgs(1, "a", -1, 0, [X], 0)
    else AppendArgs(2, "b", 0, 1, [Z], 0)
  }

  lemma Shipments()
    ensures AppendFor(LeaderA([X], -1, [], 0, 0, -1, -1), "c", 1) == Shipment(0)
    ensures AppendFor(LeaderA([X], 0, [], 0, 1, -1, 0), "b", 1) == Shipment(1)
    ensures AppendFor(LeaderB([X, Z], 0, [], 1, -1), "c", 2) == Shipment(2)
  {
    assert [X][0..] == [X];
    assert [X, Z][1..] == [Z];
  }

  lemma FollowersAnswer()
    ensures OnAppend(Fresh("c", ["a", "b"]), Shipment(0)) == (FollowerC(1, "", "a", [X], -1), AppendReply(1, true))
    ensures OnAppend(StepDown(Fresh("b", ["a", "c"]), 1).(votedFor := "a"), Shipment(1)) ==
              (FollowerB(), AppendReply(1, true))
    ensures OnAppend(FollowerC(2, "b", "", [X], -1), Shipment(2)) ==
              (FollowerC(2, "b", "b", [X, Z], 0), AppendReply(2, true))
  {
    assert Merged([], 0, [X]) == [X];
    assert Merged([X], 1, [Z]) == [X, Z];
  }

  lemma LeadsTermOne() returns (r: seq<System>)
    ensures IsLooseRun(r)
    ensures Looks(Last(r), LeaderA([X], -1, [], 0, 0, -1, -1), StepDown(Fresh("b", ["a", "c"]), 1).(votedFor := "a"),
                  Fresh("c", ["a", "b"]), Leading(1), Dispatching)
  {
    hide Init, LooseNext, Elected;
    TakesOffice();
    r := Begin();
    r := Elect(r, "a", "b");
    r := Say(r, "a", X.data);
    assert Last(r).nodes["a"] == LeaderA([X], -1, [], 0, 0, -1, -1);
  }

  /** Node a leads term 1 with b's vote, and commits x with c's help. */
  lemma CommitX() returns (r: seq<System>)
    ensures IsLooseRun(r)
    ensures Looks(Last(r), LeaderA([X], 0, [], 0, 1, -1, 0), StepDown(Fresh("b", ["a", "c"]), 1).(votedFor := "a"),
                  FollowerC(1, "", "a", [X], -1), Leading(1), Dispatching)
  {
    hide Init, LooseNext, OnAppend, AppendFor, OnAppendReply;
    Shipments();
    FollowersAnswer();
    HearC(AppendReply(1, true));
    r := LeadsTermOne();
    r := SendTo(r, "a", "c");
    r := Answer(r, "a", "c", Shipment(0), FollowerC(1, "", "a", [X], -1));
    r := Hear(r, "a", "c", 1, 1, 1, AppendReply(1, true), LeaderA([X], 0, [], 0, 1, -1, 0));
  }

  lemma ShipsThenTakes() returns (r: seq<System>)
    ensures IsLooseRun(r)
    ensures Looks(Last(r), LeaderA([X, Y], 0, [], 0, 1, -1, 0), StepDown(Fresh("b", ["a", "c"]), 1).(votedFor := "a"),
                  FollowerC(1, "", "a", [X], -1), Leading(1), Dispatching)
    ensures AppendCall("a", "b", Shipment(1)) in Last(r).net
  {
    hide Init, LooseNext, AppendFor, Shipment;
    Shipments();
    r := CommitX();
    r := SendTo(r, "a", "b");
    r := Say(r, "a", Y.data);
    assert Last(r).nodes["a"] == LeaderA([X, Y], 0, [], 0, 1, -1, 0);
  }

  lemma HearsLate() returns (r: seq<System>)
    ensures IsLooseRun(r)
    ensures Looks(Last(r), LeaderA([X, Y], 1, [], 2, 1, 1, 0), FollowerB(), FollowerC(1, "", "a", [X], -1),
                  Leading(1), Dispatching)
  {
    hide Init, LooseNext, OnAppend, OnAppendReply;
    FollowersAnswer();
    HearBLate(AppendReply(1, true));
    r := ShipsThenTakes();
    r := Answer(r, "a", "b", Shipment(1), FollowerB());
    r := Hear(r, "a", "b", 1, 1, 1, AppendReply(1, true), LeaderA([X, Y], 1, [], 2, 1, 1, 0));
  }

  /** Node a ships x to b, takes y, and only then hears that b has what was shipped: y counts as committed. */
  lemma CommitYLate() returns (r: seq<System>)
    ensures IsLooseRun(r)
    ensures Looks(Last(r), LeaderA([X, Y], 1, [X, Y], 2, 1, 1, 0), FollowerB(), FollowerC(1, "", "a", [X], -1),
                  Leading(1), Dispatching)
  {
    hide Init, LooseNext;
    r := HearsLate();
    r := DeliverOne(r, "a");
    r := DeliverOne(r, "a");
    assert Last(r).nodes["a"] == LeaderA([X, Y], 1, [X, Y], 2, 1, 1, 0);
  }

  lemma LeadsTermTwo() returns (r: seq<System>)
    ensures IsLooseRun(r)
    ensures Looks(Last(r), LeaderA([X, Y], 1, [X, Y], 2, 1, 1, 0), LeaderB([X, Z], 0, [], 1, -1),
                  FollowerC(2, "b", "", [X], -1), Leading(1), Leading(2))
  {
    hide Init, LooseNext, Elected;
    TakesOffice();
    r := CommitYLate();
    r := Elect(r, "b", "c");
    r := Say(r, "b", Z.data);
    assert Last(r).nodes["b"] == LeaderB([X, Z], 0, [], 1, -1);
  }

  lemma CommitZ() returns (r: seq<System>)
    ensures IsLooseRun(r)
    ensures Looks(Last(r), LeaderA([X, Y], 1, [X, Y], 2, 1, 1, 0), LeaderB([X, Z], 1, [], 2, 1),
                  FollowerC(2, "b", "b", [X, Z], 0), Leading(1), Leading(2))
  {
    hide Init, LooseNext, OnAppend, AppendFor, OnAppendReply;
    Shipments();
    FollowersAnswer();
    HearCAgain(AppendReply(2, true));
    r := LeadsTermTwo();
    r := SendTo(r, "b", "c");
    r := Answer(r, "b", "c", Shipment(2), FollowerC(2, "b", "b", [X, Z], 0));
    r := Hear(r, "b", "c", 2, 2, 1, AppendReply(2, true), LeaderB([X, Z], 1, [], 2, 1));
  }

  /** Node b leads term 2 with c's vote and puts z where a has delivered y. */
  lemma LateReplyBreaksSafety() returns (r: seq<System>)
    ensures IsLooseRun(r) && "a" in Last(r).nodes && "b" in Last(r).nodes
    ensures Last(r).nodes["a"].applied == [X, Y] && Last(r).nodes["b"].applied == [X, Z]
  {
    hide Init, LooseNext;
    r := CommitZ();
    r := DeliverOne(r, "b");
    r := DeliverOne(r, "b");
  }
}
