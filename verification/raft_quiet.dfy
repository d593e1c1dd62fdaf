/** Actions that leave the history alone keep the invariant. */
module RaftQuiet {
  import opened RaftTypes
  import opened RaftSystem
  import opened RaftInvariant
  import opened RaftStep
  import opened RaftCompleteness

  lemma MemberFacts(s: System, v: Id)
    requires Inv(s) && v in s.nodes
    ensures v in s.ids && v in s.phases && s.nodes[v].id == v && MemberOk(s.nodes[v], v, s.ids)
    ensures NodeOk(s.history, s.ids, s.nodes[v], s.phases[v])
    ensures KeptByNode(s.history, s.nodes[v])
  {}

  /** A node never has a ballot in a term it has not reached. */
  lemma NoFutureBallot(s: System, v: Id, term: int)
    requires Inv(s) && v in s.nodes && term > s.nodes[v].currentTerm
    ensures Slot(term, v) !in s.history.ballots
  {
    assert Slot(term, v) in s.history.ballots ==> SlotPast(s, Slot(term, v));
  }

  lemma BallotFacts(s: System, b: Slot)
    requires Inv(s) && b in s.history.ballots
    ensures KeptByBallot(s.history, b) && BallotOk(s.history, s.ids, b) && SlotPast(s, b)
  {}

  /** Stepping into no leadership, and leaving no leader loop while leading, keeps the loop condition. */
  ghost predicate LoopSafe(n: NodeState, p: Phase, n': NodeState, p': Phase) {
    n'.role == Leader ==> n.role == Leader && n.currentTerm == n'.currentTerm && (p' == p || !p.Leading?)
  }

  lemma LoopsKept(s: System, n: NodeState, p: Phase)
    requires Inv(s) && n.id in s.ids && LoopSafe(s.nodes[n.id], s.phases[n.id], n, p)
    ensures forall m :: m in s.net ==> LoopEntered(n, p, m)
  {
    hide NodesOk, HistoryOk, NetOk, Survival;
    assert MemberOk(s.nodes[n.id], n.id, s.ids);
    forall m | m in s.net ensures LoopEntered(n, p, m) {
      assert LoopEntered(s.nodes[n.id], s.phases[n.id], m);
    }
  }

  /** A silent step of one node that keeps its log. */
  lemma SilentStep(s: System, n: NodeState, p: Phase)
    requires Inv(s) && n.id in s.ids
    requires MemberOk(n, n.id, s.ids) && s.nodes[n.id].currentTerm <= n.currentTerm && n.log == s.nodes[n.id].log
    requires NodeOk(s.history, s.ids, n, p)
    requires LoopSafe(s.nodes[n.id], s.phases[n.id], n, p)
    ensures Inv(Update(s, n, p, {}, s.history))
  {
    hide Inv, NodeOk, MemberOk, LoopSafe, LoopEntered, Update;
    LoopsKept(s, n, p);
    QuietStep(s, n, p, {});
  }

  lemma StepDownOk(h: History, ids: set<Id>, n: NodeState, p: Phase, term: int)
    requires NodeOk(h, ids, n, p) && term > n.currentTerm && Slot(term, n.id) !in h.ballots
    ensures NodeOk(h, ids, StepDown(n, term), p)
  {
    var c := n.log[..n.commitIndex + 1];
    if c != [] {
      var t, k: nat :| t <= n.currentTerm && Chosen(h, ids, t, k) && c <= LeaderPrefix(h, t, k);
      assert Committed(h, ids, c, term);
    }
  }

  lemma RoleAndPhaseOk(h: History, ids: set<Id>, n: NodeState, p: Phase, role: Role, p': Phase)
    requires NodeOk(h, ids, n, p) && (role == Leader ==> n.role == Leader)
    requires PhaseOk(h, ids, n.(role := role), p')
    ensures NodeOk(h, ids, n.(role := role), p')
  {
    hide LogOk, Committed, PhaseOk;
  }

  lemma DispatchKeeps(s: System, v: Id, t: System)
    requires Enabled(s, Dispatch(v))
    requires t == DoDispatch(s, v)
    requires Inv(s)
    ensures Inv(t)
  {
    hide Inv, NodeOk, MemberOk;
    var n := s.nodes[v];
    MemberFacts(s, v);
    RoleAndPhaseOk(s.history, s.ids, n, Dispatching, n.role, AfterDispatch(n.role));
    assert n.(role := n.role) == n;
    SilentStep(s, n, AfterDispatch(n.role));
  }

  lemma TimeOutKeeps(s: System, v: Id, t: System)
    requires Enabled(s, TimeOut(v))
    requires t == DoTimeOut(s, v)
    requires Inv(s)
    ensures Inv(t)
  {
    hide Inv, NodeOk, MemberOk;
    var n := s.nodes[v];
    MemberFacts(s, v);
    RoleAndPhaseOk(s.history, s.ids, n, Following, Candidate, Dispatching);
    TimeOutIsQuiet(s.history, s.ids, n);
    MemberSurvives(n, OnElectionTimeout(n), v, s.ids);
    SilentStep(s, OnElectionTimeout(n), Dispatching);
  }

  lemma TimeOutIsQuiet(h: History, ids: set<Id>, n: NodeState)
    requires NodeOk(h, ids, n, Following)
    ensures n.role == Follower
  {}

  lemma MemberSurvives(n: NodeState, n': NodeState, v: Id, ids: set<Id>)
    requires MemberOk(n, v, ids) && n'.id == n.id && n'.peers == n.peers && n'.currentTerm >= n.currentTerm
    ensures MemberOk(n', v, ids)
  {}

  lemma BackToDispatch(s: System, v: Id)
    requires Inv(s) && v in s.nodes && v in s.phases
    requires s.phases[v].Campaigning? || (s.phases[v].Leading? && s.nodes[v].role != Leader)
    ensures Inv(Update(s, s.nodes[v], Dispatching, {}, s.history))
  {
    hide Inv, NodeOk, MemberOk;
    var n := s.nodes[v];
    MemberFacts(s, v);
    RoleAndPhaseOk(s.history, s.ids, n, s.phases[v], n.role, Dispatching);
    assert n.(role := n.role) == n;
    assert LoopSafe(n, s.phases[v], n, Dispatching) ;
    SilentStep(s, n, Dispatching);
  }

  lemma AbandonKeeps(s: System, v: Id, t: System)
    requires Enabled(s, Abandon(v))
    requires t == DoAbandon(s, v)
    requires Inv(s)
    ensures Inv(t)
  {
    hide Inv;
    BackToDispatch(s, v);
  }

  lemma LeadingTerm(h: History, ids: set<Id>, n: NodeState, p: Phase)
    requires NodeOk(h, ids, n, p) && p.Leading? && n.role == Leader
    ensures p.term == n.currentTerm
  {}

  lemma EndLeadKeeps(s: System, v: Id, t: System)
    requires Enabled(s, EndLead(v))
    requires t == DoEndLead(s, v)
    requires Inv(s)
    ensures Inv(t)
  {
    hide Inv, NodeOk, MemberOk;
    MemberFacts(s, v);
    if s.nodes[v].role == Leader {
      LeadingTerm(s.history, s.ids, s.nodes[v], s.phases[v]);
    }
    BackToDispatch(s, v);
  }

  lemma MessageFacts(s: System, m: Message)
    requires Inv(s) && m in s.net
    ensures MessageOk(s.history, s.ids, m)
  {}

  lemma CountedOk(h: History, ids: set<Id>, n: NodeState, p: Phase, m: Message)
    requires NodeOk(h, ids, n, p) && p.Campaigning? && n.id == m.dst
    requires MessageOk(h, ids, m) && m.VoteAnswer? && m.voteReply.granted && m.askedTerm == p.term
    ensures PhaseOk(h, ids, n, Campaigning(p.term, p.granted + {m.src}))
  {
    hide LogOk, Committed;
  }

  lemma CountVoteKeeps(s: System, m: Message, t: System)
    requires Enabled(s, CountVote(m))
    requires t == DoCountVote(s, m)
    requires Inv(s)
    ensures Inv(t)
  {
    hide Inv, NodeOk, MemberOk, MessageOk;
    var n, p := s.nodes[m.dst], s.phases[m.dst];
    MemberFacts(s, m.dst);
    MessageFacts(s, m);
    CountedOk(s.history, s.ids, n, p, m);
    var p' := Campaigning(p.term, p.granted + {m.src});
    assert n.(role := n.role) == n;
    RoleAndPhaseOk(s.history, s.ids, n, p, n.role, p');
    SilentStep(s, n, p');
  }

  lemma HearVoteKeeps(s: System, m: Message, t: System)
    requires Enabled(s, HearVote(m))
    requires t == DoHearVote(s, m)
    requires Inv(s)
    ensures Inv(t)
  {
    hide Inv, NodeOk, MemberOk, MessageOk;
    var n, p := s.nodes[m.dst], s.phases[m.dst];
    MemberFacts(s, m.dst);
    if m.voteReply.term > n.currentTerm {
      NoFutureBallot(s, m.dst, m.voteReply.term);
      StepDownOk(s.history, s.ids, n, p, m.voteReply.term);
    }
    MemberSurvives(n, OnVoteReply(n, m.voteReply), m.dst, s.ids);
    SilentStep(s, OnVoteReply(n, m.voteReply), p);
  }

  lemma BeganLeadingOk(h: History, ids: set<Id>, n: NodeState)
    requires NodeOk(h, ids, n, Promoted)
    ensures NodeOk(h, ids, OnBeginLeading(n), Leading(n.currentTerm))
  {
    hide LogOk, Committed;
    var n' := OnBeginLeading(n);
    forall q | q in n'.peers ensures ReplicationOk(h, n', q) {}
  }

  lemma BeginLeadKeeps(s: System, v: Id, t: System)
    requires Enabled(s, BeginLead(v))
    requires t == DoBeginLead(s, v)
    requires Inv(s)
    ensures Inv(t)
  {
    hide Inv, NodeOk, MemberOk;
    var n := s.nodes[v];
    MemberFacts(s, v);
    BeganLeadingOk(s.history, s.ids, n);
    MemberSurvives(n, OnBeginLeading(n), v, s.ids);
    SilentStep(s, OnBeginLeading(n), Leading(n.currentTerm));
  }

  lemma DeliveredOk(h: History, ids: set<Id>, n: NodeState, p: Phase)
    requires NodeOk(h, ids, n, p) && n.lastApplied < n.commitIndex
    ensures NodeOk(h, ids, OnDeliver(n), p)
  {
    hide LogOk, Committed;
    if p.Leading? {
      forall q | q in n.peers && n.role == Leader ensures ReplicationOk(h, OnDeliver(n), q) {
        assert ReplicationOk(h, n, q);
      }
    }
  }

  lemma DeliverKeeps(s: System, v: Id, t: System)
    requires Enabled(s, Deliver(v))
    requires t == DoDeliver(s, v)
    requires Inv(s)
    ensures Inv(t)
  {
    hide Inv, NodeOk, MemberOk;
    var n := s.nodes[v];
    MemberFacts(s, v);
    DeliveredOk(s.history, s.ids, n, s.phases[v]);
    MemberSurvives(n, OnDeliver(n), v, s.ids);
    SilentStep(s, OnDeliver(n), s.phases[v]);
  }

  // ---------- sending ----------

  lemma NodeParts(h: History, ids: set<Id>, n: NodeState, p: Phase)
    requires NodeOk(h, ids, n, p)
    ensures VoteOk(h, n) && LogStateOk(h, n) && CommitOk(h, ids, n) && PhaseOk(h, ids, n, p)
  {}

  lemma SentTerm(n: NodeState, peer: Id)
    requires CanSend(n, peer)
    ensures AppendFor(n, peer, n.currentTerm).term == n.currentTerm
  {}

  /** A request of `v` says nothing about the loops of the other nodes. */
  lemma OthersNotEntered(s: System, v: Id, m: Message)
    requires Inv(s) && m.AppendCall? && m.src == v
    ensures forall w :: w in s.ids && w != v ==> LoopEntered(s.nodes[w], s.phases[w], m)
  {
    hide NodesOk, HistoryOk, NetOk, LoopsEntered, Survival;
    forall w | w in s.ids && w != v ensures LoopEntered(s.nodes[w], s.phases[w], m) {
      assert MemberOk(s.nodes[w], w, s.ids);
    }
  }

  lemma PeersAreOthers(n: NodeState, v: Id, ids: set<Id>, peer: Id)
    requires MemberOk(n, v, ids) && peer in n.peers
    ensures peer in ids && peer != v
  {}

  /** What a leader ships is the whole of its log after `prevLogIndex`, so its commit index is inside it. */
  lemma ShippedRequestOk(h: History, ids: set<Id>, n: NodeState, peer: Id)
    requires LogStateOk(h, n) && CommitOk(h, ids, n) && n.role == Leader && CanSend(n, peer) && peer != n.id
    ensures AppendCallOk(h, ids, n.id, peer, AppendFor(n, peer, n.currentTerm))
  {
    var l := LeaderPrefix(h, n.currentTerm, |n.log|);
    assert l == n.log;
    var a := AppendFor(n, peer, n.currentTerm);
    assert a.entries == l[a.prevLogIndex + 1..];
    assert LeaderPrefix(h, n.currentTerm, n.commitIndex + 1) == n.log[..n.commitIndex + 1];
  }

  lemma SendKeeps(s: System, v: Id, peer: Id, t: System)
    requires Enabled(s, Send(v, peer))
    requires t == DoSend(s, v, peer)
    requires Inv(s)
    ensures Inv(t)
  {
    hide Inv, NodeOk, AppendCallOk, AppendFor;
    var n, p := s.nodes[v], s.phases[v];
    MemberFacts(s, v);
    NodeParts(s.history, s.ids, n, p);
    hide LogStateOk, CommitOk;
    PeersAreOthers(n, v, s.ids, peer);
    ShippedRequestOk(s.history, s.ids, n, peer);
    LoopsKept(s, n, p);
    var m := AppendCall(v, peer, AppendFor(n, peer, n.currentTerm));
    assert LoopEntered(n, p, m) by { SentTerm(n, peer); }
    OthersNotEntered(s, v, m);
    QuietStep(s, n, p, {m});
  }

  // ---------- hearing back ----------

  /** The peers counted as having index `idx`. */
  ghost function Ackers(n: NodeState, peers: seq<Id>, idx: int): set<Id> {
    set p | p in peers && Lookup(n.matchIndex, p) >= idx
  }

  lemma {:induction false} PeerAcksCounts(n: NodeState, peers: seq<Id>, idx: int)
    requires Distinct(peers)
    ensures PeerAcks(peers, n.matchIndex, idx) == |Ackers(n, peers, idx)|
  {
    if peers == [] {
      assert Ackers(n, peers, idx) == {};
    } else {
      var last := peers[|peers| - 1];
      var rest := peers[..|peers| - 1];
      PeerAcksCounts(n, rest, idx);
      assert last !in rest;
      assert forall p :: p in peers <==> p in rest || p == last;
      if Lookup(n.matchIndex, last) >= idx {
        assert Ackers(n, peers, idx) == Ackers(n, rest, idx) + {last};
      } else {
        assert Ackers(n, peers, idx) == Ackers(n, rest, idx);
      }
    }
  }

  lemma {:induction false} PeersSize(peers: seq<Id>, others: set<Id>)
    requires Distinct(peers) && forall p :: p in peers <==> p in others
    ensures |peers| == |others|
  {
    if peers == [] {
      assert others == {};
    } else {
      var last := peers[|peers| - 1];
      PeersSize(peers[..|peers| - 1], others - {last});
    }
  }

  lemma ClusterIsIds(n: NodeState, v: Id, ids: set<Id>)
    requires MemberOk(n, v, ids) && v in ids
    ensures |n.peers| + 1 == |ids|
  {
    PeersSize(n.peers, ids - {v});
  }

  /** Everyone the leader counts for `idx` has held its log through `idx` in its term. */
  lemma {:induction false} CountedAreHolders(h: History, ids: set<Id>, n: NodeState, idx: nat)
    requires MemberOk(n, n.id, ids) && n.id in ids
    requires forall q :: q in n.peers ==> ReplicationOk(h, n, q)
    requires Slot(n.currentTerm, n.id) in h.acks && idx < h.acks[Slot(n.currentTerm, n.id)]
    ensures 1 + PeerAcks(n.peers, n.matchIndex, idx) <= |Holders(h, ids, n.currentTerm, idx + 1)|
  {
    PeerAcksCounts(n, n.peers, idx);
    var a := Ackers(n, n.peers, idx);
    forall q | q in a ensures q in Holders(h, ids, n.currentTerm, idx + 1) {
      assert ReplicationOk(h, n, q);
    }
    assert n.id !in a;
    SubsetSize(a + {n.id}, Holders(h, ids, n.currentTerm, idx + 1));
  }

  /** The commit rule only commits what a majority holds, the last of it in the leader's own term. */
  lemma {:induction false} CommitFromChosen(h: History, ids: set<Id>, n: NodeState)
    requires MemberOk(n, n.id, ids) && n.id in ids && LogStateOk(h, n) && n.role == Leader
    requires -1 <= n.commitIndex < |n.log|
    requires LeaderOk(h, ids, n.currentTerm)
    requires forall q :: q in n.peers ==> ReplicationOk(h, n, q)
    ensures var c := CommitFrom(n, n.commitIndex, n.currentTerm);
            c > n.commitIndex ==> c < |n.log| && Chosen(h, ids, n.currentTerm, c + 1)
  {
    var c := CommitFrom(n, n.commitIndex, n.currentTerm);
    if c > n.commitIndex {
      CommitFromStops(n, n.commitIndex, n.currentTerm);
      assert MayCommit(n, c, n.currentTerm);
      CountedAreHolders(h, ids, n, c);
      ClusterIsIds(n, n.id, ids);
      assert 2 * MinAcksRequired(n, c) > |ids|;
    }
  }

  lemma {:induction false} CommitAdvanceOk(h: History, ids: set<Id>, n: NodeState)
    requires MemberOk(n, n.id, ids) && n.id in ids && LogStateOk(h, n) && n.role == Leader
    requires CommitOk(h, ids, n)
    requires LeaderOk(h, ids, n.currentTerm)
    requires forall q :: q in n.peers ==> ReplicationOk(h, n, q)
    ensures CommitOk(h, ids, n.(commitIndex := CommitFrom(n, n.commitIndex, n.currentTerm)))
  {
    var c := CommitFrom(n, n.commitIndex, n.currentTerm);
    CommitFromChosen(h, ids, n);
    if c > n.commitIndex {
      assert n.log[..c + 1] <= LeaderPrefix(h, n.currentTerm, c + 1);
    }
  }

  lemma LeaderHears(s: System, m: Message)
    requires Inv(s) && m in s.net && m.AppendAnswer? && m.dst in s.nodes
    requires s.nodes[m.dst].role == Leader && s.nodes[m.dst].currentTerm == m.askedTerm
    ensures s.phases[m.dst] == Leading(m.askedTerm)
    ensures m.askedTerm in s.history.leaders && LeaderOk(s.history, s.ids, m.askedTerm)
  {
    MessageFacts(s, m);
    MemberFacts(s, m.dst);
    AllLeadersOk(s);
    hide NodesOk, HistoryOk, NetOk, Survival, NodeOk, LeaderOk;
    assert LoopEntered(s.nodes[m.dst], s.phases[m.dst], m);
  }

  lemma {:induction false} CommittedNodeOk(h: History, ids: set<Id>, n: NodeState)
    requires MemberOk(n, n.id, ids) && n.id in ids && n.role == Leader && LeaderOkAt(h, ids, n.currentTerm)
    requires NodeOk(h, ids, n, Leading(n.currentTerm))
    ensures NodeOk(h, ids, n.(commitIndex := CommitFrom(n, n.commitIndex, n.currentTerm)), Leading(n.currentTerm))
  {
    var n' := n.(commitIndex := CommitFrom(n, n.commitIndex, n.currentTerm));
    CommitAdvanceOk(h, ids, n);
    hide LeaderOk, MemberOk, LogOk, CommitOk, CommitFrom;
    forall q | q in n'.peers ensures ReplicationOk(h, n', q) {
      assert ReplicationOk(h, n, q);
    }
  }

  ghost predicate LeaderOkAt(h: History, ids: set<Id>, t: int) {
    t in h.leaders && LeaderOk(h, ids, t)
  }

  /** Recording a success, or backing up after a refusal, before anything is committed. */
  lemma RecordedNodeOk(h: History, ids: set<Id>, n: NodeState, m: Message, next: int, held: int)
    requires m.AppendAnswer? && MessageOk(h, ids, m) && m.dst == n.id && MemberOk(n, n.id, ids)
    requires n.role == Leader && NodeOk(h, ids, n, Leading(n.currentTerm)) && m.askedTerm == n.currentTerm
    requires if m.appendReply.success then next == |n.log| && held == |n.log| - 1 && |n.log| == m.sent
             else 0 <= next <= |n.log| && held == Lookup(n.matchIndex, m.src)
    ensures m.appendReply.success ==>
              NodeOk(h, ids, n.(nextIndex := n.nextIndex[m.src := next], matchIndex := n.matchIndex[m.src := held]),
                     Leading(n.currentTerm))
    ensures !m.appendReply.success ==>
              NodeOk(h, ids, n.(nextIndex := n.nextIndex[m.src := next]), Leading(n.currentTerm))
  {
    var n' := if m.appendReply.success
              then n.(nextIndex := n.nextIndex[m.src := next], matchIndex := n.matchIndex[m.src := held])
              else n.(nextIndex := n.nextIndex[m.src := next]);
    hide LogOk, Committed;
    forall q | q in n'.peers ensures ReplicationOk(h, n', q) {
      assert ReplicationOk(h, n, q);
    }
  }

  /** The node after hearing a successful answer, or a refusal, as a leader of that term. */
  lemma HearAppendNodeOk(h: History, ids: set<Id>, n: NodeState, m: Message)
    requires m.AppendAnswer? && MessageOk(h, ids, m) && m.dst == n.id && MemberOk(n, n.id, ids) && n.id in ids
    requires n.role == Leader && n.currentTerm == m.askedTerm && NodeOk(h, ids, n, Leading(m.askedTerm))
    requires LeaderOkAt(h, ids, m.askedTerm) && NotGrownSince(n, m) && m.appendReply.term <= n.currentTerm
    requires -1 <= n.commitIndex
    ensures NodeOk(h, ids, OnAppendReply(n, m.src, m.askedTerm, m.shipped, m.appendReply), Leading(m.askedTerm))
  {
    hide MessageOk, NodeOk, MemberOk, LeaderOkAt, CommitFrom;
    if m.appendReply.success {
      if m.shipped > 0 {
        RecordedNodeOk(h, ids, n, m, |n.log|, LastIndex(n.log));
      }
      var n' := if m.shipped > 0
                then n.(nextIndex := n.nextIndex[m.src := |n.log|],
                    matchIndex := n.matchIndex[m.src := LastIndex(n.log)])
                else n;
      MemberSurvives(n, n', n.id, ids);
      CommittedNodeOk(h, ids, n');
    } else if Lookup(n.nextIndex, m.src) > 0 {
      LookupInRange(h, ids, n, m);
      RecordedNodeOk(h, ids, n, m, Lookup(n.nextIndex, m.src) - 1, Lookup(n.matchIndex, m.src));
    }
  }

  lemma LookupInRange(h: History, ids: set<Id>, n: NodeState, m: Message)
    requires m.AppendAnswer? && MessageOk(h, ids, m) && m.dst == n.id && MemberOk(n, n.id, ids)
    requires n.role == Leader && NodeOk(h, ids, n, Leading(n.currentTerm))
    ensures 0 <= Lookup(n.nextIndex, m.src) <= |n.log|
  {
    assert ReplicationOk(h, n, m.src);
  }

  lemma HearAppendKeeps(s: System, m: Message, t: System)
    requires Enabled(s, HearAppend(m))
    requires t == DoHearAppend(s, m)
    requires Inv(s)
    ensures Inv(t)
  {
    hide Inv, NodeOk, MessageOk, LeaderOk, CommitFrom, MemberOk;
    var n := s.nodes[m.dst];
    MemberFacts(s, m.dst);
    MessageFacts(s, m);
    if m.appendReply.term > n.currentTerm {
      NoFutureBallot(s, m.dst, m.appendReply.term);
      StepDownOk(s.history, s.ids, n, s.phases[m.dst], m.appendReply.term);
    } else if n.role == Leader && n.currentTerm == m.askedTerm {
      LeaderHears(s, m);
      HearAppendNodeOk(s.history, s.ids, n, m);
    }
    var n' := OnAppendReply(n, m.src, m.askedTerm, m.shipped, m.appendReply);
    MemberSurvives(n, n', m.dst, s.ids);
    SilentStep(s, n', s.phases[m.dst]);
  }
}
