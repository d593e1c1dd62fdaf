/** Casting a ballot, for oneself or for another, keeps the invariant. */
module RaftBallots {
  import opened RaftTypes
  import opened RaftSystem
  import opened RaftInvariant
  import opened RaftStep
  import opened RaftQuiet

  /** `g` is `h` with one more ballot of `v`. */
  ghost predicate BallotCast(h: History, g: History, b: Slot, ballot: Ballot) {
    b !in h.ballots && g == h.(ballots := h.ballots[b := ballot])
  }

  lemma BallotExtends(h: History, g: History, b: Slot, ballot: Ballot)
    requires BallotCast(h, g, b, ballot)
    ensures Extends(h, g, b.node)
  {}

  lemma LeaderOkAfterBallot(h: History, g: History, ids: set<Id>, b: Slot, ballot: Ballot, t: int)
    requires BallotCast(h, g, b, ballot) && t in h.leaders && LeaderOk(h, ids, t)
    ensures LeaderOk(g, ids, t)
  {
    BallotExtends(h, g, b, ballot);
    LogOkGrows(h, g, h.leaders[t].log);
  }

  /** A ballot cast for candidate `c` on the strength of `c`'s own ballot. */
  ghost predicate Supported(h: History, b: Slot, ballot: Ballot) {
    var own := Slot(b.term, ballot.candidate);
    if b.node == ballot.candidate then TermsBelow(ballot.log, b.term)
    else && own in h.ballots && h.ballots[own].candidate == ballot.candidate
         && TermsBelow(h.ballots[own].log, b.term)
         && AtLeastAsUpToDate(LastIndex(h.ballots[own].log), LastTerm(h.ballots[own].log), ballot.log)
  }

  lemma NewBallotOk(h: History, g: History, ids: set<Id>, b: Slot, ballot: Ballot)
    requires BallotCast(h, g, b, ballot) && LogOk(h, ballot.log)
    requires b.node in ids && ballot.candidate in ids && 1 <= b.term && Supported(h, b, ballot)
    ensures BallotOk(g, ids, b)
  {
    BallotExtends(h, g, b, ballot);
    LogOkGrows(h, g, ballot.log);
  }

  lemma HistoryAfterBallot(s: System, g: History, b: Slot, ballot: Ballot, term: int)
    requires Inv(s) && BallotCast(s.history, g, b, ballot)
    requires b.node in s.nodes && b.term <= term && s.nodes[b.node].currentTerm <= term
    requires BallotOk(g, s.ids, b)
    ensures NewHistoryOk(s.history, g, s.ids, b.node, term)
  {
    hide NodesOk, NetOk, LoopsEntered, Survival, BallotOk, LeaderOk;
    forall t | t in g.leaders ensures LeaderOk(g, s.ids, t) {
      LeaderOkAfterBallot(s.history, g, s.ids, b, ballot, t);
    }
    forall a | a in g.acks && a.node == b.node ensures AckOk(g, s.ids, a) && a.term <= term {
      assert AckOk(s.history, s.ids, a) && SlotPast(s, a);
    }
  }

  lemma KeptByNodeSame(h: History, g: History, n: NodeState)
    requires g.leaders == h.leaders && g.acks == h.acks && KeptByNode(h, n)
    ensures KeptByNode(g, n)
  {
    forall a: Slot, k: nat | Held(g, a, k) && a.node == n.id
      ensures Kept(g, n.log, a.term, k, n.currentTerm + 1)
    {
      assert Held(h, a, k);
      KeptSame(h, g, n.log, a.term, k, n.currentTerm + 1);
    }
  }

  /** The log of a node voting before its term has a leader kept what the node held in earlier terms. */
  lemma NewBallotKept(h: History, g: History, n: NodeState, term: int, b: Slot, ballot: Ballot)
    requires BallotCast(h, g, b, ballot) && KeptByNode(h, n) && b.node == n.id && ballot.log == n.log
    requires b.term == term && n.currentTerm <= term && term !in h.leaders
    ensures KeptByBallot(g, b)
  {
    forall a: Slot, k: nat | Held(g, a, k) && a.node == b.node && a.term < b.term
      ensures Kept(g, ballot.log, a.term, k, b.term)
    {
      assert Held(h, a, k) && Kept(h, n.log, a.term, k, n.currentTerm + 1);
      KeptSame(h, g, n.log, a.term, k, n.currentTerm + 1);
      if !(LeaderPrefix(g, a.term, k) <= n.log) {
        var u :| a.term < u < n.currentTerm + 1 && Skips(g, u, a.term, k);
        assert u != term;
      }
    }
  }

  lemma OldBallotKept(h: History, g: History, b: Slot, ballot: Ballot, x: Slot)
    requires BallotCast(h, g, b, ballot) && x in h.ballots && KeptByBallot(h, x)
    ensures KeptByBallot(g, x)
  {
    if Relevant(g, x) {
      assert Relevant(h, x);
      forall a: Slot, k: nat | Held(g, a, k) && a.node == x.node && a.term < x.term
        ensures Kept(g, g.ballots[x].log, a.term, k, x.term)
      {
        assert Held(h, a, k);
        KeptSame(h, g, h.ballots[x].log, a.term, k, x.term);
      }
    }
  }

  /** A vote newly cast in a term that already has a leader cannot have been one of its votes. */
  lemma LateBallotIrrelevant(s: System, g: History, b: Slot, ballot: Ballot)
    requires Inv(s) && BallotCast(s.history, g, b, ballot) && b.term in s.history.leaders
    ensures !Relevant(g, b)
  {
    assert LeaderOk(s.history, s.ids, b.term);
  }

  /** `n` has moved to `b.term` and casts its ballot there. */
  lemma SurvivalAfterBallot(s: System, n: NodeState, g: History, b: Slot, ballot: Ballot)
    requires Inv(s) && BallotCast(s.history, g, b, ballot)
    requires n.id in s.nodes && b == Slot(n.currentTerm, n.id) && ballot.log == n.log == s.nodes[n.id].log
    requires s.nodes[n.id].currentTerm <= n.currentTerm
    ensures NewSurvival(g, n)
  {
    hide Inv, KeptByNode, KeptByBallot, BallotOk, MemberOk, NodeOk, Relevant;
    var h := s.history;
    MemberFacts(s, n.id);
    assert s.nodes[n.id].id == n.id;
    KeptByNodeLater(h, s.nodes[n.id], n);
    KeptByNodeSame(h, g, n);
    forall x | x in g.ballots && x.node == n.id ensures KeptByBallot(g, x) {
      if x != b {
        BallotFacts(s, x);
        OldBallotKept(h, g, b, ballot, x);
      } else if n.currentTerm in h.leaders {
        LateBallotIrrelevant(s, g, b, ballot);
        IrrelevantKept(g, b);
      } else {
        NewBallotKept(h, g, n, n.currentTerm, b, ballot);
      }
    }
  }

  lemma IrrelevantKept(g: History, b: Slot)
    requires b in g.ballots && !Relevant(g, b)
    ensures KeptByBallot(g, b)
  {}

  lemma NodeOkAfterBallot(h: History, g: History, ids: set<Id>, n: NodeState, p: Phase, b: Slot, ballot: Ballot)
    requires BallotCast(h, g, b, ballot) && b == Slot(n.currentTerm, n.id) && ballot.candidate == n.votedFor != ""
    requires LogStateOk(h, n) && CommitOk(h, ids, n) && PhaseOk(h, ids, n, p)
    ensures NodeOk(g, ids, n, p)
  {
    BallotExtends(h, g, b, ballot);
    LogOkGrows(h, g, n.log);
    CommittedGrows(h, g, ids, n.log[..n.commitIndex + 1], n.currentTerm, n.currentTerm);
    hide LogOk, Committed, Extends;
    assert PhaseOk(g, ids, n, p);
  }

  // ---------- starting a campaign ----------

  lemma CampaignStateOk(h: History, g: History, ids: set<Id>, m: NodeState, n: NodeState)
    requires m.id in ids && m.id != "" && m.currentTerm >= 0
    requires LogStateOk(h, m) && CommitOk(h, ids, m) && m.role != Leader
    requires n == OnCampaign(m).0
    requires BallotCast(h, g, Slot(n.currentTerm, n.id), Ballot(n.id, n.log))
    requires n.currentTerm in h.leaders ==> h.leaders[n.currentTerm].leader != n.id
    ensures NodeOk(g, ids, n, Campaigning(n.currentTerm, {}))
    ensures BallotOk(g, ids, Slot(n.currentTerm, n.id))
  {
    var b, ballot := Slot(n.currentTerm, n.id), Ballot(n.id, n.log);
    BallotExtends(h, g, b, ballot);
    CommittedGrows(h, g, ids, m.log[..m.commitIndex + 1], m.currentTerm, n.currentTerm);
    LogOkGrows(h, g, n.log);
    NewBallotOk(h, g, ids, b, ballot);
    hide LogOk, Committed, BallotOk, Extends;
    assert CampaignOk(g, ids, n, n.currentTerm, {});
  }

  /** Nobody leads in a term for which they have not voted. */
  lemma NoLeaderYet(s: System, v: Id, term: int)
    requires Inv(s) && Slot(term, v) !in s.history.ballots
    ensures term in s.history.leaders ==> s.history.leaders[term].leader != v
  {
    assert term in s.history.leaders ==> LeaderOk(s.history, s.ids, term);
  }

  lemma CampaignKeeps(s: System, v: Id, t: System)
    requires Enabled(s, Campaign(v))
    requires t == DoCampaign(s, v)
    requires Inv(s)
    ensures Inv(t)
  {
    hide Inv, NodeOk, BallotOk, NewHistoryOk, NewSurvival, LoopEntered, BallotCast, LogStateOk, CommitOk;
    var m := s.nodes[v];
    var (n, args) := OnCampaign(m);
    var b, ballot := Slot(n.currentTerm, v), Ballot(v, n.log);
    MemberFacts(s, v);
    NoFutureBallot(s, v, n.currentTerm);
    var g := WithBallot(s.history, b, ballot);
    assert BallotCast(s.history, g, b, ballot) by { WithBallotCasts(s.history, b, ballot); }
    NoLeaderYet(s, v, n.currentTerm);
    NamesAreNotEmpty(s, v);
    NodeParts(s.history, s.ids, m, Electing);
    CampaignStateOk(s.history, g, s.ids, m, n);
    HistoryAfterBallot(s, g, b, ballot, n.currentTerm);
    SurvivalAfterBallot(s, n, g, b, ballot);
    BallotExtends(s.history, g, b, ballot);
    MemberSurvives(m, n, v, s.ids);
    ElectingIsNotLeader(s.history, s.ids, m);
    LoopsKept(s, n, Campaigning(n.currentTerm, {}));
    var sent := set p | p in n.peers :: VoteCall(v, p, args);
    CampaignCallsOk(g, s.ids, n, v, sent, ballot);
    VoteMessagesEnterNoLoop(s, n, Campaigning(n.currentTerm, {}), sent);
    hide Extends, MessageOk;
    StepKeepsInv(s, n, Campaigning(n.currentTerm, {}), sent, g);
  }

  lemma WithBallotCasts(h: History, b: Slot, ballot: Ballot)
    requires b !in h.ballots
    ensures BallotCast(h, WithBallot(h, b, ballot), b, ballot)
  {}

  lemma ElectingIsNotLeader(h: History, ids: set<Id>, n: NodeState)
    requires NodeOk(h, ids, n, Electing)
    ensures n.role != Leader
  {}

  lemma VoteMessagesEnterNoLoop(s: System, n: NodeState, p: Phase, sent: set<Message>)
    requires Inv(s) && forall m :: m in sent ==> m.VoteCall? || m.VoteAnswer?
    ensures forall m :: m in sent ==> LoopEntered(n, p, m)
    ensures forall w, m :: w in s.ids && w != n.id && m in sent ==> LoopEntered(s.nodes[w], s.phases[w], m)
  {}

  lemma CampaignCallsOk(g: History, ids: set<Id>, n: NodeState, v: Id, sent: set<Message>, ballot: Ballot)
    requires MemberOk(n, v, ids) && v in ids
    requires Slot(n.currentTerm, v) in g.ballots && g.ballots[Slot(n.currentTerm, v)] == ballot == Ballot(v, n.log)
    requires sent == set p | p in n.peers ::
               VoteCall(v, p, VoteArgs(n.currentTerm, v, LastIndex(n.log), LastTerm(n.log)))
    ensures forall m :: m in sent ==> MessageOk(g, ids, m)
  {}

  // ---------- answering a vote request ----------

  /** The voter after looking at the request's term. */
  ghost function Voter(n: NodeState, a: VoteArgs): NodeState {
    if a.term > n.currentTerm then StepDown(n, a.term) else n
  }

  lemma VoterOk(s: System, v: Id, a: VoteArgs)
    requires Inv(s) && v in s.nodes && v in s.phases
    ensures NodeOk(s.history, s.ids, Voter(s.nodes[v], a), s.phases[v])
    ensures MemberOk(Voter(s.nodes[v], a), v, s.ids)
  {
    hide Inv, NodeOk, MemberOk;
    MemberFacts(s, v);
    if a.term > s.nodes[v].currentTerm {
      NoFutureBallot(s, v, a.term);
      StepDownOk(s.history, s.ids, s.nodes[v], s.phases[v], a.term);
    }
    MemberSurvives(s.nodes[v], Voter(s.nodes[v], a), v, s.ids);
  }

  lemma GrantSupported(h: History, ids: set<Id>, m: Message, log: Log)
    requires MessageOk(h, ids, m) && m.VoteCall?
    requires Slot(m.vote.term, m.src) in h.ballots && BallotOk(h, ids, Slot(m.vote.term, m.src))
    requires AtLeastAsUpToDate(m.vote.lastLogIndex, m.vote.lastLogTerm, log)
    ensures Supported(h, Slot(m.vote.term, m.dst), Ballot(m.vote.candidate, log))
    ensures m.vote.candidate == m.src && m.src in ids && 1 <= m.vote.term
  {}

  lemma CallerHasBallot(h: History, ids: set<Id>, m: Message)
    requires MessageOk(h, ids, m) && m.VoteCall?
    ensures m.src in ids && m.src != m.dst && Slot(m.vote.term, m.src) in h.ballots
  {}

  /** An answer that grants nothing new. */
  lemma AnswerVoteQuietly(s: System, m: Message, t: System)
    requires Enabled(s, AnswerVote(m))
    requires var (n, r) := OnVoteRequest(s.nodes[m.dst], m.vote);
             r.granted ==> n == Voter(s.nodes[m.dst], m.vote) && m.vote.term == n.currentTerm && n.votedFor == m.src
    requires t == DoAnswerVote(s, m)
    requires Inv(s)
    ensures Inv(t)
  {
    hide Inv, NodeOk, MemberOk;
    var v := m.dst;
    var (n, r) := OnVoteRequest(s.nodes[v], m.vote);
    MessageFacts(s, m);
    CallerHasBallot(s.history, s.ids, m);
    MemberFacts(s, v);
    VoterOk(s, v, m.vote);
    LoopsKept(s, n, s.phases[v]);
    var answer := VoteAnswer(v, m.src, m.vote.term, r);
    if r.granted {
      NamesAreNotEmpty(s, m.src);
      VotedBallot(s.history, s.ids, n, s.phases[v]);
    }
    VoteMessagesEnterNoLoop(s, n, s.phases[v], {answer});
    hide MessageOk, Voter, LoopEntered, OnVoteRequest;
    assert DoAnswerVote(s, m) == Update(s, n, s.phases[v], {answer}, s.history);
    assert MessageOk(s.history, s.ids, answer) by {
      VoteAnswerOk(s.history, s.ids, answer);
    }
    QuietStep(s, n, s.phases[v], {answer});
  }

  lemma VoteAnswerOk(h: History, ids: set<Id>, m: Message)
    requires m.VoteAnswer? && m.src in ids && m.src != m.dst
    requires m.voteReply.granted ==>
               Slot(m.askedTerm, m.src) in h.ballots && h.ballots[Slot(m.askedTerm, m.src)].candidate == m.dst
    ensures MessageOk(h, ids, m)
  {}

  lemma VotedBallot(h: History, ids: set<Id>, n: NodeState, p: Phase)
    requires NodeOk(h, ids, n, p) && n.votedFor != ""
    ensures Slot(n.currentTerm, n.id) in h.ballots && h.ballots[Slot(n.currentTerm, n.id)].candidate == n.votedFor
  {}

  lemma NamesAreNotEmpty(s: System, v: Id)
    requires Inv(s) && v in s.ids
    ensures v != ""
  {}

  /** The state and the ballot of a grant are in order under the history that records it. */
  lemma GrantStateOk(s: System, m: Message, n1: NodeState, n: NodeState, p: Phase, g: History)
    requires Inv(s) && m in s.net && m.VoteCall? && m.dst in s.ids
    requires NodeOk(s.history, s.ids, n1, p) && n1.votedFor == "" && n1.id == m.dst
    requires n == n1.(votedFor := m.vote.candidate) && m.vote.term == n.currentTerm
    requires AtLeastAsUpToDate(m.vote.lastLogIndex, m.vote.lastLogTerm, n.log)
    requires g == WithBallot(s.history, Slot(n.currentTerm, m.dst), Ballot(m.vote.candidate, n.log))
    ensures BallotCast(s.history, g, Slot(n.currentTerm, m.dst), Ballot(m.vote.candidate, n.log))
    ensures NodeOk(g, s.ids, n, p) && m.vote.candidate == m.src
    ensures Slot(n.currentTerm, m.dst) in g.ballots && BallotOk(g, s.ids, Slot(n.currentTerm, m.dst))
  {
    hide Inv, NodeOk, MessageOk, BallotOk, Supported, BallotCast, LogStateOk, CommitOk, PhaseOk, VoteOk,
      AtLeastAsUpToDate, KeptByBallot;
    var h := s.history;
    var b, ballot := Slot(n.currentTerm, m.dst), Ballot(m.vote.candidate, n.log);
    MessageFacts(s, m);
    CallerHasBallot(h, s.ids, m);
    NamesAreNotEmpty(s, m.src);
    NotYetVoted(h, s.ids, n1, p);
    BallotFacts(s, Slot(m.vote.term, m.src));
    GrantSupported(h, s.ids, m, n.log);
    WithBallotCasts(h, b, ballot);
    CastIsRecorded(h, g, b, ballot);
    NodeParts(h, s.ids, n1, p);
    VotePartsUnaffected(h, s.ids, n1, n, p);
    LogPartOk(h, n);
    NewBallotOk(h, g, s.ids, b, ballot);
    NodeOkAfterBallot(h, g, s.ids, n, p, b, ballot);
  }

  /** A grant that casts a new ballot. */
  lemma AnswerVoteNewly(s: System, m: Message, t: System)
    requires Enabled(s, AnswerVote(m))
    requires OnVoteRequest(s.nodes[m.dst], m.vote).1.granted
    requires Voter(s.nodes[m.dst], m.vote).votedFor == ""
    requires t == DoAnswerVote(s, m)
    requires Inv(s)
    ensures Inv(t)
  {
    hide Inv, NodeOk, MemberOk, MessageOk, BallotOk, LoopEntered, NewHistoryOk, NewSurvival, BallotCast, Extends;
    var h, v := s.history, m.dst;
    var n0, p := s.nodes[v], s.phases[v];
    var n1 := Voter(n0, m.vote);
    var (n, r) := OnVoteRequest(n0, m.vote);
    var b, ballot := Slot(n.currentTerm, v), Ballot(m.vote.candidate, n.log);
    assert n == n1.(votedFor := m.vote.candidate) && m.vote.term == n.currentTerm;
    MemberFacts(s, v);
    MessageFacts(s, m);
    CallerHasBallot(h, s.ids, m);
    VoterOk(s, v, m.vote);
    var g := WithBallot(h, b, ballot);
    GrantStateOk(s, m, n1, n, p, g);
    HistoryAfterBallot(s, g, b, ballot, n.currentTerm);
    SurvivalAfterBallot(s, n, g, b, ballot);
    BallotExtends(h, g, b, ballot);
    MemberSurvives(n0, n, v, s.ids);
    LoopsKept(s, n, p);
    var answer := VoteAnswer(v, m.src, m.vote.term, r);
    VoteMessagesEnterNoLoop(s, n, p, {answer});
    assert MessageOk(g, s.ids, answer) by {
      CastIsRecorded(h, g, b, ballot);
      VoteAnswerOk(g, s.ids, answer);
    }
    StepKeepsInv(s, n, p, {answer}, g);
  }

  lemma CastIsRecorded(h: History, g: History, b: Slot, ballot: Ballot)
    requires BallotCast(h, g, b, ballot)
    ensures b in g.ballots && g.ballots[b] == ballot
  {}

  lemma LogPartOk(h: History, n: NodeState)
    requires LogStateOk(h, n)
    ensures LogOk(h, n.log)
  {}

  lemma NotYetVoted(h: History, ids: set<Id>, n: NodeState, p: Phase)
    requires NodeOk(h, ids, n, p) && n.votedFor == ""
    ensures Slot(n.currentTerm, n.id) !in h.ballots
  {}

  lemma VotePartsUnaffected(h: History, ids: set<Id>, n: NodeState, n': NodeState, p: Phase)
    requires LogStateOk(h, n) && CommitOk(h, ids, n) && PhaseOk(h, ids, n, p)
    requires n' == n.(votedFor := n'.votedFor)
    ensures LogStateOk(h, n') && CommitOk(h, ids, n') && PhaseOk(h, ids, n', p)
  {
    hide LogOk, Committed;
    if p.Leading? && n.role == Leader {
      forall q | q in n'.peers ensures ReplicationOk(h, n', q) {
        assert ReplicationOk(h, n, q);
      }
    }
  }

  lemma AnswerVoteKeeps(s: System, m: Message, t: System)
    requires Enabled(s, AnswerVote(m))
    requires t == DoAnswerVote(s, m)
    requires Inv(s)
    ensures Inv(t)
  {
    hide Inv;
    MessageFacts(s, m);
    var n1 := Voter(s.nodes[m.dst], m.vote);
    var (n, r) := OnVoteRequest(s.nodes[m.dst], m.vote);
    if r.granted && n1.votedFor == "" {
      AnswerVoteNewly(s, m, t);
    } else {
      AnswerVoteQuietly(s, m, t);
    }
  }
}
