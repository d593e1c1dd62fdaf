/** A follower taking an append request keeps the invariant; log matching and the safety of what is
    already committed are used and re-established here. */
module RaftAppends {
  import opened RaftTypes
  import opened RaftSystem
  import opened RaftInvariant
  import opened RaftStep
  import opened RaftCompleteness
  import opened RaftQuiet
  import opened RaftLeaders

  /** Section 5.3, log matching: two logs with the same term at an index are equal up to it. */
  lemma LogMatching(h: History, a: Log, b: Log, i: nat)
    requires LogOk(h, a) && LogOk(h, b) && i < |a| && i < |b| && a[i].term == b[i].term
    ensures a[..i + 1] == b[..i + 1]
  {
    assert Anchored(h, a, i) && Anchored(h, b, i);
  }

  /** Taking the entries of `l` from index `at` on gives `l` itself, or leaves a log that already extends `l`. */
  lemma MergedIsPrefixOrWhole(h: History, log: Log, l: Log, at: nat)
    requires LogOk(h, log) && LogOk(h, l) && at <= |log| && at <= |l|
    requires at > 0 ==> log[at - 1].term == l[at - 1].term
    ensures Merged(log, at, l[at..]) == if l <= log then log else l
  {
    var entries := l[at..];
    var j := AgreeCount(log, at, entries);
    if at + j > 0 {
      if j > 0 {
        assert log[at + (j - 1)].term == entries[j - 1].term == l[at + j - 1].term;
      }
      LogMatching(h, log, l, at + j - 1);
    }
    assert log[..at + j] == l[..at + j];
    if j == |entries| {
      assert l[..at + j] == l;
    } else {
      assert l == l[..at + j] + entries[j..];
      assert at + j >= |log| || log[at + j].term != l[at + j].term;
    }
  }

  /** What both the old log and the shipped log begin with, the new log begins with. */
  lemma MergeKeepsCommonPrefix(log: Log, l: Log, big: Log, c: Log)
    requires c <= log && c <= big && l <= big
    ensures c <= if l <= log then log else l
  {
    assert |l| <= |c| ==> l <= c;
  }

  lemma PrefixLogOk(h: History, log: Log, k: nat)
    requires LogOk(h, log) && k <= |log|
    ensures LogOk(h, log[..k])
  {
    forall i: nat | i < k ensures Anchored(h, log[..k], i) {
      assert Anchored(h, log, i);
      assert log[..k][..i + 1] == log[..i + 1];
    }
  }

  lemma LeaderPrefixOk(h: History, ids: set<Id>, t: int, k: nat, l: Log)
    requires t in h.leaders && LeaderOk(h, ids, t) && k <= |h.leaders[t].log| && l == LeaderPrefix(h, t, k)
    ensures LogOk(h, l) && TermsBelow(l, t + 1)
  {
    PrefixLogOk(h, h.leaders[t].log, k);
    forall i | 0 <= i < k ensures l[i].term < t + 1 {
      LeaderTermsBounded(h, ids, t, i);
    }
  }

  lemma ShipsItsLog(h: History, ids: set<Id>, src: Id, dst: Id, a: AppendArgs, k: nat, l: Log)
    requires AppendCallOk(h, ids, src, dst, a)
    requires k == a.prevLogIndex + 1 + |a.entries| && l == LeaderPrefix(h, a.term, k)
    ensures a.term in h.leaders && k <= |h.leaders[a.term].log| && -1 <= a.prevLogIndex
    ensures ShipsSuffix(l, a)
  {
    hide Committed, ShipsSuffix, LeaderPrefix;
  }

  lemma MergedFromRequest(h: History, log: Log, a: AppendArgs, l: Log)
    requires LogOk(h, log) && LogOk(h, l) && ShipsSuffix(l, a)
    requires HasPrevious(log, a.prevLogIndex, a.prevLogTerm)
    ensures a.prevLogIndex < |log|
    ensures Merged(log, a.prevLogIndex + 1, a.entries) == if l <= log then log else l
  {
    hide LogOk, Merged;
    MergedIsPrefixOrWhole(h, log, l, a.prevLogIndex + 1);
  }

  /** The log after acceptance, told apart from the loop that builds it. */
  lemma AcceptedLog(h: History, ids: set<Id>, log: Log, a: AppendArgs, k: nat, l: Log, src: Id, dst: Id)
    requires AppendCallOk(h, ids, src, dst, a) && LeaderOk(h, ids, a.term)
    requires LogOk(h, log) && HasPrevious(log, a.prevLogIndex, a.prevLogTerm)
    requires k == a.prevLogIndex + 1 + |a.entries| && l == LeaderPrefix(h, a.term, k)
    ensures -1 <= a.prevLogIndex < |log|
    ensures Merged(log, a.prevLogIndex + 1, a.entries) == if l <= log then log else l
  {
    hide LeaderOk, LogOk, Merged, AppendCallOk, LeaderPrefix, TermsBelow, HasPrevious, ShipsSuffix;
    ShipsItsLog(h, ids, src, dst, a, k, l);
    LeaderPrefixOk(h, ids, a.term, k, l);
    MergedFromRequest(h, log, a, l);
  }

  // ---------- the follower joins the term ----------

  lemma NotLeadingOk(h: History, ids: set<Id>, n: NodeState, p: Phase)
    requires NodeOk(h, ids, n, p)
    ensures NodeOk(h, ids, n.(role := Follower), p)
  {
    hide LogOk, Committed;
  }

  lemma LeaderNameOk(h: History, ids: set<Id>, n: NodeState, p: Phase, leader: Id)
    requires NodeOk(h, ids, n, p) && n.role == Follower
    ensures NodeOk(h, ids, n.(leaderId := leader), p)
  {
    hide LogOk, Committed;
  }

  lemma JoinedOk(s: System, v: Id, a: AppendArgs)
    requires Inv(s) && v in s.nodes && v in s.phases && a.term >= s.nodes[v].currentTerm
    ensures NodeOk(s.history, s.ids, JoinTerm(s.nodes[v], a), s.phases[v])
    ensures MemberOk(JoinTerm(s.nodes[v], a), v, s.ids)
    ensures KeptByNode(s.history, JoinTerm(s.nodes[v], a))
  {
    hide Inv, NodeOk, MemberOk, KeptByNode;
    var h, n, p := s.history, s.nodes[v], s.phases[v];
    MemberFacts(s, v);
    if a.term > n.currentTerm {
      NoFutureBallot(s, v, a.term);
      StepDownOk(h, s.ids, n, p, a.term);
      LeaderNameOk(h, s.ids, StepDown(n, a.term), p, a.leader);
    } else {
      NotLeadingOk(h, s.ids, n, p);
      LeaderNameOk(h, s.ids, n.(role := Follower), p, a.leader);
    }
    MemberSurvives(n, JoinTerm(n, a), v, s.ids);
    KeptByNodeLater(h, n, JoinTerm(n, a));
  }

  // ---------- the follower accepts ----------

  /** The state after acceptance, with the shipped log `l` in place of the request. */
  ghost predicate Accepted(n: NodeState, m: NodeState, l: Log, leaderCommit: int) {
    && m == n.(log := m.log, commitIndex := m.commitIndex)
    && m.log == (if l <= n.log then n.log else l)
    && m.commitIndex == ClampCommit(n.commitIndex, leaderCommit, m.log)
  }

  lemma AcceptIsAccepted(h: History, ids: set<Id>, n: NodeState, a: AppendArgs, k: nat, l: Log, src: Id, dst: Id)
    requires AppendCallOk(h, ids, src, dst, a) && LeaderOk(h, ids, a.term)
    requires LogOk(h, n.log) && HasPrevious(n.log, a.prevLogIndex, a.prevLogTerm)
    requires k == a.prevLogIndex + 1 + |a.entries| && l == LeaderPrefix(h, a.term, k)
    ensures -1 <= a.prevLogIndex < |n.log| && Accepted(n, Accept(n, a), l, a.leaderCommit)
  {
    hide AppendCallOk, LeaderOk, LogOk, Merged, LeaderPrefix, ClampCommit, HasPrevious;
    AcceptedLog(h, ids, n.log, a, k, l, src, dst);
  }

  /** The follower's commit index stays inside what it shares with the sender: the clamp to its own
      log length never lets it past the shipped log. */
  lemma CommitInsideMatch(n: NodeState, m: NodeState, l: Log, leaderCommit: int)
    requires Accepted(n, m, l, leaderCommit) && leaderCommit < |l| && -1 <= n.commitIndex
    ensures l <= m.log
    ensures m.commitIndex == if leaderCommit > n.commitIndex then leaderCommit else n.commitIndex
    ensures m.commitIndex > n.commitIndex ==> m.log[..m.commitIndex + 1] == l[..m.commitIndex + 1]
  {}

  lemma AcceptedCommitOk(h: History, ids: set<Id>, n: NodeState, m: NodeState, l: Log, leaderCommit: int, big: Log)
    requires CommitOk(h, ids, n) && Accepted(n, m, l, leaderCommit) && leaderCommit < |l| && l <= big
    requires n.log[..n.commitIndex + 1] <= big
    requires leaderCommit >= 0 ==> Committed(h, ids, l[..leaderCommit + 1], n.currentTerm)
    ensures CommitOk(h, ids, m)
    ensures n.log[..n.commitIndex + 1] <= m.log
  {
    hide Committed;
    var c := n.log[..n.commitIndex + 1];
    MergeKeepsCommonPrefix(n.log, l, big, c);
    CommitInsideMatch(n, m, l, leaderCommit);
    assert m.log[..n.commitIndex + 1] == c;
    assert c[..n.lastApplied + 1] == n.log[..n.lastApplied + 1];
    assert m.log[..m.lastApplied + 1] == c[..n.lastApplied + 1];
  }

  lemma AckRecorded(h: History, g: History, a: Slot, k: nat)
    requires g == WithAck(h, a, k)
    ensures Extends(h, g, a.node) && a in g.acks && k <= g.acks[a]
    ensures g.ballots == h.ballots && g.leaders == h.leaders
    ensures forall x :: x in g.acks && x != a ==> x in h.acks && g.acks[x] == h.acks[x]
    ensures g.acks[a] == k || (a in h.acks && g.acks[a] == h.acks[a])
  {}

  lemma HistoryAfterAck(s: System, g: History, a: Slot, k: nat, term: int)
    requires Inv(s) && g == WithAck(s.history, a, k)
    requires a.term in s.history.leaders && s.history.leaders[a.term].leader != a.node
    requires k <= |s.history.leaders[a.term].log|
    requires a.node in s.nodes && a.term <= term && s.nodes[a.node].currentTerm <= term
    ensures NewHistoryOk(s.history, g, s.ids, a.node, term)
  {
    hide Inv, LeaderOk, BallotOk, Extends;
    AckRecorded(s.history, g, a, k);
    MemberNames(s, a.node);
    forall t | t in g.leaders && g.leaders[t].leader == a.node ensures LeaderOk(g, s.ids, t) {
      LeaderFact(s, t);
      OtherLeaderOk(s.history, g, s.ids, a.node, t);
    }
    forall x | x in g.acks && x.node == a.node ensures AckOk(g, s.ids, x) && x.term <= term {
      if x in s.history.acks {
        AckFact(s, x);
      }
    }
  }

  /** What a node held in an earlier term survives acceptance, or the sender started without it. */
  lemma KeptAcrossAccept(h: History, log: Log, log': Log, l: Log, big: Log, t: int, k: nat, u: int)
    requires Kept(h, log, t, k, u + 1) && t <= u && u in h.leaders
    requires h.leaders[u].log == big && h.leaders[u].base <= big && l <= big
    requires t == u ==> LeaderPrefix(h, t, k) <= big
    requires log' == if l <= log then log else l
    ensures Kept(h, log', t, k, u + 1)
  {
    var q := LeaderPrefix(h, t, k);
    if q <= log {
      if t < u && !(q <= h.leaders[u].base) {
        assert Skips(h, u, t, k);
      } else {
        MergeKeepsCommonPrefix(log, l, big, q);
      }
    }
  }

  lemma KeptAfterAccept(s: System, n: NodeState, m: NodeState, l: Log, leaderCommit: int, g: History)
    requires Inv(s) && n.id in s.nodes && KeptByNode(s.history, n) && Accepted(n, m, l, leaderCommit)
    requires n.currentTerm in s.history.leaders && |l| <= |s.history.leaders[n.currentTerm].log|
    requires l == LeaderPrefix(s.history, n.currentTerm, |l|)
    requires g == WithAck(s.history, Slot(n.currentTerm, n.id), |l|) && s.nodes[n.id].currentTerm <= n.currentTerm
    ensures KeptByNode(g, m)
  {
    hide Inv, Kept, Extends;
    var h, u := s.history, n.currentTerm;
    var own := Slot(u, n.id);
    var big := h.leaders[u].log;
    AckRecorded(h, g, own, |l|);
    BaseWithinLog(s, u);
    forall a: Slot, k: nat | Held(g, a, k) && a.node == m.id
      ensures Kept(g, m.log, a.term, k, m.currentTerm + 1)
    {
      if Held(h, a, k) {
        AckFact(s, a);
        MemberNames(s, n.id);
        KeptAcrossAccept(h, n.log, m.log, l, big, a.term, k, u);
      } else {
        assert a == own && k <= |l|;
        HeldNowKept(h, m.log, l, u, k);
      }
      KeptSame(h, g, m.log, a.term, k, m.currentTerm + 1);
    }
  }

  lemma HeldNowKept(h: History, log: Log, l: Log, u: int, k: nat)
    requires u in h.leaders && k <= |l| <= |h.leaders[u].log| && l == LeaderPrefix(h, u, |l|) && l <= log
    ensures Kept(h, log, u, k, u + 1)
  {
    assert LeaderPrefix(h, u, k) == l[..k];
  }

  lemma BallotsKeptAfterAck(s: System, g: History, a: Slot, n: nat, b: Slot)
    requires Inv(s) && g == WithAck(s.history, a, n) && b in g.ballots && b.node == a.node
    requires a.node in s.nodes && s.nodes[a.node].currentTerm <= a.term
    ensures KeptByBallot(g, b)
  {
    hide Inv, Kept, Extends, BallotOk;
    var h := s.history;
    AckRecorded(h, g, a, n);
    MemberNames(s, a.node);
    BallotFacts(s, b);
    if Relevant(g, b) {
      assert Relevant(h, b);
      forall x: Slot, k: nat | Held(g, x, k) && x.node == b.node && x.term < b.term
        ensures Kept(g, g.ballots[b].log, x.term, k, b.term)
      {
        assert Held(h, x, k);
        KeptSame(h, g, h.ballots[b].log, x.term, k, b.term);
      }
    }
  }

  lemma AcceptedNodeOk(h: History, g: History, ids: set<Id>, n: NodeState, m: NodeState, p: Phase)
    requires NodeOk(h, ids, n, p) && n.role == Follower && m == n.(log := m.log, commitIndex := m.commitIndex)
    requires LogOk(h, m.log) && TermsBelow(m.log, m.currentTerm + 1) && CommitOk(h, ids, m)
    requires Extends(h, g, m.id) && g.ballots == h.ballots && g.leaders == h.leaders
    ensures NodeOk(g, ids, m, p)
  {
    LogOkGrows(h, g, m.log);
    CommittedGrows(h, g, ids, m.log[..m.commitIndex + 1], m.currentTerm, m.currentTerm);
    hide LogOk, Committed, Extends;
  }

  /** Everything about the request and the joined follower that acceptance builds on. */
  ghost predicate Ready(s: System, m: Message, n: NodeState) {
    && m in s.net && m.AppendCall? && m.dst in s.nodes && m.dst in s.phases
    && m.append.term >= s.nodes[m.dst].currentTerm
    && n == JoinTerm(s.nodes[m.dst], m.append)
    && m.append.prevLogIndex >= -1
    && HasPrevious(n.log, m.append.prevLogIndex, m.append.prevLogTerm)
  }

  lemma RequestFacts(s: System, m: Message)
    requires Inv(s) && m in s.net && m.AppendCall?
    ensures AppendCallOk(s.history, s.ids, m.src, m.dst, m.append) && m.src in s.ids && m.src != m.dst
    ensures m.append.term in s.history.leaders && LeaderOk(s.history, s.ids, m.append.term)
    ensures s.history.leaders[m.append.term].leader == m.src == m.append.leader
  {
    MessageFacts(s, m);
    AllLeadersOk(s);
  }

  lemma ShippedFacts(h: History, ids: set<Id>, src: Id, dst: Id, a: AppendArgs)
    requires AppendCallOk(h, ids, src, dst, a) && LeaderOk(h, ids, a.term)
    ensures var l := LeaderPrefix(h, a.term, a.prevLogIndex + 1 + |a.entries|);
            && |l| == a.prevLogIndex + 1 + |a.entries| && l <= h.leaders[a.term].log
            && LogOk(h, l) && TermsBelow(l, a.term + 1) && a.leaderCommit < |l|
            && (a.leaderCommit >= 0 ==> Committed(h, ids, l[..a.leaderCommit + 1], a.term))
  {
    var l := LeaderPrefix(h, a.term, a.prevLogIndex + 1 + |a.entries|);
    LeaderPrefixOk(h, ids, a.term, |l|, l);
    assert a.leaderCommit >= 0 ==> l[..a.leaderCommit + 1] == LeaderPrefix(h, a.term, a.leaderCommit + 1);
  }

  /** The commit prefix of the joined follower is in the log the request was cut from. */
  lemma OwnCommitIsShared(s: System, m: Message, n: NodeState)
    requires Inv(s) && Ready(s, m, n) && CommitOk(s.history, s.ids, n)
    ensures n.log[..n.commitIndex + 1] <= LeaderLogOf(s.history, m.append.term)
  {
    hide Inv, Committed;
    RequestFacts(s, m);
    CommittedInLaterLeaders(s, n.log[..n.commitIndex + 1], n.currentTerm, m.append.term);
  }

  ghost function LeaderLogOf(h: History, t: int): Log {
    if t in h.leaders then h.leaders[t].log else []
  }

  lemma CommitSurvivesAccept(s: System, m: Message, n: NodeState, l: Log)
    requires Inv(s) && Ready(s, m, n)
    requires l == LeaderPrefix(s.history, m.append.term, m.append.prevLogIndex + 1 + |m.append.entries|)
    ensures |l| == m.append.prevLogIndex + 1 + |m.append.entries| && l <= LeaderLogOf(s.history, m.append.term)
    ensures Accepted(n, Accept(n, m.append), l, m.append.leaderCommit)
    ensures CommitOk(s.history, s.ids, Accept(n, m.append))
    ensures -1 <= n.commitIndex < |n.log| && n.log[..n.commitIndex + 1] <= Accept(n, m.append).log
    ensures LogOk(s.history, Accept(n, m.append).log) && TermsBelow(Accept(n, m.append).log, n.currentTerm + 1)
  {
    hide Inv, NodeOk, MemberOk, LeaderOk, KeptByNode, AppendCallOk, Committed, Accept, LogOk, TermsBelow, LeaderPrefix;
    var h, a := s.history, m.append;
    RequestFacts(s, m);
    JoinedOk(s, m.dst, a);
    NodeParts(h, s.ids, n, s.phases[m.dst]);
    ShippedFacts(h, s.ids, m.src, m.dst, a);
    AcceptIsAccepted(h, s.ids, n, a, |l|, l, m.src, m.dst);
    OwnCommitIsShared(s, m, n);
    AcceptedCommitOk(h, s.ids, n, Accept(n, a), l, a.leaderCommit, LeaderLogOf(h, a.term));
  }

  lemma AnswerEntersNoLoop(s: System, m: Message, n: NodeState, answer: Message)
    requires Inv(s) && m in s.net && m.AppendCall? && m.src != m.dst && n.id == m.dst && n.role == Follower
    requires m.dst in s.phases
    requires answer.AppendAnswer? && answer.dst == m.src && answer.askedTerm == m.append.term
    ensures LoopEntered(n, s.phases[m.dst], answer)
    ensures forall w :: w in s.ids && w != n.id ==> LoopEntered(s.nodes[w], s.phases[w], answer)
  {
    hide NodesOk, HistoryOk, NetOk, Survival;
    forall w | w in s.ids && w != n.id ensures LoopEntered(s.nodes[w], s.phases[w], answer) {
      assert LoopEntered(s.nodes[w], s.phases[w], m);
    }
  }

  lemma SurvivalAfterAccept(s: System, n: NodeState, m: NodeState, l: Log, leaderCommit: int, g: History)
    requires Inv(s) && n.id in s.nodes && KeptByNode(s.history, n) && Accepted(n, m, l, leaderCommit)
    requires n.currentTerm in s.history.leaders && |l| <= |s.history.leaders[n.currentTerm].log|
    requires l == LeaderPrefix(s.history, n.currentTerm, |l|)
    requires g == WithAck(s.history, Slot(n.currentTerm, n.id), |l|) && s.nodes[n.id].currentTerm <= n.currentTerm
    ensures NewSurvival(g, m)
  {
    hide Inv, KeptByNode, KeptByBallot, WithAck, LeaderPrefix;
    KeptAfterAccept(s, n, m, l, leaderCommit, g);
    forall b | b in g.ballots && b.node == n.id ensures KeptByBallot(g, b) {
      BallotsKeptAfterAck(s, g, Slot(n.currentTerm, n.id), |l|, b);
    }
  }

  lemma AcceptIsDone(s: System, m: Message, n: NodeState, answer: Message)
    requires Enabled(s, AnswerAppend(m)) && Ready(s, m, n)
    requires answer == AppendAnswer(m.dst, m.src, m.append.term, m.append.prevLogIndex + 1 + |m.append.entries|,
                                    |m.append.entries|, AppendReply(n.currentTerm, true))
    ensures DoAnswerAppend(s, m) == Update(s, Accept(n, m.append), s.phases[m.dst], {answer},
              WithAck(s.history, Slot(m.append.term, m.dst), m.append.prevLogIndex + 1 + |m.append.entries|))
  {
    hide Accept, WithAck, Update;
  }

  lemma ReadyFacts(s: System, m: Message, n: NodeState)
    requires Ready(s, m, n)
    ensures m.dst in s.nodes && m.dst in s.phases && m.append.term >= s.nodes[m.dst].currentTerm
    ensures n == JoinTerm(s.nodes[m.dst], m.append) && n.role == Follower && n.currentTerm == m.append.term
    ensures n.id == s.nodes[m.dst].id && -1 <= m.append.prevLogIndex < |n.log|
  {}

  lemma AcceptKeeps(s: System, m: Message, n: NodeState, t: System)
    requires Enabled(s, AnswerAppend(m)) && Ready(s, m, n)
    requires t == DoAnswerAppend(s, m)
    requires Inv(s)
    ensures Inv(t)
  {
    hide Inv, NodeOk, MemberOk, LeaderOk, KeptByNode, AppendCallOk, NewHistoryOk, NewSurvival, LoopEntered, CommitOk,
      LogOk, TermsBelow, MessageOk, Extends, Ready, JoinTerm, Accept, WithAck, LeaderPrefix, Update;
    var h, a, v := s.history, m.append, m.dst;
    var l := LeaderPrefix(h, a.term, a.prevLogIndex + 1 + |a.entries|);
    ReadyFacts(s, m, n);
    var k := Accept(n, a);
    RequestFacts(s, m);
    MemberFacts(s, v);
    JoinedOk(s, v, a);
    CommitSurvivesAccept(s, m, n, l);
    var own := Slot(a.term, v);
    var g := WithAck(h, own, |l|);
    AckRecorded(h, g, own, |l|);
    AcceptedNodeOk(h, g, s.ids, n, k, s.phases[v]);
    HistoryAfterAck(s, g, own, |l|, a.term);
    SurvivalAfterAccept(s, n, k, l, a.leaderCommit, g);
    MemberSurvives(n, k, v, s.ids);
    LoopsKept(s, k, s.phases[v]);
    var answer := AppendAnswer(v, m.src, a.term, |l|, |a.entries|, AppendReply(n.currentTerm, true));
    AnswerEntersNoLoop(s, m, k, answer);
    assert MessageOk(g, s.ids, answer) by { AppendAnswerOk(g, s.ids, answer); }
    AcceptIsDone(s, m, n, answer);
    StepKeepsInv(s, k, s.phases[v], {answer}, g);
  }

  lemma AppendAnswerOk(h: History, ids: set<Id>, m: Message)
    requires m.AppendAnswer? && m.src in ids && m.src != m.dst
    requires m.askedTerm in h.leaders && h.leaders[m.askedTerm].leader == m.dst
    requires m.appendReply.success ==> Slot(m.askedTerm, m.src) in h.acks && m.sent <= h.acks[Slot(m.askedTerm, m.src)]
    ensures MessageOk(h, ids, m)
  {}

  /** A refusal changes at most the term, the role and the known leader. */
  lemma RefuseKeeps(s: System, m: Message, t: System)
    requires Enabled(s, AnswerAppend(m))
    requires !OnAppend(s.nodes[m.dst], m.append).1.success
    requires t == DoAnswerAppend(s, m)
    requires Inv(s)
    ensures Inv(t)
  {
    hide Inv;
    var n0, a := s.nodes[m.dst], m.append;
    var n := OnAppend(n0, a).0;
    var answer := AppendAnswer(m.dst, m.src, a.term, a.prevLogIndex + 1 + |a.entries|, |a.entries|, OnAppend(n0, a).1);
    assert n == if a.term < n0.currentTerm then n0 else JoinTerm(n0, a);
    hide OnAppend;
    RefuseStep(s, m, n, answer);
  }

  lemma RefuseStep(s: System, m: Message, n: NodeState, answer: Message)
    requires Inv(s) && m in s.net && m.AppendCall? && m.dst in s.nodes && m.dst in s.phases
    requires answer.AppendAnswer? && answer.src == m.dst && answer.dst == m.src && answer.askedTerm == m.append.term
    requires !answer.appendReply.success
    requires n == if m.append.term < s.nodes[m.dst].currentTerm then s.nodes[m.dst]
        else JoinTerm(s.nodes[m.dst], m.append)
    ensures Inv(Update(s, n, s.phases[m.dst], {answer}, s.history))
  {
    hide Inv, NodeOk, MemberOk, LeaderOk, KeptByNode, AppendCallOk, LoopEntered, MessageOk, Update;
    var v, a := m.dst, m.append;
    RequestFacts(s, m);
    MemberFacts(s, v);
    AppendAnswerOk(s.history, s.ids, answer);
    LoopsKept(s, n, s.phases[v]);
    if a.term < s.nodes[v].currentTerm {
      StaleAnswerEntersNoLoop(s, m, answer);
    } else {
      JoinedOk(s, v, a);
      AnswerEntersNoLoop(s, m, n, answer);
    }
    QuietStep(s, n, s.phases[v], {answer});
  }

  lemma StaleAnswerEntersNoLoop(s: System, m: Message, answer: Message)
    requires Inv(s) && m in s.net && m.AppendCall? && m.src != m.dst && m.dst in s.nodes
    requires answer.AppendAnswer? && answer.dst == m.src && answer.askedTerm == m.append.term
    ensures forall w :: w in s.ids ==> LoopEntered(s.nodes[w], s.phases[w], answer)
  {
    hide NodesOk, HistoryOk, NetOk, Survival;
    forall w | w in s.ids ensures LoopEntered(s.nodes[w], s.phases[w], answer) {
      assert LoopEntered(s.nodes[w], s.phases[w], m);
    }
  }

  lemma AnswerAppendKeeps(s: System, m: Message, t: System)
    requires Enabled(s, AnswerAppend(m))
    requires t == DoAnswerAppend(s, m)
    requires Inv(s)
    ensures Inv(t)
  {
    hide Inv;
    if OnAppend(s.nodes[m.dst], m.append).1.success {
      AcceptKeeps(s, m, JoinTerm(s.nodes[m.dst], m.append), t);
    } else {
      RefuseKeeps(s, m, t);
    }
  }
}
