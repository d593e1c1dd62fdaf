/** What single steps do to what is already agreed: commits are permanent and inside the match with the
    sender, stale requests drop nothing, and a commit has met its entry's own bar. */
module RaftEffects {
  import opened RaftTypes
  import opened RaftSystem
  import opened RaftInvariant
  import opened RaftQuiet
  import opened RaftAppends
  import opened RaftSafety

  // ---------- commits, deliveries and votes are permanent ----------

  /** From `m` to `n` a node went back on nothing: not on its term, its vote in that term, its committed
      entries or its deliveries. */
  ghost predicate Advances(m: NodeState, n: NodeState) {
    && m.currentTerm <= n.currentTerm
    && (m.currentTerm == n.currentTerm && m.votedFor != "" ==> n.votedFor == m.votedFor)
    && -1 <= m.commitIndex <= n.commitIndex && m.commitIndex < |m.log|
    && m.log[..m.commitIndex + 1] <= n.log
    && m.applied <= n.applied
  }

  lemma AdvancesComposes(m: NodeState, n: NodeState, o: NodeState)
    requires Advances(m, n) && Advances(n, o)
    ensures Advances(m, o)
  {
    assert m.log[..m.commitIndex + 1] <= n.log[..n.commitIndex + 1];
  }

  lemma AcceptAdvances(n: NodeState, k: NodeState, l: Log, leaderCommit: int)
    requires Accepted(n, k, l, leaderCommit) && -1 <= n.commitIndex < |n.log|
    requires n.log[..n.commitIndex + 1] <= k.log
    ensures Advances(n, k) && k.applied == n.applied && k.commitIndex >= n.commitIndex
  {}

  lemma CommitInRange(h: History, ids: set<Id>, n: NodeState, p: Phase)
    requires NodeOk(h, ids, n, p)
    ensures -1 <= n.commitIndex < |n.log|
  {
    hide LogOk, Committed, PhaseOk, VoteOk;
  }

  /** The log only changes in an accepted append request or at the end of a leader's own log. */
  lemma AppendAdvances(s: System, m: Message, t: System)
    requires Feasible(s, AnswerAppend(m)) && t == DoAnswerAppend(s, m)
    requires Inv(s)
    ensures m.dst in t.nodes && Advances(s.nodes[m.dst], t.nodes[m.dst])
  {
    hide Inv, NodeOk, MemberOk, Committed, KeptByNode, AppendCallOk, LeaderPrefix, TermsBelow, LogOk, LogStateOk,
      VoteOk, PhaseOk, WithAck, CommitOk;
    var n := s.nodes[m.dst];
    MemberFacts(s, m.dst);
    NodeName(n, m.dst, s.ids);
    CommitInRange(s.history, s.ids, n, s.phases[m.dst]);
    if OnAppend(n, m.append).1.success {
      var l := LeaderPrefix(s.history, m.append.term, m.append.prevLogIndex + 1 + |m.append.entries|);
      CommitSurvivesAccept(s, m, JoinTerm(n, m.append), l);
      hide Accept;
      AcceptAdvances(JoinTerm(n, m.append), Accept(JoinTerm(n, m.append), m.append), l, m.append.leaderCommit);
    }
  }

  lemma HearAppendAdvances(s: System, m: Message, t: System)
    requires Feasible(s, HearAppend(m)) && t == DoHearAppend(s, m)
    requires Inv(s)
    ensures m.dst in t.nodes && Advances(s.nodes[m.dst], t.nodes[m.dst])
  {
    hide Inv, NodeOk, MemberOk, Committed, KeptByNode, LogStateOk, PhaseOk, VoteOk, MayCommit, CommitFrom;
    MemberFacts(s, m.dst);
    NodeName(s.nodes[m.dst], m.dst, s.ids);
    NodeParts(s.history, s.ids, s.nodes[m.dst], s.phases[m.dst]);
  }

  /** `Advances` for a step that neither commits nor rewrites the log. */
  ghost predicate Forward(m: NodeState, n: NodeState) {
    && m.currentTerm <= n.currentTerm
    && (m.currentTerm == n.currentTerm && m.votedFor != "" ==> n.votedFor == m.votedFor)
    && n.commitIndex == m.commitIndex && m.log <= n.log && m.applied <= n.applied
  }

  lemma AnswerVoteForward(s: System, m: Message, t: System)
    requires Feasible(s, AnswerVote(m)) && t == DoAnswerVote(s, m) && s.nodes[m.dst].id == m.dst
    ensures m.dst in t.nodes && Forward(s.nodes[m.dst], t.nodes[m.dst])
  {
    hide WithBallot, AtLeastAsUpToDate;
  }

  lemma OtherActionForward(s: System, a: Action, t: System)
    requires Feasible(s, a) && t == Do(s, a) && !a.AnswerAppend? && !a.HearAppend?
    requires s.nodes[ActorOf(a)].id == ActorOf(a)
    ensures ActorOf(a) in t.nodes && Forward(s.nodes[ActorOf(a)], t.nodes[ActorOf(a)])
  {
    hide WithLeader, WithAck, WithGrowth, WithBallot, AppendFor, AtLeastAsUpToDate, MinAcksInRange, Majority,
      DoAnswerAppend, DoHearAppend, DoAnswerVote, InRange;
    if a.AnswerVote? {
      AnswerVoteForward(s, a.msg, t);
    }
  }

  lemma OtherActionAdvances(s: System, a: Action, t: System)
    requires Feasible(s, a) && t == Do(s, a) && !a.AnswerAppend? && !a.HearAppend?
    requires Inv(s)
    ensures ActorOf(a) in t.nodes && Advances(s.nodes[ActorOf(a)], t.nodes[ActorOf(a)])
  {
    hide Inv, NodeOk, MemberOk, Committed, KeptByNode, LogStateOk, PhaseOk, VoteOk, InRange, Do;
    var v := ActorOf(a);
    MemberFacts(s, v);
    NodeName(s.nodes[v], v, s.ids);
    NodeParts(s.history, s.ids, s.nodes[v], s.phases[v]);
    OtherActionForward(s, a, t);
  }

  lemma NodeName(n: NodeState, v: Id, ids: set<Id>)
    requires MemberOk(n, v, ids)
    ensures n.id == v
  {}

  lemma OthersStay(s: System, a: Action, v: Id)
    requires Feasible(s, a) && v in s.nodes && v != ActorOf(a)
    requires Inv(s)
    ensures v in Do(s, a).nodes && Do(s, a).nodes[v] == s.nodes[v]
  {
    hide Inv, MemberOk, NodeOk, KeptByNode, InRange, WithLeader, WithAck, WithGrowth, WithBallot, AppendFor;
    MemberFacts(s, ActorOf(a));
    NodeName(s.nodes[ActorOf(a)], ActorOf(a), s.ids);
  }

  lemma StepAdvances(s: System, t: System, v: Id)
    requires Next(s, t) && v in s.nodes
    requires Inv(s)
    ensures v in t.nodes && Advances(s.nodes[v], t.nodes[v])
  {
    hide Inv, Feasible, NotGrownSince, Do, DoAnswerAppend, DoHearAppend, Advances;
    var a :| Enabled(s, a) && t == Do(s, a);
    if v != ActorOf(a) {
      OthersStay(s, a, v);
      NothingAdvances(s, v);
    } else if a.AnswerAppend? {
      AppendIsDone(s, a.msg);
      AppendAdvances(s, a.msg, t);
    } else if a.HearAppend? {
      HearAppendIsDone(s, a.msg);
      HearAppendAdvances(s, a.msg, t);
    } else {
      OtherActionAdvances(s, a, t);
    }
  }

  lemma AppendIsDone(s: System, m: Message)
    requires Feasible(s, AnswerAppend(m))
    ensures Do(s, AnswerAppend(m)) == DoAnswerAppend(s, m)
  {
    hide DoAnswerAppend;
  }

  lemma HearAppendIsDone(s: System, m: Message)
    requires Feasible(s, HearAppend(m))
    ensures Do(s, HearAppend(m)) == DoHearAppend(s, m)
  {
    hide DoHearAppend;
  }

  lemma NothingAdvances(s: System, v: Id)
    requires Inv(s) && v in s.nodes
    ensures Advances(s.nodes[v], s.nodes[v])
  {
    hide Inv, MemberOk, KeptByNode, LogStateOk, VoteOk, PhaseOk, Committed;
    MemberFacts(s, v);
  }

  /** Over any run a node never takes back a vote within a term, a committed entry or a delivery. */
  lemma {:induction false} NothingTakenBack(run: seq<System>, i: nat, j: nat, v: Id)
    requires IsRun(run) && i <= j < |run| && v in run[i].nodes
    ensures v in run[j].nodes && Advances(run[i].nodes[v], run[j].nodes[v])
    decreases j
  {
    hide Inv, Next, Init, Advances;
    if i == j {
      RunInv(run, i);
      NothingAdvances(run[i], v);
    } else {
      NothingTakenBack(run, i, j - 1, v);
      RunInv(run, j - 1);
      assert Next(run[j - 1], run[j - 1 + 1]);
      StepAdvances(run[j - 1], run[j], v);
      AdvancesComposes(run[i].nodes[v], run[j - 1].nodes[v], run[j].nodes[v]);
    }
  }

  // ---------- append requests in any order ----------

  /** Every append request ever sent carries a commit index inside what it ships. */
  lemma EveryRequestCommitsInside(run: seq<System>, i: nat, m: Message)
    requires IsRun(run) && i < |run| && m in run[i].net && m.AppendCall?
    ensures m.append.leaderCommit <= m.append.prevLogIndex + |m.append.entries|
  {
    RunInv(run, i);
    hide IsRun, Inv;
    ShippedCommitInside(run[i], m);
  }

  /** Taking an append request, however late, leaves a log that starts with everything the request describes, and
      the commit index inside the part that equals the sender's log. */
  lemma FollowerCommitInsideMatch(run: seq<System>, i: nat, m: Message)
    requires IsRun(run) && i < |run| && Feasible(run[i], AnswerAppend(m))
    requires OnAppend(run[i].nodes[m.dst], m.append).1.success
    ensures var n := OnAppend(run[i].nodes[m.dst], m.append).0;
            var sender := LeaderLogOf(run[i].history, m.append.term);
            && m.append.prevLogIndex + 1 + |m.append.entries| <= |n.log|
            && n.log[..m.append.prevLogIndex + 1 + |m.append.entries|] <= sender
            && -1 <= n.commitIndex < |n.log| && n.log[..n.commitIndex + 1] <= sender
  {
    RunInv(run, i);
    hide IsRun, Inv;
    CommitInsideMatchHere(run[i], m);
  }

  lemma CommitInsideMatchHere(s: System, m: Message)
    requires Feasible(s, AnswerAppend(m)) && OnAppend(s.nodes[m.dst], m.append).1.success
    requires Inv(s)
    ensures var n := OnAppend(s.nodes[m.dst], m.append).0;
            var sender := LeaderLogOf(s.history, m.append.term);
            && m.append.prevLogIndex + 1 + |m.append.entries| <= |n.log|
            && n.log[..m.append.prevLogIndex + 1 + |m.append.entries|] <= sender
            && -1 <= n.commitIndex < |n.log| && n.log[..n.commitIndex + 1] <= sender
  {
    hide Inv, Committed, NodeOk, MemberOk, KeptByNode, LogOk, TermsBelow, LeaderPrefix, LeaderOk, Accept, LeaderLogOf,
      Accepted, CommitOk;
    var n := JoinTerm(s.nodes[m.dst], m.append);
    var l := LeaderPrefix(s.history, m.append.term, m.append.prevLogIndex + 1 + |m.append.entries|);
    ShippedCommitInside(s, m);
    CommitSurvivesAccept(s, m, n, l);
    JoinedOk(s, m.dst, m.append);
    NodeParts(s.history, s.ids, n, s.phases[m.dst]);
    OwnCommitIsShared(s, m, n);
    InsideMatch(n, Accept(n, m.append), l, m.append.leaderCommit, LeaderLogOf(s.history, m.append.term));
  }

  lemma ShippedCommitInside(s: System, m: Message)
    requires Inv(s) && m in s.net && m.AppendCall?
    ensures -1 <= m.append.prevLogIndex && m.append.leaderCommit < m.append.prevLogIndex + 1 + |m.append.entries|
  {
    hide Inv, Committed, LeaderOk;
    RequestFacts(s, m);
  }

  lemma InsideMatch(n: NodeState, k: NodeState, l: Log, leaderCommit: int, sender: Log)
    requires Accepted(n, k, l, leaderCommit) && leaderCommit < |l| && l <= sender
    requires -1 <= n.commitIndex < |n.log| && n.log[..n.commitIndex + 1] <= sender
    requires n.log[..n.commitIndex + 1] <= k.log
    ensures |l| <= |k.log| && k.log[..|l|] <= sender
    ensures -1 <= k.commitIndex < |k.log| && k.log[..k.commitIndex + 1] <= sender
  {
    CommitInsideMatch(n, k, l, leaderCommit);
    assert k.log[..n.commitIndex + 1] == n.log[..n.commitIndex + 1];
  }

  /** A delayed or repeated request drops nothing that agrees with the sender: the log is left alone when it
      already starts with all the request describes, and otherwise becomes exactly what the request describes. */
  lemma StaleRequestDropsNothing(run: seq<System>, i: nat, m: Message, c: Log)
    requires IsRun(run) && i < |run| && Feasible(run[i], AnswerAppend(m))
    requires c <= run[i].nodes[m.dst].log && c <= LeaderLogOf(run[i].history, m.append.term)
    ensures c <= OnAppend(run[i].nodes[m.dst], m.append).0.log
    ensures |c| >= m.append.prevLogIndex + 1 + |m.append.entries| ==>
              OnAppend(run[i].nodes[m.dst], m.append).0.log == run[i].nodes[m.dst].log
  {
    RunInv(run, i);
    hide IsRun, Inv, OnAppend;
    StaleDropsNothingHere(run[i], m, c);
  }

  lemma StaleDropsNothingHere(s: System, m: Message, c: Log)
    requires Feasible(s, AnswerAppend(m))
    requires c <= s.nodes[m.dst].log && c <= LeaderLogOf(s.history, m.append.term)
    requires Inv(s)
    ensures c <= OnAppend(s.nodes[m.dst], m.append).0.log
    ensures |c| >= m.append.prevLogIndex + 1 + |m.append.entries| ==>
              OnAppend(s.nodes[m.dst], m.append).0.log == s.nodes[m.dst].log
  {
    hide Inv, Committed, NodeOk, MemberOk, KeptByNode, LogOk, TermsBelow, LeaderPrefix, LeaderOk, Accept,
      LeaderLogOf, CommitOk;
    var n := JoinTerm(s.nodes[m.dst], m.append);
    if OnAppend(s.nodes[m.dst], m.append).1.success {
      var l := LeaderPrefix(s.history, m.append.term, m.append.prevLogIndex + 1 + |m.append.entries|);
      CommitSurvivesAccept(s, m, n, l);
      MergeKeepsCommonPrefix(n.log, l, LeaderLogOf(s.history, m.append.term), c);
      assert OnAppend(s.nodes[m.dst], m.append).0 == Accept(n, m.append);
    }
  }

  // ---------- the per-entry bar ----------

  /** The node after its replication state has taken a successful reply, before commits are counted. */
  function Recorded(n: NodeState, m: Message): NodeState
    requires m.AppendAnswer?
  {
    if m.shipped > 0
    then n.(nextIndex := n.nextIndex[m.src := |n.log|], matchIndex := n.matchIndex[m.src := LastIndex(n.log)])
    else n
  }

  lemma RecordedFacts(s: System, m: Message)
    requires Enabled(s, HearAppend(m)) && s.nodes[m.dst].role == Leader && s.nodes[m.dst].currentTerm == m.askedTerm
    requires m.appendReply.success && m.appendReply.term <= m.askedTerm
    requires Inv(s)
    ensures var n := Recorded(s.nodes[m.dst], m);
            && MemberOk(n, n.id, s.ids) && n.id == m.dst && n.id in s.ids
            && NodeOk(s.history, s.ids, n, Leading(n.currentTerm))
            && n.currentTerm in s.history.leaders && LeaderOk(s.history, s.ids, n.currentTerm)
            && s.history.leaders[n.currentTerm].leader == n.id
  {
    hide Inv, NodeOk, LeaderOk, KeptByNode;
    var n := s.nodes[m.dst];
    MemberFacts(s, m.dst);
    MessageFacts(s, m);
    LeaderHears(s, m);
    if m.shipped > 0 {
      RecordedNodeOk(s.history, s.ids, n, m, |n.log|, LastIndex(n.log));
    }
    MemberSurvives(n, Recorded(n, m), m.dst, s.ids);
  }

  lemma HeldByCount(h: History, ids: set<Id>, n: NodeState, idx: nat)
    requires NodeOk(h, ids, n, Leading(n.currentTerm)) && n.role == Leader
    requires MemberOk(n, n.id, ids) && n.id in ids && n.currentTerm in h.leaders && LeaderOk(h, ids, n.currentTerm)
    requires h.leaders[n.currentTerm].leader == n.id
    requires idx < |n.log| && MayCommit(n, idx, n.currentTerm)
    ensures |Holders(h, ids, n.currentTerm, idx + 1)| >= MinAcksRequired(n, idx)
    ensures h.leaders[n.currentTerm].log == n.log
  {
    hide Committed, LogOk, BarsOk, TermsBelow, MemberOk, Holders;
    forall q | q in n.peers ensures ReplicationOk(h, n, q) {}
    CountedAreHolders(h, ids, n, idx);
  }

  /** A member that holds `k` entries of this term and is still in the term has them in its log now. */
  lemma HolderStillHas(s: System, t: int, k: nat, q: Id)
    requires q in Holders(s.history, s.ids, t, k) && t in s.history.leaders && k <= |s.history.leaders[t].log|
    requires q in s.nodes && s.nodes[q].currentTerm == t
    requires Inv(s)
    ensures s.history.leaders[t].log[..k] <= s.nodes[q].log
  {
    hide Inv, NodeOk;
    MemberFacts(s, q);
    assert Held(s.history, Slot(t, q), k);
    assert Kept(s.history, s.nodes[q].log, t, k, t + 1);
  }

  /** Every member that has held `p` in term `t` and is still in that term has it in its log. */
  ghost predicate HeldNow(s: System, t: int, p: Log) {
    forall q :: q in Holders(s.history, s.ids, t, |p|) && q in s.nodes && s.nodes[q].currentTerm == t ==>
      p <= s.nodes[q].log
  }

  lemma EveryHolderStillHas(s: System, n: NodeState, idx: nat)
    requires n.currentTerm in s.history.leaders && s.history.leaders[n.currentTerm].log == n.log && idx < |n.log|
    requires Inv(s)
    ensures HeldNow(s, n.currentTerm, n.log[..idx + 1])
  {
    hide Inv, Holders;
    forall q | q in Holders(s.history, s.ids, n.currentTerm, idx + 1) && q in s.nodes
      && s.nodes[q].currentTerm == n.currentTerm
      ensures n.log[..idx + 1] <= s.nodes[q].log
    {
      HolderStillHas(s, n.currentTerm, idx + 1, q);
    }
  }

  /** A leader only commits entries of its own term, one after the other, and each only once as many members
      as that entry asks for, all of them if it asks for none, have held the log through it; those still in the term
      hold it now. */
  lemma CommitMeetsBar(run: seq<System>, i: nat, m: Message, idx: nat)
    requires IsRun(run) && i < |run| && Enabled(run[i], HearAppend(m))
    requires var s := run[i];
             s.nodes[m.dst].commitIndex < idx <= DoHearAppend(s, m).nodes[m.dst].commitIndex
    ensures var s := run[i];
            var n := s.nodes[m.dst];
            && idx < |n.log| && n.log[idx].term == n.currentTerm
            && |Holders(s.history, s.ids, n.currentTerm, idx + 1)| >= n.log[idx].data.minAcks
            && (n.log[idx].data.minAcks <= 0 ==> Holders(s.history, s.ids, n.currentTerm, idx + 1) == s.ids)
            && HeldNow(s, n.currentTerm, n.log[..idx + 1])
  {
    RunInv(run, i);
    hide IsRun, Inv;
    BarMetHere(run[i], m, idx);
    var s := run[i];
    var n := s.nodes[m.dst];
    BarWrittenOut(s, n, m.dst, idx);
  }

  lemma BarWrittenOut(s: System, n: NodeState, v: Id, idx: nat)
    requires Inv(s) && v in s.nodes && n == s.nodes[v] && idx < |n.log|
    requires |Holders(s.history, s.ids, n.currentTerm, idx + 1)| >= MinAcksRequired(n, idx)
    ensures |Holders(s.history, s.ids, n.currentTerm, idx + 1)| >= n.log[idx].data.minAcks
    ensures n.log[idx].data.minAcks <= 0 ==> Holders(s.history, s.ids, n.currentTerm, idx + 1) == s.ids
  {
    hide Inv, NodeOk;
    MemberFacts(s, v);
    var held := Holders(s.history, s.ids, n.currentTerm, idx + 1);
    if n.log[idx].data.minAcks <= 0 {
      ClusterIsIds(n, v, s.ids);
      WholeSet(held, s.ids);
    }
  }

  lemma WholeSet(a: set<Id>, b: set<Id>)
    requires a <= b && |a| >= |b|
    ensures a == b
  {
    if a != b {
      SubsetSize(a, b - {Missing(a, b)});
    }
  }

  ghost function Missing(a: set<Id>, b: set<Id>): (x: Id)
    requires a <= b && a != b
    ensures x in b && x !in a
  {
    var x :| x in b && x !in a;
    x
  }

  lemma BarMetHere(s: System, m: Message, idx: nat)
    requires Enabled(s, HearAppend(m))
    requires s.nodes[m.dst].commitIndex < idx <= DoHearAppend(s, m).nodes[m.dst].commitIndex
    requires Inv(s)
    ensures var n := s.nodes[m.dst];
            && idx < |n.log| && n.log[idx].term == n.currentTerm
            && |Holders(s.history, s.ids, n.currentTerm, idx + 1)| >= MinAcksRequired(n, idx)
            && HeldNow(s, n.currentTerm, n.log[..idx + 1])
  {
    hide Inv, NodeOk, LeaderOk, KeptByNode, MemberOk, Committed, LogStateOk, VoteOk, PhaseOk, Holders, CommitFrom,
      MayCommit;
    var n := s.nodes[m.dst];
    MemberFacts(s, m.dst);
    NodeName(n, m.dst, s.ids);
    NodeParts(s.history, s.ids, n, s.phases[m.dst]);
    RecordedFacts(s, m);
    var r := Recorded(n, m);
    CommitFromStops(r, r.commitIndex, r.currentTerm);
    BarOfEntry(r, idx);
    HeldByCount(s.history, s.ids, r, idx);
    EveryHolderStillHas(s, n, idx);
  }

  lemma BarOfEntry(n: NodeState, idx: nat)
    requires idx < |n.log| && MayCommit(n, idx, n.currentTerm)
    ensures n.log[idx].term == n.currentTerm
  {}
}
