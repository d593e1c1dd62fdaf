/** The safety theorems, over every run of the system. */
module RaftSafety {
  import opened RaftTypes
  import opened RaftSystem
  import opened RaftInvariant
  import opened RaftCompleteness
  import opened RaftQuiet
  import opened RaftBallots
  import opened RaftLeaders
  import opened RaftAppends

  // ---------- the invariant holds along every run ----------

  lemma InitInv(s: System)
    requires Init(s)
    ensures Inv(s)
  {
    forall v | v in s.ids ensures NodeOk(s.history, s.ids, s.nodes[v], s.phases[v]) {
      assert FreshNode(s.nodes[v], v, s.ids);
    }
  }

  lemma ActionKeepsInv(s: System, a: Action, t: System)
    requires Enabled(s, a) && t == Do(s, a)
    requires Inv(s)
    ensures Inv(t)
  {
    hide Inv, Feasible, Possible, InRange, NotGrownSince, DoWin, DoPropose, DoCampaign, DoAnswerVote, DoAnswerAppend,
      DoDispatch, DoTimeOut, DoHearVote, DoCountVote, DoAbandon, DoBeginLead, DoEndLead,
      DoSend, DoHearAppend, DoDeliver;
    match a
    case Dispatch(v) => DispatchKeeps(s, v, t);
    case TimeOut(v) => TimeOutKeeps(s, v, t);
    case Campaign(v) => CampaignKeeps(s, v, t);
    case AnswerVote(m) => AnswerVoteKeeps(s, m, t);
    case HearVote(m) => HearVoteKeeps(s, m, t);
    case CountVote(m) => CountVoteKeeps(s, m, t);
    case Win(v) => WinKeeps(s, v, t);
    case Abandon(v) => AbandonKeeps(s, v, t);
    case BeginLead(v) => BeginLeadKeeps(s, v, t);
    case EndLead(v) => EndLeadKeeps(s, v, t);
    case Send(v, peer) => SendKeeps(s, v, peer, t);
    case AnswerAppend(m) => AnswerAppendKeeps(s, m, t);
    case HearAppend(m) => HearAppendKeeps(s, m, t);
    case Propose(v, data) => ProposeKeeps(s, v, data, t);
    case Deliver(v) => DeliverKeeps(s, v, t);
  }

  lemma StepKeeps(s: System, t: System)
    requires Next(s, t)
    requires Inv(s)
    ensures Inv(t)
  {
    hide Inv, Feasible, NotGrownSince, Do;
    var a :| Enabled(s, a) && t == Do(s, a);
    ActionKeepsInv(s, a, t);
  }

  /** The invariant holds in every state of every run. */
  lemma {:induction false} RunInv(run: seq<System>, i: nat)
    requires IsRun(run) && i < |run|
    ensures Inv(run[i])
  {
    if i == 0 {
      InitInv(run[0]);
    } else {
      RunInv(run, i - 1);
      hide Inv, Next, Init;
      assert Next(run[i - 1], run[i - 1 + 1]);
      StepKeeps(run[i - 1], run[i]);
    }
  }

  // ---------- nothing is taken back ----------

  lemma BallotGrows(h: History, b: Slot, ballot: Ballot)
    ensures Grows(h, WithBallot(h, b, ballot))
  {}

  lemma WinGrows(s: System, v: Id, t: System)
    requires Feasible(s, Win(v)) && t == DoWin(s, v)
    requires Inv(s)
    ensures Grows(s.history, t.history)
  {
    hide Inv, Elected, WithLeader, NodeOk, MemberOk, LeaderOk, Majority;
    if MayPromote(s.nodes[v], s.phases[v].term) {
      var n := s.nodes[v].(role := Leader);
      var voters := s.phases[v].granted + {v};
      WinnerStateOk(s, v, n, voters, WithLeader(s.history, n, voters));
      ElectionExtends(s.history, WithLeader(s.history, n, voters), n, voters);
    }
  }

  lemma ProposeGrows(s: System, v: Id, data: Data, t: System)
    requires Feasible(s, Propose(v, data)) && t == DoPropose(s, v, data)
    requires Inv(s)
    ensures Grows(s.history, t.history)
  {
    hide Inv, NodeOk, MemberOk, LeaderOk, Grown, LogStateOk;
    var m := s.nodes[v];
    var (n, err) := OnPropose(m, data);
    if err.None? {
      MemberFacts(s, v);
      LeaderOwnsTerm(s.history, s.ids, m, s.phases[v]);
      LeaderFact(s, m.currentTerm);
      OwnAckIsWholeLog(s.history, s.ids, m.currentTerm);
      GrownByProposal(s.history, n);
      GrowthExtends(s.history, WithGrowth(s.history, n), n);
    }
  }

  lemma CampaignGrows(s: System, v: Id)
    requires Feasible(s, Campaign(v))
    ensures Grows(s.history, DoCampaign(s, v).history)
  {
    var n := OnCampaign(s.nodes[v]).0;
    BallotGrows(s.history, Slot(n.currentTerm, v), Ballot(v, n.log));
  }

  lemma AnswerVoteGrows(s: System, m: Message)
    requires Feasible(s, AnswerVote(m))
    ensures Grows(s.history, DoAnswerVote(s, m).history)
  {
    var n := OnVoteRequest(s.nodes[m.dst], m.vote).0;
    BallotGrows(s.history, Slot(n.currentTerm, m.dst), Ballot(m.vote.candidate, n.log));
  }

  lemma AnswerAppendGrows(s: System, m: Message)
    requires Feasible(s, AnswerAppend(m))
    ensures Grows(s.history, DoAnswerAppend(s, m).history)
  {
    hide WithAck, OnAppend;
    AckGrows(s.history, Slot(m.append.term, m.dst), m.append.prevLogIndex + 1 + |m.append.entries|);
    NoChangeGrows(s.history);
  }

  lemma ActionGrows(s: System, a: Action, t: System)
    requires Enabled(s, a) && t == Do(s, a)
    requires Inv(s)
    ensures Grows(s.history, t.history)
  {
    hide Inv, Feasible, Possible, InRange, NotGrownSince, Grows, DoWin, DoPropose, DoCampaign, DoAnswerVote,
      DoAnswerAppend;
    NoChangeGrows(s.history);
    match a
    case Win(v) => WinGrows(s, v, t);
    case Propose(v, data) => ProposeGrows(s, v, data, t);
    case Campaign(v) => CampaignGrows(s, v);
    case AnswerVote(m) => AnswerVoteGrows(s, m);
    case AnswerAppend(m) => AnswerAppendGrows(s, m);
    case _ =>
  }

  lemma NoChangeGrows(h: History)
    ensures Grows(h, h)
  {}

  lemma AckGrows(h: History, a: Slot, k: nat)
    ensures Grows(h, WithAck(h, a, k))
  {}

  lemma GrowthComposes(f: History, g: History, h: History)
    requires Grows(f, g) && Grows(g, h)
    ensures Grows(f, h)
  {
    forall t | t in f.leaders ensures SameLeadership(f, h, t) {
      assert SameLeadership(f, g, t) && SameLeadership(g, h, t);
    }
  }

  lemma StepGrows(s: System, t: System)
    requires Next(s, t)
    requires Inv(s)
    ensures Grows(s.history, t.history) && t.ids == s.ids
  {
    hide Inv, Grows, Feasible, NotGrownSince, Do;
    var a :| Enabled(s, a) && t == Do(s, a);
    ActionGrows(s, a, t);
    SameIds(s, a, t);
  }

  lemma {:induction false} RunGrows(run: seq<System>, i: nat, j: nat)
    requires IsRun(run) && i <= j < |run|
    ensures Grows(run[i].history, run[j].history) && run[j].ids == run[i].ids
    decreases j
  {
    hide Inv, Next, Grows, Init;
    if i == j {
      NoChangeGrows(run[i].history);
    } else {
      RunGrows(run, i, j - 1);
      RunInv(run, j - 1);
      assert Next(run[j - 1], run[j - 1 + 1]);
      StepGrows(run[j - 1], run[j]);
      GrowthComposes(run[i].history, run[j - 1].history, run[j].history);
    }
  }

  lemma SameIds(s: System, a: Action, t: System)
    requires Enabled(s, a) && t == Do(s, a)
    ensures t.ids == s.ids
  {}

  // ---------- what one state shows of a node ----------

  /** `n` is, or once was, the state of node `v` in a run whose history is now `h`. */
  ghost predicate Witnessed(h: History, ids: set<Id>, n: NodeState, v: Id) {
    && LogOk(h, n.log)
    && -1 <= n.lastApplied <= n.commitIndex < |n.log|
    && n.applied == n.log[..n.lastApplied + 1]
    && Committed(h, ids, n.log[..n.commitIndex + 1], n.currentTerm)
    && (n.role == Leader ==> Led(h, n, v))
  }

  /** `n.log` lies between what its term's leader, `v`, started with and what that leader's log has become. */
  ghost predicate Led(h: History, n: NodeState, v: Id) {
    && n.currentTerm in h.leaders && h.leaders[n.currentTerm].leader == v
    && h.leaders[n.currentTerm].base <= n.log <= h.leaders[n.currentTerm].log
  }

  lemma NodeFacts(s: System, v: Id)
    requires v in s.nodes
    requires Inv(s)
    ensures Witnessed(s.history, s.ids, s.nodes[v], v)
  {
    hide Inv, MemberOk, LogOk, Committed, LeaderOk, KeptByNode;
    MemberFacts(s, v);
    if s.nodes[v].role == Leader {
      LeaderOwnsTerm(s.history, s.ids, s.nodes[v], s.phases[v]);
      BaseWithinLog(s, s.nodes[v].currentTerm);
    }
  }

  lemma WitnessedGrows(h: History, g: History, ids: set<Id>, n: NodeState, v: Id)
    requires Grows(h, g) && Witnessed(h, ids, n, v)
    ensures Witnessed(g, ids, n, v)
  {
    LogOkGrows(h, g, n.log);
    CommittedGrows(h, g, ids, n.log[..n.commitIndex + 1], n.currentTerm, n.currentTerm);
    if n.role == Leader {
      assert SameLeadership(h, g, n.currentTerm);
    }
  }

  /** A state of the run seen from a later one: the earlier node's facts still hold under the later history. */
  lemma EarlierFacts(run: seq<System>, i: nat, j: nat, v: Id)
    requires IsRun(run) && i <= j < |run| && v in run[i].nodes
    ensures Inv(run[j]) && Witnessed(run[j].history, run[j].ids, run[i].nodes[v], v)
  {
    hide IsRun, Inv, Witnessed, Grows;
    RunInv(run, i);
    RunInv(run, j);
    RunGrows(run, i, j);
    NodeFacts(run[i], v);
    WitnessedGrows(run[i].history, run[j].history, run[i].ids, run[i].nodes[v], v);
  }

  // ---------- the theorems ----------

  /** Election safety (section 5.2): over a whole run, a term has at most one leader. */
  lemma ElectionSafety(run: seq<System>, i: nat, j: nat, a: Id, b: Id)
    requires IsRun(run) && i <= j < |run| && a in run[i].nodes && b in run[j].nodes
    requires run[i].nodes[a].role == Leader && run[j].nodes[b].role == Leader
    requires run[i].nodes[a].currentTerm == run[j].nodes[b].currentTerm
    ensures a == b
  {
    hide IsRun, Inv, LogOk, Committed;
    EarlierFacts(run, i, j, a);
    EarlierFacts(run, j, j, b);
  }

  /** Log matching (section 5.3): logs held anywhere, at any two moments of a run, that have an entry of the
      same term at the same index are equal up to and including it. */
  lemma LogMatchingOverRun(run: seq<System>, i: nat, j: nat, a: Id, b: Id, x: nat)
    requires IsRun(run) && i <= j < |run| && a in run[i].nodes && b in run[j].nodes
    requires x < |run[i].nodes[a].log| && x < |run[j].nodes[b].log|
    requires run[i].nodes[a].log[x].term == run[j].nodes[b].log[x].term
    ensures run[i].nodes[a].log[..x + 1] == run[j].nodes[b].log[..x + 1]
  {
    hide IsRun, Inv, LogOk, Committed;
    EarlierFacts(run, i, j, a);
    EarlierFacts(run, j, j, b);
    LogMatching(run[j].history, run[i].nodes[a].log, run[j].nodes[b].log, x);
  }

  lemma CommittedInLaterBases(s: System, p: Log, hi: int, u: int)
    requires Inv(s) && Committed(s.history, s.ids, p, hi) && hi < u && u in s.history.leaders
    ensures p <= s.history.leaders[u].base
  {
    hide Inv;
    if p != [] {
      var t, k: nat :| t <= hi && Chosen(s.history, s.ids, t, k) && p <= LeaderPrefix(s.history, t, k);
      LeaderCompleteness(s, t, k, u);
    }
  }

  /** Leader completeness (section 5.4): what a node counts as committed in its term is in the log of every
      leader of a later term, whichever of the two moments comes first. */
  lemma LeaderCompletenessOverRun(run: seq<System>, i: nat, j: nat, a: Id, b: Id)
    requires IsRun(run) && i < |run| && j < |run| && a in run[i].nodes && b in run[j].nodes
    requires run[j].nodes[b].role == Leader && run[i].nodes[a].currentTerm < run[j].nodes[b].currentTerm
    ensures 0 <= run[i].nodes[a].commitIndex + 1 <= |run[i].nodes[a].log|
    ensures run[i].nodes[a].log[..run[i].nodes[a].commitIndex + 1] <= run[j].nodes[b].log
  {
    hide IsRun, Inv, LogOk, Committed;
    var k := if i <= j then j else i;
    EarlierFacts(run, i, k, a);
    EarlierFacts(run, j, k, b);
    var n := run[i].nodes[a];
    CommittedInLaterBases(run[k], n.log[..n.commitIndex + 1], n.currentTerm, run[j].nodes[b].currentTerm);
  }

  /** State machine safety (section 5.4.3): what two nodes have delivered, at any two moments of a run,
      are prefixes of one another. */
  lemma StateMachineSafety(run: seq<System>, i: nat, j: nat, a: Id, b: Id)
    requires IsRun(run) && i <= j < |run| && a in run[i].nodes && b in run[j].nodes
    ensures run[i].nodes[a].applied <= run[j].nodes[b].applied || run[j].nodes[b].applied <= run[i].nodes[a].applied
  {
    hide IsRun, Inv, LogOk, Committed;
    EarlierFacts(run, i, j, a);
    EarlierFacts(run, j, j, b);
    var m, n := run[i].nodes[a], run[j].nodes[b];
    var p, q := m.log[..m.commitIndex + 1], n.log[..n.commitIndex + 1];
    CommittedAgree(run[j], p, q, m.currentTerm, n.currentTerm);
    assert m.applied == p[..m.lastApplied + 1] && n.applied == q[..n.lastApplied + 1];
  }

  /** A node has delivered exactly its log up to lastApplied, and only what it counts as committed. */
  lemma DeliveredInOrder(run: seq<System>, i: nat, v: Id)
    requires IsRun(run) && i < |run| && v in run[i].nodes
    ensures var n := run[i].nodes[v];
            && -1 <= n.lastApplied <= n.commitIndex < |n.log|
            && n.applied == n.log[..n.lastApplied + 1]
  {
    hide IsRun, Inv, LogOk, Committed;
    EarlierFacts(run, i, i, v);
  }

  /** Every indexing and slicing of the code is in range in every state of a run: what a node's loop and the
      network allow never fails. */
  lemma NothingOutOfRange(run: seq<System>, i: nat, a: Action)
    requires IsRun(run) && i < |run| && Possible(run[i], a)
    ensures Feasible(run[i], a)
  {
    RunInv(run, i);
    InvInRange(run[i], a);
  }

  lemma InvInRange(s: System, a: Action)
    requires Possible(s, a)
    requires Inv(s)
    ensures Feasible(s, a)
  {
    hide Inv, NodeOk, MemberOk, LeaderOk, KeptByNode, LogStateOk, PhaseOk, VoteOk, Committed;
    var v := ActorOf(a);
    MemberFacts(s, v);
    NodeParts(s.history, s.ids, s.nodes[v], s.phases[v]);
    match a {
      case Send(_, peer) => PeersCanBeSentTo(s.history, s.ids, s.nodes[v], s.phases[v], peer);
      case AnswerAppend(m) => RequestFacts(s, m);
      case _ =>
    }
  }

  lemma PeersCanBeSentTo(h: History, ids: set<Id>, n: NodeState, p: Phase, peer: Id)
    requires NodeOk(h, ids, n, p) && p.Leading? && n.role == Leader && peer in n.peers
    ensures CanSend(n, peer)
  {
    assert ReplicationOk(h, n, peer);
  }
}
