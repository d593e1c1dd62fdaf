/** N nodes and a network that may delay, duplicate, reorder or lose messages. Every action is one
    locked section of one node, in the order the node's main loop allows. */
module RaftSystem {
  import opened RaftTypes

  /** Messages carry what the sending goroutine still knows when the reply comes back. */
  datatype Message =
    | VoteCall(src: Id, dst: Id, vote: VoteArgs)
    | VoteAnswer(src: Id, dst: Id, askedTerm: int, voteReply: VoteReply)
    | AppendCall(src: Id, dst: Id, append: AppendArgs)
    | AppendAnswer(src: Id, dst: Id, askedTerm: int, sent: nat, shipped: nat, appendReply: AppendReply)

  /** Where a node's main loop stands between two locked sections. */
  datatype Phase =
    | Dispatching
    | Following
    | Electing
    | Campaigning(term: int, granted: set<Id>)
    | Promoted
    | Leading(term: int)

  datatype Slot = Slot(term: int, node: Id)
  datatype Ballot = Ballot(candidate: Id, log: Log)
  datatype Leadership = Leadership(leader: Id, voters: set<Id>, base: Log, log: Log)

  /** What has happened so far. No action reads it; it only serves to state and prove properties.
      `ballots`: the vote each node cast in each term, with its log at that moment.
      `leaders`: for each term won, who won it, by whose votes, with which log, and the log grown since.
      `acks`:    how much of a term's leader log each node has held while in that term. */
  datatype History = History(ballots: map<Slot, Ballot>, leaders: map<int, Leadership>, acks: map<Slot, nat>)

  datatype System = System(
    ids: set<Id>, nodes: map<Id, NodeState>, phases: map<Id, Phase>, net: set<Message>, history: History)

  datatype Action =
    | Dispatch(node: Id)
    | TimeOut(node: Id)
    | Campaign(node: Id)
    | AnswerVote(msg: Message)
    | HearVote(msg: Message)
    | CountVote(msg: Message)
    | Win(node: Id)
    | Abandon(node: Id)
    | BeginLead(node: Id)
    | EndLead(node: Id)
    | Send(node: Id, peer: Id)
    | AnswerAppend(msg: Message)
    | HearAppend(msg: Message)
    | Propose(node: Id, data: Data)
    | Deliver(node: Id)

  function ActorOf(a: Action): Id {
    match a
    case AnswerVote(m) => m.dst
    case HearVote(m) => m.dst
    case CountVote(m) => m.dst
    case AnswerAppend(m) => m.dst
    case HearAppend(m) => m.dst
    case Dispatch(v) => v
    case TimeOut(v) => v
    case Campaign(v) => v
    case Win(v) => v
    case Abandon(v) => v
    case BeginLead(v) => v
    case EndLead(v) => v
    case Send(v, _) => v
    case Propose(v, _) => v
    case Deliver(v) => v
  }

  function AfterDispatch(role: Role): Phase {
    match role case Follower => Following case Candidate => Electing case Leader => Promoted
  }

  /** Which actions a node's loop and the network allow, leaving out whether an index is in range. */
  predicate Possible(s: System, a: Action) {
    var v := ActorOf(a);
    v in s.nodes && v in s.phases &&
    match a
    case Dispatch(_) => s.phases[v] == Dispatching
    case TimeOut(_) => s.phases[v] == Following
    case Campaign(_) => s.phases[v] == Electing
    case AnswerVote(m) => m in s.net && m.VoteCall?
    case HearVote(m) => m in s.net && m.VoteAnswer?
    case CountVote(m) =>
      m in s.net && m.VoteAnswer? && m.voteReply.granted
      && s.phases[v].Campaigning? && s.phases[v].term == m.askedTerm
    case Win(_) =>
      s.phases[v].Campaigning? && 1 + |s.phases[v].granted| >= Majority(s.nodes[v])
    case Abandon(_) => s.phases[v].Campaigning?
    case BeginLead(_) => s.phases[v] == Promoted
    case EndLead(_) =>
      s.phases[v].Leading? && !(s.nodes[v].role == Leader && s.nodes[v].currentTerm == s.phases[v].term)
    case Send(_, peer) =>
      peer in s.nodes[v].peers && s.phases[v].Leading?
      && s.nodes[v].role == Leader && s.nodes[v].currentTerm == s.phases[v].term
    case AnswerAppend(m) => m in s.net && m.AppendCall?
    case HearAppend(m) => m in s.net && m.AppendAnswer?
    case Propose(_, _) => true
    case Deliver(_) => s.nodes[v].lastApplied < s.nodes[v].commitIndex
  }

  /** The indexing and slicing of the action's section stays in range. */
  predicate InRange(s: System, a: Action)
    requires Possible(s, a)
  {
    var n := s.nodes[ActorOf(a)];
    match a
    case Send(_, peer) => CanSend(n, peer)
    case AnswerAppend(m) => m.append.prevLogIndex >= -1
    case HearAppend(_) => -1 <= n.commitIndex
    case Deliver(_) => 0 <= n.lastApplied + 1 < |n.log|
    case _ => true
  }

  predicate Feasible(s: System, a: Action) {
    Possible(s, a) && InRange(s, a)
  }

  /** The code sets matchIndex from its log at reply time. That is what was sent only if the log has
      not grown in between, which is a hypothesis on when the reply is processed. */
  predicate NotGrownSince(n: NodeState, m: Message)
    requires m.AppendAnswer?
  {
    m.appendReply.success && m.shipped > 0 && n.role == Leader && n.currentTerm == m.askedTerm ==> |n.log| == m.sent
  }

  predicate Enabled(s: System, a: Action) {
    Feasible(s, a) && (a.HearAppend? ==> NotGrownSince(s.nodes[a.msg.dst], a.msg))
  }

  function WithBallot(h: History, slot: Slot, b: Ballot): History {
    if slot in h.ballots then h else h.(ballots := h.ballots[slot := b])
  }

  function WithAck(h: History, slot: Slot, n: nat): History {
    if slot in h.acks && h.acks[slot] >= n then h else h.(acks := h.acks[slot := n])
  }

  function WithLeader(h: History, n: NodeState, voters: set<Id>): History {
    WithAck(h.(leaders := h.leaders[n.currentTerm := Leadership(n.id, voters, n.log, n.log)]),
            Slot(n.currentTerm, n.id), |n.log|)
  }

  /** The leader's log has become `n.log`. */
  function WithGrowth(h: History, n: NodeState): History {
    if n.currentTerm !in h.leaders then h
    else WithAck(h.(leaders := h.leaders[n.currentTerm := h.leaders[n.currentTerm].(log := n.log)]),
                 Slot(n.currentTerm, n.id), |n.log|)
  }

  function Update(s: System, n: NodeState, p: Phase, sent: set<Message>, h: History): System {
    s.(nodes := s.nodes[n.id := n], phases := s.phases[n.id := p], net := s.net + sent, history := h)
  }

  function DoDispatch(s: System, v: Id): System
    requires Feasible(s, Dispatch(v))
  {
    Update(s, s.nodes[v], AfterDispatch(s.nodes[v].role), {}, s.history)
  }

  function DoTimeOut(s: System, v: Id): System
    requires Feasible(s, TimeOut(v))
  {
    Update(s, OnElectionTimeout(s.nodes[v]), Dispatching, {}, s.history)
  }

  function DoCampaign(s: System, v: Id): System
    requires Feasible(s, Campaign(v))
  {
    var (n, args) := OnCampaign(s.nodes[v]);
    Update(s, n, Campaigning(n.currentTerm, {}), set p | p in n.peers :: VoteCall(v, p, args),
           WithBallot(s.history, Slot(n.currentTerm, v), Ballot(v, n.log)))
  }

  function DoAnswerVote(s: System, m: Message): System
    requires Feasible(s, AnswerVote(m))
  {
    var (n, reply) := OnVoteRequest(s.nodes[m.dst], m.vote);
    var h := if reply.granted then WithBallot(s.history, Slot(n.currentTerm, m.dst), Ballot(m.vote.candidate, n.log))
             else s.history;
    Update(s, n, s.phases[m.dst], {VoteAnswer(m.dst, m.src, m.vote.term, reply)}, h)
  }

  function DoHearVote(s: System, m: Message): System
    requires Feasible(s, HearVote(m))
  {
    Update(s, OnVoteReply(s.nodes[m.dst], m.voteReply), s.phases[m.dst], {}, s.history)
  }

  function DoCountVote(s: System, m: Message): System
    requires Feasible(s, CountVote(m))
  {
    var p := s.phases[m.dst];
    Update(s, s.nodes[m.dst], Campaigning(p.term, p.granted + {m.src}), {}, s.history)
  }

  function DoWin(s: System, v: Id): System
    requires Feasible(s, Win(v))
  {
    var p := s.phases[v];
    var n := OnPromote(s.nodes[v], p.term);
    Update(s, n, Dispatching, {},
           if MayPromote(s.nodes[v], p.term) then WithLeader(s.history, n, p.granted + {v}) else s.history)
  }

  function DoBeginLead(s: System, v: Id): System
    requires Feasible(s, BeginLead(v))
  {
    Update(s, OnBeginLeading(s.nodes[v]), Leading(s.nodes[v].currentTerm), {}, s.history)
  }

  function DoSend(s: System, v: Id, peer: Id): System
    requires Feasible(s, Send(v, peer))
  {
    Update(s, s.nodes[v], s.phases[v],
           {AppendCall(v, peer, AppendFor(s.nodes[v], peer, s.phases[v].term))}, s.history)
  }

  function DoAnswerAppend(s: System, m: Message): System
    requires Feasible(s, AnswerAppend(m))
  {
    var (n, reply) := OnAppend(s.nodes[m.dst], m.append);
    var sent: nat := m.append.prevLogIndex + 1 + |m.append.entries|;
    Update(s, n, s.phases[m.dst],
           {AppendAnswer(m.dst, m.src, m.append.term, sent, |m.append.entries|, reply)},
           if reply.success then WithAck(s.history, Slot(m.append.term, m.dst), sent) else s.history)
  }

  function DoHearAppend(s: System, m: Message): System
    requires Feasible(s, HearAppend(m))
  {
    Update(s, OnAppendReply(s.nodes[m.dst], m.src, m.askedTerm, m.shipped, m.appendReply), s.phases[m.dst], {},
        s.history)
  }

  function DoPropose(s: System, v: Id, data: Data): System
    requires Feasible(s, Propose(v, data))
  {
    var (n, err) := OnPropose(s.nodes[v], data);
    Update(s, n, s.phases[v], {}, if err.None? then WithGrowth(s.history, n) else s.history)
  }

  function DoDeliver(s: System, v: Id): System
    requires Feasible(s, Deliver(v))
  {
    Update(s, OnDeliver(s.nodes[v]), s.phases[v], {}, s.history)
  }

  function DoAbandon(s: System, v: Id): System
    requires Feasible(s, Abandon(v))
  {
    Update(s, s.nodes[v], Dispatching, {}, s.history)
  }

  function DoEndLead(s: System, v: Id): System
    requires Feasible(s, EndLead(v))
  {
    Update(s, s.nodes[v], Dispatching, {}, s.history)
  }

  function Do(s: System, a: Action): System
    requires Feasible(s, a)
  {
    match a
    case Dispatch(v) => DoDispatch(s, v)
    case TimeOut(v) => DoTimeOut(s, v)
    case Campaign(v) => DoCampaign(s, v)
    case AnswerVote(m) => DoAnswerVote(s, m)
    case HearVote(m) => DoHearVote(s, m)
    case CountVote(m) => DoCountVote(s, m)
    case Win(v) => DoWin(s, v)
    case Abandon(v) => DoAbandon(s, v)
    case BeginLead(v) => DoBeginLead(s, v)
    case EndLead(v) => DoEndLead(s, v)
    case Send(v, peer) => DoSend(s, v, peer)
    case AnswerAppend(m) => DoAnswerAppend(s, m)
    case HearAppend(m) => DoHearAppend(s, m)
    case Propose(v, data) => DoPropose(s, v, data)
    case Deliver(v) => DoDeliver(s, v)
  }

  ghost predicate Distinct(peers: seq<Id>) {
    forall i, j :: 0 <= i < j < |peers| ==> peers[i] != peers[j]
  }

  /** A freshly constructed node whose peers are exactly the other members. */
  ghost predicate FreshNode(n: NodeState, v: Id, ids: set<Id>) {
    && n == NodeState(v, n.peers, 0, "", [], Follower, "", -1, -1, map[], map[], [])
    && Distinct(n.peers)
    && (forall p :: p in n.peers <==> p in ids && p != v)
  }

  ghost predicate Init(s: System) {
    && "" !in s.ids
    && s.nodes.Keys == s.ids == s.phases.Keys
    && (forall v :: v in s.ids ==> FreshNode(s.nodes[v], v, s.ids) && s.phases[v] == Dispatching)
    && s.net == {}
    && s.history == History(map[], map[], map[])
  }

  ghost predicate Next(s: System, t: System) {
    exists a :: Enabled(s, a) && t == Do(s, a)
  }

  ghost predicate IsRun(run: seq<System>) {
    && |run| > 0
    && Init(run[0])
    && forall i :: 0 <= i < |run| - 1 ==> Next(run[i], run[i + 1])
  }
}
