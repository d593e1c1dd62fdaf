/** What every reachable state of the system satisfies. All parts are stated on the history and on one
    node, one message or one slot at a time, so that a step only has to re-establish what it touched. */
module RaftInvariant {
  import opened RaftTypes
  import opened RaftSystem

  // ---------- logs and leader logs ----------

  /** The first `k` entries of the log of term `t`'s leader. */
  ghost function LeaderPrefix(h: History, t: int, k: nat): Log {
    if t in h.leaders && k <= |h.leaders[t].log| then h.leaders[t].log[..k] else []
  }

  /** Everything up to entry `i` comes from the leader of that entry's term. */
  ghost predicate Anchored(h: History, log: Log, i: nat)
    requires i < |log|
  {
    log[i].term in h.leaders && log[..i + 1] <= h.leaders[log[i].term].log
  }

  ghost predicate LogOk(h: History, log: Log) {
    forall i: nat :: i < |log| ==> Anchored(h, log, i)
  }

  ghost predicate TermsBelow(log: Log, hi: int) {
    forall i :: 0 <= i < |log| ==> log[i].term < hi
  }

  /** An entry that sets its own bar sets it at a majority or above. */
  ghost predicate BarsOk(log: Log, size: nat) {
    forall i :: 0 <= i < |log| && log[i].data.minAcks > 0 ==> 2 * log[i].data.minAcks > size
  }

  // ---------- choosing ----------

  ghost function Holders(h: History, ids: set<Id>, t: int, k: nat): set<Id> {
    set q | q in ids && Slot(t, q) in h.acks && h.acks[Slot(t, q)] >= k
  }

  /** A majority held the first `k` entries of term `t`'s leader during term `t`, the last of them
      being of that term. */
  ghost predicate Chosen(h: History, ids: set<Id>, t: int, k: nat) {
    && t in h.leaders && 0 < k <= |h.leaders[t].log|
    && h.leaders[t].log[k - 1].term == t
    && 2 * |Holders(h, ids, t, k)| > |ids|
  }

  ghost predicate Committed(h: History, ids: set<Id>, p: Log, hi: int) {
    p == [] || exists t: int, k: nat :: t <= hi && Chosen(h, ids, t, k) && p <= LeaderPrefix(h, t, k)
  }

  // ---------- surviving ----------

  /** The leader of `u` started without the first `k` entries of term `t`'s leader. */
  ghost predicate Skips(h: History, u: int, t: int, k: nat) {
    u in h.leaders && !(LeaderPrefix(h, t, k) <= h.leaders[u].base)
  }

  /** `log` still has what its node held in term `t`, unless a leader between `t` and `hi` started without it. */
  ghost predicate Kept(h: History, log: Log, t: int, k: nat, hi: int) {
    LeaderPrefix(h, t, k) <= log || exists u :: t < u < hi && Skips(h, u, t, k)
  }

  // ---------- the parts ----------

  ghost predicate MemberOk(n: NodeState, v: Id, ids: set<Id>) {
    && n.id == v
    && Distinct(n.peers)
    && (forall p :: p in n.peers <==> p in ids && p != v)
    && n.currentTerm >= 0
  }

  ghost predicate Members(s: System) {
    && "" !in s.ids
    && s.nodes.Keys == s.ids == s.phases.Keys
    && forall v :: v in s.ids ==> MemberOk(s.nodes[v], v, s.ids)
  }

  ghost predicate VoteOk(h: History, n: NodeState) {
    if n.votedFor == "" then Slot(n.currentTerm, n.id) !in h.ballots
    else Slot(n.currentTerm, n.id) in h.ballots && h.ballots[Slot(n.currentTerm, n.id)].candidate == n.votedFor
  }

  ghost predicate LogStateOk(h: History, n: NodeState) {
    && LogOk(h, n.log) && TermsBelow(n.log, n.currentTerm + 1)
    && (n.role == Leader ==> n.currentTerm in h.leaders && h.leaders[n.currentTerm].leader == n.id
                             && h.leaders[n.currentTerm].log == n.log)
  }

  ghost predicate CommitOk(h: History, ids: set<Id>, n: NodeState) {
    && -1 <= n.lastApplied <= n.commitIndex < |n.log|
    && n.applied == n.log[..n.lastApplied + 1]
    && Committed(h, ids, n.log[..n.commitIndex + 1], n.currentTerm)
  }

  ghost predicate CampaignOk(h: History, ids: set<Id>, n: NodeState, term: int, granted: set<Id>) {
    var own := Slot(term, n.id);
    && 1 <= term <= n.currentTerm && n.role != Leader
    && own in h.ballots && h.ballots[own].candidate == n.id
    && granted <= ids && n.id !in granted
    && (forall g :: g in granted ==> Slot(term, g) in h.ballots && h.ballots[Slot(term, g)].candidate == n.id)
    && (n.role == Candidate && n.currentTerm == term ==> n.log == h.ballots[own].log)
    && (term in h.leaders ==> h.leaders[term].leader != n.id)
  }

  ghost predicate ReplicationOk(h: History, n: NodeState, p: Id) {
    && p in n.nextIndex && 0 <= n.nextIndex[p] <= |n.log|
    && p in n.matchIndex && -1 <= n.matchIndex[p]
    && (n.matchIndex[p] >= 0 ==>
          Slot(n.currentTerm, p) in h.acks && n.matchIndex[p] < h.acks[Slot(n.currentTerm, p)])
  }

  ghost predicate PhaseOk(h: History, ids: set<Id>, n: NodeState, p: Phase) {
    match p
    case Dispatching => true
    case Promoted => true
    case Following => n.role == Follower
    case Electing => n.role != Leader
    case Campaigning(term, granted) => CampaignOk(h, ids, n, term, granted)
    case Leading(term) =>
      && term <= n.currentTerm
      && (n.role == Leader ==> term == n.currentTerm && forall q :: q in n.peers ==> ReplicationOk(h, n, q))
  }

  ghost predicate NodeOk(h: History, ids: set<Id>, n: NodeState, p: Phase) {
    VoteOk(h, n) && LogStateOk(h, n) && CommitOk(h, ids, n) && PhaseOk(h, ids, n, p)
  }

  ghost predicate BallotOk(h: History, ids: set<Id>, b: Slot)
    requires b in h.ballots
  {
    var c := h.ballots[b].candidate;
    var own := Slot(b.term, c);
    && b.node in ids && c in ids && 1 <= b.term
    && own in h.ballots && h.ballots[own].candidate == c
    && AtLeastAsUpToDate(LastIndex(h.ballots[own].log), LastTerm(h.ballots[own].log), h.ballots[b].log)
    && LogOk(h, h.ballots[b].log)
    && TermsBelow(h.ballots[own].log, b.term)
  }

  ghost predicate LeaderOk(h: History, ids: set<Id>, t: int)
    requires t in h.leaders
  {
    var l := h.leaders[t];
    var own := Slot(t, l.leader);
    && 1 <= t
    && l.voters <= ids && l.leader in l.voters && 2 * |l.voters| > |ids|
    && (forall w :: w in l.voters ==> Slot(t, w) in h.ballots && h.ballots[Slot(t, w)].candidate == l.leader)
    && own in h.ballots && l.base == h.ballots[own].log
    && l.base <= l.log && TermsBelow(l.base, t)
    && (forall i :: |l.base| <= i < |l.log| ==> l.log[i].term == t)
    && LogOk(h, l.log) && BarsOk(l.log, |ids|)
    && own in h.acks && h.acks[own] == |l.log|
  }

  ghost predicate AckOk(h: History, ids: set<Id>, a: Slot)
    requires a in h.acks
  {
    a.node in ids && a.term in h.leaders && h.acks[a] <= |h.leaders[a.term].log|
  }

  /** The request carries all of the sender's log from `prevLogIndex` to some length it once had. */
  ghost predicate AppendCallOk(h: History, ids: set<Id>, src: Id, dst: Id, a: AppendArgs) {
    && a.term in h.leaders && h.leaders[a.term].leader == src == a.leader && dst != src
    && -1 <= a.prevLogIndex && a.prevLogIndex + 1 + |a.entries| <= |h.leaders[a.term].log|
    && ShipsSuffix(LeaderPrefix(h, a.term, a.prevLogIndex + 1 + |a.entries|), a)
    && a.leaderCommit < a.prevLogIndex + 1 + |a.entries|
    && (a.leaderCommit >= 0 ==> Committed(h, ids, LeaderPrefix(h, a.term, a.leaderCommit + 1), a.term))
  }

  ghost predicate ShipsSuffix(l: Log, a: AppendArgs) {
    && -1 <= a.prevLogIndex && |l| == a.prevLogIndex + 1 + |a.entries|
    && a.entries == l[a.prevLogIndex + 1..]
    && (a.prevLogIndex >= 0 ==> a.prevLogTerm == l[a.prevLogIndex].term)
  }

  ghost predicate VoteCallOk(h: History, src: Id, dst: Id, a: VoteArgs) {
    var own := Slot(a.term, src);
    && own in h.ballots && h.ballots[own].candidate == src == a.candidate && dst != src
    && a.lastLogIndex == LastIndex(h.ballots[own].log) && a.lastLogTerm == LastTerm(h.ballots[own].log)
  }

  ghost predicate MessageOk(h: History, ids: set<Id>, m: Message) {
    && m.src in ids && m.src != m.dst
    && match m
       case VoteCall(src, dst, a) => VoteCallOk(h, src, dst, a)
       case AppendCall(src, dst, a) => AppendCallOk(h, ids, src, dst, a)
       case VoteAnswer(src, dst, t, r) =>
         r.granted ==> Slot(t, src) in h.ballots && h.ballots[Slot(t, src)].candidate == dst
       case AppendAnswer(src, dst, t, sent, _, r) =>
         && t in h.leaders && h.leaders[t].leader == dst
         && (r.success ==> Slot(t, src) in h.acks && sent <= h.acks[Slot(t, src)])
  }

  // ---------- the whole ----------

  ghost predicate NodesOk(s: System)
    requires Members(s)
  {
    forall v :: v in s.ids ==> NodeOk(s.history, s.ids, s.nodes[v], s.phases[v])
  }

  /** A slot never lies in its node's future. */
  ghost predicate SlotPast(s: System, b: Slot)
    requires Members(s)
  {
    b.node in s.ids && b.term <= s.nodes[b.node].currentTerm
  }

  ghost predicate HistoryOk(s: System)
    requires Members(s)
  {
    && (forall b :: b in s.history.ballots ==> BallotOk(s.history, s.ids, b) && SlotPast(s, b))
    && (forall t :: t in s.history.leaders ==> LeaderOk(s.history, s.ids, t))
    && (forall a :: a in s.history.acks ==> AckOk(s.history, s.ids, a) && SlotPast(s, a))
  }

  ghost predicate NetOk(s: System) {
    forall m :: m in s.net ==> MessageOk(s.history, s.ids, m)
  }

  /** The node of slot `a` has held `k` entries of that term's leader log while in that term. */
  ghost predicate Held(h: History, a: Slot, k: nat) {
    a in h.acks && k <= h.acks[a]
  }

  /** Each log still holds what its node acknowledged, up to skipping leaders. */
  ghost predicate KeptByNode(h: History, n: NodeState) {
    forall a: Slot, k: nat :: Held(h, a, k) && a.node == n.id ==> Kept(h, n.log, a.term, k, n.currentTerm + 1)
  }

  /** A ballot that counts, or may still count, for its term's leader. */
  ghost predicate Relevant(h: History, b: Slot) {
    b.term in h.leaders ==> b.node in h.leaders[b.term].voters
  }

  /** The node that sent an append, or to which one is answered, has entered its leader loop for that term. */
  ghost predicate LoopEntered(n: NodeState, p: Phase, m: Message) {
    match m
    case AppendCall(src, _, a) => n.id == src && n.role == Leader && n.currentTerm == a.term ==> p == Leading(a.term)
    case AppendAnswer(_, dst, t, _, _, _) => n.id == dst && n.role == Leader && n.currentTerm == t ==> p == Leading(t)
    case _ => true
  }

  ghost predicate LoopsEntered(s: System)
    requires Members(s)
  {
    forall v, m :: v in s.ids && m in s.net ==> LoopEntered(s.nodes[v], s.phases[v], m)
  }

  /** The same for the log a node had when it voted. */
  ghost predicate KeptByBallot(h: History, b: Slot)
    requires b in h.ballots
  {
    Relevant(h, b) ==>
    forall a: Slot, k: nat :: Held(h, a, k) && a.node == b.node && a.term < b.term ==>
      Kept(h, h.ballots[b].log, a.term, k, b.term)
  }

  ghost predicate Survival(s: System)
    requires Members(s)
  {
    && (forall v :: v in s.ids ==> KeptByNode(s.history, s.nodes[v]))
    && (forall b :: b in s.history.ballots ==> KeptByBallot(s.history, b))
  }

  ghost predicate Inv(s: System) {
    Members(s) && NodesOk(s) && HistoryOk(s) && NetOk(s) && LoopsEntered(s) && Survival(s)
  }

  // ---------- growth of the history ----------

  ghost predicate SameLeadership(h: History, g: History, t: int)
    requires t in h.leaders
  {
    && t in g.leaders
    && g.leaders[t].leader == h.leaders[t].leader
    && g.leaders[t].voters == h.leaders[t].voters
    && g.leaders[t].base == h.leaders[t].base
    && h.leaders[t].log <= g.leaders[t].log
  }

  /** Ballots, leaderships and acknowledgements are never taken back. */
  ghost predicate Grows(h: History, g: History) {
    && (forall b :: b in h.ballots ==> b in g.ballots && g.ballots[b] == h.ballots[b])
    && (forall t :: t in h.leaders ==> SameLeadership(h, g, t))
    && (forall a :: a in h.acks ==> a in g.acks && h.acks[a] <= g.acks[a])
  }

  /** `g` adds to `h` only what node `v` may add. */
  ghost predicate Extends(h: History, g: History, v: Id) {
    && Grows(h, g)
    && (forall b :: b in g.ballots && b !in h.ballots ==> b.node == v)
    && (forall t :: t in h.leaders && t in g.leaders && h.leaders[t].leader != v ==>
                      g.leaders[t].log == h.leaders[t].log)
    && (forall t :: t in g.leaders && t !in h.leaders ==> g.leaders[t].leader == v)
    && (forall a :: a in h.acks && a in g.acks && a.node != v ==> g.acks[a] == h.acks[a])
    && (forall a :: a in g.acks && a !in h.acks ==> a.node == v)
  }

  lemma ExtensionGrows(h: History, g: History, v: Id)
    requires Extends(h, g, v)
    ensures Grows(h, g)
  {}

  lemma LogOkGrows(h: History, g: History, log: Log)
    requires Grows(h, g) && LogOk(h, log)
    ensures LogOk(g, log)
  {
    forall i: nat | i < |log| ensures Anchored(g, log, i) {
      assert Anchored(h, log, i);
      assert SameLeadership(h, g, log[i].term);
    }
  }

  lemma ChosenGrows(h: History, g: History, ids: set<Id>, t: int, k: nat)
    requires Grows(h, g) && Chosen(h, ids, t, k)
    ensures Chosen(g, ids, t, k) && LeaderPrefix(g, t, k) == LeaderPrefix(h, t, k)
  {
    assert SameLeadership(h, g, t);
    assert Holders(h, ids, t, k) <= Holders(g, ids, t, k);
    SubsetSize(Holders(h, ids, t, k), Holders(g, ids, t, k));
  }

  lemma CommittedGrows(h: History, g: History, ids: set<Id>, p: Log, hi: int, hi': int)
    requires Grows(h, g) && Committed(h, ids, p, hi) && hi <= hi'
    ensures Committed(g, ids, p, hi')
  {
    if p != [] {
      var t, k: nat :| t <= hi && Chosen(h, ids, t, k) && p <= LeaderPrefix(h, t, k);
      ChosenGrows(h, g, ids, t, k);
    }
  }

  lemma KeptGrows(h: History, g: History, log: Log, t: int, k: nat, hi: int, hi': int)
    requires Grows(h, g) && t in h.leaders && k <= |h.leaders[t].log|
    requires Kept(h, log, t, k, hi) && hi <= hi'
    ensures t in g.leaders && k <= |g.leaders[t].log| && Kept(g, log, t, k, hi')
  {
    assert SameLeadership(h, g, t);
    assert LeaderPrefix(g, t, k) == LeaderPrefix(h, t, k);
    if !(LeaderPrefix(h, t, k) <= log) {
      var u :| t < u < hi && Skips(h, u, t, k);
      assert SameLeadership(h, g, u);
      assert Skips(g, u, t, k);
    }
  }

  lemma LeaderPrefixGrows(h: History, g: History, t: int, k: nat)
    requires Grows(h, g) && t in h.leaders && k <= |h.leaders[t].log|
    ensures LeaderPrefix(g, t, k) == LeaderPrefix(h, t, k)
  {
    assert SameLeadership(h, g, t);
  }

  lemma AppendCallOkGrows(h: History, g: History, ids: set<Id>, src: Id, dst: Id, a: AppendArgs)
    requires Grows(h, g) && AppendCallOk(h, ids, src, dst, a)
    ensures AppendCallOk(g, ids, src, dst, a)
  {
    assert SameLeadership(h, g, a.term);
    hide Grows, LeaderPrefix, Committed, ShipsSuffix;
    LeaderPrefixGrows(h, g, a.term, a.prevLogIndex + 1 + |a.entries|);
    if a.leaderCommit >= 0 {
      LeaderPrefixGrows(h, g, a.term, a.leaderCommit + 1);
      CommittedGrows(h, g, ids, LeaderPrefix(h, a.term, a.leaderCommit + 1), a.term, a.term);
    }
  }

  lemma MessageOkGrows(h: History, g: History, ids: set<Id>, m: Message)
    requires Grows(h, g) && MessageOk(h, ids, m)
    ensures MessageOk(g, ids, m)
  {
    if m.AppendCall? {
      AppendCallOkGrows(h, g, ids, m.src, m.dst, m.append);
    }
  }

  lemma BallotOkGrows(h: History, g: History, ids: set<Id>, b: Slot)
    requires Grows(h, g) && b in h.ballots && BallotOk(h, ids, b)
    ensures BallotOk(g, ids, b)
  {
    LogOkGrows(h, g, h.ballots[b].log);
  }

  lemma AckOkGrows(h: History, g: History, v: Id, ids: set<Id>, a: Slot)
    requires Extends(h, g, v) && a in h.acks && AckOk(h, ids, a) && a.node != v
    ensures AckOk(g, ids, a)
  {
    assert SameLeadership(h, g, a.term);
  }

  /** A leadership other than `v`'s is untouched. */
  lemma LeaderOkGrows(h: History, g: History, v: Id, ids: set<Id>, t: int)
    requires Extends(h, g, v) && t in h.leaders && LeaderOk(h, ids, t) && h.leaders[t].leader != v
    ensures LeaderOk(g, ids, t)
  {
    assert SameLeadership(h, g, t);
    LogOkGrows(h, g, h.leaders[t].log);
  }

  /** A node other than `v` keeps its part of the invariant. */
  lemma NodeOkGrows(h: History, g: History, v: Id, ids: set<Id>, n: NodeState, p: Phase)
    requires Extends(h, g, v) && NodeOk(h, ids, n, p) && n.id != v
    ensures NodeOk(g, ids, n, p)
  {
    LogOkGrows(h, g, n.log);
    CommittedGrows(h, g, ids, n.log[..n.commitIndex + 1], n.currentTerm, n.currentTerm);
    if n.role == Leader {
      assert SameLeadership(h, g, n.currentTerm);
    }
    if p.Campaigning? && p.term in g.leaders && p.term in h.leaders {
      assert SameLeadership(h, g, p.term);
    }
    assert PhaseOk(g, ids, n, p);
  }

  lemma KeptSame(h: History, g: History, log: Log, t: int, k: nat, hi: int)
    requires g.leaders == h.leaders && Kept(h, log, t, k, hi)
    ensures Kept(g, log, t, k, hi)
  {
    assert LeaderPrefix(g, t, k) == LeaderPrefix(h, t, k);
    if !(LeaderPrefix(h, t, k) <= log) {
      var u :| t < u < hi && Skips(h, u, t, k);
      assert Skips(g, u, t, k);
    }
  }

  lemma SubsetSize<T>(a: set<T>, b: set<T>)
    requires a <= b
    ensures |a| <= |b|
  {
    if a != {} {
      var x :| x in a;
      SubsetSize(a - {x}, b - {x});
    }
  }
}
