/** One node's step keeps the invariant if the parts about that node, its new messages and its new
    history are re-established; everything else carries over. */
module RaftStep {
  import opened RaftTypes
  import opened RaftSystem
  import opened RaftInvariant

  ghost predicate NewHistoryOk(h: History, g: History, ids: set<Id>, v: Id, term: int) {
    && (forall b :: b in g.ballots && b !in h.ballots ==> BallotOk(g, ids, b) && b.term <= term)
    && (forall t :: t in g.leaders && g.leaders[t].leader == v ==> LeaderOk(g, ids, t))
    && (forall a :: a in g.acks && a.node == v ==> AckOk(g, ids, a) && a.term <= term)
  }

  ghost predicate NewSurvival(g: History, n: NodeState) {
    && KeptByNode(g, n)
    && (forall b :: b in g.ballots && b.node == n.id ==> KeptByBallot(g, b))
  }

  ghost predicate LocalStep(s: System, n: NodeState, p: Phase, sent: set<Message>, g: History)
    requires Members(s)
  {
    && n.id in s.ids && MemberOk(n, n.id, s.ids) && s.nodes[n.id].currentTerm <= n.currentTerm
    && Extends(s.history, g, n.id)
    && NodeOk(g, s.ids, n, p)
    && (forall m :: m in sent ==> MessageOk(g, s.ids, m))
    && (forall m :: m in s.net + sent ==> LoopEntered(n, p, m))
    && (forall w, m :: w in s.ids && w != n.id && m in sent ==> LoopEntered(s.nodes[w], s.phases[w], m))
    && NewHistoryOk(s.history, g, s.ids, n.id, n.currentTerm)
    && NewSurvival(g, n)
  }

  lemma NodesStep(s: System, n: NodeState, p: Phase, sent: set<Message>, g: History)
    requires Inv(s) && LocalStep(s, n, p, sent, g)
    ensures var t := Update(s, n, p, sent, g); Members(t) && NodesOk(t)
  {
    hide HistoryOk, NetOk, LoopsEntered, Survival, NewHistoryOk, NewSurvival, LoopEntered, NodeOk, MessageOk, Extends;
    var t := Update(s, n, p, sent, g);
    forall w | w in t.ids ensures NodeOk(g, t.ids, t.nodes[w], t.phases[w]) {
      if w != n.id {
        assert MemberOk(s.nodes[w], w, s.ids);
        NodeOkGrows(s.history, g, n.id, s.ids, s.nodes[w], s.phases[w]);
      }
    }
  }

  lemma BallotsStep(s: System, n: NodeState, p: Phase, sent: set<Message>, g: History)
    requires Inv(s) && LocalStep(s, n, p, sent, g)
    requires Members(Update(s, n, p, sent, g))
    ensures forall b :: b in g.ballots ==> BallotOk(g, s.ids, b) && SlotPast(Update(s, n, p, sent, g), b)
  {
    hide NodesOk, NetOk, LoopsEntered, Survival, NewSurvival, MemberOk, LoopEntered, NodeOk, BallotOk, LeaderOk,
      AckOk, MessageOk, KeptByNode, KeptByBallot;
    var t := Update(s, n, p, sent, g);
    forall b | b in g.ballots ensures BallotOk(g, t.ids, b) && SlotPast(t, b) {
      if b in s.history.ballots {
        BallotOkGrows(s.history, g, s.ids, b);
        assert SlotPast(s, b);
      }
    }
  }

  lemma LeadersStep(s: System, n: NodeState, p: Phase, sent: set<Message>, g: History)
    requires Inv(s) && LocalStep(s, n, p, sent, g)
    ensures forall u :: u in g.leaders ==> LeaderOk(g, s.ids, u)
  {
    hide NodesOk, NetOk, LoopsEntered, Survival, NewSurvival, MemberOk, LoopEntered, NodeOk, BallotOk, LeaderOk,
      AckOk, MessageOk, KeptByNode, KeptByBallot;
    forall u | u in g.leaders ensures LeaderOk(g, s.ids, u) {
      if g.leaders[u].leader != n.id {
        assert u in s.history.leaders;
        assert SameLeadership(s.history, g, u);
        LeaderOkGrows(s.history, g, n.id, s.ids, u);
      }
    }
  }

  lemma AcksStep(s: System, n: NodeState, p: Phase, sent: set<Message>, g: History)
    requires Inv(s) && LocalStep(s, n, p, sent, g)
    requires Members(Update(s, n, p, sent, g))
    ensures forall a :: a in g.acks ==> AckOk(g, s.ids, a) && SlotPast(Update(s, n, p, sent, g), a)
  {
    hide NodesOk, NetOk, LoopsEntered, Survival, NewSurvival, MemberOk, LoopEntered, NodeOk, BallotOk, LeaderOk,
      AckOk, MessageOk, KeptByNode, KeptByBallot;
    var t := Update(s, n, p, sent, g);
    forall a | a in g.acks ensures AckOk(g, t.ids, a) && SlotPast(t, a) {
      if a.node != n.id {
        assert a in s.history.acks && SlotPast(s, a);
        AckOkGrows(s.history, g, n.id, s.ids, a);
      } else {
        assert AckOk(g, s.ids, a);
      }
    }
  }

  lemma NetStep(s: System, n: NodeState, p: Phase, sent: set<Message>, g: History)
    requires Inv(s) && LocalStep(s, n, p, sent, g)
    ensures NetOk(Update(s, n, p, sent, g))
  {
    hide NodesOk, HistoryOk, LoopsEntered, Survival, NodeOk, MessageOk, NewHistoryOk, NewSurvival, MemberOk,
      Extends, Grows, LoopEntered;
    ExtensionGrows(s.history, g, n.id);
    forall m | m in s.net + sent ensures MessageOk(g, s.ids, m) {
      if m in s.net {
        MessageOkGrows(s.history, g, s.ids, m);
      }
    }
  }

  lemma KeptByNodeGrows(h: History, g: History, v: Id, ids: set<Id>, n: NodeState)
    requires Extends(h, g, v) && KeptByNode(h, n) && n.id != v
    requires forall a :: a in h.acks ==> AckOk(h, ids, a)
    ensures KeptByNode(g, n)
  {
    forall a: Slot, k: nat | Held(g, a, k) && a.node == n.id
      ensures Kept(g, n.log, a.term, k, n.currentTerm + 1)
    {
      assert Held(h, a, k) && AckOk(h, ids, a);
      KeptGrows(h, g, n.log, a.term, k, n.currentTerm + 1, n.currentTerm + 1);
    }
  }

  lemma KeptByBallotGrows(h: History, g: History, v: Id, ids: set<Id>, b: Slot)
    requires Extends(h, g, v) && b in h.ballots && KeptByBallot(h, b) && b.node != v
    requires forall a :: a in h.acks ==> AckOk(h, ids, a)
    ensures b in g.ballots && KeptByBallot(g, b)
  {
    if Relevant(g, b) {
      if b.term in h.leaders {
        assert SameLeadership(h, g, b.term);
      }
      assert Relevant(h, b);
      forall a: Slot, k: nat | Held(g, a, k) && a.node == b.node && a.term < b.term
        ensures Kept(g, g.ballots[b].log, a.term, k, b.term)
      {
        assert Held(h, a, k) && AckOk(h, ids, a);
        KeptGrows(h, g, h.ballots[b].log, a.term, k, b.term, b.term);
      }
    }
  }

  lemma SurvivalStep(s: System, n: NodeState, p: Phase, sent: set<Message>, g: History)
    requires Inv(s) && LocalStep(s, n, p, sent, g)
    requires Members(Update(s, n, p, sent, g))
    ensures Survival(Update(s, n, p, sent, g))
  {
    hide NodeOk, BallotOk, LeaderOk, MessageOk, KeptByNode, KeptByBallot;
    var t := Update(s, n, p, sent, g);
    forall w | w in t.ids ensures KeptByNode(g, t.nodes[w]) {
      if w != n.id {
        assert MemberOk(s.nodes[w], w, s.ids);
        KeptByNodeGrows(s.history, g, n.id, s.ids, s.nodes[w]);
      }
    }
    forall b | b in g.ballots ensures KeptByBallot(g, b) {
      if b.node != n.id {
        assert b in s.history.ballots;
        KeptByBallotGrows(s.history, g, n.id, s.ids, b);
      }
    }
  }

  lemma HistoryStep(s: System, n: NodeState, p: Phase, sent: set<Message>, g: History)
    requires Inv(s) && LocalStep(s, n, p, sent, g)
    requires Members(Update(s, n, p, sent, g))
    ensures HistoryOk(Update(s, n, p, sent, g))
  {
    hide LocalStep, BallotOk, LeaderOk, AckOk, SlotPast, Inv, Members;
    BallotsStep(s, n, p, sent, g);
    LeadersStep(s, n, p, sent, g);
    AcksStep(s, n, p, sent, g);
  }

  lemma LoopsStep(s: System, n: NodeState, p: Phase, sent: set<Message>, g: History)
    requires Inv(s) && LocalStep(s, n, p, sent, g)
    requires Members(Update(s, n, p, sent, g))
    ensures LoopsEntered(Update(s, n, p, sent, g))
  {
    hide NodesOk, HistoryOk, NetOk, Survival, NodeOk, MessageOk, NewHistoryOk, NewSurvival, Extends, MemberOk,
      LoopEntered;
    var t := Update(s, n, p, sent, g);
    forall w, m | w in t.ids && m in t.net ensures LoopEntered(t.nodes[w], t.phases[w], m) {
      if w != n.id && m in s.net {
        assert LoopEntered(s.nodes[w], s.phases[w], m);
      }
    }
  }

  lemma StepKeepsInv(s: System, n: NodeState, p: Phase, sent: set<Message>, g: History)
    requires Inv(s) && LocalStep(s, n, p, sent, g)
    ensures Inv(Update(s, n, p, sent, g))
  {
    hide LocalStep, Members, NodesOk, HistoryOk, NetOk, LoopsEntered, Survival, Update;
    NodesStep(s, n, p, sent, g);
    HistoryStep(s, n, p, sent, g);
    NetStep(s, n, p, sent, g);
    LoopsStep(s, n, p, sent, g);
    SurvivalStep(s, n, p, sent, g);
  }

  // ---------- steps that leave the history alone ----------

  lemma KeptByNodeLater(h: History, n: NodeState, m: NodeState)
    requires KeptByNode(h, n) && m.id == n.id && m.log == n.log && n.currentTerm <= m.currentTerm
    ensures KeptByNode(h, m)
  {
    forall a: Slot, k: nat | Held(h, a, k) && a.node == m.id
      ensures Kept(h, m.log, a.term, k, m.currentTerm + 1)
    {
      assert Kept(h, n.log, a.term, k, n.currentTerm + 1);
    }
  }

  /** A step that only moves a node to an equal or later term with the same log. */
  lemma QuietStep(s: System, n: NodeState, p: Phase, sent: set<Message>)
    requires Inv(s) && n.id in s.ids
    requires MemberOk(n, n.id, s.ids) && s.nodes[n.id].currentTerm <= n.currentTerm && n.log == s.nodes[n.id].log
    requires NodeOk(s.history, s.ids, n, p)
    requires forall m :: m in sent ==> MessageOk(s.history, s.ids, m)
    requires forall m :: m in s.net + sent ==> LoopEntered(n, p, m)
    requires forall w, m :: w in s.ids && w != n.id && m in sent ==> LoopEntered(s.nodes[w], s.phases[w], m)
    ensures Inv(Update(s, n, p, sent, s.history))
  {
    hide NodeOk, BallotOk, LeaderOk, AckOk, MessageOk, KeptByNode;
    var h := s.history;
    assert MemberOk(s.nodes[n.id], n.id, s.ids);
    KeptByNodeLater(h, s.nodes[n.id], n);
    assert NewHistoryOk(h, h, s.ids, n.id, n.currentTerm) by {
      forall a | a in h.acks && a.node == n.id ensures a.term <= n.currentTerm {
        assert SlotPast(s, a);
      }
    }
    StepKeepsInv(s, n, p, sent, h);
  }
}
