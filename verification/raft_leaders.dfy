/** Winning an election and growing the leader's log keep the invariant. */
module RaftLeaders {
  import opened RaftTypes
  import opened RaftSystem
  import opened RaftInvariant
  import opened RaftStep
  import opened RaftCompleteness
  import opened RaftQuiet

  // ---------- winning ----------

  /** `g` is `h` with the new leadership of `n`, whose term had no leader and no acknowledgement. */
  ghost predicate Elected(h: History, g: History, n: NodeState, voters: set<Id>) {
    var own := Slot(n.currentTerm, n.id);
    && n.currentTerm !in h.leaders && own !in h.acks
    && g == h.(leaders := h.leaders[n.currentTerm := Leadership(n.id, voters, n.log, n.log)],
               acks := h.acks[own := |n.log|])
  }

  lemma ElectionExtends(h: History, g: History, n: NodeState, voters: set<Id>)
    requires Elected(h, g, n, voters)
    ensures Extends(h, g, n.id)
  {}

  /** Section 5.2: a majority that voted for `v` in a term makes anyone elected in that term `v`. */
  lemma OneCandidateByQuorum(h: History, ids: set<Id>, v: Id, term: int, voters: set<Id>)
    requires voters <= ids && 2 * |voters| > |ids|
    requires forall w :: w in voters ==> Slot(term, w) in h.ballots && h.ballots[Slot(term, w)].candidate == v
    requires term in h.leaders && LeaderOk(h, ids, term)
    ensures h.leaders[term].leader == v
  {
    var w := QuorumsMeet(ids, voters, h.leaders[term].voters);
    assert h.ballots[Slot(term, w)].candidate == v;
  }

  /** A term with a leader elects no second one, and its own leader does not campaign in it again. */
  lemma NoSecondLeader(s: System, v: Id)
    requires Inv(s) && v in s.nodes && v in s.phases && s.phases[v].Campaigning?
    requires 1 + |s.phases[v].granted| >= Majority(s.nodes[v])
    ensures s.phases[v].term !in s.history.leaders
    ensures 2 * |s.phases[v].granted + {v}| > |s.ids|
  {
    hide Inv, NodeOk, MemberOk, LeaderOk, CampaignOk, LogOk;
    var h, n, p := s.history, s.nodes[v], s.phases[v];
    MemberFacts(s, v);
    ClusterIsIds(n, v, s.ids);
    CampaignParts(h, s.ids, n, p);
    GrantedAreOthers(h, s.ids, n, p.term, p.granted);
    assert |p.granted + {v}| == |p.granted| + 1;
    if p.term in h.leaders {
      LeaderFact(s, p.term);
      OneCandidateByQuorum(h, s.ids, v, p.term, p.granted + {v});
    }
  }

  lemma GrantedAreOthers(h: History, ids: set<Id>, n: NodeState, term: int, granted: set<Id>)
    requires CampaignOk(h, ids, n, term, granted)
    ensures n.id !in granted && granted <= ids
    ensures term in h.leaders ==> h.leaders[term].leader != n.id
    ensures forall w :: w in granted + {n.id} ==>
              Slot(term, w) in h.ballots && h.ballots[Slot(term, w)].candidate == n.id
  {}

  lemma NoAckWithoutLeader(s: System, a: Slot)
    requires Inv(s) && a.term !in s.history.leaders
    ensures a !in s.history.acks
  {
    assert a in s.history.acks ==> AckOk(s.history, s.ids, a);
  }

  lemma {:induction false} BarsFromAnchors(h: History, ids: set<Id>, log: Log)
    requires LogOk(h, log)
    requires forall x :: x in h.leaders ==> BarsOk(h.leaders[x].log, |ids|)
    ensures BarsOk(log, |ids|)
  {
    forall i: nat | i < |log| && log[i].data.minAcks > 0 ensures 2 * log[i].data.minAcks > |ids| {
      assert Anchored(h, log, i);
      assert log[..i + 1][i] == h.leaders[log[i].term].log[i];
    }
  }

  lemma AllBarsOk(s: System)
    requires Inv(s)
    ensures forall x :: x in s.history.leaders ==> BarsOk(s.history.leaders[x].log, |s.ids|)
  {
    forall x | x in s.history.leaders ensures BarsOk(s.history.leaders[x].log, |s.ids|) {
      assert LeaderOk(s.history, s.ids, x);
    }
  }

  lemma NewLeaderOk(h: History, g: History, ids: set<Id>, n: NodeState, granted: set<Id>)
    requires Elected(h, g, n, granted + {n.id}) && n.id in ids
    requires CampaignOk(h, ids, n, n.currentTerm, granted) && n.role == Candidate
    requires BallotOk(h, ids, Slot(n.currentTerm, n.id)) && 2 * |granted + {n.id}| > |ids|
    requires LogOk(h, n.log) && BarsOk(n.log, |ids|)
    ensures LeaderOk(g, ids, n.currentTerm)
  {
    ElectionExtends(h, g, n, granted + {n.id});
    LogOkGrows(h, g, n.log);
  }

  /** Leaderships of other terms are not touched by one term's leader. */
  lemma OtherLeaderOk(h: History, g: History, ids: set<Id>, v: Id, t: int)
    requires Extends(h, g, v) && t in h.leaders && LeaderOk(h, ids, t) && g.leaders[t] == h.leaders[t]
    requires var own := Slot(t, h.leaders[t].leader); own in g.acks && g.acks[own] == h.acks[own]
    ensures LeaderOk(g, ids, t)
  {
    LogOkGrows(h, g, h.leaders[t].log);
  }

  lemma AckFact(s: System, a: Slot)
    requires Inv(s) && a in s.history.acks
    ensures AckOk(s.history, s.ids, a) && SlotPast(s, a)
  {}

  lemma LeaderFact(s: System, t: int)
    requires Inv(s) && t in s.history.leaders
    ensures LeaderOk(s.history, s.ids, t)
    ensures Slot(t, s.history.leaders[t].leader) in s.history.acks
  {}

  /** From `h` to `g` only the leadership and the acknowledgement of `n` in its current term have changed;
      the leader log of that term is now `n.log`. */
  ghost predicate OwnTermChange(h: History, g: History, n: NodeState) {
    var own := Slot(n.currentTerm, n.id);
    && Extends(h, g, n.id) && g.ballots == h.ballots
    && n.currentTerm in g.leaders && g.leaders[n.currentTerm].log == n.log
    && own in g.acks && g.acks[own] == |n.log|
    && (forall t :: t in g.leaders && t != n.currentTerm ==> t in h.leaders && g.leaders[t] == h.leaders[t])
    && (forall a :: a in g.acks && a != own ==> a in h.acks && g.acks[a] == h.acks[a])
  }

  lemma HistoryAfterOwnChange(s: System, n: NodeState, g: History)
    requires Inv(s) && n.id in s.nodes && OwnTermChange(s.history, g, n)
    requires LeaderOk(g, s.ids, n.currentTerm) && s.nodes[n.id].currentTerm == n.currentTerm
    ensures NewHistoryOk(s.history, g, s.ids, n.id, n.currentTerm)
  {
    hide Inv, LeaderOk, BallotOk;
    forall t | t in g.leaders && g.leaders[t].leader == n.id ensures LeaderOk(g, s.ids, t) {
      if t != n.currentTerm {
        LeaderFact(s, t);
        OtherLeaderOk(s.history, g, s.ids, n.id, t);
      }
    }
    forall a | a in g.acks && a.node == n.id ensures AckOk(g, s.ids, a) && a.term <= n.currentTerm {
      MemberNames(s, n.id);
      if a != Slot(n.currentTerm, n.id) {
        AckFact(s, a);
      }
    }
  }

  lemma LongerLogKept(h: History, log: Log, log': Log, t: int, k: nat, hi: int)
    requires Kept(h, log, t, k, hi) && log <= log'
    ensures Kept(h, log', t, k, hi)
  {}

  lemma KeptAfterOwnChange(s: System, n: NodeState, g: History)
    requires Inv(s) && n.id in s.nodes && OwnTermChange(s.history, g, n)
    requires n.currentTerm == s.nodes[n.id].currentTerm && s.nodes[n.id].log <= n.log
    ensures KeptByNode(g, n)
  {
    hide Inv, Kept, MemberOk, Extends, NodeOk, Grows;
    var h, m := s.history, s.nodes[n.id];
    ExtensionGrows(h, g, n.id);
    MemberFacts(s, n.id);
    forall a: Slot, k: nat | Held(g, a, k) && a.node == n.id
      ensures Kept(g, n.log, a.term, k, n.currentTerm + 1)
    {
      if a == Slot(n.currentTerm, n.id) {
        OwnLogKept(g, n.log, n.currentTerm, k, n.currentTerm + 1);
      } else {
        assert Held(h, a, k);
        AckFact(s, a);
        LongerLogKept(h, m.log, n.log, a.term, k, n.currentTerm + 1);
        KeptGrows(h, g, n.log, a.term, k, n.currentTerm + 1, n.currentTerm + 1);
      }
    }
  }

  lemma BallotsKeptAfterOwnChange(s: System, n: NodeState, g: History, b: Slot)
    requires Inv(s) && n.id in s.nodes && OwnTermChange(s.history, g, n)
    requires n.currentTerm == s.nodes[n.id].currentTerm && b in g.ballots && b.node == n.id
    ensures KeptByBallot(g, b)
  {
    hide Inv, Kept, BallotOk;
    var h := s.history;
    MemberNames(s, n.id);
    BallotFacts(s, b);
    if Relevant(g, b) {
      assert Relevant(h, b) by { assert b.term in h.leaders ==> SameLeadership(h, g, b.term); }
      ExtensionGrows(h, g, n.id);
      hide Extends, Grows;
      forall a: Slot, k: nat | Held(g, a, k) && a.node == b.node && a.term < b.term
        ensures Kept(g, g.ballots[b].log, a.term, k, b.term)
      {
        assert Held(h, a, k);
        AckFact(s, a);
        KeptGrows(h, g, h.ballots[b].log, a.term, k, b.term, b.term);
      }
    }
  }

  lemma SurvivalAfterOwnChange(s: System, n: NodeState, g: History)
    requires Inv(s) && n.id in s.nodes && OwnTermChange(s.history, g, n)
    requires n.currentTerm == s.nodes[n.id].currentTerm && s.nodes[n.id].log <= n.log
    ensures NewSurvival(g, n)
  {
    hide Inv, KeptByNode, KeptByBallot, OwnTermChange;
    KeptAfterOwnChange(s, n, g);
    forall b | b in g.ballots && b.node == n.id ensures KeptByBallot(g, b) {
      BallotsKeptAfterOwnChange(s, n, g, b);
    }
  }

  lemma MemberNames(s: System, v: Id)
    requires Inv(s) && v in s.nodes
    ensures v in s.ids && s.nodes[v].id == v && v in s.phases
  {
    MemberFacts(s, v);
  }

  lemma OwnLogKept(g: History, log: Log, t: int, k: nat, hi: int)
    requires t in g.leaders && g.leaders[t].log == log && k <= |log|
    ensures Kept(g, log, t, k, hi)
  {}

  lemma ElectedNodeOk(h: History, g: History, ids: set<Id>, m: NodeState, p: Phase, n: NodeState, voters: set<Id>)
    requires NodeOk(h, ids, m, p) && n == m.(role := Leader) && Elected(h, g, n, voters)
    ensures NodeOk(g, ids, n, Dispatching)
  {
    ElectionExtends(h, g, n, voters);
    LogOkGrows(h, g, n.log);
    CommittedGrows(h, g, ids, n.log[..n.commitIndex + 1], n.currentTerm, n.currentTerm);
    hide LogOk, Committed, Extends, Grows, PhaseOk;
  }

  /** No message of a term exists before the term has a leader. */
  lemma NoLoopBeforeElection(s: System, n: NodeState)
    requires Inv(s) && n.currentTerm !in s.history.leaders
    ensures forall m :: m in s.net ==> LoopEntered(n, Dispatching, m)
  {
    forall m | m in s.net ensures LoopEntered(n, Dispatching, m) {
      MessageFacts(s, m);
    }
  }

  lemma ElectedByGrants(h: History, n: NodeState, voters: set<Id>)
    requires n.currentTerm !in h.leaders && Slot(n.currentTerm, n.id) !in h.acks
    ensures Elected(h, WithLeader(h, n, voters), n, voters)
  {}

  lemma CampaignParts(h: History, ids: set<Id>, n: NodeState, p: Phase)
    requires NodeOk(h, ids, n, p) && p.Campaigning?
    ensures CampaignOk(h, ids, n, p.term, p.granted) && LogOk(h, n.log) && Slot(p.term, n.id) in h.ballots
  {}

  lemma ElectionIsOwnChange(h: History, g: History, n: NodeState, voters: set<Id>)
    requires Elected(h, g, n, voters)
    ensures OwnTermChange(h, g, n) && n.currentTerm in g.leaders
  {}

  /** The winner's state and leadership are in order under the history that records the win. */
  lemma WinnerStateOk(s: System, v: Id, n: NodeState, voters: set<Id>, g: History)
    requires Inv(s) && v in s.nodes && v in s.phases && s.phases[v].Campaigning?
    requires 1 + |s.phases[v].granted| >= Majority(s.nodes[v]) && MayPromote(s.nodes[v], s.phases[v].term)
    requires n == s.nodes[v].(role := Leader) && voters == s.phases[v].granted + {v}
    requires g == WithLeader(s.history, n, voters)
    ensures n.id == v && n.currentTerm !in s.history.leaders && Elected(s.history, g, n, voters)
    ensures NodeOk(g, s.ids, n, Dispatching)
    ensures n.currentTerm in g.leaders && LeaderOk(g, s.ids, n.currentTerm)
  {
    hide Inv, NodeOk, MemberOk, BallotOk, LeaderOk, Elected, CampaignOk, LogOk, BarsOk, WithLeader, KeptByBallot,
      Majority;
    var h, m, p := s.history, s.nodes[v], s.phases[v];
    MemberFacts(s, v);
    NoSecondLeader(s, v);
    NoAckWithoutLeader(s, Slot(p.term, v));
    ElectedByGrants(h, n, voters);
    CampaignParts(h, s.ids, m, p);
    BallotFacts(s, Slot(p.term, v));
    AllBarsOk(s);
    BarsFromAnchors(h, s.ids, m.log);
    ElectedLeaderOk(h, g, s.ids, m, n, p.granted);
    ElectedNodeOk(h, g, s.ids, m, p, n, voters);
    ElectionIsOwnChange(h, g, n, voters);
  }

  lemma PromotionStep(s: System, v: Id, n: NodeState, voters: set<Id>, g: History)
    requires Inv(s) && v in s.nodes && v in s.phases && s.phases[v].Campaigning?
    requires 1 + |s.phases[v].granted| >= Majority(s.nodes[v]) && MayPromote(s.nodes[v], s.phases[v].term)
    requires n == s.nodes[v].(role := Leader) && voters == s.phases[v].granted + {v}
    requires g == WithLeader(s.history, n, voters)
    ensures Inv(Update(s, n, Dispatching, {}, g))
  {
    hide Inv, NodeOk, MemberOk, LeaderOk, Elected, NewHistoryOk, NewSurvival, LoopEntered, OwnTermChange, WithLeader,
      Extends, Majority, Update;
    MemberFacts(s, v);
    WinnerStateOk(s, v, n, voters, g);
    ElectionExtends(s.history, g, n, voters);
    ElectionIsOwnChange(s.history, g, n, voters);
    HistoryAfterOwnChange(s, n, g);
    SurvivalAfterOwnChange(s, n, g);
    NoLoopBeforeElection(s, n);
    MemberSurvives(s.nodes[v], n, v, s.ids);
    StepKeepsInv(s, n, Dispatching, {}, g);
  }

  lemma PromotionIsDone(s: System, v: Id, n: NodeState, voters: set<Id>)
    requires Feasible(s, Win(v)) && MayPromote(s.nodes[v], s.phases[v].term)
    requires n == s.nodes[v].(role := Leader) && voters == s.phases[v].granted + {v}
    ensures DoWin(s, v) == Update(s, n, Dispatching, {}, WithLeader(s.history, n, voters))
    ensures s.phases[v].Campaigning? && 1 + |s.phases[v].granted| >= Majority(s.nodes[v])
  {
    hide Update, WithLeader, Majority;
  }

  lemma PromotionKeeps(s: System, v: Id, t: System)
    requires Feasible(s, Win(v)) && MayPromote(s.nodes[v], s.phases[v].term)
    requires t == DoWin(s, v)
    requires Inv(s)
    ensures Inv(t)
  {
    hide Inv, Majority, Update, WithLeader, DoWin;
    var n := s.nodes[v].(role := Leader);
    var voters := s.phases[v].granted + {v};
    PromotionIsDone(s, v, n, voters);
    PromotionStep(s, v, n, voters, WithLeader(s.history, n, voters));
  }

  lemma ElectedLeaderOk(h: History, g: History, ids: set<Id>, m: NodeState, n: NodeState, granted: set<Id>)
    requires n == m.(role := Leader) && m.role == Candidate && n.id in ids
    requires Elected(h, g, n, granted + {n.id}) && CampaignOk(h, ids, m, m.currentTerm, granted)
    requires BallotOk(h, ids, Slot(n.currentTerm, n.id)) && 2 * |granted + {n.id}| > |ids|
    requires LogOk(h, n.log) && BarsOk(n.log, |ids|)
    ensures LeaderOk(g, ids, n.currentTerm)
  {
    hide CampaignOk, BallotOk, LogOk, BarsOk, LeaderOk;
    assert Elected(h, g, m, granted + {m.id});
    NewLeaderOk(h, g, ids, m, granted);
  }

  lemma WinKeeps(s: System, v: Id, t: System)
    requires Enabled(s, Win(v))
    requires t == DoWin(s, v)
    requires Inv(s)
    ensures Inv(t)
  {
    hide Inv;
    if MayPromote(s.nodes[v], s.phases[v].term) {
      PromotionKeeps(s, v, t);
    } else {
      BackToDispatch(s, v);
    }
  }

  // ---------- growing ----------

  /** `g` is `h` after the leader `n` has appended to its log. */
  ghost predicate Grown(h: History, g: History, n: NodeState) {
    var own := Slot(n.currentTerm, n.id);
    && n.currentTerm in h.leaders && h.leaders[n.currentTerm].leader == n.id
    && h.leaders[n.currentTerm].log <= n.log
    && own in h.acks && h.acks[own] <= |n.log|
    && g == h.(leaders := h.leaders[n.currentTerm := h.leaders[n.currentTerm].(log := n.log)],
               acks := h.acks[own := |n.log|])
  }

  lemma GrowthExtends(h: History, g: History, n: NodeState)
    requires Grown(h, g, n)
    ensures Extends(h, g, n.id)
  {}

  lemma GrowthIsOwnChange(h: History, g: History, n: NodeState)
    requires Grown(h, g, n)
    ensures OwnTermChange(h, g, n)
  {}

  lemma ProposedLogOk(h: History, g: History, m: NodeState, n: NodeState)
    requires Grown(h, g, n) && LogStateOk(h, m) && m.id == n.id && m.role == Leader
    requires |n.log| > 0 && n.log == m.log + [LogEntry(n.currentTerm, n.log[|n.log| - 1].data)]
    requires n.currentTerm == m.currentTerm
    ensures LogOk(g, n.log) && TermsBelow(n.log, n.currentTerm + 1)
  {
    GrowthExtends(h, g, n);
    LogOkGrows(h, g, m.log);
    forall i: nat | i < |n.log| ensures Anchored(g, n.log, i) {
      if i < |m.log| {
        assert Anchored(g, m.log, i);
        assert n.log[..i + 1] == m.log[..i + 1];
      }
    }
  }

  lemma GrownLeaderOk(h: History, g: History, ids: set<Id>, m: NodeState, n: NodeState)
    requires Grown(h, g, n) && LeaderOk(h, ids, n.currentTerm) && h.leaders[n.currentTerm].log == m.log
    requires |n.log| > 0 && n.log == m.log + [LogEntry(n.currentTerm, n.log[|n.log| - 1].data)]
    requires LogOk(g, n.log)
    requires n.log[|n.log| - 1].data.minAcks > 0 ==> 2 * n.log[|n.log| - 1].data.minAcks > |ids|
    ensures LeaderOk(g, ids, n.currentTerm)
  {}

  lemma GrownNodeOk(h: History, g: History, ids: set<Id>, m: NodeState, n: NodeState, p: Phase)
    requires NodeOk(h, ids, m, p) && n == m.(log := n.log) && m.log <= n.log && m.role == Leader
    requires Grown(h, g, n) && LogOk(g, n.log) && TermsBelow(n.log, n.currentTerm + 1)
    ensures NodeOk(g, ids, n, p)
  {
    GrowthExtends(h, g, n);
    assert n.log[..n.commitIndex + 1] == m.log[..m.commitIndex + 1];
    assert n.log[..n.lastApplied + 1] == m.log[..m.lastApplied + 1];
    CommittedGrows(h, g, ids, n.log[..n.commitIndex + 1], n.currentTerm, n.currentTerm);
    hide LogOk, Committed, Extends, Grows;
    if p.Leading? {
      forall q | q in n.peers ensures ReplicationOk(g, n, q) {
        assert ReplicationOk(h, m, q);
      }
    }
  }

  lemma LeaderOwnsTerm(h: History, ids: set<Id>, n: NodeState, p: Phase)
    requires NodeOk(h, ids, n, p) && n.role == Leader
    ensures n.currentTerm in h.leaders && h.leaders[n.currentTerm].leader == n.id &&
        h.leaders[n.currentTerm].log == n.log
    ensures LogStateOk(h, n)
  {}

  lemma ProposeAccepted(s: System, v: Id, data: Data, t: System)
    requires Enabled(s, Propose(v, data)) && OnPropose(s.nodes[v], data).1.None?
    requires t == DoPropose(s, v, data)
    requires Inv(s)
    ensures Inv(t)
  {
    hide Inv, NodeOk, LeaderOk, Grown, NewHistoryOk, NewSurvival, LoopEntered, LogStateOk, LogOk, TermsBelow,
      OwnTermChange;
    var h, m, p := s.history, s.nodes[v], s.phases[v];
    var n := OnPropose(m, data).0;
    MemberFacts(s, v);
    LeaderOwnsTerm(h, s.ids, m, p);
    LeaderFact(s, m.currentTerm);
    OwnAckIsWholeLog(h, s.ids, m.currentTerm);
    var g := WithGrowth(h, n);
    assert Grown(h, g, n) by { GrownByProposal(h, n); }
    GrowthExtends(h, g, n);
    ProposedLogOk(h, g, m, n);
    ClusterIsIds(m, v, s.ids);
    GrownLeaderOk(h, g, s.ids, m, n);
    GrownNodeOk(h, g, s.ids, m, n, p);
    GrowthIsOwnChange(h, g, n);
    HistoryAfterOwnChange(s, n, g);
    SurvivalAfterOwnChange(s, n, g);
    LoopsKept(s, n, p);
    MemberSurvives(m, n, v, s.ids);
    hide Extends, MemberOk;
    StepKeepsInv(s, n, p, {}, g);
  }

  lemma OwnAckIsWholeLog(h: History, ids: set<Id>, t: int)
    requires t in h.leaders && LeaderOk(h, ids, t)
    ensures var own := Slot(t, h.leaders[t].leader); own in h.acks && h.acks[own] == |h.leaders[t].log|
  {}

  lemma GrownByProposal(h: History, n: NodeState)
    requires n.currentTerm in h.leaders && h.leaders[n.currentTerm].leader == n.id
    requires h.leaders[n.currentTerm].log < n.log
    requires var own := Slot(n.currentTerm, n.id); own in h.acks && h.acks[own] == |h.leaders[n.currentTerm].log|
    ensures Grown(h, WithGrowth(h, n), n)
  {}

  lemma ProposeKeeps(s: System, v: Id, data: Data, t: System)
    requires Enabled(s, Propose(v, data))
    requires t == DoPropose(s, v, data)
    requires Inv(s)
    ensures Inv(t)
  {
    hide Inv, NodeOk, MemberOk;
    if OnPropose(s.nodes[v], data).1.None? {
      ProposeAccepted(s, v, data, t);
    } else {
      MemberFacts(s, v);
      SilentStep(s, s.nodes[v], s.phases[v]);
    }
  }
}
