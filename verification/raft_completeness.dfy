/** Leader completeness (section 5.4 of the Raft paper), by induction on terms from the invariant. */
module RaftCompleteness {
  import opened RaftTypes
  import opened RaftSystem
  import opened RaftInvariant

  lemma QuorumsMeet(ids: set<Id>, a: set<Id>, b: set<Id>) returns (w: Id)
    requires a <= ids && b <= ids && 2 * |a| > |ids| && 2 * |b| > |ids|
    ensures w in a && w in b
  {
    if a * b == {} {
      assert |a + b| == |a| + |b|;
      SubsetSize(a + b, ids);
      assert false;
      w := "";
    } else {
      w :| w in a * b;
    }
  }

  /** A log is a prefix of the log of its last entry's leader. */
  lemma WholeLogAnchored(h: History, log: Log)
    requires LogOk(h, log) && log != []
    ensures LastTerm(log) in h.leaders && log <= h.leaders[LastTerm(log)].log
  {
    assert Anchored(h, log, |log| - 1);
    assert log[..|log|] == log;
  }

  /** A log whose last entry is of term `x` reaches past what term `x`'s leader started with. */
  lemma PastTheBase(h: History, ids: set<Id>, log: Log)
    requires LogOk(h, log) && log != []
    requires LastTerm(log) in h.leaders && LeaderOk(h, ids, LastTerm(log))
    ensures h.leaders[LastTerm(log)].base <= log
  {
    WholeLogAnchored(h, log);
    var l := h.leaders[LastTerm(log)];
    assert forall i :: 0 <= i < |l.base| ==> l.base[i] == l.log[i];
    assert l.log[|log| - 1] == log[|log| - 1];
  }

  lemma LeaderTermsBounded(h: History, ids: set<Id>, t: int, i: nat)
    requires t in h.leaders && LeaderOk(h, ids, t) && i < |h.leaders[t].log|
    ensures h.leaders[t].log[i].term <= t
  {
    if i < |h.leaders[t].base| {
      assert h.leaders[t].base[i] == h.leaders[t].log[i];
    }
  }

  /** An up-to-date candidate log holds `p` when the voter's log does and all leaders in between do. */
  lemma UpToDateHolds(h: History, ids: set<Id>, p: Log, t: int, u: int, base: Log, voter: Log)
    requires forall x :: x in h.leaders ==> LeaderOk(h, ids, x)
    requires LogOk(h, base) && LogOk(h, voter) && TermsBelow(base, u)
    requires p != [] && LastTerm(p) == t && p <= voter
    requires AtLeastAsUpToDate(LastIndex(base), LastTerm(base), voter)
    requires forall x :: t < x < u && x in h.leaders ==> p <= h.leaders[x].base
    ensures p <= base
  {
    hide LeaderOk;
    WholeLogAnchored(h, voter);
    var tv := LastTerm(voter);
    assert 1 <= tv by { LeaderTermsPositive(h, ids, tv); }
    assert base != [];
    WholeLogAnchored(h, base);
    var x := LastTerm(base);
    if x == tv {
      assert voter <= base;
    } else {
      assert voter[|p| - 1] == p[|p| - 1] == h.leaders[tv].log[|p| - 1];
      LeaderTermsBounded(h, ids, tv, |p| - 1);
      assert t <= tv < x;
      assert base[|base| - 1].term == x;
      assert p <= h.leaders[x].base;
      PastTheBase(h, ids, base);
    }
  }

  lemma LeaderTermsPositive(h: History, ids: set<Id>, t: int)
    requires t in h.leaders && LeaderOk(h, ids, t)
    ensures 1 <= t
  {}

  /** What the proof of completeness for one leader needs from the invariant. */
  lemma VoterWitness(s: System, t: int, k: nat, u: int) returns (voter: Log)
    requires Inv(s) && Chosen(s.history, s.ids, t, k) && t < u && u in s.history.leaders
    ensures LogOk(s.history, voter)
    ensures var base := s.history.leaders[u].base;
            && AtLeastAsUpToDate(LastIndex(base), LastTerm(base), voter)
            && LogOk(s.history, base) && TermsBelow(base, u)
    ensures Kept(s.history, voter, t, k, u)
  {
    var h := s.history;
    assert LeaderOk(h, s.ids, u);
    var w := QuorumsMeet(s.ids, Holders(h, s.ids, t, k), h.leaders[u].voters);
    var b := Slot(u, w);
    assert BallotOk(h, s.ids, b);
    assert BallotOk(h, s.ids, Slot(u, h.leaders[u].leader));
    assert KeptByBallot(h, b) && Relevant(h, b);
    assert Held(h, Slot(t, w), k);
    voter := h.ballots[b].log;
  }

  lemma {:induction false} LeaderCompleteness(s: System, t: int, k: nat, u: int)
    requires Inv(s) && Chosen(s.history, s.ids, t, k) && t < u && u in s.history.leaders
    ensures LeaderPrefix(s.history, t, k) <= s.history.leaders[u].base
    decreases u - t
  {
    hide Inv;
    var h := s.history;
    var p := LeaderPrefix(h, t, k);
    var voter := VoterWitness(s, t, k, u);
    forall x | t < x < u && x in h.leaders ensures p <= h.leaders[x].base {
      LeaderCompleteness(s, t, k, x);
    }
    assert forall x :: t < x < u ==> !Skips(h, x, t, k);
    assert p <= voter;
    UpToDateHolds(h, s.ids, p, t, u, h.leaders[u].base, voter) by {
      AllLeadersOk(s);
    }
  }

  lemma AllLeadersOk(s: System)
    requires Inv(s)
    ensures forall x :: x in s.history.leaders ==> LeaderOk(s.history, s.ids, x)
  {}

  lemma BaseWithinLog(s: System, u: int)
    requires Inv(s) && u in s.history.leaders
    ensures s.history.leaders[u].base <= s.history.leaders[u].log
  {
    assert LeaderOk(s.history, s.ids, u);
  }

  /** A committed sequence is part of the log of every leader from its term on. */
  lemma CommittedInLaterLeaders(s: System, p: Log, hi: int, u: int)
    requires Inv(s) && Committed(s.history, s.ids, p, hi) && hi <= u && u in s.history.leaders
    ensures p <= s.history.leaders[u].log
  {
    hide Inv, LeaderOk;
    var h := s.history;
    if p != [] {
      var t, k: nat :| t <= hi && Chosen(h, s.ids, t, k) && p <= LeaderPrefix(h, t, k);
      if t < u {
        LeaderCompleteness(s, t, k, u);
        BaseWithinLog(s, u);
      }
    }
  }

  /** Any two committed sequences agree as far as both go. */
  lemma CommittedAgree(s: System, p: Log, q: Log, hp: int, hq: int)
    requires Inv(s) && Committed(s.history, s.ids, p, hp) && Committed(s.history, s.ids, q, hq)
    ensures p <= q || q <= p
  {
    hide Inv;
    var h := s.history;
    if p != [] && q != [] {
      var t, k: nat :| t <= hp && Chosen(h, s.ids, t, k) && p <= LeaderPrefix(h, t, k);
      var u, j: nat :| u <= hq && Chosen(h, s.ids, u, j) && q <= LeaderPrefix(h, u, j);
      assert Committed(h, s.ids, p, t) && Committed(h, s.ids, q, u);
      if t <= u {
        CommittedInLaterLeaders(s, p, t, u);
      } else {
        CommittedInLaterLeaders(s, q, u, t);
      }
    }
  }
}
