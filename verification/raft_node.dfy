/** A Raft node whose locked sections update its fields in place. Each method is one section of the
    original under the node's mutex, proved to compute the transition named in RaftTypes. */
module RaftNode {
  import opened Wrappers
  import opened RaftTypes

  class Node {
    const id: Id
    const peers: seq<Id>
    var currentTerm: int
    var votedFor: Id
    var log: Log
    var state: Role
    var leaderID: Id
    var commitIndex: int
    var lastApplied: int
    var nextIndex: map<Id, int>
    var matchIndex: map<Id, int>
    var applied: Log

    ghost function Snapshot(): NodeState
      reads this
    {
      NodeState(id, peers, currentTerm, votedFor, log, state, leaderID, commitIndex, lastApplied,
                nextIndex, matchIndex, applied)
    }

    constructor (id: Id, peers: seq<Id>)
      ensures Snapshot() == NodeState(id, peers, 0, "", [], Follower, "", -1, -1, map[], map[], [])
    {
      this.id, this.peers := id, peers;
      currentTerm, votedFor, log, state, leaderID := 0, "", [], Follower, "";
      commitIndex, lastApplied := -1, -1;
      nextIndex, matchIndex, applied := map[], map[], [];
    }

    method HandleRequestVote(args: VoteArgs) returns (reply: VoteReply)
      modifies this
      ensures (Snapshot(), reply) == OnVoteRequest(old(Snapshot()), args)
      ensures reply.granted <==>
                && args.term >= old(currentTerm)
                && (args.term > old(currentTerm) || old(votedFor) == "" || old(votedFor) == args.candidate)
                && if log == [] then args.lastLogTerm > 0 || (args.lastLogTerm == 0 && args.lastLogIndex >= -1)
                   else args.lastLogTerm > log[|log| - 1].term
                        || (args.lastLogTerm == log[|log| - 1].term && args.lastLogIndex >= |log| - 1)
      ensures reply.term == currentTerm == if args.term > old(currentTerm) then args.term else old(currentTerm)
      ensures votedFor == if reply.granted then args.candidate
                          else if args.term > old(currentTerm) then "" else old(votedFor)
      ensures state == if args.term > old(currentTerm) then Follower else old(state)
      ensures log == old(log) && commitIndex == old(commitIndex) && applied == old(applied)
    {
      if args.term < currentTerm {
        return VoteReply(currentTerm, false);
      }
      if args.term > currentTerm {
        StepDownTo(args.term);
      }
      reply := VoteReply(currentTerm, false);
      var lastLogIndex, lastLogTerm := LastLogInfo();
      var candidateUpToDate :=
        args.lastLogTerm > lastLogTerm || (args.lastLogTerm == lastLogTerm && args.lastLogIndex >= lastLogIndex);
      if (votedFor == "" || votedFor == args.candidate) && candidateUpToDate {
        votedFor := args.candidate;
        reply := reply.(granted := true);
      }
    }

    method HandleAppendEntries(args: AppendArgs) returns (reply: AppendReply)
      requires args.prevLogIndex >= -1
      modifies this
      ensures (Snapshot(), reply) == OnAppend(old(Snapshot()), args)
      ensures reply.success <==>
                && args.term >= old(currentTerm)
                && (args.prevLogIndex >= 0 ==> args.prevLogIndex < |old(log)|
                                               && old(log)[args.prevLogIndex].term == args.prevLogTerm)
      ensures reply.term == currentTerm == if args.term > old(currentTerm) then args.term else old(currentTerm)
      ensures args.term < old(currentTerm) ==> Snapshot() == old(Snapshot())
      ensures args.term >= old(currentTerm) ==> state == Follower && leaderID == args.leader
      ensures !reply.success ==> log == old(log) && commitIndex == old(commitIndex)
      ensures reply.success ==>
                && args.prevLogIndex + 1 + |args.entries| <= |log|
                && commitIndex == if args.leaderCommit <= old(commitIndex) then old(commitIndex)
                                  else if args.leaderCommit < |log| then args.leaderCommit else |log| - 1
    {
      if args.term < currentTerm {
        return AppendReply(currentTerm, false);
      }
      if args.term > currentTerm {
        StepDownTo(args.term);
      } else {
        state := Follower;
      }
      leaderID := args.leader;
      if args.prevLogIndex >= 0 {
        if args.prevLogIndex >= |log| || log[args.prevLogIndex].term != args.prevLogTerm {
          return AppendReply(currentTerm, false);
        }
      }
      AcceptEntries(args);
      reply := AppendReply(currentTerm, true);
    }

    method AcceptEntries(args: AppendArgs)
      requires -1 <= args.prevLogIndex < |log|
      modifies this
      ensures Snapshot() == Accept(old(Snapshot()), args)
    {
      AppendAt(args.prevLogIndex + 1, args.entries);
      if args.leaderCommit > commitIndex {
        var newCommit := args.leaderCommit;
        if |log| - 1 < newCommit {
          newCommit := |log| - 1;
        }
        commitIndex := newCommit;
      }
    }

    /** The overwrite loop of HandleAppendEntries. */
    method AppendAt(insertAt: nat, entries: Log)
      requires insertAt <= |log|
      modifies this`log
      ensures log == Merged(old(log), insertAt, entries)
    {
      var i := 0;
      while i < |entries|
        invariant 0 <= i <= |entries|
        invariant log == old(log)
        invariant insertAt + i <= |log|
        invariant i <= AgreeCount(log, insertAt, entries)
      {
        var logIdx := insertAt + i;
        if logIdx < |log| {
          if log[logIdx].term != entries[i].term {
            log := log[..logIdx] + entries[i..];
            return;
          }
          AgreeCountPasses(log, insertAt, entries, i);
        } else {
          assert log[..logIdx] == log;
          log := log + entries[i..];
          return;
        }
        i := i + 1;
      }
    }

    method ProposeCommand(command: Data) returns (err: Option<ProposeError>)
      modifies this
      ensures (Snapshot(), err) == OnPropose(old(Snapshot()), command)
      ensures err.None? <==> && state == Leader
                             && (command.minAcks == 0 || (|peers| + 1) / 2 + 1 <= command.minAcks <= |peers| + 1)
      ensures log == old(log) + if err.None? then [LogEntry(currentTerm, command)] else []
      ensures state != Leader ==> err == Some(NotLeader(leaderID))
      ensures state == Leader && err.Some? ==>
                err == Some(MinAcksOutOfRange(command.minAcks, (|peers| + 1) / 2 + 1, |peers| + 1))
    {
      if state != Leader {
        return Some(NotLeader(leaderID));
      }
      if command.minAcks != 0 {
        var maj, maxN := (|peers| + 1) / 2 + 1, |peers| + 1;
        if command.minAcks < maj || command.minAcks > maxN {
          return Some(MinAcksOutOfRange(command.minAcks, maj, maxN));
        }
      }
      log := log + [LogEntry(currentTerm, command)];
      err := None;
    }

    method ElectionTimeout()
      modifies this
      ensures Snapshot() == OnElectionTimeout(old(Snapshot())) == old(Snapshot()).(role := Candidate)
    {
      state := Candidate;
    }

    method StartCampaign() returns (args: VoteArgs)
      modifies this
      ensures (Snapshot(), args) == OnCampaign(old(Snapshot()))
      ensures currentTerm == old(currentTerm) + 1 && votedFor == id && leaderID == "" && state == old(state)
      ensures args == VoteArgs(currentTerm, id, |log| - 1, if log == [] then 0 else log[|log| - 1].term)
      ensures log == old(log) && commitIndex == old(commitIndex) && applied == old(applied)
    {
      currentTerm := currentTerm + 1;
      votedFor := id;
      leaderID := "";
      var lastLogIndex, lastLogTerm := LastLogInfo();
      args := VoteArgs(currentTerm, id, lastLogIndex, lastLogTerm);
    }

    method PromoteIfStillCandidate(term: int)
      modifies this
      ensures Snapshot() == OnPromote(old(Snapshot()), term)
      ensures Snapshot() == if old(state) == Candidate && currentTerm == term
                            then old(Snapshot()).(role := Leader) else old(Snapshot())
    {
      if state == Candidate && currentTerm == term {
        state := Leader;
      }
    }

    /** The section that opens the leader loop: replication state is reset for every peer. */
    method BeginLeading()
      modifies this
      ensures Snapshot() == OnBeginLeading(old(Snapshot()))
      ensures leaderID == id && state == old(state) && currentTerm == old(currentTerm) && log == old(log)
      ensures forall p :: p in nextIndex <==> p in peers
      ensures forall p :: p in matchIndex <==> p in peers
      ensures forall p :: p in peers ==> nextIndex[p] == |log| && matchIndex[p] == -1
    {
      nextIndex, matchIndex := FreshReplicationMaps(|log|);
      leaderID := id;
    }

    method FreshReplicationMaps(next: int) returns (nextIndex: map<Id, int>, matchIndex: map<Id, int>)
      ensures nextIndex == Uniform(peers, next) && matchIndex == Uniform(peers, -1)
    {
      nextIndex, matchIndex := map[], map[];
      var i := 0;
      while i < |peers|
        invariant 0 <= i <= |peers|
        invariant nextIndex == Uniform(peers[..i], next)
        invariant matchIndex == Uniform(peers[..i], -1)
      {
        nextIndex := nextIndex[peers[i] := next];
        matchIndex := matchIndex[peers[i] := -1];
        assert peers[..i + 1] == peers[..i] + [peers[i]];
        i := i + 1;
      }
      assert peers[..|peers|] == peers;
    }

    /** The section of sendAppendEntries before the RPC. */
    method PrepareAppend(peer: Id, term: int) returns (args: Option<AppendArgs>)
      requires state == Leader && currentTerm == term ==> CanSend(Snapshot(), peer)
      ensures args == if state == Leader && currentTerm == term then Some(AppendFor(Snapshot(), peer, term)) else None
      ensures args.Some? <==> state == Leader && currentTerm == term
      ensures args.Some? ==>
                var next := if peer in nextIndex then nextIndex[peer] else 0;
                && 0 <= next <= |log| && args.value.term == term && args.value.leader == id
                && args.value.entries == log[next..] && args.value.leaderCommit == commitIndex
                && args.value.prevLogIndex == next - 1
                && args.value.prevLogTerm == if next == 0 then 0 else log[next - 1].term
    {
      if state != Leader || currentTerm != term {
        return None;
      }
      var prevLogIndex := Lookup(nextIndex, peer) - 1;
      var prevLogTerm := 0;
      if prevLogIndex >= 0 && prevLogIndex < |log| {
        prevLogTerm := log[prevLogIndex].term;
      }
      args := Some(AppendArgs(term, id, prevLogIndex, prevLogTerm, log[Lookup(nextIndex, peer)..], commitIndex));
    }

    method HandleVoteReply(reply: VoteReply)
      modifies this
      ensures Snapshot() == OnVoteReply(old(Snapshot()), reply)
      ensures Snapshot() == if reply.term <= old(currentTerm) then old(Snapshot())
                            else old(Snapshot()).(currentTerm := reply.term, role := Follower, votedFor := "",
                                                  leaderId := "")
    {
      if reply.term > currentTerm {
        StepDownTo(reply.term);
      }
    }

    /** The section of sendAppendEntries after the RPC. */
    method HandleAppendReply(peer: Id, term: int, shipped: nat, reply: AppendReply)
      requires -1 <= commitIndex
      modifies this
      ensures Snapshot() == OnAppendReply(old(Snapshot()), peer, term, shipped, reply)
      ensures reply.term > old(currentTerm) ==>
                Snapshot() == old(Snapshot()).(currentTerm := reply.term, role := Follower, votedFor := "",
                                               leaderId := "")
      ensures reply.term <= old(currentTerm) && (old(state) != Leader || old(currentTerm) != term) ==>
                Snapshot() == old(Snapshot())
      ensures reply.term <= old(currentTerm) == term && old(state) == Leader && reply.success ==>
                && log == old(log)
                && nextIndex == (if shipped > 0 then old(nextIndex)[peer := |log|] else old(nextIndex))
                && matchIndex == (if shipped > 0 then old(matchIndex)[peer := |log| - 1] else old(matchIndex))
      ensures reply.term <= old(currentTerm) == term && old(state) == Leader && !reply.success ==>
                var next := if peer in old(nextIndex) then old(nextIndex)[peer] else 0;
                Snapshot() == if next > 0 then old(Snapshot()).(nextIndex := old(nextIndex)[peer := next - 1])
                              else old(Snapshot())
    {
      if reply.term > currentTerm {
        StepDownTo(reply.term);
        return;
      }
      if state != Leader || currentTerm != term {
        return;
      }
      if reply.success {
        if shipped > 0 {
          nextIndex := nextIndex[peer := |log|];
          matchIndex := matchIndex[peer := |log| - 1];
        }
        var _ := MaybeAdvanceCommit(term);
      } else if Lookup(nextIndex, peer) > 0 {
        nextIndex := nextIndex[peer := Lookup(nextIndex, peer) - 1];
      }
    }

    method MaybeAdvanceCommit(term: int) returns (advanced: bool)
      requires -1 <= commitIndex
      modifies this`commitIndex
      ensures commitIndex == CommitFrom(old(Snapshot()), old(commitIndex), term)
      ensures advanced <==> commitIndex > old(commitIndex)
    {
      advanced := false;
      ghost var was := Snapshot();
      while true
        invariant -1 <= old(commitIndex) <= commitIndex
        invariant Snapshot() == was.(commitIndex := commitIndex)
        invariant CommitFrom(was, commitIndex, term) == CommitFrom(was, old(commitIndex), term)
        invariant advanced <==> commitIndex > old(commitIndex)
        decreases |log| - commitIndex
      {
        var next := commitIndex + 1;
        if next >= |log| || log[next].term != term {
          break;
        }
        var need := if log[next].data.minAcks > 0 then log[next].data.minAcks else |peers| + 1;
        var got := ReplicatedAckCount(next);
        assert got == 1 + PeerAcks(was.peers, was.matchIndex, next);
        assert need == MinAcksRequired(was, next);
        if got < need {
          break;
        }
        commitIndex := next;
        advanced := true;
      }
    }

    method ReplicatedAckCount(idx: int) returns (cnt: nat)
      ensures cnt == 1 + PeerAcks(peers, matchIndex, idx)
    {
      cnt := 1;
      var i := 0;
      while i < |peers|
        invariant 0 <= i <= |peers|
        invariant cnt == 1 + PeerAcks(peers[..i], matchIndex, idx)
      {
        if Lookup(matchIndex, peers[i]) >= idx {
          cnt := cnt + 1;
        }
        assert peers[..i + 1][..i] == peers[..i];
        i := i + 1;
      }
      assert peers[..|peers|] == peers;
    }

    /** One locked turn of the delivery loop; `more` is false when nothing is left to deliver. */
    method DeliverNext() returns (more: bool)
      requires lastApplied < commitIndex ==> 0 <= lastApplied + 1 < |log|
      modifies this
      ensures more <==> old(lastApplied < commitIndex)
      ensures Snapshot() == if more then OnDeliver(old(Snapshot())) else old(Snapshot())
      ensures more ==> && lastApplied == old(lastApplied) + 1 && log == old(log)
                       && applied == old(applied) + [log[lastApplied]]
    {
      if lastApplied >= commitIndex {
        return false;
      }
      lastApplied := lastApplied + 1;
      applied := applied + [log[lastApplied]];
      more := true;
    }

    method LastLogInfo() returns (index: int, term: int)
      ensures index == LastIndex(log) && term == LastTerm(log)
    {
      index := |log| - 1;
      if index < 0 {
        return -1, 0;
      }
      term := log[index].term;
    }

    method StepDownTo(term: int)
      modifies this
      ensures Snapshot() == StepDown(old(Snapshot()), term)
      ensures currentTerm == term && state == Follower && votedFor == "" && leaderID == ""
    {
      currentTerm := term;
      state := Follower;
      votedFor := "";
      leaderID := "";
    }
  }
}
