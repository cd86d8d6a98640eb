/** The Raft node as the object the source implements: its methods update the fields in place. */
module RaftNodes {
  import opened RaftTypes
  import opened RaftLog
  import opened CommitRule
  import opened CommitOrder
  import H = Handlers

  class RaftNode {
    const nodeId: NodeId
    const clusterSize: nat
    const maxEntriesPerAppend: nat
    var currentTerm: Term
    var state: Role
    var votedFor: Option<NodeId>
    var log: seq<LogEntry>
    var commitIndex: nat
    var lastApplied: nat
    var nextIndex: map<NodeId, nat>
    var matchIndex: map<NodeId, nat>
    var currentLeader: Option<NodeId>
    var voteCount: nat

    /** The fields as one value. */
    ghost function State(): NodeState
      reads this
    {
      NodeState(nodeId, currentTerm, state, votedFor, log, commitIndex, lastApplied, nextIndex, matchIndex,
                currentLeader, voteCount, clusterSize, maxEntriesPerAppend)
    }

    constructor (nodeId: NodeId, clusterSize: nat, maxEntriesPerAppend: nat)
      ensures State() == H.NewNode(nodeId, clusterSize, maxEntriesPerAppend)
      ensures this.nodeId == nodeId && this.clusterSize == clusterSize
      ensures this.maxEntriesPerAppend == maxEntriesPerAppend
      ensures currentTerm == 0 && state.Follower? && votedFor.None? && currentLeader.None? && voteCount == 0
      ensures log == [] && commitIndex == lastApplied == 0 && nextIndex == matchIndex == map[]
    {
      this.nodeId, this.clusterSize, this.maxEntriesPerAppend := nodeId, clusterSize, maxEntriesPerAppend;
      currentTerm, state, votedFor, log := 0, Follower, None, [];
      commitIndex, lastApplied, nextIndex, matchIndex := 0, 0, map[], map[];
      currentLeader, voteCount := None, 0;
    }

    method StartElection() returns (request: VoteRequest)
      modifies this
      ensures (State(), request) == H.StartElection(old(State()))
    {
      currentTerm := currentTerm + 1;
      state := Candidate;
      votedFor := Some(nodeId);
      currentLeader := None;
      voteCount := 1;
      var (lastLogIndex, lastLogTerm) := LastLogInfo(log);
      request := VoteRequest(currentTerm, nodeId, lastLogIndex, lastLogTerm, false);
    }

    method BecomeFollower(term: Term) returns (r: Result<()>)
      modifies this
      ensures r.Ok? <==> term >= old(currentTerm)
      ensures r.Ok? ==> State() == H.BecomeFollower(old(State()), term)
      ensures r.Err? ==> State() == old(State()) && r.error == TermMismatch(old(currentTerm), term)
    {
      if term < currentTerm {
        return Err(TermMismatch(currentTerm, term));
      }
      currentTerm := term;
      state := Follower;
      votedFor := None;
      voteCount := 0;
      r := Ok(());
    }

    method HandleVoteRequest(request: VoteRequest) returns (response: VoteResponse)
      modifies this
      ensures (State(), response) == H.HandleVoteRequest(old(State()), request)
    {
      if request.term < currentTerm {
        return VoteResponse(currentTerm, false, request.preVote, Some(LastLogInfo(log).0));
      }
      if request.term > currentTerm {
        var _ := BecomeFollower(request.term);
      }
      var canVote := votedFor.None? || votedFor == Some(request.candidateId);
      var candidateLogOk := IsLogUpToDate(log, request.lastLogIndex, request.lastLogTerm);
      var voteGranted := canVote && candidateLogOk;
      if voteGranted && !request.preVote {
        votedFor := Some(request.candidateId);
      }
      response := VoteResponse(currentTerm, voteGranted, request.preVote, Some(LastLogInfo(log).0));
    }

    method HandleVoteResponse(response: VoteResponse) returns (won: bool)
      modifies this
      ensures (State(), won) == H.HandleVoteResponse(old(State()), response)
    {
      if !state.Candidate? {
        return false;
      }
      if response.term > currentTerm {
        var _ := BecomeFollower(response.term);
        return false;
      }
      if response.term == currentTerm && response.voteGranted {
        voteCount := voteCount + 1;
        if voteCount >= clusterSize / 2 + 1 {
          var _ := BecomeLeader();
          return true;
        }
      }
      won := false;
    }

    method BecomeLeader() returns (r: Result<()>)
      modifies this
      ensures r == if old(state).Candidate? then Ok(()) else Err(NotCandidate)
      ensures State() == if old(state).Candidate? then H.BecomeLeader(old(State())) else old(State())
    {
      if !state.Candidate? {
        return Err(NotCandidate);
      }
      state := Leader;
      currentLeader := Some(nodeId);
      ResetProgress(H.PeerIds());
      r := Ok(());
    }

    /** Start every known peer from the end of the log. */
    method ResetProgress(peers: seq<NodeId>)
      modifies this
      ensures State() == H.ResetProgress(old(State()), peers)
    {
      var lastLogIndex := |log|;
      for i := 0 to |peers|
        invariant log == old(log) && State() == H.ResetProgress(old(State()), peers[..i])
      {
        nextIndex := nextIndex[peers[i] := lastLogIndex + 1];
        matchIndex := matchIndex[peers[i] := 0];
        assert peers[..i + 1][..i] == peers[..i];
      }
      assert peers[..|peers|] == peers;
    }

    method HandleAppendEntries(request: AppendRequest) returns (response: AppendResponse)
      modifies this
      ensures (State(), response) == H.HandleAppendEntries(old(State()), request)
    {
      hide LastLogInfo; hide FindConflictInfo;
      if request.term < currentTerm {
        return AppendResponse(currentTerm, false, Some(LastLogInfo(log).0), None, None, request.requestId);
      }
      var _ := BecomeFollower(request.term);
      currentLeader := Some(request.leaderId);
      if !CheckLogConsistency(log, request.prevLogIndex, request.prevLogTerm) {
        var conflictIndex, conflictTerm := FindConflict(request.prevLogIndex);
        return AppendResponse(currentTerm, false, Some(LastLogInfo(log).0), Some(conflictIndex), conflictTerm,
                              request.requestId);
      }
      if request.entries != [] {
        AppendNewEntries(request.prevLogIndex, request.entries);
      }
      if request.leaderCommit > commitIndex {
        commitIndex := Min(request.leaderCommit, |log|);
      }
      response := AppendResponse(currentTerm, true, Some(LastLogInfo(log).0), None, None, request.requestId);
    }

    /** Scan for the first entry of the conflicting term. */
    method FindConflict(prevLogIndex: nat) returns (conflictIndex: nat, conflictTerm: Option<Term>)
      ensures (conflictIndex, conflictTerm) == FindConflictInfo(log, prevLogIndex)
    {
      if prevLogIndex > |log| {
        return |log|, None;
      }
      if prevLogIndex > 0 {
        var t := log[prevLogIndex - 1].term;
        var i := 0;
        while log[i].term != t
          invariant 0 <= i < prevLogIndex
          invariant forall j | 0 <= j < i :: log[j].term != t
          decreases prevLogIndex - i
        {
          i := i + 1;
        }
        return i + 1, Some(t);
      }
      return 1, None;
    }

    method AppendNewEntries(prevLogIndex: nat, entries: seq<LogEntry>)
      modifies this`log
      ensures log == ReplaceTail(old(log), Min(prevLogIndex, |old(log)|), entries)
    {
      log := log[..Min(prevLogIndex, |log|)];
      for i := 0 to |entries|
        invariant log == ReplaceTail(old(log), Min(prevLogIndex, |old(log)|), entries[..i])
      {
        log := log + [entries[i]];
      }
      assert entries[..|entries|] == entries;
    }

    method CreateAppendEntries(follower: NodeId, requestId: nat) returns (r: Result<AppendRequest>)
      ensures r == H.CreateAppendEntries(State(), follower, requestId)
    {
      if !state.Leader? {
        return Err(NotLeader(currentLeader));
      }
      var next := if follower in nextIndex then nextIndex[follower] else 1;
      var prevLogIndex := if next == 0 then 0 else next - 1;
      var prevLogTerm, entries := 0, [];
      if prevLogIndex == 0 {
        entries := GetEntriesFrom(log, 1);
      } else if prevLogIndex <= |log| {
        prevLogTerm, entries := log[prevLogIndex - 1].term, GetEntriesFrom(log, next);
      } else {
        return Err(LogInconsistency(prevLogIndex));
      }
      entries := entries[..Min(maxEntriesPerAppend, |entries|)];
      r := Ok(AppendRequest(currentTerm, nodeId, prevLogIndex, prevLogTerm, entries, commitIndex, requestId));
    }

    method HandleAppendEntriesResponse(follower: NodeId, response: AppendResponse)
      modifies this
      ensures State() == H.HandleAppendResponse(old(State()), follower, response)
    {
      hide CommitCandidate; hide LastOfTerm;
      if !state.Leader? {
        return;
      }
      if response.term > currentTerm {
        var _ := BecomeFollower(response.term);
        return;
      }
      if response.success {
        if response.lastLogIndex.Some? {
          nextIndex := nextIndex[follower := response.lastLogIndex.value + 1];
          matchIndex := matchIndex[follower := response.lastLogIndex.value];
        }
        TryAdvanceCommitIndex();
      } else {
        HandleLogConflict(follower, response);
      }
    }

    method TryAdvanceCommitIndex()
      modifies this`commitIndex
      ensures State() == H.TryAdvanceCommitIndex(old(State()))
    {
      hide IsCommitCandidate; hide CommitCandidate;
      if !state.Leader? {
        return;
      }
      var newCommitIndex := MiddleIndex(matchIndex, |log|);
      CandidateIsUnique(matchIndex, |log|, newCommitIndex, CommitCandidate(matchIndex, |log|));
      if newCommitIndex > commitIndex {
        if newCommitIndex <= |log| && log[newCommitIndex - 1].term == currentTerm {
          commitIndex := newCommitIndex;
        }
      }
    }

    method HandleLogConflict(follower: NodeId, response: AppendResponse)
      modifies this`nextIndex
      ensures State() == H.HandleLogConflict(old(State()), follower, response)
    {
      match response.conflictIndex {
        case Some(conflictIndex) =>
          var next := conflictIndex;
          if response.conflictTerm.Some? {
            var t := response.conflictTerm.value;
            var i := |log|;
            while i > 0
              invariant 0 <= i <= |log|
              invariant next == conflictIndex
              invariant forall j | i <= j < |log| :: log[j].term != t
            {
              if log[i - 1].term == t {
                next := i + 1;
                break;
              }
              i := i - 1;
            }
          }
          nextIndex := nextIndex[follower := next];
        case None =>
          if follower in nextIndex && nextIndex[follower] > 1 {
            nextIndex := nextIndex[follower := nextIndex[follower] - 1];
          }
      }
    }

    method AppendEntry(command: seq<Byte>, timestamp: nat) returns (r: Result<nat>)
      modifies this`log
      ensures (State(), r) == H.AppendEntry(old(State()), command, timestamp)
    {
      if !state.Leader? {
        return Err(NotLeader(currentLeader));
      }
      var index := |log| + 1;
      log := log + [LogEntry(currentTerm, command, index, timestamp, |command|)];
      r := Ok(index);
    }

    /** Hand committed entries over until done, a missing entry, or a rejection at `failAt`. */
    method ApplyCommittedEntries(failAt: Option<nat>) returns (handed: seq<LogEntry>, outcome: Result<()>)
      modifies this`lastApplied
      ensures H.Applied(State(), handed, outcome) == H.ApplyCommitted(old(State()), failAt)
    {
      hide H.ApplyCommitted; hide H.ApplySoFar;
      handed := [];
      H.ApplyStarts(State(), failAt);
      while lastApplied < commitIndex
        invariant H.ApplySoFar(old(State()), State(), handed, failAt)
        decreases commitIndex - lastApplied
      {
        H.ApplyGoesOn(old(State()), State(), handed, failAt);
        lastApplied := lastApplied + 1;
        if lastApplied <= |log| {
          var entry := log[lastApplied - 1];
          handed := handed + [entry];
          if failAt == Some(lastApplied) {
            return handed, Err(ApplyFailed(lastApplied));
          }
        } else {
          return handed, Err(LogInconsistency(lastApplied));
        }
      }
      H.ApplyGoesOn(old(State()), State(), handed, failAt);
      outcome := Ok(());
    }
  }
}
