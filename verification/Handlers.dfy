/** Each handler of the node as a function from the old fields to the new ones. */
module Handlers {
  import opened RaftTypes
  import opened RaftLog
  import opened CommitRule

  function NewNode(id: NodeId, clusterSize: nat, maxEntries: nat): NodeState {
    NodeState(id, 0, Follower, None, [], 0, 0, map[], map[], None, 0, clusterSize, maxEntries)
  }

  // ----- elections -----

  function StartElection(s: NodeState): (NodeState, VoteRequest) {
    var s' := s.(currentTerm := s.currentTerm + 1, role := Candidate, votedFor := Some(s.id),
                 currentLeader := None, voteCount := 1);
    var (lastIndex, lastTerm) := LastLogInfo(s.log);
    (s', VoteRequest(s'.currentTerm, s.id, lastIndex, lastTerm, false))
  }

  /** The vote is forgotten even when the term stays the same. */
  function BecomeFollower(s: NodeState, term: Term): NodeState
    requires term >= s.currentTerm
  {
    s.(currentTerm := term, role := Follower, votedFor := None, voteCount := 0)
  }

  function HandleVoteRequest(s: NodeState, req: VoteRequest): (NodeState, VoteResponse) {
    if req.term < s.currentTerm then
      (s, VoteResponse(s.currentTerm, false, req.preVote, Some(LastLogInfo(s.log).0)))
    else
      var s1 := if req.term > s.currentTerm then BecomeFollower(s, req.term) else s;
      var canVote := s1.votedFor.None? || s1.votedFor == Some(req.candidateId);
      var granted := canVote && IsLogUpToDate(s1.log, req.lastLogIndex, req.lastLogTerm);
      var s2 := if granted && !req.preVote then s1.(votedFor := Some(req.candidateId)) else s1;
      (s2, VoteResponse(s2.currentTerm, granted, req.preVote, Some(LastLogInfo(s2.log).0)))
  }

  /** Peer discovery is a placeholder in the source: no peers are ever known. */
  function PeerIds(): seq<NodeId> {
    []
  }

  function ResetProgress(s: NodeState, peers: seq<NodeId>): NodeState {
    if peers == [] then s
    else
      var r := ResetProgress(s, peers[..|peers| - 1]);
      var p := peers[|peers| - 1];
      r.(nextIndex := r.nextIndex[p := |s.log| + 1], matchIndex := r.matchIndex[p := 0])
  }

  function BecomeLeader(s: NodeState): NodeState {
    ResetProgress(s.(role := Leader, currentLeader := Some(s.id)), PeerIds())
  }

  predicate CountsVote(s: NodeState, resp: VoteResponse) {
    s.role.Candidate? && resp.term == s.currentTerm && resp.voteGranted
  }

  function HandleVoteResponse(s: NodeState, resp: VoteResponse): (NodeState, bool) {
    if !s.role.Candidate? then (s, false)
    else if resp.term > s.currentTerm then (BecomeFollower(s, resp.term), false)
    else if CountsVote(s, resp) then
      var s1 := s.(voteCount := s.voteCount + 1);
      if s1.voteCount >= Majority(s.clusterSize) then (BecomeLeader(s1), true) else (s1, false)
    else (s, false)
  }

  // ----- replication -----

  /** The follower accepts the batch: the term is not stale and the previous entry matches. */
  predicate Accepts(s: NodeState, req: AppendRequest) {
    req.term >= s.currentTerm && CheckLogConsistency(s.log, req.prevLogIndex, req.prevLogTerm)
  }

  function HandleAppendEntries(s: NodeState, req: AppendRequest): (NodeState, AppendResponse) {
    if req.term < s.currentTerm then
      (s, AppendResponse(s.currentTerm, false, Some(LastLogInfo(s.log).0), None, None, req.requestId))
    else
      var s1 := BecomeFollower(s, req.term).(currentLeader := Some(req.leaderId));
      if !CheckLogConsistency(s1.log, req.prevLogIndex, req.prevLogTerm) then
        var (conflictIndex, conflictTerm) := FindConflictInfo(s1.log, req.prevLogIndex);
        (s1, AppendResponse(s1.currentTerm, false, Some(LastLogInfo(s1.log).0),
                            Some(conflictIndex), conflictTerm, req.requestId))
      else
        var s2 := if req.entries == [] then s1
                  else s1.(log := ReplaceTail(s1.log, req.prevLogIndex, req.entries));
        var s3 := if req.leaderCommit > s2.commitIndex
                  then s2.(commitIndex := Min(req.leaderCommit, |s2.log|)) else s2;
        (s3, AppendResponse(s3.currentTerm, true, Some(LastLogInfo(s3.log).0), None, None, req.requestId))
  }

  function NextIndexOf(s: NodeState, follower: NodeId): nat {
    if follower in s.nextIndex then s.nextIndex[follower] else 1
  }

  function PrevIndexOf(s: NodeState, follower: NodeId): nat {
    var next := NextIndexOf(s, follower);
    if next == 0 then 0 else next - 1
  }

  function CreateAppendEntries(s: NodeState, follower: NodeId, requestId: nat): Result<AppendRequest> {
    if !s.role.Leader? then Err(NotLeader(s.currentLeader))
    else
      var prev := PrevIndexOf(s, follower);
      if prev > |s.log| then Err(LogInconsistency(prev))
      else
        var prevTerm := if prev == 0 then 0 else s.log[prev - 1].term;
        var tail := GetEntriesFrom(s.log, prev + 1);
        Ok(AppendRequest(s.currentTerm, s.id, prev, prevTerm, tail[..Min(s.maxEntries, |tail|)],
                         s.commitIndex, requestId))
  }

  /** Advance the commit index to the candidate when it is an own-term entry of the log. */
  ghost function TryAdvanceCommitIndex(s: NodeState): NodeState {
    var v := CommitCandidate(s.matchIndex, |s.log|);
    if s.role.Leader? && v > s.commitIndex && v <= |s.log| && s.log[v - 1].term == s.currentTerm
    then s.(commitIndex := v) else s
  }

  function HandleLogConflict(s: NodeState, follower: NodeId, resp: AppendResponse): NodeState {
    match resp.conflictIndex
    case Some(conflictIndex) =>
      var next :=
        match resp.conflictTerm
        case Some(t) =>
          var last := LastOfTerm(s.log, t);
          if last > 0 then last + 1 else conflictIndex
        case None => conflictIndex;
      s.(nextIndex := s.nextIndex[follower := next])
    case None =>
      if follower in s.nextIndex && s.nextIndex[follower] > 1
      then s.(nextIndex := s.nextIndex[follower := s.nextIndex[follower] - 1]) else s
  }

  /** The leader takes the follower's whole log length as its match. */
  function RecordProgress(s: NodeState, follower: NodeId, resp: AppendResponse): NodeState {
    match resp.lastLogIndex
    case Some(last) =>
      s.(nextIndex := s.nextIndex[follower := last + 1], matchIndex := s.matchIndex[follower := last])
    case None => s
  }

  ghost function HandleAppendResponse(s: NodeState, follower: NodeId, resp: AppendResponse): NodeState {
    if !s.role.Leader? then s
    else if resp.term > s.currentTerm then BecomeFollower(s, resp.term)
    else if resp.success then TryAdvanceCommitIndex(RecordProgress(s, follower, resp))
    else HandleLogConflict(s, follower, resp)
  }

  function AppendEntry(s: NodeState, command: seq<Byte>, timestamp: nat): (NodeState, Result<nat>) {
    if !s.role.Leader? then (s, Err(NotLeader(s.currentLeader)))
    else
      var index := |s.log| + 1;
      (s.(log := s.log + [LogEntry(s.currentTerm, command, index, timestamp, |command|)]), Ok(index))
  }

  // ----- applying -----

  datatype Applied = Applied(state: NodeState, handed: seq<LogEntry>, outcome: Result<()>)

  /**
   Hand committed entries to the state machine, which rejects the entry at index
   `failAt` if it gets that far. The cursor moves before the entry is handed over.
   */
  function ApplyCommitted(s: NodeState, failAt: Option<nat>): Applied
    decreases s.commitIndex - s.lastApplied
  {
    if s.lastApplied >= s.commitIndex then Applied(s, [], Ok(()))
    else
      var s1 := s.(lastApplied := s.lastApplied + 1);
      if s1.lastApplied > |s.log| then Applied(s1, [], Err(LogInconsistency(s1.lastApplied)))
      else
        var entry := s.log[s1.lastApplied - 1];
        if failAt == Some(s1.lastApplied) then Applied(s1, [entry], Err(ApplyFailed(s1.lastApplied)))
        else
          var rest := ApplyCommitted(s1, failAt);
          rest.(handed := [entry] + rest.handed)
  }

  /** From `s`, what is handed over is `handed` and then what `now` still hands over. */
  ghost predicate ApplySoFar(s: NodeState, now: NodeState, handed: seq<LogEntry>, failAt: Option<nat>) {
    var rest := ApplyCommitted(now, failAt);
    ApplyCommitted(s, failAt) == Applied(rest.state, handed + rest.handed, rest.outcome)
  }

  lemma ApplyStarts(s: NodeState, failAt: Option<nat>)
    ensures ApplySoFar(s, s, [], failAt)
  {
  }

  /** One turn of the loop ends it or hands over one more entry. */
  lemma ApplyGoesOn(s: NodeState, now: NodeState, handed: seq<LogEntry>, failAt: Option<nat>)
    requires ApplySoFar(s, now, handed, failAt)
    ensures var i, r := now.lastApplied + 1, ApplyCommitted(s, failAt);
            var now1 := now.(lastApplied := i);
            if now.lastApplied >= now.commitIndex then r == Applied(now, handed, Ok(()))
            else if i > |now.log| then r == Applied(now1, handed, Err(LogInconsistency(i)))
            else if failAt == Some(i) then r == Applied(now1, handed + [now.log[i - 1]], Err(ApplyFailed(i)))
            else ApplySoFar(s, now1, handed + [now.log[i - 1]], failAt)
  {
    var i := now.lastApplied + 1;
    if now.lastApplied < now.commitIndex && i <= |now.log| && failAt != Some(i) {
      var rest := ApplyCommitted(now.(lastApplied := i), failAt);
      assert handed + ([now.log[i - 1]] + rest.handed) == handed + [now.log[i - 1]] + rest.handed;
    }
  }
}
