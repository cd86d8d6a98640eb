/**
 What each handler answers and when, said in the terms of its caller: who is granted a
 vote, what a conflict report and a batch contain, when the commit index has to move,
 which index a client is given. The laws do not mention the handlers' own helpers.
 */
module HandlerLaws {
  import opened RaftTypes
  import opened RaftLog
  import opened LogOrder
  import opened CommitRule
  import opened Handlers

  // ----- elections -----

  /** A node that starts an election votes for itself in the next term and knows no leader. */
  lemma ElectionLaw(s: NodeState, i: nat, t: Term)
    requires EndsAt(s.log, i, t)
    ensures var (s', q) := StartElection(s);
            && s'.role.Candidate? && s'.currentTerm == s.currentTerm + 1 && s'.votedFor == Some(s.id)
            && s'.voteCount == 1 && s'.currentLeader.None?
            && q == VoteRequest(s'.currentTerm, s.id, i, t, false)
            && SameElsewhere(s, s') && SameProgress(s, s')
  {
  }

  /** Log, cursors and configuration are as they were. */
  predicate SameElsewhere(s: NodeState, s': NodeState) {
    && s'.id == s.id && s'.clusterSize == s.clusterSize && s'.maxEntries == s.maxEntries
    && s'.log == s.log && s'.commitIndex == s.commitIndex && s'.lastApplied == s.lastApplied
  }

  predicate SameProgress(s: NodeState, s': NodeState) {
    s'.nextIndex == s.nextIndex && s'.matchIndex == s.matchIndex
  }

  /** The node, in the request's term, has not voted for another candidate. */
  predicate FreeFor(s: NodeState, q: VoteRequest) {
    q.term > s.currentTerm
    || (q.term == s.currentTerm && (s.votedFor.None? || s.votedFor == Some(q.candidateId)))
  }

  /**
   A vote is granted exactly to a request of no older term, by a node free to vote for the
   candidate, whose own last entry does not come after the candidate's.
   */
  lemma VoteLaw(s: NodeState, q: VoteRequest, i: nat, t: Term)
    requires EndsAt(s.log, i, t)
    ensures var (s', r) := HandleVoteRequest(s, q);
            && (r.voteGranted <==> FreeFor(s, q) && !After(t, i, q.lastLogTerm, q.lastLogIndex))
            && r.term == s'.currentTerm == Max(s.currentTerm, q.term)
            && r.preVote == q.preVote && r.lastLogIndex == Some(i)
            && s'.votedFor == (if r.voteGranted && !q.preVote then Some(q.candidateId)
                               else if q.term > s.currentTerm then None else s.votedFor)
            && (q.term > s.currentTerm ==> s'.role.Follower? && s'.voteCount == 0)
            && (q.term <= s.currentTerm ==> s'.role == s.role && s'.voteCount == s.voteCount)
            && s'.currentLeader == s.currentLeader && SameElsewhere(s, s') && SameProgress(s, s')
  {
  }

  /** A reply is reported as a win exactly when it makes a candidate leader: with more than half of the cluster. */
  lemma VoteReplyLaw(s: NodeState, r: VoteResponse)
    ensures var (s', won) := HandleVoteResponse(s, r);
            && (won <==> s.role.Candidate? && s'.role.Leader?)
            && (won <==> s.role.Candidate? && r.term == s.currentTerm && r.voteGranted
                         && 2 * (s.voteCount + 1) > s.clusterSize)
            && (won ==> s'.currentLeader == Some(s.id)) && (!won ==> s'.currentLeader == s.currentLeader)
            && SameElsewhere(s, s') && SameProgress(s, s')
  {
  }

  /** A candidate counts a granted vote of its term, follows a newer term, and ignores any other reply. */
  lemma VoteCountLaw(s: NodeState, r: VoteResponse)
    ensures var s' := HandleVoteResponse(s, r).0;
            && (!s.role.Candidate? || r.term < s.currentTerm || (r.term == s.currentTerm && !r.voteGranted) ==> s' == s)
            && (s.role.Candidate? && r.term == s.currentTerm && r.voteGranted ==>
                  && s'.voteCount == s.voteCount + 1 && s'.currentTerm == s.currentTerm && s'.votedFor == s.votedFor
                  && !s'.role.Follower?)
            && (s.role.Candidate? && r.term > s.currentTerm ==>
                  s'.role.Follower? && s'.currentTerm == r.term && s'.votedFor.None? && s'.voteCount == 0)
  {
  }

  /** Each listed peer starts from the end of the log with nothing matched; other records stay. */
  lemma {:induction false} ResetLaw(s: NodeState, peers: seq<NodeId>, p: NodeId)
    ensures var s' := ResetProgress(s, peers);
            && (p in peers ==> p in s'.nextIndex && s'.nextIndex[p] == |s.log| + 1
                               && p in s'.matchIndex && s'.matchIndex[p] == 0)
            && (p !in peers ==>
                  && (p in s'.nextIndex <==> p in s.nextIndex) && (p in s'.matchIndex <==> p in s.matchIndex)
                  && (p in s.nextIndex ==> s'.nextIndex[p] == s.nextIndex[p])
                  && (p in s.matchIndex ==> s'.matchIndex[p] == s.matchIndex[p]))
            && s' == s.(nextIndex := s'.nextIndex, matchIndex := s'.matchIndex)
  {
    if peers != [] {
      ResetLaw(s, peers[..|peers| - 1], p);
    }
  }

  // ----- AppendEntries at the follower -----

  /** The answer carries the follower's last index, the request's id, and a conflict only on a mismatch. */
  lemma AppendAnswerLaw(s: NodeState, a: AppendRequest, i: nat, t: Term)
    requires EndsAt(HandleAppendEntries(s, a).0.log, i, t)
    ensures var (s', r) := HandleAppendEntries(s, a);
            && r.term == s'.currentTerm == Max(s.currentTerm, a.term)
            && r.lastLogIndex == Some(i) && r.requestId == a.requestId
            && (r.conflictIndex.Some? <==> a.term >= s.currentTerm && !r.success)
            && (r.conflictTerm.Some? ==> r.conflictIndex.Some?)
            && s'.currentLeader == (if a.term >= s.currentTerm then Some(a.leaderId) else s.currentLeader)
            && s'.id == s.id && s'.clusterSize == s.clusterSize && SameProgress(s, s')
  {
  }

  /**
   On a mismatch inside the log the report is the term found there and the index of the
   first entry of that term; on a log that is too short it is the length of the log.
   */
  lemma ConflictLaw(s: NodeState, a: AppendRequest)
    requires a.term >= s.currentTerm && !HandleAppendEntries(s, a).1.success
    ensures var r, log, prev := HandleAppendEntries(s, a).1, s.log, a.prevLogIndex;
            && prev > 0
            && (prev > |log| ==> r.conflictIndex == Some(|log|) && r.conflictTerm.None?)
            && (prev <= |log| ==>
                  && r.conflictTerm == Some(log[prev - 1].term) && log[prev - 1].term != a.prevLogTerm
                  && r.conflictIndex.Some? && 1 <= r.conflictIndex.value <= prev
                  && log[r.conflictIndex.value - 1].term == log[prev - 1].term
                  && forall i | 0 <= i < r.conflictIndex.value - 1 :: log[i].term != log[prev - 1].term)
  {
    hide LastLogInfo;
  }

  // ----- AppendEntries at the leader -----

  /** The index before the leader's next batch for the follower. */
  predicate StartsAfter(s: NodeState, follower: NodeId, prev: nat) {
    if follower in s.nextIndex && s.nextIndex[follower] > 0 then prev + 1 == s.nextIndex[follower] else prev == 0
  }

  /**
   A leader makes a batch exactly when it has the entry before it. The batch holds the
   entries that follow, as many as there are up to the cap.
   */
  lemma BatchLaw(s: NodeState, follower: NodeId, requestId: nat, prev: nat)
    requires StartsAfter(s, follower, prev)
    ensures var r := CreateAppendEntries(s, follower, requestId);
            && (!s.role.Leader? ==> r == Err(NotLeader(s.currentLeader)))
            && (s.role.Leader? && prev > |s.log| ==> r == Err(LogInconsistency(prev)))
            && (s.role.Leader? && prev <= |s.log| ==>
                  && r.Ok?
                  && var a := r.value;
                     && a.term == s.currentTerm && a.leaderId == s.id && a.requestId == requestId
                     && a.leaderCommit == s.commitIndex && a.prevLogIndex == prev
                     && a.prevLogTerm == (if prev == 0 then 0 else s.log[prev - 1].term)
                     && |a.entries| <= s.maxEntries && prev + |a.entries| <= |s.log|
                     && (|a.entries| < s.maxEntries ==> prev + |a.entries| == |s.log|)
                     && forall i | 0 <= i < |a.entries| :: a.entries[i] == s.log[prev + i])
  {
  }

  /** A success reply of no newer term records its length, if it has one, as match and the next index as one more. */
  lemma SuccessLaw(s: NodeState, follower: NodeId, r: AppendResponse)
    requires s.role.Leader? && r.term <= s.currentTerm && r.success
    ensures var s' := HandleAppendResponse(s, follower, r);
            && (r.lastLogIndex.None? ==> SameProgress(s, s'))
            && (r.lastLogIndex.Some? ==>
                  && follower in s'.matchIndex && s'.matchIndex[follower] == r.lastLogIndex.value
                  && follower in s'.nextIndex && s'.nextIndex[follower] == r.lastLogIndex.value + 1)
            && s'.role == s.role && s'.currentTerm == s.currentTerm && s'.votedFor == s.votedFor
            && s'.voteCount == s.voteCount && s'.currentLeader == s.currentLeader
  {
    hide CommitCandidate;
  }

  /**
   When the commit index moves: for the value `v` of middle rank among the recorded lengths
   and the leader's own, it becomes `v` if that lies beyond it, in the log, at an entry of
   the leader's term, and stays where it is otherwise.
   */
  lemma CommitMovesIff(s: NodeState, follower: NodeId, r: AppendResponse, v: nat)
    requires s.role.Leader? && r.term <= s.currentTerm && r.success
    requires IsCommitCandidate(HandleAppendResponse(s, follower, r).matchIndex, |s.log|, v)
    ensures HandleAppendResponse(s, follower, r).commitIndex ==
              if s.commitIndex < v <= |s.log| && s.log[v - 1].term == s.currentTerm then v else s.commitIndex
  {
    hide IsCommitCandidate; hide CommitCandidate;
    var s' := HandleAppendResponse(s, follower, r);
    CandidateIsUnique(s'.matchIndex, |s.log|, v, CommitCandidate(s'.matchIndex, |s.log|));
  }

  /**
   A rejected batch moves the next index after the last entry of the reported term, if the
   leader has one, and to the reported index otherwise; without a report it steps back by one.
   */
  lemma RejectionLaw(s: NodeState, follower: NodeId, r: AppendResponse)
    requires s.role.Leader? && r.term <= s.currentTerm && !r.success
    ensures var s' := HandleAppendResponse(s, follower, r);
            && s' == s.(nextIndex := s'.nextIndex)
            && (r.conflictIndex.None? ==>
                  s'.nextIndex == if follower in s.nextIndex && s.nextIndex[follower] > 1
                                  then s.nextIndex[follower := s.nextIndex[follower] - 1] else s.nextIndex)
            && (r.conflictIndex.Some? ==>
                  && follower in s'.nextIndex && s'.nextIndex == s.nextIndex[follower := s'.nextIndex[follower]]
                  && MovesTo(s.log, r.conflictIndex.value, r.conflictTerm, s'.nextIndex[follower]))
  {
    hide CommitCandidate;
  }

  ghost predicate MovesTo(log: Log, conflictIndex: nat, conflictTerm: Option<Term>, next: nat) {
    if conflictTerm.Some? && exists i :: 0 <= i < |log| && log[i].term == conflictTerm.value
    then 2 <= next <= |log| + 1 && log[next - 2].term == conflictTerm.value
         && forall i | next - 1 <= i < |log| :: log[i].term != conflictTerm.value
    else next == conflictIndex
  }

  /** A reply to a node that does not lead changes nothing; one of a newer term makes a leader follow. */
  lemma StepDownLaw(s: NodeState, follower: NodeId, r: AppendResponse)
    ensures var s' := HandleAppendResponse(s, follower, r);
            && (!s.role.Leader? ==> s' == s)
            && (s.role.Leader? && r.term > s.currentTerm ==>
                  && s'.role.Follower? && s'.currentTerm == r.term && s'.votedFor.None? && s'.voteCount == 0
                  && s'.currentLeader == s.currentLeader && SameElsewhere(s, s') && SameProgress(s, s'))
  {
    hide CommitCandidate;
  }

  // ----- clients -----

  /**
   A client is given an index exactly by a leader: that of its command, at the end of the
   log. Any other node refers it to the leader it knows.
   */
  lemma ClientLaw(s: NodeState, command: seq<Byte>, timestamp: nat)
    ensures var (s', r) := AppendEntry(s, command, timestamp);
            && (r.Ok? <==> s.role.Leader?)
            && (r.Err? ==> r.error == NotLeader(s.currentLeader) && s' == s)
            && (r.Ok? ==>
                  && r.value == |s'.log| == |s.log| + 1 && s'.log[..|s.log|] == s.log
                  && var x := s'.log[r.value - 1];
                     && x.command == command && x.index == r.value && x.term == s.currentTerm
                     && x.timestamp == timestamp && x.size == |command|)
            && s' == s.(log := s'.log)
  {
  }

  // ----- applying -----

  /** The state machine's rejection is met: it lies between the cursor and what can be handed over. */
  predicate Meets(s: NodeState, failAt: Option<nat>) {
    failAt.Some? && s.lastApplied < failAt.value <= Min(s.commitIndex, |s.log|)
  }

  /**
   How a call of apply ends: at the rejected entry if it is met, else at the commit index,
   else, when the log is too short, with the first missing index reported and passed over.
   */
  lemma {:induction false} ApplyLaw(s: NodeState, failAt: Option<nat>)
    ensures var r := ApplyCommitted(s, failAt);
            && r.state == s.(lastApplied := r.state.lastApplied)
            && (s.lastApplied >= s.commitIndex ==> r == Applied(s, [], Ok(())))
            && (s.lastApplied < s.commitIndex ==>
                  if Meets(s, failAt)
                  then r.outcome == Err(ApplyFailed(failAt.value)) && r.state.lastApplied == failAt.value
                  else if s.commitIndex <= |s.log|
                  then r.outcome == Ok(()) && r.state.lastApplied == s.commitIndex
                  else var missing := Max(s.lastApplied, |s.log|) + 1;
                       r.outcome == Err(LogInconsistency(missing)) && r.state.lastApplied == missing)
    decreases s.commitIndex - s.lastApplied
  {
    if s.lastApplied < s.commitIndex {
      ApplyLaw(s.(lastApplied := s.lastApplied + 1), failAt);
    }
  }

  /** One turn of the apply loop. */
  lemma ApplyTurn(s: NodeState, failAt: Option<nat>)
    requires s.lastApplied < s.commitIndex
    ensures var i, r := s.lastApplied, ApplyCommitted(s, failAt);
            var rest := ApplyCommitted(s.(lastApplied := i + 1), failAt);
            if i >= |s.log| then r.handed == [] && r.state.lastApplied == i + 1
            else if failAt == Some(i + 1) then r.handed == [s.log[i]] && r.state.lastApplied == i + 1
            else r.handed == [s.log[i]] + rest.handed && r.state == rest.state
  {
  }

  /** What a call of apply hands over: the entries between the old cursor and the new that the log has, in order. */
  lemma {:induction false} HandedLaw(s: NodeState, failAt: Option<nat>)
    ensures var r, n := ApplyCommitted(s, failAt), |s.log|;
            && s.lastApplied <= r.state.lastApplied
            && r.handed == s.log[Min(s.lastApplied, n)..Min(r.state.lastApplied, n)]
    decreases s.commitIndex - s.lastApplied
  {
    hide ApplyCommitted;
    if s.lastApplied >= s.commitIndex {
      ApplyLaw(s, failAt);
    } else {
      var i := s.lastApplied;
      ApplyTurn(s, failAt);
      HandedLaw(s.(lastApplied := i + 1), failAt);
      if i < |s.log| {
        var j := Min(ApplyCommitted(s, failAt).state.lastApplied, |s.log|);
        assert s.log[i..j] == [s.log[i]] + s.log[i + 1..j];
      }
    }
  }
}
