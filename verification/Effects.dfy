/**
 What each handler does to the fields the safety proofs look at. The proofs use
 these relations instead of the handlers' bodies.
 */
module Effects {
  import opened RaftTypes
  import opened RaftLog
  import opened CommitRule
  import opened Handlers
  import opened Cluster
  import opened BaseInvariants

  /** The node keeps its term, role and vote; unless it leads it keeps its log too. */
  ghost predicate SameVote(s: NodeState, s': NodeState) {
    && s'.currentTerm == s.currentTerm && s'.role == s.role
    && s'.votedFor == s.votedFor && s'.voteCount == s.voteCount
    && (!s.role.Leader? ==> s'.log == s.log)
  }

  /** The node follows in term `t` and has forgotten its vote. */
  ghost predicate FollowsIn(s: NodeState, s': NodeState, t: Term) {
    && t >= s.currentTerm
    && s'.currentTerm == t && s'.role.Follower? && s'.votedFor.None? && s'.voteCount == 0
  }

  /** The node, in term `t` now, casts its vote for `candidate`. */
  ghost predicate CastsVote(s: NodeState, s': NodeState, t: Term, candidate: NodeId) {
    && t >= s.currentTerm && s'.currentTerm == t && s'.votedFor == Some(candidate)
    && (t == s.currentTerm ==>
          && s'.role == s.role && s'.voteCount == s.voteCount
          && (s.votedFor.None? || s.votedFor == Some(candidate)))
    && (t > s.currentTerm ==> s'.role.Follower? && s'.voteCount == 0)
  }

  /** The candidate counts one more vote, and leads if `wins`. */
  ghost predicate CountsOne(s: NodeState, s': NodeState, wins: bool) {
    && s.role.Candidate? && s'.role == (if wins then Leader else Candidate) && s'.voteCount == s.voteCount + 1
    && s'.currentTerm == s.currentTerm && s'.votedFor == s.votedFor
  }

  /** Log, commit index, apply cursor and replication progress stay. */
  ghost predicate SameData(s: NodeState, s': NodeState) {
    && s'.log == s.log && s'.commitIndex == s.commitIndex && s'.lastApplied == s.lastApplied
    && s'.nextIndex == s.nextIndex && s'.matchIndex == s.matchIndex
    && s'.maxEntries == s.maxEntries
  }

  lemma VoteRequestEffect(s: NodeState, r: VoteRequest)
    ensures var s' := HandleVoteRequest(s, r).0;
            && SameData(s, s')
            && (Grants(s, r) ==> CastsVote(s, s', r.term, r.candidateId) && HandleVoteRequest(s, r).1.term == r.term
                                 && IsLogUpToDate(s.log, r.lastLogIndex, r.lastLogTerm))
            && (!Grants(s, r) ==> SameVote(s, s') || (r.term > s.currentTerm && FollowsIn(s, s', r.term)))
  {
    hide IsLogUpToDate; hide LastLogInfo;
  }

  lemma VoteReplyEffect(s: NodeState, r: VoteResponse)
    ensures var s' := HandleVoteResponse(s, r).0;
            && SameData(s, s')
            && (CountsVote(s, r) ==> CountsOne(s, s', Wins(s, r)))
            && (!CountsVote(s, r) ==> SameVote(s, s') || (r.term > s.currentTerm && FollowsIn(s, s', r.term)))
  {
  }

  /** The log after an accepted batch. */
  ghost function LogAfter(s: NodeState, a: AppendRequest): Log
    requires Accepts(s, a)
  {
    if a.entries == [] then s.log else ReplaceTail(s.log, a.prevLogIndex, a.entries)
  }

  lemma AppendEffect(s: NodeState, a: AppendRequest)
    ensures var (s', r) := HandleAppendEntries(s, a);
            && s'.lastApplied == s.lastApplied && s'.nextIndex == s.nextIndex && s'.matchIndex == s.matchIndex
            && s'.maxEntries == s.maxEntries && r.term == s'.currentTerm && r.requestId == a.requestId
            && (a.term < s.currentTerm ==> s' == s)
            && (a.term >= s.currentTerm ==> FollowsIn(s, s', a.term))
            && (r.success <==> Accepts(s, a))
            && (!Accepts(s, a) ==> s'.log == s.log && s'.commitIndex == s.commitIndex)
            && (Accepts(s, a) ==>
                  && s'.log == LogAfter(s, a) && r.lastLogIndex == Some(LastLogInfo(s'.log).0)
                  && s'.commitIndex == if a.leaderCommit > s.commitIndex
                                       then Min(a.leaderCommit, |s'.log|) else s.commitIndex)
  {
    hide FindConflictInfo; hide LastLogInfo; hide CheckLogConsistency;
  }

  /** The leader takes in a success reply of no later term. */
  ghost predicate Records(s: NodeState, r: AppendResponse) {
    s.role.Leader? && r.term <= s.currentTerm && r.success
  }

  lemma AppendReplyEffect(s: NodeState, follower: NodeId, r: AppendResponse)
    ensures var s' := HandleAppendResponse(s, follower, r);
            && s'.log == s.log && s'.lastApplied == s.lastApplied && s'.maxEntries == s.maxEntries
            && (SameVote(s, s') || (r.term > s.currentTerm && FollowsIn(s, s', r.term)))
            && (!Records(s, r) ==> s'.commitIndex == s.commitIndex && s'.matchIndex == s.matchIndex)
            && (Records(s, r) ==>
                  && s'.matchIndex == (if r.lastLogIndex.Some? then s.matchIndex[follower := r.lastLogIndex.value]
                                       else s.matchIndex)
                  && (s'.commitIndex != s.commitIndex ==>
                      && s'.commitIndex == CommitCandidate(s'.matchIndex, |s.log|)
                      && s.commitIndex < s'.commitIndex <= |s.log|
                      && s.log[s'.commitIndex - 1].term == s.currentTerm))
  {
    hide IsCommitCandidate; hide CommitCandidate;
  }

  /** A reply leaves alone who the node is, whom it follows, and its progress with other followers. */
  lemma AppendReplyFrame(s: NodeState, follower: NodeId, r: AppendResponse, g: NodeId)
    ensures var s' := HandleAppendResponse(s, follower, r);
            && s'.id == s.id && s'.clusterSize == s.clusterSize && s'.currentLeader == s.currentLeader
            && (g != follower ==>
                  && (g in s'.nextIndex <==> g in s.nextIndex) && (g in s'.matchIndex <==> g in s.matchIndex)
                  && (g in s.nextIndex ==> s'.nextIndex[g] == s.nextIndex[g])
                  && (g in s.matchIndex ==> s'.matchIndex[g] == s.matchIndex[g]))
  {
    hide CommitCandidate; hide LastOfTerm;
  }

  lemma ClientAppendEffect(s: NodeState, command: seq<Byte>, timestamp: nat)
    ensures var s' := AppendEntry(s, command, timestamp).0;
            && SameVote(s, s')
            && s'.commitIndex == s.commitIndex && s'.lastApplied == s.lastApplied
            && s'.matchIndex == s.matchIndex && s'.nextIndex == s.nextIndex && s'.maxEntries == s.maxEntries
            && (!s.role.Leader? ==> s'.log == s.log)
            && (s.role.Leader? ==>
                  |s'.log| == |s.log| + 1 && s'.log[..|s.log|] == s.log && s'.log[|s.log|].term == s.currentTerm)
  {
  }

  lemma ApplyEffect(s: NodeState, failAt: Option<nat>)
    ensures var s' := ApplyCommitted(s, failAt).state;
            && SameVote(s, s') && s'.log == s.log && s'.commitIndex == s.commitIndex
            && s'.matchIndex == s.matchIndex && s'.nextIndex == s.nextIndex && s'.maxEntries == s.maxEntries
  {
    ApplyFrame(s, failAt);
  }
}
