/**
 Election Safety (section 5.2 of the Raft paper): at most one leader per term, in
 every run whose vote traffic obeys `VoteGuard`.
 */
module Elections {
  import opened RaftTypes
  import opened RaftLog
  import opened Handlers
  import opened Cluster
  import opened BaseInvariants
  import opened CommitRule
  import opened Effects

  /**
   Following a leader clears the vote. A node that followed a leader in a term does not
   then grant, in that term, a vote to another candidate than the one it voted for.
   */
  ghost predicate NoForgottenVote(c: Cluster, e: Event)
    requires Enabled(c, e)
  {
    e.OnVoteRequest? && Grants(c.nodes[e.node], e.request) && Slot(e.node, e.request.term) in c.h.heard ==>
      VoteStands(c.h, e.node, e.request.term, e.request.candidateId)
  }

  /** The node's first vote in term `t`, if it cast one, was for `candidate`. */
  ghost predicate VoteStands(h: History, n: NodeId, t: Term, candidate: NodeId) {
    Slot(n, t) in h.ballots ==> h.ballots[Slot(n, t)].candidate == candidate
  }

  /** A candidate does not count two votes of one voter: replies carry no voter. */
  ghost predicate DistinctVoters(c: Cluster, e: Event)
    requires Enabled(c, e)
  {
    e.OnVoteReply? && CountsVote(c.nodes[e.node], e.reply) ==>
      e.voter !in Tally(c.h, Slot(e.node, c.nodes[e.node].currentTerm))
  }

  /** What the code needs from its callers to count votes soundly. */
  ghost predicate VoteGuard(c: Cluster, e: Event)
    requires Enabled(c, e)
  {
    NoForgottenVote(c, e) && DistinctVoters(c, e)
  }

  /** No election is won in a term that already had a winner. */
  ghost predicate FreshWin(c: Cluster, e: Event)
    requires Enabled(c, e)
  {
    e.OnVoteReply? && Wins(c.nodes[e.node], e.reply) ==> c.nodes[e.node].currentTerm !in c.h.reigns
  }

  ghost predicate VotedFor(h: History, voter: NodeId, t: Term, candidate: NodeId) {
    Slot(voter, t) in h.ballots && h.ballots[Slot(voter, t)].candidate == candidate
  }

  /** What the code alone needs: counted voters are distinct and no term is won twice. */
  ghost predicate FairWin(c: Cluster, e: Event)
    requires Enabled(c, e)
  {
    DistinctVoters(c, e) && FreshWin(c, e)
  }

  /** The invariant below comes in two strengths: under the vote guard, and under fair wins alone. */
  ghost predicate ElectGuard(strict: bool, c: Cluster, e: Event)
    requires Enabled(c, e)
  {
    if strict then VoteGuard(c, e) else FairWin(c, e)
  }

  /** The vote stands in the history; without the vote guard it may not, once the term was won. */
  ghost predicate Voted(strict: bool, h: History, voter: NodeId, t: Term, candidate: NodeId) {
    VotedFor(h, voter, t, candidate) || (!strict && t in h.reigns)
  }

  /** One event at node `n` only adds to the history, and only for `n`. */
  ghost predicate Grows(h: History, h': History, n: NodeId) {
    && (forall k | k in h.ballots :: k in h'.ballots && h'.ballots[k] == h.ballots[k])
    && (forall k | k in h'.ballots :: k in h.ballots || k.node == n)
    && (forall k | k in h.tally && k.node != n :: k in h'.tally && h'.tally[k] == h.tally[k])
    && h.heard <= h'.heard
    && (forall t | t in h.reigns :: t in h'.reigns && SameElection(h.reigns[t], h'.reigns[t]))
    && (forall t | t in h'.reigns :: t in h.reigns || h'.reigns[t].leader == n)
  }

  ghost predicate SameElection(a: Reign, b: Reign) {
    a.leader == b.leader && a.voters == b.voters && a.start == b.start
  }

  ghost predicate ElectNode(strict: bool, h: History, n: NodeId, s: NodeState) {
    var me := Slot(n, s.currentTerm);
    && (forall k | k in h.ballots && k.node == n :: k.term <= s.currentTerm)
    && (forall t | t in h.reigns && h.reigns[t].leader == n :: t <= s.currentTerm)
    && (s.votedFor.Some? ==> Voted(strict, h, n, s.currentTerm, s.votedFor.value))
    && (s.votedFor.None? && me in h.ballots ==> me in h.heard && s.currentTerm in h.reigns)
    && (!s.role.Follower? ==>
          && me in h.tally && |h.tally[me]| == s.voteCount
          && forall v | v in h.tally[me] :: Voted(strict, h, v, s.currentTerm, n))
    && (s.role.Candidate? ==> VotedFor(h, n, s.currentTerm, n) && h.ballots[me].log == s.log)
    && (s.role.Candidate? && s.currentTerm in h.reigns ==> h.reigns[s.currentTerm].leader != n)
    && (s.role.Leader? ==> s.currentTerm in h.reigns && h.reigns[s.currentTerm].leader == n)
  }

  ghost predicate ElectMsg(strict: bool, h: History, m: Message) {
    && (m.AppendMsg? ==> m.append.term in h.reigns)
    && (m.VoteReplyMsg? && m.reply.voteGranted ==> Voted(strict, h, m.voter, m.reply.term, m.candidate))
    && (m.VoteRequestMsg? ==>
          var r := m.request;
          && VotedFor(h, r.candidateId, r.term, r.candidateId)
          && LastLogInfo(h.ballots[Slot(r.candidateId, r.term)].log) == (r.lastLogIndex, r.lastLogTerm))
  }

  /** The candidate's log was at least as up to date as the voter's. */
  ghost predicate BallotOk(h: History, members: set<NodeId>, k: Slot)
    requires k in h.ballots
  {
    var b := h.ballots[k];
    && k.node in members
    && VotedFor(h, b.candidate, k.term, b.candidate)
    && var (lastIndex, lastTerm) := LastLogInfo(h.ballots[Slot(b.candidate, k.term)].log);
       IsLogUpToDate(b.log, lastIndex, lastTerm)
  }

  /** A reign stands on a majority that all voted for its leader. */
  ghost predicate ReignOk(h: History, members: set<NodeId>, size: nat, t: Term)
    requires t in h.reigns
  {
    var r := h.reigns[t];
    && r.leader in members && r.voters <= members && |r.voters| >= Majority(size)
    && (forall v | v in r.voters :: VotedFor(h, v, t, r.leader))
    && VotedFor(h, r.leader, t, r.leader) && r.start == h.ballots[Slot(r.leader, t)].log
  }

  ghost predicate Elect(strict: bool, c: Cluster) {
    && (forall n | n in c.nodes :: ElectNode(strict, c.h, n, c.nodes[n]))
    && (forall m | m in c.net :: ElectMsg(strict, c.h, m))
    && (forall k | k in c.h.ballots :: BallotOk(c.h, c.nodes.Keys, k))
    && (forall t | t in c.h.reigns :: ReignOk(c.h, c.nodes.Keys, c.size, t))
  }

  // ----- why the guards are there -----

  /** The vote count stays the number of distinct voters exactly when the counted voter is new. */
  lemma CountIsVotersIff(h: History, s: NodeState, voter: NodeId, r: VoteResponse)
    requires CountsVote(s, r) && |Tally(h, Slot(s.id, s.currentTerm))| == s.voteCount
    ensures |Tally(RecallVoteReply(h, s, voter, r), Slot(s.id, s.currentTerm))| == HandleVoteResponse(s, r).0.voteCount
            <==> voter !in Tally(h, Slot(s.id, s.currentTerm))
  {
    hide HandleVoteResponse;
    VoteReplyEffect(s, r);
    var voters := Tally(h, Slot(s.id, s.currentTerm));
    if voter in voters { assert voters + {voter} == voters; }
  }

  /**
   A node that voted in a term grants another candidate's request of that term exactly
   when it is still in the term, following a leader there cleared its vote, and the
   candidate is up to date.
   */
  lemma SecondVoteIff(h: History, n: NodeId, s: NodeState, q: VoteRequest)
    requires ElectNode(true, h, n, s) && !q.preVote
    requires Slot(n, q.term) in h.ballots && h.ballots[Slot(n, q.term)].candidate != q.candidateId
    ensures Grants(s, q) <==>
              && s.currentTerm == q.term && s.votedFor.None? && Slot(n, q.term) in h.heard
              && IsLogUpToDate(s.log, q.lastLogIndex, q.lastLogTerm)
  {
    hide IsLogUpToDate; hide LastLogInfo;
  }

  // ----- two majorities share a voter -----

  lemma QuorumsMeet(a: set<NodeId>, b: set<NodeId>, members: set<NodeId>, size: nat) returns (v: NodeId)
    requires a <= members && b <= members && |members| <= size
    requires |a| >= Majority(size) && |b| >= Majority(size)
    ensures v in a && v in b
  {
    if a * b == {} {
      assert |a + b| == |a| + |b|;
      SubsetCardinality(a + b, members);
      assert false;
    }
    v :| v in a * b;
  }

  /** Two majorities that voted in one term voted for the same node. */
  lemma OneWinnerPerTerm(h: History, members: set<NodeId>, size: nat, t: Term, n: NodeId, mine: set<NodeId>)
    requires |members| <= size && t in h.reigns && ReignOk(h, members, size, t)
    requires mine <= members && |mine| >= Majority(size)
    requires forall v | v in mine :: VotedFor(h, v, t, n)
    ensures h.reigns[t].leader == n
  {
    var v := QuorumsMeet(mine, h.reigns[t].voters, members, size);
    assert VotedFor(h, v, t, n);
  }

  /** A winner's term had no winner before. */
  lemma WinIsFresh(c: Cluster, e: Event)
    requires Base(c) && Elect(true, c) && Enabled(c, e) && VoteGuard(c, e)
    ensures FreshWin(c, e)
  {
    hide LogShape; hide BatchShape; hide BallotOk; hide ReignOk; hide ElectNode; hide RoleShape; hide Tally;
    if e.OnVoteReply? && Wins(c.nodes[e.node], e.reply) && c.nodes[e.node].currentTerm in c.h.reigns {
      assert BaseNode(c.size, e.node, c.nodes[e.node]);
      assert ElectMsg(true, c.h, VoteReplyMsg(e.voter, e.node, e.reply));
      WinnerIsFirst(c, e.node, e.voter);
    }
  }

  lemma WinnerIsFirst(c: Cluster, n: NodeId, voter: NodeId)
    requires Elect(true, c) && n in c.nodes && |c.nodes| <= c.size
    requires var s := c.nodes[n];
             && s.role.Candidate? && s.voteCount + 1 >= Majority(c.size) && VotedFor(c.h, voter, s.currentTerm, n)
             && voter !in Tally(c.h, Slot(n, s.currentTerm))
    ensures c.nodes[n].currentTerm !in c.h.reigns
  {
    hide BallotOk; hide ReignOk;
    var s := c.nodes[n];
    assert ElectNode(true, c.h, n, s);
    if s.currentTerm in c.h.reigns {
      var mine := c.h.tally[Slot(n, s.currentTerm)] + {voter};
      forall v | v in mine ensures v in c.nodes && VotedFor(c.h, v, s.currentTerm, n) {
        VoterIsMember(true, c, Slot(v, s.currentTerm));
      }
      OneWinnerPerTerm(c.h, c.nodes.Keys, c.size, s.currentTerm, n, mine);
    }
  }

  lemma VoterIsMember(strict: bool, c: Cluster, k: Slot)
    requires Elect(strict, c)
    ensures k in c.h.ballots ==> k.node in c.nodes
  {
    if k in c.h.ballots { assert BallotOk(c.h, c.nodes.Keys, k); }
  }

  // ----- every event keeps the invariant at the node it happens at -----

  ghost predicate SameElections(h: History, h': History) {
    && h'.ballots == h.ballots && h'.tally == h.tally && h.heard <= h'.heard
    && h'.reigns.Keys == h.reigns.Keys
    && forall t | t in h.reigns :: SameElection(h.reigns[t], h'.reigns[t])
  }

  lemma ElectSameVote(strict: bool, h: History, h': History, n: NodeId, s: NodeState, s': NodeState)
    requires ElectNode(strict, h, n, s) && SameVote(s, s') && SameElections(h, h')
    ensures ElectNode(strict, h', n, s')
  {
  }

  lemma ElectFollows(strict: bool, h: History, h': History, n: NodeId, s: NodeState, s': NodeState, t: Term)
    requires ElectNode(strict, h, n, s) && FollowsIn(s, s', t) && SameElections(h, h')
    requires t == s.currentTerm ==> Slot(n, t) in h'.heard && t in h'.reigns
    ensures ElectNode(strict, h', n, s')
  {
  }

  lemma ElectTimeout(strict: bool, h: History, h': History, n: NodeId, s: NodeState, s': NodeState)
    requires ElectNode(strict, h, n, s) && s'.log == s.log && s'.currentTerm == s.currentTerm + 1
    requires s'.role.Candidate? && s'.votedFor == Some(n) && s'.voteCount == 1
    requires var k := Slot(n, s.currentTerm + 1);
             h' == h.(ballots := h.ballots[k := Ballot(n, s.log)], tally := h.tally[k := {n}])
    ensures ElectNode(strict, h', n, s') && Grows(h, h', n)
  {
    assert Slot(n, s.currentTerm + 1) !in h.ballots;
  }

  lemma ElectVotesAgain(strict: bool, h: History, n: NodeId, s: NodeState, s': NodeState, candidate: NodeId)
    requires ElectNode(strict, h, n, s) && CastsVote(s, s', s.currentTerm, candidate) && s'.log == s.log
    requires var me := Slot(n, s.currentTerm);
             me in h.ballots && (strict && me in h.heard ==> VoteStands(h, n, s.currentTerm, candidate))
    ensures ElectNode(strict, h, n, s') && Voted(strict, h, n, s.currentTerm, candidate)
  {
  }

  lemma ElectVotesFirst(strict: bool, h: History, h': History, n: NodeId, s: NodeState, s': NodeState, t: Term,
                        b: Ballot)
    requires ElectNode(strict, h, n, s) && CastsVote(s, s', t, b.candidate) && s'.log == s.log && b.log == s.log
    requires Slot(n, t) !in h.ballots && h' == h.(ballots := h.ballots[Slot(n, t) := b])
    ensures ElectNode(strict, h', n, s') && Grows(h, h', n) && VotedFor(h', n, t, b.candidate)
  {
    assert forall v, u, a | VotedFor(h, v, u, a) :: VotedFor(h', v, u, a);
  }

  lemma ElectCastsVote(strict: bool, h: History, h': History, n: NodeId, s: NodeState, s': NodeState, t: Term,
                       candidate: NodeId)
    requires ElectNode(strict, h, n, s) && CastsVote(s, s', t, candidate) && s'.log == s.log
    requires strict && Slot(n, t) in h.heard ==> VoteStands(h, n, t, candidate)
    requires h' == Cast(h, Slot(n, t), Ballot(candidate, s.log))
    ensures ElectNode(strict, h', n, s') && Grows(h, h', n) && Voted(strict, h', n, t, candidate)
  {
    if Slot(n, t) in h.ballots {
      assert t == s.currentTerm;
      ElectVotesAgain(strict, h, n, s, s', candidate);
    } else {
      hide ElectNode; hide Grows;
      ElectVotesFirst(strict, h, h', n, s, s', t, Ballot(candidate, s.log));
    }
  }

  lemma ElectCountsOne(strict: bool, h: History, h': History, n: NodeId, s: NodeState, s': NodeState,
                       voter: NodeId, wins: bool)
    requires ElectNode(strict, h, n, s) && CountsOne(s, s', wins) && s'.log == s.log
    requires Voted(strict, h, voter, s.currentTerm, n)
    requires voter !in h.tally[Slot(n, s.currentTerm)]
    requires var k, voters := Slot(n, s.currentTerm), h.tally[Slot(n, s.currentTerm)] + {voter};
             h' == h.(tally := h.tally[k := voters],
                      reigns := if wins
                                then h.reigns[s.currentTerm := Reign(n, voters, s.log, s.log)] else h.reigns)
    requires wins ==> s.currentTerm !in h.reigns
    ensures ElectNode(strict, h', n, s') && Grows(h, h', n)
  {
  }

  /** What an event must establish at the node it happens at. */
  ghost predicate ActorOk(strict: bool, h: History, h': History, members: set<NodeId>, size: nat, n: NodeId,
                          s': NodeState) {
    && ElectNode(strict, h', n, s') && Grows(h, h', n)
    && (forall k | k in h'.ballots && k !in h.ballots :: BallotOk(h', members, k))
    && (forall t | t in h'.reigns && t !in h.reigns :: ReignOk(h', members, size, t))
  }

  lemma SelfIsUpToDate(log: Log)
    ensures IsLogUpToDate(log, LastLogInfo(log).0, LastLogInfo(log).1)
  {
  }

  lemma ActorTimeout(strict: bool, h: History, members: set<NodeId>, size: nat, n: NodeId, s: NodeState)
    requires ElectNode(strict, h, n, s) && s.id == n && n in h.applied && n in members
    ensures var h' := Recall(h, s, Timeout(n));
            && ActorOk(strict, h, h', members, size, n, StartElection(s).0)
            && ElectMsg(strict, h', VoteRequestMsg(StartElection(s).1))
  {
    hide LastLogInfo;
    var h' := Recall(h, s, Timeout(n));
    assert Slot(n, s.currentTerm + 1) !in h.ballots;
    ElectTimeout(strict, h, h', n, s, StartElection(s).0);
    hide ElectNode; hide Grows;
    SelfIsUpToDate(s.log);
    assert h'.reigns == h.reigns;
    assert forall k | k in h'.ballots && k !in h.ballots :: k == Slot(n, s.currentTerm + 1);
  }

  lemma ActorOnVoteRequest(strict: bool, h: History, members: set<NodeId>, size: nat, n: NodeId, s: NodeState,
                           r: VoteRequest)
    requires ElectNode(strict, h, n, s) && s.id == n && n in h.applied && n in members
    requires ElectMsg(strict, h, VoteRequestMsg(r)) && !r.preVote
    requires strict && Grants(s, r) && Slot(n, r.term) in h.heard ==> VoteStands(h, n, r.term, r.candidateId)
    ensures var h' := Recall(h, s, OnVoteRequest(n, r));
            && ActorOk(strict, h, h', members, size, n, HandleVoteRequest(s, r).0)
            && ElectMsg(strict, h', VoteReplyMsg(n, r.candidateId, HandleVoteRequest(s, r).1))
  {
    hide HandleVoteRequest; hide IsLogUpToDate; hide LastLogInfo;
    var h' := Recall(h, s, OnVoteRequest(n, r));
    var s' := HandleVoteRequest(s, r).0;
    VoteRequestEffect(s, r);
    if Grants(s, r) {
      ElectCastsVote(strict, h, h', n, s, s', r.term, r.candidateId);
      assert forall k | k in h'.ballots && k !in h.ballots :: k == Slot(n, r.term);
    } else if SameVote(s, s') {
      ElectSameVote(strict, h, h', n, s, s');
    } else {
      ElectFollows(strict, h, h', n, s, s', r.term);
    }
  }

  lemma ActorOnVoteReply(strict: bool, c: Cluster, n: NodeId, voter: NodeId, r: VoteResponse)
    requires Base(c) && Elect(strict, c) && Enabled(c, OnVoteReply(n, voter, r))
    requires FairWin(c, OnVoteReply(n, voter, r))
    ensures var s := c.nodes[n];
            ActorOk(strict, c.h, RecallVoteReply(c.h, s, voter, r), c.nodes.Keys, c.size, n, HandleVoteResponse(s, r).0)
  {
    hide HandleVoteResponse; hide LogShape; hide BatchShape; hide BallotOk; hide ReignOk; hide ElectNode; hide ActorOk;
    hide RoleShape; hide RecallVoteReply;
    var s, h := c.nodes[n], c.h;
    assert BaseNode(c.size, n, s) && ElectNode(strict, h, n, s);
    assert ElectMsg(strict, h, VoteReplyMsg(voter, n, r));
    VoteReplyEffect(s, r);
    if CountsVote(s, r) {
      ActorCounts(strict, c, n, voter, r, HandleVoteResponse(s, r).0);
    } else {
      ActorIgnores(strict, h, c.nodes.Keys, c.size, n, s, HandleVoteResponse(s, r).0, voter, r);
    }
  }

  lemma ActorIgnores(strict: bool, h: History, members: set<NodeId>, size: nat, n: NodeId, s: NodeState, s': NodeState,
                     voter: NodeId, r: VoteResponse)
    requires ElectNode(strict, h, n, s) && !CountsVote(s, r) && s'.log == s.log
    requires SameVote(s, s') || (r.term > s.currentTerm && FollowsIn(s, s', r.term))
    ensures ActorOk(strict, h, RecallVoteReply(h, s, voter, r), members, size, n, s')
  {
    hide ElectNode; hide BallotOk; hide ReignOk;
    if SameVote(s, s') {
      ElectSameVote(strict, h, h, n, s, s');
    } else {
      ElectFollows(strict, h, h, n, s, s', r.term);
    }
  }

  lemma ActorCounts(strict: bool, c: Cluster, n: NodeId, voter: NodeId, r: VoteResponse, s': NodeState)
    requires Elect(strict, c) && n in c.nodes && c.nodes[n].id == n && c.nodes[n].clusterSize == c.size
    requires ElectNode(strict, c.h, n, c.nodes[n]) && CountsVote(c.nodes[n], r)
    requires CountsOne(c.nodes[n], s', Wins(c.nodes[n], r)) && s'.log == c.nodes[n].log
    requires Voted(strict, c.h, voter, c.nodes[n].currentTerm, n)
    requires voter !in Tally(c.h, Slot(n, c.nodes[n].currentTerm))
    requires Wins(c.nodes[n], r) ==> c.nodes[n].currentTerm !in c.h.reigns
    ensures ActorOk(strict, c.h, RecallVoteReply(c.h, c.nodes[n], voter, r), c.nodes.Keys, c.size, n, s')
  {
    hide BallotOk; hide ReignOk; hide Elect; hide Grows;
    var s, h, t := c.nodes[n], c.h, c.nodes[n].currentTerm;
    var h' := RecallVoteReply(h, s, voter, r);
    ElectCountsOne(strict, h, h', n, s, s', voter, Wins(s, r));
    hide ElectNode;
    if Wins(s, r) {
      NewReign(strict, c, n, voter, h');
    }
    assert h'.ballots == h.ballots;
    assert forall u | u in h'.reigns && u !in h.reigns :: u == t && Wins(s, r);
  }

  lemma NewReign(strict: bool, c: Cluster, n: NodeId, voter: NodeId, h': History)
    requires Elect(strict, c) && n in c.nodes && ElectNode(strict, c.h, n, c.nodes[n]) && c.nodes[n].role.Candidate?
    requires voter !in Tally(c.h, Slot(n, c.nodes[n].currentTerm))
    requires c.nodes[n].voteCount + 1 >= Majority(c.size)
    requires c.nodes[n].currentTerm !in c.h.reigns && Voted(strict, c.h, voter, c.nodes[n].currentTerm, n)
    requires var t := c.nodes[n].currentTerm;
             && h'.ballots == c.h.ballots
             && h'.reigns == c.h.reigns[t := Reign(n, Tally(c.h, Slot(n, t)) + {voter}, c.nodes[n].log, c.nodes[n].log)]
    ensures ReignOk(h', c.nodes.Keys, c.size, c.nodes[n].currentTerm)
  {
    hide BallotOk;
    var t := c.nodes[n].currentTerm;
    forall v | v in Tally(c.h, Slot(n, t)) + {voter} ensures v in c.nodes && VotedFor(h', v, t, n) {
      VoterIsMember(strict, c, Slot(v, t));
    }
  }

  lemma ActorOnAppend(strict: bool, h: History, members: set<NodeId>, size: nat, n: NodeId, s: NodeState,
                      a: AppendRequest)
    requires ElectNode(strict, h, n, s) && s.id == n && a.term in h.reigns
    ensures ActorOk(strict, h, RecallAppend(h, s, a), members, size, n, HandleAppendEntries(s, a).0)
  {
    hide HandleAppendEntries; hide LastLogInfo; hide CheckLogConsistency;
    var h', s' := RecallAppend(h, s, a), HandleAppendEntries(s, a).0;
    AppendEffect(s, a);
    if a.term < s.currentTerm {
      ElectSameVote(strict, h, h', n, s, s');
    } else {
      ElectFollows(strict, h, h', n, s, s', a.term);
    }
  }

  lemma ActorOnAppendReply(strict: bool, h: History, members: set<NodeId>, size: nat, n: NodeId, s: NodeState,
                           follower: NodeId, r: AppendResponse)
    requires ElectNode(strict, h, n, s)
    ensures ActorOk(strict, h, h, members, size, n, HandleAppendResponse(s, follower, r))
  {
    hide HandleAppendResponse; hide CommitCandidate;
    var s' := HandleAppendResponse(s, follower, r);
    AppendReplyEffect(s, follower, r);
    if SameVote(s, s') {
      ElectSameVote(strict, h, h, n, s, s');
    } else {
      ElectFollows(strict, h, h, n, s, s', r.term);
    }
  }

  lemma ActorClientAppend(strict: bool, h: History, members: set<NodeId>, size: nat, n: NodeId, s: NodeState,
                          command: seq<Byte>, timestamp: nat)
    requires ElectNode(strict, h, n, s)
    ensures var s' := AppendEntry(s, command, timestamp).0;
            ActorOk(strict, h, RecallClientAppend(h, s, s'), members, size, n, s')
  {
    hide AppendEntry;
    var s' := AppendEntry(s, command, timestamp).0;
    ClientAppendEffect(s, command, timestamp);
    ElectSameVote(strict, h, RecallClientAppend(h, s, s'), n, s, s');
  }

  lemma ActorApply(strict: bool, h: History, members: set<NodeId>, size: nat, n: NodeId, s: NodeState,
                   failAt: Option<nat>)
    requires ElectNode(strict, h, n, s) && n in h.applied
    ensures ActorOk(strict, h, Recall(h, s, Apply(n, failAt)), members, size, n, ApplyCommitted(s, failAt).state)
  {
    hide ApplyCommitted;
    ApplyEffect(s, failAt);
    ElectSameVote(strict, h, Recall(h, s, Apply(n, failAt)), n, s, ApplyCommitted(s, failAt).state);
  }

  lemma ElectActor(strict: bool, c: Cluster, e: Event)
    requires Base(c) && Elect(strict, c) && Enabled(c, e) && FairWin(c, e)
    requires strict ==> NoForgottenVote(c, e)
    ensures var s := c.nodes[e.node];
            && ActorOk(strict, c.h, Recall(c.h, s, e), c.nodes.Keys, c.size, e.node, NewState(s, e))
            && forall m | m in Sent(s, e) :: ElectMsg(strict, Recall(c.h, s, e), m)
  {
    hide ActorOk; hide ElectNode; hide HandleAppendEntries; hide HandleAppendResponse; hide StartElection;
    hide HandleVoteRequest; hide HandleVoteResponse; hide AppendEntry; hide ApplyCommitted;
    hide RecallVoteReply; hide RecallAppend; hide RecallClientAppend; hide Cast; hide Grants;
    hide LogShape; hide BatchShape; hide RoleShape; hide BallotOk; hide ReignOk; hide LastLogInfo;
    var n, s := e.node, c.nodes[e.node];
    assert BaseNode(c.size, n, s) && ElectNode(strict, c.h, n, s);
    match e
    case Timeout(_) => ActorTimeout(strict, c.h, c.nodes.Keys, c.size, n, s);
    case OnVoteRequest(_, r) =>
      assert BaseMsg(VoteRequestMsg(r)) && ElectMsg(strict, c.h, VoteRequestMsg(r));
      ActorOnVoteRequest(strict, c.h, c.nodes.Keys, c.size, n, s, r);
    case OnVoteReply(_, voter, r) => ActorOnVoteReply(strict, c, n, voter, r);
    case SendAppend(_, follower, requestId) =>
      ActorIdle(strict, c.h, c.nodes.Keys, c.size, n, s);
      LeaderSends(strict, c.h, n, s, follower, requestId);
    case OnAppend(_, a) =>
      assert ElectMsg(strict, c.h, AppendMsg(n, a));
      ActorOnAppend(strict, c.h, c.nodes.Keys, c.size, n, s, a);
    case OnAppendReply(_, follower, r) => ActorOnAppendReply(strict, c.h, c.nodes.Keys, c.size, n, s, follower, r);
    case ClientAppend(_, command, timestamp) =>
      ActorClientAppend(strict, c.h, c.nodes.Keys, c.size, n, s, command, timestamp);
    case Apply(_, failAt) => ActorApply(strict, c.h, c.nodes.Keys, c.size, n, s, failAt);
  }

  lemma LeaderSends(strict: bool, h: History, n: NodeId, s: NodeState, follower: NodeId, requestId: nat)
    requires ElectNode(strict, h, n, s)
    ensures var r := CreateAppendEntries(s, follower, requestId);
            r.Ok? ==> r.value.term in h.reigns
  {
  }

  lemma ActorIdle(strict: bool, h: History, members: set<NodeId>, size: nat, n: NodeId, s: NodeState)
    requires ElectNode(strict, h, n, s)
    ensures ActorOk(strict, h, h, members, size, n, s)
  {
  }

  lemma ElectAssemble(strict: bool, c: Cluster, n: NodeId, s': NodeState, sent: set<Message>, h': History)
    requires Elect(strict, c) && n in c.nodes && ActorOk(strict, c.h, h', c.nodes.Keys, c.size, n, s')
    requires forall m | m in sent :: ElectMsg(strict, h', m)
    ensures Elect(strict, Cluster(c.size, c.nodes[n := s'], c.net + sent, h'))
  {
    hide ElectNode; hide ElectMsg; hide BallotOk; hide ReignOk; hide Grows;
    var c' := Cluster(c.size, c.nodes[n := s'], c.net + sent, h');
    assert c'.nodes.Keys == c.nodes.Keys;
    forall m | m in c'.nodes ensures ElectNode(strict, h', m, c'.nodes[m]) {
      if m != n { ElectOther(strict, c.h, h', n, m, c.nodes[m]); }
    }
    forall m | m in c'.net ensures ElectMsg(strict, h', m) {
      if m in c.net { ElectMsgGrows(strict, c.h, h', n, m); }
    }
    forall k | k in h'.ballots ensures BallotOk(h', c.nodes.Keys, k) {
      if k in c.h.ballots { BallotGrows(c.h, h', n, c.nodes.Keys, k); }
    }
    forall t | t in h'.reigns ensures ReignOk(h', c.nodes.Keys, c.size, t) {
      if t in c.h.reigns { ReignGrows(c.h, h', n, c.nodes.Keys, c.size, t); }
    }
  }

  lemma ElectMsgGrows(strict: bool, h: History, h': History, n: NodeId, m: Message)
    requires ElectMsg(strict, h, m) && Grows(h, h', n)
    ensures ElectMsg(strict, h', m)
  {
  }

  lemma BallotGrows(h: History, h': History, n: NodeId, members: set<NodeId>, k: Slot)
    requires k in h.ballots && BallotOk(h, members, k) && Grows(h, h', n)
    ensures k in h'.ballots && BallotOk(h', members, k)
  {
  }

  lemma ReignGrows(h: History, h': History, n: NodeId, members: set<NodeId>, size: nat, t: Term)
    requires t in h.reigns && ReignOk(h, members, size, t) && Grows(h, h', n)
    ensures t in h'.reigns && ReignOk(h', members, size, t)
  {
  }

  lemma ElectOther(strict: bool, h: History, h': History, n: NodeId, m: NodeId, s: NodeState)
    requires ElectNode(strict, h, m, s) && Grows(h, h', n) && m != n
    ensures ElectNode(strict, h', m, s)
  {
  }

  lemma ElectStep(strict: bool, c: Cluster, e: Event)
    requires Base(c) && Elect(strict, c) && Enabled(c, e) && ElectGuard(strict, c, e)
    ensures FreshWin(c, e) && Elect(strict, Next(c, e)) && Grows(c.h, Next(c, e).h, e.node)
  {
    hide NewState; hide Sent; hide Recall; hide Elect; hide Base; hide ElectNode; hide Grows; hide BallotOk;
    hide ReignOk;
    if strict { WinIsFresh(c, e); }
    ElectActor(strict, c, e);
    var s := c.nodes[e.node];
    ElectAssemble(strict, c, e.node, NewState(s, e), Sent(s, e), Recall(c.h, s, e));
  }

  // ----- whole runs -----

  ghost predicate VoteGuarded(r: Run)
    requires IsRun(r)
  {
    forall k: nat {:trigger StepAt(r, k)} | k < |r.events| :: StepAt(r, k) && VoteGuard(r.states[k], r.events[k])
  }

  ghost predicate FairlyWon(r: Run)
    requires IsRun(r)
  {
    forall k: nat {:trigger StepAt(r, k)} | k < |r.events| :: StepAt(r, k) && FairWin(r.states[k], r.events[k])
  }

  lemma {:induction false} ElectHolds(strict: bool, r: Run, k: nat)
    requires IsRun(r) && (if strict then VoteGuarded(r) else FairlyWon(r)) && k <= |r.events|
    ensures Base(r.states[k]) && Elect(strict, r.states[k])
  {
    hide Next; hide Init; hide Enabled; hide Base; hide Elect; hide VoteGuard; hide FairWin; hide FreshWin; hide Grows;
    BaseHolds(r, k);
    if k == 0 {
      ElectInit(strict, r.states[0]);
    } else {
      ElectHolds(strict, r, k - 1);
      assert StepAt(r, k - 1);
      ElectStep(strict, r.states[k - 1], r.events[k - 1]);
    }
  }

  lemma ElectInit(strict: bool, c: Cluster)
    requires Init(c)
    ensures Elect(strict, c)
  {
  }

  /** Guarded vote traffic makes every win fair: no term is won twice. */
  lemma GuardedIsFair(r: Run)
    requires IsRun(r) && VoteGuarded(r)
    ensures FairlyWon(r)
  {
    hide Next; hide Base; hide Elect; hide Init; hide FreshWin; hide Enabled; hide DistinctVoters; hide NoForgottenVote;
    forall k: nat | k < |r.events| ensures StepAt(r, k) && FairWin(r.states[k], r.events[k]) {
      assert StepAt(r, k);
      ElectHolds(true, r, k);
      WinIsFresh(r.states[k], r.events[k]);
    }
  }

  /**
   Election Safety: over a whole guarded run, whoever is seen leading a term is the
   same node, however far apart the two observations are.
   */
  lemma ElectionSafety(r: Run, j: nat, k: nat, a: NodeId, b: NodeId)
    requires IsRun(r) && VoteGuarded(r) && j <= |r.events| && k <= |r.events|
    requires a in r.states[j].nodes && r.states[j].nodes[a].role.Leader?
    requires b in r.states[k].nodes && r.states[k].nodes[b].role.Leader?
    requires r.states[j].nodes[a].currentTerm == r.states[k].nodes[b].currentTerm
    ensures a == b
  {
    hide NewState; hide Sent; hide Recall; hide Base; hide VoteGuard; hide Init; hide FairWin;
    GuardedIsFair(r);
    if j > k {
      ElectionSafety(r, k, j, b, a);
    } else {
      ElectHolds(false, r, j);
      ElectHolds(false, r, k);
      var t := r.states[j].nodes[a].currentTerm;
      assert ElectNode(false, r.states[j].h, a, r.states[j].nodes[a]);
      assert ElectNode(false, r.states[k].h, b, r.states[k].nodes[b]);
      ReignsLast(r, j, k, t);
    }
  }

  /** The record of an election never changes. */
  lemma {:induction false} ReignsLast(r: Run, j: nat, k: nat, t: Term)
    requires IsRun(r) && FairlyWon(r) && j <= k <= |r.events| && t in r.states[j].h.reigns
    ensures t in r.states[k].h.reigns && SameElection(r.states[j].h.reigns[t], r.states[k].h.reigns[t])
  {
    hide Next; hide Base; hide Elect; hide FairWin; hide Init; hide Grows; hide FreshWin; hide Enabled;
    if j < k {
      ReignsLast(r, j, k - 1, t);
      ElectHolds(false, r, k - 1);
      var c, e := r.states[k - 1], r.events[k - 1];
      assert StepAt(r, k - 1);
      ElectStep(false, c, e);
      ReignGrew(c.h, Next(c, e).h, e.node, t);
    }
  }

  lemma ReignGrew(h: History, h': History, n: NodeId, t: Term)
    requires Grows(h, h', n) && t in h.reigns
    ensures t in h'.reigns && SameElection(h.reigns[t], h'.reigns[t])
  {
  }
}
