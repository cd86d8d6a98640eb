/**
 What a transport has to promise for `VoteGuard`, said of events and node states
 only: every vote message is delivered at most once, no candidate is handed its own
 reply, and a node that voted in a term and followed a leader in it grants no other
 candidate's request of that term afterwards. Everything else may be lost, delayed,
 reordered or repeated.
 */
module VoteTraffic {
  import opened RaftTypes
  import opened Handlers
  import opened Cluster
  import opened BaseInvariants
  import opened Elections

  predicate IsVoteDelivery(e: Event) {
    e.OnVoteRequest? || e.OnVoteReply?
  }

  /** No vote message is handled twice by the same node, and no reply by its own sender. */
  ghost predicate VotesDeliveredOnce(r: Run) {
    && (forall j: nat, k: nat | j < k < |r.events| && IsVoteDelivery(r.events[j]) :: r.events[j] != r.events[k])
    && (forall k: nat | k < |r.events| && r.events[k].OnVoteReply? :: r.events[k].voter != r.events[k].node)
  }

  /** At step `k` node `n` votes for `candidate` in term `t`: for itself, or by granting a request. */
  ghost predicate CastsAt(r: Run, k: nat, n: NodeId, t: Term, candidate: NodeId) {
    && k < |r.events| && k < |r.states| && n == r.events[k].node && n in r.states[k].nodes
    && var s, e := r.states[k].nodes[n], r.events[k];
       || (e.Timeout? && t == s.currentTerm + 1 && candidate == n)
       || (e.OnVoteRequest? && t == e.request.term && candidate == e.request.candidateId && Grants(s, e.request))
  }

  /** At step `k` node `n` follows the leader of term `t`, whether or not it accepts the batch. */
  ghost predicate FollowsAt(r: Run, k: nat, n: NodeId, t: Term) {
    && k < |r.events| && k < |r.states| && n == r.events[k].node && n in r.states[k].nodes
    && r.events[k].OnAppend? && r.events[k].append.term == t && r.states[k].nodes[n].currentTerm <= t
  }

  /** A node that voted in a term and followed a leader in it votes for no other candidate in it later. */
  ghost predicate VotesStand(r: Run) {
    forall i: nat, j: nat, k: nat, n, t, a, b
      | CastsAt(r, i, n, t, a) && FollowsAt(r, j, n, t) && CastsAt(r, k, n, t, b) && i < k && j < k :: a == b
  }

  /** A recorded ballot was cast at an earlier step, with the voter's log of that step. */
  lemma {:induction false} BallotOrigin(r: Run, k: nat, n: NodeId, t: Term) returns (j: nat)
    requires IsRun(r) && k <= |r.events| && Slot(n, t) in r.states[k].h.ballots
    ensures j < k && CastsAt(r, j, n, t, r.states[k].h.ballots[Slot(n, t)].candidate)
    ensures r.states[k].h.ballots[Slot(n, t)].log == r.states[j].nodes[n].log
  {
    hide NewState; hide Sent; hide Recall; hide Grants;
    if k > 0 {
      assert StepAt(r, k - 1);
      var c, e := r.states[k - 1], r.events[k - 1];
      if Slot(n, t) in c.h.ballots {
        j := BallotOrigin(r, k - 1, n, t);
        BallotStays(c.h, c.nodes[e.node], e, Slot(n, t));
      } else {
        j := k - 1;
        NewlyCast(c.h, c.nodes[e.node], e, n, t);
      }
    }
  }

  lemma BallotStays(h: History, s: NodeState, e: Event, k: Slot)
    requires e.node in h.applied && k in h.ballots
    ensures k in Recall(h, s, e).ballots && Recall(h, s, e).ballots[k] == h.ballots[k]
  {
    hide NewState; hide HandleVoteRequest; hide ApplyCommitted; hide Accepts;
  }

  lemma NewlyCast(h: History, s: NodeState, e: Event, n: NodeId, t: Term)
    requires e.node in h.applied
    requires Slot(n, t) !in h.ballots && Slot(n, t) in Recall(h, s, e).ballots
    ensures e.node == n && Recall(h, s, e).ballots[Slot(n, t)].log == s.log
    ensures var a := Recall(h, s, e).ballots[Slot(n, t)].candidate;
            || (e.Timeout? && t == s.currentTerm + 1 && a == n)
            || (e.OnVoteRequest? && t == e.request.term && a == e.request.candidateId && Grants(s, e.request))
  {
    hide NewState; hide HandleVoteRequest; hide ApplyCommitted; hide Accepts;
  }

  /** Whoever is recorded as having heard a leader of a term followed it at an earlier step. */
  lemma {:induction false} HeardOrigin(r: Run, k: nat, n: NodeId, t: Term) returns (j: nat)
    requires IsRun(r) && k <= |r.events| && Slot(n, t) in r.states[k].h.heard
    ensures j < k && FollowsAt(r, j, n, t)
  {
    hide NewState; hide Sent; hide Recall; hide Base;
    if k > 0 {
      assert StepAt(r, k - 1);
      var c, e := r.states[k - 1], r.events[k - 1];
      if Slot(n, t) in c.h.heard {
        j := HeardOrigin(r, k - 1, n, t);
      } else {
        j := k - 1;
        BaseHolds(r, j);
        IdentityIn(c, e.node);
        NewlyHeard(c.h, c.nodes[e.node], e, n, t);
      }
    }
  }

  lemma NewlyHeard(h: History, s: NodeState, e: Event, n: NodeId, t: Term)
    requires e.node in h.applied && s.id == e.node
    requires Slot(n, t) !in h.heard && Slot(n, t) in Recall(h, s, e).heard
    ensures e.node == n && e.OnAppend? && e.append.term == t && s.currentTerm <= t
  {
    hide NewState; hide HandleVoteRequest; hide ApplyCommitted; hide Accepts;
  }

  /** The event condition gives the state condition. */
  lemma StandingVoteIsKept(r: Run, k: nat)
    requires IsRun(r) && VotesStand(r) && k < |r.events| && Enabled(r.states[k], r.events[k])
    ensures NoForgottenVote(r.states[k], r.events[k])
  {
    hide NewState; hide Sent; hide Recall; hide Init; hide StepAt; hide Grants;
    var c, e := r.states[k], r.events[k];
    if e.OnVoteRequest? && Grants(c.nodes[e.node], e.request) && Slot(e.node, e.request.term) in c.h.heard {
      var n, t := e.node, e.request.term;
      if Slot(n, t) in c.h.ballots {
        var i := BallotOrigin(r, k, n, t);
        var j := HeardOrigin(r, k, n, t);
        assert CastsAt(r, k, n, t, e.request.candidateId);
      }
    }
  }

  /** A reply in flight was given to a request its voter handled before. */
  lemma {:induction false} ReplyOrigin(r: Run, k: nat, v: NodeId, n: NodeId, reply: VoteResponse) returns (j: nat)
    requires IsRun(r) && k <= |r.events| && VoteReplyMsg(v, n, reply) in r.states[k].net
    ensures j < k && r.events[j].OnVoteRequest? && r.events[j].node == v && r.events[j].request.candidateId == n
    ensures Enabled(r.states[j], r.events[j])
    ensures reply == HandleVoteRequest(r.states[j].nodes[v], r.events[j].request).1
  {
    hide HandleVoteRequest; hide StartElection; hide NewState; hide Recall; hide CreateAppendEntries;
    hide HandleAppendEntries;
    if k > 0 && VoteReplyMsg(v, n, reply) in r.states[k - 1].net {
      j := ReplyOrigin(r, k - 1, v, n, reply);
    } else {
      assert StepAt(r, k - 1);
      j := k - 1;
    }
  }

  /** A request in flight was made by its candidate when it timed out. */
  lemma {:induction false} RequestOrigin(r: Run, k: nat, q: VoteRequest) returns (j: nat)
    requires IsRun(r) && k <= |r.events| && VoteRequestMsg(q) in r.states[k].net
    ensures j < k && r.events[j] == Timeout(q.candidateId) && Enabled(r.states[j], r.events[j])
    ensures q == StartElection(r.states[j].nodes[q.candidateId]).1
  {
    hide HandleVoteRequest; hide NewState; hide Recall; hide CreateAppendEntries; hide HandleAppendEntries; hide Base;
    if k > 0 && VoteRequestMsg(q) in r.states[k - 1].net {
      j := RequestOrigin(r, k - 1, q);
    } else {
      j := k - 1;
      assert StepAt(r, j);
      BaseHolds(r, j);
      IdentityIn(r.states[j], r.events[j].node);
    }
  }

  /** A node asks for votes at most once in a term. */
  lemma OneRequestPerTerm(r: Run, j: nat, k: nat, p: VoteRequest, q: VoteRequest)
    requires IsRun(r) && j <= |r.events| && k <= |r.events|
    requires VoteRequestMsg(p) in r.states[j].net && VoteRequestMsg(q) in r.states[k].net
    requires p.candidateId == q.candidateId && p.term == q.term
    ensures p == q
  {
    hide Sent; hide Recall;
    var n := p.candidateId;
    var a := RequestOrigin(r, j, p);
    var b := RequestOrigin(r, k, q);
    assert StepAt(r, a) && StepAt(r, b);
    if a < b {
      TermsNeverFall(r, a + 1, b, n);
    } else if b < a {
      TermsNeverFall(r, b + 1, a, n);
    }
  }

  /** A counted voter other than the candidate sent a granting reply of that term. */
  lemma {:induction false} TallyOrigin(r: Run, k: nat, n: NodeId, t: Term, v: NodeId) returns (j: nat)
    requires IsRun(r) && k <= |r.events| && v in Tally(r.states[k].h, Slot(n, t)) && v != n
    ensures j < k && r.events[j].OnVoteReply? && r.events[j].node == n && r.events[j].voter == v
    ensures r.events[j].reply.term == t && r.events[j].reply.voteGranted && Enabled(r.states[j], r.events[j])
  {
    hide NewState; hide Sent; hide Base; hide Recall;
    if k > 0 && v in Tally(r.states[k - 1].h, Slot(n, t)) {
      j := TallyOrigin(r, k - 1, n, t, v);
    } else {
      j := k - 1;
      assert StepAt(r, j);
      BaseHolds(r, j);
      IdentityIn(r.states[j], r.events[j].node);
      NewlyCounted(r.states[j].h, r.states[j].nodes[r.events[j].node], r.events[j], n, t, v);
    }
  }

  /** Only a granting reply adds a voter other than the candidate. */
  lemma NewlyCounted(h: History, s: NodeState, e: Event, n: NodeId, t: Term, v: NodeId)
    requires e.node in h.applied && s.id == e.node && v != n
    requires v !in Tally(h, Slot(n, t)) && v in Tally(Recall(h, s, e), Slot(n, t))
    ensures e.OnVoteReply? && e.node == n && e.voter == v && e.reply.term == t && e.reply.voteGranted
  {
    hide NewState; hide HandleVoteRequest; hide ApplyCommitted; hide Accepts;
  }

  lemma GrantHasRequestTerm(s: NodeState, q: VoteRequest)
    requires HandleVoteRequest(s, q).1.voteGranted
    ensures HandleVoteRequest(s, q).1.term == q.term
  {
  }

  /** Two granting replies of one voter to one candidate in one term are the same message. */
  lemma OneGrantPerVoter(r: Run, j: nat, k: nat, v: NodeId, n: NodeId, x: VoteResponse, y: VoteResponse)
    requires IsRun(r) && VotesDeliveredOnce(r) && j <= |r.events| && k <= |r.events|
    requires VoteReplyMsg(v, n, x) in r.states[j].net && VoteReplyMsg(v, n, y) in r.states[k].net
    requires x.voteGranted && y.voteGranted && x.term == y.term
    ensures x == y
  {
    hide HandleVoteRequest; hide Init; hide StepAt;
    var a := ReplyOrigin(r, j, v, n, x);
    var b := ReplyOrigin(r, k, v, n, y);
    var p, q := r.events[a].request, r.events[b].request;
    GrantHasRequestTerm(r.states[a].nodes[v], p);
    GrantHasRequestTerm(r.states[b].nodes[v], q);
    OneRequestPerTerm(r, a, b, p, q);
    assert r.events[a] == r.events[b] && IsVoteDelivery(r.events[a]) && IsVoteDelivery(r.events[b]);
    assert a == b;
  }

  /** The promises of the transport give the vote guard at every step. */
  lemma DeliveredOnceIsGuarded(r: Run)
    requires IsRun(r) && VotesDeliveredOnce(r) && VotesStand(r)
    ensures VoteGuarded(r)
  {
    hide NewState; hide Sent; hide Recall; hide Init; hide Tally; hide VotesStand; hide NoForgottenVote;
    hide DistinctVoters;
    forall k: nat | k < |r.events| ensures Enabled(r.states[k], r.events[k]) && VoteGuard(r.states[k], r.events[k]) {
      assert StepAt(r, k);
      StandingVoteIsKept(r, k);
      CountedVoterIsNew(r, k);
    }
  }

  lemma CountedVoterIsNew(r: Run, k: nat)
    requires IsRun(r) && VotesDeliveredOnce(r) && k < |r.events| && Enabled(r.states[k], r.events[k])
    ensures DistinctVoters(r.states[k], r.events[k])
  {
    hide NewState; hide Sent; hide Recall; hide Init; hide Tally; hide StepAt;
    var c, e := r.states[k], r.events[k];
    if e.OnVoteReply? && CountsVote(c.nodes[e.node], e.reply) {
      var t := c.nodes[e.node].currentTerm;
      if e.voter in Tally(c.h, Slot(e.node, t)) {
        var j := TallyOrigin(r, k, e.node, t, e.voter);
        OneGrantPerVoter(r, j, k, e.voter, e.node, r.events[j].reply, e.reply);
      }
    }
  }

  /** Election Safety, said of events and node states alone. */
  lemma OneLeaderPerTerm(r: Run, j: nat, k: nat, a: NodeId, b: NodeId)
    requires IsRun(r) && VotesDeliveredOnce(r) && VotesStand(r) && j <= |r.events| && k <= |r.events|
    requires a in r.states[j].nodes && r.states[j].nodes[a].role.Leader?
    requires b in r.states[k].nodes && r.states[k].nodes[b].role.Leader?
    requires r.states[j].nodes[a].currentTerm == r.states[k].nodes[b].currentTerm
    ensures a == b
  {
    DeliveredOnceIsGuarded(r);
    ElectionSafety(r, j, k, a, b);
  }
}
