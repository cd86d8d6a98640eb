/**
 What every run keeps, whatever the network does and without any assumption on
 the callers: the shape of logs and batches, and the meaning of the roles.
 */
module BaseInvariants {
  import opened RaftTypes
  import opened RaftLog
  import opened Handlers
  import opened Cluster

  /** Entries carry their position, and terms never fall and stay within the bound. */
  ghost predicate LogShape(log: Log, bound: Term) {
    && (forall i | 0 <= i < |log| :: log[i].index == i + 1 && 1 <= log[i].term <= bound)
    && (forall i, j | 0 <= i < j < |log| :: log[i].term <= log[j].term)
  }

  /** A batch has the shape of a log that continues after `prevLogIndex`. */
  ghost predicate BatchShape(a: AppendRequest) {
    && 1 <= a.term && a.prevLogTerm <= a.term
    && (forall i | 0 <= i < |a.entries| ::
          a.entries[i].index == a.prevLogIndex + 1 + i && 1 <= a.entries[i].term <= a.term)
    && (forall i | 0 <= i < |a.entries| :: a.prevLogTerm <= a.entries[i].term)
    && (forall i, j | 0 <= i < j < |a.entries| :: a.entries[i].term <= a.entries[j].term)
  }

  ghost predicate RoleShape(s: NodeState) {
    && (s.role.Follower? ==> s.voteCount == 0)
    && (!s.role.Follower? ==> s.votedFor == Some(s.id) && s.voteCount >= 1 && s.currentTerm >= 1)
    && (s.role.Candidate? ==> s.currentLeader.None?)
    && (s.role.Leader? ==> s.voteCount >= Majority(s.clusterSize) && s.currentLeader == Some(s.id))
  }

  ghost predicate BaseNode(size: nat, n: NodeId, s: NodeState) {
    && s.id == n && s.clusterSize == size
    && LogShape(s.log, s.currentTerm)
    && RoleShape(s)
  }

  ghost predicate BaseMsg(m: Message) {
    && (m.AppendMsg? ==> BatchShape(m.append))
    && (m.VoteRequestMsg? ==> !m.request.preVote && m.request.term >= 1)
  }

  ghost predicate Base(c: Cluster) {
    && |c.nodes| <= c.size
    && c.h.applied.Keys == c.nodes.Keys
    && (forall n | n in c.nodes :: BaseNode(c.size, n, c.nodes[n]))
    && (forall m | m in c.net :: BaseMsg(m))
  }

  lemma IdentityIn(c: Cluster, n: NodeId)
    requires Base(c) && n in c.nodes
    ensures c.nodes[n].id == n
  {
  }

  /** Terms never fall, and a node that stays leader of its term only extends its log. */
  ghost predicate NodeProgress(s: NodeState, s': NodeState) {
    && s'.id == s.id && s'.clusterSize == s.clusterSize && s'.maxEntries == s.maxEntries
    && s.currentTerm <= s'.currentTerm
    && (s.role.Leader? && s'.role.Leader? ==> s'.currentTerm == s.currentTerm && s.log <= s'.log)
    && (s.role.Leader? && s'.currentTerm == s.currentTerm ==> !s'.role.Candidate?)
    && (s.role.Follower? && s'.currentTerm == s.currentTerm ==> s'.role.Follower?)
  }

  /** The message an event delivers, as the network held it. */
  ghost predicate Delivered(e: Event, net: set<Message>) {
    match e
    case OnVoteRequest(n, request) => VoteRequestMsg(request) in net
    case OnVoteReply(n, voter, reply) => VoteReplyMsg(voter, n, reply) in net
    case OnAppend(n, append) => AppendMsg(n, append) in net
    case OnAppendReply(n, follower, ack) => AppendReplyMsg(follower, n, ack) in net
    case _ => true
  }

  /** Applying moves the cursor and nothing else. */
  lemma {:induction false} ApplyFrame(s: NodeState, failAt: Option<nat>)
    ensures ApplyCommitted(s, failAt).state == s.(lastApplied := ApplyCommitted(s, failAt).state.lastApplied)
    decreases s.commitIndex - s.lastApplied
  {
    if s.lastApplied < s.commitIndex {
      ApplyFrame(s.(lastApplied := s.lastApplied + 1), failAt);
    }
  }

  lemma ReplaceTailShape(s: NodeState, a: AppendRequest)
    requires LogShape(s.log, s.currentTerm) && BatchShape(a) && Accepts(s, a)
    ensures LogShape(ReplaceTail(s.log, a.prevLogIndex, a.entries), a.term)
  {
    var log := ReplaceTail(s.log, a.prevLogIndex, a.entries);
    forall i, j | 0 <= i < j < |log|
      ensures log[i].term <= log[j].term
    {
      if i < a.prevLogIndex <= j {
        assert log[i].term <= s.log[a.prevLogIndex - 1].term;
      }
    }
  }

  lemma BaseOnAppend(size: nat, n: NodeId, s: NodeState, a: AppendRequest)
    requires BaseNode(size, n, s) && BatchShape(a)
    ensures BaseNode(size, n, HandleAppendEntries(s, a).0) && NodeProgress(s, HandleAppendEntries(s, a).0)
  {
    if Accepts(s, a) { ReplaceTailShape(s, a); }
  }

  lemma BaseOnAppendReply(size: nat, n: NodeId, s: NodeState, follower: NodeId, ack: AppendResponse)
    requires BaseNode(size, n, s)
    ensures BaseNode(size, n, HandleAppendResponse(s, follower, ack))
    ensures NodeProgress(s, HandleAppendResponse(s, follower, ack))
  {
  }

  lemma BaseOnVoteRequest(size: nat, n: NodeId, s: NodeState, request: VoteRequest)
    requires BaseNode(size, n, s) && request.term >= 1
    ensures BaseNode(size, n, HandleVoteRequest(s, request).0) && NodeProgress(s, HandleVoteRequest(s, request).0)
  {
    hide IsLogUpToDate; hide LastLogInfo;
  }

  lemma BaseOnVoteReply(size: nat, n: NodeId, s: NodeState, reply: VoteResponse)
    requires BaseNode(size, n, s)
    ensures BaseNode(size, n, HandleVoteResponse(s, reply).0) && NodeProgress(s, HandleVoteResponse(s, reply).0)
  {
  }

  lemma BaseNodeStep(size: nat, n: NodeId, s: NodeState, e: Event, net: set<Message>)
    requires BaseNode(size, n, s) && e.node == n && Delivered(e, net)
    requires forall m | m in net :: BaseMsg(m)
    ensures BaseNode(size, n, NewState(s, e)) && NodeProgress(s, NewState(s, e))
  {
    hide HandleAppendEntries; hide HandleAppendResponse; hide HandleVoteRequest; hide HandleVoteResponse;
    match e
    case OnAppend(_, append) =>
      assert BaseMsg(AppendMsg(n, append));
      BaseOnAppend(size, n, s, append);
    case OnAppendReply(_, follower, ack) => BaseOnAppendReply(size, n, s, follower, ack);
    case OnVoteReply(_, _, reply) => BaseOnVoteReply(size, n, s, reply);
    case OnVoteRequest(_, request) =>
      assert BaseMsg(VoteRequestMsg(request));
      BaseOnVoteRequest(size, n, s, request);
    case Apply(_, failAt) => ApplyFrame(s, failAt);
    case _ =>
  }

  lemma BaseSent(size: nat, n: NodeId, s: NodeState, e: Event)
    requires BaseNode(size, n, s) && e.node == n
    ensures forall m | m in Sent(s, e) :: BaseMsg(m)
  {
  }

  lemma RecallKeepsMembers(h: History, s: NodeState, e: Event)
    requires e.node in h.applied
    ensures Recall(h, s, e).applied.Keys == h.applied.Keys
  {
  }

  /** Only the node an event happens at is handed entries. */
  lemma AppliedElsewhere(h: History, s: NodeState, e: Event, m: NodeId)
    requires e.node in h.applied && m in h.applied && m != e.node
    ensures m in Recall(h, s, e).applied && Recall(h, s, e).applied[m] == h.applied[m]
  {
    hide ApplyCommitted; hide HandleVoteRequest; hide AppendEntry;
  }

  lemma DeliveredWasSent(c: Cluster, e: Event)
    requires Enabled(c, e)
    ensures Delivered(e, c.net)
  {
  }

  lemma BaseStep(c: Cluster, e: Event)
    requires Base(c) && Enabled(c, e)
    ensures Base(Next(c, e))
  {
    hide NewState; hide Sent; hide Recall; hide BaseNode; hide BaseMsg; hide NodeProgress;
    var s := c.nodes[e.node];
    assert BaseNode(c.size, e.node, s);
    DeliveredWasSent(c, e);
    BaseNodeStep(c.size, e.node, s, e, c.net);
    BaseSent(c.size, e.node, s, e);
    RecallKeepsMembers(c.h, s, e);
    assert Next(c, e).nodes.Keys == c.nodes.Keys;
  }

  lemma {:induction false} BaseHolds(r: Run, k: nat)
    requires IsRun(r) && k <= |r.events|
    ensures Base(r.states[k])
  {
    hide Next; hide Init; hide Enabled; hide Base;
    if k == 0 {
      BaseInit(r.states[0]);
    } else {
      BaseHolds(r, k - 1);
      assert StepAt(r, k - 1);
      BaseStep(r.states[k - 1], r.events[k - 1]);
    }
  }

  lemma BaseInit(c: Cluster)
    requires Init(c)
    ensures Base(c)
  {
  }

  // ----- one node over a whole run -----

  /** What is left, later on, of a node that led term `t` with `log`: a later term, a step down, or a longer log. */
  ghost predicate AfterLeading(s: NodeState, t: Term, log: Log) {
    s.currentTerm > t || (s.currentTerm == t && (s.role.Follower? || (s.role.Leader? && log <= s.log)))
  }

  lemma NodeStepInRun(r: Run, k: nat, n: NodeId)
    requires IsRun(r) && k < |r.events| && n in r.states[k].nodes
    ensures n in r.states[k + 1].nodes && NodeProgress(r.states[k].nodes[n], r.states[k + 1].nodes[n])
  {
    hide NewState; hide Sent; hide Recall; hide Init; hide LogShape; hide RoleShape; hide BaseMsg;
    BaseHolds(r, k);
    assert StepAt(r, k);
    var c, e := r.states[k], r.events[k];
    if e.node == n {
      assert BaseNode(c.size, n, c.nodes[n]);
      DeliveredWasSent(c, e);
      BaseNodeStep(c.size, n, c.nodes[n], e, c.net);
    }
  }

  lemma {:induction false} AfterLeadingHolds(r: Run, j: nat, k: nat, n: NodeId)
    requires IsRun(r) && j <= k <= |r.events| && n in r.states[j].nodes && r.states[j].nodes[n].role.Leader?
    ensures n in r.states[k].nodes
    ensures AfterLeading(r.states[k].nodes[n], r.states[j].nodes[n].currentTerm, r.states[j].nodes[n].log)
  {
    hide Next; hide StepAt; hide Init;
    if j < k {
      AfterLeadingHolds(r, j, k - 1, n);
      NodeStepInRun(r, k - 1, n);
    }
  }

  /**
   Leader Append-Only, and terms never fall: in every run, a node seen leading one term
   at two moments only added entries between them.
   */
  lemma LeaderAppendOnly(r: Run, j: nat, k: nat, n: NodeId)
    requires IsRun(r) && j <= k <= |r.events| && n in r.states[j].nodes && n in r.states[k].nodes
    ensures r.states[j].nodes[n].currentTerm <= r.states[k].nodes[n].currentTerm
    ensures r.states[j].nodes[n].role.Leader? && r.states[k].nodes[n].role.Leader?
            && r.states[j].nodes[n].currentTerm == r.states[k].nodes[n].currentTerm ==>
              r.states[j].nodes[n].log <= r.states[k].nodes[n].log
  {
    hide Next; hide StepAt; hide Init;
    TermsNeverFall(r, j, k, n);
    if r.states[j].nodes[n].role.Leader? {
      AfterLeadingHolds(r, j, k, n);
    }
  }

  lemma {:induction false} TermsNeverFall(r: Run, j: nat, k: nat, n: NodeId)
    requires IsRun(r) && j <= k <= |r.events| && n in r.states[j].nodes
    ensures n in r.states[k].nodes && r.states[j].nodes[n].currentTerm <= r.states[k].nodes[n].currentTerm
  {
    hide Next; hide StepAt; hide Init;
    if j < k {
      TermsNeverFall(r, j, k - 1, n);
      NodeStepInRun(r, k - 1, n);
    }
  }
}
