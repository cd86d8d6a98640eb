/**
 State Machine Safety (section 5.4.3 of the Raft paper): no two nodes ever commit or
 apply different entries at one index, in every run whose commits rest on kept pledges.
 */
module Commitment {
  import opened RaftTypes
  import opened RaftLog
  import opened CommitRule
  import opened Handlers
  import opened Cluster
  import opened BaseInvariants
  import opened Effects
  import opened Elections
  import opened LogMatching
  import opened PaperRules
  import opened Completeness
  import opened ApplyOrder

  // ----- what the code needs to commit soundly -----

  /** The reply moves the leader's commit index. */
  ghost predicate Advances(s: NodeState, follower: NodeId, r: AppendResponse) {
    HandleAppendResponse(s, follower, r).commitIndex != s.commitIndex
  }

  /** Batch `a`, sent to `f`, is the one that `f` answers with `r`. */
  ghost predicate Answers(c: Cluster, n: NodeId, f: NodeId, a: AppendRequest, r: AppendResponse) {
    AppendMsg(f, a) in c.net && a.leaderId == n && a.requestId == r.requestId
  }

  /**
   Follower `f` answered leader `n` with success, in term `t` and with the length `last`,
   to a batch that reaches index `v`. The length itself may be larger: a follower reports
   its whole log.
   */
  ghost predicate Answered(c: Cluster, n: NodeId, f: NodeId, t: Term, last: nat, v: nat) {
    exists r, a ::
      && AppendReplyMsg(f, n, r) in c.net && r.success && r.term == t && r.lastLogIndex == Some(last)
      && Answers(c, n, f, a, r) && v <= a.prevLogIndex + |a.entries|
  }

  /** Leader `n`, in state `s`, has on record for `f` an answer of its term to a batch that reaches its commit index. */
  ghost predicate Supports(c: Cluster, n: NodeId, s: NodeState, f: NodeId) {
    && f in s.matchIndex && s.matchIndex[f] >= s.commitIndex
    && Answered(c, n, f, s.currentTerm, s.matchIndex[f], s.commitIndex)
  }

  /** The commit index of leader `n`, in state `s`, rests on a pledge of a majority that supports it. */
  ghost predicate RestsOn(p: Pledge, c: Cluster, n: NodeId, s: NodeState) {
    && p.term == s.currentTerm && p.length == s.commitIndex && |p.members| >= Majority(c.size)
    && forall f | f in p.members && f != n :: Supports(c, n, s, f)
  }

  ghost predicate Rests(ps: Pledges, c: Cluster, n: NodeId, s: NodeState) {
    exists p :: p in ps && RestsOn(p, c, n, s)
  }

  /** The leader has not used the request id before; the source draws ids from a counter. */
  ghost predicate FreshId(c: Cluster, n: NodeId, requestId: nat) {
    forall m | m in c.net && m.AppendMsg? && m.append.leaderId == n :: m.append.requestId != requestId
  }

  /**
   What the code needs so that its record of followers means replication. When the commit
   index moves, a majority supports it by answers of the current term to batches that reach
   it: a record left over from an earlier reign, a late reply, the median of few answers or
   the length of a stale log does not count. A leader sends each batch under a new id, and
   the batch cap is positive. Nothing is asked of those who receive batches.
   */
  ghost predicate CommitGuard(ps: Pledges, c: Cluster, e: Event)
    requires Enabled(c, e)
  {
    var s := c.nodes[e.node];
    match e
    case SendAppend(n, follower, requestId) => s.maxEntries >= 1 && FreshId(c, n, requestId)
    case OnAppendReply(n, follower, r) =>
      Advances(s, follower, r) ==> Rests(ps, c, n, HandleAppendResponse(s, follower, r))
    case _ => true
  }

  /**
   When the code's own count is enough: the leader is not in its own record, each follower
   counted for the commit index answered, in the current term, a batch that reaches it, and
   the count is a majority.
   */
  lemma SupportIsEnough(c: Cluster, n: NodeId, s: NodeState)
    requires n !in Supporters(s.matchIndex, s.commitIndex)
    requires forall f | f in Supporters(s.matchIndex, s.commitIndex) ::
               Answered(c, n, f, s.currentTerm, s.matchIndex[f], s.commitIndex)
    requires Support(s.matchIndex, |s.log|, s.commitIndex) >= Majority(c.size)
    ensures RestsOn(Pledge(s.currentTerm, s.commitIndex, Supporters(s.matchIndex, s.commitIndex) + {n}), c, n, s)
  {
    var supporters := Supporters(s.matchIndex, s.commitIndex);
    assert |supporters + {n}| == |supporters| + 1;
  }

  // ----- the invariant -----

  /** The first `k` entries of every log that has them are settled by the chosen pledge `p`. */
  ghost predicate Covers(ps: Pledges, c: Cluster, p: Pledge, k: nat, bound: Term) {
    p in ps && Chosen(c, p) && k <= p.length && p.term <= bound
  }

  ghost predicate Covered(ps: Pledges, c: Cluster, k: nat, bound: Term) {
    k == 0 || exists p :: Covers(ps, c, p, k, bound)
  }

  /** The committed part of a node's log: what of the first `commitIndex` entries it has. */
  function CommittedPart(s: NodeState): Log {
    s.log[..Min(s.commitIndex, |s.log|)]
  }

  /** The pledge covers the node's commit index, and its committed part agrees with the pledged log. */
  ghost predicate Vouches(ps: Pledges, c: Cluster, p: Pledge, s: NodeState) {
    Covers(ps, c, p, s.commitIndex, s.currentTerm) && CommittedPart(s) <= c.h.reigns[p.term].log
  }

  ghost predicate CommitLog(ps: Pledges, c: Cluster, s: NodeState) {
    s.commitIndex == 0 || exists p :: Vouches(ps, c, p, s)
  }

  /** A leader confirmed its own entries. */
  ghost predicate OwnAcks(h: History, n: NodeId, s: NodeState) {
    s.role.Leader? ==>
      forall i | 0 <= i < |s.log| && s.log[i].term == s.currentTerm ::
        Slot(n, s.currentTerm) in h.acks && i < h.acks[Slot(n, s.currentTerm)]
  }

  ghost predicate Settles(c: Cluster, p: Pledge, x: LogEntry) {
    Chosen(c, p) && 1 <= x.index <= p.length && c.h.reigns[p.term].log[x.index - 1] == x
  }

  /** Every entry the state machine was handed is settled. */
  ghost predicate AppliedSettled(ps: Pledges, c: Cluster, n: NodeId) {
    n in c.h.applied && forall x | x in c.h.applied[n] :: exists p :: p in ps && Settles(c, p, x)
  }

  ghost predicate CommitNode(ps: Pledges, c: Cluster, n: NodeId, s: NodeState) {
    CommitLog(ps, c, s) && OwnAcks(c.h, n, s) && AppliedSettled(ps, c, n)
  }

  ghost predicate CommitMsg(ps: Pledges, c: Cluster, m: Message) {
    && (m.AppendMsg? ==>
          && Covered(ps, c, m.append.leaderCommit, m.append.term)
          && (m.append.entries == [] ==> m.append.leaderCommit <= m.append.prevLogIndex))
    && (m.AppendReplyMsg? && m.ack.success ==> m.source in c.nodes && Honest(c, m.source, m.leader, m.ack))
  }

  /** A success reply answers a batch that its sender confirmed to the end. */
  ghost predicate Honest(c: Cluster, source: NodeId, leader: NodeId, r: AppendResponse) {
    exists a ::
      && Answers(c, leader, source, a, r) && Slot(source, r.term) in c.h.acks
      && a.prevLogIndex + |a.entries| <= c.h.acks[Slot(source, r.term)]
  }

  /** A leader's request id names one batch. */
  ghost predicate OneBatchPerId(net: set<Message>) {
    forall m, m' | m in net && m' in net && m.AppendMsg? && m'.AppendMsg?
                   && m.append.leaderId == m'.append.leaderId && m.append.requestId == m'.append.requestId :: m == m'
  }

  ghost predicate Committed(ps: Pledges, c: Cluster) {
    && (forall n | n in c.nodes :: CommitNode(ps, c, n, c.nodes[n]))
    && (forall m | m in c.net :: CommitMsg(ps, c, m))
    && OneBatchPerId(c.net)
  }

  ghost predicate Sound(ps: Pledges, c: Cluster) {
    |c.nodes| <= c.size && Elect(false, c) && Logs(c) && Complete(ps, c)
  }

  // ----- chosen pledges never disagree -----

  /** Every leader of a term not before a chosen pledge has the pledged entries. */
  lemma PledgedInLeaderLog(ps: Pledges, c: Cluster, p: Pledge, u: Term)
    requires Sound(ps, c) && p in ps && Chosen(c, p) && p.term <= u && u in c.h.reigns
    ensures c.h.reigns[p.term].log[..p.length] <= c.h.reigns[u].log
  {
    hide Elect; hide Complete; hide LogNode; hide LogMsg; hide Anchored;
    if p.term < u {
      LeaderCompletenessIn(ps, c, p, u);
      assert ReignLog(c.h.reigns, u);
    }
  }

  lemma PledgesAgree(ps: Pledges, c: Cluster, p: Pledge, q: Pledge, i: nat)
    requires Sound(ps, c) && p in ps && q in ps && Chosen(c, p) && Chosen(c, q) && i < p.length && i < q.length
    ensures c.h.reigns[p.term].log[i] == c.h.reigns[q.term].log[i]
  {
    hide Sound;
    var x, y := c.h.reigns[p.term].log, c.h.reigns[q.term].log;
    assert x[..p.length][i] == x[i] && y[..q.length][i] == y[i];
    if p.term <= q.term {
      PledgedInLeaderLog(ps, c, p, q.term);
    } else {
      PledgedInLeaderLog(ps, c, q, p.term);
    }
  }

  /** Committed parts, settled in one state, extend one another. */
  lemma PartsAgree(ps: Pledges, c: Cluster, x: NodeState, y: NodeState)
    requires Sound(ps, c) && CommitLog(ps, c, x) && CommitLog(ps, c, y)
    ensures CommittedPart(x) <= CommittedPart(y) || CommittedPart(y) <= CommittedPart(x)
  {
    hide Sound; hide Chosen;
    var a, b := CommittedPart(x), CommittedPart(y);
    if a != [] && b != [] {
      var p :| Vouches(ps, c, p, x);
      var q :| Vouches(ps, c, q, y);
      forall i: nat | i < |a| && i < |b| ensures a[i] == b[i] {
        PledgesAgree(ps, c, p, q, i);
      }
    }
  }

  // ----- settled facts stay -----

  lemma CoveredLater(ps: Pledges, c: Cluster, c': Cluster, k: nat, bound: Term, bound': Term)
    requires Covered(ps, c, k, bound) && Extends(c, c') && bound <= bound'
    ensures Covered(ps, c', k, bound')
  {
    hide Chosen; hide Extends;
    if k != 0 {
      var p :| Covers(ps, c, p, k, bound);
      ChosenStays(c, c', p);
      assert Covers(ps, c', p, k, bound');
    }
  }

  lemma CommitLogLater(ps: Pledges, c: Cluster, c': Cluster, s: NodeState, s': NodeState)
    requires CommitLog(ps, c, s) && Extends(c, c') && CommittedPart(s') == CommittedPart(s)
    requires s'.commitIndex == s.commitIndex && s'.currentTerm >= s.currentTerm
    ensures CommitLog(ps, c', s')
  {
    hide Chosen; hide CommittedPart;
    if s.commitIndex != 0 {
      var p :| Vouches(ps, c, p, s);
      ChosenStays(c, c', p);
      assert Vouches(ps, c', p, s');
    }
  }

  lemma SettlesLater(c: Cluster, c': Cluster, p: Pledge, x: LogEntry)
    requires Settles(c, p, x) && Extends(c, c')
    ensures Settles(c', p, x)
  {
    ChosenStays(c, c', p);
  }

  lemma AppliedLater(ps: Pledges, c: Cluster, c': Cluster, n: NodeId)
    requires AppliedSettled(ps, c, n) && Extends(c, c') && n in c'.h.applied && c'.h.applied[n] == c.h.applied[n]
    ensures AppliedSettled(ps, c', n)
  {
    hide Settles; hide Extends;
    forall x | x in c'.h.applied[n] ensures exists p :: p in ps && Settles(c', p, x) {
      var p :| p in ps && Settles(c, p, x);
      SettlesLater(c, c', p, x);
    }
  }

  // ----- the leader's commit rule chooses -----

  /** An advanced commit index is chosen by the pledge it rests on. */
  lemma AdvanceIsChosen(ps: Pledges, c: Cluster, n: NodeId, s: NodeState, p: Pledge)
    requires RestsOn(p, c, n, s) && OwnAcks(c.h, n, s) && s.role.Leader? && n in c.nodes
    requires OneBatchPerId(c.net) && forall m | m in c.net :: CommitMsg(ps, c, m)
    requires s.currentTerm in c.h.reigns && c.h.reigns[s.currentTerm].log == s.log
    requires 1 <= s.commitIndex <= |s.log| && s.log[s.commitIndex - 1].term == s.currentTerm
    ensures Chosen(c, p)
  {
    hide CommitMsg; hide Majority; hide Supports; hide OneBatchPerId;
    forall f | f in p.members ensures f in c.nodes && Confirmed(c.h, p, f) {
      if f != n { SupporterConfirmed(ps, c, n, s, f); }
    }
  }

  /** The batch a supporter answered, named by its id, is one it confirmed. */
  lemma SupporterConfirmed(ps: Pledges, c: Cluster, n: NodeId, s: NodeState, f: NodeId)
    requires Supports(c, n, s, f) && OneBatchPerId(c.net) && forall m | m in c.net :: CommitMsg(ps, c, m)
    ensures f in c.nodes && Slot(f, s.currentTerm) in c.h.acks && s.commitIndex <= c.h.acks[Slot(f, s.currentTerm)]
  {
    hide Covered;
    var r, a :| && AppendReplyMsg(f, n, r) in c.net && r.success && r.term == s.currentTerm
                && r.lastLogIndex == Some(s.matchIndex[f])
                && Answers(c, n, f, a, r) && s.commitIndex <= a.prevLogIndex + |a.entries|;
    assert CommitMsg(ps, c, AppendReplyMsg(f, n, r));
    var b :| && Answers(c, n, f, b, r) && Slot(f, r.term) in c.h.acks
             && b.prevLogIndex + |b.entries| <= c.h.acks[Slot(f, r.term)];
    assert AppendMsg(f, a) == AppendMsg(f, b);
  }

  // ----- every event keeps the invariant at the node it happens at -----

  lemma CommitQuiet(ps: Pledges, c: Cluster, c': Cluster, n: NodeId, s: NodeState, s': NodeState)
    requires CommitNode(ps, c, n, s) && Extends(c, c') && s'.log == s.log && s'.currentTerm >= s.currentTerm
    requires s'.commitIndex == s.commitIndex
    requires s'.role.Leader? ==>
               && s'.currentTerm == s.currentTerm
               && (s.role.Leader? || forall i | 0 <= i < |s.log| :: s.log[i].term < s.currentTerm)
    requires n in c'.h.applied && c'.h.applied[n] == c.h.applied[n]
    ensures CommitNode(ps, c', n, s')
  {
    hide CommitLog; hide AppliedSettled;
    CommitLogLater(ps, c, c', s, s');
    AppliedLater(ps, c, c', n);
  }

  /** A log that accepts a batch agrees, after it, with every pledge its sender has. */
  lemma AcceptedAgrees(ps: Pledges, c: Cluster, s: NodeState, a: AppendRequest, p: Pledge, k: nat)
    requires Sound(ps, c) && Covers(ps, c, p, k, a.term)
    requires Anchored(c.h.reigns, s.log) && Segment(c.h.reigns, a) && Accepts(s, a)
    requires a.entries != [] || k <= a.prevLogIndex
    ensures var log := LogAfter(s, a);
            log[..Min(k, |log|)] <= c.h.reigns[p.term].log
  {
    hide Elect; hide Complete; hide LogNode; hide LogMsg; hide Anchored; hide ReignLog;
    assert ReignLog(c.h.reigns, a.term);
    AcceptedIsPrefix(c.h.reigns, s.log, a);
    PledgedInLeaderLog(ps, c, p, a.term);
    hide Sound;
    var log, leader, own := LogAfter(s, a), c.h.reigns[a.term].log, c.h.reigns[p.term].log;
    var m := Min(k, |log|);
    if a.entries == [] {
      SlicesAgree(log[..a.prevLogIndex], leader, a.prevLogIndex, m);
      assert log[..a.prevLogIndex][..m] == log[..m];
    } else {
      SlicesAgree(log, leader, a.prevLogIndex + |a.entries|, m);
    }
    assert leader[..m] == own[..p.length][..m] == own[..m];
  }

  lemma SlicesAgree(log: Log, leader: Log, k: nat, m: nat)
    requires m <= k <= |leader| && log == leader[..k]
    ensures m <= |log| && log[..m] == leader[..m]
  {
  }

  /** The follower's commit index, kept or raised, covers only settled entries. */
  lemma AcceptKeepsCommit(ps: Pledges, c: Cluster, s: NodeState, s': NodeState, a: AppendRequest)
    requires Sound(ps, c) && CommitLog(ps, c, s) && Covered(ps, c, a.leaderCommit, a.term)
    requires a.entries == [] ==> a.leaderCommit <= a.prevLogIndex
    requires Anchored(c.h.reigns, s.log) && Segment(c.h.reigns, a) && Accepts(s, a) && FollowsIn(s, s', a.term)
    requires s'.log == LogAfter(s, a)
    requires s'.commitIndex == if a.leaderCommit > s.commitIndex then Min(a.leaderCommit, |s'.log|) else s.commitIndex
    ensures CommitLog(ps, c, s')
  {
    hide Sound; hide Chosen; hide Anchored; hide Segment; hide CheckLogConsistency;
    if s'.commitIndex != 0 {
      if a.leaderCommit > s.commitIndex {
        var p :| Covers(ps, c, p, a.leaderCommit, a.term);
        AcceptedAgrees(ps, c, s, a, p, a.leaderCommit);
        assert Vouches(ps, c, p, s');
      } else {
        var p :| Vouches(ps, c, p, s);
        if a.entries != [] {
          AcceptedAgrees(ps, c, s, a, p, s.commitIndex);
        }
        assert Vouches(ps, c, p, s');
      }
    }
  }

  /** A leader has every entry up to its commit index. */
  lemma LeaderHasCommitted(ps: Pledges, c: Cluster, n: NodeId, s: NodeState)
    requires Sound(ps, c) && CommitLog(ps, c, s) && LogNode(c.h.reigns, n, s) && s.role.Leader?
    ensures s.commitIndex <= |s.log| && Covered(ps, c, s.commitIndex, s.currentTerm)
  {
    hide Sound; hide Anchored;
    if s.commitIndex != 0 {
      var p :| Vouches(ps, c, p, s);
      PledgedInLeaderLog(ps, c, p, s.currentTerm);
    }
  }

  /** An advance rests on a pledge, so the leader's new commit index is settled. */
  lemma CommitAdvances(ps: Pledges, c: Cluster, n: NodeId, s: NodeState)
    requires Rests(ps, c, n, s) && OwnAcks(c.h, n, s) && s.role.Leader? && n in c.nodes
    requires OneBatchPerId(c.net) && forall m | m in c.net :: CommitMsg(ps, c, m)
    requires s.currentTerm in c.h.reigns && c.h.reigns[s.currentTerm].log == s.log
    requires 1 <= s.commitIndex <= |s.log| && s.log[s.commitIndex - 1].term == s.currentTerm
    ensures CommitLog(ps, c, s)
  {
    hide Chosen; hide CommitMsg; hide OwnAcks; hide OneBatchPerId;
    var p :| p in ps && RestsOn(p, c, n, s);
    AdvanceIsChosen(ps, c, n, s, p);
    assert p.term in c.h.reigns && Vouches(ps, c, p, s);
  }

  lemma CommitApply(ps: Pledges, c: Cluster, c': Cluster, n: NodeId, s: NodeState, failAt: Option<nat>)
    requires CommitNode(ps, c, n, s) && Extends(c, c') && n in c'.h.applied && LogShape(s.log, s.currentTerm)
    requires c'.h.applied[n] == c.h.applied[n] + ApplyCommitted(s, failAt).handed
    ensures CommitNode(ps, c', n, ApplyCommitted(s, failAt).state)
  {
    hide ApplyCommitted; hide CommitLog; hide Settles; hide LogShape;
    var s' := ApplyCommitted(s, failAt).state;
    ApplyEffect(s, failAt);
    CommitLogLater(ps, c, c', s, s');
    forall x | x in c'.h.applied[n] ensures exists p :: p in ps && Settles(c', p, x) {
      if x in c.h.applied[n] {
        var p :| p in ps && Settles(c, p, x);
        SettlesLater(c, c', p, x);
      } else {
        HandedAreSettled(ps, c, s, failAt, x);
        var p :| p in ps && Settles(c, p, x);
        SettlesLater(c, c', p, x);
      }
    }
  }

  lemma HandedAreSettled(ps: Pledges, c: Cluster, s: NodeState, failAt: Option<nat>, x: LogEntry)
    requires CommitLog(ps, c, s) && LogShape(s.log, s.currentTerm) && x in ApplyCommitted(s, failAt).handed
    ensures exists p :: p in ps && Settles(c, p, x)
  {
    hide ApplyCommitted;
    HandedAreCommitted(s, failAt, x);
    var i: nat :| i < s.commitIndex && i < |s.log| && s.log[i] == x;
    var p :| Vouches(ps, c, p, s);
    assert CommittedPart(s)[i] == x;
    assert Settles(c, p, x);
  }

  // ----- messages -----

  /** A heartbeat is only sent from the end of the leader's log, past its commit index. */
  lemma CommitSend(ps: Pledges, c: Cluster, n: NodeId, s: NodeState, follower: NodeId, requestId: nat)
    requires Sound(ps, c) && CommitLog(ps, c, s) && LogNode(c.h.reigns, n, s) && s.maxEntries >= 1
    ensures var r := CreateAppendEntries(s, follower, requestId);
            r.Ok? ==> CommitMsg(ps, c, AppendMsg(follower, r.value))
  {
    hide Sound; hide CommitLog; hide LogNode; hide Covered;
    if s.role.Leader? {
      LeaderHasCommitted(ps, c, n, s);
    }
  }

  lemma CommitMsgLater(ps: Pledges, c: Cluster, c': Cluster, m: Message)
    requires CommitMsg(ps, c, m) && Extends(c, c') && c.net <= c'.net
    ensures CommitMsg(ps, c', m)
  {
    hide Covered;
    if m.AppendMsg? {
      CoveredLater(ps, c, c', m.append.leaderCommit, m.append.term, m.append.term);
    } else if m.AppendReplyMsg? && m.ack.success {
      var a :| && Answers(c, m.leader, m.source, a, m.ack) && Slot(m.source, m.ack.term) in c.h.acks
               && a.prevLogIndex + |a.entries| <= c.h.acks[Slot(m.source, m.ack.term)];
      assert Answers(c', m.leader, m.source, a, m.ack);
    }
  }

  /** A batch under a new id keeps ids unique; no other event sends one. */
  lemma IdsStayUnique(ps: Pledges, c: Cluster, e: Event)
    requires Base(c) && Enabled(c, e) && CommitGuard(ps, c, e) && OneBatchPerId(c.net)
    ensures OneBatchPerId(c.net + Sent(c.nodes[e.node], e))
  {
    hide HandleVoteRequest; hide HandleAppendEntries; hide StartElection; hide Advances; hide Rests;
    hide LogShape; hide RoleShape; hide BaseMsg;
    assert BaseNode(c.size, e.node, c.nodes[e.node]);
  }

  // ----- every event keeps the invariant -----

  lemma CommitOnVoteReply(ps: Pledges, c: Cluster, c': Cluster, n: NodeId, s: NodeState, r: VoteResponse)
    requires CommitNode(ps, c, n, s) && Extends(c, c') && LogNode(c.h.reigns, n, s)
    requires n in c'.h.applied && c'.h.applied[n] == c.h.applied[n]
    ensures CommitNode(ps, c', n, HandleVoteResponse(s, r).0)
  {
    hide HandleVoteResponse; hide CommitNode; hide Extends; hide Anchored;
    VoteReplyEffect(s, r);
    CommitQuiet(ps, c, c', n, s, HandleVoteResponse(s, r).0);
  }

  lemma CommitOnAppend(ps: Pledges, c: Cluster, c': Cluster, n: NodeId, s: NodeState, a: AppendRequest)
    requires Sound(ps, c) && CommitNode(ps, c, n, s) && Extends(c, c')
    requires Anchored(c.h.reigns, s.log) && Segment(c.h.reigns, a) && CommitMsg(ps, c, AppendMsg(n, a))
    requires n in c'.h.applied && c'.h.applied[n] == c.h.applied[n]
    ensures CommitNode(ps, c', n, HandleAppendEntries(s, a).0)
  {
    hide HandleAppendEntries; hide Extends; hide Anchored; hide Segment; hide LogAfter; hide Sound; hide CommitLog;
    hide CheckLogConsistency; hide LastLogInfo; hide Covered; hide AppliedSettled;
    AppendEffect(s, a);
    var s' := HandleAppendEntries(s, a).0;
    if Accepts(s, a) {
      AcceptKeepsCommit(ps, c, s, s', a);
      CommitLogLater(ps, c, c', s', s');
      AppliedLater(ps, c, c', n);
    } else {
      CommitQuiet(ps, c, c', n, s, s');
    }
  }

  lemma CommitOnAppendReply(ps: Pledges, c: Cluster, c': Cluster, n: NodeId, s: NodeState,
                            follower: NodeId, r: AppendResponse)
    requires CommitNode(ps, c, n, s) && n in c.nodes && Extends(c, c') && n in c.h.applied
    requires c'.h.applied == c.h.applied
    requires LogNode(c.h.reigns, n, s) && OneBatchPerId(c.net)
    requires forall m | m in c.net :: CommitMsg(ps, c, m)
    requires Advances(s, follower, r) ==> Rests(ps, c, n, HandleAppendResponse(s, follower, r))
    ensures CommitNode(ps, c', n, HandleAppendResponse(s, follower, r))
  {
    hide HandleAppendResponse; hide Extends; hide Anchored; hide CommitCandidate; hide CommitLog; hide Rests;
    hide AppliedSettled; hide CommitMsg; hide OneBatchPerId;
    AppendReplyEffect(s, follower, r);
    var s' := HandleAppendResponse(s, follower, r);
    if s'.commitIndex != s.commitIndex {
      CommitAdvances(ps, c, n, s');
      CommitQuiet(ps, c, c', n, s', s');
    } else {
      CommitQuiet(ps, c, c', n, s, s');
    }
  }

  lemma CommitOnClientAppend(ps: Pledges, c: Cluster, c': Cluster, n: NodeId, s: NodeState,
                             command: seq<Byte>, timestamp: nat)
    requires Sound(ps, c) && CommitNode(ps, c, n, s) && Extends(c, c') && LogNode(c.h.reigns, n, s) && s.id == n
    requires n in c.h.applied && c'.h == RecallClientAppend(c.h, s, AppendEntry(s, command, timestamp).0)
    ensures CommitNode(ps, c', n, AppendEntry(s, command, timestamp).0)
  {
    hide AppendEntry; hide Extends; hide Anchored; hide CommitLog; hide AppliedSettled; hide Sound; hide Covered;
    ClientAppendEffect(s, command, timestamp);
    var s' := AppendEntry(s, command, timestamp).0;
    if s.role.Leader? {
      LeaderHasCommitted(ps, c, n, s);
      assert s'.log[..s.commitIndex] == s.log[..s.commitIndex];
      CommitLogLater(ps, c, c', s, s');
      AppliedLater(ps, c, c', n);
    } else {
      CommitQuiet(ps, c, c', n, s, s');
    }
  }

  lemma CommitActor(ps: Pledges, c: Cluster, c': Cluster, e: Event)
    requires Safe(ps, c) && Committed(ps, c) && Enabled(c, e) && CommitGuard(ps, c, e)
    requires c' == Next(c, e) && Extends(c, c')
    ensures CommitNode(ps, c', e.node, c'.nodes[e.node])
  {
    hide HandleAppendEntries; hide HandleAppendResponse; hide StartElection;
    hide HandleVoteRequest; hide HandleVoteResponse; hide AppendEntry; hide ApplyCommitted;
    hide RecallClientAppend; hide Grants; hide CommitCandidate; hide Rests;
    hide LogShape; hide BatchShape; hide RoleShape; hide LastLogInfo; hide IsLogUpToDate; hide ReignLog;
    hide Anchored; hide Elect; hide Complete; hide CommitNode; hide CommitMsg; hide Extends; hide Advances;
    hide CheckLogConsistency; hide Sent;
    var n, s, h := e.node, c.nodes[e.node], c.h;
    assert BaseNode(c.size, n, s) && LogNode(h.reigns, n, s) && CommitNode(ps, c, n, s);
    match e
    case Timeout(_) => CommitTimeout(ps, c, c', n, s);
    case OnVoteRequest(_, r) =>
      VoteRequestEffect(s, r);
      CommitQuiet(ps, c, c', n, s, HandleVoteRequest(s, r).0);
    case OnVoteReply(_, voter, r) => CommitOnVoteReply(ps, c, c', n, s, r);
    case SendAppend(_, _, _) => CommitQuiet(ps, c, c', n, s, s);
    case OnAppend(_, a) =>
      assert LogMsg(h.reigns, AppendMsg(n, a)) && CommitMsg(ps, c, AppendMsg(n, a));
      CommitOnAppend(ps, c, c', n, s, a);
    case OnAppendReply(_, follower, r) => CommitOnAppendReply(ps, c, c', n, s, follower, r);
    case ClientAppend(_, command, timestamp) => CommitOnClientAppend(ps, c, c', n, s, command, timestamp);
    case Apply(_, failAt) => CommitApply(ps, c, c', n, s, failAt);
  }

  lemma CommitTimeout(ps: Pledges, c: Cluster, c': Cluster, n: NodeId, s: NodeState)
    requires CommitNode(ps, c, n, s) && Extends(c, c') && n in c'.h.applied && c'.h.applied[n] == c.h.applied[n]
    ensures CommitNode(ps, c', n, StartElection(s).0)
  {
    hide LastLogInfo; hide CommitNode; hide Extends;
    CommitQuiet(ps, c, c', n, s, StartElection(s).0);
  }

  lemma CommitSent(ps: Pledges, c: Cluster, c': Cluster, e: Event)
    requires Safe(ps, c) && Committed(ps, c) && Enabled(c, e) && CommitGuard(ps, c, e)
    requires c' == Next(c, e) && Extends(c, c') && Base(c')
    ensures forall m | m in Sent(c.nodes[e.node], e) :: CommitMsg(ps, c', m)
  {
    hide HandleAppendResponse; hide HandleVoteRequest; hide HandleVoteResponse; hide CreateAppendEntries;
    hide AppendEntry; hide ApplyCommitted; hide RecallClientAppend; hide RecallVoteReply; hide Grants; hide Advances;
    hide LogShape; hide BatchShape; hide RoleShape; hide ReignLog; hide HandleAppendEntries; hide StartElection;
    hide Anchored; hide Elect; hide Complete; hide Extends; hide Rests; hide BaseNode; hide BaseMsg; hide CommitMsg;
    hide RecallAppend; hide Accepts; hide NewState; hide CommitLog; hide AppliedSettled; hide OwnAcks;
    var n, s := e.node, c.nodes[e.node];
    match e
    case SendAppend(_, follower, requestId) =>
      assert LogNode(c.h.reigns, n, s) && CommitNode(ps, c, n, s);
      CommitSend(ps, c, n, s, follower, requestId);
      forall m | m in Sent(s, e) ensures CommitMsg(ps, c', m) { CommitMsgLater(ps, c, c', m); }
    case OnAppend(_, a) => CommitSentAnswer(ps, c, c', n, a);
    case _ => OtherMsg(ps, c', s, e);
  }

  lemma OtherMsg(ps: Pledges, c: Cluster, s: NodeState, e: Event)
    requires !e.SendAppend? && !e.OnAppend?
    ensures forall m | m in Sent(s, e) :: CommitMsg(ps, c, m)
  {
    hide HandleVoteRequest; hide StartElection; hide Covered;
  }

  /** An accepted batch is answered after its end was confirmed. */
  lemma CommitSentAnswer(ps: Pledges, c: Cluster, c': Cluster, n: NodeId, a: AppendRequest)
    requires Base(c) && Enabled(c, OnAppend(n, a)) && c' == Next(c, OnAppend(n, a))
    ensures CommitMsg(ps, c', AppendReplyMsg(n, a.leaderId, HandleAppendEntries(c.nodes[n], a).1))
  {
    hide HandleAppendEntries; hide LogShape; hide BatchShape; hide RoleShape; hide LastLogInfo; hide LogAfter;
    hide CheckLogConsistency; hide Sent; hide Covered; hide Acked;
    var s := c.nodes[n];
    AppendEffect(s, a);
    assert BaseNode(c.size, n, s);
    if Accepts(s, a) {
      assert Answers(c', a.leaderId, n, a, HandleAppendEntries(s, a).1);
    }
  }

  lemma CommitStep(ps: Pledges, c: Cluster, e: Event)
    requires Safe(ps, c) && Committed(ps, c) && Enabled(c, e)
    requires FairWin(c, e) && Spares(ps, c, e) && CommitGuard(ps, c, e)
    ensures Safe(ps, Next(c, e)) && Committed(ps, Next(c, e)) && Extends(c, Next(c, e))
  {
    hide NewState; hide Sent; hide Recall; hide Elect; hide Logs; hide Complete; hide ReignsGrow; hide Grows;
    hide AcksGrow; hide CommitNode; hide CommitMsg; hide Extends; hide BaseNode; hide BaseMsg; hide FreshWin;
    hide FairWin; hide Spares; hide CommitGuard; hide OneBatchPerId;
    SafeStep(ps, c, e);
    ExtendsStep(c, e);
    var c' := Next(c, e);
    CommitActor(ps, c, c', e);
    CommitSent(ps, c, c', e);
    IdsStayUnique(ps, c, e);
    forall m | m in c'.nodes ensures CommitNode(ps, c', m, c'.nodes[m]) {
      if m != e.node { CommitElsewhere(ps, c, e, m); }
    }
    forall m | m in c'.net ensures CommitMsg(ps, c', m) {
      if m in c.net { CommitMsgLater(ps, c, c', m); }
    }
  }

  lemma CommitElsewhere(ps: Pledges, c: Cluster, e: Event, m: NodeId)
    requires Enabled(c, e) && m in c.nodes && m != e.node && CommitNode(ps, c, m, c.nodes[m])
    requires Extends(c, Next(c, e))
    ensures CommitNode(ps, Next(c, e), m, c.nodes[m])
  {
    hide NewState; hide Sent; hide Recall; hide CommitLog; hide Extends;
    AppliedElsewhere(c.h, c.nodes[e.node], e, m);
    CommitQuiet(ps, c, Next(c, e), m, c.nodes[m], c.nodes[m]);
  }

  // ----- whole runs -----

  ghost predicate CommitGuarded(ps: Pledges, r: Run)
    requires IsRun(r)
  {
    forall k: nat {:trigger StepAt(r, k)} | k < |r.events| :: StepAt(r, k) && CommitGuard(ps, r.states[k], r.events[k])
  }

  /**
   No term is won twice and counted voters are distinct, every commit rests on a pledge,
   and the members of each pledge keep what they confirmed.
   */
  ghost predicate Guarded(ps: Pledges, r: Run)
    requires IsRun(r)
  {
    FairlyWon(r) && CommitGuarded(ps, r) && Kept(ps, r)
  }

  lemma CommitInit(ps: Pledges, c: Cluster)
    requires Init(c)
    ensures Committed(ps, c)
  {
  }

  lemma {:induction false} CommittedHolds(ps: Pledges, r: Run, k: nat)
    requires IsRun(r) && Guarded(ps, r) && k <= |r.events|
    ensures Safe(ps, r.states[k]) && Committed(ps, r.states[k])
  {
    hide Next; hide Safe; hide Committed; hide FairWin; hide Spares; hide CommitGuard; hide Enabled; hide Init;
    hide Extends;
    SafeHolds(ps, r, k);
    if k == 0 {
      CommitInit(ps, r.states[0]);
    } else {
      CommittedHolds(ps, r, k - 1);
      assert StepAt(r, k - 1);
      CommitStep(ps, r.states[k - 1], r.events[k - 1]);
    }
  }

  /**
   What any two nodes have of their committed entries, at any two moments of the run,
   agrees: one part extends the other. A batch may have cut a node's log below its commit
   index; what it then has, and gets again, still agrees.
   */
  lemma CommittedPartsAgree(ps: Pledges, r: Run, j: nat, k: nat, a: NodeId, b: NodeId)
    requires IsRun(r) && Guarded(ps, r) && j <= |r.events| && k <= |r.events|
    requires a in r.states[j].nodes && b in r.states[k].nodes
    ensures var x, y := CommittedPart(r.states[j].nodes[a]), CommittedPart(r.states[k].nodes[b]);
            x <= y || y <= x
  {
    hide Next; hide StepAt; hide Guarded; hide Init; hide Extends; hide Elect; hide Logs; hide Complete;
    hide OwnAcks; hide CommitMsg; hide CommitLog; hide BaseNode; hide BaseMsg; hide AppliedSettled;
    var end := |r.events|;
    CommittedHolds(ps, r, j);
    CommittedHolds(ps, r, k);
    CommittedHolds(ps, r, end);
    RunExtends(ps, r, j, end);
    RunExtends(ps, r, k, end);
    var x, y, last := r.states[j].nodes[a], r.states[k].nodes[b], r.states[end];
    assert CommitNode(ps, r.states[j], a, x) && CommitNode(ps, r.states[k], b, y);
    CommitLogLater(ps, r.states[j], last, x, x);
    CommitLogLater(ps, r.states[k], last, y, y);
    PartsAgree(ps, last, x, y);
  }

  lemma RunExtends(ps: Pledges, r: Run, j: nat, k: nat)
    requires IsRun(r) && Guarded(ps, r) && j <= k <= |r.events|
    ensures Extends(r.states[j], r.states[k])
  {
    HistoryExtends(r, j, k);
  }

  /**
   State Machine Safety, as the paper words it: entries that any two state machines were
   handed at one index, at any two moments of the run, are the same entry.
   */
  lemma AppliedEntriesAgree(ps: Pledges, r: Run, j: nat, k: nat, a: NodeId, b: NodeId, x: LogEntry, y: LogEntry)
    requires IsRun(r) && Guarded(ps, r) && j <= |r.events| && k <= |r.events|
    requires a in r.states[j].h.applied && x in r.states[j].h.applied[a] && a in r.states[j].nodes
    requires b in r.states[k].h.applied && y in r.states[k].h.applied[b] && b in r.states[k].nodes
    requires x.index == y.index
    ensures x == y
  {
    hide Next; hide StepAt; hide Guarded; hide Init; hide Extends; hide Elect; hide Logs; hide Complete;
    hide OwnAcks; hide CommitMsg; hide CommitLog; hide BaseNode; hide BaseMsg; hide Chosen;
    var end := |r.events|;
    CommittedHolds(ps, r, j);
    CommittedHolds(ps, r, k);
    CommittedHolds(ps, r, end);
    RunExtends(ps, r, j, end);
    RunExtends(ps, r, k, end);
    var last := r.states[end];
    assert CommitNode(ps, r.states[j], a, r.states[j].nodes[a]) && CommitNode(ps, r.states[k], b, r.states[k].nodes[b]);
    var p :| p in ps && Settles(r.states[j], p, x);
    var q :| q in ps && Settles(r.states[k], q, y);
    SettlesLater(r.states[j], last, p, x);
    SettlesLater(r.states[k], last, q, y);
    PledgesAgree(ps, last, p, q, x.index - 1);
  }

  /**
   Where the batches that two nodes accept also reach their commit indices, what the two
   have committed is in their logs and agrees: one committed prefix extends the other.
   */
  lemma StateMachineSafety(ps: Pledges, r: Run, j: nat, k: nat, a: NodeId, b: NodeId)
    requires IsRun(r) && Guarded(ps, r) && j <= |r.events| && k <= |r.events|
    requires ReachGuarded(r, a) && ReachGuarded(r, b)
    requires a in r.states[j].nodes && b in r.states[k].nodes
    ensures var x, y := r.states[j].nodes[a], r.states[k].nodes[b];
            && x.commitIndex <= |x.log| && y.commitIndex <= |y.log|
            && (x.log[..x.commitIndex] <= y.log[..y.commitIndex] || y.log[..y.commitIndex] <= x.log[..x.commitIndex])
  {
    hide StepAt; hide Guarded; hide ReachGuarded; hide Init;
    CommittedPartsAgree(ps, r, j, k, a, b);
    CursorsHold(r, j, a);
    CursorsHold(r, k, b);
  }

  /**
   The state machines of two such nodes agree: the sequences of entries handed to them, at
   any two moments, extend one another, without gap, repetition or reordering.
   */
  lemma AppliedSequencesAgree(ps: Pledges, r: Run, j: nat, k: nat, a: NodeId, b: NodeId)
    requires IsRun(r) && Guarded(ps, r) && j <= |r.events| && k <= |r.events|
    requires ReachGuarded(r, a) && ReachGuarded(r, b)
    requires a in r.states[j].nodes && b in r.states[k].nodes
    ensures a in r.states[j].h.applied && b in r.states[k].h.applied
    ensures r.states[j].h.applied[a] <= r.states[k].h.applied[b] || r.states[k].h.applied[b] <= r.states[j].h.applied[a]
    ensures forall i | 0 <= i < |r.states[j].h.applied[a]| :: r.states[j].h.applied[a][i].index == i + 1
  {
    hide StepAt; hide Guarded; hide ReachGuarded; hide Init;
    AppliedWithoutGap(r, j, a);
    AppliedWithoutGap(r, k, b);
    var x, y := r.states[j].h.applied[a], r.states[k].h.applied[b];
    forall i: nat | i < |x| && i < |y| ensures x[i] == y[i] {
      AppliedEntriesAgree(ps, r, j, k, a, b, x[i], y[i]);
    }
  }

  /**
   An accepted batch leaves the receiver's committed entries in place exactly when it does
   not cut its log below the commit index.
   */
  lemma CommittedSurvivesIff(ps: Pledges, c: Cluster, s: NodeState, a: AppendRequest)
    requires Sound(ps, c) && CommitLog(ps, c, s) && s.commitIndex <= |s.log|
    requires Anchored(c.h.reigns, s.log) && Segment(c.h.reigns, a) && Accepts(s, a)
    ensures s.commitIndex <= |LogAfter(s, a)| && LogAfter(s, a)[..s.commitIndex] == s.log[..s.commitIndex]
            <==> !Cuts(s.log, a.prevLogIndex, a.entries, s.commitIndex)
  {
    hide Elect; hide Complete; hide LogNode; hide LogMsg; hide Anchored; hide ReignLog; hide Chosen; hide Cuts;
    if a.entries != [] && s.commitIndex != 0 && !Cuts(s.log, a.prevLogIndex, a.entries, s.commitIndex) {
      var p :| Vouches(ps, c, p, s);
      var leader := c.h.reigns[a.term].log;
      assert ReignLog(c.h.reigns, a.term);
      AcceptedIsPrefix(c.h.reigns, s.log, a);
      CommittedInLeader(ps, c, s, p, a.term);
      PrefixSurvives(s.log, leader, a.prevLogIndex, a.entries, s.commitIndex);
      SlicesAgree(LogAfter(s, a), leader, a.prevLogIndex + |a.entries|, s.commitIndex);
    } else {
      CutShortens(s, a);
    }
  }

  lemma CommittedInLeader(ps: Pledges, c: Cluster, s: NodeState, p: Pledge, u: Term)
    requires Sound(ps, c) && s.commitIndex <= |s.log| && u in c.h.reigns && s.currentTerm <= u
    requires Vouches(ps, c, p, s)
    ensures s.commitIndex <= |c.h.reigns[u].log| && s.log[..s.commitIndex] == c.h.reigns[u].log[..s.commitIndex]
  {
    hide Sound;
    PledgedInLeaderLog(ps, c, p, u);
    var own, leader := c.h.reigns[p.term].log, c.h.reigns[u].log;
    assert leader[..s.commitIndex] == own[..p.length][..s.commitIndex] == own[..s.commitIndex];
  }

  lemma CutShortens(s: NodeState, a: AppendRequest)
    requires Accepts(s, a)
    ensures Cuts(s.log, a.prevLogIndex, a.entries, s.commitIndex) ==> |LogAfter(s, a)| < s.commitIndex
    ensures a.entries == [] ==> LogAfter(s, a) == s.log && !Cuts(s.log, a.prevLogIndex, a.entries, s.commitIndex)
    ensures s.commitIndex == 0 ==> !Cuts(s.log, a.prevLogIndex, a.entries, s.commitIndex)
  {
  }
}
