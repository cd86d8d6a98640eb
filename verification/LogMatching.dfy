/**
 Log Matching (section 5.3 of the Raft paper), in every run in which no term is
 won twice. Every log is, up to each of its entries, a prefix of the one log the
 leader of that entry's term built.
 */
module LogMatching {
  import opened RaftTypes
  import opened RaftLog
  import opened CommitRule
  import opened Handlers
  import opened Cluster
  import opened BaseInvariants
  import opened Effects
  import opened Elections

  type Reigns = map<Term, Reign>

  ghost predicate AnchoredAt(reigns: Reigns, log: Log, i: nat)
    requires i < |log|
  {
    var t := log[i].term;
    t in reigns && i < |reigns[t].log| && log[..i + 1] == reigns[t].log[..i + 1]
  }

  ghost predicate Anchored(reigns: Reigns, log: Log) {
    forall i: nat | i < |log| :: AnchoredAt(reigns, log, i)
  }

  /** The batch is a segment of the log its term's leader built. */
  ghost predicate Segment(reigns: Reigns, a: AppendRequest) {
    && a.term in reigns
    && var log := reigns[a.term].log;
       && a.prevLogIndex + |a.entries| <= |log|
       && a.entries == log[a.prevLogIndex..a.prevLogIndex + |a.entries|]
       && (a.prevLogIndex > 0 ==> log[a.prevLogIndex - 1].term == a.prevLogTerm)
  }

  /** A leader starts from entries of earlier terms and adds entries of its own. */
  ghost predicate ReignLog(reigns: Reigns, t: Term)
    requires t in reigns
  {
    var r := reigns[t];
    && Anchored(reigns, r.log)
    && r.start <= r.log
    && (forall i | 0 <= i < |r.start| :: r.start[i].term < t)
    && (forall i | |r.start| <= i < |r.log| :: r.log[i].term == t)
  }

  ghost predicate LogNode(reigns: Reigns, n: NodeId, s: NodeState) {
    && Anchored(reigns, s.log)
    && (forall t | t in reigns && reigns[t].leader == n :: t <= s.currentTerm)
    && (s.role.Leader? ==>
          && s.currentTerm in reigns && reigns[s.currentTerm].leader == n
          && reigns[s.currentTerm].log == s.log)
    && (s.role.Candidate? ==> forall i | 0 <= i < |s.log| :: s.log[i].term < s.currentTerm)
    && (s.role.Candidate? && s.currentTerm in reigns ==> reigns[s.currentTerm].leader != n)
  }

  ghost predicate LogMsg(reigns: Reigns, m: Message) {
    m.AppendMsg? ==> Segment(reigns, m.append)
  }

  ghost predicate Logs(c: Cluster) {
    && (forall n | n in c.nodes :: LogNode(c.h.reigns, n, c.nodes[n]))
    && (forall m | m in c.net :: LogMsg(c.h.reigns, m))
    && (forall t | t in c.h.reigns :: ReignLog(c.h.reigns, t))
  }

  /** Reigns are only added, by node `n`, and their logs only grow. */
  ghost predicate ReignsGrow(a: Reigns, b: Reigns, n: NodeId) {
    && (forall t | t in a :: t in b && SameElection(a[t], b[t]) && a[t].log <= b[t].log)
    && (forall t | t in a && a[t].leader != n :: b[t] == a[t])
    && (forall t | t in b && t !in a :: b[t].leader == n)
  }

  // ----- anchored logs -----

  lemma AnchoredGrows(a: Reigns, b: Reigns, n: NodeId, log: Log)
    requires Anchored(a, log) && ReignsGrow(a, b, n)
    ensures Anchored(b, log)
  {
    forall i: nat | i < |log| ensures AnchoredAt(b, log, i) {
      assert AnchoredAt(a, log, i);
    }
  }

  lemma AnchoredPrefix(reigns: Reigns, log: Log, k: nat)
    requires Anchored(reigns, log) && k <= |log|
    ensures Anchored(reigns, log[..k])
  {
    forall i: nat | i < k ensures AnchoredAt(reigns, log[..k], i) {
      assert AnchoredAt(reigns, log, i);
      assert log[..k][..i + 1] == log[..i + 1];
    }
  }

  /** Two anchored logs with the same term at one position agree up to it. */
  lemma AnchoredLogsMatch(reigns: Reigns, a: Log, b: Log, i: nat)
    requires Anchored(reigns, a) && Anchored(reigns, b)
    requires i < |a| && i < |b| && a[i].term == b[i].term
    ensures a[..i + 1] == b[..i + 1]
  {
    assert AnchoredAt(reigns, a, i) && AnchoredAt(reigns, b, i);
  }

  /** A follower that accepts a batch ends with a prefix of the leader's log. */
  lemma AcceptedIsPrefix(reigns: Reigns, log: Log, a: AppendRequest)
    requires Anchored(reigns, log) && Segment(reigns, a) && ReignLog(reigns, a.term)
    requires CheckLogConsistency(log, a.prevLogIndex, a.prevLogTerm)
    ensures var leader := reigns[a.term].log;
            && log[..a.prevLogIndex] == leader[..a.prevLogIndex]
            && ReplaceTail(log, a.prevLogIndex, a.entries) == leader[..a.prevLogIndex + |a.entries|]
  {
    var prev, leader := a.prevLogIndex, reigns[a.term].log;
    if prev > 0 {
      AnchoredLogsMatch(reigns, log, leader, prev - 1);
    }
    assert leader[..prev + |a.entries|] == leader[..prev] + leader[prev..prev + |a.entries|];
  }

  // ----- every event keeps the invariant at the node it happens at -----

  ghost predicate LogActorOk(a: Reigns, b: Reigns, n: NodeId, s': NodeState) {
    && LogNode(b, n, s') && ReignsGrow(a, b, n)
    && (forall t | t in b && (t !in a || b[t] != a[t]) :: ReignLog(b, t))
  }

  lemma LogQuiet(reigns: Reigns, n: NodeId, s: NodeState, s': NodeState)
    requires LogNode(reigns, n, s) && s'.log == s.log && s'.currentTerm >= s.currentTerm
    requires s'.role.Follower? || (s'.role == s.role && s'.currentTerm == s.currentTerm)
    ensures LogActorOk(reigns, reigns, n, s')
  {
    hide Anchored;
  }

  lemma LogTimeout(reigns: Reigns, n: NodeId, s: NodeState)
    requires LogNode(reigns, n, s) && LogShape(s.log, s.currentTerm)
    ensures LogActorOk(reigns, reigns, n, StartElection(s).0)
  {
    hide Anchored; hide LastLogInfo;
  }

  lemma LogWin(reigns: Reigns, n: NodeId, s: NodeState, s': NodeState, voters: set<NodeId>)
    requires LogNode(reigns, n, s) && CountsOne(s, s', true) && s'.log == s.log && s.currentTerm !in reigns
    ensures LogActorOk(reigns, reigns[s.currentTerm := Reign(n, voters, s.log, s.log)], n, s')
  {
    hide Anchored;
    var b := reigns[s.currentTerm := Reign(n, voters, s.log, s.log)];
    assert ReignsGrow(reigns, b, n);
    AnchoredGrows(reigns, b, n, s.log);
  }

  lemma LogAccept(reigns: Reigns, n: NodeId, s: NodeState, s': NodeState, a: AppendRequest)
    requires LogNode(reigns, n, s) && Segment(reigns, a) && ReignLog(reigns, a.term)
    requires FollowsIn(s, s', a.term) && Accepts(s, a) && s'.log == LogAfter(s, a)
    ensures LogActorOk(reigns, reigns, n, s')
  {
    hide Anchored;
    if a.entries != [] {
      AcceptedIsPrefix(reigns, s.log, a);
      AnchoredPrefix(reigns, reigns[a.term].log, a.prevLogIndex + |a.entries|);
    }
  }

  lemma LogClientAppend(reigns: Reigns, n: NodeId, s: NodeState, s': NodeState)
    requires LogNode(reigns, n, s) && s.role.Leader? && ReignLog(reigns, s.currentTerm)
    requires s'.role.Leader? && s'.currentTerm == s.currentTerm
    requires |s'.log| == |s.log| + 1 && s'.log[..|s.log|] == s.log && s'.log[|s.log|].term == s.currentTerm
    ensures LogActorOk(reigns, reigns[s.currentTerm := reigns[s.currentTerm].(log := s'.log)], n, s')
  {
    var b := reigns[s.currentTerm := reigns[s.currentTerm].(log := s'.log)];
    assert ReignsGrow(reigns, b, n);
    assert Anchored(b, s'.log) by { LogExtended(reigns, b, n, s.log, s'.log, s.currentTerm); }
    hide Anchored;
  }

  lemma LogExtended(a: Reigns, b: Reigns, n: NodeId, log: Log, log': Log, t: Term)
    requires Anchored(a, log) && ReignsGrow(a, b, n) && t in b && b[t].log == log'
    requires |log'| == |log| + 1 && log'[..|log|] == log && log'[|log|].term == t
    ensures Anchored(b, log')
  {
    AnchoredGrows(a, b, n, log);
    forall i: nat | i < |log'| ensures AnchoredAt(b, log', i) {
      if i < |log| {
        assert AnchoredAt(b, log, i);
        assert log'[..i + 1] == log[..i + 1];
      }
    }
  }

  /** A leader's batch is a segment of its own log. */
  lemma LogSend(reigns: Reigns, n: NodeId, s: NodeState, follower: NodeId, requestId: nat)
    requires LogNode(reigns, n, s)
    ensures var r := CreateAppendEntries(s, follower, requestId);
            r.Ok? ==> Segment(reigns, r.value)
  {
    hide Anchored;
    var r := CreateAppendEntries(s, follower, requestId);
    if r.Ok? {
      var prev := PrevIndexOf(s, follower);
      var tail := GetEntriesFrom(s.log, prev + 1);
      assert tail == s.log[prev..];
      var k := Min(s.maxEntries, |tail|);
      assert tail[..k] == s.log[prev..prev + k];
    }
  }

  lemma LogOnVoteReply(h: History, n: NodeId, s: NodeState, voter: NodeId, r: VoteResponse)
    requires LogNode(h.reigns, n, s) && s.id == n && (Wins(s, r) ==> s.currentTerm !in h.reigns)
    ensures LogActorOk(h.reigns, RecallVoteReply(h, s, voter, r).reigns, n, HandleVoteResponse(s, r).0)
  {
    hide HandleVoteResponse; hide LogNode; hide LogActorOk;
    VoteReplyEffect(s, r);
    var s' := HandleVoteResponse(s, r).0;
    if Wins(s, r) {
      LogWin(h.reigns, n, s, s', Tally(h, Slot(n, s.currentTerm)) + {voter});
    } else {
      LogQuiet(h.reigns, n, s, s');
    }
  }

  lemma LogOnAppend(h: History, n: NodeId, s: NodeState, a: AppendRequest)
    requires LogNode(h.reigns, n, s) && Segment(h.reigns, a) && ReignLog(h.reigns, a.term)
    ensures LogActorOk(h.reigns, RecallAppend(h, s, a).reigns, n, HandleAppendEntries(s, a).0)
  {
    hide HandleAppendEntries; hide LogNode; hide LogActorOk; hide Segment; hide ReignLog; hide CheckLogConsistency;
    hide LastLogInfo; hide LogAfter;
    AppendEffect(s, a);
    var s' := HandleAppendEntries(s, a).0;
    if Accepts(s, a) {
      LogAccept(h.reigns, n, s, s', a);
    } else {
      LogQuiet(h.reigns, n, s, s');
    }
  }

  lemma LogOnClientAppend(h: History, n: NodeId, s: NodeState, command: seq<Byte>, timestamp: nat)
    requires LogNode(h.reigns, n, s)
    requires (s.role.Leader? ==> s.currentTerm in h.reigns && ReignLog(h.reigns, s.currentTerm))
    ensures var s' := AppendEntry(s, command, timestamp).0;
            LogActorOk(h.reigns, RecallClientAppend(h, s, s').reigns, n, s')
  {
    hide AppendEntry; hide LogNode; hide LogActorOk; hide ReignLog;
    ClientAppendEffect(s, command, timestamp);
    var s' := AppendEntry(s, command, timestamp).0;
    if s.role.Leader? {
      LogClientAppend(h.reigns, n, s, s');
    } else {
      LogQuiet(h.reigns, n, s, s');
    }
  }

  lemma LogActor(c: Cluster, e: Event)
    requires Base(c) && Logs(c) && Enabled(c, e) && FreshWin(c, e)
    ensures var s := c.nodes[e.node];
            LogActorOk(c.h.reigns, Recall(c.h, s, e).reigns, e.node, NewState(s, e))
  {
    hide LogActorOk; hide HandleAppendEntries; hide HandleAppendResponse; hide StartElection;
    hide HandleVoteRequest; hide HandleVoteResponse; hide AppendEntry; hide ApplyCommitted;
    hide RecallVoteReply; hide RecallAppend; hide RecallClientAppend; hide Grants; hide CommitCandidate;
    hide LogShape; hide BatchShape; hide RoleShape; hide LastLogInfo; hide IsLogUpToDate; hide ReignLog;
    hide Anchored;
    var n, s := e.node, c.nodes[e.node];
    assert BaseNode(c.size, n, s) && LogNode(c.h.reigns, n, s);
    match e
    case Timeout(_) => LogTimeout(c.h.reigns, n, s);
    case OnVoteRequest(_, r) =>
      VoteRequestEffect(s, r);
      LogQuiet(c.h.reigns, n, s, HandleVoteRequest(s, r).0);
    case OnVoteReply(_, voter, r) => LogOnVoteReply(c.h, n, s, voter, r);
    case SendAppend(_, _, _) => LogQuiet(c.h.reigns, n, s, s);
    case OnAppend(_, a) =>
      assert LogMsg(c.h.reigns, AppendMsg(n, a));
      LogOnAppend(c.h, n, s, a);
    case OnAppendReply(_, follower, r) =>
      AppendReplyEffect(s, follower, r);
      LogQuiet(c.h.reigns, n, s, HandleAppendResponse(s, follower, r));
    case ClientAppend(_, command, timestamp) => LogOnClientAppend(c.h, n, s, command, timestamp);
    case Apply(_, failAt) =>
      ApplyEffect(s, failAt);
      LogQuiet(c.h.reigns, n, s, ApplyCommitted(s, failAt).state);
  }

  lemma LogSent(c: Cluster, e: Event)
    requires Base(c) && Logs(c) && Enabled(c, e)
    ensures forall m | m in Sent(c.nodes[e.node], e) :: LogMsg(Recall(c.h, c.nodes[e.node], e).reigns, m)
  {
    hide HandleAppendEntries; hide HandleVoteRequest; hide CreateAppendEntries; hide Anchored; hide Segment;
    hide RecallVoteReply; hide RecallAppend; hide RecallClientAppend; hide ReignLog; hide LogShape; hide BatchShape;
    assert LogNode(c.h.reigns, e.node, c.nodes[e.node]);
    if e.SendAppend? {
      LogSend(c.h.reigns, e.node, c.nodes[e.node], e.follower, e.requestId);
    }
  }

  // ----- the whole cluster -----

  lemma LogOther(a: Reigns, b: Reigns, n: NodeId, m: NodeId, s: NodeState)
    requires LogNode(a, m, s) && ReignsGrow(a, b, n) && m != n
    ensures LogNode(b, m, s)
  {
    AnchoredGrows(a, b, n, s.log);
    hide Anchored;
  }

  lemma SegmentGrows(a: Reigns, b: Reigns, n: NodeId, msg: Message)
    requires LogMsg(a, msg) && ReignsGrow(a, b, n)
    ensures LogMsg(b, msg)
  {
  }

  lemma ReignLogGrows(a: Reigns, b: Reigns, n: NodeId, t: Term)
    requires t in a && ReignLog(a, t) && ReignsGrow(a, b, n) && b[t] == a[t]
    ensures ReignLog(b, t)
  {
    AnchoredGrows(a, b, n, a[t].log);
    hide Anchored;
  }

  lemma LogAssemble(c: Cluster, n: NodeId, s': NodeState, sent: set<Message>, h': History)
    requires Logs(c) && n in c.nodes && LogActorOk(c.h.reigns, h'.reigns, n, s')
    requires forall m | m in sent :: LogMsg(h'.reigns, m)
    ensures Logs(Cluster(c.size, c.nodes[n := s'], c.net + sent, h'))
  {
    hide LogNode; hide LogMsg; hide ReignLog; hide ReignsGrow;
    var c' := Cluster(c.size, c.nodes[n := s'], c.net + sent, h');
    var a, b := c.h.reigns, h'.reigns;
    forall m | m in c'.nodes ensures LogNode(b, m, c'.nodes[m]) {
      if m != n { LogOther(a, b, n, m, c.nodes[m]); }
    }
    forall m | m in c'.net ensures LogMsg(b, m) {
      if m in c.net { SegmentGrows(a, b, n, m); }
    }
    forall t | t in b ensures ReignLog(b, t) {
      if t in a && b[t] == a[t] { ReignLogGrows(a, b, n, t); }
    }
  }

  lemma LogStep(c: Cluster, e: Event)
    requires Base(c) && Logs(c) && Enabled(c, e) && FreshWin(c, e)
    ensures Logs(Next(c, e)) && ReignsGrow(c.h.reigns, Next(c, e).h.reigns, e.node)
  {
    hide NewState; hide Sent; hide Recall; hide Logs; hide Base; hide LogNode; hide ReignsGrow; hide ReignLog;
    hide LogMsg;
    LogActor(c, e);
    LogSent(c, e);
    var s := c.nodes[e.node];
    LogAssemble(c, e.node, NewState(s, e), Sent(s, e), Recall(c.h, s, e));
  }

  // ----- whole runs -----

  ghost predicate OneWinPerTerm(r: Run)
    requires IsRun(r)
  {
    forall k: nat {:trigger StepAt(r, k)} | k < |r.events| :: StepAt(r, k) && FreshWin(r.states[k], r.events[k])
  }

  /** Guarded vote traffic makes every term have at most one winner. */
  lemma GuardedRunsWinOnce(r: Run)
    requires IsRun(r) && VoteGuarded(r)
    ensures OneWinPerTerm(r)
  {
    hide Next; hide Init; hide FreshWin; hide Enabled; hide DistinctVoters; hide VoteGuard;
    GuardedIsFair(r);
    forall k: nat | k < |r.events| ensures StepAt(r, k) && FreshWin(r.states[k], r.events[k]) {
      assert StepAt(r, k);
    }
  }

  lemma {:induction false} LogsHold(r: Run, k: nat)
    requires IsRun(r) && OneWinPerTerm(r) && k <= |r.events|
    ensures Base(r.states[k]) && Logs(r.states[k])
  {
    hide Next; hide Base; hide FreshWin; hide Enabled;
    BaseHolds(r, k);
    if k > 0 {
      hide Logs;
      LogsHold(r, k - 1);
      assert StepAt(r, k - 1);
      LogStep(r.states[k - 1], r.events[k - 1]);
    }
  }

  lemma {:induction false} AnchoredLater(r: Run, j: nat, k: nat, log: Log)
    requires IsRun(r) && OneWinPerTerm(r) && j <= k <= |r.events| && Anchored(r.states[j].h.reigns, log)
    ensures Anchored(r.states[k].h.reigns, log)
  {
    hide Next; hide Base; hide FreshWin; hide Enabled; hide Anchored; hide Init; hide Logs;
    if j < k {
      AnchoredLater(r, j, k - 1, log);
      LogsHold(r, k - 1);
      var c, e := r.states[k - 1], r.events[k - 1];
      assert StepAt(r, k - 1);
      LogStep(c, e);
      AnchoredGrows(c.h.reigns, Next(c, e).h.reigns, e.node, log);
    }
  }

  /**
   Log Matching: two logs of a run, on any nodes and at any moments, that hold the
   same term at the same index hold the same entries up to that index.
   */
  lemma LogMatchingHolds(r: Run, j: nat, k: nat, a: NodeId, b: NodeId, index: nat)
    requires IsRun(r) && OneWinPerTerm(r) && j <= |r.events| && k <= |r.events|
    requires a in r.states[j].nodes && b in r.states[k].nodes
    requires 1 <= index <= |r.states[j].nodes[a].log| && index <= |r.states[k].nodes[b].log|
    requires r.states[j].nodes[a].log[index - 1].term == r.states[k].nodes[b].log[index - 1].term
    ensures r.states[j].nodes[a].log[..index] == r.states[k].nodes[b].log[..index]
  {
    hide Next; hide Base; hide FreshWin; hide Enabled; hide Anchored; hide Init; hide StepAt; hide OneWinPerTerm;
    if j > k {
      LogMatchingHolds(r, k, j, b, a, index);
    } else {
      LogsHold(r, j);
      LogsHold(r, k);
      var x, y := r.states[j].nodes[a].log, r.states[k].nodes[b].log;
      assert LogNode(r.states[j].h.reigns, a, r.states[j].nodes[a]);
      assert LogNode(r.states[k].h.reigns, b, r.states[k].nodes[b]);
      AnchoredLater(r, j, k, x);
      AnchoredLogsMatch(r.states[k].h.reigns, x, y, index - 1);
    }
  }
}
