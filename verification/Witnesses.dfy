/**
 Runs of the code as written that show what the guards of the safety theorems are
 for, and a run that meets all of them and commits.
 */
module Witnesses {
  import opened RaftTypes
  import opened RaftLog
  import opened CommitRule
  import opened Handlers
  import opened Cluster
  import opened BaseInvariants
  import opened Elections
  import opened PaperRules
  import opened Completeness
  import opened ApplyOrder
  import opened Commitment
  import opened RunLaws

  // ----- building runs -----

  /** How commits are checked: not at all, by the replies alone, or by the batches the replies answer. */
  datatype CommitCheck = Unchecked | ByReports | ByBatches

  /** Which guards a run is to obey, and the pledges its commits rest on. */
  datatype Guards = Guards(asked: bool, distinct: bool, append: bool, commit: CommitCheck, ps: Pledges)

  /** The commit index rests on lengths that followers reported in the current term, to whatever batch. */
  ghost predicate RestsOnReports(ps: Pledges, c: Cluster, n: NodeId, s: NodeState) {
    exists p ::
      && p in ps && p.term == s.currentTerm && p.length == s.commitIndex && |p.members| >= Majority(c.size)
      && forall f | f in p.members && f != n :: Reported(c, n, s, f)
  }

  ghost predicate Reported(c: Cluster, n: NodeId, s: NodeState, f: NodeId) {
    && f in s.matchIndex && s.matchIndex[f] >= s.commitIndex
    && exists r :: AppendReplyMsg(f, n, r) in c.net && r.success && r.term == s.currentTerm
                   && r.lastLogIndex == Some(s.matchIndex[f])
  }

  /** The commit guard without a look at the batches. */
  ghost predicate ReportGuard(ps: Pledges, c: Cluster, e: Event)
    requires Enabled(c, e)
  {
    var s := c.nodes[e.node];
    match e
    case SendAppend(n, follower, requestId) => s.maxEntries >= 1 && FreshId(c, n, requestId)
    case OnAppendReply(n, follower, r) =>
      Advances(s, follower, r) ==> RestsOnReports(ps, c, n, HandleAppendResponse(s, follower, r))
    case _ => true
  }

  /** No accepted batch drops matching entries or ends before the receiver's commit index. */
  ghost predicate AppendGuard(c: Cluster, e: Event)
    requires Enabled(c, e)
  {
    && ReachGuard(c, e)
    && (e.OnAppend? && Accepts(c.nodes[e.node], e.append) ==>
          KeepsMatching(c.nodes[e.node].log, e.append.prevLogIndex, e.append.entries))
  }

  ghost predicate GuardAt(c: Cluster, e: Event, g: Guards)
    requires Enabled(c, e)
  {
    && (g.asked ==> NoForgottenVote(c, e))
    && (g.distinct ==> DistinctVoters(c, e))
    && (g.append ==> AppendGuard(c, e))
    && (g.commit.ByReports? ==> ReportGuard(g.ps, c, e))
    && (g.commit.ByBatches? ==> CommitGuard(g.ps, c, e))
  }

  ghost predicate Obeys(r: Run, g: Guards) {
    && IsRun(r)
    && forall k: nat {:trigger StepAt(r, k)} | k < |r.events| ::
         StepAt(r, k) && GuardAt(r.states[k], r.events[k], g)
  }

  /** The run obeys the guards and ends in `c`. */
  ghost predicate Reached(r: Run, g: Guards, c: Cluster) {
    |r.states| > 0 && Obeys(r, g) && c == Last(r)
  }

  /** Node `n` of the cluster of three is in state `s`. */
  ghost predicate At(c: Cluster, n: NodeId, s: NodeState) {
    n in c.nodes && c.nodes[n] == s && n in c.h.applied
  }

  lemma Begin(g: Guards) returns (r: Run, c: Cluster)
    ensures Reached(r, g, c) && c.size == 3 && c.h.heard == {}
    ensures At(c, 1, NewNode(1, 3, 2)) && At(c, 2, NewNode(2, 3, 2)) && At(c, 3, NewNode(3, 3, 2))
    ensures c.h.applied[1] == [] && c.net == {}
  {
    var nodes := map[1 := NewNode(1, 3, 2), 2 := NewNode(2, 3, 2), 3 := NewNode(3, 3, 2)];
    c := Cluster(3, nodes, {}, History(map[], map[], {}, map[], map[], map n | n in nodes :: []));
    r := Run([c], []);
    assert nodes.Keys == {1, 2, 3};
    assert Init(c);
  }

  lemma Extended(r: Run, e: Event, g: Guards)
    requires Obeys(r, g) && Enabled(Last(r), e) && GuardAt(Last(r), e, g)
    ensures Obeys(Prolong(r, e), g)
  {
    hide Next; hide Init; hide GuardAt; hide Enabled;
    var r' := Prolong(r, e);
    ProlongIsRun(r, e);
    forall k: nat | k < |r'.events| ensures StepAt(r', k) && GuardAt(r'.states[k], r'.events[k], g) {
      if k < |r.events| {
        assert StepAt(r, k);
        assert r'.states[k] == r.states[k] && r'.states[k + 1] == r.states[k + 1] && r'.events[k] == r.events[k];
      } else {
        assert r'.states[k] == Last(r);
      }
    }
  }

  /** The run goes on with one more event. */
  lemma Play(r: Run, g: Guards, c: Cluster, e: Event) returns (r': Run)
    requires Reached(r, g, c) && Enabled(c, e) && GuardAt(c, e, g)
    ensures Reached(r', g, Next(c, e))
  {
    hide Next; hide Obeys; hide GuardAt; hide Enabled;
    r' := Prolong(r, e);
    Extended(r, e, g);
  }

  type Nodes = map<NodeId, NodeState>

  ghost predicate Holds(c: Cluster, m: Nodes) {
    c.size == 3 && forall n | n in m :: At(c, n, m[n]) && m[n].id == n && m[n].clusterSize == 3
  }

  lemma Step(r: Run, g: Guards, c: Cluster, m: Nodes, e: Event, s': NodeState) returns (r': Run, c': Cluster)
    requires Reached(r, g, c) && Holds(c, m) && e.node in m && Enabled(c, e) && GuardAt(c, e, g)
    requires s' == NewState(m[e.node], e)
    ensures Reached(r', g, c') && Holds(c', m[e.node := s'])
    ensures c'.net == c.net + Sent(m[e.node], e) && c'.h == Recall(c.h, m[e.node], e)
  {
    hide NewState; hide Sent; hide Recall; hide Reached; hide GuardAt;
    r' := Play(r, g, c, e);
    c' := Next(c, e);
    ConfigStays(m[e.node], e);
    RecallKeepsMembers(c.h, c.nodes[e.node], e);
  }

  // ----- one event at a time -----

  /** No batch was sent between the two states. */
  ghost predicate Quiet(c: Cluster, c': Cluster) {
    forall m | m in c'.net && m.AppendMsg? :: m in c.net
  }

  lemma PlayTimeout(r: Run, g: Guards, c: Cluster, m: Nodes, n: NodeId) returns (r': Run, c': Cluster)
    requires Reached(r, g, c) && Holds(c, m) && n in m
    ensures Reached(r', g, c') && Holds(c', m[n := StartElection(m[n]).0])
    ensures c'.net == c.net + {VoteRequestMsg(StartElection(m[n]).1)}
    ensures Tally(c'.h, Slot(n, m[n].currentTerm + 1)) == {n} && c'.h.heard == c.h.heard && c'.h.applied == c.h.applied
    ensures c'.h.reigns == c.h.reigns && c'.h.acks == c.h.acks
  {
    hide Reached; hide StartElection; hide HandleAppendResponse;
    r', c' := Step(r, g, c, m, Timeout(n), StartElection(m[n]).0);
  }

  lemma PlayVoteRequest(r: Run, g: Guards, c: Cluster, m: Nodes, n: NodeId, q: VoteRequest)
    returns (r': Run, c': Cluster)
    requires Reached(r, g, c) && Holds(c, m) && n in m && VoteRequestMsg(q) in c.net
    requires g.asked ==> Slot(n, q.term) !in c.h.heard
    ensures Reached(r', g, c') && Holds(c', m[n := HandleVoteRequest(m[n], q).0])
    ensures c'.net == c.net + {VoteReplyMsg(n, q.candidateId, HandleVoteRequest(m[n], q).1)}
    ensures c'.h.tally == c.h.tally && c'.h.heard == c.h.heard && c'.h.applied == c.h.applied
    ensures c'.h.reigns == c.h.reigns && c'.h.acks == c.h.acks
  {
    hide Reached; hide HandleVoteRequest; hide HandleAppendResponse; hide Grants;
    r', c' := Step(r, g, c, m, OnVoteRequest(n, q), HandleVoteRequest(m[n], q).0);
  }

  lemma PlayVoteReply(r: Run, g: Guards, c: Cluster, m: Nodes, n: NodeId, v: NodeId, y: VoteResponse)
    returns (r': Run, c': Cluster)
    requires Reached(r, g, c) && Holds(c, m) && n in m && VoteReplyMsg(v, n, y) in c.net
    requires g.distinct ==> v !in Tally(c.h, Slot(n, m[n].currentTerm))
    ensures Reached(r', g, c') && Holds(c', m[n := HandleVoteResponse(m[n], y).0])
    ensures c'.net == c.net && c'.h.heard == c.h.heard && c'.h.applied == c.h.applied && c'.h.acks == c.h.acks
    ensures forall t | t in c.h.reigns && t != m[n].currentTerm :: t in c'.h.reigns && c'.h.reigns[t] == c.h.reigns[t]
    ensures Wins(m[n], y) ==> m[n].currentTerm in c'.h.reigns && c'.h.reigns[m[n].currentTerm].log == m[n].log
  {
    hide Reached; hide HandleVoteResponse; hide HandleAppendResponse; hide CountsVote;
    r', c' := Step(r, g, c, m, OnVoteReply(n, v, y), HandleVoteResponse(m[n], y).0);
  }

  lemma PlaySend(r: Run, g: Guards, c: Cluster, m: Nodes, n: NodeId, f: NodeId, id: nat, a: AppendRequest)
    returns (r': Run, c': Cluster)
    requires Reached(r, g, c) && Holds(c, m) && n in m && f in m && CreateAppendEntries(m[n], f, id) == Ok(a)
    requires m[n].maxEntries >= 1 && (!g.commit.Unchecked? ==> FreshId(c, n, id))
    ensures Reached(r', g, c') && Holds(c', m) && c'.net == c.net + {AppendMsg(f, a)} && c'.h == c.h
  {
    hide Reached; hide CreateAppendEntries; hide HandleAppendResponse; hide FreshId;
    assert m[n := m[n]] == m;
    r', c' := Step(r, g, c, m, SendAppend(n, f, id), m[n]);
  }

  lemma PlayAppend(r: Run, g: Guards, c: Cluster, m: Nodes, n: NodeId, a: AppendRequest) returns (r': Run, c': Cluster)
    requires Reached(r, g, c) && Holds(c, m) && n in m && AppendMsg(n, a) in c.net
    requires a.entries == [] || (m[n].log == [] && a.prevLogIndex == 0 && m[n].commitIndex == 0)
    ensures Reached(r', g, c') && Holds(c', m[n := HandleAppendEntries(m[n], a).0])
    ensures c'.net == c.net + {AppendReplyMsg(n, a.leaderId, HandleAppendEntries(m[n], a).1)}
    ensures c'.h.tally == c.h.tally && c'.h.heard <= c.h.heard + {Slot(n, a.term)} && c'.h.applied == c.h.applied
  {
    hide Reached; hide HandleAppendEntries; hide HandleAppendResponse; hide CheckLogConsistency;
    r', c' := Step(r, g, c, m, OnAppend(n, a), HandleAppendEntries(m[n], a).0);
  }

  lemma PlayAppendReply(r: Run, g: Guards, c: Cluster, m: Nodes, n: NodeId, f: NodeId, y: AppendResponse, s': NodeState)
    returns (r': Run, c': Cluster)
    requires Reached(r, g, c) && Holds(c, m) && n in m && AppendReplyMsg(f, n, y) in c.net
    requires s' == HandleAppendResponse(m[n], f, y)
    requires s'.commitIndex != m[n].commitIndex ==>
               && (g.commit.ByReports? ==> RestsOnReports(g.ps, c, n, s'))
               && (g.commit.ByBatches? ==> Rests(g.ps, c, n, s'))
    ensures Reached(r', g, c') && Holds(c', m[n := s']) && c'.net == c.net && c'.h == c.h
  {
    hide Reached; hide HandleAppendResponse; hide Rests; hide RestsOnReports;
    r', c' := Step(r, g, c, m, OnAppendReply(n, f, y), s');
  }

  lemma PlayClientAppend(r: Run, g: Guards, c: Cluster, m: Nodes, n: NodeId, command: seq<Byte>)
    returns (r': Run, c': Cluster)
    requires Reached(r, g, c) && Holds(c, m) && n in m
    ensures Reached(r', g, c') && Holds(c', m[n := AppendEntry(m[n], command, 0).0])
    ensures c'.net == c.net && c'.h.tally == c.h.tally && c'.h.heard == c.h.heard && c'.h.applied == c.h.applied
  {
    hide Reached; hide AppendEntry; hide HandleAppendResponse;
    r', c' := Step(r, g, c, m, ClientAppend(n, command, 0), AppendEntry(m[n], command, 0).0);
  }

  // ----- an election -----

  function Led(s: NodeState): NodeState {
    s.(currentTerm := s.currentTerm + 1, role := Leader, votedFor := Some(s.id), voteCount := 2,
       currentLeader := Some(s.id))
  }

  function Voted(s: NodeState, t: Term, n: NodeId): NodeState {
    s.(currentTerm := t, role := Follower, votedFor := Some(n), voteCount := 0)
  }

  function Granted(t: Term, w: NodeState): VoteResponse {
    VoteResponse(t, true, false, Some(LastLogInfo(w.log).0))
  }

  /** The voter is free to vote in term `t`. */
  predicate FreeToVote(s: NodeState, t: Term) {
    s.currentTerm < t || (s.currentTerm == t && s.votedFor.None? && s.role.Follower? && s.voteCount == 0)
  }

  /** A log that ends as `log` does is up to date for the voter. */
  predicate UpToDate(w: NodeState, log: Log) {
    IsLogUpToDate(w.log, LastLogInfo(log).0, LastLogInfo(log).1)
  }

  lemma CampaignStates(s: NodeState, w: NodeState)
    requires s.clusterSize == 3 && FreeToVote(w, s.currentTerm + 1) && UpToDate(w, s.log)
    ensures var (cand, q) := StartElection(s);
            && q.candidateId == s.id && q.term == s.currentTerm + 1 && cand.currentTerm == q.term && cand.log == s.log
            && Wins(cand, Granted(q.term, w))
            && HandleVoteRequest(w, q) == (Voted(w, q.term, s.id), Granted(q.term, w))
            && HandleVoteResponse(cand, Granted(q.term, w)) == (Led(s), true)
  {
  }

  /** Node `n` wins the next term with the vote of `v`. */
  lemma Campaign(r: Run, g: Guards, c: Cluster, m: Nodes, n: NodeId, v: NodeId) returns (r': Run, c': Cluster)
    requires Reached(r, g, c) && Holds(c, m) && n in m && v in m && n != v
    requires FreeToVote(m[v], m[n].currentTerm + 1) && UpToDate(m[v], m[n].log)
    requires g.asked ==> Slot(v, m[n].currentTerm + 1) !in c.h.heard
    ensures Reached(r', g, c') && Holds(c', m[n := Led(m[n])][v := Voted(m[v], m[n].currentTerm + 1, n)])
    ensures c.net <= c'.net && Quiet(c, c')
    ensures c'.h.heard == c.h.heard && c'.h.applied == c.h.applied && c'.h.acks == c.h.acks
    ensures var t := m[n].currentTerm + 1;
            && t in c'.h.reigns && c'.h.reigns[t].log == m[n].log
            && forall u | u in c.h.reigns && u != t :: u in c'.h.reigns && c'.h.reigns[u] == c.h.reigns[u]
  {
    hide Reached; hide StartElection; hide HandleVoteRequest; hide HandleVoteResponse; hide Tally; hide Wins;
    hide Granted; hide UpToDate;
    var (cand, q) := StartElection(m[n]);
    CampaignStates(m[n], m[v]);
    var r1, c1 := PlayTimeout(r, g, c, m, n);
    var m1 := m[n := cand];
    var r2, c2 := PlayVoteRequest(r1, g, c1, m1, v, q);
    var m2 := m1[v := Voted(m[v], q.term, n)];
    SameTally(c1.h, c2.h, Slot(n, q.term));
    r', c' := PlayVoteReply(r2, g, c2, m2, n, v, Granted(q.term, m[v]));
    assert m2[n := Led(m[n])] == m[n := Led(m[n])][v := Voted(m[v], q.term, n)];
  }

  lemma SameTally(h: History, h': History, k: Slot)
    requires h'.tally == h.tally
    ensures Tally(h', k) == Tally(h, k)
  {
  }

  lemma SelfCampaignStates(s: NodeState)
    requires s.log == [] && s.clusterSize == 3
    ensures var (cand, q) := StartElection(s);
            && q.candidateId == s.id && q.term == s.currentTerm + 1
            && HandleVoteRequest(cand, q) == (cand, Granted(q.term, cand))
            && HandleVoteResponse(cand, Granted(q.term, cand)) == (Led(s), true)
  {
  }

  /** Node `n` wins the next term by handling its own request and counting its own reply. */
  lemma SelfCampaign(r: Run, g: Guards, c: Cluster, m: Nodes, n: NodeId) returns (r': Run, c': Cluster)
    requires Reached(r, g, c) && Holds(c, m) && n in m && !g.distinct
    requires m[n].log == [] && Slot(n, m[n].currentTerm + 1) !in c.h.heard
    ensures Reached(r', g, c') && Holds(c', m[n := Led(m[n])]) && c'.h.heard == c.h.heard
  {
    hide Reached; hide StartElection; hide HandleVoteRequest; hide HandleVoteResponse; hide Tally;
    var (cand, q) := StartElection(m[n]);
    SelfCampaignStates(m[n]);
    var r1, c1 := PlayTimeout(r, g, c, m, n);
    var m1 := m[n := cand];
    var r2, c2 := PlayVoteRequest(r1, g, c1, m1, n, q);
    assert m1[n := cand] == m1;
    r', c' := PlayVoteReply(r2, g, c2, m1, n, n, Granted(q.term, cand));
    assert m1[n := Led(m[n])] == m[n := Led(m[n])];
  }

  function Fresh(): Nodes {
    map[1 := NewNode(1, 3, 2), 2 := NewNode(2, 3, 2), 3 := NewNode(3, 3, 2)]
  }

  lemma BeginFresh(g: Guards) returns (r: Run, c: Cluster)
    ensures Reached(r, g, c) && Holds(c, Fresh()) && c.h.heard == {} && 1 in c.h.applied && c.h.applied[1] == []
    ensures c.net == {}
  {
    hide Reached;
    r, c := Begin(g);
  }

  ghost predicate TwoLeaders(c: Cluster) {
    exists a, b | a in c.nodes && b in c.nodes && a != b ::
      c.nodes[a].role.Leader? && c.nodes[b].role.Leader? && c.nodes[a].currentTerm == c.nodes[b].currentTerm
  }

  lemma LeadersSeen(c: Cluster, m: Nodes)
    requires Holds(c, m) && 1 in m && 2 in m && m[1].role.Leader? && m[2].role.Leader?
    requires m[1].currentTerm == m[2].currentTerm
    ensures TwoLeaders(c)
  {
    assert At(c, 1, m[1]) && At(c, 2, m[2]);
  }

  /** Without distinct voters, and with every other guard obeyed, two nodes can lead one term. */
  lemma TwoLeadersByRepeatedVotes() returns (r: Run, c: Cluster)
    ensures Reached(r, Guards(true, false, true, ByBatches, {}), c) && TwoLeaders(c)
  {
    hide Reached;
    var g := Guards(true, false, true, ByBatches, {});
    r, c := BeginFresh(g);
    r, c := SelfCampaign(r, g, c, Fresh(), 1);
    var m := Fresh()[1 := Led(NewNode(1, 3, 2))];
    r, c := SelfCampaign(r, g, c, m, 2);
    LeadersSeen(c, m[2 := Led(NewNode(2, 3, 2))]);
  }

  // ----- heartbeats and one entry -----

  function Beat(l: NodeState, id: nat): AppendRequest {
    AppendRequest(l.currentTerm, l.id, 0, 0, [], 0, id)
  }

  function Ack(t: Term, last: nat, id: nat): AppendResponse {
    AppendResponse(t, true, Some(last), None, None, id)
  }

  function Followed(w: NodeState, t: Term, n: NodeId): NodeState {
    w.(currentTerm := t, role := Follower, votedFor := None, voteCount := 0, currentLeader := Some(n))
  }

  /** A leader that has not appended, committed or heard more than empty logs. */
  predicate Idle(l: NodeState) {
    l.role.Leader? && l.log == [] && l.commitIndex == 0 && l.maxEntries >= 1
    && (forall f | f in l.matchIndex :: l.matchIndex[f] == 0) && (forall f | f in l.nextIndex :: l.nextIndex[f] == 1)
  }

  function Heard(l: NodeState, f: NodeId): NodeState {
    l.(nextIndex := l.nextIndex[f := 1], matchIndex := l.matchIndex[f := 0])
  }

  /** A heartbeat from the start is accepted whatever the log, and answered with its whole length. */
  lemma BeatStates(l: NodeState, w: NodeState, id: nat)
    requires Idle(l) && w.currentTerm <= l.currentTerm
    ensures CreateAppendEntries(l, w.id, id) == Ok(Beat(l, id))
    ensures HandleAppendEntries(w, Beat(l, id)) ==
              (Followed(w, l.currentTerm, l.id), Ack(l.currentTerm, LastLogInfo(w.log).0, id))
  {
  }

  lemma BeatAnswered(l: NodeState, f: NodeId, id: nat)
    requires Idle(l)
    ensures HandleAppendResponse(l, f, Ack(l.currentTerm, 0, id)) == Heard(l, f) && Idle(Heard(l, f))
  {
    hide CommitCandidate;
    var s := Heard(l, f);
    assert Supporters(s.matchIndex, CommitCandidate(s.matchIndex, 0)) == {} || CommitCandidate(s.matchIndex, 0) == 0;
    assert IsCommitCandidate(s.matchIndex, 0, CommitCandidate(s.matchIndex, 0));
    assert CommitCandidate(s.matchIndex, 0) == 0;
  }

  /** The leader exchanges a heartbeat with a follower whose log is empty. */
  lemma Heartbeat(r: Run, g: Guards, c: Cluster, m: Nodes, n: NodeId, f: NodeId, id: nat) returns (r': Run, c': Cluster)
    requires Reached(r, g, c) && Holds(c, m) && n in m && f in m && n != f
    requires Idle(m[n]) && m[f].log == [] && m[f].currentTerm <= m[n].currentTerm
    requires !g.commit.Unchecked? ==> FreshId(c, n, id)
    ensures Reached(r', g, c') && Holds(c', m[f := Followed(m[f], m[n].currentTerm, n)][n := Heard(m[n], f)])
    ensures AppendReplyMsg(f, n, Ack(m[n].currentTerm, 0, id)) in c'.net
    ensures c'.h.heard <= c.h.heard + {Slot(f, m[n].currentTerm)} && c'.h.applied == c.h.applied
  {
    hide Reached; hide HandleAppendEntries; hide HandleAppendResponse; hide CreateAppendEntries; hide Idle; hide Rests;
    var l, w := m[n], m[f];
    BeatStates(l, w, id);
    BeatAnswered(l, f, id);
    IdleCap(l);
    var r1, c1 := PlaySend(r, g, c, m, n, f, id, Beat(l, id));
    var r2, c2 := PlayAppend(r1, g, c1, m, f, Beat(l, id));
    var m2 := m[f := Followed(w, l.currentTerm, n)];
    r', c' := PlayAppendReply(r2, g, c2, m2, n, f, Ack(l.currentTerm, 0, id), Heard(l, f));
  }

  lemma IdleCap(l: NodeState)
    requires Idle(l)
    ensures l.maxEntries >= 1 && l.commitIndex == 0
  {
  }

  /** Without the vote guard on followers, and with every other guard obeyed, two nodes can lead one term. */
  lemma TwoLeadersByForgottenVote() returns (r: Run, c: Cluster)
    ensures Reached(r, Guards(false, true, true, ByBatches, {}), c) && TwoLeaders(c)
  {
    hide Reached;
    var g := Guards(false, true, true, ByBatches, {});
    r, c := BeginFresh(g);
    var s1, s2, s3 := NewNode(1, 3, 2), NewNode(2, 3, 2), NewNode(3, 3, 2);
    r, c := Campaign(r, g, c, Fresh(), 1, 3);
    var m1 := Fresh()[1 := Led(s1)][3 := Voted(s3, 1, 1)];
    r, c := Heartbeat(r, g, c, m1, 1, 3, 0);
    var m2 := m1[3 := Followed(m1[3], 1, 1)][1 := Heard(m1[1], 3)];
    r, c := Campaign(r, g, c, m2, 2, 3);
    LeadersSeen(c, m2[2 := Led(m2[2])][3 := Voted(m2[3], 1, 2)]);
  }

  // ----- committing -----

  function Entry(t: Term, b: Byte): LogEntry {
    LogEntry(t, [b], 1, 0, 1)
  }

  function Holding(l: NodeState, b: Byte): NodeState {
    l.(log := [Entry(l.currentTerm, b)])
  }

  function CommittedOne(l: NodeState): NodeState {
    l.(commitIndex := 1)
  }

  lemma ClientStates(l: NodeState, b: Byte)
    requires Idle(l)
    ensures AppendEntry(l, [b], 0).0 == Holding(l, b)
  {
  }

  /** One recorded follower, with nothing replicated, makes the leader's own length the candidate. */
  lemma LoneCommit(l: NodeState, f: NodeId, b: Byte, id: nat)
    requires Idle(l) && l.matchIndex == map[f := 0] && l.nextIndex == map[f := 1]
    ensures HandleAppendResponse(Holding(l, b), f, Ack(l.currentTerm, 0, id)) == CommittedOne(Holding(l, b))
  {
    hide CommitCandidate;
    var matches: map<NodeId, nat> := map[f := 0];
    assert l.matchIndex[f := 0] == matches && l.nextIndex[f := 1] == l.nextIndex;
    LoneCandidate(f);
  }

  lemma LoneCandidate(f: NodeId)
    ensures CommitCandidate(map[f := 0], 1) == 1
  {
    hide CommitCandidate;
    var matches: map<NodeId, nat> := map[f := 0];
    assert forall w: nat | w >= 1 :: Supporters(matches, w) == {};
    assert IsCommitCandidate(matches, 1, 1);
    CandidateIsUnique(matches, 1, 1, CommitCandidate(matches, 1));
  }

  /** A fresh leader commits an entry that only it holds: a repeated heartbeat reply is enough. */
  lemma CommitAlone(r: Run, g: Guards, c: Cluster, m: Nodes, n: NodeId, f: NodeId, b: Byte)
    returns (r': Run, c': Cluster)
    requires Reached(r, g, c) && Holds(c, m) && n in m && f in m && n != f && g.commit.Unchecked?
    requires Idle(m[n]) && m[n].matchIndex == map[] && m[n].nextIndex == map[]
    requires m[f].log == [] && m[f].currentTerm <= m[n].currentTerm
    ensures Reached(r', g, c')
    ensures Holds(c', m[f := Followed(m[f], m[n].currentTerm, n)][n := CommittedOne(Holding(Heard(m[n], f), b))])
    ensures c'.h.heard <= c.h.heard + {Slot(f, m[n].currentTerm)}
  {
    hide Reached; hide HandleAppendResponse; hide AppendEntry; hide Rests;
    var l := Heard(m[n], f);
    BeatAnswered(m[n], f, 0);
    var r1, c1 := Heartbeat(r, g, c, m, n, f, 0);
    var m1 := m[f := Followed(m[f], l.currentTerm, n)][n := l];
    ClientStates(l, b);
    var r2, c2 := PlayClientAppend(r1, g, c1, m1, n, [b]);
    var m2 := m1[n := Holding(l, b)];
    LoneCommit(l, f, b, 0);
    r', c' := PlayAppendReply(r2, g, c2, m2, n, f, Ack(l.currentTerm, 0, 0), CommittedOne(Holding(l, b)));
    assert m2[n := CommittedOne(Holding(l, b))]
        == m[f := Followed(m[f], l.currentTerm, n)][n := CommittedOne(Holding(l, b))];
  }

  /** Two nodes committed different entries at index 1. */
  ghost predicate CommitsDisagree(c: Cluster) {
    exists a, b | a in c.nodes && b in c.nodes ::
      && 1 <= c.nodes[a].commitIndex <= |c.nodes[a].log| && 1 <= c.nodes[b].commitIndex <= |c.nodes[b].log|
      && c.nodes[a].log[0] != c.nodes[b].log[0]
  }

  /** Without the commit guard, and with every other guard obeyed, committed entries can disagree. */
  lemma DisagreeingCommits() returns (r: Run, c: Cluster)
    ensures Reached(r, Guards(true, true, true, Unchecked, {}), c) && CommitsDisagree(c)
  {
    hide Reached;
    var g := Guards(true, true, true, Unchecked, {});
    r, c := BeginFresh(g);
    var s1, s2, s3 := NewNode(1, 3, 2), NewNode(2, 3, 2), NewNode(3, 3, 2);
    r, c := Campaign(r, g, c, Fresh(), 1, 3);
    var m1 := Fresh()[1 := Led(s1)][3 := Voted(s3, 1, 1)];
    r, c := CommitAlone(r, g, c, m1, 1, 2, 0);
    var x := CommittedOne(Holding(Heard(Led(s1), 2), 0));
    var m2 := m1[2 := Followed(s2, 1, 1)][1 := x];
    r, c := Campaign(r, g, c, m2, 3, 2);
    var m3 := m2[3 := Led(m2[3])][2 := Voted(m2[2], 2, 3)];
    r, c := CommitAlone(r, g, c, m3, 3, 2, 1);
    var y := CommittedOne(Holding(Heard(m3[3], 2), 1));
    var m4 := m3[2 := Followed(m3[2], 2, 3)][3 := y];
    assert At(c, 1, m4[1]) && At(c, 3, m4[3]);
    assert m4[1] == x && m4[3] == y;
  }

  // ----- a confirmed entry lost to a late batch -----

  function Second(t: Term, b: Byte): LogEntry {
    LogEntry(t, [b], 2, 0, 1)
  }

  /** The leader's first entry alone, and its two entries, as batches from the beginning of the log. */
  function FromStart(l: NodeState, entries: Log, id: nat): AppendRequest {
    AppendRequest(l.currentTerm, l.id, 0, 0, entries, 0, id)
  }

  lemma TwoEntries(l: NodeState, w: NodeId, a: Byte, b: Byte)
    requires l.role.Leader? && l.log == [] && l.commitIndex == 0 && l.maxEntries == 2 && w !in l.nextIndex
    ensures var x, y := Entry(l.currentTerm, a), Second(l.currentTerm, b);
            && AppendEntry(l, [a], 0).0 == l.(log := [x])
            && CreateAppendEntries(l.(log := [x]), w, 0) == Ok(FromStart(l, [x], 0))
            && AppendEntry(l.(log := [x]), [b], 0).0 == l.(log := [x, y])
            && CreateAppendEntries(l.(log := [x, y]), w, 1) == Ok(FromStart(l, [x, y], 1))
  {
    var x, y := Entry(l.currentTerm, a), Second(l.currentTerm, b);
    assert [x] + [y] == [x, y];
    assert [x, y][0..][..2] == [x, y] && [x][0..][..1] == [x];
  }

  lemma TakesFromStart(w: NodeState, a: AppendRequest)
    requires a.prevLogIndex == 0 && a.entries != [] && a.leaderCommit == 0 && a.term >= w.currentTerm
    ensures HandleAppendEntries(w, a).0 == Followed(w, a.term, a.leaderId).(log := a.entries)
  {
    assert w.log[..0] + a.entries == a.entries;
  }

  /** What the history has after the event: the leader's log and what the nodes confirmed. */
  lemma PlayClient(r: Run, g: Guards, c: Cluster, m: Nodes, n: NodeId, command: seq<Byte>, log: Log)
    returns (r': Run, c': Cluster)
    requires Reached(r, g, c) && Holds(c, m) && n in m && m[n].role.Leader? && m[n].currentTerm in c.h.reigns
    requires AppendEntry(m[n], command, 0).0 == m[n].(log := log)
    ensures Reached(r', g, c') && Holds(c', m[n := m[n].(log := log)]) && c'.net == c.net
    ensures var t, k := m[n].currentTerm, Slot(n, m[n].currentTerm);
            && t in c'.h.reigns && c'.h.reigns[t].log == log && c'.h.acks == c.h.acks[k := |log|]
            && c'.h.heard == c.h.heard
  {
    hide Reached; hide AppendEntry; hide HandleAppendResponse;
    r', c' := Step(r, g, c, m, ClientAppend(n, command, 0), m[n].(log := log));
  }

  /** A node takes a batch from the beginning of the log, in place of all it has. */
  lemma PlayFromStart(r: Run, g: Guards, c: Cluster, m: Nodes, n: NodeId, a: AppendRequest)
    returns (r': Run, c': Cluster)
    requires Reached(r, g, c) && Holds(c, m) && n in m && AppendMsg(n, a) in c.net && !g.append
    requires a.prevLogIndex == 0 && a.entries != [] && a.leaderCommit == 0 && a.term >= m[n].currentTerm
    ensures Reached(r', g, c') && Holds(c', m[n := Followed(m[n], a.term, a.leaderId).(log := a.entries)])
    ensures c.net <= c'.net && c'.h.reigns == c.h.reigns && c'.h.heard == c.h.heard + {Slot(n, a.term)}
    ensures var k := Slot(n, a.term); c'.h.acks == c.h.acks[k := Max(Acked(c.h, k), |a.entries|)]
  {
    hide Reached; hide HandleAppendEntries; hide HandleAppendResponse;
    TakesFromStart(m[n], a);
    r', c' := Step(r, g, c, m, OnAppend(n, a), HandleAppendEntries(m[n], a).0);
  }

  /** A leader of a later term lacks what a majority confirmed. */
  ghost predicate LeaderLacks(c: Cluster, p: Pledge, n: NodeId) {
    && Chosen(c, p) && n in c.nodes && c.nodes[n].role.Leader? && c.nodes[n].currentTerm > p.term
    && !(c.h.reigns[p.term].log[..p.length] <= c.nodes[n].log)
  }

  /** What of the run the two batches leave behind: node 2 confirmed two entries and holds one. */
  lemma ConfirmAndDrop(r: Run, g: Guards, c: Cluster, m: Nodes) returns (r': Run, c': Cluster)
    requires Reached(r, g, c) && Holds(c, m) && 1 in m && 2 in m && !g.append && 1 in c.h.reigns
    requires m[1].role.Leader? && m[1].currentTerm == 1 && m[1].log == [] && m[1].commitIndex == 0
    requires m[1].maxEntries == 2 && m[1].nextIndex == map[] && m[2].currentTerm <= 1
    requires FreshId(c, 1, 0) && FreshId(c, 1, 1)
    ensures var x, y := Entry(1, 0), Second(1, 1);
            && Reached(r', g, c') && c'.h.heard == c.h.heard + {Slot(2, 1)}
            && Holds(c', m[1 := m[1].(log := [x, y])][2 := Followed(m[2], 1, 1).(log := [x])])
            && 1 in c'.h.reigns && c'.h.reigns[1].log == [x, y]
            && Acked(c'.h, Slot(1, 1)) == 2 && Acked(c'.h, Slot(2, 1)) >= 2
  {
    hide Reached; hide AppendEntry; hide CreateAppendEntries;
    var l, x, y := m[1], Entry(1, 0), Second(1, 1);
    TwoEntries(l, 2, 0, 1);
    var short, long := FromStart(l, [x], 0), FromStart(l, [x, y], 1);
    var r1, c1 := PlayClient(r, g, c, m, 1, [0], [x]);
    var m1 := m[1 := l.(log := [x])];
    var r2, c2 := PlaySend(r1, g, c1, m1, 1, 2, 0, short);
    var r3, c3 := PlayClient(r2, g, c2, m1, 1, [1], [x, y]);
    var m3 := m1[1 := l.(log := [x, y])];
    var r4, c4 := PlaySend(r3, g, c3, m3, 1, 2, 1, long);
    var r5, c5 := PlayFromStart(r4, g, c4, m3, 2, long);
    var m5 := m3[2 := Followed(m[2], 1, 1).(log := [x, y])];
    r', c' := PlayFromStart(r5, g, c5, m5, 2, short);
    assert m5[2 := Followed(m5[2], 1, 1).(log := [x])]
        == m[1 := l.(log := [x, y])][2 := Followed(m[2], 1, 1).(log := [x])];
  }

  /**
   Without the pledge kept, and with every other guard obeyed, a leader can lack an entry
   that a majority confirmed: a short batch that arrives late cuts the voter's log.
   */
  lemma LateBatchLosesConfirmed() returns (r: Run, c: Cluster)
    ensures Reached(r, Guards(true, true, false, ByBatches, {}), c) && LeaderLacks(c, Pledge(1, 2, {1, 2}), 2)
  {
    hide Reached;
    var g := Guards(true, true, false, ByBatches, {});
    r, c := BeginFresh(g);
    var s1, s2, s3 := NewNode(1, 3, 2), NewNode(2, 3, 2), NewNode(3, 3, 2);
    r, c := Campaign(r, g, c, Fresh(), 1, 2);
    var m1 := Fresh()[1 := Led(s1)][2 := Voted(s2, 1, 1)];
    r, c := ConfirmAndDrop(r, g, c, m1);
    var x, y := Entry(1, 0), Second(1, 1);
    var m2 := m1[1 := Led(s1).(log := [x, y])][2 := Followed(m1[2], 1, 1).(log := [x])];
    r, c := Campaign(r, g, c, m2, 2, 3);
    var m3 := m2[2 := Led(m2[2])][3 := Voted(s3, 2, 2)];
    assert At(c, 1, m3[1]) && At(c, 2, m3[2]);
    assert |{1, 2}| == 2 && [x, y][..2] == [x, y];
  }

  // ----- a run that meets every guard -----

  function EntryBatch(l: NodeState, id: nat): AppendRequest {
    AppendRequest(l.currentTerm, l.id, 0, 0, l.log, 0, id)
  }

  lemma EntryStates(l: NodeState, w: NodeState, b: Byte, id: nat)
    requires Idle(l) && w.log == [] && w.currentTerm <= l.currentTerm
    ensures var x := Holding(l, b);
            && CreateAppendEntries(x, w.id, id) == Ok(EntryBatch(x, id))
            && HandleAppendEntries(w, EntryBatch(x, id)) ==
                 (Followed(w, l.currentTerm, l.id).(log := x.log), Ack(l.currentTerm, 1, id))
  {
    var x := Holding(l, b);
    assert GetEntriesFrom(x.log, 1) == x.log;
    assert x.log[..1] == x.log;
    assert [] + x.log == x.log;
  }

  /** One follower recorded with the leader's own length: that length is the candidate. */
  lemma PairCandidate(f: NodeId, v: nat)
    requires v >= 1
    ensures CommitCandidate(map[f := v], v) == v
  {
    hide CommitCandidate;
    var matches: map<NodeId, nat> := map[f := v];
    assert Supporters(matches, v) == {f};
    assert forall w: nat | w > v :: Supporters(matches, w) == {};
    assert IsCommitCandidate(matches, v, v);
    CandidateIsUnique(matches, v, v, CommitCandidate(matches, v));
  }

  function Acknowledged(l: NodeState, f: NodeId): NodeState {
    l.(nextIndex := map[f := |l.log| + 1], matchIndex := map[f := |l.log|], commitIndex := |l.log|)
  }

  /** A success reply of any term up to the leader's own, earlier ones included, moves its commit index. */
  lemma PairCommit(l: NodeState, f: NodeId, t: Term, id: nat)
    requires l.role.Leader? && l.matchIndex == map[] && l.nextIndex == map[] && l.commitIndex == 0
    requires l.log != [] && l.log[|l.log| - 1].term == l.currentTerm && t <= l.currentTerm
    ensures HandleAppendResponse(l, f, Ack(t, |l.log|, id)) == Acknowledged(l, f)
  {
    hide CommitCandidate;
    var v := |l.log|;
    assert l.matchIndex[f := v] == map[f := v] && l.nextIndex[f := v + 1] == map[f := v + 1];
    PairCandidate(f, v);
  }

  lemma PairRests(c: Cluster, n: NodeId, f: NodeId, s: NodeState, a: AppendRequest)
    requires c.size == 3 && n != f && f in s.matchIndex && s.matchIndex[f] == s.commitIndex
    requires AppendMsg(f, a) in c.net && a.leaderId == n && s.commitIndex <= a.prevLogIndex + |a.entries|
    requires AppendReplyMsg(f, n, Ack(s.currentTerm, s.commitIndex, a.requestId)) in c.net
    ensures Rests({Pledge(s.currentTerm, s.commitIndex, {n, f})}, c, n, s)
  {
    var p, y := Pledge(s.currentTerm, s.commitIndex, {n, f}), Ack(s.currentTerm, s.commitIndex, a.requestId);
    assert Answers(c, n, f, a, y);
    assert Answered(c, n, f, s.currentTerm, s.commitIndex, s.commitIndex);
    assert Supports(c, n, s, f);
    assert |{n, f}| == 2;
    assert RestsOn(p, c, n, s);
  }

  /** A leader replicates one entry to a second member and commits it, while the third is silent. */
  lemma ReplicateOne(r: Run, g: Guards, c: Cluster, m: Nodes, n: NodeId, f: NodeId, b: Byte)
    returns (r': Run, c': Cluster)
    requires Reached(r, g, c) && Holds(c, m) && n in m && f in m && n != f && FreshId(c, n, 1)
    requires Idle(m[n]) && m[n].matchIndex == map[] && m[n].nextIndex == map[]
    requires m[f].log == [] && m[f].commitIndex == 0 && m[f].currentTerm <= m[n].currentTerm
    requires g.commit.ByBatches? && g.ps == {Pledge(m[n].currentTerm, 1, {n, f})}
    ensures var x := Holding(m[n], b);
            && Reached(r', g, c') && c'.h.applied == c.h.applied
            && c'.h.heard <= c.h.heard + {Slot(f, m[n].currentTerm)}
            && Holds(c', m[f := Followed(m[f], m[n].currentTerm, n).(log := x.log)][n := Acknowledged(x, f)])
  {
    hide Reached; hide HandleAppendEntries; hide HandleAppendResponse; hide CreateAppendEntries; hide AppendEntry;
    hide Rests;
    var l, w, x := m[n], m[f], Holding(m[n], b);
    ClientStates(l, b);
    EntryStates(l, w, b, 1);
    PairCommit(x, f, l.currentTerm, 1);
    var r1, c1 := PlayClientAppend(r, g, c, m, n, [b]);
    var m1 := m[n := x];
    var r2, c2 := PlaySend(r1, g, c1, m1, n, f, 1, EntryBatch(x, 1));
    var r3, c3 := PlayAppend(r2, g, c2, m1, f, EntryBatch(x, 1));
    var m3 := m1[f := Followed(w, l.currentTerm, n).(log := x.log)];
    PairRests(c3, n, f, Acknowledged(x, f), EntryBatch(x, 1));
    r', c' := PlayAppendReply(r3, g, c3, m3, n, f, Ack(l.currentTerm, 1, 1), Acknowledged(x, f));
    assert m3[n := Acknowledged(x, f)] == m[f := m3[f]][n := Acknowledged(x, f)];
  }

  lemma PlayApply(r: Run, g: Guards, c: Cluster, m: Nodes, n: NodeId) returns (r': Run, c': Cluster)
    requires Reached(r, g, c) && Holds(c, m) && n in m && n in c.h.applied
    ensures Reached(r', g, c') && Holds(c', m[n := ApplyCommitted(m[n], None).state])
    ensures n in c'.h.applied && c'.h.applied[n] == c.h.applied[n] + ApplyCommitted(m[n], None).handed
    ensures c'.h.heard == c.h.heard
  {
    hide Reached; hide ApplyCommitted; hide HandleAppendResponse;
    r', c' := Step(r, g, c, m, Apply(n, None), ApplyCommitted(m[n], None).state);
  }

  lemma ApplyOne(s: NodeState, b: Byte)
    requires s.log == [Entry(1, b)] && s.commitIndex == 1 && s.lastApplied == 0
    ensures ApplyCommitted(s, None).handed == [Entry(1, b)] && ApplyCommitted(s, None).outcome.Ok?
  {
    var s1 := s.(lastApplied := 1);
    assert ApplyCommitted(s1, None) == Applied(s1, [], Ok(()));
  }

  lemma AllGuards(r: Run, ps: Pledges, c: Cluster)
    requires Reached(r, Guards(true, true, true, ByBatches, ps), c)
    ensures IsRun(r) && VoteGuarded(r) && Guarded(ps, r) && forall n :: ReachGuarded(r, n)
  {
    hide Next; hide Init; hide Enabled; hide CommitGuard; hide NoForgottenVote; hide DistinctVoters;
    hide ReachGuard; hide KeepsMatching; hide Cuts; hide FairWin; hide Spares;
    forall k: nat | k < |r.events|
      ensures StepAt(r, k) && VoteGuard(r.states[k], r.events[k]) && CommitGuard(ps, r.states[k], r.events[k])
      ensures ReachGuard(r.states[k], r.events[k]) && Spares(ps, r.states[k], r.events[k])
    {
      assert StepAt(r, k);
      KeptMatchingSpares(ps, r.states[k], r.events[k]);
    }
    GuardedIsFair(r);
  }

  /** A batch that drops no matching entry spares every pledge. */
  lemma KeptMatchingSpares(ps: Pledges, c: Cluster, e: Event)
    requires Enabled(c, e) && AppendGuard(c, e)
    ensures Spares(ps, c, e)
  {
    hide KeepsMatching; hide Cuts; hide ReachGuard;
    if e.OnAppend? {
      KeepsMatchingIff(c.nodes[e.node].log, e.append.prevLogIndex, e.append.entries);
    }
  }

  /** A commit index that rests on one pledge has that pledge chosen. */
  lemma CommitIsChosen(r: Run, p: Pledge, n: NodeId)
    requires IsRun(r) && Guarded({p}, r) && n in Last(r).nodes && Last(r).nodes[n].commitIndex > 0
    ensures Chosen(Last(r), p)
  {
    hide Guarded; hide Next; hide Init; hide StepAt; hide Safe; hide OwnAcks; hide CommitMsg; hide OneBatchPerId;
    hide Chosen; hide AppliedSettled;
    CommittedHolds({p}, r, |r.events|);
    assert CommitNode({p}, Last(r), n, Last(r).nodes[n]);
  }

  /**
   The guards leave room: in a run that meets all of them node 1 is elected with node 2's
   vote, replicates an entry to node 2, commits and applies it; then node 2 is elected for
   term 2 with node 1's vote. Node 3 never takes part.
   */
  lemma GuardsAdmitCommit(b: Byte) returns (r: Run, c: Cluster)
    ensures var p := Pledge(1, 1, {1, 2});
            && Reached(r, Guards(true, true, true, ByBatches, {p}), c) && IsRun(r)
            && VoteGuarded(r) && Guarded({p}, r) && (forall n :: ReachGuarded(r, n)) && Chosen(c, p)
    ensures 1 in c.nodes && c.nodes[1].commitIndex == 1 && 1 in c.h.applied && c.h.applied[1] == [Entry(1, b)]
    ensures 2 in c.nodes && c.nodes[2].role.Leader? && c.nodes[2].currentTerm == 2
    ensures 3 in c.nodes && c.nodes[3] == NewNode(3, 3, 2)
  {
    hide VoteGuarded; hide Guarded; hide ReachGuarded; hide ApplyCommitted; hide Obeys; hide Chosen;
    var p := Pledge(1, 1, {1, 2});
    var g := Guards(true, true, true, ByBatches, {p});
    r, c := BeginFresh(g);
    var s1, s2 := NewNode(1, 3, 2), NewNode(2, 3, 2);
    r, c := Campaign(r, g, c, Fresh(), 1, 2);
    var m1 := Fresh()[1 := Led(s1)][2 := Voted(s2, 1, 1)];
    r, c := ReplicateOne(r, g, c, m1, 1, 2, b);
    var done := Acknowledged(Holding(Led(s1), b), 2);
    var m2 := m1[2 := Followed(m1[2], 1, 1).(log := done.log)][1 := done];
    ApplyOne(done, b);
    ApplyFrame(done, None);
    r, c := PlayApply(r, g, c, m2, 1);
    var m3 := m2[1 := ApplyCommitted(done, None).state];
    r, c := Campaign(r, g, c, m3, 2, 1);
    var m4 := m3[2 := Led(m3[2])][1 := Voted(m3[1], 2, 2)];
    assert At(c, 1, m4[1]) && At(c, 2, m4[2]) && At(c, 3, m4[3]);
    AllGuards(r, {p}, c);
    CommitIsChosen(r, p, 1);
  }

  // ----- a commit that rests on the length of a stale log -----

  lemma PairReports(ps: Pledges, c: Cluster, n: NodeId, f: NodeId, s: NodeState, id: nat)
    requires c.size == 3 && n != f && f in s.matchIndex && s.matchIndex[f] == s.commitIndex
    requires AppendReplyMsg(f, n, Ack(s.currentTerm, s.commitIndex, id)) in c.net
    requires Pledge(s.currentTerm, s.commitIndex, {n, f}) in ps
    ensures RestsOnReports(ps, c, n, s)
  {
    assert Reported(c, n, s, f);
    assert |{n, f}| == 2;
  }

  /** Leader `n` of an empty log heartbeats `f`, whose log holds one stale entry, and commits its own first entry. */
  lemma CommitOverStaleTail(r: Run, g: Guards, c: Cluster, m: Nodes, n: NodeId, f: NodeId, b: Byte)
    returns (r': Run, c': Cluster)
    requires Reached(r, g, c) && Holds(c, m) && n in m && f in m && n != f && FreshId(c, n, 0)
    requires Idle(m[n]) && m[n].matchIndex == map[] && m[n].nextIndex == map[] && m[f].currentTerm <= m[n].currentTerm
    requires LastLogInfo(m[f].log).0 == 1
    requires g.commit.ByReports? && Pledge(m[n].currentTerm, 1, {n, f}) in g.ps
    ensures Reached(r', g, c') && c'.h.heard <= c.h.heard + {Slot(f, m[n].currentTerm)}
    ensures Holds(c', m[f := Followed(m[f], m[n].currentTerm, n)][n := Acknowledged(Holding(m[n], b), f)])
    ensures forall k, id | k != n && FreshId(c, k, id) :: FreshId(c', k, id)
  {
    hide Reached; hide HandleAppendEntries; hide HandleAppendResponse; hide CreateAppendEntries; hide AppendEntry;
    hide RestsOnReports; hide LastLogInfo;
    var l, w, x := m[n], m[f], Holding(m[n], b);
    BeatStates(l, w, 0);
    ClientStates(l, b);
    PairCommit(x, f, l.currentTerm, 0);
    var r1, c1 := PlaySend(r, g, c, m, n, f, 0, Beat(l, 0));
    var r2, c2 := PlayAppend(r1, g, c1, m, f, Beat(l, 0));
    var m2 := m[f := Followed(w, l.currentTerm, n)];
    var r3, c3 := PlayClientAppend(r2, g, c2, m2, n, [b]);
    var m3 := m2[n := x];
    PairReports(g.ps, c3, n, f, Acknowledged(x, f), 0);
    r', c' := PlayAppendReply(r3, g, c3, m3, n, f, Ack(l.currentTerm, 1, 0), Acknowledged(x, f));
    assert m3[n := Acknowledged(x, f)] == m[f := m3[f]][n := Acknowledged(x, f)];
  }

  lemma SecondStates(l: NodeState, w: NodeState, x: LogEntry, b: Byte, id: nat)
    requires l.role.Leader? && l.log == [x] && l.commitIndex == 0 && l.maxEntries == 2 && l.nextIndex == map[]
    requires w.log == [] && w.currentTerm <= l.currentTerm
    ensures var log := [x, Second(l.currentTerm, b)];
            && AppendEntry(l, [b], 0).0 == l.(log := log)
            && CreateAppendEntries(l.(log := log), w.id, id) == Ok(FromStart(l, log, id))
            && HandleAppendEntries(w, FromStart(l, log, id)) ==
                 (Followed(w, l.currentTerm, l.id).(log := log), Ack(l.currentTerm, 2, id))
  {
    var log := [x, Second(l.currentTerm, b)];
    assert [x] + [Second(l.currentTerm, b)] == log;
    assert log[0..][..2] == log && [] + log == log;
  }

  /** Leader `n` of a one-entry log adds a second entry, replicates both to `f` and commits them. */
  lemma ReplicateTwo(r: Run, g: Guards, c: Cluster, m: Nodes, n: NodeId, f: NodeId, x: LogEntry, b: Byte)
    returns (r': Run, c': Cluster)
    requires Reached(r, g, c) && Holds(c, m) && n in m && f in m && n != f && FreshId(c, n, 0)
    requires m[n].role.Leader? && m[n].log == [x] && m[n].commitIndex == 0 && m[n].maxEntries == 2
    requires m[n].nextIndex == map[] && m[n].matchIndex == map[]
    requires m[f].log == [] && m[f].commitIndex == 0 && m[f].currentTerm <= m[n].currentTerm
    requires g.commit.ByReports? && Pledge(m[n].currentTerm, 2, {n, f}) in g.ps
    ensures var l := m[n].(log := [x, Second(m[n].currentTerm, b)]);
            && Reached(r', g, c')
            && Holds(c', m[f := Followed(m[f], l.currentTerm, n).(log := l.log)][n := Acknowledged(l, f)])
  {
    hide Reached; hide HandleAppendEntries; hide HandleAppendResponse; hide CreateAppendEntries; hide AppendEntry;
    hide RestsOnReports;
    var l, w := m[n].(log := [x, Second(m[n].currentTerm, b)]), m[f];
    var a := FromStart(m[n], l.log, 0);
    SecondStates(m[n], w, x, b, 0);
    PairCommit(l, f, l.currentTerm, 0);
    var r1, c1 := PlayClientAppend(r, g, c, m, n, [b]);
    var m1 := m[n := l];
    var r2, c2 := PlaySend(r1, g, c1, m1, n, f, 0, a);
    var r3, c3 := PlayAppend(r2, g, c2, m1, f, a);
    var m3 := m1[f := Followed(w, l.currentTerm, n).(log := l.log)];
    PairReports(g.ps, c3, n, f, Acknowledged(l, f), 0);
    r', c' := PlayAppendReply(r3, g, c3, m3, n, f, Ack(l.currentTerm, 2, 0), Acknowledged(l, f));
    assert m3[n := Acknowledged(l, f)] == m[f := m3[f]][n := Acknowledged(l, f)];
  }

  function StalePledges(): Pledges {
    {Pledge(2, 1, {2, 1}), Pledge(3, 2, {1, 3})}
  }

  function StaleGuards(): Guards {
    Guards(true, true, true, ByReports, StalePledges())
  }

  /** Node 1 after it led term 1, with an entry of its own, and then followed node 2 in term 2. */
  function Stale(): NodeState {
    Followed(Holding(Led(NewNode(1, 3, 2)), 0), 2, 2)
  }

  /** Node 2 after it led term 2 and committed an entry of its own. */
  function Misled(): NodeState {
    Acknowledged(Holding(Led(Voted(NewNode(2, 3, 2), 1, 1)), 1), 1)
  }

  /** Node 2, elected with an empty log, commits an entry that only it holds. */
  lemma MisledCommits() returns (r: Run, c: Cluster)
    ensures Reached(r, StaleGuards(), c) && c.h.heard <= {Slot(1, 2)} && FreshId(c, 1, 0)
    ensures Holds(c, map[1 := Stale(), 2 := Misled(), 3 := Voted(NewNode(3, 3, 2), 2, 2)])
  {
    hide Reached;
    var g := StaleGuards();
    r, c := BeginFresh(g);
    var s1, s3 := NewNode(1, 3, 2), NewNode(3, 3, 2);
    r, c := Campaign(r, g, c, Fresh(), 1, 2);
    var m1 := Fresh()[1 := Led(s1)][2 := Voted(NewNode(2, 3, 2), 1, 1)];
    ClientStates(Led(s1), 0);
    r, c := PlayClientAppend(r, g, c, m1, 1, [0]);
    var m2 := m1[1 := Holding(Led(s1), 0)];
    r, c := Campaign(r, g, c, m2, 2, 3);
    var m3 := m2[2 := Led(m2[2])][3 := Voted(s3, 2, 2)];
    assert FreshId(c, 1, 0) && FreshId(c, 2, 0);
    r, c := CommitOverStaleTail(r, g, c, m3, 2, 1, 1);
    assert FreshId(c, 1, 0);
    assert m3[1 := Stale()][2 := Misled()] == map[1 := Stale(), 2 := Misled(), 3 := Voted(s3, 2, 2)];
  }

  /**
   With every guard obeyed, but commits checked by reported lengths alone and not by the
   batches answered, committed entries can disagree. Node 1 leads term 1 and keeps an entry
   to itself. Node 2 wins term 2 with an empty log and heartbeats node 1, which reports the
   length of its stale log, so node 2 commits an entry that only it holds. Node 1 wins term 3
   and commits its stale entry below a new one.
   */
  lemma StaleTailCommits() returns (r: Run, c: Cluster)
    ensures Reached(r, StaleGuards(), c) && CommitsDisagree(c)
  {
    hide Reached; hide FreshId;
    var g := StaleGuards();
    r, c := MisledCommits();
    var m := map[1 := Stale(), 2 := Misled(), 3 := Voted(NewNode(3, 3, 2), 2, 2)];
    var c0 := c;
    r, c := Campaign(r, g, c, m, 1, 3);
    FreshStays(c0, c, 1, 0);
    var m1 := m[1 := Led(Stale())][3 := Voted(m[3], 3, 1)];
    r, c := ReplicateTwo(r, g, c, m1, 1, 3, Entry(1, 0), 2);
    var x := Acknowledged(m1[1].(log := [Entry(1, 0), Second(3, 2)]), 3);
    var m2 := m1[3 := Followed(m1[3], 3, 1).(log := x.log)][1 := x];
    assert At(c, 1, m2[1]) && At(c, 2, m2[2]);
    assert m2[1] == x && m2[2] == Misled();
  }

  lemma FreshStays(c: Cluster, c': Cluster, n: NodeId, id: nat)
    requires FreshId(c, n, id) && Quiet(c, c')
    ensures FreshId(c', n, id)
  {
  }
}
