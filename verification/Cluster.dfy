/**
 A cluster as a transition system: every event is one handler call at one node.
 A message stays in the network once sent, so it may be delivered late, in any
 order, many times or never. Beside the nodes the state keeps a history that no
 handler reads: it only records what happened.
 */
module Cluster {
  import opened RaftTypes
  import opened RaftLog
  import opened Handlers

  datatype Message =
    | VoteRequestMsg(request: VoteRequest)
    | VoteReplyMsg(voter: NodeId, candidate: NodeId, reply: VoteResponse)
    | AppendMsg(follower: NodeId, append: AppendRequest)
    | AppendReplyMsg(source: NodeId, leader: NodeId, ack: AppendResponse)

  /** A node in one of its terms. */
  datatype Slot = Slot(node: NodeId, term: Term)

  /** The first vote of a node in a term, with the voter's log at that moment. */
  datatype Ballot = Ballot(candidate: NodeId, log: Log)

  /** A won election: who won, whose votes were counted, the log at the win and the log built since. */
  datatype Reign = Reign(leader: NodeId, voters: set<NodeId>, start: Log, log: Log)

  datatype History = History(
    ballots: map<Slot, Ballot>,
    tally: map<Slot, set<NodeId>>,          // votes counted by a candidate, itself included
    heard: set<Slot>,                       // nodes that took an AppendEntries of the term as current
    reigns: map<Term, Reign>,
    acks: map<Slot, nat>,                   // longest prefix of the term's leader log a node confirmed in that term
    applied: map<NodeId, seq<LogEntry>>)    // entries handed to each node's state machine

  datatype Cluster = Cluster(size: nat, nodes: map<NodeId, NodeState>, net: set<Message>, h: History)

  datatype Event =
    | Timeout(node: NodeId)
    | OnVoteRequest(node: NodeId, request: VoteRequest)
    | OnVoteReply(node: NodeId, voter: NodeId, reply: VoteResponse)
    | SendAppend(node: NodeId, follower: NodeId, requestId: nat)
    | OnAppend(node: NodeId, append: AppendRequest)
    | OnAppendReply(node: NodeId, follower: NodeId, ack: AppendResponse)
    | ClientAppend(node: NodeId, command: seq<Byte>, timestamp: nat)
    | Apply(node: NodeId, failAt: Option<nat>)

  ghost predicate Init(c: Cluster) {
    && |c.nodes| <= c.size
    && (forall n | n in c.nodes :: exists cap: nat :: c.nodes[n] == NewNode(n, c.size, cap))
    && c.net == {}
    && c.h == History(map[], map[], {}, map[], map[], map n | n in c.nodes :: [])
  }

  /** The event happens at a member, and a delivered message was sent. */
  ghost predicate Enabled(c: Cluster, e: Event) {
    && e.node in c.nodes
    && e.node in c.h.applied
    && match e
       case OnVoteRequest(n, request) => VoteRequestMsg(request) in c.net
       case OnVoteReply(n, voter, reply) => VoteReplyMsg(voter, n, reply) in c.net
       case SendAppend(n, follower, requestId) => follower in c.nodes
       case OnAppend(n, append) => AppendMsg(n, append) in c.net
       case OnAppendReply(n, follower, ack) => AppendReplyMsg(follower, n, ack) in c.net
       case _ => true
  }

  ghost function NewState(s: NodeState, e: Event): NodeState {
    match e
    case Timeout(n) => StartElection(s).0
    case OnVoteRequest(n, request) => HandleVoteRequest(s, request).0
    case OnVoteReply(n, voter, reply) => HandleVoteResponse(s, reply).0
    case SendAppend(n, follower, requestId) => s
    case OnAppend(n, append) => HandleAppendEntries(s, append).0
    case OnAppendReply(n, follower, ack) => HandleAppendResponse(s, follower, ack)
    case ClientAppend(n, command, timestamp) => AppendEntry(s, command, timestamp).0
    case Apply(n, failAt) => ApplyCommitted(s, failAt).state
  }

  ghost function Sent(s: NodeState, e: Event): set<Message> {
    match e
    case Timeout(n) => {VoteRequestMsg(StartElection(s).1)}
    case OnVoteRequest(n, request) => {VoteReplyMsg(n, request.candidateId, HandleVoteRequest(s, request).1)}
    case SendAppend(n, follower, requestId) =>
      (match CreateAppendEntries(s, follower, requestId)
       case Ok(append) => {AppendMsg(follower, append)}
       case Err(_) => {})
    case OnAppend(n, append) => {AppendReplyMsg(n, append.leaderId, HandleAppendEntries(s, append).1)}
    case _ => {}
  }

  function Tally(h: History, slot: Slot): set<NodeId> {
    if slot in h.tally then h.tally[slot] else {}
  }

  function Acked(h: History, slot: Slot): nat {
    if slot in h.acks then h.acks[slot] else 0
  }

  function Cast(h: History, slot: Slot, ballot: Ballot): History {
    if slot in h.ballots then h else h.(ballots := h.ballots[slot := ballot])
  }

  predicate Grants(s: NodeState, request: VoteRequest) {
    HandleVoteRequest(s, request).1.voteGranted && !request.preVote
  }

  /** The reply completes a majority and makes its receiver leader. */
  predicate Wins(s: NodeState, reply: VoteResponse) {
    CountsVote(s, reply) && s.voteCount + 1 >= Majority(s.clusterSize)
  }

  function RecallVoteReply(h: History, s: NodeState, voter: NodeId, reply: VoteResponse): History {
    if !CountsVote(s, reply) then h
    else
      var slot := Slot(s.id, s.currentTerm);
      var voters := Tally(h, slot) + {voter};
      var h1 := h.(tally := h.tally[slot := voters]);
      if Wins(s, reply)
      then h1.(reigns := h1.reigns[s.currentTerm := Reign(s.id, voters, s.log, s.log)]) else h1
  }

  function RecallAppend(h: History, s: NodeState, append: AppendRequest): History {
    if append.term < s.currentTerm then h
    else
      var slot := Slot(s.id, append.term);
      var h1 := h.(heard := h.heard + {slot});
      if Accepts(s, append)
      then h1.(acks := h1.acks[slot := Max(Acked(h, slot), append.prevLogIndex + |append.entries|)]) else h1
  }

  function RecallClientAppend(h: History, s: NodeState, s': NodeState): History {
    if !s.role.Leader? || s.currentTerm !in h.reigns then h
    else h.(reigns := h.reigns[s.currentTerm := h.reigns[s.currentTerm].(log := s'.log)],
            acks := h.acks[Slot(s.id, s.currentTerm) := |s'.log|])
  }

  ghost function Recall(h: History, s: NodeState, e: Event): History
    requires e.node in h.applied
  {
    match e
    case Timeout(n) =>
      var slot := Slot(n, s.currentTerm + 1);
      Cast(h, slot, Ballot(n, s.log)).(tally := h.tally[slot := {n}])
    case OnVoteRequest(n, request) =>
      if Grants(s, request) then Cast(h, Slot(n, request.term), Ballot(request.candidateId, s.log)) else h
    case OnVoteReply(n, voter, reply) => RecallVoteReply(h, s, voter, reply)
    case OnAppend(n, append) => RecallAppend(h, s, append)
    case ClientAppend(n, command, timestamp) => RecallClientAppend(h, s, NewState(s, e))
    case Apply(n, failAt) => h.(applied := h.applied[n := h.applied[n] + ApplyCommitted(s, failAt).handed])
    case _ => h
  }

  ghost function Next(c: Cluster, e: Event): Cluster
    requires Enabled(c, e)
  {
    var s := c.nodes[e.node];
    Cluster(c.size, c.nodes[e.node := NewState(s, e)], c.net + Sent(s, e), Recall(c.h, s, e))
  }

  // ----- runs -----

  /** A run: the states a cluster passes through and the events between them. */
  datatype Run = Run(states: seq<Cluster>, events: seq<Event>)

  ghost predicate StepAt(r: Run, k: nat)
    requires k < |r.events| && |r.states| == |r.events| + 1
  {
    Enabled(r.states[k], r.events[k]) && r.states[k + 1] == Next(r.states[k], r.events[k])
  }

  ghost predicate IsRun(r: Run) {
    && |r.states| == |r.events| + 1
    && Init(r.states[0])
    && forall k: nat | k < |r.events| :: StepAt(r, k)
  }

  ghost function Last(r: Run): Cluster
    requires |r.states| > 0
  {
    r.states[|r.states| - 1]
  }

  /** The run with one more event. */
  ghost function Prolong(r: Run, e: Event): Run
    requires |r.states| > 0 && Enabled(Last(r), e)
  {
    Run(r.states + [Next(Last(r), e)], r.events + [e])
  }

  lemma ProlongIsRun(r: Run, e: Event)
    requires IsRun(r) && Enabled(Last(r), e)
    ensures IsRun(Prolong(r, e))
  {
    hide Next; hide Init; hide Enabled;
    var r' := Prolong(r, e);
    forall k: nat | k < |r'.events| ensures StepAt(r', k) {
      if k < |r.events| {
        assert StepAt(r, k);
        assert r'.states[k + 1] == r.states[k + 1];
      }
    }
  }
}
