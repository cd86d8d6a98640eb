/**
 The data model of the Raft node: log entries, the four protocol messages and
 the node's fields. Terms and log indices are unsigned 64-bit counters in the
 source; they are natural numbers here.
 */
module RaftTypes {

  type NodeId = nat
  type Term = nat
  type Byte = b: nat | b < 256

  datatype Option<+T> = None | Some(value: T)

  datatype Result<+T> = Ok(value: T) | Err(error: ConsensusError)

  datatype ConsensusError =
    | TermMismatch(expected: Term, actual: Term)
    | NotLeader(leader: Option<NodeId>)
    | NotCandidate
    | LogInconsistency(missing: nat)
    | ApplyFailed(at: nat)

  datatype Role = Follower | Candidate | Leader

  /** `timestamp` is the clock reading taken when the leader created the entry. */
  datatype LogEntry = LogEntry(term: Term, command: seq<Byte>, index: nat, timestamp: nat, size: nat)

  datatype VoteRequest = VoteRequest(
    term: Term, candidateId: NodeId, lastLogIndex: nat, lastLogTerm: Term, preVote: bool)

  datatype VoteResponse = VoteResponse(
    term: Term, voteGranted: bool, preVote: bool, lastLogIndex: Option<nat>)

  datatype AppendRequest = AppendRequest(
    term: Term, leaderId: NodeId, prevLogIndex: nat, prevLogTerm: Term,
    entries: seq<LogEntry>, leaderCommit: nat, requestId: nat)

  datatype AppendResponse = AppendResponse(
    term: Term, success: bool, lastLogIndex: Option<nat>,
    conflictIndex: Option<nat>, conflictTerm: Option<Term>, requestId: nat)

  /** The fields of a Raft node, without its timers and metrics. */
  datatype NodeState = NodeState(
    id: NodeId,
    currentTerm: Term,
    role: Role,
    votedFor: Option<NodeId>,
    log: seq<LogEntry>,
    commitIndex: nat,
    lastApplied: nat,
    nextIndex: map<NodeId, nat>,
    matchIndex: map<NodeId, nat>,
    currentLeader: Option<NodeId>,
    voteCount: nat,
    clusterSize: nat,
    maxEntries: nat)

  function Majority(clusterSize: nat): nat {
    clusterSize / 2 + 1
  }

  function Min(a: nat, b: nat): nat {
    if a <= b then a else b
  }

  function Max(a: nat, b: nat): nat {
    if a <= b then b else a
  }
}
