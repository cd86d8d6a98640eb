/**
 Integrity, with no hypothesis on the run: an entry that any node holds, any
 message carries or any state machine was handed is one that a client gave to a
 leader of the entry's term, at the entry's index. The protocol makes up nothing
 and alters nothing.
 */
module Provenance {
  import opened RaftTypes
  import opened Handlers
  import opened Cluster
  import opened BaseInvariants
  import opened Effects
  import opened ApplyOrder

  /** The entry is in some node's log or in some batch in flight. */
  ghost predicate Held(c: Cluster, x: LogEntry) {
    || (exists n | n in c.nodes :: x in c.nodes[n].log)
    || (exists m | m in c.net :: Carries(m, x))
  }

  predicate Carries(m: Message, x: LogEntry) {
    m.AppendMsg? && x in m.append.entries
  }

  /** The event is a client's call, at a leader, that makes exactly this entry. */
  ghost predicate Submits(c: Cluster, e: Event, x: LogEntry) {
    && e.ClientAppend? && e.node in c.nodes
    && var s := c.nodes[e.node];
       && s.role.Leader? && x.term == s.currentTerm && x.index == |s.log| + 1
       && x.command == e.command && x.timestamp == e.timestamp
  }

  lemma BatchHoldsOwnEntries(s: NodeState, follower: NodeId, requestId: nat, x: LogEntry)
    requires var r := CreateAppendEntries(s, follower, requestId);
             r.Ok? && x in r.value.entries
    ensures x in s.log
  {
  }

  lemma AcceptedEntries(s: NodeState, a: AppendRequest, x: LogEntry)
    requires x in HandleAppendEntries(s, a).0.log
    ensures x in s.log || x in a.entries
  {
    hide HandleAppendEntries;
    AppendEffect(s, a);
  }

  /** One handler call: an entry that is new at its node came with the message or from the client. */
  lemma NewEntry(s: NodeState, e: Event, x: LogEntry)
    requires x in NewState(s, e).log && x !in s.log
    ensures e.OnAppend? || e.ClientAppend?
    ensures e.OnAppend? ==> Carries(AppendMsg(e.node, e.append), x)
    ensures e.ClientAppend? ==>
              s.role.Leader? && x == LogEntry(s.currentTerm, e.command, |s.log| + 1, e.timestamp, |e.command|)
  {
    hide HandleVoteRequest; hide HandleVoteResponse; hide HandleAppendEntries; hide HandleAppendResponse;
    hide ApplyCommitted;
    match e
    case OnVoteRequest(n, request) => VoteRequestEffect(s, request);
    case OnVoteReply(n, voter, reply) => VoteReplyEffect(s, reply);
    case OnAppend(n, append) => AcceptedEntries(s, append, x);
    case OnAppendReply(n, follower, ack) => AppendReplyEffect(s, follower, ack);
    case Apply(n, failAt) => ApplyEffect(s, failAt);
    case _ =>
  }

  lemma SentIsOwn(s: NodeState, e: Event, m: Message, x: LogEntry)
    requires m in Sent(s, e) && Carries(m, x)
    ensures x in s.log
  {
    hide HandleVoteRequest; hide HandleAppendEntries; hide StartElection; hide CreateAppendEntries;
    BatchHoldsOwnEntries(s, e.follower, e.requestId, x);
  }

  /** An entry appears in the cluster only by a client's call. */
  lemma AppearsBySubmission(c: Cluster, e: Event, x: LogEntry)
    requires Enabled(c, e) && Held(Next(c, e), x)
    ensures Held(c, x) || Submits(c, e, x)
  {
    hide NewState; hide Sent; hide Recall;
    var s, c' := c.nodes[e.node], Next(c, e);
    if m :| m in c'.net && Carries(m, x) {
      if m !in c.net {
        SentIsOwn(s, e, m, x);
      }
    } else {
      var n :| n in c'.nodes && x in c'.nodes[n].log;
      if n == e.node && x !in s.log {
        NewEntry(s, e, x);
      }
    }
  }

  lemma {:induction false} EntryOrigin(r: Run, k: nat, x: LogEntry) returns (j: nat)
    requires IsRun(r) && k <= |r.events| && Held(r.states[k], x)
    ensures j < k && Submits(r.states[j], r.events[j], x)
  {
    hide Next; hide Held; hide Submits; hide Enabled; hide Init;
    if k == 0 {
      NothingAtFirst(r.states[0], x);
    } else if Held(r.states[k - 1], x) {
      j := EntryOrigin(r, k - 1, x);
    } else {
      j := k - 1;
      assert StepAt(r, j);
      AppearsBySubmission(r.states[j], r.events[j], x);
    }
  }

  lemma NothingAtFirst(c: Cluster, x: LogEntry)
    requires Init(c)
    ensures !Held(c, x)
  {
  }

  lemma NewlyApplied(h: History, s: NodeState, e: Event, n: NodeId, x: LogEntry)
    requires e.node in h.applied && n in h.applied && n in Recall(h, s, e).applied
    requires x in Recall(h, s, e).applied[n] && x !in h.applied[n]
    ensures n == e.node && x in s.log
  {
    hide NewState; hide HandleVoteRequest; hide ApplyCommitted; hide Accepts;
    if e.Apply? && e.node == n {
      HandedAreCommitted(s, e.failAt, x);
    }
  }

  /** Whatever a state machine was handed, in any run, a client gave to a leader. */
  lemma {:induction false} AppliedOrigin(r: Run, k: nat, n: NodeId, x: LogEntry) returns (j: nat)
    requires IsRun(r) && k <= |r.events| && n in r.states[k].h.applied && x in r.states[k].h.applied[n]
    ensures j < k && Submits(r.states[j], r.events[j], x)
  {
    hide NewState; hide Sent; hide Recall; hide Submits;
    if k > 0 {
      assert StepAt(r, k - 1);
      var c, e := r.states[k - 1], r.events[k - 1];
      RecallKeepsMembers(c.h, c.nodes[e.node], e);
      if x in c.h.applied[n] {
        j := AppliedOrigin(r, k - 1, n, x);
      } else {
        NewlyApplied(c.h, c.nodes[e.node], e, n, x);
        assert Held(c, x);
        j := EntryOrigin(r, k - 1, x);
      }
    }
  }
}
