/**
 Laws of whole runs, with no hypothesis, about what leaves a node: batches respect their
 sender's cap, a client's entry stays at the index the client was given while the leader
 leads, and the node a client is referred to has led.
 */
module RunLaws {
  import opened RaftTypes
  import opened RaftLog
  import opened CommitRule
  import opened Handlers
  import opened HandlerLaws
  import opened Cluster
  import opened BaseInvariants

  /** No event changes who a node is or how it is configured. */
  lemma ConfigStays(s: NodeState, e: Event)
    ensures var s' := NewState(s, e);
            s'.id == s.id && s'.clusterSize == s.clusterSize && s'.maxEntries == s.maxEntries
  {
    hide FindConflictInfo; hide LastLogInfo; hide CommitCandidate; hide LastOfTerm; hide CheckLogConsistency;
    if e.Apply? { ApplyFrame(s, e.failAt); }
  }

  // ----- batches -----

  ghost predicate Capped(c: Cluster, m: Message) {
    m.AppendMsg? ==> m.append.leaderId in c.nodes && |m.append.entries| <= c.nodes[m.append.leaderId].maxEntries
  }

  lemma SentIsCapped(c: Cluster, e: Event, m: Message)
    requires Base(c) && Enabled(c, e) && m in Sent(c.nodes[e.node], e)
    ensures Capped(c, m)
  {
    hide HandleVoteRequest; hide HandleAppendEntries; hide StartElection; hide CreateAppendEntries; hide LogShape;
    hide RoleShape; hide BaseMsg;
    var s := c.nodes[e.node];
    assert BaseNode(c.size, e.node, s);
    if e.SendAppend? {
      BatchLaw(s, e.follower, e.requestId, PrevIndexOf(s, e.follower));
    }
  }

  lemma CappedStays(c: Cluster, e: Event, m: Message)
    requires Enabled(c, e) && Capped(c, m)
    ensures Capped(Next(c, e), m)
  {
    hide NewState; hide Sent; hide Recall;
    ConfigStays(c.nodes[e.node], e);
  }

  /** No AppendEntries in flight, in any run, holds more entries than its sender's cap. */
  lemma {:induction false} BatchesAreCapped(r: Run, k: nat, m: Message)
    requires IsRun(r) && k <= |r.events| && m in r.states[k].net
    ensures Capped(r.states[k], m)
  {
    hide NewState; hide Sent; hide Recall; hide Base; hide Capped;
    if k > 0 {
      var c, e := r.states[k - 1], r.events[k - 1];
      assert StepAt(r, k - 1);
      if m in c.net {
        BatchesAreCapped(r, k - 1, m);
      } else {
        BaseHolds(r, k - 1);
        SentIsCapped(c, e, m);
      }
      CappedStays(c, e, m);
    }
  }

  // ----- clients -----

  /**
   The entry at the index a leader gave to a client is the client's, at every later moment
   at which the node leads the same term.
   */
  lemma ClientEntryStays(r: Run, j: nat, k: nat)
    requires IsRun(r) && j < k <= |r.events| && r.events[j].ClientAppend? && r.events[j].node in r.states[j].nodes
    requires var n := r.events[j].node;
             && r.states[j].nodes[n].role.Leader? && n in r.states[k].nodes && r.states[k].nodes[n].role.Leader?
             && r.states[k].nodes[n].currentTerm == r.states[j].nodes[n].currentTerm
    ensures var n, command := r.events[j].node, r.events[j].command;
            var given := AppendEntry(r.states[j].nodes[n], command, r.events[j].timestamp).1;
            var log := r.states[k].nodes[n].log;
            && given.Ok? && 1 <= given.value <= |log|
            && log[given.value - 1].command == command && log[given.value - 1].index == given.value
  {
    hide Recall; hide Sent; hide AppendEntry;
    var n, e := r.events[j].node, r.events[j];
    assert StepAt(r, j);
    ClientLaw(r.states[j].nodes[n], e.command, e.timestamp);
    LeaderAppendOnly(r, j + 1, k, n);
  }

  // ----- known leaders -----

  /** A batch in flight was sent by a node that led its term. */
  lemma {:induction false} BatchOrigin(r: Run, k: nat, f: NodeId, a: AppendRequest) returns (j: nat)
    requires IsRun(r) && k <= |r.events| && AppendMsg(f, a) in r.states[k].net
    ensures j < k && a.leaderId in r.states[j].nodes
    ensures r.states[j].nodes[a.leaderId].role.Leader? && r.states[j].nodes[a.leaderId].currentTerm == a.term
  {
    hide NewState; hide Recall; hide Base; hide HandleVoteRequest; hide HandleAppendEntries; hide StartElection;
    if k > 0 && AppendMsg(f, a) in r.states[k - 1].net {
      j := BatchOrigin(r, k - 1, f, a);
    } else {
      j := k - 1;
      assert StepAt(r, j);
      BaseHolds(r, j);
      SenderLeads(r.states[j], r.events[j], f, a);
    }
  }

  lemma SenderLeads(c: Cluster, e: Event, f: NodeId, a: AppendRequest)
    requires Base(c) && Enabled(c, e) && AppendMsg(f, a) in Sent(c.nodes[e.node], e)
    ensures a.leaderId == e.node && c.nodes[e.node].role.Leader? && c.nodes[e.node].currentTerm == a.term
  {
    hide HandleVoteRequest; hide HandleAppendEntries; hide StartElection; hide LogShape; hide RoleShape; hide BaseMsg;
    assert BaseNode(c.size, e.node, c.nodes[e.node]);
  }

  /** One event: a node learns of a leader from its batch, or by becoming leader itself. */
  lemma LeaderLearned(s: NodeState, e: Event, l: NodeId)
    requires NewState(s, e).currentLeader == Some(l) && s.currentLeader != Some(l)
    ensures || (e.OnAppend? && e.append.leaderId == l && e.append.term == NewState(s, e).currentTerm)
            || (NewState(s, e).role.Leader? && l == s.id)
  {
    hide FindConflictInfo; hide LastLogInfo; hide CommitCandidate; hide LastOfTerm; hide CheckLogConsistency;
    if e.Apply? { ApplyFrame(s, e.failAt); }
  }

  /**
   The leader a node knows, to which it refers clients, led at some moment of the run, in a
   term the node has reached.
   */
  lemma {:induction false} KnownLeaderLed(r: Run, k: nat, n: NodeId, l: NodeId) returns (j: nat)
    requires IsRun(r) && k <= |r.events| && n in r.states[k].nodes && r.states[k].nodes[n].currentLeader == Some(l)
    ensures j <= k && l in r.states[j].nodes && r.states[j].nodes[l].role.Leader?
    ensures r.states[j].nodes[l].currentTerm <= r.states[k].nodes[n].currentTerm
  {
    hide NewState; hide Sent; hide Recall; hide Base;
    if k > 0 {
      assert StepAt(r, k - 1);
      var c, e := r.states[k - 1], r.events[k - 1];
      if c.nodes[n].currentLeader == Some(l) {
        TermsNeverFall(r, k - 1, k, n);
        j := KnownLeaderLed(r, k - 1, n, l);
      } else {
        LeaderLearned(c.nodes[n], e, l);
        BaseHolds(r, k);
        IdentityIn(r.states[k], n);
        ConfigStays(c.nodes[n], e);
        if e.OnAppend? && e.append.leaderId == l && e.append.term == r.states[k].nodes[n].currentTerm {
          j := BatchOrigin(r, k - 1, n, e.append);
        } else {
          j := k;
        }
      }
    }
  }
}
