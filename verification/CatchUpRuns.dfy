/**
 Catch-up inside a run: from any state with a leader, the run can go on with nothing but
 exchanges between that leader and one follower until the follower's log extends the
 leader's.
 */
module CatchUpRuns {
  import opened RaftTypes
  import opened RaftLog
  import opened Handlers
  import opened Cluster
  import opened BaseInvariants
  import opened LogMatching
  import opened Replication

  /** The event is part of an exchange between leader `l` and follower `f`. */
  predicate Exchanges(e: Event, l: NodeId, f: NodeId) {
    || (e.SendAppend? && e.node == l && e.follower == f)
    || (e.OnAppend? && e.node == f && e.append.leaderId == l)
    || (e.OnAppendReply? && e.node == l && e.follower == f)
  }

  /** The second run is the first `k` steps of the first and then only exchanges. */
  ghost predicate GoesOn(r: Run, k: nat, r': Run, l: NodeId, f: NodeId) {
    && IsRun(r) && k <= |r.events| && IsRun(r') && k <= |r'.events|
    && r'.states[..k + 1] == r.states[..k + 1] && r'.events[..k] == r.events[..k]
    && forall i | k <= i < |r'.events| :: Exchanges(r'.events[i], l, f)
  }

  /** The two nodes, as they are in the last state of the run. */
  ghost predicate Stand(r: Run, l: NodeId, f: NodeId, p: Pair) {
    && |r.states| > 0 && l != f && p.leader.id == l && p.follower.id == f
    && var c := Last(r);
       && l in c.nodes && f in c.nodes && c.nodes[l] == p.leader && c.nodes[f] == p.follower
       && l in c.h.applied && f in c.h.applied
  }

  lemma OneMore(r: Run, k: nat, r': Run, l: NodeId, f: NodeId, e: Event)
    requires GoesOn(r, k, r', l, f) && Enabled(Last(r'), e) && Exchanges(e, l, f)
    ensures GoesOn(r, k, Prolong(r', e), l, f)
  {
    hide Next; hide Init; hide Enabled; hide StepAt;
    ProlongIsRun(r', e);
    var q := Prolong(r', e);
    assert q.states[..k + 1] == r'.states[..k + 1] && q.events[..k] == r'.events[..k];
  }

  lemma Nodes(c: Cluster, e: Event)
    requires Enabled(c, e)
    ensures var c' := Next(c, e);
            && c'.nodes == c.nodes[e.node := NewState(c.nodes[e.node], e)]
            && c'.net == c.net + Sent(c.nodes[e.node], e) && c'.h.applied.Keys == c.h.applied.Keys
  {
    hide NewState; hide Sent; hide Recall;
    RecallKeepsMembers(c.h, c.nodes[e.node], e);
  }

  /** One round of the exchange is three events: send, handle, answer. */
  lemma RunRound(r: Run, k: nat, r': Run, l: NodeId, f: NodeId, p: Pair, id: nat) returns (q: Run)
    requires GoesOn(r, k, r', l, f) && Stand(r', l, f, p)
    ensures GoesOn(r, k, q, l, f) && Stand(q, l, f, Round(p, id)) && |q.events| <= |r'.events| + 3
  {
    hide HandleAppendEntries; hide HandleAppendResponse; hide CreateAppendEntries; hide GoesOn; hide Recall;
    q := r';
    var sent := CreateAppendEntries(p.leader, f, id);
    if sent.Ok? {
      var a, c0 := sent.value, Last(r');
      var answer := HandleAppendEntries(p.follower, a).1;
      BatchSender(p.leader, f, id);
      Identities(p, id);
      q := PlayExchange(r, k, r', l, f, SendAppend(l, f, id));
      q := PlayExchange(r, k, q, l, f, OnAppend(f, a));
      q := PlayExchange(r, k, q, l, f, OnAppendReply(l, f, answer));
    }
  }

  lemma PlayExchange(r: Run, k: nat, r': Run, l: NodeId, f: NodeId, e: Event) returns (q: Run)
    requires GoesOn(r, k, r', l, f) && |r'.states| > 0 && Enabled(Last(r'), e) && Exchanges(e, l, f)
    ensures GoesOn(r, k, q, l, f) && |q.events| == |r'.events| + 1 && |q.states| > 0
    ensures var c, c' := Last(r'), Last(q);
            && c'.nodes == c.nodes[e.node := NewState(c.nodes[e.node], e)]
            && c'.net == c.net + Sent(c.nodes[e.node], e) && c'.h.applied.Keys == c.h.applied.Keys
  {
    hide GoesOn; hide NewState; hide Sent; hide Recall; hide Enabled;
    q := Prolong(r', e);
    OneMore(r, k, r', l, f, e);
    Nodes(Last(r'), e);
  }

  lemma BatchSender(s: NodeState, follower: NodeId, id: nat)
    requires CreateAppendEntries(s, follower, id).Ok?
    ensures CreateAppendEntries(s, follower, id).value.leaderId == s.id
  {
  }

  lemma Identities(p: Pair, id: nat)
    ensures Round(p, id).leader.id == p.leader.id && Round(p, id).follower.id == p.follower.id
  {
    hide CommitRule.CommitCandidate; hide FindConflictInfo; hide LastOfTerm; hide LastLogInfo; hide CreateAppendEntries;
  }

  lemma {:induction false} RunRounds(r: Run, k: nat, r': Run, l: NodeId, f: NodeId, p: Pair, id: nat, n: nat)
    returns (q: Run)
    requires GoesOn(r, k, r', l, f) && Stand(r', l, f, p)
    ensures GoesOn(r, k, q, l, f) && Stand(q, l, f, Rounds(p, id, n)) && |q.events| <= |r'.events| + 3 * n
    decreases n
  {
    hide GoesOn; hide Stand; hide Round;
    if n == 0 {
      q := r';
    } else {
      var once := RunRound(r, k, r', l, f, p, id);
      q := RunRounds(r, k, once, l, f, Round(p, id), id + 1, n - 1);
    }
  }

  lemma Beginning(r: Run, k: nat, l: NodeId, f: NodeId) returns (q: Run)
    requires IsRun(r) && k <= |r.events|
    ensures GoesOn(r, k, q, l, f) && |q.events| == k && |q.states| > 0 && Last(q) == r.states[k]
  {
    hide Next; hide Init; hide Enabled;
    q := Run(r.states[..k + 1], r.events[..k]);
    forall i: nat | i < |q.events| ensures StepAt(q, i) {
      assert StepAt(r, i);
    }
  }

  /**
   Catch-up in a run with one winner per term. From any moment `k` with a leader `l` whose
   next index for `f` is within its log, and whose term `f` has not passed, the run can go
   on with at most `next_index + log length` exchanges between the two, after which the
   log of `f` extends the log of `l`, which is as it was.
   */
  lemma CatchUpInRun(r: Run, k: nat, l: NodeId, f: NodeId, id: nat) returns (q: Run)
    requires IsRun(r) && OneWinPerTerm(r) && k <= |r.events|
    requires l in r.states[k].nodes && f in r.states[k].nodes && l != f
    requires var x, y := r.states[k].nodes[l], r.states[k].nodes[f];
             && x.role.Leader? && x.maxEntries >= 1 && y.currentTerm <= x.currentTerm
             && NextIndexOf(x, f) <= |x.log| + 1
    ensures GoesOn(r, k, q, l, f)
    ensures |q.events| <= k + 3 * (NextIndexOf(r.states[k].nodes[l], f) + |r.states[k].nodes[l].log|)
    ensures l in Last(q).nodes && f in Last(q).nodes
    ensures Last(q).nodes[l].log == r.states[k].nodes[l].log <= Last(q).nodes[f].log
  {
    hide Next; hide StepAt; hide OneWinPerTerm; hide Anchored; hide LogShape; hide BatchShape; hide LogMsg;
    hide ReignLog; hide Round; hide GoesOn;
    LogsHold(r, k);
    var c := r.states[k];
    assert BaseNode(c.size, l, c.nodes[l]) && BaseNode(c.size, f, c.nodes[f]);
    assert LogNode(c.h.reigns, l, c.nodes[l]) && LogNode(c.h.reigns, f, c.nodes[f]);
    var p := Pair(c.nodes[l], c.nodes[f]);
    var rounds := CatchUp(c.h.reigns, p, id);
    q := Beginning(r, k, l, f);
    q := RunRounds(r, k, q, l, f, p, id, rounds);
  }
}
