/**
 Leader Completeness (section 5.4.3 of the Raft paper): an entry that a majority
 confirmed in its own term is in the log of every leader of a later term.
 */
module Completeness {
  import opened RaftTypes
  import opened RaftLog
  import opened CommitRule
  import opened Handlers
  import opened Cluster
  import opened BaseInvariants
  import opened Effects
  import opened Elections
  import opened LogMatching
  import opened PaperRules

  /**
   Members that confirm, in term `term`, the first `length` entries of its leader's log
   and are relied on to keep them.
   */
  datatype Pledge = Pledge(term: Term, length: nat, members: set<NodeId>)

  type Pledges = set<Pledge>

  /** Node `n` confirmed, in the pledge's term, at least the pledge's length. */
  ghost predicate Confirmed(h: History, p: Pledge, n: NodeId) {
    Slot(n, p.term) in h.acks && p.length <= h.acks[Slot(n, p.term)]
  }

  /** A batch that node `n` accepts cuts off nothing that a pledge of its own, already confirmed, covers. */
  ghost predicate SparesAt(ps: Pledges, h: History, n: NodeId, log: Log, a: AppendRequest) {
    forall p | p in ps && n in p.members && Confirmed(h, p, n) :: !Cuts(log, a.prevLogIndex, a.entries, p.length)
  }

  ghost predicate Spares(ps: Pledges, c: Cluster, e: Event)
    requires Enabled(c, e)
  {
    e.OnAppend? && Accepts(c.nodes[e.node], e.append) ==>
      SparesAt(ps, c.h, e.node, c.nodes[e.node].log, e.append)
  }

  /** The leader of term `w` was elected without the first `m` entries of term `t`'s log. */
  ghost predicate Lacks(reigns: Reigns, t: Term, m: nat, w: Term)
    requires t in reigns && m <= |reigns[t].log| && w in reigns
  {
    !(reigns[t].log[..m] <= reigns[w].start)
  }

  /** The log holds the first `m` entries of term `t`'s log, unless a later leader lacked them. */
  ghost predicate Retained(reigns: Reigns, log: Log, t: Term, m: nat, bound: Term) {
    && t in reigns && m <= |reigns[t].log|
    && ((m <= |log| && log[..m] == reigns[t].log[..m])
        || exists w :: t < w <= bound && w in reigns && Lacks(reigns, t, m, w))
  }

  /** What node `n` pledged and confirmed is retained by `log`, as far as terms below `limit` go. */
  ghost predicate KeepsPledges(ps: Pledges, h: History, n: NodeId, log: Log, limit: Term, bound: Term) {
    forall p | p in ps && n in p.members && p.term < limit && Confirmed(h, p, n) ::
      Retained(h.reigns, log, p.term, p.length, bound)
  }

  /** Node `n` confirmed only what leaders of terms it reached had in their logs. */
  ghost predicate AcksBounded(h: History, n: NodeId, t: Term) {
    forall k | k in h.acks && k.node == n ::
      k.term <= t && k.term in h.reigns && h.acks[k] <= |h.reigns[k.term].log|
  }

  ghost predicate CompNode(ps: Pledges, h: History, n: NodeId, s: NodeState) {
    AcksBounded(h, n, s.currentTerm) && KeepsPledges(ps, h, n, s.log, s.currentTerm + 1, s.currentTerm)
  }

  /** A voter's log at the vote retained what it had confirmed in earlier terms. */
  ghost predicate CompBallot(ps: Pledges, h: History, k: Slot)
    requires k in h.ballots
  {
    && LogShape(h.ballots[k].log, k.term) && Anchored(h.reigns, h.ballots[k].log)
    && KeepsPledges(ps, h, k.node, h.ballots[k].log, k.term, k.term)
  }

  ghost predicate CompReign(ps: Pledges, h: History, u: Term)
    requires u in h.reigns
  {
    u > 0 && forall v | v in h.reigns[u].voters ::
      Slot(v, u) in h.ballots && KeepsPledges(ps, h, v, h.ballots[Slot(v, u)].log, u, u - 1)
  }

  ghost predicate Complete(ps: Pledges, c: Cluster) {
    && (forall n | n in c.nodes :: CompNode(ps, c.h, n, c.nodes[n]))
    && (forall k | k in c.h.ballots :: CompBallot(ps, c.h, k))
    && (forall u | u in c.h.reigns :: CompReign(ps, c.h, u))
  }

  // ----- the theorem, in one state -----

  /**
   A majority confirmed, in the pledge's term, its leader's log up to the pledge's
   length, and the last of those entries is of that term.
   */
  ghost predicate Chosen(c: Cluster, p: Pledge) {
    && p.term in c.h.reigns && 1 <= p.length <= |c.h.reigns[p.term].log|
    && c.h.reigns[p.term].log[p.length - 1].term == p.term
    && p.members <= c.nodes.Keys && |p.members| >= Majority(c.size)
    && forall n | n in p.members :: Confirmed(c.h, p, n)
  }

  /** The up-to-date test, on logs anchored in the same reigns, finds the chosen prefix. */
  lemma UpToDateHasPrefix(reigns: Reigns, prefix: Log, t: Term, voter: Log, start: Log, bound: Term)
    requires Anchored(reigns, voter) && Anchored(reigns, start)
    requires LogShape(voter, bound) && LogShape(start, bound)
    requires prefix != [] && prefix[|prefix| - 1].term == t && prefix <= voter
    requires IsLogUpToDate(voter, LastLogInfo(start).0, LastLogInfo(start).1)
    requires start != [] && start[|start| - 1].term > t ==>
               var w := start[|start| - 1].term;
               w in reigns && ReignLog(reigns, w) && prefix <= reigns[w].start
    ensures prefix <= start
  {
    assert voter[|voter| - 1].term >= t;
    assert start != [];
    var w := start[|start| - 1].term;
    assert AnchoredAt(reigns, start, |start| - 1);
    if w == voter[|voter| - 1].term {
      assert AnchoredAt(reigns, voter, |voter| - 1);
      assert voter <= start;
    } else {
      assert reigns[w].log[|start| - 1].term == w;
      assert |start| > |reigns[w].start|;
      assert reigns[w].start <= start;
    }
  }

  lemma VoterKept(ps: Pledges, h: History, v: NodeId, p: Pledge, u: Term)
    requires u in h.reigns && CompReign(ps, h, u) && v in h.reigns[u].voters
    requires p in ps && v in p.members && p.term < u && Confirmed(h, p, v)
    ensures Slot(v, u) in h.ballots && Retained(h.reigns, h.ballots[Slot(v, u)].log, p.term, p.length, u - 1)
  {
  }

  lemma {:induction false} LeaderCompletenessIn(ps: Pledges, c: Cluster, p: Pledge, u: Term)
    requires |c.nodes| <= c.size && Elect(false, c) && Logs(c) && Complete(ps, c)
    requires p in ps && Chosen(c, p) && u in c.h.reigns && p.term < u
    ensures c.h.reigns[p.term].log[..p.length] <= c.h.reigns[u].start
    decreases u
  {
    hide ElectNode; hide ElectMsg; hide LogNode; hide LogMsg; hide CompNode; hide CompBallot; hide CompReign;
    hide KeepsPledges; hide Confirmed; hide ReignLog; hide Anchored; hide LogShape; hide IsLogUpToDate;
    hide LastLogInfo;
    var h, reigns, t, m := c.h, c.h.reigns, p.term, p.length;
    assert ReignOk(h, c.nodes.Keys, c.size, u) && CompReign(ps, h, u);
    var v := QuorumsMeet(p.members, reigns[u].voters, c.nodes.Keys, c.size);
    VoterKept(ps, h, v, p, u);
    var voter, start, prefix := h.ballots[Slot(v, u)].log, reigns[u].start, reigns[t].log[..m];
    if w :| t < w <= u - 1 && w in reigns && Lacks(reigns, t, m, w) {
      LeaderCompletenessIn(ps, c, p, w);
    }
    assert BallotOk(h, c.nodes.Keys, Slot(v, u)) && VotedFor(h, v, u, reigns[u].leader);
    assert CompBallot(ps, h, Slot(v, u));
    BallotLogs(ps, h, Slot(v, u));
    BallotLogs(ps, h, Slot(reigns[u].leader, u));
    if start != [] && start[|start| - 1].term > t {
      StartIsOlder(reigns, u);
      LeaderCompletenessIn(ps, c, p, start[|start| - 1].term);
    }
    UpToDateHasPrefix(reigns, prefix, t, voter, start, u);
  }

  lemma BallotLogs(ps: Pledges, h: History, k: Slot)
    requires k in h.ballots && CompBallot(ps, h, k)
    ensures LogShape(h.ballots[k].log, k.term) && Anchored(h.reigns, h.ballots[k].log)
  {
  }

  lemma StartIsOlder(reigns: Reigns, u: Term)
    requires u in reigns && ReignLog(reigns, u) && reigns[u].start != [] && Anchored(reigns, reigns[u].start)
    ensures var start := reigns[u].start;
            start[|start| - 1].term < u && start[|start| - 1].term in reigns
  {
    assert AnchoredAt(reigns, reigns[u].start, |reigns[u].start| - 1);
  }

  // ----- confirmations survive every event -----

  /** Confirmations are only added, by node `n` in its term `t`. */
  ghost predicate AcksGrow(h: History, h': History, n: NodeId, t: Term) {
    && (forall k | k in h.acks :: k in h'.acks && h.acks[k] <= h'.acks[k])
    && (forall k | k in h'.acks && k != Slot(n, t) :: k in h.acks && h'.acks[k] == h.acks[k])
  }

  lemma RetainedGrows(a: Reigns, b: Reigns, n: NodeId, log: Log, t: Term, m: nat, bound: Term, bound': Term)
    requires Retained(a, log, t, m, bound) && ReignsGrow(a, b, n) && bound <= bound'
    ensures Retained(b, log, t, m, bound')
  {
    assert a[t].log[..m] == b[t].log[..m];
    if w :| t < w <= bound && w in a && Lacks(a, t, m, w) {
      assert Lacks(b, t, m, w);
    }
  }

  lemma PledgesGrow(ps: Pledges, h: History, h': History, n: NodeId, t: Term, v: NodeId, log: Log,
                       limit: Term, bound: Term, bound': Term)
    requires KeepsPledges(ps, h, v, log, limit, bound) && bound <= bound'
    requires ReignsGrow(h.reigns, h'.reigns, n) && AcksGrow(h, h', n, t) && (v == n ==> limit <= t)
    ensures KeepsPledges(ps, h', v, log, limit, bound')
  {
    hide ReignsGrow; hide Retained;
    forall p | p in ps && v in p.members && p.term < limit && Confirmed(h', p, v)
      ensures Retained(h'.reigns, log, p.term, p.length, bound')
    {
      assert Slot(v, p.term) != Slot(n, t);
      RetainedGrows(h.reigns, h'.reigns, n, log, p.term, p.length, bound, bound');
    }
  }

  lemma CompQuiet(ps: Pledges, h: History, h': History, n: NodeId, s: NodeState, s': NodeState)
    requires CompNode(ps, h, n, s) && s'.log == s.log && s'.currentTerm >= s.currentTerm
    requires h'.acks == h.acks && ReignsGrow(h.reigns, h'.reigns, n)
    ensures CompNode(ps, h', n, s') && AcksGrow(h, h', n, s'.currentTerm)
  {
    hide Retained;
    forall p | p in ps && n in p.members && Confirmed(h', p, n)
      ensures Retained(h'.reigns, s'.log, p.term, p.length, s'.currentTerm)
    {
      RetainedGrows(h.reigns, h'.reigns, n, s.log, p.term, p.length, s.currentTerm, s'.currentTerm);
    }
  }

  lemma NewBallotKeeps(ps: Pledges, h: History, h': History, n: NodeId, s: NodeState, t: Term)
    requires CompNode(ps, h, n, s) && LogShape(s.log, s.currentTerm) && Anchored(h.reigns, s.log) && t >= s.currentTerm
    requires h'.acks == h.acks && h'.reigns == h.reigns && Slot(n, t) in h'.ballots
    requires h'.ballots[Slot(n, t)].log == s.log
    ensures CompBallot(ps, h', Slot(n, t))
  {
    hide Retained; hide Anchored;
    forall p | p in ps && n in p.members && p.term < t && Confirmed(h', p, n)
      ensures Retained(h'.reigns, s.log, p.term, p.length, t)
    {
      RetainedLater(h.reigns, s.log, p.term, p.length, s.currentTerm, t);
    }
  }

  lemma RetainedLater(reigns: Reigns, log: Log, t: Term, m: nat, bound: Term, bound': Term)
    requires Retained(reigns, log, t, m, bound) && bound <= bound'
    ensures Retained(reigns, log, t, m, bound')
  {
  }

  /** A fresh term has no leader yet, so its voters only miss what earlier leaders lacked. */
  lemma NewReignKeeps(ps: Pledges, h: History, h': History, n: NodeId, u: Term)
    requires u !in h.reigns && u in h'.reigns && u > 0 && h'.ballots == h.ballots && h'.acks == h.acks
    requires ReignsGrow(h.reigns, h'.reigns, n)
    requires forall v | v in h'.reigns[u].voters :: Slot(v, u) in h.ballots && CompBallot(ps, h, Slot(v, u))
    ensures CompReign(ps, h', u)
  {
    hide ReignsGrow; hide Retained; hide Anchored; hide LogShape;
    forall v | v in h'.reigns[u].voters
      ensures KeepsPledges(ps, h', v, h'.ballots[Slot(v, u)].log, u, u - 1)
    {
      var log := h.ballots[Slot(v, u)].log;
      assert CompBallot(ps, h, Slot(v, u));
      var bound := u - 1;
      forall p | p in ps && v in p.members && p.term < u && Confirmed(h', p, v)
        ensures Retained(h'.reigns, log, p.term, p.length, bound)
      {
        RetainedBefore(h.reigns, log, p.term, p.length, u);
        RetainedGrows(h.reigns, h'.reigns, n, log, p.term, p.length, bound, bound);
      }
    }
  }

  lemma RetainedBefore(reigns: Reigns, log: Log, t: Term, m: nat, u: Term)
    requires Retained(reigns, log, t, m, u) && u !in reigns && u > 0
    ensures Retained(reigns, log, t, m, u - 1)
  {
    if w :| t < w <= u && w in reigns && Lacks(reigns, t, m, w) {
      assert w != u;
    }
  }

  /** An accepted batch that does not cut a retained prefix keeps it, or its leader lacked it. */
  lemma RetainedAccept(reigns: Reigns, s: NodeState, a: AppendRequest, t: Term, m: nat)
    requires Accepts(s, a) && !Cuts(s.log, a.prevLogIndex, a.entries, m)
    requires Anchored(reigns, s.log) && Segment(reigns, a) && ReignLog(reigns, a.term)
    requires Retained(reigns, s.log, t, m, s.currentTerm) && t <= s.currentTerm
    ensures Retained(reigns, LogAfter(s, a), t, m, a.term)
  {
    hide Anchored;
    if a.entries != [] && m <= |s.log| && s.log[..m] == reigns[t].log[..m]
       && !(t < a.term && Lacks(reigns, t, m, a.term)) {
      AcceptedIsPrefix(reigns, s.log, a);
      PrefixSurvives(s.log, reigns[a.term].log, a.prevLogIndex, a.entries, m);
    }
  }

  lemma PrefixSurvives(log: Log, leader: Log, prev: nat, entries: Log, m: nat)
    requires !Cuts(log, prev, entries, m) && entries != []
    requires prev <= |log| && prev + |entries| <= |leader|
    requires log[..prev] + entries == leader[..prev + |entries|]
    requires m <= |log| && m <= |leader| && log[..m] == leader[..m]
    ensures m <= prev + |entries|
  {
    forall i | prev <= i < prev + |entries| && i < m ensures log[i] == entries[i - prev] {
      assert log[..m][i] == leader[..m][i];
      assert (log[..prev] + entries)[i] == leader[..prev + |entries|][i];
    }
  }

  lemma CompAccept(ps: Pledges, h: History, h': History, n: NodeId, s: NodeState, s': NodeState, a: AppendRequest)
    requires CompNode(ps, h, n, s) && Accepts(s, a) && SparesAt(ps, h, n, s.log, a)
    requires Anchored(h.reigns, s.log) && Segment(h.reigns, a) && ReignLog(h.reigns, a.term)
    requires s'.log == LogAfter(s, a) && s'.currentTerm == a.term && h'.reigns == h.reigns
    requires var k := Slot(n, a.term);
             h'.acks == h.acks[k := Max(Acked(h, k), a.prevLogIndex + |a.entries|)]
    ensures CompNode(ps, h', n, s') && AcksGrow(h, h', n, s'.currentTerm)
  {
    hide Anchored; hide Retained; hide ReignLog; hide Cuts;
    AcceptedIsPrefix(h.reigns, s.log, a);
    forall p | p in ps && n in p.members && Confirmed(h', p, n)
      ensures Retained(h'.reigns, s'.log, p.term, p.length, s'.currentTerm)
    {
      if Confirmed(h, p, n) {
        RetainedAccept(h.reigns, s, a, p.term, p.length);
      } else {
        AcceptedIsRetained(h.reigns, s, a, p.length);
      }
    }
  }

  lemma AcceptedIsRetained(reigns: Reigns, s: NodeState, a: AppendRequest, m: nat)
    requires Accepts(s, a) && Segment(reigns, a) && m <= a.prevLogIndex + |a.entries|
    requires s.log[..a.prevLogIndex] == reigns[a.term].log[..a.prevLogIndex]
    requires ReplaceTail(s.log, a.prevLogIndex, a.entries) == reigns[a.term].log[..a.prevLogIndex + |a.entries|]
    ensures Retained(reigns, LogAfter(s, a), a.term, m, a.term)
  {
    var log, leader := LogAfter(s, a), reigns[a.term].log;
    var k := a.prevLogIndex + |a.entries|;
    assert log[..k] == leader[..k];
    assert log[..m] == log[..k][..m];
  }

  lemma CompClientAppend(ps: Pledges, h: History, h': History, n: NodeId, s: NodeState, s': NodeState)
    requires CompNode(ps, h, n, s) && LogNode(h.reigns, n, s) && s.role.Leader?
    requires s'.currentTerm == s.currentTerm && s.log <= s'.log
    requires h'.reigns == h.reigns[s.currentTerm := h.reigns[s.currentTerm].(log := s'.log)]
    requires h'.acks == h.acks[Slot(n, s.currentTerm) := |s'.log|] && ReignsGrow(h.reigns, h'.reigns, n)
    ensures CompNode(ps, h', n, s') && AcksGrow(h, h', n, s'.currentTerm)
  {
    hide Anchored; hide ReignsGrow;
    var t := s.currentTerm;
    forall p | p in ps && n in p.members && Confirmed(h', p, n)
      ensures Retained(h'.reigns, s'.log, p.term, p.length, t)
    {
      if p.term != t {
        RetainedGrows(h.reigns, h'.reigns, n, s.log, p.term, p.length, t, t);
        RetainedExtended(h'.reigns, s.log, s'.log, p.term, p.length, t);
      }
    }
  }

  lemma RetainedExtended(reigns: Reigns, log: Log, log': Log, t: Term, m: nat, bound: Term)
    requires Retained(reigns, log, t, m, bound) && log <= log'
    ensures Retained(reigns, log', t, m, bound)
  {
    if m <= |log| { assert log'[..m] == log[..m]; }
  }

  // ----- every event keeps the invariant -----

  ghost predicate CompActorOk(ps: Pledges, h: History, h': History, n: NodeId, s': NodeState) {
    && CompNode(ps, h', n, s') && AcksGrow(h, h', n, s'.currentTerm)
    && (forall k | k in h'.ballots && k !in h.ballots :: CompBallot(ps, h', k))
    && (forall u | u in h'.reigns && u !in h.reigns :: CompReign(ps, h', u))
  }

  lemma CompOnVoteRequest(ps: Pledges, h: History, n: NodeId, s: NodeState, r: VoteRequest)
    requires CompNode(ps, h, n, s) && LogShape(s.log, s.currentTerm) && Anchored(h.reigns, s.log) && n in h.applied
    ensures CompActorOk(ps, h, Recall(h, s, OnVoteRequest(n, r)), n, HandleVoteRequest(s, r).0)
  {
    hide HandleVoteRequest; hide Anchored; hide LogShape; hide CompNode; hide CompBallot; hide CompReign;
    hide IsLogUpToDate; hide AcksGrow;
    VoteRequestEffect(s, r);
    var h', s' := Recall(h, s, OnVoteRequest(n, r)), HandleVoteRequest(s, r).0;
    ReignsStay(h.reigns, n);
    CompQuiet(ps, h, h', n, s, s');
    if Grants(s, r) {
      if Slot(n, r.term) !in h.ballots { NewBallotKeeps(ps, h, h', n, s, r.term); }
    }
  }

  lemma ReignsStay(reigns: Reigns, n: NodeId)
    ensures ReignsGrow(reigns, reigns, n)
  {
  }

  lemma CompTimeout(ps: Pledges, h: History, n: NodeId, s: NodeState)
    requires CompNode(ps, h, n, s) && LogShape(s.log, s.currentTerm) && Anchored(h.reigns, s.log) && n in h.applied
    ensures CompActorOk(ps, h, Recall(h, s, Timeout(n)), n, StartElection(s).0)
  {
    hide Anchored; hide LogShape; hide CompNode; hide CompBallot; hide CompReign; hide LastLogInfo; hide AcksGrow;
    var h', s' := Recall(h, s, Timeout(n)), StartElection(s).0;
    ReignsStay(h.reigns, n);
    CompQuiet(ps, h, h', n, s, s');
    if Slot(n, s'.currentTerm) !in h.ballots { NewBallotKeeps(ps, h, h', n, s, s'.currentTerm); }
  }

  lemma CompOnVoteReply(ps: Pledges, h: History, n: NodeId, s: NodeState, voter: NodeId, r: VoteResponse)
    requires CompNode(ps, h, n, s) && s.id == n && ElectNode(false, h, n, s) && RoleShape(s)
    requires Wins(s, r) ==> s.currentTerm !in h.reigns
    requires CountsVote(s, r) ==> Voted(false, h, voter, s.currentTerm, n)
    requires forall k | k in h.ballots :: CompBallot(ps, h, k)
    requires ReignsGrow(h.reigns, RecallVoteReply(h, s, voter, r).reigns, n)
    ensures CompActorOk(ps, h, RecallVoteReply(h, s, voter, r), n, HandleVoteResponse(s, r).0)
  {
    hide HandleVoteResponse; hide CompNode; hide CompBallot; hide CompReign; hide ReignsGrow; hide AcksGrow;
    VoteReplyEffect(s, r);
    var h', s' := RecallVoteReply(h, s, voter, r), HandleVoteResponse(s, r).0;
    CompQuiet(ps, h, h', n, s, s');
    if Wins(s, r) {
      NewReignKeeps(ps, h, h', n, s.currentTerm);
    }
  }

  lemma CompOnAppend(ps: Pledges, h: History, n: NodeId, s: NodeState, a: AppendRequest)
    requires CompNode(ps, h, n, s) && s.id == n && (Accepts(s, a) ==> SparesAt(ps, h, n, s.log, a))
    requires Anchored(h.reigns, s.log) && Segment(h.reigns, a) && ReignLog(h.reigns, a.term)
    ensures CompActorOk(ps, h, RecallAppend(h, s, a), n, HandleAppendEntries(s, a).0)
  {
    hide HandleAppendEntries; hide CompNode; hide CompBallot; hide CompReign; hide Anchored; hide Segment;
    hide ReignLog;
    hide CheckLogConsistency; hide LogAfter; hide SparesAt; hide LastLogInfo; hide AcksGrow;
    AppendEffect(s, a);
    var h', s' := RecallAppend(h, s, a), HandleAppendEntries(s, a).0;
    if Accepts(s, a) {
      CompAccept(ps, h, h', n, s, s', a);
    } else {
      ReignsStay(h.reigns, n);
      CompQuiet(ps, h, h', n, s, s');
    }
  }

  lemma CompOnClientAppend(ps: Pledges, h: History, n: NodeId, s: NodeState, command: seq<Byte>, timestamp: nat)
    requires CompNode(ps, h, n, s) && LogNode(h.reigns, n, s) && s.id == n
    requires ReignsGrow(h.reigns, RecallClientAppend(h, s, AppendEntry(s, command, timestamp).0).reigns, n)
    ensures var s' := AppendEntry(s, command, timestamp).0;
            CompActorOk(ps, h, RecallClientAppend(h, s, s'), n, s')
  {
    hide AppendEntry; hide CompNode; hide CompBallot; hide CompReign; hide Anchored; hide ReignsGrow; hide AcksGrow;
    ClientAppendEffect(s, command, timestamp);
    var s' := AppendEntry(s, command, timestamp).0;
    var h' := RecallClientAppend(h, s, s');
    if s.role.Leader? {
      CompClientAppend(ps, h, h', n, s, s');
    } else {
      CompQuiet(ps, h, h', n, s, s');
    }
  }

  ghost predicate Safe(ps: Pledges, c: Cluster) {
    Base(c) && Elect(false, c) && Logs(c) && Complete(ps, c)
  }

  lemma CompActor(ps: Pledges, c: Cluster, e: Event)
    requires Safe(ps, c) && Enabled(c, e) && FairWin(c, e) && Spares(ps, c, e)
    requires ReignsGrow(c.h.reigns, Recall(c.h, c.nodes[e.node], e).reigns, e.node)
    ensures CompActorOk(ps, c.h, Recall(c.h, c.nodes[e.node], e), e.node, NewState(c.nodes[e.node], e))
  {
    hide CompActorOk; hide HandleAppendEntries; hide HandleAppendResponse; hide StartElection;
    hide HandleVoteRequest; hide HandleVoteResponse; hide AppendEntry; hide ApplyCommitted;
    hide RecallVoteReply; hide RecallAppend; hide RecallClientAppend; hide Grants; hide CommitCandidate; hide Cast;
    hide LogShape; hide BatchShape; hide RoleShape; hide ReignLog; hide Anchored; hide ElectNode; hide Elect;
    hide CompNode; hide CompBallot; hide CompReign; hide SparesAt; hide CheckLogConsistency; hide ReignsGrow;
    hide Sent; hide Tally; hide BaseMsg; hide FairWin;
    var n, s, h := e.node, c.nodes[e.node], c.h;
    assert BaseNode(c.size, n, s) && LogNode(h.reigns, n, s) && CompNode(ps, h, n, s);
    match e
    case Timeout(_) => CompTimeout(ps, h, n, s);
    case OnVoteRequest(_, r) => CompOnVoteRequest(ps, h, n, s, r);
    case OnVoteReply(_, voter, r) => CompActorVoteReply(ps, c, n, voter, r);
    case SendAppend(_, _, _) => CompIdle(ps, h, h, n, s, s);
    case OnAppend(_, a) =>
      assert LogMsg(h.reigns, AppendMsg(n, a));
      CompOnAppend(ps, h, n, s, a);
    case OnAppendReply(_, follower, r) => CompOnAppendReply(ps, h, n, s, follower, r);
    case ClientAppend(_, command, timestamp) => CompOnClientAppend(ps, h, n, s, command, timestamp);
    case Apply(_, failAt) => CompOnApply(ps, h, n, s, failAt);
  }

  lemma CompOnAppendReply(ps: Pledges, h: History, n: NodeId, s: NodeState, follower: NodeId, r: AppendResponse)
    requires CompNode(ps, h, n, s)
    ensures CompActorOk(ps, h, h, n, HandleAppendResponse(s, follower, r))
  {
    hide CompNode; hide CompActorOk; hide HandleAppendResponse; hide CommitCandidate;
    AppendReplyEffect(s, follower, r);
    CompIdle(ps, h, h, n, s, HandleAppendResponse(s, follower, r));
  }

  lemma CompOnApply(ps: Pledges, h: History, n: NodeId, s: NodeState, failAt: Option<nat>)
    requires CompNode(ps, h, n, s) && n in h.applied
    ensures CompActorOk(ps, h, Recall(h, s, Apply(n, failAt)), n, ApplyCommitted(s, failAt).state)
  {
    hide CompNode; hide CompActorOk; hide ApplyCommitted;
    ApplyEffect(s, failAt);
    CompIdle(ps, h, Recall(h, s, Apply(n, failAt)), n, s, ApplyCommitted(s, failAt).state);
  }

  lemma CompActorVoteReply(ps: Pledges, c: Cluster, n: NodeId, voter: NodeId, r: VoteResponse)
    requires Safe(ps, c) && Enabled(c, OnVoteReply(n, voter, r)) && FairWin(c, OnVoteReply(n, voter, r))
    requires ReignsGrow(c.h.reigns, RecallVoteReply(c.h, c.nodes[n], voter, r).reigns, n)
    ensures CompActorOk(ps, c.h, RecallVoteReply(c.h, c.nodes[n], voter, r), n, HandleVoteResponse(c.nodes[n], r).0)
  {
    hide CompActorOk; hide HandleVoteResponse; hide RecallVoteReply; hide LogShape; hide BatchShape; hide RoleShape;
    hide ElectNode; hide CompNode; hide CompBallot; hide CompReign; hide BallotOk; hide ReignOk; hide ReignsGrow;
    hide Logs;
    var s, h := c.nodes[n], c.h;
    assert BaseNode(c.size, n, s) && ElectNode(false, h, n, s) && CompNode(ps, h, n, s);
    assert ElectMsg(false, h, VoteReplyMsg(voter, n, r));
    CompOnVoteReply(ps, h, n, s, voter, r);
  }

  lemma CompIdle(ps: Pledges, h: History, h': History, n: NodeId, s: NodeState, s': NodeState)
    requires CompNode(ps, h, n, s) && s'.log == s.log && s'.currentTerm >= s.currentTerm
    requires h'.acks == h.acks && h'.reigns == h.reigns && h'.ballots == h.ballots
    ensures CompActorOk(ps, h, h', n, s')
  {
    hide CompNode; hide AcksGrow; hide CompBallot; hide CompReign;
    ReignsStay(h.reigns, n);
    CompQuiet(ps, h, h', n, s, s');
  }

  lemma CompOther(ps: Pledges, h: History, h': History, n: NodeId, t: Term, m: NodeId, s: NodeState)
    requires CompNode(ps, h, m, s) && m != n && ReignsGrow(h.reigns, h'.reigns, n) && AcksGrow(h, h', n, t)
    ensures CompNode(ps, h', m, s)
  {
    hide Retained;
    PledgesGrow(ps, h, h', n, t, m, s.log, s.currentTerm + 1, s.currentTerm, s.currentTerm);
  }

  lemma CompBallotGrows(ps: Pledges, h: History, h': History, n: NodeId, t: Term, k: Slot)
    requires k in h.ballots && CompBallot(ps, h, k) && k in h'.ballots && h'.ballots[k] == h.ballots[k]
    requires ReignsGrow(h.reigns, h'.reigns, n) && AcksGrow(h, h', n, t) && (k.node == n ==> k.term <= t)
    ensures CompBallot(ps, h', k)
  {
    hide ReignsGrow; hide KeepsPledges; hide AcksGrow; hide Anchored; hide LogShape;
    PledgesGrow(ps, h, h', n, t, k.node, h.ballots[k].log, k.term, k.term, k.term);
    AnchoredGrows(h.reigns, h'.reigns, n, h.ballots[k].log);
  }

  lemma CompReignGrows(ps: Pledges, h: History, h': History, n: NodeId, t: Term, u: Term)
    requires u in h.reigns && CompReign(ps, h, u) && Grows(h, h', n)
    requires ReignsGrow(h.reigns, h'.reigns, n) && AcksGrow(h, h', n, t) && (Slot(n, u) in h.ballots ==> u <= t)
    ensures u in h'.reigns && CompReign(ps, h', u)
  {
    hide KeepsPledges; hide AcksGrow;
    forall v | v in h'.reigns[u].voters
      ensures Slot(v, u) in h'.ballots && KeepsPledges(ps, h', v, h'.ballots[Slot(v, u)].log, u, u - 1)
    {
      PledgesGrow(ps, h, h', n, t, v, h.ballots[Slot(v, u)].log, u, u - 1, u - 1);
    }
  }

  lemma CompAssemble(ps: Pledges, c: Cluster, n: NodeId, s': NodeState, sent: set<Message>, h': History)
    requires Complete(ps, c) && n in c.nodes && CompActorOk(ps, c.h, h', n, s') && Grows(c.h, h', n)
    requires ReignsGrow(c.h.reigns, h'.reigns, n)
    requires forall k | k in c.h.ballots && k.node == n :: k.term <= s'.currentTerm
    ensures Complete(ps, Cluster(c.size, c.nodes[n := s'], c.net + sent, h'))
  {
    hide CompNode; hide CompBallot; hide CompReign; hide ReignsGrow; hide AcksGrow;
    var c' := Cluster(c.size, c.nodes[n := s'], c.net + sent, h');
    forall m | m in c'.nodes ensures CompNode(ps, h', m, c'.nodes[m]) {
      if m != n { CompOther(ps, c.h, h', n, s'.currentTerm, m, c.nodes[m]); }
    }
    forall k | k in h'.ballots ensures CompBallot(ps, h', k) {
      if k in c.h.ballots { CompBallotGrows(ps, c.h, h', n, s'.currentTerm, k); }
    }
    forall u | u in h'.reigns ensures CompReign(ps, h', u) {
      if u in c.h.reigns { CompReignGrows(ps, c.h, h', n, s'.currentTerm, u); }
    }
  }

  lemma BallotsBounded(c: Cluster, e: Event)
    requires Base(c) && Elect(false, c) && Enabled(c, e)
    ensures forall k | k in c.h.ballots && k.node == e.node :: k.term <= NewState(c.nodes[e.node], e).currentTerm
  {
    hide NewState; hide BallotOk; hide ReignOk; hide LogShape; hide BatchShape; hide ElectMsg;
    BaseNodeStep(c.size, e.node, c.nodes[e.node], e, c.net);
    assert ElectNode(false, c.h, e.node, c.nodes[e.node]);
  }

  lemma SafeStep(ps: Pledges, c: Cluster, e: Event)
    requires Safe(ps, c) && Enabled(c, e) && FairWin(c, e) && Spares(ps, c, e)
    ensures Safe(ps, Next(c, e)) && Grows(c.h, Next(c, e).h, e.node) && FreshWin(c, e)
    ensures ReignsGrow(c.h.reigns, Next(c, e).h.reigns, e.node)
    ensures AcksGrow(c.h, Next(c, e).h, e.node, Next(c, e).nodes[e.node].currentTerm)
  {
    hide NewState; hide Sent; hide Recall; hide Elect; hide Base; hide Logs; hide Complete; hide ReignsGrow; hide Grows;
    hide CompNode; hide AcksGrow; hide CompBallot; hide CompReign; hide FairWin; hide Spares; hide FreshWin;
    BaseStep(c, e);
    ElectStep(false, c, e);
    LogStep(c, e);
    CompActor(ps, c, e);
    BallotsBounded(c, e);
    var s := c.nodes[e.node];
    CompAssemble(ps, c, e.node, NewState(s, e), Sent(s, e), Recall(c.h, s, e));
  }

  // ----- whole runs -----

  /** No member of a pledge that confirmed it ever accepts a batch that cuts it off without a conflict. */
  ghost predicate Kept(ps: Pledges, r: Run)
    requires IsRun(r)
  {
    forall k: nat {:trigger StepAt(r, k)} | k < |r.events| :: StepAt(r, k) && Spares(ps, r.states[k], r.events[k])
  }

  lemma LogsInit(c: Cluster)
    requires Init(c)
    ensures Logs(c)
  {
  }

  lemma CompleteInit(ps: Pledges, c: Cluster)
    requires Init(c)
    ensures Complete(ps, c)
  {
  }

  lemma {:induction false} SafeHolds(ps: Pledges, r: Run, k: nat)
    requires IsRun(r) && FairlyWon(r) && Kept(ps, r) && k <= |r.events|
    ensures Safe(ps, r.states[k])
  {
    hide Next; hide Base; hide Elect; hide Logs; hide Complete; hide FairWin; hide Spares; hide Enabled; hide Init;
    if k == 0 {
      BaseHolds(r, 0);
      ElectInit(false, r.states[0]);
      LogsInit(r.states[0]);
      CompleteInit(ps, r.states[0]);
    } else {
      SafeHolds(ps, r, k - 1);
      assert StepAt(r, k - 1);
      SafeStep(ps, r.states[k - 1], r.events[k - 1]);
    }
  }

  /** What later states keep of the history: elections, confirmed lengths and leaders' entries. */
  ghost predicate Extends(c: Cluster, c': Cluster) {
    && c'.nodes.Keys == c.nodes.Keys && c'.size == c.size
    && (forall t | t in c.h.reigns :: t in c'.h.reigns && c.h.reigns[t].log <= c'.h.reigns[t].log
                                      && SameElection(c.h.reigns[t], c'.h.reigns[t]))
    && (forall k | k in c.h.acks :: k in c'.h.acks && c.h.acks[k] <= c'.h.acks[k])
  }

  lemma {:induction false} HistoryExtends(r: Run, j: nat, k: nat)
    requires IsRun(r) && FairlyWon(r) && j <= k <= |r.events|
    ensures Extends(r.states[j], r.states[k])
  {
    hide Next; hide Safe; hide FairWin; hide Spares; hide Kept; hide Enabled; hide Init; hide Extends;
    if j < k {
      NothingPledged(r);
      HistoryExtends(r, j, k - 1);
      SafeHolds({}, r, k - 1);
      var c, e := r.states[k - 1], r.events[k - 1];
      assert StepAt(r, k - 1);
      SafeExtends(c, e);
      ExtendsTrans(r.states[j], c, Next(c, e));
    } else {
      ExtendsSelf(r.states[j]);
    }
  }

  lemma NothingToSpare(c: Cluster, e: Event)
    requires Enabled(c, e)
    ensures Spares({}, c, e)
  {
  }

  lemma NothingPledged(r: Run)
    requires IsRun(r)
    ensures Kept({}, r)
  {
    hide Next; hide Init; hide Enabled;
    forall k: nat | k < |r.events| ensures StepAt(r, k) && Spares({}, r.states[k], r.events[k]) {
      assert StepAt(r, k);
      NothingToSpare(r.states[k], r.events[k]);
    }
  }

  lemma ExtendsStep(c: Cluster, e: Event)
    requires Enabled(c, e) && ReignsGrow(c.h.reigns, Next(c, e).h.reigns, e.node)
    requires AcksGrow(c.h, Next(c, e).h, e.node, Next(c, e).nodes[e.node].currentTerm)
    ensures Extends(c, Next(c, e))
  {
    hide NewState; hide Sent; hide Recall;
    assert Next(c, e).nodes.Keys == c.nodes.Keys;
  }

  lemma SafeExtends(c: Cluster, e: Event)
    requires Safe({}, c) && Enabled(c, e) && FairWin(c, e)
    ensures Extends(c, Next(c, e))
  {
    hide NewState; hide Sent; hide Recall; hide Safe; hide FairWin; hide Spares; hide Grows; hide FreshWin;
    hide ReignsGrow; hide AcksGrow; hide Extends;
    NothingToSpare(c, e);
    SafeStep({}, c, e);
    ExtendsStep(c, e);
  }

  lemma ExtendsSelf(c: Cluster)
    ensures Extends(c, c)
  {
  }

  lemma ExtendsTrans(a: Cluster, b: Cluster, c: Cluster)
    requires Extends(a, b) && Extends(b, c)
    ensures Extends(a, c)
  {
  }

  lemma ChosenStays(c: Cluster, c': Cluster, p: Pledge)
    requires Chosen(c, p) && Extends(c, c')
    ensures p.term in c.h.reigns && p.term in c'.h.reigns && c.h.reigns[p.term].log <= c'.h.reigns[p.term].log
    ensures Chosen(c', p) && c'.h.reigns[p.term].log[..p.length] == c.h.reigns[p.term].log[..p.length]
  {
  }

  /**
   Leader Completeness: once the members of a majority confirmed entry `p.length` of
   term `p.term` in that term, whoever leads a later term, at any moment of the run,
   holds the log up to it. Only those members, and only after they confirmed, must not
   let a batch that does not conflict with their log cut it below that entry; what
   other nodes accept does not matter.
   */
  lemma LeaderCompleteness(r: Run, j: nat, k: nat, p: Pledge, n: NodeId)
    requires IsRun(r) && FairlyWon(r) && Kept({p}, r) && j <= |r.events| && k <= |r.events| && Chosen(r.states[j], p)
    requires n in r.states[k].nodes
    requires r.states[k].nodes[n].role.Leader? && r.states[k].nodes[n].currentTerm > p.term
    ensures r.states[j].h.reigns[p.term].log[..p.length] <= r.states[k].nodes[n].log
  {
    hide Next; hide FairlyWon; hide Kept; hide Enabled; hide Init; hide StepAt;
    hide ElectNode; hide CompNode; hide CompBallot; hide CompReign; hide ElectMsg; hide BallotOk; hide ReignOk;
    hide Anchored; hide Base; hide Elect; hide Complete; hide Chosen;
    var end, u, ps := |r.events|, r.states[k].nodes[n].currentTerm, {p};
    SafeHolds(ps, r, k);
    SafeHolds(ps, r, end);
    HistoryExtends(r, j, end);
    HistoryExtends(r, k, end);
    var now, last := r.states[k], r.states[end];
    assert LogNode(now.h.reigns, n, now.nodes[n]);
    ChosenStays(r.states[j], last, p);
    SizeBound(last);
    LeaderCompletenessIn(ps, last, p, u);
    assert ReignLog(now.h.reigns, u);
  }

  lemma SizeBound(c: Cluster)
    requires Base(c)
    ensures |c.nodes| <= c.size
  {
  }
}
