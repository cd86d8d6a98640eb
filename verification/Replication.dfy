/**
 One leader and one follower exchanging AppendEntries: the log repair converges, and
 what the leader records afterwards is what the follower holds.
 */
module Replication {
  import opened RaftTypes
  import opened RaftLog
  import opened CommitRule
  import opened Handlers
  import opened BaseInvariants
  import opened Effects
  import opened LogMatching

  /** A leader and a follower whose logs grew out of the same reigns; the follower's term is not higher. */
  ghost predicate Linked(reigns: Reigns, l: NodeState, f: NodeState) {
    && l.role.Leader? && l.maxEntries >= 1 && l.id != f.id && f.currentTerm <= l.currentTerm
    && LogShape(l.log, l.currentTerm) && LogShape(f.log, f.currentTerm)
    && Anchored(reigns, l.log) && Anchored(reigns, f.log)
  }

  ghost predicate InRange(l: NodeState, f: NodeState) {
    NextIndexOf(l, f.id) <= |l.log| + 1
  }

  /** The batch the leader sends to the follower next. */
  function Batch(l: NodeState, f: NodeState, requestId: nat): (a: AppendRequest)
    requires l.role.Leader? && PrevIndexOf(l, f.id) <= |l.log|
    ensures CreateAppendEntries(l, f.id, requestId) == Ok(a)
  {
    CreateAppendEntries(l, f.id, requestId).value
  }

  lemma BatchIsSegment(l: NodeState, f: NodeState, requestId: nat)
    requires l.role.Leader? && PrevIndexOf(l, f.id) <= |l.log|
    ensures var a := Batch(l, f, requestId);
            && a.term == l.currentTerm && a.prevLogIndex == PrevIndexOf(l, f.id)
            && a.prevLogIndex + |a.entries| <= |l.log|
            && a.entries == l.log[a.prevLogIndex..a.prevLogIndex + |a.entries|]
            && (a.prevLogIndex > 0 ==> a.prevLogTerm == l.log[a.prevLogIndex - 1].term)
            && (l.maxEntries >= 1 && a.entries == [] ==> a.prevLogIndex == |l.log|)
            && a.leaderCommit == l.commitIndex
  {
    var prev := PrevIndexOf(l, f.id);
    var tail := GetEntriesFrom(l.log, prev + 1);
    assert tail == l.log[prev..];
    var k := Min(l.maxEntries, |tail|);
    assert tail[..k] == l.log[prev..prev + k];
  }

  // ----- commit clamp -----

  /**
   The follower clamps the leader's commit index to its log length; Figure 2 of the Raft
   paper clamps it to the index of the last new entry. The two agree exactly when the
   batch carries entries, or the heartbeat's commit index or the log ends at its index.
   */
  lemma ClampIsPaperRuleIff(f: NodeState, a: AppendRequest)
    requires Accepts(f, a)
    ensures Min(a.leaderCommit, |LogAfter(f, a)|) == Min(a.leaderCommit, a.prevLogIndex + |a.entries|)
            <==> a.entries != [] || a.leaderCommit <= a.prevLogIndex || |f.log| == a.prevLogIndex
  {
    if a.entries != [] {
      assert |LogAfter(f, a)| == a.prevLogIndex + |a.entries|;
    }
  }

  /** Every batch a leader creates meets that condition. */
  lemma ClampIsPaperRule(l: NodeState, f: NodeState, requestId: nat)
    requires l.role.Leader? && l.maxEntries >= 1 && l.commitIndex <= |l.log| && PrevIndexOf(l, f.id) <= |l.log|
    requires Accepts(f, Batch(l, f, requestId))
    ensures var a := Batch(l, f, requestId);
            Min(a.leaderCommit, |LogAfter(f, a)|) == Min(a.leaderCommit, a.prevLogIndex + |a.entries|)
  {
    BatchIsSegment(l, f, requestId);
    ClampIsPaperRuleIff(f, Batch(l, f, requestId));
  }

  // ----- one round -----

  datatype Pair = Pair(leader: NodeState, follower: NodeState)

  /** Create a batch, let the follower handle it, let the leader handle the answer. */
  ghost function Round(p: Pair, requestId: nat): Pair {
    match CreateAppendEntries(p.leader, p.follower.id, requestId)
    case Err(_) => p
    case Ok(a) =>
      var (f', r) := HandleAppendEntries(p.follower, a);
      Pair(HandleAppendResponse(p.leader, p.follower.id, r), f')
  }

  /** The logs agree up to the entry before the leader's next batch. */
  ghost predicate Matched(l: NodeState, f: NodeState) {
    var prev := PrevIndexOf(l, f.id);
    prev <= |l.log| && prev <= |f.log| && f.log[..prev] == l.log[..prev]
  }

  lemma AcceptsIffMatched(reigns: Reigns, l: NodeState, f: NodeState, requestId: nat)
    requires Linked(reigns, l, f) && InRange(l, f)
    ensures Accepts(f, Batch(l, f, requestId)) <==> Matched(l, f)
  {
    hide LogShape; hide Anchored;
    BatchIsSegment(l, f, requestId);
    var a := Batch(l, f, requestId);
    var prev := a.prevLogIndex;
    if prev > 0 && prev <= |f.log| {
      if f.log[prev - 1].term == l.log[prev - 1].term {
        AnchoredLogsMatch(reigns, f.log, l.log, prev - 1);
      }
    }
  }

  /** Leader fields that a same-term answer leaves alone. */
  ghost predicate SameLeader(l: NodeState, l': NodeState) {
    && l'.id == l.id && l'.role == l.role && l'.currentTerm == l.currentTerm && l'.log == l.log
    && l'.maxEntries == l.maxEntries
  }

  lemma LeaderAfterSuccess(l: NodeState, follower: NodeId, r: AppendResponse, last: nat)
    requires l.role.Leader? && r.term == l.currentTerm && r.success && r.lastLogIndex == Some(last)
    ensures var l' := HandleAppendResponse(l, follower, r);
            && SameLeader(l, l') && NextIndexOf(l', follower) == last + 1
            && follower in l'.matchIndex && l'.matchIndex[follower] == last
            && forall g | g != follower && g in l.matchIndex ::
                 g in l'.matchIndex && l'.matchIndex[g] == l.matchIndex[g]
  {
    hide CommitCandidate;
  }

  /**
   A non-empty accepted batch leaves the follower with the leader's first
   `prevLogIndex + |entries|` entries, and the leader records exactly that length as
   the follower's match and one more as its next index.
   */
  lemma AcceptedBatchIsRecorded(reigns: Reigns, p: Pair, requestId: nat)
    requires Linked(reigns, p.leader, p.follower) && InRange(p.leader, p.follower)
    requires Matched(p.leader, p.follower) && PrevIndexOf(p.leader, p.follower.id) < |p.leader.log|
    ensures var a, q, f := Batch(p.leader, p.follower, requestId), Round(p, requestId), p.follower.id;
            var k := a.prevLogIndex + |a.entries|;
            && a.entries != [] && k <= |p.leader.log| && q.follower.log == p.leader.log[..k]
            && f in q.leader.matchIndex && q.leader.matchIndex[f] == k && NextIndexOf(q.leader, f) == k + 1
            && SameLeader(p.leader, q.leader)
            && q.follower.id == f && q.follower.currentTerm == p.leader.currentTerm
  {
    hide HandleAppendEntries; hide HandleAppendResponse; hide CommitCandidate; hide Anchored; hide CreateAppendEntries;
    hide CheckLogConsistency; hide NextIndexOf;
    var l, f := p.leader, p.follower;
    var a := Batch(l, f, requestId);
    BatchIsSegment(l, f, requestId);
    AcceptsIffMatched(reigns, l, f, requestId);
    AppendEffect(f, a);
    var (f', r) := HandleAppendEntries(f, a);
    var k := a.prevLogIndex + |a.entries|;
    assert l.log[..k] == l.log[..a.prevLogIndex] + l.log[a.prevLogIndex..k];
    assert LastLogInfo(f'.log).0 == k;
    IdStays(f, a);
    LeaderAfterSuccess(l, f.id, r, k);
  }

  lemma IdStays(f: NodeState, a: AppendRequest)
    ensures HandleAppendEntries(f, a).0.id == f.id
  {
  }

  // ----- fast backoff -----

  /** The next index a leader with this log derives from a conflict report. */
  function Backoff(log: Log, conflictIndex: nat, conflictTerm: Option<Term>): nat {
    match conflictTerm
    case Some(t) => if LastOfTerm(log, t) > 0 then LastOfTerm(log, t) + 1 else conflictIndex
    case None => conflictIndex
  }

  lemma OneLogPerTerm(reigns: Reigns, a: Log, b: Log, i: nat, j: nat)
    requires Anchored(reigns, a) && Anchored(reigns, b) && i <= j < |a| && i < |b| && a[j].term == b[i].term
    ensures a[i] == b[i]
  {
    assert AnchoredAt(reigns, a, j) && AnchoredAt(reigns, b, i);
    var log := reigns[b[i].term].log;
    assert a[..j + 1][i] == log[..j + 1][i];
    assert b[..i + 1][i] == log[..i + 1][i];
  }

  /**
   Each rejection strictly lowers the next index: the follower's log is short, or it
   holds a term the leader never had, or one the leader left earlier.
   */
  lemma BackoffLowers(reigns: Reigns, leader: Log, follower: Log, prev: nat, bound: Term)
    requires Anchored(reigns, leader) && Anchored(reigns, follower) && LogShape(leader, bound)
    requires LogShape(follower, bound)
    requires 1 <= prev <= |leader| && !CheckLogConsistency(follower, prev, leader[prev - 1].term)
    ensures var (ci, ct) := FindConflictInfo(follower, prev);
            Backoff(leader, ci, ct) <= prev
  {
    if prev <= |follower| {
      var t := follower[prev - 1].term;
      var last := LastOfTerm(leader, t);
      if last > prev {
        // the leader of `t` built one log: the follower has it up to `prev`, the leader further
        OneLogPerTerm(reigns, leader, follower, prev - 1, last - 1);
      }
    }
  }

  lemma LeaderAfterConflict(l: NodeState, follower: NodeId, r: AppendResponse, ci: nat)
    requires l.role.Leader? && r.term == l.currentTerm && !r.success && r.conflictIndex == Some(ci)
    ensures var l' := HandleAppendResponse(l, follower, r);
            SameLeader(l, l') && NextIndexOf(l', follower) == Backoff(l.log, ci, r.conflictTerm)
  {
  }

  lemma ConflictReport(f: NodeState, a: AppendRequest)
    requires a.term >= f.currentTerm && !Accepts(f, a)
    ensures var (f', r) := HandleAppendEntries(f, a);
            && f'.id == f.id && f'.log == f.log && f'.currentTerm == a.term
            && r.term == a.term && !r.success
            && r.conflictIndex == Some(FindConflictInfo(f.log, a.prevLogIndex).0)
            && r.conflictTerm == FindConflictInfo(f.log, a.prevLogIndex).1
  {
    hide FindConflictInfo; hide LastLogInfo;
  }

  lemma RejectionLowersNext(reigns: Reigns, p: Pair, requestId: nat)
    requires Linked(reigns, p.leader, p.follower) && InRange(p.leader, p.follower) && !Matched(p.leader, p.follower)
    ensures var q := Round(p, requestId);
            && NextIndexOf(q.leader, p.follower.id) < NextIndexOf(p.leader, p.follower.id)
            && SameLeader(p.leader, q.leader)
            && q.follower.id == p.follower.id && q.follower.log == p.follower.log
            && q.follower.currentTerm == p.leader.currentTerm
  {
    hide HandleAppendEntries; hide HandleAppendResponse; hide Anchored; hide CreateAppendEntries; hide LogShape;
    hide CheckLogConsistency; hide FindConflictInfo; hide Backoff;
    var l, f := p.leader, p.follower;
    var a := Batch(l, f, requestId);
    BatchIsSegment(l, f, requestId);
    AcceptsIffMatched(reigns, l, f, requestId);
    assert a.prevLogIndex > 0;
    ConflictReport(f, a);
    ShapeWeakens(f.log, f.currentTerm, l.currentTerm);
    BackoffLowers(reigns, l.log, f.log, a.prevLogIndex, l.currentTerm);
    var (f', r) := HandleAppendEntries(f, a);
    LeaderAfterConflict(l, f.id, r, FindConflictInfo(f.log, a.prevLogIndex).0);
  }

  lemma ShapeWeakens(log: Log, bound: Term, bound': Term)
    requires LogShape(log, bound) && bound <= bound'
    ensures LogShape(log, bound')
  {
  }

  // ----- catch-up -----

  /** `k` rounds, with request ids counting up from `id`. */
  ghost function Rounds(p: Pair, id: nat, k: nat): Pair
    decreases k
  {
    if k == 0 then p else Rounds(Round(p, id), id + 1, k - 1)
  }

  lemma LinkedAfterAccept(reigns: Reigns, p: Pair, requestId: nat)
    requires Linked(reigns, p.leader, p.follower) && InRange(p.leader, p.follower)
    requires Matched(p.leader, p.follower) && PrevIndexOf(p.leader, p.follower.id) < |p.leader.log|
    ensures var q := Round(p, requestId);
            && Linked(reigns, q.leader, q.follower) && InRange(q.leader, q.follower) && Matched(q.leader, q.follower)
            && SameLeader(p.leader, q.leader) && q.follower.id == p.follower.id
            && PrevIndexOf(p.leader, p.follower.id) < PrevIndexOf(q.leader, p.follower.id)
  {
    hide Anchored; hide Round; hide CreateAppendEntries;
    AcceptedBatchIsRecorded(reigns, p, requestId);
    var a := Batch(p.leader, p.follower, requestId);
    BatchIsSegment(p.leader, p.follower, requestId);
    AnchoredPrefix(reigns, p.leader.log, a.prevLogIndex + |a.entries|);
  }

  /** Once the logs match before the batch, each round extends the match to the end. */
  lemma {:induction false} CatchUpFromMatch(reigns: Reigns, p: Pair, id: nat) returns (k: nat)
    requires Linked(reigns, p.leader, p.follower) && InRange(p.leader, p.follower) && Matched(p.leader, p.follower)
    ensures k <= |p.leader.log| - PrevIndexOf(p.leader, p.follower.id)
    ensures Rounds(p, id, k).leader.log == p.leader.log && p.leader.log <= Rounds(p, id, k).follower.log
    decreases |p.leader.log| - PrevIndexOf(p.leader, p.follower.id)
  {
    hide Round; hide Linked;
    if PrevIndexOf(p.leader, p.follower.id) == |p.leader.log| {
      k := 0;
      assert p.leader.log[..|p.leader.log|] == p.leader.log;
    } else {
      LinkedAfterAccept(reigns, p, id);
      var rest := CatchUpFromMatch(reigns, Round(p, id), id + 1);
      k := rest + 1;
    }
  }

  /**
   Catch-up terminates: repeating the exchange between a fixed leader and a follower
   whose term is not higher reaches a follower log that extends the leader's, within
   `next_index + log length` rounds.
   */
  lemma {:induction false} CatchUp(reigns: Reigns, p: Pair, id: nat) returns (k: nat)
    requires Linked(reigns, p.leader, p.follower) && InRange(p.leader, p.follower)
    ensures k <= NextIndexOf(p.leader, p.follower.id) + |p.leader.log|
    ensures Rounds(p, id, k).leader.log == p.leader.log && p.leader.log <= Rounds(p, id, k).follower.log
    decreases NextIndexOf(p.leader, p.follower.id)
  {
    hide Round; hide LogShape; hide Anchored;
    if Matched(p.leader, p.follower) {
      k := CatchUpFromMatch(reigns, p, id);
    } else {
      RejectionLowersNext(reigns, p, id);
      ShapeWeakens(p.follower.log, p.follower.currentTerm, p.leader.currentTerm);
      var rest := CatchUp(reigns, Round(p, id), id + 1);
      k := rest + 1;
    }
  }

  /** A reply of an older term is taken exactly as one of the current term; only a newer term makes a difference. */
  lemma OlderReplyCountsIff(l: NodeState, follower: NodeId, r: AppendResponse)
    requires l.role.Leader?
    ensures HandleAppendResponse(l, follower, r) == HandleAppendResponse(l, follower, r.(term := l.currentTerm))
            <==> r.term <= l.currentTerm
  {
    hide CommitCandidate; hide LastOfTerm;
    if r.term > l.currentTerm {
      AppendReplyEffect(l, follower, r);
      AppendReplyEffect(l, follower, r.(term := l.currentTerm));
    }
  }

  /**
   After a success reply the leader can build the next batch exactly when the reported
   length is within its own log; a longer stale tail reported by a heartbeat stalls it.
   */
  lemma NextBatchExistsIff(l: NodeState, follower: NodeId, r: AppendResponse, last: nat, requestId: nat)
    requires l.role.Leader? && r.term == l.currentTerm && r.success && r.lastLogIndex == Some(last)
    ensures CreateAppendEntries(HandleAppendResponse(l, follower, r), follower, requestId).Ok? <==> last <= |l.log|
  {
    hide HandleAppendResponse;
    LeaderAfterSuccess(l, follower, r, last);
  }

  /**
   A follower's success report is its true match with the leader exactly when the batch
   carried entries or the follower's log ended at the heartbeat's index.
   */
  lemma ReportIsTrueMatchIff(f: NodeState, a: AppendRequest, bound: Term)
    requires Accepts(f, a) && LogShape(LogAfter(f, a), bound)
    ensures HandleAppendEntries(f, a).1.lastLogIndex == Some(a.prevLogIndex + |a.entries|)
            <==> a.entries != [] || |f.log| == a.prevLogIndex
  {
    hide HandleAppendEntries;
    AppendEffect(f, a);
  }
}
