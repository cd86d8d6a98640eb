/**
 What the conflict report is for: a rejected batch takes the leader back past a whole
 term of the follower's log, not one entry, so rejections are no more than the terms in it.
 */
module FastBackoff {
  import opened RaftTypes
  import opened RaftLog
  import opened Handlers
  import opened HandlerLaws
  import opened BaseInvariants
  import opened LogMatching
  import opened CommitRule
  import opened Replication

  /** The terms of the first `n` entries. */
  ghost function Terms(log: Log, n: nat): set<Term>
    requires n <= |log|
  {
    set i | 0 <= i < n :: log[i].term
  }

  /** The terms of the follower's log before the next batch, and one more if the batch starts beyond its log. */
  ghost function Blocks(p: Pair): nat {
    var prev, log := PrevIndexOf(p.leader, p.follower.id), p.follower.log;
    if prev > |log| then |Terms(log, |log|)| + 1 else |Terms(log, prev)|
  }

  lemma FewerTerms(log: Log, m: nat, n: nat)
    requires m <= n <= |log|
    ensures |Terms(log, m)| <= |Terms(log, n)|
    ensures n > 0 && log[n - 1].term !in Terms(log, m) ==> |Terms(log, m)| < |Terms(log, n)|
  {
    var a, b := Terms(log, m), Terms(log, n);
    SubsetCardinality(a, b);
    if n > 0 && log[n - 1].term !in a {
      assert a + {log[n - 1].term} <= b;
      SubsetCardinality(a + {log[n - 1].term}, b);
    }
  }

  /** The batch before which a rejection leaves the leader. */
  lemma NextStart(reigns: Reigns, p: Pair, id: nat)
    requires Linked(reigns, p.leader, p.follower) && InRange(p.leader, p.follower) && !Matched(p.leader, p.follower)
    ensures var q, prev, log := Round(p, id), PrevIndexOf(p.leader, p.follower.id), p.follower.log;
            var prev' := PrevIndexOf(q.leader, p.follower.id);
            && 0 < prev && prev' < prev && q.follower.log == log && q.follower.id == p.follower.id
            && q.leader.log == p.leader.log
            && (prev > |log| ==> prev' == if |log| == 0 then 0 else |log| - 1)
            && (prev <= |log| ==>
                  var t := log[prev - 1].term;
                  || (LastOfTerm(p.leader.log, t) > 0 && prev' == LastOfTerm(p.leader.log, t))
                  || (LastOfTerm(p.leader.log, t) == 0 && forall i | 0 <= i < prev' :: log[i].term != t))
  {
    hide HandleAppendEntries; hide HandleAppendResponse; hide Anchored; hide CreateAppendEntries; hide LogShape;
    hide CheckLogConsistency; hide LastLogInfo;
    var l, f := p.leader, p.follower;
    var a := Batch(l, f, id);
    BatchIsSegment(l, f, id);
    AcceptsIffMatched(reigns, l, f, id);
    RejectionLowersNext(reigns, p, id);
    ConflictReport(f, a);
    var (f', r) := HandleAppendEntries(f, a);
    LeaderAfterConflict(l, f.id, r, FindConflictInfo(f.log, a.prevLogIndex).0);
    ConflictLaw(f, a);
  }

  /**
   A rejection for a term the leader lacks takes it before all entries of that term; in
   general the logs match then, or fewer terms of the follower's log are left to try.
   */
  lemma RejectionSkipsTerm(reigns: Reigns, p: Pair, id: nat)
    requires Linked(reigns, p.leader, p.follower) && InRange(p.leader, p.follower) && !Matched(p.leader, p.follower)
    ensures var q, prev, log := Round(p, id), PrevIndexOf(p.leader, p.follower.id), p.follower.log;
            && (0 < prev <= |log|
                && (forall i | 0 <= i < |p.leader.log| :: p.leader.log[i].term != log[prev - 1].term) ==>
                  forall i | 0 <= i < PrevIndexOf(q.leader, p.follower.id) :: log[i].term != log[prev - 1].term)
            && Blocks(p) > 0 && (Matched(q.leader, q.follower) || Blocks(q) < Blocks(p))
  {
    hide Round; hide Anchored;
    NextStart(reigns, p, id);
    var q, prev, log, leader := Round(p, id), PrevIndexOf(p.leader, p.follower.id), p.follower.log, p.leader.log;
    var prev' := PrevIndexOf(q.leader, p.follower.id);
    if prev > |log| {
      FewerTerms(log, prev', |log|);
    } else {
      var t := log[prev - 1].term;
      assert t in Terms(log, prev);
      FewerTerms(log, prev', prev);
      if prev' > 0 && LastOfTerm(leader, t) == prev' {
        if log[prev' - 1].term == t {
          AnchoredLogsMatch(reigns, leader, log, prev' - 1);
        } else {
          assert forall i | 0 <= i < prev' :: log[i].term <= log[prev' - 1].term < t;
        }
      }
    }
  }

  /**
   Fast backoff: a leader finds where a follower's log matches its own after at most as many
   rejected rounds as there are different terms in that log, and one more.
   */
  lemma {:induction false} MatchWithinTerms(reigns: Reigns, p: Pair, id: nat) returns (k: nat)
    requires Linked(reigns, p.leader, p.follower) && InRange(p.leader, p.follower)
    ensures k <= Blocks(p) && k <= |Terms(p.follower.log, |p.follower.log|)| + 1
    ensures var q := Rounds(p, id, k);
            && Matched(q.leader, q.follower) && q.leader.log == p.leader.log && q.follower.log == p.follower.log
            && q.follower.id == p.follower.id
    decreases Blocks(p)
  {
    hide Round; hide LogShape; hide Anchored; hide Blocks; hide Matched;
    k := 0;
    if !Matched(p.leader, p.follower) {
      RejectionLowersNext(reigns, p, id);
      RejectionSkipsTerm(reigns, p, id);
      ShapeWeakens(p.follower.log, p.follower.currentTerm, p.leader.currentTerm);
      var q := Round(p, id);
      if Matched(q.leader, q.follower) {
        k := 1;
        assert Rounds(q, id + 1, 0) == q;
      } else {
        var rest := MatchWithinTerms(reigns, q, id + 1);
        k := rest + 1;
      }
    }
    BlocksBound(p);
  }

  lemma BlocksBound(p: Pair)
    ensures Blocks(p) <= |Terms(p.follower.log, |p.follower.log|)| + 1
  {
    var prev, log := PrevIndexOf(p.leader, p.follower.id), p.follower.log;
    if prev <= |log| { FewerTerms(log, prev, |log|); }
  }
}
