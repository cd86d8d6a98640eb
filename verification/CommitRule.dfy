/**
 The commit rule as an order statistic over the indices a leader has recorded:
 one per follower that ever answered, and the leader's own log length.
 */
module CommitRule {
  import opened RaftTypes

  function Supporters(matches: map<NodeId, nat>, v: nat): set<NodeId> {
    set f | f in matches && matches[f] >= v
  }

  /** How many of the recorded indices are at least `v`. */
  function Support(matches: map<NodeId, nat>, own: nat, v: nat): nat {
    |Supporters(matches, v)| + (if own >= v then 1 else 0)
  }

  function Recorded(matches: map<NodeId, nat>): nat {
    |matches| + 1
  }

  /** How many recorded indices lie at or above the middle of their sorted list. */
  function UpperHalf(n: nat): nat {
    n - n / 2
  }

  /** `v` is the largest index supported by the upper half of the record. */
  ghost predicate IsCommitCandidate(matches: map<NodeId, nat>, own: nat, v: nat) {
    && Support(matches, own, v) >= UpperHalf(Recorded(matches))
    && forall w: nat :: w > v ==> Support(matches, own, w) < UpperHalf(Recorded(matches))
  }

  lemma SubsetCardinality<T>(a: set<T>, b: set<T>)
    requires a <= b
    ensures |a| <= |b|
  {
    assert b == a + (b - a);
  }

  /** At most one index is the commit candidate. */
  lemma CandidateIsUnique(matches: map<NodeId, nat>, own: nat, v: nat, w: nat)
    requires IsCommitCandidate(matches, own, v) && IsCommitCandidate(matches, own, w)
    ensures v == w
  {
  }

  ghost function Bound(matches: map<NodeId, nat>, own: nat): (b: nat)
    ensures own <= b && forall f | f in matches :: matches[f] <= b
  {
    if matches == map[] then own
    else
      var f :| f in matches;
      var rest := matches - {f};
      var b := Max(matches[f], Bound(rest, own));
      assert forall g | g in matches :: g == f || g in rest;
      b
  }

  lemma CandidateExists(matches: map<NodeId, nat>, own: nat)
    ensures exists v: nat :: IsCommitCandidate(matches, own, v)
  {
    assert Supporters(matches, 0) == matches.Keys;
    var b := Bound(matches, own);
    forall w: nat | w > b
      ensures Support(matches, own, w) < UpperHalf(Recorded(matches))
    {
      assert Supporters(matches, w) == {};
    }
    var v := b;
    while Support(matches, own, v) < UpperHalf(Recorded(matches))
      decreases v
      invariant forall w: nat | w > v :: Support(matches, own, w) < UpperHalf(Recorded(matches))
    {
      assert v > 0;
      v := v - 1;
    }
    assert IsCommitCandidate(matches, own, v);
  }

  /** The middle of the sorted record, said without sorting. */
  ghost function CommitCandidate(matches: map<NodeId, nat>, own: nat): (v: nat)
    ensures IsCommitCandidate(matches, own, v)
  {
    CandidateExists(matches, own);
    var v: nat :| IsCommitCandidate(matches, own, v);
    v
  }

  /**
   When the commit candidate speaks for a majority: the upper half of a record of `n`
   nodes is more than half of the record exactly when `n` is odd, and a majority of the
   cluster exactly when the record is the whole cluster and its size is odd.
   */
  lemma UpperHalfIsMajorityIff(n: nat, size: nat)
    requires n <= size
    ensures UpperHalf(n) > n / 2 <==> n % 2 == 1
    ensures UpperHalf(n) >= Majority(size) <==> n == size && size % 2 == 1
  {
  }
}
