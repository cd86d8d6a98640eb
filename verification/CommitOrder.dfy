/**
 The middle of a sorted list as an order statistic: what the leader computes by
 collecting, sorting and indexing is the commit candidate.
 */
module CommitOrder {
  import opened RaftTypes
  import opened CommitRule

  predicate Sorted(s: seq<nat>) {
    forall i, j | 0 <= i < j < |s| :: s[i] <= s[j]
  }

  /** How many elements are at least `v`. */
  function CountGe(s: seq<nat>, v: nat): nat {
    if s == [] then 0 else (if s[0] >= v then 1 else 0) + CountGe(s[1..], v)
  }

  lemma {:induction false} CountConcat(a: seq<nat>, b: seq<nat>, v: nat)
    ensures CountGe(a + b, v) == CountGe(a, v) + CountGe(b, v)
  {
    if a == [] {
      assert a + b == b;
    } else {
      assert (a + b)[1..] == a[1..] + b;
      CountConcat(a[1..], b, v);
    }
  }

  lemma {:induction false} CountAll(s: seq<nat>, v: nat)
    ensures CountGe(s, v) <= |s|
    ensures (forall i | 0 <= i < |s| :: s[i] >= v) ==> CountGe(s, v) == |s|
    ensures (forall i | 0 <= i < |s| :: s[i] < v) ==> CountGe(s, v) == 0
  {
    if s != [] { CountAll(s[1..], v); }
  }

  /** In a sorted list, entry `m` is the largest value that `|s| - m` entries reach. */
  lemma SortedRank(s: seq<nat>, m: nat)
    requires Sorted(s) && m < |s|
    ensures CountGe(s, s[m]) >= |s| - m
    ensures forall w: nat | w > s[m] :: CountGe(s, w) < |s| - m
  {
    hide CountGe;
    assert s == s[..m] + s[m..];
    CountConcat(s[..m], s[m..], s[m]);
    CountAll(s[m..], s[m]);
    forall w: nat | w > s[m] ensures CountGe(s, w) < |s| - m {
      RankAbove(s, m, w);
    }
  }

  lemma RankAbove(s: seq<nat>, m: nat, w: nat)
    requires Sorted(s) && m < |s| && w > s[m]
    ensures CountGe(s, w) < |s| - m
  {
    hide CountGe;
    assert s == s[..m + 1] + s[m + 1..];
    CountConcat(s[..m + 1], s[m + 1..], w);
    CountAll(s[..m + 1], w);
    CountAll(s[m + 1..], w);
  }

  /** Same values, counted with multiplicity at every threshold. */
  ghost predicate SameCounts(a: seq<nat>, b: seq<nat>) {
    |a| == |b| && multiset(a) == multiset(b) && forall v: nat :: CountGe(a, v) == CountGe(b, v)
  }

  method Insert(sorted: seq<nat>, x: nat) returns (r: seq<nat>)
    requires Sorted(sorted)
    ensures Sorted(r) && SameCounts(r, sorted + [x])
  {
    var i := |sorted|;
    while i > 0 && sorted[i - 1] > x
      invariant 0 <= i <= |sorted|
      invariant forall j | i <= j < |sorted| :: sorted[j] > x
    {
      i := i - 1;
    }
    r := sorted[..i] + [x] + sorted[i..];
    InsertCounts(sorted, i, x);
  }

  lemma InsertCounts(s: seq<nat>, i: nat, x: nat)
    requires i <= |s|
    ensures SameCounts(s[..i] + [x] + s[i..], s + [x])
  {
    assert s == s[..i] + s[i..];
    forall v: nat ensures CountGe(s[..i] + [x] + s[i..], v) == CountGe(s + [x], v) {
      CountConcat(s[..i] + [x], s[i..], v);
      CountConcat(s[..i], [x], v);
      CountConcat(s[..i], s[i..], v);
      CountConcat(s, [x], v);
    }
  }

  method SortUnstable(s: seq<nat>) returns (r: seq<nat>)
    ensures Sorted(r) && SameCounts(r, s)
  {
    r := [];
    for i := 0 to |s|
      invariant Sorted(r) && SameCounts(r, s[..i])
    {
      var next := Insert(r, s[i]);
      AppendCounts(r, s[..i], s[i]);
      assert s[..i + 1] == s[..i] + [s[i]];
      r := next;
    }
    assert s[..|s|] == s;
  }

  lemma AppendCounts(a: seq<nat>, b: seq<nat>, x: nat)
    requires SameCounts(a, b)
    ensures SameCounts(a + [x], b + [x])
  {
    forall v: nat ensures CountGe(a + [x], v) == CountGe(b + [x], v) {
      CountConcat(a, [x], v);
      CountConcat(b, [x], v);
    }
  }

  /** The list holds the recorded values, each once. */
  ghost predicate Lists(vals: seq<nat>, matches: map<NodeId, nat>) {
    |vals| == |matches| && forall v: nat :: CountGe(vals, v) == |Supporters(matches, v)|
  }

  /** The recorded values, in the order the hash map yields them. */
  method Values(matches: map<NodeId, nat>) returns (vals: seq<nat>)
    ensures Lists(vals, matches)
  {
    vals := [];
    var todo := matches.Keys;
    ListsNothing(matches - todo);
    while todo != {}
      invariant todo <= matches.Keys && Lists(vals, matches - todo)
      decreases |todo|
    {
      var f :| f in todo;
      ListsOneMore(vals, matches, todo, f);
      vals := vals + [matches[f]];
      todo := todo - {f};
    }
    assert matches - {} == matches;
  }

  lemma ListsNothing(matches: map<NodeId, nat>)
    requires matches.Keys == {}
    ensures Lists([], matches)
  {
    assert forall v: nat :: Supporters(matches, v) == {};
  }

  lemma ListsOneMore(vals: seq<nat>, matches: map<NodeId, nat>, todo: set<NodeId>, f: NodeId)
    requires f in todo && todo <= matches.Keys && Lists(vals, matches - todo)
    ensures Lists(vals + [matches[f]], matches - (todo - {f}))
  {
    var done, more, x := matches - todo, matches - (todo - {f}), matches[f];
    assert more.Keys == done.Keys + {f};
    hide CountGe;
    forall v: nat ensures CountGe(vals + [x], v) == |Supporters(more, v)| {
      CountConcat(vals, [x], v);
      CountSingle(x, v);
      SupportersOneMore(done, more, f, v);
    }
  }

  lemma CountSingle(x: nat, v: nat)
    ensures CountGe([x], v) == if x >= v then 1 else 0
  {
  }

  lemma SupportersOneMore(done: map<NodeId, nat>, more: map<NodeId, nat>, f: NodeId, v: nat)
    requires f !in done && f in more && more.Keys == done.Keys + {f} && forall g | g in done :: more[g] == done[g]
    ensures |Supporters(more, v)| == |Supporters(done, v)| + if more[f] >= v then 1 else 0
  {
    if more[f] >= v {
      assert Supporters(more, v) == Supporters(done, v) + {f};
    } else {
      assert Supporters(more, v) == Supporters(done, v);
    }
  }

  /** Collect, push the own length, sort, take the middle: the commit candidate. */
  method MiddleIndex(matches: map<NodeId, nat>, own: nat) returns (v: nat)
    ensures IsCommitCandidate(matches, own, v)
  {
    var vals := Values(matches);
    var indices := vals + [own];
    forall w: nat ensures CountGe(indices, w) == Support(matches, own, w) {
      CountConcat(vals, [own], w);
    }
    var sorted := SortUnstable(indices);
    var middle := |sorted| / 2;
    v := sorted[middle];
    SortedRank(sorted, middle);
  }
}
