/**
 The order in which logs are compared before a vote (section 5.4.1 of the Raft paper):
 by the term of the last entry, then by its index. It is a total preorder, so of two
 candidates one can always get the other's vote.
 */
module LogOrder {
  import opened RaftTypes
  import opened RaftLog

  /** The log ends with an entry of index `i` and term `t`, or it is empty and both are zero. */
  predicate EndsAt(log: Log, i: nat, t: Term) {
    if log == [] then i == 0 && t == 0 else log[|log| - 1].index == i && log[|log| - 1].term == t
  }

  /** The last entry at (`t`, `i`) comes after the one at (`u`, `j`). */
  predicate After(t: Term, i: nat, u: Term, j: nat) {
    t > u || (t == u && i > j)
  }

  /** A node with log `voter` finds `log` up to date. */
  predicate UpToDateFor(voter: Log, log: Log) {
    var (i, t) := LastLogInfo(log);
    IsLogUpToDate(voter, i, t)
  }

  /** A log is refused exactly when the voter's own last entry comes after the one it is shown. */
  lemma RefusedIff(voter: Log, i: nat, t: Term, index: nat, term: Term)
    requires EndsAt(voter, i, t)
    ensures !IsLogUpToDate(voter, index, term) <==> After(t, i, term, index)
  {
  }

  /** Of any two logs one is up to date for the other. */
  lemma UpToDateIsTotal(a: Log, b: Log)
    ensures UpToDateFor(a, b) || UpToDateFor(b, a)
  {
  }

  lemma UpToDateIsTransitive(a: Log, b: Log, c: Log)
    requires UpToDateFor(a, b) && UpToDateFor(b, c)
    ensures UpToDateFor(a, c)
  {
  }

  /** Two logs are up to date for each other exactly when they end alike. */
  lemma UpToDateBothWaysIff(a: Log, b: Log, i: nat, t: Term)
    requires EndsAt(a, i, t)
    ensures UpToDateFor(a, b) && UpToDateFor(b, a) <==> EndsAt(b, i, t)
  {
  }
}
