/**
 How Figure 2 of the Raft paper ("In Search of an Understandable Consensus Algorithm",
 extended version) puts a batch into a log, beside what the code does, and the exact
 condition under which the two coincide.
 */
module PaperRules {
  import opened RaftTypes
  import opened RaftLog

  /** How many leading entries of the batch the log already holds after `prev`, by term. */
  function Agreeing(log: Log, prev: nat, entries: Log): (k: nat)
    requires prev <= |log|
    ensures k <= |entries| && prev + k <= |log|
    ensures forall i | 0 <= i < k :: log[prev + i].term == entries[i].term
    ensures k < |entries| && prev + k < |log| ==> log[prev + k].term != entries[k].term
    decreases |entries|
  {
    if entries == [] || prev == |log| || log[prev].term != entries[0].term then 0
    else 1 + Agreeing(log, prev + 1, entries[1..])
  }

  /**
   Receiver rules 3 and 4: delete an entry that conflicts with a new one and all that
   follow it, then append the new entries not already in the log.
   */
  function PaperAppend(log: Log, prev: nat, entries: Log): Log
    requires prev <= |log|
  {
    var k := Agreeing(log, prev, entries);
    if k == |entries| then log else log[..prev + k] + entries[k..]
  }

  /** Entries of the same term at the same index are the same entry. */
  ghost predicate Consistent(log: Log, prev: nat, entries: Log)
    requires prev <= |log|
  {
    forall i | 0 <= i < |entries| && prev + i < |log| && log[prev + i].term == entries[i].term ::
      log[prev + i] == entries[i]
  }

  /** The batch is empty, reaches the end of the log, or conflicts with it. */
  predicate KeepsMatching(log: Log, prev: nat, entries: Log) {
    || entries == []
    || |log| <= prev + |entries|
    || exists i | prev <= i < prev + |entries| && i < |log| :: log[i].term != entries[i - prev].term
  }

  /** Accepting the batch cuts off entry `m` of the log, although no entry of the batch conflicts with the log. */
  predicate Cuts(log: Log, prev: nat, entries: Log, m: nat) {
    && entries != [] && prev + |entries| < m <= |log|
    && forall i | 0 <= i < |entries| :: log[prev + i].term == entries[i].term
  }

  /** A batch keeps matching entries exactly when it cuts off none. */
  lemma KeepsMatchingIff(log: Log, prev: nat, entries: Log)
    ensures KeepsMatching(log, prev, entries) <==> forall m: nat :: !Cuts(log, prev, entries, m)
  {
    if !KeepsMatching(log, prev, entries) {
      forall i | 0 <= i < |entries| ensures log[prev + i].term == entries[i].term {
        assert log[prev + i].term == entries[prev + i - prev].term;
      }
      assert Cuts(log, prev, entries, |log|);
    }
  }

  /**
   The code's unconditional truncation is the paper's rule exactly when the batch
   reaches the end of the log or conflicts with it; otherwise matching entries are lost.
   */
  lemma TruncationIsPaperRuleIff(log: Log, prev: nat, entries: Log)
    requires prev <= |log| && Consistent(log, prev, entries) && entries != []
    ensures ReplaceTail(log, prev, entries) == PaperAppend(log, prev, entries)
            <==> KeepsMatching(log, prev, entries)
  {
    var k := Agreeing(log, prev, entries);
    if k < |entries| {
      SharedPart(log, prev, entries, k);
      if prev + k < |log| {
        assert log[prev + k].term != entries[prev + k - prev].term;
      }
    } else {
      assert |ReplaceTail(log, prev, entries)| == prev + |entries|;
      if |log| == prev + |entries| { SharedPart(log, prev, entries, k); }
    }
  }

  /** The agreeing part may be kept or replaced: the log is the same. */
  lemma SharedPart(log: Log, prev: nat, entries: Log, k: nat)
    requires prev + k <= |log| && k <= |entries| && Consistent(log, prev, entries)
    requires forall i | 0 <= i < k :: log[prev + i].term == entries[i].term
    ensures log[..prev] + entries == log[..prev + k] + entries[k..]
  {
    assert log[prev..prev + k] == entries[..k];
    assert log[..prev + k] == log[..prev] + log[prev..prev + k];
    assert entries == entries[..k] + entries[k..];
  }

  /** A repeated short batch drops an entry the follower holds and the leader wants kept. */
  lemma RepeatedBatchDropsEntry(e1: LogEntry, e2: LogEntry)
    ensures ReplaceTail([e1, e2], 0, [e1]) == [e1] && PaperAppend([e1, e2], 0, [e1]) == [e1, e2]
  {
    assert Agreeing([e1, e2], 1, [e1][1..]) == 0;
  }
}
