/** Operations that only read the log. Log index `i` is position `i - 1`. */
module RaftLog {
  import opened RaftTypes

  type Log = seq<LogEntry>

  /** Index and term of the last entry; the index is the one the entry carries. */
  function LastLogInfo(log: Log): (nat, Term) {
    if log == [] then (0, 0) else (log[|log| - 1].index, log[|log| - 1].term)
  }

  predicate IsLogUpToDate(log: Log, lastLogIndex: nat, lastLogTerm: Term) {
    var (ourIndex, ourTerm) := LastLogInfo(log);
    if lastLogTerm != ourTerm then lastLogTerm > ourTerm else lastLogIndex >= ourIndex
  }

  predicate CheckLogConsistency(log: Log, prevLogIndex: nat, prevLogTerm: Term) {
    prevLogIndex == 0 || (prevLogIndex <= |log| && log[prevLogIndex - 1].term == prevLogTerm)
  }

  function GetEntriesFrom(log: Log, start: nat): Log {
    if start == 0 || start > |log| then [] else log[start - 1..]
  }

  /** Position of the first entry of term `t`, or the length of the log. */
  function FirstOfTerm(log: Log, t: Term): (r: nat)
    ensures r <= |log|
    ensures forall i | 0 <= i < r :: log[i].term != t
    ensures r < |log| ==> log[r].term == t
  {
    if log == [] || log[0].term == t then 0 else 1 + FirstOfTerm(log[1..], t)
  }

  /** Log index (one-based) of the last entry of term `t`, or 0. */
  function LastOfTerm(log: Log, t: Term): (r: nat)
    ensures r <= |log|
    ensures forall i | r <= i < |log| :: log[i].term != t
    ensures r > 0 ==> log[r - 1].term == t
  {
    if log == [] then 0
    else if log[|log| - 1].term == t then |log|
    else LastOfTerm(log[..|log| - 1], t)
  }

  /** What a follower reports when the entry before a batch does not match. */
  function FindConflictInfo(log: Log, prevLogIndex: nat): (nat, Option<Term>) {
    if prevLogIndex > |log| then (|log|, None)
    else if prevLogIndex > 0 then
      var t := log[prevLogIndex - 1].term;
      (FirstOfTerm(log, t) + 1, Some(t))
    else (1, None)
  }

  /** What the code stores: everything after `prev` is replaced by the batch. */
  function ReplaceTail(log: Log, prev: nat, entries: Log): Log
    requires prev <= |log|
  {
    log[..prev] + entries
  }
}
