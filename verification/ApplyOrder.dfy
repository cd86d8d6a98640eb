/**
 The commit index and the apply cursor. Entries reach the state machine in increasing
 index order in every run; they do so without a gap, and the commit index stays inside
 the log and never falls, on every node whose accepted batches reach its commit index.
 */
module ApplyOrder {
  import opened RaftTypes
  import opened RaftLog
  import opened CommitRule
  import opened Handlers
  import opened HandlerLaws
  import opened Cluster
  import opened BaseInvariants
  import opened Effects

  /** An accepted batch of entries does not end before what the receiver committed. */
  ghost predicate ReachGuard(c: Cluster, e: Event)
    requires Enabled(c, e)
  {
    e.OnAppend? && Accepts(c.nodes[e.node], e.append) && e.append.entries != [] ==>
      c.nodes[e.node].commitIndex <= e.append.prevLogIndex + |e.append.entries|
  }

  ghost predicate CursorOk(s: NodeState) {
    s.lastApplied <= s.commitIndex <= |s.log|
  }

  /**
   The exact condition: a batch of entries keeps the commit index inside the log and
   does not lower it if and only if the batch reaches the commit index.
   */
  lemma CommitStaysInLogIff(s: NodeState, a: AppendRequest)
    requires Accepts(s, a) && a.entries != [] && s.commitIndex <= |s.log|
    ensures var s' := HandleAppendEntries(s, a).0;
            s.commitIndex <= s'.commitIndex <= |s'.log| <==> s.commitIndex <= a.prevLogIndex + |a.entries|
  {
    hide HandleAppendEntries; hide LastLogInfo;
    AppendEffect(s, a);
    assert |HandleAppendEntries(s, a).0.log| == a.prevLogIndex + |a.entries|;
  }

  /** A repeated first batch makes a follower lose an entry it committed. */
  lemma RepeatedBatchLosesCommitted(s: NodeState, a: AppendRequest, e1: LogEntry, e2: LogEntry)
    requires s.log == [e1, e2] && s.commitIndex == 2 && a.term == s.currentTerm
    requires a.prevLogIndex == 0 && a.entries == [e1] && a.leaderCommit <= 2
    ensures var s' := HandleAppendEntries(s, a).0;
            s'.log == [e1] && s'.commitIndex == 2 && HandleAppendEntries(s, a).1.success
  {
    hide LastLogInfo;
    assert ReplaceTail(s.log, 0, [e1]) == [e1];
  }

  // ----- the commit index stays inside the log -----

  /** With the commit index inside the log, applying hands over the next entries in order. */
  lemma ApplyHandsOver(s: NodeState, failAt: Option<nat>)
    requires CursorOk(s)
    ensures var r := ApplyCommitted(s, failAt);
            && s.lastApplied <= r.state.lastApplied <= s.commitIndex
            && r.handed == s.log[s.lastApplied..r.state.lastApplied]
            && (r.outcome.Ok? || r.outcome == Err(ApplyFailed(r.state.lastApplied)))
  {
    hide ApplyCommitted;
    ApplyLaw(s, failAt);
    HandedLaw(s, failAt);
  }

  /** An entry that the state machine rejects ends the call; the next call goes on after it. */
  lemma RejectedEntryIsSkipped(s: NodeState, i: nat)
    requires CursorOk(s) && s.lastApplied < i <= s.commitIndex
    ensures var r := ApplyCommitted(s, Some(i));
            && r.outcome == Err(ApplyFailed(i)) && r.handed == s.log[s.lastApplied..i]
            && ApplyCommitted(r.state, None).handed == s.log[i..s.commitIndex]
  {
    hide ApplyCommitted;
    ApplyLaw(s, Some(i));
    HandedLaw(s, Some(i));
    var after := s.(lastApplied := i);
    ApplyLaw(after, None);
    HandedLaw(after, None);
  }

  lemma CursorStep(c: Cluster, e: Event)
    requires Enabled(c, e) && ReachGuard(c, e) && CursorOk(c.nodes[e.node])
    ensures var s, s' := c.nodes[e.node], NewState(c.nodes[e.node], e);
            CursorOk(s') && s.commitIndex <= s'.commitIndex && s.lastApplied <= s'.lastApplied
  {
    hide HandleAppendEntries; hide HandleAppendResponse; hide HandleVoteRequest; hide HandleVoteResponse;
    hide AppendEntry; hide ApplyCommitted; hide LastLogInfo; hide CommitCandidate; hide CheckLogConsistency;
    hide IsLogUpToDate;
    var s := c.nodes[e.node];
    match e
    case OnVoteRequest(_, r) => VoteRequestEffect(s, r);
    case OnVoteReply(_, _, r) => VoteReplyEffect(s, r);
    case OnAppend(_, a) =>
      AppendEffect(s, a);
      if Accepts(s, a) && a.entries != [] { CommitStaysInLogIff(s, a); }
    case OnAppendReply(_, follower, r) => AppendReplyEffect(s, follower, r);
    case ClientAppend(_, command, timestamp) => ClientAppendEffect(s, command, timestamp);
    case Apply(_, failAt) =>
      ApplyEffect(s, failAt);
      ApplyHandsOver(s, failAt);
    case _ =>
  }

  /** The batches that node `n` accepts reach its commit index; other nodes are not restricted. */
  ghost predicate ReachGuarded(r: Run, n: NodeId)
    requires IsRun(r)
  {
    forall k: nat {:trigger StepAt(r, k)} | k < |r.events| ::
      StepAt(r, k) && (r.events[k].node == n ==> ReachGuard(r.states[k], r.events[k]))
  }

  ghost predicate Cursors(c: Cluster, n: NodeId) {
    n in c.nodes && CursorOk(c.nodes[n])
  }

  lemma CursorsStep(c: Cluster, e: Event, n: NodeId)
    requires Enabled(c, e) && Cursors(c, n) && (e.node == n ==> ReachGuard(c, e))
    ensures Cursors(Next(c, e), n) && c.nodes[n].commitIndex <= Next(c, e).nodes[n].commitIndex
  {
    hide NewState; hide Sent; hide Recall;
    if e.node == n { CursorStep(c, e); }
  }

  lemma {:induction false} CursorsHold(r: Run, k: nat, n: NodeId)
    requires IsRun(r) && ReachGuarded(r, n) && k <= |r.events| && n in r.states[k].nodes
    ensures Cursors(r.states[k], n)
  {
    hide NewState; hide Sent; hide Recall; hide ReachGuard;
    if k > 0 {
      assert StepAt(r, k - 1);
      CursorsHold(r, k - 1, n);
      CursorsStep(r.states[k - 1], r.events[k - 1], n);
    }
  }

  /**
   In every run in which the batches that a node accepts reach its commit index, the
   node's apply cursor is at most its commit index, which is inside the log and never falls.
   */
  lemma {:induction false} CommitNeverFalls(r: Run, j: nat, k: nat, n: NodeId)
    requires IsRun(r) && ReachGuarded(r, n) && j <= k <= |r.events| && n in r.states[j].nodes
    ensures n in r.states[k].nodes && CursorOk(r.states[k].nodes[n])
    ensures r.states[j].nodes[n].commitIndex <= r.states[k].nodes[n].commitIndex
  {
    hide Next; hide Init; hide ReachGuard; hide Enabled;
    if j == k {
      CursorsHold(r, k, n);
    } else {
      CommitNeverFalls(r, j, k - 1, n);
      assert StepAt(r, k - 1);
      CursorsStep(r.states[k - 1], r.events[k - 1], n);
    }
  }

  /** Applying never meets a missing entry in such a run. */
  lemma ApplyNeverMissesEntry(r: Run, k: nat, n: NodeId, failAt: Option<nat>)
    requires IsRun(r) && ReachGuarded(r, n) && k <= |r.events| && n in r.states[k].nodes
    ensures var o := ApplyCommitted(r.states[k].nodes[n], failAt).outcome;
            o.Ok? || o == Err(ApplyFailed(ApplyCommitted(r.states[k].nodes[n], failAt).state.lastApplied))
  {
    hide Next; hide StepAt; hide Init; hide ReachGuarded;
    CommitNeverFalls(r, k, k, n);
    ApplyHandsOver(r.states[k].nodes[n], failAt);
  }

  // ----- order of application, with no assumption at all -----

  /** Strictly increasing indices, all above `low` and at most `high`. */
  ghost predicate Ascending(entries: seq<LogEntry>, low: nat, high: nat) {
    && (forall i | 0 <= i < |entries| :: low < entries[i].index <= high)
    && (forall i, j | 0 <= i < j < |entries| :: entries[i].index < entries[j].index)
  }

  lemma HandedAscend(s: NodeState, failAt: Option<nat>)
    requires LogShape(s.log, s.currentTerm)
    ensures var r := ApplyCommitted(s, failAt);
            s.lastApplied <= r.state.lastApplied && Ascending(r.handed, s.lastApplied, r.state.lastApplied)
  {
    hide ApplyCommitted;
    HandedLaw(s, failAt);
  }

  ghost predicate AppliedAscend(c: Cluster) {
    forall n | n in c.nodes :: n in c.h.applied && Ascending(c.h.applied[n], 0, c.nodes[n].lastApplied)
  }

  /** Only entries below the commit index are handed over. */
  lemma {:induction false} HandedAreCommitted(s: NodeState, failAt: Option<nat>, x: LogEntry)
    requires x in ApplyCommitted(s, failAt).handed
    ensures exists i: nat :: i < s.commitIndex && i < |s.log| && s.log[i] == x
    decreases s.commitIndex - s.lastApplied
  {
    var s1 := s.(lastApplied := s.lastApplied + 1);
    if x == s.log[s.lastApplied] {
    } else {
      HandedAreCommitted(s1, failAt, x);
    }
  }

  /** Nothing but applying hands entries over or moves the cursor. */
  lemma OnlyApplyHandsOver(h: History, s: NodeState, e: Event)
    requires e.node in h.applied && !e.Apply?
    ensures Recall(h, s, e).applied == h.applied && NewState(s, e).lastApplied == s.lastApplied
  {
    hide HandleAppendEntries; hide HandleAppendResponse; hide HandleVoteRequest; hide HandleVoteResponse;
    hide AppendEntry; hide LastLogInfo; hide CommitCandidate; hide CheckLogConsistency; hide IsLogUpToDate;
    match e
    case OnVoteRequest(_, r) => VoteRequestEffect(s, r);
    case OnVoteReply(_, _, r) => VoteReplyEffect(s, r);
    case OnAppend(_, a) => AppendEffect(s, a);
    case OnAppendReply(_, follower, r) => AppendReplyEffect(s, follower, r);
    case ClientAppend(_, command, timestamp) => ClientAppendEffect(s, command, timestamp);
    case _ =>
  }

  lemma AscendOn(h: History, n: NodeId, s: NodeState, e: Event)
    requires n in h.applied && e.node == n && Ascending(h.applied[n], 0, s.lastApplied)
    requires LogShape(s.log, s.currentTerm)
    ensures n in Recall(h, s, e).applied && Ascending(Recall(h, s, e).applied[n], 0, NewState(s, e).lastApplied)
  {
    if e.Apply? {
      hide ApplyCommitted; hide LogShape;
      HandedAscend(s, e.failAt);
    } else {
      hide NewState; hide Recall; hide Ascending; hide LogShape;
      OnlyApplyHandsOver(h, s, e);
    }
  }

  lemma AscendStep(c: Cluster, e: Event)
    requires Base(c) && Enabled(c, e) && AppliedAscend(c)
    ensures AppliedAscend(Next(c, e))
  {
    hide NewState; hide Sent; hide Recall; hide LogShape; hide RoleShape; hide BaseMsg; hide Ascending;
    var c' := Next(c, e);
    assert BaseNode(c.size, e.node, c.nodes[e.node]);
    AscendOn(c.h, e.node, c.nodes[e.node], e);
    forall n | n in c'.nodes ensures n in c'.h.applied && Ascending(c'.h.applied[n], 0, c'.nodes[n].lastApplied) {
      if n != e.node { AppliedElsewhere(c.h, c.nodes[e.node], e, n); }
    }
  }

  /**
   In every run, with no assumption on network or callers and whatever happens to the
   log between the calls, the entries handed to a node's state machine have strictly
   increasing indices: none is handed over twice, even if the state machine rejects one.
   */
  lemma {:induction false} AppliedInOrder(r: Run, k: nat, n: NodeId)
    requires IsRun(r) && k <= |r.events| && n in r.states[k].nodes
    ensures n in r.states[k].h.applied && Ascending(r.states[k].h.applied[n], 0, r.states[k].nodes[n].lastApplied)
  {
    hide Next; hide Ascending;
    AscendHolds(r, k);
  }

  lemma {:induction false} AscendHolds(r: Run, k: nat)
    requires IsRun(r) && k <= |r.events|
    ensures AppliedAscend(r.states[k])
  {
    hide Next; hide Init; hide AppliedAscend; hide Base; hide Enabled;
    if k == 0 {
      AscendInit(r.states[0]);
    } else {
      AscendHolds(r, k - 1);
      BaseHolds(r, k - 1);
      assert StepAt(r, k - 1);
      AscendStep(r.states[k - 1], r.events[k - 1]);
    }
  }

  lemma AscendInit(c: Cluster)
    requires Init(c)
    ensures AppliedAscend(c)
  {
  }

  // ----- no gap while the commit index stays inside the log -----

  /** Exactly the indices 1 to `high`, in order. */
  ghost predicate GapFree(entries: seq<LogEntry>, high: nat) {
    |entries| == high && forall i | 0 <= i < |entries| :: entries[i].index == i + 1
  }

  ghost predicate AppliedGapFree(c: Cluster, n: NodeId) {
    n in c.nodes && n in c.h.applied && GapFree(c.h.applied[n], c.nodes[n].lastApplied)
  }

  lemma GapFreeOn(h: History, n: NodeId, s: NodeState, e: Event)
    requires n in h.applied && e.node == n && GapFree(h.applied[n], s.lastApplied)
    requires LogShape(s.log, s.currentTerm) && CursorOk(s)
    ensures n in Recall(h, s, e).applied && GapFree(Recall(h, s, e).applied[n], NewState(s, e).lastApplied)
  {
    if e.Apply? {
      hide ApplyCommitted;
      ApplyHandsOver(s, e.failAt);
      var done, upTo := h.applied[n], ApplyCommitted(s, e.failAt).state.lastApplied;
      forall i | |done| <= i < upTo ensures (done + s.log[s.lastApplied..upTo])[i] == s.log[i] {
      }
    } else {
      hide NewState; hide Recall; hide GapFree; hide LogShape;
      OnlyApplyHandsOver(h, s, e);
    }
  }

  lemma GapFreeStep(c: Cluster, e: Event, n: NodeId)
    requires Base(c) && Cursors(c, n) && Enabled(c, e) && AppliedGapFree(c, n)
    ensures AppliedGapFree(Next(c, e), n)
  {
    hide NewState; hide Sent; hide Recall; hide LogShape; hide RoleShape; hide BaseMsg; hide GapFree;
    if n == e.node {
      assert BaseNode(c.size, n, c.nodes[n]);
      GapFreeOn(c.h, n, c.nodes[n], e);
    } else {
      AppliedElsewhere(c.h, c.nodes[e.node], e, n);
    }
  }

  /**
   In every run in which the batches that a node accepts reach its commit index, the node's
   state machine has been handed the indices 1, 2, 3, ... up to its apply cursor.
   */
  lemma {:induction false} AppliedWithoutGap(r: Run, k: nat, n: NodeId)
    requires IsRun(r) && ReachGuarded(r, n) && k <= |r.events| && n in r.states[k].nodes
    ensures AppliedGapFree(r.states[k], n)
  {
    hide NewState; hide Sent; hide Recall; hide Base; hide ReachGuard;
    if k > 0 {
      assert StepAt(r, k - 1);
      AppliedWithoutGap(r, k - 1, n);
      BaseHolds(r, k - 1);
      CursorsHold(r, k - 1, n);
      GapFreeStep(r.states[k - 1], r.events[k - 1], n);
    }
  }
}
