# Kaelix: the Raft node and four smaller parts, in Dafny

This project models the consensus node of Kaelix (`kaelix-cluster/src/consensus/mod.rs`) and proves what it
guarantees over whole runs of a cluster. Smaller parts model the compare-exchange memory peak, the rate limiter,
the message broker, and the splitting and distribution of message batches. "The Raft paper" is Ongaro and
Ousterhout, "In Search of an Understandable Consensus Algorithm", extended version.

## How the Raft model is built

Each handler exists twice. `RaftNodes.RaftNode` is a class whose methods update the node's fields with the loops
of the source; `Handlers` holds the same handlers as functions from old fields to new fields, and every method is
proved equal to its function. `Cluster` builds runs from those functions: an event is one handler call at one
node. `HandlerLaws` states what each of those functions answers and when, in the caller's terms and without its helpers.
A message stays in the network once sent, so it may be delivered late, in any order, many times or never,
and a timeout may happen at any node at any time. History variables (who voted for whom, who won a term, which
prefix a node confirmed, what it was handed) only record; no handler reads them.

The theorems come in layers. Each one adds to a run only the hypotheses it needs:

| layer | file | hypotheses on the run |
|---|---|---|
| shape, roles, batch cap, client indices, origin and order of entries | `BaseInvariants`, `RunLaws`, `Provenance`, `ApplyOrder` | none |
| one leader per term | `Elections`, `VoteTraffic` | vote guard |
| log matching, catch-up, fast backoff | `LogMatching`, `Replication`, `FastBackoff`, `CatchUpRuns` | one win per term |
| leader completeness | `Completeness`, `PaperRules` | fair wins; the pledge in question is kept |
| agreement of committed and applied entries | `Commitment` | fair wins; commits rest on kept pledges; commit guard |
| cursors inside the log, gap-free applying, for one node | `ApplyOrder` | reach guard at that node |

The vote guard: counted voters are distinct, and a node that followed a leader in a term grants in it no other
candidate than the one it voted for. It implies fair wins (distinct voters, no term won twice), which is all that
the later layers use.

A pledge names a term, a length and a set of members. A member confirms it by accepting, in that term, a batch that
reaches the length. The pledge is kept if no member, after confirming, accepts a batch that cuts its log below the
length without conflicting with it. What nodes outside the pledge accept is not restricted.

The commit guard: when a leader's commit index moves, it rests on a pledge of a majority, each of whose other members
is on record with a success reply of the current term to a batch that reaches the index; a leader sends each batch under
a new request id, as the source's counter makes it; the batch cap is positive. Nothing is asked of nodes that receive
batches. Clusters of any size, silent members, re-elected leaders with an old record, late replies and stale logs that
accept heartbeats are all allowed.

## Where the code departs from the paper

The model keeps the code as it is. Each departure from the paper below comes with the exact condition under which, or
the exact way in which, one step differs, or with a run that goes wrong without the guard, or both.

- Following a leader clears the vote even in the same term (mod.rs:617, reached from 646-647), so a node can vote
  twice in a term. Vote guard; `SecondVoteIff`, `TwoLeadersByForgottenVote`. The vote is cleared by any
  AppendEntries of the term, including one rejected for log mismatch.
- Votes are counted without the voter (561-566). Vote guard; `CountIsVotersIff`, `TwoLeadersByRepeatedVotes`.
  `VoteTraffic` derives it from delivering each vote message at most once and never handing a node its own reply.
- Truncation is unconditional (855). Kept pledges; `TruncationIsPaperRuleIff`, `KeepsMatchingIff`,
  `LateBatchLosesConfirmed`. For the commit index the reach guard is enough; `CommitStaysInLogIff`,
  `CommittedSurvivesIff`, `RepeatedBatchLosesCommitted`.
- The peer list is empty (939-943), so a new leader does not reset its record, `next_index` defaults to 1, and the
  median is taken over whoever has answered. Commit guard; `UpperHalfIsMajorityIff` says when the median is safe by
  itself, `SupportIsEnough` when the code's count is, and `DisagreeingCommits` what happens otherwise.
- A follower reports its whole log length (679-682) and the leader takes it as match (744-746). Commit guard, by the
  batches answered; `ReportIsTrueMatchIff`, `StaleTailCommits`. A length beyond the leader's log also leaves the leader
  unable to make the next batch; `NextBatchExistsIff`.
- A success reply of an older term is recorded like a current one (737-747). Commit guard: such a record does not
  support a commit; `OlderReplyCountsIff`, and `PairCommit` for a reply of an earlier term that moves the commit index.
- The cursor moves before `apply_fn` is called (782-785), so an entry that `apply_fn` rejects is not offered again;
  `RejectedEntryIsSkipped`. `AppliedInOrder` holds for that order.
- `publish` and `subscribe` release the state lock before they touch the subscriptions
  (`kaelix-broker/src/broker.rs:96-136`), so a call that saw the broker running may act after a stop. `BrokerCalls`
  covers those interleavings: a subscription ends when the subscriptions are cleared, not when the flag is.
- `publish_batch` with publishers and no messages computes chunk size 0, for which `chunks` panics
  (`kaelix-tests/src/context.rs:278-281`); `PublishBatch` has that outcome.

`GuardsAdmitCommit` exhibits a run that meets every guard and elects, replicates, commits and applies with one member
silent throughout.

## Model

| member | source | states |
|---|---|---|
| `BaseInvariants.BaseHolds` | kaelix-cluster/src/consensus/mod.rs:483-774 | In every run, with no hypothesis, every log entry carries its position plus one as index, terms along a log never fall and none exceeds the current term, every AppendEntries in flight has that shape from `prev_log_index` on, a candidate or leader has voted for itself, a candidate knows no leader, a leader counted a majority and names itself leader, and a follower counts no votes |
| `BaseInvariants.TermsNeverFall` | kaelix-cluster/src/consensus/mod.rs:483-626 | No node's term falls between any two moments of any run |
| `BaseInvariants.LeaderAppendOnly` | kaelix-cluster/src/consensus/mod.rs:483-774 | A node seen leading one term at two moments of a run only extended its log between them |
| `Provenance.EntryOrigin` | kaelix-cluster/src/consensus/mod.rs:629-774 | An entry that any node holds or any batch carries, in any run, was given by a client to a leader of the entry's term, with that command and at that index |
| `Provenance.AppliedOrigin` | kaelix-cluster/src/consensus/mod.rs:760-794 | The same origin for every entry any state machine was handed, so the protocol neither invents nor alters commands |
| `ApplyOrder.AppliedInOrder` | kaelix-cluster/src/consensus/mod.rs:777-794 | In every run, with no hypothesis and whatever happens to the log between calls, the indices handed to `apply_fn` strictly increase and stay within `last_applied`: no entry index is handed over twice, even after a failure |
| `Elections.ElectionSafety` | kaelix-cluster/src/consensus/mod.rs:506-573 | At most one node is ever seen leading a term in a run in which counted voters are distinct and no node, after following a leader in a term, grants another candidate than the one it voted for in it (section 5.2 of the Raft paper) |
| `VoteTraffic.DeliveredOnceIsGuarded` | kaelix-cluster/src/consensus/mod.rs:483-573 | Vote messages handled at most once, no reply handled by its own sender, and no second candidate granted by a node that voted and followed a leader in the term imply the vote guard at every step; requests that are refused, or repeat the vote, are allowed |
| `VoteTraffic.BallotOrigin` | kaelix-cluster/src/consensus/mod.rs:483-538 | A recorded vote was cast at an earlier step of the run, by an election of its own or by granting a request, with the log of that step |
| `VoteTraffic.HeardOrigin` | kaelix-cluster/src/consensus/mod.rs:645-650 | A node recorded as having heard a leader of a term handled an AppendEntries of that term when its own term was not higher |
| `VoteTraffic.OneLeaderPerTerm` | kaelix-cluster/src/consensus/mod.rs:483-620 | Election Safety stated of events and node states alone: no history variable occurs in its hypotheses |
| `VoteTraffic.OneRequestPerTerm` | kaelix-cluster/src/consensus/mod.rs:483-503 | A node asks for votes at most once in a term, in any run |
| `Elections.CountIsVotersIff` | kaelix-cluster/src/consensus/mod.rs:560-570 | The vote count stays the number of distinct voters exactly when the counted voter is new |
| `Elections.SecondVoteIff` | kaelix-cluster/src/consensus/mod.rs:520-538 | A node that voted in a term grants another candidate of that term exactly when it is still in the term, following a leader there cleared its vote, and the candidate is up to date |
| `Elections.QuorumsMeet` | kaelix-cluster/src/consensus/mod.rs:564-566 | Two sets of `cluster_size / 2 + 1` members share a member |
| `Elections.ReignsLast` | kaelix-cluster/src/consensus/mod.rs:564-569 | Who won a term, with whose votes and from which log, is fixed for the rest of a run with fair wins |
| `Elections.GuardedIsFair` | kaelix-cluster/src/consensus/mod.rs:549-573 | Under the vote guard every win is fair: counted voters are distinct and the term had no winner before |
| `LogMatching.GuardedRunsWinOnce` | kaelix-cluster/src/consensus/mod.rs:549-573 | Guarded vote traffic makes every term be won at most once |
| `LogMatching.LogMatchingHolds` | kaelix-cluster/src/consensus/mod.rs:629-724 | In every run with at most one win per term, two logs, of any nodes at any moments, with the same term at an index are identical up to it (section 5.3) |
| `LogMatching.LogsHold` | kaelix-cluster/src/consensus/mod.rs:690-774 | In such a run every AppendEntries in flight is a segment of the one log its term's leader built, and every log is made of prefixes of such logs |
| `LogMatching.AcceptedIsPrefix` | kaelix-cluster/src/consensus/mod.rs:823-865 | Accepting a batch turns the follower's log into a prefix of the sender's log |
| `PaperRules.TruncationIsPaperRuleIff` | kaelix-cluster/src/consensus/mod.rs:853-865 | The unconditional truncation gives the log of rules 3 and 4 of Figure 2 exactly when the batch reaches the end of the log or some entry of it conflicts |
| `PaperRules.KeepsMatchingIff` | kaelix-cluster/src/consensus/mod.rs:853-860 | That is exactly when the batch cuts off no entry at all that it does not conflict with |
| `PaperRules.RepeatedBatchDropsEntry` | kaelix-cluster/src/consensus/mod.rs:853-860 | A repeated short batch drops an entry that Figure 2 keeps |
| `Completeness.UpToDateHasPrefix` | kaelix-cluster/src/consensus/mod.rs:801-811 | A voter that holds a prefix and finds a candidate up to date votes for a log that holds the prefix, given that leaders of terms in between hold it |
| `Completeness.LeaderCompleteness` | kaelix-cluster/src/consensus/mod.rs:483-573 | In every run with fair wins: once the members of a majority confirmed a prefix ending in an entry of term t, every leader of a later term, seen at any moment, holds that prefix, provided only that none of those members, after confirming, lets a batch that does not conflict cut its log below the entry (section 5.4.3) |
| `Completeness.RetainedAccept` | kaelix-cluster/src/consensus/mod.rs:653-671 | An accepted batch that does not cut a confirmed prefix keeps it in the log, unless some leader of a later term, up to the sender's, was elected without it |
| `Completeness.ChosenStays` | kaelix-cluster/src/consensus/mod.rs:667-686 | A confirmed prefix stays confirmed and unchanged as the history grows |
| `CommitOrder.MiddleIndex` | kaelix-cluster/src/consensus/mod.rs:882-888 | Collecting the recorded indices, pushing the own length, sorting and taking the middle gives the largest value that at least n - n/2 of the n values reach |
| `CommitOrder.SortUnstable` | kaelix-cluster/src/consensus/mod.rs:884 | The result is sorted and holds every value as often as the input |
| `CommitOrder.SortedRank` | kaelix-cluster/src/consensus/mod.rs:884-888 | In a sorted list of n values the one at position m is the largest that n - m of them reach |
| `CommitRule.CandidateIsUnique` | kaelix-cluster/src/consensus/mod.rs:886-888 | At most one index has that rank, so the commit candidate does not depend on the order of the hash map or of the sort |
| `CommitRule.UpperHalfIsMajorityIff` | kaelix-cluster/src/consensus/mod.rs:886-888 | n - n/2 is more than half of the record exactly when n is odd, and a majority of the cluster exactly when the whole cluster is recorded and its size is odd |
| `Effects.AppendReplyEffect` | kaelix-cluster/src/consensus/mod.rs:727-757 | A reply never changes the log or the apply cursor; it moves the commit index, if at all, forward to the candidate, inside the log, at an entry of the leader's own term (section 5.4.2); a success reply of no newer term records its length for that follower, a newer term makes the node follow, and any other reply leaves record and commit index alone |
| `Effects.AppendReplyFrame` | kaelix-cluster/src/consensus/mod.rs:727-757 | A reply leaves the node's id, cluster size and known leader, and its progress with every other follower, as they were |
| `Commitment.AdvanceIsChosen` | kaelix-cluster/src/consensus/mod.rs:877-901 | A commit index that a majority supports by success replies of the current term, to batches that reach it, marks a prefix that this majority really confirmed |
| `Commitment.SupportIsEnough` | kaelix-cluster/src/consensus/mod.rs:882-895 | The code's own count is enough when the leader is not in its record, each counted follower answered, in the current term, a batch that reaches the index, and the count is a majority of the cluster |
| `Commitment.CommittedSurvivesIff` | kaelix-cluster/src/consensus/mod.rs:853-865 | An accepted batch leaves the receiver's committed entries in place exactly when it does not cut its log below the commit index |
| `Commitment.AcceptKeepsCommit` | kaelix-cluster/src/consensus/mod.rs:667-677 | After an accepted batch the follower's commit index, kept or raised, covers only settled entries, and what its log has of them agrees |
| `Commitment.LeaderHasCommitted` | kaelix-cluster/src/consensus/mod.rs:576-602 | A leader has every entry up to its commit index, whatever was cut from its log before |
| `Commitment.CommittedPartsAgree` | kaelix-cluster/src/consensus/mod.rs:629-901 | In every run with fair wins whose commits rest on kept pledges, what any two nodes, at any two moments, have of their committed entries agrees; no node outside a pledge is restricted |
| `Commitment.AppliedEntriesAgree` | kaelix-cluster/src/consensus/mod.rs:777-794 | In every such run, entries handed to any two state machines at one index, at any two moments, are the same entry (State Machine Safety, section 5.4.3) |
| `Commitment.StateMachineSafety` | kaelix-cluster/src/consensus/mod.rs:629-901 | For two nodes whose accepted batches also reach their own commit indices, the committed prefixes, at any two moments, are in their logs and one is a prefix of the other |
| `Commitment.AppliedSequencesAgree` | kaelix-cluster/src/consensus/mod.rs:629-901 | For two such nodes the sequences handed to their state machines agree in the same way, and each starts at index 1 and has no gap |
| `ApplyOrder.CommitStaysInLogIff` | kaelix-cluster/src/consensus/mod.rs:667-676 | After an accepted batch the commit index has not fallen and is inside the log exactly when the batch reaches the old commit index |
| `ApplyOrder.RepeatedBatchLosesCommitted` | kaelix-cluster/src/consensus/mod.rs:667-676 | A repeated first batch makes a follower lose an entry it committed, and answer success |
| `ApplyOrder.CommitNeverFalls` | kaelix-cluster/src/consensus/mod.rs:629-794 | In every run in which the batches a node accepts reach its commit index, `last_applied <= commit_index <= log.len()` holds on that node at every moment and its commit index never falls; other nodes are not restricted |
| `ApplyOrder.ApplyNeverMissesEntry` | kaelix-cluster/src/consensus/mod.rs:781-793 | In such a run applying never reports a missing entry |
| `ApplyOrder.AppliedWithoutGap` | kaelix-cluster/src/consensus/mod.rs:777-794 | In such a run what the node was handed is exactly indices 1 to `last_applied`, in order |
| `ApplyOrder.ApplyHandsOver` | kaelix-cluster/src/consensus/mod.rs:777-794 | With the cursors in order, one call hands over the log from the old cursor to the new one and fails only where `apply_fn` does |
| `ApplyOrder.RejectedEntryIsSkipped` | kaelix-cluster/src/consensus/mod.rs:781-785 | A call in which `apply_fn` rejects entry i ends there, and the next call hands over exactly the entries after i |
| `Replication.CatchUp` | kaelix-cluster/src/consensus/mod.rs:629-757 | Repeating create, handle, respond between a leader and a follower with matching-log histories, a positive batch cap and a follower term that is not higher reaches, within `next_index + log.len()` rounds, a follower log that starts with the whole leader log |
| `CatchUpRuns.CatchUpInRun` | kaelix-cluster/src/consensus/mod.rs:629-757 | From any moment of any run with one win per term the run can go on with at most `next_index + log.len()` exchanges between a leader and a follower whose term is not higher, to a state in which the follower's log extends the leader's, which is unchanged |
| `Replication.BackoffLowers` | kaelix-cluster/src/consensus/mod.rs:834-850 | The fast backoff point computed from a mismatch report is at most `prev_log_index`, for a short follower, a term unknown to the leader and a term known to it |
| `Replication.RejectionLowersNext` | kaelix-cluster/src/consensus/mod.rs:904-929 | A round rejected for log mismatch strictly lowers `next_index` and leaves both logs as they were |
| `Replication.AcceptsIffMatched` | kaelix-cluster/src/consensus/mod.rs:653-665 | A follower accepts a batch exactly when its log equals the leader's up to `prev_log_index` |
| `Replication.AcceptedBatchIsRecorded` | kaelix-cluster/src/consensus/mod.rs:667-686 | An accepted non-empty batch leaves the follower with the leader's prefix of length `prev_log_index + entries.len()`, and the leader records exactly that length as match and one more as next |
| `Replication.ClampIsPaperRuleIff` | kaelix-cluster/src/consensus/mod.rs:673-677 | The clamp to the log length equals Figure 2's clamp to the last new entry exactly when the batch has entries, or the leader's commit index is within `prev_log_index`, or the follower's log ends there |
| `Replication.ClampIsPaperRule` | kaelix-cluster/src/consensus/mod.rs:690-724 | Every batch that a leader with a positive cap and its commit index inside its log creates meets that condition |
| `Replication.NextBatchExistsIff` | kaelix-cluster/src/consensus/mod.rs:695-706 | After recording a reported length the leader can still make a batch for that follower exactly when the length is not beyond its own log |
| `Replication.OlderReplyCountsIff` | kaelix-cluster/src/consensus/mod.rs:736-754 | A leader takes a reply exactly as if it were of the current term if and only if its term is not newer |
| `Replication.ReportIsTrueMatchIff` | kaelix-cluster/src/consensus/mod.rs:679-686 | The length a follower reports on success is the confirmed match exactly when the batch had entries or the log ended at `prev_log_index` |
| `Witnesses.TwoLeadersByRepeatedVotes` | kaelix-cluster/src/consensus/mod.rs:549-573 | A run that obeys every guard but distinct voters ends with two leaders of one term |
| `Witnesses.TwoLeadersByForgottenVote` | kaelix-cluster/src/consensus/mod.rs:605-650 | A run that obeys every guard but the one on votes after AppendEntries ends with two leaders of one term |
| `Witnesses.DisagreeingCommits` | kaelix-cluster/src/consensus/mod.rs:877-901 | A run that obeys every guard but the commit guard ends with two nodes that committed different entries at one index |
| `Witnesses.LateBatchLosesConfirmed` | kaelix-cluster/src/consensus/mod.rs:853-860 | A run that obeys every guard but the keeping of pledges ends with a leader that lacks an entry a majority confirmed |
| `Witnesses.StaleTailCommits` | kaelix-cluster/src/consensus/mod.rs:744-747 | A run that obeys every guard, but checks commits by reported lengths and not by the batches answered, ends with two nodes that committed different entries at one index |
| `Witnesses.PairCommit` | kaelix-cluster/src/consensus/mod.rs:736-750 | A success reply of any term up to the leader's own, earlier ones included, moves its commit index |
| `Witnesses.GuardsAdmitCommit` | kaelix-cluster/src/consensus/mod.rs:483-794 | A run that obeys all guards elects a leader, replicates, commits and applies an entry, and elects a leader of the next term, while the third member never takes part: the theorems are not empty |
| `HandlerLaws.ElectionLaw` | kaelix-cluster/src/consensus/mod.rs:483-503 | A node that starts an election votes for itself in the next term, counts one vote, forgets its leader, and asks with the index and term of its last entry |
| `HandlerLaws.VoteLaw` | kaelix-cluster/src/consensus/mod.rs:506-546 | A vote is granted exactly to a request of no older term, by a node free to vote for the candidate, whose own last (term, index) is not lexicographically greater; what the node becomes and answers in every case |
| `HandlerLaws.VoteReplyLaw` | kaelix-cluster/src/consensus/mod.rs:549-573 | A win is reported exactly when the reply makes a candidate leader, which is when a granted vote of its term gives it more than half of the cluster |
| `HandlerLaws.VoteCountLaw` | kaelix-cluster/src/consensus/mod.rs:549-573 | A granted vote of the term is counted, a newer term is followed, and every other reply changes nothing |
| `HandlerLaws.ResetLaw` | kaelix-cluster/src/consensus/mod.rs:593-598 | After the reset each listed peer starts from the end of the log with nothing matched, and every other record is as it was |
| `HandlerLaws.AppendAnswerLaw` | kaelix-cluster/src/consensus/mod.rs:629-687 | The answer carries the higher term, the index of the last entry and the request id, names a conflict exactly on a mismatch, and the node then knows the sender as leader |
| `HandlerLaws.ConflictLaw` | kaelix-cluster/src/consensus/mod.rs:834-850 | On a mismatch inside the log the report is the term found there with the index of its first entry; on a short log it is the length and no term |
| `HandlerLaws.BatchLaw` | kaelix-cluster/src/consensus/mod.rs:690-724 | A leader makes a batch exactly when it has the entry before it; the batch holds the following entries, never more than the cap, and fewer only at the end of the log; the errors otherwise |
| `HandlerLaws.SuccessLaw` | kaelix-cluster/src/consensus/mod.rs:742-751 | A success reply of no newer term records its length as match and one more as next index |
| `HandlerLaws.CommitMovesIff` | kaelix-cluster/src/consensus/mod.rs:877-901 | For the value v of middle rank among the recorded lengths and the own one, the commit index becomes v exactly when v lies beyond it, inside the log, at an entry of the own term, and stays otherwise |
| `HandlerLaws.RejectionLaw` | kaelix-cluster/src/consensus/mod.rs:904-929 | A rejection moves the next index past the last entry of the reported term if the leader has one, to the reported index otherwise, and back by one without a report |
| `HandlerLaws.StepDownLaw` | kaelix-cluster/src/consensus/mod.rs:732-740 | A reply changes nothing on a node that does not lead, and one of a newer term makes a leader follow in that term |
| `HandlerLaws.ClientLaw` | kaelix-cluster/src/consensus/mod.rs:760-774 | An index is returned exactly by a leader: the length of the new log, where the client's command is; any other node names the leader it knows and changes nothing |
| `HandlerLaws.ApplyLaw` | kaelix-cluster/src/consensus/mod.rs:777-794 | A call ends at the rejected entry if it is met, else at the commit index, else with the first missing index reported and passed over |
| `HandlerLaws.HandedLaw` | kaelix-cluster/src/consensus/mod.rs:777-794 | A call hands over exactly the entries between the old cursor and the new that the log has, in order |
| `LogOrder.RefusedIff` | kaelix-cluster/src/consensus/mod.rs:801-811 | A log is refused exactly when the voter's last (term, index) is lexicographically greater |
| `LogOrder.UpToDateIsTotal` | kaelix-cluster/src/consensus/mod.rs:801-811 | Of any two logs one is up to date for the other |
| `LogOrder.UpToDateIsTransitive` | kaelix-cluster/src/consensus/mod.rs:801-811 | Being up to date is transitive |
| `LogOrder.UpToDateBothWaysIff` | kaelix-cluster/src/consensus/mod.rs:801-811 | Two logs are up to date for each other exactly when their last entries agree in term and index |
| `RunLaws.BatchesAreCapped` | kaelix-cluster/src/consensus/mod.rs:708-713 | In every run no AppendEntries in flight holds more entries than its sender's cap |
| `RunLaws.ClientEntryStays` | kaelix-cluster/src/consensus/mod.rs:760-774 | In every run the entry at the index a leader returned is the client's, at every later moment at which the node leads the same term |
| `RunLaws.KnownLeaderLed` | kaelix-cluster/src/consensus/mod.rs:646-650 | In every run the leader a node knows, to which it refers clients, led at some moment, in a term the node has reached |
| `FastBackoff.RejectionSkipsTerm` | kaelix-cluster/src/consensus/mod.rs:834-850 | After a rejection for a term the leader lacks the next batch starts before all entries of that term; in general the logs match then or fewer terms of the follower's log are left |
| `FastBackoff.MatchWithinTerms` | kaelix-cluster/src/consensus/mod.rs:904-929 | A leader finds where a follower's log matches its own after at most as many rejected rounds as there are different terms in that log, plus one |
| `RaftNodes.RaftNode.constructor` | kaelix-cluster/src/consensus/mod.rs:383-404 | A new node is an idle follower of term 0 with an empty log and no progress recorded |
| `RaftNodes.RaftNode.StartElection` | kaelix-cluster/src/consensus/mod.rs:483-503 | Refines the election step of the run model: new state and request |
| `RaftNodes.RaftNode.HandleVoteRequest` | kaelix-cluster/src/consensus/mod.rs:506-546 | Refines the vote step: new state and reply, for stale, equal and newer terms |
| `RaftNodes.RaftNode.HandleVoteResponse` | kaelix-cluster/src/consensus/mod.rs:549-573 | Refines the vote-counting step and reports a win exactly when that step does |
| `RaftNodes.RaftNode.BecomeLeader` | kaelix-cluster/src/consensus/mod.rs:576-602 | Fails and changes nothing unless called on a candidate; otherwise takes the lead |
| `RaftNodes.RaftNode.ResetProgress` | kaelix-cluster/src/consensus/mod.rs:593-598 | For any list of peers, the loop sets each to the end of the log with nothing matched |
| `RaftNodes.RaftNode.BecomeFollower` | kaelix-cluster/src/consensus/mod.rs:605-626 | Fails and changes nothing exactly when the term is older; otherwise follows in that term |
| `RaftNodes.RaftNode.HandleAppendEntries` | kaelix-cluster/src/consensus/mod.rs:629-687 | Refines the append step: new state and reply on stale term, mismatch and success |
| `RaftNodes.RaftNode.FindConflict` | kaelix-cluster/src/consensus/mod.rs:834-850 | The search loop returns the first entry of the conflicting term, the length of a short log, or 1 |
| `RaftNodes.RaftNode.AppendNewEntries` | kaelix-cluster/src/consensus/mod.rs:853-865 | Truncation and the push loop leave the kept prefix followed by the batch |
| `RaftNodes.RaftNode.CreateAppendEntries` | kaelix-cluster/src/consensus/mod.rs:690-724 | Refines the send step, errors included, and changes nothing |
| `RaftNodes.RaftNode.HandleAppendEntriesResponse` | kaelix-cluster/src/consensus/mod.rs:727-757 | Refines the reply step |
| `RaftNodes.RaftNode.TryAdvanceCommitIndex` | kaelix-cluster/src/consensus/mod.rs:877-901 | Collect, sort and index advance the commit index as the order-free rule says |
| `RaftNodes.RaftNode.HandleLogConflict` | kaelix-cluster/src/consensus/mod.rs:904-929 | The backward search loop sets `next_index` as the run model does, the decrement fallback included |
| `RaftNodes.RaftNode.AppendEntry` | kaelix-cluster/src/consensus/mod.rs:760-774 | Refines the client step: one entry more on a leader, an error and no change elsewhere |
| `RaftNodes.RaftNode.ApplyCommittedEntries` | kaelix-cluster/src/consensus/mod.rs:777-794 | The loop hands over the entries, moves the cursor and ends with the outcome that the recursive definition gives |
| `PeakTracker.NoUpdateLost` | kaelix-tests/src/utils.rs:161-173 | Under every interleaving and every pattern of spurious failures the peak is the initial or a sampled value, and at least the sample of each finished thread |
| `PeakTracker.PeakNeverFalls` | kaelix-tests/src/utils.rs:161-173 | The shared peak never decreases |
| `PeakTracker.FinalPeakIsMaximum` | kaelix-tests/src/utils.rs:161-173 | When no thread is under way, the peak is the maximum of the initial value and all samples |
| `PeakTracker.MemoryMonitor.UpdatePeak` | kaelix-tests/src/utils.rs:161-173 | Called alone, the exchange loop ends after any number of spurious failures with the larger of peak and sample |
| `PeakTracker.MemoryMonitor.PeakMemoryIncrease` | kaelix-tests/src/utils.rs:181-183 | The increase added to the initial usage gives the peak, and is 0 where the subtraction saturates |
| `RateLimiters.RateLimiter.Wait` | kaelix-tests/src/utils.rs:59-70 | The recorded slot is the one the rule gives; the call resumes not before its slot, later only by the overshoot of the sleep, and at once if its slot is due |
| `RateLimiters.RateLimiter.IsAllowed` | kaelix-tests/src/utils.rs:73-77 | True exactly when a `wait` at that moment would be granted at once |
| `RateLimiters.Serve` | kaelix-tests/src/utils.rs:50-70 | A limiter called at any list of clock readings, with any overshoots of its sleeps, makes a history to which the bounds below apply |
| `RateLimiters.SlotIsEarliest` | kaelix-tests/src/utils.rs:61-69 | A slot is the earliest time that is neither before the call nor within one interval of the last slot |
| `RateLimiters.SlotsAreSpaced` | kaelix-tests/src/utils.rs:59-70 | In every sequence of calls, d calls later means a slot at least d intervals later |
| `RateLimiters.RateBound` | kaelix-tests/src/utils.rs:50-70 | By time t at most `(t - creation) / interval + 1` calls have resumed, and none before creation |
| `RateLimiters.WindowBound` | kaelix-tests/src/utils.rs:59-70 | Any window of width w holds at most `w / interval + 1` consecutive slots |
| `Brokers.DeliveryIsExact` | kaelix-broker/src/broker.rs:96-136 | In every sequence of calls, a subscriber's channel holds exactly the messages published to its topic after it subscribed and before the next stop, in order |
| `Brokers.CounterIsExact` | kaelix-broker/src/broker.rs:56-117 | The counter is the number of publishes accepted while running, and the broker runs from a start to the next stop |
| `Brokers.AttachedStep` | kaelix-broker/src/broker.rs:96-136 | One event, seen from one channel: a live channel gets what is published to its topic, once, and nothing else changes it |
| `BrokerCalls.InterleavedDelivery` | kaelix-broker/src/broker.rs:74-136 | Under any interleaving of the locked sections of concurrent calls, a channel holds at every moment exactly the messages sent to its topic since it was registered, in order, until a stop clears the subscriptions |
| `BrokerCalls.InterleavedCounter` | kaelix-broker/src/broker.rs:96-117 | Under any interleaving the counter plus the calls about to count is the number of sends, so no publish is lost or counted twice |
| `BrokerCalls.AdmittedIffFlagUp` | kaelix-broker/src/broker.rs:74-127 | Under any interleaving a publish, subscribe or stop goes on after its check exactly when the last change of the flag before it was a start |
| `BrokerCalls.ActsOnlyIfAdmitted` | kaelix-broker/src/broker.rs:74-136 | Whoever sends, registers or clears was admitted at an earlier step, with the same topic and message |
| `Brokers.MessageBroker.StartBroker` | kaelix-broker/src/broker.rs:56-68 | Refines the start step; an error exactly when it already runs |
| `Brokers.MessageBroker.StopBroker` | kaelix-broker/src/broker.rs:74-90 | Refines the stop step; stopping a stopped broker is accepted and changes nothing |
| `Brokers.MessageBroker.PublishMessage` | kaelix-broker/src/broker.rs:96-117 | The send loop reaches every subscriber of the topic once; an error exactly when not running |
| `Brokers.MessageBroker.SubscribeTo` | kaelix-broker/src/broker.rs:122-136 | Registers a new empty channel under the topic; an error exactly when not running |
| `Batches.PublishBatch` | kaelix-tests/src/context.rs:267-300 | The tasks carry all messages in order, one chunk for each of the first publishers; no publishers is an error, and an empty batch with publishers panics because the chunk size is 0 |
| `Batches.EveryChunkFindsPublisher` | kaelix-tests/src/context.rs:278-282 | ceil(n / ceil(n / p)) <= p, so no chunk is left without a publisher |
| `Batches.ChunksShape` | kaelix-core/src/message.rs:423-426 | There are ceil(n / size) chunks, all of that size but the last, which is not empty |
| `Batches.SplitPieces` | kaelix-core/src/message.rs:418-427 | Piece i of a split holds the messages from i times the size to the next multiple or the end, and there are ceil(n / size) pieces; size zero gives the batch itself |
| `Batches.PayloadOfOne` | kaelix-core/src/message.rs:404-406 | The size of one message is that of its payload, and of none zero |
| `Batches.Merge` | kaelix-core/src/message.rs:431-437 | The loop concatenates the batches in order |
| `Batches.MergeSplit` | kaelix-core/src/message.rs:418-437 | Merging a split batch gives its messages back, for every size, zero included |
| `Batches.SplitConservesPayload` | kaelix-core/src/message.rs:404-427 | The payload sizes of the pieces add up to that of the batch |

## Left out

- Transport, router, membership (SWIM), replication, storage, write-ahead log and high-availability modules; message delivery is nondeterministic instead.
- Timers, heartbeat instants, random election timeouts, metrics and logging; a timeout may happen at any time.
- Pre-vote, snapshot installation and fast elections: fields and settings without a protocol. `pre_vote` is kept as a field and is false in every request made.
- Crash and restart: the source keeps term, vote and log in memory only, and so does the model.
- Direct calls of `become_follower` and `become_leader` from outside the handlers are not events of a run.
- Calls of handlers interleaved inside one node: each handler holds `&mut self`, so it is one step.
- Integer widths: terms, indices, counters and sizes are unbounded, so 64-bit wrap-around is not modelled.
- The counter that request identifiers come from is not modelled: identifiers are parameters, and the commit guard asks that a leader's be new. Timestamps, sampled memory usage and clock readings are parameters too.
- RaftNodes.RaftNode.ApplyCommittedEntries: `apply_fn` is modelled by the index it rejects, if any; what else it does is not modelled.
- CatchUpRuns.CatchUpInRun: states that the run can go on to the caught-up state; fair delivery, by which it would have to, is not modelled, because the source has no scheduler that could promise it.
- RateLimiters.RateLimiter.Wait: calls are taken one at a time, as the lock held across the sleep makes them; the conversion of an `f64` rate into an interval is a parameter.
- PeakTracker.NoUpdateLost: a thread that calls `update_peak` again counts as another thread; memory ordering beyond one atomic location is not modelled.
- Brokers.DeliveryIsExact: each broker method is one step; the interleavings of concurrent calls are the subject of `BrokerCalls`.
- BrokerCalls.InterleavedDelivery: clearing the subscriptions is one step, although the concurrent map clears one shard after the other; channel capacity, lagging and dropped receivers are not modelled.
- Batches.PublishBatch: covers chunking and assignment; the spawned tasks, their latencies and metrics are not modelled.
- Batches.MergeSplit: speaks of the messages; the identifiers and timestamps of the batches made are not modelled.
- `active_subscriptions`, connection capacity, error tables, configuration builders, consumers, publishers, transactions, benchmarks and validators: lookups, defaults and single-branch updates.
