# The Raft replica of the scalable key-value store, in Dafny

The project models the replica of the Java server: its role and term
(`RaftState`), its SQLite storage (log table, key-value table, commit and applied
index) and the node that replicates, commits, applies and elects (`RaftNode`). It
proves what one node does, and then what every run of a cluster of such nodes
keeps: one leader per term, log matching, leader completeness, state machine
safety.

## Layout

- `Types.dfy`, `Logs.dfy`: entries, requests, the reference merge of a log, the
  table as the result of applying entries.
- `LogTable.dfy`, `Storage.dfy`, `RaftState.dfy`, `RaftNode.dfy`: the three
  classes, with the loops of the program. Each `RaftNode` method is proved to
  compute a function of `Replicas.dfy` on the node's abstract value.
- `Replicas.dfy`: those functions. `NodeOutcomes.dfy`: what each of them leaves in
  every field, said from the fields alone. `NodeProperties.dfy`: what follows for
  every state and request.
- `Quorums.dfy`: the arithmetic of `> peers.size() / 2`.
- `Cluster.dfy`: nodes, a network that may lose, delay, duplicate and reorder
  requests, and the actions. A run is a sequence of states and actions.
- `BaseInvariant.dfy`, `BaseSteps.dfy`: the invariant that needs no assumption
  about how voters compare logs, and its preservation by every action.
- `SafeInvariant.dfy`, `SafeSteps.dfy`: the invariant behind leader completeness
  and state machine safety, and its preservation when voters compare logs.
- `Steps.dfy`: every action, every run.
- `Safety.dfy`, `Delivery.dfy`, `Requests.dfy`, `CatchUp.dfy`, `Votes.dfy`: the
  theorems about runs.
- `Campaigns.dfy`: runs built step by step, for any set of nodes, in which a node
  is elected and commits. `Elections.dfy`, `CommitAgreement.dfy`,
  `LateReplies.dfy`: exactly when elections are safe, when committed prefixes
  agree, and when a reply may be processed late.

## Modelling decisions

- **Receiver of appendEntries.** Line 154 of RaftNode.java calls the node's own
  `appendEntries`, while the comment on line 147 and raft.proto speak of the
  follower. `RaftNode.dfy` keeps the self-call, which has its own theorem
  (`ProposeEntry`, `PutThenGet`). In the cluster the receiver is another node.
  The program passes the follower's identifier as `leaderId`, which the receiver
  never reads; the model does the same.
- **Atomicity.** An exchange (send, deliver, process the reply) may be one action.
  It may also come apart: a request is only sent, any request ever sent is
  delivered at any later time and any number of times, and a reply is processed
  by an action of its own, with proposals and elections in between. The leader
  reads its last index after the reply (lines 157-158) and so records more than
  was sent if it has appended since. The action `Reply` therefore processes a
  success only when the follower has accepted the leader's log as it is by then,
  which the program does not check. `LateReplyExact` says that this condition is
  exactly what keeps match indices sound, `LateReplySound` that it holds for a
  reply to a request when nothing was appended since the request was built, and
  `LateReplyLosesCommits` that one reply outside it makes two nodes commit
  different entries. A node builds requests only while it is leader.
- **Voter.** The program has no RequestVote handler. The cluster assumes of it
  what `VoterContract` says: its term never goes down, a grant leaves it at the
  ballot's term or above, at most one candidate gets its vote in a term, and, with
  `checked`, it compares logs as in section 5.4.1 of the Raft paper (Ongaro and
  Ousterhout, "In Search of an Understandable Consensus Algorithm"). Theorems
  without `checked` do not need the comparison; `CommitsAgreeIff` shows that the
  others do. Vote requests may be delivered
  late and repeatedly and their replies may be lost.
- **Winning.** Lines 96-97 do not check again that the node is still a candidate
  in the term of its round. The `Win` action does; `LateRoundElectsSecondLeader`
  shows what happens otherwise.
- **Quorum.** `peers` does not contain the node itself, and the test
  `> peers.size() / 2` is a majority of all nodes only when the number of peers is
  even. The theorems about runs assume an odd number of nodes;
  `ElectionSafeIffPeersEven` shows that this is exactly what election safety
  needs, and `CommitsAgreeIff` that agreement on commits needs it too. A node with
  three peers is outside both guarantees.
- **Storage.** `getLogEntries` has no ORDER BY; index order is assumed. SQL
  statements succeed. Terms and indices are natural numbers without the 64-bit
  bound of the program.

## Model

| member | source | states |
|---|---|---|
| Logs.Overlap | server/src/main/java/com/kvstore/raft/RaftNode.java:204-213 | the overlap of incoming and stored entries: equal terms below it, a mismatch or the end of the log at it |
| Logs.OverlapUnique | server/src/main/java/com/kvstore/raft/RaftNode.java:204-213 | those properties leave only one possible overlap |
| Logs.MergeStep | server/src/main/java/com/kvstore/raft/RaftNode.java:204-215 | one iteration of the skip, truncate or append loop takes the reference merge of i entries to that of i+1, landing at index prevLogIndex+1+i |
| Logs.MergeKeepsCommonPrefix | server/src/main/java/com/kvstore/raft/RaftNode.java:204-215 | what the stored log and the sender's log have in common survives the merge |
| Logs.ApplyAllConcat | server/src/main/java/com/kvstore/raft/RaftNode.java:228-242 | applying in two portions is applying in one |
| Logs.ApplyAllLookup | server/src/main/java/com/kvstore/storage/SQLiteStorage.java:183-210 | a read finds the last write of the key, or falls through when there is none |
| Logs.InterruptedApplyIsHarmless | server/src/main/java/com/kvstore/raft/RaftNode.java:228-237 | applying a part of the pending entries and then all of them gives the table of one pass |
| Logs.SliceExact | server/src/main/java/com/kvstore/storage/SQLiteStorage.java:61-82 | a range of the log holds the existing entries of its indices and no others |
| Logs.WritesUnique | server/src/main/java/com/kvstore/storage/SQLiteStorage.java:183-192 | writing entries in order leaves, per key, the last write or what was there, and that fixes the table |
| LogTable.MaxIndex | server/src/main/java/com/kvstore/storage/SQLiteStorage.java:105-116 | the greatest key of the log table, 0 when empty |
| LogTable.InsertAppends | server/src/main/java/com/kvstore/storage/SQLiteStorage.java:41-59 | a row inserted without a key extends the sequence by one |
| LogTable.DeleteFromTruncates | server/src/main/java/com/kvstore/storage/SQLiteStorage.java:173-181 | deleting from an index cuts the sequence there |
| LogTable.TableRefinesSequence | server/src/main/java/com/kvstore/storage/SQLiteStorage.java:41-116 | under any interleaving of appends and suffix deletions the keys are exactly 1..MAX(index) and the rows are the sequence |
| Storage.SQLiteStorage.constructor | server/src/main/java/com/kvstore/storage/SQLiteStorage.java:25-39 | a fresh database is empty with both indices 0 |
| Storage.SQLiteStorage.AppendLogEntry | server/src/main/java/com/kvstore/storage/SQLiteStorage.java:41-59 | the log grows by the entry; the generated key is its index |
| Storage.SQLiteStorage.GetLogEntries | server/src/main/java/com/kvstore/storage/SQLiteStorage.java:61-82 | the loop over the rows returns the entries of the index range that exist, in order |
| Storage.SQLiteStorage.GetLogEntry | server/src/main/java/com/kvstore/storage/SQLiteStorage.java:84-103 | the entry at an index, or none |
| Storage.SQLiteStorage.GetLastLogIndex | server/src/main/java/com/kvstore/storage/SQLiteStorage.java:105-116 | the length of the log |
| Storage.SQLiteStorage.GetLastLogTerm | server/src/main/java/com/kvstore/storage/SQLiteStorage.java:118-125 | the term of the last entry, 0 for an empty log |
| Storage.SQLiteStorage.SetCommitIndex | server/src/main/java/com/kvstore/storage/SQLiteStorage.java:140-148 | sets the commit index and nothing else |
| Storage.SQLiteStorage.SetLastApplied | server/src/main/java/com/kvstore/storage/SQLiteStorage.java:163-171 | sets the applied index and nothing else |
| Storage.SQLiteStorage.DeleteLogEntriesFrom | server/src/main/java/com/kvstore/storage/SQLiteStorage.java:173-181 | keeps the entries below the index |
| Storage.SQLiteStorage.UpdateKeyValue | server/src/main/java/com/kvstore/storage/SQLiteStorage.java:183-192 | the key maps to the value, all others are kept |
| Storage.SQLiteStorage.Get | server/src/main/java/com/kvstore/storage/SQLiteStorage.java:198-210 | the value of the key, or none |
| RaftStates.RaftState.constructor | server/src/main/java/com/kvstore/raft/RaftState.java:12-16 | a follower of term 0 |
| RaftStates.RaftState.BecomeFollower | server/src/main/java/com/kvstore/raft/RaftState.java:30-34 | follower of the given term, vote cleared |
| RaftStates.RaftState.BecomeCandidate | server/src/main/java/com/kvstore/raft/RaftState.java:36-40 | candidate of the next term |
| RaftStates.RaftState.BecomeLeader | server/src/main/java/com/kvstore/raft/RaftState.java:42-44 | leader, term kept |
| RaftStates.RaftState.SetCurrentTerm | server/src/main/java/com/kvstore/raft/RaftState.java:46-48 | sets the term and nothing else |
| RaftNodes.RaftNode.constructor | server/src/main/java/com/kvstore/raft/RaftNode.java:37-50 | a follower of term 0 over the given storage |
| RaftNodes.RaftNode.StartElection | server/src/main/java/com/kvstore/raft/RaftNode.java:78-87 | candidate of the next term, voting for itself; the vote request carries the last index and term |
| RaftNodes.RaftNode.OnVoteReply | server/src/main/java/com/kvstore/raft/RaftNode.java:127-136 | a higher term makes it a follower of that term and no grant; otherwise the grant counts |
| RaftNodes.CountGranted | server/src/main/java/com/kvstore/raft/RaftNode.java:90-93 | the number of votes that were granted |
| RaftNodes.RaftNode.FinishElection | server/src/main/java/com/kvstore/raft/RaftNode.java:89-99 | it leads exactly when the grants and its own vote exceed half the number of peers |
| RaftNodes.RaftNode.BecomeLeader | server/src/main/java/com/kvstore/raft/RaftNode.java:278-285 | the loop resets next and match index of every peer |
| RaftNodes.RaftNode.ApplyCommittedEntries | server/src/main/java/com/kvstore/raft/RaftNode.java:228-242 | the loop writes exactly the entries after the applied index up to the commit index, in order |
| RaftNodes.RaftNode.CountReplicas | server/src/main/java/com/kvstore/raft/RaftNode.java:169-174 | the loop counts the node itself and the peers whose match index reaches n |
| RaftNodes.RaftNode.UpdateCommitIndex | server/src/main/java/com/kvstore/raft/RaftNode.java:165-181 | the upward loop that commits and applies in every iteration ends where the downward search of the greatest committable index says, applied once |
| RaftNodes.RaftNode.AppendEntries | server/src/main/java/com/kvstore/raft/RaftNode.java:183-226 | the whole handler: term check, step-down, check of the previous entry, merge, commit, apply, and the result |
| RaftNodes.RaftNode.MergeEntries | server/src/main/java/com/kvstore/raft/RaftNode.java:204-215 | the in-place loop computes the reference merge |
| RaftNodes.RaftNode.BuildAppendRequest | server/src/main/java/com/kvstore/raft/RaftNode.java:149-154 | the request describes the entry before the next index and ships the log to its end |
| RaftNodes.RaftNode.OnAppendReply | server/src/main/java/com/kvstore/raft/RaftNode.java:156-162 | success moves next and match index to the log's end and recounts; failure moves the next index down, not below 1 |
| RaftNodes.RaftNode.SendAppendEntries | server/src/main/java/com/kvstore/raft/RaftNode.java:148-163 | with the self-call as written the request always succeeds |
| RaftNodes.RaftNode.ReplicateEntry | server/src/main/java/com/kvstore/raft/RaftNode.java:268-276 | with the self-call, for any number of peers, everything is committed and applied on return and every peer counts as holding it |
| RaftNodes.RaftNode.ProposeEntry | server/src/main/java/com/kvstore/raft/RaftNode.java:253-276 | refused and without effect unless leader; otherwise the entry is appended, committed, applied and readable, and nothing but the peers' indices changes besides |
| RaftNodes.RaftNode.PutThenGet | server/src/main/java/com/kvstore/server/KVStoreServiceImpl.java:18-42 | a put accepted by the leader is what a following get returns |
| Replicas.HighestCommittable | server/src/main/java/com/kvstore/raft/RaftNode.java:165-181 | the maximum of the commit index and the indices of the current term with a quorum |
| Replicas.CommitToTwice | server/src/main/java/com/kvstore/raft/RaftNode.java:176-177 | committing and applying in steps is doing it once at the end |
| Replicas.ReplicationCountAntitone | server/src/main/java/com/kvstore/raft/RaftNode.java:169-175 | no more replicas hold a longer prefix than a shorter one |
| Replicas.SelfSendChangesNothing | server/src/main/java/com/kvstore/raft/RaftNode.java:148-154 | a node accepts its own request and nothing changes |
| NodeOutcomes.StartElectionOutcome | server/src/main/java/com/kvstore/raft/RaftNode.java:78-87 | the node becomes candidate of the next term and votes for itself, nothing else changes; the ballot describes the end of its log |
| NodeOutcomes.VoteReplyOutcome | server/src/main/java/com/kvstore/raft/RaftNode.java:127-136 | a reply of a higher term makes it a follower of that term without a vote and grants nothing; any other reply changes nothing and grants what it says |
| NodeOutcomes.BecomeLeaderOutcome | server/src/main/java/com/kvstore/raft/RaftNode.java:278-285 | every peer starts at the last index plus one with nothing acknowledged, all else is kept |
| NodeOutcomes.BuildAppendOutcome | server/src/main/java/com/kvstore/raft/RaftNode.java:149-154 | the request starts at the peer's next index, 1 if it has none, describes the entry before it and carries all entries from there on |
| NodeOutcomes.AppendOutcome | server/src/main/java/com/kvstore/raft/RaftNode.java:183-226 | when a request is accepted, and what refusal and success leave in every field: term, role and vote, the log from the first new entry on, and the announced entries committed and applied |
| NodeOutcomes.ReplyOutcome | server/src/main/java/com/kvstore/raft/RaftNode.java:156-162 | a success is noted for that peer alone, a refusal lowers its next index by one but not below 1 |
| NodeOutcomes.UpdateCommitOutcome | server/src/main/java/com/kvstore/raft/RaftNode.java:165-181 | a moved commit index has the current term and a quorum, and everything up to it has been applied, the entries not applied before written in order |
| NodeOutcomes.UpdateCommitMissesNone | server/src/main/java/com/kvstore/raft/RaftNode.java:165-181 | no greater index of the current term has a quorum |
| NodeOutcomes.FollowerReads | server/src/main/java/com/kvstore/raft/RaftNode.java:217-242 | a follower whose table is its committed entries stays one after an accepted request, with the announced index committed and applied |
| RaftNodes.ProposeOutcome | server/src/main/java/com/kvstore/raft/RaftNode.java:253-276 | with every peer acknowledging, a proposal ends up last in the log, committed, applied and readable, and nothing else changes |
| NodeProperties.AppendIdempotent | server/src/main/java/com/kvstore/raft/RaftNode.java:183-226 | delivering an accepted request again leaves log, indices and table as they are and succeeds again, for every state and request |
| NodeProperties.CommittedPrefixKeptIff | server/src/main/java/com/kvstore/raft/RaftNode.java:204-220 | the committed prefix survives an accepted request exactly when the first new entry lies beyond the commit index |
| NodeProperties.AppendKeepsOrder | server/src/main/java/com/kvstore/raft/RaftNode.java:204-237 | then applied <= commit <= last is kept, neither index goes down, and the table stays a replay of the applied entries |
| NodeProperties.OrderKeptIff | server/src/main/java/com/kvstore/raft/RaftNode.java:204-220 | the indices stay in order and never go down exactly when an accepted request stores nothing new or reaches the commit index |
| NodeProperties.ConflictBelowCommitExample | server/src/main/java/com/kvstore/raft/RaftNode.java:206-219 | a request with a conflict below the commit index that moves the commit index back |
| NodeProperties.CommitToReplays | server/src/main/java/com/kvstore/raft/RaftNode.java:228-237 | applying up to a commit index keeps the table equal to the replay of the applied entries |
| NodeProperties.GetIsLatestApplied | server/src/main/java/com/kvstore/storage/SQLiteStorage.java:198-210 | a read returns the value at the greatest applied index with the key, and nothing exactly when there is none |
| NodeProperties.InterruptedApply | server/src/main/java/com/kvstore/raft/RaftNode.java:228-237 | stopping the apply loop anywhere and restarting from the saved index gives the state of one full pass |
| NodeProperties.CommitTargetIsMaximum | server/src/main/java/com/kvstore/raft/RaftNode.java:165-181 | the new commit index is the maximum of the old one and the committable indices, and nothing else is |
| NodeProperties.QuorumForSmaller | server/src/main/java/com/kvstore/raft/RaftNode.java:169-175 | a quorum for an index is one for every smaller index |
| NodeProperties.FirstRequestIsEmpty | server/src/main/java/com/kvstore/raft/RaftNode.java:278-285 | a new leader's first request describes its last entry and carries none, and it counts nobody but itself |
| Quorums.MajoritiesMeet | server/src/main/java/com/kvstore/raft/RaftNode.java:90-96 | two quorums of an odd number of nodes share a node |
| Quorums.QuorumsMeetIffPeersEven | server/src/main/java/com/kvstore/raft/RaftNode.java:169-175 | every two quorums share a node exactly when the number of peers is even |
| BaseInvariant.CanonAgree | server/src/main/java/com/kvstore/raft/RaftNode.java:199-202 | two logs in line with the leaders' logs that agree on a term at an index are equal up to it |
| BaseInvariant.MergeUnderReign | server/src/main/java/com/kvstore/raft/RaftNode.java:199-215 | a log that passes the check of the previous entry ends up beginning with the leader's log up to the end of the request, and if it changed it is exactly that |
| BaseSteps.WinnerIsFirst | server/src/main/java/com/kvstore/raft/RaftNode.java:90-97 | a winner has a majority of votes and its term has no leader yet |
| BaseSteps.DeliveredLog | server/src/main/java/com/kvstore/raft/RaftNode.java:199-215 | the same for any node and any request on the network |
| BaseSteps.DeliverBase | server/src/main/java/com/kvstore/raft/RaftNode.java:183-226 | a delivery keeps one leader per term, log matching and the acknowledged prefixes |
| BaseSteps.ReplyBase | server/src/main/java/com/kvstore/raft/RaftNode.java:156-162 | processing a reply keeps match indices within what was accepted and next indices usable |
| SafeInvariant.BackedAgree | server/src/main/java/com/kvstore/raft/RaftNode.java:165-181 | of two committed prefixes one begins with the other |
| SafeSteps.UpToDateHolds | server/src/main/proto/raft.proto:14-19 | a candidate at least as up to date as a voter has everything of the voter's log that may be committed |
| SafeSteps.WinnerHolds | server/src/main/java/com/kvstore/raft/RaftNode.java:90-97 | a winner has everything earlier leaders committed or still may commit |
| SafeSteps.DeliverKeepsLocked | server/src/main/java/com/kvstore/raft/RaftNode.java:204-215 | a truncation never removes an accepted entry that may be committed |
| SafeSteps.CommittedSurvives | server/src/main/java/com/kvstore/raft/RaftNode.java:204-215 | in a reachable state no conflict ever reaches the committed prefix |
| SafeSteps.CountedIsCommitted | server/src/main/java/com/kvstore/raft/RaftNode.java:168-175 | an index that passes the count has been accepted by a majority of the nodes in the leader's term |
| SafeSteps.DeliverSafe | server/src/main/java/com/kvstore/raft/RaftNode.java:183-226 | a delivery keeps leader completeness and the committed prefixes |
| Steps.ActionKeeps | server/src/main/java/com/kvstore/raft/RaftNode.java:78-285 | every action keeps the invariants |
| Steps.RunKeeps | server/src/main/java/com/kvstore/raft/RaftNode.java:78-285 | every state of every run satisfies them |
| Steps.RunGrows | server/src/main/java/com/kvstore/raft/RaftNode.java:78-285 | over a run terms, votes, acknowledgements, leaders and their logs only grow |
| Safety.ElectionSafety | server/src/main/java/com/kvstore/raft/RaftNode.java:78-99 | no run has two leaders of one term, at the same or at different times |
| Safety.LogMatching | server/src/main/java/com/kvstore/raft/RaftNode.java:148-215 | logs of any nodes at any times with the same term at the same index are equal up to it |
| Safety.TermDiscipline | server/src/main/java/com/kvstore/raft/RaftNode.java:187-215 | terms of a node never go down, bound the terms in its log, and log terms ascend |
| Safety.MatchIndexSound | server/src/main/java/com/kvstore/raft/RaftNode.java:149-162 | a leader can always build its next request, and its match index for a node still in its term counts shared entries |
| Safety.CommitMeaning | server/src/main/java/com/kvstore/raft/RaftNode.java:165-181 | whenever a step of a run moves a leader's commit index, a majority has accepted the log up to there in the leader's term, and those still in the term hold the leader's entries |
| Safety.CommittedPrefixesAgree | server/src/main/java/com/kvstore/raft/RaftNode.java:165-237 | committed prefixes of any nodes at any times are prefixes of one another, and indices are in order |
| Safety.StateMachineSafety | server/src/main/java/com/kvstore/raft/RaftNode.java:165-237 | logs agree up to the smaller commit index, tables are replays of the applied entries, and equal commit or applied indices mean equal tables |
| Safety.AppliedIsCommitted | server/src/main/java/com/kvstore/raft/RaftNode.java:217-242 | in every state of every run each node has applied exactly what it has committed, and its table is its committed entries written in order |
| Safety.LeaderCompleteness | server/src/main/java/com/kvstore/raft/RaftNode.java:165-181 | what any node has committed at any time is in the log of every leader of a higher term, at any time, and of every later leader of the same term |
| Delivery.CommittedStays | server/src/main/java/com/kvstore/raft/RaftNode.java:165-237 | committed entries stay for the rest of the run, and commit and applied index stay in order and never go down |
| Delivery.RequestOrigin | server/src/main/java/com/kvstore/raft/RaftNode.java:148-154 | every request on the network was built by an earlier action from a leader's state |
| Delivery.FollowerCommit | server/src/main/java/com/kvstore/raft/RaftNode.java:217-220 | the new commit index is the announced one, never beyond what the request reaches, and up to there the log is the sender's log when it built the request |
| Delivery.LateRequestNeverShortens | server/src/main/java/com/kvstore/raft/RaftNode.java:183-226 | in every state of every run, a late request whose entries the receiver has accepted leaves its log as it is |
| Delivery.OlderRequestChangesNothing | server/src/main/java/com/kvstore/raft/RaftNode.java:183-226 | once a request has been accepted, that request and every older one of its term change nothing at any later time of the run: no log, index, table, term or vote |
| Requests.NextRequest | server/src/main/java/com/kvstore/raft/RaftNode.java:148-163 | after a refusal the next request to that peer starts one index lower; after a success it carries exactly the entries appended since, however much happens in between |
| CatchUp.OneExchange | server/src/main/java/com/kvstore/raft/RaftNode.java:148-163 | an exchange with a follower of no higher term succeeds or lowers the next index by one |
| CatchUp.CatchUpTerminates | server/src/main/java/com/kvstore/raft/RaftNode.java:148-163 | within as many exchanges as the next index says the follower's log begins with the leader's, and the leader knows |
| Elections.SplitElection | server/src/main/java/com/kvstore/raft/RaftNode.java:90-97 | for any odd number of peers there is a run with two leaders of one term |
| Elections.ElectionSafeIffPeersEven | server/src/main/java/com/kvstore/raft/RaftNode.java:90-97 | all runs have at most one leader per term exactly when the number of peers is even |
| Elections.CountSufficesInRound | server/src/main/java/com/kvstore/raft/RaftNode.java:89-99 | while the node is still a candidate of its round, a passing count means its term has no leader |
| Votes.ElectVotes | server/src/main/java/com/kvstore/raft/RaftNode.java:78-87 | in every run, starting an election leaves the node's own vote in its field and in the history of its new term |
| Votes.GrantNamesCandidate | server/src/main/proto/raft.proto:14-24 | directly after a grant the voter's field names the candidate, and the history has it in the ballot's term |
| Votes.ReplyReceived | server/src/main/java/com/kvstore/raft/RaftNode.java:127-136 | after a reply the candidate's term is at least the reply's; a higher term leaves a follower with no vote counted, otherwise only a grant of its round is |
| Votes.VotedForIsAVote | server/src/main/java/com/kvstore/raft/RaftNode.java:78-81 | in every state of every run, the candidate in a node's field got its vote in some term up to its own |
| Elections.LateRoundElectsSecondLeader | server/src/main/java/com/kvstore/raft/RaftNode.java:89-99 | when it is not, any two or more nodes reach a state where the passing count makes a second leader of the same term |
| CommitAgreement.CommitsAgreeIff | server/src/main/java/com/kvstore/raft/RaftNode.java:90-97 | committed prefixes agree in all runs exactly when the number of nodes is odd and, unless there is only one, voters compare logs |
| CommitAgreement.UncheckedVotersLoseCommits | server/src/main/proto/raft.proto:14-19 | when voters ignore the last index and term of the request, any odd number of nodes above one has a run in which two of them commit different entries at index 1 |
| CommitAgreement.HalvesCommit | server/src/main/java/com/kvstore/raft/RaftNode.java:169-175 | with an odd number of peers two halves commit different entries, compared logs or not |
| Campaigns.ElectBy | server/src/main/java/com/kvstore/raft/RaftNode.java:78-99 | any quorum whose nodes may still vote and find the log up to date elects the candidate, and the other nodes are left as they are |
| Campaigns.CommitBy | server/src/main/java/com/kvstore/raft/RaftNode.java:165-181 | a new leader commits its entry with any quorum of followers that accept it |
| LateReplies.LateReplyExact | server/src/main/java/com/kvstore/raft/RaftNode.java:156-158 | processing a success keeps match indices within what the peers accepted exactly when the follower has accepted the whole log as it is by then, and then keeps the whole invariant |
| LateReplies.LateReplySound | server/src/main/java/com/kvstore/raft/RaftNode.java:148-158 | a success of a request may be processed at any later time while its leader leads and has appended nothing since; if the follower accepted nothing further, only then |
| LateReplies.LateReplyLosesCommits | server/src/main/java/com/kvstore/raft/RaftNode.java:156-177 | in any odd number of nodes above one, one success processed after an append commits an entry a majority lacks, and that majority commits another at the same index |

## Left out

- gRPC channels and stubs, futures, thread pools, timers and random timeouts: only the actions they trigger are kept; an election can start in any role at any time.
- The nested futures of `startElection` and `requestVote`, whose types do not fit together in the program; the intended boolean per peer is modelled.
- An election round whose later vote requests carry a newer term than the round itself: the request is built with the term of the round.
- A heartbeat task that runs after its node has stopped leading: requests are built by leaders only.
- JDBC, the SQL texts, swallowed exceptions, database initialisation on reopening, and the columns for term and vote, which the program never writes.
- Crashes and restarts, except for an interrupted apply loop.
- The RequestVote handler, which the program does not contain.
- `KVStoreServiceImpl`, `KVStoreServer`, `ServerConfig` beyond passing calls on, and the whole C++ client.
- Progress under timing, such as that some election succeeds: decided by timers and the network.
- Overflow of 64-bit terms and indices.
