# SimKV: a Dafny model and its proofs

SimKV is a replicated key-value store: Raft nodes with a write-ahead log and simulated disks, driven by a
deterministic simulator, and a linearizability checker that judges the histories its clients record. This
project models the parts of it that have to be right and proves what they promise. Verify it with
`dafny verify dfyconfig.toml`.

**The cluster.** `RaftNode` gives every handler, timer callback, crash and restart of a node as a function
on its fields; `NodeObject` has the same handlers as methods that update an object and its two disks, each
proved equal to its function. `RaftCluster` is the whole system: one step is one handler or timer
callback, the network is a set of sent packets that may be lost, duplicated, delayed and reordered, and
nodes crash and restart at any time. Membership is fixed and of any size, every node has each other member
once as a peer, snapshots are off in the cluster and both injected-bug flags are off, which is how
`src/harness/runner.cpp` and `src/server/server.cpp` build it. `RaftProtocol` and `RaftSafety` hold the moves
behind those steps, a ghost history (ballots, elections, the log of each term's leader, who stored what) and the
inductive invariant. `HandlerRules` says of every handler what it sends and what it changes, in terms of messages,
plain logs and counts.
`RaftTheorems` states the results over every run: Election Safety, Leader Append-Only, Log Matching and
Leader Completeness (Figure 3 and sections 5.2 to 5.4 of the extended Raft paper by Ongaro and Ousterhout).
`StepEffects` says what a step does beyond the protocol's moves, `ElectionTimer` is about timers whose
cancelled callbacks are still delivered, `Backtracking` about where a leader's retries lead, `FollowerMerge` about
what an accepted AppendEntries does to a log, `CommitRule` about what is committed and applied. `CommitSafety` and `StateMachineSafety` are about commitment, two
properties the code does not have in general, each with the exact condition under which it does; `CommitGap` and
`FollowerGap` are runs in which the conditions fail, and `RetryGap` one in which retries lead nowhere, built from
the steps of `Scenario`.

**The checker.** `Checker` is the Wing-Gong search over a mutable bitmap and the enumeration of the puts a
crash left open; `Locality` is the decomposition by key, with the locality theorem of Herlihy and Wing for
this store. Both are about the operations the checker keeps. `Linearizability` defines what a recorded history
means without the checker's filter (an operation whose outcome nobody saw may take effect at any time after
its invocation, or never) and says what a verdict is worth for the history as it is recorded: a positive one is
never wrong, a negative one is not either if only reads are recorded as lost. `LostWrites` and `CheckerLimit` have
linearizable histories it rejects. `Workload` is the closed-loop client driver whose histories the checker reads.
`ClientRecord` joins the two: on the histories that the clients record, a positive verdict is right about what
happened, and a negative one is if no operation was answered by a crash and only reads timed out or are open. A
crashed cas is recorded as a mismatch and a crashed read as a read of nothing, so without the first condition it
need not be.

**Storage and simulation.** `KvStore` is the state machine, `CompactedLog`, `Wal`, `Codec`, `Wire`, `RpcCode` and
`Snapshot` are the log with a compaction offset, the write-ahead log and its disk, the byte formats and the
snapshots; `WalIntegrity` is about what the checksum detects; `Prng` and
`EventLoop` are the bounded draw, the shuffle, the event queue and the run loop.

Where the code and its documentation differ, the model follows the code: `docs/design.md:143` speaks of a
fallback above 30 operations that the checker does not have, and the comment at `src/checker/own_checker.cpp:98`
excludes reads and cas of crashed nodes, which the clients do not record as such.

A false promise is stated as such.

- `CommitGap.CommittedEntryLost` is a run in which an entry committed by the leader of term 1 is missing from
  the log of the leader of term 2, because a success reply is credited with everything sent so far and not
  with the request it answers. `CommitSafety.BackedIffCredited` is the exact condition, at that reply: match
  points are backed by real storage in every state of a run if and only if no reply is credited with more than
  its sender has stored. Commit points of such runs never disagree.
- State Machine Safety of all nodes needs one more condition, at line 292 of `src/raft/node.cpp`, where a
  follower may commit past the entries a request verified. `StateMachineSafety.AgreeIffMatch` is the exact
  condition in runs of the kind above: what all nodes have applied agrees if and only if every follower that
  commits has, at the index it commits, the term its leader had there. Only full requests (64 entries) that
  commit past their last entry can break it (`StateMachineSafety.VouchedRunsAgree`), and
  `FollowerGap.AppliedDisagree` is a run in which one does: two nodes have applied 65 entries and differ in
  the last.
- `LostWrites.TimedOutPutRejected` and `LostWrites.CrashedPutRejected` are linearizable histories that the
  checker rejects because of one write whose outcome nobody saw, and `CheckerLimit.SampleMissesWitness` is one
  with 16 crashed puts on one key. `ClientRecord.CrashedCasRejected` is a run of the clients in which a cas takes
  effect although its node crashed: the recorded history has no order, what happened has one.
- `docs/design.md:120-122` promises that a refusal lets the leader jump to the divergence point.
  `RetryGap.RetriesForever` is a run after which no number of refusals and retries gets there: the follower
  repeats a term the leader lacks, and the index it names sends the leader back to the same place.
  `Backtracking.BacktrackingIff` is the exact condition, for every leader and every node of its term in every run.
- A truncation below the commit index is possible (the first run above leads to one), so
  `Snapshot.RunAligned` allows any; that the map is the replay of the log is `Snapshot.RunReplays`, for runs in
  which nothing committed is cut.

## Model

| member | source | states |
|---|---|---|
| `RaftTheorems.ElectionSafety` | src/raft/node.cpp:218-249 | over every run with crashes, loss, duplication and reordering, no two nodes are ever leader in the same term |
| `RaftTheorems.VotesAreFinal` | src/raft/node.cpp:218-237 | a vote cast in a term is the same at every later moment of that term, across crashes |
| `RaftTheorems.TermsNeverDecrease` | src/raft/node.cpp:454-472 | a node's term never goes down over any run, restarts included |
| `RaftTheorems.LeaderAppendOnly` | src/raft/node.cpp:107-128 | from the moment it leads, a node only adds to its log for as long as it stays in that term |
| `RaftTheorems.LogMatching` | src/raft/node.cpp:255-299 | two logs, on any nodes at any times, with the same term at an index are identical up to that index |
| `RaftTheorems.LogsAreOrdered` | src/raft/log.cpp:8-18 | in every reachable log terms never decrease or exceed the node's own, and positions are indices |
| `RaftTheorems.AppendsArePieces` | src/raft/node.cpp:520-544 | every AppendEntries on the network was sent by a node that led its term by then, and is a contiguous piece of the log that leader had |
| `RaftTheorems.PiecesOfTheLeader` | src/raft/node.cpp:520-544 | it is a piece of the log of whoever leads that term at any moment, once that log is long enough |
| `RaftTheorems.LeadersKnowNext` | src/raft/node.cpp:494-544 | in every run a leader has a positive next index for every other member, so the subtraction at a success reply never wraps |
| `RaftTheorems.LeaderCompleteness` | src/raft/node.cpp:494-514 | if each of a majority stored the term-t entry at n while in term t, every leader of a later term has that entry and all before it |
| `StepEffects.Sends` | src/raft/node.cpp:520-544 | whatever a step sends as AppendEntries is a piece of a leader's log, carries its commit index, and reaches the end of the log unless it is full |
| `StepEffects.StepPoints` | src/raft/node.cpp:301-321 | a leader's match point is its own, none yet, the one it had, or what a success reply was credited with |
| `StepEffects.StepKind` | src/raft/node.cpp:167-212 | what every step does to commit index, applied index and map: nothing, a reset, the commit rule, or a follower's commit |
| `RaftCluster.StepsOf` | src/raft/node.cpp:167-212 | every run of the cluster is one that names its steps |
| `CommitSafety.BackedIffCredited` | src/raft/node.cpp:301-321 | over any run, match points are backed by past storage in every state if and only if every success reply is credited with what its sender has stored |
| `CommitSafety.CommitHasMajority` | src/raft/node.cpp:550-565 | a commit point in a backed state has been stored by a majority in the leader's term |
| `CommitSafety.CommittedIsCarried` | src/raft/node.cpp:550-565 | what a leader may commit in a backed state is in the log of every leader of a later term |
| `CommitSafety.CreditedCommitsAgree` | src/raft/node.cpp:550-565 | in a run whose success replies are all credited, the leaders' commit points never disagree |
| `StateMachineSafety.AgreeIffMatch` | src/raft/node.cpp:286-299 | in such a run, what any two nodes have applied at any two moments agrees and each map is the replay of it, if and only if at every step that makes a follower commit its log has at that index the term its leader had there |
| `StateMachineSafety.MatchingRunsAgree` | src/raft/node.cpp:286-299 | the half of it that gives agreement of all applied prefixes, over every such run |
| `StateMachineSafety.AgreeGivesMatch` | src/raft/node.cpp:286-299 | the other half, over every run: a step at which the terms differ leaves two nodes with applied prefixes that disagree |
| `StateMachineSafety.SentWith` | src/raft/node.cpp:535-547 | the commit index a request carries was its sender's when it was sent, in a step after which the sender leads the request's term |
| `StateMachineSafety.VouchedRunsAgree` | src/raft/node.cpp:286-299 | if full requests make no follower commit past their last entry, all applied prefixes agree: no other request can break it |
| `FollowerGap.AppliedDisagree` | src/raft/node.cpp:286-299 | a run with every reply credited with what was stored, whose last step fails the condition above: two running nodes have applied 65 entries and hold different values for one key |
| `FollowerGap.CommitsTooFar` | src/raft/node.cpp:290-294 | a follower that has all entries of a full request commits and applies the entry behind them, whoever wrote it |
| `FollowerGap.StartsOver` | src/raft/node.cpp:309-321 | a refusal without a conflict makes a leader that has committed everything send its first 64 entries with its whole commit index |
| `StateMachineSafety.DurableInLeader` | src/raft/node.cpp:494-514 | a committed prefix is in the log of the leader of every term from the one it was learnt in |
| `StateMachineSafety.MergeSafe` | src/raft/node.cpp:281-288 | merging a request never cuts what the follower has committed |
| `StateMachineSafety.StepSafe` | src/raft/node.cpp:167-212 | every step that meets the condition of `AgreeIffMatch` keeps applied prefixes durable, maps replayed, and the commit indices on the network covered |
| `RaftTheorems.CrashTransparency` | src/raft/node.cpp:763-775 | between handlers what was persisted last is exactly the term, vote and log in memory, so a crash and a restart lose none of them |
| `NodeObject.DurableBytes` | src/raft/node.cpp:763-775 | in every state of every run, stores that hold a node's disk record lose nothing in a crash and decode to its term, vote and log in memory, or are empty and there is nothing to remember |
| `NodeObject.RaftNode.Live` | src/raft/node.cpp:763-775 | an object that performs a node's steps of a whole run is after every step the node of that run, with its bytes on disk decoding to its term, vote and log, and has sent only what is on the network |
| `NodeObject.KeepsInStep` | src/raft/node.cpp:167-212 | every step persists what it changes of term, vote and log |
| `RaftSafety.LaterLeadersHave` | src/raft/node.cpp:781-784 | the induction over terms behind Leader Completeness: a stored majority copy is in the log every later leader was elected with |
| `RaftSafety.RecentEnough` | src/raft/node.cpp:781-784 | a log at least as recent, by the vote rule, as one that holds a copy holds it too |
| `RaftSafety.QuorumsMeet` | src/raft/node.hpp:131 | two vote sets that reach the quorum share a node |
| `RaftSafety.GrantKeeps` | src/raft/node.cpp:218-237 | granting a vote keeps the cluster invariant |
| `RaftSafety.CampaignKeeps` | src/raft/node.cpp:474-492 | standing for election keeps the cluster invariant |
| `RaftSafety.WinKeeps` | src/raft/node.cpp:494-514 | taking office on a quorum of counted votes keeps the cluster invariant |
| `RaftSafety.AcceptKeeps` | src/raft/node.cpp:255-299 | merging an accepted AppendEntries keeps the cluster invariant |
| `RaftSafety.ExtendKeeps` | src/raft/node.cpp:107-128 | a leader appending a command keeps the cluster invariant |
| `RaftCluster.TakeKeeps` | src/raft/node.cpp:167-212 | every handler, timer callback, crash and restart of any node keeps the invariant, adds to the history only, and lowers no term |
| `ElectionTimer.OneLiveCallback` | src/raft/node.cpp:706-751 | in every run a running non-leader has exactly one pending callback that passes the generation check, and a leader none |
| `ElectionTimer.EffectTimer` | src/raft/node.cpp:454-500 | every step of a node keeps the timer discipline, and that candidates and leaders voted for themselves |
| `ElectionTimer.StepBeyond` | src/raft/node.cpp:706-731 | a step in which a node steps down, hears from a leader that is not behind, grants a vote, stands or takes office puts its generation above every callback that was pending; no step lowers it |
| `ElectionTimer.StaleNeverStands` | src/raft/node.cpp:454-472 | in every run, after such a step the one live callback of a non-leader is later than all that were pending before, and none of those ever makes the node stand |
| `HandlerRules.VoteRule` | src/raft/node.cpp:218-237 | for every running node and request: the one answer is a grant if and only if the term is not behind, no other candidate has the vote of that term, and the last term and index are at least those of the log; the vote is then on disk |
| `HandlerRules.StandRule` | src/raft/node.cpp:474-492 | the live callback makes a non-leader stand in the next term with its own vote on disk and ask every peer once, alone it wins; any other callback changes nothing |
| `HandlerRules.ElectionRule` | src/raft/node.cpp:239-249 | a candidate wins if and only if it and its distinct voters are more than half of the cluster; only grants of its own election count, and a later term steps it down |
| `HandlerRules.OfficeRule` | src/raft/node.cpp:494-514 | the winner sends every peer exactly one empty request behind its last entry, with every next index there and nothing acknowledged |
| `HandlerRules.HeartbeatRule` | src/raft/node.cpp:753-757 | a leader's heartbeat sends each peer, up to the first whose next index has run past the log, exactly one request: predecessor, its term, the next 64 entries at most, the commit index; its next index moves behind them, and nobody else sends |
| `HandlerRules.EveryMemberServed` | src/raft/node.cpp:546-548 | in every run, a heartbeat with all next indices in range sends every other member what it is missing and nothing else |
| `HandlerRules.SubmitRule` | src/raft/node.cpp:107-128 | a command is behind the leader's log and on disk, every peer in range is sent what it is missing, and what a majority has reached is committed; others refuse |
| `HandlerRules.ServesAll` | src/raft/node.cpp:520-548 | what replication to a list of peers sends, to whom, and where it stops |
| `HandlerRules.RefuseRule` | src/raft/node.cpp:255-279 | a request behind is refused and changes nothing; one whose predecessor is missing is refused with the hint, and the node follows its sender |
| `HandlerRules.AcceptRule` | src/raft/node.cpp:281-299 | any other request is accepted: the log is kept up to the first entry it did not have and is what was received from there on, on disk, with the commit index and the map that follow |
| `HandlerRules.AckRule` | src/raft/node.cpp:301-309 | an answer of the leader's term sets match point and next index and commits the highest index of its term that a majority has reached; earlier ones are ignored, later ones step it down |
| `HandlerRules.RetryRule` | src/raft/node.cpp:310-321 | a refusal sends the leader behind its own last entry of the named term, or to the named index, and it resends from there if that is within its log |
| `HandlerRules.MajorityRule` | src/raft/node.cpp:550-565 | an index may be committed if and only if its entry is of the leader's term and more than half of the cluster has reached it |
| `HandlerRules.ReadRule` | src/raft/node.cpp:381-398 | a read round is asked of every peer once; a peer not ahead follows and answers with the round; a later term in the answer steps the leader down |
| `HandlerRules.RestartRule` | src/raft/node.cpp:51-102 | a crash leaves only the disk, and a restart begins as a follower with what is on it, nothing committed and a live timer later than any before |
| `Backtracking.BacktrackingIff` | src/raft/node.cpp:262-321 | in every run, a node of the leader's term comes to accept a request after some number of refusals and retries if and only if, where the retries pass, it repeats no term that the leader lacks |
| `Backtracking.ReachesIff` | src/raft/node.cpp:310-321 | on logs: the predecessors tried come to one the follower has if and only if that holds, and then after at most one per entry |
| `Backtracking.KnownTermIsFound` | src/raft/node.cpp:314-318 | a conflicting term that the leader has is resolved by one retry |
| `Backtracking.SucceedsAsLogs` | src/raft/node.cpp:262-321 | refusals and retries of the handlers try exactly those predecessors |
| `Backtracking.LogsArePositive` | src/raft/node.cpp:474-482 | in every run, entries have positive terms, so a conflict term of 0 never names one |
| `RetryGap.RetriesForever` | src/raft/node.cpp:310-321 | a run after which a leader's requests to a node are refused whatever the number of retries |
| `FollowerMerge.MergeOutcome` | src/raft/node.cpp:281-288 | the merge in closed form: nothing if all is known, otherwise the log up to the first unknown entry and then what was received |
| `FollowerMerge.AgreesAfterwards` | src/raft/node.cpp:255-299 | after an accepted request the log agrees with it through its last entry, on every uncompacted index |
| `FollowerMerge.KeepsKnown` | src/raft/node.cpp:281-288 | everything before the first entry the follower did not have is kept |
| `FollowerMerge.ChangesOnlyAtConflict` | src/raft/node.cpp:281-288 | an entry is replaced or dropped only if a received entry at or before it has another term than the one the log had there |
| `FollowerMerge.RedeliveryIsHarmless` | src/raft/node.cpp:281-288 | merging the same request twice is merging it once |
| `FollowerMerge.StaleIsHarmless` | src/raft/node.cpp:281-288 | a later request, from any predecessor index, that carries only what the log had or the first request brought changes nothing |
| `RaftSafety.MergeKeepsAgreement` | src/raft/node.cpp:281-288 | what a follower shares with a leader's log is not undone by any piece of that log, however late or short |
| `FollowerMerge.RefusalHint` | src/raft/node.cpp:262-279 | a refusal reports the end of the log, or the mismatching term and its last index, which is never before the index asked about |
| `CommitRule.CommitPointIsHighest` | src/raft/node.cpp:550-565 | the downward search finds the highest own-term index that a quorum's match points reach, or there is none |
| `CommitRule.AdvanceCommits` | src/raft/node.cpp:550-565 | a leader advances to the highest index it may, never back, and has then applied everything up to it |
| `CommitRule.AppliesInOrder` | src/raft/node.cpp:567-597 | the map becomes the replay of the log up to the commit index, and nothing else changes |
| `CommitGap.ReplyCreditsWhatWasSent` | src/raft/node.cpp:301-321 | a success reply raises the match point to everything sent, whatever it answers, and never lowers it |
| `CommitGap.CommittedEntryLost` | src/raft/node.cpp:550-565 | a run in which a committed entry is missing from the log of the next term's leader, and whose committing reply is not credited with what was stored |
| `NodeObject.RaftNode.Persist` | src/raft/node.cpp:763-775 | the stores hold, flushed, exactly the encoded term, vote and log |
| `NodeObject.RaftNode.Crash` | src/raft/node.cpp:52-93 | volatile state is reset and what was persisted is still stored |
| `NodeObject.RaftNode.Restart` | src/raft/node.cpp:95-101 | decoding the stores gives back the persisted term, vote and log |
| `NodeObject.RaftNode.BecomeFollower` | src/raft/node.cpp:454-472 | the node steps down as specified, persists a new term, and re-arms its timer |
| `NodeObject.RaftNode.BecomeCandidate` | src/raft/node.cpp:474-492 | the node votes for itself in the next term, persists it and asks every peer |
| `NodeObject.RaftNode.BroadcastAll` | src/raft/node.cpp:474-492 | the loop sends the message to every peer in order |
| `NodeObject.RaftNode.BecomeLeader` | src/raft/node.cpp:494-514 | the per-peer indices are reset and every peer is sent its entries |
| `NodeObject.RaftNode.ReplicateTo` | src/raft/node.cpp:520-544 | what one peer is sent, and that its next index moves when it is sent |
| `NodeObject.RaftNode.ReplicateAll` | src/raft/node.cpp:546-548 | the loop over the peers, stopping at an exception |
| `NodeObject.RaftNode.MaybeAdvanceCommit` | src/raft/node.cpp:550-565 | the downward search finds the highest own-term index that a quorum's match points reach |
| `NodeObject.RaftNode.ApplyCommitted` | src/raft/node.cpp:567-597 | the entries up to the commit index are applied in order |
| `NodeObject.RaftNode.HandleRequestVote` | src/raft/node.cpp:218-237 | who gets the vote, what is persisted before the reply, and what is replied |
| `NodeObject.RaftNode.HandleRequestVoteReply` | src/raft/node.cpp:239-249 | replies of this term count once per node, and the quorum takes office |
| `NodeObject.RaftNode.MergeEntries` | src/raft/node.cpp:281-288 | the in-place loop computes the merge |
| `NodeObject.RaftNode.HandleAppendEntries` | src/raft/node.cpp:255-299 | refusals, conflict hints, the merge and its persistence, the commit index and the reply |
| `NodeObject.RaftNode.HandleAppendEntriesReply` | src/raft/node.cpp:301-321 | match points, fast backtracking and the resend |
| `NodeObject.RaftNode.HandleReadIndexRequest` | src/raft/node.cpp:381-388 | a request of a term not behind steps the node down, persists a new term and is answered |
| `NodeObject.RaftNode.HandleReadIndexReply` | src/raft/node.cpp:390-398 | a reply of a later term steps the node down |
| `NodeObject.RaftNode.OnMessage` | src/raft/node.cpp:167-212 | a running node hands each message to its handler |
| `NodeObject.RaftNode.OnHeartbeat` | src/raft/node.cpp:753-757 | a leader replicates to every peer |
| `NodeObject.RaftNode.ReadIndex` | src/raft/node.cpp:134-161 | a leader asks every peer, anyone else refuses |
| `NodeObject.RaftNode.Perform` | src/raft/node.cpp:167-212 | the object does any step of the cluster as its function says, and leaves the stores holding the encoded term, vote and log |
| `NodeObject.RaftNode.OnElectionTimer` | src/raft/node.cpp:748-751 | only a callback of the current generation makes a non-leader stand |
| `NodeObject.RaftNode.Submit` | src/raft/node.cpp:107-128 | a leader appends, persists and replicates; anyone else refuses |
| `NodeObject.ReadBack` | src/raft/log.cpp:71-108 | flushed stores decode to what was persisted |
| `Checker.WgCheck` | src/checker/own_checker.cpp:62-93 | true exactly when the unplaced operations have an order that respects real time and replays; on false the bitmap is as before |
| `Checker.IsEligible` | src/checker/own_checker.cpp:62-93 | no unplaced operation returned before this one was invoked |
| `Checker.StepIsSound` | src/checker/own_checker.cpp:62-93 | placing an eligible operation before a linearization of the rest is a linearization |
| `Checker.StepIsComplete` | src/checker/own_checker.cpp:62-93 | if the unplaced operations have a linearization, some eligible operation starts one |
| `Checker.TrySubset` | src/checker/own_checker.cpp:100-175 | the search from an empty bitmap decides linearizability of a list |
| `Checker.Separate` | src/checker/own_checker.cpp:100-175 | the operations with a definite outcome, and the puts cut off by a crash |
| `Checker.EverySubsetHasMask` | src/checker/own_checker.cpp:100-175 | every choice among the crashed puts is some bit mask below 2^n |
| `Checker.MasksDecide` | src/checker/own_checker.cpp:100-175 | some mask succeeds exactly when some choice of crashed puts explains the key |
| `Checker.Combine` | src/checker/own_checker.cpp:140-152 | the loop over the bits adds exactly the masked puts, as succeeded, to the certain operations |
| `Checker.TryMasks` | src/checker/own_checker.cpp:100-175 | the loop over the masks succeeds exactly when some mask does |
| `Checker.TrySample` | src/checker/own_checker.cpp:100-175 | the fallback succeeds exactly when none, all, or one of the first 15 crashed puts explain the key |
| `Checker.CheckKeyLinearizable` | src/checker/own_checker.cpp:100-175 | with at most 15 crashed puts the verdict is exact; above, a positive verdict still has a witness |
| `CheckerLimit.SampleMissesWitness` | src/checker/own_checker.cpp:153-172 | a linearizable history with 16 crashed puts that the fallback rejects |
| `CheckerLimit.ReadHasWriter` | src/checker/own_checker.cpp:15-32 | what a read returns was written by the last write before it, or is the initial value |
| `Locality.Projection` | src/storage/kv_store.cpp:9-37 | the checker's model of one key is the exact projection of the store |
| `Locality.ReplayByKey` | src/checker/own_checker.cpp:15-51 | an order replays on the whole store exactly when each key's part replays on that key |
| `Locality.MergeInRealTime` | src/checker/own_checker.cpp:181-199 | merging per-key orders by earliest invocation respects real time across keys |
| `Locality.LocalityTheorem` | src/checker/own_checker.cpp:181-199 | one order of all the operations the checker keeps exists if and only if every key passes on its own |
| `Linearizability.GroupByKey` | src/checker/own_checker.cpp:181-199 | each key gets its finished entries in history order |
| `Linearizability.CheckLinearizable` | src/checker/own_checker.cpp:181-199 | a positive verdict means the history is linearizable; a negative one names the least key whose check fails, and is exact for the history if only reads were lost |
| `Linearizability.AcceptedIsLinearizable` | src/checker/own_checker.cpp:100-175 | a history whose kept operations pass is linearizable, with operations of unknown outcome taking effect at any time or never |
| `Linearizability.LinearizableIsAccepted` | src/checker/own_checker.cpp:100-175 | without lost writes a linearizable history passes |
| `LostWrites.TimedOutPutRejected` | src/checker/own_checker.cpp:100-138 | a linearizable history the checker rejects: the value of a put that timed out is read |
| `LostWrites.CrashedPutRejected` | src/checker/own_checker.cpp:100-138 | a linearizable history the checker rejects: a crashed put takes effect after its recorded return |
| `KvStore.Store.Execute` | src/storage/kv_store.cpp:9-37 | for each command: what is found at its key afterwards, what it answers, and that no other key changes |
| `KvStore.Store.Read` | src/storage/kv_store.cpp:3-7 | a lookup finds the value of a key that is present and nothing otherwise |
| `KvStore.ApplyDoes` | src/storage/kv_store.cpp:9-37 | the same of the function: a put or a matching cas leaves its value, a delete leaves nothing, everything else leaves the map |
| `KvStore.LastWriteWins` | src/storage/kv_store.cpp:9-37 | over a whole log, a key has what its last put or successful cas left, and nothing if its last write is a delete |
| `KvStore.NeverWritten` | src/storage/kv_store.cpp:9-37 | over a whole log, a key that nothing was written to has no value |
| `ClientRecord.CrashIsRecorded` | src/harness/workload.cpp:107-127 | of the operations a crash answers only the puts are recorded with an unknown outcome: a cas becomes a mismatch, a read a read of nothing |
| `ClientRecord.VerdictOnRun` | src/harness/workload.cpp:84-150 | on a history the clients record, a positive verdict means that what happened is linearizable, with every crashed operation of unknown outcome; the verdict is exact if none was answered by a crash and only reads timed out or are open |
| `ClientRecord.RunClocked` | src/harness/history.cpp:18-25 | every recorded return is after time zero, if replies and timeouts are |
| `ClientRecord.RecordBlurs` | src/harness/workload.cpp:107-127 | the record differs from what happened only in definite records of operations without effect |
| `ClientRecord.ForgetUpTo` | src/checker/own_checker.cpp:95-102 | a linearizable history stays so when records of operations without effect are made unknown |
| `ClientRecord.CrashedCasRejected` | src/harness/workload.cpp:107-127 | a run of the clients in which a crashed cas takes effect: no write is recorded as lost, the recorded history has no order, what happened has one |
| `Workload.Conservation` | src/harness/workload.cpp:42-150 | issued = completed + pending = recorded, pending counts the waiting clients, returns follow invocations, and when done no entry is open |
| `Workload.NoOverlap` | src/harness/workload.cpp:42-82 | of two operations of one client the earlier has returned before the later is invoked |
| `Workload.TakeCloses` | src/harness/workload.cpp:84-150 | a step closes an entry only on its own client's reply with its request id, or on the timer set for it |
| `Workload.CompletedOnce` | src/harness/history.cpp:18-25 | an entry that has returned never changes again |
| `Workload.TakeKeeps` | src/harness/workload.cpp:42-150 | every callback keeps ownership of entries, live timers and counters in step |
| `Workload.Belief` | src/harness/workload.cpp:84-150 | a client changes its belief only when an operation ends: to the hint, or on a timeout or a refusal without one to the first node that is not the one it believed in |
| `Workload.NextRequestGoes` | src/harness/workload.cpp:71-82 | in every run, its next request is addressed accordingly |
| `Workload.EndIsRecorded` | src/harness/workload.cpp:93-140 | what is recorded when an operation ends, for each kind of operation and answer, and that no other entry changes |
| `Workload.Workload.constructor` | src/harness/workload.cpp:4-12 | all clients idle and believing in the first node, nothing issued |
| `Workload.Workload.IssueOp` | src/harness/workload.cpp:42-82 | the new entry, counters and timer; the request goes to the believed node with the recorded command; nothing when done or already waiting |
| `Workload.Workload.OnReply` | src/harness/workload.cpp:84-131 | stale, foreign or unexpected messages change nothing; otherwise the entry is closed with the observed response |
| `Workload.Workload.OnTimeout` | src/harness/workload.cpp:133-150 | the entry is closed as a timeout and the next node believed in |
| `Workload.Workload.NextLeader` | src/harness/workload.cpp:133-150 | the loop finds the first node other than the believed leader, if there is one, and otherwise keeps it |
| `Workload.Workload.RecordReturn` | src/harness/history.cpp:18-25 | only the entry named by the handle changes |
| `CompactedLog.RunCompacts` | src/raft/log.cpp:8-33 | after any appends, truncations and snapshots the compacted log stands for the plain one, indices included |
| `CompactedLog.QueriesAgree` | src/raft/log.cpp:35-69 | every query answers as the plain log does at and above the base |
| `CompactedLog.SearchBackFinds` | src/raft/log.cpp:63-69 | the reverse search finds the greatest index of a term, the boundary included |
| `CompactedLog.RaftLog.Append` | src/raft/log.cpp:8-11 | one entry is added at the end |
| `CompactedLog.RaftLog.TruncateFrom` | src/raft/log.cpp:13-18 | the suffix is dropped; the compacted part and positions past the end are left alone |
| `CompactedLog.RaftLog.SetSnapshot` | src/raft/log.cpp:20-33 | the prefix is dropped and the base moved, never back |
| `CompactedLog.RaftLog.LastIndexForTerm` | src/raft/log.cpp:63-69 | the loop computes the search |
| `Wal.TruncatedReplay` | src/storage/wal.cpp:107-139 | however a well-formed log is cut, replay yields exactly the commands whose records are whole |
| `Wal.RecoversFlushed` | src/storage/wal.cpp:86-139 | after any interleaving of appends, flushes and crashes, replay returns the flushed commands in order |
| `Wal.DiskHolds` | src/storage/durable_store.cpp:3-26 | the disk is the frames of the saved commands, flushed, followed by those of the unsaved ones |
| `Wal.TruncationKeeps` | src/storage/durable_store.cpp:23-26 | a truncation keeps every byte before the offset and its durability, and commutes with a crash |
| `WalIntegrity.ReplayStopsAtChange` | src/storage/wal.cpp:107-140 | one changed byte in the payload or checksum of any record: the replay yields exactly the commands before it |
| `WalIntegrity.ChecksumShows` | src/storage/wal.cpp:7-16 | any one changed byte changes the checksum |
| `WalIntegrity.CheckValue` | src/storage/wal.cpp:7-16 | the checksum of "123456789" is that of CRC-32c |
| `Wal.ComputeCrc` | src/storage/wal.cpp:7-16 | the nested loops compute the checksum |
| `Wal.WriteAheadLog.Append` | src/storage/wal.cpp:86-101 | exactly one framed record is written |
| `Wal.WriteAheadLog.Replay` | src/storage/wal.cpp:107-139 | the cursor loop returns the commands up to the first bad record |
| `Wal.DurableStore.Append` | src/storage/durable_store.cpp:3-26 | bytes are added, none of them flushed |
| `Wal.DurableStore.Flush` | src/storage/durable_store.cpp:3-26 | everything written becomes durable |
| `Wal.DurableStore.Crash` | src/storage/durable_store.cpp:3-26 | exactly the unflushed tail is lost |
| `Wal.DurableStore.TruncateTo` | src/storage/durable_store.cpp:3-26 | both ends are cut at the offset |
| `Codec.IntRoundTrip` | src/storage/codec.hpp:14-98 | n little-endian bytes give back every value below 256^n |
| `Codec.Encoder.PutU64` | src/storage/codec.hpp:14-41 | the byte loop writes the eight low bytes |
| `Codec.Encoder.PutU32` | src/storage/codec.hpp:14-41 | the four low bytes are written |
| `Codec.Encoder.PutU8` | src/storage/codec.hpp:14-41 | the low byte is written |
| `Codec.Encoder.PutBool` | src/storage/codec.hpp:14-41 | one byte, 1 or 0 |
| `Codec.Encoder.PutStr` | src/storage/codec.hpp:14-41 | the length, then the characters |
| `Codec.Decoder.TakeU64` | src/storage/codec.hpp:43-98 | the byte loop reads the value and moves the cursor, or signals underrun |
| `Codec.Decoder.TakeU32` | src/storage/codec.hpp:43-98 | four bytes are read, or underrun is signalled |
| `Codec.Decoder.TakeU8` | src/storage/codec.hpp:43-98 | one byte is read, or underrun is signalled |
| `Codec.Decoder.TakeBool` | src/storage/codec.hpp:43-98 | any byte but 0 is true |
| `Codec.Decoder.TakeStr` | src/storage/codec.hpp:43-98 | a length-prefixed string is read, or underrun is signalled |
| `Wire.CommandRoundTrip` | src/storage/wal.cpp:21-82 | all six commands decode to themselves and use exactly their bytes |
| `Wire.MessageRoundTrip` | src/raft/rpc.cpp:6-258 | all ten messages decode to themselves and use exactly their bytes |
| `Wire.LogRoundTrip` | src/raft/log.cpp:71-108 | a whole log decodes to itself |
| `Wire.MetaRoundTrip` | src/raft/node.cpp:763-775 | term and vote decode to themselves |
| `RpcCode.PutEntries` | src/raft/rpc.cpp:73-84 | the loop writes the count and every entry |
| `RpcCode.TakeEntries` | src/raft/rpc.cpp:86-102 | the loop reads as many entries as the count says, or signals underrun |
| `RpcCode.TakeEntry` | src/raft/rpc.cpp:14-30 | the nested command is read from its own length-prefixed run |
| `RpcCode.PutEntry` | src/raft/rpc.cpp:6-12 | term, index and the length-prefixed command |
| `RpcCode.PutBlob` | src/raft/rpc.cpp:6-12 | the byte loop writes the length and the bytes |
| `RpcCode.TakeBlob` | src/raft/rpc.cpp:14-30 | the sub-decoder is drained byte by byte, or underrun is signalled |
| `RpcCode.EncodeAppendEntries` | src/raft/rpc.cpp:73-84 | the bytes of the message |
| `RpcCode.DecodeAppendEntries` | src/raft/rpc.cpp:86-102 | the message those bytes came from |
| `Snapshot.RunAligned` | src/raft/node.cpp:603-662 | in every reachable state of a node, wherever its log was cut, the log base is the snapshot index and the stores hold the captured map and the log |
| `Snapshot.RunReplays` | src/raft/node.cpp:567-597 | as long as nothing committed is cut, the map is the replay of the applied log and the captured one the replay up to the snapshot |
| `Snapshot.Progresses` | src/raft/node.cpp:567-625 | committing applies every entry up to there, and a snapshot holds all that has been applied and leaves in the log exactly what comes after |
| `Snapshot.CrashAndRestart` | src/raft/node.cpp:52-101 | a crash and a restart bring back the map the last snapshot captured, the applied and commit index at it, and the whole log |
| `Snapshot.CompactKeeps` | src/raft/node.cpp:603-623 | taking a snapshot keeps the alignment of log, map and stores |
| `Snapshot.DumpRoundTrip` | src/raft/node.cpp:637-662 | whatever the iteration order, the serialized map comes back |
| `Snapshot.FileRoundTrip` | src/raft/node.cpp:625-635 | the snapshot file gives back index, term and data |
| `Snapshot.Serialize` | src/raft/node.cpp:603-623 | the loop over the keys writes each pair once, in ascending order of keys |
| `KeyOrder.LessIs` | src/raft/node.cpp:613 | the order of keys in a snapshot: the first difference decides, and a proper prefix comes first |
| `Snapshot.Deserialize` | src/raft/node.cpp:637-662 | the loop reads the pairs back into a map, or signals underrun |
| `Snapshot.SnapshotNode.ApplyCommitted` | src/raft/node.cpp:567-597 | entries above the base are applied in order up to the commit index |
| `Snapshot.SnapshotNode.Take` | src/raft/node.cpp:603-623 | the snapshot in memory and on disk, and the compacted log persisted |
| `Snapshot.SnapshotNode.Save` | src/raft/node.cpp:625-635 | the store holds exactly the snapshot file, flushed |
| `Snapshot.SnapshotNode.LoadSaved` | src/raft/node.cpp:637-662 | a stored snapshot sets map, indices and log base; without one nothing changes |
| `Snapshot.SnapshotNode.CrashNode` | src/raft/node.cpp:52-93 | indices and map fall back to the snapshot |
| `Snapshot.SnapshotNode.RestartNode` | src/raft/node.cpp:23-50 | snapshot first, then the stored log |
| `Prng.Unbiased` | src/sim/prng.cpp:37-54 | each of the n outputs comes from exactly floor(2^64 / n) accepted words |
| `Prng.Window` | src/sim/prng.cpp:37-54 | the words that yield a value are one interval of that length |
| `Prng.Generator.Range` | src/sim/prng.cpp:37-54 | the loop returns the image of the first accepted word, within the bounds; the early test changes nothing |
| `Prng.Generator.Shuffle` | src/sim/prng.hpp:25-31 | the in-place loop permutes the array as its draws say |
| `Prng.EveryOrderDrawn` | src/sim/prng.hpp:25-31 | every order of the elements is reached by some draws |
| `Prng.DrawsAreDistinct` | src/sim/prng.hpp:25-31 | different draws give different orders of distinct elements |
| `EventLoop.RunInOrder` | src/sim/simulator.cpp:5-53 | over any run actions run strictly in (time, seq) order and the clock never goes back |
| `EventLoop.CancelledNeverRuns` | src/sim/event_queue.cpp:9-30 | an event cancelled while queued never runs |
| `EventLoop.UncancelledRuns` | src/sim/event_queue.cpp:21-30 | an event nobody cancels has run once it has left the queue |
| `EventLoop.ScheduledRuns` | src/sim/simulator.cpp:5-13 | what is scheduled is due after its delay and has run once the clock is past, unless its id is cancelled |
| `EventLoop.ActionTakesEffect` | src/sim/simulator.cpp:18-35 | when an event runs, everything its action schedules or cancels takes effect, counted from the event's time |
| `EventLoop.LateCancelIsHarmless` | src/sim/event_queue.cpp:9-15 | cancelling an event that has left the queue changes nothing about what runs |
| `EventLoop.EventQueue.PopMin` | src/sim/event_queue.cpp:21-30 | the least event by (time, seq) is removed, with its cancellation mark |
| `EventLoop.EventQueue.Push` | src/sim/event_queue.cpp:4-7 | the event is queued under its id |
| `EventLoop.EventQueue.MarkCancelled` | src/sim/event_queue.cpp:9-15 | only the mark is set, the queue is untouched |
| `EventLoop.EventQueue.PeekTime` | src/sim/event_queue.cpp:32-34 | the time of the least event |
| `EventLoop.Simulator.ScheduleAt` | src/sim/simulator.cpp:9-12 | a fresh id at a fixed time |
| `EventLoop.Simulator.CancelEvent` | src/sim/simulator.cpp:14-16 | the id is marked |
| `EventLoop.Simulator.ScheduleAfter` | src/sim/simulator.cpp:5-12 | a fresh id at the current time plus the delay |
| `EventLoop.Simulator.ProcessOne` | src/sim/simulator.cpp:18-35 | the clock moves to the least event, whose action runs unless it was cancelled |
| `EventLoop.Simulator.RunFor` | src/sim/simulator.cpp:47-53 | the loop is a run; when it ends by itself the clock is at the deadline and nothing queued is due |

## Left out

- RaftTheorems.LeaderCompleteness: stated over what a majority stored, not over the commit index, because the commit index may cover entries a majority never stored (`CommitGap.CommittedEntryLost`).
- StateMachineSafety.AgreeIffMatch: over runs whose replies are credited with what was stored; in other runs an entry committed by the leader alone may still survive, since a later leader that has it can make it durable with entries of its own term.
- StateMachineSafety.VouchedRunsAgree: one way only; the exact condition is that of `StateMachineSafety.AgreeIffMatch`.
- ClientRecord.VerdictOnRun: that replies and timeouts come after time zero is a condition on the run, met by the simulator's latencies of at least a millisecond.
- Linearizability.CheckLinearizable: with lost writes a negative verdict is about the operations the checker keeps, as `LostWrites` shows; a history is judged as recorded, where a read of a value spelled like one of the outcome markers counts as that outcome.
- Checker.CheckKeyLinearizable: above 15 crashed puts on a key a negative verdict is exact only for the subsets tried, as `CheckerLimit.SampleMissesWitness` shows.
- NodeObject.RaftNode.Crash: the pending-client and pending-read tables and the heartbeat flag are not part of the model.
- NodeObject.RaftNode.BecomeFollower: does not cancel pending reads and the heartbeat, which are not part of the model.
- NodeObject.RaftNode.BecomeLeader: does not schedule the heartbeat, which may fire at any moment.
- NodeObject.RaftNode.ApplyCommitted: client callbacks, waiting reads and membership changes are not part of the model.
- NodeObject.RaftNode.Submit: the client table and the single pending membership change are not part of the model.
- NodeObject.RaftNode.HandleReadIndexReply: the count of answers to a read round and the reads it releases are not part of the model.
- NodeObject.RaftNode.OnMessage: client requests arrive through `Submit`, and snapshot messages, which are never sent with snapshots off, change nothing.
- NodeObject.RaftNode.OnHeartbeat: does not schedule the next heartbeat, which may fire at any moment.
- NodeObject.RaftNode.ReadIndex: the table of waiting reads and the immediate answer of a single node are not part of the model.
- Snapshot.SnapshotNode.ApplyCommitted: client callbacks and membership changes are not part of the model.
- Prng.Generator.Shuffle: stops when the given words run out.
- NodeObject.RaftNode.Restart: reads back what fits the fields it was written to; terms and indices are unbounded numbers in the model.
- NodeObject.RaftNode.HandleAppendEntriesReply: a missing next index counts as nothing sent, where the source's unsigned subtraction would wrap; `RaftTheorems.LeadersKnowNext` shows that this does not happen in any run.
- Prng.Generator.Range: the raw 64-bit words are a given stream, and the draw gives up when the stream ends; the generator's own state and its seeding are not modelled.
- EventLoop.Simulator.RunFor: the calls an action makes are given as a script, and the loop stops when the script ends.
- Progress and liveness of the cluster as a whole; `Backtracking` is about one leader and one follower with nothing in between, and a next index past the leader's log, an exception in the source, is modelled as sending nothing.
- HandlerRules.SubmitRule: like the rules beside it, over logs without a compacted part, which `HandlerRules.PlainAt` shows of every run.
- InstallSnapshot and compaction inside the cluster, and membership changes.
- Read-index linearizability, client callbacks and the pending-client table; the read-index messages themselves are part of the cluster.
- Heartbeat timer flags: a heartbeat may fire at any moment.
- The nine other message encoders and decoders as buffer-pushing methods: their layouts are the functions of `Wire`, and only the ones with loops are also code.
- The trace fingerprint: the model keeps the list of events it digests.
- What the checksum detects beyond one changed byte, the floating-point draws, the fault injector's probabilities, overflow of 64-bit terms, indices and times.
- The server, the file-backed store, the command line, the demo, the benchmark, JSON output and the Go glue.
